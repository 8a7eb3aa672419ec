/**
 * `commands/send_stream/linux.rs`: the `startstream` and `stopstream`
 * commands. The stream action sends one camera frame, converted from YUYV
 * to RGB, per quantum until the paired stop action raises the state's
 * `stop_stream` flag.
 */
module StreamLinux {
  import opened Wrappers
  import opened Bytes
  import opened Message
  import opened Session
  import opened Actions
  import opened Capture
  import Util

  /** `SendStreamCommand::name` */
  const StartName: string := "startstream"
  /** `StopStreamCommand::name` */
  const StopName: string := "stopstream"

  /** The delay a streaming quantum asks for (about 60 frames a second). */
  const FrameDelayMs: nat := 16

  /** The RGB bytes of one pixel, in the order r, g, b. */
  function PixelBytes(p: (byte, byte, byte)): (r: seq<byte>)
    ensures |r| == 3
  {
    [p.0, p.1, p.2]
  }

  /**
   * The RGB bytes of a YUYV frame: each whole 4-byte group [Y, U, Y', V]
   * gives one pixel from Y, U and V (the second luma byte is not used); a
   * trailing group of fewer than four bytes is dropped (`chunks_exact`).
   * `pixel` stands for the floating-point colour conversion.
   */
  function Rgb(data: seq<byte>, pixel: (byte, byte, byte) -> (byte, byte, byte)): (r: seq<byte>)
    ensures |r| == 3 * (|data| / 4)
  {
    if |data| < 4 then [] else PixelBytes(pixel(data[0], data[1], data[3])) + Rgb(data[4..], pixel)
  }

  /** Converting a frame group by group: the groups before a whole group, then that group. */
  lemma {:induction false} RgbAppendGroup(data: seq<byte>, group: seq<byte>, pixel: (byte, byte, byte) -> (byte, byte, byte))
    requires |data| % 4 == 0 && |group| == 4
    ensures Rgb(data + group, pixel) == Rgb(data, pixel) + PixelBytes(pixel(group[0], group[1], group[3]))
    decreases |data|
  {
    if |data| == 0 {
      assert data + group == group;
      assert group[4..] == [];
    } else {
      assert (data + group)[4..] == data[4..] + group;
      RgbAppendGroup(data[4..], group, pixel);
    }
  }

  /** Pixel i of the output comes from bytes 4i, 4i+1 and 4i+3 of the frame. */
  lemma {:induction false} RgbPixel(data: seq<byte>, pixel: (byte, byte, byte) -> (byte, byte, byte), i: nat)
    requires i < |data| / 4
    ensures Rgb(data, pixel)[3 * i..3 * i + 3] == PixelBytes(pixel(data[4 * i], data[4 * i + 1], data[4 * i + 3]))
  {
    if i > 0 {
      RgbPixel(data[4..], pixel, i - 1);
      var rest := Rgb(data[4..], pixel);
      assert Rgb(data, pixel)[3 * i..3 * i + 3] == rest[3 * (i - 1)..3 * (i - 1) + 3];
    }
  }

  /** A trailing partial group does not change the output. */
  lemma {:induction false} RgbDropsTail(data: seq<byte>, tail: seq<byte>, pixel: (byte, byte, byte) -> (byte, byte, byte))
    requires |data| % 4 == 0 && |tail| < 4
    ensures Rgb(data + tail, pixel) == Rgb(data, pixel)
    decreases |data|
  {
    if |data| == 0 {
      assert data + tail == tail;
    } else {
      assert (data + tail)[4..] == data[4..] + tail;
      RgbDropsTail(data[4..], tail, pixel);
    }
  }

  /** The fold over `chunks_exact(4)` that builds the RGB bytes of a frame. */
  method YuyvToRgb(data: seq<byte>, pixel: (byte, byte, byte) -> (byte, byte, byte)) returns (acc: seq<byte>)
    ensures acc == Rgb(data, pixel)
  {
    acc := [];
    var k := 0;
    while k + 4 <= |data|
      invariant k % 4 == 0 && k <= |data|
      invariant acc == Rgb(data[..k], pixel)
    {
      var y, u, v := data[k], data[k + 1], data[k + 3];
      RgbAppendGroup(data[..k], data[k..k + 4], pixel);
      assert data[..k] + data[k..k + 4] == data[..k + 4];
      acc := acc + PixelBytes(pixel(y, u, v));
      k := k + 4;
    }
    RgbDropsTail(data[..k], data[k..], pixel);
    assert data[..k] + data[k..] == data;
  }

  /** `SendStream`: the capture stream and the frame size fixed when it was opened. */
  class SendStream {
    const camera: Camera
    const width: u64
    const height: u64
    const pixel: (byte, byte, byte) -> (byte, byte, byte)

    constructor(camera: Camera, width: u64, height: u64, pixel: (byte, byte, byte) -> (byte, byte, byte))
      ensures this.camera == camera && this.width == width && this.height == height && this.pixel == pixel
    {
      this.camera, this.width, this.height, this.pixel := camera, width, height, pixel;
    }

    /**
     * `process`: when the stop flag is up, lower it, announce the end of the
     * stream and complete without reading; when reading a frame fails,
     * report the error, announce the end and complete; otherwise broadcast
     * the converted frame and ask to be called again after 16 ms.
     */
    method Process(state: State, network: Network) returns (p: Processing)
      modifies state, network, camera
      ensures old(state.stopStream) ==>
        && !state.stopStream && camera.taken == old(camera.taken)
        && state.log == old(state.log)
        && network.sent == old(network.sent) + [(state.userEndpoints, Wire(Stream(None)))]
        && p == Completed
      ensures !old(state.stopStream) ==>
        && !state.stopStream && camera.taken == old(camera.taken) + 1
        && var frame := camera.capture(old(camera.taken));
          && (frame.Err? ==>
               && state.log == old(state.log) + [SystemMessage(frame.error, SystemMessageType.Error)]
               && network.sent == old(network.sent) + [(state.userEndpoints, Wire(Stream(None)))]
               && p == Completed)
          && (frame.Ok? ==>
               && state.log == old(state.log)
               && network.sent == old(network.sent)
                    + [(state.userEndpoints, Wire(Stream(Some(Frame(Rgb(frame.value, pixel), width, height)))))]
               && p == Partial(FrameDelayMs))
      ensures (state.stopAudio, state.x, state.audio, state.userEndpoints, state.nextProgressId)
           == old((state.stopAudio, state.x, state.audio, state.userEndpoints, state.nextProgressId))
    {
      if state.stopStream {
        state.stopStream := false;
        network.SendAll(state.AllUserEndpoints(), Wire(Stream(None)));
        return Completed;
      }
      var frame := camera.Next();
      match frame {
        case Err(e) =>
          Util.ReportErr(e, state);
          network.SendAll(state.AllUserEndpoints(), Wire(Stream(None)));
          p := Completed;
        case Ok(data) =>
          var rgb := YuyvToRgb(data, pixel);
          network.SendAll(state.AllUserEndpoints(), Wire(Stream(Some(Frame(rgb, width, height)))));
          p := Partial(FrameDelayMs);
      }
    }
  }

  /** The `expect` message when the capture device cannot be opened. */
  const OpenDeviceFailure: string := "Failed to open device"

  /** How `SendStream::new` ends: the action, an error passed up by `?`, or the `expect` panicking. */
  datatype Construction = Built(action: SendStream) | SetupFailed(error: string) | DevicePanic(message: string)

  /**
   * `SendStream::new`: opening the device is expected to succeed and
   * panics otherwise; then the device's format (width and height) or the
   * error met reading or setting it or mapping the buffers.
   */
  method NewSendStream(device: Result<(), string>, setup: Result<(u64, u64), string>, camera: Camera,
                       pixel: (byte, byte, byte) -> (byte, byte, byte))
    returns (r: Construction)
    ensures device.Err? ==> r == DevicePanic(OpenDeviceFailure)
    ensures device.Ok? && setup.Err? ==> r == SetupFailed(setup.error)
    ensures device.Ok? && setup.Ok? ==>
      && r.Built? && fresh(r.action) && r.action.camera == camera
      && r.action.width == setup.value.0 && r.action.height == setup.value.1 && r.action.pixel == pixel
  {
    if device.Err? {
      return DevicePanic(OpenDeviceFailure);
    }
    match setup {
      case Err(e) => r := SetupFailed(e);
      case Ok((w, h)) =>
        var s := new SendStream(camera, w, h, pixel);
        r := Built(s);
    }
  }

  /** `StopStream::process`: raise the stop flag and complete; nothing is sent. */
  method StopStreamProcess(state: State) returns (p: Processing)
    modifies state
    ensures state.stopStream && p == Completed
    ensures state.log == old(state.log)
    ensures (state.stopAudio, state.x, state.audio, state.userEndpoints, state.nextProgressId)
         == old((state.stopAudio, state.x, state.audio, state.userEndpoints, state.nextProgressId))
  {
    state.stopStream := true;
    p := Completed;
  }
}
