/**
 * `commands/send_stream.rs`, the older revision of the stream commands
 * (`stream` and `stopstream`). Stopping goes through the state's `x`
 * switch, and a frame is sent as 32-bit words rather than RGB bytes.
 */
module StreamLegacy {
  import opened Wrappers
  import opened Bytes
  import opened Session
  import opened Actions
  import opened Capture
  import Util

  /** `SendStreamCommand::name` */
  const StartName: string := "stream"
  /** `StopStreamCommand::name` */
  const StopName: string := "stopstream"

  /** Four bytes in, four bytes out: the signature of `util::yuyv_to_rgb`, which is not part of this model. */
  type Convert = (byte, byte, byte, byte) -> (byte, byte, byte, byte)

  /** One group converted and read as a big-endian word. */
  function Word(convert: Convert, b0: byte, b1: byte, b2: byte, b3: byte): u32
  {
    var c := convert(b0, b1, b2, b3);
    U32FromBE(c.0, c.1, c.2, c.3)
  }

  /**
   * The words as the source computes them, over `chunks(4)`: the unwrap on
   * the conversion of a last group shorter than four bytes fails, which is
   * None here.
   */
  function WordsAsWritten(data: seq<byte>, convert: Convert): (r: Option<seq<u32>>)
    ensures r.Some? <==> |data| % 4 == 0
  {
    if |data| == 0 then Some([])
    else if |data| < 4 then None
    else
      match WordsAsWritten(data[4..], convert)
      case None => None
      case Some(rest) => Some([Word(convert, data[0], data[1], data[2], data[3])] + rest)
  }

  /** The words over whole groups only (`chunks_exact(4)`): a short last group is dropped. */
  function Words(data: seq<byte>, convert: Convert): (r: seq<u32>)
    ensures |r| == |data| / 4
    ensures forall i :: 0 <= i < |r| ==> r[i] == Word(convert, data[4 * i], data[4 * i + 1], data[4 * i + 2], data[4 * i + 3])
  {
    if |data| < 4 then []
    else
      var rest := Words(data[4..], convert);
      assert forall i :: 0 <= i < |rest| ==> data[4..][4 * i] == data[4 * (i + 1)];
      [Word(convert, data[0], data[1], data[2], data[3])] + rest
  }

  /** Where the source does not fail, the two agree. */
  lemma {:induction false} WordsAgree(data: seq<byte>, convert: Convert)
    requires |data| % 4 == 0
    ensures WordsAsWritten(data, convert) == Some(Words(data, convert))
    decreases |data|
  {
    if |data| >= 4 {
      WordsAgree(data[4..], convert);
    }
  }

  /** A six-byte frame passes the source's comment's reasoning but not its unwrap. */
  lemma WordsAsWrittenFails(convert: Convert)
    ensures WordsAsWritten([0, 0, 0, 0, 0, 0], convert) == None
    ensures |Words([0, 0, 0, 0, 0, 0], convert)| == 1
  {
  }

  /** `SendStream`: the capture stream and the frame size read from the device. */
  class SendStream {
    const camera: Camera
    const width: u64
    const height: u64
    const convert: Convert

    /** `SendStream::new`: every setup failure panics in the source, so construction always succeeds here. */
    constructor(camera: Camera, width: u64, height: u64, convert: Convert)
      ensures this.camera == camera && this.width == width && this.height == height && this.convert == convert
    {
      this.camera, this.width, this.height, this.convert := camera, width, height, convert;
    }

    /**
     * `process`: when `x` is `Stop`, set it back to `Run`, announce the end
     * of the stream and complete; when reading a frame fails, report the
     * error, announce the end and complete; otherwise broadcast the frame's
     * words and ask to be called again.
     */
    method Process(state: State, network: Network) returns (p: Processing)
      modifies state, network, camera
      ensures old(state.x) == Stop ==>
        && state.x == Run && camera.taken == old(camera.taken)
        && state.log == old(state.log)
        && network.sent == old(network.sent) + [(state.userEndpoints, StreamWords(None))]
        && p == Completed
      ensures old(state.x) == Run ==>
        && state.x == Run && camera.taken == old(camera.taken) + 1
        && var frame := camera.capture(old(camera.taken));
          && (frame.Err? ==>
               && state.log == old(state.log) + [SystemMessage(frame.error, SystemMessageType.Error)]
               && network.sent == old(network.sent) + [(state.userEndpoints, StreamWords(None))]
               && p == Completed)
          && (frame.Ok? ==>
               && state.log == old(state.log)
               && network.sent == old(network.sent)
                    + [(state.userEndpoints, StreamWords(Some((Words(frame.value, convert), width, height))))]
               && p == Partial(0))
      ensures (state.stopStream, state.stopAudio, state.audio, state.userEndpoints, state.nextProgressId)
           == old((state.stopStream, state.stopAudio, state.audio, state.userEndpoints, state.nextProgressId))
    {
      if state.x == Stop {
        state.x := Run;
        network.SendAll(state.AllUserEndpoints(), StreamWords(None));
        return Completed;
      }
      var frame := camera.Next();
      match frame {
        case Err(e) =>
          Util.ReportErr(e, state);
          network.SendAll(state.AllUserEndpoints(), StreamWords(None));
          p := Completed;
        case Ok(data) =>
          network.SendAll(state.AllUserEndpoints(), StreamWords(Some((Words(data, convert), width, height))));
          p := Partial(0);
      }
    }
  }

  /** `StopStream::process`: switch `x` to `Stop` and complete; nothing is sent. */
  method StopStreamProcess(state: State) returns (p: Processing)
    modifies state
    ensures state.x == Stop && p == Completed
    ensures state.log == old(state.log)
    ensures (state.stopStream, state.stopAudio, state.audio, state.userEndpoints, state.nextProgressId)
         == old((state.stopStream, state.stopAudio, state.audio, state.userEndpoints, state.nextProgressId))
  {
    state.x := Stop;
    p := Completed;
  }
}
