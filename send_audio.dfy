/**
 * `commands/send_audio.rs`: the `sendaudio` and `stopaudio` commands. The
 * audio action forwards, once per quantum, everything the microphone side
 * has put into its channel since the previous quantum, until the paired
 * stop action raises the state's `stop_audio` flag.
 */
module SendAudio {
  import opened Wrappers
  import opened Bytes
  import opened Session
  import opened Actions
  import Audio

  /** `SendAudioCommand::name` */
  const StartName: string := "sendaudio"
  /** `StopAudioCommand::name` */
  const StopName: string := "stopaudio"

  /** The delay a forwarding quantum asks for. */
  const AudioDelayMs: nat := 10

  /** The buffers put together, in order. */
  function Flatten(buffers: seq<seq<byte>>): (r: seq<byte>)
  {
    if buffers == [] then [] else buffers[0] + Flatten(buffers[1..])
  }

  lemma {:induction false} FlattenAppend(a: seq<seq<byte>>, b: seq<seq<byte>>)
    ensures Flatten(a + b) == Flatten(a) + Flatten(b)
  {
    if a == [] {
      assert a + b == b;
    } else {
      assert (a + b)[1..] == a[1..] + b;
      FlattenAppend(a[1..], b);
    }
  }

  /** The receiving end of the microphone channel: the buffers sent and not yet received, oldest first. */
  class Channel {
    var pending: seq<seq<byte>>

    constructor()
      ensures pending == []
    {
      pending := [];
    }

    /** The microphone side's `send`. */
    method Send(buffer: seq<byte>)
      modifies this
      ensures pending == old(pending) + [buffer]
    {
      pending := pending + [buffer];
    }

    /** One step of `try_iter`: the oldest pending buffer, or None when there is none. */
    method TryRecv() returns (r: Option<seq<byte>>)
      modifies this
      ensures old(pending) == [] ==> r == None && pending == []
      ensures old(pending) != [] ==> r == Some(old(pending)[0]) && pending == old(pending)[1..]
    {
      if pending == [] {
        r := None;
      } else {
        r := Some(pending[0]);
        pending := pending[1..];
      }
    }
  }

  /** `try_iter().flatten().collect()`: everything pending, in arrival order, leaving the channel empty. */
  method Drain(rx: Channel) returns (audio: seq<byte>)
    modifies rx
    ensures audio == Flatten(old(rx.pending)) && rx.pending == []
  {
    audio := [];
    while true
      invariant audio + Flatten(rx.pending) == Flatten(old(rx.pending))
      decreases |rx.pending|
    {
      ghost var before := rx.pending;
      var next := rx.TryRecv();
      if next.None? {
        break;
      }
      assert before == [before[0]] + before[1..];
      FlattenAppend([before[0]], before[1..]);
      audio := audio + next.value;
    }
  }

  /** `SendAudio`: the receiving end of the microphone channel. */
  class SendAudioAction {
    const rx: Channel

    /** `SendAudio::new`, which cannot fail: the microphone thread is not part of this model. */
    constructor()
      ensures fresh(rx) && rx.pending == []
    {
      rx := new Channel();
    }

    /**
     * `process`: when the stop flag is up, lower it, announce the end of the
     * audio and complete; otherwise send everything pending (possibly
     * nothing) and ask to be called again after 10 ms. No error is ever
     * reported.
     */
    method Process(state: State, network: Network) returns (p: Processing)
      modifies state, network, rx
      ensures !state.stopAudio && state.log == old(state.log)
      ensures old(state.stopAudio) ==>
        && rx.pending == old(rx.pending)
        && network.sent == old(network.sent) + [(state.userEndpoints, StreamAudio(None))]
        && p == Completed
      ensures !old(state.stopAudio) ==>
        && rx.pending == []
        && network.sent == old(network.sent) + [(state.userEndpoints, StreamAudio(Some(Flatten(old(rx.pending)))))]
        && p == Partial(AudioDelayMs)
      ensures (state.stopStream, state.x, state.audio, state.userEndpoints, state.nextProgressId)
           == old((state.stopStream, state.x, state.audio, state.userEndpoints, state.nextProgressId))
    {
      if state.stopAudio {
        state.stopAudio := false;
        network.SendAll(state.AllUserEndpoints(), StreamAudio(None));
        return Completed;
      }
      var audio := Drain(rx);
      network.SendAll(state.AllUserEndpoints(), StreamAudio(Some(audio)));
      p := Partial(AudioDelayMs);
    }
  }

  /** `StopAudioStream::process`: raise the stop flag and complete; nothing is sent. */
  method StopAudioProcess(state: State) returns (p: Processing)
    modifies state
    ensures state.stopAudio && p == Completed
    ensures state.log == old(state.log)
    ensures (state.stopStream, state.x, state.audio, state.userEndpoints, state.nextProgressId)
         == old((state.stopStream, state.x, state.audio, state.userEndpoints, state.nextProgressId))
  {
    state.stopAudio := true;
    p := Completed;
  }

  // ---------------------------------------------------------------- end to end

  /** Each buffer the microphone side sends: its samples, little-endian. */
  function SampleBuffers(recorded: seq<seq<u32>>): (r: seq<seq<byte>>)
    ensures |r| == |recorded|
  {
    if recorded == [] then [] else [Audio.SampleBytes(recorded[0])] + SampleBuffers(recorded[1..])
  }

  function AllSamples(recorded: seq<seq<u32>>): seq<u32>
  {
    if recorded == [] then [] else recorded[0] + AllSamples(recorded[1..])
  }

  /**
   * Samples recorded into several buffers, forwarded in one quantum and
   * decoded by the playback side, come out as all the samples in recording
   * order.
   */
  lemma {:induction false} ForwardedSamplesPlayInOrder(recorded: seq<seq<u32>>)
    ensures Audio.PlaybackSamples(Flatten(SampleBuffers(recorded))) == AllSamples(recorded)
  {
    if recorded != [] {
      var first := Audio.SampleBytes(recorded[0]);
      var rest := Flatten(SampleBuffers(recorded[1..]));
      ForwardedSamplesPlayInOrder(recorded[1..]);
      Audio.PlaybackAppend(first, rest);
      Audio.PlaybackOfSampleBytes(recorded[0]);
    }
  }
}
