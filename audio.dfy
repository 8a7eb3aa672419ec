/**
 * `state/audio.rs`: the playback stream a `State` owns while audio is being
 * received. It is started lazily by the first buffer, fed one buffer per
 * call, and stopped and dropped by `stop_audio`. On platforms other than
 * Linux both operations do nothing.
 */
module Audio {
  import opened Wrappers
  import opened Bytes
  import opened Session

  /**
   * `pulse_audio`: start a stream if there is none, then forward the buffer
   * to the (new or existing) stream.
   */
  method PulseAudio(state: State, audio: seq<byte>)
    modifies state, if state.audio.Some? then {state.audio.value} else {}
    ensures !state.onLinux ==> state.audio == old(state.audio)
    ensures !state.onLinux && old(state.audio).Some? ==>
      unchanged(old(state.audio).value)
    ensures state.onLinux ==> state.audio.Some?
    ensures state.onLinux && old(state.audio).Some? ==>
      && state.audio == old(state.audio)
      && state.audio.value.forwarded == old(state.audio.value.forwarded) + [audio]
      && state.audio.value.stopSignals == old(state.audio.value.stopSignals)
    ensures state.onLinux && old(state.audio).None? ==>
      && fresh(state.audio.value)
      && state.audio.value.forwarded == [audio]
      && state.audio.value.stopSignals == 0
    ensures state.log == old(state.log)
    ensures (state.stopStream, state.stopAudio, state.x, state.userEndpoints, state.nextProgressId)
         == old((state.stopStream, state.stopAudio, state.x, state.userEndpoints, state.nextProgressId))
  {
    if state.onLinux {
      if state.audio.None? {
        var stream := new AudioStream();
        state.audio := Some(stream);
      }
      state.audio.value.Update(audio);
    }
  }

  /** `stop_audio`: take the stream out of the state and signal it to stop, once. */
  method StopAudio(state: State)
    modifies state, if state.audio.Some? then {state.audio.value} else {}
    ensures !state.onLinux ==> state.audio == old(state.audio)
    ensures !state.onLinux && old(state.audio).Some? ==>
      unchanged(old(state.audio).value)
    ensures state.onLinux ==> state.audio == None
    ensures state.onLinux && old(state.audio).Some? ==>
      && old(state.audio).value.stopSignals == old(state.audio.value.stopSignals) + 1
      && old(state.audio).value.forwarded == old(state.audio.value.forwarded)
    ensures state.log == old(state.log)
    ensures (state.stopStream, state.stopAudio, state.x, state.userEndpoints, state.nextProgressId)
         == old((state.stopStream, state.stopAudio, state.x, state.userEndpoints, state.nextProgressId))
  {
    if state.onLinux {
      var taken := state.audio;
      state.audio := None;
      if taken.Some? {
        taken.value.Stop();
      }
    }
  }

  // ---------------------------------------------------------------- samples

  /**
   * What the playback thread makes of the bytes it received: consecutive
   * 4-byte groups read little-endian (`f32::from_le_bytes`, kept here as the
   * 32-bit pattern), with a last group shorter than 4 bytes dropped
   * (`chunks_exact`).
   */
  function PlaybackSamples(data: seq<byte>): (r: seq<u32>)
    ensures |r| == |data| / 4
    ensures forall i :: 0 <= i < |r| ==> r[i] == FromLE(data[4 * i..4 * i + 4])
  {
    if |data| < 4 then []
    else
      Pow256Values();
      var rest := PlaybackSamples(data[4..]);
      GroupsOfTail(data, |rest|);
      [FromLE(data[..4])] + rest
  }

  /** The groups of what follows the first group are the later groups. */
  lemma GroupsOfTail<T>(data: seq<T>, count: nat)
    requires 4 * (count + 1) <= |data|
    ensures forall i :: 0 <= i < count ==> data[4..][4 * i..4 * i + 4] == data[4 * (i + 1)..4 * (i + 1) + 4]
  {
    forall i | 0 <= i < count
      ensures data[4..][4 * i..4 * i + 4] == data[4 * (i + 1)..4 * (i + 1) + 4]
    {
      var x, y := data[4..][4 * i..4 * i + 4], data[4 * (i + 1)..4 * (i + 1) + 4];
      assert forall j :: 0 <= j < 4 ==> x[j] == data[4 * i + 4 + j] == y[j];
    }
  }

  /** The bytes a sender produces for the given samples. */
  function SampleBytes(samples: seq<u32>): (r: seq<byte>)
    ensures |r| == 4 * |samples|
  {
    if samples == [] then [] else U32LE(samples[0]) + SampleBytes(samples[1..])
  }

  /** Samples written little-endian are read back unchanged. */
  lemma {:induction false} PlaybackOfSampleBytes(samples: seq<u32>)
    ensures PlaybackSamples(SampleBytes(samples)) == samples
  {
    if samples != [] {
      var bs := SampleBytes(samples);
      assert bs[..4] == U32LE(samples[0]);
      assert bs[4..] == SampleBytes(samples[1..]);
      Pow256Values();
      FromLEToLE(samples[0], 4);
      PlaybackOfSampleBytes(samples[1..]);
    }
  }

  /** Decoding goes group by group: whole groups in front decode on their own. */
  lemma {:induction false} PlaybackAppend(a: seq<byte>, b: seq<byte>)
    requires |a| % 4 == 0
    ensures PlaybackSamples(a + b) == PlaybackSamples(a) + PlaybackSamples(b)
    decreases |a|
  {
    if |a| == 0 {
      assert a + b == b;
    } else {
      assert (a + b)[..4] == a[..4];
      assert (a + b)[4..] == a[4..] + b;
      PlaybackAppend(a[4..], b);
    }
  }

  /** A trailing group of fewer than four bytes does not reach the speakers. */
  lemma {:induction false} PlaybackDropsTail(data: seq<byte>, tail: seq<byte>)
    requires |data| % 4 == 0 && |tail| < 4
    ensures PlaybackSamples(data + tail) == PlaybackSamples(data)
    decreases |data|
  {
    if |data| == 0 {
      assert data + tail == tail;
    } else {
      assert (data + tail)[..4] == data[..4];
      assert (data + tail)[4..] == data[4..] + tail;
      PlaybackDropsTail(data[4..], tail);
    }
  }
}
