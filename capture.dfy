/**
 * The video capture stream the stream senders read from (`MmapStream::next`
 * of the v4l crate): each call yields the next frame's bytes or an error
 * text. The frames are given from outside, by their position in the stream.
 */
module Capture {
  import opened Wrappers
  import opened Bytes

  class Camera {
    /** The outcome of the n-th read of the stream. */
    const capture: nat -> Result<seq<byte>, string>
    /** How many frames have been read. */
    var taken: nat

    constructor(capture: nat -> Result<seq<byte>, string>)
      ensures this.capture == capture && taken == 0
    {
      this.capture := capture;
      taken := 0;
    }

    /** `next`: the next frame, or the error reading it. */
    method Next() returns (r: Result<seq<byte>, string>)
      modifies this
      ensures r == capture(old(taken)) && taken == old(taken) + 1
    {
      r := capture(taken);
      taken := taken + 1;
    }
  }
}
