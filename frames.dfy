/**
 * Captured frames and the frame store that the capture component and the
 * preview share (the process-wide `StoreWorker.Instance`).
 */
module Frames {
  newtype byte = x: int | 0 <= x < 256

  /** One pixel sample, as a 32-bit RGBA colour. */
  datatype Color32 = Color32(r: byte, g: byte, b: byte, a: byte)

  /** A captured image: dimensions and row-major pixel data. */
  datatype Frame = Frame(width: int, height: int, data: seq<Color32>)

  /**
   * The frame store. Frames are appended by the recorder, which is not part
   * of this model; the capture component only starts, counts and clears it.
   */
  class FrameStore {
    var storedFrames: seq<Frame>
    var capacity: int

    constructor ()
      ensures storedFrames == [] && capacity == 0
    {
      storedFrames := [];
      capacity := 0;
    }

    function Count(): nat
      reads this
    {
      |storedFrames|
    }

    /** Begins a session: a new, empty sequence holding at most `maxFrames` frames. */
    method Start(maxFrames: int)
      modifies this
      ensures storedFrames == [] && capacity == maxFrames
    {
      storedFrames := [];
      capacity := maxFrames;
    }

    /** Releases every stored frame; the capacity stays. */
    method Clear()
      modifies this`storedFrames
      ensures storedFrames == []
    {
      storedFrames := [];
    }
  }
}
