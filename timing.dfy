/** Frame-timing samples and the buffer the controller reads them into. */
module Timing {

  /** One FrameTiming record: GPU and CPU time of one past frame. */
  datatype FrameTiming = FrameTiming(gpuFrameTime: real, cpuFrameTime: real)

  /** kNumFrameTimings: samples requested, and frames skipped before any capture. */
  const NumFrameTimings: nat := 2

  /** Length of the frameTimings array the component allocates. */
  const BufferLength: nat := 3

  /** A C# default-initialised FrameTiming. */
  const ZeroTiming := FrameTiming(0.0, 0.0)

  /** What one DetermineResolution call did. */
  datatype Gate = WarmingUp | InsufficientData | Captured

  /** True while the incremented frame counter has not passed kNumFrameTimings. */
  predicate InWarmUp(frameCount: nat) {
    frameCount <= NumFrameTimings
  }

  /** How many samples a request for `requested` writes into a buffer of
      `capacity` entries when `available` are at hand: as many as possible. */
  function Written(requested: nat, available: nat, capacity: nat): (n: nat)
    ensures n <= requested && n <= available && n <= capacity
    ensures n == requested || n == available || n == capacity
  {
    if requested <= available && requested <= capacity then requested
    else if available <= capacity then available
    else capacity
  }

  /** The buffer after its first `n` entries are replaced by the newest `n`
      samples, newest first; the rest of the buffer keeps its old contents. */
  function Overwrite(buffer: seq<FrameTiming>, latest: seq<FrameTiming>, n: nat): (r: seq<FrameTiming>)
    requires n <= |buffer| && n <= |latest|
    ensures |r| == |buffer|
    ensures forall i :: 0 <= i < n ==> r[i] == latest[i]
    ensures forall i :: n <= i < |buffer| ==> r[i] == buffer[i]
  {
    latest[..n] + buffer[n..]
  }

  /** Stand-in for FrameTimingManager.GetLatestTimings: copies the newest
      samples into the front of the buffer and reports how many it wrote. */
  method GetLatestTimings(requested: nat, latest: seq<FrameTiming>, buffer: array<FrameTiming>)
    returns (written: nat)
    modifies buffer
    ensures written == Written(requested, |latest|, buffer.Length)
    ensures buffer[..] == Overwrite(old(buffer[..]), latest, written)
  {
    written := Written(requested, |latest|, buffer.Length);
    forall i | 0 <= i < written {
      buffer[i] := latest[i];
    }
  }
}
