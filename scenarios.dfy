/** Concrete runs of the component with its default settings, derived from
    the method contracts alone. */
module Scenarios {
  import opened Scale
  import opened Sink
  import opened Timing
  import opened Controller

  /** Starting at render scale 1.0, the coroutine's first seven yields step
      up to 1.5, down to 0.5 and turn up again, applying the scales at each. */
  method DefaultSweep(p: Platform) returns (calls: seq<ApplyCall>, last: Scales)
    ensures calls == [ApplyArgs(p, Scales(1.25, 1.25)), ApplyArgs(p, Scales(1.5, 1.5)),
                      ApplyArgs(p, Scales(1.25, 1.25)), ApplyArgs(p, Scales(1.0, 1.0)),
                      ApplyArgs(p, Scales(0.75, 0.75)), ApplyArgs(p, Scales(0.5, 0.5)),
                      ApplyArgs(p, Scales(0.75, 0.75))]
    ensures last == Scales(0.75, 0.75)
  {
    var c := new DynamicResolution(Defaults, p, 1.0);
    var y := c.CycleStep();
    assert c.CurrentSweep() == Sweep(Up, Scales(1.25, 1.25));
    y := c.CycleStep();
    assert c.CurrentSweep() == Sweep(Up, Scales(1.5, 1.5));
    y := c.CycleStep();
    assert c.CurrentSweep() == Sweep(Down, Scales(1.25, 1.25));
    y := c.CycleStep();
    assert c.CurrentSweep() == Sweep(Down, Scales(1.0, 1.0));
    y := c.CycleStep();
    assert c.CurrentSweep() == Sweep(Down, Scales(0.75, 0.75));
    y := c.CycleStep();
    assert c.CurrentSweep() == Sweep(Down, Scales(0.5, 0.5));
    y := c.CycleStep();
    assert c.CurrentSweep() == Sweep(Up, Scales(0.75, 0.75));
    calls, last := c.sinkCalls, c.CurrentScales();
  }

  /** The step-up and step-down loops driven to completion from render scale
      1.0: two yields up to the maxima, then four down to the minima. */
  method DefaultPhases(p: Platform) returns (up: nat, down: nat, last: Scales, applied: nat)
    ensures up == 2 && down == 4
    ensures last == Scales(0.5, 0.5) && applied == 6
  {
    var c := new DynamicResolution(Defaults, p, 1.0);
    assert (1.5 - 1.0) / 0.25 == 2.0;
    up := c.RunUpPhase();
    assert (1.5 - 0.5) / 0.25 == 4.0;
    down := c.RunDownPhase();
    last, applied := c.CurrentScales(), |c.sinkCalls|;
  }

  /** The first two frames are warm-up; the third keeps the newest sample's
      times. The scales are never touched. */
  method WarmUp(first: seq<FrameTiming>, second: seq<FrameTiming>, third: seq<FrameTiming>)
    returns (g1: Gate, g2: Gate, g3: Gate, gpu: real, cpu: real, scales: Scales)
    requires 0 < |third|
    ensures g1 == WarmingUp && g2 == WarmingUp && g3 == Captured
    ensures gpu == third[0].gpuFrameTime && cpu == third[0].cpuFrameTime
    ensures scales == Scales(1.0, 1.0)
  {
    var c := new DynamicResolution(Defaults, NotAndroidPlayer, 1.0);
    g1 := c.DetermineResolution(first);
    assert c.gpuFrameTime == 0.0;
    g2 := c.DetermineResolution(second);
    g3 := c.DetermineResolution(third);
    gpu, cpu, scales := c.gpuFrameTime, c.cpuFrameTime, c.CurrentScales();
  }

  /** From a freshly started component, any number of frames with any
      samples: exactly the first kNumFrameTimings calls are warm-up, and every
      later call captures. */
  method WarmUpGates(cfg: Settings, p: Platform, renderScale: real, frames: seq<seq<FrameTiming>>)
    returns (gates: seq<Gate>)
    ensures |gates| == |frames|
    ensures forall i :: 0 <= i < |gates| ==>
              gates[i] == if i < NumFrameTimings then WarmingUp else Captured
  {
    var c := new DynamicResolution(cfg, p, renderScale);
    gates := [];
    var i := 0;
    while i < |frames|
      invariant 0 <= i <= |frames|
      invariant c.Valid() && fresh(c.frameTimings)
      invariant c.frameCount == i && |gates| == i
      invariant forall j :: 0 <= j < i ==>
                  gates[j] == if j < NumFrameTimings then WarmingUp else Captured
    {
      var g := c.DetermineResolution(frames[i]);
      gates := gates + [g];
      i := i + 1;
    }
  }

  /** A frame on which no sample is available: as written, DetermineResolution
      still reports a capture and stores the previous frame's GPU time; the
      checked variant skips the frame. */
  method StaleSample(a: FrameTiming, b: FrameTiming)
    returns (asWritten: Gate, staleGpu: real, checked: Gate)
    ensures asWritten == Captured && staleGpu == a.gpuFrameTime
    ensures checked == InsufficientData
  {
    var c := new DynamicResolution(Defaults, NotAndroidPlayer, 1.0);
    var g := c.DetermineResolution([]);
    g := c.DetermineResolution([]);
    g := c.DetermineResolution([a, b]);
    asWritten := c.DetermineResolution([]);
    staleGpu := c.gpuFrameTime;

    var d := new DynamicResolution(Defaults, NotAndroidPlayer, 1.0);
    g := d.DetermineResolutionChecked([]);
    g := d.DetermineResolutionChecked([]);
    g := d.DetermineResolutionChecked([a, b]);
    checked := d.DetermineResolutionChecked([]);
  }
}
