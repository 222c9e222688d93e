/** The DynamicResolution component: its fields, the step operations, the
    cycling coroutine as one resumption per call, and the per-frame timing
    capture. */
module Controller {
  import opened Scale
  import opened Sink
  import opened Timing

  class DynamicResolution {
    /** maxResolution*Scale, minResolution*Scale and scale*Increment. */
    const settings: Settings
    /** Which branch of ApplyRenderScale's conditional compilation is built. */
    const platform: Platform
    /** The frameTimings buffer. */
    const frameTimings: array<FrameTiming>

    var widthScale: real
    var heightScale: real
    var frameCount: nat
    var gpuFrameTime: real
    var cpuFrameTime: real
    /** The loop the cycling coroutine resumes in. */
    var phase: Phase
    /** Every ApplyRenderScale so far, oldest first. */
    var sinkCalls: seq<ApplyCall>

    ghost predicate Valid() {
      frameTimings.Length == BufferLength
    }

    function CurrentScales(): Scales
      reads this
    {
      Scales(widthScale, heightScale)
    }

    function CurrentSweep(): Sweep
      reads this
    {
      Sweep(phase, Scales(widthScale, heightScale))
    }

    /** Field initialisers plus Start: both scales take the pipeline's current
        render scale, and the coroutine is positioned at its up loop. */
    constructor (settings: Settings, platform: Platform, renderScale: real)
      ensures Valid() && fresh(frameTimings)
      ensures this.settings == settings && this.platform == platform
      ensures CurrentScales() == Scales(renderScale, renderScale) && phase == Up
      ensures frameCount == 0 && gpuFrameTime == 0.0 && cpuFrameTime == 0.0
      ensures frameTimings[..] == [ZeroTiming, ZeroTiming, ZeroTiming]
      ensures sinkCalls == []
    {
      this.settings := settings;
      this.platform := platform;
      frameTimings := new FrameTiming[BufferLength](_ => ZeroTiming);
      widthScale, heightScale := renderScale, renderScale;
      frameCount := 0;
      gpuFrameTime, cpuFrameTime := 0.0, 0.0;
      phase := Up;
      sinkCalls := [];
    }

    /** ApplyRenderScale: one call into the platform, with arguments derived
        from the current scales. */
    method ApplyRenderScale()
      modifies this`sinkCalls
      ensures sinkCalls == old(sinkCalls) + [ApplyArgs(platform, CurrentScales())]
    {
      sinkCalls := sinkCalls + [ApplyArgs(platform, CurrentScales())];
    }

    method IncreaseResolution()
      modifies this`widthScale, this`heightScale, this`sinkCalls
      ensures CurrentScales() == Increase(settings, old(CurrentScales()))
      ensures sinkCalls == old(sinkCalls) + [ApplyArgs(platform, CurrentScales())]
    {
      heightScale := Min(settings.maxHeight, heightScale + settings.heightIncrement);
      widthScale := Min(settings.maxWidth, widthScale + settings.widthIncrement);
      ApplyRenderScale();
    }

    method ReduceResolution()
      modifies this`widthScale, this`heightScale, this`sinkCalls
      ensures CurrentScales() == Reduce(settings, old(CurrentScales()))
      ensures sinkCalls == old(sinkCalls) + [ApplyArgs(platform, CurrentScales())]
    {
      heightScale := Max(settings.minHeight, heightScale - settings.heightIncrement);
      widthScale := Max(settings.minWidth, widthScale - settings.widthIncrement);
      ApplyRenderScale();
    }

    /** Resume CycleRenderScale until its next yield. Returns false, changing
        nothing, when the coroutine would loop without ever yielding again. */
    method CycleStep() returns (yielded: bool)
      modifies this`widthScale, this`heightScale, this`phase, this`sinkCalls
      ensures Resume(settings, old(CurrentSweep())) == if yielded then Next(CurrentSweep()) else Spins
      ensures yielded ==> sinkCalls == old(sinkCalls) + [ApplyArgs(platform, CurrentScales())]
      ensures !yielded ==> CurrentSweep() == old(CurrentSweep()) && sinkCalls == old(sinkCalls)
    {
      var below := widthScale < settings.maxWidth || heightScale < settings.maxHeight;
      var above := widthScale > settings.minWidth || heightScale > settings.minHeight;
      if !below && !above {
        return false;
      }
      if phase == Up && !below {
        phase := Down;
      } else if phase == Down && !above {
        phase := Up;
      }
      if phase == Up {
        if widthScale < settings.maxWidth {
          widthScale := Min(settings.maxWidth, widthScale + settings.widthIncrement);
        }
        if heightScale < settings.maxHeight {
          heightScale := Min(settings.maxHeight, heightScale + settings.heightIncrement);
        }
      } else {
        if widthScale > settings.minWidth {
          widthScale := Max(settings.minWidth, widthScale - settings.widthIncrement);
        }
        if heightScale > settings.minHeight {
          heightScale := Max(settings.minHeight, heightScale - settings.heightIncrement);
        }
      }
      ApplyRenderScale();
      yielded := true;
    }

    /** The step-up loop of the coroutine, one resumption per iteration. It stops
        after exactly UpSteps yields, with every axis at its maximum (or left
        above it), and applies the scales after each iteration. */
    method RunUpPhase() returns (steps: nat)
      requires settings.PositiveSteps()
      requires phase == Up || !AboveMin(settings, CurrentScales())
      modifies this`widthScale, this`heightScale, this`phase, this`sinkCalls
      ensures steps == UpSteps(settings, old(CurrentScales()))
      ensures CurrentScales() == UpAfter(settings, old(CurrentScales()), steps)
      ensures CurrentScales() == Scales(Max(settings.maxWidth, old(widthScale)), Max(settings.maxHeight, old(heightScale)))
      ensures phase == if steps == 0 then old(phase) else Up
      ensures |sinkCalls| == |old(sinkCalls)| + steps && sinkCalls[..|old(sinkCalls)|] == old(sinkCalls)
      ensures forall k :: |old(sinkCalls)| <= k < |sinkCalls| ==>
                sinkCalls[k] == ApplyArgs(platform, UpAfter(settings, old(CurrentScales()), k - |old(sinkCalls)| + 1))
    {
      ghost var s0 := CurrentScales();
      steps := 0;
      while widthScale < settings.maxWidth || heightScale < settings.maxHeight
        invariant phase == Up || !AboveMin(settings, CurrentScales())
        invariant phase == if steps == 0 then old(phase) else Up
        invariant steps + UpSteps(settings, CurrentScales()) == UpSteps(settings, s0)
        invariant CurrentScales() == UpAfter(settings, s0, steps)
        invariant settings.maxWidth <= s0.width ==> widthScale == s0.width
        invariant s0.width < settings.maxWidth ==> widthScale <= settings.maxWidth
        invariant settings.maxHeight <= s0.height ==> heightScale == s0.height
        invariant s0.height < settings.maxHeight ==> heightScale <= settings.maxHeight
        invariant |sinkCalls| == |old(sinkCalls)| + steps && sinkCalls[..|old(sinkCalls)|] == old(sinkCalls)
        invariant forall k :: |old(sinkCalls)| <= k < |sinkCalls| ==>
                    sinkCalls[k] == ApplyArgs(platform, UpAfter(settings, s0, k - |old(sinkCalls)| + 1))
        decreases UpSteps(settings, CurrentScales())
      {
        UpStepCounts(settings, CurrentScales());
        var yielded := CycleStep();
        steps := steps + 1;
      }
      UpStepsZero(settings, CurrentScales());
    }

    /** The step-down loop of the coroutine: exactly DownSteps yields, ending
        with every axis at its minimum (or left below it), applied after each
        iteration. */
    method RunDownPhase() returns (steps: nat)
      requires settings.PositiveSteps()
      requires phase == Down || !BelowMax(settings, CurrentScales())
      modifies this`widthScale, this`heightScale, this`phase, this`sinkCalls
      ensures steps == DownSteps(settings, old(CurrentScales()))
      ensures CurrentScales() == DownAfter(settings, old(CurrentScales()), steps)
      ensures CurrentScales() == Scales(Min(settings.minWidth, old(widthScale)), Min(settings.minHeight, old(heightScale)))
      ensures phase == if steps == 0 then old(phase) else Down
      ensures |sinkCalls| == |old(sinkCalls)| + steps && sinkCalls[..|old(sinkCalls)|] == old(sinkCalls)
      ensures forall k :: |old(sinkCalls)| <= k < |sinkCalls| ==>
                sinkCalls[k] == ApplyArgs(platform, DownAfter(settings, old(CurrentScales()), k - |old(sinkCalls)| + 1))
    {
      ghost var s0 := CurrentScales();
      steps := 0;
      while widthScale > settings.minWidth || heightScale > settings.minHeight
        invariant phase == Down || !BelowMax(settings, CurrentScales())
        invariant phase == if steps == 0 then old(phase) else Down
        invariant steps + DownSteps(settings, CurrentScales()) == DownSteps(settings, s0)
        invariant CurrentScales() == DownAfter(settings, s0, steps)
        invariant s0.width <= settings.minWidth ==> widthScale == s0.width
        invariant settings.minWidth < s0.width ==> settings.minWidth <= widthScale
        invariant s0.height <= settings.minHeight ==> heightScale == s0.height
        invariant settings.minHeight < s0.height ==> settings.minHeight <= heightScale
        invariant |sinkCalls| == |old(sinkCalls)| + steps && sinkCalls[..|old(sinkCalls)|] == old(sinkCalls)
        invariant forall k :: |old(sinkCalls)| <= k < |sinkCalls| ==>
                    sinkCalls[k] == ApplyArgs(platform, DownAfter(settings, s0, k - |old(sinkCalls)| + 1))
        decreases DownSteps(settings, CurrentScales())
      {
        DownStepCounts(settings, CurrentScales());
        var yielded := CycleStep();
        steps := steps + 1;
      }
      DownStepsZero(settings, CurrentScales());
    }

    /** DetermineResolution as written: count the frame; past the warm-up,
        read the newest samples and keep the first one's GPU and CPU times.
        Its guard compares the buffer's length, not the number of samples
        written, with kNumFrameTimings, so it never skips. */
    method DetermineResolution(latest: seq<FrameTiming>) returns (gate: Gate)
      requires Valid()
      modifies this`frameCount, this`gpuFrameTime, this`cpuFrameTime, frameTimings
      ensures frameCount == old(frameCount) + 1
      ensures gate == if InWarmUp(frameCount) then WarmingUp else Captured
      ensures gate == WarmingUp ==>
                gpuFrameTime == old(gpuFrameTime) && cpuFrameTime == old(cpuFrameTime)
                && frameTimings[..] == old(frameTimings[..])
      ensures gate == Captured ==>
                frameTimings[..] == Overwrite(old(frameTimings[..]), latest, Written(NumFrameTimings, |latest|, BufferLength))
                && gpuFrameTime == frameTimings[0].gpuFrameTime && cpuFrameTime == frameTimings[0].cpuFrameTime
    {
      frameCount := frameCount + 1;
      if frameCount <= NumFrameTimings {
        return WarmingUp;
      }
      var written := GetLatestTimings(NumFrameTimings, latest, frameTimings);
      if frameTimings.Length < NumFrameTimings {
        return InsufficientData;
      }
      gpuFrameTime := frameTimings[0].gpuFrameTime;
      cpuFrameTime := frameTimings[0].cpuFrameTime;
      gate := Captured;
    }

    /** DetermineResolution with the guard on the number of samples actually
        written: a frame with fewer than kNumFrameTimings samples is skipped
        and the stored times keep their earlier values. */
    method DetermineResolutionChecked(latest: seq<FrameTiming>) returns (gate: Gate)
      requires Valid()
      modifies this`frameCount, this`gpuFrameTime, this`cpuFrameTime, frameTimings
      ensures frameCount == old(frameCount) + 1
      ensures gate == if InWarmUp(frameCount) then WarmingUp
                      else if |latest| < NumFrameTimings then InsufficientData
                      else Captured
      ensures gate != Captured ==> gpuFrameTime == old(gpuFrameTime) && cpuFrameTime == old(cpuFrameTime)
      ensures gate == WarmingUp ==> frameTimings[..] == old(frameTimings[..])
      ensures gate != WarmingUp ==>
                frameTimings[..] == Overwrite(old(frameTimings[..]), latest, Written(NumFrameTimings, |latest|, BufferLength))
      ensures gate == Captured ==> gpuFrameTime == latest[0].gpuFrameTime && cpuFrameTime == latest[0].cpuFrameTime
    {
      frameCount := frameCount + 1;
      if frameCount <= NumFrameTimings {
        return WarmingUp;
      }
      var written := GetLatestTimings(NumFrameTimings, latest, frameTimings);
      if written < NumFrameTimings {
        return InsufficientData;
      }
      gpuFrameTime := frameTimings[0].gpuFrameTime;
      cpuFrameTime := frameTimings[0].cpuFrameTime;
      gate := Captured;
    }
  }
}
