# Dynamic render-scale controller, modelled in Dafny

This project models `DynamicResolution`, a Unity component that changes the
render scale of a Universal Render Pipeline scene. It keeps two scale fields,
`m_widthScale` and `m_heightScale`, and has three parts:

- **Clamped steps.** `IncreaseResolution` and `ReduceResolution` move both axes
  by their increments. Each axis is capped at its maximum or floored at its
  minimum.
- **A demo sweep.** The coroutine `CycleRenderScale` steps both axes up to their
  maxima, then down to their minima, forever. It calls `ApplyRenderScale` once
  per step and yields between steps.
- **Frame timing.** `DetermineResolution` runs once per frame. It counts frames,
  does nothing during a two-frame warm-up, and after that stores the GPU/CPU
  time of the newest frame-timing sample. It never changes the scales.

Scales are exact `real`s. The default bounds (0.5 to 1.5) and increments (0.25)
are exact in binary floating point. With the defaults, and a starting render
scale on the 0.25 grid such as 1.0, the real-valued model gives the same values
as the `float` code. Other starting scales (0.8, for one) make the `float` sums
round where the reals stay exact.

Modules:

- `Scale` (scale.dfy): the settings, the clamped steps, the sweep as a pure
  transition function `Resume` over a phase (`Up`/`Down`) and the scales, the
  step counts, and the phase lemmas.
- `Sink` (sink.dfy): the arguments `ApplyRenderScale` passes to the platform.
- `Timing` (timing.dfy): `FrameTiming` samples, and a stand-in for
  `FrameTimingManager.GetLatestTimings`.
- `Controller` (controller.dfy): the class `DynamicResolution`. Its fields are
  updated in place.
- `Scenarios` (scenarios.dfy): concrete runs with the default settings.

The platform calls are recorded, not performed. Each `ApplyRenderScale` appends
one `ApplyCall` to `sinkCalls`. The call holds the optional write to
`XRSettings.renderViewportScale` and the two arguments of
`ScalableBufferManager.ResizeBuffers`. The samples the timing manager would
return are passed to `DetermineResolution` as a sequence, newest first.

The coroutine is modelled one yield at a time. `CycleStep` resumes it and runs
until its next `yield`. The field `phase` records which inner loop it will
resume in. `RunUpPhase` and `RunDownPhase` are the two inner `while` loops,
with one `CycleStep` per iteration.

Three points about the code itself, which the model follows as written:

- The comment on `DetermineResolution` (line 129) says it updates the
  resolution scale if necessary. Its body only stores the measured times
  (lines 147-148) and never chooses a direction.
- `IncreaseResolution` and `ReduceResolution` call `ApplyRenderScale` every
  time (lines 119 and 126), even when clamping left the scales unchanged.
- Both methods assign the scale fields first (lines 117-118 and 124-125).
  `ApplyRenderScale` then reads the new values.

## Model

| member | source | states |
|---|---|---|
| Scale.Increase | Assets/DynamicResolution.cs:122-127 | each axis ends at or below its maximum; it equals the maximum exactly when old + increment reaches it, and old + increment otherwise |
| Scale.Reduce | Assets/DynamicResolution.cs:115-120 | each axis ends at or above its minimum; it equals the minimum exactly when old − increment reaches it, and old − increment otherwise |
| Scale.IncreaseClampsAboveMax | Assets/DynamicResolution.cs:124-125 | with non-negative increments: Increase has no guard, so each axis that starts above its maximum, width or height, is pulled down to that maximum |
| Scale.StepsPreserveBounds | Assets/DynamicResolution.cs:115-127 | with min ≤ max and non-negative increments, Increase and Reduce keep in-bounds scales in bounds |
| Scale.IdempotentAtBounds | Assets/DynamicResolution.cs:115-127 | with non-negative increments, Increase at the maximum and Reduce at the minimum leave that axis unchanged |
| Scale.ReduceUndoesIncrease | Assets/DynamicResolution.cs:115-127 | when w + inc ≤ max and w ≥ min on both axes, Reduce after Increase gives back exactly the starting scales |
| Scale.IncreaseUndoesReduce | Assets/DynamicResolution.cs:115-127 | when w − inc ≥ min and w ≤ max on both axes, Increase after Reduce gives back exactly the starting scales |
| Scale.Min | Assets/DynamicResolution.cs:63 | `Mathf.Min`: the result is one of the two arguments and at most both |
| Scale.Max | Assets/DynamicResolution.cs:77 | `Mathf.Max`: the result is one of the two arguments and at least both |
| Scale.StepUp | Assets/DynamicResolution.cs:124-125 | one axis moved up: at most the maximum and at most old + increment, and equal to one of them, so exactly min(max, old + increment) |
| Scale.StepDown | Assets/DynamicResolution.cs:117-118 | one axis moved down: at least the minimum and at least old − increment, and equal to one of them, so exactly max(min, old − increment) |
| Scale.UpStep | Assets/DynamicResolution.cs:60-65 | an iteration of the step-up loop leaves an axis at or above its maximum unchanged; an axis below it ends at most at the maximum and at most old + increment, equal to one of them |
| Scale.DownStep | Assets/DynamicResolution.cs:74-79 | an iteration of the step-down loop leaves an axis at or below its minimum unchanged; an axis above it ends at least at the minimum and at least old − increment, equal to one of them |
| Scale.BelowMax | Assets/DynamicResolution.cs:60 | the step-up loop's guard; with positive increments it holds exactly when an iteration would move some axis |
| Scale.AboveMin | Assets/DynamicResolution.cs:74 | the step-down loop's guard; with positive increments it holds exactly when an iteration would move some axis |
| Scale.Resume | Assets/DynamicResolution.cs:54-87 | one resumption to the next yield: it never yields again exactly when neither guard holds; it stays in the current loop while that loop's guard holds and falls through to the other loop otherwise; and the scales become that loop's step |
| Scale.Run | Assets/DynamicResolution.cs:57-86 | n resumptions in a row; zero resumptions change nothing, and with ordered bounds and non-negative increments every state reached from in-bounds scales is in bounds |
| Scale.ZeroIncrementsStall | Assets/DynamicResolution.cs:60-70 | with both increments zero and an axis below its maximum, each resumption yields without moving, so the step-up loop never ends |
| Scale.SpinsOnlyOnCollapsedBounds | Assets/DynamicResolution.cs:57-86 | with ordered bounds, the coroutine stops yielding exactly when min = max on both axes and the scales sit there |
| Scale.ResumeKeepsBounds | Assets/DynamicResolution.cs:57-86 | with min ≤ max on both axes and non-negative increments, every yield of the sweep keeps in-bounds scales in bounds |
| Timing.InWarmUp | Assets/DynamicResolution.cs:133 | the warm-up guard on the incremented frame counter; the contracts of DetermineResolution and DetermineResolutionChecked are stated through it |
| Scale.UpStepsZero | Assets/DynamicResolution.cs:60 | no up-step remains exactly when the step-up loop's guard is false |
| Scale.DownStepsZero | Assets/DynamicResolution.cs:74 | no down-step remains exactly when the step-down loop's guard is false |
| Scale.UpStepCounts | Assets/DynamicResolution.cs:60-65 | each iteration of the step-up loop lowers the remaining count max(ceil((maxW − w)/incW), ceil((maxH − h)/incH)) by exactly one |
| Scale.DownStepCounts | Assets/DynamicResolution.cs:74-79 | each iteration of the step-down loop lowers the remaining count max(ceil((w − minW)/incW), ceil((h − minH)/incH)) by exactly one |
| Scale.UpPhaseRun | Assets/DynamicResolution.cs:60-71 | with positive increments, the up phase takes exactly UpSteps yields and ends with each axis at max(maximum, its start), so exactly at the maximum from an in-bounds start |
| Scale.DownPhaseRun | Assets/DynamicResolution.cs:74-85 | with positive increments, the down phase takes exactly DownSteps yields and ends with each axis at min(minimum, its start), so exactly at the minimum from an in-bounds start |
| Scale.RunAppend | Assets/DynamicResolution.cs:57-86 | m resumptions followed by n resumptions are the same as m + n resumptions |
| Scale.FullSweep | Assets/DynamicResolution.cs:57-86 | with min ≤ max on both axes, positive increments and min < max on at least one axis: from any start in the up phase, an up phase and then a down phase end in the down phase with both axes exactly at their minima |
| Scale.SweepPeriodic | Assets/DynamicResolution.cs:57-86 | with min ≤ max on both axes, positive increments and min < max on at least one axis: from the bottom of a down phase, one up phase and one down phase return to exactly the same state, so the sweep repeats forever |
| Scale.DefaultPhaseLengths | Assets/DynamicResolution.cs:16-21 | with the default settings, the up phase from the minima and the down phase from the maxima each take four yields |
| Sink.ApplyArgs | Assets/DynamicResolution.cs:100-105 | in an Android player build, the call passes the raw scales and sets the viewport scale to 0.5; elsewhere it passes min(scale, 1.0) per axis, so each value is ≤ 1.0, and leaves the viewport alone |
| Sink.NotAndroidCapsAtOne | Assets/DynamicResolution.cs:104 | in every build other than an Android player, scales up to 1.0 pass through unchanged and scales of 1.0 or more are all sent as 1.0 |
| Timing.Written | Assets/DynamicResolution.cs:138 | the number of samples written is the largest that fits the request, the samples available and the buffer |
| Timing.Overwrite | Assets/DynamicResolution.cs:138 | the first n entries of the buffer become the newest samples in order; the other entries keep their old contents |
| Timing.GetLatestTimings | Assets/DynamicResolution.cs:138 | the timing query writes Written(...) samples into the front of the array and returns that count |
| Controller.DynamicResolution.constructor | Assets/DynamicResolution.cs:14-47 | a three-entry zeroed buffer, both scales at the pipeline's render scale, frame count 0, the coroutine at its up loop, no sink calls yet |
| Controller.DynamicResolution.ApplyRenderScale | Assets/DynamicResolution.cs:90-107 | appends exactly one sink call, whose arguments come from the current scales |
| Controller.DynamicResolution.IncreaseResolution | Assets/DynamicResolution.cs:122-127 | the new scales are Increase of the old ones, followed by one sink call with the new scales |
| Controller.DynamicResolution.ReduceResolution | Assets/DynamicResolution.cs:115-120 | the new scales are Reduce of the old ones, followed by one sink call with the new scales |
| Controller.DynamicResolution.CycleStep | Assets/DynamicResolution.cs:54-87 | one resumption to the next yield moves the phase and scales as Resume says and applies them exactly once; if the coroutine would never yield again, nothing changes |
| Controller.DynamicResolution.RunUpPhase | Assets/DynamicResolution.cs:60-71 | the step-up loop runs exactly UpSteps iterations and ends at max(maximum, start) per axis; the k-th sink call it adds carries the scales after k iterations |
| Controller.DynamicResolution.RunDownPhase | Assets/DynamicResolution.cs:74-85 | the step-down loop runs exactly DownSteps iterations and ends at min(minimum, start) per axis; the k-th sink call it adds carries the scales after k iterations |
| Controller.DynamicResolution.DetermineResolution | Assets/DynamicResolution.cs:130-149 | the frame count goes up by exactly 1; while it is ≤ 2 nothing else changes; after that the buffer receives the newest samples and the stored GPU/CPU times come from entry 0; the insufficient-data branch is never taken; the scales and the sink are never touched |
| Controller.DynamicResolution.DetermineResolutionChecked | Assets/DynamicResolution.cs:137-145 | the corrected guard: a frame past the warm-up with fewer than 2 samples reports insufficient data and keeps the stored times |
| Scenarios.DefaultSweep | Assets/DynamicResolution.cs:54-87 | from scale 1.0 with the defaults, the first seven yields apply 1.25, 1.5, 1.25, 1.0, 0.75, 0.5, 0.75 on both axes |
| Scenarios.DefaultPhases | Assets/DynamicResolution.cs:57-86 | from scale 1.0, the up loop takes 2 yields and the down loop 4, ending at 0.5 × 0.5 after 6 sink calls |
| Scenarios.WarmUp | Assets/DynamicResolution.cs:130-149 | the first two frames are warm-up; the third captures the newest sample's GPU and CPU times; the scales stay at 1.0 |
| Scenarios.WarmUpGates | Assets/DynamicResolution.cs:131-136 | from a freshly started component, for any number of frames and any samples, call i is warm-up exactly when i < kNumFrameTimings (the first two calls) and every later call captures |
| Scenarios.StaleSample | Assets/DynamicResolution.cs:137-148 | on a frame with no sample, the code as written still reports a capture and keeps the previous frame's GPU time; the checked variant reports insufficient data |

## Findings

| source | as written | input that shows it | evidently intended | confidence | as-written member | corrected member |
|---|---|---|---|---|---|---|
| Assets/DynamicResolution.cs:139 | the guard `frameTimings.Length < kNumFrameTimings` compares the buffer's length, which is always 3, with 2. It never compares the number of samples `GetLatestTimings` wrote, so the skip branch is dead | frames 1–3 with samples `[]`, `[]`, `[a, b]`, then frame 4 with `[]`: frame 4 reports a capture and stores `a.gpuFrameTime` from the previous frame as if it were new | skip the frame, as the log message "didn't get enough frame timings" says, when fewer than `kNumFrameTimings` samples were written | medium; not executed | Controller.DynamicResolution.DetermineResolution, Scenarios.StaleSample | Controller.DynamicResolution.DetermineResolutionChecked |

`DetermineResolution` stays as written because it is the method the component
calls. The corrected definition sits beside it. Nothing else in the model
depends on which of the two a frame uses: neither touches the scales, the phase
or the sink.

## Left out

- `Start`'s pipeline-asset lookup, and its error log and early return when no asset is found (lines 38-43). The pipeline's render scale is a constructor parameter instead.
- `StartCoroutine` runs the coroutine up to its first yield inside `Start`. In the model that first stretch is the first `CycleStep`, which the caller makes after construction.
- `Update` (lines 110-113) only forwards to `DetermineResolution`. The frame loop is represented by repeated calls to `DetermineResolution`.
- `Debug.Log`, `Debug.LogFormat` and `Debug.LogError` output: logging only.
- `WaitForSeconds(3f)` and the engine's coroutine scheduling: real-time delays cannot be modelled. Each yield is one `CycleStep`.
- The outer `while (true)` of the coroutine: it never ends. The model steps it one resumption at a time, and `SweepPeriodic` shows that the sweep comes back to the same state.
- Controller.DynamicResolution.CycleStep: when neither loop guard holds, the coroutine loops without ever yielding and freezes the frame. The model cannot represent a step that never ends, so it reports this as `yielded == false` with the state unchanged. With ordered bounds this happens only when min = max on both axes and the scales sit there. With unordered bounds (a minimum above its maximum) it can also happen at in-between scales.
- Scale.UpSteps, Scale.DownSteps and the phase lemmas and methods built on them require positive increments. With a zero increment and an axis short of its bound, the source's inner loop yields every 3 seconds forever without moving. `Scale.ZeroIncrementsStall` states that behaviour, but no phase length exists for it. The Inspector fields also accept negative increments. Then the step-up loop moves an axis away from its maximum on each yield and never ends, and the step-down loop moves it away from its minimum, so no phase length exists for that case either.
- `FrameTimingManager.CaptureFrameTimings`: an engine call with no state the model sees. The samples it would make available are the `latest` parameter.
- The commented-out write to the pipeline asset's `renderScale` (lines 92-98): it is not part of the code.
- The public tuning fields can be edited in the Unity Inspector. The code never changes them, so they are constants fixed at construction.
- IEEE-754 `float`/`double` rounding: scales and times are reals. The model matches the float code only for dyadic values such as the defaults.
- `uint` wrap-around of `m_frameCount` after 2^32 frames: the counter is a `nat`.
- A timing-budget or hysteresis decision policy: the code has none, so none is modelled.
