/** Render-scale arithmetic of the dynamic-resolution controller: the clamped
    step operations used by IncreaseResolution and ReduceResolution, and the
    sweep that the render-scale cycling coroutine performs, one resumption
    (one `yield`) at a time. Scales are exact reals. */
module Scale {

  /** Mathf.Min. */
  function Min(a: real, b: real): (r: real)
    ensures r <= a && r <= b
    ensures r == a || r == b
  {
    if a < b then a else b
  }

  /** Mathf.Max. */
  function Max(a: real, b: real): (r: real)
    ensures r >= a && r >= b
    ensures r == a || r == b
  {
    if a > b then a else b
  }

  /** The public tuning fields of the component: per-axis bounds and increments. */
  datatype Settings = Settings(
    maxWidth: real, maxHeight: real,
    minWidth: real, minHeight: real,
    widthIncrement: real, heightIncrement: real)
  {
    predicate Ordered() {
      minWidth <= maxWidth && minHeight <= maxHeight
    }

    predicate NonNegativeSteps() {
      0.0 <= widthIncrement && 0.0 <= heightIncrement
    }

    predicate PositiveSteps() {
      0.0 < widthIncrement && 0.0 < heightIncrement
    }

    /** Both axes lie within their bounds. */
    predicate Contains(s: Scales) {
      minWidth <= s.width <= maxWidth && minHeight <= s.height <= maxHeight
    }
  }

  /** The field initialisers: bounds 0.5 .. 1.5 and increments 0.25 on both axes. */
  const Defaults := Settings(1.5, 1.5, 0.5, 0.5, 0.25, 0.25)

  /** The pair m_widthScale, m_heightScale. */
  datatype Scales = Scales(width: real, height: real)

  /** One axis moved up by its increment and capped at its maximum. */
  function StepUp(x: real, increment: real, hi: real): (r: real)
    ensures r <= hi && r <= x + increment
    ensures r == hi || r == x + increment
  {
    Min(hi, x + increment)
  }

  /** One axis moved down by its increment and floored at its minimum. */
  function StepDown(x: real, decrement: real, lo: real): (r: real)
    ensures r >= lo && r >= x - decrement
    ensures r == lo || r == x - decrement
  {
    Max(lo, x - decrement)
  }

  /** IncreaseResolution: both axes up, each capped at its maximum. */
  function Increase(cfg: Settings, s: Scales): (r: Scales)
    ensures r.width <= cfg.maxWidth && r.height <= cfg.maxHeight
    ensures r.width == cfg.maxWidth <==> cfg.maxWidth <= s.width + cfg.widthIncrement
    ensures r.height == cfg.maxHeight <==> cfg.maxHeight <= s.height + cfg.heightIncrement
    ensures r.width < cfg.maxWidth ==> r.width == s.width + cfg.widthIncrement
    ensures r.height < cfg.maxHeight ==> r.height == s.height + cfg.heightIncrement
  {
    Scales(StepUp(s.width, cfg.widthIncrement, cfg.maxWidth),
           StepUp(s.height, cfg.heightIncrement, cfg.maxHeight))
  }

  /** ReduceResolution: both axes down, each floored at its minimum. */
  function Reduce(cfg: Settings, s: Scales): (r: Scales)
    ensures r.width >= cfg.minWidth && r.height >= cfg.minHeight
    ensures r.width == cfg.minWidth <==> s.width - cfg.widthIncrement <= cfg.minWidth
    ensures r.height == cfg.minHeight <==> s.height - cfg.heightIncrement <= cfg.minHeight
    ensures r.width > cfg.minWidth ==> r.width == s.width - cfg.widthIncrement
    ensures r.height > cfg.minHeight ==> r.height == s.height - cfg.heightIncrement
  {
    Scales(StepDown(s.width, cfg.widthIncrement, cfg.minWidth),
           StepDown(s.height, cfg.heightIncrement, cfg.minHeight))
  }

  /** Increase has no guard: an axis that starts above its maximum is pulled down to it. */
  lemma IncreaseClampsAboveMax(cfg: Settings, s: Scales)
    requires cfg.NonNegativeSteps()
    ensures cfg.maxWidth < s.width ==> Increase(cfg, s).width == cfg.maxWidth < s.width
    ensures cfg.maxHeight < s.height ==> Increase(cfg, s).height == cfg.maxHeight < s.height
  {
  }

  /** With ordered bounds and non-negative increments, both steps keep the scales in bounds. */
  lemma StepsPreserveBounds(cfg: Settings, s: Scales)
    requires cfg.Ordered() && cfg.NonNegativeSteps() && cfg.Contains(s)
    ensures cfg.Contains(Increase(cfg, s))
    ensures cfg.Contains(Reduce(cfg, s))
  {
  }

  /** Increase at the maximum and Reduce at the minimum leave that axis where it is. */
  lemma IdempotentAtBounds(cfg: Settings, s: Scales)
    requires cfg.NonNegativeSteps()
    ensures s.width == cfg.maxWidth ==> Increase(cfg, s).width == s.width
    ensures s.height == cfg.maxHeight ==> Increase(cfg, s).height == s.height
    ensures s.width == cfg.minWidth ==> Reduce(cfg, s).width == s.width
    ensures s.height == cfg.minHeight ==> Reduce(cfg, s).height == s.height
  {
  }

  /** Away from the maximum, Reduce undoes Increase exactly. */
  lemma ReduceUndoesIncrease(cfg: Settings, s: Scales)
    requires s.width + cfg.widthIncrement <= cfg.maxWidth && cfg.minWidth <= s.width
    requires s.height + cfg.heightIncrement <= cfg.maxHeight && cfg.minHeight <= s.height
    ensures Reduce(cfg, Increase(cfg, s)) == s
  {
  }

  /** Away from the minimum, Increase undoes Reduce exactly. */
  lemma IncreaseUndoesReduce(cfg: Settings, s: Scales)
    requires cfg.minWidth <= s.width - cfg.widthIncrement && s.width <= cfg.maxWidth
    requires cfg.minHeight <= s.height - cfg.heightIncrement && s.height <= cfg.maxHeight
    ensures Increase(cfg, Reduce(cfg, s)) == s
  {
  }

  // ---------------------------------------------------------------------------
  // The cycling sweep

  /** Which inner loop of the coroutine the next resumption continues in. */
  datatype Phase = Up | Down

  datatype Sweep = Sweep(phase: Phase, scales: Scales)

  /** What one resumption of the coroutine leads to: the state at its next
      yield, or `Spins` when it would loop forever without yielding again. */
  datatype Outcome = Next(sweep: Sweep) | Spins

  /** Guard of the step-up loop. With positive increments it holds exactly
      when an iteration of the loop body would move some axis. */
  predicate BelowMax(cfg: Settings, s: Scales)
    ensures cfg.PositiveSteps() ==> (BelowMax(cfg, s) <==> UpStep(cfg, s) != s)
  {
    s.width < cfg.maxWidth || s.height < cfg.maxHeight
  }

  /** Guard of the step-down loop. With positive increments it holds exactly
      when an iteration of the loop body would move some axis. */
  predicate AboveMin(cfg: Settings, s: Scales)
    ensures cfg.PositiveSteps() ==> (AboveMin(cfg, s) <==> DownStep(cfg, s) != s)
  {
    s.width > cfg.minWidth || s.height > cfg.minHeight
  }

  /** Body of the step-up loop: only an axis still below its maximum is raised. */
  function UpStep(cfg: Settings, s: Scales): (r: Scales)
    ensures cfg.maxWidth <= s.width ==> r.width == s.width
    ensures cfg.maxHeight <= s.height ==> r.height == s.height
    ensures s.width < cfg.maxWidth ==>
              r.width <= cfg.maxWidth && r.width <= s.width + cfg.widthIncrement
              && (r.width == cfg.maxWidth || r.width == s.width + cfg.widthIncrement)
    ensures s.height < cfg.maxHeight ==>
              r.height <= cfg.maxHeight && r.height <= s.height + cfg.heightIncrement
              && (r.height == cfg.maxHeight || r.height == s.height + cfg.heightIncrement)
  {
    Scales(if s.width < cfg.maxWidth then StepUp(s.width, cfg.widthIncrement, cfg.maxWidth) else s.width,
           if s.height < cfg.maxHeight then StepUp(s.height, cfg.heightIncrement, cfg.maxHeight) else s.height)
  }

  /** Body of the step-down loop: only an axis still above its minimum is lowered. */
  function DownStep(cfg: Settings, s: Scales): (r: Scales)
    ensures s.width <= cfg.minWidth ==> r.width == s.width
    ensures s.height <= cfg.minHeight ==> r.height == s.height
    ensures cfg.minWidth < s.width ==>
              r.width >= cfg.minWidth && r.width >= s.width - cfg.widthIncrement
              && (r.width == cfg.minWidth || r.width == s.width - cfg.widthIncrement)
    ensures cfg.minHeight < s.height ==>
              r.height >= cfg.minHeight && r.height >= s.height - cfg.heightIncrement
              && (r.height == cfg.minHeight || r.height == s.height - cfg.heightIncrement)
  {
    Scales(if s.width > cfg.minWidth then StepDown(s.width, cfg.widthIncrement, cfg.minWidth) else s.width,
           if s.height > cfg.minHeight then StepDown(s.height, cfg.heightIncrement, cfg.minHeight) else s.height)
  }

  /** One resumption of the coroutine: run from the loop guard of the current
      phase to the next yield. An exhausted up loop falls through to the down
      loop and an exhausted down loop back to the up loop; when neither guard
      holds the outer `while (true)` never reaches a yield again. */
  function Resume(cfg: Settings, st: Sweep): (r: Outcome)
    ensures r.Spins? <==> !BelowMax(cfg, st.scales) && !AboveMin(cfg, st.scales)
    ensures r.Next? ==>
              r.sweep.phase == (if st.phase == Up then (if BelowMax(cfg, st.scales) then Up else Down)
                                else (if AboveMin(cfg, st.scales) then Down else Up))
    ensures r.Next? && r.sweep.phase == Up ==> r.sweep.scales == UpStep(cfg, st.scales)
    ensures r.Next? && r.sweep.phase == Down ==> r.sweep.scales == DownStep(cfg, st.scales)
  {
    match st.phase
    case Up =>
      if BelowMax(cfg, st.scales) then Next(Sweep(Up, UpStep(cfg, st.scales)))
      else if AboveMin(cfg, st.scales) then Next(Sweep(Down, DownStep(cfg, st.scales)))
      else Spins
    case Down =>
      if AboveMin(cfg, st.scales) then Next(Sweep(Down, DownStep(cfg, st.scales)))
      else if BelowMax(cfg, st.scales) then Next(Sweep(Up, UpStep(cfg, st.scales)))
      else Spins
  }

  /** `n` resumptions in a row; `Spins` as soon as one of them does. */
  function Run(cfg: Settings, st: Sweep, n: nat): (r: Outcome)
    ensures n == 0 ==> r == Next(st)
    ensures cfg.Ordered() && cfg.NonNegativeSteps() && cfg.Contains(st.scales) && r.Next? ==>
              cfg.Contains(r.sweep.scales)
    decreases n
  {
    if n == 0 then Next(st)
    else match Resume(cfg, st)
      case Spins => Spins
      case Next(st') => Run(cfg, st', n - 1)
  }

  /** With ordered bounds the coroutine stops yielding exactly when both
      ranges have collapsed to a point and the scales sit on it. */
  lemma SpinsOnlyOnCollapsedBounds(cfg: Settings, st: Sweep)
    requires cfg.Ordered()
    ensures Resume(cfg, st).Spins? <==>
              st.scales.width == cfg.minWidth == cfg.maxWidth && st.scales.height == cfg.minHeight == cfg.maxHeight
  {
  }

  /** Every yield of the sweep leaves in-bounds scales in bounds. */
  lemma ResumeKeepsBounds(cfg: Settings, st: Sweep)
    requires cfg.Ordered() && cfg.NonNegativeSteps() && cfg.Contains(st.scales)
    ensures Resume(cfg, st).Next? ==> cfg.Contains(Resume(cfg, st).sweep.scales)
  {
  }

  /** With both increments zero, a resumption whose loop guard holds yields
      without moving anything, so the coroutine yields forever in place. */
  lemma ZeroIncrementsStall(cfg: Settings, s: Scales)
    requires cfg.widthIncrement == 0.0 && cfg.heightIncrement == 0.0
    requires BelowMax(cfg, s)
    ensures Resume(cfg, Sweep(Up, s)) == Next(Sweep(Up, s))
    ensures Run(cfg, Sweep(Up, s), 2) == Next(Sweep(Up, s))
  {
    assert UpStep(cfg, s) == s;
  }

  /** The scales after k iterations of the step-up loop body. */
  function UpAfter(cfg: Settings, s: Scales, k: nat): Scales
  {
    if k == 0 then s else UpStep(cfg, UpAfter(cfg, s, k - 1))
  }

  /** The scales after k iterations of the step-down loop body. */
  function DownAfter(cfg: Settings, s: Scales, k: nat): Scales
  {
    if k == 0 then s else DownStep(cfg, DownAfter(cfg, s, k - 1))
  }

  // ---------------------------------------------------------------------------
  // Step counts

  /** Least integer not below x. */
  function Ceil(x: real): int {
    -((-x).Floor)
  }

  lemma CeilPositive(x: real)
    requires 0.0 < x
    ensures 1 <= Ceil(x)
    ensures x <= 1.0 ==> Ceil(x) == 1
  {
  }

  lemma CeilShift(x: real)
    ensures Ceil(x - 1.0) == Ceil(x) - 1
  {
    assert -(x - 1.0) == -x + 1.0;
  }

  /** Number of steps of size `inc` that take `x` up to `hi`. */
  function AxisUpSteps(x: real, inc: real, hi: real): nat
    requires 0.0 < inc
  {
    if hi <= x then 0 else CeilPositive((hi - x) / inc); Ceil((hi - x) / inc)
  }

  /** Number of steps of size `dec` that take `x` down to `lo`. */
  function AxisDownSteps(x: real, dec: real, lo: real): nat
    requires 0.0 < dec
  {
    if x <= lo then 0 else CeilPositive((x - lo) / dec); Ceil((x - lo) / dec)
  }

  function MaxNat(a: nat, b: nat): nat {
    if a < b then b else a
  }

  /** Length of the step-up loop: the larger of the two axes' counts. */
  function UpSteps(cfg: Settings, s: Scales): nat
    requires cfg.PositiveSteps()
  {
    MaxNat(AxisUpSteps(s.width, cfg.widthIncrement, cfg.maxWidth),
           AxisUpSteps(s.height, cfg.heightIncrement, cfg.maxHeight))
  }

  /** Length of the step-down loop. */
  function DownSteps(cfg: Settings, s: Scales): nat
    requires cfg.PositiveSteps()
  {
    MaxNat(AxisDownSteps(s.width, cfg.widthIncrement, cfg.minWidth),
           AxisDownSteps(s.height, cfg.heightIncrement, cfg.minHeight))
  }

  lemma QuotientAtMostOne(a: real, b: real)
    requires 0.0 < b && a <= b
    ensures a / b <= 1.0
  {
    var q := a / b;
    assert q * b == a;
  }

  lemma QuotientShift(a: real, b: real)
    requires 0.0 < b
    ensures (a - b) / b == a / b - 1.0
  {
    assert b / b == 1.0;
    assert (a - b) / b == a / b - b / b;
  }

  /** One capped step removes exactly one of the remaining steps of an axis. */
  lemma AxisUpStepCounts(x: real, inc: real, hi: real)
    requires 0.0 < inc && x < hi
    ensures AxisUpSteps(StepUp(x, inc, hi), inc, hi) == AxisUpSteps(x, inc, hi) - 1
  {
    var y := (hi - x) / inc;
    CeilPositive(y);
    if hi <= x + inc {
      QuotientAtMostOne(hi - x, inc);
    } else {
      QuotientShift(hi - x, inc);
      assert hi - (x + inc) == (hi - x) - inc;
      CeilShift(y);
    }
  }

  /** One floored step removes exactly one of the remaining steps of an axis. */
  lemma AxisDownStepCounts(x: real, dec: real, lo: real)
    requires 0.0 < dec && lo < x
    ensures AxisDownSteps(StepDown(x, dec, lo), dec, lo) == AxisDownSteps(x, dec, lo) - 1
  {
    var y := (x - lo) / dec;
    CeilPositive(y);
    if x - dec <= lo {
      QuotientAtMostOne(x - lo, dec);
    } else {
      QuotientShift(x - lo, dec);
      assert x - dec - lo == (x - lo) - dec;
      CeilShift(y);
    }
  }

  /** No step-up is left exactly when the step-up loop's guard fails. */
  lemma UpStepsZero(cfg: Settings, s: Scales)
    requires cfg.PositiveSteps()
    ensures UpSteps(cfg, s) == 0 <==> !BelowMax(cfg, s)
  {
    if s.width < cfg.maxWidth {
      CeilPositive((cfg.maxWidth - s.width) / cfg.widthIncrement);
    }
    if s.height < cfg.maxHeight {
      CeilPositive((cfg.maxHeight - s.height) / cfg.heightIncrement);
    }
  }

  /** No step-down is left exactly when the step-down loop's guard fails. */
  lemma DownStepsZero(cfg: Settings, s: Scales)
    requires cfg.PositiveSteps()
    ensures DownSteps(cfg, s) == 0 <==> !AboveMin(cfg, s)
  {
    if s.width > cfg.minWidth {
      CeilPositive((s.width - cfg.minWidth) / cfg.widthIncrement);
    }
    if s.height > cfg.minHeight {
      CeilPositive((s.height - cfg.minHeight) / cfg.heightIncrement);
    }
  }

  /** Each iteration of the step-up loop brings its remaining length down by one. */
  lemma UpStepCounts(cfg: Settings, s: Scales)
    requires cfg.PositiveSteps() && BelowMax(cfg, s)
    ensures UpSteps(cfg, UpStep(cfg, s)) == UpSteps(cfg, s) - 1
  {
    UpStepsZero(cfg, s);
    if s.width < cfg.maxWidth {
      AxisUpStepCounts(s.width, cfg.widthIncrement, cfg.maxWidth);
    }
    if s.height < cfg.maxHeight {
      AxisUpStepCounts(s.height, cfg.heightIncrement, cfg.maxHeight);
    }
  }

  /** Each iteration of the step-down loop brings its remaining length down by one. */
  lemma DownStepCounts(cfg: Settings, s: Scales)
    requires cfg.PositiveSteps() && AboveMin(cfg, s)
    ensures DownSteps(cfg, DownStep(cfg, s)) == DownSteps(cfg, s) - 1
  {
    DownStepsZero(cfg, s);
    if s.width > cfg.minWidth {
      AxisDownStepCounts(s.width, cfg.widthIncrement, cfg.minWidth);
    }
    if s.height > cfg.minHeight {
      AxisDownStepCounts(s.height, cfg.heightIncrement, cfg.minHeight);
    }
  }

  // ---------------------------------------------------------------------------
  // The phases

  /** The step-up phase yields exactly UpSteps times and ends with every axis
      at its maximum (an axis that began above it is left where it was). */
  lemma {:induction false} UpPhaseRun(cfg: Settings, s: Scales)
    requires cfg.PositiveSteps()
    ensures Run(cfg, Sweep(Up, s), UpSteps(cfg, s))
         == Next(Sweep(Up, Scales(Max(cfg.maxWidth, s.width), Max(cfg.maxHeight, s.height))))
    decreases UpSteps(cfg, s)
  {
    UpStepsZero(cfg, s);
    if BelowMax(cfg, s) {
      UpStepCounts(cfg, s);
      var s' := UpStep(cfg, s);
      assert Max(cfg.maxWidth, s'.width) == Max(cfg.maxWidth, s.width);
      assert Max(cfg.maxHeight, s'.height) == Max(cfg.maxHeight, s.height);
      UpPhaseRun(cfg, s');
    }
  }

  /** The step-down phase yields exactly DownSteps times and ends with every
      axis at its minimum (an axis that began below it is left where it was). */
  lemma {:induction false} DownPhaseRun(cfg: Settings, s: Scales)
    requires cfg.PositiveSteps()
    ensures Run(cfg, Sweep(Down, s), DownSteps(cfg, s))
         == Next(Sweep(Down, Scales(Min(cfg.minWidth, s.width), Min(cfg.minHeight, s.height))))
    decreases DownSteps(cfg, s)
  {
    DownStepsZero(cfg, s);
    if AboveMin(cfg, s) {
      DownStepCounts(cfg, s);
      var s' := DownStep(cfg, s);
      assert Min(cfg.minWidth, s'.width) == Min(cfg.minWidth, s.width);
      assert Min(cfg.minHeight, s'.height) == Min(cfg.minHeight, s.height);
      DownPhaseRun(cfg, s');
    }
  }

  /** Running m and then n resumptions is running m + n of them. */
  lemma {:induction false} RunAppend(cfg: Settings, st: Sweep, m: nat, n: nat)
    ensures Run(cfg, st, m + n) == match Run(cfg, st, m)
                                   case Spins => Spins
                                   case Next(mid) => Run(cfg, mid, n)
    decreases m
  {
    if m > 0 {
      match Resume(cfg, st)
      case Spins =>
      case Next(st') =>
        assert m + n - 1 == (m - 1) + n;
        RunAppend(cfg, st', m - 1, n);
    }
  }

  /** Two states whose next resumption agrees agree on every later one. */
  lemma SameFirstResume(cfg: Settings, a: Sweep, b: Sweep, n: nat)
    requires 0 < n && Resume(cfg, a) == Resume(cfg, b)
    ensures Run(cfg, a, n) == Run(cfg, b, n)
  {
  }

  /** One full sweep: from any start in the up phase, after UpSteps yields the
      scales are at the top, and after DownSteps more they are exactly at the
      minima, in the down phase. */
  lemma FullSweep(cfg: Settings, s: Scales)
    requires cfg.Ordered() && cfg.PositiveSteps()
    requires cfg.minWidth < cfg.maxWidth || cfg.minHeight < cfg.maxHeight
    ensures var top := Scales(Max(cfg.maxWidth, s.width), Max(cfg.maxHeight, s.height));
            Run(cfg, Sweep(Up, s), UpSteps(cfg, s) + DownSteps(cfg, top))
            == Next(Sweep(Down, Scales(cfg.minWidth, cfg.minHeight)))
  {
    var top := Scales(Max(cfg.maxWidth, s.width), Max(cfg.maxHeight, s.height));
    UpPhaseRun(cfg, s);
    RunAppend(cfg, Sweep(Up, s), UpSteps(cfg, s), DownSteps(cfg, top));
    assert AboveMin(cfg, top) && !BelowMax(cfg, top);
    DownStepsZero(cfg, top);
    SameFirstResume(cfg, Sweep(Up, top), Sweep(Down, top), DownSteps(cfg, top));
    DownPhaseRun(cfg, top);
  }

  /** The sweep is periodic: from the bottom of a down phase, one up phase and
      one down phase bring it back to exactly the same state. */
  lemma SweepPeriodic(cfg: Settings)
    requires cfg.Ordered() && cfg.PositiveSteps()
    requires cfg.minWidth < cfg.maxWidth || cfg.minHeight < cfg.maxHeight
    ensures var bottom := Scales(cfg.minWidth, cfg.minHeight);
            var top := Scales(cfg.maxWidth, cfg.maxHeight);
            Run(cfg, Sweep(Down, bottom), UpSteps(cfg, bottom) + DownSteps(cfg, top))
            == Next(Sweep(Down, bottom))
  {
    var bottom := Scales(cfg.minWidth, cfg.minHeight);
    assert BelowMax(cfg, bottom) && !AboveMin(cfg, bottom);
    UpStepsZero(cfg, bottom);
    FullSweep(cfg, bottom);
    assert Scales(Max(cfg.maxWidth, bottom.width), Max(cfg.maxHeight, bottom.height))
        == Scales(cfg.maxWidth, cfg.maxHeight);
    SameFirstResume(cfg, Sweep(Down, bottom), Sweep(Up, bottom),
                    UpSteps(cfg, bottom) + DownSteps(cfg, Scales(cfg.maxWidth, cfg.maxHeight)));
  }

  /** With the default settings a sweep has four steps up and four down. */
  lemma DefaultPhaseLengths()
    ensures UpSteps(Defaults, Scales(0.5, 0.5)) == 4
    ensures DownSteps(Defaults, Scales(1.5, 1.5)) == 4
  {
    assert (1.5 - 0.5) / 0.25 == 4.0;
  }
}
