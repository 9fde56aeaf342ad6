/**
 * Properties of the controller that relate several calls or need facts about
 * the foreign norm and power: the history invariant, rejection leaving the
 * state alone, per-element status for non-finite errors, bounds on a
 * successful step, monotonicity of the PID law, a deterministic trajectory,
 * and a witness that the initial step is not bounded by the time span.
 */
module PidProperties {
  import opened Wrappers
  import opened Floats
  import opened Batch
  import opened PidState
  import opened PidController

  // ---------------------------------------------------------------------------
  // The history invariant

  /**
   * Every slot of the history stays a finite ratio in [almost_zero, 1]
   * across `adapt_step_size`, with or without an error estimate, provided the
   * neutral ratio 1 is itself above the floor.
   */
  lemma {:induction false} AdaptPreservesHistory(c: Controller, dt: seq<Float>, y0: seq<seq<Float>>,
                                                 step: StepResult, s: PIDState, pow: Power)
    requires step.errorEstimate.Some? ==> s.methodOrder != 0 && AdaptShapes(dt, y0, step, s)
    requires HistoryValid(s, |dt|) && s.almostZero <= 1.0
    ensures HistoryValid(AdaptStepSize(c, dt, y0, step, s, pow).state, |dt|)
  {
    var r := AdaptStepSize(c, dt, y0, step, s, pow);
    if step.errorEstimate.Some? {
      forall i | 0 <= i < |dt|
        ensures InHistoryRange(r.state.prevErrorRatio[i], s.almostZero)
        ensures InHistoryRange(r.state.prevPrevErrorRatio[i], s.almostZero)
      {
        var ratio := ErrorRatio(c, s.almostZero, y0, step.y, step.errorEstimate.value);
        assert r == AdaptWithRatio(c, s, dt, ratio, pow);
        if r.accept[i] {
          assert ratio[i].Finite? && s.almostZero <= ratio[i].value < 1.0;
        }
      }
    }
  }

  /** Merging two states whose histories are valid gives a valid history. */
  lemma {:induction false} MergePreservesHistory(running: seq<bool>, current: PIDState, previous: PIDState)
    requires HistoryValid(current, |running|) && HistoryValid(previous, |running|)
    requires current.almostZero <= previous.almostZero
    ensures HistoryValid(MergeStates(running, current, previous), |running|)
  {
    var r := MergeStates(running, current, previous);
    forall i | 0 <= i < |running|
      ensures InHistoryRange(r.prevErrorRatio[i], r.almostZero)
      ensures InHistoryRange(r.prevPrevErrorRatio[i], r.almostZero)
    {
      if !running[i] {
        assert InHistoryRange(previous.prevErrorRatio[i], previous.almostZero);
        assert InHistoryRange(previous.prevPrevErrorRatio[i], previous.almostZero);
      }
    }
  }

  // ---------------------------------------------------------------------------
  // merge_states with a uniform mask

  /** With every element still running, the merge is `current` itself. */
  lemma {:induction false} MergeAllRunning(running: seq<bool>, current: PIDState, previous: PIDState)
    requires Shaped(current, |running|) && Shaped(previous, |running|) && AllTrue(running)
    ensures MergeStates(running, current, previous) == current
  {
    WhereAllTrue(running, current.prevErrorRatio, previous.prevErrorRatio);
    WhereAllTrue(running, current.prevPrevErrorRatio, previous.prevPrevErrorRatio);
  }

  /**
   * With every element finished, the merge has `previous`'s history and
   * `current`'s configuration; for two states of one solve that is `previous`.
   */
  lemma {:induction false} MergeNoneRunning(running: seq<bool>, current: PIDState, previous: PIDState)
    requires Shaped(current, |running|) && Shaped(previous, |running|) && AllFalse(running)
    ensures MergeStates(running, current, previous).prevErrorRatio == previous.prevErrorRatio
    ensures MergeStates(running, current, previous).prevPrevErrorRatio == previous.prevPrevErrorRatio
    ensures SameConfiguration(previous, current) ==> MergeStates(running, current, previous) == previous
  {
    WhereAllFalse(running, current.prevErrorRatio, previous.prevErrorRatio);
    WhereAllFalse(running, current.prevPrevErrorRatio, previous.prevPrevErrorRatio);
  }

  // ---------------------------------------------------------------------------
  // Rejection

  /**
   * When every element is rejected the state comes back unchanged, so
   * repeating the call with the same inputs repeats its whole result.
   */
  lemma {:induction false} RejectionKeepsState(c: Controller, dt: seq<Float>, y0: seq<seq<Float>>,
                                               step: StepResult, s: PIDState, pow: Power)
    requires s.methodOrder != 0 && AdaptShapes(dt, y0, step, s)
    requires AllFalse(AdaptStepSize(c, dt, y0, step, s, pow).accept)
    ensures AdaptStepSize(c, dt, y0, step, s, pow).state == s
    ensures AdaptStepSize(c, dt, y0, step, AdaptStepSize(c, dt, y0, step, s, pow).state, pow)
            == AdaptStepSize(c, dt, y0, step, s, pow)
  {
    var r := AdaptStepSize(c, dt, y0, step, s, pow);
    var ratio := ErrorRatio(c, s.almostZero, y0, step.y, step.errorEstimate.value);
    assert r == AdaptWithRatio(c, s, dt, ratio, pow);
    assert r.state.prevErrorRatio == s.prevErrorRatio;
    assert r.state.prevPrevErrorRatio == s.prevPrevErrorRatio;
  }

  // ---------------------------------------------------------------------------
  // Status

  /** With finite states and positive tolerances, a scaled error component is finite exactly when the estimate's is. */
  lemma ScaledErrorFinite(c: Controller, y0: seq<Float>, y1: seq<Float>, err: seq<Float>)
    requires |y1| == |y0| && |err| == |y0|
    requires c.atol > 0.0 && c.rtol >= 0.0 && AllFinite(y0) && AllFinite(y1)
    ensures forall j :: 0 <= j < |y0| ==> (ScaledError(c, y0, y1, err)[j].Finite? <==> err[j].Finite?)
  {
  }

  /**
   * For a norm that behaves like one (non-negative, finite on finite rows,
   * infinite or NaN when a component is), finite states and positive
   * tolerances: an element reports INFINITE_NORM exactly when its error
   * estimate holds an infinity or a NaN, and SUCCESS otherwise, whatever the
   * other elements hold.
   */
  lemma {:induction false} NonFiniteEstimateFlagged(c: Controller, dt: seq<Float>, y0: seq<seq<Float>>,
                                                    step: StepResult, s: PIDState, pow: Power)
    requires s.methodOrder != 0 && AdaptShapes(dt, y0, step, s)
    requires c.atol > 0.0 && c.rtol >= 0.0
    requires forall i :: 0 <= i < |y0| ==> AllFinite(y0[i]) && AllFinite(step.y[i])
    requires NonNegativeNorm(c.norm) && FiniteOnFinite(c.norm) && PropagatesNonFinite(c.norm)
    ensures AdaptStepSize(c, dt, y0, step, s, pow).status.Some?
    ensures forall i :: 0 <= i < |y0| ==>
      (AdaptStepSize(c, dt, y0, step, s, pow).status.value[i] == InfiniteNorm
       <==> !AllFinite(step.errorEstimate.value[i]))
  {
    var r := AdaptStepSize(c, dt, y0, step, s, pow);
    var err := step.errorEstimate.value;
    var ratio := ErrorRatio(c, s.almostZero, y0, step.y, err);
    assert r == AdaptWithRatio(c, s, dt, ratio, pow);
    forall i | 0 <= i < |y0|
      ensures r.status.value[i] == InfiniteNorm <==> !AllFinite(err[i])
    {
      var q := ScaledError(c, y0[i], step.y[i], err[i]);
      ScaledErrorFinite(c, y0[i], step.y[i], err[i]);
      if AllFinite(err[i]) {
        assert AllFinite(q);
        assert c.norm(q).Finite?;
      } else {
        var j :| 0 <= j < |err[i]| && !err[i][j].Finite?;
        assert !q[j].Finite?;
        assert !c.norm(q).Finite?;
        assert c.norm(q).NaN? || c.norm(q).PosInf?;
      }
    }
  }

  // ---------------------------------------------------------------------------
  // A successful step

  lemma ScaleBetween(d: real, f: real, lo: real, hi: real)
    requires d > 0.0 && lo <= f <= hi
    ensures d * lo <= d * f <= d * hi
  {
  }

  /**
   * An element that reports SUCCESS from a valid history gets a finite next
   * step: within [dt * factor_min, dt * factor_max] when no step bounds are
   * set, and within the step bounds that are. This needs only that positive
   * finite numbers have positive finite powers.
   */
  lemma {:induction false} SuccessfulStepBounded(c: Controller, dt: seq<Float>, y0: seq<seq<Float>>,
                                                 step: StepResult, s: PIDState, pow: Power, i: int)
    requires s.methodOrder != 0 && AdaptShapes(dt, y0, step, s)
    requires HistoryValid(s, |dt|) && s.almostZero > 0.0 && PowerPositive(pow)
    requires 0 <= i < |dt| && dt[i].Finite?
    requires AdaptStepSize(c, dt, y0, step, s, pow).status.Some?
    requires AdaptStepSize(c, dt, y0, step, s, pow).status.value[i] == Succeeded
    ensures AdaptStepSize(c, dt, y0, step, s, pow).dtNext[i].Finite?
    ensures s.dtMin.None? && s.dtMax.None? && dt[i].value > 0.0 && c.factorMin <= c.factorMax ==>
      dt[i].value * c.factorMin <= AdaptStepSize(c, dt, y0, step, s, pow).dtNext[i].value <= dt[i].value * c.factorMax
    ensures s.dtMax.Some? ==> AdaptStepSize(c, dt, y0, step, s, pow).dtNext[i].value <= s.dtMax.value
    ensures s.dtMin.Some? && (s.dtMax.Some? ==> s.dtMin.value <= s.dtMax.value) ==>
      s.dtMin.value <= AdaptStepSize(c, dt, y0, step, s, pow).dtNext[i].value
  {
    var r := AdaptStepSize(c, dt, y0, step, s, pow);
    var ratio := ErrorRatio(c, s.almostZero, y0, step.y, step.errorEstimate.value);
    assert r == AdaptWithRatio(c, s, dt, ratio, pow);
    var e := Exponents(c, s.methodOrder);
    assert ratio[i].Finite? && ratio[i].value > 0.0;
    var p, pp := s.prevErrorRatio[i], s.prevPrevErrorRatio[i];
    assert InHistoryRange(p, s.almostZero) && InHistoryRange(pp, s.almostZero);
    assert pow(Finite(ratio[i].value), e.0).Finite?;
    assert pow(Finite(p.value), e.1).Finite?;
    assert pow(Finite(pp.value), e.2).Finite?;
    var f := FactorAt(c, s.methodOrder, pow, ratio[i], p, pp);
    assert f.Finite?;
    var unbounded := ScaledStep(c, s, dt, ratio, pow);
    assert unbounded[i] == Mul(dt[i], f);
    assert unbounded[i].Finite?;
    if s.dtMin.None? && s.dtMax.None? && dt[i].value > 0.0 && c.factorMin <= c.factorMax {
      ScaleBetween(dt[i].value, f.value, c.factorMin, c.factorMax);
    }
  }

  // ---------------------------------------------------------------------------
  // Monotonicity of the PID law

  /** Hypothesis on the power: for a non-positive exponent it does not grow with its positive base. */
  ghost predicate PowerAntitone(pow: Power) {
    forall x: real, y: real, e: real {:trigger pow(Finite(x), e), pow(Finite(y), e)} ::
      0.0 < x <= y && e <= 0.0 ==> Le(pow(Finite(y), e), pow(Finite(x), e))
  }

  lemma MulMonotone(a: real, b: real, k: real)
    requires a <= b && k > 0.0
    ensures a * k <= b * k
  {
  }

  /**
   * With non-negative gains, a positive order and a positive safety factor,
   * a larger error ratio never gives a larger growth factor, whatever the
   * (positive) history.
   */
  lemma {:induction false} FactorNonIncreasing(c: Controller, order: int, pow: Power,
                                               x: real, y: real, prev: real, prevPrev: real)
    requires order > 0 && c.icoeff + c.pcoeff + c.dcoeff >= 0.0 && c.safety > 0.0
    requires PowerPositive(pow) && PowerAntitone(pow)
    requires 0.0 < x <= y && prev > 0.0 && prevPrev > 0.0
    ensures Le(FactorAt(c, order, pow, Finite(y), Finite(prev), Finite(prevPrev)),
               FactorAt(c, order, pow, Finite(x), Finite(prev), Finite(prevPrev)))
  {
    var e := Exponents(c, order);
    ExponentNonPositive(c, order);
    assert Le(pow(Finite(y), e.0), pow(Finite(x), e.0));
    RawFactorOrdered(c, order, pow, x, y, prev, prevPrev);
    ClampOfOrderedRaw(c, order, pow, Finite(x), Finite(y), Finite(prev), Finite(prevPrev));
  }

  /** With positive finite powers, a smaller first power gives a smaller finite raw factor. */
  lemma RawFactorOrdered(c: Controller, order: int, pow: Power, x: real, y: real, prev: real, prevPrev: real)
    requires order != 0 && c.safety > 0.0 && PowerPositive(pow)
    requires x > 0.0 && y > 0.0 && prev > 0.0 && prevPrev > 0.0
    requires Le(pow(Finite(y), Exponents(c, order).0), pow(Finite(x), Exponents(c, order).0))
    ensures RawFactor(c, order, pow, Finite(y), Finite(prev), Finite(prevPrev)).Finite?
    ensures RawFactor(c, order, pow, Finite(x), Finite(prev), Finite(prevPrev)).Finite?
    ensures RawFactor(c, order, pow, Finite(y), Finite(prev), Finite(prevPrev)).value
         <= RawFactor(c, order, pow, Finite(x), Finite(prev), Finite(prevPrev)).value
  {
    var e := Exponents(c, order);
    var py, px := pow(Finite(y), e.0), pow(Finite(x), e.0);
    var p2, p3 := pow(Finite(prev), e.1), pow(Finite(prevPrev), e.2);
    assert py.Finite? && px.Finite? && p2.value > 0.0 && p3.value > 0.0;
    var lo, hi := c.safety * py.value * p2.value * p3.value, c.safety * px.value * p2.value * p3.value;
    ProductMonotone(c.safety, py.value, px.value, p2.value, p3.value);
    assert lo <= hi;
    RawFactorOfFinitePowers(c, order, pow, Finite(y), Finite(prev), Finite(prevPrev));
    RawFactorOfFinitePowers(c, order, pow, Finite(x), Finite(prev), Finite(prevPrev));
    assert RawFactor(c, order, pow, Finite(y), Finite(prev), Finite(prevPrev)) == Finite(lo);
    assert RawFactor(c, order, pow, Finite(x), Finite(prev), Finite(prevPrev)) == Finite(hi);
  }

  /** Clamping keeps the order of two finite raw factors. */
  lemma ClampOfOrderedRaw(c: Controller, order: int, pow: Power, x: Float, y: Float, prev: Float, prevPrev: Float)
    requires order != 0
    requires RawFactor(c, order, pow, y, prev, prevPrev).Finite? && RawFactor(c, order, pow, x, prev, prevPrev).Finite?
    requires RawFactor(c, order, pow, y, prev, prevPrev).value <= RawFactor(c, order, pow, x, prev, prevPrev).value
    ensures Le(FactorAt(c, order, pow, y, prev, prevPrev), FactorAt(c, order, pow, x, prev, prevPrev))
  {
    ClampMonotone(RawFactor(c, order, pow, y, prev, prevPrev).value, RawFactor(c, order, pow, x, prev, prevPrev).value,
                  c.factorMin, c.factorMax);
  }

  /** Multiplying by positive numbers keeps the order. */
  lemma ProductMonotone(k: real, a: real, b: real, u: real, w: real)
    requires k > 0.0 && a <= b && u > 0.0 && w > 0.0
    ensures k * a * u * w <= k * b * u * w
  {
    MulMonotone(a, b, k);
    assert k * a <= k * b;
    MulMonotone(k * a, k * b, u);
    MulMonotone(k * a * u, k * b * u, w);
  }

  /** With three finite powers the raw factor is their finite product with the safety factor. */
  lemma RawFactorOfFinitePowers(c: Controller, order: int, pow: Power, ratio: Float, prev: Float, prevPrev: Float)
    requires order != 0
    requires pow(ratio, Exponents(c, order).0).Finite?
    requires pow(prev, Exponents(c, order).1).Finite?
    requires pow(prevPrev, Exponents(c, order).2).Finite?
    ensures RawFactor(c, order, pow, ratio, prev, prevPrev) ==
      Finite(c.safety * pow(ratio, Exponents(c, order).0).value * pow(prev, Exponents(c, order).1).value
             * pow(prevPrev, Exponents(c, order).2).value)
  {
    var e := Exponents(c, order);
    var a, b, d := pow(ratio, e.0).value, pow(prev, e.1).value, pow(prevPrev, e.2).value;
    assert Mul(Finite(c.safety), Finite(a)) == Finite(c.safety * a);
    assert Mul(Finite(c.safety * a), Finite(b)) == Finite(c.safety * a * b);
    assert Mul(Finite(c.safety * a * b), Finite(d)) == Finite(c.safety * a * b * d);
  }

  /** With non-negative gains and a positive order, the exponent of the current ratio is not positive. */
  lemma ExponentNonPositive(c: Controller, order: int)
    requires order > 0 && c.icoeff + c.pcoeff + c.dcoeff >= 0.0
    ensures Exponents(c, order).0 <= 0.0
  {
    var o := order as real;
    assert c.icoeff / o + c.pcoeff / o + c.dcoeff / o == (c.icoeff + c.pcoeff + c.dcoeff) / o;
  }

  // ---------------------------------------------------------------------------
  // Step bounds act on the signed step

  /** A negative step scaled by a positive factor stays negative and is at most `d * lo` for a factor at least lo. */
  lemma ScaleNegative(d: real, f: real, lo: real)
    requires d < 0.0 && 0.0 < lo <= f
    ensures d * f < 0.0 && d * f <= d * lo
  {
    assert d * f - d * lo == d * (f - lo);
  }

  /** Element i of dt_next is the unbounded step, clamped when a bound is configured. */
  lemma DtNextAt(c: Controller, s: PIDState, dt: seq<Float>, ratio: seq<Float>, pow: Power, i: int)
    requires s.methodOrder != 0 && |ratio| == |dt| && Shaped(s, |dt|) && 0 <= i < |dt|
    ensures AdaptWithRatio(c, s, dt, ratio, pow).dtNext[i] ==
      if s.dtMin.Some? || s.dtMax.Some? then Clamp(ScaledStep(c, s, dt, ratio, pow)[i], s.dtMin, s.dtMax)
      else ScaledStep(c, s, dt, ratio, pow)[i]
  {
  }

  /** The unbounded step of a finite negative dt with a finite factor is dt * factor, negative and at most dt * factor_min. */
  lemma NegativeScaledStep(c: Controller, s: PIDState, dt: seq<Float>, ratio: seq<Float>, pow: Power, i: int)
    requires s.methodOrder != 0 && |ratio| == |dt| && Shaped(s, |dt|)
    requires 0.0 < c.factorMin <= c.factorMax
    requires 0 <= i < |dt| && dt[i].Finite? && dt[i].value < 0.0
    requires DtFactor(c, s, ratio, pow)[i].Finite?
    ensures ScaledStep(c, s, dt, ratio, pow)[i].Finite?
    ensures ScaledStep(c, s, dt, ratio, pow)[i].value <= dt[i].value * c.factorMin < 0.0
  {
    var f := DtFactor(c, s, ratio, pow)[i];
    ScaleNegative(dt[i].value, f.value, c.factorMin);
  }

  /**
   * `torch.clamp(dt_next, dt_min, dt_max)` acts on the signed step, so a
   * positive dt_min turns every accepted or rejected backward step into the
   * forward step dt_min.
   */
  lemma {:induction false} BackwardStepRaisedToDtMin(c: Controller, s: PIDState, dt: seq<Float>, ratio: seq<Float>,
                                                     pow: Power, i: int)
    requires s.methodOrder != 0 && |ratio| == |dt| && Shaped(s, |dt|)
    requires s.dtMin.Some? && s.dtMin.value > 0.0 && s.dtMax.None?
    requires 0.0 < c.factorMin <= c.factorMax
    requires 0 <= i < |dt| && dt[i].Finite? && dt[i].value < 0.0
    requires DtFactor(c, s, ratio, pow)[i].Finite?
    ensures AdaptWithRatio(c, s, dt, ratio, pow).dtNext[i] == Finite(s.dtMin.value)
  {
    NegativeScaledStep(c, s, dt, ratio, pow, i);
    DtNextAt(c, s, dt, ratio, pow, i);
    var next := ScaledStep(c, s, dt, ratio, pow)[i];
    assert Clamp(next, s.dtMin, s.dtMax) == Finite(s.dtMin.value);
  }

  /**
   * A non-negative dt_max never limits a backward step: the step leaves the
   * clamp unchanged and keeps a magnitude of at least |dt| * factor_min.
   */
  lemma {:induction false} DtMaxLeavesBackwardStep(c: Controller, s: PIDState, dt: seq<Float>, ratio: seq<Float>,
                                                   pow: Power, i: int)
    requires s.methodOrder != 0 && |ratio| == |dt| && Shaped(s, |dt|)
    requires s.dtMax.Some? && s.dtMax.value >= 0.0 && s.dtMin.None?
    requires 0.0 < c.factorMin <= c.factorMax
    requires 0 <= i < |dt| && dt[i].Finite? && dt[i].value < 0.0
    requires DtFactor(c, s, ratio, pow)[i].Finite?
    ensures AdaptWithRatio(c, s, dt, ratio, pow).dtNext[i] == ScaledStep(c, s, dt, ratio, pow)[i]
    ensures AdaptWithRatio(c, s, dt, ratio, pow).dtNext[i].Finite?
    ensures AdaptWithRatio(c, s, dt, ratio, pow).dtNext[i].value <= dt[i].value * c.factorMin < 0.0
  {
    NegativeScaledStep(c, s, dt, ratio, pow, i);
    DtNextAt(c, s, dt, ratio, pow, i);
    var next := ScaledStep(c, s, dt, ratio, pow)[i];
    assert Clamp(next, s.dtMin, s.dtMax) == next;
  }

  // ---------------------------------------------------------------------------
  // A deterministic trajectory

  /** Hypothesis on the power: one to any power is one. */
  ghost predicate PowerOfOne(pow: Power) {
    forall e :: pow(Finite(1.0), e) == Finite(1.0)
  }

  /**
   * Gains kP = kI = 0.2, kD = 0, order 4, default safety and factor bounds,
   * dt = 0.1 and a neutral history, fed the error ratios 2.0, 0.5 and 0.8 in
   * turn with each call's dt_next passed on: the first call rejects and
   * leaves the state alone, the second accepts with the factor
   * clamp(0.9 * 0.5^-0.1, 0.2, 10) and records 0.5, the third accepts with
   * the factor clamp(0.9 * 0.8^-0.1 * 0.5^0.05, 0.2, 10) and records 0.8 after 0.5.
   */
  lemma {:induction false} ThreeStepTrajectory(norm: Norm, pow: Power, almostZero: real)
    requires PowerOfOne(pow)
    ensures
      var c := WithDefaults(0.000001, 0.001, 0.2, 0.2, 0.0, None, norm, None, None);
      var s0 := Default(4, 1, None, None, almostZero);
      var a1 := AdaptWithRatio(c, s0, [Finite(0.1)], [Finite(2.0)], pow);
      var a2 := AdaptWithRatio(c, a1.state, a1.dtNext, [Finite(0.5)], pow);
      var a3 := AdaptWithRatio(c, a2.state, a2.dtNext, [Finite(0.8)], pow);
      && a1.accept == [false] && a1.state == s0
      && a1.dtNext == [Mul(Finite(0.1), Clamp(Mul(Finite(0.9), pow(Finite(2.0), -0.1)), Some(0.2), Some(10.0)))]
      && a2.accept == [true]
      && a2.dtNext == [Mul(a1.dtNext[0], Clamp(Mul(Finite(0.9), pow(Finite(0.5), -0.1)), Some(0.2), Some(10.0)))]
      && a2.state.prevErrorRatio == [Finite(0.5)] && a2.state.prevPrevErrorRatio == [Finite(1.0)]
      && a3.accept == [true]
      && a3.dtNext == [Mul(a2.dtNext[0],
           Clamp(Mul(Mul(Finite(0.9), pow(Finite(0.8), -0.1)), pow(Finite(0.5), 0.05)), Some(0.2), Some(10.0)))]
      && a3.state.prevErrorRatio == [Finite(0.8)] && a3.state.prevPrevErrorRatio == [Finite(0.5)]
  {
    var c := WithDefaults(0.000001, 0.001, 0.2, 0.2, 0.0, None, norm, None, None);
    var s0 := Default(4, 1, None, None, almostZero);
    var e := Exponents(c, 4);
    assert e == (-0.1, 0.05, 0.0);
    var one := Finite(1.0);
    assert s0.prevErrorRatio == [one] && s0.prevPrevErrorRatio == [one];
    SingleElementStep(c, s0, Finite(0.1), Finite(2.0), pow);
    var a1 := AdaptWithRatio(c, s0, [Finite(0.1)], [Finite(2.0)], pow);
    MulByOne(Mul(Finite(0.9), pow(Finite(2.0), -0.1)));
    SingleElementStep(c, a1.state, a1.dtNext[0], Finite(0.5), pow);
    var a2 := AdaptWithRatio(c, a1.state, a1.dtNext, [Finite(0.5)], pow);
    MulByOne(Mul(Finite(0.9), pow(Finite(0.5), -0.1)));
    SingleElementStep(c, a2.state, a2.dtNext[0], Finite(0.8), pow);
    MulByOne(Mul(Mul(Finite(0.9), pow(Finite(0.8), -0.1)), pow(Finite(0.5), 0.05)));
  }

  /** One call on a batch of one element without step bounds. */
  lemma SingleElementStep(c: Controller, s: PIDState, dt: Float, ratio: Float, pow: Power)
    requires s.methodOrder != 0 && Shaped(s, 1) && s.dtMin.None? && s.dtMax.None?
    ensures
      var a := AdaptWithRatio(c, s, [dt], [ratio], pow);
      && a.accept == [Lt(ratio, Finite(1.0))]
      && a.dtNext == [Mul(dt, FactorAt(c, s.methodOrder, pow, ratio, s.prevErrorRatio[0], s.prevPrevErrorRatio[0]))]
      && a.state == (if Lt(ratio, Finite(1.0)) then s.(prevErrorRatio := [ratio], prevPrevErrorRatio := [s.prevErrorRatio[0]])
                     else s)
  {
    var a := AdaptWithRatio(c, s, [dt], [ratio], pow);
    assert a.dtNext == ScaledStep(c, s, [dt], [ratio], pow);
    assert |a.state.prevErrorRatio| == 1 && |a.state.prevPrevErrorRatio| == 1;
  }

  /** Multiplying by one changes no value, special ones included. */
  lemma MulByOne(x: Float)
    ensures Mul(x, Finite(1.0)) == x
  {
  }

  // ---------------------------------------------------------------------------
  // The initial step is not bounded by the time span

  /** Hypothesis on the norm: every row has norm zero. */
  ghost predicate ZeroNorm(norm: Norm) {
    forall v :: norm(v) == Finite(0.0)
  }

  /**
   * The cap only applies to the first guess: with a norm that is zero
   * everywhere and a time span of 1e-7, the first guess is capped to 1e-7 but
   * the proposal is 1e-6, ten times the span.
   */
  lemma InitialStepMayExceedSpan(c: Controller, vf: VectorField, pow: Power, order: int, t0: Float, y0: seq<Float>)
    requires order != 0 && PreservesShape(vf) && ZeroNorm(c.norm)
    ensures
      var tr := InitialStepAt(c, vf, pow, order, t0, y0, Finite(1.0), Finite(0.0000001));
      tr.dt0 == Finite(0.0000001) && tr.step == Finite(0.000001) && tr.step.value > 0.0000001
  {
    var cap := Finite(0.0000001);
    var tr := InitialStepAt(c, vf, pow, order, t0, y0, Finite(1.0), cap);
    assert tr.d0 == Finite(0.0) && tr.d1 == Finite(0.0);
    assert tr.dt0 == cap;
    assert tr.d2 == Finite(0.0);
    assert tr.dt1 == Finite(0.000001);
  }

  /** Hypothesis on the norm: a row of zeros has norm zero. */
  ghost predicate ZeroRowHasZeroNorm(norm: Norm) {
    forall v :: AllZero(v) ==> norm(v) == Finite(0.0)
  }

  predicate AllZero(v: seq<Float>) { forall i :: 0 <= i < |v| ==> v[i] == Finite(0.0) }

  /** Hypothesis on the power: NaN to a nonzero power is NaN. */
  ghost predicate PowerPropagatesNaN(pow: Power) {
    forall e :: e != 0.0 ==> pow(NaN, e) == NaN
  }

  /**
   * A zero time span makes the proposal NaN: the first guess is capped to 0,
   * the trial step then evaluates the derivative at the start again, and
   * d2 = 0 / 0. This holds for finite data, positive tolerances, a norm that
   * maps zero rows to zero and a power that keeps NaN.
   */
  lemma {:induction false} ZeroSpanInitialStepIsNaN(c: Controller, vf: VectorField, pow: Power, order: int,
                                                    t0: Float, y0: seq<Float>, direction: Float)
    requires order != 0 && PreservesShape(vf)
    requires c.atol > 0.0 && c.rtol >= 0.0
    requires t0.Finite? && direction.Finite? && AllFinite(y0) && AllFinite(vf(t0, y0))
    requires NonNegativeNorm(c.norm) && ZeroRowHasZeroNorm(c.norm) && PowerPropagatesNaN(pow)
    ensures InitialStepAt(c, vf, pow, order, t0, y0, direction, Finite(0.0)).step.NaN?
  {
    var tr := InitialStepAt(c, vf, pow, order, t0, y0, direction, Finite(0.0));
    if !tr.dt0.NaN? {
      assert tr.dt0 == Finite(0.0);
      ZeroStepChangeIsNaN(c, vf, t0, y0, direction);
      assert tr.d2 == NaN;
      assert 1.0 / order as real != 0.0;
      assert tr.dt1 == NaN;
    }
  }

  /** At a zero step the trial derivative is the starting one, so d2 = 0 / 0. */
  lemma ZeroStepChangeIsNaN(c: Controller, vf: VectorField, t0: Float, y0: seq<Float>, direction: Float)
    requires PreservesShape(vf) && c.atol > 0.0 && c.rtol >= 0.0
    requires t0.Finite? && direction.Finite? && AllFinite(y0) && AllFinite(vf(t0, y0))
    requires ZeroRowHasZeroNorm(c.norm)
    ensures
      var f0 := vf(t0, y0);
      var f1 := vf(Add(t0, Mul(direction, Finite(0.0))), TrialState(y0, direction, Finite(0.0), f0));
      Div(c.norm(MulAll(SubAll(f1, f0), InverseScale(c, y0))), Finite(0.0)) == NaN
  {
    var f0 := vf(t0, y0);
    ZeroStepKeepsState(y0, direction, f0);
    assert Add(t0, Mul(direction, Finite(0.0))) == t0;
    ZeroChangeHasZeroNorm(c, y0, f0);
  }

  /** A trial step of length zero from finite data stays where it is. */
  lemma ZeroStepKeepsState(y0: seq<Float>, direction: Float, f0: seq<Float>)
    requires |f0| == |y0| && AllFinite(y0) && AllFinite(f0) && direction.Finite?
    ensures TrialState(y0, direction, Finite(0.0), f0) == y0
  {
    var y1 := TrialState(y0, direction, Finite(0.0), f0);
    forall i | 0 <= i < |y0| ensures y1[i] == y0[i] {
      assert Mul(direction, Finite(0.0)) == Finite(0.0);
    }
  }

  /** With positive tolerances the scaled difference of a finite row with itself has norm zero. */
  lemma ZeroChangeHasZeroNorm(c: Controller, y0: seq<Float>, f0: seq<Float>)
    requires |f0| == |y0| && AllFinite(y0) && AllFinite(f0)
    requires c.atol > 0.0 && c.rtol >= 0.0 && ZeroRowHasZeroNorm(c.norm)
    ensures c.norm(MulAll(SubAll(f0, f0), InverseScale(c, y0))) == Finite(0.0)
  {
    var inv := InverseScale(c, y0);
    var z := MulAll(SubAll(f0, f0), inv);
    forall i | 0 <= i < |y0| ensures z[i] == Finite(0.0) {
      assert inv[i].Finite?;
    }
    assert AllZero(z);
  }
}
