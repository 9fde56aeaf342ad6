/**
 * The PID step-size controller of a batched ODE solver.
 *
 * Every operation works on a whole batch at once: a time or ratio tensor is a
 * `seq<Float>` with one entry per batch element, a data tensor a `seq` of rows.
 * Each conditional of the controller is an elementwise select, so one batch
 * element never influences another. The norm reduction, the vector field and
 * the real-exponent power are foreign to the controller and come in as
 * function values about which nothing is assumed unless a lemma says so.
 */
module PidController {
  import opened Wrappers
  import opened Floats
  import opened Batch
  import opened PidState

  /** Reduces one batch element's row to a scalar (`rms_norm` by default). */
  type Norm = seq<Float> -> Float

  /** The right-hand side of one batch element's ODE, `term.vf(t, y)`. */
  type VectorField = (Float, seq<Float>) -> seq<Float>

  /** The real-exponent power `x ** e`. */
  type Power = (Float, real) -> Float

  /** The configuration fixed at construction. */
  datatype Controller = Controller(
    atol: real,
    rtol: real,
    pcoeff: real,
    icoeff: real,
    dcoeff: real,
    term: Option<VectorField>,
    norm: Norm,
    dtMin: Option<real>,
    dtMax: Option<real>,
    safety: real,
    factorMin: real,
    factorMax: real)

  /** Per-element outcome of a step attempt. */
  datatype Status = Succeeded | InfiniteNorm

  /** What the stepping method hands over: its proposed state and, if it has one, an error estimate. */
  datatype StepResult = StepResult(y: seq<seq<Float>>, errorEstimate: Option<seq<seq<Float>>>)

  /** The four results of `adapt_step_size`. */
  datatype Adaptation = Adaptation(
    accept: seq<bool>,
    dtNext: seq<Float>,
    state: PIDState,
    status: Option<seq<Status>>)

  /** The problem as the controller sees it: per-element time span, initial state and direction. */
  datatype Problem = Problem(
    tStart: seq<Float>,
    tEnd: seq<Float>,
    y0: seq<seq<Float>>,
    timeDirection: seq<Float>)

  datatype InitError = MissingVectorField

  /** The three results of `init`. */
  datatype Initialization = Initialization(dt0: seq<Float>, state: PIDState, f0: Option<seq<seq<Float>>>)

  /** Hypothesis on the norm: like a norm, it is never negative. */
  ghost predicate NonNegativeNorm(norm: Norm) {
    forall v :: norm(v).NaN? || NonNegative(norm(v))
  }

  /** Hypothesis on the norm: finite rows have a finite norm. */
  ghost predicate FiniteOnFinite(norm: Norm) {
    forall v :: AllFinite(v) ==> norm(v).Finite?
  }

  /** Hypothesis on the norm: an infinite or NaN component makes the norm infinite or NaN. */
  ghost predicate PropagatesNonFinite(norm: Norm) {
    forall v: seq<Float>, i: int :: 0 <= i < |v| && !v[i].Finite? ==> !norm(v).Finite?
  }

  /** Hypothesis on the power: a non-negative or NaN base has a non-negative or NaN power. */
  ghost predicate PowerNonNegative(pow: Power) {
    forall x: Float, e: real :: (x.NaN? || NonNegative(x)) ==> pow(x, e).NaN? || NonNegative(pow(x, e))
  }

  /** Hypothesis on the power: a positive finite base has a positive finite power. */
  ghost predicate PowerPositive(pow: Power) {
    forall x, e :: x > 0.0 ==> pow(Finite(x), e).Finite? && pow(Finite(x), e).value > 0.0
  }

  /** Hypothesis on the vector field: the derivative has the shape of the state. */
  ghost predicate PreservesShape(vf: VectorField) {
    forall t, y :: |vf(t, y)| == |y|
  }

  /** A data tensor whose rows all have the length of the first tensor's rows. */
  predicate SameShape(a: seq<seq<Float>>, b: seq<seq<Float>>) {
    |a| == |b| && forall i :: 0 <= i < |a| ==> |a[i]| == |b[i]|
  }

  /** The constructor with its keyword defaults: safety 0.9, factors clamped to [0.2, 10]. */
  function WithDefaults(atol: real, rtol: real, pcoeff: real, icoeff: real, dcoeff: real,
                        term: Option<VectorField>, norm: Norm,
                        dtMin: Option<real>, dtMax: Option<real>): (c: Controller)
    ensures c.safety == 0.9 && c.factorMin == 0.2 && c.factorMax == 10.0
    ensures c.factorMin <= c.factorMax
    ensures c.atol == atol && c.rtol == rtol && c.dtMin == dtMin && c.dtMax == dtMax
    ensures c.pcoeff == pcoeff && c.icoeff == icoeff && c.dcoeff == dcoeff && c.term == term
    ensures c.norm == norm
  {
    Controller(atol, rtol, pcoeff, icoeff, dcoeff, term, norm, dtMin, dtMax, 0.9, 0.2, 10.0)
  }

  // ---------------------------------------------------------------------------
  // The PID law

  /**
   * The exponents of the current, previous and one-before-previous error
   * ratio: -(kI + kP + kD), kP + 2 kD and -kD, each gain divided by the order.
   */
  function Exponents(c: Controller, order: int): (e: (real, real, real))
    requires order != 0
    ensures e.0 * order as real == -(c.icoeff + c.pcoeff + c.dcoeff)
    ensures e.1 * order as real == c.pcoeff + 2.0 * c.dcoeff
    ensures e.2 * order as real == -c.dcoeff
  {
    var kI, kP, kD := c.icoeff / order as real, c.pcoeff / order as real, c.dcoeff / order as real;
    (-(kI + kP + kD), kP + 2.0 * kD, -kD)
  }

  /** The product of the safety factor and the three powers, before clamping. */
  function RawFactor(c: Controller, order: int, pow: Power, ratio: Float, prev: Float, prevPrev: Float): (f: Float)
    requires order != 0
    ensures (pow(ratio, Exponents(c, order).0).NaN? || pow(prev, Exponents(c, order).1).NaN?
             || pow(prevPrev, Exponents(c, order).2).NaN?) ==> f.NaN?
    ensures (pow(ratio, Exponents(c, order).0).Finite? && pow(prev, Exponents(c, order).1).Finite?
             && pow(prevPrev, Exponents(c, order).2).Finite?) ==> f.Finite?
  {
    var e := Exponents(c, order);
    Mul(Mul(Mul(Finite(c.safety), pow(ratio, e.0)), pow(prev, e.1)), pow(prevPrev, e.2))
  }

  /**
   * The growth factor of one batch element. It is clamped, so it never
   * exceeds factor_max and, when the bounds are ordered, never falls below
   * factor_min; it is finite whenever the three powers are.
   */
  function FactorAt(c: Controller, order: int, pow: Power, ratio: Float, prev: Float, prevPrev: Float): (f: Float)
    requires order != 0
    ensures f.NaN? || f.Finite?
    ensures f.Finite? ==> f.value <= c.factorMax
    ensures f.Finite? && c.factorMin <= c.factorMax ==> c.factorMin <= f.value
    ensures f.NaN? <==> RawFactor(c, order, pow, ratio, prev, prevPrev).NaN?
    ensures (pow(ratio, Exponents(c, order).0).Finite? && pow(prev, Exponents(c, order).1).Finite?
             && pow(prevPrev, Exponents(c, order).2).Finite?) ==> f.Finite?
  {
    Clamp(RawFactor(c, order, pow, ratio, prev, prevPrev), Some(c.factorMin), Some(c.factorMax))
  }

  /** `dt_factor`: the growth factor of every batch element, from its own ratio and history. */
  function DtFactor(c: Controller, s: PIDState, ratio: seq<Float>, pow: Power): (f: seq<Float>)
    requires s.methodOrder != 0 && Shaped(s, |ratio|)
    ensures |f| == |ratio|
    ensures forall i :: 0 <= i < |f| ==>
      f[i] == FactorAt(c, s.methodOrder, pow, ratio[i], s.prevErrorRatio[i], s.prevPrevErrorRatio[i])
    ensures forall i :: 0 <= i < |f| ==> f[i].NaN? || (f[i].Finite? && f[i].value <= c.factorMax)
    ensures c.factorMin <= c.factorMax ==>
      forall i :: 0 <= i < |f| ==> f[i].NaN? || (f[i].Finite? && c.factorMin <= f[i].value <= c.factorMax)
  {
    seq(|ratio|, i requires 0 <= i < |ratio| =>
      FactorAt(c, s.methodOrder, pow, ratio[i], s.prevErrorRatio[i], s.prevPrevErrorRatio[i]))
  }

  // ---------------------------------------------------------------------------
  // State updates

  /**
   * `update_state`. Without an error ratio the history shifts in the neutral
   * ratio 1 for every element. With one, an accepted element shifts its
   * history by one slot and a rejected element keeps it as it was.
   */
  function UpdateState(s: PIDState, dt: seq<Float>, ratio: Option<seq<Float>>, accept: Option<seq<bool>>): (r: PIDState)
    requires ratio.Some? ==> accept.Some? && |accept.value| == |ratio.value| && Shaped(s, |ratio.value|)
    ensures SameConfiguration(r, s)
    ensures ratio.None? ==> r.prevErrorRatio == Ones(|dt|) && r.prevPrevErrorRatio == s.prevErrorRatio
    ensures ratio.Some? ==> Shaped(r, |ratio.value|)
    ensures ratio.Some? ==> forall i :: 0 <= i < |ratio.value| && accept.value[i] ==>
      r.prevErrorRatio[i] == ratio.value[i] && r.prevPrevErrorRatio[i] == s.prevErrorRatio[i]
    ensures ratio.Some? ==> forall i :: 0 <= i < |ratio.value| && !accept.value[i] ==>
      r.prevErrorRatio[i] == s.prevErrorRatio[i] && r.prevPrevErrorRatio[i] == s.prevPrevErrorRatio[i]
  {
    if ratio.None? then
      UpdateErrorRatios(s, Ones(|dt|), s.prevErrorRatio)
    else
      UpdateErrorRatios(s,
        Where(accept.value, ratio.value, s.prevErrorRatio),
        Where(accept.value, s.prevErrorRatio, s.prevPrevErrorRatio))
  }

  /**
   * `merge_states`: each element's history comes from `current` where it is
   * still running and from `previous` where it has finished; every other field
   * comes from `current`.
   */
  function MergeStates(running: seq<bool>, current: PIDState, previous: PIDState): (r: PIDState)
    requires Shaped(current, |running|) && Shaped(previous, |running|)
    ensures SameConfiguration(r, current) && Shaped(r, |running|)
    ensures forall i :: 0 <= i < |running| && running[i] ==>
      r.prevErrorRatio[i] == current.prevErrorRatio[i] && r.prevPrevErrorRatio[i] == current.prevPrevErrorRatio[i]
    ensures forall i :: 0 <= i < |running| && !running[i] ==>
      r.prevErrorRatio[i] == previous.prevErrorRatio[i] && r.prevPrevErrorRatio[i] == previous.prevPrevErrorRatio[i]
  {
    UpdateErrorRatios(current,
      Where(running, current.prevErrorRatio, previous.prevErrorRatio),
      Where(running, current.prevPrevErrorRatio, previous.prevPrevErrorRatio))
  }

  // ---------------------------------------------------------------------------
  // Error ratio, acceptance and status

  /** `atol + rtol * max(|y0|, |y1|)`, componentwise. */
  function ErrorBounds(c: Controller, y0: seq<Float>, y1: seq<Float>): (b: seq<Float>)
    requires |y1| == |y0|
    ensures |b| == |y0|
    ensures AllFinite(y0) && AllFinite(y1) && c.atol > 0.0 && c.rtol >= 0.0 ==>
      forall i :: 0 <= i < |b| ==> b[i].Finite? && b[i].value >= c.atol
  {
    seq(|y0|, i requires 0 <= i < |y0| =>
      Add(Finite(c.atol), Mul(Finite(c.rtol), Max(Abs(y0[i]), Abs(y1[i])))))
  }

  /** The error of one row measured against its bounds, `|error_estimate| / error_bounds`. */
  function ScaledError(c: Controller, y0: seq<Float>, y1: seq<Float>, err: seq<Float>): (q: seq<Float>)
    requires |y1| == |y0| && |err| == |y0|
    ensures |q| == |y0|
    ensures forall i :: 0 <= i < |y0| && err[i].NaN? ==> q[i].NaN?
    ensures AllFinite(y0) && AllFinite(y1) && c.atol > 0.0 && c.rtol >= 0.0 ==>
      forall i :: 0 <= i < |y0| ==> q[i].NaN? || NonNegative(q[i])
  {
    var bounds := ErrorBounds(c, y0, y1);
    seq(|y0|, i requires 0 <= i < |y0| => Div(Abs(err[i]), bounds[i]))
  }

  /**
   * One element's error ratio: the norm of the scaled error, floored at
   * almost_zero. Floored, it is NaN, +inf or a number at least almost_zero,
   * and a norm already at or above the floor is kept as it is.
   */
  function ErrorRatioAt(c: Controller, almostZero: real, y0: seq<Float>, y1: seq<Float>, err: seq<Float>): (r: Float)
    requires |y1| == |y0| && |err| == |y0|
    ensures r.NaN? || r.PosInf? || (r.Finite? && r.value >= almostZero)
    ensures r.NaN? <==> c.norm(ScaledError(c, y0, y1, err)).NaN?
    ensures Le(Finite(almostZero), c.norm(ScaledError(c, y0, y1, err))) ==> r == c.norm(ScaledError(c, y0, y1, err))
    ensures r.Finite? <==> c.norm(ScaledError(c, y0, y1, err)).Finite? || c.norm(ScaledError(c, y0, y1, err)).NegInf?
  {
    Max(c.norm(ScaledError(c, y0, y1, err)), Finite(almostZero))
  }

  /** The error ratio of every batch element. */
  function ErrorRatio(c: Controller, almostZero: real, y0: seq<seq<Float>>, y1: seq<seq<Float>>,
                      err: seq<seq<Float>>): (r: seq<Float>)
    requires SameShape(y1, y0) && SameShape(err, y0)
    ensures |r| == |y0|
    ensures forall i :: 0 <= i < |r| ==> r[i] == ErrorRatioAt(c, almostZero, y0[i], y1[i], err[i])
    ensures forall i :: 0 <= i < |r| ==> r[i].NaN? || r[i].PosInf? || (r[i].Finite? && r[i].value >= almostZero)
  {
    seq(|y0|, i requires 0 <= i < |y0| => ErrorRatioAt(c, almostZero, y0[i], y1[i], err[i]))
  }

  /**
   * `error_ratio < 1.0`: an element is accepted exactly when its ratio is
   * strictly below 1 (a ratio of exactly 1, +inf or NaN is rejected).
   */
  function Accept(ratio: seq<Float>): (acc: seq<bool>)
    ensures |acc| == |ratio|
    ensures forall i :: 0 <= i < |ratio| ==>
      (acc[i] <==> ratio[i].NegInf? || (ratio[i].Finite? && ratio[i].value < 1.0))
  {
    seq(|ratio|, i requires 0 <= i < |ratio| => Lt(ratio[i], Finite(1.0)))
  }

  /** SUCCESS exactly where the ratio is finite, INFINITE_NORM elsewhere; no element fails the call. */
  function Statuses(ratio: seq<Float>): (st: seq<Status>)
    ensures |st| == |ratio|
    ensures forall i :: 0 <= i < |ratio| ==> (st[i] == Succeeded <==> ratio[i].Finite?)
    ensures forall i :: 0 <= i < |ratio| ==> (st[i] == InfiniteNorm <==> ratio[i].NaN? || ratio[i].PosInf? || ratio[i].NegInf?)
  {
    seq(|ratio|, i requires 0 <= i < |ratio| => if ratio[i].Finite? then Succeeded else InfiniteNorm)
  }

  /** `dt_next` before the optional bounds: `dt * dt_factor` elementwise. */
  function ScaledStep(c: Controller, s: PIDState, dt: seq<Float>, ratio: seq<Float>, pow: Power): (next: seq<Float>)
    requires s.methodOrder != 0 && |ratio| == |dt| && Shaped(s, |dt|)
    ensures |next| == |dt|
    ensures forall i :: 0 <= i < |dt| && (dt[i].NaN? || DtFactor(c, s, ratio, pow)[i].NaN?) ==> next[i].NaN?
    ensures forall i :: 0 <= i < |dt| && dt[i].Finite? && DtFactor(c, s, ratio, pow)[i].Finite? ==>
      next[i].Finite? && next[i].value == dt[i].value * DtFactor(c, s, ratio, pow)[i].value
  {
    var factor := DtFactor(c, s, ratio, pow);
    seq(|dt|, i requires 0 <= i < |dt| => Mul(dt[i], factor[i]))
  }

  /**
   * The part of `adapt_step_size` that follows the error ratio: acceptance,
   * growth factor, status, the optional [dt_min, dt_max] clamp and the state
   * update.
   */
  function AdaptWithRatio(c: Controller, s: PIDState, dt: seq<Float>, ratio: seq<Float>, pow: Power): (r: Adaptation)
    requires s.methodOrder != 0 && |ratio| == |dt| && Shaped(s, |dt|)
    ensures |r.accept| == |dt| && |r.dtNext| == |dt|
    ensures forall i :: 0 <= i < |dt| ==>
      (r.accept[i] <==> ratio[i].NegInf? || (ratio[i].Finite? && ratio[i].value < 1.0))
    ensures r.status.Some? && |r.status.value| == |dt|
    ensures forall i :: 0 <= i < |dt| ==> (r.status.value[i] == Succeeded <==> ratio[i].Finite?)
    ensures s.dtMin.None? && s.dtMax.None? ==> r.dtNext == ScaledStep(c, s, dt, ratio, pow)
    ensures forall i :: 0 <= i < |dt| ==> (r.dtNext[i].NaN? <==> ScaledStep(c, s, dt, ratio, pow)[i].NaN?)
    ensures s.dtMax.Some? ==> forall i :: 0 <= i < |dt| && !r.dtNext[i].NaN? ==>
      Le(r.dtNext[i], Finite(s.dtMax.value))
    ensures s.dtMin.Some? && (s.dtMax.Some? ==> s.dtMin.value <= s.dtMax.value) ==>
      forall i :: 0 <= i < |dt| && !r.dtNext[i].NaN? ==> Le(Finite(s.dtMin.value), r.dtNext[i])
    ensures SameConfiguration(r.state, s) && Shaped(r.state, |dt|)
    ensures forall i :: 0 <= i < |dt| && r.accept[i] ==>
      r.state.prevErrorRatio[i] == ratio[i] && r.state.prevPrevErrorRatio[i] == s.prevErrorRatio[i]
    ensures forall i :: 0 <= i < |dt| && !r.accept[i] ==>
      r.state.prevErrorRatio[i] == s.prevErrorRatio[i] && r.state.prevPrevErrorRatio[i] == s.prevPrevErrorRatio[i]
  {
    var accept := Accept(ratio);
    var dtNext := ScaledStep(c, s, dt, ratio, pow);
    var status := Statuses(ratio);
    var bounded :=
      if s.dtMin.Some? || s.dtMax.Some? then
        seq(|dt|, i requires 0 <= i < |dt| => Clamp(dtNext[i], s.dtMin, s.dtMax))
      else dtNext;
    Adaptation(accept, bounded, UpdateState(s, dt, Some(ratio), Some(accept)), Some(status))
  }

  /** The shapes `adapt_step_size` needs when an error estimate is present. */
  predicate AdaptShapes(dt: seq<Float>, y0: seq<seq<Float>>, step: StepResult, s: PIDState) {
    && step.errorEstimate.Some?
    && |dt| == |y0|
    && SameShape(step.y, y0)
    && SameShape(step.errorEstimate.value, y0)
    && Shaped(s, |y0|)
  }

  /**
   * `adapt_step_size`. Without an error estimate every element is accepted,
   * the step size is kept, no status is reported and the history shifts in
   * the neutral ratio 1. With one, an element is accepted exactly when its
   * floored error ratio is finite and below 1, and then its ratio (at least
   * almost_zero) enters the history.
   */
  function AdaptStepSize(c: Controller, dt: seq<Float>, y0: seq<seq<Float>>, step: StepResult,
                         s: PIDState, pow: Power): (r: Adaptation)
    requires step.errorEstimate.Some? ==> s.methodOrder != 0 && AdaptShapes(dt, y0, step, s)
    ensures step.errorEstimate.None? ==>
      && r.accept == seq(|dt|, _ => true)
      && r.dtNext == dt
      && r.status.None?
      && SameConfiguration(r.state, s)
      && r.state.prevErrorRatio == Ones(|dt|)
      && r.state.prevPrevErrorRatio == s.prevErrorRatio
    ensures step.errorEstimate.Some? ==> |r.accept| == |dt| && Shaped(r.state, |dt|)
    ensures step.errorEstimate.Some? ==> forall i :: 0 <= i < |dt| ==>
      var q := ErrorRatioAt(c, s.almostZero, y0[i], step.y[i], step.errorEstimate.value[i]);
      && (r.accept[i] <==> q.Finite? && q.value < 1.0)
      && (r.accept[i] ==> s.almostZero <= q.value && r.state.prevErrorRatio[i] == q)
  {
    if step.errorEstimate.None? then
      Adaptation(seq(|dt|, _ => true), dt, UpdateState(s, dt, None, None), None)
    else
      var ratio := ErrorRatio(c, s.almostZero, y0, step.y, step.errorEstimate.value);
      AdaptWithRatio(c, s, dt, ratio, pow)
  }

  // ---------------------------------------------------------------------------
  // Initial step size (Hairer, Norsett and Wanner, Solving ODEs I, section II.4)

  const SmallNumber: real := 0.000001

  /** `1 / (atol + rtol * |y0|)`, componentwise. */
  function InverseScale(c: Controller, y0: seq<Float>): (inv: seq<Float>)
    ensures |inv| == |y0|
    ensures c.atol > 0.0 && c.rtol >= 0.0 ==>
      forall i :: 0 <= i < |y0| && y0[i].Finite? ==> inv[i].Finite? && 0.0 < inv[i].value <= 1.0 / c.atol
    ensures forall i :: 0 <= i < |y0| && y0[i].NaN? ==> inv[i].NaN?
  {
    var inv := seq(|y0|, i requires 0 <= i < |y0| =>
      Div(Finite(1.0), Add(Finite(c.atol), Mul(Finite(c.rtol), Abs(y0[i])))));
    InverseWeightsBounded(c, y0, inv);
    inv
  }

  /** Each weight of a finite component is the reciprocal of a bound at least atol. */
  lemma InverseWeightsBounded(c: Controller, y0: seq<Float>, inv: seq<Float>)
    requires |inv| == |y0|
    requires forall i :: 0 <= i < |y0| ==>
      inv[i] == Div(Finite(1.0), Add(Finite(c.atol), Mul(Finite(c.rtol), Abs(y0[i]))))
    ensures c.atol > 0.0 && c.rtol >= 0.0 ==>
      forall i :: 0 <= i < |y0| && y0[i].Finite? ==> inv[i].Finite? && 0.0 < inv[i].value <= 1.0 / c.atol
  {
    if c.atol > 0.0 && c.rtol >= 0.0 {
      forall i | 0 <= i < |y0| && y0[i].Finite?
        ensures inv[i].Finite? && 0.0 < inv[i].value <= 1.0 / c.atol
      {
        var a := Abs(y0[i]).value;
        assert c.rtol * a >= 0.0;
        var b := c.atol + c.rtol * a;
        assert inv[i] == Finite(1.0 / b);
        ReciprocalBound(c.atol, b);
      }
    }
  }

  /** A larger positive bound has a smaller positive reciprocal. */
  lemma ReciprocalBound(a: real, b: real)
    requires 0.0 < a <= b
    ensures 0.0 < 1.0 / b <= 1.0 / a
  {
    assert 1.0 / b * b == 1.0;
    assert 1.0 / a * a == 1.0;
  }

  /**
   * The first guess `dt0`: 1e-6 where either scaled norm is below 1e-5,
   * `0.01 * d0 / d1` elsewhere, then capped by dt_max. Unless NaN it never
   * exceeds dt_max, and for finite non-negative norms and a finite
   * non-negative dt_max it is a number in [0, dt_max].
   */
  function FirstGuess(d0: Float, d1: Float, dtMax: Float): (dt0: Float)
    ensures !dt0.NaN? ==> Le(dt0, dtMax)
    ensures (Lt(d0, Finite(0.00001)) || Lt(d1, Finite(0.00001))) && !dtMax.NaN? ==>
      dt0 == Min(Finite(SmallNumber), dtMax)
    ensures dtMax.Finite? && dtMax.value >= 0.0 && d0.Finite? && d0.value >= 0.0 && d1.Finite? && d1.value >= 0.0 ==>
      dt0.Finite? && 0.0 <= dt0.value <= dtMax.value
    ensures dtMax.Finite? && dtMax.value >= 0.0 && (d0.NaN? || NonNegative(d0)) && (d1.NaN? || NonNegative(d1)) ==>
      dt0.NaN? || (dt0.Finite? && 0.0 <= dt0.value <= dtMax.value)
    ensures !(Lt(d0, Finite(0.00001)) || Lt(d1, Finite(0.00001))) ==>
      dt0 == Min(Div(Mul(Finite(0.01), d0), d1), dtMax)
    ensures d0.Finite? && d1.Finite? && d0.value >= 0.00001 && d1.value >= 0.00001 && dtMax.Finite? ==>
      dt0.Finite? &&
      dt0.value == (if 0.01 * d0.value / d1.value <= dtMax.value then 0.01 * d0.value / d1.value else dtMax.value)
  {
    var guess :=
      if Lt(d0, Finite(0.00001)) || Lt(d1, Finite(0.00001)) then Finite(SmallNumber)
      else Div(Mul(Finite(0.01), d0), d1);
    Min(guess, dtMax)
  }

  /**
   * The second guess `dt1`: where both d1 and d2 are at most 1e-15 it is
   * `max(1e-6, dt0 * 1e-3)`, hence at least 1e-6 unless dt0 is NaN; elsewhere
   * `(0.01 / max(d1, d2)) ** (1 / order)`.
   */
  function SecondGuess(d1: Float, d2: Float, dt0: Float, order: int, pow: Power): (dt1: Float)
    requires order != 0
    ensures Le(Max(d1, d2), Finite(0.000000000000001)) && !dt0.NaN? ==> Le(Finite(SmallNumber), dt1)
    ensures !Le(Max(d1, d2), Finite(0.000000000000001)) ==>
      dt1 == pow(Div(Finite(0.01), Max(d1, d2)), 1.0 / order as real)
    ensures PowerNonNegative(pow) && !dt0.NaN? ==> dt1.NaN? || NonNegative(dt1)
  {
    var m := Max(d1, d2);
    if Le(m, Finite(0.000000000000001)) then Max(Finite(SmallNumber), Mul(dt0, Finite(0.001)))
    else pow(Div(Finite(0.01), m), 1.0 / order as real)
  }

  /**
   * The proposal `direction * min(100 * dt0, dt1)`. For a direction of +1 or
   * -1, a finite non-negative dt0 and a non-negative dt1 it is a number of the
   * direction's sign (or zero) whose magnitude is at most 100 * dt0.
   */
  function FinalStep(direction: Float, dt0: Float, dt1: Float): (h: Float)
    ensures dt0.NaN? || dt1.NaN? || direction.NaN? ==> h.NaN?
    ensures direction == Finite(1.0) && dt0.Finite? && dt0.value >= 0.0 && NonNegative(dt1) ==>
      h.Finite? && 0.0 <= h.value <= 100.0 * dt0.value
    ensures direction == Finite(-1.0) && dt0.Finite? && dt0.value >= 0.0 && NonNegative(dt1) ==>
      h.Finite? && -100.0 * dt0.value <= h.value <= 0.0
  {
    Mul(direction, Min(Mul(Finite(100.0), dt0), dt1))
  }

  /** The explicit Euler trial step `y0 + (direction * dt0) * f0`. */
  function TrialState(y0: seq<Float>, direction: Float, dt0: Float, f0: seq<Float>): (y1: seq<Float>)
    requires |f0| == |y0|
    ensures |y1| == |y0|
    ensures direction.Finite? && dt0.Finite? ==> forall i :: 0 <= i < |y0| && y0[i].Finite? && f0[i].Finite? ==>
      y1[i] == Finite(y0[i].value + direction.value * dt0.value * f0[i].value)
    ensures dt0.NaN? ==> forall i :: 0 <= i < |y0| ==> y1[i].NaN?
  {
    var step := Mul(direction, dt0);
    var y1 := seq(|y0|, i requires 0 <= i < |y0| => Add(y0[i], Mul(step, f0[i])));
    assert direction.Finite? && dt0.Finite? ==> forall i :: 0 <= i < |y0| && y0[i].Finite? && f0[i].Finite? ==>
      y1[i] == Finite(y0[i].value + direction.value * dt0.value * f0[i].value);
    y1
  }

  /** The intermediate values of the heuristic for one batch element. */
  datatype InitialStepTrace = InitialStepTrace(
    f0: seq<Float>, d0: Float, d1: Float, dt0: Float, d2: Float, dt1: Float, step: Float)

  /**
   * One batch element of `_select_initial_step`: scaled norms d0 and d1 of
   * the state and its derivative, the first guess, an explicit Euler trial
   * step, the scaled norm d2 of the change in derivative, the second guess
   * and the proposal.
   */
  function InitialStepAt(c: Controller, vf: VectorField, pow: Power, order: int,
                         t0: Float, y0: seq<Float>, direction: Float, dtMax: Float): (tr: InitialStepTrace)
    requires order != 0 && PreservesShape(vf)
    ensures tr.f0 == vf(t0, y0)
    ensures tr.dt0 == FirstGuess(tr.d0, tr.d1, dtMax)
    ensures tr.dt1 == SecondGuess(tr.d1, tr.d2, tr.dt0, order, pow)
    ensures tr.step == FinalStep(direction, tr.dt0, tr.dt1)
    ensures NonNegativeNorm(c.norm) ==> (tr.d0.NaN? || NonNegative(tr.d0)) && (tr.d1.NaN? || NonNegative(tr.d1))
  {
    var f0 := vf(t0, y0);
    var inv := InverseScale(c, y0);
    var d0 := c.norm(MulAll(y0, inv));
    var d1 := c.norm(MulAll(f0, inv));
    var dt0 := FirstGuess(d0, d1, dtMax);
    var f1 := vf(Add(t0, Mul(direction, dt0)), TrialState(y0, direction, dt0, f0));
    var d2 := Div(c.norm(MulAll(SubAll(f1, f0), inv)), dt0);
    var dt1 := SecondGuess(d1, d2, dt0, order, pow);
    InitialStepTrace(f0, d0, d1, dt0, d2, dt1, FinalStep(direction, dt0, dt1))
  }

  /** The vector field the heuristic uses: the one passed in, else the configured default. */
  function ResolveTerm(term: Option<VectorField>, default: Option<VectorField>): (vf: Option<VectorField>)
    ensures vf.None? <==> term.None? && default.None?
    ensures term.Some? ==> vf == term
  {
    if term.Some? then term else default
  }

  /** The shapes and vector field `_select_initial_step` needs. */
  ghost predicate InitialStepInputs(c: Controller, term: Option<VectorField>, t0: seq<Float>, y0: seq<seq<Float>>,
                                    direction: seq<Float>, dtMax: seq<Float>, order: int) {
    && order != 0
    && |t0| == |y0| && |direction| == |y0| && |dtMax| == |y0|
    && (ResolveTerm(term, c.term).Some? ==> PreservesShape(ResolveTerm(term, c.term).value))
  }

  /**
   * `_select_initial_step`. It fails exactly when no vector field is given
   * and none is configured. Otherwise it returns one proposal and one
   * derivative row per batch element, and (for a non-negative norm and power,
   * directions of +1 or -1 and finite non-negative caps) each proposal is NaN
   * or a number of its direction's sign at most 100 times its cap in
   * magnitude. The cap only bounds the first guess: the proposal itself may
   * exceed it.
   */
  function SelectInitialStep(c: Controller, term: Option<VectorField>, t0: seq<Float>, y0: seq<seq<Float>>,
                             direction: seq<Float>, dtMax: seq<Float>, order: int, pow: Power)
    : (r: Result<(seq<Float>, seq<seq<Float>>), InitError>)
    requires InitialStepInputs(c, term, t0, y0, direction, dtMax, order)
    ensures r.Failure? <==> term.None? && c.term.None?
    ensures r.Success? ==> |r.value.0| == |y0| && |r.value.1| == |y0|
    ensures r.Success? ==> forall i :: 0 <= i < |y0| ==> |r.value.1[i]| == |y0[i]|
    ensures r.Success? ==> forall i :: 0 <= i < |y0| ==>
      && r.value.1[i] == ResolveTerm(term, c.term).value(t0[i], y0[i])
      && r.value.0[i] == InitialStepAt(c, ResolveTerm(term, c.term).value, pow, order,
                                       t0[i], y0[i], direction[i], dtMax[i]).step
    ensures r.Success? && NonNegativeNorm(c.norm) && PowerNonNegative(pow) ==>
      forall i :: 0 <= i < |y0| && dtMax[i].Finite? && dtMax[i].value >= 0.0 ==>
        && (direction[i] == Finite(1.0) ==>
              r.value.0[i].NaN? || (r.value.0[i].Finite? && 0.0 <= r.value.0[i].value <= 100.0 * dtMax[i].value))
        && (direction[i] == Finite(-1.0) ==>
              r.value.0[i].NaN? || (r.value.0[i].Finite? && -100.0 * dtMax[i].value <= r.value.0[i].value <= 0.0))
  {
    var resolved := ResolveTerm(term, c.term);
    if resolved.None? then Failure(MissingVectorField)
    else
      var vf := resolved.value;
      var traces := seq(|y0|, i requires 0 <= i < |y0| =>
        InitialStepAt(c, vf, pow, order, t0[i], y0[i], direction[i], dtMax[i]));
      var r := Success((seq(|y0|, i requires 0 <= i < |y0| => traces[i].step),
                        seq(|y0|, i requires 0 <= i < |y0| => traces[i].f0)));
      assert NonNegativeNorm(c.norm) && PowerNonNegative(pow) ==>
        forall i :: 0 <= i < |y0| && dtMax[i].Finite? && dtMax[i].value >= 0.0 ==>
          InitialStepBounded(traces[i], direction[i], dtMax[i].value) by {
        if NonNegativeNorm(c.norm) && PowerNonNegative(pow) {
          forall i | 0 <= i < |y0| && dtMax[i].Finite? && dtMax[i].value >= 0.0 {
            InitialStepAtBounded(c, vf, pow, order, t0[i], y0[i], direction[i], dtMax[i]);
          }
        }
      }
      r
  }

  /** The proposal of a trace is NaN or a number of the direction's sign at most 100 * cap in magnitude. */
  predicate InitialStepBounded(tr: InitialStepTrace, direction: Float, cap: real) {
    && (direction == Finite(1.0) ==> tr.step.NaN? || (tr.step.Finite? && 0.0 <= tr.step.value <= 100.0 * cap))
    && (direction == Finite(-1.0) ==> tr.step.NaN? || (tr.step.Finite? && -100.0 * cap <= tr.step.value <= 0.0))
  }

  /**
   * For a non-negative norm and power and a finite non-negative cap, one
   * element's proposal is NaN or has the direction's sign and a magnitude of
   * at most 100 * dt0 <= 100 * cap.
   */
  lemma InitialStepAtBounded(c: Controller, vf: VectorField, pow: Power, order: int,
                             t0: Float, y0: seq<Float>, direction: Float, dtMax: Float)
    requires order != 0 && PreservesShape(vf)
    requires NonNegativeNorm(c.norm) && PowerNonNegative(pow)
    requires dtMax.Finite? && dtMax.value >= 0.0
    ensures InitialStepBounded(InitialStepAt(c, vf, pow, order, t0, y0, direction, dtMax), direction, dtMax.value)
  {
    var tr := InitialStepAt(c, vf, pow, order, t0, y0, direction, dtMax);
    if !tr.dt0.NaN? {
      assert tr.dt0.Finite? && 0.0 <= tr.dt0.value <= dtMax.value;
      if !tr.dt1.NaN? {
        assert NonNegative(tr.dt1);
      }
    }
  }

  /** What `init` needs to run the heuristic: per-element times and directions, and a usable vector field. */
  ghost predicate HeuristicInputs(c: Controller, term: Option<VectorField>, problem: Problem, methodOrder: int) {
    && |problem.tEnd| == |problem.y0|
    && InitialStepInputs(c, term, problem.tStart, problem.y0, problem.timeDirection, problem.tEnd, methodOrder)
  }

  /** The cap `|t_end - t_start|` of each batch element's first step. */
  function TimeSpan(tStart: seq<Float>, tEnd: seq<Float>): (span: seq<Float>)
    requires |tEnd| == |tStart|
    ensures |span| == |tStart|
    ensures forall i :: 0 <= i < |tStart| && tStart[i].Finite? && tEnd[i].Finite? ==>
      && span[i].Finite? && span[i].value >= 0.0
      && (span[i].value == tEnd[i].value - tStart[i].value || span[i].value == tStart[i].value - tEnd[i].value)
    ensures forall i :: 0 <= i < |tStart| && (tStart[i].NaN? || tEnd[i].NaN?) ==> span[i].NaN?
  {
    seq(|tStart|, i requires 0 <= i < |tStart| => Abs(Sub(tEnd[i], tStart[i])))
  }

  /**
   * `init`. Without a given dt0 it runs the heuristic over the whole time
   * span |t_end - t_start| and also returns the derivative at the start;
   * with one, dt0 is returned unchanged and there is no derivative. The state
   * is fresh: neutral history, the configured bounds. It fails exactly when
   * the heuristic is needed and no vector field is available.
   */
  function Init(c: Controller, term: Option<VectorField>, problem: Problem, methodOrder: int,
                dt0: Option<seq<Float>>, almostZero: real, pow: Power): (r: Result<Initialization, InitError>)
    requires dt0.None? ==> HeuristicInputs(c, term, problem, methodOrder)
    ensures r.Failure? <==> dt0.None? && term.None? && c.term.None?
    ensures r.Success? ==>
      && r.value.state == Default(methodOrder, |problem.y0|, c.dtMin, c.dtMax, almostZero)
      && (almostZero <= 1.0 ==> HistoryValid(r.value.state, |problem.y0|))
    ensures r.Success? && dt0.Some? ==> r.value.dt0 == dt0.value && r.value.f0.None?
    ensures r.Success? && dt0.None? ==> |r.value.dt0| == |problem.y0| && r.value.f0.Some?
    ensures r.Success? && dt0.None? ==>
      var selected := SelectInitialStep(c, term, problem.tStart, problem.y0, problem.timeDirection,
                                        TimeSpan(problem.tStart, problem.tEnd), methodOrder, pow);
      selected.Success? && r.value.dt0 == selected.value.0 && r.value.f0 == Some(selected.value.1)
    ensures r.Success? && dt0.None? ==> forall i :: 0 <= i < |problem.y0| ==>
      r.value.f0.value[i] == ResolveTerm(term, c.term).value(problem.tStart[i], problem.y0[i])
    ensures r.Success? && dt0.None? && NonNegativeNorm(c.norm) && PowerNonNegative(pow) ==>
      forall i :: 0 <= i < |problem.y0| && problem.tStart[i].Finite? && problem.tEnd[i].Finite? ==>
        var cap := TimeSpan(problem.tStart, problem.tEnd)[i].value;
        && (problem.timeDirection[i] == Finite(1.0) ==>
              r.value.dt0[i].NaN? || (r.value.dt0[i].Finite? && 0.0 <= r.value.dt0[i].value <= 100.0 * cap))
        && (problem.timeDirection[i] == Finite(-1.0) ==>
              r.value.dt0[i].NaN? || (r.value.dt0[i].Finite? && -100.0 * cap <= r.value.dt0[i].value <= 0.0))
  {
    var state := Default(methodOrder, |problem.y0|, c.dtMin, c.dtMax, almostZero);
    if dt0.None? then
      var span := TimeSpan(problem.tStart, problem.tEnd);
      var selected := SelectInitialStep(c, term, problem.tStart, problem.y0, problem.timeDirection,
                                        span, methodOrder, pow);
      if selected.Failure? then Failure(selected.error)
      else Success(Initialization(selected.value.0, state, Some(selected.value.1)))
    else
      Success(Initialization(dt0.value, state, None))
  }
}
