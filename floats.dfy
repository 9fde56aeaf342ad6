/**
 * Floating-point values as the controller's tensors hold them.
 *
 * The finite part is kept as an exact real: rounding, overflow to infinity and
 * the sign of zero are not modelled. What is modelled are the special values
 * and how the elementwise tensor operations propagate them, because the
 * controller's status codes and its division-by-zero guard depend on them.
 */
module Floats {
  import opened Wrappers

  datatype Float = Finite(value: real) | PosInf | NegInf | NaN

  predicate Positive(x: Float) { x.PosInf? || (x.Finite? && x.value > 0.0) }

  predicate Negative(x: Float) { x.NegInf? || (x.Finite? && x.value < 0.0) }

  /** Zero, a positive number or +inf. */
  predicate NonNegative(x: Float) { x.PosInf? || (x.Finite? && x.value >= 0.0) }

  predicate AllFinite(v: seq<Float>) { forall i :: 0 <= i < |v| ==> v[i].Finite? }

  /** The IEEE comparison `x <= y`: false whenever either side is NaN. */
  predicate Le(x: Float, y: Float) {
    if x.NaN? || y.NaN? then false
    else if x.NegInf? || y.PosInf? then true
    else if x.PosInf? || y.NegInf? then false
    else x.value <= y.value
  }

  /** The IEEE comparison `x < y`: false whenever either side is NaN. */
  predicate Lt(x: Float, y: Float) { Le(x, y) && !Le(y, x) }

  function Negate(x: Float): Float {
    match x
    case Finite(v) => Finite(-v)
    case PosInf => NegInf
    case NegInf => PosInf
    case NaN => NaN
  }

  /** `abs`: never negative, NaN stays NaN. */
  function Abs(x: Float): (r: Float)
    ensures r.NaN? <==> x.NaN?
    ensures !x.NaN? ==> NonNegative(r)
    ensures x.Finite? ==> r.Finite? && (r.value == x.value || r.value == -x.value)
  {
    match x
    case Finite(v) => Finite(if v < 0.0 then -v else v)
    case PosInf => PosInf
    case NegInf => PosInf
    case NaN => NaN
  }

  /** `x + y`; inf + -inf is NaN. */
  function Add(x: Float, y: Float): Float {
    if x.NaN? || y.NaN? then NaN
    else if x.Finite? && y.Finite? then Finite(x.value + y.value)
    else if (x.PosInf? && y.NegInf?) || (x.NegInf? && y.PosInf?) then NaN
    else if x.PosInf? || y.PosInf? then PosInf
    else NegInf
  }

  function Sub(x: Float, y: Float): Float { Add(x, Negate(y)) }

  /** `x * y`; 0 * inf is NaN. */
  function Mul(x: Float, y: Float): Float {
    if x.NaN? || y.NaN? then NaN
    else if x.Finite? && y.Finite? then Finite(x.value * y.value)
    else if x == Finite(0.0) || y == Finite(0.0) then NaN
    else if Negative(x) == Negative(y) then PosInf
    else NegInf
  }

  /** `x / y`; a zero divisor counts as +0, so a nonzero dividend gives an infinity of its own sign. */
  function Div(x: Float, y: Float): Float {
    if x.NaN? || y.NaN? || (!x.Finite? && !y.Finite?) then NaN
    else if !y.Finite? then Finite(0.0)
    else if y.value == 0.0 then
      (if x == Finite(0.0) then NaN else if Negative(x) then NegInf else PosInf)
    else if !x.Finite? then (if Negative(x) == Negative(y) then PosInf else NegInf)
    else Finite(x.value / y.value)
  }

  /** Elementwise product of two rows of equal length. */
  function MulAll(a: seq<Float>, b: seq<Float>): (r: seq<Float>)
    requires |a| == |b|
    ensures |r| == |a|
  {
    seq(|a|, i requires 0 <= i < |a| => Mul(a[i], b[i]))
  }

  /** Elementwise difference of two rows of equal length. */
  function SubAll(a: seq<Float>, b: seq<Float>): (r: seq<Float>)
    requires |a| == |b|
    ensures |r| == |a|
  {
    seq(|a|, i requires 0 <= i < |a| => Sub(a[i], b[i]))
  }

  /** `torch.maximum`: the larger operand, NaN if either operand is NaN. */
  function Max(x: Float, y: Float): (r: Float)
    ensures r.NaN? <==> x.NaN? || y.NaN?
    ensures !r.NaN? ==> Le(x, r) && Le(y, r) && (r == x || r == y)
  {
    if x.NaN? || y.NaN? then NaN else if Le(x, y) then y else x
  }

  /** `torch.minimum`: the smaller operand, NaN if either operand is NaN. */
  function Min(x: Float, y: Float): (r: Float)
    ensures r.NaN? <==> x.NaN? || y.NaN?
    ensures !r.NaN? ==> Le(r, x) && Le(r, y) && (r == x || r == y)
  {
    if x.NaN? || y.NaN? then NaN else if Le(x, y) then x else y
  }

  /**
   * `torch.clamp(x, lo, hi)` with optional bounds: `min(max(x, lo), hi)`, so
   * an upper bound below the lower bound wins. NaN stays NaN; infinities are
   * pulled back onto a bound.
   */
  function Clamp(x: Float, lo: Option<real>, hi: Option<real>): (r: Float)
    ensures r.NaN? <==> x.NaN?
    ensures lo.Some? && hi.Some? && !x.NaN? ==> r.Finite?
    ensures hi.Some? && !x.NaN? ==> Le(r, Finite(hi.value))
    ensures lo.Some? && !x.NaN? && (hi.Some? ==> lo.value <= hi.value) ==> Le(Finite(lo.value), r)
    ensures (lo.Some? ==> Le(Finite(lo.value), x)) && (hi.Some? ==> Le(x, Finite(hi.value))) ==> r == x
  {
    var low := if lo.Some? then Max(x, Finite(lo.value)) else x;
    if hi.Some? then Min(low, Finite(hi.value)) else low
  }

  /** Clamping with finite bounds is monotone on finite values. */
  lemma ClampMonotone(a: real, b: real, lo: real, hi: real)
    requires a <= b
    ensures Le(Clamp(Finite(a), Some(lo), Some(hi)), Clamp(Finite(b), Some(lo), Some(hi)))
  {
  }
}
