/**
 * The controller's carried state: per batch element, the two most recent
 * accepted error ratios, plus the method order, the optional step-size
 * bounds and the floor constant, all fixed for the life of a solve.
 */
module PidState {
  import opened Wrappers
  import opened Floats

  datatype PIDState = PIDState(
    methodOrder: int,
    prevErrorRatio: seq<Float>,
    prevPrevErrorRatio: seq<Float>,
    dtMin: Option<real>,
    dtMax: Option<real>,
    almostZero: real)

  /** The ratio a fresh history holds, and the one shifted in when no error estimate exists. */
  const NeutralRatio: Float := Finite(1.0)

  function Ones(n: nat): (r: seq<Float>)
    ensures |r| == n
    ensures forall i :: 0 <= i < n ==> r[i] == NeutralRatio
  {
    seq(n, _ => NeutralRatio)
  }

  /** Both states agree on every field except the two history slots. */
  predicate SameConfiguration(a: PIDState, b: PIDState) {
    && a.methodOrder == b.methodOrder
    && a.dtMin == b.dtMin
    && a.dtMax == b.dtMax
    && a.almostZero == b.almostZero
  }

  /** Both history slots hold one entry per batch element. */
  predicate Shaped(s: PIDState, n: nat) {
    |s.prevErrorRatio| == n && |s.prevPrevErrorRatio| == n
  }

  /** A ratio the history may hold: a finite number between the floor and the neutral 1. */
  predicate InHistoryRange(x: Float, almostZero: real) {
    x.Finite? && almostZero <= x.value <= 1.0
  }

  /**
   * The history invariant: every slot holds an accepted ratio (which lies in
   * [almost_zero, 1)) or the neutral ratio 1.
   */
  predicate HistoryValid(s: PIDState, n: nat) {
    && Shaped(s, n)
    && (forall i :: 0 <= i < n ==> InHistoryRange(s.prevErrorRatio[i], s.almostZero))
    && (forall i :: 0 <= i < n ==> InHistoryRange(s.prevPrevErrorRatio[i], s.almostZero))
  }

  /** `PIDState.default`: a fresh state whose history is neutral for every batch element. */
  function Default(methodOrder: int, batchSize: nat, dtMin: Option<real>, dtMax: Option<real>,
                   almostZero: real): (s: PIDState)
    ensures s.methodOrder == methodOrder && s.dtMin == dtMin && s.dtMax == dtMax
    ensures s.almostZero == almostZero
    ensures Shaped(s, batchSize)
    ensures forall i :: 0 <= i < batchSize ==>
      s.prevErrorRatio[i] == NeutralRatio && s.prevPrevErrorRatio[i] == NeutralRatio
    ensures HistoryValid(s, batchSize) <==> (batchSize == 0 || almostZero <= 1.0)
  {
    var s := PIDState(methodOrder, Ones(batchSize), Ones(batchSize), dtMin, dtMax, almostZero);
    assert batchSize > 0 ==> s.prevErrorRatio[0] == NeutralRatio;
    s
  }

  /** `update_error_ratios`: a new state with only the two history slots replaced. */
  function UpdateErrorRatios(s: PIDState, prev: seq<Float>, prevPrev: seq<Float>): (r: PIDState)
    ensures SameConfiguration(r, s)
    ensures r.prevErrorRatio == prev && r.prevPrevErrorRatio == prevPrev
  {
    s.(prevErrorRatio := prev, prevPrevErrorRatio := prevPrev)
  }
}
