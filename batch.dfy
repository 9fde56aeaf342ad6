/** Elementwise selection over a batch, the model of `torch.where(mask, a, b)`. */
module Batch {

  /** Element i comes from `a` where `mask[i]` holds and from `b` elsewhere; no element looks at another. */
  function Where<T>(mask: seq<bool>, a: seq<T>, b: seq<T>): (r: seq<T>)
    requires |a| == |mask| && |b| == |mask|
    ensures |r| == |mask|
    ensures forall i :: 0 <= i < |mask| && mask[i] ==> r[i] == a[i]
    ensures forall i :: 0 <= i < |mask| && !mask[i] ==> r[i] == b[i]
  {
    seq(|mask|, i requires 0 <= i < |mask| => if mask[i] then a[i] else b[i])
  }

  predicate AllTrue(mask: seq<bool>) { forall i :: 0 <= i < |mask| ==> mask[i] }

  predicate AllFalse(mask: seq<bool>) { forall i :: 0 <= i < |mask| ==> !mask[i] }

  lemma WhereAllTrue<T>(mask: seq<bool>, a: seq<T>, b: seq<T>)
    requires |a| == |mask| && |b| == |mask| && AllTrue(mask)
    ensures Where(mask, a, b) == a
  {
    assert forall i :: 0 <= i < |mask| ==> Where(mask, a, b)[i] == a[i];
  }

  lemma WhereAllFalse<T>(mask: seq<bool>, a: seq<T>, b: seq<T>)
    requires |a| == |mask| && |b| == |mask| && AllFalse(mask)
    ensures Where(mask, a, b) == b
  {
    assert forall i :: 0 <= i < |mask| ==> Where(mask, a, b)[i] == b[i];
  }
}
