/** The two scanning shapes the chart uses: a counting `for` loop that acts on
    every index passing a test, and a `for ... of` loop that stops at the first
    element passing a test. */
module Seqs {
  import opened Wrappers

  /** The indices `lo <= i < hi` passing `p`, in increasing order: what a loop
      `for (let i = lo; i < hi; i++) if (p(i)) ...` visits. */
  function Indices(lo: nat, hi: nat, p: nat -> bool): (r: seq<nat>)
    decreases hi - lo
    ensures forall k :: 0 <= k < |r| ==> lo <= r[k] < hi && p(r[k])
    ensures forall j :: lo <= j < hi && p(j) ==> j in r
    ensures forall a, b :: 0 <= a < b < |r| ==> r[a] < r[b]
  {
    if lo >= hi then []
    else (if p(lo) then [lo] else []) + Indices(lo + 1, hi, p)
  }

  /** When no index passes, none is listed. */
  lemma {:induction false} IndicesNoneMatch(lo: nat, hi: nat, p: nat -> bool)
    decreases hi - lo
    ensures (forall i :: lo <= i < hi ==> !p(i)) ==> Indices(lo, hi, p) == []
  {
    if lo < hi {
      IndicesNoneMatch(lo + 1, hi, p);
    }
  }

  /** The position of the first element of `xs` passing `p`, scanning from the
      front and stopping at the first hit; None when no element passes. */
  function FirstMatch<T>(xs: seq<T>, p: T -> bool): (r: Option<nat>)
    ensures r.Some? ==> r.value < |xs| && p(xs[r.value])
    ensures r.Some? ==> forall j :: 0 <= j < r.value ==> !p(xs[j])
    ensures r.None? ==> forall j :: 0 <= j < |xs| ==> !p(xs[j])
  {
    if |xs| == 0 then None
    else if p(xs[0]) then Some(0)
    else match FirstMatch(xs[1..], p)
      case None => None
      case Some(k) => Some(k + 1)
  }

  /** The first two elements of a strictly increasing sequence of passing indices. */
  lemma FirstTwo(r: seq<nat>, p: nat -> bool)
    requires |r| > 1
    requires forall a, b :: 0 <= a < b < |r| ==> r[a] < r[b]
    requires forall k :: 0 <= k < |r| ==> p(r[k])
    ensures r[0] < r[1] && p(r[0]) && p(r[1])
  {
  }

  /** A strictly increasing sequence with every element passing `p` has at most
      one element when no two distinct indices pass `p`. */
  lemma {:induction false} AtMostOneIndex(r: seq<nat>, p: nat -> bool)
    requires forall a, b :: 0 <= a < b < |r| ==> r[a] < r[b]
    requires forall k :: 0 <= k < |r| ==> p(r[k])
    requires forall i, j :: i < j && p(i) && p(j) ==> false
    ensures |r| <= 1
  {
    if |r| > 1 {
      FirstTwo(r, p);
      assert false;
    }
  }
}
