/**
 * Order-preserving filtering of sequences: the `Array.prototype.filter` that the
 * log view, the macro list and the protocol-spec list all use.
 */
module Seqs {

  /** The elements of `xs` that satisfy `p`, in their original order. */
  function Filter<T>(xs: seq<T>, p: T -> bool): (r: seq<T>)
    ensures |r| <= |xs|
    ensures forall i :: 0 <= i < |r| ==> r[i] in xs && p(r[i])
    ensures forall i :: 0 <= i < |xs| && p(xs[i]) ==> xs[i] in r
    ensures (forall i :: 0 <= i < |xs| ==> p(xs[i])) ==> r == xs
  {
    if xs == [] then []
    else if p(xs[0]) then [xs[0]] + Filter(xs[1..], p)
    else Filter(xs[1..], p)
  }

  /** Every position shifted one to the right. */
  function Shift(ps: seq<nat>): (r: seq<nat>)
    ensures |r| == |ps|
  {
    seq(|ps|, i requires 0 <= i < |ps| => ps[i] + 1)
  }

  /** The positions in `xs` of the elements that `Filter(xs, p)` keeps. */
  function Kept<T>(xs: seq<T>, p: T -> bool): seq<nat>
  {
    if xs == [] then []
    else if p(xs[0]) then [0] + Shift(Kept(xs[1..], p))
    else Shift(Kept(xs[1..], p))
  }

  /** `ps` lists strictly increasing positions of `xs`. */
  predicate Increasing(ps: seq<nat>, n: nat)
  {
    && (forall i :: 0 <= i < |ps| ==> ps[i] < n)
    && (forall i, j :: 0 <= i < j < |ps| ==> ps[i] < ps[j])
  }

  /** `Kept` lists one position per kept element, in increasing order. */
  lemma {:induction false} KeptPositions<T>(xs: seq<T>, p: T -> bool)
    ensures |Kept(xs, p)| == |Filter(xs, p)|
    ensures Increasing(Kept(xs, p), |xs|)
  {
    if xs != [] {
      KeptPositions(xs[1..], p);
    }
  }

  /** The i-th kept element is the element of `xs` at the i-th kept position. */
  lemma {:induction false} KeptSelects<T>(xs: seq<T>, p: T -> bool, i: nat)
    requires i < |Kept(xs, p)|
    ensures |Kept(xs, p)| == |Filter(xs, p)|
    ensures Kept(xs, p)[i] < |xs| && Filter(xs, p)[i] == xs[Kept(xs, p)[i]]
  {
    KeptPositions(xs, p);
    var tail := xs[1..];
    KeptPositions(tail, p);
    var kt, ft := Kept(tail, p), Filter(tail, p);
    if p(xs[0]) {
      assert Kept(xs, p) == [0] + Shift(kt) && Filter(xs, p) == [xs[0]] + ft;
      if i > 0 {
        KeptSelects(tail, p, i - 1);
        assert Shift(kt)[i - 1] == kt[i - 1] + 1;
      }
    } else {
      assert Kept(xs, p) == Shift(kt) && Filter(xs, p) == ft;
      KeptSelects(tail, p, i);
      assert Shift(kt)[i] == kt[i] + 1;
    }
  }

  /** Every position whose element satisfies `p` is kept. */
  lemma {:induction false} KeptComplete<T>(xs: seq<T>, p: T -> bool, k: nat)
    requires k < |xs| && p(xs[k])
    ensures k in Kept(xs, p)
  {
    if k > 0 {
      var tail := xs[1..];
      KeptComplete(tail, p, k - 1);
      var ks := Kept(tail, p);
      var i :| 0 <= i < |ks| && ks[i] == k - 1;
      assert Shift(ks)[i] == k;
    }
  }

  /**
   * The filtered sequence is an order-preserving subsequence of the input:
   * its i-th element sits at position `Kept(xs, p)[i]` of `xs`, the positions
   * strictly increase, and every position whose element satisfies `p` is kept.
   */
  lemma FilterKeepsOrder<T>(xs: seq<T>, p: T -> bool)
    ensures |Kept(xs, p)| == |Filter(xs, p)|
    ensures Increasing(Kept(xs, p), |xs|)
    ensures forall i :: 0 <= i < |Kept(xs, p)| ==> Filter(xs, p)[i] == xs[Kept(xs, p)[i]]
    ensures forall k :: 0 <= k < |xs| && p(xs[k]) ==> k in Kept(xs, p)
  {
    KeptPositions(xs, p);
    forall i | 0 <= i < |Kept(xs, p)|
      ensures Filter(xs, p)[i] == xs[Kept(xs, p)[i]]
    {
      KeptSelects(xs, p, i);
    }
    forall k | 0 <= k < |xs| && p(xs[k])
      ensures k in Kept(xs, p)
    {
      KeptComplete(xs, p, k);
    }
  }

  /** Filtering a concatenation filters each part. */
  lemma {:induction false} FilterConcat<T>(a: seq<T>, b: seq<T>, p: T -> bool)
    ensures Filter(a + b, p) == Filter(a, p) + Filter(b, p)
  {
    if a == [] {
      assert a + b == b;
    } else {
      assert (a + b)[1..] == a[1..] + b;
      FilterConcat(a[1..], b, p);
    }
  }
}
