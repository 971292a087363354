/** Sequence combinators the source expresses with `Array.prototype`
    methods: `filter`, `reduce` into a sum, `slice(0, n)`. */
module Seqs {

  /** `xs.filter(p)`. */
  function Filter<T>(xs: seq<T>, p: T -> bool): (r: seq<T>)
    ensures |r| <= |xs|
    ensures forall x :: x in r ==> x in xs && p(x)
    ensures forall x :: x in xs && p(x) ==> x in r
  {
    if |xs| == 0 then []
    else (if p(xs[0]) then [xs[0]] else []) + Filter(xs[1..], p)
  }

  /** `xs.reduce((sum, x) => sum + f(x), 0)`. */
  function SumBy<T>(xs: seq<T>, f: T -> real): real
  {
    if |xs| == 0 then 0.0 else f(xs[0]) + SumBy(xs[1..], f)
  }

  /** `xs.slice(0, n)`. */
  function Take<T>(xs: seq<T>, n: nat): (r: seq<T>)
    ensures |r| == if n < |xs| then n else |xs|
    ensures forall i :: 0 <= i < |r| ==> r[i] == xs[i]
  {
    if n < |xs| then xs[..n] else xs
  }

  lemma {:induction false} FilterAppend<T>(xs: seq<T>, ys: seq<T>, p: T -> bool)
    ensures Filter(xs + ys, p) == Filter(xs, p) + Filter(ys, p)
  {
    if |xs| == 0 {
      assert xs + ys == ys;
    } else {
      assert (xs + ys)[1..] == xs[1..] + ys;
      FilterAppend(xs[1..], ys, p);
    }
  }

  lemma {:induction false} SumByAppend<T>(xs: seq<T>, ys: seq<T>, f: T -> real)
    ensures SumBy(xs + ys, f) == SumBy(xs, f) + SumBy(ys, f)
  {
    if |xs| == 0 {
      assert xs + ys == ys;
    } else {
      assert (xs + ys)[1..] == xs[1..] + ys;
      SumByAppend(xs[1..], ys, f);
    }
  }

  /** Filtering twice is filtering once by the conjunction. */
  lemma {:induction false} FilterFilter<T>(xs: seq<T>, p: T -> bool, q: T -> bool, pq: T -> bool)
    requires forall x :: pq(x) == (p(x) && q(x))
    ensures Filter(Filter(xs, p), q) == Filter(xs, pq)
  {
    if |xs| > 0 {
      FilterFilter(xs[1..], p, q, pq);
      var head := if p(xs[0]) then [xs[0]] else [];
      FilterAppend(head, Filter(xs[1..], p), q);
      if p(xs[0]) {
        assert head[1..] == [];
      }
    }
  }

  /** Filters by predicates that agree everywhere give the same sequence. */
  lemma {:induction false} FilterExt<T>(xs: seq<T>, p: T -> bool, q: T -> bool)
    requires forall x :: p(x) == q(x)
    ensures Filter(xs, p) == Filter(xs, q)
  {
    if |xs| > 0 {
      FilterExt(xs[1..], p, q);
    }
  }

  /** A filter by complementary predicates splits the length. */
  lemma {:induction false} FilterPartitionLength<T>(xs: seq<T>, p: T -> bool, q: T -> bool)
    requires forall x :: q(x) == !p(x)
    ensures |Filter(xs, p)| + |Filter(xs, q)| == |xs|
  {
    if |xs| > 0 {
      FilterPartitionLength(xs[1..], p, q);
    }
  }

  /** A filter by complementary predicates splits the sum. */
  lemma {:induction false} FilterPartitionSum<T>(xs: seq<T>, p: T -> bool, q: T -> bool, f: T -> real)
    requires forall x :: q(x) == !p(x)
    ensures SumBy(Filter(xs, p), f) + SumBy(Filter(xs, q), f) == SumBy(xs, f)
  {
    if |xs| > 0 {
      FilterPartitionSum(xs[1..], p, q, f);
      var hp := if p(xs[0]) then [xs[0]] else [];
      var hq := if q(xs[0]) then [xs[0]] else [];
      SumByAppend(hp, Filter(xs[1..], p), f);
      SumByAppend(hq, Filter(xs[1..], q), f);
      if p(xs[0]) { assert hp[1..] == []; } else { assert hq[1..] == []; }
    }
  }

  /** With non-negative terms the sum over a filtered sequence is bounded by the sum over all. */
  lemma {:induction false} FilterSumLe<T>(xs: seq<T>, p: T -> bool, f: T -> real)
    requires forall x :: x in xs ==> f(x) >= 0.0
    ensures SumBy(Filter(xs, p), f) <= SumBy(xs, f)
  {
    if |xs| > 0 {
      FilterSumLe(xs[1..], p, f);
      var h := if p(xs[0]) then [xs[0]] else [];
      SumByAppend(h, Filter(xs[1..], p), f);
      if p(xs[0]) { assert h[1..] == []; }
    }
  }

  /** `f` where `p` holds, zero elsewhere. */
  function Mask<T>(p: T -> bool, f: T -> real): T -> real {
    x => if p(x) then f(x) else 0.0
  }

  function One<T>(x: T): real { 1.0 }

  /** Summing over a filtered sequence is summing the masked terms over all. */
  lemma {:induction false} FilterSumIsMasked<T>(xs: seq<T>, p: T -> bool, f: T -> real)
    ensures SumBy(Filter(xs, p), f) == SumBy(xs, Mask(p, f))
  {
    if |xs| > 0 {
      FilterSumIsMasked(xs[1..], p, f);
      var h := if p(xs[0]) then [xs[0]] else [];
      SumByAppend(h, Filter(xs[1..], p), f);
      if p(xs[0]) { assert h[1..] == []; }
    }
  }

  /** A sum of ones is the length. */
  lemma {:induction false} SumOfOnes<T>(xs: seq<T>)
    ensures SumBy(xs, One) == |xs| as real
  {
    if |xs| > 0 {
      SumOfOnes(xs[1..]);
    }
  }

  /** A filter that keeps every element is the identity. */
  lemma {:induction false} FilterAll<T>(xs: seq<T>, p: T -> bool)
    requires forall i :: 0 <= i < |xs| ==> p(xs[i])
    ensures Filter(xs, p) == xs
  {
    if |xs| > 0 {
      assert p(xs[0]);
      FilterAll(xs[1..], p);
      assert [xs[0]] + xs[1..] == xs;
    }
  }

  /** A filter that keeps no element gives the empty sequence. */
  lemma {:induction false} FilterNone<T>(xs: seq<T>, p: T -> bool)
    requires forall i :: 0 <= i < |xs| ==> !p(xs[i])
    ensures Filter(xs, p) == []
  {
    if |xs| > 0 {
      assert !p(xs[0]);
      FilterNone(xs[1..], p);
    }
  }

  /** `xs.join(sep)`. */
  function Join(xs: seq<string>, sep: string): string {
    if |xs| == 0 then ""
    else if |xs| == 1 then xs[0]
    else xs[0] + sep + Join(xs[1..], sep)
  }
}
