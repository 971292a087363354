/** A stable sort in non-increasing order of a real-valued key: the model of
    `ORDER BY … DESC` in the history query and of
    `sort((a, b) => b.amount - a.amount)` in the category roll-up. */
module Sorting {
  import Seqs

  predicate SortedDesc<T>(xs: seq<T>, key: T -> real) {
    forall i, j :: 0 <= i < j < |xs| ==> key(xs[i]) >= key(xs[j])
  }

  /** Inserts `x` before the first element whose key is not above `key(x)`. */
  function InsertDesc<T>(x: T, xs: seq<T>, key: T -> real): (r: seq<T>)
    requires SortedDesc(xs, key)
    ensures SortedDesc(r, key)
    ensures multiset(r) == multiset(xs) + multiset{x}
    ensures |r| == |xs| + 1
  {
    if |xs| == 0 || key(x) >= key(xs[0]) then [x] + xs
    else
      var rest := InsertDesc(x, xs[1..], key);
      assert xs == [xs[0]] + xs[1..];
      HeadDominates(x, xs, rest, key);
      [xs[0]] + rest
  }

  /** The head of a sorted sequence dominates any rearrangement of its tail
      extended by a smaller element. */
  lemma HeadDominates<T>(x: T, xs: seq<T>, rest: seq<T>, key: T -> real)
    requires SortedDesc(xs, key)
    requires |xs| > 0 && key(x) < key(xs[0])
    requires multiset(rest) == multiset(xs[1..]) + multiset{x}
    ensures forall j :: 0 <= j < |rest| ==> key(xs[0]) >= key(rest[j])
  {
    forall j | 0 <= j < |rest|
      ensures key(xs[0]) >= key(rest[j])
    {
      assert rest[j] in multiset(rest);
      if rest[j] != x {
        assert rest[j] in multiset(xs[1..]);
        var m :| 0 <= m < |xs[1..]| && xs[1..][m] == rest[j];
        assert xs[1 + m] == rest[j];
      }
    }
  }

  function SortDesc<T>(xs: seq<T>, key: T -> real): (r: seq<T>)
    ensures SortedDesc(r, key)
    ensures multiset(r) == multiset(xs)
    ensures |r| == |xs|
  {
    if |xs| == 0 then []
    else
      assert xs == [xs[0]] + xs[1..];
      InsertDesc(xs[0], SortDesc(xs[1..], key), key)
  }

  /** Insertion adds the inserted element's term to any sum. */
  lemma {:induction false} SumInsert<T>(x: T, xs: seq<T>, key: T -> real, f: T -> real)
    requires SortedDesc(xs, key)
    ensures Seqs.SumBy(InsertDesc(x, xs, key), f) == f(x) + Seqs.SumBy(xs, f)
  {
    if |xs| == 0 || key(x) >= key(xs[0]) {
      assert ([x] + xs)[1..] == xs;
    } else {
      SumInsert(x, xs[1..], key, f);
      var r := InsertDesc(x, xs, key);
      assert r[1..] == InsertDesc(x, xs[1..], key);
    }
  }

  /** Sorting keeps every sum. */
  lemma {:induction false} SumSort<T>(xs: seq<T>, key: T -> real, f: T -> real)
    ensures Seqs.SumBy(SortDesc(xs, key), f) == Seqs.SumBy(xs, f)
  {
    if |xs| > 0 {
      SumSort(xs[1..], key, f);
      SumInsert(xs[0], SortDesc(xs[1..], key), key, f);
    }
  }

  /** In a sorted sequence, an element whose key is strictly above every
      other element's key comes first. */
  lemma StrictMaxIsFirst<T>(xs: seq<T>, x: T, key: T -> real)
    requires SortedDesc(xs, key)
    requires x in xs
    requires forall y :: y in xs && y != x ==> key(y) < key(x)
    ensures xs[0] == x
  {
    var k :| 0 <= k < |xs| && xs[k] == x;
    assert key(xs[0]) >= key(xs[k]);
    assert xs[0] in xs;
  }

  /** Sorting keeps, for any filter, the filtered length and the filtered sum. */
  lemma FilterSort<T>(xs: seq<T>, key: T -> real, p: T -> bool, f: T -> real)
    ensures |Seqs.Filter(SortDesc(xs, key), p)| == |Seqs.Filter(xs, p)|
    ensures Seqs.SumBy(Seqs.Filter(SortDesc(xs, key), p), f) == Seqs.SumBy(Seqs.Filter(xs, p), f)
  {
    var ys := SortDesc(xs, key);
    Seqs.FilterSumIsMasked(ys, p, f);
    Seqs.FilterSumIsMasked(xs, p, f);
    SumSort(xs, key, Seqs.Mask(p, f));
    Seqs.FilterSumIsMasked(ys, p, Seqs.One);
    Seqs.FilterSumIsMasked(xs, p, Seqs.One);
    SumSort(xs, key, Seqs.Mask(p, Seqs.One));
    Seqs.SumOfOnes(Seqs.Filter(ys, p));
    Seqs.SumOfOnes(Seqs.Filter(xs, p));
  }
}
