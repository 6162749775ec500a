/**
 This module holds the two list operations every page of the application is
 built from: `Array.prototype.filter` and a `reduce` that sums one numeric
 field. Both are modelled on `seq`, with the facts the pages rely on.
 */
module Seqs {

  /** The sum of `f` over the elements of `xs`, taken first to last, starting
      from 0 (the shape of `xs.reduce((sum, x) => sum + f(x), 0)`). */
  function SumBy<T>(xs: seq<T>, f: T -> int): int
    decreases |xs|
  {
    if |xs| == 0 then 0 else f(xs[0]) + SumBy(xs[1..], f)
  }

  /** Summing a concatenation is summing its two parts. */
  lemma {:induction false} SumByAppend<T>(xs: seq<T>, ys: seq<T>, f: T -> int)
    ensures SumBy(xs + ys, f) == SumBy(xs, f) + SumBy(ys, f)
    decreases |xs|
  {
    if |xs| == 0 {
      assert xs + ys == ys;
    } else {
      assert (xs + ys)[1..] == xs[1..] + ys;
      SumByAppend(xs[1..], ys, f);
    }
  }

  /** Replacing one element changes the sum by exactly the difference of the
      two elements' values. */
  lemma {:induction false} SumByUpdate<T>(xs: seq<T>, i: int, y: T, f: T -> int)
    requires 0 <= i < |xs|
    ensures SumBy(xs[i := y], f) == SumBy(xs, f) - f(xs[i]) + f(y)
    decreases |xs|
  {
    if i == 0 {
      assert xs[i := y][1..] == xs[1..];
    } else {
      assert xs[i := y][1..] == xs[1..][i - 1 := y];
      SumByUpdate(xs[1..], i - 1, y, f);
    }
  }

  /** Two functions that agree on every element give the same sum. */
  lemma {:induction false} SumByCongruent<T>(xs: seq<T>, f: T -> int, g: T -> int)
    requires forall k :: 0 <= k < |xs| ==> f(xs[k]) == g(xs[k])
    ensures SumBy(xs, f) == SumBy(xs, g)
    decreases |xs|
  {
    if |xs| > 0 {
      SumByCongruent(xs[1..], f, g);
    }
  }

  /** With no negative term, the sum is at least every single term and at
      least 0. */
  lemma {:induction false} SumByBounds<T>(xs: seq<T>, f: T -> int)
    ensures (forall k :: 0 <= k < |xs| ==> f(xs[k]) >= 0) ==>
              SumBy(xs, f) >= 0 && forall k :: 0 <= k < |xs| ==> f(xs[k]) <= SumBy(xs, f)
    decreases |xs|
  {
    if |xs| > 0 && forall k :: 0 <= k < |xs| ==> f(xs[k]) >= 0 {
      assert forall k :: 0 <= k < |xs[1..]| ==> xs[1..][k] == xs[k + 1];
      SumByBounds(xs[1..], f);
      forall k | 0 <= k < |xs|
        ensures f(xs[k]) <= SumBy(xs, f)
      {
        if k > 0 {
          assert xs[k] == xs[1..][k - 1];
        }
      }
    }
  }

  /** `xs.filter(keep)`: the elements that satisfy `keep`, in their original
      order. */
  function Filter<T(==,!new)>(xs: seq<T>, keep: T -> bool): (r: seq<T>)
    ensures |r| <= |xs|
    ensures forall x :: x in r <==> x in xs && keep(x)
    decreases |xs|
  {
    if |xs| == 0 then []
    else if keep(xs[0]) then [xs[0]] + Filter(xs[1..], keep)
    else Filter(xs[1..], keep)
  }

  /** `ys` can be obtained from `xs` by deleting elements, without reordering
      the ones that remain. */
  predicate IsSubsequence<T(==)>(ys: seq<T>, xs: seq<T>)
    decreases |xs|
  {
    |ys| == 0 ||
    (|xs| > 0 &&
     ((ys[0] == xs[0] && IsSubsequence(ys[1..], xs[1..])) || IsSubsequence(ys, xs[1..])))
  }

  /** Filtering keeps the surviving elements in their original order. */
  lemma {:induction false} FilterIsSubsequence<T(!new)>(xs: seq<T>, keep: T -> bool)
    ensures IsSubsequence(Filter(xs, keep), xs)
    decreases |xs|
  {
    if |xs| > 0 {
      FilterIsSubsequence(xs[1..], keep);
      if keep(xs[0]) {
        assert ([xs[0]] + Filter(xs[1..], keep))[1..] == Filter(xs[1..], keep);
      }
    }
  }

  /** A filter whose predicate accepts every element returns its input. */
  lemma {:induction false} FilterKeepsAll<T(!new)>(xs: seq<T>, keep: T -> bool)
    requires forall k :: 0 <= k < |xs| ==> keep(xs[k])
    ensures Filter(xs, keep) == xs
    decreases |xs|
  {
    if |xs| > 0 {
      FilterKeepsAll(xs[1..], keep);
      assert [xs[0]] + xs[1..] == xs;
    }
  }

  /** Summing over a filtered list never exceeds summing over the whole list
      when no term is negative. */
  lemma {:induction false} SumByFilterAtMost<T(!new)>(xs: seq<T>, keep: T -> bool, f: T -> int)
    requires forall k :: 0 <= k < |xs| ==> f(xs[k]) >= 0
    ensures SumBy(Filter(xs, keep), f) <= SumBy(xs, f)
    decreases |xs|
  {
    if |xs| > 0 {
      SumByFilterAtMost(xs[1..], keep, f);
      if keep(xs[0]) {
        assert ([xs[0]] + Filter(xs[1..], keep))[1..] == Filter(xs[1..], keep);
      }
    }
  }

  /** Filtering a concatenation is concatenating the filtered parts. */
  lemma {:induction false} FilterAppend<T(!new)>(xs: seq<T>, ys: seq<T>, keep: T -> bool)
    ensures Filter(xs + ys, keep) == Filter(xs, keep) + Filter(ys, keep)
    decreases |xs|
  {
    if |xs| == 0 {
      assert xs + ys == ys;
    } else {
      assert (xs + ys)[1..] == xs[1..] + ys;
      FilterAppend(xs[1..], ys, keep);
    }
  }

  /** Summing over a filtered concatenation is summing over each filtered
      part. */
  lemma SumByFilterAppend<T(!new)>(xs: seq<T>, ys: seq<T>, keep: T -> bool, f: T -> int)
    ensures SumBy(Filter(xs + ys, keep), f) == SumBy(Filter(xs, keep), f) + SumBy(Filter(ys, keep), f)
  {
    FilterAppend(xs, ys, keep);
    SumByAppend(Filter(xs, keep), Filter(ys, keep), f);
  }

  /** Two filters that agree on every element give the same list. */
  lemma {:induction false} FilterSame<T(!new)>(xs: seq<T>, p: T -> bool, q: T -> bool)
    requires forall k :: 0 <= k < |xs| ==> p(xs[k]) == q(xs[k])
    ensures Filter(xs, p) == Filter(xs, q)
    decreases |xs|
  {
    if |xs| > 0 {
      FilterSame(xs[1..], p, q);
    }
  }
}
