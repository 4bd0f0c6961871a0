/** The descriptive statistics the backtests report: mean, median (numpy's
    definition, through a sorted copy), minimum and maximum. */
module Stats {
  import opened Base

  function Mean(xs: seq<real>): real
    requires |xs| > 0
  {
    Sum(xs) / |xs| as real
  }

  function MinOf(xs: seq<real>): real
    requires |xs| > 0
  {
    if |xs| == 1 then xs[0]
    else
      var m := MinOf(xs[..|xs| - 1]);
      if xs[|xs| - 1] < m then xs[|xs| - 1] else m
  }

  function MaxOf(xs: seq<real>): real
    requires |xs| > 0
  {
    if |xs| == 1 then xs[0]
    else
      var m := MaxOf(xs[..|xs| - 1]);
      if xs[|xs| - 1] > m then xs[|xs| - 1] else m
  }

  /** The minimum and the maximum bound every element and are elements. */
  lemma {:induction false} MinMaxBound(xs: seq<real>)
    requires |xs| > 0
    ensures forall i :: 0 <= i < |xs| ==> MinOf(xs) <= xs[i] <= MaxOf(xs)
    ensures MinOf(xs) in xs && MaxOf(xs) in xs
  {
    if |xs| > 1 {
      var init := xs[..|xs| - 1];
      MinMaxBound(init);
      assert forall i :: 0 <= i < |init| ==> init[i] == xs[i];
    }
  }

  ghost predicate Sorted(s: seq<real>)
  {
    forall i, j :: 0 <= i < j < |s| ==> s[i] <= s[j]
  }

  function Insert(x: real, s: seq<real>): (r: seq<real>)
    requires Sorted(s)
    ensures Sorted(r) && multiset(r) == multiset(s) + multiset{x} && |r| == |s| + 1
  {
    if s == [] then [x]
    else if x <= s[0] then [x] + s
    else
      var rest := Insert(x, s[1..]);
      InsertBehindHead(x, s, rest);
      [s[0]] + rest
  }

  /** Inserting behind a smaller head keeps the head in front. */
  lemma InsertBehindHead(x: real, s: seq<real>, rest: seq<real>)
    requires Sorted(s) && s != [] && s[0] < x
    requires Sorted(rest) && multiset(rest) == multiset(s[1..]) + multiset{x}
    ensures Sorted([s[0]] + rest)
    ensures multiset([s[0]] + rest) == multiset(s) + multiset{x}
  {
    assert s == [s[0]] + s[1..];
    forall k | 0 <= k < |rest|
      ensures s[0] <= rest[k]
    {
      assert rest[k] in multiset(rest);
      if rest[k] != x {
        assert rest[k] in s[1..];
      }
    }
  }

  /** Insertion sort: an ascending permutation of its input. */
  function SortAsc(s: seq<real>): (r: seq<real>)
    ensures Sorted(r) && multiset(r) == multiset(s) && |r| == |s|
  {
    if s == [] then []
    else
      assert s == s[..|s| - 1] + [s[|s| - 1]];
      Insert(s[|s| - 1], SortAsc(s[..|s| - 1]))
  }

  /** numpy's median: the middle of the sorted values, or the mean of the two
      middle ones for an even count. */
  function Median(xs: seq<real>): real
    requires |xs| > 0
  {
    Middle(SortAsc(xs))
  }

  /** The middle element, or the mean of the two middle elements. */
  function Middle(s: seq<real>): real
    requires |s| > 0
  {
    var n := |s|;
    if n % 2 == 1 then s[n / 2] else (s[n / 2 - 1] + s[n / 2]) / 2.0
  }

  /** The middle of values within bounds is within the same bounds. */
  lemma MiddleWithin(s: seq<real>, lo: real, hi: real)
    requires |s| > 0
    requires forall k :: 0 <= k < |s| ==> lo <= s[k] <= hi
    ensures lo <= Middle(s) <= hi
  {
    var m := |s| / 2;
    assert lo <= s[m] <= hi;
    if |s| % 2 == 0 {
      assert lo <= s[m - 1] <= hi;
    }
  }

  /** The mean lies between the smallest and the largest value. */
  lemma MeanWithinRange(xs: seq<real>)
    requires |xs| > 0
    ensures MinOf(xs) <= Mean(xs) <= MaxOf(xs)
  {
    MinMaxBound(xs);
    MeanBetween(xs, MinOf(xs), MaxOf(xs));
  }

  /** Values within [lo, hi] have their mean within [lo, hi]. */
  lemma MeanBetween(xs: seq<real>, lo: real, hi: real)
    requires |xs| > 0
    requires forall i :: 0 <= i < |xs| ==> lo <= xs[i] <= hi
    ensures lo <= Mean(xs) <= hi
  {
    SumBounds(xs, lo, hi);
    QuotientLowerBound(Sum(xs), |xs| as real, lo);
    QuotientUpperBound(Sum(xs), |xs| as real, hi);
  }

  /** The median lies between the smallest and the largest value. */
  lemma MedianWithinRange(xs: seq<real>)
    requires |xs| > 0
    ensures MinOf(xs) <= Median(xs) <= MaxOf(xs)
  {
    var s := SortAsc(xs);
    forall k | 0 <= k < |s|
      ensures MinOf(xs) <= s[k] <= MaxOf(xs)
    {
      SortedElementWithinRange(xs, k);
    }
    MiddleWithin(s, MinOf(xs), MaxOf(xs));
  }

  /** Sorting only rearranges: every sorted element lies within the bounds. */
  lemma SortedElementWithinRange(xs: seq<real>, k: nat)
    requires k < |xs|
    ensures MinOf(xs) <= SortAsc(xs)[k] <= MaxOf(xs)
  {
    var s := SortAsc(xs);
    assert s[k] in multiset(s);
    ElementWithinRange(xs, s[k]);
  }


  /** A real that is an element of `xs` lies within the bounds of `xs`. */
  lemma ElementWithinRange(xs: seq<real>, x: real)
    requires x in xs
    ensures MinOf(xs) <= x <= MaxOf(xs)
  {
    MinMaxBound(xs);
  }
}
