/** The order statistic the clients report. */
module Percentile {

  predicate Sorted(s: seq<int>) {
    forall i, j :: 0 <= i < j < |s| ==> s[i] <= s[j]
  }

  /** How many elements do not exceed `bound`. */
  function CountUpTo(s: seq<int>, bound: int): nat {
    if s == [] then 0 else (if s[0] <= bound then 1 else 0) + CountUpTo(s[1..], bound)
  }

  /** How many elements are smaller than `bound`. */
  function CountBelow(s: seq<int>, bound: int): nat {
    CountUpTo(s, bound - 1)
  }

  /** `v` occurs in `s`; more than 95% of `s` does not exceed it, and at most 95% is smaller. */
  ghost predicate IsP95(s: seq<int>, v: int) {
    v in s && 100 * CountBelow(s, v) <= 95 * |s| < 100 * CountUpTo(s, v)
  }

  lemma SortedJoin(a: seq<int>, b: seq<int>)
    requires Sorted(a) && Sorted(b) && (a != [] && b != [] ==> a[|a| - 1] <= b[0])
    ensures Sorted(a + b)
  {
    forall i, j | 0 <= i < j < |a + b| ensures (a + b)[i] <= (a + b)[j] {
      if i < |a| <= j {
        assert a[i] <= a[|a| - 1] && b[0] <= b[j - |a|];
      }
    }
  }

  lemma SortedAround(a: seq<int>, x: int, b: seq<int>)
    requires Sorted(a) && Sorted(b) && (a != [] ==> a[|a| - 1] <= x) && (b != [] ==> x <= b[0])
    ensures Sorted(a + [x] + b)
  {
    SortedJoin(a, [x]);
    var left := a + [x];
    assert left[|left| - 1] == x;
    SortedJoin(left, b);
  }

  lemma InsertionAdds(s: seq<int>, k: nat, x: int)
    requires k <= |s|
    ensures multiset(s[..k] + [x] + s[k..]) == multiset(s) + multiset{x}
  {
    assert s == s[..k] + s[k..];
  }

  /** Stands for the library's sort: any ordering of the same values. */
  method Sort(s: seq<int>) returns (sorted: seq<int>)
    ensures Sorted(sorted) && multiset(sorted) == multiset(s)
  {
    sorted := [];
    for n := 0 to |s|
      invariant Sorted(sorted) && multiset(sorted) == multiset(s[..n])
    {
      var k := 0;
      while k < |sorted| && sorted[k] <= s[n]
        invariant k <= |sorted| && (k > 0 ==> sorted[k - 1] <= s[n])
      {
        k := k + 1;
      }
      SortedAround(sorted[..k], s[n], sorted[k..]);
      InsertionAdds(sorted, k, s[n]);
      assert s[..n + 1] == s[..n] + [s[n]];
      sorted := sorted[..k] + [s[n]] + sorted[k..];
    }
    assert s[..|s|] == s;
  }

  lemma {:induction false} CountSplits(a: seq<int>, b: seq<int>, bound: int)
    ensures CountUpTo(a + b, bound) == CountUpTo(a, bound) + CountUpTo(b, bound)
  {
    if a == [] {
      assert a + b == b;
    } else {
      CountSplits(a[1..], b, bound);
      assert (a + b)[1..] == a[1..] + b;
    }
  }

  /** Counting does not depend on the order of the elements. */
  lemma {:induction false} CountIsOrderFree(a: seq<int>, b: seq<int>, bound: int)
    requires multiset(a) == multiset(b)
    ensures CountUpTo(a, bound) == CountUpTo(b, bound)
    decreases |a|
  {
    if a == [] {
      assert |multiset(b)| == 0;
    } else {
      assert a == [a[0]] + a[1..];
      assert a[0] in multiset(b);
      var k :| 0 <= k < |b| && b[k] == a[0];
      var rest := b[..k] + b[k + 1..];
      TakeOut(b, k, bound);
      assert multiset(a[1..]) == multiset(a) - multiset{a[0]};
      CountIsOrderFree(a[1..], rest, bound);
    }
  }

  lemma TakeOut(b: seq<int>, k: nat, bound: int)
    requires k < |b|
    ensures multiset(b[..k] + b[k + 1..]) == multiset(b) - multiset{b[k]}
    ensures CountUpTo(b, bound) == (if b[k] <= bound then 1 else 0) + CountUpTo(b[..k] + b[k + 1..], bound)
  {
    assert b == b[..k] + b[k..] && b[k..] == [b[k]] + b[k + 1..];
    CountSplits(b[..k], b[k..], bound);
    CountSplits(b[..k], b[k + 1..], bound);
  }

  lemma {:induction false} CountOfSortedPrefix(s: seq<int>, k: nat)
    requires Sorted(s) && k < |s|
    ensures CountUpTo(s, s[k]) >= k + 1
  {
    if k > 0 {
      CountOfSortedPrefix(s[1..], k - 1);
    }
  }

  lemma {:induction false} CountOfSortedRest(s: seq<int>, k: nat)
    requires Sorted(s) && k < |s|
    ensures CountBelow(s, s[k]) <= k
  {
    if k > 0 {
      CountOfSortedRest(s[1..], k - 1);
    } else {
      NothingBelow(s, s[0]);
    }
  }

  lemma {:induction false} NothingBelow(s: seq<int>, bound: int)
    requires forall i :: 0 <= i < |s| ==> bound <= s[i]
    ensures CountBelow(s, bound) == 0
  {
    if s != [] {
      NothingBelow(s[1..], bound);
    }
  }

  lemma {:induction false} CountGrows(s: seq<int>, bound: int, larger: int)
    requires bound <= larger
    ensures CountUpTo(s, bound) <= CountUpTo(s, larger)
  {
    if s != [] {
      CountGrows(s[1..], bound, larger);
    }
  }

  /** There is one such value only: the definition leaves no choice. */
  lemma P95IsUnique(s: seq<int>, v: int, w: int)
    requires IsP95(s, v) && IsP95(s, w)
    ensures v == w
  {
    if v < w {
      CountGrows(s, v, w - 1);
    } else if w < v {
      CountGrows(s, w, v - 1);
    }
  }

  /** The element at index floor(0.95 n) of the sorted window is a 95th percentile of the window. */
  lemma IndexIsP95(window: seq<int>, sorted: seq<int>)
    requires window != [] && Sorted(sorted) && multiset(sorted) == multiset(window)
    ensures |sorted| == |window| && |sorted| * 95 / 100 < |sorted|
    ensures IsP95(window, sorted[|sorted| * 95 / 100])
  {
    assert |multiset(sorted)| == |multiset(window)|;
    var k := |sorted| * 95 / 100;
    CountOfSortedPrefix(sorted, k);
    CountOfSortedRest(sorted, k);
    CountIsOrderFree(sorted, window, sorted[k]);
    CountIsOrderFree(sorted, window, sorted[k] - 1);
    assert sorted[k] in multiset(window);
  }
}
