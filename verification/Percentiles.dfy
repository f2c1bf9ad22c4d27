/** The nearest-rank percentile and the bootstrap interval of `eval/stats.py`: which element of a sorted list each one
    takes, and what that element means for the list. */
module Percentiles {

  predicate Sorted(s: seq<real>) {
    forall i, j | 0 <= i < j < |s| :: s[i] <= s[j]
  }

  /** `sorted(values)`. */
  predicate IsSortingOf(ordered: seq<real>, values: seq<real>) {
    Sorted(ordered) && multiset(ordered) == multiset(values)
  }

  function Ceiling(x: real): int {
    -((-x).Floor)
  }

  /** That fraction of `n` values. */
  function Share(fraction: real, n: nat): (share: real)
    requires 0.0 < fraction <= 1.0 && n > 0
    ensures 0.0 < share <= n as real
  {
    ShareBounds(fraction, n as real);
    fraction * n as real
  }

  lemma ShareBounds(fraction: real, n: real)
    requires 0.0 < fraction <= 1.0 && n > 0.0
    ensures 0.0 < fraction * n <= n
  {
  }

  /** `max(0, ceil(fraction * n) - 1)`. */
  function Rank(fraction: real, n: nat): (i: nat)
    requires 0.0 < fraction <= 1.0 && n > 0
    ensures i < n && i as real < Share(fraction, n) <= i as real + 1.0
  {
    Ceiling(Share(fraction, n)) - 1
  }

  datatype Reply = InvalidFraction | NoValue | Value(value: real)

  /** `percentile`, of the sorted values. */
  function Percentile(ordered: seq<real>, fraction: real): (reply: Reply)
    ensures reply.InvalidFraction? <==> fraction <= 0.0 || fraction > 1.0
    ensures reply.NoValue? <==> 0.0 < fraction <= 1.0 && ordered == []
  {
    if !(0.0 < fraction <= 1.0) then InvalidFraction
    else if ordered == [] then NoValue
    else Value(ordered[Rank(fraction, |ordered|)])
  }

  /** How many values are at most, and below, a bound. */
  function UpTo(s: seq<real>, bound: real): nat {
    if s == [] then 0 else (if s[0] <= bound then 1 else 0) + UpTo(s[1..], bound)
  }

  function Below(s: seq<real>, bound: real): nat {
    if s == [] then 0 else (if s[0] < bound then 1 else 0) + Below(s[1..], bound)
  }

  lemma {:induction false} UpToJoined(a: seq<real>, b: seq<real>, bound: real)
    ensures UpTo(a + b, bound) == UpTo(a, bound) + UpTo(b, bound)
    ensures Below(a + b, bound) == Below(a, bound) + Below(b, bound)
  {
    if a == [] {
      assert a + b == b;
    } else {
      assert (a + b)[1..] == a[1..] + b;
      UpToJoined(a[1..], b, bound);
    }
  }

  lemma {:induction false} UpToAll(s: seq<real>, bound: real)
    ensures Below(s, bound) <= UpTo(s, bound) <= |s|
    ensures (forall x | x in s :: x <= bound) ==> UpTo(s, bound) == |s|
    ensures (forall x | x in s :: x >= bound) ==> Below(s, bound) == 0
    ensures (forall x | x in s :: x > bound) ==> UpTo(s, bound) == 0
  {
    if s != [] {
      assert s[0] in s && forall x | x in s[1..] :: x in s;
      UpToAll(s[1..], bound);
    }
  }

  lemma Cancelled(x: real, a: multiset<real>, b: multiset<real>)
    requires multiset{x} + a == multiset{x} + b
    ensures a == b
  {
    assert a == multiset{x} + a - multiset{x};
    assert b == multiset{x} + b - multiset{x};
  }

  /** A value's place in a rearrangement, which without it rearranges the other values. */
  lemma FirstFound(ordered: seq<real>, values: seq<real>) returns (i: nat)
    requires multiset(ordered) == multiset(values) && values != []
    ensures i < |ordered| && ordered[i] == values[0]
    ensures multiset(ordered[..i] + ordered[i + 1..]) == multiset(values[1..])
  {
    var first := values[0];
    assert first in multiset(ordered);
    i :| 0 <= i < |ordered| && ordered[i] == first;
    var head, tail := ordered[..i], ordered[i + 1..];
    assert values == [first] + values[1..] && ordered == head + [first] + tail;
    assert multiset(values) == multiset{first} + multiset(values[1..]);
    assert multiset(ordered) == multiset{first} + multiset(head + tail);
    Cancelled(first, multiset(head + tail), multiset(values[1..]));
  }

  /** Counting does not see the order. */
  lemma {:induction false} UpToSorted(ordered: seq<real>, values: seq<real>, bound: real)
    requires multiset(ordered) == multiset(values)
    ensures UpTo(ordered, bound) == UpTo(values, bound) && Below(ordered, bound) == Below(values, bound)
    decreases |values|
  {
    if values == [] {
      assert |multiset(ordered)| == 0;
      assert ordered == [];
    } else {
      var first := values[0];
      var i := FirstFound(ordered, values);
      var head, tail := ordered[..i], ordered[i + 1..];
      assert ordered == head + [first] + tail;
      UpToSorted(head + tail, values[1..], bound);
      UpToJoined(head + [first], tail, bound);
      UpToJoined(head, [first], bound);
      UpToJoined(head, tail, bound);
    }
  }

  /** In a sorted list, position and count agree. */
  lemma SortedCounts(s: seq<real>, i: nat)
    requires Sorted(s) && i < |s|
    ensures UpTo(s, s[i]) >= i + 1 && Below(s, s[i]) <= i
    ensures forall bound :: bound < s[i] ==> UpTo(s, bound) <= i
  {
    var head, tail := s[..i + 1], s[i + 1..];
    assert s == head + tail;
    UpToJoined(head, tail, s[i]);
    UpToAll(head, s[i]);
    SortedBelow(s, i, s[i]);
    forall bound | bound < s[i]
      ensures UpTo(s, bound) <= i
    {
      SortedBelow(s, i, bound);
    }
  }

  lemma TailAtLeast(s: seq<real>, i: nat)
    requires Sorted(s) && i < |s|
    ensures forall x | x in s[i..] :: x >= s[i]
  {
    forall x | x in s[i..]
      ensures x >= s[i]
    {
      var j :| i <= j < |s| && s[j] == x;
    }
  }

  lemma SortedBelow(s: seq<real>, i: nat, bound: real)
    requires Sorted(s) && i < |s| && bound <= s[i]
    ensures Below(s, bound) <= i && (bound < s[i] ==> UpTo(s, bound) <= i)
  {
    assert s == s[..i] + s[i..];
    TailAtLeast(s, i);
    HeadCounts(s[..i], s[i..], s[i], bound);
  }

  /** Only the head of a list can be below a bound that no element of its tail is below. */
  lemma HeadCounts(head: seq<real>, tail: seq<real>, least: real, bound: real)
    requires bound <= least && forall x | x in tail :: x >= least
    ensures Below(head + tail, bound) <= |head| && (bound < least ==> UpTo(head + tail, bound) <= |head|)
  {
    UpToJoined(head, tail, bound);
    UpToAll(head, bound);
    UpToAll(tail, bound);
  }

  lemma SameSize(ordered: seq<real>, values: seq<real>)
    requires multiset(ordered) == multiset(values)
    ensures |ordered| == |values| && forall x :: x in ordered <==> x in values
  {
    assert |multiset(ordered)| == |multiset(values)|;
    assert forall x :: x in ordered <==> x in multiset(ordered);
    assert forall x :: x in values <==> x in multiset(values);
  }

  lemma RankCounts(values: seq<real>, ordered: seq<real>, i: nat)
    requires IsSortingOf(ordered, values) && i < |ordered|
    ensures ordered[i] in values && UpTo(values, ordered[i]) >= i + 1
    ensures forall x | x in values && x < ordered[i] :: UpTo(values, x) <= i
  {
    SameSize(ordered, values);
    SortedCounts(ordered, i);
    UpToSorted(ordered, values, ordered[i]);
    forall x | x in values && x < ordered[i]
      ensures UpTo(values, x) <= i
    {
      UpToSorted(ordered, values, x);
    }
  }

  /** The nearest rank: the percentile is the least of the values that at least that fraction of them do not exceed. */
  lemma NearestRank(values: seq<real>, ordered: seq<real>, fraction: real)
    requires 0.0 < fraction <= 1.0 && values != [] && IsSortingOf(ordered, values)
    ensures Percentile(ordered, fraction).Value?
    ensures var p := Percentile(ordered, fraction).value;
            p in values && UpTo(values, p) as real >= Share(fraction, |values|)
            && forall x | x in values && x < p :: (UpTo(values, x) as real) < Share(fraction, |values|)
  {
    SameSize(ordered, values);
    RankCounts(values, ordered, Rank(fraction, |ordered|));
  }

  // ---- The bootstrap interval ----

  /** `int(0.025 * resamples)` and `min(resamples - 1, ceil(0.975 * resamples) - 1)`. */
  function LowIndex(resamples: nat): nat {
    (0.025 * resamples as real).Floor
  }

  function HighIndex(resamples: nat): int {
    var last := Ceiling(0.975 * resamples as real) - 1;
    if last <= resamples - 1 then last else resamples - 1
  }

  /** The two indices are exactly those: the last that leaves at most a fortieth below it, and the first that leaves at
      most a fortieth above it; the minimum with the last index never moves it. */
  lemma IndicesExact(resamples: nat, i: nat)
    requires resamples > 0 && i < resamples
    ensures i <= LowIndex(resamples) <==> i as real <= 0.025 * resamples as real
    ensures HighIndex(resamples) <= i <==> (resamples - 1 - i) as real <= 0.025 * resamples as real
    ensures 0 <= HighIndex(resamples) == Ceiling(0.975 * resamples as real) - 1 < resamples
  {
  }

  /** How many means lie outside an interval. */
  function Outside(means: seq<real>, low: real, high: real): nat {
    if means == [] then 0 else (if low <= means[0] <= high then 0 else 1) + Outside(means[1..], low, high)
  }

  /** Below it or above it, and never both. */
  lemma {:induction false} OutsideCounts(means: seq<real>, low: real, high: real)
    requires low <= high
    ensures Outside(means, low, high) == Below(means, low) + (|means| - UpTo(means, high))
  {
    if means != [] {
      OutsideCounts(means[1..], low, high);
    }
  }

  /** With at least one resample both ends exist, are ordered, and leave at most a fortieth of the means outside on each
      side, a twentieth in all; without one there is no mean to take. */
  lemma IntervalCovers(means: seq<real>, ordered: seq<real>)
    requires IsSortingOf(ordered, means) && means != []
    ensures var low, high := LowIndex(|means|), HighIndex(|means|);
            && |ordered| == |means| && low <= high < |means| && ordered[low] <= ordered[high]
            && Below(means, ordered[low]) as real <= 0.025 * |means| as real
            && (|means| - UpTo(means, ordered[high])) as real <= 0.025 * |means| as real
            && Outside(means, ordered[low], ordered[high]) as real <= 0.05 * |means| as real
  {
    SameSize(ordered, means);
    var low, high := LowIndex(|means|), HighIndex(|means|);
    SortedCounts(ordered, low);
    SortedCounts(ordered, high);
    UpToSorted(ordered, means, ordered[low]);
    UpToSorted(ordered, means, ordered[high]);
    OutsideCounts(means, ordered[low], ordered[high]);
  }
}
