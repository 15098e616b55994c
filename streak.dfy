/**
 * `longestConsecutiveStreak` (and the identical inline copy on the demo page):
 * the longest run of calendar days, each one day after the previous, in the
 * sorted list of flying days. Dates are day numbers, so the source's
 * `(curr - prev) / 86400000 === 1` is a difference of exactly one.
 */
module Streak {
  import opened Wrappers
  import opened Seqs

  /** `{ len, start, end }`; start and end are null for the empty input. */
  datatype Streak = Streak(len: nat, start: Option<int>, end: Option<int>)

  function IntKey(d: int): real { d as real }

  /** Length of the longest run of consecutive days that ends at position i of s. */
  function RunLen(s: seq<int>, i: nat): (n: nat)
    requires i < |s|
    ensures 1 <= n <= i + 1
  {
    if i == 0 || s[i] - s[i - 1] != 1 then 1 else RunLen(s, i - 1) + 1
  }

  /** s[a..b] (inclusive) is a run: every day is the day after its predecessor. */
  ghost predicate Consecutive(s: seq<int>, a: nat, b: nat)
  {
    a <= b < |s| && forall k :: a <= k < b ==> s[k + 1] == s[k] + 1
  }

  /** The run RunLen measures is a run, and cannot be extended to the left. */
  lemma {:induction false} RunLenIsRun(s: seq<int>, i: nat)
    requires i < |s|
    ensures Consecutive(s, i - RunLen(s, i) + 1, i)
    ensures i - RunLen(s, i) + 1 > 0 ==> s[i - RunLen(s, i) + 1] != s[i - RunLen(s, i)] + 1
  {
    if i > 0 && s[i] - s[i - 1] == 1 {
      RunLenIsRun(s, i - 1);
    }
  }

  /** No run ending at b is longer than RunLen(s, b). */
  lemma {:induction false} RunLenMaximal(s: seq<int>, a: nat, b: nat)
    requires Consecutive(s, a, b)
    ensures b - a + 1 <= RunLen(s, b)
    decreases b - a
  {
    if a < b {
      assert s[b] == s[b - 1] + 1;
      RunLenMaximal(s, a, b - 1);
    }
  }

  /** A run of n days spans n - 1 days from its first to its last. */
  lemma {:induction false} RunSpan(s: seq<int>, a: nat, b: nat)
    requires Consecutive(s, a, b)
    ensures s[b] - s[a] == b - a
    decreases b - a
  {
    if a < b {
      RunSpan(s, a, b - 1);
    }
  }

  /** The first position, among the first n, where the longest run ends. */
  function BestEnd(s: seq<int>, n: nat): (b: nat)
    requires 1 <= n <= |s|
    ensures b < n
    ensures forall j :: 0 <= j < n ==> RunLen(s, j) <= RunLen(s, b)
    ensures forall j :: 0 <= j < b ==> RunLen(s, j) < RunLen(s, b)
  {
    if n == 1 then 0
    else
      var b := BestEnd(s, n - 1);
      if RunLen(s, n - 1) > RunLen(s, b) then n - 1 else b
  }

  /** The run that ends at position b of s. */
  function RunAt(s: seq<int>, b: nat): Streak
    requires b < |s|
  {
    Streak(RunLen(s, b), Some(s[b - RunLen(s, b) + 1]), Some(s[b]))
  }

  /** The streak of a list of dates: the earliest of the longest runs of the sorted dates. */
  function Longest(dates: seq<int>): Streak
  {
    if dates == [] then Streak(0, None, None)
    else
      SortBySorted(dates, IntKey);
      var s := SortBy(dates, IntKey);
      RunAt(s, BestEnd(s, |s|))
  }

  method LongestConsecutiveStreak(dates: seq<int>) returns (best: Streak)
    ensures best == Longest(dates)
  {
    if |dates| == 0 {
      return Streak(0, None, None);
    }
    SortBySorted(dates, IntKey);
    var sorted := SortBy(dates, IntKey);
    best := LongestRun(sorted);
  }

  /** The scan over the sorted dates: `curLen` is the run ending here, `best` the first longest so far. */
  method LongestRun(sorted: seq<int>) returns (best: Streak)
    requires sorted != []
    ensures best == RunAt(sorted, BestEnd(sorted, |sorted|))
  {
    best := Streak(1, Some(sorted[0]), Some(sorted[0]));
    var curLen := 1;
    var curStart := sorted[0];
    ghost var b := 0;
    var i := 1;
    while i < |sorted|
      invariant 1 <= i <= |sorted|
      invariant curLen == RunLen(sorted, i - 1) && curStart == sorted[i - curLen]
      invariant b == BestEnd(sorted, i) && best == RunAt(sorted, b)
    {
      var diffDays := sorted[i] - sorted[i - 1];
      if diffDays == 1 {
        curLen := curLen + 1;
        if curLen > best.len {
          best := Streak(curLen, Some(curStart), Some(sorted[i]));
          b := i;
        }
      } else {
        curLen := 1;
        curStart := sorted[i];
      }
      i := i + 1;
    }
  }

  /** The streak is empty exactly for no dates; otherwise 1 <= len <= #dates and end - start == len - 1. */
  lemma LongestBounds(dates: seq<int>)
    ensures Longest(dates).len == 0 <==> dates == []
    ensures dates == [] ==> Longest(dates).start.None? && Longest(dates).end.None?
    ensures dates != [] ==> 1 <= Longest(dates).len <= |dates|
    ensures dates != [] ==> (Longest(dates).start.Some? && Longest(dates).end.Some?
      && Longest(dates).end.value - Longest(dates).start.value == Longest(dates).len - 1)
  {
    if dates != [] {
      SortBySorted(dates, IntKey);
      var s := SortBy(dates, IntKey);
      var b := BestEnd(s, |s|);
      RunLenIsRun(s, b);
      RunSpan(s, b - RunLen(s, b) + 1, b);
    }
  }

  /** r is the run of s that ends at b, no run is longer, and every run as long ends no earlier. */
  ghost predicate IsEarliestMaximal(s: seq<int>, b: nat, r: Streak)
  {
    b < |s| && b + 1 >= r.len && Consecutive(s, b + 1 - r.len, b)
    && r.start == Some(s[b + 1 - r.len]) && r.end == Some(s[b])
    && (forall lo: nat, hi: nat :: Consecutive(s, lo, hi) ==> hi - lo + 1 <= r.len)
    && (forall lo: nat, hi: nat :: Consecutive(s, lo, hi) && hi - lo + 1 == r.len ==> b <= hi)
  }

  /**
   * The streak is a run of the sorted dates, no run is longer, and every run
   * as long as it ends no earlier: the strict `>` keeps the earliest longest run.
   */
  lemma LongestIsEarliestMaximal(dates: seq<int>)
    requires dates != []
    ensures exists b :: IsEarliestMaximal(SortBy(dates, IntKey), b, Longest(dates))
  {
    SortBySorted(dates, IntKey);
    var s := SortBy(dates, IntKey);
    var b := BestEnd(s, |s|);
    RunLenIsRun(s, b);
    forall lo: nat, hi: nat | Consecutive(s, lo, hi)
      ensures hi - lo + 1 <= RunLen(s, b)
      ensures hi - lo + 1 == RunLen(s, b) ==> b <= hi
    {
      RunLenMaximal(s, lo, hi);
    }
    assert Longest(dates) == RunAt(s, b);
    assert IsEarliestMaximal(s, b, Longest(dates));
  }

  /** A gap other than one day ends the run: the next run starts afresh at length 1. */
  lemma GapResets(s: seq<int>, i: nat)
    requires 0 < i < |s| && s[i] - s[i - 1] != 1
    ensures RunLen(s, i) == 1
    ensures forall a: nat :: a < i ==> !Consecutive(s, a, i)
  {
  }
}
