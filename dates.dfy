/**
 * Calendar arithmetic on day numbers. A date is the number of days since
 * 1970-01-01 (UTC), so a `YYYY-MM-DD` string and its UTC midnight are one value.
 * A month is its index 12 * year + (month - 1), so `YYYY-MM` keys order like
 * their indices for four-digit years.
 */
module Dates {

  /** Month index of January 1970, the month that holds day 0. */
  const EpochMonth: int := 1970 * 12

  predicate IsLeapYear(y: int)
  {
    y % 4 == 0 && (y % 100 != 0 || y % 400 == 0)
  }

  /** Days in month `mi` of the proleptic Gregorian calendar. */
  function MonthLength(mi: int): (n: int)
    ensures 28 <= n <= 31
  {
    var m := mi % 12 + 1;
    if m == 2 then (if IsLeapYear(mi / 12) then 29 else 28)
    else if m == 4 || m == 6 || m == 9 || m == 11 then 30
    else 31
  }

  /** Day number of the first day of month `mi` (what `Date.UTC(y, m, 1)` denotes). */
  function MonthStart(mi: int): int
    decreases if mi >= EpochMonth then mi - EpochMonth else EpochMonth - mi
  {
    if mi == EpochMonth then 0
    else if mi > EpochMonth then MonthStart(mi - 1) + MonthLength(mi - 1)
    else MonthStart(mi + 1) - MonthLength(mi)
  }

  /** Consecutive months abut: month mi is exactly MonthLength(mi) days long. */
  lemma MonthStep(mi: int)
    ensures MonthStart(mi + 1) == MonthStart(mi) + MonthLength(mi)
  {
  }

  /** Later months start strictly later, at least 28 days per month later. */
  lemma {:induction false} MonthStartMonotone(a: int, b: int)
    requires a <= b
    ensures MonthStart(b) - MonthStart(a) >= 28 * (b - a)
    decreases b - a
  {
    if a < b {
      MonthStartMonotone(a, b - 1);
      MonthStep(b - 1);
    }
  }

  function MonthUp(mi: int, d: int): (r: int)
    requires MonthStart(mi) <= d
    ensures MonthStart(r) <= d < MonthStart(r + 1)
    decreases d - MonthStart(mi)
  {
    MonthStep(mi);
    if d < MonthStart(mi + 1) then mi else MonthUp(mi + 1, d)
  }

  function MonthDown(mi: int, d: int): (r: int)
    requires d < MonthStart(mi + 1)
    ensures MonthStart(r) <= d < MonthStart(r + 1)
    decreases MonthStart(mi + 1) - d
  {
    MonthStep(mi);
    MonthStep(mi - 1);
    if MonthStart(mi) <= d then mi else MonthDown(mi - 1, d)
  }

  /** The month that contains day d (the `YYYY-MM` prefix of its ISO date). */
  function MonthOf(d: int): (r: int)
    ensures MonthStart(r) <= d < MonthStart(r + 1)
  {
    MonthStep(EpochMonth);
    if d >= 0 then MonthUp(EpochMonth, d) else MonthDown(EpochMonth - 1, d)
  }

  /** A day belongs to exactly one month. */
  lemma MonthOfUnique(d: int, m: int)
    requires MonthStart(m) <= d < MonthStart(m + 1)
    ensures MonthOf(d) == m
  {
    var r := MonthOf(d);
    if r < m {
      MonthStartMonotone(r + 1, m);
    } else if r > m {
      MonthStartMonotone(m + 1, r);
    }
  }

  lemma MonthOfMonthStart(m: int)
    ensures MonthOf(MonthStart(m)) == m
  {
    MonthStep(m);
    MonthOfUnique(MonthStart(m), m);
  }

  /** A day lies in the half-open span of months [a, b) iff its month does. */
  lemma MonthSpan(d: int, a: int, b: int)
    ensures MonthStart(a) <= d < MonthStart(b) <==> a <= MonthOf(d) < b
  {
    var r := MonthOf(d);
    if a <= r { MonthStartMonotone(a, r); } else { MonthStartMonotone(r + 1, a); }
    if r < b { MonthStartMonotone(r + 1, b); } else { MonthStartMonotone(b, r); }
  }

  /** A day is on or after the first of month a iff its month is a or later. */
  lemma MonthStartAtMost(d: int, a: int)
    ensures MonthStart(a) <= d <==> a <= MonthOf(d)
  {
    MonthSpan(d, a, MonthOf(d) + 1);
  }

  /** `getUTCDay()`: 0 is Sunday; 1970-01-01 was a Thursday. */
  function Weekday(d: int): (w: int)
    ensures 0 <= w < 7
  {
    (d + 4) % 7
  }

  /** `getStartOfWeek`: the Sunday on or before d. */
  function StartOfWeek(d: int): (s: int)
    ensures Weekday(s) == 0
    ensures s <= d < s + 7
  {
    d - Weekday(d)
  }

  lemma WeekdayAddWeeks(s: int, k: int)
    requires Weekday(s) == 0
    ensures Weekday(s + 7 * k) == 0
  {
    assert s + 7 * k + 4 == (s + 4) + 7 * k;
  }
}
