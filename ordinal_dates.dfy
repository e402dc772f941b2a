/**
  Ordinal dates (year and day of year): the two cumulative day-count tables,
  the Gregorian leap rule and the two table scans by which the parser turns a
  day of year into a month and a day of month.
 */
module OrdinalDates {

  /** Days before the first of each month, January first; ordinary and leap years. */
  const DAYS_365: seq<int> := [0, 31, 59, 90, 120, 151, 181, 212, 243, 273, 304, 334]
  const DAYS_366: seq<int> := [0, 31, 60, 91, 121, 152, 182, 213, 244, 274, 305, 335]

  /**
    The Gregorian leap rule as the parser writes it inline. Swift's `%`
    truncates, but whether a remainder is zero does not depend on the rounding,
    so Dafny's `%` gives the same answer for negative years too.
   */
  predicate IsLeapYear(year: int) {
    (year % 4 == 0 && year % 100 != 0) || year % 400 == 0
  }

  function DaysTable(year: int): seq<int> {
    if IsLeapYear(year) then DAYS_366 else DAYS_365
  }

  /** Independent reference: the length of month `m` (1..12). */
  function MonthLength(leap: bool, m: int): int {
    if m == 2 then (if leap then 29 else 28)
    else if m == 4 || m == 6 || m == 9 || m == 11 then 30
    else 31
  }

  /** Independent reference: the number of days in months 1..k. */
  function DaysBefore(leap: bool, k: nat): int {
    if k == 0 then 0 else DaysBefore(leap, k - 1) + MonthLength(leap, k)
  }

  /** The leap table is chosen exactly for leap years, and each table holds the days before each month. */
  lemma DaysTableIsCumulative(year: int)
    ensures DaysTable(year) == DAYS_366 <==> IsLeapYear(year)
    ensures |DaysTable(year)| == 12
    ensures forall k :: 0 <= k < 12 ==> DaysTable(year)[k] == DaysBefore(IsLeapYear(year), k)
  {
    assert DAYS_365 != DAYS_366 by { assert DAYS_365[2] != DAYS_366[2]; }
    var leap := IsLeapYear(year);
    var t := DaysTable(year);
    assert DaysBefore(leap, 0) == 0;
    assert DaysBefore(leap, 1) == 31;
    assert DaysBefore(leap, 2) == t[2];
    assert DaysBefore(leap, 3) == t[3];
    assert DaysBefore(leap, 4) == t[4];
    assert DaysBefore(leap, 5) == t[5];
    assert DaysBefore(leap, 6) == t[6];
    assert DaysBefore(leap, 7) == t[7];
    assert DaysBefore(leap, 8) == t[8];
    assert DaysBefore(leap, 9) == t[9];
    assert DaysBefore(leap, 10) == t[10];
    assert DaysBefore(leap, 11) == t[11];
  }

  /** The position of the first entry of `t` that exceeds `n`, or |t| when there is none. */
  function FirstAbove(t: seq<int>, n: int): (k: nat)
    ensures k <= |t|
    ensures forall j :: 0 <= j < k ==> t[j] <= n
    ensures k < |t| ==> t[k] > n
  {
    if |t| == 0 then 0
    else if t[0] > n then 0
    else 1 + FirstAbove(t[1..], n)
  }

  /** The scan stops at `k` when `k` is the first entry above `n`. */
  lemma FirstAboveIs(t: seq<int>, n: int, k: nat)
    requires k < |t| && t[k] > n && forall j :: 0 <= j < k ==> t[j] <= n
    ensures FirstAbove(t, n) == k
  {
  }

  /**
    Month derived from a day of year: the 0-based position of the first
    boundary that exceeds it (which, since the table starts at 0, is the
    1-based month), or 0 when no boundary does.
   */
  function OrdinalMonth(t: seq<int>, n: int): int {
    var k := FirstAbove(t, n);
    if k < |t| then k else 0
  }

  /** Day of month derived from a day of year: `n` less the boundary below the first one that exceeds it, or 0. */
  function OrdinalDay(t: seq<int>, n: int): int {
    var k := FirstAbove(t, n);
    if k < |t| then n - (if k == 0 then 0 else t[k - 1]) else 0
  }

  /** The first loop of the ordinal branch: `theMonth` counts boundaries up to the first one above `ordinalDay`. */
  method DeriveMonth(daysArray: seq<int>, ordinalDay: int) returns (month: int)
    ensures month == OrdinalMonth(daysArray, ordinalDay)
  {
    month := 0;
    var theMonth := 0;
    for i := 0 to |daysArray|
      invariant theMonth == i
      invariant month == 0
      invariant forall j :: 0 <= j < i ==> daysArray[j] <= ordinalDay
    {
      var startDay := daysArray[i];
      theMonth := theMonth + 1;
      if startDay > ordinalDay {
        month := theMonth - 1;
        return;
      }
    }
  }

  /** The second loop: `previousStartDay` trails the boundaries until one exceeds `ordinalDay`. */
  method DeriveDay(daysArray: seq<int>, ordinalDay: int) returns (theDay: int)
    ensures theDay == OrdinalDay(daysArray, ordinalDay)
  {
    theDay := 0;
    var previousStartDay := 0;
    for i := 0 to |daysArray|
      invariant theDay == 0
      invariant previousStartDay == if i == 0 then 0 else daysArray[i - 1]
      invariant forall j :: 0 <= j < i ==> daysArray[j] <= ordinalDay
    {
      var startDay := daysArray[i];
      if startDay > ordinalDay {
        theDay := ordinalDay - previousStartDay;
        return;
      }
      previousStartDay := startDay;
    }
  }

  /**
    What the derivation computes for either table: inside the table the month
    is the one whose boundaries enclose the day of year, the day is the
    distance from the lower boundary (possibly 0); from the last boundary on,
    both stay 0; a negative day of year gives month 0 and itself as the day.
   */
  lemma OrdinalDerivation(year: int, n: int)
    ensures var t, m, d := DaysTable(year), OrdinalMonth(DaysTable(year), n), OrdinalDay(DaysTable(year), n);
      && (0 <= n < t[11] ==> 1 <= m <= 11 && t[m - 1] <= n < t[m] && d == n - t[m - 1])
      && (n >= t[11] ==> m == 0 && d == 0)
      && (n < 0 ==> m == 0 && d == n)
  {
    TableEnds(year);
    DerivationOn(DaysTable(year), n);
  }

  /** Either table has twelve entries, starts at 0 and ends at its largest. */
  lemma TableEnds(year: int)
    ensures var t := DaysTable(year);
      |t| == 12 && t[0] == 0 && forall i :: 0 <= i < 12 ==> t[i] <= t[11]
  {
  }

  /** The derivation on any twelve boundaries that start at 0 and end at their largest. */
  lemma DerivationOn(t: seq<int>, n: int)
    requires |t| == 12 && t[0] == 0 && forall i :: 0 <= i < 12 ==> t[i] <= t[11]
    ensures var m, d := OrdinalMonth(t, n), OrdinalDay(t, n);
      && (0 <= n < t[11] ==> 1 <= m <= 11 && t[m - 1] <= n < t[m] && d == n - t[m - 1])
      && (n >= t[11] ==> m == 0 && d == 0)
      && (n < 0 ==> m == 0 && d == n)
  {
    var k := FirstAbove(t, n);
    if 0 <= n < t[11] {
      assert k != 0;
      assert k <= 11;
    } else if n >= t[11] {
      assert k == |t|;
    } else {
      assert k == 0;
    }
  }

  /**
    Read as a calendar date: a derived day of 1 or more is a real day of the
    derived month, and a derived day of 0 stands for the last day of the
    month before (the day before the 1st).
   */
  lemma OrdinalAsCalendarDate(year: int, n: int)
    requires 0 <= n < DaysTable(year)[11]
    ensures var leap, m, d := IsLeapYear(year), OrdinalMonth(DaysTable(year), n), OrdinalDay(DaysTable(year), n);
      && 1 <= m <= 11 && 0 <= d < MonthLength(leap, m)
      && n == DaysBefore(leap, m - 1) + d
      && (d == 0 && m >= 2 ==> n == DaysBefore(leap, m - 2) + MonthLength(leap, m - 1))
  {
    OrdinalDerivation(year, n);
    DaysTableIsCumulative(year);
  }

  /** The last day of January comes out as day 0 of February. */
  lemma OrdinalThirtyOne(year: int)
    ensures OrdinalMonth(DaysTable(year), 31) == 2 && OrdinalDay(DaysTable(year), 31) == 0
  {
    var t := DaysTable(year);
    assert t[0] == 0 && t[1] == 31 && t[2] > 31;
    FirstAboveIs(t, 31, 2);
  }

  /** Day 61 of the leap year 2016 is March 1st. */
  lemma OrdinalSixtyOneInLeapYear()
    ensures OrdinalMonth(DaysTable(2016), 61) == 3 && OrdinalDay(DaysTable(2016), 61) == 1
  {
    assert IsLeapYear(2016);
    assert DAYS_366[2] == 60 && DAYS_366[3] == 91;
    FirstAboveIs(DAYS_366, 61, 3);
  }
}
