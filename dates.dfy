/**
 * Calendar dates without a time component, as java.time.LocalDate holds them
 * (proleptic Gregorian calendar).  Dates are compared lexicographically on
 * (year, month, day); DayNumber shows that this is the chronological order that
 * a SQL `BETWEEN` on a date column uses.
 */
module Dates {

  datatype Date = Date(year: int, month: int, day: int)

  predicate IsLeapYear(y: int) {
    y % 4 == 0 && (y % 100 != 0 || y % 400 == 0)
  }

  function DaysInYear(y: int): int {
    if IsLeapYear(y) then 366 else 365
  }

  function DaysInMonth(y: int, m: int): (n: int)
    requires 1 <= m <= 12
    ensures 28 <= n <= 31
    ensures n == 29 <==> m == 2 && IsLeapYear(y)
  {
    if m == 2 then (if IsLeapYear(y) then 29 else 28)
    else if m == 4 || m == 6 || m == 9 || m == 11 then 30
    else 31
  }

  /** A date that LocalDate can represent: a real month and a real day of it. */
  predicate IsValid(d: Date) {
    1 <= d.month <= 12 && 1 <= d.day <= DaysInMonth(d.year, d.month)
  }

  /** The values of a LocalDate; every one is a real calendar date. */
  type LocalDate = d: Date | IsValid(d) witness Date(1970, 1, 1)

  /** `a <= b` on dates. */
  predicate AtOrBefore(a: Date, b: Date) {
    a.year < b.year ||
    (a.year == b.year && (a.month < b.month || (a.month == b.month && a.day <= b.day)))
  }

  /** `a < b` on dates. */
  predicate Before(a: Date, b: Date) {
    AtOrBefore(a, b) && a != b
  }

  /** SQL `d BETWEEN from AND to`: both bounds are inclusive. */
  predicate Between(d: Date, from: Date, to: Date) {
    AtOrBefore(from, d) && AtOrBefore(d, to)
  }

  /** Number of days in the years before `y`, counted from year 1. */
  function DaysBeforeYear(y: int): int {
    365 * (y - 1) + (y - 1) / 4 - (y - 1) / 100 + (y - 1) / 400
  }

  /** Number of days in the months of year `y` before month `m` (m == 13: the whole year). */
  function DaysBeforeMonth(y: int, m: int): int
    requires 1 <= m <= 13
  {
    var cumulative := [0, 31, 59, 90, 120, 151, 181, 212, 243, 273, 304, 334, 365];
    cumulative[m - 1] + (if m > 2 && IsLeapYear(y) then 1 else 0)
  }

  /** The position of a date on the calendar, one per day. */
  function DayNumber(d: LocalDate): int {
    DaysBeforeYear(d.year) + DaysBeforeMonth(d.year, d.month) + d.day
  }

  lemma DaysBeforeNextYear(y: int)
    ensures DaysBeforeYear(y + 1) == DaysBeforeYear(y) + DaysInYear(y)
  {
    assert y / 4 - (y - 1) / 4 == if y % 4 == 0 then 1 else 0;
    assert y / 100 - (y - 1) / 100 == if y % 100 == 0 then 1 else 0;
    assert y / 400 - (y - 1) / 400 == if y % 400 == 0 then 1 else 0;
  }

  lemma DaysBeforeNextMonth(y: int, m: int)
    requires 1 <= m <= 12
    ensures DaysBeforeMonth(y, m) + DaysInMonth(y, m) == DaysBeforeMonth(y, m + 1)
    ensures DaysBeforeMonth(y, 13) == DaysInYear(y)
  {
  }

  lemma DaysBeforeMonthMonotone(y: int, m: int, n: int)
    requires 1 <= m <= n <= 13
    ensures DaysBeforeMonth(y, m) <= DaysBeforeMonth(y, n)
  {
  }

  /** The whole of year `a` lies before the start of any later year `b`. */
  lemma {:induction false} YearsInOrder(a: int, b: int)
    requires a < b
    ensures DaysBeforeYear(a) + DaysInYear(a) <= DaysBeforeYear(b)
    decreases b - a
  {
    DaysBeforeNextYear(a);
    if a + 1 < b {
      YearsInOrder(a + 1, b);
    }
  }

  lemma BeforeHasSmallerDayNumber(a: LocalDate, b: LocalDate)
    requires Before(a, b)
    ensures DayNumber(a) < DayNumber(b)
  {
    DaysBeforeNextMonth(a.year, a.month);
    if a.year < b.year {
      DaysBeforeMonthMonotone(a.year, a.month + 1, 13);
      YearsInOrder(a.year, b.year);
    } else if a.month < b.month {
      DaysBeforeMonthMonotone(a.year, a.month + 1, b.month);
    }
  }

  /**
   * The lexicographic comparison is chronological: `a` is at or before `b`
   * exactly when `a` is no later on the calendar than `b`.
   */
  lemma AtOrBeforeIsChronological(a: LocalDate, b: LocalDate)
    ensures AtOrBefore(a, b) <==> DayNumber(a) <= DayNumber(b)
  {
    if a == b {
    } else if AtOrBefore(a, b) {
      BeforeHasSmallerDayNumber(a, b);
    } else {
      BeforeHasSmallerDayNumber(b, a);
    }
  }

  /** Distinct dates have distinct day numbers. */
  lemma DayNumberInjective(a: LocalDate, b: LocalDate)
    requires DayNumber(a) == DayNumber(b)
    ensures a == b
  {
    if a != b {
      if AtOrBefore(a, b) {
        BeforeHasSmallerDayNumber(a, b);
      } else {
        BeforeHasSmallerDayNumber(b, a);
      }
    }
  }
}
