/**
 * The calendar fields of a JavaScript `Date` at the start of a day: year,
 * 0-based month (`getMonth`), day of month (`getDate`) and weekday (`getDay`,
 * 0 = Sunday). The Date engine itself is represented only by month lengths
 * and the weekday of a calendar day (proleptic Gregorian calendar).
 */
module Dates {

  datatype Date = Date(year: int, month0: int, day: int, weekday: int)

  const Sunday := 0
  const Monday := 1
  const Saturday := 6

  predicate IsLeapYear(y: int) {
    (y % 4 == 0 && y % 100 != 0) || y % 400 == 0
  }

  /** `new Date(y, m0 + 1, 0).getDate()`: the number of days in month m0 of y. */
  function DaysInMonth(y: int, m0: int): (n: int)
    requires 0 <= m0 < 12
    ensures 28 <= n <= 31
    ensures m0 == 1 ==> (n == 29 <==> IsLeapYear(y))
  {
    if m0 == 1 then (if IsLeapYear(y) then 29 else 28)
    else if m0 == 3 || m0 == 5 || m0 == 8 || m0 == 10 then 30
    else 31
  }

  /** `y + y/4 - y/100 + y/400`: the weekday shift the formula gives a year. */
  function YearShift(y: int): int {
    y + y / 4 - y / 100 + y / 400
  }

  /** `new Date(y, m0, d).getDay()` for a day d inside the month. */
  function DayOfWeek(y: int, m0: int, d: int): (w: int)
    requires 0 <= m0 < 12
    ensures 0 <= w < 7
  {
    var t := [0, 3, 2, 5, 0, 3, 5, 1, 4, 6, 2, 4];
    var y' := if m0 < 2 then y - 1 else y;
    (YearShift(y') + t[m0] + d) % 7
  }

  /** Inside one month the weekday advances by one each day. */
  lemma DayOfWeekNext(y: int, m0: int, d: int)
    requires 0 <= m0 < 12
    ensures DayOfWeek(y, m0, d + 1) == (DayOfWeek(y, m0, d) + 1) % 7
  {
  }

  /** A year shifts the weekday by 2 when it is a leap year and by 1 otherwise. */
  lemma YearShiftStep(y: int)
    ensures YearShift(y) == YearShift(y - 1) + (if IsLeapYear(y) then 2 else 1)
  {
    assert y / 4 - (y - 1) / 4 == (if y % 4 == 0 then 1 else 0);
    assert y / 100 - (y - 1) / 100 == (if y % 100 == 0 then 1 else 0);
    assert y / 400 - (y - 1) / 400 == (if y % 400 == 0 then 1 else 0);
    assert y % 400 == 0 ==> y % 100 == 0;
    assert y % 100 == 0 ==> y % 4 == 0;
  }

  /**
   * The 1st of a month falls the day after the last day of the month before,
   * across the year end too, so with one anchor the formula fixes every
   * date's weekday.
   */
  lemma DayOfWeekAcrossMonths(y: int, m0: int)
    requires 0 <= m0 < 12
    ensures m0 < 11 ==> DayOfWeek(y, m0 + 1, 1) == (DayOfWeek(y, m0, DaysInMonth(y, m0)) + 1) % 7
    ensures m0 == 11 ==> DayOfWeek(y + 1, 0, 1) == (DayOfWeek(y, 11, 31) + 1) % 7
  {
    var t := [0, 3, 2, 5, 0, 3, 5, 1, 4, 6, 2, 4];
    if m0 == 11 {
      var a := YearShift(y) + 4 + 31;
      assert DayOfWeek(y, 11, 31) == a % 7;
      assert DayOfWeek(y + 1, 0, 1) == (a - 35 + 1) % 7;
      NextResidue(a, a - 35 + 1);
    } else if m0 == 1 {
      YearShiftStep(y);
      var a := YearShift(y - 1) + 3 + DaysInMonth(y, 1);
      assert DayOfWeek(y, 1, DaysInMonth(y, 1)) == a % 7;
      assert DayOfWeek(y, 2, 1) == (a - 28 + 1) % 7;
      NextResidue(a, a - 28 + 1);
    } else {
      var y' := if m0 < 2 then y - 1 else y;
      var a := YearShift(y') + t[m0] + DaysInMonth(y, m0);
      var b := YearShift(y') + t[m0 + 1] + 1;
      assert DayOfWeek(y, m0, DaysInMonth(y, m0)) == a % 7;
      assert DayOfWeek(y, m0 + 1, 1) == b % 7;
      assert t[m0 + 1] - t[m0] - DaysInMonth(y, m0) in {-28, -35};
      NextResidue(a, b);
    }
  }

  /** A number that exceeds a by one plus a multiple of 7 has the residue after a's. */
  lemma NextResidue(a: int, b: int)
    requires (b - a - 1) % 7 == 0
    ensures b % 7 == (a % 7 + 1) % 7
  {
  }

  /** A record whose fields name a real day of the calendar. */
  predicate Valid(d: Date) {
    && 0 <= d.month0 < 12
    && 1 <= d.day <= DaysInMonth(d.year, d.month0)
    && d.weekday == DayOfWeek(d.year, d.month0, d.day)
  }

  /** `new Date(y, m0, d)` for a day inside the month. */
  function MakeDate(y: int, m0: int, d: int): (r: Date)
    requires 0 <= m0 < 12 && 1 <= d <= DaysInMonth(y, m0)
    ensures Valid(r) && r.year == y && r.month0 == m0 && r.day == d
  {
    Date(y, m0, d, DayOfWeek(y, m0, d))
  }

  /** `a < b` on two dates taken at the start of their days. */
  predicate Before(a: Date, b: Date) {
    || a.year < b.year
    || (a.year == b.year && a.month0 < b.month0)
    || (a.year == b.year && a.month0 == b.month0 && a.day < b.day)
  }

  /** 1 January 2026 was a Thursday. */
  lemma NewYear2026IsThursday()
    ensures DayOfWeek(2026, 0, 1) == 4
  {
  }
}
