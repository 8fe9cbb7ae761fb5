/**
 * The visit calendar rules and the booking reference (src/lib/booking.ts):
 * weekends, the 2026 bank-holiday list, the approximate school-holiday
 * ranges, the weekend/holiday price tier and the days the farm is closed.
 */
module BookingRules {
  import opened Dates
  import opened Text
  import opened Nanoid

  predicate IsWeekend(d: Date) {
    d.weekday == Sunday || d.weekday == Saturday
  }

  /** The listed UK bank holidays, as (year, 0-based month, day). */
  const BankHolidays2026: seq<(int, int, int)> := [
    (2026, 0, 1), (2026, 3, 3), (2026, 3, 6), (2026, 4, 4),
    (2026, 4, 25), (2026, 7, 31), (2026, 11, 25), (2026, 11, 28)
  ]

  predicate IsBankHoliday(d: Date) {
    (d.year, d.month0, d.day) in BankHolidays2026
  }

  /** The approximate school-holiday ranges; the year is not consulted. */
  predicate IsSchoolHoliday(d: Date) {
    var month, day := d.month0, d.day;
    || (month == 1 && 14 <= day <= 22)
    || (month == 2 && day >= 28)
    || (month == 3 && day <= 12)
    || (month == 4 && 23 <= day <= 31)
    || (month == 6 && day >= 18)
    || month == 7
    || (month == 8 && day <= 2)
    || (month == 9 && 24 <= day <= 30)
    || (month == 11 && day >= 19)
  }

  predicate IsWeekendPricing(d: Date) {
    IsWeekend(d) || IsBankHoliday(d) || IsSchoolHoliday(d)
  }

  predicate IsClosedDay(d: Date) {
    || (d.weekday == Monday && !IsBankHoliday(d) && !IsSchoolHoliday(d))
    || (d.month0 == 11 && d.day == 25)
    || (d.month0 == 0 && d.day == 1)
  }

  // ----- properties of the classifier -----

  lemma WeekendIff(d: Date)
    ensures IsWeekend(d) <==> d.weekday in {0, 6}
  {
  }

  /** Exactly the eight listed 2026 dates are bank holidays. */
  lemma BankHolidayIff(d: Date)
    ensures IsBankHoliday(d) <==>
      d.year == 2026 &&
      ((d.month0, d.day) in {(0, 1), (3, 3), (3, 6), (4, 4), (4, 25), (7, 31), (11, 25), (11, 28)})
    ensures d.year != 2026 ==> !IsBankHoliday(d)
  {
  }

  /** Only the month and the day decide a school holiday. */
  lemma SchoolHolidayIgnoresYearAndWeekday(d: Date, year: int, weekday: int)
    ensures IsSchoolHoliday(d) == IsSchoolHoliday(Date(year, d.month0, d.day, weekday))
  {
  }

  /** Every day of August is a school holiday. */
  lemma AugustIsSchoolHoliday(d: Date)
    requires d.month0 == 7
    ensures IsSchoolHoliday(d) && IsWeekendPricing(d)
  {
  }

  /** 25 December and 1 January are closed whatever the weekday. */
  lemma ChristmasAndNewYearClosed(d: Date)
    requires (d.month0 == 11 && d.day == 25) || (d.month0 == 0 && d.day == 1)
    ensures IsClosedDay(d)
  {
  }

  /** A Monday is closed exactly when it is neither kind of holiday. */
  lemma MondayClosedIff(d: Date)
    requires d.weekday == Monday
    ensures IsClosedDay(d) <==>
      (!IsBankHoliday(d) && !IsSchoolHoliday(d))
      || (d.month0 == 11 && d.day == 25) || (d.month0 == 0 && d.day == 1)
  {
  }

  /** Besides 25 December and 1 January only Mondays can be closed. */
  lemma OnlyMondaysOtherwiseClosed(d: Date)
    requires d.weekday != Monday
    requires !(d.month0 == 11 && d.day == 25) && !(d.month0 == 0 && d.day == 1)
    ensures !IsClosedDay(d)
  {
  }

  /** A closed Monday is always charged, if at all, at the weekday rate. */
  lemma ClosedMondayIsWeekdayRate(d: Date)
    requires d.weekday == Monday && IsClosedDay(d)
    requires !(d.month0 == 11 && d.day == 25) && !(d.month0 == 0 && d.day == 1)
    ensures !IsWeekendPricing(d)
  {
  }

  // ----- booking reference -----

  /** `toISOString().slice(2, 10)` with the dashes removed: YYMMDD. */
  function DateStamp(now: Date): (s: string)
    requires 0 <= now.year <= 9999 && 0 <= now.month0 < 12 && 1 <= now.day <= 31
    ensures |s| == 6 && forall i :: 0 <= i < 6 ==> IsDigit(s[i])
  {
    Pad2(now.year % 100) + Pad2(now.month0 + 1) + Pad2(now.day)
  }

  /** Reads a date stamp back as (two-digit year, 0-based month, day). */
  function ParseStamp(s: string): (ymd: (int, int, int))
    requires |s| == 6 && forall i :: 0 <= i < 6 ==> IsDigit(s[i])
  {
    (Parse2(s[0..2]), Parse2(s[2..4]) - 1, Parse2(s[4..6]))
  }

  /** The stamp keeps the two-digit year, the month and the day. */
  lemma DateStampRoundTrip(now: Date)
    requires 0 <= now.year <= 9999 && 0 <= now.month0 < 12 && 1 <= now.day <= 31
    ensures ParseStamp(DateStamp(now)) == (now.year % 100, now.month0, now.day)
  {
    var s := DateStamp(now);
    assert s[0..2] == Pad2(now.year % 100);
    assert s[2..4] == Pad2(now.month0 + 1);
    assert s[4..6] == Pad2(now.day);
    Pad2RoundTrip(now.year % 100);
    Pad2RoundTrip(now.month0 + 1);
    Pad2RoundTrip(now.day);
  }

  /** `generateBookingReference()` at UTC day `now`, given the 4 random bytes. */
  function BookingReference(now: Date, bytes: seq<Byte>): (r: string)
    requires 0 <= now.year <= 9999 && 0 <= now.month0 < 12 && 1 <= now.day <= 31
    requires |bytes| == 4
  {
    "RFP-" + DateStamp(now) + "-" + Upper(NanoidOf(bytes))
  }

  /** A reference is RFP-, six digits, a dash and four of A-Z0-9: 15 characters. */
  lemma BookingReferenceFormat(now: Date, bytes: seq<Byte>)
    requires 0 <= now.year <= 9999 && 0 <= now.month0 < 12 && 1 <= now.day <= 31
    requires |bytes| == 4
    ensures var r := BookingReference(now, bytes);
      && |r| == 15
      && r[..4] == "RFP-"
      && r[4..10] == DateStamp(now)
      && (forall i :: 4 <= i < 10 ==> IsDigit(r[i]))
      && r[10] == '-'
      && r[11..] == Upper(NanoidOf(bytes))
      && (forall i :: 11 <= i < 15 ==> IsUpperAlphanumeric(r[i]))
  {
    var r := BookingReference(now, bytes);
    UpperNanoidIsUpperAlphanumeric(bytes);
    assert r[4..10] == DateStamp(now);
    assert r[11..] == Upper(NanoidOf(bytes));
    forall i | 11 <= i < 15
      ensures IsUpperAlphanumeric(r[i])
    {
      assert r[i] == r[11..][i - 11];
    }
  }
}
