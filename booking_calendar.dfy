/**
 * The date picker (src/components/booking/BookingCalendar.tsx): a month
 * grid starting on Monday, month navigation, and the click handler that asks
 * the availability endpoint before handing a date on. The clock (`today`)
 * and the endpoint's reply are inputs.
 */
module BookingCalendar {
  import opened Wrappers
  import opened Dates

  predicate IsWeekendDay(d: Date) { d.weekday == Sunday || d.weekday == Saturday }
  predicate IsMonday(d: Date) { d.weekday == Monday }

  /** The grid column (0 = Monday ... 6 = Sunday) of a day with this `getDay` weekday. */
  function StartOffset(firstWeekday: int): (offset: int)
    requires 0 <= firstWeekday < 7
    ensures 0 <= offset < 7
    ensures (offset + 1) % 7 == firstWeekday
  {
    if firstWeekday == 0 then 6 else firstWeekday - 1
  }

  /** One cell of the grid. */
  datatype DayInfo = DayInfo(day: int, date: Date, isPast: bool, isClosed: bool, isWeekend: bool)

  /** The cell for day d: every future Monday is shown closed. */
  function DayInfoOf(year: int, month0: int, d: int, today: Date): (info: DayInfo)
    requires 0 <= month0 < 12 && 1 <= d <= DaysInMonth(year, month0)
  {
    var date := MakeDate(year, month0, d);
    var isPast := Before(date, today);
    DayInfo(d, date, isPast, IsMonday(date) && !isPast, IsWeekendDay(date))
  }

  /** The `days` loop: one cell per day of the month, in order. */
  method Days(year: int, month0: int, today: Date) returns (result: seq<DayInfo>)
    requires 0 <= month0 < 12
    ensures |result| == DaysInMonth(year, month0)
    ensures forall k :: 0 <= k < |result| ==> result[k] == DayInfoOf(year, month0, k + 1, today)
  {
    var daysInMonth := DaysInMonth(year, month0);
    result := [];
    var d := 1;
    while d <= daysInMonth
      invariant 1 <= d <= daysInMonth + 1
      invariant |result| == d - 1
      invariant forall k :: 0 <= k < |result| ==> result[k] == DayInfoOf(year, month0, k + 1, today)
    {
      var date := MakeDate(year, month0, d);
      var isPast := Before(date, today);
      var isClosed := IsMonday(date) && !isPast;
      var isWeekend := IsWeekendDay(date);
      result := result + [DayInfo(d, date, isPast, isClosed, isWeekend)];
      d := d + 1;
    }
  }

  /** `nextMonth`: December wraps to January of the next year. */
  function NextMonth(year: int, month0: int): (int, int) {
    if month0 == 11 then (year + 1, 0) else (year, month0 + 1)
  }

  /** `prevMonth`: January wraps to December of the previous year. */
  function PrevMonth(year: int, month0: int): (int, int) {
    if month0 == 0 then (year - 1, 11) else (year, month0 - 1)
  }

  /** `canGoPrev`: the 1st of the shown month lies after today. */
  predicate CanGoPrev(year: int, month0: int, today: Date)
    requires 0 <= month0 < 12
  {
    Before(today, MakeDate(year, month0, 1))
  }

  /** The endpoint's reply: its `available` and `reason` fields, or a request that threw. */
  datatype AvailabilityReply = Reply(available: Option<bool>, reason: Option<string>) | CheckFailed

  /** What a click on a cell does: nothing, an alert, or the date handed on with its weekend flag. */
  datatype ClickOutcome = Ignored | Refused(message: string) | Selected(date: Date, isWeekend: bool)

  const NotAvailable := "This date is not available."

  /** `handleDateClick`: past and closed cells ignore the click; only an explicit `available: false` refuses. */
  function DateClick(info: DayInfo, reply: AvailabilityReply): ClickOutcome {
    if info.isPast || info.isClosed then Ignored
    else match reply
      case CheckFailed => Selected(info.date, info.isWeekend)
      case Reply(available, reason) =>
        if available == Some(false) then
          Refused(if reason.Some? && reason.value != "" then reason.value else NotAvailable)
        else Selected(info.date, info.isWeekend)
  }

  /** The shown month. */
  class Calendar {
    const today: Date
    var currentMonth: int
    var currentYear: int

    ghost predicate Valid()
      reads this
    {
      0 <= currentMonth < 12
    }

    /** The calendar opens on today's month. */
    constructor (today: Date)
      requires Dates.Valid(today)
      ensures this.today == today && currentMonth == today.month0 && currentYear == today.year
      ensures Valid()
    {
      this.today := today;
      currentMonth := today.month0;
      currentYear := today.year;
    }

    method GoNext()
      requires Valid()
      modifies this
      ensures Valid()
      ensures (currentYear, currentMonth) == NextMonth(old(currentYear), old(currentMonth))
    {
      if currentMonth == 11 {
        currentMonth := 0;
        currentYear := currentYear + 1;
      } else {
        currentMonth := currentMonth + 1;
      }
    }

    method GoPrev()
      requires Valid()
      modifies this
      ensures Valid()
      ensures (currentYear, currentMonth) == PrevMonth(old(currentYear), old(currentMonth))
    {
      if currentMonth == 0 {
        currentMonth := 11;
        currentYear := currentYear - 1;
      } else {
        currentMonth := currentMonth - 1;
      }
    }
  }

  // ----- properties -----

  /** Inside a month the weekday of day d is d - 1 days after the weekday of the 1st. */
  lemma DayOfWeekFromFirst(year: int, month0: int, d: int)
    requires 0 <= month0 < 12 && 1 <= d
    ensures DayOfWeek(year, month0, d) == (DayOfWeek(year, month0, 1) + d - 1) % 7
  {
    var y := if month0 < 2 then year - 1 else year;
    var c := y + y / 4 - y / 100 + y / 400 + [0, 3, 2, 5, 0, 3, 5, 1, 4, 6, 2, 4][month0];
    assert DayOfWeek(year, month0, d) == (c + d) % 7;
    assert DayOfWeek(year, month0, 1) == (c + 1) % 7;
    ModShift(c + 1, d - 1);
  }

  /** Adding to a remainder modulo 7 is adding before taking it. */
  lemma ModShift(a: int, b: int)
    ensures (a % 7 + b) % 7 == (a + b) % 7
  {
    var q := a / 7;
    assert a == 7 * q + a % 7;
    assert a % 7 + b == (a + b) - 7 * q;
  }

  /** Each day lands in the column of its own weekday, counting from Monday, once the grid is shifted by the start offset. */
  lemma GridColumnIsWeekday(year: int, month0: int, d: int)
    requires 0 <= month0 < 12 && 1 <= d <= DaysInMonth(year, month0)
    ensures (StartOffset(DayOfWeek(year, month0, 1)) + d - 1) % 7 == StartOffset(DayOfWeek(year, month0, d))
  {
    DayOfWeekFromFirst(year, month0, d);
  }

  /** The cells are numbered 1..daysInMonth, are real dates of the shown month, and carry the flags of their weekday. */
  lemma DayCells(year: int, month0: int, d: int, today: Date)
    requires 0 <= month0 < 12 && 1 <= d <= DaysInMonth(year, month0)
    ensures var info := DayInfoOf(year, month0, d, today);
      && info.day == d
      && Dates.Valid(info.date) && info.date.year == year && info.date.month0 == month0 && info.date.day == d
      && (info.isClosed <==> info.date.weekday == Monday && !info.isPast)
      && (info.isWeekend <==> info.date.weekday in {Sunday, Saturday})
      && (info.isPast <==> Before(info.date, today))
  {
  }

  /** nextMonth and prevMonth keep the month in 0..11, wrap at the year's ends, and undo each other. */
  lemma MonthNavigation(year: int, month0: int)
    requires 0 <= month0 < 12
    ensures 0 <= NextMonth(year, month0).1 < 12 && 0 <= PrevMonth(year, month0).1 < 12
    ensures month0 == 11 <==> NextMonth(year, month0) == (year + 1, 0)
    ensures month0 == 0 <==> PrevMonth(year, month0) == (year - 1, 11)
    ensures PrevMonth(NextMonth(year, month0).0, NextMonth(year, month0).1) == (year, month0)
    ensures NextMonth(PrevMonth(year, month0).0, PrevMonth(year, month0).1) == (year, month0)
  {
  }

  /** The back arrow is enabled exactly on months after today's, so it is disabled on the month the calendar opens on. */
  lemma CanGoPrevIff(year: int, month0: int, today: Date)
    requires 0 <= month0 < 12 && Dates.Valid(today)
    ensures CanGoPrev(year, month0, today) <==>
      today.year < year || (today.year == year && today.month0 < month0)
    ensures !CanGoPrev(today.year, today.month0, today)
  {
  }

  /** A past or closed cell ignores the click; any other is selected unless the endpoint answers `available: false`. */
  lemma DateClickOutcomes(info: DayInfo, reply: AvailabilityReply)
    ensures DateClick(info, reply) == Ignored <==> info.isPast || info.isClosed
    ensures DateClick(info, reply).Selected? <==>
      !info.isPast && !info.isClosed && !(reply.Reply? && reply.available == Some(false))
    ensures DateClick(info, reply).Selected? ==>
      DateClick(info, reply).date == info.date && DateClick(info, reply).isWeekend == info.isWeekend
    ensures DateClick(info, reply).Refused? ==> DateClick(info, reply).message != ""
  {
  }
}
