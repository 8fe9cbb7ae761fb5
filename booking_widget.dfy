/**
 * The three-step booking wizard (src/components/booking/BookingWidget.tsx):
 * date, then tickets, then details. Its state is set by the calendar's and
 * the selector's callbacks, by the step indicator and by the back buttons.
 */
module BookingWidget {
  import opened Wrappers
  import opened Dates
  import opened BookingRules
  import opened BookingCheckout
  import opened BookingRecords
  import BookingCalendar
  import BookingForm

  datatype Step = DateStep | TicketsStep | DetailsStep

  /** The indicator's steps, in order. */
  const Steps: seq<Step> := [DateStep, TicketsStep, DetailsStep]

  /** `currentStepIndex`: the step's position in the indicator. */
  function StepIndex(s: Step): (i: nat)
    ensures i < |Steps| && Steps[i] == s
  {
    match s
    case DateStep => 0
    case TicketsStep => 1
    case DetailsStep => 2
  }

  /** A click on indicator button i: only an earlier step is taken. */
  function IndicatorTarget(current: Step, i: nat): Step
    requires i < |Steps|
  {
    if i < StepIndex(current) then Steps[i] else current
  }

  /** The wizard state; `selectedDate` is None while it is still the empty string. */
  class Widget {
    var step: Step
    var selectedDate: Option<Date>
    var tickets: seq<TicketSelection>
    var isWeekendRate: bool

    constructor ()
      ensures step == DateStep && selectedDate == None && tickets == [] && !isWeekendRate
    {
      step := DateStep;
      selectedDate := None;
      tickets := [];
      isWeekendRate := false;
    }

    /** `handleDateSelect`: records the date and the calendar's weekend flag, then shows the tickets step. */
    method HandleDateSelect(date: Date, isWeekend: bool)
      modifies this
      ensures step == TicketsStep && selectedDate == Some(date) && isWeekendRate == isWeekend
      ensures tickets == old(tickets)
    {
      selectedDate := Some(date);
      isWeekendRate := isWeekend;
      step := TicketsStep;
    }

    /** `handleTicketsConfirm`: records the selections, then shows the details step. */
    method HandleTicketsConfirm(selections: seq<TicketSelection>)
      modifies this
      ensures step == DetailsStep && tickets == selections
      ensures selectedDate == old(selectedDate) && isWeekendRate == old(isWeekendRate)
    {
      tickets := selections;
      step := DetailsStep;
    }

    /** A click on indicator button i. */
    method IndicatorClick(i: nat)
      requires i < |Steps|
      modifies this
      ensures step == IndicatorTarget(old(step), i)
      ensures selectedDate == old(selectedDate) && tickets == old(tickets) && isWeekendRate == old(isWeekendRate)
    {
      var currentStepIndex := StepIndex(step);
      if i < currentStepIndex {
        step := Steps[i];
      }
    }

    /** "Change date", shown on the tickets step. */
    method ChangeDate()
      requires step == TicketsStep
      modifies this
      ensures step == DateStep
      ensures selectedDate == old(selectedDate) && tickets == old(tickets) && isWeekendRate == old(isWeekendRate)
    {
      step := DateStep;
    }

    /** "Change tickets", shown on the details step. */
    method ChangeTickets()
      requires step == DetailsStep
      modifies this
      ensures step == TicketsStep
      ensures selectedDate == old(selectedDate) && tickets == old(tickets) && isWeekendRate == old(isWeekendRate)
    {
      step := TicketsStep;
    }
  }

  // ----- properties -----

  /** An indicator click never moves forward; it moves exactly to an earlier step it names. */
  lemma IndicatorOnlyBackwards(current: Step, i: nat)
    requires i < |Steps|
    ensures StepIndex(IndicatorTarget(current, i)) <= StepIndex(current)
    ensures IndicatorTarget(current, i) != current <==> i < StepIndex(current)
    ensures i < StepIndex(current) ==> StepIndex(IndicatorTarget(current, i)) == i
  {
  }

  /** From the date step the indicator goes nowhere; from the details step it reaches both earlier steps. */
  lemma IndicatorFromEnds()
    ensures forall i :: 0 <= i < |Steps| ==> IndicatorTarget(DateStep, i) == DateStep
    ensures IndicatorTarget(DetailsStep, 0) == DateStep && IndicatorTarget(DetailsStep, 1) == TicketsStep
  {
  }

  /**
   * The flag the calendar hands on is the weekday test alone. On Tuesday 4
   * August 2026, a school-holiday day, the wizard shows weekday prices while
   * the checkout charges the weekend price: two adult tickets are summarised
   * as 2 x 1000 and charged as 2 x 1400.
   */
  lemma ClientRateDisagreesOnSchoolHoliday(today: Date)
    requires Before(today, MakeDate(2026, 7, 4))
    ensures var info := BookingCalendar.DayInfoOf(2026, 7, 4, today);
      && BookingCalendar.DateClick(info, BookingCalendar.CheckFailed) == BookingCalendar.Selected(info.date, false)
      && IsWeekendPricing(info.date)
    ensures var catalog := [TicketType("adult", "Adult", 1000, 1400, 10)];
      && BookingForm.TotalAmount([TicketSelection("adult", 2)], catalog, false) == 2000
      && LinesTotal(PricedLines([TicketSelection("adult", 2)], catalog, true)) == 2800
  {
    AugustFourthWeekendPriced();
    TwoAdultsAtWeekendRate();
    var catalog := [TicketType("adult", "Adult", 1000, 1400, 10)];
    var sels := [TicketSelection("adult", 2)];
    assert Find(catalog, "adult") == Some(catalog[0]);
    assert sels[..0] == [];
    var rows := BookingForm.SelectedTickets(sels, catalog, false);
    assert rows == [BookingForm.SummaryLine("adult", 2, "Adult", 1000, 2000)];
    assert rows[..0] == [];
    var lines := [BookingTicket("adult", "Adult", 2, 1400)];
    assert lines[..0] == [];
  }

  /**
   * The calendar shows every future Monday closed, but the server opens
   * Mondays in the holidays: Monday 3 August 2026 cannot be picked although
   * the checkout would accept it.
   */
  lemma ClientClosesOpenHolidayMonday(today: Date)
    requires Before(today, MakeDate(2026, 7, 3))
    ensures BookingCalendar.DayInfoOf(2026, 7, 3, today).isClosed
    ensures !IsClosedDay(MakeDate(2026, 7, 3))
    ensures BookingCalendar.DateClick(BookingCalendar.DayInfoOf(2026, 7, 3, today), BookingCalendar.CheckFailed) == BookingCalendar.Ignored
  {
  }

  /** Christmas Day 2026 is a Friday: the calendar lets it be clicked, and only the server's check closes it. */
  lemma ClientOpensChristmas(today: Date)
    requires Before(today, MakeDate(2026, 11, 25))
    ensures !BookingCalendar.DayInfoOf(2026, 11, 25, today).isClosed
    ensures IsClosedDay(MakeDate(2026, 11, 25))
    ensures BookingCalendar.DateClick(BookingCalendar.DayInfoOf(2026, 11, 25, today), BookingCalendar.CheckFailed).Selected?
  {
  }
}
