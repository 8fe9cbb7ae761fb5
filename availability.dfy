/**
 * The availability check (src/app/api/bookings/check-availability/route.ts):
 * past and closed days are refused first, then the confirmed visitors of the
 * day are counted against the configured daily capacity. The site-settings
 * read and the bookings query are inputs that may have failed.
 */
module Availability {
  import opened Wrappers
  import opened Dates
  import opened Text
  import opened BookingRules
  import opened BookingRecords

  /** The site-settings read: failed, or the configured capacity (0 when unset). */
  datatype SettingsRead = SettingsUnavailable | Settings(bookingCapacityPerSlot: int)

  /** The bookings query: failed, or the whole collection in store order. */
  datatype StoreRead = StoreUnavailable | Rows(bookings: seq<Booking>)

  datatype Response =
    | Error(status: int, error: string)
    | Answer(available: bool, remaining: Option<int>, capacity: Option<int>, reason: Option<string>)

  const DefaultCapacity: int := 100
  const PastReason := "Cannot book a date in the past."
  const ClosedReason := "The farm is closed on this date."
  const FullReason := "This date is fully booked."

  /** `settings.bookingCapacityPerSlot || 100`, with 100 also when the read fails. */
  function Capacity(settings: SettingsRead): (c: int)
    ensures settings.Settings? && settings.bookingCapacityPerSlot != 0 ==> c == settings.bookingCapacityPerSlot
    ensures settings.SettingsUnavailable? || settings.bookingCapacityPerSlot == 0 ==> c == DefaultCapacity
  {
    match settings
    case SettingsUnavailable => DefaultCapacity
    case Settings(v) => if v != 0 then v else DefaultCapacity
  }

  /** A ticket name denotes a family ticket when it contains "family" in any letter case. */
  predicate IsFamilyName(name: string) {
    Contains(Lower(name), "family")
  }

  /** The visitors a line stands for: 4 per family ticket, 1 per other ticket. */
  function LineVisitors(t: BookingTicket): int {
    if IsFamilyName(t.ticketName) then t.quantity * 4 else t.quantity
  }

  function TicketsVisitors(ts: seq<BookingTicket>): int {
    if ts == [] then 0 else TicketsVisitors(ts[..|ts| - 1]) + LineVisitors(ts[|ts| - 1])
  }

  function BookedVisitors(bs: seq<Booking>): int {
    if bs == [] then 0 else BookedVisitors(bs[..|bs| - 1]) + TicketsVisitors(bs[|bs| - 1].tickets)
  }

  /** The query `date equals d, status equals confirmed`: the matching records and no others. */
  function ConfirmedOn(rows: seq<Booking>, d: Date): (r: seq<Booking>)
    ensures |r| <= |rows|
    ensures forall b :: b in r ==> b in rows && SameDay(b.date, d) && b.status == Confirmed
    ensures forall b :: b in rows && SameDay(b.date, d) && b.status == Confirmed ==> b in r
  {
    if rows == [] then []
    else
      var last := rows[|rows| - 1];
      ConfirmedOn(rows[..|rows| - 1], d) + (if SameDay(last.date, d) && last.status == Confirmed then [last] else [])
  }

  /** The nested loops that add up `bookedCount`. */
  method CountBooked(docs: seq<Booking>) returns (bookedCount: int)
    ensures bookedCount == BookedVisitors(docs)
  {
    bookedCount := 0;
    for i := 0 to |docs|
      invariant bookedCount == BookedVisitors(docs[..i])
    {
      var tickets := docs[i].tickets;
      ghost var before := bookedCount;
      for j := 0 to |tickets|
        invariant bookedCount == before + TicketsVisitors(tickets[..j])
      {
        var ticket := tickets[j];
        var name := Lower(ticket.ticketName);
        var qty := ticket.quantity;
        if Contains(name, "family") {
          bookedCount := bookedCount + qty * 4;
        } else {
          bookedCount := bookedCount + qty;
        }
        assert tickets[..j + 1][..j] == tickets[..j];
      }
      assert tickets[..|tickets|] == tickets;
      assert docs[..i + 1][..i] == docs[..i];
    }
    assert docs[..|docs|] == docs;
  }

  /** The final answer from a capacity and a visitor count. */
  function Decide(capacity: int, booked: int): (r: Response)
    ensures r.Answer? && r.remaining.Some? && r.capacity == Some(capacity)
    ensures var rem := r.remaining.value;
      && rem >= 0 && rem >= capacity - booked && (rem == 0 || rem == capacity - booked)
    ensures r.available <==> r.remaining.value > 0
    ensures r.reason.Some? <==> r.remaining.value <= 0
    ensures r.reason.Some? ==> r.reason.value == FullReason
  {
    var remaining := if capacity - booked > 0 then capacity - booked else 0;
    Answer(remaining > 0, Some(remaining), Some(capacity), if remaining <= 0 then Some(FullReason) else None)
  }

  /** The POST handler, given `today` and the outcome of its two reads. */
  method CheckAvailability(date: Option<Date>, today: Date, settings: SettingsRead, store: StoreRead)
    returns (r: Response)
    ensures date.None? ==> r == Error(400, "Date is required.")
    ensures date.Some? && Before(date.value, today) ==>
      r == Answer(false, None, None, Some(PastReason))
    ensures date.Some? && !Before(date.value, today) && IsClosedDay(date.value) ==>
      r == Answer(false, None, None, Some(ClosedReason))
    ensures date.Some? && !Before(date.value, today) && !IsClosedDay(date.value) ==>
      r == Decide(Capacity(settings),
                  if store.StoreUnavailable? then 0 else BookedVisitors(ConfirmedOn(store.bookings, date.value)))
  {
    if date.None? {
      return Error(400, "Date is required.");
    }
    var selected := date.value;
    if Before(selected, today) {
      return Answer(false, None, None, Some(PastReason));
    }
    if IsClosedDay(selected) {
      return Answer(false, None, None, Some(ClosedReason));
    }
    var capacity := DefaultCapacity;
    if settings.Settings? {
      capacity := if settings.bookingCapacityPerSlot != 0 then settings.bookingCapacityPerSlot else DefaultCapacity;
    }
    var bookedCount := 0;
    if store.Rows? {
      var docs := ConfirmedOn(store.bookings, selected);
      bookedCount := CountBooked(docs);
    }
    r := Decide(capacity, bookedCount);
  }

  // ----- properties -----

  /** A configured capacity of 0 behaves exactly as a failed settings read. */
  lemma ZeroCapacityIsDefault()
    ensures Capacity(Settings(0)) == Capacity(SettingsUnavailable) == 100
  {
  }

  /** With the bookings store down nothing is counted, so any positive capacity is available. */
  lemma FailsOpen(capacity: int)
    ensures Decide(capacity, 0).available <==> capacity > 0
    ensures capacity > 0 ==> Decide(capacity, 0).remaining == Some(capacity)
  {
  }

  /** Visitor counts add up over concatenated lists of lines. */
  lemma {:induction false} TicketsVisitorsAppend(a: seq<BookingTicket>, b: seq<BookingTicket>)
    ensures TicketsVisitors(a + b) == TicketsVisitors(a) + TicketsVisitors(b)
    decreases |b|
  {
    if b == [] {
      assert a + b == a;
    } else {
      assert (a + b)[..|a + b| - 1] == a + b[..|b| - 1];
      TicketsVisitorsAppend(a, b[..|b| - 1]);
    }
  }

  /** Lines with non-negative quantities never count negatively. */
  lemma {:induction false} TicketsVisitorsNonNegative(ts: seq<BookingTicket>)
    requires forall t :: t in ts ==> t.quantity >= 0
    ensures TicketsVisitors(ts) >= 0
  {
    if ts != [] {
      assert forall t :: t in ts[..|ts| - 1] ==> t in ts;
      TicketsVisitorsNonNegative(ts[..|ts| - 1]);
    }
  }

  /** Adding a record to the store adds its visitors only if it is confirmed for that day. */
  lemma AddingRecordCounts(rows: seq<Booking>, b: Booking, d: Date)
    ensures BookedVisitors(ConfirmedOn(rows + [b], d)) ==
      BookedVisitors(ConfirmedOn(rows, d)) +
      (if SameDay(b.date, d) && b.status == Confirmed then TicketsVisitors(b.tickets) else 0)
  {
    assert (rows + [b])[..|rows + [b]| - 1] == rows;
    var base := ConfirmedOn(rows, d);
    if SameDay(b.date, d) && b.status == Confirmed {
      assert (base + [b])[..|base + [b]| - 1] == base;
    } else {
      assert base + [] == base;
    }
  }

  /** "Family" lines count 4 visitors per ticket. */
  lemma FamilyLineCountsFour(q: int)
    ensures LineVisitors(BookingTicket("family", "Family", q, 0)) == 4 * q
    ensures LineVisitors(BookingTicket("adult", "Adult", q, 0)) == q
  {
    LowerNames();
    assert OccursAt("family", "family", 0);
    ContainsIff("family", "family");
    ContainsIff("adult", "family");
  }

  /** The ticket names the count reads, lower-cased. */
  lemma LowerNames()
    ensures Lower("Family") == "family"
    ensures Lower("Adult") == "adult"
  {
    var f := Lower("Family");
    LowerChars("Family");
    assert f[0] == LowerChar('F') == 'f';
    assert f == "family";
    var a := Lower("Adult");
    LowerChars("Adult");
    assert a[0] == LowerChar('A') == 'a';
    assert a == "adult";
  }

  /** Capacity 100 with one confirmed booking of 2 Family and 3 Adult tickets leaves 89 places. */
  lemma ScenarioRemaining89(d: Date, b: Booking)
    requires b.status == Confirmed && SameDay(b.date, d)
    requires b.tickets == [BookingTicket("family", "Family", 2, 0), BookingTicket("adult", "Adult", 3, 0)]
    ensures Decide(Capacity(Settings(100)), BookedVisitors(ConfirmedOn([b], d))) ==
      Answer(true, Some(89), Some(100), None)
  {
    FamilyLineCountsFour(2);
    FamilyLineCountsFour(3);
    var first := b.tickets[..1];
    assert first == [BookingTicket("family", "Family", 2, 0)] && first[..0] == [];
    assert TicketsVisitors(first) == 8;
    assert TicketsVisitors(b.tickets) == 11;
    assert ConfirmedOn([b], d) == [b] by {
      assert [b][..0] == [];
    }
    assert [b][..0] == [];
  }
}
