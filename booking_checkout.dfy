/**
 * Booking checkout (src/app/api/bookings/create-checkout/route.ts): ordered
 * validation, the pricing loop over the requested lines, then a pending
 * booking is stored before a payment session is requested. The ticket-type
 * query, the store write and the payment provider are inputs that may fail.
 */
module BookingCheckout {
  import opened Wrappers
  import opened Dates
  import opened Text
  import opened Nanoid
  import opened BookingRules
  import opened BookingRecords
  import opened Site

  datatype TicketSelection = TicketSelection(ticketTypeId: string, quantity: int)

  /** An active ticket type; maxPerBooking is 0 when unset. */
  datatype TicketType = TicketType(id: string, name: string, weekdayPrice: int, weekendPrice: int, maxPerBooking: int)

  /** The request body; a missing text field is "" and a missing ticket list is []. */
  datatype Request = Request(
    date: Option<Date>,
    tickets: seq<TicketSelection>,
    customerName: string,
    customerEmail: string,
    customerPhone: string,
    specialRequirements: string)

  /** A payment-provider line item (its description is not modelled). */
  datatype LineItem = LineItem(name: string, unitAmount: int, quantity: int)

  datatype CheckoutError =
    | MissingFields
    | PastDate
    | ClosedDay
    | CatalogUnavailable
    | InvalidTicketType(ticketTypeId: string)
    | TooMany(ticketName: string, limit: int)
    | NoTickets
    | CreateFailed
    | PaymentFailed

  function StatusOf(e: CheckoutError): int {
    match e
    case CatalogUnavailable | CreateFailed | PaymentFailed => 500
    case _ => 400
  }

  function MessageOf(e: CheckoutError): string {
    match e
    case MissingFields => "Missing required fields."
    case PastDate => "Cannot book a past date."
    case ClosedDay => "The farm is closed on this date."
    case CatalogUnavailable => "Unable to fetch ticket types. Please try again."
    case InvalidTicketType(id) => "Invalid ticket type: " + id
    case TooMany(name, limit) => "Maximum " + IntToString(limit) + " " + name + " tickets per booking."
    case NoTickets => "Please select at least one ticket."
    case CreateFailed => "Failed to create booking. Please try again."
    case PaymentFailed => "Failed to create payment session. Please try again."
  }

  datatype Priced = Priced(lineItems: seq<LineItem>, tickets: seq<BookingTicket>, totalAmount: int)

  datatype Pricing = PricingFailed(error: CheckoutError) | PricingDone(priced: Priced)

  const DefaultMaxPerBooking: int := 10
  const ProductSuffix := " - Rutland Farm Park"

  /** `ticketType.maxPerBooking || 10`. */
  function Limit(t: TicketType): int {
    if t.maxPerBooking != 0 then t.maxPerBooking else DefaultMaxPerBooking
  }

  /** `ticketTypes.find(t => t.id === id)`: the first type with that id. */
  function Find(catalog: seq<TicketType>, id: string): (r: Option<TicketType>)
    ensures r.Some? ==> r.value in catalog && r.value.id == id
    ensures r.None? ==> forall t :: t in catalog ==> t.id != id
  {
    if catalog == [] then None
    else if catalog[0].id == id then Some(catalog[0])
    else Find(catalog[1..], id)
  }

  function UnitPrice(t: TicketType, weekend: bool): int {
    if weekend then t.weekendPrice else t.weekdayPrice
  }

  /** The rejection one requested line causes, if any; lines with quantity <= 0 are skipped. */
  function LineError(sel: TicketSelection, catalog: seq<TicketType>): Option<CheckoutError> {
    if sel.quantity <= 0 then None
    else match Find(catalog, sel.ticketTypeId)
      case None => Some(InvalidTicketType(sel.ticketTypeId))
      case Some(t) => if sel.quantity > Limit(t) then Some(TooMany(t.name, Limit(t))) else None
  }

  /** The first rejection among the requested lines, scanning in request order. */
  function PricingError(sels: seq<TicketSelection>, catalog: seq<TicketType>): Option<CheckoutError> {
    if sels == [] then None
    else
      var e := PricingError(sels[..|sels| - 1], catalog);
      if e.Some? then e else LineError(sels[|sels| - 1], catalog)
  }

  /** The stored line for one requested line of a known type. */
  function StoredLine(t: TicketType, quantity: int, weekend: bool): BookingTicket {
    BookingTicket(t.id, t.name, quantity, UnitPrice(t, weekend))
  }

  /** The stored lines: one per line with quantity > 0 and a known type, in request order. */
  function PricedLines(sels: seq<TicketSelection>, catalog: seq<TicketType>, weekend: bool): seq<BookingTicket> {
    if sels == [] then []
    else
      var last := sels[|sels| - 1];
      var found := Find(catalog, last.ticketTypeId);
      PricedLines(sels[..|sels| - 1], catalog, weekend) +
      (if last.quantity > 0 && found.Some? then [StoredLine(found.value, last.quantity, weekend)] else [])
  }

  /** The payment line item that accompanies each stored line. */
  function LineItemsOf(tickets: seq<BookingTicket>): (items: seq<LineItem>)
    ensures |items| == |tickets|
    ensures forall k :: 0 <= k < |tickets| ==>
      items[k] == LineItem(tickets[k].ticketName + ProductSuffix, tickets[k].unitPrice, tickets[k].quantity)
  {
    if tickets == [] then []
    else
      var last := tickets[|tickets| - 1];
      LineItemsOf(tickets[..|tickets| - 1]) + [LineItem(last.ticketName + ProductSuffix, last.unitPrice, last.quantity)]
  }

  /** The pricing loop: pushes `lineItems` and `bookingTickets` and adds up `totalAmount`. */
  method PriceSelections(selections: seq<TicketSelection>, ticketTypes: seq<TicketType>, useWeekendPrice: bool)
    returns (r: Pricing)
    ensures PricingError(selections, ticketTypes).Some? ==>
      r == PricingFailed(PricingError(selections, ticketTypes).value)
    ensures PricingError(selections, ticketTypes).None? ==>
      var lines := PricedLines(selections, ticketTypes, useWeekendPrice);
      r == PricingDone(Priced(LineItemsOf(lines), lines, LinesTotal(lines)))
  {
    var lineItems: seq<LineItem> := [];
    var bookingTickets: seq<BookingTicket> := [];
    var totalAmount := 0;
    for i := 0 to |selections|
      invariant PricingError(selections[..i], ticketTypes).None?
      invariant bookingTickets == PricedLines(selections[..i], ticketTypes, useWeekendPrice)
      invariant lineItems == LineItemsOf(bookingTickets)
      invariant totalAmount == LinesTotal(bookingTickets)
    {
      var selection := selections[i];
      assert selections[..i + 1][..i] == selections[..i];
      assert selections[..i + 1][i] == selection;
      if selection.quantity <= 0 {
        continue;
      }
      var ticketType := Find(ticketTypes, selection.ticketTypeId);
      if ticketType.None? {
        PricingErrorPrefix(selections, ticketTypes, i + 1);
        return PricingFailed(InvalidTicketType(selection.ticketTypeId));
      }
      var t := ticketType.value;
      if selection.quantity > Limit(t) {
        PricingErrorPrefix(selections, ticketTypes, i + 1);
        return PricingFailed(TooMany(t.name, Limit(t)));
      }
      var unitPrice := if useWeekendPrice then t.weekendPrice else t.weekdayPrice;
      var subtotal := unitPrice * selection.quantity;
      totalAmount := totalAmount + subtotal;
      lineItems := lineItems + [LineItem(t.name + ProductSuffix, unitPrice, selection.quantity)];
      bookingTickets := bookingTickets + [BookingTicket(t.id, t.name, selection.quantity, unitPrice)];
      assert bookingTickets[..|bookingTickets| - 1] == PricedLines(selections[..i], ticketTypes, useWeekendPrice);
    }
    assert selections[..|selections|] == selections;
    return PricingDone(Priced(lineItems, bookingTickets, totalAmount));
  }

  /** A rejection found in a prefix is the rejection of the whole request. */
  lemma {:induction false} PricingErrorPrefix(sels: seq<TicketSelection>, catalog: seq<TicketType>, k: nat)
    requires k <= |sels|
    requires PricingError(sels[..k], catalog).Some?
    ensures PricingError(sels, catalog) == PricingError(sels[..k], catalog)
    decreases |sels| - k
  {
    if k < |sels| {
      var s' := sels[..|sels| - 1];
      assert s'[..k] == sels[..k];
      PricingErrorPrefix(s', catalog, k);
    } else {
      assert sels[..k] == sels;
    }
  }

  // ----- the whole request -----

  /** Every check the handler makes before it writes anything, in its order. */
  function Prepare(req: Request, today: Date, catalog: Option<seq<TicketType>>): Pricing {
    if req.date.None? || req.tickets == [] || req.customerName == "" || req.customerEmail == "" then
      PricingFailed(MissingFields)
    else if Before(req.date.value, today) then PricingFailed(PastDate)
    else if IsClosedDay(req.date.value) then PricingFailed(ClosedDay)
    else if catalog.None? then PricingFailed(CatalogUnavailable)
    else if PricingError(req.tickets, catalog.value).Some? then
      PricingFailed(PricingError(req.tickets, catalog.value).value)
    else
      var lines := PricedLines(req.tickets, catalog.value, IsWeekendPricing(req.date.value));
      if lines == [] then PricingFailed(NoTickets)
      else PricingDone(Priced(LineItemsOf(lines), lines, LinesTotal(lines)))
  }

  /** The pending record the handler stores. */
  function PendingBooking(req: Request, priced: Priced, reference: string): Booking
    requires req.date.Some?
  {
    Booking(reference, req.date.value, priced.tickets, priced.totalAmount,
            req.customerName, req.customerEmail, OrNone(req.customerPhone), OrNone(req.specialRequirements),
            Pending, None, None)
  }

  /** What the handler asks the payment provider for. */
  datatype PaymentRequest = PaymentRequest(
    lineItems: seq<LineItem>,
    customerEmail: string,
    successUrl: string,
    cancelUrl: string,
    bookingId: nat,
    bookingReference: string)

  /** The provider's answer when a session is created. */
  datatype Session = Session(id: string, url: string)

  datatype Response =
    | Failure(status: int, error: string)
    | Success(sessionId: string, url: string, bookingReference: string)

  function FailureOf(e: CheckoutError): Response {
    Failure(StatusOf(e), MessageOf(e))
  }

  /**
   * The POST handler. `siteEnv` is the site-address setting, `today` and `now` come from the clock, `refBytes` are the
   * reference's random bytes; `createOk`, `session` and `attachOk` say how the
   * store write, the provider and the session-id update turn out. `payment` is
   * the session request sent to the provider, if one was sent.
   */
  method InitiateBooking(
    store: BookingStore, req: Request, siteEnv: string, today: Date, catalog: Option<seq<TicketType>>,
    now: Date, refBytes: seq<Byte>, createOk: bool, session: Option<Session>, attachOk: bool)
    returns (resp: Response, payment: Option<PaymentRequest>)
    requires store.Valid()
    requires 0 <= now.year <= 9999 && 0 <= now.month0 < 12 && 1 <= now.day <= 31 && |refBytes| == 4
    modifies store
    ensures store.Valid()
    ensures Prepare(req, today, catalog).PricingFailed? ==>
      && resp == FailureOf(Prepare(req, today, catalog).error)
      && payment.None? && store.records == old(store.records)
    ensures Prepare(req, today, catalog).PricingDone? && !createOk ==>
      && resp == FailureOf(CreateFailed)
      && payment.None? && store.records == old(store.records)
    ensures Prepare(req, today, catalog).PricingDone? && createOk ==>
      var priced := Prepare(req, today, catalog).priced;
      var reference := BookingReference(now, refBytes);
      var id := old(store.nextId);
      var siteUrl := SiteUrl(siteEnv);
      var pending := PendingBooking(req, priced, reference);
      && id >= 1 && id !in old(store.records)
      && payment == Some(PaymentRequest(priced.lineItems, req.customerEmail,
                                        siteUrl + "/booking/confirmation?ref=" + reference,
                                        siteUrl + "/booking?cancelled=true", id, reference))
      && (session.None? ==>
            resp == FailureOf(PaymentFailed) && store.records == old(store.records)[id := pending])
      && (session.Some? ==>
            && resp == Success(session.value.id, session.value.url, reference)
            && store.records == old(store.records)[id := if attachOk
                                                         then pending.(stripeSessionId := Some(session.value.id))
                                                         else pending])
  {
    var pricing := ValidateAndPrice(req, today, catalog);
    if pricing.PricingFailed? {
      return FailureOf(pricing.error), None;
    }
    var bookingReference := BookingReference(now, refBytes);
    var priced := pricing.priced;
    if !createOk {
      return FailureOf(CreateFailed), None;
    }
    var bookingId := store.Create(PendingBooking(req, priced, bookingReference));
    var siteUrl := SiteUrl(siteEnv);
    payment := Some(PaymentRequest(priced.lineItems, req.customerEmail,
                                   siteUrl + "/booking/confirmation?ref=" + bookingReference,
                                   siteUrl + "/booking?cancelled=true", bookingId, bookingReference));
    if session.None? {
      return FailureOf(PaymentFailed), payment;
    }
    if bookingId != 0 && attachOk {
      store.SetSessionId(bookingId, session.value.id);
    }
    resp := Success(session.value.id, session.value.url, bookingReference);
  }

  /** The handler up to the store write: validation in order, then the pricing loop. */
  method ValidateAndPrice(req: Request, today: Date, catalog: Option<seq<TicketType>>) returns (r: Pricing)
    ensures r == Prepare(req, today, catalog)
  {
    if req.date.None? || |req.tickets| == 0 || req.customerName == "" || req.customerEmail == "" {
      return PricingFailed(MissingFields);
    }
    var selectedDate := req.date.value;
    if Before(selectedDate, today) {
      return PricingFailed(PastDate);
    }
    if IsClosedDay(selectedDate) {
      return PricingFailed(ClosedDay);
    }
    if catalog.None? {
      return PricingFailed(CatalogUnavailable);
    }
    var useWeekendPrice := IsWeekendPricing(selectedDate);
    r := PriceSelections(req.tickets, catalog.value, useWeekendPrice);
    if r.PricingDone? && |r.priced.lineItems| == 0 {
      r := PricingFailed(NoTickets);
    }
  }

  // ----- properties -----

  /** Rejections found in the first part of a request take precedence over the rest. */
  lemma {:induction false} PricingErrorAppend(a: seq<TicketSelection>, b: seq<TicketSelection>, catalog: seq<TicketType>)
    ensures PricingError(a + b, catalog) ==
      if PricingError(a, catalog).Some? then PricingError(a, catalog) else PricingError(b, catalog)
    decreases |b|
  {
    if b == [] {
      assert a + b == a;
    } else {
      assert (a + b)[..|a + b| - 1] == a + b[..|b| - 1];
      PricingErrorAppend(a, b[..|b| - 1], catalog);
    }
  }

  /** A line with quantity 0 is never looked up, so an unknown type there is no error. */
  lemma ZeroQuantityNeverRejected(sels: seq<TicketSelection>, id: string, catalog: seq<TicketType>)
    ensures PricingError(sels + [TicketSelection(id, 0)], catalog) == PricingError(sels, catalog)
    ensures PricedLines(sels + [TicketSelection(id, 0)], catalog, false) == PricedLines(sels, catalog, false)
  {
    var s := sels + [TicketSelection(id, 0)];
    assert s[..|s| - 1] == sels;
  }

  /** A quantity above the limit of a known type is rejected, naming the type and the limit. */
  lemma OverLimitRejected(sel: TicketSelection, catalog: seq<TicketType>, t: TicketType)
    requires Find(catalog, sel.ticketTypeId) == Some(t)
    requires sel.quantity > 0 && sel.quantity > Limit(t)
    ensures PricingError([sel], catalog) == Some(TooMany(t.name, Limit(t)))
    ensures MessageOf(TooMany(t.name, Limit(t))) ==
      "Maximum " + IntToString(Limit(t)) + " " + t.name + " tickets per booking."
  {
    assert [sel][..0] == [];
  }

  /** An unknown type with a positive quantity is rejected, naming the id. */
  lemma UnknownTypeRejected(sel: TicketSelection, catalog: seq<TicketType>)
    requires sel.quantity > 0
    requires forall t :: t in catalog ==> t.id != sel.ticketTypeId
    ensures PricingError([sel], catalog) == Some(InvalidTicketType(sel.ticketTypeId))
  {
    assert [sel][..0] == [];
  }

  /** The requested lines with a positive quantity, in request order. */
  function Positive(sels: seq<TicketSelection>): (r: seq<TicketSelection>)
    ensures forall k :: 0 <= k < |r| ==> r[k].quantity > 0
  {
    if sels == [] then []
    else Positive(sels[..|sels| - 1]) + (if sels[|sels| - 1].quantity > 0 then [sels[|sels| - 1]] else [])
  }

  /**
   * Without a rejection, the stored lines are the positive requested lines in
   * request order, each priced at its type's weekend price exactly when the
   * weekend tier applies, and within the type's limit.
   */
  lemma {:induction false} PricedLinesFollowRequest(sels: seq<TicketSelection>, catalog: seq<TicketType>, weekend: bool)
    requires PricingError(sels, catalog).None?
    ensures var lines, pos := PricedLines(sels, catalog, weekend), Positive(sels);
      && |lines| == |pos|
      && forall k :: 0 <= k < |lines| ==>
           && Find(catalog, pos[k].ticketTypeId).Some?
           && var t := Find(catalog, pos[k].ticketTypeId).value;
           && lines[k] == BookingTicket(pos[k].ticketTypeId, t.name, pos[k].quantity,
                                        if weekend then t.weekendPrice else t.weekdayPrice)
           && 0 < lines[k].quantity <= Limit(t)
  {
    if sels != [] {
      var init := sels[..|sels| - 1];
      assert PricingError(init, catalog).None?;
      PricedLinesFollowRequest(init, catalog, weekend);
    }
  }

  /** The total is the sum of the stored lines' unit price x quantity. */
  lemma {:induction false} TotalIsSumOfLines(req: Request, today: Date, catalog: Option<seq<TicketType>>)
    requires Prepare(req, today, catalog).PricingDone?
    ensures var p := Prepare(req, today, catalog).priced;
      && p.totalAmount == LinesTotal(p.tickets)
      && |p.lineItems| == |p.tickets| > 0
      && (forall k :: 0 <= k < |p.tickets| ==>
           p.lineItems[k].unitAmount == p.tickets[k].unitPrice && p.lineItems[k].quantity == p.tickets[k].quantity)
      && PendingBooking(req, p, "").status == Pending
  {
  }

  /** Missing fields are reported before any date check. */
  lemma MissingFieldsFirst(req: Request, today: Date, catalog: Option<seq<TicketType>>)
    requires req.date.None? || req.tickets == [] || req.customerName == "" || req.customerEmail == ""
    ensures Prepare(req, today, catalog) == PricingFailed(MissingFields)
  {
  }

  /** A past date is refused before the closed-day check and before the catalogue is consulted. */
  lemma PastBeforeClosed(req: Request, today: Date, catalog: Option<seq<TicketType>>)
    requires req.date.Some? && req.tickets != [] && req.customerName != "" && req.customerEmail != ""
    requires Before(req.date.value, today)
    ensures Prepare(req, today, catalog) == PricingFailed(PastDate)
    ensures Prepare(req, today, None) == Prepare(req, today, catalog)
  {
  }

  /** A closed day is refused before the catalogue is consulted. */
  lemma ClosedBeforeCatalog(req: Request, today: Date, catalog: Option<seq<TicketType>>)
    requires req.date.Some? && req.tickets != [] && req.customerName != "" && req.customerEmail != ""
    requires !Before(req.date.value, today) && IsClosedDay(req.date.value)
    ensures Prepare(req, today, catalog) == PricingFailed(ClosedDay)
  {
  }

  /** Tuesday 4 August 2026 is open and, inside the summer holidays, priced at the weekend rate. */
  lemma AugustFourthWeekendPriced()
    ensures MakeDate(2026, 7, 4).weekday == 2
    ensures IsWeekendPricing(MakeDate(2026, 7, 4)) && !IsClosedDay(MakeDate(2026, 7, 4))
  {
  }

  /** Two adult tickets at the weekend rate: one line of 2 x 1400. */
  lemma TwoAdultsAtWeekendRate()
    ensures var catalog := [TicketType("adult", "Adult", 1000, 1400, 10)];
      && PricingError([TicketSelection("adult", 2)], catalog) == None
      && PricedLines([TicketSelection("adult", 2)], catalog, true) == [BookingTicket("adult", "Adult", 2, 1400)]
  {
    var catalog := [TicketType("adult", "Adult", 1000, 1400, 10)];
    var sel := [TicketSelection("adult", 2)];
    assert Find(catalog, "adult") == Some(catalog[0]);
    assert sel[..0] == [];
    assert PricedLines(sel, catalog, true) == PricedLines([], catalog, true) + [StoredLine(catalog[0], 2, true)];
  }

  /** Two adult tickets on Tuesday 4 August 2026 cost the weekend price: 2 x 1400 = 2800. */
  lemma AugustTuesdayScenario(req: Request, today: Date)
    requires req.date == Some(MakeDate(2026, 7, 4))
    requires req.tickets == [TicketSelection("adult", 2)]
    requires req.customerName != "" && req.customerEmail != ""
    requires Before(today, MakeDate(2026, 7, 4))
    ensures var catalog := [TicketType("adult", "Adult", 1000, 1400, 10)];
      Prepare(req, today, Some(catalog)) ==
        PricingDone(Priced([LineItem("Adult" + ProductSuffix, 1400, 2)],
                           [BookingTicket("adult", "Adult", 2, 1400)], 2800))
  {
    AugustFourthWeekendPriced();
    TwoAdultsAtWeekendRate();
    var lines := [BookingTicket("adult", "Adult", 2, 1400)];
    assert lines[..0] == [];
    assert LinesTotal(lines) == 2800;
  }
}
