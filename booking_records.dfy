/**
 * The stored booking records (the CMS `bookings` collection) and the store
 * that holds them, a map from record id to record. Absent optional text
 * fields are `None`; an absent ticket name or quantity is represented by its
 * falsy equivalent ("" or 0), which every reader of those fields treats alike.
 */
module BookingRecords {
  import opened Wrappers
  import opened Dates

  datatype Status = Pending | Confirmed | Cancelled | Refunded

  /** One ticket line, with the ticket type's name and price copied at booking time. */
  datatype BookingTicket = BookingTicket(ticketType: string, ticketName: string, quantity: int, unitPrice: int)

  datatype Booking = Booking(
    bookingReference: string,
    date: Date,
    tickets: seq<BookingTicket>,
    totalAmount: int,
    customerName: string,
    customerEmail: string,
    customerPhone: Option<string>,
    specialRequirements: Option<string>,
    status: Status,
    stripeSessionId: Option<string>,
    stripePaymentIntentId: Option<string>)

  /** The sum of unitPrice x quantity over the lines. */
  function LinesTotal(tickets: seq<BookingTicket>): int {
    if tickets == [] then 0
    else LinesTotal(tickets[..|tickets| - 1]) + tickets[|tickets| - 1].unitPrice * tickets[|tickets| - 1].quantity
  }

  /** Two dates name the same calendar day. */
  predicate SameDay(a: Date, b: Date) {
    a.year == b.year && a.month0 == b.month0 && a.day == b.day
  }

  /**
   * The booking collection: records by id. Ids are handed out in increasing
   * order from 1, so no stored record has the falsy id 0.
   */
  class BookingStore {
    var records: map<nat, Booking>
    var nextId: nat

    ghost predicate Valid()
      reads this
    {
      && 1 <= nextId
      && forall id :: id in records ==> 1 <= id < nextId
    }

    constructor ()
      ensures Valid() && records == map[]
    {
      records := map[];
      nextId := 1;
    }

    /** `payload.create`: stores `b` under a fresh id. */
    method Create(b: Booking) returns (id: nat)
      requires Valid()
      modifies this
      ensures Valid()
      ensures id !in old(records) && records == old(records)[id := b]
      ensures id == old(nextId) && nextId == old(nextId) + 1 && id >= 1
    {
      id := nextId;
      records := records[id := b];
      nextId := nextId + 1;
    }

    /** `payload.update` of the Stripe session id; a missing record is left alone. */
    method SetSessionId(id: nat, sessionId: string)
      requires Valid()
      modifies this
      ensures Valid()
      ensures id in old(records) ==>
        records == old(records)[id := old(records)[id].(stripeSessionId := Some(sessionId))]
      ensures id !in old(records) ==> records == old(records)
      ensures nextId == old(nextId)
    {
      if id in records {
        records := records[id := records[id].(stripeSessionId := Some(sessionId))];
      }
    }
  }
}
