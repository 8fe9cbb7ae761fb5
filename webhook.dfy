/**
 * The payment-provider webhook (src/app/api/webhooks/stripe/route.ts): a
 * signature gate, then a status change on the booking the event names. The
 * signature check is an oracle (`verified`), the store write may throw
 * (`storeOk`), and the confirmation emails the handler sends are appended to
 * an outbox.
 */
module Webhook {
  import opened Wrappers
  import opened Dates
  import opened BookingRecords

  datatype EventType = SessionCompleted | SessionExpired | OtherEvent(name: string)

  /** The parts of a checkout-session event the handler reads; `bookingId` is None when the metadata has none. */
  datatype Event = Event(
    kind: EventType,
    bookingId: Option<nat>,
    bookingReference: Option<string>,
    paymentIntent: Option<string>)

  datatype WebhookResponse = Rejected(status: int, error: string) | Received

  /** The booking confirmation email, with the fields the handler passes to the mailer. */
  datatype Email = Confirmation(
    customerName: string,
    customerEmail: string,
    bookingReference: string,
    date: Date,
    tickets: seq<BookingTicket>,
    totalAmount: int)

  /** The completed-session update: confirmed, with the payment intent recorded. An unknown id changes nothing. */
  function Confirm(records: map<nat, Booking>, id: nat, paymentIntent: Option<string>): map<nat, Booking> {
    if id in records then records[id := records[id].(status := Confirmed, stripePaymentIntentId := paymentIntent)]
    else records
  }

  /** The expired-session update: cancelled. An unknown id changes nothing. */
  function Cancel(records: map<nat, Booking>, id: nat): map<nat, Booking> {
    if id in records then records[id := records[id].(status := Cancelled)] else records
  }

  /** The records after a verified event; a store write that throws leaves them as they were. */
  function Next(records: map<nat, Booking>, e: Event, storeOk: bool): map<nat, Booking> {
    if !storeOk || e.bookingId.None? then records
    else match e.kind
      case SessionCompleted => Confirm(records, e.bookingId.value, e.paymentIntent)
      case SessionExpired => Cancel(records, e.bookingId.value)
      case OtherEvent(_) => records
  }

  /** The email for a booking record; the record's own reference wins over the metadata's unless it is empty. */
  function EmailOf(b: Booking, metadataReference: Option<string>): Email {
    Confirmation(b.customerName, b.customerEmail,
                 if b.bookingReference != "" then b.bookingReference else metadataReference.GetOr(""),
                 b.date, b.tickets, b.totalAmount)
  }

  /** The emails a verified event sends: one, from the updated record, for a completed session on a stored booking. */
  function EmailsFor(records: map<nat, Booking>, e: Event, storeOk: bool): seq<Email> {
    if storeOk && e.kind == SessionCompleted && e.bookingId.Some? && e.bookingId.value in records then
      [EmailOf(Confirm(records, e.bookingId.value, e.paymentIntent)[e.bookingId.value], e.bookingReference)]
    else []
  }

  /** The `stripe-signature` header is present and not empty. */
  predicate HasSignature(signature: Option<string>) {
    signature.Some? && signature.value != ""
  }

  /** The emails sent so far. */
  class Outbox {
    var sent: seq<Email>

    constructor ()
      ensures sent == []
    {
      sent := [];
    }

    method Send(m: Email)
      modifies this
      ensures sent == old(sent) + [m]
    {
      sent := sent + [m];
    }
  }

  /**
   * `POST /api/webhooks/stripe`. A missing signature header and a failed
   * verification are rejected before anything is read or written; after that
   * the answer is always `{received: true}`.
   */
  method Handle(store: BookingStore, outbox: Outbox, signature: Option<string>, verified: bool, e: Event, storeOk: bool)
    returns (resp: WebhookResponse)
    requires store.Valid()
    modifies store, outbox
    ensures store.Valid() && store.nextId == old(store.nextId)
    ensures !HasSignature(signature) ==>
      resp == Rejected(400, "Missing signature.") && store.records == old(store.records) && outbox.sent == old(outbox.sent)
    ensures HasSignature(signature) && !verified ==>
      resp == Rejected(400, "Invalid signature.") && store.records == old(store.records) && outbox.sent == old(outbox.sent)
    ensures HasSignature(signature) && verified ==>
      && resp == Received
      && store.records == Next(old(store.records), e, storeOk)
      && outbox.sent == old(outbox.sent) + EmailsFor(old(store.records), e, storeOk)
  {
    if !HasSignature(signature) {
      return Rejected(400, "Missing signature.");
    }
    if !verified {
      return Rejected(400, "Invalid signature.");
    }
    if e.kind == SessionCompleted && e.bookingId.Some? && storeOk {
      var id := e.bookingId.value;
      if id in store.records {
        store.records := Confirm(store.records, id, e.paymentIntent);
        outbox.Send(EmailOf(store.records[id], e.bookingReference));
      }
    }
    if e.kind == SessionExpired && e.bookingId.Some? && storeOk {
      var id := e.bookingId.value;
      if id in store.records {
        store.records := Cancel(store.records, id);
      }
    }
    resp := Received;
  }

  // ----- properties -----

  /** A completed session confirms the named booking and records the payment intent; every other record stays. */
  lemma ConfirmChangesOnlyThatBooking(records: map<nat, Booking>, id: nat, paymentIntent: Option<string>)
    ensures var after := Confirm(records, id, paymentIntent);
      && after.Keys == records.Keys
      && (id in records ==> after[id].status == Confirmed && after[id].stripePaymentIntentId == paymentIntent)
      && (id in records ==> after[id].(status := records[id].status, stripePaymentIntentId := records[id].stripePaymentIntentId) == records[id])
      && (forall k :: k in records && k != id ==> after[k] == records[k])
  {
  }

  /** An expired session cancels the named booking whatever its status was; every other record stays. */
  lemma CancelChangesOnlyThatBooking(records: map<nat, Booking>, id: nat)
    ensures var after := Cancel(records, id);
      && after.Keys == records.Keys
      && (id in records ==> after[id] == records[id].(status := Cancelled))
      && (forall k :: k in records && k != id ==> after[k] == records[k])
  {
  }

  /** There is no pending guard: the confirmed record does not depend on the status it had before. */
  lemma ConfirmIgnoresPriorStatus(records: map<nat, Booking>, id: nat, paymentIntent: Option<string>, prior: Status)
    requires id in records
    ensures Confirm(records[id := records[id].(status := prior)], id, paymentIntent) == Confirm(records, id, paymentIntent)
  {
    var r2 := records[id := records[id].(status := prior)];
    assert Confirm(r2, id, paymentIntent).Keys == Confirm(records, id, paymentIntent).Keys;
  }

  /** So a refunded or cancelled booking whose session completes becomes confirmed again. */
  lemma RefundedBookingReconfirmed(records: map<nat, Booking>, id: nat, paymentIntent: Option<string>)
    requires id in records && records[id].status in {Refunded, Cancelled}
    ensures Next(records, Event(SessionCompleted, Some(id), None, paymentIntent), true)[id].status == Confirmed
  {
  }

  /** Redelivering an event leaves the records as the first delivery did, and sends the same email again. */
  lemma RedeliveryIdempotent(records: map<nat, Booking>, e: Event, storeOk: bool)
    ensures Next(Next(records, e, storeOk), e, storeOk) == Next(records, e, storeOk)
    ensures EmailsFor(Next(records, e, storeOk), e, storeOk) == EmailsFor(records, e, storeOk)
  {
    if storeOk && e.bookingId.Some? {
      var id := e.bookingId.value;
      match e.kind
      case SessionCompleted =>
        var once := Confirm(records, id, e.paymentIntent);
        assert Confirm(once, id, e.paymentIntent) == once;
        if id in records {
          assert once[id] == Confirm(once, id, e.paymentIntent)[id];
        }
      case SessionExpired =>
        assert Cancel(Cancel(records, id), id) == Cancel(records, id);
      case OtherEvent(_) =>
    }
  }

  /** An event with no booking id, an event of another type, or a store write that throws changes nothing and sends nothing. */
  lemma NoBookingNoChange(records: map<nat, Booking>, e: Event, storeOk: bool)
    requires e.bookingId.None? || e.kind.OtherEvent? || !storeOk
    ensures Next(records, e, storeOk) == records && EmailsFor(records, e, storeOk) == []
  {
  }

  /** Only a completed session on a stored booking sends an email, and it goes to that booking's customer. */
  lemma EmailOnlyOnConfirmation(records: map<nat, Booking>, e: Event, storeOk: bool)
    ensures |EmailsFor(records, e, storeOk)| <= 1
    ensures EmailsFor(records, e, storeOk) != [] <==>
      storeOk && e.kind == SessionCompleted && e.bookingId.Some? && e.bookingId.value in records
    ensures EmailsFor(records, e, storeOk) != [] ==>
      EmailsFor(records, e, storeOk)[0].customerEmail == records[e.bookingId.value].customerEmail
      && EmailsFor(records, e, storeOk)[0].totalAmount == records[e.bookingId.value].totalAmount
  {
  }
}
