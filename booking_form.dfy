/**
 * The order summary on the details step (src/components/booking/BookingForm.tsx):
 * the chosen selections joined with their ticket types and priced at the
 * rate the calendar handed on. The form submission itself is the booking
 * checkout request and is not modelled here.
 */
module BookingForm {
  import opened Wrappers
  import opened BookingCheckout
  import TicketSelector

  /** One row of the summary. */
  datatype SummaryLine = SummaryLine(ticketTypeId: string, quantity: int, name: string, unitPrice: int, subtotal: int)

  /** The row for one selection, or None (the `null` that is filtered out) when its type is unknown. */
  function SummaryOf(t: TicketSelection, types: seq<TicketType>, isWeekendRate: bool): Option<SummaryLine> {
    match Find(types, t.ticketTypeId)
    case None => None
    case Some(tt) =>
      var price := UnitPrice(tt, isWeekendRate);
      Some(SummaryLine(t.ticketTypeId, t.quantity, tt.name, price, price * t.quantity))
  }

  /** `selectedTickets`: the rows of the selections whose type is known, in selection order. */
  function SelectedTickets(tickets: seq<TicketSelection>, types: seq<TicketType>, isWeekendRate: bool): seq<SummaryLine> {
    if tickets == [] then []
    else
      var row := SummaryOf(tickets[|tickets| - 1], types, isWeekendRate);
      SelectedTickets(tickets[..|tickets| - 1], types, isWeekendRate) + (if row.Some? then [row.value] else [])
  }

  function SubtotalSum(lines: seq<SummaryLine>): int {
    if lines == [] then 0 else SubtotalSum(lines[..|lines| - 1]) + lines[|lines| - 1].subtotal
  }

  /** `totalAmount`: the sum of the rows' subtotals. */
  function TotalAmount(tickets: seq<TicketSelection>, types: seq<TicketType>, isWeekendRate: bool): int {
    SubtotalSum(SelectedTickets(tickets, types, isWeekendRate))
  }

  /** No two ticket types share an id. */
  predicate UniqueTypeIds(types: seq<TicketType>) {
    forall i, j :: 0 <= i < j < |types| ==> types[i].id != types[j].id
  }

  // ----- properties -----

  /** Every row names a known type, is priced at the weekend price exactly when the rate says so, and its subtotal is price x quantity. */
  lemma {:induction false} RowsArePriced(tickets: seq<TicketSelection>, types: seq<TicketType>, isWeekendRate: bool)
    ensures |SelectedTickets(tickets, types, isWeekendRate)| <= |tickets|
    ensures forall k :: 0 <= k < |SelectedTickets(tickets, types, isWeekendRate)| ==>
      var line := SelectedTickets(tickets, types, isWeekendRate)[k];
      && Find(types, line.ticketTypeId).Some?
      && line.name == Find(types, line.ticketTypeId).value.name
      && line.unitPrice == (if isWeekendRate then Find(types, line.ticketTypeId).value.weekendPrice
                            else Find(types, line.ticketTypeId).value.weekdayPrice)
      && line.subtotal == line.unitPrice * line.quantity
  {
    if tickets != [] {
      RowsArePriced(tickets[..|tickets| - 1], types, isWeekendRate);
    }
  }

  /** The summary keeps the order of the selections: summarising a concatenation summarises each part. */
  lemma {:induction false} SelectedTicketsAppend(a: seq<TicketSelection>, b: seq<TicketSelection>, types: seq<TicketType>, isWeekendRate: bool)
    ensures SelectedTickets(a + b, types, isWeekendRate) ==
      SelectedTickets(a, types, isWeekendRate) + SelectedTickets(b, types, isWeekendRate)
  {
    if b == [] {
      assert a + b == a;
    } else {
      assert (a + b)[..|a + b| - 1] == a + b[..|b| - 1];
      assert (a + b)[|a + b| - 1] == b[|b| - 1];
      SelectedTicketsAppend(a, b[..|b| - 1], types, isWeekendRate);
    }
  }

  /** A selection with an unknown type is dropped; a known one gives exactly one row with its id and quantity. */
  lemma SelectedTicketsOne(t: TicketSelection, types: seq<TicketType>, isWeekendRate: bool)
    ensures Find(types, t.ticketTypeId).None? ==> SelectedTickets([t], types, isWeekendRate) == []
    ensures Find(types, t.ticketTypeId).Some? ==>
      && |SelectedTickets([t], types, isWeekendRate)| == 1
      && SelectedTickets([t], types, isWeekendRate)[0].ticketTypeId == t.ticketTypeId
      && SelectedTickets([t], types, isWeekendRate)[0].quantity == t.quantity
  {
    assert [t][..0] == [];
  }

  lemma {:induction false} SubtotalSumAppend(a: seq<SummaryLine>, b: seq<SummaryLine>)
    ensures SubtotalSum(a + b) == SubtotalSum(a) + SubtotalSum(b)
  {
    if b == [] {
      assert a + b == a;
    } else {
      assert (a + b)[..|a + b| - 1] == a + b[..|b| - 1];
      SubtotalSumAppend(a, b[..|b| - 1]);
    }
  }

  /** With unique ids, looking up a type's own id finds that type. */
  lemma {:induction false} FindOwnId(types: seq<TicketType>, i: nat)
    requires UniqueTypeIds(types) && i < |types|
    ensures Find(types, types[i].id) == Some(types[i])
  {
    if i > 0 {
      assert types[0].id != types[i].id;
      var rest := types[1..];
      assert rest[i - 1] == types[i];
      assert UniqueTypeIds(rest) by {
        forall a, b | 0 <= a < b < |rest|
          ensures rest[a].id != rest[b].id
        {
          assert rest[a] == types[a + 1] && rest[b] == types[b + 1];
        }
      }
      FindOwnId(rest, i - 1);
    }
  }

  /** A single selection of a known type costs its unit price times its quantity. */
  lemma OneKnownSelectionTotal(t: TicketType, qty: int, types: seq<TicketType>, isWeekendRate: bool)
    requires Find(types, t.id) == Some(t)
    ensures SubtotalSum(SelectedTickets([TicketSelection(t.id, qty)], types, isWeekendRate)) == UnitPrice(t, isWeekendRate) * qty
  {
    var sel := [TicketSelection(t.id, qty)];
    var row := SummaryLine(t.id, qty, t.name, UnitPrice(t, isWeekendRate), UnitPrice(t, isWeekendRate) * qty);
    assert SummaryOf(sel[0], types, isWeekendRate) == Some(row);
    assert sel[..0] == [];
    var rows := SelectedTickets(sel, types, isWeekendRate);
    assert rows == SelectedTickets([], types, isWeekendRate) + [row];
    assert rows[..0] == [];
  }

  /**
   * The summary total on the details step equals the selector's total for
   * the selections it confirmed, when the type ids are unique and no quantity
   * is negative.
   */
  lemma SummaryMatchesSelector(types: seq<TicketType>, isWeekendRate: bool, q: TicketSelector.Quantities)
    requires UniqueTypeIds(types)
    requires forall id :: id in q ==> q[id] >= 0
    ensures TotalAmount(TicketSelector.Selections(types, q), types, isWeekendRate) ==
            TicketSelector.TotalAmount(types, isWeekendRate, q)
  {
    SummaryMatchesOnPrefix(types, isWeekendRate, q, |types|);
    assert types[..|types|] == types;
  }

  lemma {:induction false} SummaryMatchesOnPrefix(types: seq<TicketType>, isWeekendRate: bool, q: TicketSelector.Quantities, n: nat)
    requires UniqueTypeIds(types) && n <= |types|
    requires forall id :: id in q ==> q[id] >= 0
    ensures TotalAmount(TicketSelector.Selections(types[..n], q), types, isWeekendRate) ==
            TicketSelector.TotalAmount(types[..n], isWeekendRate, q)
  {
    if n > 0 {
      SummaryMatchesOnPrefix(types, isWeekendRate, q, n - 1);
      SummaryStep(types, isWeekendRate, q, n);
      assert types[..n][..n - 1] == types[..n - 1];
    }
  }

  /** Extending the type prefix by one type adds that type's price x quantity to the summary total. */
  lemma SummaryStep(types: seq<TicketType>, isWeekendRate: bool, q: TicketSelector.Quantities, n: nat)
    requires UniqueTypeIds(types) && 0 < n <= |types|
    requires forall id :: id in q ==> q[id] >= 0
    ensures TotalAmount(TicketSelector.Selections(types[..n], q), types, isWeekendRate) ==
            TotalAmount(TicketSelector.Selections(types[..n - 1], q), types, isWeekendRate)
            + UnitPrice(types[n - 1], isWeekendRate) * TicketSelector.Qty(q, types[n - 1].id)
  {
    var prefix, t := types[..n - 1], types[n - 1];
    assert types[..n][..n - 1] == prefix && types[..n][n - 1] == t;
    var qty := TicketSelector.Qty(q, t.id);
    var own := if qty > 0 then [TicketSelection(t.id, qty)] else [];
    var before := TicketSelector.Selections(prefix, q);
    assert TicketSelector.Selections(types[..n], q) == before + own;
    SelectedTicketsAppend(before, own, types, isWeekendRate);
    SubtotalSumAppend(SelectedTickets(before, types, isWeekendRate), SelectedTickets(own, types, isWeekendRate));
    if qty > 0 {
      FindOwnId(types, n - 1);
      OneKnownSelectionTotal(t, qty, types, isWeekendRate);
    } else {
      assert qty == 0;
    }
  }
}
