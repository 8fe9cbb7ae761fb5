/**
 * The ticket-quantity picker (src/components/booking/TicketSelector.tsx): a
 * record of quantities keyed by ticket-type id, changed one step at a time by
 * the minus and plus buttons, and the totals and selections derived from it.
 */
module TicketSelector {
  import opened BookingCheckout

  /** The `quantities` record. */
  type Quantities = map<string, int>

  /** `quantities[id] || 0`. */
  function Qty(q: Quantities, id: string): int {
    if id in q then q[id] else 0
  }

  function Min(a: int, b: int): int { if a <= b then a else b }
  function Max(a: int, b: int): int { if a >= b then a else b }

  /** Some ticket type has this id. */
  predicate IsTypeId(types: seq<TicketType>, id: string) {
    exists i :: 0 <= i < |types| && types[i].id == id
  }

  /** The record the selector starts from: a 0 for every ticket type's id. */
  function Initial(types: seq<TicketType>): (q: Quantities)
    ensures forall id :: id in q <==> IsTypeId(types, id)
    ensures forall id :: id in q ==> q[id] == 0
  {
    if types == [] then map[]
    else
      var prefix := types[..|types| - 1];
      var r := Initial(prefix)[types[|types| - 1].id := 0];
      assert forall id :: IsTypeId(types, id) <==> IsTypeId(prefix, id) || id == types[|types| - 1].id by {
        forall id | IsTypeId(types, id)
          ensures IsTypeId(prefix, id) || id == types[|types| - 1].id
        {
          var i :| 0 <= i < |types| && types[i].id == id;
          if i < |types| - 1 {
            assert prefix[i] == types[i];
          }
        }
        forall id | IsTypeId(prefix, id)
          ensures IsTypeId(types, id)
        {
          var i :| 0 <= i < |prefix| && prefix[i].id == id;
          assert types[i] == prefix[i];
        }
      }
      r
  }

  /** `updateQuantity(id, delta)`: the type's quantity moves by delta, clamped to 0..maxPerBooking; an unknown id changes nothing. */
  function Stepped(q: Quantities, types: seq<TicketType>, id: string, delta: int): Quantities {
    match Find(types, id)
    case None => q
    case Some(t) => q[id := Max(0, Min(t.maxPerBooking, Qty(q, id) + delta))]
  }

  /** `totalAmount`: each type's price at the shown rate times its quantity, over the type list. */
  function TotalAmount(types: seq<TicketType>, isWeekendRate: bool, q: Quantities): int {
    if types == [] then 0
    else
      var last := types[|types| - 1];
      TotalAmount(types[..|types| - 1], isWeekendRate, q) + UnitPrice(last, isWeekendRate) * Qty(q, last.id)
  }

  /** The sum of the quantities stored under `keys`. */
  function SumQty(keys: seq<string>, q: Quantities): int {
    if keys == [] then 0 else SumQty(keys[..|keys| - 1], q) + Qty(q, keys[|keys| - 1])
  }

  /**
   * The keys of the record, each type id exactly once. The order is the
   * model's own; the sum over them does not depend on it.
   */
  function KeyOrder(types: seq<TicketType>): (keys: seq<string>)
    ensures forall id :: id in keys <==> IsTypeId(types, id)
    ensures forall i, j :: 0 <= i < j < |keys| ==> keys[i] != keys[j]
  {
    if types == [] then []
    else
      var prefix := types[..|types| - 1];
      var last := types[|types| - 1].id;
      var prev := KeyOrder(prefix);
      assert forall id :: IsTypeId(types, id) <==> IsTypeId(prefix, id) || id == last by {
        forall id | IsTypeId(types, id)
          ensures IsTypeId(prefix, id) || id == last
        {
          var i :| 0 <= i < |types| && types[i].id == id;
          if i < |types| - 1 {
            assert prefix[i] == types[i];
          }
        }
        forall id | IsTypeId(prefix, id)
          ensures IsTypeId(types, id)
        {
          var i :| 0 <= i < |prefix| && prefix[i].id == id;
          assert types[i] == prefix[i];
        }
      }
      if last in prev then prev else prev + [last]
  }

  /** `totalTickets`: the sum of `Object.values(quantities)`. */
  function TotalTickets(types: seq<TicketType>, q: Quantities): int {
    SumQty(KeyOrder(types), q)
  }

  /** `handleConfirm`: one selection per type with a positive quantity, in type order. */
  function Selections(types: seq<TicketType>, q: Quantities): seq<TicketSelection> {
    if types == [] then []
    else
      var last := types[|types| - 1];
      Selections(types[..|types| - 1], q) + (if Qty(q, last.id) > 0 then [TicketSelection(last.id, Qty(q, last.id))] else [])
  }

  /** The Continue button is disabled when no ticket is selected. */
  predicate ConfirmDisabled(types: seq<TicketType>, q: Quantities) {
    TotalTickets(types, q) == 0
  }

  /** The selector's state for one list of ticket types and one rate. */
  class Selector {
    const ticketTypes: seq<TicketType>
    const isWeekendRate: bool
    var quantities: Quantities

    /** The record holds exactly the type ids, none of them negative. */
    ghost predicate Valid()
      reads this
    {
      && (forall id :: id in quantities <==> IsTypeId(ticketTypes, id))
      && (forall id :: id in quantities ==> quantities[id] >= 0)
    }

    /** The `useState` initialiser: `initial[t.id] = 0` for each type in turn. */
    constructor (ticketTypes: seq<TicketType>, isWeekendRate: bool)
      ensures this.ticketTypes == ticketTypes && this.isWeekendRate == isWeekendRate
      ensures quantities == Initial(ticketTypes)
      ensures Valid()
    {
      this.ticketTypes := ticketTypes;
      this.isWeekendRate := isWeekendRate;
      var initial: Quantities := map[];
      for i := 0 to |ticketTypes|
        invariant initial == Initial(ticketTypes[..i])
      {
        assert ticketTypes[..i + 1][..i] == ticketTypes[..i];
        initial := initial[ticketTypes[i].id := 0];
      }
      assert ticketTypes[..|ticketTypes|] == ticketTypes;
      quantities := initial;
    }

    method UpdateQuantity(id: string, delta: int)
      requires Valid()
      modifies this
      ensures Valid()
      ensures quantities == Stepped(old(quantities), ticketTypes, id, delta)
    {
      match Find(ticketTypes, id)
      case None =>
      case Some(t) =>
        assert IsTypeId(ticketTypes, id) by {
          var i := FindIndex(ticketTypes, id);
        }
        quantities := quantities[id := Max(0, Min(t.maxPerBooking, Qty(quantities, id) + delta))];
    }
  }

  // ----- properties -----

  /** A type that `Find` returns sits at some index of the list. */
  lemma {:induction false} FindIndex(types: seq<TicketType>, id: string) returns (i: nat)
    requires Find(types, id).Some?
    ensures i < |types| && types[i] == Find(types, id).value && types[i].id == id
  {
    if types[0].id == id {
      i := 0;
    } else {
      var j := FindIndex(types[1..], id);
      i := j + 1;
    }
  }

  /** A fresh selector selects nothing: no tickets counted, nothing to confirm, nothing to pay. */
  lemma InitialSelectsNothing(types: seq<TicketType>, isWeekendRate: bool)
    ensures TotalTickets(types, Initial(types)) == 0
    ensures Selections(types, Initial(types)) == []
    ensures TotalAmount(types, isWeekendRate, Initial(types)) == 0
  {
    ZeroTickets(KeyOrder(types), Initial(types));
    ZeroSelections(types, Initial(types), isWeekendRate);
  }

  /** All-zero quantities add up to zero tickets. */
  lemma {:induction false} ZeroTickets(keys: seq<string>, q: Quantities)
    requires forall id :: id in q ==> q[id] == 0
    ensures SumQty(keys, q) == 0
  {
    if keys != [] {
      ZeroTickets(keys[..|keys| - 1], q);
    }
  }

  /** All-zero quantities select nothing and cost nothing. */
  lemma {:induction false} ZeroSelections(types: seq<TicketType>, q: Quantities, isWeekendRate: bool)
    requires forall id :: id in q ==> q[id] == 0
    ensures Selections(types, q) == [] && TotalAmount(types, isWeekendRate, q) == 0
  {
    if types != [] {
      ZeroSelections(types[..|types| - 1], q, isWeekendRate);
    }
  }

  /** A step keeps the quantity in 0..maxPerBooking, changes only that id, and ignores an unknown id. */
  lemma SteppedBounds(q: Quantities, types: seq<TicketType>, id: string, delta: int)
    ensures Find(types, id).None? ==> Stepped(q, types, id, delta) == q
    ensures Find(types, id).Some? ==>
      var t, r := Find(types, id).value, Stepped(q, types, id, delta);
      && r.Keys == q.Keys + {id}
      && 0 <= r[id]
      && (t.maxPerBooking >= 0 ==> r[id] <= t.maxPerBooking)
      && (0 <= Qty(q, id) + delta <= t.maxPerBooking ==> r[id] == Qty(q, id) + delta)
      && (Qty(q, id) + delta < 0 ==> r[id] == 0)
      && (0 <= t.maxPerBooking < Qty(q, id) + delta ==> r[id] == t.maxPerBooking)
    ensures forall k :: k != id && k in q ==> k in Stepped(q, types, id, delta) && Stepped(q, types, id, delta)[k] == q[k]
  {
  }

  /** Every selection has a positive quantity, the one recorded for a type in the list. */
  lemma {:induction false} SelectionsArePositive(types: seq<TicketType>, q: Quantities)
    ensures forall k :: 0 <= k < |Selections(types, q)| ==>
      && Selections(types, q)[k].quantity > 0
      && Selections(types, q)[k].quantity == Qty(q, Selections(types, q)[k].ticketTypeId)
      && IsTypeId(types, Selections(types, q)[k].ticketTypeId)
    ensures |Selections(types, q)| <= |types|
  {
    if types != [] {
      var prefix := types[..|types| - 1];
      SelectionsArePositive(prefix, q);
      forall id | IsTypeId(prefix, id)
        ensures IsTypeId(types, id)
      {
        var i :| 0 <= i < |prefix| && prefix[i].id == id;
        assert types[i] == prefix[i];
      }
      assert IsTypeId(types, types[|types| - 1].id);
    }
  }

  /** Selections keep the type order: selecting from a concatenation selects from each part. */
  lemma {:induction false} SelectionsAppend(a: seq<TicketType>, b: seq<TicketType>, q: Quantities)
    ensures Selections(a + b, q) == Selections(a, q) + Selections(b, q)
  {
    if b == [] {
      assert a + b == a;
    } else {
      assert (a + b)[..|a + b| - 1] == a + b[..|b| - 1];
      assert (a + b)[|a + b| - 1] == b[|b| - 1];
      SelectionsAppend(a, b[..|b| - 1], q);
    }
  }

  /** Nothing is selected exactly when no type has a positive quantity. */
  lemma {:induction false} SelectionsEmptyIff(types: seq<TicketType>, q: Quantities)
    ensures Selections(types, q) == [] <==> forall i :: 0 <= i < |types| ==> Qty(q, types[i].id) <= 0
  {
    if types != [] {
      var prefix := types[..|types| - 1];
      SelectionsEmptyIff(prefix, q);
      if Selections(types, q) == [] {
        forall i | 0 <= i < |types|
          ensures Qty(q, types[i].id) <= 0
        {
          if i < |types| - 1 {
            assert types[i] == prefix[i];
          }
        }
      }
      if forall i :: 0 <= i < |types| ==> Qty(q, types[i].id) <= 0 {
        forall i | 0 <= i < |prefix|
          ensures Qty(q, prefix[i].id) <= 0
        {
          assert prefix[i] == types[i];
        }
      }
    }
  }

  /** A sum of non-negative quantities is zero exactly when each of them is. */
  lemma {:induction false} SumQtyZeroIff(keys: seq<string>, q: Quantities)
    requires forall id :: id in keys ==> Qty(q, id) >= 0
    ensures SumQty(keys, q) >= 0
    ensures SumQty(keys, q) == 0 <==> forall id :: id in keys ==> Qty(q, id) == 0
  {
    if keys != [] {
      var prefix := keys[..|keys| - 1];
      forall id | id in prefix
        ensures id in keys
      {
        var i :| 0 <= i < |prefix| && prefix[i] == id;
        assert keys[i] == id;
      }
      SumQtyZeroIff(prefix, q);
      forall id | id in keys
        ensures id in prefix || id == keys[|keys| - 1]
      {
        var i :| 0 <= i < |keys| && keys[i] == id;
        if i < |keys| - 1 {
          assert prefix[i] == id;
        }
      }
    }
  }

  /** On a valid record the Continue button is disabled exactly when confirming would hand on no selection. */
  lemma ConfirmDisabledIff(types: seq<TicketType>, q: Quantities)
    requires forall id :: id in q <==> IsTypeId(types, id)
    requires forall id :: id in q ==> q[id] >= 0
    ensures ConfirmDisabled(types, q) <==> Selections(types, q) == []
  {
    var keys := KeyOrder(types);
    SumQtyZeroIff(keys, q);
    SelectionsEmptyIff(types, q);
    if Selections(types, q) == [] {
      forall id | id in keys
        ensures Qty(q, id) == 0
      {
        var i :| 0 <= i < |types| && types[i].id == id;
        assert Qty(q, types[i].id) <= 0;
      }
    }
    if ConfirmDisabled(types, q) {
      forall i | 0 <= i < |types|
        ensures Qty(q, types[i].id) <= 0
      {
        assert IsTypeId(types, types[i].id);
        assert types[i].id in keys;
      }
    }
  }
}
