/**
 * The in-browser shopping cart (src/components/cart/CartProvider.tsx): a list
 * of lines keyed by id, replaced as a whole by each update, and the totals
 * derived from it on every render.
 */
module CartProvider {
  import opened Wrappers

  datatype ItemType = Product | Voucher | Adoption

  /** A cart line; `requiresShipping` and `weight` are None when the line does not carry them. */
  datatype CartItem = CartItem(
    id: string,
    kind: ItemType,
    name: string,
    price: int,
    quantity: int,
    requiresShipping: Option<bool>,
    weight: Option<int>)

  /** Some line has this id. */
  predicate HasId(items: seq<CartItem>, id: string) {
    exists i :: 0 <= i < |items| && items[i].id == id
  }

  /** No two lines share an id. */
  predicate UniqueIds(items: seq<CartItem>) {
    forall i, j :: 0 <= i < j < |items| ==> items[i].id != items[j].id
  }

  /** The line ids, in cart order. */
  function Ids(items: seq<CartItem>): (ids: seq<string>)
    ensures |ids| == |items| && forall i :: 0 <= i < |items| ==> ids[i] == items[i].id
  {
    seq(|items|, i requires 0 <= i < |items| => items[i].id)
  }

  // ----- the updates -----

  /** Every line with `item`'s id gets `item`'s quantity added; all its other fields stay as they were. */
  function Merged(items: seq<CartItem>, item: CartItem): (r: seq<CartItem>)
    ensures |r| == |items|
  {
    seq(|items|, i requires 0 <= i < |items| =>
      if items[i].id == item.id then items[i].(quantity := items[i].quantity + item.quantity) else items[i])
  }

  /** `addItem`: merge into the line with the same id, or append a new line. */
  function Added(items: seq<CartItem>, item: CartItem): seq<CartItem> {
    if HasId(items, item.id) then Merged(items, item) else items + [item]
  }

  /** `removeItem`: the lines whose id differs, in their order. */
  function Removed(items: seq<CartItem>, id: string): seq<CartItem> {
    if items == [] then []
    else (if items[0].id == id then [] else [items[0]]) + Removed(items[1..], id)
  }

  /** Every line with this id gets quantity `q`. */
  function WithQuantity(items: seq<CartItem>, id: string, q: int): (r: seq<CartItem>)
    ensures |r| == |items|
  {
    seq(|items|, i requires 0 <= i < |items| => if items[i].id == id then items[i].(quantity := q) else items[i])
  }

  /** `updateQuantity`: a quantity of 0 or less removes the line. */
  function Updated(items: seq<CartItem>, id: string, q: int): seq<CartItem> {
    if q <= 0 then Removed(items, id) else WithQuantity(items, id, q)
  }

  // ----- the derived values -----

  /** `items.reduce((sum, i) => sum + f(i), 0)`. */
  function Sum(items: seq<CartItem>, f: CartItem -> int): int {
    if items == [] then 0 else f(items[0]) + Sum(items[1..], f)
  }

  function LineQuantity(i: CartItem): int { i.quantity }
  function LineAmount(i: CartItem): int { i.price * i.quantity }
  /** `weight || 0`: a missing weight weighs nothing. */
  function LineWeight(i: CartItem): int { i.weight.GetOr(0) * i.quantity }

  function ItemCount(items: seq<CartItem>): int { Sum(items, LineQuantity) }
  function Subtotal(items: seq<CartItem>): int { Sum(items, LineAmount) }
  function TotalWeight(items: seq<CartItem>): int { Sum(items, LineWeight) }

  /** A product that does not say it needs no shipping. */
  predicate IsShippedProduct(i: CartItem) { i.kind == Product && i.requiresShipping != Some(false) }

  /** A line the customer receives by post: a shipped product, or an adoption (its welcome pack). */
  predicate IsPhysical(i: CartItem) { IsShippedProduct(i) || i.kind == Adoption }

  function AnyShippedProduct(items: seq<CartItem>): bool {
    items != [] && (IsShippedProduct(items[0]) || AnyShippedProduct(items[1..]))
  }

  function AnyAdoption(items: seq<CartItem>): bool {
    items != [] && (items[0].kind == Adoption || AnyAdoption(items[1..]))
  }

  /** `hasPhysicalItems`: some line is a shipped product, or some line is an adoption. */
  predicate HasPhysicalItems(items: seq<CartItem>) {
    AnyShippedProduct(items) || AnyAdoption(items)
  }

  // ----- the cart -----

  /** The cart state. */
  class Cart {
    var items: seq<CartItem>

    ghost predicate Valid()
      reads this
    {
      UniqueIds(items)
    }

    /** An empty cart. */
    constructor ()
      ensures Valid() && items == []
    {
      items := [];
    }

    /** `addItem`; a cart whose ids were unique keeps them unique. */
    method AddItem(item: CartItem)
      modifies this
      ensures old(Valid()) ==> Valid()
      ensures items == Added(old(items), item)
    {
      if UniqueIds(items) {
        AddedKeepsIdsUnique(items, item);
      }
      items := Added(items, item);
    }

    /** `removeItem`; a cart whose ids were unique keeps them unique. */
    method RemoveItem(id: string)
      modifies this
      ensures old(Valid()) ==> Valid()
      ensures items == Removed(old(items), id)
    {
      if UniqueIds(items) {
        RemovedKeepsIdsUnique(items, id);
      }
      items := Removed(items, id);
    }

    /** `updateQuantity`; a cart whose ids were unique keeps them unique. */
    method UpdateQuantity(id: string, quantity: int)
      modifies this
      ensures old(Valid()) ==> Valid()
      ensures items == Updated(old(items), id, quantity)
    {
      if quantity <= 0 {
        if UniqueIds(items) {
          RemovedKeepsIdsUnique(items, id);
        }
        items := Removed(items, id);
      } else {
        items := WithQuantity(items, id, quantity);
      }
    }

    method ClearCart()
      modifies this
      ensures Valid() && items == []
    {
      items := [];
    }
  }

  // ----- sums -----

  lemma {:induction false} SumAppend(a: seq<CartItem>, b: seq<CartItem>, f: CartItem -> int)
    ensures Sum(a + b, f) == Sum(a, f) + Sum(b, f)
  {
    if a == [] {
      assert a + b == b;
    } else {
      assert (a + b)[1..] == a[1..] + b;
      SumAppend(a[1..], b, f);
    }
  }

  /** Dropping line k takes its share out of the sum. */
  lemma SumWithout(s: seq<CartItem>, k: nat, f: CartItem -> int)
    requires k < |s|
    ensures Sum(s[..k] + s[k + 1..], f) == Sum(s, f) - f(s[k])
  {
    var before, after := s[..k], s[k + 1..];
    var mid := [s[k]] + after;
    assert s == before + mid;
    assert Sum(mid, f) == f(s[k]) + Sum(after, f) by {
      assert mid[0] == s[k] && mid[1..] == after;
    }
    SumAppend(before, mid, f);
    SumAppend(before, after, f);
  }

  /** Replacing line k replaces its share of the sum. */
  lemma SumReplace(s: seq<CartItem>, k: nat, x: CartItem, f: CartItem -> int)
    requires k < |s|
    ensures Sum(s[k := x], f) == Sum(s, f) - f(s[k]) + f(x)
  {
    var t := s[k := x];
    SumWithout(s, k, f);
    SumWithout(t, k, f);
    assert t[..k] + t[k + 1..] == s[..k] + s[k + 1..];
  }

  // ----- properties -----

  /** With unique ids, the line at k is the only one with its id. */
  lemma OnlyLineWithId(items: seq<CartItem>, k: nat, i: nat)
    requires UniqueIds(items) && k < |items| && i < |items|
    ensures items[i].id == items[k].id <==> i == k
  {
    if i < k {
      assert items[i].id != items[k].id;
    } else if k < i {
      assert items[k].id != items[i].id;
    }
  }

  /** Adding a new id appends it at the end; adding a known id keeps the ids and their order. */
  lemma AddedIds(items: seq<CartItem>, item: CartItem)
    ensures !HasId(items, item.id) ==> Ids(Added(items, item)) == Ids(items) + [item.id]
    ensures HasId(items, item.id) ==> Ids(Added(items, item)) == Ids(items)
  {
  }

  /** Ids stay unique under addItem. */
  lemma AddedKeepsIdsUnique(items: seq<CartItem>, item: CartItem)
    requires UniqueIds(items)
    ensures UniqueIds(Added(items, item))
  {
    if !HasId(items, item.id) {
      var r := items + [item];
      forall i, j | 0 <= i < j < |r|
        ensures r[i].id != r[j].id
      {
        if j == |items| {
          assert r[i] == items[i];
        }
      }
    }
  }

  /** With unique ids, merging touches only the matching line, and of it only the quantity. */
  lemma AddedMergesOneLine(items: seq<CartItem>, item: CartItem, k: nat)
    requires UniqueIds(items) && k < |items| && items[k].id == item.id
    ensures Added(items, item) == items[k := items[k].(quantity := items[k].quantity + item.quantity)]
  {
    var r := Added(items, item);
    var expected := items[k := items[k].(quantity := items[k].quantity + item.quantity)];
    assert HasId(items, item.id);
    forall i | 0 <= i < |items|
      ensures r[i] == expected[i]
    {
      OnlyLineWithId(items, k, i);
    }
  }

  /** addItem raises the item count by the added quantity; the price charged for it is the existing line's. */
  lemma AddedTotals(items: seq<CartItem>, item: CartItem)
    requires UniqueIds(items)
    ensures ItemCount(Added(items, item)) == ItemCount(items) + item.quantity
    ensures !HasId(items, item.id) ==> Subtotal(Added(items, item)) == Subtotal(items) + item.price * item.quantity
    ensures forall k :: 0 <= k < |items| && items[k].id == item.id ==>
      Subtotal(Added(items, item)) == Subtotal(items) + items[k].price * item.quantity
  {
    if HasId(items, item.id) {
      var k :| 0 <= k < |items| && items[k].id == item.id;
      var x := items[k].(quantity := items[k].quantity + item.quantity);
      AddedMergesOneLine(items, item, k);
      SumReplace(items, k, x, LineQuantity);
      SumReplace(items, k, x, LineAmount);
      assert x.price * x.quantity == items[k].price * items[k].quantity + items[k].price * item.quantity;
      forall k' | 0 <= k' < |items| && items[k'].id == item.id
        ensures k' == k
      {
        OnlyLineWithId(items, k, k');
      }
    } else {
      SumAppend(items, [item], LineQuantity);
      SumAppend(items, [item], LineAmount);
    }
  }

  /** removeItem leaves no line with that id. */
  lemma {:induction false} RemovedHasNoId(items: seq<CartItem>, id: string)
    ensures !HasId(Removed(items, id), id)
    ensures |Removed(items, id)| <= |items|
  {
    if items != [] {
      RemovedHasNoId(items[1..], id);
      var head := if items[0].id == id then [] else [items[0]];
      assert Removed(items, id) == head + Removed(items[1..], id);
    }
  }

  /** removeItem keeps the order: removing from a concatenation removes from each part. */
  lemma {:induction false} RemovedAppend(a: seq<CartItem>, b: seq<CartItem>, id: string)
    ensures Removed(a + b, id) == Removed(a, id) + Removed(b, id)
  {
    if a == [] {
      assert a + b == b;
    } else {
      assert (a + b)[0] == a[0];
      assert (a + b)[1..] == a[1..] + b;
      RemovedAppend(a[1..], b, id);
    }
  }

  /** Removing an id no line has changes nothing. */
  lemma {:induction false} RemovedAbsent(items: seq<CartItem>, id: string)
    requires !HasId(items, id)
    ensures Removed(items, id) == items
  {
    if items != [] {
      assert items[0].id != id;
      assert !HasId(items[1..], id) by {
        forall i | 0 <= i < |items[1..]|
          ensures items[1..][i].id != id
        {
          assert items[1..][i] == items[i + 1];
        }
      }
      RemovedAbsent(items[1..], id);
      assert items == [items[0]] + items[1..];
    }
  }

  /** With unique ids, removeItem drops exactly the line with that id and keeps the rest in order. */
  lemma RemovedOneLine(items: seq<CartItem>, id: string, k: nat)
    requires UniqueIds(items) && k < |items| && items[k].id == id
    ensures Removed(items, id) == items[..k] + items[k + 1..]
  {
    var before, after := items[..k], items[k + 1..];
    var mid := [items[k]] + after;
    assert items == before + mid;
    assert Removed(before, id) == before by {
      NoOtherLineWithId(items, k, 0, k);
      RemovedAbsent(before, id);
    }
    assert Removed(mid, id) == after by {
      assert mid[0] == items[k] && mid[1..] == after;
      NoOtherLineWithId(items, k, k + 1, |items|);
      RemovedAbsent(after, id);
    }
    RemovedAppend(before, mid, id);
  }

  /** With unique ids, a slice that leaves out line k has no line with its id. */
  lemma NoOtherLineWithId(items: seq<CartItem>, k: nat, lo: nat, hi: nat)
    requires UniqueIds(items) && k < |items| && lo <= hi <= |items| && (hi <= k || k < lo)
    ensures !HasId(items[lo..hi], items[k].id)
  {
    var part := items[lo..hi];
    forall i | 0 <= i < |part|
      ensures part[i].id != items[k].id
    {
      assert part[i] == items[lo + i];
      OnlyLineWithId(items, k, lo + i);
    }
  }

  /** Ids stay unique under removeItem. */
  lemma RemovedKeepsIdsUnique(items: seq<CartItem>, id: string)
    requires UniqueIds(items)
    ensures UniqueIds(Removed(items, id))
  {
    if HasId(items, id) {
      var k :| 0 <= k < |items| && items[k].id == id;
      RemovedOneLine(items, id, k);
      var r := items[..k] + items[k + 1..];
      forall i, j | 0 <= i < j < |r|
        ensures r[i].id != r[j].id
      {
        var i' := if i < k then i else i + 1;
        var j' := if j < k then j else j + 1;
        assert r[i] == items[i'] && r[j] == items[j'];
      }
    } else {
      RemovedAbsent(items, id);
    }
  }

  /** removeItem takes the line's quantity, price and weight out of the totals; an unknown id leaves them. */
  lemma RemovedTotals(items: seq<CartItem>, id: string)
    requires UniqueIds(items)
    ensures !HasId(items, id) ==> Removed(items, id) == items
    ensures forall k :: 0 <= k < |items| && items[k].id == id ==>
      && ItemCount(Removed(items, id)) == ItemCount(items) - items[k].quantity
      && Subtotal(Removed(items, id)) == Subtotal(items) - items[k].price * items[k].quantity
      && TotalWeight(Removed(items, id)) == TotalWeight(items) - items[k].weight.GetOr(0) * items[k].quantity
  {
    if HasId(items, id) {
      var k :| 0 <= k < |items| && items[k].id == id;
      RemovedOneLine(items, id, k);
      SumWithout(items, k, LineQuantity);
      SumWithout(items, k, LineAmount);
      SumWithout(items, k, LineWeight);
      forall k' | 0 <= k' < |items| && items[k'].id == id
        ensures k' == k
      {
        OnlyLineWithId(items, k, k');
      }
    } else {
      RemovedAbsent(items, id);
    }
  }

  /** updateQuantity with a positive quantity sets that line's quantity and nothing else; an unknown id changes nothing. */
  lemma UpdatedSetsOneLine(items: seq<CartItem>, id: string, q: int)
    requires UniqueIds(items) && q > 0
    ensures !HasId(items, id) ==> Updated(items, id, q) == items
    ensures forall k :: 0 <= k < |items| && items[k].id == id ==>
      && Updated(items, id, q) == items[k := items[k].(quantity := q)]
      && ItemCount(Updated(items, id, q)) == ItemCount(items) - items[k].quantity + q
  {
    var r := Updated(items, id, q);
    if HasId(items, id) {
      var k :| 0 <= k < |items| && items[k].id == id;
      var x := items[k].(quantity := q);
      forall i | 0 <= i < |items|
        ensures r[i] == items[k := x][i]
      {
        OnlyLineWithId(items, k, i);
      }
      assert r == items[k := x];
      SumReplace(items, k, x, LineQuantity);
      forall k' | 0 <= k' < |items| && items[k'].id == id
        ensures k' == k
      {
        OnlyLineWithId(items, k, k');
      }
    } else {
      assert r == items;
    }
  }

  /** updateQuantity with 0 or less is removeItem, so it ends with no line of that id. */
  lemma UpdatedNonPositiveRemoves(items: seq<CartItem>, id: string, q: int)
    requires q <= 0
    ensures Updated(items, id, q) == Removed(items, id)
    ensures !HasId(Updated(items, id, q), id)
  {
    RemovedHasNoId(items, id);
  }

  /** hasPhysicalItems holds exactly when some line is a shipped product or an adoption. */
  lemma {:induction false} HasPhysicalItemsIff(items: seq<CartItem>)
    ensures HasPhysicalItems(items) <==> exists i :: 0 <= i < |items| && IsPhysical(items[i])
  {
    if items != [] {
      HasPhysicalItemsIff(items[1..]);
      if exists i :: 0 <= i < |items| && IsPhysical(items[i]) {
        var i :| 0 <= i < |items| && IsPhysical(items[i]);
        if i > 0 {
          assert IsPhysical(items[1..][i - 1]);
        }
      }
      if exists i :: 0 <= i < |items[1..]| && IsPhysical(items[1..][i]) {
        var i :| 0 <= i < |items[1..]| && IsPhysical(items[1..][i]);
        assert IsPhysical(items[i + 1]);
      }
    }
  }

  /** After clearCart every total is zero and nothing needs posting. */
  lemma ClearedTotals()
    ensures ItemCount([]) == 0 && Subtotal([]) == 0 && TotalWeight([]) == 0 && !HasPhysicalItems([])
  {
  }
}
