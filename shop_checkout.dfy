/**
 * Shop checkout (src/app/api/shop/create-checkout/route.ts): the subtotal
 * loop that builds the payment line items and the order items, the shipping
 * rule with its settings fallbacks, the order / voucher / adoption references,
 * and the pending records written before a payment session is requested.
 * The stored collections are maps and sequences on a class; the settings
 * read, each store write and the payment provider are inputs that may fail.
 */
module ShopCheckout {
  import opened Wrappers
  import opened Dates
  import opened Text
  import opened Nanoid
  import opened BookingRules
  import opened Site

  /** The `type` string of a cart line: the three the handler tests for, or any other. */
  datatype Kind = VoucherKind | AdoptionKind | ProductKind | OtherKind(name: string)

  /** A cart line as the client posts it; a missing text field is "" and a missing flag is false. */
  datatype ShopItem = ShopItem(
    kind: Kind,
    productId: string,
    name: string,
    variant: string,
    price: int,
    quantity: int,
    recipientName: string,
    recipientEmail: string,
    personalMessage: string,
    animalId: string,
    tierId: string,
    isGift: bool,
    giftRecipientName: string)

  datatype Address = Address(line1: string, city: string, postcode: string)

  datatype ShopRequest = ShopRequest(
    items: seq<ShopItem>,
    deliveryMethod: string,
    shippingAddress: Option<Address>,
    customerName: string,
    customerEmail: string,
    customerPhone: string)

  datatype ItemType = VoucherItem | AdoptionItem | ProductItem

  /** A payment-provider line item; the description is the variant, if any. */
  datatype ShopLine = ShopLine(name: string, description: Option<string>, unitAmount: int, quantity: int)

  datatype OrderItem = OrderItem(
    itemType: ItemType, product: Option<string>, name: string, variant: Option<string>,
    quantity: int, unitPrice: int)

  datatype RecordStatus = Pending | Active

  datatype Order = Order(
    orderReference: string,
    items: seq<OrderItem>,
    deliveryMethod: string,
    shippingAddress: Option<Address>,
    shippingCost: int,
    subtotal: int,
    totalAmount: int,
    customerName: string,
    customerEmail: string,
    customerPhone: Option<string>,
    status: RecordStatus,
    stripeSessionId: Option<string>)

  datatype Voucher = Voucher(
    code: string, amount: int, remainingBalance: int,
    purchaserName: string, purchaserEmail: string,
    recipientName: string, recipientEmail: Option<string>, personalMessage: Option<string>,
    status: RecordStatus)

  datatype Adoption = Adoption(
    adoptionReference: string, animal: string, tier: string,
    adopterName: string, adopterEmail: string,
    isGift: bool, giftRecipientName: Option<string>, shippingAddress: Address,
    status: RecordStatus)

  /** A child record of an order, in the order the items list them. */
  datatype Child = VoucherChild(voucher: Voucher) | AdoptionChild(adoption: Adoption)

  /** The shop-settings read: missing numbers are 0. */
  datatype SettingsRead = SettingsUnreadable | ShippingSettings(standardRate: int, freeShippingThreshold: int)

  const DefaultStandardRate: int := 395
  const DefaultFreeThreshold: int := 3000
  const VoucherCodeBytes: nat := 8
  const AdoptionReferenceBytes: nat := 6
  const Placeholder := Address("TBC", "TBC", "TBC")

  // ----- the line-building loop -----

  /** Mapping of the `type` string: anything that is neither a voucher nor an adoption is a product. */
  function ItemTypeOf(kind: Kind): (t: ItemType)
    ensures t == VoucherItem <==> kind == VoucherKind
    ensures t == AdoptionItem <==> kind == AdoptionKind
    ensures t == ProductItem <==> kind.ProductKind? || kind.OtherKind?
  {
    match kind
    case VoucherKind => VoucherItem
    case AdoptionKind => AdoptionItem
    case _ => ProductItem
  }

  function LineOf(item: ShopItem): ShopLine {
    ShopLine(item.name, OrNone(item.variant), item.price, item.quantity)
  }

  function OrderItemOf(item: ShopItem): OrderItem {
    OrderItem(ItemTypeOf(item.kind), if item.kind == ProductKind then Some(item.productId) else None,
              item.name, OrNone(item.variant), item.quantity, item.price)
  }

  function Subtotal(items: seq<ShopItem>): int {
    if items == [] then 0
    else Subtotal(items[..|items| - 1]) + items[|items| - 1].price * items[|items| - 1].quantity
  }

  function LinesOf(items: seq<ShopItem>): (lines: seq<ShopLine>)
    ensures |lines| == |items| && forall k :: 0 <= k < |items| ==> lines[k] == LineOf(items[k])
  {
    if items == [] then [] else LinesOf(items[..|items| - 1]) + [LineOf(items[|items| - 1])]
  }

  function OrderItemsOf(items: seq<ShopItem>): (ois: seq<OrderItem>)
    ensures |ois| == |items| && forall k :: 0 <= k < |items| ==> ois[k] == OrderItemOf(items[k])
  {
    if items == [] then [] else OrderItemsOf(items[..|items| - 1]) + [OrderItemOf(items[|items| - 1])]
  }

  /** The first loop: one line item and one order item per cart line, and the running subtotal. */
  method BuildLines(items: seq<ShopItem>) returns (lineItems: seq<ShopLine>, orderItems: seq<OrderItem>, subtotal: int)
    ensures lineItems == LinesOf(items) && orderItems == OrderItemsOf(items) && subtotal == Subtotal(items)
  {
    lineItems, orderItems, subtotal := [], [], 0;
    for i := 0 to |items|
      invariant lineItems == LinesOf(items[..i])
      invariant orderItems == OrderItemsOf(items[..i])
      invariant subtotal == Subtotal(items[..i])
    {
      var item := items[i];
      assert items[..i + 1][..i] == items[..i];
      var itemTotal := item.price * item.quantity;
      subtotal := subtotal + itemTotal;
      lineItems := lineItems + [LineOf(item)];
      orderItems := orderItems + [OrderItemOf(item)];
    }
    assert items[..|items|] == items;
  }

  /** The subtotal of two carts put together is the sum of their subtotals. */
  lemma {:induction false} SubtotalAppend(a: seq<ShopItem>, b: seq<ShopItem>)
    ensures Subtotal(a + b) == Subtotal(a) + Subtotal(b)
    decreases |b|
  {
    if b == [] {
      assert a + b == a;
    } else {
      assert (a + b)[..|a + b| - 1] == a + b[..|b| - 1];
      SubtotalAppend(a, b[..|b| - 1]);
    }
  }

  /** Each line item carries its cart line's price and quantity, so the subtotal is their sum. */
  lemma {:induction false} SubtotalIsLineSum(items: seq<ShopItem>)
    ensures Subtotal(items) == LineSum(LinesOf(items))
  {
    if items != [] {
      var init := items[..|items| - 1];
      SubtotalIsLineSum(init);
      assert LinesOf(items)[..|items| - 1] == LinesOf(init);
    }
  }

  function LineSum(lines: seq<ShopLine>): int {
    if lines == [] then 0 else LineSum(lines[..|lines| - 1]) + lines[|lines| - 1].unitAmount * lines[|lines| - 1].quantity
  }

  /** Only product lines reference a product; the item type of any other kind is never a product reference. */
  lemma ProductOnlyForProducts(item: ShopItem)
    ensures OrderItemOf(item).product.Some? <==> item.kind == ProductKind
    ensures OrderItemOf(item).product.Some? ==> OrderItemOf(item).itemType == ProductItem
    ensures item.kind.OtherKind? ==>
      OrderItemOf(item).itemType == ProductItem && OrderItemOf(item).product.None?
  {
  }

  // ----- shipping -----

  predicate IsPhysical(item: ShopItem) { item.kind == ProductKind || item.kind == AdoptionKind }

  predicate HasPhysical(items: seq<ShopItem>) {
    exists k :: 0 <= k < |items| && IsPhysical(items[k])
  }

  /** `standardRate || 395`, and 395 when the settings cannot be read. */
  function StandardRate(settings: SettingsRead): int {
    if settings.ShippingSettings? && settings.standardRate != 0 then settings.standardRate else DefaultStandardRate
  }

  /** `freeShippingThreshold || 3000`, and 3000 when the settings cannot be read. */
  function FreeThreshold(settings: SettingsRead): int {
    if settings.ShippingSettings? && settings.freeShippingThreshold != 0 then settings.freeShippingThreshold
    else DefaultFreeThreshold
  }

  function ShippingCost(deliveryMethod: string, items: seq<ShopItem>, subtotal: int, settings: SettingsRead): int {
    if deliveryMethod == "shipping" && HasPhysical(items) then
      (if subtotal >= FreeThreshold(settings) then 0 else StandardRate(settings))
    else 0
  }

  /** The cost rule as the handler computes it, with its reassignments of `shippingCost`. */
  method ComputeShipping(deliveryMethod: string, items: seq<ShopItem>, subtotal: int, settings: SettingsRead)
    returns (shippingCost: int)
    ensures shippingCost == ShippingCost(deliveryMethod, items, subtotal, settings)
  {
    shippingCost := 0;
    var hasPhysical := false;
    for k := 0 to |items|
      invariant hasPhysical <==> exists j :: 0 <= j < k && IsPhysical(items[j])
    {
      if items[k].kind == ProductKind || items[k].kind == AdoptionKind {
        hasPhysical := true;
      }
    }
    if deliveryMethod == "shipping" && hasPhysical {
      if settings.ShippingSettings? {
        var standardRate := if settings.standardRate != 0 then settings.standardRate else 395;
        var freeThreshold := if settings.freeShippingThreshold != 0 then settings.freeShippingThreshold else 3000;
        shippingCost := if subtotal >= freeThreshold then 0 else standardRate;
      } else {
        shippingCost := if subtotal >= 3000 then 0 else 395;
      }
    }
  }

  /** Nothing is charged unless the order ships and holds a product or an adoption. */
  lemma NoShippingUnlessPhysical(deliveryMethod: string, items: seq<ShopItem>, subtotal: int, settings: SettingsRead)
    requires deliveryMethod != "shipping" || forall k :: 0 <= k < |items| ==> items[k].kind != ProductKind && items[k].kind != AdoptionKind
    ensures ShippingCost(deliveryMethod, items, subtotal, settings) == 0
  {
  }

  /** Shipping is free exactly from the threshold on, and costs the standard rate below it. */
  lemma ChargedShipping(items: seq<ShopItem>, subtotal: int, settings: SettingsRead)
    requires HasPhysical(items)
    ensures subtotal >= FreeThreshold(settings) ==> ShippingCost("shipping", items, subtotal, settings) == 0
    ensures subtotal < FreeThreshold(settings) ==> ShippingCost("shipping", items, subtotal, settings) == StandardRate(settings)
    ensures StandardRate(settings) != 0
  {
  }

  /** A configured 0 does not disable anything: it behaves as an unreadable setting. */
  lemma ZeroSettingsAreDefaults(deliveryMethod: string, items: seq<ShopItem>, subtotal: int)
    ensures ShippingCost(deliveryMethod, items, subtotal, ShippingSettings(0, 0)) ==
            ShippingCost(deliveryMethod, items, subtotal, SettingsUnreadable)
    ensures HasPhysical(items) && subtotal < 3000 ==>
            ShippingCost("shipping", items, subtotal, ShippingSettings(0, 0)) == 395
  {
  }

  /** Once an order ships free, a larger subtotal ships free too. */
  lemma FreeShippingMonotone(deliveryMethod: string, items: seq<ShopItem>, s: int, t: int, settings: SettingsRead)
    requires s <= t
    requires ShippingCost(deliveryMethod, items, s, settings) == 0
    ensures ShippingCost(deliveryMethod, items, t, settings) == 0
  {
  }

  /** The line items sent for payment: one per cart line, then a shipping line when shipping costs something. */
  function PaymentLines(items: seq<ShopItem>, shippingCost: int): seq<ShopLine> {
    LinesOf(items) + (if shippingCost > 0 then [ShopLine("Standard Shipping", None, shippingCost, 1)] else [])
  }

  /** The payment lines add up to the order total, and the shipping line is there iff it costs something. */
  lemma PaymentLinesTotal(items: seq<ShopItem>, shippingCost: int)
    requires shippingCost >= 0
    ensures LineSum(PaymentLines(items, shippingCost)) == Subtotal(items) + shippingCost
    ensures |PaymentLines(items, shippingCost)| == |items| + (if shippingCost > 0 then 1 else 0)
  {
    SubtotalIsLineSum(items);
    var p := PaymentLines(items, shippingCost);
    if shippingCost > 0 {
      assert p[..|p| - 1] == LinesOf(items);
    } else {
      assert p == LinesOf(items);
    }
  }

  // ----- references -----

  /** `RFP-S` + YYMMDD + `-` + four upper-case nanoid characters. */
  function OrderReference(now: Date, bytes: seq<Byte>): string
    requires 0 <= now.year <= 9999 && 0 <= now.month0 < 12 && 1 <= now.day <= 31
    requires |bytes| == 4
  {
    "RFP-S" + DateStamp(now) + "-" + Upper(NanoidOf(bytes))
  }

  function VoucherCode(bytes: seq<Byte>): string
    requires |bytes| == VoucherCodeBytes
  {
    "RFP-V" + Upper(NanoidOf(bytes))
  }

  function AdoptionReference(bytes: seq<Byte>): string
    requires |bytes| == AdoptionReferenceBytes
  {
    "RFP-A" + Upper(NanoidOf(bytes))
  }

  /** An order reference is RFP-S, six digits, a dash and four of A-Z0-9: 16 characters. */
  lemma OrderReferenceFormat(now: Date, bytes: seq<Byte>)
    requires 0 <= now.year <= 9999 && 0 <= now.month0 < 12 && 1 <= now.day <= 31
    requires |bytes| == 4
    ensures var r := OrderReference(now, bytes);
      && |r| == 16
      && r[..5] == "RFP-S"
      && (forall i :: 5 <= i < 11 ==> IsDigit(r[i]))
      && r[11] == '-'
      && (forall i :: 12 <= i < 16 ==> IsUpperAlphanumeric(r[i]))
  {
    var r := OrderReference(now, bytes);
    UpperNanoidIsUpperAlphanumeric(bytes);
    var stamp := DateStamp(now);
    forall i | 5 <= i < 11
      ensures IsDigit(r[i])
    {
      assert r[i] == stamp[i - 5];
    }
    forall i | 12 <= i < 16
      ensures IsUpperAlphanumeric(r[i])
    {
      assert r[i] == Upper(NanoidOf(bytes))[i - 12];
    }
  }

  /** A prefix followed by upper-cased nanoid characters. */
  lemma PrefixedCode(prefix: string, bytes: seq<Byte>)
    ensures var r := prefix + Upper(NanoidOf(bytes));
      && |r| == |prefix| + |bytes| && r[..|prefix|] == prefix
      && forall i :: |prefix| <= i < |r| ==> IsUpperAlphanumeric(r[i])
  {
    var r := prefix + Upper(NanoidOf(bytes));
    UpperNanoidIsUpperAlphanumeric(bytes);
    forall i | |prefix| <= i < |r|
      ensures IsUpperAlphanumeric(r[i])
    {
      assert r[i] == Upper(NanoidOf(bytes))[i - |prefix|];
    }
  }

  /** Voucher codes are RFP-V and 8 of A-Z0-9; adoption references are RFP-A and 6 of them. */
  lemma ChildReferenceFormats(vbytes: seq<Byte>, abytes: seq<Byte>)
    requires |vbytes| == VoucherCodeBytes && |abytes| == AdoptionReferenceBytes
    ensures |VoucherCode(vbytes)| == 13 && VoucherCode(vbytes)[..5] == "RFP-V"
    ensures forall i :: 5 <= i < 13 ==> IsUpperAlphanumeric(VoucherCode(vbytes)[i])
    ensures |AdoptionReference(abytes)| == 11 && AdoptionReference(abytes)[..5] == "RFP-A"
    ensures forall i :: 5 <= i < 11 ==> IsUpperAlphanumeric(AdoptionReference(abytes)[i])
  {
    PrefixedCode("RFP-V", vbytes);
    PrefixedCode("RFP-A", abytes);
  }

  // ----- child records -----

  /** The buyer's details every child record copies. */
  datatype Buyer = Buyer(name: string, email: string, shippingAddress: Option<Address>)

  /** Random bytes one cart line consumes. */
  function BytesFor(item: ShopItem): nat {
    if item.kind == VoucherKind then VoucherCodeBytes
    else if item.kind == AdoptionKind then AdoptionReferenceBytes
    else 0
  }

  /** Random bytes the first `n` cart lines consume. */
  function BytesUpTo(items: seq<ShopItem>, n: nat): nat
    requires n <= |items|
  {
    if n == 0 then 0 else BytesUpTo(items, n - 1) + BytesFor(items[n - 1])
  }

  function BytesNeeded(items: seq<ShopItem>): nat {
    BytesUpTo(items, |items|)
  }

  lemma {:induction false} BytesUpToMonotone(items: seq<ShopItem>, n: nat, m: nat)
    requires n <= m <= |items|
    ensures BytesUpTo(items, n) <= BytesUpTo(items, m)
    decreases m
  {
    if n < m {
      BytesUpToMonotone(items, n, m - 1);
    }
  }

  /** The voucher a voucher line creates, under code `code`. */
  function VoucherFor(item: ShopItem, buyer: Buyer, code: string): Voucher {
    Voucher(code, item.price, item.price, buyer.name, buyer.email,
            if item.recipientName != "" then item.recipientName else buyer.name,
            OrNone(item.recipientEmail), OrNone(item.personalMessage), Pending)
  }

  /** The adoption an adoption line creates, under reference `code`. */
  function AdoptionFor(item: ShopItem, buyer: Buyer, code: string): Adoption {
    Adoption(code, item.animalId, item.tierId, buyer.name, buyer.email,
             item.isGift, OrNone(item.giftRecipientName), buyer.shippingAddress.GetOr(Placeholder), Pending)
  }

  /** The child record one cart line produces under its reference `code`. */
  function ChildOf(item: ShopItem, buyer: Buyer, code: string): (cs: seq<Child>)
    ensures |cs| <= 1
  {
    if item.kind == VoucherKind then [VoucherChild(VoucherFor(item, buyer, code))]
    else if item.kind == AdoptionKind then [AdoptionChild(AdoptionFor(item, buyer, code))]
    else []
  }

  /** The reference a cart line gets from its own bytes: a voucher code, an adoption reference, or none. */
  function CodeFor(item: ShopItem, bytes: seq<Byte>): string
    requires |bytes| == BytesFor(item)
  {
    if item.kind == VoucherKind then VoucherCode(bytes)
    else if item.kind == AdoptionKind then AdoptionReference(bytes)
    else ""
  }

  /** The bytes of line `k`: those after the ones the lines before it consumed. */
  function BytesOfLine(items: seq<ShopItem>, k: nat, bytes: seq<Byte>): (own: seq<Byte>)
    requires k < |items| && |bytes| >= BytesNeeded(items)
    ensures |own| == BytesFor(items[k])
  {
    BytesUpToMonotone(items, k + 1, |items|);
    bytes[BytesUpTo(items, k)..BytesUpTo(items, k + 1)]
  }

  /** The reference of every cart line, in order, each drawn from the bytes the lines before it left. */
  function Codes(items: seq<ShopItem>, bytes: seq<Byte>): (codes: seq<string>)
    requires |bytes| >= BytesNeeded(items)
    ensures |codes| == |items|
  {
    CodesUpTo(items, bytes, |items|)
  }

  /** The references of the first `n` cart lines. */
  function CodesUpTo(items: seq<ShopItem>, bytes: seq<Byte>, n: nat): (codes: seq<string>)
    requires |bytes| >= BytesNeeded(items) && n <= |items|
    ensures |codes| == n
  {
    if n == 0 then [] else CodesUpTo(items, bytes, n - 1) + [CodeFor(items[n - 1], BytesOfLine(items, n - 1, bytes))]
  }

  /** Line `k`'s reference is the one its own bytes give. */
  lemma {:induction false} CodesAt(items: seq<ShopItem>, bytes: seq<Byte>, n: nat, k: nat)
    requires |bytes| >= BytesNeeded(items) && k < n <= |items|
    ensures CodesUpTo(items, bytes, n)[k] == CodeFor(items[k], BytesOfLine(items, k, bytes))
  {
    var prev := CodesUpTo(items, bytes, n - 1);
    var last := CodeFor(items[n - 1], BytesOfLine(items, n - 1, bytes));
    assert CodesUpTo(items, bytes, n) == prev + [last];
    if k < n - 1 {
      CodesAt(items, bytes, n - 1, k);
      assert (prev + [last])[k] == prev[k];
    }
  }

  /** The records of the first `n` cart lines, one list (empty or singleton) per line. */
  function LineChildren(items: seq<ShopItem>, n: nat, buyer: Buyer, codes: seq<string>): (r: seq<seq<Child>>)
    requires n <= |items| == |codes|
    ensures |r| == n
  {
    if n == 0 then []
    else LineChildren(items, n - 1, buyer, codes) + [ChildOf(items[n - 1], buyer, codes[n - 1])]
  }

  /** Entry `k` of the per-line records is line `k`'s own record. */
  lemma {:induction false} LineChildrenAt(items: seq<ShopItem>, n: nat, k: nat, buyer: Buyer, codes: seq<string>)
    requires k < n <= |items| == |codes|
    ensures LineChildren(items, n, buyer, codes)[k] == ChildOf(items[k], buyer, codes[k])
  {
    if k < n - 1 {
      LineChildrenAt(items, n - 1, k, buyer, codes);
    }
  }

  function Flatten<T>(xss: seq<seq<T>>): seq<T> {
    if xss == [] then [] else Flatten(xss[..|xss| - 1]) + xss[|xss| - 1]
  }

  lemma {:induction false} FlattenAppend<T>(a: seq<seq<T>>, b: seq<seq<T>>)
    ensures Flatten(a + b) == Flatten(a) + Flatten(b)
    decreases |b|
  {
    if b == [] {
      assert a + b == a;
    } else {
      var init, last := b[..|b| - 1], b[|b| - 1];
      assert (a + b)[..|a + b| - 1] == a + init && (a + b)[|a + b| - 1] == last;
      assert Flatten(a + b) == Flatten(a + init) + last;
      FlattenAppend(a, init);
      assert Flatten(b) == Flatten(init) + last;
    }
  }

  /** Flattening one more list extends the flattened prefix by that list. */
  lemma FlattenStep<T>(xss: seq<seq<T>>, i: nat)
    requires i < |xss|
    ensures Flatten(xss[..i + 1]) == Flatten(xss[..i]) + xss[i]
  {
    assert xss[..i + 1][..i] == xss[..i];
  }

  /** Flattening a prefix of the lists gives a prefix of the flattened whole. */
  lemma FlattenPrefix<T>(xss: seq<seq<T>>, i: nat)
    requires i <= |xss|
    ensures Flatten(xss[..i]) <= Flatten(xss)
  {
    assert xss == xss[..i] + xss[i..];
    FlattenAppend(xss[..i], xss[i..]);
  }

  /** The child records the second loop creates for the whole cart, in item order. */
  function Children(items: seq<ShopItem>, buyer: Buyer, bytes: seq<Byte>): seq<Child>
    requires |bytes| >= BytesNeeded(items)
  {
    Flatten(LineChildren(items, |items|, buyer, Codes(items, bytes)))
  }

  /** The child records of the cart lines before line `i`. */
  function ChildrenBefore(items: seq<ShopItem>, buyer: Buyer, bytes: seq<Byte>, i: nat): seq<Child>
    requires |bytes| >= BytesNeeded(items) && i <= |items|
  {
    Flatten(LineChildren(items, |items|, buyer, Codes(items, bytes))[..i])
  }

  /** Line `i` adds its own record, made under the reference its own bytes give. */
  lemma ChildrenBeforeStep(items: seq<ShopItem>, buyer: Buyer, bytes: seq<Byte>, i: nat)
    requires |bytes| >= BytesNeeded(items) && i < |items|
    ensures ChildrenBefore(items, buyer, bytes, i + 1) ==
      ChildrenBefore(items, buyer, bytes, i) + ChildOf(items[i], buyer, CodeFor(items[i], BytesOfLine(items, i, bytes)))
  {
    var codes := Codes(items, bytes);
    var lines := LineChildren(items, |items|, buyer, codes);
    LineChildrenAt(items, |items|, i, buyer, codes);
    CodesAt(items, bytes, |items|, i);
    FlattenStep(lines, i);
  }

  /** The records of the first `i` lines are a prefix of all of them, and all of them when `i` is the whole cart. */
  lemma ChildrenBeforePrefix(items: seq<ShopItem>, buyer: Buyer, bytes: seq<Byte>, i: nat)
    requires |bytes| >= BytesNeeded(items) && i <= |items|
    ensures ChildrenBefore(items, buyer, bytes, i) <= Children(items, buyer, bytes)
    ensures i == |items| ==> ChildrenBefore(items, buyer, bytes, i) == Children(items, buyer, bytes)
  {
    var lines := LineChildren(items, |items|, buyer, Codes(items, bytes));
    FlattenPrefix(lines, i);
    assert lines[..|items|] == lines;
  }

  function VouchersIn(cs: seq<Child>): seq<Voucher> {
    if cs == [] then []
    else VouchersIn(cs[..|cs| - 1]) + (if cs[|cs| - 1].VoucherChild? then [cs[|cs| - 1].voucher] else [])
  }

  function AdoptionsIn(cs: seq<Child>): seq<Adoption> {
    if cs == [] then []
    else AdoptionsIn(cs[..|cs| - 1]) + (if cs[|cs| - 1].AdoptionChild? then [cs[|cs| - 1].adoption] else [])
  }

  lemma {:induction false} ChildrenSplit(a: seq<Child>, b: seq<Child>)
    ensures VouchersIn(a + b) == VouchersIn(a) + VouchersIn(b)
    ensures AdoptionsIn(a + b) == AdoptionsIn(a) + AdoptionsIn(b)
    decreases |b|
  {
    if b == [] {
      assert a + b == a;
    } else {
      assert (a + b)[..|a + b| - 1] == a + b[..|b| - 1];
      ChildrenSplit(a, b[..|b| - 1]);
    }
  }

  function CountKind(items: seq<ShopItem>, n: nat, kind: Kind): nat
    requires n <= |items|
  {
    if n == 0 then 0 else CountKind(items, n - 1, kind) + (if items[n - 1].kind == kind then 1 else 0)
  }

  /** A voucher as the handler writes it: pending, bought by the buyer, its whole amount still to spend. */
  predicate PendingVoucherOf(v: Voucher, buyer: Buyer) {
    v.status == Pending && v.amount == v.remainingBalance && v.purchaserName == buyer.name && v.purchaserEmail == buyer.email
  }

  /** An adoption as the handler writes it: pending, adopted by the buyer. */
  predicate PendingAdoptionOf(a: Adoption, buyer: Buyer) {
    a.status == Pending && a.adopterName == buyer.name && a.adopterEmail == buyer.email
  }

  /** A voucher line yields one voucher, an adoption line one adoption, any other line nothing. */
  lemma ChildOfShape(item: ShopItem, buyer: Buyer, code: string)
    ensures var own := ChildOf(item, buyer, code);
      && |VouchersIn(own)| == (if item.kind == VoucherKind then 1 else 0)
      && |AdoptionsIn(own)| == (if item.kind == AdoptionKind then 1 else 0)
      && |own| == |VouchersIn(own)| + |AdoptionsIn(own)|
  {
    var own := ChildOf(item, buyer, code);
    if own != [] {
      assert own[..0] == [];
    }
  }

  /** The voucher a line creates is pending and made out to the buyer. */
  lemma ChildOfVoucherPending(item: ShopItem, buyer: Buyer, code: string)
    ensures forall v :: v in VouchersIn(ChildOf(item, buyer, code)) ==> PendingVoucherOf(v, buyer)
  {
    var own := ChildOf(item, buyer, code);
    if own != [] {
      assert own[..0] == [];
    }
  }

  /** The adoption a line creates is pending and made out to the buyer. */
  lemma ChildOfAdoptionPending(item: ShopItem, buyer: Buyer, code: string)
    ensures forall a :: a in AdoptionsIn(ChildOf(item, buyer, code)) ==> PendingAdoptionOf(a, buyer)
  {
    var own := ChildOf(item, buyer, code);
    if own != [] {
      assert own[..0] == [];
    }
  }

  /** The records of the first `n` lines are those of the first `n - 1` followed by line `n`'s own. */
  lemma FlattenLast(items: seq<ShopItem>, n: nat, buyer: Buyer, codes: seq<string>)
    requires 0 < n <= |items| == |codes|
    ensures Flatten(LineChildren(items, n, buyer, codes)) ==
      Flatten(LineChildren(items, n - 1, buyer, codes)) + ChildOf(items[n - 1], buyer, codes[n - 1])
  {
    var prev := LineChildren(items, n - 1, buyer, codes);
    var own := ChildOf(items[n - 1], buyer, codes[n - 1]);
    assert LineChildren(items, n, buyer, codes) == prev + [own];
    assert (prev + [own])[..n - 1] == prev;
  }

  /** Each voucher line creates exactly one voucher and each adoption line one adoption; other lines none. */
  lemma {:induction false} ChildrenCount(items: seq<ShopItem>, n: nat, buyer: Buyer, codes: seq<string>)
    requires n <= |items| == |codes|
    ensures var cs := Flatten(LineChildren(items, n, buyer, codes));
      && |VouchersIn(cs)| == CountKind(items, n, VoucherKind)
      && |AdoptionsIn(cs)| == CountKind(items, n, AdoptionKind)
      && |cs| == CountKind(items, n, VoucherKind) + CountKind(items, n, AdoptionKind)
  {
    if n > 0 {
      var item := items[n - 1];
      var own := ChildOf(item, buyer, codes[n - 1]);
      var before := Flatten(LineChildren(items, n - 1, buyer, codes));
      var cs := Flatten(LineChildren(items, n, buyer, codes));
      FlattenLast(items, n, buyer, codes);
      assert cs == before + own;
      ChildrenCount(items, n - 1, buyer, codes);
      ChildrenSplit(before, own);
      ChildOfShape(item, buyer, codes[n - 1]);
      assert |VouchersIn(cs)| == |VouchersIn(before)| + |VouchersIn(own)|;
      assert |AdoptionsIn(cs)| == |AdoptionsIn(before)| + |AdoptionsIn(own)|;
      assert |cs| == |before| + |own|;
    }
  }

  /** Every voucher among `cs` is pending and made out to the buyer. */
  predicate VouchersPending(cs: seq<Child>, buyer: Buyer) {
    forall v :: v in VouchersIn(cs) ==> PendingVoucherOf(v, buyer)
  }

  /** Every adoption among `cs` is pending and made out to the buyer. */
  predicate AdoptionsPending(cs: seq<Child>, buyer: Buyer) {
    forall a :: a in AdoptionsIn(cs) ==> PendingAdoptionOf(a, buyer)
  }

  /** Pending records stay pending when several lines' records are put together. */
  lemma {:induction false} FlattenPending(xss: seq<seq<Child>>, buyer: Buyer)
    requires forall k :: 0 <= k < |xss| ==> VouchersPending(xss[k], buyer) && AdoptionsPending(xss[k], buyer)
    ensures VouchersPending(Flatten(xss), buyer) && AdoptionsPending(Flatten(xss), buyer)
  {
    if xss != [] {
      var init, last := xss[..|xss| - 1], xss[|xss| - 1];
      assert forall k :: 0 <= k < |init| ==> init[k] == xss[k];
      FlattenPending(init, buyer);
      ChildrenSplit(Flatten(init), last);
      assert VouchersPending(last, buyer) && AdoptionsPending(last, buyer);
    }
  }

  /** Every voucher and adoption the second loop creates is pending and made out to the buyer. */
  lemma ChildrenPending(items: seq<ShopItem>, n: nat, buyer: Buyer, codes: seq<string>)
    requires n <= |items| == |codes|
    ensures var cs := Flatten(LineChildren(items, n, buyer, codes));
      && (forall v :: v in VouchersIn(cs) ==> PendingVoucherOf(v, buyer))
      && (forall a :: a in AdoptionsIn(cs) ==> PendingAdoptionOf(a, buyer))
  {
    var xss := LineChildren(items, n, buyer, codes);
    forall k | 0 <= k < |xss|
      ensures VouchersPending(xss[k], buyer) && AdoptionsPending(xss[k], buyer)
    {
      LineChildrenAt(items, n, k, buyer, codes);
      ChildOfVoucherPending(items[k], buyer, codes[k]);
      ChildOfAdoptionPending(items[k], buyer, codes[k]);
    }
    FlattenPending(xss, buyer);
  }

  /** The voucher for a line worth `price` with no named recipient goes to the buyer. */
  lemma VoucherRecipientDefault(item: ShopItem, buyer: Buyer, code: string)
    ensures VoucherFor(item, buyer, code).amount == VoucherFor(item, buyer, code).remainingBalance == item.price
    ensures item.recipientName == "" ==> VoucherFor(item, buyer, code).recipientName == buyer.name
    ensures item.recipientName != "" ==> VoucherFor(item, buyer, code).recipientName == item.recipientName
  {
  }

  // ----- the stored collections -----

  /** The orders, gift-vouchers and adoptions collections. */
  class ShopStore {
    var orders: map<nat, Order>
    var nextOrderId: nat
    var vouchers: seq<Voucher>
    var adoptions: seq<Adoption>

    ghost predicate Valid()
      reads this
    {
      && 1 <= nextOrderId
      && forall id :: id in orders ==> 1 <= id < nextOrderId
    }

    constructor ()
      ensures Valid() && orders == map[] && vouchers == [] && adoptions == []
    {
      orders := map[];
      nextOrderId := 1;
      vouchers := [];
      adoptions := [];
    }

    method CreateOrder(o: Order) returns (id: nat)
      requires Valid()
      modifies this
      ensures Valid()
      ensures id == old(nextOrderId) && id !in old(orders) && orders == old(orders)[id := o]
      ensures nextOrderId == old(nextOrderId) + 1 && vouchers == old(vouchers) && adoptions == old(adoptions)
      ensures id >= 1
    {
      id := nextOrderId;
      orders := orders[id := o];
      nextOrderId := nextOrderId + 1;
    }

    method CreateChild(c: Child)
      requires Valid()
      modifies this
      ensures Valid()
      ensures vouchers == old(vouchers) + VouchersIn([c]) && adoptions == old(adoptions) + AdoptionsIn([c])
      ensures orders == old(orders) && nextOrderId == old(nextOrderId)
    {
      assert [c][..0] == [];
      if c.VoucherChild? {
        vouchers := vouchers + [c.voucher];
      } else {
        adoptions := adoptions + [c.adoption];
      }
    }

    /** The best-effort update of the session id; a missing order is left alone. */
    method SetSessionId(id: nat, sessionId: string)
      requires Valid()
      modifies this
      ensures Valid()
      ensures id in old(orders) ==> orders == old(orders)[id := old(orders)[id].(stripeSessionId := Some(sessionId))]
      ensures id !in old(orders) ==> orders == old(orders)
      ensures nextOrderId == old(nextOrderId) && vouchers == old(vouchers) && adoptions == old(adoptions)
    {
      if id in orders {
        orders := orders[id := orders[id].(stripeSessionId := Some(sessionId))];
      }
    }
  }

  /** How many child writes succeed when write number `failAt` (1-based; 0 is the order) throws. */
  function Written(failAt: Option<nat>, n: nat): (w: nat)
    ensures w <= n
  {
    if failAt.Some? && 1 <= failAt.value <= n then failAt.value - 1 else n
  }

  /**
   * The second loop. Write number `failAt` (counting the child writes from 1)
   * throws, which stops the loop; the records written before it stay.
   */
  method CreateChildren(store: ShopStore, items: seq<ShopItem>, buyer: Buyer, bytes: seq<Byte>, failAt: Option<nat>)
    returns (ok: bool)
    requires store.Valid() && |bytes| >= BytesNeeded(items)
    modifies store
    ensures store.Valid()
    ensures var all := Children(items, buyer, bytes);
      var written := all[..Written(failAt, |all|)];
      && (ok <==> Written(failAt, |all|) == |all|)
      && store.vouchers == old(store.vouchers) + VouchersIn(written)
      && store.adoptions == old(store.adoptions) + AdoptionsIn(written)
      && store.orders == old(store.orders) && store.nextOrderId == old(store.nextOrderId)
  {
    var created: seq<Child> := [];
    for i := 0 to |items|
      invariant store.Valid()
      invariant created == ChildrenBefore(items, buyer, bytes, i)
      invariant failAt.Some? ==> failAt.value == 0 || failAt.value > |created|
      invariant store.vouchers == old(store.vouchers) + VouchersIn(created)
      invariant store.adoptions == old(store.adoptions) + AdoptionsIn(created)
      invariant store.orders == old(store.orders) && store.nextOrderId == old(store.nextOrderId)
    {
      var code := LineCode(items[i], BytesOfLine(items, i, bytes));
      var own, written := CreateChildOf(store, items[i], buyer, code, failAt, |created|);
      ChildrenBeforeStep(items, buyer, bytes, i);
      if !written {
        ChildrenBeforePrefix(items, buyer, bytes, i + 1);
        assert Children(items, buyer, bytes)[..|created|] == created;
        return false;
      }
      if failAt.Some? && failAt.value != 0 && own != [] {
        assert failAt.value != |created| + 1;
      }
      ChildrenSplit(created, own);
      AppendAssoc(old(store.vouchers), VouchersIn(created), VouchersIn(own));
      AppendAssoc(old(store.adoptions), AdoptionsIn(created), AdoptionsIn(own));
      created := created + own;
    }
    ChildrenBeforePrefix(items, buyer, bytes, |items|);
    assert Children(items, buyer, bytes)[..|created|] == created;
    ok := true;
  }

  lemma AppendAssoc<T>(a: seq<T>, b: seq<T>, c: seq<T>)
    ensures a + b + c == a + (b + c)
  {
  }

  /** The reference the second loop generates for one cart line, from that line's bytes. */
  method LineCode(item: ShopItem, itemBytes: seq<Byte>) returns (code: string)
    requires |itemBytes| == BytesFor(item)
    ensures code == CodeFor(item, itemBytes)
  {
    code := "";
    if item.kind == VoucherKind {
      var id := Nanoid.Nanoid(VoucherCodeBytes, itemBytes);
      code := "RFP-V" + Upper(id);
    } else if item.kind == AdoptionKind {
      var id := Nanoid.Nanoid(AdoptionReferenceBytes, itemBytes);
      code := "RFP-A" + Upper(id);
    }
  }

  /**
   * The body of the second loop for one cart line with reference `code`, after
   * `done` child writes; write number `done + 1` throws if `failAt` says so.
   */
  method CreateChildOf(store: ShopStore, item: ShopItem, buyer: Buyer, code: string, failAt: Option<nat>, done: nat)
    returns (own: seq<Child>, ok: bool)
    requires store.Valid()
    modifies store
    ensures store.Valid()
    ensures own == ChildOf(item, buyer, code)
    ensures ok <==> !(own != [] && failAt == Some(done + 1))
    ensures ok ==> store.vouchers == old(store.vouchers) + VouchersIn(own)
    ensures ok ==> store.adoptions == old(store.adoptions) + AdoptionsIn(own)
    ensures !ok ==> store.vouchers == old(store.vouchers) && store.adoptions == old(store.adoptions)
    ensures store.orders == old(store.orders) && store.nextOrderId == old(store.nextOrderId)
  {
    var child: Child;
    if item.kind == VoucherKind {
      child := VoucherChild(VoucherFor(item, buyer, code));
    } else if item.kind == AdoptionKind {
      child := AdoptionChild(AdoptionFor(item, buyer, code));
    } else {
      return [], true;
    }
    own := [child];
    if failAt == Some(done + 1) {
      return own, false;
    }
    store.CreateChild(child);
    ok := true;
  }

  // ----- the whole request -----

  datatype Session = Session(id: string, url: string)

  datatype ShopPayment = ShopPayment(
    lineItems: seq<ShopLine>, customerEmail: string, successUrl: string, cancelUrl: string,
    orderId: nat, orderReference: string)

  datatype ShopResponse = ShopFailure(status: int, error: string) | ShopSuccess(url: string, orderReference: string)

  const MissingFieldsResponse := ShopFailure(400, "Missing required fields.")
  const OrderFailedResponse := ShopFailure(500, "Failed to create order. Please try again.")
  const PaymentFailedResponse := ShopFailure(500, "Failed to create payment session.")

  predicate MissingFields(req: ShopRequest) {
    req.items == [] || req.customerName == "" || req.customerEmail == ""
  }

  /** The pending order the handler stores. */
  function PendingOrder(req: ShopRequest, reference: string, settings: SettingsRead): Order {
    var subtotal := Subtotal(req.items);
    var shipping := ShippingCost(req.deliveryMethod, req.items, subtotal, settings);
    Order(reference, OrderItemsOf(req.items),
          if req.deliveryMethod != "" then req.deliveryMethod else "collection",
          if req.deliveryMethod == "shipping" then req.shippingAddress else None,
          shipping, subtotal, subtotal + shipping,
          req.customerName, req.customerEmail, OrNone(req.customerPhone), Pending, None)
  }

  function BuyerOf(req: ShopRequest): Buyer {
    Buyer(req.customerName, req.customerEmail, req.shippingAddress)
  }

  /**
   * The POST handler. `siteEnv` is the site-address setting, `now` the clock,
   * `refBytes` and `childBytes` the random bytes, `settings` the shop-settings read; `failAt` names the store
   * write that throws (0 the order, k the k-th child record), and `session`
   * and `attachOk` say how the payment provider and the session-id update
   * turn out. `payment` is the session request sent, if any.
   */
  method CreateShopCheckout(
    store: ShopStore, req: ShopRequest, siteEnv: string, now: Date, refBytes: seq<Byte>, childBytes: seq<Byte>,
    settings: SettingsRead, failAt: Option<nat>, session: Option<Session>, attachOk: bool)
    returns (resp: ShopResponse, payment: Option<ShopPayment>)
    requires store.Valid()
    requires 0 <= now.year <= 9999 && 0 <= now.month0 < 12 && 1 <= now.day <= 31 && |refBytes| == 4
    requires |childBytes| >= BytesNeeded(req.items)
    modifies store
    ensures store.Valid()
    ensures MissingFields(req) ==>
      resp == MissingFieldsResponse && payment.None?
      && store.orders == old(store.orders) && store.vouchers == old(store.vouchers) && store.adoptions == old(store.adoptions)
    ensures !MissingFields(req) && failAt == Some(0) ==>
      resp == OrderFailedResponse && payment.None?
      && store.orders == old(store.orders) && store.vouchers == old(store.vouchers) && store.adoptions == old(store.adoptions)
    ensures !MissingFields(req) && failAt != Some(0) ==>
      var reference := OrderReference(now, refBytes);
      var id := old(store.nextOrderId);
      var siteUrl := SiteUrl(siteEnv);
      var order := PendingOrder(req, reference, settings);
      var all := Children(req.items, BuyerOf(req), childBytes);
      var done := Written(failAt, |all|);
      && id >= 1 && id !in old(store.orders)
      && store.vouchers == old(store.vouchers) + VouchersIn(all[..done])
      && store.adoptions == old(store.adoptions) + AdoptionsIn(all[..done])
      && (done < |all| ==>
            resp == OrderFailedResponse && payment.None? && store.orders == old(store.orders)[id := order])
      && (done == |all| ==>
            && payment == Some(ShopPayment(PaymentLines(req.items, order.shippingCost), req.customerEmail,
                                           siteUrl + "/checkout/confirmation?ref=" + reference,
                                           siteUrl + "/checkout?cancelled=true", id, reference))
            && (session.None? ==> resp == PaymentFailedResponse && store.orders == old(store.orders)[id := order])
            && (session.Some? ==>
                  && resp == ShopSuccess(session.value.url, reference)
                  && store.orders == old(store.orders)[id := if attachOk
                                                             then order.(stripeSessionId := Some(session.value.id))
                                                             else order]))
  {
    payment := None;
    if |req.items| == 0 || req.customerName == "" || req.customerEmail == "" {
      return MissingFieldsResponse, None;
    }
    var orderReference := OrderReference(now, refBytes);
    var order, lineItems := BuildOrder(req, orderReference, settings);
    if failAt == Some(0) {
      return OrderFailedResponse, None;
    }
    var orderId := store.CreateOrder(order);
    var ok := CreateChildren(store, req.items, BuyerOf(req), childBytes, failAt);
    if !ok {
      return OrderFailedResponse, None;
    }
    var siteUrl := SiteUrl(siteEnv);
    payment := Some(ShopPayment(lineItems, req.customerEmail, siteUrl + "/checkout/confirmation?ref=" + orderReference,
                                siteUrl + "/checkout?cancelled=true", orderId, orderReference));
    if session.None? {
      return PaymentFailedResponse, payment;
    }
    if orderId != 0 && attachOk {
      store.SetSessionId(orderId, session.value.id);
    }
    resp := ShopSuccess(session.value.url, orderReference);
  }

  /** The handler from the first loop to the order record it is about to write. */
  method BuildOrder(req: ShopRequest, orderReference: string, settings: SettingsRead)
    returns (order: Order, lineItems: seq<ShopLine>)
    ensures order == PendingOrder(req, orderReference, settings)
    ensures lineItems == PaymentLines(req.items, order.shippingCost)
  {
    var orderItems, subtotal;
    lineItems, orderItems, subtotal := BuildLines(req.items);
    var shippingCost := ComputeShipping(req.deliveryMethod, req.items, subtotal, settings);
    if shippingCost > 0 {
      lineItems := lineItems + [ShopLine("Standard Shipping", None, shippingCost, 1)];
    }
    var totalAmount := subtotal + shippingCost;
    order := Order(orderReference, orderItems,
                   if req.deliveryMethod != "" then req.deliveryMethod else "collection",
                   if req.deliveryMethod == "shipping" then req.shippingAddress else None,
                   shippingCost, subtotal, totalAmount,
                   req.customerName, req.customerEmail, OrNone(req.customerPhone), Pending, None);
  }

  /** The stored order's total is its subtotal plus shipping, and the subtotal sums the cart lines. */
  lemma PendingOrderTotals(req: ShopRequest, reference: string, settings: SettingsRead)
    ensures var o := PendingOrder(req, reference, settings);
      && o.totalAmount == o.subtotal + o.shippingCost
      && o.subtotal == LineSum(LinesOf(req.items))
      && |o.items| == |req.items|
      && o.status == Pending && o.stripeSessionId.None?
      && (req.deliveryMethod != "shipping" ==> o.shippingCost == 0 && o.shippingAddress.None?)
  {
    SubtotalIsLineSum(req.items);
  }
}
