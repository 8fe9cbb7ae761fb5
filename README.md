# Rutland Farm Park: a verified model of the booking and shop core

This project models, in Dafny, the logic behind the farm park's website: visit booking, the shop checkout, the payment webhook, and the in-browser cart and booking wizard. It then proves properties of that model.

What is modelled:

- **Date rules** (`BookingRules`):
  - which days are weekends, listed 2026 bank holidays or approximate school holidays;
  - which days are charged at the weekend/holiday rate;
  - which days the farm is closed;
  - the `RFP-YYMMDD-XXXX` booking reference.
- **Availability check** (`Availability`): past and closed days are refused first. Then the confirmed visitors of the day are counted against the daily capacity, with family tickets counting four. The check fails open when the store is down.
- **Booking checkout** (`BookingCheckout`, over the `BookingRecords` store):
  - the ordered validation chain;
  - the pricing loop, which skips lines with quantity ≤ 0 and enforces the per-type limit;
  - the running total;
  - the pending booking, which is written before a payment session is requested.
- **Shop checkout** (`ShopCheckout`):
  - the subtotal loop and the mapping of item types;
  - the shipping rule with its `||` fallbacks;
  - the order, voucher and adoption references;
  - the pending voucher and adoption records written for the order.
- **Payment webhook** (`Webhook`):
  - the signature gate;
  - the completed-session and expired-session status changes on the booking store;
  - the confirmation email outbox.
- **Cart** (`CartProvider`): the keyed list of cart lines, with merge-on-add, remove, set-quantity and clear, and the derived totals.
- **Booking wizard components**:
  - the quantity picker (`TicketSelector`);
  - the order summary (`BookingForm`);
  - the month calendar and its click guard (`BookingCalendar`);
  - the three-step wizard (`BookingWidget`).
- **Utilities**:
  - `nanoid` over given random bytes (`Nanoid`);
  - plain-text extraction from CMS rich-text JSON (`Lexical`);
  - small string and date helpers (`Text`, `Dates`, `Wrappers`) and the site address the payment pages return to (`Site`).

Inputs the model treats as parameters:

- the clock: `today`, `now`;
- the `NEXT_PUBLIC_SITE_URL` setting, read as "" when unset (`Site.SiteUrl`);
- random bytes;
- the outcome of every store read or write;
- the payment provider's signature check and session creation.

The CMS collections are modelled as maps or sequences held in classes.

**Dates.** A date is a record `(year, month0, day, weekday)`: the fields JavaScript's `getFullYear`, `getMonth`, `getDate` and `getDay` return. `Dates.DayOfWeek` supplies the weekday of a calendar day and `Dates.DaysInMonth` the month length, in the proleptic Gregorian calendar.

**Behaviour of the code worth knowing:**

- The webhook has no pending-status guard. A cancelled or refunded booking whose session completes becomes confirmed again (`Webhook.RefundedBookingReconfirmed`).
- A redelivered completed event sends the confirmation email again (`Webhook.RedeliveryIdempotent`).
- The webhook ignores shop-order metadata. Shop orders are never updated by it.
- A configured capacity, shipping rate or free-shipping threshold of 0 is replaced by the default, because the code uses `||` (`Availability.ZeroCapacityIsDefault`, `ShopCheckout.ZeroSettingsAreDefaults`).
- The calendar hands on a weekend flag that only tests Saturday and Sunday, and it shows every future Monday closed. So the client and the server disagree:
  - on school-holiday weekday prices;
  - on holiday Mondays;
  - on 25 December and 1 January that do not fall on a Monday.

  `BookingWidget.ClientRateDisagreesOnSchoolHoliday`, `BookingWidget.ClientClosesOpenHolidayMonday` and `BookingWidget.ClientOpensChristmas` prove concrete cases.

## Model

| member | source | states |
|---|---|---|
| `Text.OrNone` | src/app/api/bookings/create-checkout/route.ts:143-144 | `value \|\| undefined` on a text field: absent exactly when the text is empty, otherwise that text |
| `Text.UpperChars` | src/lib/booking.ts:6 | every character of `toUpperCase(s)` is the upper-case form of the character at the same place (ASCII letters change, nothing else does) |
| `Text.LowerChars` | src/app/api/bookings/check-availability/route.ts:62 | every character of `toLowerCase(s)` is the lower-case form of the character at the same place |
| `Text.ContainsIff` | src/app/api/bookings/check-availability/route.ts:64 | the left-to-right `includes` scan holds exactly when the pattern occurs at some offset |
| `Text.Pad2RoundTrip` | src/lib/booking.ts:5 | a two-digit zero-padded field reads back as the number it spells |
| `Text.NatToString` | src/app/api/bookings/create-checkout/route.ts:91 | a natural number is spelled with at least one decimal digit, one digit exactly below 10, and no leading zero |
| `Text.NatToStringValue` | src/app/api/bookings/create-checkout/route.ts:91 | the decimal spelling reads back as the number spelled |
| `Text.IntToString` | src/app/api/bookings/create-checkout/route.ts:91 | `${n}` starts with a minus sign exactly when n < 0; the digits after any sign read back as the magnitude of n, with no leading zero |
| `Dates.DaysInMonth` | src/components/booking/BookingCalendar.tsx:27 | a month has 28 to 31 days, and February has 29 exactly in leap years |
| `Dates.DayOfWeek` | src/components/booking/BookingCalendar.tsx:28 | the `getDay` weekday of a calendar day lies in 0..6 |
| `Dates.DayOfWeekNext` | src/components/booking/BookingCalendar.tsx:39-40 | inside a month the weekday advances by one (mod 7) per day |
| `Dates.MakeDate` | src/components/booking/BookingCalendar.tsx:40 | `new Date(y, m, d)` for a day of the month is a valid record with exactly those fields and the right weekday |
| `Dates.NewYear2026IsThursday` | src/lib/booking.ts:17 | the weekday calculation puts 1 January 2026 on a Thursday |
| `Dates.YearShiftStep` | src/components/booking/BookingCalendar.tsx:28 | the year term of the weekday formula grows by 2 over a leap year and by 1 over any other year |
| `Dates.DayOfWeekAcrossMonths` | src/components/booking/BookingCalendar.tsx:27-28 | the 1st of a month is the weekday after the last day of the month before, December to January included; with the one-day step and the anchor this fixes every date's weekday |
| `Site.SiteUrl` | src/app/api/bookings/create-checkout/route.ts:158 | the site address is the setting when it is non-empty and `http://localhost:3000` otherwise, never empty |
| `Nanoid.AlphabetChar` | src/lib/nanoid.ts:1 | alphabet position k is an upper-case letter for k < 26, a lower-case letter for 26..51 and a digit for 52..61 |
| `Nanoid.AlphabetSpelled` | src/lib/nanoid.ts:1 | the alphabet is A–Z, then a–z, then 0–9 |
| `Nanoid.AlphabetCharSpelled` | src/lib/nanoid.ts:1 | the alphabet has 62 characters and character k of the literal is `AlphabetChar(k)` |
| `Nanoid.NanoidOf` | src/lib/nanoid.ts:3-10 | the identifier has one character per byte |
| `Nanoid.NanoidChars` | src/lib/nanoid.ts:5-8 | character i is `alphabet[bytes[i] % 62]`, so the output is determined by the bytes |
| `Nanoid.Nanoid` | src/lib/nanoid.ts:3-10 | the append loop builds exactly `NanoidOf(bytes)` for `size` bytes |
| `Nanoid.NanoidDefault` | src/lib/nanoid.ts:3 | with no size given the identifier has 21 characters |
| `Nanoid.NanoidIsAlphanumeric` | src/lib/nanoid.ts:1-8 | every output character is in the 62-character alphabet: a letter or a digit |
| `Nanoid.UpperNanoidIsUpperAlphanumeric` | src/lib/booking.ts:6 | an upper-cased identifier consists of A–Z and 0–9 only, at its original length |
| `BookingRules.WeekendIff` | src/lib/booking.ts:10-13 | a weekend is exactly weekday 0 (Sunday) or 6 (Saturday) |
| `BookingRules.BankHolidayIff` | src/lib/booking.ts:16-30 | a bank holiday is exactly one of the eight listed 2026 dates; no date of another year qualifies |
| `BookingRules.SchoolHolidayIgnoresYearAndWeekday` | src/lib/booking.ts:32-54 | the school-holiday test depends on the month and day alone |
| `BookingRules.AugustIsSchoolHoliday` | src/lib/booking.ts:46 | every August day is a school holiday and so priced at the weekend/holiday rate |
| `BookingRules.ChristmasAndNewYearClosed` | src/lib/booking.ts:65-68 | 25 December and 1 January are closed whatever their weekday |
| `BookingRules.MondayClosedIff` | src/lib/booking.ts:61-63 | a Monday is closed exactly when it is neither a bank nor a school holiday, or is 25 Dec / 1 Jan |
| `BookingRules.OnlyMondaysOtherwiseClosed` | src/lib/booking.ts:60-70 | a day that is not a Monday, 25 December or 1 January is never closed |
| `BookingRules.ClosedMondayIsWeekdayRate` | src/lib/booking.ts:56-63 | a closed Monday (other than 25 Dec / 1 Jan) is never in the weekend/holiday price tier |
| `BookingRules.DateStamp` | src/lib/booking.ts:5 | the `YYMMDD` stamp is six decimal digits |
| `BookingRules.DateStampRoundTrip` | src/lib/booking.ts:5 | the stamp keeps the two-digit year, the month and the day |
| `BookingRules.BookingReferenceFormat` | src/lib/booking.ts:3-8 | a booking reference is `RFP-`, the date stamp, `-` and the four upper-cased nanoid characters: 15 characters, the suffix only A–Z0–9 |
| `Availability.Capacity` | src/app/api/bookings/check-availability/route.ts:35-42 | the configured capacity when it is non-zero; 100 when it is 0 or the settings read failed |
| `Availability.ConfirmedOn` | src/app/api/bookings/check-availability/route.ts:48-55 | the query returns exactly the stored bookings of that day whose status is confirmed |
| `Availability.CountBooked` | src/app/api/bookings/check-availability/route.ts:57-70 | the nested loops add up exactly the visitors of the returned bookings |
| `Availability.Decide` | src/app/api/bookings/check-availability/route.ts:75-82 | remaining is max(0, capacity − booked), available iff remaining > 0, and the "fully booked" reason is present iff remaining ≤ 0 |
| `Availability.CheckAvailability` | src/app/api/bookings/check-availability/route.ts:10-82 | a missing date gives a 400; a past date and then a closed day are refused before any read; otherwise the decision uses the capacity and, when the store is down, a count of 0 |
| `Availability.ZeroCapacityIsDefault` | src/app/api/bookings/check-availability/route.ts:39 | a configured capacity of 0 behaves as a failed settings read: 100 |
| `Availability.FailsOpen` | src/app/api/bookings/check-availability/route.ts:71-75 | with nothing counted the day is available exactly when capacity is positive, with all of it remaining |
| `Availability.TicketsVisitorsAppend` | src/app/api/bookings/check-availability/route.ts:60-69 | visitor counts add up over concatenated ticket lists |
| `Availability.TicketsVisitorsNonNegative` | src/app/api/bookings/check-availability/route.ts:60-69 | lines with non-negative quantities never count negatively |
| `Availability.AddingRecordCounts` | src/app/api/bookings/check-availability/route.ts:44-70 | a new stored booking raises the day's count by its visitors exactly when it is confirmed for that day |
| `Availability.FamilyLineCountsFour` | src/app/api/bookings/check-availability/route.ts:61-68 | a "Family" line counts four visitors per ticket, an "Adult" line one |
| `Availability.ScenarioRemaining89` | src/app/api/bookings/check-availability/route.ts:57-82 | capacity 100 with one confirmed booking of 2 Family + 3 Adult leaves 89 places, available |
| `BookingRecords.BookingStore.constructor` | src/app/api/bookings/create-checkout/route.ts:130-147 | the booking collection starts empty, with the first id to hand out 1 |
| `BookingRecords.BookingStore.Create` | src/app/api/bookings/create-checkout/route.ts:134-148 | a booking is stored under a fresh id of at least 1 (never the falsy 0); every other record stays |
| `BookingRecords.BookingStore.SetSessionId` | src/app/api/bookings/create-checkout/route.ts:176-189 | only that booking's session id changes; an unknown id changes nothing |
| `BookingCheckout.Find` | src/app/api/bookings/create-checkout/route.ts:79-81 | the type found has the requested id and is in the catalogue; none found means no type has that id |
| `BookingCheckout.LineItemsOf` | src/app/api/bookings/create-checkout/route.ts:103-113 | one payment line item per stored line, same order, with its name + " - Rutland Farm Park", unit price and quantity |
| `BookingCheckout.PriceSelections` | src/app/api/bookings/create-checkout/route.ts:76-121 | the pricing loop returns the first line rejection in request order, or else the stored lines, their line items and their total |
| `BookingCheckout.PricingErrorPrefix` | src/app/api/bookings/create-checkout/route.ts:82-94 | a rejection found while scanning a prefix is the rejection the whole request returns |
| `BookingCheckout.ValidateAndPrice` | src/app/api/bookings/create-checkout/route.ts:31-128 | the handler's checks and pricing, in order, agree with the declarative `Prepare` chain |
| `BookingCheckout.InitiateBooking` | src/app/api/bookings/create-checkout/route.ts:12-202 | a rejection writes nothing and requests no payment. Otherwise a pending booking is stored first under a non-zero id, and a session is requested only after that write, with the success and cancel URLs under the site address. A successful session-id update sets only that record's session id. A failed one leaves the pending record without it and does not change the success response. |
| `BookingCheckout.PricingErrorAppend` | src/app/api/bookings/create-checkout/route.ts:76-94 | a rejection earlier in the request takes precedence over any later one |
| `BookingCheckout.ZeroQuantityNeverRejected` | src/app/api/bookings/create-checkout/route.ts:77 | a line of quantity 0 is skipped before lookup: no error even for an unknown id, and no stored line |
| `BookingCheckout.OverLimitRejected` | src/app/api/bookings/create-checkout/route.ts:89-94 | a quantity above `maxPerBooking \|\| 10` of a known type is rejected with a message naming the limit and the type |
| `BookingCheckout.UnknownTypeRejected` | src/app/api/bookings/create-checkout/route.ts:79-87 | a positive quantity of an unknown type is rejected naming the id |
| `BookingCheckout.Positive` | src/app/api/bookings/create-checkout/route.ts:77 | the lines the loop does not skip all have a positive quantity |
| `BookingCheckout.PricedLinesFollowRequest` | src/app/api/bookings/create-checkout/route.ts:96-120 | stored lines match the positive requested lines one for one, in order. Each carries its type's name, and the weekend price exactly when the weekend tier applies. Its quantity is within the type's limit. |
| `BookingCheckout.TotalIsSumOfLines` | src/app/api/bookings/create-checkout/route.ts:96-128 | an accepted request has at least one line, its total is the sum of unit price × quantity over the stored lines, line items match stored lines, and the booking is pending |
| `BookingCheckout.MissingFieldsFirst` | src/app/api/bookings/create-checkout/route.ts:32-37 | a missing date, empty ticket list, missing name or missing email is rejected before any other check |
| `BookingCheckout.PastBeforeClosed` | src/app/api/bookings/create-checkout/route.ts:43-45 | a past date is rejected before the closed-day check and whatever the catalogue read gives |
| `BookingCheckout.ClosedBeforeCatalog` | src/app/api/bookings/create-checkout/route.ts:47-49 | a closed day is rejected before the catalogue is read |
| `BookingCheckout.AugustFourthWeekendPriced` | src/app/api/bookings/create-checkout/route.ts:69 | Tuesday 4 August 2026 is open and charged at the weekend/holiday rate |
| `BookingCheckout.TwoAdultsAtWeekendRate` | src/app/api/bookings/create-checkout/route.ts:96-120 | two adult tickets at the weekend rate give one stored line of 2 × 1400 |
| `BookingCheckout.AugustTuesdayScenario` | src/app/api/bookings/create-checkout/route.ts:68-128 | two adults on 4 August 2026 are accepted with one line item of 2 × 1400 and a total of 2800 |
| `ShopCheckout.ItemTypeOf` | src/app/api/shop/create-checkout/route.ts:48 | 'voucher' and 'adoption' map to themselves; every other type, known or not, maps to 'product' |
| `ShopCheckout.LinesOf` | src/app/api/shop/create-checkout/route.ts:35-45 | one payment line per cart line, same order, with its name, variant, price and quantity |
| `ShopCheckout.OrderItemsOf` | src/app/api/shop/create-checkout/route.ts:47-54 | one order item per cart line, same order |
| `ShopCheckout.BuildLines` | src/app/api/shop/create-checkout/route.ts:31-55 | the first loop builds exactly those lines and order items and the subtotal Σ price × quantity |
| `ShopCheckout.SubtotalAppend` | src/app/api/shop/create-checkout/route.ts:31-33 | the subtotal of two carts together is the sum of their subtotals |
| `ShopCheckout.SubtotalIsLineSum` | src/app/api/shop/create-checkout/route.ts:31-45 | the subtotal equals the sum of unit amount × quantity over the payment lines |
| `ShopCheckout.ProductOnlyForProducts` | src/app/api/shop/create-checkout/route.ts:48-49 | only 'product' lines reference a product; an unknown type is a product line without one |
| `ShopCheckout.ComputeShipping` | src/app/api/shop/create-checkout/route.ts:57-74 | the handler's reassignments of `shippingCost` give exactly the shipping rule, settings fallbacks included |
| `ShopCheckout.NoShippingUnlessPhysical` | src/app/api/shop/create-checkout/route.ts:57-63 | nothing is charged unless delivery is 'shipping' and some line is a product or an adoption |
| `ShopCheckout.ChargedShipping` | src/app/api/shop/create-checkout/route.ts:66-73 | when shipping applies it is free from the threshold on and the (non-zero) standard rate below it |
| `ShopCheckout.ZeroSettingsAreDefaults` | src/app/api/shop/create-checkout/route.ts:68-72 | configured zeros behave as an unreadable settings global: 395 below 3000 |
| `ShopCheckout.FreeShippingMonotone` | src/app/api/shop/create-checkout/route.ts:70 | an order that ships free still ships free with a larger subtotal |
| `ShopCheckout.PaymentLinesTotal` | src/app/api/shop/create-checkout/route.ts:76-88 | the payment lines sum to subtotal + shipping, with a shipping line exactly when shipping costs something |
| `ShopCheckout.OrderReferenceFormat` | src/app/api/shop/create-checkout/route.ts:23 | an order reference is `RFP-S`, six digits, `-` and four of A–Z0–9: 16 characters |
| `ShopCheckout.PrefixedCode` | src/app/api/shop/create-checkout/route.ts:115 | a prefix followed by an upper-cased nanoid keeps the prefix and adds only A–Z0–9, one per byte |
| `ShopCheckout.ChildReferenceFormats` | src/app/api/shop/create-checkout/route.ts:115-138 | voucher codes are `RFP-V` + 8 of A–Z0–9 (13 chars); adoption references `RFP-A` + 6 (11 chars) |
| `ShopCheckout.ChildOf` | src/app/api/shop/create-checkout/route.ts:113-163 | a cart line produces at most one child record |
| `ShopCheckout.ChildOfShape` | src/app/api/shop/create-checkout/route.ts:113-163 | a voucher line yields exactly one voucher, an adoption line one adoption, any other line nothing |
| `ShopCheckout.ChildOfVoucherPending` | src/app/api/shop/create-checkout/route.ts:119-133 | the voucher is pending, bought by the customer, with its whole amount as remaining balance |
| `ShopCheckout.ChildOfAdoptionPending` | src/app/api/shop/create-checkout/route.ts:143-162 | the adoption is pending and adopted by the customer |
| `ShopCheckout.ChildrenCount` | src/app/api/shop/create-checkout/route.ts:113-164 | the second loop writes one voucher per voucher line, one adoption per adoption line and nothing else |
| `ShopCheckout.ChildrenPending` | src/app/api/shop/create-checkout/route.ts:113-164 | every record the second loop writes is pending and made out to the customer |
| `ShopCheckout.VoucherRecipientDefault` | src/app/api/shop/create-checkout/route.ts:123-127 | amount = remaining balance = price; the recipient name defaults to the customer's name |
| `ShopCheckout.ShopStore.constructor` | src/app/api/shop/create-checkout/route.ts:92-110 | the orders, gift-vouchers and adoptions collections start empty, with the first order id 1 |
| `ShopCheckout.ShopStore.CreateOrder` | src/app/api/shop/create-checkout/route.ts:94-110 | an order is stored under a fresh id of at least 1; the other collections stay |
| `ShopCheckout.ShopStore.CreateChild` | src/app/api/shop/create-checkout/route.ts:119-162 | a voucher is appended to the vouchers, an adoption to the adoptions; orders stay |
| `ShopCheckout.ShopStore.SetSessionId` | src/app/api/shop/create-checkout/route.ts:190-201 | only that order's session id changes; an unknown id changes nothing |
| `ShopCheckout.LineCode` | src/app/api/shop/create-checkout/route.ts:115-138 | the reference a line gets is computed from its own bytes by the nanoid loop |
| `ShopCheckout.CreateChildOf` | src/app/api/shop/create-checkout/route.ts:113-163 | one pass of the loop writes that line's record, or nothing if that write throws |
| `ShopCheckout.CreateChildren` | src/app/api/shop/create-checkout/route.ts:113-171 | the loop writes the records of the lines in order. A throwing write stops it, and the records written before it stay. |
| `ShopCheckout.BuildOrder` | src/app/api/shop/create-checkout/route.ts:26-109 | the order record and payment lines the handler prepares are the pending order and its payment lines |
| `ShopCheckout.CreateShopCheckout` | src/app/api/shop/create-checkout/route.ts:7-213 | missing fields are rejected with no write. A failed order or child write returns 500 and requests no payment; an already-written order stays. Otherwise a payment session is requested, with the success and cancel URLs under the site address, and the session-id update is best-effort. |
| `ShopCheckout.PendingOrderTotals` | src/app/api/shop/create-checkout/route.ts:88-108 | total = subtotal + shipping; the subtotal sums the lines; the order is pending; without shipping no cost and no address |
| `Webhook.Outbox.Send` | src/app/api/webhooks/stripe/route.ts:54-65 | a sent email is appended to the outbox |
| `Webhook.Handle` | src/app/api/webhooks/stripe/route.ts:7-93 | a missing signature and a failed verification give 400 and touch nothing. After verification the answer is always `{received: true}`, the records become `Next` and the emails `EmailsFor`. |
| `Webhook.ConfirmChangesOnlyThatBooking` | src/app/api/webhooks/stripe/route.ts:27-45 | a completed session confirms the named booking, records the payment intent, changes no other field and no other record |
| `Webhook.CancelChangesOnlyThatBooking` | src/app/api/webhooks/stripe/route.ts:74-89 | an expired session cancels the named booking whatever its status and leaves the others |
| `Webhook.ConfirmIgnoresPriorStatus` | src/app/api/webhooks/stripe/route.ts:38-45 | the confirmed record does not depend on the status it had before |
| `Webhook.RefundedBookingReconfirmed` | src/app/api/webhooks/stripe/route.ts:38-45 | a refunded or cancelled booking whose session completes becomes confirmed |
| `Webhook.RedeliveryIdempotent` | src/app/api/webhooks/stripe/route.ts:38-66 | a redelivered event leaves the same record state and sends the same email again |
| `Webhook.NoBookingNoChange` | src/app/api/webhooks/stripe/route.ts:27-90 | no booking id, another event type, or a throwing store changes nothing and sends nothing |
| `Webhook.EmailOnlyOnConfirmation` | src/app/api/webhooks/stripe/route.ts:47-66 | at most one email, sent exactly for a completed session on a stored booking, to its customer with its total |
| `CartProvider.Cart.constructor` | src/components/cart/CartProvider.tsx:52-60 | a new cart is empty |
| `CartProvider.Cart.AddItem` | src/components/cart/CartProvider.tsx:66-76 | the cart becomes `Added(old)`; unique ids stay unique |
| `CartProvider.Cart.RemoveItem` | src/components/cart/CartProvider.tsx:78-80 | the cart becomes `Removed(old)`; unique ids stay unique |
| `CartProvider.Cart.UpdateQuantity` | src/components/cart/CartProvider.tsx:82-88 | the cart becomes `Updated(old)`; unique ids stay unique |
| `CartProvider.Cart.ClearCart` | src/components/cart/CartProvider.tsx:90-92 | the cart becomes empty |
| `CartProvider.SumAppend` | src/components/cart/CartProvider.tsx:94-102 | every derived total adds up over concatenated carts |
| `CartProvider.AddedIds` | src/components/cart/CartProvider.tsx:66-76 | a new id is appended at the end; an existing id leaves the id list unchanged |
| `CartProvider.AddedKeepsIdsUnique` | src/components/cart/CartProvider.tsx:66-76 | adding keeps the line ids unique |
| `CartProvider.AddedMergesOneLine` | src/components/cart/CartProvider.tsx:68-72 | adding an existing id only raises that line's quantity by the added quantity |
| `CartProvider.AddedTotals` | src/components/cart/CartProvider.tsx:66-95 | adding raises the count by the added quantity and the subtotal by that quantity times the price of the line it lands on |
| `CartProvider.RemovedHasNoId` | src/components/cart/CartProvider.tsx:78-80 | after removal no line has that id, and the cart is no longer |
| `CartProvider.RemovedAppend` | src/components/cart/CartProvider.tsx:79 | removal filters each part of a concatenation: the order of the rest is kept |
| `CartProvider.RemovedAbsent` | src/components/cart/CartProvider.tsx:79 | removing an id that is not there changes nothing |
| `CartProvider.RemovedOneLine` | src/components/cart/CartProvider.tsx:78-80 | with unique ids, removal drops exactly the one line with that id |
| `CartProvider.RemovedKeepsIdsUnique` | src/components/cart/CartProvider.tsx:78-80 | removing keeps the line ids unique |
| `CartProvider.RemovedTotals` | src/components/cart/CartProvider.tsx:78-102 | removal lowers count, subtotal and weight by exactly the removed line's share |
| `CartProvider.UpdatedSetsOneLine` | src/components/cart/CartProvider.tsx:85-86 | a positive quantity sets only that line's quantity and moves the count accordingly; an absent id changes nothing |
| `CartProvider.UpdatedNonPositiveRemoves` | src/components/cart/CartProvider.tsx:83-84 | a quantity of 0 or less behaves as removeItem |
| `CartProvider.HasPhysicalItemsIff` | src/components/cart/CartProvider.tsx:96-98 | physical items exist exactly when some line is a product not marked `requiresShipping: false`, or an adoption |
| `CartProvider.ClearedTotals` | src/components/cart/CartProvider.tsx:90-102 | an empty cart has count, subtotal and weight 0 and no physical items |
| `TicketSelector.Initial` | src/components/booking/TicketSelector.tsx:31-37 | the initial record holds exactly the ticket-type ids, each with 0 |
| `TicketSelector.KeyOrder` | src/components/booking/TicketSelector.tsx:54 | the record's keys are exactly the ticket-type ids, each listed once, so the sum over `Object.values` counts every id once |
| `TicketSelector.Selector.constructor` | src/components/booking/TicketSelector.tsx:31-37 | the `forEach` loop builds the initial record, and the state is valid |
| `TicketSelector.Selector.UpdateQuantity` | src/components/booking/TicketSelector.tsx:39-46 | the record becomes `Stepped(old)` and stays a non-negative record over the type ids |
| `TicketSelector.FindIndex` | src/components/booking/TicketSelector.tsx:41 | a type that `find` returns sits at an index of the list |
| `TicketSelector.InitialSelectsNothing` | src/components/booking/TicketSelector.tsx:31-64 | at the start no tickets are counted, nothing is selected and the total is 0 |
| `TicketSelector.ZeroTickets` | src/components/booking/TicketSelector.tsx:54 | an all-zero record counts no tickets |
| `TicketSelector.ZeroSelections` | src/components/booking/TicketSelector.tsx:48-64 | an all-zero record confirms nothing and totals 0 |
| `TicketSelector.SteppedBounds` | src/components/booking/TicketSelector.tsx:39-46 | an unknown id changes nothing. Otherwise the new quantity is the old one + delta, clamped to 0..maxPerBooking. The id is added to the keys; no other key changes. |
| `TicketSelector.SelectionsArePositive` | src/components/booking/TicketSelector.tsx:56-64 | every emitted selection is a listed type with its recorded, positive quantity |
| `TicketSelector.SelectionsAppend` | src/components/booking/TicketSelector.tsx:57-62 | selections keep the ticket-type order |
| `TicketSelector.SelectionsEmptyIff` | src/components/booking/TicketSelector.tsx:57-58 | nothing is selected exactly when no type has a positive quantity |
| `TicketSelector.SumQtyZeroIff` | src/components/booking/TicketSelector.tsx:54 | with non-negative quantities the ticket count is 0 exactly when every quantity is 0 |
| `TicketSelector.ConfirmDisabledIff` | src/components/booking/TicketSelector.tsx:129 | for a selector state, Continue is disabled (`totalTickets === 0`) exactly when confirming would emit no selection |
| `BookingForm.RowsArePriced` | src/components/booking/BookingForm.tsx:46-57 | every summary row names a known type and its name, has the weekend price exactly when the rate says so, and has subtotal = price × quantity |
| `BookingForm.SelectedTicketsAppend` | src/components/booking/BookingForm.tsx:46-58 | the summary keeps the order of the selections |
| `BookingForm.SelectedTicketsOne` | src/components/booking/BookingForm.tsx:48-58 | a selection of an unknown type is dropped; a known one gives one row with its id and quantity |
| `BookingForm.SubtotalSumAppend` | src/components/booking/BookingForm.tsx:66 | the total adds up over concatenated rows |
| `BookingForm.FindOwnId` | src/components/booking/BookingForm.tsx:48 | with unique ids, looking up a type's own id finds that type |
| `BookingForm.OneKnownSelectionTotal` | src/components/booking/BookingForm.tsx:46-66 | one selection of a known type totals unit price × quantity |
| `BookingForm.SummaryMatchesSelector` | src/components/booking/BookingForm.tsx:66 | with unique type ids and non-negative quantities, the summary total of the confirmed selections equals the selector's total |
| `BookingForm.SummaryMatchesOnPrefix` | src/components/booking/BookingForm.tsx:46-66 | the same equality on every prefix of the type list |
| `BookingForm.SummaryStep` | src/components/booking/BookingForm.tsx:46-66 | one more type adds its price × quantity to the summary total |
| `BookingCalendar.StartOffset` | src/components/booking/BookingCalendar.tsx:30 | the Monday-first column lies in 0..6 and is one less than the weekday, Sunday going to 6 |
| `BookingCalendar.Days` | src/components/booking/BookingCalendar.tsx:37-48 | the loop yields one cell per day of the month, in order, cell k being day k + 1 |
| `BookingCalendar.Calendar.constructor` | src/components/booking/BookingCalendar.tsx:20-24 | the calendar opens on today's month and year |
| `BookingCalendar.Calendar.GoNext` | src/components/booking/BookingCalendar.tsx:59-66 | the shown month moves to `NextMonth`; the month stays in 0..11 |
| `BookingCalendar.Calendar.GoPrev` | src/components/booking/BookingCalendar.tsx:50-57 | the shown month moves to `PrevMonth`; the month stays in 0..11 |
| `BookingCalendar.DayOfWeekFromFirst` | src/components/booking/BookingCalendar.tsx:27-30 | the weekday of day d is d − 1 days after the weekday of the 1st |
| `BookingCalendar.ModShift` | src/components/booking/BookingCalendar.tsx:30 | adding to a remainder mod 7 is adding before taking it |
| `BookingCalendar.GridColumnIsWeekday` | src/components/booking/BookingCalendar.tsx:28-46 | after the start offset each day lands in the Monday-first column of its own weekday |
| `BookingCalendar.DayCells` | src/components/booking/BookingCalendar.tsx:10-17 | a cell is its valid date; closed iff Monday and not past; weekend iff weekday 0 or 6; past iff before today |
| `BookingCalendar.MonthNavigation` | src/components/booking/BookingCalendar.tsx:50-66 | both moves keep the month in 0..11, wrap exactly at December/January, and undo each other |
| `BookingCalendar.CanGoPrevIff` | src/components/booking/BookingCalendar.tsx:68 | the back arrow is enabled exactly on months after today's, and not on the opening month |
| `BookingCalendar.DateClickOutcomes` | src/components/booking/BookingCalendar.tsx:70-96 | past or closed cells ignore the click. Any other cell is selected, with its date and weekend flag, unless the check answers `available: false`, which gives a non-empty alert. A failed check still selects. |
| `BookingWidget.StepIndex` | src/components/booking/BookingWidget.tsx:37 | the step's index lies in 0..2 and names that step |
| `BookingWidget.Widget.constructor` | src/components/booking/BookingWidget.tsx:26-29 | the wizard starts on the date step with no date, no tickets and the weekday rate |
| `BookingWidget.Widget.HandleDateSelect` | src/components/booking/BookingWidget.tsx:39-43 | the date and rate are recorded and the tickets step shown; tickets are kept |
| `BookingWidget.Widget.HandleTicketsConfirm` | src/components/booking/BookingWidget.tsx:45-48 | the selections are recorded and the details step shown; date and rate are kept |
| `BookingWidget.Widget.IndicatorClick` | src/components/booking/BookingWidget.tsx:58-61 | the step becomes `IndicatorTarget`; nothing else changes |
| `BookingWidget.Widget.ChangeDate` | src/components/booking/BookingWidget.tsx:88 | "Change date" goes from tickets to date, keeping everything else |
| `BookingWidget.Widget.ChangeTickets` | src/components/booking/BookingWidget.tsx:123 | "Change tickets" goes from details to tickets, keeping everything else |
| `BookingWidget.IndicatorOnlyBackwards` | src/components/booking/BookingWidget.tsx:58-61 | an indicator click never moves forward; it changes the step exactly to a strictly earlier step it names |
| `BookingWidget.IndicatorFromEnds` | src/components/booking/BookingWidget.tsx:58-61 | from the date step no click moves; from details both earlier steps are reachable |
| `BookingWidget.ClientRateDisagreesOnSchoolHoliday` | src/components/booking/BookingCalendar.tsx:44 | on 4 August 2026 the calendar hands on the weekday rate, which the server does not use. Two adults are summarised as 2000 but charged 2800. |
| `BookingWidget.ClientClosesOpenHolidayMonday` | src/components/booking/BookingCalendar.tsx:43 | Monday 3 August 2026 is shown closed and ignores clicks, though the server would accept it |
| `BookingWidget.ClientOpensChristmas` | src/components/booking/BookingCalendar.tsx:42-43 | 25 December 2026 (a Friday) can be clicked, though the server treats it as closed |
| `Lexical.Get` | src/lib/lexical.ts:16 | a property read finds a member with that key, or there is none |
| `Lexical.ExtractTextFromLexical` | src/lib/lexical.ts:5-22 | a string is returned unchanged; any non-string, non-object value gives "" |
| `Lexical.ExtractTextFromChildren` | src/lib/lexical.ts:24-37 | the loop builds exactly the pre-order concatenation `ChildrenText` |
| `Lexical.ChildContribution` | src/lib/lexical.ts:26-35 | one child appends its own text and then its children's text |
| `Lexical.ChildrenTextAppend` | src/lib/lexical.ts:24-37 | extraction distributes over concatenated child lists |
| `Lexical.TextNodeBeforeChildren` | src/lib/lexical.ts:29-34 | a text node's own text precedes its children's |
| `Lexical.ObjectsOnly` | src/lib/lexical.ts:27 | the children kept are objects (or arrays), at most as many as before |
| `Lexical.NonObjectChildrenSkipped` | src/lib/lexical.ts:27 | non-object children contribute nothing |
| `Lexical.MissingRootChildrenIsEmpty` | src/lib/lexical.ts:16-19 | without an array at `root.children` the result is "" |
| `Lexical.TextNode` | src/lib/lexical.ts:29-31 | a text node contributes exactly its text |
| `Lexical.LeafNullLeafText` | src/lib/lexical.ts:26-35 | a text, a null and a text give the two texts in order |
| `Lexical.ParagraphText` | src/lib/lexical.ts:32-34 | a non-text node contributes the text of its children |
| `Lexical.DocumentText` | src/lib/lexical.ts:15-21 | a document's text is its root children's text |
| `Lexical.ParagraphExample` | src/lib/lexical.ts:5-37 | a root holding one paragraph [text a, null, text b] yields a + b |

## Left out

- Time zones:
  - `isBankHoliday` compares the UTC ISO date. `isSchoolHoliday`, `isClosedDay` and the calendar use local getters. The calendar also hands on `toISOString()` of a local midnight.
  - The model uses one calendar date for all of them, so it does not capture a date shifting across midnight between UTC and local time.
  - The JavaScript Date engine is represented only by `Dates.DaysInMonth` and `Dates.DayOfWeek`.
- String-to-date parsing of the request's `date` is not modelled. The handlers receive the parsed calendar date, or None for a missing one.
- A value of the wrong JSON type (for example a string quantity) is not modelled. Absent text fields are "".
- An absent ticket or item quantity is modelled as 0. The source does not treat it so: `undefined <= 0` is false at src/app/api/bookings/create-checkout/route.ts:77, so such a line is priced with a NaN total. The model instead skips it. NaN arithmetic is not modelled.
- An absent `requiresShipping` flag is kept as absent (`Option<bool>`): `!== false` counts it as shipped (src/components/cart/CartProvider.tsx:96-98).
- The catch-all 500 answers for a request body that is not JSON, or for any other exception outside the inner handlers, are not modelled. They are at src/app/api/bookings/check-availability/route.ts:83-88, src/app/api/bookings/create-checkout/route.ts:203-208 and src/app/api/shop/create-checkout/route.ts:214-219.
- Letter case is mapped for ASCII letters only. Unicode case mapping is not modelled.
- Item `type` strings are the `Kind` datatype. An unknown type string is `OtherKind`.
- Email delivery, SMTP and HTML templating (src/lib/email.ts) are not modelled. A confirmation email is a record appended to an outbox.
- Inside the payment provider:
  - signature verification is a boolean;
  - a payment session is a present or absent id/url pair;
  - the line-item description text, the payment-method list, the customer email field and the metadata other than the record id and reference are not modelled.
- CMS internals are not modelled. A store read is data or a failure; a write succeeds or throws.
- The webhook's record read-back (`findByID`) is taken to return the record as updated. The email is built from the updated record.
- Random bytes are parameters.
  - `Nanoid.Nanoid` requires exactly `size` bytes: the source draws them itself.
  - `ShopCheckout.CreateShopCheckout` requires enough bytes for all voucher and adoption lines, 8 and 6 per line, consumed in item order.
- Record timestamps are not modelled: the vouchers' and adoptions' `expiresAt`/`startsAt`, one year from now.
- Fields the logic never reads are not modelled: the shop item's image, variant index and animal/tier names.
- The cart's `localStorage` load and save (src/components/cart/CartProvider.tsx:52-64) are not modelled. The model cart starts empty, and unique ids are kept as an invariant from there. A saved cart with duplicate ids is outside it.
- `formatPrice` and every other display formatting use floating point and are not modelled.
- Not modelled: React rendering, the `checking` spinner state, `alert` and the selector's remount when the wizard returns to the tickets step.
- The race between the availability check and the checkout creation is not modelled. It is a concurrency property with no lock in the code.
- BookingWidget.Widget.ChangeDate: requires the tickets step, because the button exists only there.
- BookingWidget.Widget.ChangeTickets: requires the details step, for the same reason.
- BookingForm.SummaryMatchesSelector: states the equality only for unique type ids and non-negative quantities. With duplicate ids `find` picks the first type, and the two totals can differ.
- TicketSelector.ConfirmDisabledIff: is stated for a record over exactly the type ids with non-negative quantities, the states the selector can reach.
