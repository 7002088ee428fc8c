/** Checkout and webhook reconciliation (`controllers/stripeController.js`).

    Stripe itself is outside the model: what `sessions.create`, `sessions.retrieve` and
    `webhooks.constructEvent` return is passed in as a parameter, with None (or
    `VerificationFailed`) standing for a call that threw. Amounts are integer cents. */
module StripeController {
  import opened Base
  import opened Records
  import P = PaymentModel
  import O = OrderModel

  /** The name of the delivery-fee pseudo-product on the Stripe side. */
  const FeeName: string := "Frais de livraison"

  /** 5 euros, the fee for home delivery. */
  const HomeDeliveryFee: int := 500

  /** The fee the checkout charges for a delivery method: 5 euros for "domicile", else none. */
  function DeliveryFee(deliveryMethod: Option<string>): int
  {
    if deliveryMethod == Some("domicile") then HomeDeliveryFee else 0
  }

  // ---------------------------------------------------------------------------------------
  // Checkout session creation

  datatype Customer = Customer(name: Option<string>, email: Option<string>, phone: Option<string>,
                               address: Address)

  /** The checkout request body. `items` is None when it is missing, falsy or not an array;
      `customer` is None when it is missing or falsy. */
  datatype CheckoutRequest = CheckoutRequest(
    items: Option<seq<Line>>,
    customer: Option<Customer>,
    deliveryMethod: Option<string>,
    paymentMethod: Option<string>,
    total: Option<int>)

  /** An outbound `line_items` entry: `price_data` (currency, product name, description,
      images, unit amount) and the quantity. */
  datatype LineItem = LineItem(currency: string, name: string, description: Option<string>,
                               images: seq<string>, unitAmount: int, quantity: int)

  /** What `stripe.checkout.sessions.create` returned. */
  datatype CreatedSession = CreatedSession(id: string, url: string, paymentStatus: string,
                                           currency: Option<string>)

  datatype CheckoutResponse =
    | SessionCreated(sessionId: string, url: string)   // 200 {sessionId, url}
    | CheckoutBadRequest(error: string)                // 400
    | CheckoutFailed(error: string)                    // 500

  /** One cart item as a Stripe line item: euro currency, the item's name, its image when it
      has one, its price as the unit amount and its quantity. */
  function CartLineItem(item: Line): LineItem
  {
    LineItem("eur", item.name, None, if Truthy(item.image) then [item.image.value] else [],
             item.price, item.quantity)
  }

  /** The pseudo-product pushed for home delivery (its description is the "domicile" one,
      the only method for which it is pushed). */
  const FeeLineItem: LineItem := LineItem("eur", FeeName, Some("Livraison à domicile"), [], HomeDeliveryFee, 1)

  /** `items.map(...)`: one line item per cart item, in cart order. */
  function CartLineItems(items: seq<Line>): (r: seq<LineItem>)
    ensures |r| == |items|
    ensures forall i :: 0 <= i < |items| ==> r[i] == CartLineItem(items[i])
  {
    seq(|items|, i requires 0 <= i < |items| => CartLineItem(items[i]))
  }

  /** The line items the checkout sends: the cart's, then the fee item for home delivery. */
  function OutboundLineItems(items: seq<Line>, deliveryMethod: Option<string>): (r: seq<LineItem>)
    ensures |r| == |items| + (if deliveryMethod == Some("domicile") then 1 else 0)
    ensures forall i :: 0 <= i < |items| ==>
              r[i].name == items[i].name && r[i].unitAmount == items[i].price
              && r[i].quantity == items[i].quantity && r[i].currency == "eur"
    ensures deliveryMethod == Some("domicile") ==>
              r[|items|] == FeeLineItem && r[|items|].unitAmount == 500 && r[|items|].quantity == 1
  {
    CartLineItems(items) + (if DeliveryFee(deliveryMethod) > 0 then [FeeLineItem] else [])
  }

  /** The pending ledger entry `savePaymentAttempt` builds, pricing exactly as written:
      `subtotal = total - fee` and `total = total + fee`. */
  function PendingPayment(id: ObjectId, session: CreatedSession, customer: Customer, items: seq<Line>,
                          deliveryMethod: Option<string>, paymentMethod: Option<string>,
                          total: int, now: Time): (r: P.Payment)
    ensures r.id == id && r.stripeSessionId == session.id && r.paymentStatus == "pending"
    ensures r.stripeStatus == Some(session.paymentStatus)
    ensures r.pricing.deliveryFee == (if deliveryMethod == Some("domicile") then 500 else 0)
    ensures r.pricing.subtotal == total - r.pricing.deliveryFee
    ensures r.pricing.total == total + r.pricing.deliveryFee
    ensures r.currency == OrElse(session.currency, "eur")
    ensures r.paymentMethod == OrElse(paymentMethod, "card")
    ensures r.customerInfo == CustomerInfo(customer.name, customer.email, customer.phone)
    ensures r.deliveryAddress == customer.address && r.deliveryMethod == deliveryMethod && r.items == items
    ensures !r.refunded && r.refundAmount == 0 && !r.orderCreated && r.orderId == None
    ensures r.createdAt == now && r.updatedAt == now
  {
    var fee := DeliveryFee(deliveryMethod);
    P.NewPayment(id, session.id, CustomerInfo(customer.name, customer.email, customer.phone),
                 customer.address, deliveryMethod, Some(OrElse(paymentMethod, "card")), items,
                 Pricing(total - fee, fee, total + fee), Some("pending"),
                 Some(session.paymentStatus), Some(OrElse(session.currency, "eur")), now)
  }

  /** The pending entry's pricing adds up (`subtotal + deliveryFee == total`) exactly when no
      fee is charged: for home delivery the fee is counted twice into `total`. */
  lemma PendingPricingAddsUpIffNoFee(id: ObjectId, session: CreatedSession, customer: Customer,
                                     items: seq<Line>, deliveryMethod: Option<string>,
                                     paymentMethod: Option<string>, total: int, now: Time)
    ensures var pr := PendingPayment(id, session, customer, items, deliveryMethod, paymentMethod, total, now).pricing;
            (pr.subtotal + pr.deliveryFee == pr.total <==> deliveryMethod != Some("domicile"))
            && pr.total - pr.subtotal == 2 * pr.deliveryFee
  {
  }

  /** `savePaymentAttempt`: build the pending entry and save it; a rejected save (validation
      or a session id already recorded) is swallowed and leaves the ledger as it was. */
  method SavePaymentAttempt(payments: P.PaymentCollection, session: CreatedSession, customer: Customer,
                            items: seq<Line>, deliveryMethod: Option<string>,
                            paymentMethod: Option<string>, total: int, now: Time)
    returns (saved: Option<P.Payment>)
    requires payments.Valid()
    modifies payments
    ensures payments.Valid()
    ensures var p := PendingPayment(old(payments.nextId), session, customer, items, deliveryMethod,
                                    paymentMethod, total, now);
            var out := P.SaveOutcome(old(payments.docs), p, now, payments.statuses);
            && (out.Some? ==> payments.docs == out.value && saved == Some(p))
            && (out.None? ==> payments.docs == old(payments.docs) && saved == None)
  {
    var id := payments.FreshId();
    var p := PendingPayment(id, session, customer, items, deliveryMethod, paymentMethod, total, now);
    saved := payments.Save(p, now);
  }

  /** `createCheckoutSession`. `stripe` is what `sessions.create` returned (None: it threw).
      `sent` is the line items passed to Stripe, None when the call was never made. */
  method CreateCheckoutSession(payments: P.PaymentCollection, req: CheckoutRequest,
                               stripe: Option<CreatedSession>, now: Time)
    returns (resp: CheckoutResponse, sent: Option<seq<LineItem>>)
    requires payments.Valid()
    modifies payments
    ensures payments.Valid()
    ensures req.items.None? || req.customer.None? ==>
              resp == CheckoutBadRequest("Missing required fields: items, customer")
              && sent == None && payments.docs == old(payments.docs)
    ensures req.items.Some? && req.customer.Some? && req.total.None? ==>
              resp == CheckoutFailed("Failed to create checkout session")
              && sent == None && payments.docs == old(payments.docs)
    ensures req.items.Some? && req.customer.Some? && req.total.Some? ==>
              sent == Some(OutboundLineItems(req.items.value, req.deliveryMethod))
    ensures req.items.Some? && req.customer.Some? && req.total.Some? && stripe.None? ==>
              resp == CheckoutFailed("Failed to create checkout session")
              && payments.docs == old(payments.docs)
    ensures req.items.Some? && req.customer.Some? && req.total.Some? && stripe.Some? ==>
              resp == SessionCreated(stripe.value.id, stripe.value.url)
              && var p := PendingPayment(old(payments.nextId), stripe.value, req.customer.value,
                                         req.items.value, req.deliveryMethod, req.paymentMethod,
                                         req.total.value, now);
                 payments.docs == match P.SaveOutcome(old(payments.docs), p, now, payments.statuses)
                                  case Some(d) => d
                                  case None => old(payments.docs)
  {
    sent := None;
    if req.items.None? || req.customer.None? {
      return CheckoutBadRequest("Missing required fields: items, customer"), sent;
    }
    var items := req.items.value;
    var lineItems := OutboundLineItems(items, req.deliveryMethod);
    if req.total.None? {
      // `total.toString()` throws while the session parameters are built
      return CheckoutFailed("Failed to create checkout session"), sent;
    }
    sent := Some(lineItems);
    if stripe.None? {
      return CheckoutFailed("Failed to create checkout session"), sent;
    }
    var session := stripe.value;
    var _ := SavePaymentAttempt(payments, session, req.customer.value, items, req.deliveryMethod,
                                req.paymentMethod, req.total.value, now);
    resp := SessionCreated(session.id, session.url);
  }

  // ---------------------------------------------------------------------------------------
  // Ledger status updates

  /** The optional fields a status update may carry (`additionalData`). */
  datatype StatusFields = StatusFields(stripeStatus: Option<string>, paymentIntentId: Option<string>,
                                       amountReceived: Option<int>, failureReason: Option<string>,
                                       orderId: Option<ObjectId>)

  /** JavaScript truthiness of an optional number: absent and 0 are falsy. */
  predicate AmountTruthy(a: Option<int>)
  {
    a.Some? && a.value != 0
  }

  /** The `updateData` of `updatePaymentStatus` applied to one ledger entry. The status and
      `updatedAt` are always written; `stripeStatus` whenever one is supplied (an undefined key
      is dropped from the update); the intent id, amount and failure reason only when truthy;
      `orderCreated` and `orderId` only when an order id is supplied. Nothing else changes. */
  function ApplyStatus(p: P.Payment, status: string, f: StatusFields, now: Time): (r: P.Payment)
    ensures r.paymentStatus == status && r.updatedAt == now
    ensures r.stripeStatus == (if f.stripeStatus.Some? then f.stripeStatus else p.stripeStatus)
    ensures r.paymentIntentId == (if Truthy(f.paymentIntentId) then f.paymentIntentId else p.paymentIntentId)
    ensures r.amountReceived == (if AmountTruthy(f.amountReceived) then f.amountReceived else p.amountReceived)
    ensures r.failureReason == (if Truthy(f.failureReason) then f.failureReason else p.failureReason)
    ensures r.orderCreated == (f.orderId.Some? || p.orderCreated)
    ensures r.orderId == (if f.orderId.Some? then f.orderId else p.orderId)
    ensures r.id == p.id && r.stripeSessionId == p.stripeSessionId && r.customerInfo == p.customerInfo
    ensures r.deliveryAddress == p.deliveryAddress && r.deliveryMethod == p.deliveryMethod
    ensures r.paymentMethod == p.paymentMethod && r.items == p.items && r.pricing == p.pricing
    ensures r.currency == p.currency && r.refunded == p.refunded && r.refundAmount == p.refundAmount
    ensures r.createdAt == p.createdAt
  {
    var withIntent := if Truthy(f.paymentIntentId) then p.(paymentIntentId := f.paymentIntentId) else p;
    var withAmount := if AmountTruthy(f.amountReceived) then withIntent.(amountReceived := f.amountReceived) else withIntent;
    var withReason := if Truthy(f.failureReason) then withAmount.(failureReason := f.failureReason) else withAmount;
    var withOrder := if f.orderId.Some? then withReason.(orderCreated := true, orderId := f.orderId) else withReason;
    withOrder.(paymentStatus := status,
               stripeStatus := if f.stripeStatus.Some? then f.stripeStatus else p.stripeStatus,
               updatedAt := now)
  }

  /** Applying the same update twice is the same as applying it once. */
  lemma ApplyStatusIdempotent(p: P.Payment, status: string, f: StatusFields, now: Time)
    ensures ApplyStatus(ApplyStatus(p, status, f, now), status, f, now) == ApplyStatus(p, status, f, now)
  {
  }

  /** The ledger after `updatePaymentStatus(sessionId, ...)`: `findOneAndUpdate` rewrites the
      entry of that session and no other; with no such entry nothing changes. */
  function AfterStatusUpdate(docs: seq<P.Payment>, sessionId: string, status: string,
                             f: StatusFields, now: Time): (r: seq<P.Payment>)
    ensures |r| == |docs|
    ensures forall i :: 0 <= i < |docs| && docs[i].stripeSessionId != sessionId ==> r[i] == docs[i]
    ensures forall i :: 0 <= i < |docs| && docs[i].stripeSessionId == sessionId && P.UniqueSessions(docs) ==>
              r[i] == ApplyStatus(docs[i], status, f, now)
    ensures !P.HasSession(docs, sessionId) ==> r == docs
    ensures forall i :: 0 <= i < |docs| ==> r[i].id == docs[i].id && r[i].stripeSessionId == docs[i].stripeSessionId
  {
    match P.IndexOfSession(docs, sessionId)
    case None => docs
    case Some(i) => docs[i := ApplyStatus(docs[i], status, f, now)]
  }

  /** Rewriting entries without touching their ids or session ids keeps both indexes unique. */
  lemma {:induction false} AfterStatusUpdateKeepsUniqueness(docs: seq<P.Payment>, sessionId: string,
                                                            status: string, f: StatusFields, now: Time)
    requires P.UniqueIds(docs) && P.UniqueSessions(docs)
    ensures var r := AfterStatusUpdate(docs, sessionId, status, f, now);
            P.UniqueIds(r) && P.UniqueSessions(r)
  {
    var r := AfterStatusUpdate(docs, sessionId, status, f, now);
    assert forall i :: 0 <= i < |r| ==> r[i].id == docs[i].id && r[i].stripeSessionId == docs[i].stripeSessionId;
  }

  /** Two ledgers whose entries hold the same session ids, position by position, locate a
      session at the same position. */
  lemma {:induction false} SameSessionsSameIndex(a: seq<P.Payment>, b: seq<P.Payment>, sessionId: string)
    requires |a| == |b|
    requires forall i :: 0 <= i < |a| ==> a[i].stripeSessionId == b[i].stripeSessionId
    ensures P.IndexOfSession(a, sessionId) == P.IndexOfSession(b, sessionId)
    decreases |a|
  {
    if |a| > 0 {
      SameSessionsSameIndex(a[1..], b[1..], sessionId);
    }
  }

  /** `updatePaymentStatus` returns the updated entry, or None when the session is unknown. */
  method UpdatePaymentStatus(payments: P.PaymentCollection, sessionId: string, status: string,
                             f: StatusFields, now: Time)
    returns (updated: Option<P.Payment>)
    requires payments.Valid()
    modifies payments
    ensures payments.Valid() && payments.nextId == old(payments.nextId)
    ensures payments.docs == AfterStatusUpdate(old(payments.docs), sessionId, status, f, now)
    ensures !P.HasSession(old(payments.docs), sessionId) <==> updated == None
    ensures updated.Some? ==>
              && P.IndexOfSession(old(payments.docs), sessionId).Some?
              && var i := P.IndexOfSession(old(payments.docs), sessionId).value;
                 && updated.value == ApplyStatus(old(payments.docs)[i], status, f, now)
                 && updated.value.stripeSessionId == sessionId
                 && payments.docs[i] == updated.value
  {
    AfterStatusUpdateKeepsUniqueness(payments.docs, sessionId, status, f, now);
    var found := P.IndexOfSession(payments.docs, sessionId);
    match found {
      case None =>
        updated := None;
      case Some(i) =>
        var p := ApplyStatus(payments.docs[i], status, f, now);
        payments.docs := payments.docs[i := p];
        updated := Some(p);
    }
  }

  // ---------------------------------------------------------------------------------------
  // Order materialisation

  /** A line item as `sessions.retrieve` returns it, with the product expanded. */
  datatype StripeLineItem = StripeLineItem(name: string, images: seq<string>, unitAmount: int,
                                           quantity: int, amountTotal: int)

  /** The metadata the checkout attached to the session. `deliveryAddress` is what
      `JSON.parse` makes of its string: None when the string does not parse. */
  datatype SessionMetadata = SessionMetadata(customerName: Option<string>, customerPhone: Option<string>,
                                             deliveryAddress: Option<Address>,
                                             deliveryMethod: Option<string>, paymentMethod: Option<string>)

  /** The session object of a `checkout.session.completed` event. */
  datatype CompletedSession = CompletedSession(id: string, paymentStatus: string, paymentIntent: Option<string>,
                                               amountTotal: int, customerEmail: Option<string>,
                                               metadata: SessionMetadata)

  /** The line item is the delivery-fee pseudo-product (its name contains the fee name). */
  predicate IsFeeItem(l: StripeLineItem)
  {
    Includes(l.name, FeeName)
  }

  /** `.filter(...)`: the line items that are not the fee, in their order. */
  function NonFeeItems(lines: seq<StripeLineItem>): (r: seq<StripeLineItem>)
    ensures |r| <= |lines|
    ensures forall x :: x in r ==> x in lines && !IsFeeItem(x)
    ensures forall x :: x in lines && !IsFeeItem(x) ==> x in r
  {
    if lines == [] then []
    else if IsFeeItem(lines[0]) then NonFeeItems(lines[1..])
    else [lines[0]] + NonFeeItems(lines[1..])
  }

  /** `.map((item, index) => ...)`: a product numbered `id`, price in cents, first image or "". */
  function AsProduct(l: StripeLineItem, id: int): Line
  {
    Line(Some(id), l.name, None, l.unitAmount, l.quantity, Some(if |l.images| > 0 then l.images[0] else ""))
  }

  /** The order's products: the non-fee line items, in order, numbered 1..n. */
  function MaterialisedProducts(lines: seq<StripeLineItem>): (r: seq<Line>)
    ensures |r| == |NonFeeItems(lines)|
    ensures forall i :: 0 <= i < |r| ==> r[i] == AsProduct(NonFeeItems(lines)[i], i + 1)
    ensures forall i :: 0 <= i < |r| ==> r[i].id == Some(i + 1) && !Includes(r[i].name, FeeName)
  {
    var kept := NonFeeItems(lines);
    var r := seq(|kept|, i requires 0 <= i < |kept| => AsProduct(kept[i], i + 1));
    forall i | 0 <= i < |r| ensures r[i].id == Some(i + 1) && !Includes(r[i].name, FeeName) {
      assert kept[i] in kept;
      assert r[i].name == kept[i].name;
    }
    r
  }

  /** `.find(...)`: the first fee item's total, 0 when there is none. */
  function FeeCharged(lines: seq<StripeLineItem>): (fee: int)
    ensures (forall i :: 0 <= i < |lines| ==> !IsFeeItem(lines[i])) ==> fee == 0
    ensures forall i :: (0 <= i < |lines| && IsFeeItem(lines[i])
                         && (forall j :: 0 <= j < i ==> !IsFeeItem(lines[j]))) ==> fee == lines[i].amountTotal
  {
    match FindFirst(lines, IsFeeItem)
    case None => 0
    case Some(i) => lines[i].amountTotal
  }

  /** The order's pricing: the fee item's total is the delivery fee and the rest of the
      session's total is the subtotal, so the three always add up. */
  function OrderPricing(amountTotal: int, lines: seq<StripeLineItem>): (r: Pricing)
    ensures r.total == amountTotal && r.deliveryFee == FeeCharged(lines)
    ensures r.subtotal + r.deliveryFee == r.total
  {
    var fee := FeeCharged(lines);
    Pricing(amountTotal - fee, fee, amountTotal)
  }

  /** The Order `saveOrderToDatabase` builds from a completed session, its retrieved line
      items and the parsed address: paid and confirmed. */
  function MaterialisedOrder(id: ObjectId, s: CompletedSession, lines: seq<StripeLineItem>,
                             address: Address, now: Time): (o: O.Order)
    ensures o.id == id && o.stripeSessionId == s.id && o.paymentIntentId == s.paymentIntent
    ensures o.customerInfo == CustomerInfo(s.metadata.customerName, s.customerEmail, s.metadata.customerPhone)
    ensures o.deliveryAddress == address && o.deliveryMethod == s.metadata.deliveryMethod
    ensures o.paymentMethod == OrElse(s.metadata.paymentMethod, "card")
    ensures o.products == MaterialisedProducts(lines)
    ensures o.pricing.total == s.amountTotal && o.pricing.deliveryFee == FeeCharged(lines)
    ensures o.pricing.subtotal + o.pricing.deliveryFee == o.pricing.total
    ensures o.paymentStatus == "paid" && o.orderStatus == "confirmed"
    ensures o.createdAt == now && o.updatedAt == now
  {
    O.NewOrder(id, s.id, s.paymentIntent,
               CustomerInfo(s.metadata.customerName, s.customerEmail, s.metadata.customerPhone),
               address, s.metadata.deliveryMethod, Some(OrElse(s.metadata.paymentMethod, "card")),
               MaterialisedProducts(lines), OrderPricing(s.amountTotal, lines),
               Some("paid"), Some("confirmed"), now)
  }

  /** The order `saveOrderToDatabase` saves and the orders collection after it. Unparseable
      address metadata or a failed `sessions.retrieve` give no order; so does a rejected save
      (validation, or the session already has an Order). */
  function OrderSaveStep(orders: seq<O.Order>, id: ObjectId, s: CompletedSession,
                         retrieved: Option<seq<StripeLineItem>>, now: Time): (r: (Option<O.Order>, seq<O.Order>))
    requires O.UniqueIds(orders)
    ensures r.0.None? ==> r.1 == orders
    ensures r.0.Some? <==>
              (s.metadata.deliveryAddress.Some? && retrieved.Some?
               && O.SaveOutcome(orders, MaterialisedOrder(id, s, retrieved.value,
                                                          s.metadata.deliveryAddress.value, now), now).Some?)
    ensures r.0.Some? ==>
              (r.0.value == MaterialisedOrder(id, s, retrieved.value, s.metadata.deliveryAddress.value, now)
               && O.SaveOutcome(orders, r.0.value, now).Some?
               && r.1 == O.SaveOutcome(orders, r.0.value, now).value)
  {
    if s.metadata.deliveryAddress.None? || retrieved.None? then (None, orders)
    else
      var o := MaterialisedOrder(id, s, retrieved.value, s.metadata.deliveryAddress.value, now);
      match O.SaveOutcome(orders, o, now)
      case None => (None, orders)
      case Some(d) => (Some(o), d)
  }

  /** `saveOrderToDatabase`: returns the saved Order, or None after any failure. */
  method SaveOrderToDatabase(orders: O.OrderCollection, s: CompletedSession,
                             retrieved: Option<seq<StripeLineItem>>, now: Time)
    returns (saved: Option<O.Order>)
    requires orders.Valid()
    modifies orders
    ensures orders.Valid() && orders.nextId >= old(orders.nextId)
    ensures (saved, orders.docs) == OrderSaveStep(old(orders.docs), old(orders.nextId), s, retrieved, now)
  {
    if s.metadata.deliveryAddress.None? || retrieved.None? {
      return None;
    }
    var id := orders.FreshId();
    var o := MaterialisedOrder(id, s, retrieved.value, s.metadata.deliveryAddress.value, now);
    var result := orders.Save(o, now);
    if result.Some? {
      saved := Some(o);
    } else {
      saved := None;
    }
  }

  // ---------------------------------------------------------------------------------------
  // Webhook reconciliation

  /** A payment intent as the `payment_intent.*` events carry it. */
  datatype Intent = Intent(id: string, status: string, amountReceived: Option<int>,
                           lastErrorMessage: Option<string>)

  datatype Event =
    | CheckoutCompleted(session: CompletedSession)   // checkout.session.completed
    | CheckoutExpired(sessionId: string)             // checkout.session.expired
    | IntentSucceeded(intent: Intent)                // payment_intent.succeeded
    | IntentFailed(intent: Intent)                   // payment_intent.payment_failed
    | IntentCanceled(intent: Intent)                 // payment_intent.canceled
    | Unhandled(eventType: string)                   // any other type

  /** What `constructEvent` (a webhook secret is configured) or `JSON.parse` (none is)
      made of the request: the event, or the message of the error it threw. */
  datatype Decoded = Verified(event: Event) | VerificationFailed(message: string)

  datatype WebhookResponse = Received | WebhookError(text: string)

  /** The ledger and the orders, the state a webhook reconciles. */
  datatype Ledgers = Ledgers(payments: seq<P.Payment>, orders: seq<O.Order>)

  function IndexOfIntent(docs: seq<P.Payment>, intentId: string): Option<nat>
  {
    FindFirst(docs, (p: P.Payment) => p.paymentIntentId == Some(intentId))
  }

  /** An intent event: locate the ledger entry by `paymentIntentId` (the first one in natural
      order) and update it through its session id; a no-op when no entry has that intent. */
  function AfterIntentUpdate(docs: seq<P.Payment>, intentId: string, status: string,
                             f: StatusFields, now: Time): seq<P.Payment>
  {
    match IndexOfIntent(docs, intentId)
    case None => docs
    case Some(i) => AfterStatusUpdate(docs, docs[i].stripeSessionId, status, f, now)
  }

  /** The fields the first update of a completed session writes. */
  function CompletedFields(s: CompletedSession): StatusFields
  {
    StatusFields(Some(s.paymentStatus), s.paymentIntent, Some(s.amountTotal), None, None)
  }

  /** The fields of the update that links a saved Order to its ledger entry. */
  function LinkFields(orderId: ObjectId): StatusFields
  {
    StatusFields(None, None, None, None, Some(orderId))
  }

  /** The state after one accepted event. `orderId` is the id the next `new Order` takes and
      `retrieved` what `sessions.retrieve` returns for a completed session. */
  function Reconcile(state: Ledgers, orderId: ObjectId, e: Event,
                     retrieved: Option<seq<StripeLineItem>>, now: Time): (r: Ledgers)
    requires O.UniqueIds(state.orders)
    ensures |r.payments| == |state.payments|
    ensures forall i :: 0 <= i < |state.payments| ==>
              r.payments[i].id == state.payments[i].id
              && r.payments[i].stripeSessionId == state.payments[i].stripeSessionId
    ensures e.CheckoutCompleted? ==> r.orders == OrderSaveStep(state.orders, orderId, e.session, retrieved, now).1
    ensures !e.CheckoutCompleted? ==> r.orders == state.orders
  {
    match e
    case CheckoutCompleted(s) =>
      var paid := AfterStatusUpdate(state.payments, s.id, "succeeded", CompletedFields(s), now);
      var step := OrderSaveStep(state.orders, orderId, s, retrieved, now);
      var linked := if step.0.Some? then AfterStatusUpdate(paid, s.id, "succeeded", LinkFields(step.0.value.id), now)
                    else paid;
      Ledgers(linked, step.1)
    case CheckoutExpired(sessionId) =>
      Ledgers(AfterStatusUpdate(state.payments, sessionId, "failed",
                                StatusFields(Some("expired"), None, None, Some("Session expired"), None), now),
              state.orders)
    case IntentSucceeded(pi) =>
      Ledgers(AfterIntentUpdate(state.payments, pi.id, "succeeded",
                                StatusFields(Some(pi.status), None, pi.amountReceived, None, None), now),
              state.orders)
    case IntentFailed(pi) =>
      Ledgers(AfterIntentUpdate(state.payments, pi.id, "failed",
                                StatusFields(Some(pi.status), None, None,
                                             Some(OrElse(pi.lastErrorMessage, "Payment failed")), None), now),
              state.orders)
    case IntentCanceled(pi) =>
      Ledgers(AfterIntentUpdate(state.payments, pi.id, "canceled",
                                StatusFields(Some(pi.status), None, None,
                                             Some("Payment canceled by customer"), None), now),
              state.orders)
    case Unhandled(_) => state
  }

  /** The `checkout.session.completed` branch: mark the entry succeeded, materialise the
      Order, and link the saved Order to the entry. */
  method CompleteCheckout(payments: P.PaymentCollection, orders: O.OrderCollection, s: CompletedSession,
                          retrieved: Option<seq<StripeLineItem>>, now: Time)
    requires payments.Valid() && orders.Valid()
    modifies payments, orders
    ensures payments.Valid() && orders.Valid()
    ensures Ledgers(payments.docs, orders.docs)
            == Reconcile(Ledgers(old(payments.docs), old(orders.docs)), old(orders.nextId),
                         CheckoutCompleted(s), retrieved, now)
  {
    var _ := UpdatePaymentStatus(payments, s.id, "succeeded", CompletedFields(s), now);
    var savedOrder := SaveOrderToDatabase(orders, s, retrieved, now);
    if savedOrder.Some? {
      var _ := UpdatePaymentStatus(payments, s.id, "succeeded", LinkFields(savedOrder.value.id), now);
    }
  }

  /** The `payment_intent.*` branches: `findOne` by intent id, then `updatePaymentStatus`
      through the session id of the entry found. */
  method UpdateByIntent(payments: P.PaymentCollection, intentId: string, status: string,
                        f: StatusFields, now: Time)
    requires payments.Valid()
    modifies payments
    ensures payments.Valid()
    ensures payments.docs == AfterIntentUpdate(old(payments.docs), intentId, status, f, now)
  {
    var found := IndexOfIntent(payments.docs, intentId);
    if found.Some? {
      var _ := UpdatePaymentStatus(payments, payments.docs[found.value].stripeSessionId, status, f, now);
    }
  }

  /** `handleWebhook`: a request that fails verification is answered 400 before anything
      changes; every accepted event, of any type, is answered `{received: true}`. */
  method HandleWebhook(payments: P.PaymentCollection, orders: O.OrderCollection, decoded: Decoded,
                       retrieved: Option<seq<StripeLineItem>>, now: Time)
    returns (resp: WebhookResponse)
    requires payments.Valid() && orders.Valid()
    modifies payments, orders
    ensures payments.Valid() && orders.Valid()
    ensures decoded.VerificationFailed? ==>
              resp == WebhookError("Webhook Error: " + decoded.message)
              && payments.docs == old(payments.docs) && orders.docs == old(orders.docs)
    ensures decoded.Verified? ==>
              resp == Received
              && Ledgers(payments.docs, orders.docs)
                 == Reconcile(Ledgers(old(payments.docs), old(orders.docs)), old(orders.nextId),
                              decoded.event, retrieved, now)
  {
    if decoded.VerificationFailed? {
      return WebhookError("Webhook Error: " + decoded.message);
    }
    match decoded.event {
      case CheckoutCompleted(s) =>
        CompleteCheckout(payments, orders, s, retrieved, now);
      case CheckoutExpired(sessionId) =>
        var _ := UpdatePaymentStatus(payments, sessionId, "failed",
                                     StatusFields(Some("expired"), None, None, Some("Session expired"), None), now);
      case IntentSucceeded(pi) =>
        UpdateByIntent(payments, pi.id, "succeeded",
                       StatusFields(Some(pi.status), None, pi.amountReceived, None, None), now);
      case IntentFailed(pi) =>
        UpdateByIntent(payments, pi.id, "failed",
                       StatusFields(Some(pi.status), None, None,
                                    Some(OrElse(pi.lastErrorMessage, "Payment failed")), None), now);
      case IntentCanceled(pi) =>
        UpdateByIntent(payments, pi.id, "canceled",
                       StatusFields(Some(pi.status), None, None, Some("Payment canceled by customer"), None), now);
      case Unhandled(_) =>
    }
    resp := Received;
  }

  // ---------------------------------------------------------------------------------------
  // Properties of reconciliation

  /** Two status updates of the same session compose entry-wise. */
  lemma {:induction false} AfterStatusUpdateTwice(docs: seq<P.Payment>, sessionId: string,
                                                  status1: string, f1: StatusFields, t1: Time,
                                                  status2: string, f2: StatusFields, t2: Time)
    ensures AfterStatusUpdate(AfterStatusUpdate(docs, sessionId, status1, f1, t1), sessionId, status2, f2, t2)
            == match P.IndexOfSession(docs, sessionId)
               case None => docs
               case Some(i) => docs[i := ApplyStatus(ApplyStatus(docs[i], status1, f1, t1), status2, f2, t2)]
  {
    var once := AfterStatusUpdate(docs, sessionId, status1, f1, t1);
    SameSessionsSameIndex(docs, once, sessionId);
  }

  /** The ledger with the `updatedAt` of the session's entry set to `t` and nothing else
      changed: what a status update that rewrites the values already stored leaves behind. */
  function Restamped(docs: seq<P.Payment>, sessionId: string, t: Time): (r: seq<P.Payment>)
    ensures |r| == |docs|
    ensures forall i :: 0 <= i < |docs| && docs[i].stripeSessionId != sessionId ==> r[i] == docs[i]
    ensures forall i :: 0 <= i < |docs| && docs[i].stripeSessionId == sessionId && P.UniqueSessions(docs) ==>
              r[i] == docs[i].(updatedAt := t)
    ensures !P.HasSession(docs, sessionId) ==> r == docs
  {
    match P.IndexOfSession(docs, sessionId)
    case None => docs
    case Some(i) => docs[i := docs[i].(updatedAt := t)]
  }

  /** Re-applying the completed-session fields at a later time `t2` to an entry the first
      delivery marked (and possibly linked) rewrites the values it already holds: only
      `updatedAt` moves. */
  lemma ApplyStatusAfterLink(p: P.Payment, s: CompletedSession, orderId: ObjectId, t1: Time, t2: Time)
    ensures var paid := ApplyStatus(p, "succeeded", CompletedFields(s), t1);
            var linked := ApplyStatus(paid, "succeeded", LinkFields(orderId), t1);
            && ApplyStatus(paid, "succeeded", CompletedFields(s), t2) == paid.(updatedAt := t2)
            && ApplyStatus(linked, "succeeded", CompletedFields(s), t2) == linked.(updatedAt := t2)
  {
  }

  /** The payments half of a redelivery at time `now2`: whether or not the first delivery
      linked an Order, the second completed-session update only restamps the entry. */
  lemma {:induction false} LedgerRedeliveryRestamps(docs: seq<P.Payment>, s: CompletedSession,
                                                    orderId: ObjectId, now: Time, now2: Time)
    ensures var paid := AfterStatusUpdate(docs, s.id, "succeeded", CompletedFields(s), now);
            var linked := AfterStatusUpdate(paid, s.id, "succeeded", LinkFields(orderId), now);
            && AfterStatusUpdate(paid, s.id, "succeeded", CompletedFields(s), now2) == Restamped(paid, s.id, now2)
            && AfterStatusUpdate(linked, s.id, "succeeded", CompletedFields(s), now2) == Restamped(linked, s.id, now2)
  {
    var paid := AfterStatusUpdate(docs, s.id, "succeeded", CompletedFields(s), now);
    var linked := AfterStatusUpdate(paid, s.id, "succeeded", LinkFields(orderId), now);
    SameSessionsSameIndex(docs, paid, s.id);
    SameSessionsSameIndex(paid, linked, s.id);
    match P.IndexOfSession(docs, s.id) {
      case None =>
      case Some(i) =>
        ApplyStatusAfterLink(docs[i], s, orderId, now, now2);
        assert paid[i] == ApplyStatus(docs[i], "succeeded", CompletedFields(s), now);
        assert linked[i] == ApplyStatus(paid[i], "succeeded", LinkFields(orderId), now);
    }
  }

  /** The orders half of a redelivery: once the first `saveOrderToDatabase` saved an Order,
      a second one, with its own retrieval and time, saves nothing. Either way the orders
      keep at most one Order per session. */
  lemma {:induction false} SecondOrderSaveRefused(orders: seq<O.Order>, n: ObjectId, n2: ObjectId,
                                                  s: CompletedSession,
                                                  retrieved: Option<seq<StripeLineItem>>,
                                                  retrieved2: Option<seq<StripeLineItem>>,
                                                  now: Time, now2: Time)
    requires O.UniqueIds(orders) && O.UniqueSessions(orders)
    requires forall i :: 0 <= i < |orders| ==> orders[i].id < n
    requires n < n2
    ensures var step := OrderSaveStep(orders, n, s, retrieved, now);
            && O.UniqueIds(step.1) && O.UniqueSessions(step.1)
            && (forall j :: 0 <= j < |step.1| ==> step.1[j].id < n2)
            && (step.0.Some? ==> OrderSaveStep(step.1, n2, s, retrieved2, now2).0.None?)
  {
    var step := OrderSaveStep(orders, n, s, retrieved, now);
    forall j | 0 <= j < |step.1| ensures step.1[j].id < n2 {
      assert step.1[j] in step.1;
    }
    if step.0.Some? {
      var o := step.0.value;
      assert o.(updatedAt := now) in step.1;
      var k :| 0 <= k < |step.1| && step.1[k] == o.(updatedAt := now);
      if s.metadata.deliveryAddress.Some? && retrieved2.Some? {
        var second := MaterialisedOrder(n2, s, retrieved2.value, s.metadata.deliveryAddress.value, now2);
        O.SecondOrderRefused(step.1, second, now2);
      }
    }
  }

  /** A redelivered `checkout.session.completed` event, handled as a new request with its own
      time `now2` and its own `sessions.retrieve` result: when the first delivery saved an
      Order, the orders are unchanged and the ledger entry is only restamped; when it did not,
      the second delivery may save the Order. In every case there is at most one Order per
      session. `n` and `n2` are the ids the two `new Order` calls take. */
  lemma {:induction false} CompletedRedeliveryIdempotent(state: Ledgers, n: ObjectId, n2: ObjectId,
                                                         s: CompletedSession,
                                                         retrieved: Option<seq<StripeLineItem>>,
                                                         retrieved2: Option<seq<StripeLineItem>>,
                                                         now: Time, now2: Time)
    requires O.UniqueIds(state.orders) && O.UniqueSessions(state.orders)
    requires forall i :: 0 <= i < |state.orders| ==> state.orders[i].id < n
    requires n < n2
    ensures var once := Reconcile(state, n, CheckoutCompleted(s), retrieved, now);
            && O.UniqueIds(once.orders)
            && var twice := Reconcile(once, n2, CheckoutCompleted(s), retrieved2, now2);
               && O.UniqueSessions(once.orders) && O.UniqueSessions(twice.orders)
               && (OrderSaveStep(state.orders, n, s, retrieved, now).0.Some? ==>
                     OrderSaveStep(once.orders, n2, s, retrieved2, now2).0.None?)
               && (OrderSaveStep(once.orders, n2, s, retrieved2, now2).0.None? ==>
                     twice.orders == once.orders && twice.payments == Restamped(once.payments, s.id, now2))
  {
    SecondOrderSaveRefused(state.orders, n, n2, s, retrieved, retrieved2, now, now2);
    var step := OrderSaveStep(state.orders, n, s, retrieved, now);
    var orderId := if step.0.Some? then step.0.value.id else n;
    LedgerRedeliveryRestamps(state.payments, s, orderId, now, now2);
  }

  /** After a completed checkout, the session's ledger entry is "succeeded" with Stripe's
      status, and it is linked to an Order exactly when an Order was saved; that Order is
      stored, paid, for the same session. */
  lemma {:induction false} CompletedCheckoutLinksOrder(state: Ledgers, n: ObjectId, s: CompletedSession,
                                                       retrieved: Option<seq<StripeLineItem>>, now: Time, i: nat)
    requires O.UniqueIds(state.orders) && P.UniqueSessions(state.payments)
    requires i < |state.payments| && state.payments[i].stripeSessionId == s.id
    requires !state.payments[i].orderCreated
    ensures var once := Reconcile(state, n, CheckoutCompleted(s), retrieved, now);
            var e := once.payments[i];
            && |once.payments| == |state.payments|
            && e.paymentStatus == "succeeded" && e.stripeStatus == Some(s.paymentStatus)
            && (e.orderCreated <==> OrderSaveStep(state.orders, n, s, retrieved, now).0.Some?)
            && (e.orderCreated ==>
                  e.orderId == Some(n)
                  && exists k :: 0 <= k < |once.orders| && once.orders[k].id == n
                                 && once.orders[k].stripeSessionId == s.id && once.orders[k].paymentStatus == "paid")
  {
    var paid := AfterStatusUpdate(state.payments, s.id, "succeeded", CompletedFields(s), now);
    var step := OrderSaveStep(state.orders, n, s, retrieved, now);
    assert paid[i] == ApplyStatus(state.payments[i], "succeeded", CompletedFields(s), now);
    if step.0.Some? {
      AfterStatusUpdateKeepsUniquenessOfSessions(state.payments, s.id, "succeeded", CompletedFields(s), now);
      assert paid[i].stripeSessionId == s.id;
      var o := step.0.value;
      assert o.(updatedAt := now) in step.1;
      var k :| 0 <= k < |step.1| && step.1[k] == o.(updatedAt := now);
    }
  }

  /** The status an intent event writes. */
  function IntentStatus(e: Event): string
    requires e.IntentSucceeded? || e.IntentFailed? || e.IntentCanceled?
  {
    if e.IntentSucceeded? then "succeeded" else if e.IntentFailed? then "failed" else "canceled"
  }

  /** `checkout.session.expired`: the entry of that session fails with the raw status
      "expired" and the reason "Session expired"; every other entry and every order stay. */
  lemma ExpiredSessionFails(state: Ledgers, n: ObjectId, sessionId: string,
                            retrieved: Option<seq<StripeLineItem>>, now: Time)
    requires O.UniqueIds(state.orders) && P.UniqueSessions(state.payments)
    ensures var r := Reconcile(state, n, CheckoutExpired(sessionId), retrieved, now);
            && r.orders == state.orders && |r.payments| == |state.payments|
            && forall i :: 0 <= i < |state.payments| ==>
                 if state.payments[i].stripeSessionId == sessionId then
                   && r.payments[i].paymentStatus == "failed"
                   && r.payments[i].stripeStatus == Some("expired")
                   && r.payments[i].failureReason == Some("Session expired")
                 else r.payments[i] == state.payments[i]
  {
  }

  /** The `payment_intent.*` events: with no entry holding the intent nothing changes;
      otherwise exactly the first such entry takes the event's status and the intent's raw
      status, with the received amount (succeeded, when truthy) or the failure reason
      (failed, canceled). The orders never change. */
  lemma IntentEventUpdatesOneEntry(state: Ledgers, n: ObjectId, e: Event,
                                   retrieved: Option<seq<StripeLineItem>>, now: Time)
    requires O.UniqueIds(state.orders) && P.UniqueSessions(state.payments)
    requires e.IntentSucceeded? || e.IntentFailed? || e.IntentCanceled?
    ensures var r := Reconcile(state, n, e, retrieved, now);
            && r.orders == state.orders
            && (IndexOfIntent(state.payments, e.intent.id).None? ==> r.payments == state.payments)
            && (IndexOfIntent(state.payments, e.intent.id).Some? ==>
                  var i := IndexOfIntent(state.payments, e.intent.id).value;
                  var q := r.payments[i];
                  && |r.payments| == |state.payments|
                  && state.payments[i].paymentIntentId == Some(e.intent.id)
                  && q.paymentStatus == IntentStatus(e) && q.stripeStatus == Some(e.intent.status)
                  && (e.IntentSucceeded? && AmountTruthy(e.intent.amountReceived) ==>
                        q.amountReceived == e.intent.amountReceived)
                  && (e.IntentFailed? ==> q.failureReason == Some(OrElse(e.intent.lastErrorMessage, "Payment failed")))
                  && (e.IntentCanceled? ==> q.failureReason == Some("Payment canceled by customer"))
                  && forall k :: 0 <= k < |state.payments| && k != i ==> r.payments[k] == state.payments[k])
  {
    match IndexOfIntent(state.payments, e.intent.id)
    case None =>
    case Some(i) =>
      var docs := state.payments;
      forall k | 0 <= k < |docs| && k != i ensures docs[k].stripeSessionId != docs[i].stripeSessionId {
        if k < i {
          assert docs[k].stripeSessionId != docs[i].stripeSessionId;
        } else {
          assert docs[i].stripeSessionId != docs[k].stripeSessionId;
        }
      }
  }

  /** Any other event type is acknowledged and changes nothing. */
  lemma UnhandledEventChangesNothing(state: Ledgers, n: ObjectId, eventType: string,
                                     retrieved: Option<seq<StripeLineItem>>, now: Time)
    requires O.UniqueIds(state.orders)
    ensures Reconcile(state, n, Unhandled(eventType), retrieved, now) == state
  {
  }

  /** A status update never merges or duplicates ledger entries. */
  lemma {:induction false} AfterStatusUpdateKeepsUniquenessOfSessions(docs: seq<P.Payment>, sessionId: string,
                                                                      status: string, f: StatusFields, now: Time)
    requires P.UniqueSessions(docs)
    ensures P.UniqueSessions(AfterStatusUpdate(docs, sessionId, status, f, now))
  {
    var r := AfterStatusUpdate(docs, sessionId, status, f, now);
    assert forall i :: 0 <= i < |r| ==> r[i].stripeSessionId == docs[i].stripeSessionId;
  }

  // ---------------------------------------------------------------------------------------
  // Round trip through Stripe

  /** A sent line item as Stripe hands it back from `listLineItems` (the line total is the
      unit amount times the quantity). */
  function Echo(l: LineItem): StripeLineItem
  {
    StripeLineItem(l.name, l.images, l.unitAmount, l.quantity, l.unitAmount * l.quantity)
  }

  function Echoed(ls: seq<LineItem>): (r: seq<StripeLineItem>)
    ensures |r| == |ls| && forall i :: 0 <= i < |ls| ==> r[i] == Echo(ls[i])
  {
    seq(|ls|, i requires 0 <= i < |ls| => Echo(ls[i]))
  }

  /** The cart's value in cents: the sum of price times quantity. */
  function CartTotal(items: seq<Line>): int
  {
    if items == [] then 0 else items[0].price * items[0].quantity + CartTotal(items[1..])
  }

  lemma {:induction false} NonFeeItemsAppend(a: seq<StripeLineItem>, b: seq<StripeLineItem>)
    ensures NonFeeItems(a + b) == NonFeeItems(a) + NonFeeItems(b)
    decreases |a|
  {
    if a == [] {
      assert a + b == b;
    } else {
      assert (a + b)[0] == a[0];
      assert (a + b)[1..] == a[1..] + b;
      NonFeeItemsAppend(a[1..], b);
    }
  }

  lemma {:induction false} NonFeeItemsKeepsAll(a: seq<StripeLineItem>)
    requires forall i :: 0 <= i < |a| ==> !IsFeeItem(a[i])
    ensures NonFeeItems(a) == a
    decreases |a|
  {
    if a != [] {
      NonFeeItemsKeepsAll(a[1..]);
    }
  }

  /** What the checkout sends comes back as the Order's products: when no cart item is
      named like the fee, the Order lists every cart item, in order, numbered from 1, with its
      name, price, quantity and image ("" when it had none); the fee item is recognised as the
      delivery fee the checkout charged; and when Stripe's total is the cart plus the fee, the
      Order's subtotal is the cart's value. */
  lemma {:induction false} CheckoutRoundTrip(items: seq<Line>, deliveryMethod: Option<string>, amountTotal: int)
    requires forall i :: 0 <= i < |items| ==> !Includes(items[i].name, FeeName)
    ensures var back := Echoed(OutboundLineItems(items, deliveryMethod));
            var products := MaterialisedProducts(back);
            && |products| == |items|
            && (forall i :: 0 <= i < |items| ==>
                  products[i] == Line(Some(i + 1), items[i].name, None, items[i].price, items[i].quantity,
                                      Some(OrElse(items[i].image, ""))))
            && FeeCharged(back) == DeliveryFee(deliveryMethod)
            && (amountTotal == CartTotal(items) + DeliveryFee(deliveryMethod) ==>
                  OrderPricing(amountTotal, back).subtotal == CartTotal(items))
  {
    var cart := Echoed(CartLineItems(items));
    var back := Echoed(OutboundLineItems(items, deliveryMethod));
    assert forall i :: 0 <= i < |cart| ==> !IsFeeItem(cart[i]);
    NonFeeItemsKeepsAll(cart);
    IncludesItself(FeeName);
    if deliveryMethod == Some("domicile") {
      assert back == cart + [Echo(FeeLineItem)];
      NonFeeItemsAppend(cart, [Echo(FeeLineItem)]);
      assert IsFeeItem(back[|items|]);
      assert NonFeeItems([Echo(FeeLineItem)]) == [];
    } else {
      assert back == cart;
    }
  }
}
