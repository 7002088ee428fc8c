# wholi checkout, payment ledger and order reconciliation — a Dafny model

This project models the server core of the wholi shop, an Express/Mongoose application that sells
through Stripe Checkout:

- **Checkout** (`createCheckoutSession`): builds the Stripe line items, adding a 5 € home-delivery
  fee item when the customer chose `domicile`. It then records a pending entry in the payment
  ledger, keyed by the Stripe session id.
- **Webhook** (`handleWebhook`): verifies the event, then moves the ledger entry through its
  statuses. On `checkout.session.completed` it materialises an `Order` from the session's line
  items and links it to the entry.
- **Ledger admin routes** (`routes/payments.js`): the filtered, sorted and paginated list with its
  statistics, the refund, and the delete.
- **Order admin routes** (`routes/orders.js`): the status update and the delete.
- **Notification emails** (`controllers/emailController.js`): the choice of template and the
  template parameters.
- **Static asset helpers** (`app.js`): the suffix → Content-Type chain and the asset-path rewrites.
- **Contact deletion** (`controllers/deleteContact.js`).

The two Mongoose collections are classes (`PaymentCollection`, `OrderCollection`). Each holds its
documents in natural order, plus the counter new ObjectIds come from. Their `Save` runs the
pre-save hook (stamps `updatedAt`), then schema validation (required fields, enums), then the
unique index on `stripeSessionId`, so a save is an insert-if-absent. The unique index is what
keeps a redelivered `checkout.session.completed` from creating a second Order, and the model
proves that. Stripe calls, the clock and the email transport are parameters: `None` stands for
a call that threw. Every amount is an integer number of cents.

Where the source relies on library behaviour, the model follows these choices:

- Mongoose ≥ 7 drops `undefined` keys from an update, so `stripeStatus: undefined` in
  `updatePaymentStatus` leaves the stored value alone.
- MongoDB refuses a negative `skip` (the route answers 500), treats `limit(0)` as no limit and
  `limit(-n)` as `n` rows.
- `Math.ceil(total / 0)` is `Infinity`, which serialises to `null` (`None`).

Module by module: `Base` (Option, JS truthiness and string helpers, `findOne`-style search),
`Records` (the sub-documents both schemas share), `PaymentModel`, `OrderModel`,
`StripeController`, `PaymentsRoute`, `OrdersRoute`, `EmailController`, `StaticAssets`,
`DeleteContact`.

## Model

| member | source | states |
|---|---|---|
| Base.OrElse | controllers/stripeController.js:90 | `x \|\| fallback`: the value when it is truthy (present and non-empty), the fallback otherwise |
| Base.IndexOf | app.js:74 | the first position where the pattern occurs, or none; no earlier position matches |
| Base.FindFirst | controllers/stripeController.js:357-359 | `find`/`findOne`: the first index whose element satisfies the test; none before it does; None iff none does |
| Base.Lower | routes/payments.js:26 | lower-casing keeps the length and maps each character through its ASCII lower case |
| Base.IncludesItself | controllers/stripeController.js:346-359 | every name contains itself, so the line sent under the fee name is dropped by the product filter and picked by the fee `find` |
| Base.RemoveOnly | routes/payments.js:201 | deleting the one element with a key leaves exactly the elements without that key |
| Base.ReplaceFirst | app.js:74 | `replace` with a string pattern: unchanged when the pattern is absent, otherwise only its first occurrence is replaced |
| Base.RemoveAt | routes/payments.js:201 | where each element of a sequence with one element deleted comes from |
| PaymentModel.NewPayment | Models/payment.Model.js:4-99 | a new document takes the schema defaults: `paymentMethod` "card", `currency` "eur", status "pending", not refunded, refund 0, no order, both timestamps now |
| PaymentModel.ValidPayment | Models/payment.Model.js:4-58 | the schema's validators: session id, customer name and email, the four address fields, the delivery-method enum, item names, the status enum |
| PaymentModel.SaveOutcome | Models/payment.Model.js:4-8 | a save succeeds iff the document validates and no other document holds its session; then the stamped document is stored, every other document is kept, nothing else appears, and ids and sessions stay unique |
| PaymentModel.SecondEntryRefused | Models/payment.Model.js:4-8 | a second ledger entry for a session that already has one is refused |
| PaymentModel.RemovalKeepsUniqueness | Models/payment.Model.js:4-8 | deleting a document keeps ids and sessions unique |
| PaymentModel.PaymentCollection.constructor | Models/payment.Model.js:113 | an empty collection validating against the given status enum |
| PaymentModel.PaymentCollection.FreshId | Models/payment.Model.js:92-95 | `new Payment(...)` takes a fresh ObjectId and stores nothing |
| PaymentModel.PaymentCollection.Save | Models/payment.Model.js:103-106 | `save()` stamps `updatedAt` with the current time and changes nothing else, then stores per `SaveOutcome` or leaves the collection unchanged |
| PaymentModel.PaymentCollection.FindByIdAndDelete | routes/payments.js:201 | removes exactly the document with that id and returns it; none and no change when absent |
| OrderModel.NewOrder | Models/order.Model.js:4-71 | defaults: `paymentMethod` "card", `paymentStatus` and `orderStatus` "pending", timestamps now |
| OrderModel.ValidOrder | Models/order.Model.js:4-63 | the order validators: session id, customer and address fields, the delivery-method enum, product names, both status enums |
| OrderModel.SaveOutcome | Models/order.Model.js:4-8 | an order save succeeds iff it validates (products need name, price, quantity; enums) and no other order holds its session; contents as for payments |
| OrderModel.SecondOrderRefused | Models/order.Model.js:4-8 | a second Order for a session that already has one is refused |
| OrderModel.RemovalKeepsUniqueness | Models/order.Model.js:4-8 | deleting an order keeps ids and sessions unique |
| OrderModel.OrderCollection.constructor | Models/order.Model.js:80 | an empty orders collection |
| OrderModel.OrderCollection.FreshId | Models/order.Model.js:64-71 | `new Order(...)` takes a fresh ObjectId |
| OrderModel.OrderCollection.Save | Models/order.Model.js:75-78 | `save()` stamps `updatedAt` and stores per `SaveOutcome`, or changes nothing |
| OrderModel.OrderCollection.FindByIdAndDelete | routes/orders.js:72 | removes exactly the order with that id and returns it; none and no change when absent |
| StripeController.CartLineItems | controllers/stripeController.js:37-48 | one Stripe line item per cart item, in cart order |
| StripeController.OutboundLineItems | controllers/stripeController.js:37-69 | the cart items in order, with name, unit amount in cents, quantity, "eur"; followed by exactly one 500-cent, quantity-1 fee item iff the method is "domicile" |
| StripeController.PendingPayment | controllers/stripeController.js:259-291 | the pending entry: keyed by the session id, status "pending", `deliveryFee` = fee, `subtotal = total - fee`, `total = total + fee` as written, currency defaulting to "eur", customer and address copied |
| StripeController.PendingPricingAddsUpIffNoFee | controllers/stripeController.js:265-275 | the pending entry's subtotal plus fee equals its total iff no fee was charged; the total exceeds the subtotal by twice the fee |
| StripeController.SavePaymentAttempt | controllers/stripeController.js:259-291 | the entry is saved (insert-if-absent on the session) or, when the save fails, the ledger is unchanged and the error is swallowed |
| StripeController.CreateCheckoutSession | controllers/stripeController.js:19-110 | missing items or customer: 400 and nothing sent or stored; Stripe failure: 500 and nothing stored; otherwise the session is returned whether or not the ledger write succeeded |
| StripeController.ApplyStatus | controllers/stripeController.js:294-330 | `paymentStatus` and `updatedAt` always written; `stripeStatus` when supplied; intent id, amount and reason only when truthy (amount 0 is not written); `orderCreated`/`orderId` only with an order id; every other field kept |
| StripeController.ApplyStatusIdempotent | controllers/stripeController.js:294-330 | applying the same update twice equals applying it once |
| StripeController.AfterStatusUpdate | controllers/stripeController.js:294-330 | only the entry with the session changes; an unknown session changes nothing; ids and sessions are kept |
| StripeController.AfterStatusUpdateKeepsUniqueness | controllers/stripeController.js:324-328 | a status update keeps ids and sessions unique |
| StripeController.SameSessionsSameIndex | controllers/stripeController.js:324-328 | two ledgers with the same sessions in the same places locate a session at the same index |
| StripeController.UpdatePaymentStatus | controllers/stripeController.js:294-330 | the ledger becomes `AfterStatusUpdate`; null iff no entry has the session; otherwise returns the first entry with that session after the update (`{new: true}`), as stored at its index |
| StripeController.NonFeeItems | controllers/stripeController.js:346-347 | the line items whose name does not contain "Frais de livraison", and all of them |
| StripeController.MaterialisedProducts | controllers/stripeController.js:346-355 | the non-fee items in order, numbered 1..n, price in cents, first image or "" |
| StripeController.FeeCharged | controllers/stripeController.js:357-359 | the first fee item's total, 0 when there is none |
| StripeController.OrderPricing | controllers/stripeController.js:374-379 | total = session amount, fee = `FeeCharged`, subtotal + fee = total |
| StripeController.MaterialisedOrder | controllers/stripeController.js:361-383 | the Order built from the session: customer from metadata and session email, products and pricing as above, `paymentStatus` "paid", `orderStatus` "confirmed" |
| StripeController.OrderSaveStep | controllers/stripeController.js:333-391 | an Order is saved iff the address metadata is present, the session retrieval succeeds and the save validates without a session clash; otherwise null and the orders are unchanged |
| StripeController.SaveOrderToDatabase | controllers/stripeController.js:333-391 | the saved order and the new orders are those of `OrderSaveStep` |
| StripeController.CompleteCheckout | controllers/stripeController.js:170-192 | the completed branch: the entry becomes "succeeded" with the session's data, the Order is materialised and, only when it was saved, linked to the entry |
| StripeController.UpdateByIntent | controllers/stripeController.js:204-249 | an intent event updates the first entry holding the intent, or nothing |
| StripeController.Reconcile | controllers/stripeController.js:168-252 | the state change of an accepted event: no ledger entry is added or removed, ids and sessions stay in place, and the orders change only on `checkout.session.completed`, as `OrderSaveStep` says |
| StripeController.HandleWebhook | controllers/stripeController.js:150-255 | a verification failure answers 400 with the message and changes nothing; every accepted event, unknown types included, answers `received` after the state change of `Reconcile` |
| StripeController.CompletedCheckoutLinksOrder | controllers/stripeController.js:170-192 | after a completed event the entry is "succeeded"; `orderCreated` holds iff the order save returned a record, and then `orderId` names a stored "paid" Order of that session |
| StripeController.ExpiredSessionFails | controllers/stripeController.js:194-202 | an expired session's entry becomes "failed" with raw status "expired" and reason "Session expired"; all else unchanged |
| StripeController.IntentEventUpdatesOneEntry | controllers/stripeController.js:204-249 | intent events set "succeeded"/"failed"/"canceled" on the first entry holding the intent, with the amount or the reason, and touch no other entry or order; a no-op when no entry holds it |
| StripeController.UnhandledEventChangesNothing | controllers/stripeController.js:251-252 | an event of another type changes nothing |
| StripeController.AfterStatusUpdateTwice | controllers/stripeController.js:294-330 | two updates of the same session compose on that one entry |
| StripeController.Restamped | controllers/stripeController.js:324-328 | the ledger with only the session's entry's `updatedAt` moved; an unknown session changes nothing |
| StripeController.ApplyStatusAfterLink | controllers/stripeController.js:173-187 | re-applying the completed fields at a later time to an entry already marked (linked or not) changes only its `updatedAt` |
| StripeController.LedgerRedeliveryRestamps | controllers/stripeController.js:173-187 | a redelivered completed update, at its own time, only restamps the session's entry, linked or not |
| StripeController.SecondOrderSaveRefused | controllers/stripeController.js:385-391 | once an Order was saved for a session, a later materialisation, with its own retrieval and time, saves nothing; the orders keep one Order per session |
| StripeController.CompletedRedeliveryIdempotent | controllers/stripeController.js:170-192 | a redelivered `checkout.session.completed`, at its own time and retrieval: at most one Order per session after either delivery; if the first delivery saved the Order, the second saves none; when the second saves none, the orders are unchanged and the ledger differs only in the entry's `updatedAt` |
| StripeController.AfterStatusUpdateKeepsUniquenessOfSessions | controllers/stripeController.js:294-330 | a status update never merges or duplicates sessions |
| StripeController.Echoed | controllers/stripeController.js:339-344 | the line items the model assumes Stripe hands back for those sent: one per item, same name, images, amount, quantity, total = amount × quantity |
| StripeController.NonFeeItemsAppend | controllers/stripeController.js:346-347 | the filter distributes over concatenation |
| StripeController.NonFeeItemsKeepsAll | controllers/stripeController.js:346-347 | a list without fee items passes the filter whole |
| StripeController.CheckoutRoundTrip | controllers/stripeController.js:37-69 | the Order's products are the cart items renumbered 1..n with their image or ""; the recovered fee is the fee charged; the subtotal is the cart total when Stripe charged cart plus fee |
| PaymentsRoute.FilterOf | routes/payments.js:19-33 | a status or email condition iff that parameter is truthy, holding its value; the date bounds as given |
| PaymentsRoute.EmailMatches | routes/payments.js:26 | the entry's email is present and contains the pattern, ignoring ASCII case |
| PaymentsRoute.Matches | routes/payments.js:19-33 | an entry satisfies every condition the filter holds |
| PaymentsRoute.QueryFilterMeaning | routes/payments.js:19-33 | an entry matches the query's filter iff it meets each truthy parameter and the given date bounds |
| PaymentsRoute.BuildFilter | routes/payments.js:19-33 | the filter holds a status and an email condition iff those parameters are truthy, and the date bounds given |
| PaymentsRoute.EmptyQueryMatchesAll | routes/payments.js:19-33 | absent parameters constrain nothing |
| PaymentsRoute.Select | routes/payments.js:41 | `find(filter)`: exactly the entries that match the filter |
| PaymentsRoute.InsertByCreatedDesc | routes/payments.js:43 | insertion adds exactly the one row |
| PaymentsRoute.InsertKeepsNewestFirst | routes/payments.js:43 | insertion keeps the rows newest first |
| PaymentsRoute.SortByCreatedDesc | routes/payments.js:43 | `.sort({createdAt: -1})`: newest first and a permutation of its input |
| PaymentsRoute.PageOf | routes/payments.js:44-45 | None iff `(page-1)*limit` is negative; at most `\|limit\|` rows; row k of the page is row `skip+k` of the sorted list |
| PaymentsRoute.PageCount | routes/payments.js:83 | for a positive limit the smallest page count that covers every record (`ceil`); None iff the limit is 0 |
| PaymentsRoute.EveryRowOnItsPage | routes/payments.js:44-45 | with a positive limit every row appears on page `k / limit + 1`, within the page count |
| PaymentsRoute.WindowNewestFirst | routes/payments.js:43-45 | a window of a newest-first list is newest first and holds only its rows |
| PaymentsRoute.PageOfNewestFirst | routes/payments.js:43-45 | a page of the sorted list is newest first and holds only its rows |
| PaymentsRoute.Statistics | routes/payments.js:50-94 | `totalPayments` is the count; the three status counts are non-negative and sum to at most the count; all zero when nothing matches |
| PaymentsRoute.WithStatus | routes/payments.js:57-73 | exactly the rows of that status |
| PaymentsRoute.StatisticsMeaning | routes/payments.js:50-77 | the counts are the sizes of the per-status subsets; `totalAmount` sums every total; `successfulAmount` sums only the succeeded totals |
| PaymentsRoute.StatisticsOfConcat | routes/payments.js:50-77 | the `$group` fold does not depend on how the matching rows are split |
| PaymentsRoute.ListPayments | routes/payments.js:7-100 | 500 iff the skip is negative; otherwise page, limit, `totalRecords`, page count, statistics and a newest-first page of at most `\|limit\|` rows, all of them matching ledger entries |
| PaymentsRoute.RefundCallFor | routes/payments.js:167-171 | the refund call names the entry's intent, an amount iff one was given (full refund otherwise), and the reason or "requested_by_customer" |
| PaymentsRoute.RefundedRecord | routes/payments.js:173-177 | refunded, the refunded amount, "partially_refunded" iff an amount was given else "refunded", `updatedAt`; no other field changes |
| PaymentsRoute.ResaveOnlyValidated | routes/payments.js:179 | re-saving an existing entry succeeds iff it validates |
| PaymentsRoute.Refund | routes/payments.js:150-196 | 404 for an unknown id; 400 and no change unless the entry succeeded; 500 and no change when Stripe fails or the save is refused; otherwise 200 and exactly that entry replaced by the refunded record |
| PaymentsRoute.RefundNeverRecorded | routes/payments.js:173-179 | with the schema's six-status enum, saving a refunded record always fails |
| PaymentsRoute.RefundRecordedWithRefundAwareEnum | Models/payment.Model.js:47-58 | with "refunded" and "partially_refunded" added to the enum, the refunded record of a valid entry is stored in place |
| PaymentsRoute.DeletePayment | routes/payments.js:199-212 | 404 iff no entry has the id; otherwise exactly that entry is removed and the rest are kept |
| OrdersRoute.ValidStatusesAreSchemaEnum | routes/orders.js:40-47 | the route's six statuses are exactly the schema's `orderStatus` enum |
| OrdersRoute.CheckStatus | routes/orders.js:36-50 | accepted iff the status is truthy and one of the six; "Order status is required" or "Invalid order status" otherwise |
| OrdersRoute.UpdateOrderStatus | routes/orders.js:32-67 | 400 and no change on a rejected status; 404 for an unknown id; otherwise only that order's `orderStatus` and `updatedAt` change, whatever its current status |
| OrdersRoute.DeleteOrder | routes/orders.js:70-83 | 404 iff no order has the id; otherwise exactly that order is removed |
| EmailController.TemplatesFollowStatuses | controllers/emailController.js:10-17 | the three statuses, in order, have templates 23, 24, 25 and are exactly the templated ones |
| EmailController.TemplateFor | controllers/emailController.js:21 | a template iff the status is one of the three |
| EmailController.NatToString | controllers/emailController.js:39 | a non-empty string of decimal digits |
| EmailController.ParseNatToString | controllers/emailController.js:39 | the digits read back to the number |
| EmailController.Unsigned | controllers/emailController.js:39 | digits, a point, two digits of cents |
| EmailController.Money | controllers/emailController.js:39 | `toFixed(2)` of a cent amount: two decimals after the point, a minus sign iff negative |
| EmailController.UnsignedRoundTrip | controllers/emailController.js:39 | the unsigned amount reads back exactly |
| EmailController.MoneyRoundTrip | controllers/emailController.js:39 | the printed amount reads back to exactly the amount in cents |
| EmailController.DeliveryMethodLabel | controllers/emailController.js:41-44 | "Livraison à domicile" iff the method is "domicile", else "Point relais" |
| EmailController.DeliveryAddressText | controllers/emailController.js:40 | "line1, city, postal_code" |
| EmailController.Outcome | controllers/emailController.js:49-66 | success iff the transport accepted; a failure is returned, not thrown |
| EmailController.CommonParams | controllers/emailController.js:36-46 | name, `stripeSessionId` as order id, formatted total, address, method label, date |
| EmailController.OrderStatusEmail | controllers/emailController.js:20-67 | no template: nothing sent, "No template for this status"; otherwise one email to the customer with the status's template and parameters |
| EmailController.OrderConfirmedEmail | controllers/emailController.js:70-112 | template 23 to the customer, with the shared parameters plus subtotal and delivery fee |
| EmailController.ConfirmedEmailsAgree | controllers/emailController.js:20-112 | the confirmation email and the "confirmed" status email share template, recipient and every common parameter |
| StaticAssets.ContentType | app.js:48-65 | the `setHeaders` chain: a Content-Type is set only when a listed suffix ends the path, and it is that suffix's type |
| StaticAssets.EndingsExclude | app.js:48-65 | a path ending with one suffix does not end with another that differs from it within its length |
| StaticAssets.LastCharExcludes | app.js:63 | a path whose last character differs from a suffix's does not end with it |
| StaticAssets.ScriptAndFontTypes | app.js:49-54 | `.js`, `.css`, `.ttf`, `.otf` get their types and fail every earlier test |
| StaticAssets.ImageTypes | app.js:55-60 | `.svg`, `.png`, `.jpg` get their types and fail every earlier test |
| StaticAssets.JpegAndWebpTypes | app.js:59-62 | `.jpeg`, `.webp` get their types and fail every earlier test |
| StaticAssets.WoffType | app.js:63-64 | `.woff` → font/woff |
| StaticAssets.Woff2Type | app.js:63-64 | `.woff2` → font/woff |
| StaticAssets.ChainPicksEntry | app.js:48-65 | a path ending with a table suffix gets that suffix's type |
| StaticAssets.ChainFindsNothing | app.js:48-65 | a path with no listed suffix gets no Content-Type |
| StaticAssets.AtMostOneSuffix | app.js:48-65 | at most one suffix of the table fits any path, so at most one branch applies |
| StaticAssets.ContentTypeIsTable | app.js:48-65 | the chain equals the suffix table: a type iff some suffix fits, and then that suffix's type |
| StaticAssets.RouteAssetPath | app.js:71-74 | the prefix `/{route}/assets/` is removed once; a path without it is served as it is |
| StaticAssets.RouteAssetPathStripsPrefix | app.js:71-74 | `/{route}/assets/X` rewrites to X (first occurrence of the prefix only) |
| StaticAssets.Split | app.js:89 | `split("/")` yields at least one part |
| StaticAssets.JoinSplit | app.js:89-90 | joining the parts with "/" gives back the path |
| StaticAssets.SplitGivesSegments | app.js:89 | the parts contain no "/" |
| StaticAssets.SplitAfterSegment | app.js:89 | splitting `a/rest` gives `a` then the parts of `rest` |
| StaticAssets.SplitAssetsPath | app.js:88-89 | the parts of `/a/b/assets/X` are "", a, b, "assets", then the parts of X |
| StaticAssets.AssetsIsSegment | app.js:90 | "assets" contains no "/" |
| StaticAssets.MultiLevelAssetPathAfterAssets | app.js:88-90 | `/a/b/assets/X` serves X, the parts after the first "assets" joined with "/" |
| StaticAssets.MultiLevelAssetPath | app.js:88-90 | the parts after the first "assets" segment joined with "/"; a path with no such segment is served whole |
| StaticAssets.ServeAsset | app.js:75-83 | the file when it exists, else 404 "Asset not found" |
| DeleteContact.MatchesHexRunMeaning | controllers/deleteContact.js:8 | the matcher accepts exactly n hex digits and nothing more |
| DeleteContact.IsObjectIdHexMeaning | controllers/deleteContact.js:8 | an id is accepted iff it is 24 characters of `[0-9a-fA-F]` |
| DeleteContact.KeyOf | controllers/deleteContact.js:12 | the stored key of an id has its length |
| DeleteContact.KeyIgnoresCase | controllers/deleteContact.js:12 | ids differing only in letter case name the same contact |
| DeleteContact.ContactStore.constructor | controllers/deleteContact.js:12 | an empty store |
| DeleteContact.ContactStore.Delete | controllers/deleteContact.js:3-18 | 400 before the store is read for an ill-formed id; 404 and no change when absent; otherwise exactly that contact removed, 200 |

## Left out

- Floating point: prices, fees, refunds and totals are integer cents. `Math.round(x*100)`, `/100`
  and the rounding of `toFixed(2)` are not modelled. The source stores pricing in euros but
  `amountReceived` in Stripe cents; in the model both are cents.
- Dates: `Date.now()` is the `now` parameter and `createdAt` is an opaque integer.
  `toLocaleDateString("fr-FR")` is the `orderDate` input of the email functions. Invalid dates
  and a `NaN` from `parseInt` (which make the list route answer 500) are not modelled.
- The Stripe SDK calls (`sessions.create`, `sessions.retrieve`, `webhooks.constructEvent`,
  `refunds.create`) are inputs: their result, or `None` when they throw. The session's
  success and cancel URLs and its locale are not modelled.
- The email transport (Brevo `sendTransacEmail`) is the `transportError` input.
  `sendOrderConfirmationEmail` in the Stripe controller (never called, and it calls an undefined
  `createTransporter`) and `sendNewOrderNotificationToAdmin` (it references undefined variables)
  are not part of this model.
- EmailController.OrderStatusEmail: the unused `previousStatus` argument is omitted.
- PaymentsRoute.EmailMatches: the email parameter is a `$regex` in the source, but the model
  treats it as a plain substring. Regular-expression metacharacters are not interpreted: in the
  source a plus-address such as `a+b@x.fr` does not match itself, since `a+` means one or more
  `a`. Case folding covers ASCII letters only, while the `"i"` option also folds letters such
  as É/é.
- StripeController.Echoed: it is an assumption about Stripe that `CheckoutRoundTrip` relies on.
  The source reads the expanded `line_items`, a list object that Stripe may paginate. A line's
  `amount_total` also includes any discounts and taxes. Neither case is modelled: every line
  comes back, in order, with total = unit amount × quantity.
- StripeController.Reconcile: one webhook request uses one `now` for both of its
  `updatePaymentStatus` calls and for the Order. In the source each `Date.now()` is read
  separately.
- PaymentsRoute.SortByCreatedDesc: the order among rows with the same `createdAt` is the model's
  own (a stable insertion); MongoDB does not promise one.
- `populate("orderId")` on the list, the aggregate pipeline's engine, and the storage-level
  errors (a connection failure, an id that is not an ObjectId, which make each route answer 500)
  are not modelled.
- The Payment `metadata` map is not modelled, and neither are the GET routes of
  `routes/payments.js` (by id, by session, by customer email) and `routes/orders.js`.
- Mongoose 6 and earlier turn `stripeStatus: undefined` into `null` in an update. The model follows
  Mongoose 7 and later, where the key is dropped.
- Concurrency: two deliveries of the same webhook running at once are not modelled. The unique
  index is modelled as insert-if-absent on each save, one request at a time.
- `path.join` normalisation, Express's case-insensitive routing and file reading are not
  modelled; the set of existing asset files is an input.
- Keys inherited through the prototype of `ORDER_TEMPLATES` (for instance "constructor") are not
  modelled; the lookup is on the three own keys.
- DeleteContact.ContactStore.Delete: the 500 answer for a storage error is not modelled.

## Findings

| source | as written | input that shows it | evidently intended | confidence | as-written member | corrected member |
|---|---|---|---|---|---|---|
| routes/payments.js:173-179 with Models/payment.Model.js:47-58 | the refund sets `paymentStatus` to "refunded" or "partially_refunded", which are not in the schema's enum, and then calls `save()`; validation rejects it, so the route answers 500 after Stripe has already refunded, and the ledger never records the refund | any succeeded payment and any refund request, e.g. no amount given (status "refunded") | the ledger records the refund: the enum includes both refund statuses | not executed | PaymentsRoute.RefundNeverRecorded | PaymentsRoute.RefundRecordedWithRefundAwareEnum |
