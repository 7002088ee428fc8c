/** Notification selection (`controllers/emailController.js`): which template a status
    change uses, and the recipient and parameters of the transactional email. Sending is
    outside the model: the transport's outcome is a parameter (None: it accepted the email,
    Some(message): it threw). */
module EmailController {
  import opened Base
  import opened Records
  import O = OrderModel

  /** Template ids by order status. */
  const OrderTemplates: map<string, int> := map["confirmed" := 23, "preparing" := 24, "shipped" := 25]

  /** The statuses an admin can set that have an email, in their order of progress. */
  const ValidOrderStatuses: seq<string> := ["confirmed", "preparing", "shipped"]

  /** Every listed status has a template, the templates are exactly those of the list, and
      they are numbered 23, 24, 25 in the list's order. */
  lemma TemplatesFollowStatuses()
    ensures forall i :: 0 <= i < |ValidOrderStatuses| ==>
              ValidOrderStatuses[i] in OrderTemplates && OrderTemplates[ValidOrderStatuses[i]] == 23 + i
    ensures forall s :: s in OrderTemplates <==> s in ValidOrderStatuses
  {
  }

  /** `ORDER_TEMPLATES[status]`. */
  function TemplateFor(status: string): (r: Option<int>)
    ensures r.Some? <==> status in ValidOrderStatuses
    ensures r.Some? ==> r.value in {23, 24, 25}
  {
    if status in OrderTemplates then Some(OrderTemplates[status]) else None
  }

  // ---------------------------------------------------------------------------------------
  // Amounts as `toFixed(2)` prints them

  function DigitChar(d: nat): char
    requires d < 10
  {
    ('0' as int + d) as char
  }

  predicate IsDigit(c: char)
  {
    '0' <= c <= '9'
  }

  function DigitValue(c: char): nat
    requires IsDigit(c)
  {
    c as int - '0' as int
  }

  /** The decimal digits of `n`, without leading zeros. */
  function NatToString(n: nat): (r: string)
    ensures |r| > 0 && forall i :: 0 <= i < |r| ==> IsDigit(r[i])
    decreases n
  {
    if n < 10 then [DigitChar(n)] else NatToString(n / 10) + [DigitChar(n % 10)]
  }

  /** The number a string of decimal digits denotes. */
  function ParseDigits(s: string): nat
    requires forall i :: 0 <= i < |s| ==> IsDigit(s[i])
    decreases |s|
  {
    if s == [] then 0 else ParseDigits(s[..|s| - 1]) * 10 + DigitValue(s[|s| - 1])
  }

  lemma {:induction false} ParseNatToString(n: nat)
    ensures ParseDigits(NatToString(n)) == n
    decreases n
  {
    if n >= 10 {
      var s := NatToString(n);
      ParseNatToString(n / 10);
      assert s[..|s| - 1] == NatToString(n / 10);
    }
  }

  /** The digits of a non-negative amount of cents: the whole euros, a point and exactly two
      digits of cents. */
  function Unsigned(a: nat): (r: string)
    ensures |r| >= 4 && r[|r| - 3] == '.' && IsDigit(r[0])
  {
    NatToString(a / 100) + "." + [DigitChar(a % 100 / 10), DigitChar(a % 10)]
  }

  /** `(cents / 100).toFixed(2)`: an optional minus sign, then the unsigned amount. */
  function Money(cents: int): (r: string)
    ensures |r| >= 4 && r[|r| - 3] == '.'
    ensures cents < 0 <==> r[0] == '-'
  {
    if cents < 0 then "-" + Unsigned(-cents) else Unsigned(cents)
  }

  /** Reads back an unsigned amount: digits, a point, two digits. */
  function ParseUnsigned(body: string): Option<nat>
  {
    if |body| < 4 || body[|body| - 3] != '.' then None
    else
      var whole := body[..|body| - 3];
      var cents := body[|body| - 2..];
      if !(forall i :: 0 <= i < |whole| ==> IsDigit(whole[i])) || !IsDigit(cents[0]) || !IsDigit(cents[1]) then None
      else Some(ParseDigits(whole) * 100 + DigitValue(cents[0]) * 10 + DigitValue(cents[1]))
  }

  /** Reads back what `Money` printed (a string of that shape). */
  function ParseMoney(s: string): Option<int>
  {
    if |s| > 0 && s[0] == '-' then
      match ParseUnsigned(s[1..])
      case None => None
      case Some(v) => Some(0 - v as int)
    else
      match ParseUnsigned(s)
      case None => None
      case Some(v) => Some(v)
  }

  lemma {:induction false} UnsignedRoundTrip(a: nat)
    ensures ParseUnsigned(Unsigned(a)) == Some(a)
  {
    var whole := NatToString(a / 100);
    var body := Unsigned(a);
    assert body[..|body| - 3] == whole;
    assert body[|body| - 2..] == [DigitChar(a % 100 / 10), DigitChar(a % 10)];
    ParseNatToString(a / 100);
  }

  /** The printed amount denotes exactly the amount: no cent is lost or invented. */
  lemma {:induction false} MoneyRoundTrip(cents: int)
    ensures ParseMoney(Money(cents)) == Some(cents)
  {
    if cents < 0 {
      var u := Unsigned(-cents);
      UnsignedRoundTrip(-cents);
      assert ("-" + u)[0] == '-' && ("-" + u)[1..] == u;
    } else {
      UnsignedRoundTrip(cents);
    }
  }

  // ---------------------------------------------------------------------------------------
  // The emails

  /** `DELIVERY_METHOD`. */
  function DeliveryMethodLabel(deliveryMethod: Option<string>): (r: string)
    ensures r == "Livraison à domicile" <==> deliveryMethod == Some("domicile")
    ensures r != "Livraison à domicile" ==> r == "Point relais"
  {
    if deliveryMethod == Some("domicile") then "Livraison à domicile" else "Point relais"
  }

  /** `DELIVERY_ADDRESS`: line 1, city and postal code, comma separated. */
  function DeliveryAddressText(a: Address): (r: string)
    ensures a.line1.Some? && a.city.Some? && a.postalCode.Some? ==>
              r == a.line1.value + ", " + a.city.value + ", " + a.postalCode.value
  {
    Text(a.line1) + ", " + Text(a.city) + ", " + Text(a.postalCode)
  }

  datatype Recipient = Recipient(email: Option<string>, name: Option<string>)

  /** The template parameters; `subtotal` and `deliveryFee` only in the confirmation email. */
  datatype Params = Params(customerName: Option<string>, orderId: string, orderTotal: string,
                           subtotal: Option<string>, deliveryFee: Option<string>,
                           deliveryAddress: string, deliveryMethod: string, orderDate: string)

  datatype Email = Email(to: seq<Recipient>, templateId: int, params: Params)

  datatype EmailOutcome =
    | Delivered                      // { success: true }
    | NoTemplate(error: string)      // { success: false, error: "No template for this status" }
    | SendFailed(message: string)    // { success: false, error, details }

  /** The outcome of handing an email to the transport. */
  function Outcome(transportError: Option<string>): (r: EmailOutcome)
    ensures r == Delivered <==> transportError.None?
    ensures transportError.Some? ==> r == SendFailed(transportError.value)
  {
    if transportError.None? then Delivered else SendFailed(transportError.value)
  }

  /** The parameters both emails share. `orderDate` is the date as `toLocaleDateString`
      renders it. */
  function CommonParams(o: O.Order, orderDate: string): (p: Params)
    ensures p.customerName == o.customerInfo.name && p.orderId == o.stripeSessionId
    ensures p.orderTotal == Money(o.pricing.total)
    ensures p.deliveryAddress == DeliveryAddressText(o.deliveryAddress)
    ensures p.deliveryMethod == DeliveryMethodLabel(o.deliveryMethod) && p.orderDate == orderDate
    ensures p.subtotal == None && p.deliveryFee == None
  {
    Params(o.customerInfo.name, o.stripeSessionId, Money(o.pricing.total), None, None,
           DeliveryAddressText(o.deliveryAddress), DeliveryMethodLabel(o.deliveryMethod), orderDate)
  }

  /** `sendOrderStatusEmail(order, previousStatus, newStatus)`: the email handed to the
      transport (None: nothing sent) and the outcome. A status without a template sends
      nothing; otherwise the customer gets that status's template. */
  function OrderStatusEmail(o: O.Order, newStatus: string, orderDate: string,
                            transportError: Option<string>): (r: (Option<Email>, EmailOutcome))
    ensures r.0.None? <==> newStatus !in ValidOrderStatuses
    ensures r.0.None? ==> r.1 == NoTemplate("No template for this status")
    ensures r.0.Some? ==>
              && r.0.value.to == [Recipient(o.customerInfo.email, o.customerInfo.name)]
              && Some(r.0.value.templateId) == TemplateFor(newStatus)
              && r.0.value.params == CommonParams(o, orderDate)
              && r.1 == Outcome(transportError)
  {
    match TemplateFor(newStatus)
    case None => (None, NoTemplate("No template for this status"))
    case Some(t) =>
      (Some(Email([Recipient(o.customerInfo.email, o.customerInfo.name)], t, CommonParams(o, orderDate))),
       Outcome(transportError))
  }

  /** `sendOrderConfirmedEmail(order)`: the "confirmed" template, with the subtotal and the
      delivery fee as well. */
  function OrderConfirmedEmail(o: O.Order, orderDate: string, transportError: Option<string>): (r: (Email, EmailOutcome))
    ensures r.0.to == [Recipient(o.customerInfo.email, o.customerInfo.name)]
    ensures Some(r.0.templateId) == TemplateFor("confirmed")
    ensures r.0.params == CommonParams(o, orderDate).(subtotal := Some(Money(o.pricing.subtotal)),
                                                      deliveryFee := Some(Money(o.pricing.deliveryFee)))
    ensures r.1 == Outcome(transportError)
  {
    var params := CommonParams(o, orderDate).(subtotal := Some(Money(o.pricing.subtotal)),
                                              deliveryFee := Some(Money(o.pricing.deliveryFee)));
    (Email([Recipient(o.customerInfo.email, o.customerInfo.name)], OrderTemplates["confirmed"], params),
     Outcome(transportError))
  }

  /** The confirmation email and the status email for "confirmed" use the same template and
      agree on every parameter they share. */
  lemma ConfirmedEmailsAgree(o: O.Order, orderDate: string, transportError: Option<string>)
    ensures var status := OrderStatusEmail(o, "confirmed", orderDate, transportError).0;
            var confirmed := OrderConfirmedEmail(o, orderDate, transportError).0;
            && status.Some? && status.value.templateId == confirmed.templateId == 23
            && status.value.to == confirmed.to
            && status.value.params == confirmed.params.(subtotal := None, deliveryFee := None)
  {
  }
}
