/** The Payment ledger (`Models/payment.Model.js`): one document per checkout session,
    the schema's enums, required paths and defaults, the unique index on the session id,
    and `save()` with its pre-save hook. */
module PaymentModel {
  import opened Base
  import opened Records

  /** The schema's `paymentStatus` enum, in declaration order. */
  const PaymentStatuses: seq<string> :=
    ["pending", "processing", "succeeded", "failed", "canceled", "requires_action"]

  datatype Payment = Payment(
    id: ObjectId,
    stripeSessionId: string,
    paymentIntentId: Option<string>,
    customerInfo: CustomerInfo,
    deliveryAddress: Address,
    deliveryMethod: Option<string>,
    paymentMethod: string,
    items: seq<Line>,
    pricing: Pricing,
    paymentStatus: string,
    stripeStatus: Option<string>,
    failureReason: Option<string>,
    currency: string,
    amountReceived: Option<int>,
    refunded: bool,
    refundAmount: int,
    orderCreated: bool,
    orderId: Option<ObjectId>,
    createdAt: Time,
    updatedAt: Time)

  /** `new Payment({...})`: the paths the caller leaves undefined take the schema's defaults. */
  function NewPayment(id: ObjectId, sessionId: string, customer: CustomerInfo, address: Address,
                      deliveryMethod: Option<string>, paymentMethod: Option<string>,
                      items: seq<Line>, pricing: Pricing, paymentStatus: Option<string>,
                      stripeStatus: Option<string>, currency: Option<string>, now: Time): (r: Payment)
    ensures r.id == id && r.stripeSessionId == sessionId && r.items == items && r.pricing == pricing
    ensures r.paymentMethod == (if paymentMethod.Some? then paymentMethod.value else "card")
    ensures r.currency == (if currency.Some? then currency.value else "eur")
    ensures r.paymentStatus == (if paymentStatus.Some? then paymentStatus.value else "pending")
    ensures !r.refunded && r.refundAmount == 0 && !r.orderCreated && r.orderId == None
    ensures r.paymentIntentId == None && r.failureReason == None && r.amountReceived == None
    ensures r.createdAt == now && r.updatedAt == now
  {
    Payment(id, sessionId, None, customer, address, deliveryMethod,
            match paymentMethod case Some(m) => m case None => "card",
            items, pricing,
            match paymentStatus case Some(s) => s case None => "pending",
            stripeStatus, None,
            match currency case Some(c) => c case None => "eur",
            None, false, 0, false, None, now, now)
  }

  /** The schema's validators, run by `save()`: the required paths and the two enums.
      `statuses` is the `paymentStatus` enum the collection was declared with. */
  predicate ValidPayment(p: Payment, statuses: seq<string>)
  {
    && p.stripeSessionId != ""
    && CustomerComplete(p.customerInfo, p.deliveryAddress)
    && DeliveryMethodValid(p.deliveryMethod)
    && LinesValid(p.items)
    && p.paymentStatus in statuses
  }

  predicate UniqueIds(docs: seq<Payment>)
  {
    forall i, j :: 0 <= i < j < |docs| ==> docs[i].id != docs[j].id
  }

  /** What the unique index on `stripeSessionId` guarantees: at most one entry per session. */
  predicate UniqueSessions(docs: seq<Payment>)
  {
    forall i, j :: 0 <= i < j < |docs| ==> docs[i].stripeSessionId != docs[j].stripeSessionId
  }

  predicate HasSession(docs: seq<Payment>, sessionId: string)
  {
    exists i :: 0 <= i < |docs| && docs[i].stripeSessionId == sessionId
  }

  function IndexOfId(docs: seq<Payment>, id: ObjectId): Option<nat>
  {
    FindFirst(docs, (p: Payment) => p.id == id)
  }

  function IndexOfSession(docs: seq<Payment>, sessionId: string): Option<nat>
  {
    FindFirst(docs, (p: Payment) => p.stripeSessionId == sessionId)
  }

  /** A document other than the one with id `id` already holds `sessionId`. */
  predicate SessionTakenByOther(docs: seq<Payment>, sessionId: string, id: ObjectId)
  {
    exists i :: 0 <= i < |docs| && docs[i].stripeSessionId == sessionId && docs[i].id != id
  }

  /** The collection after `doc.save()`, or None when the save is rejected. The pre-save hook
      stamps `updatedAt`; validation and the unique index can reject; a document whose id is
      stored replaces it, any other is appended. */
  function SaveOutcome(docs: seq<Payment>, p: Payment, now: Time, statuses: seq<string>): (r: Option<seq<Payment>>)
    requires UniqueIds(docs)
    ensures r.Some? <==> ValidPayment(p, statuses) && !SessionTakenByOther(docs, p.stripeSessionId, p.id)
    ensures r.Some? ==> p.(updatedAt := now) in r.value
    ensures r.Some? ==> forall d :: d in docs && d.id != p.id ==> d in r.value
    ensures r.Some? ==> forall d :: d in r.value ==> d in docs || d == p.(updatedAt := now)
    ensures r.Some? && UniqueSessions(docs) ==> UniqueIds(r.value) && UniqueSessions(r.value)
  {
    var q := p.(updatedAt := now);
    if !ValidPayment(q, statuses) || SessionTakenByOther(docs, q.stripeSessionId, q.id) then None
    else
      match IndexOfId(docs, q.id)
      case Some(i) =>
        var updated := docs[i := q];
        assert updated[i] == q;
        assert forall d :: d in docs && d.id != p.id ==> d in updated by {
          forall d | d in docs && d.id != p.id ensures d in updated {
            var k :| 0 <= k < |docs| && docs[k] == d;
            assert updated[k] == d;
          }
        }
        Some(updated)
      case None => Some(docs + [q])
  }

  /** Recording a second ledger entry for a session that already has one is refused and
      leaves the collection as it was: attempts are never merged or duplicated. */
  lemma {:induction false} SecondEntryRefused(docs: seq<Payment>, p: Payment, now: Time, statuses: seq<string>)
    requires UniqueIds(docs)
    requires HasSession(docs, p.stripeSessionId)
    requires forall i :: 0 <= i < |docs| ==> docs[i].id != p.id
    ensures SaveOutcome(docs, p, now, statuses).None?
  {
    var i :| 0 <= i < |docs| && docs[i].stripeSessionId == p.stripeSessionId;
    assert docs[i].id != p.id;
  }

  /** Removing one document keeps the ids and the sessions unique and below the bound. */
  lemma RemovalKeepsUniqueness(docs: seq<Payment>, i: nat, bound: nat)
    requires i < |docs| && UniqueIds(docs) && UniqueSessions(docs)
    requires forall k :: 0 <= k < |docs| ==> docs[k].id < bound
    ensures var r := docs[..i] + docs[i + 1..];
            UniqueIds(r) && UniqueSessions(r) && forall k :: 0 <= k < |r| ==> r[k].id < bound
  {
    RemoveAt(docs, i, docs[..i] + docs[i + 1..]);
  }

  /** The payments collection: documents in natural (insertion) order and the counter that
      stands for ObjectId generation. */
  class PaymentCollection {
    /** The `paymentStatus` enum the schema was declared with. */
    const statuses: seq<string>
    var docs: seq<Payment>
    var nextId: ObjectId

    ghost predicate Valid()
      reads this
    {
      && UniqueIds(docs)
      && UniqueSessions(docs)
      && forall i :: 0 <= i < |docs| ==> docs[i].id < nextId
    }

    constructor (statuses: seq<string>)
      ensures Valid() && this.statuses == statuses && docs == [] && nextId == 0
    {
      this.statuses := statuses;
      docs := [];
      nextId := 0;
    }

    /** The `_id` that `new Payment(...)` allocates. */
    method FreshId() returns (id: ObjectId)
      requires Valid()
      modifies this
      ensures Valid() && docs == old(docs) && id == old(nextId) && nextId == id + 1
    {
      id := nextId;
      nextId := nextId + 1;
    }

    /** `doc.save()`: pre-save hook, validation, unique index, then insert or replace. */
    method Save(p: Payment, now: Time) returns (saved: Option<Payment>)
      requires Valid() && p.id < nextId
      modifies this
      ensures Valid() && nextId == old(nextId)
      ensures SaveOutcome(old(docs), p, now, statuses).Some? ==>
                docs == SaveOutcome(old(docs), p, now, statuses).value && saved == Some(p.(updatedAt := now))
      ensures SaveOutcome(old(docs), p, now, statuses).None? ==> docs == old(docs) && saved == None
    {
      var out := SaveOutcome(docs, p, now, statuses);
      if out.Some? {
        var q := p.(updatedAt := now);
        forall k | 0 <= k < |out.value| ensures out.value[k].id < nextId {
          assert out.value[k] in out.value;
        }
        docs := out.value;
        saved := Some(q);
      } else {
        saved := None;
      }
    }

    /** `findByIdAndDelete(id)`: removes the document with that id and returns it. */
    method FindByIdAndDelete(id: ObjectId) returns (deleted: Option<Payment>)
      requires Valid()
      modifies this
      ensures Valid() && nextId == old(nextId)
      ensures IndexOfId(old(docs), id).None? ==> deleted == None && docs == old(docs)
      ensures IndexOfId(old(docs), id).Some? ==>
                var i := IndexOfId(old(docs), id).value;
                deleted == Some(old(docs)[i]) && docs == old(docs)[..i] + old(docs)[i + 1..]
      ensures forall d :: d in docs <==> d in old(docs) && d.id != id
    {
      var found := IndexOfId(docs, id);
      match found {
        case None =>
          deleted := None;
        case Some(i) =>
          RemoveOnly(docs, i, (d: Payment) => d.id == id);
          RemovalKeepsUniqueness(docs, i, nextId);
          deleted := Some(docs[i]);
          docs := docs[..i] + docs[i + 1..];
      }
    }
  }
}
