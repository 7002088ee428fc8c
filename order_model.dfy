/** The Order collection (`Models/order.Model.js`): one document per paid checkout session,
    the payment and fulfilment status enums, required paths and defaults, the unique index on
    the session id, and `save()` with its pre-save hook. */
module OrderModel {
  import opened Base
  import opened Records

  /** The schema's `paymentStatus` enum for orders. */
  const OrderPaymentStatuses: seq<string> := ["pending", "paid", "failed", "refunded"]

  /** The schema's `orderStatus` enum, in declaration order. */
  const OrderStatuses: seq<string> :=
    ["pending", "confirmed", "preparing", "shipped", "delivered", "cancelled"]

  datatype Order = Order(
    id: ObjectId,
    stripeSessionId: string,
    paymentIntentId: Option<string>,
    customerInfo: CustomerInfo,
    deliveryAddress: Address,
    deliveryMethod: Option<string>,
    paymentMethod: string,
    products: seq<Line>,
    pricing: Pricing,
    paymentStatus: string,
    orderStatus: string,
    createdAt: Time,
    updatedAt: Time)

  /** `new Order({...})`: the paths the caller leaves undefined take the schema's defaults. */
  function NewOrder(id: ObjectId, sessionId: string, paymentIntentId: Option<string>,
                    customer: CustomerInfo, address: Address, deliveryMethod: Option<string>,
                    paymentMethod: Option<string>, products: seq<Line>, pricing: Pricing,
                    paymentStatus: Option<string>, orderStatus: Option<string>, now: Time): (r: Order)
    ensures r.id == id && r.stripeSessionId == sessionId && r.products == products && r.pricing == pricing
    ensures r.customerInfo == customer && r.deliveryAddress == address && r.deliveryMethod == deliveryMethod
    ensures r.paymentMethod == (if paymentMethod.Some? then paymentMethod.value else "card")
    ensures r.paymentStatus == (if paymentStatus.Some? then paymentStatus.value else "pending")
    ensures r.orderStatus == (if orderStatus.Some? then orderStatus.value else "pending")
    ensures r.createdAt == now && r.updatedAt == now
  {
    Order(id, sessionId, paymentIntentId, customer, address, deliveryMethod,
          match paymentMethod case Some(m) => m case None => "card",
          products, pricing,
          match paymentStatus case Some(s) => s case None => "pending",
          match orderStatus case Some(s) => s case None => "pending",
          now, now)
  }

  /** The schema's validators, run by `save()`: the required paths and the three enums. */
  predicate ValidOrder(o: Order)
  {
    && o.stripeSessionId != ""
    && CustomerComplete(o.customerInfo, o.deliveryAddress)
    && DeliveryMethodValid(o.deliveryMethod)
    && LinesValid(o.products)
    && o.paymentStatus in OrderPaymentStatuses
    && o.orderStatus in OrderStatuses
  }

  predicate UniqueIds(docs: seq<Order>)
  {
    forall i, j :: 0 <= i < j < |docs| ==> docs[i].id != docs[j].id
  }

  /** What the unique index on `stripeSessionId` guarantees: at most one Order per session. */
  predicate UniqueSessions(docs: seq<Order>)
  {
    forall i, j :: 0 <= i < j < |docs| ==> docs[i].stripeSessionId != docs[j].stripeSessionId
  }

  predicate HasSession(docs: seq<Order>, sessionId: string)
  {
    exists i :: 0 <= i < |docs| && docs[i].stripeSessionId == sessionId
  }

  function IndexOfId(docs: seq<Order>, id: ObjectId): Option<nat>
  {
    FindFirst(docs, (o: Order) => o.id == id)
  }

  predicate SessionTakenByOther(docs: seq<Order>, sessionId: string, id: ObjectId)
  {
    exists i :: 0 <= i < |docs| && docs[i].stripeSessionId == sessionId && docs[i].id != id
  }

  /** The collection after `order.save()`, or None when the save is rejected: the pre-save hook
      stamps `updatedAt`, validation and the unique index can reject, a stored id is replaced
      and any other document appended. */
  function SaveOutcome(docs: seq<Order>, o: Order, now: Time): (r: Option<seq<Order>>)
    requires UniqueIds(docs)
    ensures r.Some? <==> ValidOrder(o) && !SessionTakenByOther(docs, o.stripeSessionId, o.id)
    ensures r.Some? ==> o.(updatedAt := now) in r.value
    ensures r.Some? ==> forall d :: d in docs && d.id != o.id ==> d in r.value
    ensures r.Some? ==> forall d :: d in r.value ==> d in docs || d == o.(updatedAt := now)
    ensures r.Some? && UniqueSessions(docs) ==> UniqueIds(r.value) && UniqueSessions(r.value)
  {
    var q := o.(updatedAt := now);
    if !ValidOrder(q) || SessionTakenByOther(docs, q.stripeSessionId, q.id) then None
    else
      match IndexOfId(docs, q.id)
      case Some(i) =>
        var updated := docs[i := q];
        assert updated[i] == q;
        assert forall d :: d in docs && d.id != o.id ==> d in updated by {
          forall d | d in docs && d.id != o.id ensures d in updated {
            var k :| 0 <= k < |docs| && docs[k] == d;
            assert updated[k] == d;
          }
        }
        Some(updated)
      case None => Some(docs + [q])
  }

  /** A second Order for a session that already has one is always refused: the unique index
      turns a redelivered "completed" event into a failed save. */
  lemma {:induction false} SecondOrderRefused(docs: seq<Order>, o: Order, now: Time)
    requires UniqueIds(docs)
    requires HasSession(docs, o.stripeSessionId)
    requires forall i :: 0 <= i < |docs| ==> docs[i].id != o.id
    ensures SaveOutcome(docs, o, now).None?
  {
    var i :| 0 <= i < |docs| && docs[i].stripeSessionId == o.stripeSessionId;
    assert docs[i].id != o.id;
  }

  /** Removing one document keeps the ids and the sessions unique and below the bound. */
  lemma RemovalKeepsUniqueness(docs: seq<Order>, i: nat, bound: nat)
    requires i < |docs| && UniqueIds(docs) && UniqueSessions(docs)
    requires forall k :: 0 <= k < |docs| ==> docs[k].id < bound
    ensures var r := docs[..i] + docs[i + 1..];
            UniqueIds(r) && UniqueSessions(r) && forall k :: 0 <= k < |r| ==> r[k].id < bound
  {
    RemoveAt(docs, i, docs[..i] + docs[i + 1..]);
  }

  /** The orders collection: documents in natural order and the ObjectId counter. */
  class OrderCollection {
    var docs: seq<Order>
    var nextId: ObjectId

    ghost predicate Valid()
      reads this
    {
      && UniqueIds(docs)
      && UniqueSessions(docs)
      && forall i :: 0 <= i < |docs| ==> docs[i].id < nextId
    }

    constructor ()
      ensures Valid() && docs == [] && nextId == 0
    {
      docs := [];
      nextId := 0;
    }

    /** The `_id` that `new Order(...)` allocates. */
    method FreshId() returns (id: ObjectId)
      requires Valid()
      modifies this
      ensures Valid() && docs == old(docs) && id == old(nextId) && nextId == id + 1
    {
      id := nextId;
      nextId := nextId + 1;
    }

    /** `order.save()`: pre-save hook, validation, unique index, then insert or replace. */
    method Save(o: Order, now: Time) returns (saved: Option<Order>)
      requires Valid() && o.id < nextId
      modifies this
      ensures Valid() && nextId == old(nextId)
      ensures SaveOutcome(old(docs), o, now).Some? ==>
                docs == SaveOutcome(old(docs), o, now).value && saved == Some(o.(updatedAt := now))
      ensures SaveOutcome(old(docs), o, now).None? ==> docs == old(docs) && saved == None
    {
      var out := SaveOutcome(docs, o, now);
      if out.Some? {
        forall k | 0 <= k < |out.value| ensures out.value[k].id < nextId {
          assert out.value[k] in out.value;
        }
        docs := out.value;
        saved := Some(o.(updatedAt := now));
      } else {
        saved := None;
      }
    }
  
    /** `findByIdAndDelete(id)`: removes the document with that id and returns it. */
    method FindByIdAndDelete(id: ObjectId) returns (deleted: Option<Order>)
      requires Valid()
      modifies this
      ensures Valid() && nextId == old(nextId)
      ensures IndexOfId(old(docs), id).None? ==> deleted == None && docs == old(docs)
      ensures IndexOfId(old(docs), id).Some? ==>
                var i := IndexOfId(old(docs), id).value;
                deleted == Some(old(docs)[i]) && docs == old(docs)[..i] + old(docs)[i + 1..]
      ensures forall d :: d in docs <==> d in old(docs) && d.id != id
    {
      var found := IndexOfId(docs, id);
      match found {
        case None =>
          deleted := None;
        case Some(i) =>
          RemoveOnly(docs, i, (d: Order) => d.id == id);
          RemovalKeepsUniqueness(docs, i, nextId);
          deleted := Some(docs[i]);
          docs := docs[..i] + docs[i + 1..];
      }
    }
  }
}
