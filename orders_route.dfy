/** The order admin routes (`routes/orders.js`): the status update, checked against the
    six statuses and applied to one order whatever its current status, and the delete. */
module OrdersRoute {
  import opened Base
  import opened Records
  import O = OrderModel

  /** The route's own list of accepted statuses. */
  const ValidStatuses: seq<string> := ["pending", "confirmed", "preparing", "shipped", "delivered", "cancelled"]

  /** The route's list is the schema's `orderStatus` enum, so an accepted status is always one
      the schema admits. */
  lemma ValidStatusesAreSchemaEnum()
    ensures ValidStatuses == O.OrderStatuses
  {
  }

  datatype StatusCheck = Accepted(status: string) | Rejected(error: string)

  /** The body's `orderStatus`: required (absent and "" are refused), then one of the list. */
  function CheckStatus(orderStatus: Option<string>): (r: StatusCheck)
    ensures r.Accepted? <==> Truthy(orderStatus) && orderStatus.value in ValidStatuses
    ensures r.Accepted? ==> r.status == orderStatus.value
    ensures !Truthy(orderStatus) ==> r == Rejected("Order status is required")
    ensures Truthy(orderStatus) && orderStatus.value !in ValidStatuses ==> r == Rejected("Invalid order status")
  {
    if !Truthy(orderStatus) then Rejected("Order status is required")
    else if orderStatus.value !in ValidStatuses then Rejected("Invalid order status")
    else Accepted(orderStatus.value)
  }

  datatype OrderResponse =
    | OrderUpdated(order: O.Order)   // 200
    | OrderBadRequest(error: string) // 400
    | OrderNotFound(error: string)   // 404

  /** `PATCH /api/orders/:id/status`: any listed status replaces the current one, whatever
      it is; `findByIdAndUpdate` writes `orderStatus` and `updatedAt` of that one order and
      nothing else. */
  method UpdateOrderStatus(orders: O.OrderCollection, id: ObjectId, orderStatus: Option<string>, now: Time)
    returns (resp: OrderResponse)
    requires orders.Valid()
    modifies orders
    ensures orders.Valid() && orders.nextId == old(orders.nextId)
    ensures CheckStatus(orderStatus).Rejected? ==>
              resp == OrderBadRequest(CheckStatus(orderStatus).error) && orders.docs == old(orders.docs)
    ensures CheckStatus(orderStatus).Accepted? && O.IndexOfId(old(orders.docs), id).None? ==>
              resp == OrderNotFound("Order not found") && orders.docs == old(orders.docs)
    ensures CheckStatus(orderStatus).Accepted? && O.IndexOfId(old(orders.docs), id).Some? ==>
              var i := O.IndexOfId(old(orders.docs), id).value;
              var updated := old(orders.docs)[i].(orderStatus := orderStatus.value, updatedAt := now);
              && resp == OrderUpdated(updated)
              && orders.docs == old(orders.docs)[i := updated]
              && updated.orderStatus in O.OrderStatuses
  {
    var check := CheckStatus(orderStatus);
    if check.Rejected? {
      return OrderBadRequest(check.error);
    }
    var found := O.IndexOfId(orders.docs, id);
    if found.None? {
      return OrderNotFound("Order not found");
    }
    var i := found.value;
    var updated := orders.docs[i].(orderStatus := check.status, updatedAt := now);
    orders.docs := orders.docs[i := updated];
    resp := OrderUpdated(updated);
  }

  datatype DeleteResponse = OrderDeleted | DeleteNotFound(error: string)   // 200 / 404

  /** `DELETE /api/orders/:id`: exactly the order with that id disappears. */
  method DeleteOrder(orders: O.OrderCollection, id: ObjectId) returns (resp: DeleteResponse)
    requires orders.Valid()
    modifies orders
    ensures orders.Valid()
    ensures resp.DeleteNotFound? <==> forall d :: d in old(orders.docs) ==> d.id != id
    ensures resp.DeleteNotFound? ==> resp.error == "Order not found" && orders.docs == old(orders.docs)
    ensures forall d :: d in orders.docs <==> d in old(orders.docs) && d.id != id
    ensures |orders.docs| == |old(orders.docs)| - (if resp == OrderDeleted then 1 else 0)
  {
    var deleted := orders.FindByIdAndDelete(id);
    if deleted.None? {
      resp := DeleteNotFound("Order not found");
    } else {
      resp := OrderDeleted;
    }
  }
}
