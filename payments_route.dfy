/** The ledger's admin routes (`routes/payments.js`): the filtered, sorted and paginated list
    with its statistics, the refund, and the delete. */
module PaymentsRoute {
  import opened Base
  import opened Records
  import P = PaymentModel

  // ---------------------------------------------------------------------------------------
  // Listing

  /** The list's query string. `fromDate`/`toDate` are the parsed dates (None when the
      parameter is absent or empty); `page`/`limit` are the parsed integers (None when absent). */
  datatype ListQuery = ListQuery(status: Option<string>, email: Option<string>,
                                 fromDate: Option<Time>, toDate: Option<Time>,
                                 page: Option<int>, limit: Option<int>)

  /** The Mongo filter object, one optional condition per path. */
  datatype Filter = Filter(paymentStatus: Option<string>, emailPattern: Option<string>,
                           createdFrom: Option<Time>, createdTo: Option<Time>)

  /** The filter a query asks for: a condition for every truthy parameter and nothing else. */
  function FilterOf(q: ListQuery): (f: Filter)
    ensures f.paymentStatus.Some? <==> Truthy(q.status)
    ensures f.emailPattern.Some? <==> Truthy(q.email)
    ensures f.paymentStatus.Some? ==> f.paymentStatus == q.status
    ensures f.emailPattern.Some? ==> f.emailPattern == q.email
    ensures f.createdFrom == q.fromDate && f.createdTo == q.toDate
  {
    Filter(if Truthy(q.status) then q.status else None,
           if Truthy(q.email) then q.email else None,
           q.fromDate, q.toDate)
  }

  /** The filter object is built one conditional assignment at a time. */
  method BuildFilter(q: ListQuery) returns (f: Filter)
    ensures f == FilterOf(q)
    ensures f.paymentStatus.Some? <==> Truthy(q.status)
    ensures f.emailPattern.Some? <==> Truthy(q.email)
  {
    f := Filter(None, None, None, None);
    if Truthy(q.status) {
      f := f.(paymentStatus := q.status);
    }
    if Truthy(q.email) {
      f := f.(emailPattern := q.email);
    }
    if q.fromDate.Some? || q.toDate.Some? {
      if q.fromDate.Some? {
        f := f.(createdFrom := q.fromDate);
      }
      if q.toDate.Some? {
        f := f.(createdTo := q.toDate);
      }
    }
  }

  /** `{ $regex: pattern, $options: "i" }` for a pattern without metacharacters: the email
      is present and contains the pattern, ignoring ASCII case. */
  predicate EmailMatches(email: Option<string>, pattern: string)
  {
    email.Some? && Includes(Lower(email.value), Lower(pattern))
  }

  /** A ledger entry satisfies the filter: exact status, case-insensitive email pattern, and
      `createdAt` within the inclusive bounds. */
  predicate Matches(f: Filter, p: P.Payment)
  {
    && (f.paymentStatus.Some? ==> p.paymentStatus == f.paymentStatus.value)
    && (f.emailPattern.Some? ==> EmailMatches(p.customerInfo.email, f.emailPattern.value))
    && (f.createdFrom.Some? ==> p.createdAt >= f.createdFrom.value)
    && (f.createdTo.Some? ==> p.createdAt <= f.createdTo.value)
  }

  /** What the list's query asks of an entry: each truthy parameter is a condition, and an
      absent or empty one is none. */
  lemma QueryFilterMeaning(q: ListQuery, p: P.Payment)
    ensures Matches(FilterOf(q), p) <==>
              && (Truthy(q.status) ==> p.paymentStatus == q.status.value)
              && (Truthy(q.email) ==> EmailMatches(p.customerInfo.email, q.email.value))
              && (q.fromDate.Some? ==> p.createdAt >= q.fromDate.value)
              && (q.toDate.Some? ==> p.createdAt <= q.toDate.value)
  {
  }

  /** A query without parameters constrains nothing. */
  lemma EmptyQueryMatchesAll(p: P.Payment)
    ensures Matches(FilterOf(ListQuery(None, None, None, None, None, None)), p)
  {
  }

  /** `find(filter)`: the matching entries, in natural order. */
  function Select(docs: seq<P.Payment>, f: Filter): (r: seq<P.Payment>)
    ensures |r| <= |docs|
    ensures forall x :: x in r <==> x in docs && Matches(f, x)
  {
    if docs == [] then []
    else if Matches(f, docs[0]) then [docs[0]] + Select(docs[1..], f)
    else Select(docs[1..], f)
  }

  predicate NewestFirst(rows: seq<P.Payment>)
  {
    forall i, j :: 0 <= i < j < |rows| ==> rows[i].createdAt >= rows[j].createdAt
  }

  /** Places `p` before the first row that is strictly older. */
  function InsertByCreatedDesc(p: P.Payment, rows: seq<P.Payment>): (r: seq<P.Payment>)
    ensures |r| == |rows| + 1
    ensures r[0] == p || (rows != [] && r[0] == rows[0])
    ensures multiset(r) == multiset(rows) + multiset{p}
  {
    if rows == [] then [p]
    else if p.createdAt >= rows[0].createdAt then [p] + rows
    else
      assert rows == [rows[0]] + rows[1..];
      [rows[0]] + InsertByCreatedDesc(p, rows[1..])
  }

  lemma {:induction false} InsertKeepsNewestFirst(p: P.Payment, rows: seq<P.Payment>)
    requires NewestFirst(rows)
    ensures NewestFirst(InsertByCreatedDesc(p, rows))
  {
    if rows != [] && p.createdAt < rows[0].createdAt {
      var rest := InsertByCreatedDesc(p, rows[1..]);
      InsertKeepsNewestFirst(p, rows[1..]);
      assert rows[0].createdAt >= rest[0].createdAt;
      assert InsertByCreatedDesc(p, rows) == [rows[0]] + rest;
    }
  }

  /** `.sort({ createdAt: -1 })`: the same entries, newest first. */
  function SortByCreatedDesc(rows: seq<P.Payment>): (r: seq<P.Payment>)
    ensures NewestFirst(r)
    ensures multiset(r) == multiset(rows)
  {
    if rows == [] then []
    else
      assert rows == [rows[0]] + rows[1..];
      InsertKeepsNewestFirst(rows[0], SortByCreatedDesc(rows[1..]));
      InsertByCreatedDesc(rows[0], SortByCreatedDesc(rows[1..]))
  }

  function Min(a: int, b: int): int
  {
    if a <= b then a else b
  }

  function Abs(a: int): nat
  {
    if a < 0 then -a else a
  }

  /** `.limit(limit).skip((page - 1) * limit)` on the sorted rows. A negative skip is refused
      by the database (None); a limit of 0 means no limit and a negative one returns |limit|
      rows. */
  function PageOf(sorted: seq<P.Payment>, page: int, limit: int): (r: Option<seq<P.Payment>>)
    ensures r.None? <==> (page - 1) * limit < 0
    ensures r.Some? && limit != 0 ==> |r.value| <= Abs(limit)
    ensures r.Some? ==> forall k :: 0 <= k < |r.value| ==>
              (page - 1) * limit + k < |sorted| && r.value[k] == sorted[(page - 1) * limit + k]
  {
    var skip := (page - 1) * limit;
    if skip < 0 then None
    else
      var rest := sorted[Min(skip, |sorted|)..];
      Some(if limit == 0 then rest else rest[..Min(Abs(limit), |rest|)])
  }

  /** `Math.ceil(total / limit)`, with None for the `null` a division by zero serialises to. */
  function PageCount(total: nat, limit: int): (r: Option<int>)
    ensures limit > 0 ==> r.Some? && (r.value - 1) * limit < total <= r.value * limit
    ensures limit == 0 <==> r.None?
  {
    if limit == 0 then None
    else if limit > 0 then Some((total + limit - 1) / limit)
    else Some(-(total / -limit))
  }

  /** With a positive limit, the k-th row (from 0) of the sorted list is on page
      `k / limit + 1`, at position `k % limit`, and that page is within the page count. */
  lemma {:induction false} EveryRowOnItsPage(sorted: seq<P.Payment>, limit: int, k: nat)
    requires limit > 0 && k < |sorted|
    ensures var page := k / limit + 1;
            && PageOf(sorted, page, limit).Some?
            && k % limit < |PageOf(sorted, page, limit).value|
            && PageOf(sorted, page, limit).value[k % limit] == sorted[k]
            && page <= PageCount(|sorted|, limit).value
  {
    var page := k / limit + 1;
    var skip := (page - 1) * limit;
    assert skip + k % limit == k;
    var rest := sorted[skip..];
    assert |rest| > k % limit;
    var count := PageCount(|sorted|, limit).value;
    assert (count - 1) * limit < |sorted| <= count * limit;
  }

  /** The `$group` stage's six sums. */
  datatype Stats = Stats(totalPayments: int, totalAmount: int, successfulPayments: int,
                         failedPayments: int, pendingPayments: int, successfulAmount: int)

  const NoStats: Stats := Stats(0, 0, 0, 0, 0, 0)

  function AddStats(a: Stats, b: Stats): Stats
  {
    Stats(a.totalPayments + b.totalPayments, a.totalAmount + b.totalAmount,
          a.successfulPayments + b.successfulPayments, a.failedPayments + b.failedPayments,
          a.pendingPayments + b.pendingPayments, a.successfulAmount + b.successfulAmount)
  }

  /** One entry's contribution to each sum. */
  function StatsOf(p: P.Payment): Stats
  {
    var ok := p.paymentStatus == "succeeded";
    Stats(1, p.pricing.total, if ok then 1 else 0,
          if p.paymentStatus == "failed" then 1 else 0,
          if p.paymentStatus == "pending" then 1 else 0,
          if ok then p.pricing.total else 0)
  }

  /** The statistics of the filtered rows; with no row, the all-zero default. */
  function Statistics(rows: seq<P.Payment>): (r: Stats)
    ensures r.totalPayments == |rows|
    ensures 0 <= r.successfulPayments && 0 <= r.failedPayments && 0 <= r.pendingPayments
    ensures r.successfulPayments + r.failedPayments + r.pendingPayments <= r.totalPayments
    ensures rows == [] ==> r == NoStats
  {
    if rows == [] then NoStats else AddStats(StatsOf(rows[0]), Statistics(rows[1..]))
  }

  /** The entries with a given status, in order. */
  function WithStatus(rows: seq<P.Payment>, status: string): (r: seq<P.Payment>)
    ensures forall x :: x in r <==> x in rows && x.paymentStatus == status
  {
    if rows == [] then []
    else if rows[0].paymentStatus == status then [rows[0]] + WithStatus(rows[1..], status)
    else WithStatus(rows[1..], status)
  }

  function SumTotals(rows: seq<P.Payment>): int
  {
    if rows == [] then 0 else rows[0].pricing.total + SumTotals(rows[1..])
  }

  /** The counts are the sizes of the per-status subsets, `totalAmount` sums every entry's
      total and `successfulAmount` sums the totals of the succeeded entries only. */
  lemma {:induction false} StatisticsMeaning(rows: seq<P.Payment>)
    ensures var s := Statistics(rows);
            && s.successfulPayments == |WithStatus(rows, "succeeded")|
            && s.failedPayments == |WithStatus(rows, "failed")|
            && s.pendingPayments == |WithStatus(rows, "pending")|
            && s.totalAmount == SumTotals(rows)
            && s.successfulAmount == SumTotals(WithStatus(rows, "succeeded"))
  {
    if rows != [] {
      StatisticsMeaning(rows[1..]);
    }
  }

  /** The fold does not depend on how the rows are split, so the statistics do not depend on
      the order in which the store visits them. */
  lemma {:induction false} StatisticsOfConcat(a: seq<P.Payment>, b: seq<P.Payment>)
    ensures Statistics(a + b) == AddStats(Statistics(a), Statistics(b))
    decreases |a|
  {
    if a == [] {
      assert a + b == b;
    } else {
      assert (a + b)[0] == a[0];
      assert (a + b)[1..] == a[1..] + b;
      StatisticsOfConcat(a[1..], b);
    }
  }

  /** A window of consecutive rows of a newest-first list is newest first and holds only
      rows of the list. */
  lemma WindowNewestFirst(sorted: seq<P.Payment>, rows: seq<P.Payment>, skip: nat)
    requires NewestFirst(sorted)
    requires forall k :: 0 <= k < |rows| ==> skip + k < |sorted| && rows[k] == sorted[skip + k]
    ensures NewestFirst(rows) && forall x :: x in rows ==> x in sorted
  {
    forall x | x in rows ensures x in sorted {
      var k :| 0 <= k < |rows| && rows[k] == x;
      assert sorted[skip + k] == x;
    }
    forall i, j | 0 <= i < j < |rows| ensures rows[i].createdAt >= rows[j].createdAt {
      var ri, rj := rows[i], rows[j];
      assert ri == sorted[skip + i] && rj == sorted[skip + j];
    }
  }

  /** A page of a newest-first list is itself newest first and holds only rows of the list. */
  lemma PageOfNewestFirst(sorted: seq<P.Payment>, page: int, limit: int)
    requires NewestFirst(sorted) && PageOf(sorted, page, limit).Some?
    ensures var rows := PageOf(sorted, page, limit).value;
            NewestFirst(rows) && forall x :: x in rows ==> x in sorted
  {
    var rows := PageOf(sorted, page, limit).value;
    var skip: nat := (page - 1) * limit;
    assert forall k :: 0 <= k < |rows| ==> skip + k < |sorted| && rows[k] == sorted[skip + k];
    WindowNewestFirst(sorted, rows, skip);
  }

  /** Sorting the selection keeps it a selection: every row is a ledger entry that matches. */
  lemma SortedRowsMatch(docs: seq<P.Payment>, f: Filter)
    ensures forall x :: x in SortByCreatedDesc(Select(docs, f)) ==> x in docs && Matches(f, x)
  {
    var matching := Select(docs, f);
    var sorted := SortByCreatedDesc(matching);
    forall x | x in sorted ensures x in matching {
      assert x in multiset(sorted);
    }
  }

  datatype ListResponse =
    | Listed(payments: seq<P.Payment>, current: int, pageCount: Option<int>, totalRecords: nat,
             limit: int, statistics: Stats)   // 200
    | ListFailed(error: string)               // 500

  /** `GET /api/payments`. */
  method ListPayments(payments: P.PaymentCollection, q: ListQuery) returns (resp: ListResponse)
    ensures var page := if q.page.Some? then q.page.value else 1;
            var limit := if q.limit.Some? then q.limit.value else 50;
            && (resp.ListFailed? <==> (page - 1) * limit < 0)
            && (resp.ListFailed? ==> resp.error == "Error fetching payments")
            && (resp.Listed? ==>
                  && resp.current == page && resp.limit == limit
                  && resp.totalRecords == |Select(payments.docs, FilterOf(q))|
                  && resp.pageCount == PageCount(resp.totalRecords, limit)
                  && resp.statistics == Statistics(Select(payments.docs, FilterOf(q)))
                  && resp.payments == PageOf(SortByCreatedDesc(Select(payments.docs, FilterOf(q))), page, limit).value
                  && NewestFirst(resp.payments)
                  && (limit != 0 ==> |resp.payments| <= Abs(limit))
                  && (forall x :: x in resp.payments ==> x in payments.docs && Matches(FilterOf(q), x)))
  {
    var f := BuildFilter(q);
    var page := if q.page.Some? then q.page.value else 1;
    var limit := if q.limit.Some? then q.limit.value else 50;
    var matching := Select(payments.docs, f);
    var sorted := SortByCreatedDesc(matching);
    var rows := PageOf(sorted, page, limit);
    if rows.None? {
      return ListFailed("Error fetching payments");
    }
    var pageRows := rows.value;
    PageOfNewestFirst(sorted, page, limit);
    SortedRowsMatch(payments.docs, f);
    resp := Listed(pageRows, page, PageCount(|matching|, limit), |matching|, limit, Statistics(matching));
  }

  // ---------------------------------------------------------------------------------------
  // Refund

  /** The refund body: `amount` as the cents it asks for (None when absent) and `reason`. */
  datatype RefundRequest = RefundRequest(amount: Option<int>, reason: Option<string>)

  /** The arguments of `stripe.refunds.create`: the amount only when one was requested. */
  datatype RefundCall = RefundCall(paymentIntent: Option<string>, amount: Option<int>, reason: string)

  /** What `stripe.refunds.create` returned. */
  datatype StripeRefund = StripeRefund(id: string, amount: int, status: string)

  datatype RefundResponse =
    | Refunded(refundId: string, amount: int, status: string, payment: P.Payment)   // 200
    | RefundNotFound(error: string)                                                 // 404
    | RefundRefused(error: string)                                                  // 400
    | RefundFailed(error: string)                                                   // 500

  /** JavaScript truthiness of the requested amount: absent and 0 are falsy. */
  predicate AmountGiven(req: RefundRequest)
  {
    req.amount.Some? && req.amount.value != 0
  }

  /** The call the route makes: a partial refund of the requested cents, or a full refund. */
  function RefundCallFor(p: P.Payment, req: RefundRequest): (c: RefundCall)
    ensures c.paymentIntent == p.paymentIntentId
    ensures c.amount.Some? <==> AmountGiven(req)
    ensures c.amount.Some? ==> c.amount == req.amount
    ensures c.reason == (if Truthy(req.reason) then req.reason.value else "requested_by_customer")
  {
    RefundCall(p.paymentIntentId, if AmountGiven(req) then req.amount else None,
               OrElse(req.reason, "requested_by_customer"))
  }

  /** The entry the route saves after Stripe refunded: refunded, with Stripe's refunded
      amount, "partially_refunded" when an amount was requested and "refunded" otherwise. */
  function RefundedRecord(p: P.Payment, req: RefundRequest, refund: StripeRefund, now: Time): (r: P.Payment)
    ensures r.refunded && r.refundAmount == refund.amount && r.updatedAt == now
    ensures r.paymentStatus == (if AmountGiven(req) then "partially_refunded" else "refunded")
    ensures r == p.(refunded := r.refunded, refundAmount := r.refundAmount,
                    paymentStatus := r.paymentStatus, updatedAt := r.updatedAt)
  {
    p.(refunded := true, refundAmount := refund.amount,
       paymentStatus := if AmountGiven(req) then "partially_refunded" else "refunded",
       updatedAt := now)
  }

  /** Saving a stored entry again under its own id is refused only by validation. */
  lemma {:induction false} ResaveOnlyValidated(docs: seq<P.Payment>, i: nat, q: P.Payment, now: Time,
                                               statuses: seq<string>)
    requires P.UniqueIds(docs) && P.UniqueSessions(docs)
    requires i < |docs| && q.id == docs[i].id && q.stripeSessionId == docs[i].stripeSessionId
    ensures P.SaveOutcome(docs, q, now, statuses).Some? <==> P.ValidPayment(q, statuses)
  {
  }

  /** `PATCH /api/payments/:id/refund`. `stripe` is what `refunds.create` returned (None: it
      threw); `call` is what the route asked Stripe for, None when it did not call. */
  method Refund(payments: P.PaymentCollection, id: ObjectId, req: RefundRequest,
                stripe: Option<StripeRefund>, now: Time)
    returns (resp: RefundResponse, call: Option<RefundCall>)
    requires payments.Valid()
    modifies payments
    ensures payments.Valid()
    ensures P.IndexOfId(old(payments.docs), id).None? ==>
              resp == RefundNotFound("Payment not found") && call == None && payments.docs == old(payments.docs)
    ensures P.IndexOfId(old(payments.docs), id).Some? ==>
              var i := P.IndexOfId(old(payments.docs), id).value;
              var p := old(payments.docs)[i];
              && (p.paymentStatus != "succeeded" ==>
                    resp == RefundRefused("Can only refund successful payments") && call == None
                    && payments.docs == old(payments.docs))
              && (p.paymentStatus == "succeeded" ==> call == Some(RefundCallFor(p, req)))
              && (p.paymentStatus == "succeeded" && stripe.None? ==>
                    resp == RefundFailed("Error processing refund") && payments.docs == old(payments.docs))
              && (p.paymentStatus == "succeeded" && stripe.Some? ==>
                    var q := RefundedRecord(p, req, stripe.value, now);
                    && (P.ValidPayment(q, payments.statuses) ==>
                          resp == Refunded(stripe.value.id, stripe.value.amount, stripe.value.status, q)
                          && payments.docs == old(payments.docs)[i := q])
                    && (!P.ValidPayment(q, payments.statuses) ==>
                          resp == RefundFailed("Error processing refund") && payments.docs == old(payments.docs)))
  {
    call := None;
    var found := P.IndexOfId(payments.docs, id);
    if found.None? {
      return RefundNotFound("Payment not found"), call;
    }
    var i := found.value;
    var p := payments.docs[i];
    if p.paymentStatus != "succeeded" {
      return RefundRefused("Can only refund successful payments"), call;
    }
    call := Some(RefundCallFor(p, req));
    if stripe.None? {
      return RefundFailed("Error processing refund"), call;
    }
    var refund := stripe.value;
    var q := RefundedRecord(p, req, refund, now);
    ResaveOnlyValidated(payments.docs, i, q, now, payments.statuses);
    assert P.IndexOfId(payments.docs, q.id) == Some(i);
    var saved := payments.Save(q, now);
    if saved.None? {
      return RefundFailed("Error processing refund"), call;
    }
    resp := Refunded(refund.id, refund.amount, refund.status, q);
  }

  /** As declared, the schema's enum refuses every status the refund writes, so the save
      after a successful Stripe refund always fails: the customer is refunded, the route
      answers 500 and the ledger keeps saying "succeeded". */
  lemma RefundNeverRecorded(docs: seq<P.Payment>, p: P.Payment, req: RefundRequest,
                            refund: StripeRefund, now: Time)
    requires P.UniqueIds(docs)
    ensures P.SaveOutcome(docs, RefundedRecord(p, req, refund, now), now, P.PaymentStatuses).None?
  {
  }

  /** The enum with the two refund statuses the route writes. */
  const RefundAwareStatuses: seq<string> := P.PaymentStatuses + ["refunded", "partially_refunded"]

  /** With the refund statuses in the enum, refunding a stored, valid, succeeded entry is
      recorded: the entry is replaced in place by the refunded one and nothing else changes. */
  lemma {:induction false} RefundRecordedWithRefundAwareEnum(docs: seq<P.Payment>, i: nat, req: RefundRequest,
                                                             refund: StripeRefund, now: Time)
    requires P.UniqueIds(docs) && P.UniqueSessions(docs)
    requires i < |docs| && P.ValidPayment(docs[i], P.PaymentStatuses)
    ensures var q := RefundedRecord(docs[i], req, refund, now);
            && P.SaveOutcome(docs, q, now, RefundAwareStatuses) == Some(docs[i := q])
            && q.refunded && q.paymentStatus in RefundAwareStatuses
  {
    var q := RefundedRecord(docs[i], req, refund, now);
    ResaveOnlyValidated(docs, i, q, now, RefundAwareStatuses);
    assert P.IndexOfId(docs, q.id) == Some(i);
    assert q.(updatedAt := now) == q;
  }

  // ---------------------------------------------------------------------------------------
  // Delete

  datatype DeleteResponse = PaymentDeleted | PaymentNotFound(error: string)   // 200 / 404

  /** `DELETE /api/payments/:id`: exactly the entry with that id disappears. */
  method DeletePayment(payments: P.PaymentCollection, id: ObjectId) returns (resp: DeleteResponse)
    requires payments.Valid()
    modifies payments
    ensures payments.Valid()
    ensures resp.PaymentNotFound? <==> forall d :: d in old(payments.docs) ==> d.id != id
    ensures resp.PaymentNotFound? ==> resp.error == "Payment not found" && payments.docs == old(payments.docs)
    ensures forall d :: d in payments.docs <==> d in old(payments.docs) && d.id != id
    ensures |payments.docs| == |old(payments.docs)| - (if resp == PaymentDeleted then 1 else 0)
  {
    var deleted := payments.FindByIdAndDelete(id);
    if deleted.None? {
      resp := PaymentNotFound("Payment not found");
    } else {
      resp := PaymentDeleted;
    }
  }
}
