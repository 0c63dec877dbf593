/** `PaymentService`: the guard before a gateway payment order is created,
    and the verification callback that finalises an order.

    The gateway is outside the model: the random UUID behind the gateway
    order id is a parameter, and signature verification is a function
    parameter (the source's own helper is a stub that accepts every
    signature). */
module Payments {
  import opened Common
  import opened Orders

  /** A `BigDecimal`: unscaled value and scale.  `equals` compares both, so
      25.5 (255, scale 1) and 25.50 (2550, scale 2) differ. */
  datatype Decimal = Decimal(unscaled: int, scale: nat)

  /** Amounts are stored with scale 2, i.e. in minor units. */
  const StoredScale: nat := 2

  const GatewayOrderPrefix: String := "pg_order_"
  const DefaultCurrency: String := "INR"
  const SuccessStatus: String := "SUCCESS"

  datatype PaymentOrderRequest = PaymentOrderRequest(orderId: OrderId, amount: Option<Decimal>, currency: String)

  datatype PaymentVerification = PaymentVerification(
    orderId: OrderId,
    paymentGatewayOrderId: String,
    paymentGatewayPaymentId: String,
    paymentSignature: String)

  /** A payment record (its generated id and timestamp are left out). */
  datatype Transaction = Transaction(
    orderId: OrderId,
    paymentGatewayOrderId: String,
    paymentGatewayPaymentId: String,
    amountPaid: int,
    currency: String,
    status: String,
    signature: String)

  /** The RuntimeExceptions the service throws. */
  datatype PaymentError =
    | PaymentOrderNotFound     // "Order not found."
    | NotAvailableForPayment   // "Order is not available for payment or amount mismatch."
    | VerificationFailed       // "Payment verification failed! ..."

  /** An order may be paid for only while it awaits payment, and only for
      exactly its stored total, scale included (a missing amount never
      matches). */
  predicate Payable(order: Order, amount: Option<Decimal>) {
    order.status == PendingPayment && amount == Some(Decimal(order.totalAmount, StoredScale))
  }

  /** The status `createOrder` gives a new order is PENDING, not
      PENDING_PAYMENT, so no freshly created order passes the guard until its
      status is changed. */
  lemma NewOrderNotPayable(id: OrderId, userId: UserId, lines: seq<CartStore.CartLine>,
                           prices: map<ProductId, int>, address: String, amount: Option<Decimal>)
    requires CartStore.Priced(lines, prices)
    ensures !Payable(NewOrder(id, userId, lines, prices, address), amount)
  {
  }

  /** The comparison is scale-sensitive: the same value written with one
      decimal place is refused. */
  lemma PayableIsScaleSensitive(order: Order)
    requires order.status == PendingPayment && order.totalAmount == 2550
    ensures Payable(order, Some(Decimal(2550, 2)))
    ensures !Payable(order, Some(Decimal(255, 1)))
  {
  }

  /** The record written for a successful verification of `order`, found
      under `req.orderId`. */
  function SuccessRecord(order: Order, req: PaymentVerification): (t: Transaction)
    ensures t.orderId == req.orderId && t.amountPaid == order.totalAmount
    ensures t.status == SuccessStatus && t.currency == DefaultCurrency
    ensures t.paymentGatewayOrderId == req.paymentGatewayOrderId
    ensures t.paymentGatewayPaymentId == req.paymentGatewayPaymentId
    ensures t.signature == req.paymentSignature
  {
    Transaction(req.orderId, req.paymentGatewayOrderId, req.paymentGatewayPaymentId,
                order.totalAmount, DefaultCurrency, SuccessStatus, req.paymentSignature)
  }

  /** The two repositories `verifyPaymentAndFinalizeOrder` writes. */
  datatype Ledger = Ledger(orders: map<OrderId, Order>, transactions: seq<Transaction>)

  /** verifyPaymentAndFinalizeOrder as evidently intended: an unknown order
      fails and changes nothing; a rejected signature stores the order with
      the failure status and records no transaction; an accepted one records
      one SUCCESS transaction and stores the order as PLACED.  The order's
      current status is not checked. */
  function Finalize(l: Ledger, req: PaymentVerification, valid: bool): (Result<Order, PaymentError>, Ledger) {
    if req.orderId !in l.orders then (Failure(PaymentOrderNotFound), l)
    else
      var order := l.orders[req.orderId];
      if !valid then
        (Failure(VerificationFailed), l.(orders := l.orders[req.orderId := order.(status := PendeliveryFailed)]))
      else
        var placed := order.(status := Placed);
        (Success(placed), Ledger(l.orders[req.orderId := placed], l.transactions + [SuccessRecord(order, req)]))
  }

  /** verifyPaymentAndFinalizeOrder as it commits: the method is
      @Transactional and the rejected-signature branch throws a
      RuntimeException after saving the failure status, so that save is
      rolled back with the rest of the transaction. */
  function FinalizeAsCommitted(l: Ledger, req: PaymentVerification, valid: bool): (Result<Order, PaymentError>, Ledger) {
    if req.orderId in l.orders && !valid then (Failure(VerificationFailed), l)
    else Finalize(l, req, valid)
  }

  /** Every failure leaves the transactions as they were; only a rejected
      signature on a known order changes the order store, and then only that
      order's status. */
  lemma FinalizeFailure(l: Ledger, req: PaymentVerification, valid: bool)
    ensures var (r, l') := Finalize(l, req, valid);
            && (r.Failure? <==> req.orderId !in l.orders || !valid)
            && (r.Failure? ==> l'.transactions == l.transactions)
            && (req.orderId !in l.orders ==> r == Failure(PaymentOrderNotFound) && l' == l)
            && (req.orderId in l.orders && !valid ==>
                  && r == Failure(VerificationFailed)
                  && l'.orders.Keys == l.orders.Keys
                  && l'.orders[req.orderId] == l.orders[req.orderId].(status := PendeliveryFailed)
                  && (forall id :: id in l.orders && id != req.orderId ==> l'.orders[id] == l.orders[id]))
  {
  }

  /** An accepted payment records exactly one SUCCESS transaction, for the
      order's stored total, and places that order; other orders are
      untouched and the placed order keeps its lines and total. */
  lemma FinalizeSuccess(l: Ledger, req: PaymentVerification)
    requires req.orderId in l.orders
    ensures Finalize(l, req, true).0 == Success(l.orders[req.orderId].(status := Placed))
    ensures Finalize(l, req, true).1.orders == l.orders[req.orderId := Finalize(l, req, true).0.value]
    ensures var ts := Finalize(l, req, true).1.transactions;
            && |ts| == |l.transactions| + 1
            && ts[..|l.transactions|] == l.transactions
            && ts[|l.transactions|].orderId == req.orderId
            && ts[|l.transactions|].amountPaid == l.orders[req.orderId].totalAmount
            && ts[|l.transactions|].status == SuccessStatus
  {
    var l' := Finalize(l, req, true).1;
    assert l'.transactions == l.transactions + [SuccessRecord(l.orders[req.orderId], req)];
    assert l'.transactions[..|l.transactions|] == l.transactions;
  }

  /** Finalising never changes which orders exist or any order's total, so
      a store in which every total is the sum of its lines stays so. */
  lemma FinalizeKeepsTotals(l: Ledger, req: PaymentVerification, valid: bool)
    requires forall id :: id in l.orders ==> l.orders[id].totalAmount == OrderTotal(l.orders[id].items)
    ensures var l' := Finalize(l, req, valid).1;
            && l'.orders.Keys == l.orders.Keys
            && forall id :: id in l'.orders ==> l'.orders[id].totalAmount == OrderTotal(l'.orders[id].items)
  {
  }

  /** Nothing stops a replay: verifying the same accepted payment twice
      records two SUCCESS transactions for one order. */
  lemma {:induction false} FinalizeReplayRecordsTwice(l: Ledger, req: PaymentVerification)
    requires req.orderId in l.orders
    ensures var l2 := Finalize(Finalize(l, req, true).1, req, true).1;
            && Finalize(Finalize(l, req, true).1, req, true).0.Success?
            && |l2.transactions| == |l.transactions| + 2
            && l2.transactions[|l.transactions|].orderId == req.orderId
            && l2.transactions[|l.transactions| + 1].orderId == req.orderId
  {
    FinalizeSuccess(l, req);
    var l1 := Finalize(l, req, true).1;
    FinalizeSuccess(l1, req);
    var l2 := Finalize(l1, req, true).1;
    assert l2.transactions[..|l1.transactions|] == l1.transactions;
    assert l2.transactions[|l.transactions|] == l1.transactions[|l.transactions|];
  }

  /** As committed, a rejected signature leaves the order's status as it was,
      where the intended behaviour stores the failure status: a
      PENDING_PAYMENT order stays PENDING_PAYMENT. */
  lemma RolledBackFailureStatus(l: Ledger, req: PaymentVerification)
    requires req.orderId in l.orders && l.orders[req.orderId].status == PendingPayment
    ensures FinalizeAsCommitted(l, req, false).1.orders[req.orderId].status == PendingPayment
    ensures Finalize(l, req, false).1.orders[req.orderId].status == PendeliveryFailed
    ensures FinalizeAsCommitted(l, req, false).1 != Finalize(l, req, false).1
  {
  }

  /** The rollback affects only that branch: elsewhere the committed result
      is the intended one. */
  lemma AsCommittedAgreesElsewhere(l: Ledger, req: PaymentVerification, valid: bool)
    requires valid || req.orderId !in l.orders
    ensures FinalizeAsCommitted(l, req, valid) == Finalize(l, req, valid)
  {
  }

  class PaymentService {
    var orders: map<OrderId, Order>
    var transactions: seq<Transaction>

    constructor (orders: map<OrderId, Order>)
      ensures this.orders == orders && transactions == []
    {
      this.orders := orders;
      transactions := [];
    }

    /** createPaymentOrder: an unknown order fails; an order that is not
        PENDING_PAYMENT or whose total differs from the requested amount
        fails; otherwise the gateway order id "pg_order_" + the first eight
        characters of the UUID is returned.  Nothing is changed. */
    method CreatePaymentOrder(req: PaymentOrderRequest, uuid: String) returns (r: Result<String, PaymentError>)
      requires |uuid| >= 8
      ensures req.orderId !in orders ==> r == Failure(PaymentOrderNotFound)
      ensures req.orderId in orders && !Payable(orders[req.orderId], req.amount) ==> r == Failure(NotAvailableForPayment)
      ensures r.Success? <==> req.orderId in orders && Payable(orders[req.orderId], req.amount)
      ensures r.Success? ==> r.value == GatewayOrderPrefix + uuid[..8] && |r.value| == 17
    {
      if req.orderId !in orders {
        return Failure(PaymentOrderNotFound);
      }
      var order := orders[req.orderId];
      if !Payable(order, req.amount) {
        return Failure(NotAvailableForPayment);
      }
      return Success(GatewayOrderPrefix + uuid[..8]);
    }

    /** verifyPaymentAndFinalizeOrder with the failure status kept (the
        intended behaviour, `Finalize`). */
    method VerifyPaymentAndFinalizeOrder(req: PaymentVerification, verify: (String, String, String) -> bool)
      returns (r: Result<Order, PaymentError>)
      modifies this`orders, this`transactions
      ensures (r, Ledger(orders, transactions)) ==
              Finalize(Ledger(old(orders), old(transactions)), req,
                       verify(req.paymentGatewayOrderId, req.paymentGatewayPaymentId, req.paymentSignature))
    {
      if req.orderId !in orders {
        return Failure(PaymentOrderNotFound);
      }
      var order := orders[req.orderId];
      var isPaymentValid := verify(req.paymentGatewayOrderId, req.paymentGatewayPaymentId, req.paymentSignature);
      if !isPaymentValid {
        orders := orders[req.orderId := order.(status := PendeliveryFailed)];
        return Failure(VerificationFailed);
      }
      transactions := transactions + [SuccessRecord(order, req)];
      var placed := order.(status := Placed);
      orders := orders[req.orderId := placed];
      return Success(placed);
    }

    /** verifyPaymentAndFinalizeOrder as it commits (`FinalizeAsCommitted`):
        the failure-status write is undone by the rollback. */
    method VerifyPaymentAsCommitted(req: PaymentVerification, verify: (String, String, String) -> bool)
      returns (r: Result<Order, PaymentError>)
      modifies this`orders, this`transactions
      ensures (r, Ledger(orders, transactions)) ==
              FinalizeAsCommitted(Ledger(old(orders), old(transactions)), req,
                                  verify(req.paymentGatewayOrderId, req.paymentGatewayPaymentId, req.paymentSignature))
    {
      if req.orderId !in orders {
        return Failure(PaymentOrderNotFound);
      }
      var order := orders[req.orderId];
      var isPaymentValid := verify(req.paymentGatewayOrderId, req.paymentGatewayPaymentId, req.paymentSignature);
      if !isPaymentValid {
        var committed := orders;
        orders := orders[req.orderId := order.(status := PendeliveryFailed)];
        orders := committed;  // the exception rolls the status write back
        return Failure(VerificationFailed);
      }
      transactions := transactions + [SuccessRecord(order, req)];
      var placed := order.(status := Placed);
      orders := orders[req.orderId := placed];
      return Success(placed);
    }
  }
}
