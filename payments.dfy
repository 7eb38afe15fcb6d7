/** PaymentService: opens a PENDING payment for a CREATED order and settles payments from the two
    webhook flavours, moving the order to PAID or FAILED. */
module Payments {
  import opened Model
  import opened Text
  import Orders

  /** The payment field a repository finder matches on. */
  datatype Field = OrderIdField | PaymentIdField

  function KeyOf(p: Payment, field: Field): Option<string> {
    match field
    case OrderIdField => Some(p.orderId)
    case PaymentIdField => p.paymentId
  }

  /** What an `Optional` finder sees: no document, exactly one (at this position), or several. */
  datatype Match = NoMatch | Unique(index: nat) | Ambiguous

  predicate Hit(ps: seq<Payment>, field: Field, key: Option<string>, i: int) {
    0 <= i < |ps| && KeyOf(ps[i], field) == key
  }

  /** `findByOrderId` / `findByPaymentId`. A null key matches the documents whose field is null. */
  function Find(ps: seq<Payment>, field: Field, key: Option<string>): (r: Match)
    ensures r.Unique? ==> Hit(ps, field, key, r.index)
    decreases |ps|
  {
    if ps == [] then NoMatch
    else
      match Find(ps[1..], field, key)
      case NoMatch => if KeyOf(ps[0], field) == key then Unique(0) else NoMatch
      case Unique(k) => if KeyOf(ps[0], field) == key then Ambiguous else Unique(k + 1)
      case Ambiguous => Ambiguous
  }

  /** The finder reports no match, the one matching position, or several matches, exactly as the
      stored payments have them. */
  lemma {:induction false} FindSpec(ps: seq<Payment>, field: Field, key: Option<string>)
    ensures Find(ps, field, key).NoMatch? <==> forall i :: !Hit(ps, field, key, i)
    ensures Find(ps, field, key).Unique? ==>
              var k := Find(ps, field, key).index;
              Hit(ps, field, key, k) && forall i :: i != k ==> !Hit(ps, field, key, i)
    ensures Find(ps, field, key).Ambiguous? <==> exists i, j :: i < j && Hit(ps, field, key, i) && Hit(ps, field, key, j)
    decreases |ps|
  {
    if ps != [] {
      var tail := ps[1..];
      FindSpec(tail, field, key);
      assert forall i :: 0 <= i ==> (Hit(ps, field, key, i + 1) <==> Hit(tail, field, key, i));
      match Find(tail, field, key)
      case NoMatch =>
        forall i | 0 < i
          ensures !Hit(ps, field, key, i)
        {
          assert !Hit(tail, field, key, i - 1);
        }
        if Find(ps, field, key).Ambiguous? {
          assert false;
        }
      case Unique(k) =>
        assert Hit(ps, field, key, k + 1);
        forall i | 0 < i && i != k + 1
          ensures !Hit(ps, field, key, i)
        {
          assert !Hit(tail, field, key, i - 1);
        }
        if KeyOf(ps[0], field) == key {
          assert Hit(ps, field, key, 0);
        } else {
          forall i, j | i < j && Hit(ps, field, key, i)
            ensures !Hit(ps, field, key, j)
          {
            assert i == k + 1;
          }
        }
      case Ambiguous =>
        var i, j :| i < j && Hit(tail, field, key, i) && Hit(tail, field, key, j);
        assert Hit(ps, field, key, i + 1) && Hit(ps, field, key, j + 1);
    }
  }

  /** Finders only look at the matched field: payments that agree on it are found alike. */
  lemma {:induction false} FindSameKeys(ps: seq<Payment>, qs: seq<Payment>, field: Field, key: Option<string>)
    requires |ps| == |qs|
    requires forall i :: 0 <= i < |ps| ==> KeyOf(ps[i], field) == KeyOf(qs[i], field)
    ensures Find(ps, field, key) == Find(qs, field, key)
    decreases |ps|
  {
    if ps != [] {
      FindSameKeys(ps[1..], qs[1..], field, key);
    }
  }

  /** The payment records and the orders a settlement writes together, in one transaction. */
  datatype Ledger = Ledger(payments: seq<Payment>, orders: map<string, Order>)

  /** The order status a settled payment status implies: SUCCESS pays the order, FAILED fails it, and
      PENDING leaves it alone. */
  function OrderStatusFor(s: PaymentStatus): Option<OrderStatus> {
    match s
    case Success => Some(Paid)
    case Failed => Some(OrderStatus.Failed)
    case Pending => None
  }

  /** The common tail of both settlements: payment `k` gets the status and external id and is saved,
      then the order `orderKey` follows the status. */
  function Settle(l: Ledger, k: nat, status: PaymentStatus, reference: Option<string>, orderKey: string): Result<Ledger>
    requires k < |l.payments|
  {
    var ps := l.payments[k := l.payments[k].(status := status, paymentId := reference)];
    match OrderStatusFor(status)
    case None => Ok(Ledger(ps, l.orders))
    case Some(os) =>
      match Orders.SetOrderStatus(l.orders, orderKey, os)
      case Err(e) => Err(e)
      case Ok(orders) => Ok(Ledger(ps, orders))
  }

  /** `handlePaymentWebhook`: the mock gateway's callback, keyed by our order id, with a case-insensitive
      status. */
  function SettleByOrder(l: Ledger, orderId: Option<string>, paymentId: Option<string>, status: Option<string>): Result<Ledger> {
    match Find(l.payments, OrderIdField, orderId)
    case NoMatch => Err(PaymentNotFoundForOrder(orderId))
    case Ambiguous => Err(NonUniqueResult)
    case Unique(k) =>
      if status.None? then Err(NullPointer)
      else
        match PaymentStatusValueOf(ToUpper(status.value))
        case None => Err(NoEnumConstant(ToUpper(status.value)))
        case Some(s) => Settle(l, k, s, paymentId, orderId.value)
  }

  /** `handleRazorpayWebhook`: keyed by the Razorpay order id stored as the payment's external id, with an
      exact-case status; the order is the payment's own. */
  function SettleByReference(l: Ledger, razorpayOrderId: Option<string>, razorpayPaymentId: Option<string>,
                             status: Option<string>): Result<Ledger>
  {
    match Find(l.payments, PaymentIdField, razorpayOrderId)
    case NoMatch => Err(PaymentNotFoundForRazorpayOrder(razorpayOrderId))
    case Ambiguous => Err(NonUniqueResult)
    case Unique(k) =>
      if status.None? then Err(NullPointer)
      else
        match PaymentStatusValueOf(status.value)
        case None => Err(NoEnumConstant(status.value))
        case Some(s) =>
          var reference := if razorpayPaymentId.Some? then razorpayPaymentId else razorpayOrderId;
          Settle(l, k, s, reference, l.payments[k].orderId)
  }

  /** What a settlement of payment `k` with `status` and `reference` leaves in the ledger: only that payment
      changes, in its status and external id, and the order follows the status mapping. */
  ghost predicate SettledAs(l: Ledger, l': Ledger, k: nat, status: PaymentStatus, reference: Option<string>, orderKey: string) {
    && k < |l.payments|
    && |l'.payments| == |l.payments|
    && l'.payments[k] == l.payments[k].(status := status, paymentId := reference)
    && (forall i :: 0 <= i < |l.payments| && i != k ==> l'.payments[i] == l.payments[i])
    && match OrderStatusFor(status)
       case None => l'.orders == l.orders
       case Some(os) =>
         && orderKey in l.orders
         && l'.orders.Keys == l.orders.Keys
         && l'.orders[orderKey] == l.orders[orderKey].(status := os)
         && forall id :: id in l.orders && id != orderKey ==> l'.orders[id] == l.orders[id]
  }

  lemma SettleSpec(l: Ledger, k: nat, status: PaymentStatus, reference: Option<string>, orderKey: string)
    requires k < |l.payments|
    ensures Settle(l, k, status, reference, orderKey).Ok? ==> SettledAs(l, Settle(l, k, status, reference, orderKey).value, k, status, reference, orderKey)
    ensures Settle(l, k, status, reference, orderKey).Err? <==> OrderStatusFor(status).Some? && orderKey !in l.orders
    ensures Settle(l, k, status, reference, orderKey).Err? ==> Settle(l, k, status, reference, orderKey).error == OrderNotFound(orderKey)
  {
  }

  /** The mock settlement succeeds exactly when one payment has the order id, the status names a constant
      in any letter case, and (for SUCCESS or FAILED) the order exists; it then settles that payment with
      the given external id and moves our order. */
  lemma SettleByOrderSpec(l: Ledger, orderId: Option<string>, paymentId: Option<string>, status: Option<string>)
    ensures SettleByOrder(l, orderId, paymentId, status).Ok? <==>
              && Find(l.payments, OrderIdField, orderId).Unique?
              && status.Some? && PaymentStatusValueOf(ToUpper(status.value)).Some?
              && (OrderStatusFor(PaymentStatusValueOf(ToUpper(status.value)).value).Some? ==> orderId.Some? && orderId.value in l.orders)
    ensures SettleByOrder(l, orderId, paymentId, status).Ok? ==>
              var k := Find(l.payments, OrderIdField, orderId).index;
              && orderId == Some(l.payments[k].orderId)
              && SettledAs(l, SettleByOrder(l, orderId, paymentId, status).value, k,
                           PaymentStatusValueOf(ToUpper(status.value)).value, paymentId, orderId.value)
  {
    FindSpec(l.payments, OrderIdField, orderId);
    match Find(l.payments, OrderIdField, orderId)
    case Unique(k) =>
      if status.Some? && PaymentStatusValueOf(ToUpper(status.value)).Some? {
        SettleSpec(l, k, PaymentStatusValueOf(ToUpper(status.value)).value, paymentId, orderId.value);
      }
    case NoMatch =>
    case Ambiguous =>
  }

  /** An unknown status name, in any letter case, fails the mock settlement. */
  lemma UnparseableStatusFails(l: Ledger, orderId: Option<string>, paymentId: Option<string>, status: string)
    requires forall s: PaymentStatus :: ToUpper(status) != PaymentStatusName(s)
    ensures SettleByOrder(l, orderId, paymentId, Some(status)).Err?
  {
  }

  /** Replaying a mock webhook leaves the ledger as one delivery did. */
  lemma SettleByOrderIdempotent(l: Ledger, orderId: Option<string>, paymentId: Option<string>, status: Option<string>)
    requires SettleByOrder(l, orderId, paymentId, status).Ok?
    ensures SettleByOrder(SettleByOrder(l, orderId, paymentId, status).value, orderId, paymentId, status)
         == SettleByOrder(l, orderId, paymentId, status)
  {
    var l' := SettleByOrder(l, orderId, paymentId, status).value;
    SettleByOrderSpec(l, orderId, paymentId, status);
    var k := Find(l.payments, OrderIdField, orderId).index;
    var s := PaymentStatusValueOf(ToUpper(status.value)).value;
    FindSameKeys(l.payments, l'.payments, OrderIdField, orderId);
    assert l'.payments[k := l'.payments[k].(status := s, paymentId := paymentId)] == l'.payments;
    match OrderStatusFor(s)
    case None =>
    case Some(os) =>
      Orders.SetOrderStatusIdempotent(l.orders, orderId.value, os);
  }

  /** The Razorpay settlement succeeds exactly when one payment carries the Razorpay order id, the status is
      an exact constant name, and (for SUCCESS or FAILED) the payment's order exists; the stored external id
      becomes the Razorpay payment id, or the order id when none is given. */
  lemma SettleByReferenceSpec(l: Ledger, razorpayOrderId: Option<string>, razorpayPaymentId: Option<string>, status: Option<string>)
    ensures SettleByReference(l, razorpayOrderId, razorpayPaymentId, status).Ok? <==>
              && Find(l.payments, PaymentIdField, razorpayOrderId).Unique?
              && status.Some? && PaymentStatusValueOf(status.value).Some?
              && (OrderStatusFor(PaymentStatusValueOf(status.value).value).Some? ==>
                    l.payments[Find(l.payments, PaymentIdField, razorpayOrderId).index].orderId in l.orders)
    ensures SettleByReference(l, razorpayOrderId, razorpayPaymentId, status).Ok? ==>
              var k := Find(l.payments, PaymentIdField, razorpayOrderId).index;
              && l.payments[k].paymentId == razorpayOrderId
              && SettledAs(l, SettleByReference(l, razorpayOrderId, razorpayPaymentId, status).value, k,
                           PaymentStatusValueOf(status.value).value,
                           if razorpayPaymentId.Some? then razorpayPaymentId else razorpayOrderId,
                           l.payments[k].orderId)
  {
    FindSpec(l.payments, PaymentIdField, razorpayOrderId);
    match Find(l.payments, PaymentIdField, razorpayOrderId)
    case Unique(k) =>
      if status.Some? && PaymentStatusValueOf(status.value).Some? {
        SettleSpec(l, k, PaymentStatusValueOf(status.value).value,
                   if razorpayPaymentId.Some? then razorpayPaymentId else razorpayOrderId, l.payments[k].orderId);
      }
    case NoMatch =>
    case Ambiguous =>
  }

  /** The Razorpay settlement overwrites the very key it looked the payment up by: a second delivery that
      carries a different payment id no longer finds the payment. */
  lemma RazorpayRedeliveryNotFound(l: Ledger, razorpayOrderId: string, razorpayPaymentId: string, status: Option<string>,
                                   paymentId2: Option<string>, status2: Option<string>)
    requires razorpayPaymentId != razorpayOrderId
    requires SettleByReference(l, Some(razorpayOrderId), Some(razorpayPaymentId), status).Ok?
    ensures SettleByReference(SettleByReference(l, Some(razorpayOrderId), Some(razorpayPaymentId), status).value,
                              Some(razorpayOrderId), paymentId2, status2)
         == Err(PaymentNotFoundForRazorpayOrder(Some(razorpayOrderId)))
  {
    var l' := SettleByReference(l, Some(razorpayOrderId), Some(razorpayPaymentId), status).value;
    SettleByReferenceSpec(l, Some(razorpayOrderId), Some(razorpayPaymentId), status);
    FindSpec(l.payments, PaymentIdField, Some(razorpayOrderId));
    var k := Find(l.payments, PaymentIdField, Some(razorpayOrderId)).index;
    forall i
      ensures !Hit(l'.payments, PaymentIdField, Some(razorpayOrderId), i)
    {
      if i != k && 0 <= i < |l'.payments| {
        assert !Hit(l.payments, PaymentIdField, Some(razorpayOrderId), i);
      }
    }
    FindSpec(l'.payments, PaymentIdField, Some(razorpayOrderId));
  }

  /** Without a Razorpay payment id the lookup key is written back unchanged, so a replay settles the same
      payment to the same state. */
  lemma RazorpayWithoutPaymentIdIdempotent(l: Ledger, razorpayOrderId: Option<string>, status: Option<string>)
    requires SettleByReference(l, razorpayOrderId, None, status).Ok?
    ensures SettleByReference(SettleByReference(l, razorpayOrderId, None, status).value, razorpayOrderId, None, status)
         == SettleByReference(l, razorpayOrderId, None, status)
  {
    var l' := SettleByReference(l, razorpayOrderId, None, status).value;
    SettleByReferenceSpec(l, razorpayOrderId, None, status);
    var k := Find(l.payments, PaymentIdField, razorpayOrderId).index;
    var s := PaymentStatusValueOf(status.value).value;
    assert forall i :: 0 <= i < |l.payments| ==> KeyOf(l.payments[i], PaymentIdField) == KeyOf(l'.payments[i], PaymentIdField);
    FindSameKeys(l.payments, l'.payments, PaymentIdField, razorpayOrderId);
    assert l'.payments[k := l'.payments[k].(status := s, paymentId := razorpayOrderId)] == l'.payments;
    match OrderStatusFor(s)
    case None =>
    case Some(os) =>
      Orders.SetOrderStatusIdempotent(l.orders, l.payments[k].orderId, os);
  }

  /** The gateway's answer to `createPayment`: it threw, or it returned (perhaps without) an external id. */
  datatype GatewayReply = GatewayError(message: string) | GatewayOk(reference: Option<string>)

  /** The response map of `createPayment`; `razorpayOrderId` is present only in the Razorpay branch. */
  datatype PaymentResponse = PaymentResponse(paymentId: string, razorpayOrderId: Option<string>, orderId: string,
                                             amount: int, status: string)

  /** `createPayment`'s checks, all made before any write: the order exists, is CREATED, and the requested
      amount equals its total (a missing amount never does). */
  function CheckPayable(orders: map<string, Order>, orderId: string, amount: Option<int>): (r: Result<Order>)
    ensures r.Ok? <==> orderId in orders && orders[orderId].status == Created && amount == Some(orders[orderId].totalAmount)
    ensures r.Ok? ==> r.value == orders[orderId]
    ensures orderId !in orders ==> r == Err(OrderNotFound(orderId))
    ensures orderId in orders && orders[orderId].status != Created ==> r == Err(OrderNotCreated(orders[orderId].status))
    ensures orderId in orders && orders[orderId].status == Created && amount != Some(orders[orderId].totalAmount) ==>
              r == Err(AmountMismatch)
  {
    if orderId !in orders then Err(OrderNotFound(orderId))
    else if orders[orderId].status != Created then Err(OrderNotCreated(orders[orderId].status))
    else if amount != Some(orders[orderId].totalAmount) then Err(AmountMismatch)
    else Ok(orders[orderId])
  }

  function PaymentIds(ps: seq<Payment>): set<string> {
    set p | p in ps :: p.id
  }

  /** Payment ids are unique. */
  ghost predicate PaymentsWellFormed(ps: seq<Payment>) {
    forall i, j :: 0 <= i < j < |ps| ==> ps[i].id != ps[j].id
  }

  /** Once two stored payments, anywhere in the repository, carry the same order id, every lookup by that order
      id is ambiguous, so the mock webhook for it can no longer settle and changes nothing. */
  lemma SecondPaymentBlocksSettlement(l: Ledger, orderId: string, i: int, j: int, paymentId: Option<string>, status: Option<string>)
    requires i < j && Hit(l.payments, OrderIdField, Some(orderId), i) && Hit(l.payments, OrderIdField, Some(orderId), j)
    ensures SettleByOrder(l, Some(orderId), paymentId, status) == Err(NonUniqueResult)
  {
    FindSpec(l.payments, OrderIdField, Some(orderId));
  }

  /** The `payment.provider` setting selects Razorpay, in any letter case. */
  predicate IsRazorpay(provider: string) {
    EqualsIgnoreCase(provider, "razorpay")
  }

  class PaymentService {
    var payments: seq<Payment>
    const orderService: Orders.OrderService
    /** The `payment.provider` setting. */
    const provider: string

    ghost predicate Valid()
      reads this, orderService, orderService.cart, orderService.inventory
    {
      orderService.Valid() && PaymentsWellFormed(payments)
    }

    constructor (orderService: Orders.OrderService, provider: string)
      requires orderService.Valid()
      ensures Valid() && payments == [] && this.orderService == orderService && this.provider == provider
    {
      payments := [];
      this.orderService := orderService;
      this.provider := provider;
    }

    /** `createPayment`: after the checks, saves a PENDING payment under a fresh id and asks the gateway.
        With Razorpay the gateway's order id becomes the external id and the response shows our id; with
        the mock gateway the external id is set only when the reply has one, and the response shows it, or
        our id without it. A gateway failure rolls the saved payment back. */
    method CreatePayment(orderId: string, amount: Option<int>, now: int, reply: GatewayReply) returns (r: Result<PaymentResponse>)
      requires Valid()
      modifies this
      ensures Valid()
      ensures CheckPayable(orderService.orders, orderId, amount).Err? ==>
                r == Err(CheckPayable(orderService.orders, orderId, amount).error) && payments == old(payments)
      ensures CheckPayable(orderService.orders, orderId, amount).Ok? && reply.GatewayError? ==>
                r == Err(GatewayFailure(reply.message)) && payments == old(payments)
      ensures CheckPayable(orderService.orders, orderId, amount).Ok? && reply.GatewayOk? ==>
                && r.Ok?
                && |payments| == |old(payments)| + 1 && payments[..|old(payments)|] == old(payments)
                && var p := payments[|old(payments)|];
                && p.id !in PaymentIds(old(payments))
                && p == Payment(p.id, orderId, amount.value, Pending, reply.reference, now)
                && r.value.orderId == orderId && r.value.amount == amount.value
                && r.value.status == "PENDING"
                && (IsRazorpay(provider) ==>
                      r.value.paymentId == p.id && r.value.razorpayOrderId == reply.reference)
                && (!IsRazorpay(provider) ==>
                      && r.value.razorpayOrderId == None
                      && r.value.paymentId == if reply.reference.Some? then reply.reference.value else p.id)
    {
      var order := CheckPayable(orderService.orders, orderId, amount);
      if order.Err? {
        return Err(order.error);
      }
      var id := FreshId(PaymentIds(payments));
      var payment := Payment(id, orderId, amount.value, Pending, None, now);
      var before := payments;
      forall i | 0 <= i < |before|
        ensures before[i].id != id
      {
        assert before[i].id in PaymentIds(before);
      }
      payments := payments + [payment];
      if reply.GatewayError? {
        payments := before;
        return Err(GatewayFailure(reply.message));
      }
      if IsRazorpay(provider) {
        payment := payment.(paymentId := reply.reference);
        payments := before + [payment];
        r := Ok(PaymentResponse(payment.id, reply.reference, payment.orderId, payment.amount, PaymentStatusName(payment.status)));
      } else {
        if reply.reference.Some? {
          payment := payment.(paymentId := reply.reference);
          payments := before + [payment];
        }
        var shown := if payment.paymentId.Some? then payment.paymentId.value else payment.id;
        r := Ok(PaymentResponse(shown, None, payment.orderId, payment.amount, PaymentStatusName(payment.status)));
      }
      assert payments[..|before|] == before;
    }

    /** `handlePaymentWebhook`: the mock settlement, with the order update in the same transaction. */
    method HandlePaymentWebhook(orderId: Option<string>, paymentId: Option<string>, status: Option<string>) returns (r: Result<()>)
      requires Valid()
      modifies this, orderService
      ensures Valid() && orderService.items == old(orderService.items)
      ensures match SettleByOrder(Ledger(old(payments), old(orderService.orders)), orderId, paymentId, status)
              case Err(e) => r == Err(e) && payments == old(payments) && orderService.orders == old(orderService.orders)
              case Ok(l) => r == Ok(()) && payments == l.payments && orderService.orders == l.orders
    {
      ghost var l := Ledger(payments, orderService.orders);
      SettleByOrderSpec(l, orderId, paymentId, status);
      var found := Find(payments, OrderIdField, orderId);
      FindSpec(payments, OrderIdField, orderId);
      if found.NoMatch? {
        return Err(PaymentNotFoundForOrder(orderId));
      }
      if found.Ambiguous? {
        return Err(NonUniqueResult);
      }
      var k := found.index;
      if status.None? {
        return Err(NullPointer);
      }
      var parsed := PaymentStatusValueOf(ToUpper(status.value));
      if parsed.None? {
        return Err(NoEnumConstant(ToUpper(status.value)));
      }
      r := Commit(k, parsed.value, paymentId, orderId.value);
    }

    /** `handleRazorpayWebhook`: the Razorpay settlement, with the order update in the same transaction. */
    method HandleRazorpayWebhook(razorpayOrderId: Option<string>, razorpayPaymentId: Option<string>, status: Option<string>)
      returns (r: Result<()>)
      requires Valid()
      modifies this, orderService
      ensures Valid() && orderService.items == old(orderService.items)
      ensures match SettleByReference(Ledger(old(payments), old(orderService.orders)), razorpayOrderId, razorpayPaymentId, status)
              case Err(e) => r == Err(e) && payments == old(payments) && orderService.orders == old(orderService.orders)
              case Ok(l) => r == Ok(()) && payments == l.payments && orderService.orders == l.orders
    {
      var found := Find(payments, PaymentIdField, razorpayOrderId);
      FindSpec(payments, PaymentIdField, razorpayOrderId);
      if found.NoMatch? {
        return Err(PaymentNotFoundForRazorpayOrder(razorpayOrderId));
      }
      if found.Ambiguous? {
        return Err(NonUniqueResult);
      }
      var k := found.index;
      if status.None? {
        return Err(NullPointer);
      }
      var parsed := PaymentStatusValueOf(status.value);
      if parsed.None? {
        return Err(NoEnumConstant(status.value));
      }
      var reference := if razorpayPaymentId.Some? then razorpayPaymentId else razorpayOrderId;
      r := Commit(k, parsed.value, reference, payments[k].orderId);
    }

    /** Saves payment `k` with the new status and external id, then moves order `orderKey` for SUCCESS or
        FAILED; an unknown order throws and the payment write is rolled back. */
    method Commit(k: nat, status: PaymentStatus, reference: Option<string>, orderKey: string) returns (r: Result<()>)
      requires Valid() && k < |payments|
      modifies this, orderService
      ensures Valid() && orderService.items == old(orderService.items)
      ensures match Settle(Ledger(old(payments), old(orderService.orders)), k, status, reference, orderKey)
              case Err(e) => r == Err(e) && payments == old(payments) && orderService.orders == old(orderService.orders)
              case Ok(l) => r == Ok(()) && payments == l.payments && orderService.orders == l.orders
    {
      var before := payments;
      payments := payments[k := payments[k].(status := status, paymentId := reference)];
      assert PaymentsWellFormed(payments) by {
        assert forall i :: 0 <= i < |payments| ==> payments[i].id == before[i].id;
      }
      var target := OrderStatusFor(status);
      if target.None? {
        return Ok(());
      }
      var updated := orderService.UpdateOrderStatus(orderKey, target.value);
      if updated.Err? {
        payments := before;
        return Err(updated.error);
      }
      r := Ok(());
    }

    /** `getPaymentByOrderId`: the order's payment, or none; several payments for the order make the finder
        throw. */
    function GetPaymentByOrderId(orderId: Option<string>): (r: Result<Option<Payment>>)
      reads this
      ensures r == Ok(None) <==> forall i :: !Hit(payments, OrderIdField, orderId, i)
      ensures r.Ok? && r.value.Some? ==> r.value.value in payments && KeyOf(r.value.value, OrderIdField) == orderId
      ensures r.Ok? && r.value.Some? ==> forall i, j :: Hit(payments, OrderIdField, orderId, i) && Hit(payments, OrderIdField, orderId, j) ==> i == j
      ensures r.Err? <==> exists i, j :: i < j && Hit(payments, OrderIdField, orderId, i) && Hit(payments, OrderIdField, orderId, j)
      ensures r.Err? ==> r.error == NonUniqueResult
    {
      FindSpec(payments, OrderIdField, orderId);
      match Find(payments, OrderIdField, orderId)
      case NoMatch => Ok(None)
      case Ambiguous => Err(NonUniqueResult)
      case Unique(k) => Ok(Some(payments[k]))
    }
  }
}
