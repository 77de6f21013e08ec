/** The payment provider's webhook (apps/payment/views.py, stripe_webhook):
    once the event's signature has been checked, a succeeded payment intent
    marks its order paid and records or updates the payment under the
    intent id; a failed one marks the order and the payment failed.

    Signature checking is the provider library's: its outcome is the
    parameter `event`, None when the payload or signature is rejected. The
    order id travels in the intent's metadata as text; the model keeps only
    what the handler distinguishes about that text. */
module PaymentWebhook {
  import opened Common
  import opened OrderModels
  import opened OrderStore

  const SucceededEvent: string := "payment_intent.succeeded"
  const FailedEvent: string := "payment_intent.payment_failed"

  /** metadata["order_id"] as the handler sees it: absent or empty (both
      falsy), the decimal text of an integer, or text that is not a number
      (the order lookup then raises ValueError). */
  datatype MetadataOrderId = Absent | Blank | Numeric(n: int) | NotANumber

  /** The fields of a verified event the handler reads: its type, and the
      intent's id, amount in cents and order id. */
  datatype Event = Event(kind: string, intentId: string, amountCents: int, orderId: MetadataOrderId)

  /** The response code and the order and payment tables after the handler. */
  datatype WebhookResult = WebhookResult(code: int, orders: map<nat, Order>, payments: map<string, Payment>)

  /** The order with the given id, if the id is a known one. */
  predicate KnownOrder(orders: map<nat, Order>, n: int) {
    n >= 0 && n as nat in orders
  }

  /** The succeeded branch for a known order: update the intent's payment
      row if there is one, otherwise create it (which breaks the
      one-payment-per-order column when the order already has a payment,
      a 500 that writes nothing); then the order becomes "paid". */
  function Succeeded(orders: map<nat, Order>, payments: map<string, Payment>, id: nat, e: Event): (r: WebhookResult)
    requires id in orders
    ensures r.code == 200 || r.code == 500
    ensures r.code == 500 <==> e.intentId !in payments && HasPaymentFor(payments, id)
    ensures r.code == 200 ==> r.orders == orders[id := orders[id].(status := Paid)]
    ensures r.code == 200 ==> e.intentId in r.payments && r.payments[e.intentId].status == PaymentSucceeded
  {
    if e.intentId in payments then
      WebhookResult(200, orders[id := orders[id].(status := Paid)],
                    payments[e.intentId := payments[e.intentId].(status := PaymentSucceeded)])
    else if HasPaymentFor(payments, id) then
      WebhookResult(500, orders, payments)
    else
      WebhookResult(200, orders[id := orders[id].(status := Paid)],
                    payments[e.intentId := Payment(id, e.amountCents as real / 100.0, PaymentSucceeded)])
  }

  /** The failed branch for a known order: the order becomes
      "payment_failed" and the payment row with the intent's id, if any,
      "failed". */
  function Failed(orders: map<nat, Order>, payments: map<string, Payment>, id: nat, e: Event): (r: WebhookResult)
    requires id in orders
    ensures r.code == 200
    ensures r.orders == orders[id := orders[id].(status := PaymentFailed)]
    ensures e.intentId in payments ==> r.payments == payments[e.intentId := payments[e.intentId].(status := PaymentFailedStatus)]
    ensures e.intentId !in payments ==> r.payments == payments
  {
    WebhookResult(200, orders[id := orders[id].(status := PaymentFailed)],
                  if e.intentId in payments then payments[e.intentId := payments[e.intentId].(status := PaymentFailedStatus)]
                  else payments)
  }

  /** stripe_webhook as a function of the tables and the verified event. */
  function Webhook(orders: map<nat, Order>, payments: map<string, Payment>, event: Option<Event>): (r: WebhookResult)
    ensures r.code in {200, 400, 404, 500}
    ensures r.code != 200 ==> r.orders == orders && r.payments == payments
    ensures r.orders.Keys == orders.Keys
    ensures event.None? ==> r.code == 400
  {
    if event.None? then WebhookResult(400, orders, payments)
    else
      var e := event.value;
      if e.kind == SucceededEvent then
        match e.orderId
        case Absent => WebhookResult(400, orders, payments)
        case Blank => WebhookResult(400, orders, payments)
        case NotANumber => WebhookResult(500, orders, payments)
        case Numeric(n) =>
          if KnownOrder(orders, n) then Succeeded(orders, payments, n as nat, e)
          else WebhookResult(404, orders, payments)
      else if e.kind == FailedEvent then
        match e.orderId
        case Absent => WebhookResult(200, orders, payments)
        case Blank => WebhookResult(200, orders, payments)
        case NotANumber => WebhookResult(500, orders, payments)
        case Numeric(n) =>
          if KnownOrder(orders, n) then Failed(orders, payments, n as nat, e)
          else WebhookResult(200, orders, payments)
      else WebhookResult(200, orders, payments)
  }

  /** A processed succeeded event leaves exactly one payment under the
      intent id, succeeded, every other payment as it was, and the order
      paid; a succeeded event for an unknown order writes nothing. */
  lemma SucceededEventEffect(orders: map<nat, Order>, payments: map<string, Payment>, e: Event)
    requires e.kind == SucceededEvent
    ensures var r := Webhook(orders, payments, Some(e));
            && (e.orderId.Absent? || e.orderId.Blank? ==> r.code == 400)
            && (e.orderId.Numeric? && !KnownOrder(orders, e.orderId.n) ==> r.code == 404)
            && (r.code == 200 ==>
                  && e.orderId.Numeric? && KnownOrder(orders, e.orderId.n)
                  && r.orders == orders[e.orderId.n as nat := orders[e.orderId.n as nat].(status := Paid)]
                  && r.payments.Keys == payments.Keys + {e.intentId}
                  && r.payments[e.intentId].status == PaymentSucceeded
                  && (forall i :: i in payments && i != e.intentId ==> r.payments[i] == payments[i]))
  {
  }

  /** A failed event for a known order marks the order failed and the
      intent's payment, if it has one, failed; without a known order it
      writes nothing and still answers 200. */
  lemma FailedEventEffect(orders: map<nat, Order>, payments: map<string, Payment>, e: Event)
    requires e.kind == FailedEvent && !e.orderId.NotANumber?
    ensures var r := Webhook(orders, payments, Some(e));
            && r.code == 200
            && (e.orderId.Numeric? && KnownOrder(orders, e.orderId.n) ==>
                  && r.orders[e.orderId.n as nat].status == PaymentFailed
                  && r.payments.Keys == payments.Keys
                  && (e.intentId in payments ==> r.payments[e.intentId].status == PaymentFailedStatus))
            && (!(e.orderId.Numeric? && KnownOrder(orders, e.orderId.n)) ==> r.orders == orders && r.payments == payments)
  {
  }

  /** Any other event type is acknowledged and ignored. */
  lemma OtherEventsIgnored(orders: map<nat, Order>, payments: map<string, Payment>, e: Event)
    requires e.kind != SucceededEvent && e.kind != FailedEvent
    ensures Webhook(orders, payments, Some(e)) == WebhookResult(200, orders, payments)
  {
  }

  /** Delivering the same event again after it was processed changes
      nothing and gets the same answer: the provider's retries are safe. */
  lemma {:induction false} ReplayIsIdempotent(orders: map<nat, Order>, payments: map<string, Payment>, event: Option<Event>)
    requires Webhook(orders, payments, event).code == 200
    ensures var r := Webhook(orders, payments, event);
            Webhook(r.orders, r.payments, event) == r
  {
    var r := Webhook(orders, payments, event);
    var e := event.value;
    if e.orderId.Numeric? && KnownOrder(orders, e.orderId.n) && (e.kind == SucceededEvent || e.kind == FailedEvent) {
      var id := e.orderId.n as nat;
      var status := if e.kind == SucceededEvent then Paid else PaymentFailed;
      var paymentStatus := if e.kind == SucceededEvent then PaymentSucceeded else PaymentFailedStatus;
      assert KnownOrder(r.orders, e.orderId.n);
      var again := Webhook(r.orders, r.payments, event);
      OverwriteTwice(orders, id, orders[id].(status := status), r.orders[id].(status := status));
      assert r.orders[id].(status := status) == orders[id].(status := status);
      assert again.orders == r.orders;
      if e.intentId in r.payments {
        assert r.payments[e.intentId].(status := paymentStatus) == r.payments[e.intentId];
        assert again.payments == r.payments;
      }
    }
  }

  /** The succeeded branch keeps the store invariant: the payment it
      creates belongs to the order, which had none. */
  lemma SucceededKeepsInvariant(products: Catalog, coupons: map<string, Coupons.Coupon>, orders: map<nat, Order>,
                                payments: map<string, Payment>, nextOrderId: nat, id: nat, e: Event)
    requires StoreInvariant(products, coupons, orders, payments, nextOrderId) && id in orders
    ensures var r := Succeeded(orders, payments, id, e);
            StoreInvariant(products, coupons, r.orders, r.payments, nextOrderId)
  {
    var o := orders[id].(status := Paid);
    assert OrderWellFormed(orders[id], products, coupons);
    if e.intentId in payments {
      SetPaymentStatusKeepsInvariant(products, coupons, orders, payments, nextOrderId, e.intentId, PaymentSucceeded);
      var updated := payments[e.intentId := payments[e.intentId].(status := PaymentSucceeded)];
      ReplaceOrderKeepsInvariant(products, coupons, orders, updated, nextOrderId, id, o);
    } else if !HasPaymentFor(payments, id) {
      var p := Payment(id, e.amountCents as real / 100.0, PaymentSucceeded);
      RecordPaymentKeepsInvariant(products, coupons, orders, payments, nextOrderId, e.intentId, p);
      ReplaceOrderKeepsInvariant(products, coupons, orders, payments[e.intentId := p], nextOrderId, id, o);
    }
  }

  /** The failed branch keeps the store invariant. */
  lemma FailedKeepsInvariant(products: Catalog, coupons: map<string, Coupons.Coupon>, orders: map<nat, Order>,
                             payments: map<string, Payment>, nextOrderId: nat, id: nat, e: Event)
    requires StoreInvariant(products, coupons, orders, payments, nextOrderId) && id in orders
    ensures var r := Failed(orders, payments, id, e);
            StoreInvariant(products, coupons, r.orders, r.payments, nextOrderId)
  {
    var o := orders[id].(status := PaymentFailed);
    assert OrderWellFormed(orders[id], products, coupons);
    var updated := if e.intentId in payments then payments[e.intentId := payments[e.intentId].(status := PaymentFailedStatus)] else payments;
    if e.intentId in payments {
      SetPaymentStatusKeepsInvariant(products, coupons, orders, payments, nextOrderId, e.intentId, PaymentFailedStatus);
    }
    ReplaceOrderKeepsInvariant(products, coupons, orders, updated, nextOrderId, id, o);
  }

  /** The webhook keeps the store invariant: a payment it creates belongs to
      an existing order that had none. */
  lemma WebhookKeepsInvariant(products: Catalog, coupons: map<string, Coupons.Coupon>, orders: map<nat, Order>,
                              payments: map<string, Payment>, nextOrderId: nat, event: Option<Event>)
    requires StoreInvariant(products, coupons, orders, payments, nextOrderId)
    ensures var r := Webhook(orders, payments, event);
            StoreInvariant(products, coupons, r.orders, r.payments, nextOrderId)
  {
    if event.Some? && event.value.orderId.Numeric? && KnownOrder(orders, event.value.orderId.n) {
      var e := event.value;
      var id := e.orderId.n as nat;
      if e.kind == SucceededEvent {
        SucceededKeepsInvariant(products, coupons, orders, payments, nextOrderId, id, e);
      } else if e.kind == FailedEvent {
        FailedKeepsInvariant(products, coupons, orders, payments, nextOrderId, id, e);
      }
    }
  }

  /** The writes of the succeeded branch for a known order: the payment
      row first, then the order. */
  method MarkSucceeded(db: Store, id: nat, e: Event) returns (code: int)
    requires db.Valid() && id in db.orders
    modifies db`orders, db`payments
    ensures db.Valid()
    ensures WebhookResult(code, db.orders, db.payments) == Succeeded(old(db.orders), old(db.payments), id, e)
  {
    if e.intentId in db.payments {
      db.SetPaymentStatus(e.intentId, PaymentSucceeded);
    } else if HasPaymentFor(db.payments, id) {
      return 500;
    } else {
      db.RecordPayment(e.intentId, Payment(id, e.amountCents as real / 100.0, PaymentSucceeded));
    }
    assert OrderWellFormed(db.orders[id], db.products, db.coupons);
    db.ReplaceOrder(id, db.orders[id].(status := Paid));
    code := 200;
  }

  /** The writes of the failed branch for a known order: the order first,
      then the intent's payment row, if any. */
  method MarkFailed(db: Store, id: nat, e: Event) returns (code: int)
    requires db.Valid() && id in db.orders
    modifies db`orders, db`payments
    ensures db.Valid()
    ensures WebhookResult(code, db.orders, db.payments) == Failed(old(db.orders), old(db.payments), id, e)
  {
    assert OrderWellFormed(db.orders[id], db.products, db.coupons);
    db.ReplaceOrder(id, db.orders[id].(status := PaymentFailed));
    if e.intentId in db.payments {
      db.SetPaymentStatus(e.intentId, PaymentFailedStatus);
    }
    code := 200;
  }

  /** stripe_webhook, writing the tables in the order each branch does. */
  method StripeWebhook(db: Store, event: Option<Event>) returns (code: int)
    requires db.Valid()
    modifies db`orders, db`payments
    ensures db.Valid()
    ensures WebhookResult(code, db.orders, db.payments) == Webhook(old(db.orders), old(db.payments), event)
  {
    if event.None? {
      return 400;
    }
    var e := event.value;
    if e.kind == SucceededEvent {
      match e.orderId
      case Absent => return 400;
      case Blank => return 400;
      case NotANumber => return 500;
      case Numeric(n) =>
        if !(n >= 0 && n as nat in db.orders) {
          return 404;
        }
        code := MarkSucceeded(db, n as nat, e);
    } else if e.kind == FailedEvent {
      match e.orderId
      case Absent => return 200;
      case Blank => return 200;
      case NotANumber => return 500;
      case Numeric(n) =>
        if !(n >= 0 && n as nat in db.orders) {
          return 200;
        }
        code := MarkFailed(db, n as nat, e);
    } else {
      code := 200;
    }
  }
}
