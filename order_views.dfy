/** The order endpoints that decide something themselves
    (apps/orders/views.py): who may see an order, the admin-only status
    update, and create_payment, which gates a payment attempt, asks the
    payment provider for an intent and records a pending payment.

    The provider call is a parameter: either it returns an intent id or it
    fails. An HTTP response is its status code. */
module OrderViews {
  import opened Common
  import opened OrderModels
  import opened OrderStore
  import opened OrderService

  /** The authenticated user making the request. */
  datatype Caller = Caller(id: nat, isStaff: bool, isSuperuser: bool)

  predicate IsAdmin(caller: Caller) {
    caller.isStaff || caller.isSuperuser
  }

  /** check_order_permission: admins may access any order, everyone else
      only their own. */
  predicate CheckOrderPermission(caller: Caller, o: Order) {
    IsAdmin(caller) || o.user == caller.id
  }

  /** get_queryset followed by get_object: the order exists and the caller
      may list it (admins list all orders, others their own). Anything else
      is a 404. */
  predicate Visible(caller: Caller, orders: map<nat, Order>, id: nat) {
    id in orders && (IsAdmin(caller) || orders[id].user == caller.id)
  }

  /** Admins pass the permission check on every order; a non-admin passes it
      exactly on the orders they own. */
  lemma PermissionRule(caller: Caller, o: Order)
    ensures IsAdmin(caller) ==> CheckOrderPermission(caller, o)
    ensures !IsAdmin(caller) ==> (CheckOrderPermission(caller, o) <==> o.user == caller.id)
  {
  }

  /** An order the caller can fetch always passes check_order_permission, so
      the 403 behind that check in create_payment is never returned. */
  lemma VisibleOrdersPassPermission(caller: Caller, orders: map<nat, Order>, id: nat)
    requires Visible(caller, orders, id)
    ensures CheckOrderPermission(caller, orders[id])
  {
  }

  /** update_status: 403 for a caller who is neither staff nor superuser,
      404 for an unknown order, 400 for a missing or unknown status (the
      service's ValueError), otherwise 200 with the status applied to the
      order and its items. */
  method UpdateStatusView(db: Store, caller: Caller, id: nat, status: Option<string>) returns (code: int)
    requires db.Valid()
    modifies db`orders
    ensures db.Valid()
    ensures !IsAdmin(caller) ==> code == 403 && db.orders == old(db.orders)
    ensures IsAdmin(caller) && id !in old(db.orders) ==> code == 404 && db.orders == old(db.orders)
    ensures code == 400 <==> IsAdmin(caller) && id in old(db.orders) && (status.None? || !IsStatusChoice(status.value))
    ensures code == 400 ==> db.orders == old(db.orders)
    ensures code == 200 <==> IsAdmin(caller) && id in old(db.orders) && status.Some? && IsStatusChoice(status.value)
    ensures code == 200 ==> db.orders == old(db.orders)[id := WithStatus(old(db.orders[id]), status.value)]
  {
    if !IsAdmin(caller) {
      return 403;
    }
    if id !in db.orders {
      return 404;
    }
    if status.None? {
      return 400;
    }
    var r := UpdateOrderStatus(db, id, status.value);
    code := if r.Ok? then 200 else 400;
  }

  /** A payment row for the order that has succeeded. */
  predicate HasSucceededPayment(payments: map<string, Payment>, id: nat) {
    exists i :: i in payments && payments[i].order == id && payments[i].status == PaymentSucceeded
  }

  /** The checks of create_payment before the provider is called, in order;
      the status code of the first that fails, or None. */
  function PaymentRefusal(caller: Caller, orders: map<nat, Order>, payments: map<string, Payment>, id: nat): (r: Option<int>)
    ensures r == Some(404) <==> !Visible(caller, orders, id)
    ensures r == Some(403) <==> Visible(caller, orders, id) && orders[id].user != caller.id
    ensures r == Some(400) <==>
              Visible(caller, orders, id) && orders[id].user == caller.id
              && (orders[id].status == Paid || HasSucceededPayment(payments, id))
    ensures r.None? <==>
              id in orders && orders[id].user == caller.id
              && orders[id].status != Paid && !HasSucceededPayment(payments, id)
  {
    if !Visible(caller, orders, id) then Some(404)
    else if !CheckOrderPermission(caller, orders[id]) then Some(403)
    else if IsAdmin(caller) && orders[id].user != caller.id then Some(403)
    else if orders[id].status == Paid then Some(400)
    else if HasSucceededPayment(payments, id) then Some(400)
    else None
  }

  /** An admin may see another user's order but may not pay for it. */
  lemma AdminCannotPayForOthers(caller: Caller, orders: map<nat, Order>, payments: map<string, Payment>, id: nat)
    requires IsAdmin(caller) && id in orders && orders[id].user != caller.id
    ensures CheckOrderPermission(caller, orders[id])
    ensures PaymentRefusal(caller, orders, payments, id) == Some(403)
  {
  }

  /** int(Decimal): the integer part, truncated toward zero. */
  function Truncate(x: real): (n: int)
    ensures x >= 0.0 ==> 0 <= n && n as real <= x < n as real + 1.0
    ensures x < 0.0 ==> n <= 0 && n as real - 1.0 < x <= n as real
  {
    if x >= 0.0 then x.Floor else -((-x).Floor)
  }

  /** The amount sent to the provider: the order total in cents, truncated. */
  function ProviderAmount(total: real): (cents: int)
    requires total >= 0.0
    ensures 0 <= cents && cents as real <= total * 100.0 < cents as real + 1.0
  {
    Truncate(total * 100.0)
  }

  /** A total with whole cents is sent exactly. */
  lemma WholeCentsSentExactly(cents: nat)
    ensures ProviderAmount(cents as real / 100.0) == cents
  {
  }

  /** What the payment provider did with the intent request. */
  datatype ProviderOutcome = Created(intentId: string) | ProviderError

  /** create_payment: refuse as PaymentRefusal says; otherwise ask the
      provider for an intent of ProviderAmount(total_amount) cents. A
      provider error is a 500 with nothing written. A returned intent id
      already on file, or an order that already has a payment row, breaks a
      unique column and is a 500 with nothing written. Otherwise a pending
      payment of total_amount is recorded under the intent id, the order
      becomes "awaiting_payment", and the answer is 201. */
  method CreatePayment(db: Store, caller: Caller, id: nat, outcome: ProviderOutcome)
    returns (code: int, amountSent: Option<int>)
    requires db.Valid()
    modifies db`orders, db`payments
    ensures db.Valid()
    ensures var refusal := PaymentRefusal(caller, old(db.orders), old(db.payments), id);
            && (refusal.Some? ==> code == refusal.value && amountSent.None?)
            && (refusal.None? ==> amountSent == Some(ProviderAmount(old(db.orders[id]).totalAmount)))
            && (refusal.None? && outcome.ProviderError? ==> code == 500)
            && (refusal.None? && outcome.Created? ==>
                  (code == 500 <==> outcome.intentId in old(db.payments) || HasPaymentFor(old(db.payments), id)))
    ensures code != 201 ==> db.orders == old(db.orders) && db.payments == old(db.payments)
    ensures code == 201 ==>
              && PaymentRefusal(caller, old(db.orders), old(db.payments), id).None?
              && outcome.Created? && outcome.intentId !in old(db.payments)
              && db.payments == old(db.payments)[outcome.intentId := Payment(id, old(db.orders[id]).totalAmount, PaymentPending)]
              && db.orders == old(db.orders)[id := old(db.orders[id]).(status := AwaitingPayment)]
  {
    var refusal := PaymentRefusal(caller, db.orders, db.payments, id);
    if refusal.Some? {
      return refusal.value, None;
    }
    var order := db.orders[id];
    amountSent := Some(ProviderAmount(order.totalAmount));
    if outcome.ProviderError? {
      return 500, amountSent;
    }
    var intent := outcome.intentId;
    if intent in db.payments || HasPaymentFor(db.payments, id) {
      return 500, amountSent;
    }
    db.RecordPayment(intent, Payment(id, order.totalAmount, PaymentPending));
    db.ReplaceOrder(id, order.(status := AwaitingPayment));
    code := 201;
  }

  /** After a successful create_payment the order is neither paid nor has
      a succeeded payment, so a second attempt passes every check, reaches
      the provider, and is then refused by the one-payment-per-order
      column. */
  lemma RepeatAttemptReachesUniqueColumn(caller: Caller, orders: map<nat, Order>, payments: map<string, Payment>, id: nat, intent: string)
    requires PaymentRefusal(caller, orders, payments, id).None?
    requires intent !in payments && !HasPaymentFor(payments, id)
    ensures var orders2 := orders[id := orders[id].(status := AwaitingPayment)];
            var payments2 := payments[intent := Payment(id, orders[id].totalAmount, PaymentPending)];
            PaymentRefusal(caller, orders2, payments2, id).None? && HasPaymentFor(payments2, id)
  {
    var payments2 := payments[intent := Payment(id, orders[id].totalAmount, PaymentPending)];
    assert payments2[intent].order == id;
    forall i | i in payments2 && i != intent
      ensures payments2[i].order != id
    {
      assert payments2[i] == payments[i];
    }
  }

  /** The payment table a retried create_payment is evidently meant to
      leave: the order's earlier payment row, which the checks above
      guarantee did not succeed, gives way to the new intent's row. */
  function ReplacePaymentFor(payments: map<string, Payment>, id: nat, intent: string, p: Payment): (r: map<string, Payment>)
    requires p.order == id
    ensures intent in r && r[intent] == p
    ensures forall i :: i in r && i != intent ==> i in payments && payments[i].order != id && r[i] == payments[i]
    ensures forall i :: i in payments && payments[i].order != id ==> i in r
  {
    (map i | i in payments && payments[i].order != id :: payments[i])[intent := p]
  }

  /** With the earlier row replaced, a retry keeps one payment per order:
      the order's only payment is the new one, and every other order keeps
      its payment. */
  lemma RetryReplacesEarlierPayment(orders: map<nat, Order>, payments: map<string, Payment>, id: nat, intent: string, p: Payment)
    requires PaymentsWellFormed(payments, orders) && id in orders
    requires intent !in payments && p.order == id
    ensures var r := ReplacePaymentFor(payments, id, intent, p);
            && PaymentsWellFormed(r, orders)
            && (forall i :: i in r && r[i].order == id ==> i == intent)
            && (forall i :: i in payments && payments[i].order != id ==> i in r && r[i] == payments[i])
  {
  }

  /** The retry the one-payment-per-order column refuses as written: after
      a first attempt, a second one with a new intent passes every check,
      and replacing the earlier row records it with the invariant kept. */
  lemma RetryAfterAttemptIsAccepted(caller: Caller, orders: map<nat, Order>, payments: map<string, Payment>,
                                    id: nat, intent: string, intent2: string)
    requires PaymentsWellFormed(payments, orders)
    requires PaymentRefusal(caller, orders, payments, id).None?
    requires intent !in payments && !HasPaymentFor(payments, id)
    requires intent2 != intent && intent2 !in payments
    ensures var orders2 := orders[id := orders[id].(status := AwaitingPayment)];
            var payments2 := payments[intent := Payment(id, orders[id].totalAmount, PaymentPending)];
            var retried := ReplacePaymentFor(payments2, id, intent2, Payment(id, orders2[id].totalAmount, PaymentPending));
            && PaymentRefusal(caller, orders2, payments2, id).None?
            && PaymentsWellFormed(retried, orders2)
            && intent !in retried && retried[intent2].order == id
  {
    var orders2 := orders[id := orders[id].(status := AwaitingPayment)];
    var payments2 := payments[intent := Payment(id, orders[id].totalAmount, PaymentPending)];
    RepeatAttemptReachesUniqueColumn(caller, orders, payments, id, intent);
    assert PaymentsWellFormed(payments2, orders2) by {
      forall i, j | i in payments2 && j in payments2 && payments2[i].order == payments2[j].order
        ensures i == j
      {
        assert i != intent && j != intent ==> payments2[i] == payments[i] && payments2[j] == payments[j];
      }
    }
    RetryReplacesEarlierPayment(orders2, payments2, id, intent2, Payment(id, orders2[id].totalAmount, PaymentPending));
  }
}
