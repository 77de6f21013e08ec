/** The tables the order, coupon and payment operations read and write, as
    one object whose map fields the operations reassign: the product catalog
    (read only here), coupons by code, orders by id (each with its items),
    and payments by payment-intent id. Order.calculate_total, which sums,
    adjusts and stores an order's total, is the store's own method. */
module OrderStore {
  import opened Common
  import opened Coupons
  import opened OrderModels

  /** A payment row. The intent id is the key of the payments map (the
      column is unique); `order` is one-to-one with the order table. */
  datatype Payment = Payment(order: nat, amount: real, status: string)

  const PaymentPending: string := "pending"
  const PaymentSucceeded: string := "succeeded"
  const PaymentFailedStatus: string := "failed"

  /** The coupon of an order, as the row it refers to. */
  function CouponOf(coupons: map<string, Coupon>, ref: Option<string>): Option<Coupon> {
    if ref.Some? && ref.value in coupons then Some(coupons[ref.value]) else None
  }

  /** No coupon has been used more often than its limit allows. */
  ghost predicate WithinUsageLimits(coupons: map<string, Coupon>) {
    forall k :: k in coupons && coupons[k].usageLimit.Some? ==> coupons[k].usedCount <= coupons[k].usageLimit.value
  }

  /** Every item refers to a known product, the coupon reference points to
      an existing coupon, and the stored total is not negative. */
  ghost predicate OrderWellFormed(o: Order, products: Catalog, coupons: map<string, Coupon>) {
    ItemsKnown(o.items, products)
    && (o.coupon.Some? ==> o.coupon.value in coupons)
    && o.totalAmount >= 0.0
  }

  /** Every payment belongs to an existing order, and no order has two
      payments (the one-to-one column). */
  ghost predicate PaymentsWellFormed(payments: map<string, Payment>, orders: map<nat, Order>) {
    (forall i :: i in payments ==> payments[i].order in orders)
    && (forall i, j :: i in payments && j in payments && payments[i].order == payments[j].order ==> i == j)
  }

  /** Some payment row, in any status, refers to the order. */
  predicate HasPaymentFor(payments: map<string, Payment>, id: nat) {
    exists i :: i in payments && payments[i].order == id
  }

  /** The invariant of the store: coupons sit under their codes and within
      their limits, order ids are below the next id, orders are well formed
      and payments are one per order. */
  ghost predicate StoreInvariant(products: Catalog, coupons: map<string, Coupon>, orders: map<nat, Order>,
                                 payments: map<string, Payment>, nextOrderId: nat) {
    KeyedByCode(coupons)
    && WithinUsageLimits(coupons)
    && (forall id :: id in orders ==> id < nextOrderId && OrderWellFormed(orders[id], products, coupons))
    && PaymentsWellFormed(payments, orders)
  }

  /** Inserting a well-formed order under the next id keeps the invariant. */
  lemma InsertOrderKeepsInvariant(products: Catalog, coupons: map<string, Coupon>, orders: map<nat, Order>,
                                  payments: map<string, Payment>, nextOrderId: nat, o: Order)
    requires StoreInvariant(products, coupons, orders, payments, nextOrderId)
    requires OrderWellFormed(o, products, coupons)
    ensures nextOrderId !in orders
    ensures StoreInvariant(products, coupons, orders[nextOrderId := o], payments, nextOrderId + 1)
  {
  }

  /** Replacing an existing order by a well-formed one keeps the invariant. */
  lemma ReplaceOrderKeepsInvariant(products: Catalog, coupons: map<string, Coupon>, orders: map<nat, Order>,
                                   payments: map<string, Payment>, nextOrderId: nat, id: nat, o: Order)
    requires StoreInvariant(products, coupons, orders, payments, nextOrderId)
    requires id in orders && OrderWellFormed(o, products, coupons)
    ensures StoreInvariant(products, coupons, orders[id := o], payments, nextOrderId)
  {
  }

  /** Recording a payment under a new intent id for an existing order
      that has no payment yet keeps the invariant. */
  lemma RecordPaymentKeepsInvariant(products: Catalog, coupons: map<string, Coupon>, orders: map<nat, Order>,
                                    payments: map<string, Payment>, nextOrderId: nat, intent: string, p: Payment)
    requires StoreInvariant(products, coupons, orders, payments, nextOrderId)
    requires intent !in payments && p.order in orders && !HasPaymentFor(payments, p.order)
    ensures StoreInvariant(products, coupons, orders, payments[intent := p], nextOrderId)
  {
  }

  /** Changing the status of a payment row keeps the invariant. */
  lemma SetPaymentStatusKeepsInvariant(products: Catalog, coupons: map<string, Coupon>, orders: map<nat, Order>,
                                       payments: map<string, Payment>, nextOrderId: nat, intent: string, status: string)
    requires StoreInvariant(products, coupons, orders, payments, nextOrderId)
    requires intent in payments
    ensures StoreInvariant(products, coupons, orders, payments[intent := payments[intent].(status := status)], nextOrderId)
  {
  }

  /** Writing a key twice keeps the second value. */
  lemma OverwriteTwice<K, V>(m: map<K, V>, k: K, a: V, b: V)
    ensures m[k := a][k := b] == m[k := b]
  {
  }

  class Store {
    var products: Catalog
    var coupons: map<string, Coupon>
    var orders: map<nat, Order>
    var payments: map<string, Payment>
    var nextOrderId: nat

    ghost predicate Valid()
      reads this
    {
      StoreInvariant(products, coupons, orders, payments, nextOrderId)
    }

    /** A store with the given catalog and coupons and no orders yet. */
    constructor (products: Catalog, coupons: map<string, Coupon>)
      requires KeyedByCode(coupons) && WithinUsageLimits(coupons)
      ensures Valid()
      ensures this.products == products && this.coupons == coupons
      ensures orders == map[] && payments == map[] && nextOrderId == 0
    {
      this.products := products;
      this.coupons := coupons;
      orders := map[];
      payments := map[];
      nextOrderId := 0;
    }

    /** Saves a new order under the next id. */
    method InsertOrder(o: Order) returns (id: nat)
      requires Valid() && OrderWellFormed(o, products, coupons)
      modifies this`orders, this`nextOrderId
      ensures Valid()
      ensures id == old(nextOrderId) && id !in old(orders)
      ensures orders == old(orders)[id := o] && nextOrderId == id + 1
    {
      InsertOrderKeepsInvariant(products, coupons, orders, payments, nextOrderId, o);
      id := nextOrderId;
      orders := orders[id := o];
      nextOrderId := id + 1;
    }

    /** Saves an existing order with new contents. */
    method ReplaceOrder(id: nat, o: Order)
      requires Valid() && id in orders && OrderWellFormed(o, products, coupons)
      modifies this`orders
      ensures Valid()
      ensures orders == old(orders)[id := o]
    {
      ReplaceOrderKeepsInvariant(products, coupons, orders, payments, nextOrderId, id, o);
      orders := orders[id := o];
    }

    /** Inserts a payment row under a new intent id for an order that has
        none yet. */
    method RecordPayment(intent: string, p: Payment)
      requires Valid() && intent !in payments && p.order in orders && !HasPaymentFor(payments, p.order)
      modifies this`payments
      ensures Valid()
      ensures payments == old(payments)[intent := p]
    {
      RecordPaymentKeepsInvariant(products, coupons, orders, payments, nextOrderId, intent, p);
      payments := payments[intent := p];
    }

    /** Sets the status of an existing payment row. */
    method SetPaymentStatus(intent: string, status: string)
      requires Valid() && intent in payments
      modifies this`payments
      ensures Valid()
      ensures payments == old(payments)[intent := old(payments[intent]).(status := status)]
    {
      SetPaymentStatusKeepsInvariant(products, coupons, orders, payments, nextOrderId, intent, status);
      payments := payments[intent := payments[intent].(status := status)];
    }

    /** Order.calculate_total: sum price × quantity over the order's items at
        the catalog's current prices, apply the order's coupon, clamp at 0,
        store the result as the order's total and return it. */
    method CalculateTotal(id: nat) returns (total: real)
      requires Valid() && id in orders
      modifies this`orders
      ensures Valid()
      ensures total == CalculatedTotal(Subtotal(old(orders[id].items), products), CouponOf(coupons, old(orders[id].coupon)))
      ensures orders == old(orders)[id := old(orders[id]).(totalAmount := total)]
    {
      var order := orders[id];
      var items := order.items;
      total := 0.0;
      var i := 0;
      while i < |items|
        invariant 0 <= i <= |items|
        invariant total == Subtotal(items[..i], products)
      {
        assert items[..i + 1][..i] == items[..i];
        total := total + products[items[i].product] * items[i].quantity as real;
        i := i + 1;
      }
      assert items[..i] == items;
      ghost var subtotal := total;
      if order.coupon.Some? {
        var coupon := coupons[order.coupon.value];
        if coupon.discountType == PercentType {
          total := total - total * coupon.discountValue / 100.0;
        } else if coupon.discountType == FixedType {
          total := total - coupon.discountValue;
        }
      }
      if total < 0.0 {
        total := 0.0;
      }
      assert total == CalculatedTotal(subtotal, CouponOf(coupons, order.coupon));
      orders := orders[id := order.(totalAmount := total)];
    }
  }
}
