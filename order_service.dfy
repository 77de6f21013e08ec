/** OrderService (apps/orders/services.py): the cart total, the coupon lookup,
    the coupon checks that run before any write, and the three operations on
    the order aggregate: create, update and status change. create and update
    run in one transaction; every error below is raised before the first
    write, so a failed call leaves the store exactly as it was. */
module OrderService {
  import opened Common
  import opened Coupons
  import opened OrderModels
  import opened OrderStore

  /** The ValidationError and ValueError cases of the service. */
  datatype OrderError =
    | CouponNotFound(code: string)
    | BelowMinimumCartValue(minimum: real, cartTotal: real)
    | InvalidOrExpired
    | UsageLimitReached
    | InvalidStatus(status: string)

  /** _calculate_cart_total: Σ product.price × quantity over the request
      lines, 0 for none. */
  function CartTotal(data: seq<ItemData>, catalog: Catalog): real
    requires ProductsKnown(data, catalog)
  {
    if data == [] then 0.0
    else CartTotal(data[..|data| - 1], catalog) + catalog[data[|data| - 1].product] * data[|data| - 1].quantity as real
  }

  /** The total the coupon is validated against is the subtotal that
      calculate_total then computes over the items created from the same
      lines. */
  lemma {:induction false} CartTotalIsSubtotalOfNewItems(data: seq<ItemData>, catalog: Catalog)
    requires ProductsKnown(data, catalog)
    ensures ItemsKnown(NewItems(data, catalog), catalog)
    ensures Subtotal(NewItems(data, catalog), catalog) == CartTotal(data, catalog)
  {
    if data != [] {
      var front := data[..|data| - 1];
      CartTotalIsSubtotalOfNewItems(front, catalog);
      assert NewItems(data, catalog)[..|data| - 1] == NewItems(front, catalog);
    }
  }

  /** The coupon a request names: nothing for an absent or empty code,
      otherwise the code itself. */
  function RequestedCoupon(code: Option<string>): Option<string> {
    if code.None? || code.value == "" then None else code
  }

  /** _get_coupon_by_code: a falsy code gives no coupon, an unknown code is a
      ValidationError, otherwise the coupon with exactly that code. */
  function GetCouponByCode(coupons: map<string, Coupon>, code: Option<string>): (r: Result<Option<Coupon>, OrderError>)
    requires KeyedByCode(coupons)
    ensures RequestedCoupon(code).None? ==> r == Ok(None)
    ensures r.Err? <==> RequestedCoupon(code).Some? && code.value !in coupons
    ensures r.Err? ==> r.error == CouponNotFound(code.value)
    ensures r.Ok? && r.value.Some? ==> RequestedCoupon(code) == Some(r.value.value.code) && r.value.value == coupons[code.value]
  {
    if code.None? || code.value == "" then Ok(None)
    else if code.value !in coupons then Err(CouponNotFound(code.value))
    else Ok(Some(coupons[code.value]))
  }

  /** The validation block run on a coupon before it is applied: is_valid
      with the cart total, the minimum-cart message when the total is below
      the minimum, the generic one otherwise, then the usage-limit check. */
  function CheckCoupon(coupon: Option<Coupon>, cartTotal: real, now: int): (r: Option<OrderError>)
    ensures r.None? <==> coupon.None? || IsValid(coupon.value, now, Some(cartTotal))
    ensures (r.Some? && r.value.BelowMinimumCartValue?) <==> coupon.Some? && cartTotal < coupon.value.minCartValue
    ensures r == Some(InvalidOrExpired) <==>
              coupon.Some? && cartTotal >= coupon.value.minCartValue && !IsValid(coupon.value, now, None)
    ensures r.Some? ==> r.value.BelowMinimumCartValue? || r.value == InvalidOrExpired
  {
    if coupon.None? then None
    else
      var c := coupon.value;
      if !IsValid(c, now, Some(cartTotal)) then
        if cartTotal < c.minCartValue then Some(BelowMinimumCartValue(c.minCartValue, cartTotal))
        else Some(InvalidOrExpired)
      else if c.usageLimit.Some? && c.usageLimit.value != 0 && c.usedCount >= c.usageLimit.value then
        Some(UsageLimitReached)
      else None
  }

  /** The separate usage-limit check never fires: a coupon that passed
      is_valid is below its limit, so a coupon at its limit is rejected as
      "invalid or expired" (or for its minimum) instead. */
  lemma AtLimitRejectedByIsValid(c: Coupon, cartTotal: real, now: int)
    requires c.usageLimit.Some? && c.usedCount >= c.usageLimit.value
    ensures CheckCoupon(Some(c), cartTotal, now).Some?
    ensures CheckCoupon(Some(c), cartTotal, now) != Some(UsageLimitReached)
  {
  }

  /** Usage count after an order gives the coupon up: one less, never below 0. */
  function Released(c: Coupon): Coupon {
    c.(usedCount := if c.usedCount > 0 then c.usedCount - 1 else 0)
  }

  /** Usage count after an order takes the coupon. */
  function Redeemed(c: Coupon): Coupon {
    c.(usedCount := c.usedCount + 1)
  }

  /** The coupon ledger when an order's coupon goes from `oldRef` to
      `newRef`: nothing when it stays the same; otherwise the old coupon is
      released and the new one redeemed, and no other coupon changes. */
  function SwapCoupon(coupons: map<string, Coupon>, oldRef: Option<string>, newRef: Option<string>): (r: map<string, Coupon>)
    requires oldRef.Some? ==> oldRef.value in coupons
    requires newRef.Some? ==> newRef.value in coupons
    ensures r.Keys == coupons.Keys
    ensures oldRef == newRef ==> r == coupons
    ensures forall k :: k in coupons && Some(k) != oldRef && Some(k) != newRef ==> r[k] == coupons[k]
    ensures oldRef != newRef && oldRef.Some? ==>
              r[oldRef.value].usedCount == (if coupons[oldRef.value].usedCount > 0 then coupons[oldRef.value].usedCount - 1 else 0)
    ensures oldRef != newRef && newRef.Some? ==> r[newRef.value].usedCount == coupons[newRef.value].usedCount + 1
    ensures forall k :: k in coupons ==> r[k] == coupons[k].(usedCount := r[k].usedCount)
  {
    var released := if oldRef.Some? && oldRef != newRef then coupons[oldRef.value := Released(coupons[oldRef.value])] else coupons;
    if newRef.Some? && newRef != oldRef then released[newRef.value := Redeemed(coupons[newRef.value])] else released
  }

  /** Moving a use between coupons keeps the store invariant, provided the
      coupon that gains a use was below its limit (which its validation
      guarantees). */
  lemma SwapKeepsInvariant(products: Catalog, coupons: map<string, Coupon>, orders: map<nat, Order>,
                           payments: map<string, Payment>, nextOrderId: nat, oldRef: Option<string>, newRef: Option<string>)
    requires StoreInvariant(products, coupons, orders, payments, nextOrderId)
    requires oldRef.Some? ==> oldRef.value in coupons
    requires newRef.Some? ==> newRef.value in coupons
    requires newRef.Some? && newRef != oldRef ==>
               coupons[newRef.value].usageLimit.None? || coupons[newRef.value].usedCount < coupons[newRef.value].usageLimit.value
    ensures StoreInvariant(products, SwapCoupon(coupons, oldRef, newRef), orders, payments, nextOrderId)
  {
    var swapped := SwapCoupon(coupons, oldRef, newRef);
    forall id | id in orders ensures OrderWellFormed(orders[id], products, swapped) {
      assert OrderWellFormed(orders[id], products, coupons);
    }
  }

  /** Removing the coupon from an order that used it gives exactly one use
      back to that coupon. */
  lemma RemovingCouponReleasesOneUse(coupons: map<string, Coupon>, code: string)
    requires code in coupons && coupons[code].usedCount > 0
    ensures SwapCoupon(coupons, Some(code), None)[code].usedCount == coupons[code].usedCount - 1
    ensures forall k :: k in coupons && k != code ==> SwapCoupon(coupons, Some(code), None)[k] == coupons[k]
  {
  }

  /** Only the usage counts move, so the discount an order's coupon gives is
      the same before and after the swap. */
  lemma SwapKeepsDiscounts(coupons: map<string, Coupon>, oldRef: Option<string>, newRef: Option<string>, ref: Option<string>, subtotal: real)
    requires oldRef.Some? ==> oldRef.value in coupons
    requires newRef.Some? ==> newRef.value in coupons
    ensures CalculatedTotal(subtotal, CouponOf(SwapCoupon(coupons, oldRef, newRef), ref))
         == CalculatedTotal(subtotal, CouponOf(coupons, ref))
  {
    var swapped := SwapCoupon(coupons, oldRef, newRef);
    if ref.Some? && ref.value in coupons {
      assert swapped[ref.value] == coupons[ref.value].(usedCount := swapped[ref.value].usedCount);
    }
  }

  /** The checks of create_order, in order: coupon lookup, then the coupon's
      validation against the cart total. Ok carries the coupon to apply. */
  function CreateOrderCheck(coupons: map<string, Coupon>, catalog: Catalog, data: seq<ItemData>, code: Option<string>, now: int): (r: Result<Option<Coupon>, OrderError>)
    requires KeyedByCode(coupons) && ProductsKnown(data, catalog)
    ensures r.Ok? ==> r == GetCouponByCode(coupons, code)
    ensures r.Ok? && r.value.Some? ==> IsValid(r.value.value, now, Some(CartTotal(data, catalog)))
    ensures var lookup := GetCouponByCode(coupons, code);
            r != lookup <==> lookup.Ok? && lookup.value.Some? && !IsValid(lookup.value.value, now, Some(CartTotal(data, catalog)))
    ensures var lookup := GetCouponByCode(coupons, code);
            r != lookup ==> lookup.Ok? && r == Err(CheckCoupon(lookup.value, CartTotal(data, catalog), now).value)
  {
    var lookup := GetCouponByCode(coupons, code);
    if lookup.Err? then Err(lookup.error)
    else
      var rejection := CheckCoupon(lookup.value, CartTotal(data, catalog), now);
      if rejection.Some? then Err(rejection.value) else lookup
  }

  /** The items an update leaves on the order: the new lines when items were
      given, otherwise the current items. */
  function FinalItems(current: seq<OrderItem>, items: Option<seq<ItemData>>, catalog: Catalog): seq<OrderItem>
    requires items.Some? ==> ProductsKnown(items.value, catalog)
  {
    if items.Some? then NewItems(items.value, catalog) else current
  }

  /** The cart total update_order validates a new coupon against: the new
      lines' total when items are replaced, the current items' otherwise. */
  function UpdateCartTotal(order: Order, items: Option<seq<ItemData>>, catalog: Catalog): real
    requires ItemsKnown(order.items, catalog)
    requires items.Some? ==> ProductsKnown(items.value, catalog)
  {
    if items.Some? then CartTotal(items.value, catalog) else Subtotal(order.items, catalog)
  }

  /** The checks of update_order, in order: coupon lookup, then, only when
      the coupon changes, its validation against the new cart total (the new
      lines' total when items are replaced, the current items' otherwise). */
  function UpdateOrderCheck(coupons: map<string, Coupon>, catalog: Catalog, order: Order, items: Option<seq<ItemData>>, code: Option<string>, now: int): (r: Result<Option<Coupon>, OrderError>)
    requires KeyedByCode(coupons) && ItemsKnown(order.items, catalog)
    requires items.Some? ==> ProductsKnown(items.value, catalog)
    ensures r.Ok? ==> r == GetCouponByCode(coupons, code)
    ensures RequestedCoupon(code) == order.coupon ==> r == GetCouponByCode(coupons, code)
    ensures r.Ok? && r.value.Some? && Some(r.value.value.code) != order.coupon ==>
              IsValid(r.value.value, now, Some(UpdateCartTotal(order, items, catalog)))
    ensures var lookup := GetCouponByCode(coupons, code);
            r != lookup <==> lookup.Ok? && lookup.value.Some? && Some(lookup.value.value.code) != order.coupon
                             && !IsValid(lookup.value.value, now, Some(UpdateCartTotal(order, items, catalog)))
    ensures var lookup := GetCouponByCode(coupons, code);
            r != lookup ==> lookup.Ok? && r == Err(CheckCoupon(lookup.value, UpdateCartTotal(order, items, catalog), now).value)
  {
    var lookup := GetCouponByCode(coupons, code);
    if lookup.Err? then Err(lookup.error)
    else if lookup.value.Some? && Some(lookup.value.value.code) != order.coupon then
      var cartTotal := UpdateCartTotal(order, items, catalog);
      var rejection := CheckCoupon(lookup.value, cartTotal, now);
      if rejection.Some? then Err(rejection.value) else lookup
    else lookup
  }

  /** The order after update_status: the new status on the order and on
      every one of its items, nothing else changed. */
  function WithStatus(o: Order, status: string): (r: Order)
    ensures r == o.(status := status, items := r.items)
    ensures |r.items| == |o.items|
    ensures forall k :: 0 <= k < |o.items| ==> r.items[k] == o.items[k].(status := status)
  {
    o.(status := status, items := seq(|o.items|, k requires 0 <= k < |o.items| => o.items[k].(status := status)))
  }

  /** The loop of create_order and update_order that builds one item per
      request line, each with the product's current price. */
  method BuildItems(data: seq<ItemData>, catalog: Catalog) returns (items: seq<OrderItem>)
    requires ProductsKnown(data, catalog)
    ensures items == NewItems(data, catalog)
  {
    items := [];
    var i := 0;
    while i < |data|
      invariant 0 <= i <= |data|
      invariant items == NewItems(data[..i], catalog)
    {
      assert data[..i + 1][..i] == data[..i];
      items := items + [NewItem(data[i], catalog)];
      i := i + 1;
    }
    assert data[..i] == data;
  }

  /** Writing back the value a key already has leaves the map as it is. */
  lemma UpdateWithSameValue(m: map<string, Coupon>, k: string)
    requires k in m
    ensures m[k := m[k]] == m
  {
  }

  /** The usage-count writes of create_order and update_order: release the
      order's previous coupon (never below 0) and redeem the new one, when
      they differ. */
  method MoveCouponUse(db: Store, oldRef: Option<string>, newRef: Option<string>)
    requires db.Valid()
    requires oldRef.Some? ==> oldRef.value in db.coupons
    requires newRef.Some? ==> newRef.value in db.coupons
    requires newRef.Some? && newRef != oldRef ==>
               db.coupons[newRef.value].usageLimit.None? || db.coupons[newRef.value].usedCount < db.coupons[newRef.value].usageLimit.value
    modifies db`coupons
    ensures db.Valid()
    ensures db.coupons == SwapCoupon(old(db.coupons), oldRef, newRef)
  {
    SwapKeepsInvariant(db.products, db.coupons, db.orders, db.payments, db.nextOrderId, oldRef, newRef);
    ghost var before := db.coupons;
    ghost var released := if oldRef.Some? && oldRef != newRef then before[oldRef.value := Released(before[oldRef.value])] else before;
    if oldRef.Some? && oldRef != newRef {
      var previous := db.coupons[oldRef.value];
      if previous.usedCount > 0 {
        db.coupons := db.coupons[oldRef.value := Released(previous)];
      } else {
        UpdateWithSameValue(before, oldRef.value);
      }
    }
    assert db.coupons == released;
    if newRef.Some? && newRef != oldRef {
      var c := db.coupons[newRef.value];
      db.coupons := db.coupons[newRef.value := Redeemed(c)];
    }
    assert db.coupons == SwapCoupon(before, oldRef, newRef);
  }

  /** The writes of create_order once its checks passed: insert the order
      with one item per request line, compute and store its total, then
      count one use of the coupon. */
  method PlaceOrder(db: Store, user: nat, data: seq<ItemData>, coupon: Option<Coupon>, shipping: Option<nat>)
    returns (id: nat)
    requires db.Valid() && ProductsKnown(data, db.products)
    requires coupon.Some? ==> coupon.value.code in db.coupons && db.coupons[coupon.value.code] == coupon.value
    requires coupon.Some? ==> coupon.value.usageLimit.None? || coupon.value.usedCount < coupon.value.usageLimit.value
    modifies db`orders, db`coupons, db`nextOrderId
    ensures db.Valid()
    ensures id == old(db.nextOrderId) && id !in old(db.orders)
    ensures var ref := if coupon.Some? then Some(coupon.value.code) else None;
            && db.orders == old(db.orders)[id := Order(user, shipping, ref,
                 CalculatedTotal(CartTotal(data, db.products), coupon), DefaultStatus, NewItems(data, db.products))]
            && db.coupons == SwapCoupon(old(db.coupons), None, ref)
  {
    var ref := if coupon.Some? then Some(coupon.value.code) else None;
    assert CouponOf(db.coupons, ref) == coupon;
    var items := BuildItems(data, db.products);
    CartTotalIsSubtotalOfNewItems(data, db.products);
    var order := Order(user, shipping, ref, 0.0, DefaultStatus, items);
    ghost var before := db.orders;
    id := db.InsertOrder(order);
    var total := db.CalculateTotal(id);
    ghost var placed := Order(user, shipping, ref, CalculatedTotal(CartTotal(data, db.products), coupon), DefaultStatus, NewItems(data, db.products));
    assert order.(totalAmount := total) == placed;
    OverwriteTwice(before, id, order, placed);
    MoveCouponUse(db, None, ref);
  }

  /** create_order: check the coupon before any write, then place the order.
      Returns the new order's id; on an error nothing is written. */
  method CreateOrder(db: Store, user: nat, data: seq<ItemData>, code: Option<string>, shipping: Option<nat>, now: int)
    returns (r: Result<nat, OrderError>)
    requires db.Valid() && ProductsKnown(data, db.products)
    modifies db`orders, db`coupons, db`nextOrderId
    ensures db.Valid()
    ensures var check := CreateOrderCheck(old(db.coupons), db.products, data, code, now);
            && (r.Err? <==> check.Err?)
            && (r.Err? ==> r == Err(check.error))
    ensures r.Err? ==> db.orders == old(db.orders) && db.coupons == old(db.coupons) && db.nextOrderId == old(db.nextOrderId)
    ensures r.Ok? ==>
              var coupon := CreateOrderCheck(old(db.coupons), db.products, data, code, now).value;
              var ref := RequestedCoupon(code);
              && r.value == old(db.nextOrderId) && r.value !in old(db.orders)
              && db.orders == old(db.orders)[r.value := Order(user, shipping, ref,
                   CalculatedTotal(CartTotal(data, db.products), coupon), DefaultStatus, NewItems(data, db.products))]
              && db.coupons == SwapCoupon(old(db.coupons), None, ref)
  {
    var lookup := GetCouponByCode(db.coupons, code);
    if lookup.Err? {
      return Err(lookup.error);
    }
    var coupon := lookup.value;
    var cartTotal := CartTotal(data, db.products);
    var rejection := CheckCoupon(coupon, cartTotal, now);
    if rejection.Some? {
      return Err(rejection.value);
    }
    assert CreateOrderCheck(db.coupons, db.products, data, code, now) == Ok(coupon);
    var id := PlaceOrder(db, user, data, coupon, shipping);
    r := Ok(id);
  }

  /** The writes of update_order once its checks passed: move one use from
      the old coupon to the new one when they differ, set the coupon and
      (when given) the shipping address, replace the items when given, and
      recompute the total. */
  method ApplyOrderUpdate(db: Store, id: nat, items: Option<seq<ItemData>>, newCoupon: Option<Coupon>, shipping: Option<Option<nat>>)
    requires db.Valid() && id in db.orders
    requires items.Some? ==> ProductsKnown(items.value, db.products)
    requires newCoupon.Some? ==> newCoupon.value.code in db.coupons && db.coupons[newCoupon.value.code] == newCoupon.value
    requires newCoupon.Some? && Some(newCoupon.value.code) != db.orders[id].coupon ==>
               newCoupon.value.usageLimit.None? || newCoupon.value.usedCount < newCoupon.value.usageLimit.value
    modifies db`orders, db`coupons
    ensures db.Valid()
    ensures var o := old(db.orders[id]);
            var ref := if newCoupon.Some? then Some(newCoupon.value.code) else None;
            var finalItems := FinalItems(o.items, items, db.products);
            && ItemsKnown(finalItems, db.products)
            && db.coupons == SwapCoupon(old(db.coupons), o.coupon, ref)
            && db.orders == old(db.orders)[id := o.(
                 coupon := ref,
                 shippingAddress := if shipping.Some? then shipping.value else o.shippingAddress,
                 items := finalItems,
                 totalAmount := CalculatedTotal(Subtotal(finalItems, db.products), CouponOf(old(db.coupons), ref)))]
  {
    var order := db.orders[id];
    var newRef := if newCoupon.Some? then Some(newCoupon.value.code) else None;
    ghost var before := db.coupons;
    MoveCouponUse(db, order.coupon, newRef);
    var newItems := order.items;
    if items.Some? {
      newItems := BuildItems(items.value, db.products);
    }
    var updated := order.(
      coupon := newRef,
      shippingAddress := if shipping.Some? then shipping.value else order.shippingAddress,
      items := newItems);
    ghost var ordersBefore := db.orders;
    db.ReplaceOrder(id, updated);
    SwapKeepsDiscounts(before, order.coupon, newRef, newRef, Subtotal(newItems, db.products));
    var total := db.CalculateTotal(id);
    ghost var final := updated.(totalAmount := CalculatedTotal(Subtotal(newItems, db.products), CouponOf(before, newRef)));
    assert updated.(totalAmount := total) == final;
    OverwriteTwice(ordersBefore, id, updated, final);
  }

  /** update_order: resolve the requested coupon (an omitted coupon means
      none), validate it only if it differs from the order's, then apply the
      update. On an error nothing is written. */
  method UpdateOrder(db: Store, id: nat, items: Option<seq<ItemData>>, code: Option<string>, shipping: Option<Option<nat>>, now: int)
    returns (r: Result<(), OrderError>)
    requires db.Valid() && id in db.orders
    requires items.Some? ==> ProductsKnown(items.value, db.products)
    modifies db`orders, db`coupons
    ensures db.Valid()
    ensures var check := UpdateOrderCheck(old(db.coupons), db.products, old(db.orders[id]), items, code, now);
            && (r.Err? <==> check.Err?)
            && (r.Err? ==> r == Err(check.error))
    ensures r.Err? ==> db.orders == old(db.orders) && db.coupons == old(db.coupons)
    ensures r.Ok? ==>
              var o := old(db.orders[id]);
              var ref := RequestedCoupon(code);
              var finalItems := FinalItems(o.items, items, db.products);
              && ItemsKnown(finalItems, db.products)
              && db.coupons == SwapCoupon(old(db.coupons), o.coupon, ref)
              && db.orders == old(db.orders)[id := o.(
                   coupon := ref,
                   shippingAddress := if shipping.Some? then shipping.value else o.shippingAddress,
                   items := finalItems,
                   totalAmount := CalculatedTotal(Subtotal(finalItems, db.products), CouponOf(old(db.coupons), ref)))]
  {
    var order := db.orders[id];
    var lookup := GetCouponByCode(db.coupons, code);
    if lookup.Err? {
      return Err(lookup.error);
    }
    var newCoupon := lookup.value;
    var cartTotal := if items.Some? then CartTotal(items.value, db.products) else Subtotal(order.items, db.products);
    var newRef := if newCoupon.Some? then Some(newCoupon.value.code) else None;
    if newCoupon.Some? && newRef != order.coupon {
      var rejection := CheckCoupon(newCoupon, cartTotal, now);
      if rejection.Some? {
        return Err(rejection.value);
      }
    }
    assert UpdateOrderCheck(db.coupons, db.products, order, items, code, now) == Ok(newCoupon);
    ApplyOrderUpdate(db, id, items, newCoupon, shipping);
    r := Ok(());
  }

  /** update_order_status: a status outside STATUS_CHOICES is a ValueError
      and changes nothing; otherwise the order and all of its items take
      the new status. */
  method UpdateOrderStatus(db: Store, id: nat, status: string) returns (r: Result<(), OrderError>)
    requires db.Valid() && id in db.orders
    modifies db`orders
    ensures db.Valid()
    ensures !IsStatusChoice(status) ==> r == Err(InvalidStatus(status)) && db.orders == old(db.orders)
    ensures IsStatusChoice(status) ==> r == Ok(()) && db.orders == old(db.orders)[id := WithStatus(old(db.orders[id]), status)]
  {
    if status !in StatusChoices {
      return Err(InvalidStatus(status));
    }
    db.orders := db.orders[id := WithStatus(db.orders[id], status)];
    r := Ok(());
  }
}
