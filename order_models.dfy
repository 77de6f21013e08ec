/** Orders and order items as records (apps/orders/models.py): the status
    vocabulary, the price snapshot an item keeps, the item's line total, and
    the pricing rule of Order.calculate_total as functions. The method that
    writes the computed total into the order table lives in OrderStore. */
module OrderModels {
  import opened Common
  import opened Coupons

  /** The five values of STATUS_CHOICES, the only ones update_order_status
      accepts. */
  const StatusChoices: seq<string> := ["PENDING", "PROCESSING", "SHIPPED", "DELIVERED", "CANCELLED"]
  const DefaultStatus: string := "PENDING"
  const Delivered: string := "DELIVERED"

  /** Written directly by the payment views although they are not among the
      choices; the status column is an open string. */
  const Paid: string := "paid"
  const AwaitingPayment: string := "awaiting_payment"
  const PaymentFailed: string := "payment_failed"

  predicate IsStatusChoice(s: string) {
    s in StatusChoices
  }

  /** The payment statuses are outside STATUS_CHOICES. */
  lemma PaymentStatusesAreNotChoices()
    ensures !IsStatusChoice(Paid) && !IsStatusChoice(AwaitingPayment) && !IsStatusChoice(PaymentFailed)
    ensures IsStatusChoice(DefaultStatus) && IsStatusChoice(Delivered)
  {
  }

  /** Product catalog: product id to its current price. */
  type Catalog = map<nat, real>

  /** One line of an order request: a product and how many of it. */
  datatype ItemData = ItemData(product: nat, quantity: nat)

  datatype OrderItem = OrderItem(product: nat, quantity: nat, pricePerUnit: real, status: string)

  /** An order row together with the items that belong to it. `coupon` is the
      code of the applied coupon (codes are unique, so the code identifies
      the row). */
  datatype Order = Order(
    user: nat,
    shippingAddress: Option<nat>,
    coupon: Option<string>,
    totalAmount: real,
    status: string,
    items: seq<OrderItem>)

  /** OrderItem.total_price: the line total at the snapshotted unit price. */
  function TotalPrice(item: OrderItem): real {
    item.quantity as real * item.pricePerUnit
  }

  /** OrderItem.save: on the first save (no primary key yet) the product's
      current price is copied into price_per_unit; later saves keep it. */
  function SaveItem(item: OrderItem, isNew: bool, livePrice: real): (r: OrderItem)
    ensures r.product == item.product && r.quantity == item.quantity && r.status == item.status
    ensures isNew ==> r.pricePerUnit == livePrice
    ensures !isNew ==> r == item
  {
    if isNew then item.(pricePerUnit := livePrice) else item
  }

  /** Once saved, an item's price and line total stay those of the product's
      price at creation, whatever the product's price is at later saves. */
  lemma SnapshotSurvivesResave(item: OrderItem, createdAt: real, later: seq<real>)
    ensures var saved := SaveItem(item, true, createdAt);
            ResaveAll(saved, later).pricePerUnit == createdAt
            && TotalPrice(ResaveAll(saved, later)) == item.quantity as real * createdAt
  {
    var saved := SaveItem(item, true, createdAt);
    ResaveKeepsItem(saved, later);
  }

  /** The item after one further save at each of the given product prices. */
  function ResaveAll(item: OrderItem, prices: seq<real>): OrderItem {
    if prices == [] then item else ResaveAll(SaveItem(item, false, prices[0]), prices[1..])
  }

  lemma {:induction false} ResaveKeepsItem(item: OrderItem, prices: seq<real>)
    ensures ResaveAll(item, prices) == item
  {
    if prices != [] {
      ResaveKeepsItem(SaveItem(item, false, prices[0]), prices[1..]);
    }
  }

  /** The item an order creation builds for one request line: the product's
      current price as the snapshot, and the default status. */
  function NewItem(d: ItemData, catalog: Catalog): (r: OrderItem)
    requires d.product in catalog
    ensures r == SaveItem(OrderItem(d.product, d.quantity, 0.0, DefaultStatus), true, catalog[d.product])
  {
    OrderItem(d.product, d.quantity, catalog[d.product], DefaultStatus)
  }

  predicate ProductsKnown(data: seq<ItemData>, catalog: Catalog) {
    forall k :: 0 <= k < |data| ==> data[k].product in catalog
  }

  predicate ItemsKnown(items: seq<OrderItem>, catalog: Catalog) {
    forall k :: 0 <= k < |items| ==> items[k].product in catalog
  }

  /** The items created for a list of request lines, in order. */
  function NewItems(data: seq<ItemData>, catalog: Catalog): (r: seq<OrderItem>)
    requires ProductsKnown(data, catalog)
    ensures |r| == |data|
    ensures forall k :: 0 <= k < |data| ==> r[k] == NewItem(data[k], catalog)
  {
    if data == [] then [] else NewItems(data[..|data| - 1], catalog) + [NewItem(data[|data| - 1], catalog)]
  }

  /** The sum in calculate_total: product.price × quantity over the items, at
      the catalog's CURRENT prices (not the items' snapshots). */
  function Subtotal(items: seq<OrderItem>, catalog: Catalog): real
    requires ItemsKnown(items, catalog)
  {
    if items == [] then 0.0
    else Subtotal(items[..|items| - 1], catalog) + catalog[items[|items| - 1].product] * items[|items| - 1].quantity as real
  }

  /** The subtotal depends only on the products and quantities: the
      snapshots and statuses of the items play no part. */
  lemma {:induction false} SubtotalIgnoresSnapshots(a: seq<OrderItem>, b: seq<OrderItem>, catalog: Catalog)
    requires ItemsKnown(a, catalog) && |a| == |b|
    requires forall k :: 0 <= k < |a| ==> a[k].product == b[k].product && a[k].quantity == b[k].quantity
    ensures ItemsKnown(b, catalog) && Subtotal(a, catalog) == Subtotal(b, catalog)
  {
    if a != [] {
      SubtotalIgnoresSnapshots(a[..|a| - 1], b[..|b| - 1], catalog);
    }
  }

  /** The amount a coupon takes off a subtotal: a percentage of it, a fixed
      amount, or nothing (no coupon, or a discount type other than the two
      known ones). */
  function Discount(subtotal: real, coupon: Option<Coupon>): real {
    if coupon.None? then 0.0
    else if coupon.value.discountType == PercentType then subtotal * coupon.value.discountValue / 100.0
    else if coupon.value.discountType == FixedType then coupon.value.discountValue
    else 0.0
  }

  /** The value Order.calculate_total computes from the subtotal and the
      order's coupon: the discounted subtotal, or 0 when that is negative. */
  function CalculatedTotal(subtotal: real, coupon: Option<Coupon>): (r: real)
    ensures r >= 0.0
    ensures r >= subtotal - Discount(subtotal, coupon)
    ensures r == 0.0 || r == subtotal - Discount(subtotal, coupon)
  {
    var total :=
      if coupon.Some? && coupon.value.discountType == PercentType then subtotal - subtotal * coupon.value.discountValue / 100.0
      else if coupon.Some? && coupon.value.discountType == FixedType then subtotal - coupon.value.discountValue
      else subtotal;
    if total < 0.0 then 0.0 else total
  }

  /** With no coupon (or an unknown discount type) a non-negative subtotal is
      the total. */
  lemma NoDiscountKeepsSubtotal(subtotal: real, coupon: Option<Coupon>)
    requires subtotal >= 0.0
    requires coupon.None? || (coupon.value.discountType != PercentType && coupon.value.discountType != FixedType)
    ensures CalculatedTotal(subtotal, coupon) == subtotal
  {
  }

  /** A non-negative discount never raises the total above the subtotal, and
      a percentage of at most 100 never has to be clamped. */
  lemma DiscountBounds(subtotal: real, c: Coupon)
    requires subtotal >= 0.0 && c.discountValue >= 0.0
    ensures CalculatedTotal(subtotal, Some(c)) <= subtotal
    ensures c.discountType == PercentType && c.discountValue <= 100.0 ==>
              CalculatedTotal(subtotal, Some(c)) == subtotal * (100.0 - c.discountValue) / 100.0
  {
  }

  /** Worked examples: 20 percent off 100 is 80; a fixed 50 off 10 clamps to 0. */
  lemma PricingExamples(c: Coupon)
    ensures CalculatedTotal(100.0, Some(c.(discountType := PercentType, discountValue := 20.0))) == 80.0
    ensures CalculatedTotal(10.0, Some(c.(discountType := FixedType, discountValue := 50.0))) == 0.0
  {
  }
}
