/** The shopping cart (apps/cart/services.py): one row per (user, product)
    holding a quantity, with add, remove and set-quantity operations.

    The quantity column is a non-negative 32-bit integer: a write outside
    0..MaxQuantity is refused by the database and changes nothing. */
module Cart {
  import opened Common

  const MaxQuantity: int := 2147483647

  /** The quantity add_cart_item uses when the caller gives none. */
  const DefaultQuantity: int := 1

  /** The row key. add_cart_item never creates a second row for a pair
      that already has one; the schema itself does not enforce this. */
  datatype CartKey = CartKey(user: nat, product: nat)

  datatype CartError =
    | NotFound          // get_object_or_404: no row for the pair
    | QuantityRejected  // the quantity column refuses the value

  predicate Storable(q: int) {
    0 <= q <= MaxQuantity
  }

  /** Every stored quantity fits the column. */
  predicate ValidCart(items: map<CartKey, int>) {
    forall k :: k in items ==> Storable(items[k])
  }

  /** add_cart_item: a new row with the given quantity, or the existing row
      with the quantity added to it. */
  function AddItem(items: map<CartKey, int>, key: CartKey, quantity: int): (r: Result<map<CartKey, int>, CartError>)
    ensures key !in items ==> (r.Ok? <==> Storable(quantity))
    ensures key in items ==> (r.Ok? <==> Storable(items[key] + quantity))
    ensures r.Err? ==> r.error == QuantityRejected
    ensures r.Ok? ==> r.value.Keys == items.Keys + {key}
    ensures r.Ok? ==> r.value[key] == (if key in items then items[key] else 0) + quantity
    ensures r.Ok? ==> forall k :: k in items && k != key ==> r.value[k] == items[k]
  {
    var q := if key in items then items[key] + quantity else quantity;
    if Storable(q) then Ok(items[key := q]) else Err(QuantityRejected)
  }

  /** remove_cart_item: delete the row, 404 when there is none. */
  function RemoveItem(items: map<CartKey, int>, key: CartKey): (r: Result<map<CartKey, int>, CartError>)
    ensures r.Err? <==> key !in items
    ensures r.Err? ==> r.error == NotFound
    ensures r.Ok? ==> r.value.Keys == items.Keys - {key}
    ensures r.Ok? ==> forall k :: k in r.value ==> r.value[k] == items[k]
  {
    if key in items then Ok(items - {key}) else Err(NotFound)
  }

  /** update_cart_item_quantity: 404 when there is no row; a quantity of 0
      or less deletes the row, any other sets it. */
  function UpdateItem(items: map<CartKey, int>, key: CartKey, quantity: int): (r: Result<map<CartKey, int>, CartError>)
    ensures key !in items ==> r == Err(NotFound)
    ensures key in items && quantity <= 0 ==> r == Ok(items - {key})
    ensures key in items && quantity > 0 ==>
              (r.Ok? <==> quantity <= MaxQuantity) && (r.Ok? ==> r.value == items[key := quantity])
  {
    if key !in items then Err(NotFound)
    else if quantity <= 0 then Ok(items - {key})
    else if Storable(quantity) then Ok(items[key := quantity])
    else Err(QuantityRejected)
  }

  /** Every cart operation keeps the quantities storable. */
  lemma OperationsKeepCartValid(items: map<CartKey, int>, key: CartKey, quantity: int)
    requires ValidCart(items)
    ensures AddItem(items, key, quantity).Ok? ==> ValidCart(AddItem(items, key, quantity).value)
    ensures RemoveItem(items, key).Ok? ==> ValidCart(RemoveItem(items, key).value)
    ensures UpdateItem(items, key, quantity).Ok? ==> ValidCart(UpdateItem(items, key, quantity).value)
  {
  }

  /** Adding a product with the default quantity to a cart without it
      creates its row with quantity 1 and touches nothing else. */
  lemma DefaultAddCreatesSingleUnit(items: map<CartKey, int>, key: CartKey)
    requires key !in items
    ensures AddItem(items, key, DefaultQuantity) == Ok(items[key := 1])
  {
  }

  /** Two adds to the same row are one add of the sum. */
  lemma AddsAccumulate(items: map<CartKey, int>, key: CartKey, a: int, b: int)
    requires AddItem(items, key, a).Ok?
    requires AddItem(AddItem(items, key, a).value, key, b).Ok?
    ensures AddItem(items, key, a + b) == AddItem(AddItem(items, key, a).value, key, b)
  {
    var once := AddItem(items, key, a).value;
    var twice := AddItem(once, key, b).value;
    assert twice == items[key := (if key in items then items[key] else 0) + a + b];
  }

  /** Removing a row that an add just created restores the cart. */
  lemma RemoveUndoesNewAdd(items: map<CartKey, int>, key: CartKey, quantity: int)
    requires key !in items && Storable(quantity)
    ensures RemoveItem(AddItem(items, key, quantity).value, key) == Ok(items)
  {
    assert items[key := quantity] - {key} == items;
  }

  /** Setting a row to 0 or less is removing it. */
  lemma UpdateToNothingIsRemove(items: map<CartKey, int>, key: CartKey, quantity: int)
    requires quantity <= 0
    ensures UpdateItem(items, key, quantity) == RemoveItem(items, key)
  {
  }

  /** The cart table, one quantity per (user, product). */
  class CartTable {
    var items: map<CartKey, int>

    ghost predicate Valid()
      reads this
    {
      ValidCart(items)
    }

    constructor ()
      ensures Valid() && items == map[]
    {
      items := map[];
    }

    /** add_cart_item: get_or_create the row with the given quantity as its
        default, and add the quantity when the row already existed. Returns
        the row's quantity. */
    method Add(user: nat, product: nat, quantity: int) returns (r: Result<int, CartError>)
      requires Valid()
      modifies this
      ensures Valid()
      ensures var spec := AddItem(old(items), CartKey(user, product), quantity);
              && (r.Ok? <==> spec.Ok?)
              && (spec.Ok? ==> items == spec.value && r.value == items[CartKey(user, product)])
              && (spec.Err? ==> items == old(items) && r == Err(spec.error))
    {
      var key := CartKey(user, product);
      if key !in items {
        if !Storable(quantity) {
          return Err(QuantityRejected);
        }
        items := items[key := quantity];
      } else {
        var q := items[key] + quantity;
        if !Storable(q) {
          return Err(QuantityRejected);
        }
        items := items[key := q];
      }
      r := Ok(items[key]);
    }

    /** remove_cart_item. */
    method Remove(user: nat, product: nat) returns (r: Result<bool, CartError>)
      requires Valid()
      modifies this
      ensures Valid()
      ensures var spec := RemoveItem(old(items), CartKey(user, product));
              && (r.Ok? <==> spec.Ok?)
              && (spec.Ok? ==> items == spec.value && r.value)
              && (spec.Err? ==> items == old(items) && r == Err(NotFound))
    {
      var key := CartKey(user, product);
      if key !in items {
        return Err(NotFound);
      }
      items := items - {key};
      r := Ok(true);
    }

    /** update_cart_item_quantity. Returns the quantity the row was given
        (the deleted row keeps its last quantity in memory). */
    method Update(user: nat, product: nat, quantity: int) returns (r: Result<int, CartError>)
      requires Valid()
      modifies this
      ensures Valid()
      ensures var spec := UpdateItem(old(items), CartKey(user, product), quantity);
              && (r.Ok? <==> spec.Ok?)
              && (spec.Ok? ==> items == spec.value)
              && (spec.Ok? && quantity > 0 ==> r.value == quantity)
              && (spec.Ok? && quantity <= 0 ==> r.value == old(items)[CartKey(user, product)])
              && (spec.Err? ==> items == old(items) && r == Err(spec.error))
    {
      var key := CartKey(user, product);
      if key !in items {
        return Err(NotFound);
      }
      var previous := items[key];
      if quantity <= 0 {
        items := items - {key};
        r := Ok(previous);
      } else {
        if !Storable(quantity) {
          return Err(QuantityRejected);
        }
        items := items[key := quantity];
        r := Ok(quantity);
      }
    }
  }
}
