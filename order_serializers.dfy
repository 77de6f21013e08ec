/** The checks the order serializer applies to a request before the service
    sees it (apps/orders/serializers.py): normalising the coupon code,
    requiring items and a shipping address, and the coupon summary shown
    when an order is read. */
module OrderSerializers {
  import opened Common
  import opened Coupons
  import opened OrderModels
  import opened OrderStore
  import opened OrderService

  /** The raw value given for the coupon field. */
  datatype CouponInput = Null | Text(s: string) | NotText

  /** The two ValidationErrors of validate_coupon. */
  datatype CouponCodeError = NotAString | EmptyCode

  function CouponCodeMessage(e: CouponCodeError): string {
    match e
    case NotAString => "Coupon must be a string code"
    case EmptyCode => "Coupon code cannot be empty"
  }

  predicate IsLower(c: char) {
    'a' <= c <= 'z'
  }

  /** str.upper() on one character, for the ASCII letters. */
  function UpperChar(c: char): (u: char)
    ensures !IsLower(u)
    ensures IsSpace(u) <==> IsSpace(c)
    ensures !IsLower(c) ==> u == c
  {
    if IsLower(c) then (c as int - 32) as char else c
  }

  /** str.upper(): every lower-case letter replaced by its capital. */
  function Upper(s: string): (r: string)
    ensures |r| == |s|
    ensures forall k :: 0 <= k < |s| ==> r[k] == UpperChar(s[k])
  {
    if s == [] then [] else [UpperChar(s[0])] + Upper(s[1..])
  }

  /** A string with no lower-case letter is its own upper(). */
  lemma UpperFixesUpperCase(s: string)
    requires forall k :: 0 <= k < |s| ==> !IsLower(s[k])
    ensures Upper(s) == s
  {
  }

  /** upper() is idempotent. */
  lemma UpperIdempotent(s: string)
    ensures Upper(Upper(s)) == Upper(s)
  {
    UpperFixesUpperCase(Upper(s));
  }

  /** Upper-casing keeps a string non-empty and keeps its ends
      non-whitespace, and leaves no lower-case letter. */
  lemma UpperKeepsEnds(t: string)
    requires t != [] && !IsSpace(t[0]) && !IsSpace(t[|t| - 1])
    ensures var c := Upper(t);
            && c != [] && !IsSpace(c[0]) && !IsSpace(c[|c| - 1])
            && forall k :: 0 <= k < |c| ==> !IsLower(c[k])
  {
  }

  /** value.strip().upper() for a value that is not all whitespace: a
      non-empty code with no surrounding whitespace and no lower-case
      letter. */
  function NormaliseCode(s: string): (c: string)
    requires !AllSpace(s)
    ensures c == Upper(Strip(s))
    ensures c != [] && !IsSpace(c[0]) && !IsSpace(c[|c| - 1])
    ensures forall k :: 0 <= k < |c| ==> !IsLower(c[k])
  {
    StripNotBlank(s);
    UpperKeepsEnds(Strip(s));
    Upper(Strip(s))
  }

  /** validate_coupon: None and "" mean no coupon; a value that is not a
      string, or a string of only whitespace, is a ValidationError;
      otherwise the code is stripped and upper-cased. */
  function ValidateCouponCode(v: CouponInput): (r: Result<Option<string>, CouponCodeError>)
    ensures r == Ok(None) <==> v.Null? || v == Text("")
    ensures r == Err(NotAString) <==> v.NotText?
    ensures r == Err(EmptyCode) <==> v.Text? && v.s != "" && AllSpace(v.s)
    ensures r.Ok? && r.value.Some? ==> v.Text? && !AllSpace(v.s) && r.value.value == NormaliseCode(v.s)
  {
    match v
    case Null => Ok(None)
    case NotText => Err(NotAString)
    case Text(s) =>
      StripEmptyIffAllSpace(s);
      if s == "" then Ok(None)
      else if Strip(s) == "" then Err(EmptyCode)
      else Ok(Some(NormaliseCode(s)))
  }

  /** A code with no surrounding whitespace and no lower-case letter is
      left as it is by strip().upper(). */
  lemma NormalisedIsFixed(c: string)
    requires c != [] && !IsSpace(c[0]) && !IsSpace(c[|c| - 1])
    requires forall k :: 0 <= k < |c| ==> !IsLower(c[k])
    ensures Upper(Strip(c)) == c
  {
    StripFixed(c);
    UpperFixesUpperCase(c);
  }

  /** A normalised code is not all whitespace and normalises to itself. */
  lemma NormaliseCodeIdempotent(s: string)
    requires !AllSpace(s)
    ensures !AllSpace(NormaliseCode(s)) && NormaliseCode(NormaliseCode(s)) == NormaliseCode(s)
  {
    var c := NormaliseCode(s);
    assert !IsSpace(c[0]);
    NormalisedIsFixed(c);
  }

  /** Validating a normalised code again returns it unchanged. */
  lemma ValidateCouponCodeIdempotent(v: CouponInput)
    requires ValidateCouponCode(v).Ok?
    ensures var r := ValidateCouponCode(v).value;
            r.Some? ==> ValidateCouponCode(Text(r.value)) == Ok(r)
  {
    var r := ValidateCouponCode(v).value;
    if r.Some? {
      NormaliseCodeIdempotent(v.s);
      var c := r.value;
      assert c != "" && !AllSpace(c);
      assert ValidateCouponCode(Text(c)) == Ok(Some(NormaliseCode(c)));
    }
  }

  /** Every code the serializer hands on is one the service looks up as it
      is: it is never the empty string the service would read as "no
      coupon". */
  lemma NormalisedCodeIsLookedUp(v: CouponInput)
    requires ValidateCouponCode(v).Ok?
    ensures RequestedCoupon(ValidateCouponCode(v).value) == ValidateCouponCode(v).value
  {
  }

  /** The fields of an order request that validate looks at: the item list
      (None when the key is absent) and whether a shipping address key is
      present. */
  datatype OrderInput = OrderInput(items: Option<seq<ItemData>>, hasShippingAddress: bool)

  /** A ValidationError keyed by the field it is about. */
  datatype FieldError = FieldError(field: string, message: string)

  const ItemsRequired: FieldError := FieldError("items", "At least one item is required")
  const ShippingRequired: FieldError := FieldError("shipping_address", "Shipping address is required")

  /** validate: at least one item, then a shipping address. */
  function ValidateOrder(data: OrderInput): (r: Result<OrderInput, FieldError>)
    ensures r == Err(ItemsRequired) <==> data.items.None? || data.items.value == []
    ensures r == Err(ShippingRequired) <==> data.items.Some? && data.items.value != [] && !data.hasShippingAddress
    ensures r.Ok? <==> data.items.Some? && data.items.value != [] && data.hasShippingAddress
    ensures r.Ok? ==> r.value == data
  {
    if data.items.None? || data.items.value == [] then Err(ItemsRequired)
    else if !data.hasShippingAddress then Err(ShippingRequired)
    else Ok(data)
  }

  /** The coupon summary of a read order. The source renders the two
      amounts with str() of the Decimal column (such as "10.00"); the model
      keeps them as the numbers rendered, not as text. */
  datatype CouponDetails = CouponDetails(code: string, discountType: string, discountValue: real, minCartValue: real)

  /** get_coupon_details of the order's coupon row. */
  function GetCouponDetails(coupon: Option<Coupon>): (r: Option<CouponDetails>)
    ensures r.None? <==> coupon.None?
    ensures r.Some? ==> r.value.code == coupon.value.code && r.value.discountType == coupon.value.discountType
    ensures r.Some? ==> r.value.discountValue == coupon.value.discountValue && r.value.minCartValue == coupon.value.minCartValue
  {
    if coupon.Some? then
      Some(CouponDetails(coupon.value.code, coupon.value.discountType, coupon.value.discountValue, coupon.value.minCartValue))
    else None
  }

  /** In a consistent store an order shows coupon details exactly when it
      has a coupon, and they are that coupon's. */
  lemma DetailsExactlyWithCoupon(o: Order, products: Catalog, coupons: map<string, Coupon>)
    requires OrderWellFormed(o, products, coupons) && KeyedByCode(coupons)
    ensures GetCouponDetails(CouponOf(coupons, o.coupon)).None? <==> o.coupon.None?
    ensures o.coupon.Some? ==> GetCouponDetails(CouponOf(coupons, o.coupon)).value.code == o.coupon.value
  {
  }
}
