/** Coupons: the coupon record, its validity rule (Coupon.is_valid) and the
    lookup-then-check service (validate_coupon).

    Times are integers on one clock (the caller passes `now`); money is exact
    decimal, modelled as `real`. */
module Coupons {
  import opened Common

  const PercentType: string := "percent"
  const FixedType: string := "fixed"

  /** A coupon row. The discount type is stored as the string it was given:
      "percent" and "fixed" are the declared choices, and pricing treats any
      other string as "no discount". A null usage limit is `None`. */
  datatype Coupon = Coupon(
    code: string,
    discountType: string,
    discountValue: real,
    validFrom: int,
    validTo: int,
    minCartValue: real,
    active: bool,
    usageLimit: Option<nat>,
    usedCount: nat)

  /** The coupon table is keyed by code, and the code column is unique, so
      every row sits under its own code. */
  ghost predicate KeyedByCode(coupons: map<string, Coupon>) {
    forall k :: k in coupons ==> coupons[k].code == k
  }

  /** Coupon.is_valid(cart_total) at instant `now`; `cartTotal` is None when
      the method is called without a cart total. */
  predicate IsValid(c: Coupon, now: int, cartTotal: Option<real>) {
    var valid := c.active
                 && c.validFrom <= now <= c.validTo
                 && (c.usageLimit.None? || c.usedCount < c.usageLimit.value);
    if cartTotal.Some? then valid && cartTotal.value >= c.minCartValue else valid
  }

  /** An inactive coupon is never valid, with or without a cart total. */
  lemma InactiveNeverValid(c: Coupon, now: int, cartTotal: Option<real>)
    requires !c.active
    ensures !IsValid(c, now, cartTotal)
  {
  }

  /** The validity window is closed at both ends: for an active coupon under
      its usage limit, validity without a cart total is exactly
      valid_from <= now <= valid_to. */
  lemma WindowIsInclusive(c: Coupon, now: int)
    requires c.active && (c.usageLimit.None? || c.usedCount < c.usageLimit.value)
    ensures IsValid(c, now, None) <==> c.validFrom <= now <= c.validTo
    ensures c.validFrom <= c.validTo ==> IsValid(c, c.validFrom, None) && IsValid(c, c.validTo, None)
    ensures !IsValid(c, c.validFrom - 1, None) && !IsValid(c, c.validTo + 1, None)
  {
  }

  /** A null usage limit never restricts; a set one admits exactly the
      counts strictly below it. */
  lemma UsageLimitRule(c: Coupon, now: int)
    requires c.active && c.validFrom <= now <= c.validTo
    ensures c.usageLimit.None? ==> IsValid(c, now, None)
    ensures c.usageLimit.Some? ==> (IsValid(c, now, None) <==> c.usedCount < c.usageLimit.value)
  {
  }

  /** Passing a cart total only adds the minimum-cart condition, and that
      condition is inclusive: a total equal to min_cart_value passes. So
      validity with a total implies validity without one. */
  lemma CartTotalAddsOnlyMinimum(c: Coupon, now: int, total: real)
    ensures IsValid(c, now, Some(total)) <==> IsValid(c, now, None) && total >= c.minCartValue
    ensures IsValid(c, now, Some(total)) ==> IsValid(c, now, None)
    ensures IsValid(c, now, None) ==> IsValid(c, now, Some(c.minCartValue))
  {
  }

  // ---------------------------------------------------------------------
  // apps/coupons/services.py: validate_coupon
  // ---------------------------------------------------------------------

  const InvalidCodeMessage: string := "Invalid coupon code."
  const NotValidMessage: string := "Coupon is not valid or expired."

  /** validate_coupon(code): look the coupon up by its exact code, then check
      it with is_valid() (no cart total). An error is the ValidationError's
      message. */
  function ValidateCoupon(coupons: map<string, Coupon>, code: string, now: int): (r: Result<Coupon, string>)
    requires KeyedByCode(coupons)
    ensures r == Err(InvalidCodeMessage) <==> code !in coupons
    ensures r == Err(NotValidMessage) <==> code in coupons && !IsValid(coupons[code], now, None)
    ensures r.Ok? <==> code in coupons && IsValid(coupons[code], now, None)
    ensures r.Ok? ==> r.value.code == code && r.value == coupons[code]
  {
    if code !in coupons then Err(InvalidCodeMessage)
    else if !IsValid(coupons[code], now, None) then Err(NotValidMessage)
    else Ok(coupons[code])
  }

  /** validate_coupon never looks at the minimum cart value: changing it
      changes nothing about the outcome except the returned row itself. */
  lemma ValidateCouponIgnoresMinimum(coupons: map<string, Coupon>, code: string, now: int, minimum: real)
    requires KeyedByCode(coupons) && code in coupons
    ensures var changed := coupons[code := coupons[code].(minCartValue := minimum)];
            KeyedByCode(changed) && ValidateCoupon(changed, code, now).Ok? == ValidateCoupon(coupons, code, now).Ok?
  {
  }
}
