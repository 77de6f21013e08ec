/** Who may post a product review (apps/reviews/permissions.py): reads are
    open; a write needs a signed-in user, a usable product id in the request
    and a delivered order item of that product in one of the user's orders.
    Each refusal leaves its own message on the permission object. */
module ReviewPermissions {
  import opened Common
  import opened OrderModels

  /** The request's "product" value as parsed from the body. */
  datatype ProductParam =
    | Missing                        // key absent, or null
    | Flag(b: bool)
    | Integer(i: int)
    | Decimal(x: real)               // a finite JSON number with a fraction
    | Text(s: string)
    | Container(isEmpty: bool)       // a JSON array or object

  const SafeMethods: set<string> := {"GET", "HEAD", "OPTIONS"}

  const DefaultMessage: string := "You cannot review this product."
  const LoginMessage: string := "You must be logged in to review products."
  const ProductRequiredMessage: string := "Product ID is required to post a review."
  const InvalidProductMessage: string := "Invalid product ID."
  const NotDeliveredMessage: string := "You can only review products " + "after they are delivered."

  /** Python truthiness of the value: `not product_id`. */
  predicate Falsy(p: ProductParam) {
    match p
    case Missing => true
    case Flag(b) => !b
    case Integer(i) => i == 0
    case Decimal(x) => x == 0.0
    case Text(s) => s == ""
    case Container(isEmpty) => isEmpty
  }

  // ---------------------------------------------------------------------
  // int() of a string
  // ---------------------------------------------------------------------

  /** Decimal digits, optionally grouped by single underscores between
      digits, as int() accepts them. */
  predicate DigitGroups(s: string) {
    && s != []
    && IsDigit(s[0]) && IsDigit(s[|s| - 1])
    && (forall k :: 0 <= k < |s| ==> IsDigit(s[k]) || s[k] == '_')
    && (forall k :: 0 <= k < |s| - 1 ==> !(s[k] == '_' && s[k + 1] == '_'))
  }

  /** The digits of s with the underscores removed. */
  function Ungrouped(s: string): (d: string)
    requires forall k :: 0 <= k < |s| ==> IsDigit(s[k]) || s[k] == '_'
    ensures AllDigits(d) && |d| <= |s|
    ensures AllDigits(s) ==> d == s
  {
    if s == [] then []
    else
      var front := Ungrouped(s[..|s| - 1]);
      if s[|s| - 1] == '_' then front else front + [s[|s| - 1]]
  }

  /** What int() reads once the surrounding whitespace is gone: one
      optional sign, then digit groups; None when int() raises ValueError. */
  function ParseSigned(t: string): (r: Option<int>)
    ensures r.Some? ==> t != []
  {
    if t == [] then None
    else
      var negative := t[0] == '-';
      var body := if t[0] == '-' || t[0] == '+' then t[1..] else t;
      if !DigitGroups(body) then None
      else
        var v := DigitsValue(Ungrouped(body)) as int;
        Some(if negative then -v else v)
  }

  /** int(s) for a string: surrounding whitespace is ignored. */
  function ParseInt(s: string): (r: Option<int>)
    ensures r.Some? ==> Strip(s) != []
  {
    ParseSigned(Strip(s))
  }

  /** A plain run of digits is a valid digit group and has nothing to
      remove. */
  lemma PlainDigitsAreGroups(d: string)
    requires d != [] && AllDigits(d)
    ensures DigitGroups(d) && Ungrouped(d) == d
  {
  }

  /** int() of a plain run of digits is the number the digits denote. */
  lemma ParseIntOfDigits(d: string)
    requires d != [] && AllDigits(d)
    ensures ParseInt(d) == Some(DigitsValue(d) as int)
  {
    StripFixed(d);
    PlainDigitsAreGroups(d);
    assert !(d[0] == '-' || d[0] == '+');
  }

  /** int() of "-" followed by a plain run of digits is minus the number
      the digits denote. */
  lemma ParseIntOfNegatedDigits(s: string)
    requires |s| >= 2 && s[0] == '-' && AllDigits(s[1..])
    ensures ParseInt(s) == Some(-(DigitsValue(s[1..]) as int))
  {
    assert IsDigit(s[1..][|s| - 2]);
    StripFixed(s);
    NegatedDigitsSigned(s);
  }

  /** The same, once the text is already stripped. */
  lemma NegatedDigitsSigned(s: string)
    requires |s| >= 2 && s[0] == '-' && AllDigits(s[1..])
    ensures ParseSigned(s) == Some(-(DigitsValue(s[1..]) as int))
  {
    PlainDigitsAreGroups(s[1..]);
  }

  /** int() reads back the decimal text str() writes for a natural number. */
  lemma ParseIntReadsNat(n: nat)
    ensures ParseInt(NatToString(n)) == Some(n as int)
  {
    ParseIntOfDigits(NatToString(n));
    NatToStringRoundTrip(n);
  }

  /** int() of a JSON value: booleans are 0 or 1, numbers with a fraction
      are truncated toward zero, strings are parsed; a container is a
      TypeError. */
  function ToInt(p: ProductParam): Option<int>
  {
    match p
    case Missing => None
    case Flag(b) => Some(if b then 1 else 0)
    case Integer(i) => Some(i)
    case Decimal(x) => Some(if x >= 0.0 then x.Floor else -((-x).Floor))
    case Text(s) => ParseInt(s)
    case Container(_) => None
  }

  // ---------------------------------------------------------------------
  // The decision
  // ---------------------------------------------------------------------

  /** Some order of the user has an item of the product with status
      DELIVERED. */
  predicate HasDeliveredPurchase(orders: map<nat, Order>, user: nat, product: int) {
    exists id, k :: id in orders && 0 <= k < |orders[id].items|
                    && orders[id].user == user
                    && orders[id].items[k].product as int == product
                    && orders[id].items[k].status == Delivered
  }

  /** The request as the permission sees it; `user` is None for an
      anonymous request. */
  datatype ReviewRequest = ReviewRequest(httpMethod: string, user: Option<nat>, product: ProductParam)

  /** has_permission: None when allowed, else the message of the refusal. */
  function ReviewRefusal(req: ReviewRequest, orders: map<nat, Order>): (r: Option<string>)
    ensures req.httpMethod in SafeMethods ==> r.None?
    ensures req.httpMethod !in SafeMethods && req.user.None? ==> r == Some(LoginMessage)
    ensures r == Some(ProductRequiredMessage) <==> req.httpMethod !in SafeMethods && req.user.Some? && Falsy(req.product)
    ensures r == Some(InvalidProductMessage) <==>
              req.httpMethod !in SafeMethods && req.user.Some? && !Falsy(req.product) && ToInt(req.product).None?
    ensures req.httpMethod !in SafeMethods ==>
              (r.None? <==> req.user.Some? && !Falsy(req.product) && ToInt(req.product).Some?
                            && HasDeliveredPurchase(orders, req.user.value, ToInt(req.product).value))
    ensures r == Some(NotDeliveredMessage) <==>
              req.httpMethod !in SafeMethods && req.user.Some? && !Falsy(req.product) && ToInt(req.product).Some?
              && !HasDeliveredPurchase(orders, req.user.value, ToInt(req.product).value)
    ensures r != Some(DefaultMessage)
  {
    if req.httpMethod in SafeMethods then None
    else if req.user.None? then Some(LoginMessage)
    else if Falsy(req.product) then Some(ProductRequiredMessage)
    else
      var id := ToInt(req.product);
      if id.None? then Some(InvalidProductMessage)
      else if !HasDeliveredPurchase(orders, req.user.value, id.value) then Some(NotDeliveredMessage)
      else None
  }

  /** Once the user's order item of a product is delivered, the user may
      review it, with the id sent as a number or as its decimal text. */
  lemma DeliveredItemAllowsReview(orders: map<nat, Order>, user: nat, id: nat, k: nat, httpMethod: string, asText: bool)
    requires id in orders && orders[id].user == user && k < |orders[id].items|
    requires orders[id].items[k].status == Delivered && orders[id].items[k].product > 0
    ensures var product := orders[id].items[k].product;
            var param := if asText then Text(NatToString(product)) else Integer(product);
            ReviewRefusal(ReviewRequest(httpMethod, Some(user), param), orders).None?
  {
    var product := orders[id].items[k].product;
    var param := if asText then Text(NatToString(product)) else Integer(product);
    if asText {
      ParseIntReadsNat(product);
      assert NatToString(product) != "";
    }
    assert HasDeliveredPurchase(orders, user, product as int) by {
      assert orders[id].items[k].product as int == product as int;
    }
  }

  /** The four refusal messages differ from each other and from the default
      one, so the message identifies the check that refused. */
  lemma RefusalMessagesDistinct()
    ensures var ms := [DefaultMessage, LoginMessage, ProductRequiredMessage, InvalidProductMessage, NotDeliveredMessage];
            forall i, j :: 0 <= i < j < |ms| ==> ms[i] != ms[j]
  {
    assert DefaultMessage[4] == 'c' && DefaultMessage[7] == 'n';
    assert LoginMessage[0] == 'Y' && LoginMessage[4] == 'm';
    assert ProductRequiredMessage[0] == 'P';
    assert InvalidProductMessage[0] == 'I';
    assert NotDeliveredMessage[0] == 'Y' && NotDeliveredMessage[4] == 'c' && NotDeliveredMessage[7] == ' ';
  }

  /** The permission object; the message a refusal leaves behind is read by
      the framework for the 403 body. */
  class CanReviewProduct {
    var message: string

    constructor ()
      ensures message == DefaultMessage
    {
      message := DefaultMessage;
    }

    method HasPermission(req: ReviewRequest, orders: map<nat, Order>) returns (allowed: bool)
      modifies this
      ensures allowed <==> ReviewRefusal(req, orders).None?
      ensures message == if allowed then old(message) else ReviewRefusal(req, orders).value
    {
      if req.httpMethod in SafeMethods {
        return true;
      }
      if req.user.None? {
        message := LoginMessage;
        return false;
      }
      if Falsy(req.product) {
        message := ProductRequiredMessage;
        return false;
      }
      var id := ToInt(req.product);
      if id.None? {
        message := InvalidProductMessage;
        return false;
      }
      if !HasDeliveredPurchase(orders, req.user.value, id.value) {
        message := NotDeliveredMessage;
        return false;
      }
      allowed := true;
    }
  }
}
