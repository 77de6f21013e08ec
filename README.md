# ecom-django order, coupon, payment and account core in Dafny

This project models the decision logic of a Django REST e-commerce backend.
It covers:

- pricing an order (`Order.calculate_total`, the price snapshot of
  `OrderItem.save`);
- coupons: validity (`Coupon.is_valid`), lookup (`validate_coupon`), and how
  an order takes and releases a use (`OrderService.create_order`,
  `update_order`, `update_order_status`);
- the order serializer's checks (`validate_coupon`, `validate`,
  `get_coupon_details`);
- the order endpoints that gate things themselves: `update_status` and
  `create_payment`, with `get_queryset`/`get_object` visibility and
  `check_order_permission`;
- the payment provider's webhook (`stripe_webhook`);
- the cart, the one-default-address rule, the user manager, and e-mail OTP
  sign-up;
- the review permission, the product read/write permission, and the
  exception handler's error code and message.

One Dafny module per source file:

- `Common`: Option/Result, Python's `str(int)` and `str.strip()`.
- `Coupons`, `OrderModels`, `OrderStore`, `OrderService`,
  `OrderSerializers`, `OrderViews`, `PaymentWebhook`.
- `Cart`, `Addresses`, `Users`.
- `ReviewPermissions`, `ProductPermissions`, `ExceptionHandler`.

The database tables the order code writes are one object, `OrderStore.Store`.
It holds map fields for products, coupons (keyed by their unique code),
orders (each with its items) and payments (keyed by their unique intent id).
Its `Valid()` invariant says:

- coupons sit under their codes and within their usage limits;
- orders refer to known products and existing coupons, with non-negative
  totals;
- every payment belongs to an existing order, and no order has two payments.

The services and views are methods that reassign those fields. Their
`ensures` tie the new tables to pure functions of the old ones, and the
properties are lemmas about those functions. The cart, address book and
sign-up registry are classes in the same style.

Modelling choices:

- Money is an exact `real`; Decimal precision and column rounding are
  listed under Left out.
- The clock is an integer `now` passed in.
- The payment provider and the random OTP draw are parameters.
- An HTTP answer is its status code.
- A Python exception is an `Err`/`None` result carrying the message the
  source raises.

## Model

| member | source | states |
|---|---|---|
| `Coupons.InactiveNeverValid` | apps/coupons/models.py:27-40 | an inactive coupon is invalid with or without a cart total |
| `Coupons.WindowIsInclusive` | apps/coupons/models.py:32 | validity holds exactly for valid_from <= now <= valid_to, both ends included, one instant outside either end fails |
| `Coupons.UsageLimitRule` | apps/coupons/models.py:33 | a null usage limit never restricts; a set one admits exactly used_count < usage_limit |
| `Coupons.CartTotalAddsOnlyMinimum` | apps/coupons/models.py:36-38 | with a cart total, validity is validity without one plus cart_total >= min_cart_value (inclusive); so validity with a total implies validity without |
| `Coupons.ValidateCoupon` | apps/coupons/services.py:11-20 | "Invalid coupon code." exactly for an unknown code, "Coupon is not valid or expired." exactly when is_valid() fails, otherwise the row with that very code |
| `Coupons.ValidateCouponIgnoresMinimum` | apps/coupons/services.py:17 | the outcome does not depend on min_cart_value, because is_valid is called without a cart total |
| `OrderModels.PaymentStatusesAreNotChoices` | apps/orders/models.py:9-15 | "paid", "awaiting_payment" and "payment_failed" are outside STATUS_CHOICES; the default and DELIVERED are inside |
| `OrderModels.SaveItem` | apps/orders/models.py:61-64 | the first save copies the live price into price_per_unit; a later save leaves the item as it is |
| `OrderModels.ResaveKeepsItem` | apps/orders/models.py:61-64 | any number of later saves leave a saved item unchanged |
| `OrderModels.SnapshotSurvivesResave` | apps/orders/models.py:61-68 | after creation, price_per_unit and total_price (quantity × price_per_unit) stay at the creation price whatever the product's later prices |
| `OrderModels.NewItem` | apps/orders/services.py:68-73 | the item built for a request line is that line saved for the first time at the product's current price, with status PENDING |
| `OrderModels.NewItems` | apps/orders/services.py:63-74 | exactly one item per request line, in order, each built by NewItem |
| `OrderModels.SubtotalIgnoresSnapshots` | apps/orders/models.py:29 | the subtotal reads the catalog's current prices: items differing only in snapshot or status give the same subtotal |
| `OrderModels.CalculatedTotal` | apps/orders/models.py:31-39 | the total is never negative; it is the discounted subtotal or 0 when that is negative |
| `OrderModels.NoDiscountKeepsSubtotal` | apps/orders/models.py:31-35 | with no coupon or a discount type other than percent/fixed, a non-negative subtotal is the total |
| `OrderModels.DiscountBounds` | apps/orders/models.py:32-39 | a non-negative discount never raises the total; a percent coupon of at most 100 gives subtotal × (100 − value) / 100 |
| `OrderModels.PricingExamples` | apps/orders/models.py:32-39 | 20 percent off 100 is 80; a fixed 50 off 10 is clamped to 0 |
| `OrderStore.InsertOrderKeepsInvariant` | apps/orders/services.py:55-60 | inserting a well-formed order under the next id keeps the store invariant, and the id was unused |
| `OrderStore.ReplaceOrderKeepsInvariant` | apps/orders/services.py:133-136 | saving a well-formed order over an existing one keeps the store invariant |
| `OrderStore.RecordPaymentKeepsInvariant` | apps/payment/views.py:59-66 | creating a payment under a new intent id for an existing order that has no payment keeps the store invariant (one payment per order) |
| `OrderStore.SetPaymentStatusKeepsInvariant` | apps/payment/views.py:68-70 | changing only a payment's status keeps the store invariant |
| `OrderStore.Store.InsertOrder` | apps/orders/services.py:55-60 | Order.objects.create: the order is stored under a fresh id and the id counter advances; the invariant holds |
| `OrderStore.Store.ReplaceOrder` | apps/orders/services.py:133-136 | order.save(): only that order changes |
| `OrderStore.Store.RecordPayment` | apps/orders/views.py:124-129 | Payment.objects.create: the payment is added under its intent id; nothing else changes |
| `OrderStore.Store.SetPaymentStatus` | apps/payment/views.py:68-70 | only the status of that payment row changes |
| `OrderStore.Store.CalculateTotal` | apps/orders/models.py:28-43 | the loop sums price × quantity at live prices; the returned total is CalculatedTotal of that sum and the order's coupon, and it is what is stored in total_amount |
| `OrderService.CartTotalIsSubtotalOfNewItems` | apps/orders/services.py:11-13 | the cart total the coupon is checked against equals the subtotal calculate_total computes over the items created from the same lines |
| `OrderService.GetCouponByCode` | apps/orders/services.py:15-23 | a falsy code gives no coupon; an unknown code is a ValidationError naming it; otherwise the coupon whose code is the input |
| `OrderService.CheckCoupon` | apps/orders/services.py:40-48 | no error exactly when there is no coupon or is_valid(cart_total) holds; the minimum-cart message exactly when cart_total < min_cart_value, otherwise "invalid or expired" |
| `OrderService.AtLimitRejectedByIsValid` | apps/orders/services.py:50-52 | a coupon at its usage limit is already rejected by is_valid, so the separate usage-limit error is never raised |
| `OrderService.SwapCoupon` | apps/orders/services.py:121-131 | the same coupon changes nothing; a different old coupon gives one use back (not below 0), a different new coupon gains one, and no other coupon or field changes |
| `OrderService.SwapKeepsInvariant` | apps/orders/services.py:121-131 | moving a use between coupons keeps the store invariant when the new coupon is under its limit |
| `OrderService.RemovingCouponReleasesOneUse` | apps/orders/services.py:122-126 | removing a used coupon from an order lowers its count by exactly one and touches no other coupon |
| `OrderService.SwapKeepsDiscounts` | apps/orders/services.py:121-131 | moving usage counts changes no order's computed total |
| `OrderService.CreateOrderCheck` | apps/orders/services.py:33-52 | the result is the coupon lookup's (its not-found error, no coupon, or the coupon) except exactly when the found coupon fails is_valid against the cart total; then it is CheckCoupon's error |
| `OrderService.UpdateOrderCheck` | apps/orders/services.py:95-119 | the result is the coupon lookup's except exactly when the coupon changes and fails is_valid against the new cart total (the new lines' total when items are given, else the current items' subtotal); then it is CheckCoupon's error; re-applying the current coupon skips validation |
| `OrderService.WithStatus` | apps/orders/services.py:167-171 | the order and every one of its items carry the new status; nothing else changes |
| `OrderService.BuildItems` | apps/orders/services.py:63-74 | the item-building loop returns NewItems of the request lines |
| `OrderService.MoveCouponUse` | apps/orders/services.py:121-131 | the coupon table becomes SwapCoupon of the old one, and the store invariant holds |
| `OrderService.PlaceOrder` | apps/orders/services.py:54-86 | a new order with one item per line, its total computed, and one more use on its coupon |
| `OrderService.CreateOrder` | apps/orders/services.py:25-86 | on a failed check nothing is written; otherwise the order is stored with CalculatedTotal of the cart total, its items, and exactly one more use of the applied coupon and no other |
| `OrderService.ApplyOrderUpdate` | apps/orders/services.py:121-159 | the use moves from the old coupon to the new, items are replaced when given, the shipping address is kept unless given, and the total is recomputed |
| `OrderService.UpdateOrder` | apps/orders/services.py:88-159 | on a failed check nothing is written; otherwise the coupon table is SwapCoupon of the old coupon and the requested one (an omitted coupon removes it) and the order is recomputed |
| `OrderService.UpdateOrderStatus` | apps/orders/services.py:161-173 | a status outside STATUS_CHOICES is a ValueError with nothing changed; otherwise the order and all its items get the status |
| `OrderSerializers.UpperIdempotent` | apps/orders/serializers.py:62 | upper() of an upper-cased string changes nothing |
| `OrderSerializers.UpperFixesUpperCase` | apps/orders/serializers.py:62 | upper() leaves a string with no lower-case letter unchanged |
| `OrderSerializers.NormaliseCode` | apps/orders/serializers.py:62 | strip().upper() of a code that is not all whitespace: non-empty, no surrounding whitespace, no lower-case letter |
| `OrderSerializers.NormaliseCodeIdempotent` | apps/orders/serializers.py:62 | strip().upper() of a normalised code is that code, and it is not all whitespace |
| `OrderSerializers.ValidateCouponCode` | apps/orders/serializers.py:50-62 | None or "" give no coupon; a non-string is rejected; a whitespace-only string gives "Coupon code cannot be empty"; otherwise strip().upper() |
| `OrderSerializers.ValidateCouponCodeIdempotent` | apps/orders/serializers.py:50-62 | validating the output again returns it unchanged |
| `OrderSerializers.NormalisedCodeIsLookedUp` | apps/orders/serializers.py:52-62 | every code the serializer passes on is one the service looks up as it is |
| `OrderSerializers.ValidateOrder` | apps/orders/serializers.py:64-74 | missing or empty items give the items error, then a missing shipping address gives its error, otherwise the data passes unchanged |
| `OrderSerializers.GetCouponDetails` | apps/orders/serializers.py:39-48 | None exactly without a coupon; otherwise code, type, value and minimum copied from the coupon (the two amounts as numbers; the source renders them with str()) |
| `OrderSerializers.DetailsExactlyWithCoupon` | apps/orders/serializers.py:41-48 | in a consistent store, an order shows coupon details exactly when it has a coupon, and they carry its code |
| `OrderViews.PermissionRule` | apps/orders/views.py:25-29 | check_order_permission always holds for staff or superusers; for anyone else exactly on their own orders |
| `OrderViews.VisibleOrdersPassPermission` | apps/orders/views.py:19-29 | every order get_queryset lets a caller fetch passes check_order_permission, so that 403 of create_payment cannot occur |
| `OrderViews.UpdateStatusView` | apps/orders/views.py:34-54 | 403 with nothing changed for non-admins; 404 for an order that does not exist; 400 exactly for a missing or unknown status; 200 exactly when the order and its items get the new status |
| `OrderViews.PaymentRefusal` | apps/orders/views.py:70-104 | 404 exactly for an order the caller cannot fetch; 403 exactly for someone else's order; 400 exactly when it is "paid" or has a succeeded payment; otherwise no refusal |
| `OrderViews.AdminCannotPayForOthers` | apps/orders/views.py:84-89 | an admin passes check_order_permission on another user's order but create_payment still refuses it with 403 |
| `OrderViews.Truncate` | apps/orders/views.py:109 | int() of a decimal truncates toward zero |
| `OrderViews.ProviderAmount` | apps/orders/views.py:109 | the amount sent is total × 100 truncated to whole cents |
| `OrderViews.WholeCentsSentExactly` | apps/orders/views.py:109 | a total with whole cents is sent exactly |
| `OrderViews.CreatePayment` | apps/orders/views.py:69-139 | refusals as PaymentRefusal says; a provider error or a clash with a unique column gives 500 with nothing written; otherwise a pending payment of total_amount is recorded under the intent id, the order becomes "awaiting_payment", and the answer is 201 |
| `OrderViews.RepeatAttemptReachesUniqueColumn` | apps/orders/views.py:91-129 | after a successful attempt the next one passes every check and the order already has a payment row |
| `OrderViews.ReplacePaymentFor` | apps/orders/views.py:98-129 | corrected retry: the new intent's row is on file, the order's earlier row is gone, and every other order's payment is kept |
| `OrderViews.RetryReplacesEarlierPayment` | apps/orders/views.py:98-129 | corrected retry: one payment per order still holds, and the order's only payment is the new one |
| `OrderViews.RetryAfterAttemptIsAccepted` | apps/orders/views.py:91-129 | after a first attempt, a retry with a new intent passes every check and the corrected write records it with the invariant kept |
| `PaymentWebhook.Succeeded` | apps/payment/views.py:54-82 | the payment under the intent id is created as succeeded or set to succeeded and the order becomes "paid"; 500 exactly when a new row would give the order a second payment |
| `PaymentWebhook.Failed` | apps/payment/views.py:88-100 | the order becomes "payment_failed" and the intent's payment, if any, "failed"; always 200 |
| `PaymentWebhook.Webhook` | apps/payment/views.py:20-104 | the answer is 200, 400, 404 or 500; any non-200 answer leaves both tables as they were; an unverifiable event is 400; no order is created or deleted |
| `PaymentWebhook.SucceededEventEffect` | apps/payment/views.py:44-82 | a succeeded event without an order id is 400 and one naming an unknown order is 404, both with nothing written; a processed one leaves exactly that payment as succeeded and the order "paid" |
| `PaymentWebhook.FailedEventEffect` | apps/payment/views.py:84-104 | a failed event whose order id is absent, blank or numeric is 200; with no or an unknown order id nothing changes; otherwise the order and the payment are marked failed |
| `PaymentWebhook.OtherEventsIgnored` | apps/payment/views.py:104 | any other event type is 200 with nothing changed |
| `PaymentWebhook.ReplayIsIdempotent` | apps/payment/views.py:58-73 | delivering a processed event again gives the same answer and the same tables, with no second payment row |
| `PaymentWebhook.WebhookKeepsInvariant` | apps/payment/views.py:58-66 | the webhook keeps the store invariant: a payment it creates belongs to an existing order that had none |
| `PaymentWebhook.SucceededKeepsInvariant` | apps/payment/views.py:56-73 | the succeeded branch for a known order keeps the store invariant |
| `PaymentWebhook.FailedKeepsInvariant` | apps/payment/views.py:90-97 | the failed branch for a known order keeps the store invariant |
| `PaymentWebhook.MarkSucceeded` | apps/payment/views.py:56-82 | the succeeded branch's writes, payment row first and then the order, leave the tables and the answer that Succeeded describes; the invariant holds |
| `PaymentWebhook.MarkFailed` | apps/payment/views.py:90-97 | the failed branch's writes, order first and then the payment row, leave the tables and the answer that Failed describes; the invariant holds |
| `PaymentWebhook.StripeWebhook` | apps/payment/views.py:19-104 | the handler's writes leave the tables and the answer that Webhook describes |
| `Cart.AddItem` | apps/cart/services.py:4-18 | a new row gets the quantity, an existing row gets it added, never a second row for the pair, other rows untouched; refused only when the quantity does not fit the column |
| `Cart.RemoveItem` | apps/cart/services.py:21-27 | 404 exactly when the row is absent; otherwise exactly that row is gone |
| `Cart.UpdateItem` | apps/cart/services.py:30-41 | 404 when absent; a quantity of 0 or less deletes the row; otherwise the quantity is set exactly |
| `Cart.DefaultAddCreatesSingleUnit` | apps/cart/services.py:4-13 | adding a new product with the default quantity creates its row with quantity 1 |
| `Cart.OperationsKeepCartValid` | apps/cart/services.py:4-41 | every operation keeps all quantities within the column's range |
| `Cart.AddsAccumulate` | apps/cart/services.py:14-17 | two adds to one row are one add of the sum |
| `Cart.RemoveUndoesNewAdd` | apps/cart/services.py:21-27 | removing a row an add just created restores the cart |
| `Cart.UpdateToNothingIsRemove` | apps/cart/services.py:36-37 | setting a quantity of 0 or less is removing the row |
| `Cart.CartTable.Add` | apps/cart/services.py:4-18 | the table becomes AddItem's result and the row's quantity is returned |
| `Cart.CartTable.Remove` | apps/cart/services.py:21-27 | the table becomes RemoveItem's result |
| `Cart.CartTable.Update` | apps/cart/services.py:30-41 | the table becomes UpdateItem's result |
| `Addresses.ClearDefaults` | apps/addresses/models.py:21 | every default address of the user loses its flag; nothing else changes |
| `Addresses.Saved` | apps/addresses/models.py:18-22 | the saved address is stored as given; when default it is the user's only default; a non-default save changes no other row; other users' rows are untouched |
| `Addresses.SaveKeepsOneDefault` | apps/addresses/models.py:18-22 | saving keeps at most one default address per user |
| `Addresses.DefaultMoves` | apps/addresses/models.py:20-21 | saving a new default moves the flag: the previous default stays, unflagged |
| `Addresses.AddressBook.Save` | apps/addresses/models.py:18-22 | the table becomes Saved of the old one, with at most one default per user |
| `Users.CreateUser` | apps/users/models.py:8-15 | an empty e-mail is a ValueError; otherwise a user with that e-mail and password, flags false unless passed, role customer and empty names unless passed |
| `Users.NewUsersAreInactiveCustomers` | apps/users/models.py:30-41 | a user created without extra fields is an inactive, non-staff customer |
| `Users.CreateSuperuser` | apps/users/models.py:17-27 | is_staff explicitly false fails first, then is_superuser explicitly false; otherwise a staff superuser, active unless told otherwise |
| `Users.SuperuserDefaults` | apps/users/models.py:18-20 | a superuser created without extra fields is active, staff and superuser |
| `Users.GenerateOtp` | apps/users/services.py:8-9 | six decimal digits with no leading zero, reading back as the draw from 100000..999999 |
| `Users.OtpRecord` | apps/users/services.py:18-33 | the stored row: the generated code, expiry now + 10 minutes, the password, role defaulting to customer, names defaulting to "" |
| `Users.OtpLifetimeIsTenMinutes` | apps/users/services.py:20 | with the strict is_expired, a code is usable through exactly 600 seconds after it was sent |
| `Users.Verify` | apps/users/services.py:44-72 | the first failing check in order (not found, wrong code, expired, user exists) is reported with nothing changed; when all four pass for a non-empty e-mail the account is created; success creates one active, non-staff, non-superuser account with the e-mail and the stored password, role, first and last name, and deletes the code |
| `Users.VerifyTwiceFindsNoCode` | apps/users/services.py:69 | after a success, verifying again gives "OTP not found." |
| `Users.SignupCompletes` | apps/users/services.py:18-72 | sending a code to a new address and confirming it within ten minutes creates the account from the sign-up data |
| `Users.VerifyKeepsUsersKeyedByEmail` | apps/users/services.py:56-67 | every account stays under its own non-empty e-mail address |
| `Users.Registry.SendOtpToEmail` | apps/users/services.py:18-33 | update_or_create: the address's one pending row is replaced by OtpRecord |
| `Users.Registry.VerifyOtpAndCreateUser` | apps/users/services.py:44-72 | the answer and the two tables are those Verify describes |
| `ReviewPermissions.ParseIntOfDigits` | apps/reviews/permissions.py:31-35 | int() of any non-empty run of decimal digits is the number those digits denote |
| `ReviewPermissions.ParseIntOfNegatedDigits` | apps/reviews/permissions.py:31-35 | int() of "-" followed by a non-empty run of digits is minus the number the digits denote |
| `ReviewPermissions.ParseIntReadsNat` | apps/reviews/permissions.py:31-35 | int() reads back exactly the number whose decimal text str() wrote |
| `ReviewPermissions.ReviewRefusal` | apps/reviews/permissions.py:15-53 | safe methods always pass; anonymous writes get the login message; a falsy product gets "Product ID is required"; a non-integer gets "Invalid product ID."; otherwise allowed exactly when the user has a DELIVERED item of that product, and refused with "You can only review products after they are delivered." exactly when not |
| `ReviewPermissions.DeliveredItemAllowsReview` | apps/reviews/permissions.py:38-53 | once a user's item of a product is delivered, a review of it (id as number or as text) is allowed |
| `ReviewPermissions.RefusalMessagesDistinct` | apps/reviews/permissions.py:13-50 | the default message and the four refusal messages are pairwise different |
| `ReviewPermissions.CanReviewProduct.constructor` | apps/reviews/permissions.py:13 | the message starts as the default one |
| `ReviewPermissions.CanReviewProduct.HasPermission` | apps/reviews/permissions.py:15-53 | allowed exactly when ReviewRefusal finds nothing; on a refusal the message becomes that refusal's |
| `ProductPermissions.PermissionByMethod` | apps/products/views.py:15-21 | reads are allowed exactly to authenticated users; other methods exactly to authenticated staff |
| `ProductPermissions.AnonymousNeverStaffAlways` | apps/products/views.py:17-21 | an anonymous request is never allowed; authenticated staff are allowed every method |
| `ProductPermissions.WriteImpliesRead` | apps/products/views.py:15-21 | whoever may write may also read |
| `ExceptionHandler.ErrorCode` | apps/utils/exception_handler.py:27-42 | the nine listed classes get their fixed codes; any other class gets "HTTP_" and the status |
| `ExceptionHandler.FallbackReadsBackStatus` | apps/utils/exception_handler.py:42 | the fallback code is the prefix followed by digits that read back as the status |
| `ExceptionHandler.CodeDeterminesStatus` | apps/utils/exception_handler.py:41-42 | different statuses give different fallback codes; a fixed code ignores the status |
| `ExceptionHandler.FallbackIsNotAFixedCode` | apps/utils/exception_handler.py:29-42 | a fallback code never equals one of the fixed codes |
| `ExceptionHandler.UserFriendlyMessage` | apps/utils/exception_handler.py:44-57 | no detail gives "An error occurred"; a non-dict detail gives its text; a dict fails only when its non_field_errors value has no first element |
| `ExceptionHandler.NonFieldErrorComesFirst` | apps/utils/exception_handler.py:49-50 | a dict with non-field errors reports the first of them, whatever the other fields hold |
| `ExceptionHandler.OnlyFirstFieldReported` | apps/utils/exception_handler.py:52-55 | without non-field errors only the first field counts: the message is that field's "Error in <field>: " message, so two dicts with the same first entry give the same message |
| `ExceptionHandler.FieldMessageShowsFirstError` | apps/utils/exception_handler.py:53-55 | a non-empty list reports its first error; any other value is reported whole |
| `ExceptionHandler.EmptyDictShownWhole` | apps/utils/exception_handler.py:52-56 | an empty dict is reported as its own text |
| `ExceptionHandler.HandleAsWritten` | apps/utils/exception_handler.py:8-25 | no base response gives no response; any base response ends in an exception |
| `ExceptionHandler.AsWrittenNeverResponds` | apps/utils/exception_handler.py:18-23 | the handler as written never answers; once a message is formed it raises the TypeError of the unknown keyword |
| `ExceptionHandler.NotFoundRaises` | apps/utils/exception_handler.py:18-23 | a plain 404 from NotFound raises instead of answering |
| `ExceptionHandler.Http404Raises` | apps/utils/exception_handler.py:11-23 | Django's Http404, which has no detail, gets the default message and then raises instead of answering |
| `ExceptionHandler.Handle` | apps/utils/exception_handler.py:8-25 | no base response gives none; otherwise the error envelope under the base status with the base data as its errors, failing only where the message lookup does |
| `ExceptionHandler.HandlerRespondsWhenBaseDoes` | apps/utils/exception_handler.py:9-23 | whenever the framework answers and the message can be formed, the handler answers with the same status, the message and the class's error code |

## Left out

- The payment provider's API: creating a payment intent and checking the
  webhook signature are parameters. The intent is `ProviderOutcome`; the
  verified event is `Option<Event>`, None for any payload or signature
  failure.
- Concurrency: the read-then-write of used_count is modelled sequentially,
  as if each request ran alone.
- Floating point: `intent["amount"] / 100` produces a float in Python; the
  model stores the amount as an exact decimal.
- Decimal columns: Decimal's 28-digit arithmetic context, rounding to two
  places and the max_digits limit of the DecimalFields are not modelled.
- Randomness, e-mail and tokens: the OTP draw is a parameter; send_mail,
  JWT generation, normalize_email and password hashing are left out. The
  stored password is the one given.
- str.upper() is modelled for ASCII letters only; Unicode case mapping is
  not.
- int() on text accepts ASCII digits only, not other Unicode digits. inf
  and nan floats in a review request are not modelled.
- `bulk_create` skips OrderItem.save. The services pass
  price_per_unit=product.price themselves, so the items come out the same,
  and the model builds them with the first-save rule.
- DRF's CharField trimming and blank handling, which run before the
  serializer's own validate_coupon. The model starts at validate_coupon's
  input.
- An is_staff or is_superuser value that is not a bool is not modelled.
- `add_cart_item`'s default argument: the quantity is always passed; the
  default of 1 is `Cart.DefaultQuantity`.
- The view plumbing around the modelled endpoints: serializer output,
  response bodies, URL routing, the read-only `status_options` and
  `payment_status` endpoints, and IsAuthenticated, which the views assume.
- The exception detail's text: the str() of a list or dict detail is
  carried as given, not computed from its elements.
- The corrected exception handler puts the error code into the error
  envelope, since that is evidently what the keyword was for. The response
  helper (apps/utils/responses.py) is modelled only through the keyword it
  lacks.
- Cart: the table is keyed by (user, product). The schema does not
  enforce this (apps/cart/models.py has no unique constraint), and the
  generic cart endpoint (apps/cart/views.py) can insert a second row for a
  pair. The MultipleObjectsReturned that get_or_create and
  get_object_or_404 then raise is not modelled.
- The coupon details' two amounts are numbers, where get_coupon_details
  renders them with str() of the Decimal column.
- create_coupon only wraps CouponSerializer's validation and save.
  AddressService creates, deletes, or sets attributes reflectively and then
  saves; the saving rule itself is `Addresses.Saved`. The review-import
  command fetches data over the network. None of these is part of the
  modelled core.
- OrderViews.UpdateStatusView: its 404 is the Http404 that get_object
  raises. As written, the exception handler turns it into a 500
  (`ExceptionHandler.Http404Raises` and
  `ExceptionHandler.AsWrittenNeverResponds`, see Findings); the model gives
  the 404 the corrected handler would send.
- OrderViews.PaymentRefusal: its 404 is the Http404 that get_object raises.
  As written, the exception handler turns it into a 500, as for
  UpdateStatusView.
- OrderViews.CreatePayment: its 404 comes from PaymentRefusal, with the
  same as-written 500. It keeps the as-written 500 for a retry; the
  corrected retry is stated separately by `OrderViews.ReplacePaymentFor`
  (see Findings).

## Findings

| source | as written | input that shows it | evidently intended | confidence | as-written member | corrected member |
|---|---|---|---|---|---|---|
| apps/utils/exception_handler.py:18-23 | error_response is called with `error_code=`, but error_response (apps/utils/responses.py:10) takes only errors, message and code, so Python raises TypeError | any exception the framework answers, e.g. NotFound with detail "Not found." and a 404 base response | return the error envelope with the base status, the friendly message, the base data as errors and the error code | high, not executed; read from this revision's apps/utils/responses.py, which does not define the validation_error_response that apps/users/views.py imports, so the users views were written against a different version of that file | `ExceptionHandler.AsWrittenNeverResponds` | `ExceptionHandler.HandlerRespondsWhenBaseDoes` |
| apps/orders/views.py:98-129 | only a succeeded earlier payment stops create_payment, but Payment.objects.create then meets the one-to-one order column whenever a pending or failed row exists, so the request ends in 500 | a first create_payment for an order answers 201 and leaves a pending row; a second one with a new intent id answers 500, and so does every later one | a retry after a pending or failed attempt is accepted, with the new intent's row replacing the earlier one | medium, not executed | `OrderViews.RepeatAttemptReachesUniqueColumn` | `OrderViews.RetryAfterAttemptIsAccepted` |
