# A verified model of an e-commerce storefront's core

This project models the business logic of a small Node/Express + React storefront
in Dafny. It covers:

- the server-side cart kept inside a user document: add, remove, update, and the join
  with the catalogue;
- coupons: the user's active coupon and the validation of a code;
- checkout: pricing, the coupon discount, the payment provider's session request, the
  loyalty coupon, and the order recorded once the session is paid;
- the admin analytics: the all-time totals and the last week's daily series;
- the sign-up and log-in checks and the e-mail pattern;
- the two client stores: the cart with its totals, and the product list with its
  loading flag.

Each database collection or client store that its code changes in place is a `class`
whose fields the methods reassign. Each handler is one sequential, atomic step. The
outside world comes in as parameters:

- what the database query returned;
- what the payment provider answered;
- whether an HTTP call succeeded;
- the clock, the hash function, and the random part of a coupon code.

Conventions:

- Amounts on the server are integer cents.
- Amounts in the client cart are exact reals.
- Times are integer milliseconds.
- Days are day numbers `t / 86400000`.

One module per source file: `Wrappers` (an `Option` type), `Seqs` (a filter and its
lemmas), `CartController`, `CouponController`, `PaymentController`,
`AnalyticsController`, `AuthController`, `UseCartStore`, `UseProductStore`.

## Model

| member | source | states |
|---|---|---|
| CartController.Added | backend/controllers/cart.controller.js:30-34 | the add step: the first entry for the product gains one, or an entry with the schema default quantity 1 is pushed; its effect is stated by `AddedQuantities` and `AddedUnique` |
| CartController.Removed | backend/controllers/cart.controller.js:54-56 | the filter dropping every entry for the product, in order; its effect is stated by `RemovedQuantities` and `RemovedUnique` |
| CartController.FindIndex | backend/controllers/cart.controller.js:30-32 | `find` returns the first entry for the product, or none when no entry names it |
| CartController.QuantitiesFirst | backend/controllers/cart.controller.js:30-33 | the keyed view of the cart holds a product exactly when `find` locates it, with that first entry's quantity |
| CartController.CartIds | backend/controllers/cart.controller.js:5 | the ids sent to the catalogue are the cart entries' products, one per entry, in order |
| CartController.AddedQuantities | backend/controllers/cart.controller.js:30-34 | adding raises the product's quantity by exactly one and leaves every other product's quantity as it was |
| CartController.AppendNewQuantities | backend/controllers/cart.controller.js:34 | pushing an entry for a product the cart lacks adds exactly that key |
| CartController.SetFirstQuantities | backend/controllers/cart.controller.js:33 | changing the first entry for a product changes only that product's quantity |
| CartController.AddedUnique | backend/controllers/cart.controller.js:30-34 | adding keeps product ids unique |
| CartController.RemovedQuantities | backend/controllers/cart.controller.js:54-56 | removing deletes exactly the product's key and keeps every other quantity |
| CartController.RemovedUnique | backend/controllers/cart.controller.js:54-56 | removing keeps product ids unique |
| CartController.SetFirstUnique | backend/controllers/cart.controller.js:86 | overwriting a quantity keeps product ids unique |
| CartController.JoinCart | backend/controllers/cart.controller.js:8-13 | the join succeeds exactly when every returned product has a cart entry; each result is the product with its first entry's quantity, in the catalogue's order |
| CartController.JoinQueryResult | backend/controllers/cart.controller.js:5-13 | products found by the cart's own ids always join, one result per product |
| CartController.AddTwiceToEmpty | backend/controllers/cart.controller.js:30-34 | two adds of one product to an empty cart give a single entry of quantity 2 |
| CartController.User.AddToCart | backend/controllers/cart.controller.js:25-37 | an existing entry gains one and nothing else changes; otherwise one entry with the schema default quantity 1 is appended; uniqueness is kept |
| CartController.User.RemoveAllFromCart | backend/controllers/cart.controller.js:47-59 | no id empties the cart; an id removes all of that product's entries and keeps the rest; uniqueness is kept |
| CartController.User.UpdateQuantity | backend/controllers/cart.controller.js:69-89 | an absent product gives 404 and no change; quantity 0 removes the product; any other quantity overwrites the first entry only |
| CartController.User.GetCartProducts | backend/controllers/cart.controller.js:3-15 | the response is the join of the cart with the catalogue result, and is defined exactly when every returned product is in the cart |
| CouponController.ValidateWith | backend/controllers/coupon.controller.js:29-47 | the handler after the lookup: null answers "Coupon not found", an expired document is deactivated and answers "Coupon expired", and any other value answers with its code and percentage, so a pending query answers with neither |
| CouponController.ValidateAsWritten | backend/controllers/coupon.controller.js:23-47 | the handler with the lookup never awaited, so the value tested is a pending query; `AsWrittenAcceptsEveryCode` states what it answers |
| CouponController.FindFirst | backend/controllers/coupon.controller.js:6-9 | `findOne` returns the first coupon the query matches, or none when no coupon matches |
| CouponController.FindFirstIsFirstMatching | backend/controllers/coupon.controller.js:6-9 | what `findOne` returns is the head of the coupons matching the query, and it returns nothing exactly when none matches |
| CouponController.ActiveCoupon | backend/controllers/coupon.controller.js:4-10 | the coupon returned is an active coupon of the user; null exactly when the user has no active coupon |
| CouponController.Awaited | backend/controllers/coupon.controller.js:23-27 | once awaited, the lookup is never pending; a document is the first stored coupon with that code and owner that is active, and null means no stored coupon matches |
| CouponController.Validate | backend/controllers/coupon.controller.js:20-47 | 404 "Coupon not found" exactly when no active coupon of the user has the code; "Coupon expired" only for such a coupon that expired strictly before now, and it is deactivated; otherwise the code and a matching coupon's percentage, with the store untouched |
| CouponController.ValidateOnlyConsidersMatches | backend/controllers/coupon.controller.js:23-27 | only the coupons matching code, owner and active flag decide the answer |
| CouponController.ExpiringNowIsValid | backend/controllers/coupon.controller.js:32 | the expiry comparison is strict: a coupon that expires exactly now is accepted |
| CouponController.ExpiredLeavesNoActiveCoupon | backend/controllers/coupon.controller.js:32-35 | when the user had at most one active coupon, deactivating the expired one leaves the user with none |
| CouponController.AsWrittenAcceptsEveryCode | backend/controllers/coupon.controller.js:23-47 | with the query not awaited, every request is answered valid with no code or percentage, and nothing is deactivated |
| CouponController.AsWrittenCounterexample | backend/controllers/coupon.controller.js:23-30 | for a user without coupons, the handler as written answers valid where the awaited lookup answers 404 |
| CouponController.CouponStore.GetCoupon | backend/controllers/coupon.controller.js:4-10 | returns an active coupon of the user, or none exactly when the user has none |
| CouponController.CouponStore.ValidateCoupon | backend/controllers/coupon.controller.js:20-47 | the response and the new store are those of `Validate` on the old store |
| PaymentController.UnitAmount | backend/controllers/payment.controller.js:17 | the unit amount of a product, which under the cents convention is its price |
| PaymentController.LineItems | backend/controllers/payment.controller.js:16-31 | one line item per product, in order, with name, image, unit amount and `quantity \|\| 1`; `PriceProducts` and `ChargedIsTotal` state its properties |
| PaymentController.Total | backend/controllers/payment.controller.js:14-18 | the undiscounted total, unit amount times quantity summed in product order, the reference that `PriceProducts` is proved against |
| PaymentController.Discounted | backend/controllers/payment.controller.js:40-42 | the total less the rounded percentage of it; `DiscountedBounds` states its range |
| PaymentController.EncodeProducts | backend/controllers/payment.controller.js:61-67 | the metadata entry of each product, its id, quantity and price in order; `MetadataRoundTrip` states the round trip |
| PaymentController.DecodeOrderLines | backend/controllers/payment.controller.js:109-113 | the order line of each metadata entry, in order; `MetadataRoundTrip` states the round trip |
| PaymentController.OrderFrom | backend/controllers/payment.controller.js:107-116 | the order built from a retrieved session; `OrderRecordsCheckout` states what it records |
| PaymentController.WithoutFirstOf | backend/controllers/payment.controller.js:147 | `findOneAndDelete` removes the first coupon of the user, whatever its state; `WithoutFirstOfKeepsOthers` and `WithoutFirstOfTakesOne` state its effect |
| PaymentController.WithNewCoupon | backend/controllers/payment.controller.js:146-157 | the store after `createNewCoupon` for a defined user id; `NewCouponEffect` states its effect |
| PaymentController.DeactivateFirst | backend/controllers/payment.controller.js:95-103 | `findOneAndUpdate` deactivates the first coupon with the code and owner, active or not; `DeactivateFirstEffect` states its effect |
| PaymentController.LineQuantity | backend/controllers/payment.controller.js:29 | `quantity \|\| 1`: a quantity of 0 becomes 1, and any other quantity is kept |
| PaymentController.PriceProducts | backend/controllers/payment.controller.js:14-31 | the loop yields one line item per product, in order, with the unit amount and the quantity or 1, and accumulates the total of unit amount times quantity |
| PaymentController.ChargedIsTotal | backend/controllers/payment.controller.js:16-31 | when no quantity is 0, the provider charges exactly the computed total |
| PaymentController.ZeroQuantityIsChargedOnce | backend/controllers/payment.controller.js:18-29 | a product with quantity 0 adds nothing to the total but is charged once |
| PaymentController.TotalNonNegative | backend/controllers/payment.controller.js:14-18 | non-negative prices and quantities give a non-negative total |
| PaymentController.RoundDiv100 | backend/controllers/payment.controller.js:40-42 | the result is within half a unit of n/100, halves rounded up, as `Math.round` does |
| PaymentController.DiscountedBounds | backend/controllers/payment.controller.js:40-42 | a percentage from 0 to 100 keeps the total between 0 and the undiscounted total; 0 percent changes nothing and 100 percent gives 0 |
| PaymentController.CheckoutCoupon | backend/controllers/payment.controller.js:33-39 | the coupon found is stored, carries the code, belongs to the looked-up owner and is active; none only when no such coupon exists |
| PaymentController.MetadataRoundTrip | backend/controllers/payment.controller.js:58-68 | the order lines decoded from the session metadata are the checkout products' id, quantity and price, in order |
| PaymentController.OrderRecordsCheckout | backend/controllers/payment.controller.js:106-116 | the order built from a session records its user, its amount, its session id, and one line per checkout product |
| PaymentController.WithoutFirstOfKeepsOthers | backend/controllers/payment.controller.js:147 | deleting the user's first coupon leaves every other user's coupons unchanged and in order |
| PaymentController.WithoutFirstOfTakesOne | backend/controllers/payment.controller.js:147 | deleting removes exactly one of the user's coupons when the user has any |
| PaymentController.NewCouponEffect | backend/controllers/payment.controller.js:146-157 | the store gains at most one coupon; the last one is "GIFT"+suffix, 10 percent, expiring in thirty days, owned by the user, active; other users' coupons are unchanged; the user holds the same number of coupons, or one when there were none |
| PaymentController.NewCouponCanLeaveTwoActive | backend/controllers/payment.controller.js:146-154 | the delete-then-create can leave a user with two active coupons when the first coupon of the user was a used one |
| PaymentController.DeactivateFirstEffect | backend/controllers/payment.controller.js:94-104 | the length is kept and at most one coupon changes, only by becoming inactive, and only one with that code and owner; a user without active coupons still has none |
| PaymentController.OwnerCoupon | backend/controllers/payment.controller.js:35-39 | with an undefined owner no coupon is found; otherwise the coupon found is stored, has the code, belongs to the owner and is active, and none is found only when no such coupon exists |
| PaymentController.LoyaltyStore | backend/controllers/payment.controller.js:146-157 | `createNewCoupon` throws exactly when the owner is undefined; otherwise the store is the old one with the owner's first coupon deleted and the gift appended |
| PaymentController.Checkout | backend/controllers/payment.controller.js:5-86 | the handler as a function of the coupon store, the authenticated user, the value read as `req.user_id`, and the provider's answer; `CheckoutEffect` states its cases |
| PaymentController.CheckoutEffect | backend/controllers/payment.controller.js:5-86 | a missing or empty products list gives 400 and no change; a code no active coupon of the owner has gives 500, nothing sent and no change; otherwise the session request holds the line items, the coupon's percentage and the metadata; a failed provider call gives 500; a total up to 20000 gives the session id and the total; a higher total also issues the loyalty coupon, or gives 500 with no change when the owner is undefined |
| PaymentController.CheckoutAsWritten | backend/controllers/payment.controller.js:35-71 | with `req.user_id` undefined, every checkout with a coupon code gives 500 with nothing sent, no checkout changes the coupon store, and one earning a loyalty coupon gives 500 after the session was requested |
| PaymentController.CheckoutAsWrittenCounterexample | backend/controllers/payment.controller.js:35-42 | a user's own active 10 percent coupon on a 1000-cent order: 500 as written, the session with total 900 when the owner is the user |
| PaymentController.CheckoutCorrected | backend/controllers/payment.controller.js:35-71 | with the owner taken from the authenticated user, the user's own active coupon is applied to the total, a loyalty coupon goes to that user, and other users' coupons are unchanged |
| PaymentController.CreateCheckoutSession | backend/controllers/payment.controller.js:5-86 | the loop-priced handler: its reply, the request it sends and the new coupon store are exactly `Checkout` of the old store |
| PaymentController.CreateNewCoupon | backend/controllers/payment.controller.js:146-157 | it fails exactly when the owner is undefined, leaving the store unchanged; otherwise the new store is `LoyaltyStore`'s: the owner's first coupon deleted and the gift coupon appended |
| PaymentController.CheckoutSuccess | backend/controllers/payment.controller.js:88-136 | a failed retrieve, or a session that is not "paid", changes nothing; a paid session deactivates the named coupon, if any, and appends exactly one order built from the session |
| AnalyticsController.DayOf | backend/controllers/analytics.controller.js:94 | the label of a time: its day number in fixed 86400000 ms days |
| AnalyticsController.AddOrder | backend/controllers/analytics.controller.js:65-69 | one order folded into the day groups; `AddOrderFind` states its effect |
| AnalyticsController.Aggregate | backend/controllers/analytics.controller.js:55-72 | the `$match` and `$group` stages as a fold over the orders; `AggregateFind` states what each group holds |
| AnalyticsController.EntryFor | backend/controllers/analytics.controller.js:77-81 | the entry for a label: the group's counts, or 0 and 0; `MergeCountsOrders` and `QuietDayIsZero` state what it reports |
| AnalyticsController.AnalyticsSummary | backend/controllers/analytics.controller.js:40-50 | the summary from the counts and the first aggregation group, or zeros when there is none; `SummaryCountsOrders` states what it reports |
| AnalyticsController.DayOfShift | backend/controllers/analytics.controller.js:94-95 | advancing by one day advances the day label by one |
| AnalyticsController.DayCount | backend/controllers/analytics.controller.js:93-96 | the count is 0 exactly when start is after end; otherwise its last step lies at or before end and the next step after end |
| AnalyticsController.WeekHasEightDays | backend/controllers/analytics.controller.js:9-10 | the window from seven days ago to now has eight days |
| AnalyticsController.GetDateInRange | backend/controllers/analytics.controller.js:89-99 | the labels are consecutive days starting with the day of start, one per step at or before end, and there are none when start is after end |
| AnalyticsController.GroupIndex | backend/controllers/analytics.controller.js:77 | `find` returns the first group with the label, or none when no group has it |
| AnalyticsController.AddOrderFind | backend/controllers/analytics.controller.js:65-69 | grouping one more order grows its day's group by one sale and its amount, or starts that group; other days are unchanged |
| AnalyticsController.AggregateFind | backend/controllers/analytics.controller.js:55-72 | a day has a group exactly when an order in the window was created that day; the group counts those orders and sums their totals |
| AnalyticsController.Merge | backend/controllers/analytics.controller.js:76-83 | one entry per label, in the labels' order |
| AnalyticsController.MergeCountsOrders | backend/controllers/analytics.controller.js:53-83 | each entry reports the number and summed totals of that day's orders in the window |
| AnalyticsController.QuietDayIsZero | backend/controllers/analytics.controller.js:77-81 | a day without orders in the window has no group and reports sales 0 and revenue 0 |
| AnalyticsController.TotalsAggregate | backend/controllers/analytics.controller.js:30-38 | the all-time aggregation has at most one group, and none exactly when there are no orders |
| AnalyticsController.SummaryCountsOrders | backend/controllers/analytics.controller.js:40-50 | the summary counts every order and sums every total, giving 0 and 0 when there are no orders |
| AnalyticsController.AnalyticsData | backend/controllers/analytics.controller.js:5-16 | the answer holds the all-time summary and eight daily entries from a week ago to today, each counting that day's orders in the window |
| AuthController.IsEmail | backend/controllers/auth.controller.js:14 | the pattern test at its landmarks; `IsEmailMatchesPattern` states that it is the pattern |
| AuthController.SignupCheck | backend/controllers/auth.controller.js:9-36 | the first failing sign-up check's message; `FirstFailureDecides` states it against the list of failures |
| AuthController.IsEmailMatchesPattern | backend/controllers/auth.controller.js:14 | the landmark test accepts exactly the strings matching the pattern: local characters, "@", domain characters, ".", two or more letters |
| AuthController.ShapeAtLandmarks | backend/controllers/auth.controller.js:14 | in a matching string the "@" is the first one and the final "." is the last one |
| AuthController.EmailExamples | backend/controllers/auth.controller.js:14 | a two-letter ending is accepted and a one-letter ending is refused |
| AuthController.FirstFailureDecides | backend/controllers/auth.controller.js:9-36 | sign-up is refused exactly when some check fails, with the message of the first failing check in the order missing field, e-mail, password length, username, e-mail taken |
| AuthController.SignupWith | backend/controllers/auth.controller.js:9-52 | a refused request answers 400 with the check's message and stores nothing; an accepted one appends one record holding the hash of the password and answers with id, username and e-mail only |
| AuthController.SignupAsWritten | backend/controllers/auth.controller.js:39-56 | sign-up as written against the user schema: the checks as before, then 500 with nothing stored |
| AuthController.SignupAsWrittenNeverCreates | backend/controllers/auth.controller.js:39-56 | as written nobody signs up and the collection never changes; exactly the requests `SignupWith` accepts get 500 |
| AuthController.SignupAsWrittenExample | backend/controllers/auth.controller.js:39-56 | a well-formed first sign-up gets 500 as written and is created by `SignupWith` |
| AuthController.ShortPasswordNeverSignsUp | backend/controllers/auth.controller.js:20-24 | a password shorter than six characters is always refused and nothing is stored |
| AuthController.SignupKeepsAccountsUnique | backend/controllers/auth.controller.js:26-43 | sign-up keeps usernames and e-mails unique, and accepted users have a well-formed e-mail and a long enough password |
| AuthController.UserStore.Signup | backend/controllers/auth.controller.js:5-52 | the response and the new collection are those of `SignupWith` on the old collection |
| AuthController.FindByEmail | backend/controllers/auth.controller.js:79 | returns a user with that e-mail, and none exactly when no user has it |
| AuthController.Login | backend/controllers/auth.controller.js:63-99 | missing fields give 400 "Please provide all fields"; every other refusal says "Email or password incorrect"; 404 exactly for a well-formed request with an unknown e-mail; for a well-formed request with a known e-mail, the user `findOne` returns is logged in, answered without the password, when the password matches its hash, and 400 otherwise |
| AuthController.ShortPasswordNeverLogsIn | backend/controllers/auth.controller.js:74-77 | a password shorter than six characters never logs in and always gets 400 |
| AuthController.WrongPasswordIs400 | backend/controllers/auth.controller.js:85-89 | a known e-mail with a mismatching password gets 400, not 404 |
| AuthController.SignupThenLogin | backend/controllers/auth.controller.js:38-43 | after sign-up, logging in with the same e-mail and password succeeds when the comparison accepts the stored hash |
| UseCartStore.Subtotal | frontend/src/stores/useCartStore.js:102-105 | the `reduce` sum of price times quantity; `SubtotalAppend` and `SubtotalNonNegative` state its properties |
| UseCartStore.TotalFor | frontend/src/stores/useCartStore.js:106-111 | the subtotal less the coupon's percentage of it; `TotalBounds` states its range |
| UseCartStore.Incremented | frontend/src/stores/useCartStore.js:57-62 | the `map` bumping the product's entries; `IncrementedEntries` and `SubtotalIncremented` state its effect |
| UseCartStore.WithQuantity | frontend/src/stores/useCartStore.js:89-92 | the `map` setting the product's quantity; `WithQuantityEntries` and `SubtotalWithQuantity` state its effect |
| UseCartStore.Added | frontend/src/stores/useCartStore.js:53-65 | the add reducer: bump the product's entries, or append it with quantity 1; `AddedShape` and `AddedSubtotal` state its effect |
| UseCartStore.Removed | frontend/src/stores/useCartStore.js:74-76 | the filter dropping the product's entries; `RemovedShape` and `SubtotalRemoved` state its effect |
| UseCartStore.TotalBounds | frontend/src/stores/useCartStore.js:106-111 | without a coupon the total is the subtotal; with a percentage from 0 to 100 it lies between 0 and the subtotal |
| UseCartStore.SubtotalNonNegative | frontend/src/stores/useCartStore.js:102-105 | non-negative prices and quantities give a non-negative subtotal |
| UseCartStore.SubtotalAppend | frontend/src/stores/useCartStore.js:102-105 | the subtotal of two carts put together is the sum of their subtotals |
| UseCartStore.IncrementedEntries | frontend/src/stores/useCartStore.js:57-62 | the bump keeps every entry's product and adds one to the quantity of exactly the entries for the product |
| UseCartStore.WithQuantityEntries | frontend/src/stores/useCartStore.js:89-92 | the update keeps every entry's product and sets the new quantity on exactly the entries for the product |
| UseCartStore.SubtotalIncremented | frontend/src/stores/useCartStore.js:57-62 | the bump raises the subtotal by the prices of the bumped entries |
| UseCartStore.OthersKeepValue | frontend/src/stores/useCartStore.js:89-92 | setting the product's quantity leaves the value of every other entry as it was |
| UseCartStore.ValueAtQuantity | frontend/src/stores/useCartStore.js:89-92 | after the update the product's entries are worth the new quantity times their prices |
| UseCartStore.SubtotalWithQuantity | frontend/src/stores/useCartStore.js:89-92 | the update replaces the value of the product's entries by the new quantity times their prices |
| UseCartStore.SubtotalRemoved | frontend/src/stores/useCartStore.js:74-76 | removing lowers the subtotal by exactly the value of the product's entries |
| UseCartStore.AddedSubtotal | frontend/src/stores/useCartStore.js:53-65 | adding raises the subtotal by one unit of the product in either branch |
| UseCartStore.AddedShape | frontend/src/stores/useCartStore.js:53-65 | an existing product gains one and the cart keeps its length; a new product is appended with quantity 1; entries stay unique |
| UseCartStore.RemovedShape | frontend/src/stores/useCartStore.js:74-76 | no entry for the product is left, every other entry stays, and an absent product changes nothing |
| UseCartStore.ConsistentTotal | frontend/src/stores/useCartStore.js:102-112 | totals computed from a cart of non-negative prices and a percentage from 0 to 100 satisfy 0 ≤ total ≤ subtotal |
| UseCartStore.CartStore.constructor | frontend/src/stores/useCartStore.js:6-10 | an empty cart, no coupon, zero totals, coupon not applied |
| UseCartStore.CartStore.CalculateTotals | frontend/src/stores/useCartStore.js:99-116 | the subtotal becomes the sum of price times quantity and the total the subtotal less the coupon's percentage; nothing else changes |
| UseCartStore.CartStore.AddToCart | frontend/src/stores/useCartStore.js:48-70 | after a successful call the cart is the add reducer's and the totals agree with it; a failed call changes nothing |
| UseCartStore.CartStore.RemoveFromCart | frontend/src/stores/useCartStore.js:71-81 | after a successful call the cart is the filter's and the totals agree with it; a failed call changes nothing |
| UseCartStore.CartStore.UpdateQuantity | frontend/src/stores/useCartStore.js:82-98 | quantity 0 acts as a removal; otherwise a successful call sets the quantity of the product's entries and the totals agree; a failed call changes nothing |
| UseCartStore.CartStore.RemoveCoupon | frontend/src/stores/useCartStore.js:30-34 | no coupon, not applied, cart unchanged, and the total equals the subtotal |
| UseCartStore.CartStore.ClearCart | frontend/src/stores/useCartStore.js:45-47 | empties cart, coupon and both totals, and leaves `isCouponApplied` as it was |
| UseCartStore.CartStore.GetCartItems | frontend/src/stores/useCartStore.js:35-44 | success replaces the cart and recomputes the totals; failure empties the cart and leaves the totals as they were |
| UseCartStore.CartStore.GetMyCoupon | frontend/src/stores/useCartStore.js:12-19 | success stores the server's coupon (possibly none) without recomputing totals; failure changes nothing |
| UseCartStore.CartStore.ApplyCoupon | frontend/src/stores/useCartStore.js:20-29 | success stores the server's coupon, marks it applied and recomputes the totals; failure changes nothing |
| UseProductStore.Without | frontend/src/stores/useProductStore.js:48-50 | the filter of `deleteProduct`; `WithoutEffect` states its effect |
| UseProductStore.WithFeatured | frontend/src/stores/useProductStore.js:64-68 | the `map` of `toggleFeaturedProduct`; `WithFeaturedEffect` states its effect |
| UseProductStore.CreateAsWritten | frontend/src/stores/useProductStore.js:9-22 | `createProduct` as written, stuck loading after a failure without a response; `CreateAsWrittenStaysLoading` states the difference |
| UseProductStore.WithoutEffect | frontend/src/stores/useProductStore.js:47-52 | no product with the id remains, every other product stays as often as before, and an absent id changes nothing |
| UseProductStore.WithFeaturedEffect | frontend/src/stores/useProductStore.js:63-69 | the list keeps its length; only `isFeatured` changes, only on products with the id, and it takes the server's value |
| UseProductStore.Create | frontend/src/stores/useProductStore.js:9-22 | loading ends false; success appends the server's product at the end; failure keeps the list |
| UseProductStore.CreateAsWrittenStaysLoading | frontend/src/stores/useProductStore.js:18-21 | as written, a failure without a response leaves loading true, where the corrected action ends with loading false; every other outcome is the same for both |
| UseProductStore.ProductStore.constructor | frontend/src/stores/useProductStore.js:6-7 | an empty list, not loading |
| UseProductStore.ProductStore.SetProducts | frontend/src/stores/useProductStore.js:8 | the list is replaced wholesale and loading is untouched |
| UseProductStore.ProductStore.CreateProduct | frontend/src/stores/useProductStore.js:9-22 | the new state is `Create` of the old one: loading false, the product appended on success |
| UseProductStore.ProductStore.CreateProductAsWritten | frontend/src/stores/useProductStore.js:9-22 | the new state is `CreateAsWritten` of the old one |
| UseProductStore.ProductStore.FetchProducts | frontend/src/stores/useProductStore.js:23-42 | the shared body of the three fetch actions: success replaces the list with the server's, failure keeps it, and loading ends false |
| UseProductStore.ProductStore.FetchAllProducts | frontend/src/stores/useProductStore.js:23-32 | success replaces the list with the server's; failure keeps it; loading ends false |
| UseProductStore.ProductStore.FetchProductsByCategory | frontend/src/stores/useProductStore.js:33-42 | success replaces the list with the server's; failure keeps it; loading ends false |
| UseProductStore.ProductStore.FetchFeaturedProducts | frontend/src/stores/useProductStore.js:76-85 | success replaces the list with the server's; failure keeps it; loading ends false |
| UseProductStore.ProductStore.DeleteProduct | frontend/src/stores/useProductStore.js:43-58 | success removes every product with the id and keeps the rest; failure keeps the list; loading ends false |
| UseProductStore.ProductStore.ToggleFeaturedProduct | frontend/src/stores/useProductStore.js:59-75 | success sets the server's `isFeatured` on the products with the id; failure keeps the list; loading ends false |

## Left out

- I/O and external services are parameters: the database, Stripe, the clock, `Math.random`, bcrypt, and the HTTP client. Their failures are modelled only where a handler or store action catches them: a failed retrieve, a failed provider call, or a failed client call. A generic 500 from a database error is not modelled.
- Cookies and JWT are left out: `generateTokenAndSetCookie`, the `protectRoute`/`adminRoute` middlewares, `logout` and `getMe`. The pre-save password hook in backend/models/user.model.js is left out too.
- The routes, the server set-up, the database connection and the UI components are left out.
- UseCartStore.CartStore.RemoveFromCart: the cart routes (backend/routes/cart.route.js:14) have `DELETE /` but no `DELETE /:id`, so as routed the client's `DELETE /carts/:id` gets a 404. The call outcome `ok` is then always false, for `RemoveFromCart` and for `UpdateQuantity(id, 0, ok)`, and the local cart never changes. The model keeps `ok` an input, so its success branch is the behaviour the client intends.
- Concurrency is not modelled: lost updates between concurrent requests, and the client's un-awaited `removeFromCart` inside `updateQuantity`.
- AuthController.SignupWith: it is the intended sign-up; as written, the schema's required `name` makes every accepted request fail (see Findings, modelled by `SignupAsWritten`). The schema's length and uniqueness validators are left out.
- AuthController.SignupWith: `|req.password|` counts characters, while JavaScript's `password.length` (auth.controller.js:20, 74) counts UTF-16 code units. A password of three characters outside the Basic Multilingual Plane has length 6 there and 3 here. The same holds for `Login`.
- PaymentController.UnitAmount: prices are taken to be integer cents already, so the floating-point `Math.round(price * 100)` is the price itself. The reply's `totalAmount / 100` and the order's `amount_total / 100` are kept in cents.
- PaymentController.OwnerCoupon: the coupon lookup and the loyalty coupon use `req.user_id`, which nothing sets (the authentication middleware sets only `req.user`), so as written the owner is undefined (`None`). The model assumes the database driver sends an undefined filter value as null, so that it matches no stored coupon. It also assumes that the coupon schema requires an owner, so `Coupon.create` without one fails; backend/models/coupon.model.js is not part of this model. If the filter key were dropped instead, `findOne` would match any user's coupon and `findOneAndDelete` would delete any user's first coupon; that variant is not modelled.
- PaymentController.CreateCheckoutSession: `createStripeCoupon` is folded into the request's `discount` field.
- PaymentController.CheckoutSuccess: the generated order id is the index of the appended order.
- PaymentController.CheckoutSuccess: an unpaid session leaves the request unanswered, which is modelled as the mere outcome `NoResponse`.
- JSON `stringify`/`parse` of the products metadata is the identity.
- Non-numeric quantities are left out, and so are falsy values other than 0.
- AnalyticsController.DayOf: days are fixed 86400000 ms intervals in UTC, so local-time `setDate` steps of 23 or 25 hours are not modelled. A label is the day number, not its "YYYY-MM-DD" text.
- AnalyticsController.Aggregate: the `$sort` stage is left out. The merge looks groups up by label, so the order of the groups does not change its result.
- AnalyticsController.EntryFor: `x || 0` on a number is taken to be `x`, so NaN is not modelled.
- UseCartStore.Subtotal: prices and totals are exact reals, so floating-point rounding of JavaScript numbers is not modelled.
- UseCartStore.CartStore.ApplyCoupon: toast messages are not modelled. A `catch` that itself throws on a missing response is not modelled either, except where it changes state, as in `createProduct`.
- AuthController.IsEmail: strings are sequences of characters, and the pattern's character classes are ASCII. Request fields that are not strings are not modelled; an absent field is the empty string.
- AuthController.Login: bcrypt's comparison is an arbitrary predicate `matches`. The model does not state that it is the inverse of the hash.

## Findings

| source | as written | input that shows it | evidently intended | confidence | as-written member | corrected member |
|---|---|---|---|---|---|---|
| backend/controllers/coupon.controller.js:23-29 | `Coupon.findOne(...)` is not awaited, so `coupon` is a pending query. The `!coupon` test never fires, the expiry test compares `undefined`, and the answer is 200 "valid" with no code or percentage. | A user with no coupons posts code "GIFTABC123". | Await the lookup: answer 404 "Coupon not found" here, and "Coupon expired" (deactivating it) for an expired coupon. | not executed | CouponController.AsWrittenCounterexample | CouponController.CouponStore.ValidateCoupon |
| backend/controllers/payment.controller.js:35-71 | The coupon lookup (line 37) and `createNewCoupon` (line 71) use `req.user_id`, which is undefined: the middleware sets only `req.user`. No coupon is found, so every checkout with a code throws on `coupon.discountPercentage` and gets 500; a checkout above 20000 cents also gets 500, because the gift coupon has no owner. | A user posts their own active "SAVE10" coupon with one 1000-cent product. | Use `req.user._id`: the session is created with total 900, and the loyalty coupon goes to that user. | not executed | PaymentController.CheckoutAsWrittenCounterexample | PaymentController.CheckoutCorrected |
| backend/controllers/auth.controller.js:39-56 | `User.create` passes `username`, but the user schema requires `name` (backend/models/user.model.js:6-10) and drops unknown fields. Creation fails validation, so every request that passes the five checks gets 500 and nothing is stored. | A first sign-up "ab", "ab@cd.io", "secret". | Store the user and answer 201 with id, username and e-mail. | not executed | AuthController.SignupAsWrittenExample | AuthController.SignupWith |
| frontend/src/stores/useProductStore.js:18-21 | In `createProduct`'s `catch`, the toast reads `error.response.data` before `loading` is reset. A failure with no response throws there, so `loading` stays true. | A network error, i.e. no response, during `createProduct`. | End with `loading` false on every failure, as the other actions do. | not executed | UseProductStore.CreateAsWrittenStaysLoading | UseProductStore.ProductStore.CreateProduct |
