/**
 * Checkout (backend/controllers/payment.controller.js): pricing the request's
 * products, applying the user's coupon, building the payment provider's session
 * request, issuing a loyalty coupon, and recording the order once the provider
 * reports the session paid. The provider itself is not modelled: what it returns
 * (a session id, a retrieved session) comes in as a parameter. Amounts are integer
 * cents throughout, so a product's `price` already is its unit amount.
 */
module PaymentController {
  import opened Wrappers
  import Seqs
  import opened CouponController

  /** An element of the request's `products` (price in cents; 0 is the only falsy quantity). */
  datatype CheckoutProduct = CheckoutProduct(id: string, name: string, image: string, price: int, quantity: int)

  /** A provider line item (currency "usd"). */
  datatype LineItem = LineItem(name: string, image: string, unitAmount: int, quantity: int)

  /** One element of the `products` metadata: id, quantity and price of a checkout product. */
  datatype MetaProduct = MetaProduct(id: string, quantity: int, price: int)

  /** The session metadata; the `products` text of the source is its JSON, here the value itself. */
  datatype Metadata = Metadata(userId: UserId, couponCode: string, products: seq<MetaProduct>)

  /** What the handler submits to the provider: line items, an optional percent-off discount, metadata. */
  datatype SessionRequest = SessionRequest(lineItems: seq<LineItem>, discount: Option<int>, metadata: Metadata)

  /** `createCheckoutSession`'s reply; `totalAmount` is in cents (the source divides by 100). */
  datatype SessionResponse =
    | Created(sessionId: string, totalAmount: int)
    | BadRequest(message: string)
    | InternalError

  /** A session as the provider returns it from `retrieve`. */
  datatype ProviderSession = ProviderSession(paymentStatus: string, metadata: Metadata, amountTotal: int)

  datatype OrderLine = OrderLine(product: string, quantity: int, price: int)

  datatype Order = Order(user: UserId, products: seq<OrderLine>, totalAmount: int, stripeSessionId: string)

  /** `checkoutSuccess`'s reply; `NoResponse` is the unpaid case, where the handler never answers. */
  datatype ConfirmResponse = OrderCreated(orderId: nat) | NoResponse | ConfirmFailed

  /** Totals strictly above this many cents earn a loyalty coupon. */
  const LoyaltyThreshold := 20000
  const LoyaltyPercentage := 10
  /** Thirty days in milliseconds. */
  const CouponLifetime := 30 * 24 * 60 * 60 * 1000
  const GiftPrefix := "GIFT"

  /** `Math.round(product.price * 100)`: with prices held in cents, the price itself. */
  function UnitAmount(p: CheckoutProduct): int {
    p.price
  }

  /** `product.quantity || 1`. */
  function LineQuantity(quantity: int): (q: int)
    ensures quantity == 0 ==> q == 1
    ensures quantity != 0 ==> q == quantity
  {
    if quantity == 0 then 1 else quantity
  }

  function LineItemFor(p: CheckoutProduct): LineItem {
    LineItem(p.name, p.image, UnitAmount(p), LineQuantity(p.quantity))
  }

  /** The line items, one per product in the same order. */
  function LineItems(ps: seq<CheckoutProduct>): seq<LineItem> {
    seq(|ps|, k requires 0 <= k < |ps| => LineItemFor(ps[k]))
  }

  /** The undiscounted total: unit amount times quantity, summed over the products. */
  function Total(ps: seq<CheckoutProduct>): int
    decreases |ps|
  {
    if ps == [] then 0 else Total(ps[..|ps| - 1]) + UnitAmount(ps[|ps| - 1]) * ps[|ps| - 1].quantity
  }

  /** What the provider charges for a list of line items. */
  function Charged(items: seq<LineItem>): int
    decreases |items|
  {
    if items == [] then 0 else Charged(items[..|items| - 1]) + items[|items| - 1].unitAmount * items[|items| - 1].quantity
  }

  /**
   * The `products.map` pass: collects one line item per product and accumulates the
   * total with `+=` as it goes.
   */
  method PriceProducts(products: seq<CheckoutProduct>) returns (total: int, lineItems: seq<LineItem>)
    ensures |lineItems| == |products|
    ensures forall k :: 0 <= k < |products| ==>
              lineItems[k] == LineItem(products[k].name, products[k].image, products[k].price,
                                       if products[k].quantity == 0 then 1 else products[k].quantity)
    ensures total == Total(products)
  {
    total, lineItems := 0, [];
    var i := 0;
    while i < |products|
      invariant 0 <= i <= |products|
      invariant |lineItems| == i
      invariant forall k :: 0 <= k < i ==> lineItems[k] == LineItemFor(products[k])
      invariant total == Total(products[..i])
    {
      var product := products[i];
      var amount := UnitAmount(product);
      total := total + amount * product.quantity;
      lineItems := lineItems + [LineItemFor(product)];
      assert products[..i + 1][..i] == products[..i];
      i := i + 1;
    }
    assert products[..i] == products;
  }

  /** When no quantity is 0, the provider charges exactly the computed total. */
  lemma {:induction false} ChargedIsTotal(ps: seq<CheckoutProduct>)
    requires forall k :: 0 <= k < |ps| ==> ps[k].quantity != 0
    ensures Charged(LineItems(ps)) == Total(ps)
    decreases |ps|
  {
    if ps != [] {
      var init := ps[..|ps| - 1];
      ChargedIsTotal(init);
      assert LineItems(ps)[..|ps| - 1] == LineItems(init);
    }
  }

  /** A product with quantity 0 counts nothing in the total but is charged once. */
  lemma ZeroQuantityIsChargedOnce(p: CheckoutProduct)
    requires p.quantity == 0
    ensures Total([p]) == 0
    ensures Charged(LineItems([p])) == p.price
  {
    assert [p][..0] == [];
    assert LineItems([p])[..0] == [];
  }

  /** With prices and quantities non-negative, so is the total. */
  lemma {:induction false} TotalNonNegative(ps: seq<CheckoutProduct>)
    requires forall k :: 0 <= k < |ps| ==> ps[k].price >= 0 && ps[k].quantity >= 0
    ensures Total(ps) >= 0
    decreases |ps|
  {
    if ps != [] {
      var last := ps[|ps| - 1];
      TotalNonNegative(ps[..|ps| - 1]);
      assert UnitAmount(last) * last.quantity >= 0;
    }
  }

  /** `Math.round(n / 100)` for an integer `n`: the nearest integer, halves rounded up. */
  function RoundDiv100(n: int): (r: int)
    ensures 100 * r - 50 <= n < 100 * r + 50
  {
    (n + 50) / 100
  }

  /** `totalAmount -= Math.round(totalAmount * pct / 100)`. */
  function Discounted(total: int, pct: int): int {
    total - RoundDiv100(total * pct)
  }

  /** A percentage between 0 and 100 keeps a non-negative total between 0 and itself. */
  lemma DiscountedBounds(total: int, pct: int)
    requires total >= 0 && 0 <= pct <= 100
    ensures 0 <= Discounted(total, pct) <= total
    ensures pct == 0 ==> Discounted(total, pct) == total
    ensures pct == 100 ==> Discounted(total, pct) == 0
  {
    var n := total * pct;
    assert 0 <= n <= 100 * total by {
      assert total * pct <= total * 100;
    }
    var r := RoundDiv100(n);
    assert 0 <= r <= total;
  }

  /** The coupon `createCheckoutSession` finds for a code: same code, the looked-up owner, active. */
  function CheckoutCoupon(coupons: seq<Coupon>, couponCode: string, owner: UserId): (r: Option<Coupon>)
    ensures r.Some? ==> r.value in coupons && r.value.code == couponCode && r.value.userId == owner && r.value.isActive
    ensures r.None? ==> forall c :: c in coupons ==> !(c.code == couponCode && c.userId == owner && c.isActive)
  {
    match FindFirst(coupons, ActiveWithCode(couponCode, owner))
    case Some(i) => Some(coupons[i])
    case None => None
  }

  /** The total after the optional coupon. */
  function SessionTotal(ps: seq<CheckoutProduct>, coupon: Option<Coupon>): int {
    match coupon
    case None => Total(ps)
    case Some(c) => Discounted(Total(ps), c.discountPercentage)
  }

  /** `products.map(p => ({id: p._id, quantity: p.quantity, price: p.price}))`. */
  function EncodeProducts(ps: seq<CheckoutProduct>): (ms: seq<MetaProduct>)
    decreases |ps|
  {
    if ps == [] then [] else [MetaProduct(ps[0].id, ps[0].quantity, ps[0].price)] + EncodeProducts(ps[1..])
  }

  /** `products.map(product => ({product: product.id, quantity: ..., price: ...}))` on the parsed metadata. */
  function DecodeOrderLines(ms: seq<MetaProduct>): (lines: seq<OrderLine>)
    decreases |ms|
  {
    if ms == [] then [] else [OrderLine(ms[0].id, ms[0].quantity, ms[0].price)] + DecodeOrderLines(ms[1..])
  }

  /**
   * Round trip of the products metadata: the order lines decoded from what the
   * session carried are the checkout products' (id, quantity, price), in order.
   */
  lemma {:induction false} MetadataRoundTrip(ps: seq<CheckoutProduct>)
    ensures |DecodeOrderLines(EncodeProducts(ps))| == |ps|
    ensures forall k :: 0 <= k < |ps| ==>
              DecodeOrderLines(EncodeProducts(ps))[k] == OrderLine(ps[k].id, ps[k].quantity, ps[k].price)
    decreases |ps|
  {
    if ps != [] {
      MetadataRoundTrip(ps[1..]);
      assert EncodeProducts(ps)[1..] == EncodeProducts(ps[1..]);
    }
  }

  /** The order `checkoutSuccess` builds from a retrieved session. */
  function OrderFrom(session: ProviderSession, sessionId: string): Order {
    Order(session.metadata.userId, DecodeOrderLines(session.metadata.products), session.amountTotal, sessionId)
  }

  /**
   * An order recorded for the session a checkout created holds that checkout's user
   * and one line per checkout product. Its price is the product's price, which under
   * the cents convention of this model is also the line item's unit amount.
   */
  lemma OrderRecordsCheckout(userId: UserId, couponCode: string, ps: seq<CheckoutProduct>,
                             status: string, amountTotal: int, sessionId: string)
    ensures var o := OrderFrom(ProviderSession(status, Metadata(userId, couponCode, EncodeProducts(ps)), amountTotal), sessionId);
      && o.user == userId && o.totalAmount == amountTotal && o.stripeSessionId == sessionId
      && |o.products| == |ps| == |LineItems(ps)|
      && forall k :: 0 <= k < |ps| ==>
           o.products[k].product == ps[k].id && o.products[k].quantity == ps[k].quantity
           && o.products[k].price == LineItems(ps)[k].unitAmount
  {
    MetadataRoundTrip(ps);
  }

  /** `Coupon.findOneAndDelete({userId})`: the user's first coupon, whatever its state, is removed. */
  function WithoutFirstOf(coupons: seq<Coupon>, user: UserId): seq<Coupon> {
    match FindFirst(coupons, Query(None, user, false))
    case None => coupons
    case Some(i) => coupons[..i] + coupons[i + 1..]
  }

  /** The coupon `createNewCoupon` creates (active by the coupon schema's default). */
  function GiftCoupon(user: UserId, suffix: string, now: int): Coupon {
    Coupon(GiftPrefix + suffix, LoyaltyPercentage, now + CouponLifetime, user, true)
  }

  /** The store after `createNewCoupon`: at most one of the user's coupons deleted, the gift appended. */
  function WithNewCoupon(coupons: seq<Coupon>, user: UserId, suffix: string, now: int): seq<Coupon> {
    WithoutFirstOf(coupons, user) + [GiftCoupon(user, suffix, now)]
  }

  /** The filter keeping the coupons of every user but `user`. */
  function NotOwnedBy(user: UserId): Coupon -> bool {
    (c: Coupon) => c.userId != user
  }

  /** The filter keeping the coupons of `user`. */
  function OwnedByUser(user: UserId): Coupon -> bool {
    (c: Coupon) => c.userId == user
  }

  /** The coupons not owned by `user`, in store order. */
  function OthersOf(coupons: seq<Coupon>, user: UserId): seq<Coupon> {
    Seqs.Filter(coupons, NotOwnedBy(user))
  }

  /** The coupons owned by `user`, in store order. */
  function OwnedBy(coupons: seq<Coupon>, user: UserId): seq<Coupon> {
    Seqs.Filter(coupons, OwnedByUser(user))
  }

  /** Removing the user's first coupon leaves everybody else's coupons as they were. */
  lemma WithoutFirstOfKeepsOthers(coupons: seq<Coupon>, user: UserId)
    ensures OthersOf(WithoutFirstOf(coupons, user), user) == OthersOf(coupons, user)
  {
    match FindFirst(coupons, Query(None, user, false))
    case None =>
    case Some(i) =>
      Seqs.FilterSkip(coupons, i, NotOwnedBy(user));
  }

  /** Removing the user's first coupon takes exactly one of the user's coupons, if there is one. */
  lemma WithoutFirstOfTakesOne(coupons: seq<Coupon>, user: UserId)
    ensures |OwnedBy(WithoutFirstOf(coupons, user), user)|
         == if |OwnedBy(coupons, user)| == 0 then 0 else |OwnedBy(coupons, user)| - 1
  {
    match FindFirst(coupons, Query(None, user, false))
    case None =>
      Seqs.FilterKeepsNone(coupons, OwnedByUser(user));
    case Some(i) =>
      Seqs.FilterAround(coupons, i, OwnedByUser(user));
      Seqs.FilterWithout(coupons, i, OwnedByUser(user));
      Seqs.FilterKeepsNone(coupons[..i], OwnedByUser(user));
  }

  /**
   * `createNewCoupon`: the gift coupon (code "GIFT" + suffix, 10 percent, thirty days)
   * ends the store, at most one earlier coupon of the user is gone, and every other
   * user's coupons are unchanged and in the same order.
   */
  lemma NewCouponEffect(coupons: seq<Coupon>, user: UserId, suffix: string, now: int)
    ensures var r := WithNewCoupon(coupons, user, suffix, now);
      && |coupons| <= |r| <= |coupons| + 1
      && r[|r| - 1] == Coupon(GiftPrefix + suffix, 10, now + 2592000000, user, true)
      && r[|r| - 1].code[..4] == "GIFT"
      && OthersOf(r, user) == OthersOf(coupons, user)
      && |OwnedBy(r, user)| == if |OwnedBy(coupons, user)| == 0 then 1 else |OwnedBy(coupons, user)|
  {
    var w := WithoutFirstOf(coupons, user);
    var g := GiftCoupon(user, suffix, now);
    WithoutFirstOfKeepsOthers(coupons, user);
    WithoutFirstOfTakesOne(coupons, user);
    Seqs.FilterAppend(w, [g], NotOwnedBy(user));
    Seqs.FilterAppend(w, [g], OwnedByUser(user));
    assert OthersOf([g], user) == [];
    assert OwnedBy([g], user) == [g];
    assert (GiftPrefix + suffix)[..4] == "GIFT";
  }

  /**
   * Delete-then-create does not by itself keep one active coupon per user: when the
   * user's first coupon is a used one, an active coupon behind it survives.
   */
  lemma NewCouponCanLeaveTwoActive(user: UserId, suffix: string, now: int)
    ensures var used := Coupon("OLD", 10, 0, user, false);
      var live := Coupon("LIVE", 10, now + 1, user, true);
      && AtMostOneActive([used, live], user)
      && !AtMostOneActive(WithNewCoupon([used, live], user, suffix, now), user)
  {
    var used := Coupon("OLD", 10, 0, user, false);
    var live := Coupon("LIVE", 10, now + 1, user, true);
    assert FindFirst([used, live], Query(None, user, false)) == Some(0);
    var r := WithNewCoupon([used, live], user, suffix, now);
    assert r == [live, GiftCoupon(user, suffix, now)];
    assert r[0].userId == user && r[1].userId == user && r[0].isActive && r[1].isActive;
  }

  /** `Coupon.findOneAndUpdate({code, userId}, {isActive: false})`: the first such coupon, active or not. */
  function DeactivateFirst(coupons: seq<Coupon>, code: string, user: UserId): seq<Coupon> {
    match FindFirst(coupons, Query(Some(code), user, false))
    case None => coupons
    case Some(i) => coupons[i := coupons[i].(isActive := false)]
  }

  /** Deactivation changes at most one coupon, one with that code and owner, and only its `isActive`. */
  lemma DeactivateFirstEffect(coupons: seq<Coupon>, code: string, user: UserId)
    ensures var r := DeactivateFirst(coupons, code, user);
      && |r| == |coupons|
      && (forall k :: 0 <= k < |r| ==>
            || r[k] == coupons[k]
            || (r[k] == coupons[k].(isActive := false) && coupons[k].code == code && coupons[k].userId == user))
      && (forall k, m :: 0 <= k < m < |r| ==> r[k] == coupons[k] || r[m] == coupons[m])
      && (ActiveCoupon(coupons, user).None? ==> ActiveCoupon(r, user).None?)
  {
    var r := DeactivateFirst(coupons, code, user);
    if ActiveCoupon(coupons, user).None? {
      forall c | c in r ensures !(c.userId == user && c.isActive) {
        var j :| 0 <= j < |r| && r[j] == c;
        assert coupons[j] in coupons;
      }
    }
  }

  /** The orders collection. */
  class OrderStore {
    var orders: seq<Order>

    constructor (initial: seq<Order>)
      ensures orders == initial
    {
      orders := initial;
    }
  }

  /**
   * `Coupon.findOne({code, userId: owner, isActive: true})` with `owner` the value read
   * as `req.user_id` (`None`: undefined). An undefined filter value is sent as null,
   * and every stored coupon has an owner, so then nothing matches.
   */
  function OwnerCoupon(coupons: seq<Coupon>, couponCode: string, owner: Option<UserId>): (r: Option<Coupon>)
    ensures owner.None? ==> r.None?
    ensures r.Some? ==> r.value in coupons && r.value.code == couponCode && Some(r.value.userId) == owner && r.value.isActive
    ensures owner.Some? && r.None? ==>
              forall c :: c in coupons ==> !(c.code == couponCode && c.userId == owner.value && c.isActive)
  {
    match owner
    case None => None
    case Some(u) => CheckoutCoupon(coupons, couponCode, u)
  }

  /**
   * The store after `createNewCoupon(owner)`, `None` when it throws: with an undefined
   * owner `findOneAndDelete` matches nothing and `Coupon.create` fails validation, the
   * owner being a required field.
   */
  function LoyaltyStore(coupons: seq<Coupon>, owner: Option<UserId>, suffix: string, now: int): (r: Option<seq<Coupon>>)
    ensures r.None? <==> owner.None?
    ensures r.Some? ==> r.value == WithNewCoupon(coupons, owner.value, suffix, now)
  {
    match owner
    case None => None
    case Some(u) => Some(WithNewCoupon(coupons, u, suffix, now))
  }

  /** The reply, the request sent to the provider, and the coupon store after `createCheckoutSession`. */
  datatype CheckoutResult = CheckoutResult(response: SessionResponse, sent: Option<SessionRequest>, coupons: seq<Coupon>)

  /**
   * `createCheckoutSession` as a function of the coupon store. `userId` is the
   * authenticated user (`req.user._id`) written into the metadata; `owner` is what the
   * handler reads as `req.user_id` for the coupon lookup and the loyalty coupon;
   * `provider` is the session id the provider returns, `None` when that call fails.
   */
  function Checkout(coupons: seq<Coupon>, userId: UserId, owner: Option<UserId>,
                    products: Option<seq<CheckoutProduct>>, couponCode: string,
                    provider: Option<string>, giftSuffix: string, now: int): CheckoutResult
  {
    if products.None? || |products.value| == 0 then
      CheckoutResult(BadRequest("Invalid or empty products array"), None, coupons)
    else
      var ps := products.value;
      var coupon := if couponCode == "" then None else OwnerCoupon(coupons, couponCode, owner);
      if couponCode != "" && coupon.None? then
        // `coupon.discountPercentage` on null throws
        CheckoutResult(InternalError, None, coupons)
      else
        var total := SessionTotal(ps, coupon);
        var sent := Some(SessionRequest(LineItems(ps),
                                        if coupon.Some? then Some(coupon.value.discountPercentage) else None,
                                        Metadata(userId, couponCode, EncodeProducts(ps))));
        if provider.None? then CheckoutResult(InternalError, sent, coupons)
        else if total <= LoyaltyThreshold then CheckoutResult(Created(provider.value, total), sent, coupons)
        else match LoyaltyStore(coupons, owner, giftSuffix, now)
          case None => CheckoutResult(InternalError, sent, coupons)
          case Some(after) => CheckoutResult(Created(provider.value, total), sent, after)
  }

  /**
   * What a checkout does: 400 on no products; 500 when a code is given and no active
   * coupon of the owner has it; otherwise the session request with the line items, the
   * coupon's percentage and the metadata, and, once the provider answers, the
   * discounted total, with a loyalty coupon strictly above 20000 cents.
   */
  lemma CheckoutEffect(coupons: seq<Coupon>, userId: UserId, owner: Option<UserId>,
                       products: Option<seq<CheckoutProduct>>, couponCode: string,
                       provider: Option<string>, giftSuffix: string, now: int)
    ensures var r := Checkout(coupons, userId, owner, products, couponCode, provider, giftSuffix, now);
      && (products.None? || |products.value| == 0 ==>
            r == CheckoutResult(BadRequest("Invalid or empty products array"), None, coupons))
      && (products.Some? && |products.value| > 0 && couponCode != ""
          && OwnerCoupon(coupons, couponCode, owner).None? ==>
            r == CheckoutResult(InternalError, None, coupons))
      && (products.Some? && |products.value| > 0
          && (couponCode == "" || OwnerCoupon(coupons, couponCode, owner).Some?) ==>
            var ps := products.value;
            var coupon := if couponCode == "" then None else OwnerCoupon(coupons, couponCode, owner);
            var total := SessionTotal(ps, coupon);
            && r.sent == Some(SessionRequest(LineItems(ps),
                                             if coupon.Some? then Some(coupon.value.discountPercentage) else None,
                                             Metadata(userId, couponCode, EncodeProducts(ps))))
            && (provider.None? || (total > LoyaltyThreshold && owner.None?) ==>
                  r.response == InternalError && r.coupons == coupons)
            && (provider.Some? && total <= LoyaltyThreshold ==>
                  r.response == Created(provider.value, total) && r.coupons == coupons)
            && (provider.Some? && total > LoyaltyThreshold && owner.Some? ==>
                  && r.response == Created(provider.value, total)
                  && r.coupons == WithNewCoupon(coupons, owner.value, giftSuffix, now)))
  {
  }

  /**
   * As written (`req.user_id` undefined): no checkout with a coupon code goes through,
   * no checkout changes the coupon store, and one that earns a loyalty coupon is
   * answered 500 after the provider session was created.
   */
  lemma CheckoutAsWritten(coupons: seq<Coupon>, userId: UserId, ps: seq<CheckoutProduct>, couponCode: string,
                          provider: Option<string>, giftSuffix: string, now: int)
    requires |ps| > 0
    ensures couponCode != "" ==>
              (Checkout(coupons, userId, None, Some(ps), couponCode, provider, giftSuffix, now)
               == CheckoutResult(InternalError, None, coupons))
    ensures Checkout(coupons, userId, None, Some(ps), couponCode, provider, giftSuffix, now).coupons == coupons
    ensures couponCode == "" && Total(ps) > LoyaltyThreshold ==>
              var r := Checkout(coupons, userId, None, Some(ps), couponCode, provider, giftSuffix, now);
              r.response == InternalError && r.sent.Some?
  {
  }

  /** A user's own active coupon: refused with 500 as written, applied (10 percent off) with the user's id. */
  lemma CheckoutAsWrittenCounterexample(now: int)
    ensures var coupons := [Coupon("SAVE10", 10, now + 1, "u1", true)];
      var ps := [CheckoutProduct("p1", "Shirt", "shirt.png", 1000, 1)];
      && Checkout(coupons, "u1", None, Some(ps), "SAVE10", Some("s1"), "ABC123", now).response == InternalError
      && Checkout(coupons, "u1", Some("u1"), Some(ps), "SAVE10", Some("s1"), "ABC123", now).response == Created("s1", 900)
  {
    var c := Coupon("SAVE10", 10, now + 1, "u1", true);
    var ps := [CheckoutProduct("p1", "Shirt", "shirt.png", 1000, 1)];
    assert FindFirst([c], ActiveWithCode("SAVE10", "u1")) == Some(0);
    assert ps[..0] == [];
    assert Total(ps) == 1000;
  }

  /**
   * With the owner taken from the authenticated user: the user's own active coupon is
   * applied, a loyalty coupon goes to that user, and every other user's coupons stay
   * as they were.
   */
  lemma CheckoutCorrected(coupons: seq<Coupon>, userId: UserId, ps: seq<CheckoutProduct>, couponCode: string,
                          provider: Option<string>, giftSuffix: string, now: int)
    requires |ps| > 0
    ensures var r := Checkout(coupons, userId, Some(userId), Some(ps), couponCode, provider, giftSuffix, now);
      && (couponCode != "" && CheckoutCoupon(coupons, couponCode, userId).Some? && provider.Some? ==>
            r.response == Created(provider.value, Discounted(Total(ps), CheckoutCoupon(coupons, couponCode, userId).value.discountPercentage)))
      && (r.response.Created? ==> OthersOf(r.coupons, userId) == OthersOf(coupons, userId))
      && (couponCode == "" && provider.Some? && Total(ps) > LoyaltyThreshold ==>
            r.coupons == WithNewCoupon(coupons, userId, giftSuffix, now))
  {
    WithoutFirstOfKeepsOthers(coupons, userId);
    NewCouponEffect(coupons, userId, giftSuffix, now);
  }

  /**
   * `createCheckoutSession`, with the `products.map` pass as a loop; `owner` is what
   * the handler reads as `req.user_id`, `giftSuffix` and `now` the random code
   * suffix and the clock.
   */
  method CreateCheckoutSession(store: CouponStore, userId: UserId, owner: Option<UserId>,
                               products: Option<seq<CheckoutProduct>>, couponCode: string,
                               provider: Option<string>, giftSuffix: string, now: int)
    returns (response: SessionResponse, sent: Option<SessionRequest>)
    modifies store
    ensures CheckoutResult(response, sent, store.coupons)
         == Checkout(old(store.coupons), userId, owner, products, couponCode, provider, giftSuffix, now)
  {
    sent := None;
    if products.None? || |products.value| == 0 {
      return BadRequest("Invalid or empty products array"), None;
    }
    var ps := products.value;
    var totalAmount, lineItems := PriceProducts(ps);
    assert lineItems == LineItems(ps);

    var coupon: Option<Coupon> := None;
    if couponCode != "" {
      coupon := OwnerCoupon(store.coupons, couponCode, owner);
      if coupon.None? {
        return InternalError, None;
      }
      totalAmount := totalAmount - RoundDiv100(totalAmount * coupon.value.discountPercentage);
    }

    var discount := if coupon.Some? then Some(coupon.value.discountPercentage) else None;
    sent := Some(SessionRequest(lineItems, discount, Metadata(userId, couponCode, EncodeProducts(ps))));
    if provider.None? {
      return InternalError, sent;
    }

    if totalAmount > LoyaltyThreshold {
      var created := CreateNewCoupon(store, owner, giftSuffix, now);
      if !created {
        return InternalError, sent;
      }
    }
    response := Created(provider.value, totalAmount);
  }

  /** `createNewCoupon(owner)`; `created` is false when `Coupon.create` throws. */
  method CreateNewCoupon(store: CouponStore, owner: Option<UserId>, suffix: string, now: int) returns (created: bool)
    modifies store
    ensures created == owner.Some?
    ensures LoyaltyStore(old(store.coupons), owner, suffix, now) == if created then Some(store.coupons) else None
    ensures !created ==> store.coupons == old(store.coupons)
  {
    if owner.None? {
      return false;
    }
    store.coupons := WithoutFirstOf(store.coupons, owner.value);
    store.coupons := store.coupons + [GiftCoupon(owner.value, suffix, now)];
    created := true;
  }

  /**
   * `checkoutSuccess` for the session the provider returned (`None`: the retrieve
   * call failed). Only a "paid" session changes anything: the metadata's coupon, if
   * it names one, is deactivated and exactly one order is appended.
   */
  method CheckoutSuccess(coupons: CouponStore, orders: OrderStore, sessionId: string,
                         retrieved: Option<ProviderSession>)
    returns (response: ConfirmResponse)
    modifies coupons, orders
    ensures retrieved.None? ==>
              response == ConfirmFailed && coupons.coupons == old(coupons.coupons) && orders.orders == old(orders.orders)
    ensures retrieved.Some? && retrieved.value.paymentStatus != "paid" ==>
              response == NoResponse && coupons.coupons == old(coupons.coupons) && orders.orders == old(orders.orders)
    ensures retrieved.Some? && retrieved.value.paymentStatus == "paid" ==>
              var m := retrieved.value.metadata;
              && response == OrderCreated(|old(orders.orders)|)
              && orders.orders == old(orders.orders) + [OrderFrom(retrieved.value, sessionId)]
              && coupons.coupons == if m.couponCode != "" then DeactivateFirst(old(coupons.coupons), m.couponCode, m.userId)
                                    else old(coupons.coupons)
  {
    if retrieved.None? {
      return ConfirmFailed;
    }
    var session := retrieved.value;
    if session.paymentStatus != "paid" {
      return NoResponse;
    }
    if session.metadata.couponCode != "" {
      coupons.coupons := DeactivateFirst(coupons.coupons, session.metadata.couponCode, session.metadata.userId);
    }
    var newOrder := Order(session.metadata.userId, DecodeOrderLines(session.metadata.products),
                          session.amountTotal, sessionId);
    response := OrderCreated(|orders.orders|);
    orders.orders := orders.orders + [newOrder];
  }
}
