/**
 * The client cart store (frontend/src/stores/useCartStore.js): the cart, the coupon,
 * the two totals and the `isCouponApplied` flag, and the actions that change them.
 * Each action that calls the server takes the outcome of that call as an input: a
 * failed call lands in the action's `catch`, which only shows a message. Prices and
 * totals are JavaScript numbers, modelled as exact reals (no rounding).
 */
module UseCartStore {
  import opened Wrappers
  import Seqs

  type ProductId = string

  /** The product fields the store uses. */
  datatype ClientProduct = ClientProduct(id: ProductId, name: string, price: real)

  /** A cart entry: the product's fields spread into the item, plus a quantity. */
  datatype CartItem = CartItem(product: ClientProduct, quantity: int)

  datatype ClientCoupon = ClientCoupon(code: string, discountPercentage: real)

  predicate Is(item: CartItem, id: ProductId) {
    item.product.id == id
  }

  /** The `reduce` in `calculateTotals`: the sum of price times quantity. */
  function Subtotal(cart: seq<CartItem>): real {
    if cart == [] then 0.0 else cart[0].product.price * cart[0].quantity as real + Subtotal(cart[1..])
  }

  /** The summed prices of the entries for `id` (what one more of each adds). */
  function PriceOf(cart: seq<CartItem>, id: ProductId): real {
    if cart == [] then 0.0
    else (if Is(cart[0], id) then cart[0].product.price else 0.0) + PriceOf(cart[1..], id)
  }

  /** The part of the subtotal that the entries for `id` make up. */
  function ValueOf(cart: seq<CartItem>, id: ProductId): real {
    if cart == [] then 0.0
    else (if Is(cart[0], id) then cart[0].product.price * cart[0].quantity as real else 0.0)
         + ValueOf(cart[1..], id)
  }

  /** The total after the coupon: the subtotal less `discountPercentage` percent of it. */
  function TotalFor(subtotal: real, coupon: Option<ClientCoupon>): real {
    match coupon
    case None => subtotal
    case Some(c) => subtotal - subtotal * (c.discountPercentage / 100.0)
  }

  /** With a percentage between 0 and 100 the total lies between 0 and the subtotal. */
  lemma TotalBounds(subtotal: real, coupon: Option<ClientCoupon>)
    requires subtotal >= 0.0
    requires coupon.Some? ==> 0.0 <= coupon.value.discountPercentage <= 100.0
    ensures 0.0 <= TotalFor(subtotal, coupon) <= subtotal
    ensures coupon.None? ==> TotalFor(subtotal, coupon) == subtotal
  {
    if coupon.Some? {
      var p := coupon.value.discountPercentage / 100.0;
      assert 0.0 <= p <= 1.0;
      assert 0.0 <= subtotal * p <= subtotal;
    }
  }

  /** A cart of non-negative prices and quantities has a non-negative subtotal. */
  lemma {:induction false} SubtotalNonNegative(cart: seq<CartItem>)
    requires forall i :: 0 <= i < |cart| ==> cart[i].product.price >= 0.0 && cart[i].quantity >= 0
    ensures Subtotal(cart) >= 0.0
  {
    if cart != [] {
      SubtotalNonNegative(cart[1..]);
    }
  }

  lemma {:induction false} SubtotalAppend(a: seq<CartItem>, b: seq<CartItem>)
    ensures Subtotal(a + b) == Subtotal(a) + Subtotal(b)
  {
    if a == [] {
      assert a + b == b;
    } else {
      assert (a + b)[1..] == a[1..] + b;
      SubtotalAppend(a[1..], b);
    }
  }

  // ----- the reducers -----

  /** The `map` in `addToCart`: every entry for `id` gets one more. */
  function Incremented(cart: seq<CartItem>, id: ProductId): (r: seq<CartItem>)
    ensures |r| == |cart|
  {
    if cart == [] then []
    else [if Is(cart[0], id) then cart[0].(quantity := cart[0].quantity + 1) else cart[0]]
         + Incremented(cart[1..], id)
  }

  /** The `map` in `updateQuantity`: every entry for `id` gets quantity `q`. */
  function WithQuantity(cart: seq<CartItem>, id: ProductId, q: int): (r: seq<CartItem>)
    ensures |r| == |cart|
  {
    if cart == [] then []
    else [if Is(cart[0], id) then cart[0].(quantity := q) else cart[0]]
         + WithQuantity(cart[1..], id, q)
  }

  predicate InCart(cart: seq<CartItem>, id: ProductId) {
    exists i :: 0 <= i < |cart| && Is(cart[i], id)
  }

  /** The reducer of `addToCart`: bump the product's entries, or append it with quantity 1. */
  function Added(cart: seq<CartItem>, product: ClientProduct): seq<CartItem> {
    if InCart(cart, product.id) then Incremented(cart, product.id) else cart + [CartItem(product, 1)]
  }

  /** The filter keeping the entries of every product but `id`. */
  function NotFor(id: ProductId): CartItem -> bool {
    (item: CartItem) => !Is(item, id)
  }

  /** The reducer of `removeFromCart`. */
  function Removed(cart: seq<CartItem>, id: ProductId): seq<CartItem> {
    Seqs.Filter(cart, NotFor(id))
  }

  /** Entries for other products are untouched by the bump, and the bumped ones keep their product. */
  lemma {:induction false} IncrementedEntries(cart: seq<CartItem>, id: ProductId)
    ensures forall i :: 0 <= i < |cart| ==>
              && Incremented(cart, id)[i].product == cart[i].product
              && Incremented(cart, id)[i].quantity == cart[i].quantity + (if Is(cart[i], id) then 1 else 0)
  {
    if cart != [] {
      IncrementedEntries(cart[1..], id);
      forall i | 0 <= i < |cart|
        ensures Incremented(cart, id)[i].product == cart[i].product
        ensures Incremented(cart, id)[i].quantity == cart[i].quantity + (if Is(cart[i], id) then 1 else 0)
      {
        if i > 0 {
          assert Incremented(cart, id)[i] == Incremented(cart[1..], id)[i - 1];
        }
      }
    }
  }

  /** Only the quantity of the entries for `id` changes, to `q`. */
  lemma {:induction false} WithQuantityEntries(cart: seq<CartItem>, id: ProductId, q: int)
    ensures forall i :: 0 <= i < |cart| ==>
              && WithQuantity(cart, id, q)[i].product == cart[i].product
              && WithQuantity(cart, id, q)[i].quantity == if Is(cart[i], id) then q else cart[i].quantity
  {
    if cart != [] {
      WithQuantityEntries(cart[1..], id, q);
      forall i | 0 <= i < |cart|
        ensures WithQuantity(cart, id, q)[i].product == cart[i].product
        ensures WithQuantity(cart, id, q)[i].quantity == if Is(cart[i], id) then q else cart[i].quantity
      {
        if i > 0 {
          assert WithQuantity(cart, id, q)[i] == WithQuantity(cart[1..], id, q)[i - 1];
        }
      }
    }
  }

  /** Bumping the entries for `id` raises the subtotal by their prices. */
  lemma {:induction false} SubtotalIncremented(cart: seq<CartItem>, id: ProductId)
    ensures Subtotal(Incremented(cart, id)) == Subtotal(cart) + PriceOf(cart, id)
  {
    if cart != [] {
      SubtotalIncremented(cart[1..], id);
      assert Incremented(cart, id)[1..] == Incremented(cart[1..], id);
      var p, q := cart[0].product.price, cart[0].quantity as real;
      assert p * (q + 1.0) == p * q + p;
    }
  }

  /** Outside the entries for `id`, setting their quantity leaves the subtotal as it was. */
  lemma {:induction false} OthersKeepValue(cart: seq<CartItem>, id: ProductId, q: int)
    ensures Subtotal(WithQuantity(cart, id, q)) - ValueOf(WithQuantity(cart, id, q), id)
            == Subtotal(cart) - ValueOf(cart, id)
  {
    if cart != [] {
      OthersKeepValue(cart[1..], id, q);
      assert WithQuantity(cart, id, q)[1..] == WithQuantity(cart[1..], id, q);
    }
  }

  /** The entries for `id` at quantity `q` are worth `q` times their prices. */
  lemma {:induction false} ValueAtQuantity(cart: seq<CartItem>, id: ProductId, q: int)
    ensures ValueOf(WithQuantity(cart, id, q), id) == q as real * PriceOf(cart, id)
  {
    if cart != [] {
      ValueAtQuantity(cart[1..], id, q);
      var updated := WithQuantity(cart, id, q);
      assert updated[1..] == WithQuantity(cart[1..], id, q);
      var p, qr, pr := cart[0].product.price, q as real, PriceOf(cart[1..], id);
      if Is(cart[0], id) {
        assert qr * (p + pr) == p * qr + qr * pr;
      }
    }
  }

  /** Setting the entries for `id` to quantity `q` replaces their value by `q` times their prices. */
  lemma SubtotalWithQuantity(cart: seq<CartItem>, id: ProductId, q: int)
    ensures Subtotal(WithQuantity(cart, id, q)) == Subtotal(cart) - ValueOf(cart, id) + q as real * PriceOf(cart, id)
  {
    OthersKeepValue(cart, id, q);
    ValueAtQuantity(cart, id, q);
  }

  /** Removing the entries for `id` lowers the subtotal by exactly their value. */
  lemma {:induction false} SubtotalRemoved(cart: seq<CartItem>, id: ProductId)
    ensures Subtotal(Removed(cart, id)) == Subtotal(cart) - ValueOf(cart, id)
  {
    if cart != [] {
      SubtotalRemoved(cart[1..], id);
      var head := if NotFor(id)(cart[0]) then [cart[0]] else [];
      assert Removed(cart, id) == head + Removed(cart[1..], id);
      SubtotalAppend(head, Removed(cart[1..], id));
    }
  }

  /** Adding a product raises the subtotal by one unit of it, whichever branch the reducer takes. */
  lemma AddedSubtotal(cart: seq<CartItem>, product: ClientProduct)
    ensures Subtotal(Added(cart, product))
         == Subtotal(cart) + if InCart(cart, product.id) then PriceOf(cart, product.id) else product.price
  {
    if InCart(cart, product.id) {
      SubtotalIncremented(cart, product.id);
    } else {
      SubtotalAppend(cart, [CartItem(product, 1)]);
      assert [CartItem(product, 1)][1..] == [];
    }
  }

  /** No two entries for the same product. */
  predicate UniqueItems(cart: seq<CartItem>) {
    forall i, j :: 0 <= i < j < |cart| ==> cart[i].product.id != cart[j].product.id
  }

  /**
   * The add reducer keeps entries unique: a product already in the cart gets one
   * more and no entry is added; a new product is appended with quantity 1.
   */
  lemma AddedShape(cart: seq<CartItem>, product: ClientProduct)
    requires UniqueItems(cart)
    ensures UniqueItems(Added(cart, product))
    ensures InCart(cart, product.id) ==>
              && |Added(cart, product)| == |cart|
              && forall i :: 0 <= i < |cart| ==>
                   Added(cart, product)[i].quantity == cart[i].quantity + (if Is(cart[i], product.id) then 1 else 0)
    ensures !InCart(cart, product.id) ==> Added(cart, product) == cart + [CartItem(product, 1)]
  {
    IncrementedEntries(cart, product.id);
    var r := Added(cart, product);
    if InCart(cart, product.id) {
      forall i, j | 0 <= i < j < |r| ensures r[i].product.id != r[j].product.id {
        assert r[i].product == cart[i].product && r[j].product == cart[j].product;
      }
    } else {
      forall i, j | 0 <= i < j < |r| ensures r[i].product.id != r[j].product.id {
        if j == |cart| {
          assert r[i] == cart[i];
        }
      }
    }
  }

  /** After the remove reducer no entry for `id` is left, and every other entry stays, in order. */
  lemma RemovedShape(cart: seq<CartItem>, id: ProductId)
    ensures !InCart(Removed(cart, id), id)
    ensures forall i :: 0 <= i < |cart| && !Is(cart[i], id) ==> cart[i] in Removed(cart, id)
    ensures !InCart(cart, id) ==> Removed(cart, id) == cart
  {
    Seqs.FilterMembers(cart, NotFor(id));
    if !InCart(cart, id) {
      Seqs.FilterKeepsAll(cart, NotFor(id));
    }
  }

  // ----- the store -----

  class CartStore {
    var cart: seq<CartItem>
    var coupon: Option<ClientCoupon>
    var total: real
    var subtotal: real
    var isCouponApplied: bool

    /** The totals agree with the cart and the coupon, as `calculateTotals` leaves them. */
    ghost predicate Consistent()
      reads this
    {
      subtotal == Subtotal(cart) && total == TotalFor(subtotal, coupon)
    }

    /** The initial state: empty cart, no coupon, zero totals. */
    constructor ()
      ensures cart == [] && coupon == None && total == 0.0 && subtotal == 0.0 && !isCouponApplied
      ensures Consistent()
    {
      cart := [];
      coupon := None;
      total := 0.0;
      subtotal := 0.0;
      isCouponApplied := false;
    }

    /** `calculateTotals`: recomputes both totals from the cart and the coupon. */
    method CalculateTotals()
      modifies this
      ensures cart == old(cart) && coupon == old(coupon) && isCouponApplied == old(isCouponApplied)
      ensures Consistent()
    {
      subtotal := Subtotal(cart);
      total := TotalFor(subtotal, coupon);
    }

    /** `addToCart`; `ok` says whether the server accepted the POST. */
    method AddToCart(product: ClientProduct, ok: bool)
      modifies this
      ensures ok ==> && cart == Added(old(cart), product)
                     && coupon == old(coupon) && isCouponApplied == old(isCouponApplied)
                     && Consistent()
      ensures !ok ==> unchanged(this)
    {
      if !ok {
        return;
      }
      cart := Added(cart, product);
      CalculateTotals();
    }

    /** `removeFromCart`; `ok` says whether the server accepted the DELETE. */
    method RemoveFromCart(id: ProductId, ok: bool)
      modifies this
      ensures ok ==> && cart == Removed(old(cart), id)
                     && coupon == old(coupon) && isCouponApplied == old(isCouponApplied)
                     && Consistent()
      ensures !ok ==> unchanged(this)
    {
      if !ok {
        return;
      }
      cart := Removed(cart, id);
      CalculateTotals();
    }

    /** `updateQuantity`: quantity 0 is a removal; otherwise every entry for `id` takes the new quantity. */
    method UpdateQuantity(id: ProductId, quantity: int, ok: bool)
      modifies this
      ensures quantity == 0 && ok ==> cart == Removed(old(cart), id)
      ensures quantity != 0 && ok ==> cart == WithQuantity(old(cart), id, quantity)
      ensures ok ==> coupon == old(coupon) && isCouponApplied == old(isCouponApplied) && Consistent()
      ensures !ok ==> unchanged(this)
    {
      if quantity == 0 {
        RemoveFromCart(id, ok);
        return;
      }
      if !ok {
        return;
      }
      cart := WithQuantity(cart, id, quantity);
      CalculateTotals();
    }

    /** `removeCoupon`: no coupon, not applied, and the total is the subtotal again. */
    method RemoveCoupon()
      modifies this
      ensures cart == old(cart) && coupon == None && !isCouponApplied
      ensures Consistent() && total == subtotal
    {
      coupon := None;
      isCouponApplied := false;
      CalculateTotals();
    }

    /** `clearCart`: empties cart, coupon and totals; `isCouponApplied` is left as it was. */
    method ClearCart()
      modifies this
      ensures cart == [] && coupon == None && total == 0.0 && subtotal == 0.0
      ensures isCouponApplied == old(isCouponApplied)
      ensures Consistent()
    {
      cart := [];
      coupon := None;
      total := 0.0;
      subtotal := 0.0;
    }

    /**
     * `getCartItems`; `reply` is the server's cart, `None` when the call fails. A
     * failure empties the cart without recomputing the totals.
     */
    method GetCartItems(reply: Option<seq<CartItem>>)
      modifies this
      ensures reply.Some? ==> cart == reply.value && Consistent()
      ensures reply.None? ==> cart == [] && subtotal == old(subtotal) && total == old(total)
      ensures coupon == old(coupon) && isCouponApplied == old(isCouponApplied)
    {
      if reply.None? {
        cart := [];
        return;
      }
      cart := reply.value;
      CalculateTotals();
    }

    /** `getMyCoupon`; `reply` is the server's `coupon` field (`None` inside: null). The totals are not recomputed. */
    method GetMyCoupon(reply: Option<Option<ClientCoupon>>)
      modifies this
      ensures reply.Some? ==> coupon == reply.value
      ensures reply.None? ==> coupon == old(coupon)
      ensures cart == old(cart) && total == old(total) && subtotal == old(subtotal)
      ensures isCouponApplied == old(isCouponApplied)
    {
      if reply.Some? {
        coupon := reply.value;
      }
    }

    /**
     * `applyCoupon`. The request is a GET of the user's coupon and `code` is not sent,
     * so the coupon applied is whatever the server returns.
     */
    method ApplyCoupon(code: string, reply: Option<Option<ClientCoupon>>)
      modifies this
      ensures reply.Some? ==> && coupon == reply.value && isCouponApplied
                              && cart == old(cart) && Consistent()
      ensures reply.None? ==> unchanged(this)
    {
      if reply.None? {
        return;
      }
      coupon := reply.value;
      isCouponApplied := true;
      CalculateTotals();
    }
  }

  /** A store left in a consistent state by any action of the cart shows the discount of its coupon. */
  lemma ConsistentTotal(cart: seq<CartItem>, coupon: Option<ClientCoupon>, subtotal: real, total: real)
    requires subtotal == Subtotal(cart) && total == TotalFor(subtotal, coupon)
    requires forall i :: 0 <= i < |cart| ==> cart[i].product.price >= 0.0 && cart[i].quantity >= 0
    requires coupon.Some? ==> 0.0 <= coupon.value.discountPercentage <= 100.0
    ensures 0.0 <= total <= subtotal
  {
    SubtotalNonNegative(cart);
    TotalBounds(subtotal, coupon);
  }
}
