/**
 * The server-side cart: the `cartItems` list embedded in a user document, and the
 * four handlers that read and change it (backend/controllers/cart.controller.js).
 * The user document is a class whose `cartItems` field the handlers reassign; the
 * database round trip (`user.save()`, `Product.find`) is not modelled.
 */
module CartController {
  import opened Wrappers
  import Seqs

  type ProductId = string

  /** One element of `user.cartItems`. */
  datatype CartItem = CartItem(product: ProductId, quantity: int)

  /** The quantity the user schema gives a pushed entry that names none. */
  const DefaultQuantity := 1

  /** A catalogue record as `Product.find` returns it (price in cents). */
  datatype Product = Product(id: ProductId, name: string, description: string, price: int,
                             image: string, category: string, isFeatured: bool)

  /** An element of the `getCartProducts` response: the product's fields plus a quantity. */
  datatype CartProduct = CartProduct(product: Product, quantity: int)

  datatype Status = Ok | NotFound(message: string)

  /** No product id appears twice in the cart. */
  predicate UniqueProducts(items: seq<CartItem>) {
    forall i, j :: 0 <= i < j < |items| ==> items[i].product != items[j].product
  }

  /** The index `Array.prototype.find` stops at: the first entry for `pid`. */
  function FindIndex(items: seq<CartItem>, pid: ProductId): (r: Option<nat>)
    ensures r.Some? ==> r.value < |items| && items[r.value].product == pid
    ensures r.Some? ==> forall j :: 0 <= j < r.value ==> items[j].product != pid
    ensures r.None? ==> forall j :: 0 <= j < |items| ==> items[j].product != pid
  {
    if |items| == 0 then None
    else if items[0].product == pid then Some(0)
    else match FindIndex(items[1..], pid)
      case None => None
      case Some(k) => Some(k + 1)
  }

  /**
   * The keyed view of a cart: each product id in it, mapped to the quantity of its
   * first entry (the entry every handler looks up).
   */
  function Quantities(items: seq<CartItem>): map<ProductId, int> {
    if items == [] then map[] else Quantities(items[1..])[items[0].product := items[0].quantity]
  }

  /** The keyed view holds a product exactly when `find` locates an entry, with that entry's quantity. */
  lemma {:induction false} QuantitiesFirst(items: seq<CartItem>, pid: ProductId)
    ensures pid in Quantities(items) <==> FindIndex(items, pid).Some?
    ensures pid in Quantities(items) ==> Quantities(items)[pid] == items[FindIndex(items, pid).value].quantity
  {
    if items != [] && items[0].product != pid {
      QuantitiesFirst(items[1..], pid);
    }
  }

  /** The quantity the keyed view gives `pid`, 0 when the cart has no entry for it. */
  function QuantityOf(items: seq<CartItem>, pid: ProductId): int {
    var m := Quantities(items);
    if pid in m then m[pid] else 0
  }

  /** The ids `getCartProducts` sends to `Product.find`, one per entry. */
  function CartIds(items: seq<CartItem>): (ids: seq<ProductId>)
    ensures |ids| == |items| && forall k :: 0 <= k < |items| ==> ids[k] == items[k].product
  {
    seq(|items|, k requires 0 <= k < |items| => items[k].product)
  }

  /** The cart after `addToCart(pid)`: bump the first entry for `pid`, or push a new one. */
  function Added(items: seq<CartItem>, pid: ProductId): seq<CartItem> {
    match FindIndex(items, pid)
    case Some(i) => items[i := items[i].(quantity := items[i].quantity + 1)]
    case None => items + [CartItem(pid, DefaultQuantity)]
  }

  /** The filter keeping the entries of every product but `pid`. */
  function NotFor(pid: ProductId): CartItem -> bool {
    (item: CartItem) => item.product != pid
  }

  /** The cart without any entry for `pid`, the rest in their original order. */
  function Removed(items: seq<CartItem>, pid: ProductId): seq<CartItem> {
    Seqs.Filter(items, NotFor(pid))
  }

  /** Overwriting the first entry for a product changes only that key of the keyed view. */
  lemma {:induction false} SetFirstQuantities(items: seq<CartItem>, pid: ProductId, q: int)
    requires FindIndex(items, pid).Some?
    ensures Quantities(items[FindIndex(items, pid).value := CartItem(pid, q)])
         == Quantities(items)[pid := q]
  {
    var i := FindIndex(items, pid).value;
    var items' := items[i := CartItem(pid, q)];
    var tail := Quantities(items[1..]);
    if i == 0 {
      assert items'[1..] == items[1..];
      assert tail[pid := items[0].quantity][pid := q] == tail[pid := q];
    } else {
      assert FindIndex(items[1..], pid).value == i - 1;
      assert items'[1..] == items[1..][i - 1 := CartItem(pid, q)];
      SetFirstQuantities(items[1..], pid, q);
      var p0, q0 := items[0].product, items[0].quantity;
      assert p0 != pid;
      assert Quantities(items') == tail[pid := q][p0 := q0];
      assert tail[pid := q][p0 := q0] == tail[p0 := q0][pid := q];
    }
  }

  /** Appending an entry for a product the cart lacks adds exactly that key. */
  lemma {:induction false} AppendNewQuantities(items: seq<CartItem>, pid: ProductId, q: int)
    requires FindIndex(items, pid).None?
    ensures Quantities(items + [CartItem(pid, q)]) == Quantities(items)[pid := q]
  {
    var x := CartItem(pid, q);
    if items != [] {
      assert (items + [x])[1..] == items[1..] + [x];
      AppendNewQuantities(items[1..], pid, q);
      var tail := Quantities(items[1..]);
      var p0, q0 := items[0].product, items[0].quantity;
      assert Quantities(items + [x]) == tail[pid := q][p0 := q0];
      assert tail[pid := q][p0 := q0] == tail[p0 := q0][pid := q];
    } else {
      assert ([] + [x])[1..] == [];
      assert [] + [x] == [x];
    }
  }

  /** `addToCart` raises the product's quantity in the keyed view by exactly one. */
  lemma AddedQuantities(items: seq<CartItem>, pid: ProductId)
    ensures Quantities(Added(items, pid)) == Quantities(items)[pid := QuantityOf(items, pid) + 1]
  {
    match FindIndex(items, pid)
    case Some(i) =>
      QuantitiesFirst(items, pid);
      assert items[i].(quantity := items[i].quantity + 1) == CartItem(pid, items[i].quantity + 1);
      SetFirstQuantities(items, pid, items[i].quantity + 1);
    case None =>
      QuantitiesFirst(items, pid);
      AppendNewQuantities(items, pid, DefaultQuantity);
  }

  /** `addToCart` keeps product ids unique. */
  lemma AddedUnique(items: seq<CartItem>, pid: ProductId)
    requires UniqueProducts(items)
    ensures UniqueProducts(Added(items, pid))
  {
    var r := Added(items, pid);
    match FindIndex(items, pid)
    case Some(i) =>
      assert forall k :: 0 <= k < |r| ==> r[k].product == items[k].product;
    case None =>
      assert forall k :: 0 <= k < |items| ==> r[k] == items[k];
  }

  /** One step of the filter behind `Removed`. */
  lemma RemovedUnfold(items: seq<CartItem>, pid: ProductId)
    requires items != []
    ensures Removed(items, pid)
         == (if items[0].product != pid then [items[0]] else []) + Removed(items[1..], pid)
  {
  }

  /** Removing a product deletes exactly its key from the keyed view. */
  lemma {:induction false} RemovedQuantities(items: seq<CartItem>, pid: ProductId)
    ensures Quantities(Removed(items, pid)) == Quantities(items) - {pid}
  {
    if items != [] {
      RemovedQuantities(items[1..], pid);
      RemovedUnfold(items, pid);
      var rest := Removed(items[1..], pid);
      var tail := Quantities(items[1..]);
      var p0, q0 := items[0].product, items[0].quantity;
      if p0 != pid {
        assert Removed(items, pid) == [items[0]] + rest;
        assert ([items[0]] + rest)[1..] == rest;
        assert Quantities(Removed(items, pid)) == (tail - {pid})[p0 := q0];
        assert (tail - {pid})[p0 := q0] == tail[p0 := q0] - {pid};
      } else {
        assert Removed(items, pid) == rest;
        assert tail[p0 := q0] - {pid} == tail - {pid};
      }
    }
  }

  /** Removing a product keeps product ids unique. */
  lemma {:induction false} RemovedUnique(items: seq<CartItem>, pid: ProductId)
    requires UniqueProducts(items)
    ensures UniqueProducts(Removed(items, pid))
  {
    if items != [] {
      RemovedUnique(items[1..], pid);
      RemovedUnfold(items, pid);
      var rest := Removed(items[1..], pid);
      Seqs.FilterMembers(items[1..], NotFor(pid));
      forall k | 0 <= k < |rest| ensures rest[k].product != items[0].product {
        assert rest[k] in items[1..];
      }
    }
  }

  /** Overwriting a product's first entry keeps product ids unique. */
  lemma SetFirstUnique(items: seq<CartItem>, pid: ProductId, q: int)
    requires UniqueProducts(items) && FindIndex(items, pid).Some?
    ensures UniqueProducts(items[FindIndex(items, pid).value := CartItem(pid, q)])
  {
    var i := FindIndex(items, pid).value;
    var r := items[i := CartItem(pid, q)];
    assert forall k :: 0 <= k < |r| ==> r[k].product == items[k].product;
  }

  /**
   * `getCartProducts`: for each product the catalogue returned, its fields together
   * with the quantity of the first cart entry that names it; a product without any
   * entry makes `item.quantity` throw, which the handler turns into a 500.
   */
  function JoinCart(items: seq<CartItem>, found: seq<Product>): (r: Option<seq<CartProduct>>)
    ensures r.Some? <==> forall k :: 0 <= k < |found| ==> found[k].id in Quantities(items)
    ensures r.Some? ==> |r.value| == |found|
    ensures r.Some? ==> forall k :: 0 <= k < |found| ==>
              r.value[k] == CartProduct(found[k], Quantities(items)[found[k].id])
  {
    if found == [] then Some([])
    else
      QuantitiesFirst(items, found[0].id);
      match FindIndex(items, found[0].id)
      case None => None
      case Some(i) =>
        match JoinCart(items, found[1..])
        case None => None
        case Some(rest) => Some([CartProduct(found[0], items[i].quantity)] + rest)
  }

  /** What `Product.find({_id: {$in: ids}})` returns always joins: every id it matched is in the cart. */
  lemma JoinQueryResult(items: seq<CartItem>, found: seq<Product>)
    requires forall k :: 0 <= k < |found| ==> found[k].id in CartIds(items)
    ensures JoinCart(items, found).Some?
    ensures |JoinCart(items, found).value| == |found|
  {
    forall k | 0 <= k < |found| ensures found[k].id in Quantities(items) {
      var j :| 0 <= j < |items| && CartIds(items)[j] == found[k].id;
      assert items[j].product == found[k].id;
      QuantitiesFirst(items, found[k].id);
    }
  }

  /** Two adds of one product to an empty cart give one entry of quantity 2. */
  lemma AddTwiceToEmpty(pid: ProductId)
    ensures Added(Added([], pid), pid) == [CartItem(pid, 2)]
  {
    assert Added([], pid) == [CartItem(pid, 1)];
    assert FindIndex([CartItem(pid, 1)], pid) == Some(0);
  }

  /** The authenticated user document (`req.user`) whose cart the handlers change. */
  class User {
    var cartItems: seq<CartItem>

    constructor (items: seq<CartItem>)
      ensures cartItems == items
    {
      cartItems := items;
    }

    /** `addToCart`: increment the product's first entry, or push it with the default quantity. */
    method AddToCart(productId: ProductId)
      modifies this
      ensures cartItems == Added(old(cartItems), productId)
      ensures FindIndex(old(cartItems), productId).Some? ==>
                var i := FindIndex(old(cartItems), productId).value;
                && |cartItems| == |old(cartItems)|
                && cartItems[i].quantity == old(cartItems)[i].quantity + 1
                && cartItems[i].product == productId
                && forall j :: 0 <= j < |cartItems| && j != i ==> cartItems[j] == old(cartItems)[j]
      ensures FindIndex(old(cartItems), productId).None? ==>
                cartItems == old(cartItems) + [CartItem(productId, DefaultQuantity)]
      ensures Quantities(cartItems)
           == Quantities(old(cartItems))[productId := QuantityOf(old(cartItems), productId) + 1]
      ensures UniqueProducts(old(cartItems)) ==> UniqueProducts(cartItems)
    {
      ghost var before := cartItems;
      var existing := FindIndex(cartItems, productId);
      if existing.Some? {
        var i := existing.value;
        cartItems := cartItems[i := cartItems[i].(quantity := cartItems[i].quantity + 1)];
      } else {
        cartItems := cartItems + [CartItem(productId, DefaultQuantity)];
      }
      AddedQuantities(before, productId);
      if UniqueProducts(before) {
        AddedUnique(before, productId);
      }
    }

    /**
     * `removeAllFromCart`: with no product id (the empty string stands for a missing
     * route parameter) the cart is emptied; otherwise every entry for that product goes.
     */
    method RemoveAllFromCart(productId: ProductId)
      modifies this
      ensures productId == "" ==> cartItems == []
      ensures productId != "" ==> cartItems == Removed(old(cartItems), productId)
      ensures productId != "" ==> Quantities(cartItems) == Quantities(old(cartItems)) - {productId}
      ensures UniqueProducts(old(cartItems)) ==> UniqueProducts(cartItems)
    {
      ghost var before := cartItems;
      if productId == "" {
        cartItems := [];
      } else {
        cartItems := Removed(cartItems, productId);
        RemovedQuantities(before, productId);
        if UniqueProducts(before) {
          RemovedUnique(before, productId);
        }
      }
    }

    /**
     * `updateQuantity`: 404 when the product has no entry; quantity 0 removes the
     * product; any other value (negative ones included) overwrites the first entry.
     */
    method UpdateQuantity(productId: ProductId, quantity: int) returns (status: Status)
      modifies this
      ensures FindIndex(old(cartItems), productId).None? ==>
                status == NotFound("Product not found") && cartItems == old(cartItems)
      ensures FindIndex(old(cartItems), productId).Some? ==> status == Ok
      ensures FindIndex(old(cartItems), productId).Some? && quantity == 0 ==>
                cartItems == Removed(old(cartItems), productId)
                && Quantities(cartItems) == Quantities(old(cartItems)) - {productId}
      ensures FindIndex(old(cartItems), productId).Some? && quantity != 0 ==>
                var i := FindIndex(old(cartItems), productId).value;
                && cartItems == old(cartItems)[i := CartItem(productId, quantity)]
                && Quantities(cartItems) == Quantities(old(cartItems))[productId := quantity]
      ensures UniqueProducts(old(cartItems)) ==> UniqueProducts(cartItems)
    {
      ghost var before := cartItems;
      var existing := FindIndex(cartItems, productId);
      if existing.None? {
        return NotFound("Product not found");
      }
      if quantity == 0 {
        cartItems := Removed(cartItems, productId);
        RemovedQuantities(before, productId);
        if UniqueProducts(before) {
          RemovedUnique(before, productId);
        }
      } else {
        var i := existing.value;
        cartItems := cartItems[i := cartItems[i].(quantity := quantity)];
        assert cartItems == before[i := CartItem(productId, quantity)];
        SetFirstQuantities(before, productId, quantity);
        if UniqueProducts(before) {
          SetFirstUnique(before, productId, quantity);
        }
      }
      status := Ok;
    }

    /** `getCartProducts` over what the catalogue query returned for this cart's ids. */
    method GetCartProducts(found: seq<Product>) returns (r: Option<seq<CartProduct>>)
      ensures r == JoinCart(cartItems, found)
      ensures r.Some? <==> forall k :: 0 <= k < |found| ==> found[k].id in Quantities(cartItems)
    {
      r := JoinCart(cartItems, found);
    }
  }
}
