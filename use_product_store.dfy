/**
 * The client product store (frontend/src/stores/useProductStore.js): the product list
 * and the `loading` flag. Each action takes the outcome of its server call as an
 * input. A failure either carries a server response or not (a network error); in
 * every `catch` the message is read from `error.response.data`, which throws when
 * there is no response and ends the `catch` at that point.
 */
module UseProductStore {
  import Seqs

  type ProductId = string

  datatype Product = Product(id: ProductId, name: string, description: string, price: real,
                             image: string, category: string, isFeatured: bool)

  /** The outcome of a server call: its response body, or a failure with or without a response. */
  datatype Reply<T> = Ok(body: T) | Failed(hasResponse: bool)

  /** The store's two fields. */
  datatype ProductState = ProductState(products: seq<Product>, loading: bool)

  /** The filter keeping every product but `id`. */
  function NotProduct(id: ProductId): Product -> bool {
    (p: Product) => p.id != id
  }

  /** The reducer of `deleteProduct`. */
  function Without(products: seq<Product>, id: ProductId): seq<Product> {
    Seqs.Filter(products, NotProduct(id))
  }

  /** The reducer of `toggleFeaturedProduct`: the products with that id take the server's flag. */
  function WithFeatured(products: seq<Product>, id: ProductId, flag: bool): seq<Product> {
    seq(|products|, i requires 0 <= i < |products| =>
      if products[i].id == id then products[i].(isFeatured := flag) else products[i])
  }

  /**
   * Deleting leaves no product with that id, keeps every other product as often as it
   * was there, and changes nothing when the id is absent.
   */
  lemma WithoutEffect(products: seq<Product>, id: ProductId)
    ensures forall i :: 0 <= i < |Without(products, id)| ==> Without(products, id)[i].id != id
    ensures forall p: Product :: p.id != id ==> multiset(Without(products, id))[p] == multiset(products)[p]
    ensures (forall i :: 0 <= i < |products| ==> products[i].id != id) ==> Without(products, id) == products
  {
    Seqs.FilterMembers(products, NotProduct(id));
    forall p: Product | p.id != id
      ensures multiset(Without(products, id))[p] == multiset(products)[p]
    {
      Seqs.FilterCount(products, NotProduct(id), p);
    }
    if forall i :: 0 <= i < |products| ==> products[i].id != id {
      Seqs.FilterKeepsAll(products, NotProduct(id));
    }
  }

  /**
   * Toggling changes only `isFeatured`, only on the products with that id, and sets
   * it to the server's value; the list keeps its length and order.
   */
  lemma WithFeaturedEffect(products: seq<Product>, id: ProductId, flag: bool)
    ensures |WithFeatured(products, id, flag)| == |products|
    ensures forall i :: 0 <= i < |products| ==>
              WithFeatured(products, id, flag)[i].(isFeatured := products[i].isFeatured) == products[i]
    ensures forall i :: 0 <= i < |products| ==>
              WithFeatured(products, id, flag)[i].isFeatured == if products[i].id == id then flag else products[i].isFeatured
  {
  }

  /**
   * `createProduct` as written: on a failure without a response the message read
   * throws before `loading` is reset, so the store stays loading.
   */
  function CreateAsWritten(s: ProductState, reply: Reply<Product>): ProductState {
    match reply
    case Ok(p) => ProductState(s.products + [p], false)
    case Failed(hasResponse) => if hasResponse then ProductState(s.products, false) else ProductState(s.products, true)
  }

  /** `createProduct` with `loading` reset on every failure, as its sibling actions do. */
  function Create(s: ProductState, reply: Reply<Product>): (r: ProductState)
    ensures !r.loading
    ensures reply.Ok? ==> r.products == s.products + [reply.body]
    ensures reply.Failed? ==> r.products == s.products
  {
    match reply
    case Ok(p) => ProductState(s.products + [p], false)
    case Failed(_) => ProductState(s.products, false)
  }

  /** A network error during `createProduct` leaves the store stuck loading; the corrected version does not. */
  lemma CreateAsWrittenStaysLoading(s: ProductState)
    ensures CreateAsWritten(s, Failed(false)).loading
    ensures !Create(s, Failed(false)).loading
    ensures forall reply: Reply<Product> :: reply != Failed(false) ==> CreateAsWritten(s, reply) == Create(s, reply)
  {
  }

  class ProductStore {
    var products: seq<Product>
    var loading: bool

    function State(): ProductState
      reads this
    {
      ProductState(products, loading)
    }

    constructor ()
      ensures products == [] && !loading
    {
      products := [];
      loading := false;
    }

    /** `setProducts`: the list is replaced; `loading` is untouched. */
    method SetProducts(ps: seq<Product>)
      modifies this
      ensures products == ps && loading == old(loading)
    {
      products := ps;
    }

    /** `createProduct`, with `loading` reset on every failure. */
    method CreateProduct(reply: Reply<Product>)
      modifies this
      ensures State() == Create(old(State()), reply)
      ensures !loading
    {
      loading := true;
      match reply
      case Ok(p) =>
        products := products + [p];
        loading := false;
      case Failed(_) =>
        loading := false;
    }

    /** `createProduct` as written. */
    method CreateProductAsWritten(reply: Reply<Product>)
      modifies this
      ensures State() == CreateAsWritten(old(State()), reply)
    {
      loading := true;
      match reply
      case Ok(p) =>
        products := products + [p];
        loading := false;
      case Failed(hasResponse) =>
        if hasResponse {
          loading := false;
        }
    }

    /**
     * `fetchAllProducts`, `fetchProductsByCategory` and `fetchFeaturedProducts`, which
     * differ only in the URL: the list is replaced by the server's, and `loading` ends
     * false either way.
     */
    method FetchProducts(reply: Reply<seq<Product>>)
      modifies this
      ensures reply.Ok? ==> products == reply.body
      ensures reply.Failed? ==> products == old(products)
      ensures !loading
    {
      loading := true;
      if reply.Ok? {
        products := reply.body;
      }
      loading := false;
    }

    method FetchAllProducts(reply: Reply<seq<Product>>)
      modifies this
      ensures reply.Ok? ==> products == reply.body
      ensures reply.Failed? ==> products == old(products)
      ensures !loading
    {
      FetchProducts(reply);
    }

    method FetchProductsByCategory(category: string, reply: Reply<seq<Product>>)
      modifies this
      ensures reply.Ok? ==> products == reply.body
      ensures reply.Failed? ==> products == old(products)
      ensures !loading
    {
      FetchProducts(reply);
    }

    method FetchFeaturedProducts(reply: Reply<seq<Product>>)
      modifies this
      ensures reply.Ok? ==> products == reply.body
      ensures reply.Failed? ==> products == old(products)
      ensures !loading
    {
      FetchProducts(reply);
    }

    /** `deleteProduct`; the reply body (a message) is not used by the store. */
    method DeleteProduct(id: ProductId, ok: bool)
      modifies this
      ensures ok ==> products == Without(old(products), id)
      ensures !ok ==> products == old(products)
      ensures !loading
    {
      loading := true;
      if ok {
        products := Without(products, id);
      }
      loading := false;
    }

    /** `toggleFeaturedProduct`; `reply` is the server's `isFeatured` for the product. */
    method ToggleFeaturedProduct(id: ProductId, reply: Reply<bool>)
      modifies this
      ensures reply.Ok? ==> products == WithFeatured(old(products), id, reply.body)
      ensures reply.Failed? ==> products == old(products)
      ensures !loading
    {
      loading := true;
      if reply.Ok? {
        products := WithFeatured(products, id, reply.body);
      }
      loading := false;
    }
  }
}
