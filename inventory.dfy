/** ProductService: the product repository, upserts, stock adjustment and search. */
module Inventory {
  import opened Model
  import opened Text

  datatype ProductRequest = ProductRequest(name: string, description: Option<string>, price: int, stock: int)

  /** The repository's shape: `listing` holds every stored id exactly once, in the order `findAll`
      yields them, and every product is stored under its own id. */
  ghost predicate CatalogWellFormed(products: map<string, Product>, listing: seq<string>) {
    && (forall i, j :: 0 <= i < j < |listing| ==> listing[i] != listing[j])
    && (forall id :: id in products <==> id in listing)
    && (forall id :: id in products ==> products[id].id == id)
  }

  /** The stored products after adding `delta` to the stock of `productId`, if it is stored. */
  function Adjust(products: map<string, Product>, productId: string, delta: int): map<string, Product> {
    if productId in products
    then products[productId := products[productId].(stock := products[productId].stock + delta)]
    else products
  }

  /** The search filter: the lower-cased name, or the lower-cased description when there is one,
      contains the query. */
  predicate Matches(p: Product, query: string) {
    || Contains(ToLower(p.name), query)
    || (p.description.Some? && Contains(ToLower(p.description.value), query))
  }

  /** `a` is `b` with some elements dropped and the rest kept in order (checked by greedy matching). */
  predicate IsSubsequence<T(==)>(a: seq<T>, b: seq<T>)
    decreases |b|
  {
    if a == [] then true
    else if b == [] then false
    else if a[0] == b[0] then IsSubsequence(a[1..], b[1..])
    else IsSubsequence(a, b[1..])
  }

  /** The stream filter of `searchProducts`. */
  function Filter(ps: seq<Product>, query: string): (r: seq<Product>)
    ensures forall p :: p in r <==> p in ps && Matches(p, query)
    ensures IsSubsequence(r, ps)
    decreases |ps|
  {
    if ps == [] then []
    else if Matches(ps[0], query) then [ps[0]] + Filter(ps[1..], query)
    else Filter(ps[1..], query)
  }

  lemma {:induction false} DistinctCount(xs: seq<string>)
    requires forall i, j :: 0 <= i < j < |xs| ==> xs[i] != xs[j]
    ensures |set x | x in xs| == |xs|
    decreases |xs|
  {
    if xs != [] {
      var init := xs[..|xs| - 1];
      DistinctCount(init);
      assert (set x | x in xs) == (set x | x in init) + {xs[|xs| - 1]};
      assert xs[|xs| - 1] !in init;
    }
  }

  class ProductService {
    var products: map<string, Product>
    var listing: seq<string>

    ghost predicate Valid()
      reads this
    {
      CatalogWellFormed(products, listing)
    }

    constructor ()
      ensures Valid() && products == map[] && listing == []
    {
      products := map[];
      listing := [];
    }

    function GetProductById(id: string): (r: Option<Product>)
      reads this
      ensures r.Some? <==> id in products
      ensures r.Some? ==> r.value == products[id]
    {
      if id in products then Some(products[id]) else None
    }

    /** `findAll`: every stored product exactly once, in listing order. */
    function GetAllProducts(): (r: seq<Product>)
      reads this
      requires Valid()
      ensures |r| == |listing| == |products|
      ensures forall i :: 0 <= i < |r| ==> r[i].id == listing[i]
      ensures forall p :: p in r <==> p in products.Values
    {
      var ps, ids := products, listing;
      DistinctCount(ids);
      assert ps.Keys == set x | x in ids;
      var r := seq(|ids|, i requires 0 <= i < |ids| => ps[ids[i]]);
      ListedValues(ps, ids, r);
      r
    }

    /** `searchProducts(query)`: a null or blank query lists everything; otherwise the products matching
        the lower-cased, trimmed query, in listing order. */
    function SearchProducts(query: Option<string>): (r: seq<Product>)
      reads this
      requires Valid()
      ensures IsSubsequence(r, GetAllProducts())
      ensures query.None? || IsBlank(query.value) ==> r == GetAllProducts()
      ensures query.Some? && !IsBlank(query.value) ==>
                forall p :: p in r <==> p in products.Values && Matches(p, Trim(ToLower(query.value)))
    {
      var all := GetAllProducts();
      if query.None? || IsBlank(query.value) then
        SubsequenceOfSelf(all);
        all
      else
        Filter(all, Trim(ToLower(query.value)))
    }

    /** `productRepository.save`: insert under a new id, or replace the stored record with that id. */
    method Save(product: Product)
      requires Valid()
      modifies this
      ensures Valid()
      ensures products == old(products)[product.id := product]
      ensures listing == if product.id in old(products) then old(listing) else old(listing) + [product.id]
    {
      if product.id !in products {
        listing := listing + [product.id];
      }
      products := products[product.id := product];
    }

    /** `createProduct(ProductRequest)`: a new product under a fresh id with the request's fields. */
    method CreateProductFromRequest(request: ProductRequest) returns (saved: Product)
      requires Valid()
      modifies this
      ensures Valid()
      ensures saved.id !in old(products)
      ensures saved == Product(saved.id, request.name, request.description, request.price, request.stock)
      ensures products == old(products)[saved.id := saved]
      ensures listing == old(listing) + [saved.id]
    {
      var id := FreshId(products.Keys);
      saved := Product(id, request.name, request.description, request.price, request.stock);
      Save(saved);
    }

    /** `createProduct(Product)`: keeps a given id (an upsert) and draws a fresh one only when it is null. */
    method CreateProduct(id: Option<string>, name: string, description: Option<string>, price: int, stock: int)
      returns (saved: Product)
      requires Valid()
      modifies this
      ensures Valid()
      ensures id.Some? ==> saved.id == id.value
      ensures id.None? ==> saved.id !in old(products)
      ensures saved == Product(saved.id, name, description, price, stock)
      ensures products == old(products)[saved.id := saved]
      ensures listing == if saved.id in old(products) then old(listing) else old(listing) + [saved.id]
    {
      var key: string;
      if id.None? {
        key := FreshId(products.Keys);
      } else {
        key := id.value;
      }
      saved := Product(key, name, description, price, stock);
      Save(saved);
    }

    /** `updateProductStock`: subtracts `quantity` from the stock with no lower bound. */
    method UpdateProductStock(productId: string, quantity: int) returns (r: Result<Product>)
      requires Valid()
      modifies this
      ensures Valid() && listing == old(listing)
      ensures productId !in old(products) ==> r == Err(ProductNotFound(productId))
      ensures productId in old(products) ==>
                r == Ok(old(products)[productId].(stock := old(products)[productId].stock - quantity))
      ensures products == Adjust(old(products), productId, -quantity)
    {
      var found := GetProductById(productId);
      if found.None? {
        return Err(ProductNotFound(productId));
      }
      var product := found.value.(stock := found.value.stock - quantity);
      Save(product);
      r := Ok(product);
    }

    /** Discards the writes of a transaction that threw: the stored products return to `snapshot`. */
    method Rollback(snapshot: map<string, Product>)
      requires Valid()
      requires snapshot.Keys == products.Keys
      requires forall id :: id in snapshot ==> snapshot[id].id == id
      modifies this
      ensures Valid() && products == snapshot && listing == old(listing)
    {
      products := snapshot;
    }
  }

  lemma ListedValues(ps: map<string, Product>, ids: seq<string>, r: seq<Product>)
    requires forall id :: id in ps <==> id in ids
    requires |r| == |ids| && forall i :: 0 <= i < |ids| ==> r[i] == ps[ids[i]]
    ensures forall p :: p in r <==> p in ps.Values
  {
    forall p | p in ps.Values
      ensures p in r
    {
      var id :| id in ps && ps[id] == p;
      var i :| 0 <= i < |ids| && ids[i] == id;
      assert r[i] == p;
    }
  }

  lemma {:induction false} SubsequenceOfSelf<T>(s: seq<T>)
    ensures IsSubsequence(s, s)
    decreases |s|
  {
    if s != [] {
      SubsequenceOfSelf(s[1..]);
    }
  }
}
