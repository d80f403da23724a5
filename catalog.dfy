/**
 * The product catalogue: the `Product` collection, its lookup by product id,
 * and the issue of a new product id when an administrator adds a product.
 */
module Catalog {
  import opened Wrappers

  /** A sellable product; `productId` is the key the cart refers to. */
  datatype Product = Product(productId: int, name: string, price: real)

  /** The collection keeps `productId` unique (a unique index). */
  ghost predicate UniqueProductIds(products: seq<Product>) {
    forall i, j :: 0 <= i < |products| && 0 <= j < |products| && i != j ==>
      products[i].productId != products[j].productId
  }

  /** The catalogue lookup by product id: the product with that id, if any. */
  function FindProduct(products: seq<Product>, productId: int): (r: Option<Product>)
    ensures r.Some? ==> r.value in products && r.value.productId == productId
    ensures r.None? ==> forall i :: 0 <= i < |products| ==> products[i].productId != productId
  {
    if products == [] then None
    else if products[0].productId == productId then Some(products[0])
    else FindProduct(products[1..], productId)
  }

  /** With unique ids, a lookup finds exactly the product that carries the id. */
  lemma {:induction false} FindProductFinds(products: seq<Product>, i: nat)
    requires UniqueProductIds(products)
    requires i < |products|
    ensures FindProduct(products, products[i].productId) == Some(products[i])
  {
    if i > 0 {
      var rest := products[1..];
      assert rest[i - 1] == products[i];
      assert UniqueProductIds(rest) by {
        forall a, b | 0 <= a < |rest| && 0 <= b < |rest| && a != b
          ensures rest[a].productId != rest[b].productId
        {
          assert rest[a] == products[a + 1] && rest[b] == products[b + 1];
        }
      }
      FindProductFinds(rest, i - 1);
    }
  }

  /** The largest product id, which the handler reads by sorting on the id, descending. */
  function MaxProductId(products: seq<Product>): (m: int)
    requires products != []
    ensures exists i :: 0 <= i < |products| && products[i].productId == m
    ensures forall i :: 0 <= i < |products| ==> products[i].productId <= m
  {
    if |products| == 1 then products[0].productId
    else
      var rest := MaxProductId(products[1..]);
      assert forall i :: 1 <= i < |products| ==> products[i] == products[1..][i - 1];
      if products[0].productId > rest then products[0].productId else rest
  }

  /**
   * The id given to a newly created product: one more than the largest
   * existing id, or 1 on an empty catalogue. It exceeds, and so differs
   * from, every id now in the catalogue (an id freed by deleting the
   * highest product is issued again).
   */
  function NextProductId(products: seq<Product>): (r: int)
    ensures products == [] ==> r == 1
    ensures products != [] ==> exists i :: 0 <= i < |products| && r == products[i].productId + 1
    ensures forall i :: 0 <= i < |products| ==> products[i].productId < r
  {
    if products == [] then 1 else MaxProductId(products) + 1
  }

  /** The product collection, which an administrator extends in place. */
  class ProductTable {
    var products: seq<Product>

    ghost predicate Valid()
      reads this
    {
      UniqueProductIds(products)
    }

    constructor (initial: seq<Product>)
      requires UniqueProductIds(initial)
      ensures Valid() && products == initial
    {
      products := initial;
    }

    /** `POST /api/admin/products`: store a product under a fresh id. */
    method Create(name: string, price: real) returns (p: Product)
      requires Valid()
      modifies this
      ensures Valid()
      ensures p == Product(NextProductId(old(products)), name, price)
      ensures products == old(products) + [p]
      ensures forall i :: 0 <= i < |old(products)| ==> old(products)[i].productId != p.productId
    {
      var id := NextProductId(products);
      p := Product(id, name, price);
      products := products + [p];
    }
  }
}
