/**
 * The client-side product store: a list of products that can be replaced,
 * updated by id, emptied and searched by id.
 */
module ProductStore {
  import opened Common
  import opened Catalog

  /**
   * `{ ...p, ...updated }`: the updated product's fields win; a field the
   * update does not carry (a missing `pictures` or `attributes`) keeps the
   * stored value.
   */
  function Merge(p: Product, updated: Product): (m: Product)
    ensures m.id == updated.id && m.title == updated.title && m.price == updated.price
    ensures m.currencyId == updated.currencyId && m.thumbnail == updated.thumbnail
    ensures m.condition == updated.condition && m.availableQuantity == updated.availableQuantity
    ensures m.sellerNickname == updated.sellerNickname && m.permalink == updated.permalink
    ensures m.pictures == if updated.pictures.Some? then updated.pictures else p.pictures
    ensures m.attributes == if updated.attributes.Some? then updated.attributes else p.attributes
  {
    updated.(pictures := if updated.pictures.Some? then updated.pictures else p.pictures,
             attributes := if updated.attributes.Some? then updated.attributes else p.attributes)
  }

  /** `products.map(p => p.id === updated.id ? { ...p, ...updated } : p)` */
  function UpdateById(products: seq<Product>, updated: Product): (r: seq<Product>)
    ensures |r| == |products|
    ensures forall i :: 0 <= i < |products| ==>
      r[i] == if products[i].id == updated.id then Merge(products[i], updated) else products[i]
  {
    if products == [] then []
    else [if products[0].id == updated.id then Merge(products[0], updated) else products[0]]
         + UpdateById(products[1..], updated)
  }

  /** `products.find(p => p.id === id)` */
  function FindById(products: seq<Product>, id: string): (found: Option<Product>)
  {
    if products == [] then None
    else if products[0].id == id then Some(products[0])
    else FindById(products[1..], id)
  }

  /** `find` gives the first product with the id, or nothing when no product has it. */
  lemma {:induction false} FindByIdFirst(products: seq<Product>, id: string)
    ensures FindById(products, id).None? <==> forall i :: 0 <= i < |products| ==> products[i].id != id
    ensures FindById(products, id).Some? ==>
      exists i :: 0 <= i < |products| && products[i] == FindById(products, id).value &&
        products[i].id == id && forall k :: 0 <= k < i ==> products[k].id != id
  {
    if products != [] && products[0].id != id {
      FindByIdFirst(products[1..], id);
      if FindById(products, id).Some? {
        var i :| 0 <= i < |products[1..]| && products[1..][i] == FindById(products, id).value &&
          products[1..][i].id == id && forall k :: 0 <= k < i ==> products[1..][k].id != id;
        assert products[i + 1] == FindById(products, id).value;
        assert forall k :: 0 <= k < i + 1 ==> products[k].id != id by {
          forall k | 0 <= k < i + 1
            ensures products[k].id != id
          {
            if k > 0 {
              assert products[k] == products[1..][k - 1];
            }
          }
        }
      }
    } else if products != [] {
      assert products[0] == FindById(products, id).value;
    }
  }

  /** An update whose id no product has leaves the list as it is. */
  lemma UpdateAbsentIsNoOp(products: seq<Product>, updated: Product)
    requires FindById(products, updated.id).None?
    ensures UpdateById(products, updated) == products
  {
    FindByIdFirst(products, updated.id);
  }

  /** Applying the same update twice is the same as applying it once. */
  lemma UpdateIdempotent(products: seq<Product>, updated: Product)
    ensures UpdateById(UpdateById(products, updated), updated) == UpdateById(products, updated)
  {
    var once := UpdateById(products, updated);
    forall i | 0 <= i < |products|
      ensures UpdateById(once, updated)[i] == once[i]
    {
      if products[i].id == updated.id {
        assert Merge(Merge(products[i], updated), updated) == Merge(products[i], updated);
      }
    }
  }

  /** After an update, looking the id up finds the merged product, if the id was in the list. */
  lemma {:induction false} FindAfterUpdate(products: seq<Product>, updated: Product)
    ensures FindById(UpdateById(products, updated), updated.id) ==
      match FindById(products, updated.id)
      case None => None
      case Some(p) => Some(Merge(p, updated))
  {
    if products != [] {
      FindAfterUpdate(products[1..], updated);
      assert UpdateById(products, updated)[1..] == UpdateById(products[1..], updated);
    }
  }

  /** The zustand store holding the product list. */
  class Store {
    var products: seq<Product>

    /** The initial state: no products. */
    constructor ()
      ensures products == []
    {
      products := [];
    }

    /** `setProducts`: replaces the whole list. */
    method SetProducts(products: seq<Product>)
      modifies this
      ensures this.products == products
    {
      this.products := products;
    }

    /** `updateProduct` */
    method UpdateProduct(updated: Product)
      modifies this
      ensures products == UpdateById(old(products), updated)
    {
      products := UpdateById(products, updated);
    }

    /** `resetProducts`: empties the list. */
    method ResetProducts()
      modifies this
      ensures products == []
    {
      products := [];
    }

    /** `getProductById` */
    method GetProductById(id: string) returns (found: Option<Product>)
      ensures found == FindById(products, id)
      ensures found.Some? ==> found.value in products && found.value.id == id
      ensures found.None? ==> forall i :: 0 <= i < |products| ==> products[i].id != id
    {
      found := FindById(products, id);
      FindByIdFirst(products, id);
    }
  }
}
