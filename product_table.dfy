/**
 * The product list App keeps in its state (src/App.js): add, edit, delete
 * and look up by SKU. Each handler replaces the list with a new one computed
 * by spread, `map`, `filter` or `find`.
 */
module ProductTable {
  import opened Common
  import opened ProductForm

  /** `{ ...newProduct, id: newProduct.sku }` */
  function WithSkuAsId(p: ProductData): (r: ProductData)
    ensures r.id == Some(p.sku)
    ensures r.(id := p.id) == p
  {
    p.(id := Some(p.sku))
  }

  /** `[productWithId, ...prevProducts]` */
  function Added(products: seq<ProductData>, p: ProductData): (r: seq<ProductData>)
    ensures |r| == |products| + 1
    ensures r[0] == WithSkuAsId(p) && r[1..] == products
  {
    [WithSkuAsId(p)] + products
  }

  /**
   * What reaches `handleEditProduct`: JavaScript passes whatever the caller
   * gives as its one parameter, a product object or a string.
   */
  datatype EditArg = ProductArg(p: ProductData) | TextArg(s: string)

  /**
   * `updatedProduct.sku`: a product's SKU; a string has no `sku` property, so
   * reading one gives `undefined`.
   */
  function SkuOf(arg: EditArg): Option<string> {
    match arg
    case ProductArg(p) => Some(p.sku)
    case TextArg(_) => None
  }

  /** The new value of one entry: `p.sku === updatedProduct.sku ? updatedProduct : p`. */
  function EditEntry(q: ProductData, arg: EditArg): ProductData {
    if arg.ProductArg? && q.sku == arg.p.sku then arg.p else q
  }

  /** `prevProducts.map(p => p.sku === updatedProduct.sku ? updatedProduct : p)` */
  function Edited(products: seq<ProductData>, arg: EditArg): (r: seq<ProductData>)
    ensures |r| == |products|
    ensures forall i :: 0 <= i < |products| ==> r[i] == EditEntry(products[i], arg)
  {
    if products == [] then [] else [EditEntry(products[0], arg)] + Edited(products[1..], arg)
  }

  /** `prevProducts.filter(p => p.sku !== skuToDelete)` */
  function Removed(products: seq<ProductData>, sku: string): seq<ProductData> {
    Filter(products, (q: ProductData) => q.sku != sku)
  }

  /** `products.find(p => p.sku === sku)` */
  function Lookup(products: seq<ProductData>, sku: string): Option<ProductData> {
    Find(products, (q: ProductData) => q.sku == sku)
  }

  // ---------------------------------------------------------------------
  // Lookup
  // ---------------------------------------------------------------------

  /**
   * Lookup answers the first product whose SKU is the given one, and nothing
   * exactly when no product has it.
   */
  lemma LookupFirst(products: seq<ProductData>, sku: string)
    ensures Lookup(products, sku).None? <==> forall i :: 0 <= i < |products| ==> products[i].sku != sku
    ensures Lookup(products, sku).Some? ==>
              exists i :: 0 <= i < |products| && products[i] == Lookup(products, sku).value
                          && products[i].sku == sku
                          && forall j :: 0 <= j < i ==> products[j].sku != sku
  {
  }

  // ---------------------------------------------------------------------
  // Add
  // ---------------------------------------------------------------------

  /**
   * Adding does not check for an existing SKU: every earlier product stays,
   * and the new one, being first, is what lookup by its SKU now answers.
   */
  lemma AddThenLookup(products: seq<ProductData>, p: ProductData)
    ensures Lookup(Added(products, p), p.sku) == Some(WithSkuAsId(p))
    ensures forall q :: q in products ==> q in Added(products, p)
  {
    var r := Added(products, p);
    assert r[0].sku == p.sku;
  }

  /** Adding a SKU that is already there leaves two products with that SKU. */
  lemma AddKeepsDuplicate(products: seq<ProductData>, p: ProductData)
    requires Lookup(products, p.sku).Some?
    ensures exists i, j :: 0 <= i < j < |Added(products, p)|
                           && Added(products, p)[i].sku == p.sku && Added(products, p)[j].sku == p.sku
  {
    LookupFirst(products, p.sku);
    var k :| 0 <= k < |products| && products[k].sku == p.sku;
    var r := Added(products, p);
    assert r[0].sku == p.sku && r[k + 1] == products[k];
  }

  // ---------------------------------------------------------------------
  // Edit
  // ---------------------------------------------------------------------

  /**
   * Editing with a product replaces every entry with its SKU by it; the
   * others are untouched.
   */
  lemma EditReplacesMatching(products: seq<ProductData>, u: ProductData, i: nat)
    requires i < |products|
    ensures Edited(products, ProductArg(u))[i] == (if products[i].sku == u.sku then u else products[i])
  {
  }

  /** When nothing carries the edited SKU, editing changes nothing. */
  lemma {:induction false} EditUnknownSkuUnchanged(products: seq<ProductData>, arg: EditArg)
    requires forall i :: 0 <= i < |products| ==> Some(products[i].sku) != SkuOf(arg)
    ensures Edited(products, arg) == products
  {
    if products != [] {
      EditUnknownSkuUnchanged(products[1..], arg);
      assert products == [products[0]] + products[1..];
    }
  }

  /**
   * A string argument has no `sku`, and `undefined` equals no product's SKU,
   * so editing with a string leaves the list as it was.
   */
  lemma EditWithTextUnchanged(products: seq<ProductData>, s: string)
    ensures Edited(products, TextArg(s)) == products
  {
    EditUnknownSkuUnchanged(products, TextArg(s));
  }

  /**
   * After an edit with a product whose SKU is present, lookup by that SKU
   * answers the edited product.
   */
  lemma {:induction false} EditThenLookup(products: seq<ProductData>, u: ProductData)
    requires Lookup(products, u.sku).Some?
    ensures Lookup(Edited(products, ProductArg(u)), u.sku) == Some(u)
  {
    var r := Edited(products, ProductArg(u));
    LookupFirst(products, u.sku);
    LookupFirst(r, u.sku);
    var k :| 0 <= k < |products| && products[k].sku == u.sku;
    assert r[k] == u;
    var v := Lookup(r, u.sku).value;
    var i :| 0 <= i < |r| && r[i] == v && r[i].sku == u.sku;
    assert r[i] == EditEntry(products[i], ProductArg(u));
  }

  /** Editing twice with the same product is editing once. */
  lemma EditIdempotent(products: seq<ProductData>, arg: EditArg)
    ensures Edited(Edited(products, arg), arg) == Edited(products, arg)
  {
  }

  // ---------------------------------------------------------------------
  // Delete
  // ---------------------------------------------------------------------

  /**
   * Deleting removes exactly the products with that SKU: each other product
   * keeps its place in the order and its multiplicity.
   */
  lemma DeleteRemovesExactly(products: seq<ProductData>, sku: string, q: ProductData)
    ensures q in Removed(products, sku) <==> q in products && q.sku != sku
    ensures multiset(Removed(products, sku))[q] == if q.sku != sku then multiset(products)[q] else 0
    ensures IsSubsequence(Removed(products, sku), products)
  {
    FilterMembers(products, (p: ProductData) => p.sku != sku, q);
    FilterCounts(products, (p: ProductData) => p.sku != sku, q);
    FilterIsSubsequence(products, (p: ProductData) => p.sku != sku);
  }

  /** Deleting a SKU twice is deleting it once. */
  lemma DeleteIdempotent(products: seq<ProductData>, sku: string)
    ensures Removed(Removed(products, sku), sku) == Removed(products, sku)
  {
    FilterIdempotent(products, (p: ProductData) => p.sku != sku);
  }

  /** After deleting a SKU, lookup by it answers nothing. */
  lemma DeleteThenLookup(products: seq<ProductData>, sku: string)
    ensures Lookup(Removed(products, sku), sku) == None
  {
    var r := Removed(products, sku);
    forall i | 0 <= i < |r| ensures r[i].sku != sku {
      assert r[i] in r;
      DeleteRemovesExactly(products, sku, r[i]);
    }
  }

  // ---------------------------------------------------------------------
  // The edit page's call
  // ---------------------------------------------------------------------

  /**
   * The argument `handleEditProduct` receives from the edit page, which calls
   * `onEdit(sku, updatedProduct)` against a one-parameter handler: the SKU
   * string from the URL.
   */
  function EditPageArgument(sku: string, updated: ProductData): EditArg {
    TextArg(sku)
  }

  /** The argument the edit page evidently means to deliver: the updated product. */
  function IntendedEditPageArgument(sku: string, updated: ProductData): EditArg {
    ProductArg(updated)
  }

  /** As wired, saving on the edit page leaves the product list unchanged. */
  lemma EditPageSaveIsLost(products: seq<ProductData>, sku: string, updated: ProductData)
    ensures Edited(products, EditPageArgument(sku, updated)) == products
  {
    EditWithTextUnchanged(products, sku);
  }

  /**
   * With the updated product delivered, saving on the edit page stores it:
   * the edit page only opens for a SKU that lookup finds, and when the SKU is
   * left as it was, lookup then answers the updated product. A changed SKU is
   * covered by `RenameLostByObjectArgument` and `RenamedByUrlSku` below.
   */
  lemma IntendedEditPageSaveApplies(products: seq<ProductData>, sku: string, updated: ProductData)
    requires Lookup(products, sku).Some? && updated.sku == sku
    ensures Lookup(Edited(products, IntendedEditPageArgument(sku, updated)), sku) == Some(updated)
  {
    EditThenLookup(products, updated);
  }

  /**
   * Delivering the product alone does not cover a changed SKU: the one-parameter
   * handler matches on the new SKU, so when no product has it yet the save is
   * lost and the old entry stays.
   */
  lemma RenameLostByObjectArgument(products: seq<ProductData>, sku: string, updated: ProductData)
    requires forall i :: 0 <= i < |products| ==> products[i].sku != updated.sku
    ensures Edited(products, IntendedEditPageArgument(sku, updated)) == products
  {
    EditUnknownSkuUnchanged(products, ProductArg(updated));
  }

  /**
   * The handler with the two parameters the edit page passes:
   * `prevProducts.map(p => p.sku === sku ? updatedProduct : p)`, matching on
   * the SKU from the URL.
   */
  function EditedBySku(products: seq<ProductData>, sku: string, updated: ProductData): (r: seq<ProductData>)
    ensures |r| == |products|
    ensures forall i :: 0 <= i < |products| ==> r[i] == (if products[i].sku == sku then updated else products[i])
  {
    if products == [] then []
    else [if products[0].sku == sku then updated else products[0]] + EditedBySku(products[1..], sku, updated)
  }

  /**
   * Matching on the URL's SKU stores the edit whether or not the SKU changed:
   * the updated product is in the list; a renamed product is no longer found
   * under its old SKU; and it is found under its new SKU when no other
   * product held that one.
   */
  lemma RenamedByUrlSku(products: seq<ProductData>, sku: string, updated: ProductData)
    requires Lookup(products, sku).Some?
    ensures updated in EditedBySku(products, sku, updated)
    ensures updated.sku != sku ==> Lookup(EditedBySku(products, sku, updated), sku) == None
    ensures (forall i :: 0 <= i < |products| ==> products[i].sku != updated.sku || products[i].sku == sku) ==>
              Lookup(EditedBySku(products, sku, updated), updated.sku) == Some(updated)
  {
    var r := EditedBySku(products, sku, updated);
    LookupFirst(products, sku);
    var k :| 0 <= k < |products| && products[k].sku == sku;
    assert r[k] == updated;
    if updated.sku != sku {
      OldSkuGone(products, sku, updated);
    }
    if forall i :: 0 <= i < |products| ==> products[i].sku != updated.sku || products[i].sku == sku {
      NewSkuFinds(products, sku, updated, k);
    }
  }

  /** After a rename no entry carries the old SKU. */
  lemma OldSkuGone(products: seq<ProductData>, sku: string, updated: ProductData)
    requires updated.sku != sku
    ensures Lookup(EditedBySku(products, sku, updated), sku) == None
  {
    var r := EditedBySku(products, sku, updated);
    forall j | 0 <= j < |r| ensures r[j].sku != sku {
    }
  }

  /** When only the edited entries can carry the new SKU, every entry with it is the update. */
  lemma NewSkuFinds(products: seq<ProductData>, sku: string, updated: ProductData, k: nat)
    requires k < |products| && products[k].sku == sku
    requires forall i :: 0 <= i < |products| ==> products[i].sku != updated.sku || products[i].sku == sku
    ensures Lookup(EditedBySku(products, sku, updated), updated.sku) == Some(updated)
  {
    var r := EditedBySku(products, sku, updated);
    forall j | 0 <= j < |r| && r[j].sku == updated.sku ensures r[j] == updated {
    }
    assert r[k] == updated;
  }

  /** App's `products` state. */
  class ProductStore {
    var products: seq<ProductData>

    /** `useState(getInitialState)`: the list read from storage is a parameter. */
    constructor (initial: seq<ProductData>)
      ensures products == initial
    {
      products := initial;
    }

    /** `handleAddProduct` */
    method HandleAddProduct(p: ProductData)
      modifies this
      ensures products == Added(old(products), p)
    {
      products := [WithSkuAsId(p)] + products;
    }

    /** `handleEditProduct` */
    method HandleEditProduct(arg: EditArg)
      modifies this
      ensures products == Edited(old(products), arg)
    {
      products := Edited(products, arg);
    }

    /** `handleDeleteProduct` */
    method HandleDeleteProduct(sku: string)
      modifies this
      ensures products == Removed(old(products), sku)
    {
      products := Removed(products, sku);
    }

    /** `getProductBySku`: the first product with that SKU, or nothing. */
    method GetProductBySku(sku: string) returns (r: Option<ProductData>)
      ensures r.None? <==> forall i :: 0 <= i < |products| ==> products[i].sku != sku
      ensures r.Some? ==> r.value in products && r.value.sku == sku
      ensures r == Lookup(products, sku)
    {
      r := Lookup(products, sku);
      LookupFirst(products, sku);
    }
  }
}
