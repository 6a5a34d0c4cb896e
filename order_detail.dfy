/**
 * The purchase-order detail page (src/pages/PurchaseOrdersDetailPage.jsx):
 * finding the order named in the URL, and joining its line items with the
 * product catalog to add a name and a brand to each.
 */
module OrderDetail {
  import opened Common

  /**
   * A line item of an order. `productId` is `None` when the key is absent;
   * `productName` and `brand` are absent until the catalog join adds them.
   */
  datatype LineItem = LineItem(
    productId: Option<Id>,
    productSku: string,
    quantity: int,
    unitPrice: real,
    subtotal: real,
    productName: Option<string>,
    brand: Option<string>)

  /** An entry of the `/products` catalog, as far as the join reads it. */
  datatype CatalogEntry = CatalogEntry(productId: Option<Id>, name: Option<string>, brand: Option<string>)

  /** A purchase order as the `/purchase-orders` endpoint returns it. */
  datatype Order = Order(
    id: Id,
    supplierId: Option<Id>,
    supplierName: Option<string>,
    deliveryDate: string,
    createdAt: string,
    status: string,
    total: real,
    products: seq<LineItem>)

  // ---------------------------------------------------------------------
  // Finding the order
  // ---------------------------------------------------------------------

  /**
   * `order.id === Number(orderId)`. `key` is `Number(orderId)`, `None` for NaN;
   * a string id is never strictly equal to a number.
   */
  predicate IdIsNumber(id: Id, key: Option<real>) {
    id.NumId? && key.Some? && id.n as real == key.value
  }

  /** `data.find(order => order.id === Number(orderId))` */
  function FindOrder(data: seq<Order>, key: Option<real>): Option<Order> {
    Find(data, (o: Order) => IdIsNumber(o.id, key))
  }

  /**
   * The lookup answers the first order whose numeric id is the key, and
   * nothing exactly when there is none.
   */
  lemma FindOrderFirst(data: seq<Order>, key: Option<real>)
    ensures FindOrder(data, key).None? <==> forall i :: 0 <= i < |data| ==> !IdIsNumber(data[i].id, key)
    ensures FindOrder(data, key).Some? ==>
              exists i :: 0 <= i < |data| && data[i] == FindOrder(data, key).value
                          && IdIsNumber(data[i].id, key)
                          && forall j :: 0 <= j < i ==> !IdIsNumber(data[j].id, key)
  {
  }

  /** An order stored with a string id is never the one found, whatever the URL holds. */
  lemma StringIdNeverFound(data: seq<Order>, key: Option<real>)
    ensures FindOrder(data, key).Some? ==> FindOrder(data, key).value.id.NumId?
    ensures (forall i :: 0 <= i < |data| ==> data[i].id.StrId?) ==> FindOrder(data, key).None?
  {
    FindOrderFirst(data, key);
  }

  /**
   * The lookup the page evidently intends: the id as the URL writes it,
   * `String(order.id) === orderId`, which finds numeric and string ids alike.
   */
  predicate IdIsText(id: Id, orderId: string) {
    match id
    case NumId(n) => IntToString(n) == orderId
    case StrId(s) => s == orderId
  }

  function FindOrderIntended(data: seq<Order>, orderId: string): Option<Order> {
    Find(data, (o: Order) => IdIsText(o.id, orderId))
  }

  /**
   * The intended lookup finds an order whose string id is the URL's text, and
   * on a number written in its plain decimal form it agrees with the lookup
   * as written on every order with a numeric id.
   */
  lemma FindOrderIntendedProperties(data: seq<Order>, orderId: string, n: int)
    ensures (exists i :: 0 <= i < |data| && data[i].id == StrId(orderId)) ==> FindOrderIntended(data, orderId).Some?
    ensures (forall i :: 0 <= i < |data| ==> data[i].id.NumId?) ==>
              FindOrderIntended(data, IntToString(n)) == FindOrder(data, Some(n as real))
  {
    if exists i :: 0 <= i < |data| && data[i].id == StrId(orderId) {
      var i :| 0 <= i < |data| && data[i].id == StrId(orderId);
      assert IdIsText(data[i].id, orderId);
    }
    if forall i :: 0 <= i < |data| ==> data[i].id.NumId? {
      SamePredicateOnOrders(data, n);
    }
  }

  /** On numeric ids, the text match against `IntToString(n)` is the number match against `n`. */
  lemma {:induction false} SamePredicateOnOrders(data: seq<Order>, n: int)
    requires forall i :: 0 <= i < |data| ==> data[i].id.NumId?
    ensures FindOrderIntended(data, IntToString(n)) == FindOrder(data, Some(n as real))
  {
    if data != [] {
      var m := data[0].id.n;
      if IntToString(m) == IntToString(n) {
        IntToStringInjective(m, n);
      }
      assert IdIsText(data[0].id, IntToString(n)) == IdIsNumber(data[0].id, Some(n as real));
      SamePredicateOnOrders(data[1..], n);
    }
  }

  // ---------------------------------------------------------------------
  // The catalog join
  // ---------------------------------------------------------------------

  /** `x || "Unknown"`: an absent or empty text falls back to "Unknown". */
  function OrUnknown(x: Option<string>): (r: string)
    ensures r != ""
    ensures x.Some? && x.value != "" ==> r == x.value
    ensures x.None? || x.value == "" ==> r == "Unknown"
  {
    if x.Some? && x.value != "" then x.value else "Unknown"
  }

  /** `inventory.find(inv => inv.productId === p.productId)` */
  function CatalogMatch(inventory: seq<CatalogEntry>, productId: Option<Id>): Option<CatalogEntry> {
    Find(inventory, (e: CatalogEntry) => e.productId == productId)
  }

  /** `match?.name`, `match?.brand` */
  function MatchName(m: Option<CatalogEntry>): Option<string> {
    if m.Some? then m.value.name else None
  }

  function MatchBrand(m: Option<CatalogEntry>): Option<string> {
    if m.Some? then m.value.brand else None
  }

  /** `{ ...p, productName: match?.name || "Unknown", brand: match?.brand || "Unknown" }` */
  function EnrichItem(p: LineItem, inventory: seq<CatalogEntry>): LineItem {
    var m := CatalogMatch(inventory, p.productId);
    p.(productName := Some(OrUnknown(MatchName(m))), brand := Some(OrUnknown(MatchBrand(m))))
  }

  /** `products.map(p => ...)` */
  function Enrich(items: seq<LineItem>, inventory: seq<CatalogEntry>): (r: seq<LineItem>)
    ensures |r| == |items|
    ensures forall i :: 0 <= i < |items| ==> r[i] == EnrichItem(items[i], inventory)
  {
    if items == [] then [] else [EnrichItem(items[0], inventory)] + Enrich(items[1..], inventory)
  }

  /**
   * Enrichment keeps the length, the order and every original field of each
   * item, and only ever sets a non-empty name and brand.
   */
  lemma EnrichKeepsItems(items: seq<LineItem>, inventory: seq<CatalogEntry>, i: nat)
    requires i < |items|
    ensures Enrich(items, inventory)[i].(productName := items[i].productName, brand := items[i].brand) == items[i]
    ensures Enrich(items, inventory)[i].productName.Some? && Enrich(items, inventory)[i].productName.value != ""
    ensures Enrich(items, inventory)[i].brand.Some? && Enrich(items, inventory)[i].brand.value != ""
  {
  }

  /**
   * The name and brand come from the first catalog entry with the same
   * product id; with no such entry both are "Unknown".
   */
  lemma EnrichFromFirstMatch(items: seq<LineItem>, inventory: seq<CatalogEntry>, i: nat)
    requires i < |items|
    ensures var r := Enrich(items, inventory)[i];
            (forall k :: 0 <= k < |inventory| ==> inventory[k].productId != items[i].productId) ==>
              r.productName == Some("Unknown") && r.brand == Some("Unknown")
    ensures var r := Enrich(items, inventory)[i];
            forall k :: 0 <= k < |inventory| && inventory[k].productId == items[i].productId
                        && (forall j :: 0 <= j < k ==> inventory[j].productId != items[i].productId) ==>
              r.productName == Some(OrUnknown(inventory[k].name)) && r.brand == Some(OrUnknown(inventory[k].brand))
  {
    var p := (e: CatalogEntry) => e.productId == items[i].productId;
    var m := CatalogMatch(inventory, items[i].productId);
    forall k | 0 <= k < |inventory| && inventory[k].productId == items[i].productId
               && (forall j :: 0 <= j < k ==> inventory[j].productId != items[i].productId)
      ensures m == Some(inventory[k])
    {
      FindIsFirst(inventory, p, k);
    }
  }

  /** What `Find` answers, when the first passing element sits at index `k`. */
  lemma FindIsFirst(s: seq<CatalogEntry>, p: CatalogEntry -> bool, k: nat)
    requires k < |s| && p(s[k]) && forall j :: 0 <= j < k ==> !p(s[j])
    ensures Find(s, p) == Some(s[k])
  {
    var r := Find(s, p);
    var i :| 0 <= i < |s| && s[i] == r.value && p(s[i]) && forall j :: 0 <= j < i ==> !p(s[j]);
    assert i == k;
  }

  /** The SKU of a line item plays no part in what it is joined with. */
  lemma EnrichIgnoresSku(p: LineItem, sku: string, inventory: seq<CatalogEntry>)
    ensures EnrichItem(p.(productSku := sku), inventory) == EnrichItem(p, inventory).(productSku := sku)
  {
  }

  /**
   * Enriching an enriched list against the same catalog gives the same list:
   * the values the effect stores are stable. The effect itself does not stop,
   * since each enrichment stores a new array and so re-triggers it.
   */
  lemma EnrichIdempotent(items: seq<LineItem>, inventory: seq<CatalogEntry>)
    ensures Enrich(Enrich(items, inventory), inventory) == Enrich(items, inventory)
  {
    var r := Enrich(items, inventory);
    var rr := Enrich(r, inventory);
    forall i | 0 <= i < |r| ensures rr[i] == r[i] {
      assert r[i].productId == items[i].productId;
    }
  }

  /** What the `/products` request came to: the catalog, or a failure. */
  type CatalogResponse = Option<seq<CatalogEntry>>

  /**
   * The page's `order` and `products` state. `order` is `None` for the
   * initial empty object.
   */
  class OrderDetailView {
    var order: Option<Order>
    var products: seq<LineItem>

    constructor ()
      ensures order == None && products == []
    {
      order := None;
      products := [];
    }

    /**
     * `loadOrders`: `response` is the parsed `/purchase-orders` list, `None`
     * when the request fails; `key` is `Number(orderId)`. A found order
     * replaces both fields; otherwise neither changes.
     */
    method LoadOrders(response: Option<seq<Order>>, key: Option<real>)
      modifies this
      ensures response.Some? && FindOrder(response.value, key).Some? ==>
                order == FindOrder(response.value, key) && products == FindOrder(response.value, key).value.products
      ensures response.None? || FindOrder(response.value, key).None? ==>
                order == old(order) && products == old(products)
    {
      if response.Some? {
        var selected := FindOrder(response.value, key);
        if selected.Some? {
          order := selected;
          products := selected.value.products;
        }
      }
    }

    /**
     * One run of the enrichment effect: with no line items it fetches nothing;
     * otherwise a catalog that arrives replaces the items by their enrichment,
     * and a failed request leaves them. `fetched` says whether the catalog was
     * asked for. Storing the new array triggers the next run.
     */
    method EnrichEffect(inventory: CatalogResponse) returns (fetched: bool)
      modifies this
      ensures fetched <==> old(products) != []
      ensures order == old(order)
      ensures products == (if fetched && inventory.Some? then Enrich(old(products), inventory.value) else old(products))
    {
      fetched := |products| > 0;
      if fetched && inventory.Some? {
        products := Enrich(products, inventory.value);
      }
    }
  }
}
