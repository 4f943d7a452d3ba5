/**
 * The product importer: fetch the Complies product list (an empty list when
 * the fetch fails) and create a storefront product for each, one at a time.
 */
module ProductSync {
  import opened Wrappers
  import opened JsText

  /**
   * A Complies product, as far as the mapping reads it. The prices are the
   * two-decimal renderings `toFixed(2)` gives of the numeric prices;
   * a missing price is `None`.
   */
  datatype Product = Product(
    title: Option<string>,
    longdescription: Option<string>,
    brand: Option<string>,
    tags: Option<string>,
    productimage: Option<string>,
    totalprice: Option<string>,
    itemcode: Option<string>,
    suggestprice: Option<string>,
    barcode: Option<string>,
    stockfree: Option<int>,
    categoryname2: Option<string>)

  datatype Image = Image(src: Option<string>)

  datatype Variant = Variant(
    price: string,
    sku: Option<string>,
    compare_at_price: string,
    barcode: string,
    inventory_quantity: int,
    inventory_management: string,
    inventory_policy: string)

  /** The storefront product-create payload. */
  datatype NewProduct = NewProduct(
    title: Option<string>,
    body_html: Option<string>,
    vendor: Option<string>,
    tags: string,
    images: seq<Image>,
    variants: seq<Variant>,
    product_type: Option<string>)

  /**
   * The payload for one product: text fields copied, tags and barcode
   * defaulted to `""`, stock defaulted to 0, one image and one
   * shop-managed, deny-when-out-of-stock variant. Formatting a missing
   * price throws, so such a product gets no payload.
   */
  function NewProductFor(p: Product): (r: Option<NewProduct>)
    ensures r.Some? <==> p.totalprice.Some? && p.suggestprice.Some?
    ensures r.Some? ==>
      var n := r.value;
      && n.title == p.title && n.body_html == p.longdescription
      && n.vendor == p.brand && n.product_type == p.categoryname2
      && Defaults(n.tags, p.tags, "")
      && n.images == [Image(p.productimage)]
      && |n.variants| == 1
      && n.variants[0].price == p.totalprice.value
      && n.variants[0].compare_at_price == p.suggestprice.value
      && n.variants[0].sku == p.itemcode
      && Defaults(n.variants[0].barcode, p.barcode, "")
      && n.variants[0].inventory_quantity == (if p.stockfree.Some? then p.stockfree.value else 0)
      && n.variants[0].inventory_management == "shopify"
      && n.variants[0].inventory_policy == "deny"
  {
    if p.totalprice.None? || p.suggestprice.None? then None
    else
      Some(NewProduct(
        p.title,
        p.longdescription,
        p.brand,
        Or(p.tags, ""),
        [Image(p.productimage)],
        [Variant(p.totalprice.value, p.itemcode, p.suggestprice.value, Or(p.barcode, ""),
                 p.stockfree.GetOr(0), "shopify", "deny")],
        p.categoryname2))
  }

  /**
   * The storefront's answer to one product create: created, rejected with
   * an error response, or failed with no response at all.
   */
  datatype AddResult = Added(title: Option<string>) | Rejected(body: string) | Unanswered(message: string)

  /**
   * The storefront, as an oracle: its answer to the create call made for
   * the product at list position `i`, so that the answer may depend on
   * what came before.
   */
  type Store = (nat, NewProduct) -> AddResult

  /** One create call and its result. */
  datatype SyncEvent = SyncEvent(product: NewProduct, result: AddResult)

  /** The create calls made, and whether an uncaught error ended the loop early. */
  datatype SyncRun = SyncRun(events: seq<SyncEvent>, stopped: bool)

  /**
   * The product at position `i` gets a payload and its create does not fail
   * without a response. Only such a product lets the loop go on: a missing
   * price throws outside the `try`, and the `catch` reads
   * `err.response.body`, which throws when there is no response.
   */
  predicate Survives(i: nat, p: Product, shop: Store) {
    NewProductFor(p).Some? && !shop(i, NewProductFor(p).value).Unanswered?
  }

  /** The create call made for the product at position `i`, if it gets a payload. */
  function CallFor(i: nat, p: Product, shop: Store): (e: Option<SyncEvent>)
    ensures e.Some? <==> NewProductFor(p).Some?
    ensures e.Some? ==> e.value.product == NewProductFor(p).value && e.value.result == shop(i, e.value.product)
  {
    match NewProductFor(p)
    case None => None
    case Some(n) => Some(SyncEvent(n, shop(i, n)))
  }

  /** The sequential loop from list position `i` on. */
  function SyncFrom(products: seq<Product>, i: nat, shop: Store): (r: SyncRun)
    requires i <= |products|
    ensures |r.events| <= |products| - i
    decreases |products| - i
  {
    if i == |products| then SyncRun([], false)
    else
      match NewProductFor(products[i])
      case None => SyncRun([], true)
      case Some(n) =>
        var result := shop(i, n);
        if result.Unanswered? then SyncRun([SyncEvent(n, result)], true)
        else
          var rest := SyncFrom(products, i + 1, shop);
          SyncRun([SyncEvent(n, result)] + rest.events, rest.stopped)
  }

  /** The loop over the whole list: at most one create call per product. */
  function Sync(products: seq<Product>, shop: Store): (r: SyncRun)
    ensures |r.events| <= |products|
  {
    SyncFrom(products, 0, shop)
  }

  /** `k` is the first position from `i` on whose product does not survive. */
  predicate FirstCrash(products: seq<Product>, i: nat, shop: Store, k: nat) {
    i <= k < |products| && !Survives(k, products[k], shop)
    && forall j :: i <= j < k ==> Survives(j, products[j], shop)
  }

  /** How many calls a run that crashes at position `k` has made from position `i` on. */
  function CallsUpTo(products: seq<Product>, i: nat, k: nat): nat
    requires i <= k < |products|
  {
    if NewProductFor(products[k]).Some? then k + 1 - i else k - i
  }

  lemma {:induction false} SyncFromInOrder(products: seq<Product>, i: nat, shop: Store)
    requires i <= |products|
    ensures var r := SyncFrom(products, i, shop);
      && (forall k :: i <= k < i + |r.events| ==> CallFor(k, products[k], shop) == Some(r.events[k - i]))
      && (!r.stopped <==> forall k :: i <= k < |products| ==> Survives(k, products[k], shop))
      && (!r.stopped ==> |r.events| == |products| - i)
      && (r.stopped ==> exists k :: FirstCrash(products, i, shop, k) && |r.events| == CallsUpTo(products, i, k))
    decreases |products| - i
  {
    if i < |products| {
      var r := SyncFrom(products, i, shop);
      if Survives(i, products[i], shop) {
        SyncFromInOrder(products, i + 1, shop);
        var rest := SyncFrom(products, i + 1, shop);
        assert r.events == [r.events[0]] + rest.events;
        if rest.stopped {
          var k :| FirstCrash(products, i + 1, shop, k) && |rest.events| == CallsUpTo(products, i + 1, k);
          assert FirstCrash(products, i, shop, k);
        }
      } else {
        assert FirstCrash(products, i, shop, i);
      }
    }
  }

  /**
   * The loop creates products in list order, the call for position `k`
   * carrying product `k`'s payload and the store's answer for `k`; it goes
   * past rejected creates and runs to the end exactly when every product
   * survives; a stopped run stops at the first product that does not
   * survive, having made one call per product before it, plus one for that
   * product when it got a payload.
   */
  lemma SyncInOrder(products: seq<Product>, shop: Store)
    ensures var r := Sync(products, shop);
      && (forall k :: 0 <= k < |r.events| ==> CallFor(k, products[k], shop) == Some(r.events[k]))
      && (!r.stopped <==> forall k :: 0 <= k < |products| ==> Survives(k, products[k], shop))
      && (!r.stopped ==> |r.events| == |products|)
      && (r.stopped ==> exists k :: FirstCrash(products, 0, shop, k) && |r.events| == CallsUpTo(products, 0, k))
  {
    SyncFromInOrder(products, 0, shop);
    var r := Sync(products, shop);
    forall k | 0 <= k < |r.events|
      ensures CallFor(k, products[k], shop) == Some(r.events[k])
    {
      assert CallFor(k, products[k], shop) == Some(r.events[k - 0]);
    }
  }

  /** The outcome of the product-list GET. */
  datatype Fetched = Fetched(data: seq<Product>) | FetchFailed(message: string)

  /** The fetched list, or `[]` when the fetch fails. */
  function FetchProducts(f: Fetched): (r: seq<Product>)
    ensures f.Fetched? ==> r == f.data
    ensures f.FetchFailed? ==> r == []
  {
    match f
    case Fetched(data) => data
    case FetchFailed(_) => []
  }

  /** The whole run: fetch, then the loop. A failed fetch creates nothing and ends normally. */
  function Main(f: Fetched, shop: Store): (r: SyncRun)
    ensures f.FetchFailed? ==> r == SyncRun([], false)
    ensures f.Fetched? ==> r == Sync(f.data, shop)
  {
    Sync(FetchProducts(f), shop)
  }
}
