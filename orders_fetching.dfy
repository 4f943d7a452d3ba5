/**
 * The batch order fetcher: fetch the day's Complies orders (falling back to
 * one mock order when the list is empty or the fetch fails), then create a
 * storefront order for each, one at a time, logging and skipping failures.
 */
module OrdersFetching {
  import opened Wrappers
  import opened JsText

  /** A Complies order record, as far as the storefront payload reads it. */
  datatype CompliesRecord = CompliesRecord(
    quantity: Option<int>,
    orderedbyname: Option<string>,
    orderedbyaddress: Option<string>,
    orderedbycity: Option<string>,
    orderedbyzipcode: Option<string>,
    orderedbycountry: Option<string>,
    orderedbyphone: Option<string>,
    customername: Option<string>,
    customeraddress: Option<string>,
    customercity: Option<string>,
    customerzipcode: Option<string>,
    customercountry: Option<string>,
    customerphone: Option<string>)

  /** The fields of the built-in mock order that the payload reads. */
  const MockOrder := CompliesRecord(
    Some(1),
    Some("John Doe"), Some("123 Test Street"), Some("Test City"), Some("12345"), Some("NL"), Some("123456789"),
    Some("Jane Doe"), Some("123678 Test Street"), Some("Test City"), Some("12345"), Some("NL"), Some("123456789"))

  /** The outcome of the order-list GET. */
  datatype Fetched = Fetched(data: seq<CompliesRecord>) | FetchFailed(message: string)

  /** The order list to process: a non-empty fetched list as it is, otherwise the mock order alone. */
  function FetchOrders(f: Fetched): (r: seq<CompliesRecord>)
    ensures r != []
    ensures f.Fetched? && f.data != [] ==> r == f.data
    ensures f.FetchFailed? || f.data == [] ==> r == [MockOrder]
  {
    match f
    case Fetched(data) => if |data| == 0 then [MockOrder] else data
    case FetchFailed(_) => [MockOrder]
  }

  const VariantId := 49578714759507
  const CustomerId := 987654321

  datatype DraftItem = DraftItem(variant_id: int, quantity: Option<int>)

  datatype Address = Address(
    first_name: string,
    last_name: string,
    address1: Option<string>,
    city: Option<string>,
    province: string,
    country: Option<string>,
    zip: Option<string>,
    phone: Option<string>)

  /** The storefront order-create payload. */
  datatype Draft = Draft(
    line_items: seq<DraftItem>,
    customer_id: int,
    billing_address: Address,
    shipping_address: Address,
    financial_status: string)

  /** `first_name` and `last_name` are the split of `name` at its first space. */
  predicate NameSplit(a: Address, name: string) {
    a.first_name == FirstWord(name) && a.last_name == RestWords(name)
  }

  /**
   * The payload for one record. Splitting a missing name throws inside the
   * `try`, so such a record gets no payload.
   */
  function DraftFor(o: CompliesRecord): (r: Option<Draft>)
    ensures r.Some? <==> o.orderedbyname.Some? && o.customername.Some?
    ensures r.Some? ==>
      var d := r.value;
      && d.line_items == [DraftItem(VariantId, o.quantity)]
      && d.customer_id == CustomerId
      && d.financial_status == "paid"
      && NameSplit(d.billing_address, o.orderedbyname.value)
      && NameSplit(d.shipping_address, o.customername.value)
      && d.billing_address.province == "punjab" && d.shipping_address.province == "sindh"
      && d.billing_address.address1 == o.orderedbyaddress && d.shipping_address.address1 == o.customeraddress
      && d.billing_address.city == o.orderedbycity && d.shipping_address.city == o.customercity
      && d.billing_address.country == o.orderedbycountry && d.shipping_address.country == o.customercountry
      && d.billing_address.zip == o.orderedbyzipcode && d.shipping_address.zip == o.customerzipcode
      && d.billing_address.phone == o.orderedbyphone && d.shipping_address.phone == o.customerphone
  {
    if o.orderedbyname.None? || o.customername.None? then None
    else
      var billing := o.orderedbyname.value;
      var shipping := o.customername.value;
      Some(Draft(
        [DraftItem(VariantId, o.quantity)],
        CustomerId,
        Address(FirstWord(billing), RestWords(billing), o.orderedbyaddress, o.orderedbycity,
                "punjab", o.orderedbycountry, o.orderedbyzipcode, o.orderedbyphone),
        Address(FirstWord(shipping), RestWords(shipping), o.customeraddress, o.customercity,
                "sindh", o.customercountry, o.customerzipcode, o.customerphone),
        "paid"))
  }

  /**
   * The names in a payload are exact splits: the first name has no space,
   * and first name, a space and last name give back the whole name when it
   * has a space; otherwise the last name is empty.
   */
  lemma DraftNamesRejoin(o: CompliesRecord)
    requires DraftFor(o).Some?
    ensures var d := DraftFor(o).value;
      && ' ' !in d.billing_address.first_name && ' ' !in d.shipping_address.first_name
      && (' ' in o.orderedbyname.value ==>
            d.billing_address.first_name + " " + d.billing_address.last_name == o.orderedbyname.value)
      && (' ' !in o.orderedbyname.value ==>
            d.billing_address.first_name == o.orderedbyname.value && d.billing_address.last_name == "")
      && (' ' in o.customername.value ==>
            d.shipping_address.first_name + " " + d.shipping_address.last_name == o.customername.value)
      && (' ' !in o.customername.value ==>
            d.shipping_address.first_name == o.customername.value && d.shipping_address.last_name == "")
  {
  }

  /** How the two mock names split. */
  lemma MockNamesSplit()
    ensures FirstWord("John Doe") == "John" && RestWords("John Doe") == "Doe"
    ensures FirstWord("Jane Doe") == "Jane" && RestWords("Jane Doe") == "Doe"
  {
    TwoWords("John", "Doe");
    assert "John" + " " + "Doe" == "John Doe";
    TwoWords("Jane", "Doe");
    assert "Jane" + " " + "Doe" == "Jane Doe";
  }

  /** The mock record splits into billing John / Doe and shipping Jane / Doe. */
  lemma MockOrderNames()
    ensures DraftFor(MockOrder).Some?
    ensures var d := DraftFor(MockOrder).value;
      && d.billing_address.first_name == "John" && d.billing_address.last_name == "Doe"
      && d.shipping_address.first_name == "Jane" && d.shipping_address.last_name == "Doe"
  {
    MockNamesSplit();
  }

  /** The storefront's answer to one order create. */
  datatype CreateResult = Created(response: string) | CreateFailed(message: string)

  /**
   * The storefront, as an oracle: its answer to the create call made for
   * the record at list position `i`. Indexing by position lets the answer
   * depend on what came before, just as a real store's may.
   */
  type Store = (nat, Draft) -> CreateResult

  /** What processing one record leaves: an error logged before any call, or one create call and its result. */
  datatype OrderEvent = PayloadFailed | Attempted(draft: Draft, result: CreateResult)

  /**
   * `createShopifyOrder` for the record at position `i`: every error is
   * caught and logged. A record without both names raises before the call;
   * any other makes one create call with its payload.
   */
  function Attempt(i: nat, o: CompliesRecord, shop: Store): (e: OrderEvent)
    ensures e.PayloadFailed? <==> o.orderedbyname.None? || o.customername.None?
    ensures e.Attempted? ==> e.draft == DraftFor(o).value && e.result == shop(i, e.draft)
  {
    match DraftFor(o)
    case None => PayloadFailed
    case Some(d) => Attempted(d, shop(i, d))
  }

  /** The sequential loop from list position `i` on. */
  function CreateFrom(orders: seq<CompliesRecord>, i: nat, shop: Store): (events: seq<OrderEvent>)
    requires i <= |orders|
    ensures |events| == |orders| - i
    decreases |orders| - i
  {
    if i == |orders| then [] else [Attempt(i, orders[i], shop)] + CreateFrom(orders, i + 1, shop)
  }

  /** The loop over the whole list: one event per record. */
  function CreateAll(orders: seq<CompliesRecord>, shop: Store): (events: seq<OrderEvent>)
    ensures |events| == |orders|
  {
    CreateFrom(orders, 0, shop)
  }

  lemma {:induction false} CreateFromInOrder(orders: seq<CompliesRecord>, i: nat, shop: Store, k: nat)
    requires i <= k < |orders|
    ensures CreateFrom(orders, i, shop)[k - i] == Attempt(k, orders[k], shop)
    decreases k - i
  {
    if k > i {
      CreateFromInOrder(orders, i + 1, shop, k);
    }
  }

  /**
   * Every record is processed, in list order, and event `k` is the
   * processing of record `k` alone, with the store's answer for position
   * `k`: no earlier event, a failed create included, changes it or stops it.
   */
  lemma CreateAllInOrder(orders: seq<CompliesRecord>, shop: Store)
    ensures forall k :: 0 <= k < |orders| ==> CreateAll(orders, shop)[k] == Attempt(k, orders[k], shop)
  {
    forall k | 0 <= k < |orders| ensures CreateAll(orders, shop)[k] == Attempt(k, orders[k], shop) {
      CreateFromInOrder(orders, 0, shop, k);
    }
  }

  /**
   * The whole run: fetch, then the loop, one event per fetched record in
   * order; when the fetch fails or finds nothing, exactly one record is
   * processed, the mock one, which makes a create call. The clock readings
   * that bound the fetch are left out.
   */
  function Main(f: Fetched, shop: Store): (events: seq<OrderEvent>)
    ensures |events| == |FetchOrders(f)| >= 1
    ensures forall k :: 0 <= k < |events| ==> events[k] == Attempt(k, FetchOrders(f)[k], shop)
    ensures f.FetchFailed? || f.data == [] ==>
      events == [Attempted(DraftFor(MockOrder).value, shop(0, DraftFor(MockOrder).value))]
  {
    CreateAllInOrder(FetchOrders(f), shop);
    CreateAll(FetchOrders(f), shop)
  }
}
