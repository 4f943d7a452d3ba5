/**
 * The one-shot order script: create a storefront order from a mock order,
 * then send a placeholder-filled order to Complies built from the created
 * order's shipping address.
 */
module PostOrder {
  import opened Wrappers
  import opened JsText

  /** The input order, as far as the storefront payload reads it. */
  datatype Input = Input(
    quantity: Option<int>,
    orderedByName: Option<string>,
    orderedByAddress: Option<string>,
    orderedByCity: Option<string>,
    orderedByZipCode: Option<string>,
    orderedByCountry: Option<string>,
    orderedByPhone: Option<string>,
    customerName: Option<string>,
    customerAddress: Option<string>,
    customerCity: Option<string>,
    customerZipCode: Option<string>,
    customerCountry: Option<string>,
    customerEmail: Option<string>,
    customerPhone: Option<string>)

  /** The fields of the script's mock order that the payload reads. */
  const MockOrder := Input(
    Some(1),
    Some("John Doe"), Some("123 Test Street"), Some("Test City"), Some("1234AA"), Some("NL"), Some("123456789"),
    Some("Jane Doe"), Some("456 Test Avenue"), Some("Test City"), Some("1234AA"), Some("NL"),
    Some("jane@example.com"), Some("123456789"))

  const VariantId := 49579396759891

  datatype DraftItem = DraftItem(variant_id: int, quantity: Option<int>)

  /** An address of the payload; `last_name` is undefined for a one-word name. */
  datatype Address = Address(
    first_name: string,
    last_name: Option<string>,
    address1: Option<string>,
    city: Option<string>,
    province: string,
    country: Option<string>,
    zip: Option<string>,
    phone: Option<string>)

  /** The storefront order-create payload. */
  datatype Draft = Draft(
    line_items: seq<DraftItem>,
    billing_address: Address,
    shipping_address: Address,
    email: Option<string>)

  /**
   * The payload for one input: billing from the `orderedBy*` fields,
   * shipping from the `customer*` fields, an empty province, the customer's
   * e-mail, and the first and second space-split words of each name. A
   * missing name makes `split` throw, so such an input gets no payload.
   */
  function DraftFor(o: Input): (r: Option<Draft>)
    ensures r.Some? <==> o.orderedByName.Some? && o.customerName.Some?
    ensures r.Some? ==>
      var d := r.value;
      && d.line_items == [DraftItem(VariantId, o.quantity)]
      && d.email == o.customerEmail
      && d.billing_address.first_name == FirstWord(o.orderedByName.value)
      && d.billing_address.last_name == SecondWord(o.orderedByName.value)
      && d.shipping_address.first_name == FirstWord(o.customerName.value)
      && d.shipping_address.last_name == SecondWord(o.customerName.value)
      && d.billing_address.province == "" && d.shipping_address.province == ""
      && d.billing_address.address1 == o.orderedByAddress && d.shipping_address.address1 == o.customerAddress
      && d.billing_address.city == o.orderedByCity && d.shipping_address.city == o.customerCity
      && d.billing_address.country == o.orderedByCountry && d.shipping_address.country == o.customerCountry
      && d.billing_address.zip == o.orderedByZipCode && d.shipping_address.zip == o.customerZipCode
      && d.billing_address.phone == o.orderedByPhone && d.shipping_address.phone == o.customerPhone
  {
    if o.orderedByName.None? || o.customerName.None? then None
    else
      var billing := o.orderedByName.value;
      var shipping := o.customerName.value;
      Some(Draft(
        [DraftItem(VariantId, o.quantity)],
        Address(FirstWord(billing), SecondWord(billing), o.orderedByAddress, o.orderedByCity,
                "", o.orderedByCountry, o.orderedByZipCode, o.orderedByPhone),
        Address(FirstWord(shipping), SecondWord(shipping), o.customerAddress, o.customerCity,
                "", o.customerCountry, o.customerZipCode, o.customerPhone),
        o.customerEmail))
  }

  /**
   * The two-word split keeps only the second word: a last name is
   * undefined exactly when its name has no space, never holds a space, and
   * is the whole rest of the name (what the batch fetcher sends) exactly
   * when the name has one space; in general it is the word between the
   * first and the second space, and later words are dropped.
   */
  lemma LastNameIsSecondWordOnly(o: Input)
    requires DraftFor(o).Some?
    ensures var d := DraftFor(o).value;
            var billing, shipping := o.orderedByName.value, o.customerName.value;
      && (d.billing_address.last_name.None? <==> ' ' !in billing)
      && (d.shipping_address.last_name.None? <==> ' ' !in shipping)
      && (d.billing_address.last_name.Some? ==> ' ' !in d.billing_address.last_name.value)
      && (d.shipping_address.last_name.Some? ==> ' ' !in d.shipping_address.last_name.value)
      && (' ' in billing ==> d.billing_address.last_name == Some(FirstWord(RestWords(billing))))
      && (' ' in shipping ==> d.shipping_address.last_name == Some(FirstWord(RestWords(shipping))))
      && (d.billing_address.last_name == Some(RestWords(billing)) <==> |Split(billing, ' ')| == 2)
      && (d.shipping_address.last_name == Some(RestWords(shipping)) <==> |Split(shipping, ' ')| == 2)
  {
  }

  /** How the two mock names split. */
  lemma MockNamesSplit()
    ensures FirstWord("John Doe") == "John" && SecondWord("John Doe") == Some("Doe")
    ensures FirstWord("Jane Doe") == "Jane" && SecondWord("Jane Doe") == Some("Doe")
  {
    TwoWords("John", "Doe");
    assert "John" + " " + "Doe" == "John Doe";
    TwoWords("Jane", "Doe");
    assert "Jane" + " " + "Doe" == "Jane Doe";
  }

  /** The mock order's names split into John / Doe and Jane / Doe. */
  lemma MockOrderNames()
    ensures DraftFor(MockOrder).Some?
    ensures var d := DraftFor(MockOrder).value;
      && d.billing_address.first_name == "John" && d.billing_address.last_name == Some("Doe")
      && d.shipping_address.first_name == "Jane" && d.shipping_address.last_name == Some("Doe")
  {
    MockNamesSplit();
  }

  /** The shipping address of the order the storefront created, as the Complies step reads it. */
  datatype CreatedAddress = CreatedAddress(
    first_name: Option<string>,
    last_name: Option<string>,
    address1: Option<string>,
    zip: Option<string>,
    city: Option<string>)

  datatype CreatedOrder = CreatedOrder(shipping_address: Option<CreatedAddress>)

  /** The storefront's answer to the create call. */
  datatype CreateResult = Created(order: CreatedOrder) | CreateFailed(message: string)

  /** The single hardcoded line; the price is the JSON number 1783.05, kept as its text. */
  datatype DetailItem = DetailItem(itemcode: string, description: string, quantity: int, price: string)

  const FixedItem := DetailItem("49579396759891", "Zotac RTX 4090 OC 24GB", 1, "1783.05")

  /** The Complies order body. */
  datatype Details = Details(
    recvcompanyname: string,
    recvsurname: string,
    recvfirstname: string,
    recvstreet: string,
    recvzipcode: string,
    recvcity: string,
    recvcountry: string,
    ordertype: string,
    items: seq<DetailItem>)

  /**
   * The Complies body for a created order's shipping address: each name,
   * street, zip and city field is the address field when truthy and a fixed
   * placeholder otherwise, so none is ever empty; company, country, order
   * type and the single item are fixed, whatever quantity was ordered.
   */
  function DetailsFor(a: CreatedAddress): (d: Details)
    ensures Defaults(d.recvsurname, a.last_name, "Doe")
    ensures Defaults(d.recvfirstname, a.first_name, "John")
    ensures Defaults(d.recvstreet, a.address1, "123 Test Street")
    ensures Defaults(d.recvzipcode, a.zip, "1234AA")
    ensures Defaults(d.recvcity, a.city, "Test City")
    ensures d.recvsurname != "" && d.recvfirstname != "" && d.recvstreet != "" && d.recvzipcode != "" && d.recvcity != ""
    ensures d.recvcompanyname == "Company Name" && d.recvcountry == "NL" && d.ordertype == "AS"
    ensures d.items == [FixedItem] && d.items[0].quantity == 1
  {
    Details(
      "Company Name",
      Or(a.last_name, "Doe"),
      Or(a.first_name, "John"),
      Or(a.address1, "123 Test Street"),
      Or(a.zip, "1234AA"),
      Or(a.city, "Test City"),
      "NL",
      "AS",
      [FixedItem])
  }

  /**
   * What one run does: the create call made (if any), the Complies call
   * made (if any), and whether the top-level `catch` logged an error.
   */
  datatype Run = Run(created: Option<Draft>, sent: Option<Details>, failed: bool)

  /**
   * Creates the storefront order, then sends the Complies order. A create
   * failure is rethrown, so Complies is not contacted; a created order
   * without a shipping address makes the Complies step throw before its
   * call. The Complies answer is only logged, so it is not an input.
   */
  function Process(o: Input, shop: Draft -> CreateResult): (r: Run)
    ensures r.created == DraftFor(o)
    ensures r.sent.Some? <==>
      DraftFor(o).Some? && shop(DraftFor(o).value).Created? && shop(DraftFor(o).value).order.shipping_address.Some?
    ensures r.sent.Some? ==> r.sent.value == DetailsFor(shop(DraftFor(o).value).order.shipping_address.value)
    ensures r.failed <==> r.sent.None?
  {
    match DraftFor(o)
    case None => Run(None, None, true)
    case Some(d) =>
      match shop(d)
      case CreateFailed(_) => Run(Some(d), None, true)
      case Created(order) =>
        match order.shipping_address
        case None => Run(Some(d), None, true)
        case Some(a) => Run(Some(d), Some(DetailsFor(a)), false)
  }

  /**
   * The script's entry point runs the mock order: a create is always
   * attempted, and a failed create means no Complies call and a logged
   * failure.
   */
  function Main(shop: Draft -> CreateResult): (r: Run)
    ensures r.created.Some? && r.created == DraftFor(MockOrder)
    ensures shop(r.created.value).CreateFailed? ==> r.sent.None? && r.failed
  {
    Process(MockOrder, shop)
  }
}
