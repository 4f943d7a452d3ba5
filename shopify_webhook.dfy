/** The storefront's order-created webhook body, as far as the handlers read it. */
module ShopifyWebhook {
  import opened Wrappers
  import opened JsText

  /** An order id is a JSON number or a JSON string. */
  datatype OrderId = NumberId(n: int) | StringId(s: string)

  datatype ShippingAddress = ShippingAddress(
    company: Option<string>,
    first_name: Option<string>,
    last_name: Option<string>,
    address1: Option<string>,
    address2: Option<string>,
    zip: Option<string>,
    city: Option<string>,
    country_code: Option<string>,
    phone: Option<string>)

  datatype LineItem = LineItem(sku: Option<string>, title: Option<string>, quantity: int)

  datatype Order = Order(
    id: Option<OrderId>,
    email: Option<string>,
    shipping_address: Option<ShippingAddress>,
    line_items: Option<seq<LineItem>>)

  /** An address all of whose fields are undefined. */
  const NoAddress := ShippingAddress(None, None, None, None, None, None, None, None, None)

  /** What `order.shipping_address?.f` reads: an absent address reads as one whose every field is undefined. */
  function AddressOf(o: Order): ShippingAddress {
    o.shipping_address.GetOr(NoAddress)
  }

  /** `!order.id` is false: the id is present, not `0` and not `""`. */
  predicate IdTruthy(id: Option<OrderId>) {
    match id
    case None => false
    case Some(NumberId(n)) => n != 0
    case Some(StringId(s)) => s != ""
  }

  /**
   * `id.toString()`: a string id is itself, a numeric id the canonical
   * numeral (no leading zero, a minus sign only when negative) that reads
   * back as the same number; by `DecimalIsUnique` there is only one such.
   */
  function IdToString(id: OrderId): (s: string)
    ensures id.NumberId? ==> CanonicalInt(s) && ParseInt(s) == Some(id.n)
    ensures id.StringId? ==> s == id.s
  {
    match id
    case NumberId(n) => ParseIntOfDecimal(n); IntToDecimal(n)
    case StringId(s) => s
  }
}
