/**
 * The body of a Complies "new order" request built from a webhook order,
 * and the shared recipient table both webhook handlers fill in.
 */
module CompliesOrder {
  import opened Wrappers
  import opened JsText
  import opened Http
  import opened ShopifyWebhook

  /** The `recv*` fields of the request body. */
  datatype Recipient = Recipient(
    companyname: string,
    surname: string,
    firstname: string,
    initials: string,
    street: string,
    housenr: string,
    zipcode: string,
    city: string,
    country: string,
    phone: string,
    email: string)

  /** A Complies order whose line items have type `Item`. */
  datatype ComplOrder<Item> = ComplOrder(
    orderref: string,
    ordertype: string,
    deliverymethod: string,
    partialdelivery: int,
    shipmentdate: string,
    recipient: Recipient,
    items: seq<Item>)

  /** One POST to the Complies order endpoint: the body and the credentials. */
  datatype Call<Item> = Call(order: ComplOrder<Item>, auth: Auth)

  /** What a webhook delivery produces: the response, and the Complies call made, if any. */
  datatype Outcome<Item> = Outcome(response: Response, call: Option<Call<Item>>)

  /**
   * The recipient fields: each is the shipping-address field when that is
   * truthy and its default otherwise, `"-"` for the company and `""` for
   * the rest; the e-mail comes from the order itself; the initials are the
   * first character of the mapped first name.
   */
  function MapRecipient(o: Order): (r: Recipient)
    ensures var a := AddressOf(o);
      && Defaults(r.companyname, a.company, "-")
      && Defaults(r.surname, a.last_name, "")
      && Defaults(r.firstname, a.first_name, "")
      && Defaults(r.street, a.address1, "")
      && Defaults(r.housenr, a.address2, "")
      && Defaults(r.zipcode, a.zip, "")
      && Defaults(r.city, a.city, "")
      && Defaults(r.country, a.country_code, "")
      && Defaults(r.phone, a.phone, "")
      && Defaults(r.email, o.email, "")
    ensures r.companyname != ""
    ensures r.initials == (if r.firstname == "" then "" else r.firstname[..1])
    ensures o.shipping_address.None? ==>
      r == Recipient("-", "", "", "", "", "", "", "", "", "", Or(o.email, ""))
  {
    var a := AddressOf(o);
    Recipient(
      Or(a.company, "-"),
      Or(a.last_name, ""),
      Or(a.first_name, ""),
      CharAt0(a.first_name.GetOr("")),
      Or(a.address1, ""),
      Or(a.address2, ""),
      Or(a.zip, ""),
      Or(a.city, ""),
      Or(a.country_code, ""),
      Or(a.phone, ""),
      Or(o.email, ""))
  }
}
