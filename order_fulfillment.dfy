/**
 * The serverless order-fulfillment webhook handler: method check, payload
 * check, mapping to a Complies drop-ship order, configuration check, one
 * POST to Complies, and the classification of its outcome.
 */
module OrderFulfillment {
  import opened Wrappers
  import opened JsText
  import opened Http
  import opened ShopifyWebhook
  import opened CompliesOrder

  /** A line of the Complies order. */
  datatype Item = Item(itemcode: string, quantity: int)

  /** The body passes the payload check: present, with a truthy id and a `line_items` array (which may be empty). */
  predicate ValidPayload(body: Option<Order>) {
    body.Some? && IdTruthy(body.value.id) && body.value.line_items.Some?
  }

  /** Both Complies credentials are set in the environment. */
  predicate Configured(env: Env) {
    EnvSet(env, "API_EMAIL") && EnvSet(env, "API_TOKEN")
  }

  /** The item's code is its SKU, `""` when that is falsy; the quantity is copied. */
  predicate ItemMapped(line: LineItem, item: Item) {
    Defaults(item.itemcode, line.sku, "") && item.quantity == line.quantity
  }

  function MapItem(line: LineItem): Item {
    Item(Or(line.sku, ""), line.quantity)
  }

  /**
   * The drop-ship order for a webhook order that passed the payload check:
   * fixed header fields, the shared recipient table, and one item per line
   * item, in the same order. `now` is the shipment timestamp.
   */
  function MapOrder(o: Order, now: string): (r: ComplOrder<Item>)
    requires IdTruthy(o.id) && o.line_items.Some?
    ensures r.orderref == IdToString(o.id.value)
    ensures r.ordertype == "DS" && r.deliverymethod == "" && r.partialdelivery == 0
    ensures r.shipmentdate == now
    ensures r.recipient == MapRecipient(o)
    ensures |r.items| == |o.line_items.value|
    ensures forall i :: 0 <= i < |r.items| ==> ItemMapped(o.line_items.value[i], r.items[i])
  {
    var lines := o.line_items.value;
    ComplOrder(
      IdToString(o.id.value), "DS", "", 0, now,
      MapRecipient(o),
      seq(|lines|, i requires 0 <= i < |lines| => MapItem(lines[i])))
  }

  /**
   * The response for the outcome of the Complies POST: 200 with its data on
   * an answer; for a thrown error, 502 with the response data when the error
   * carries a response, else 504 when a request went out, else 500.
   */
  function Classify(outcome: CallOutcome): (r: Response)
    ensures r.status == 200 <==> outcome.Answered?
    ensures r.status == 502 <==> outcome.Threw? && outcome.error.response.Some?
    ensures r.status == 504 <==> outcome.Threw? && outcome.error.response.None? && outcome.error.requestSent
    ensures r.status == 500 <==> outcome.Threw? && outcome.error.response.None? && !outcome.error.requestSent
    ensures outcome.Answered? ==> r.body == DataBody("Order processed successfully", outcome.data)
    ensures r.status == 502 ==> r.body == ErrorDetails("Failed to send order to Complies", outcome.error.response.value)
    ensures r.status == 504 ==> r.body == ErrorDetails("No response from Complies API", outcome.error.message)
    ensures r.status == 500 ==> r.body == ErrorDetails("Internal server error", outcome.error.message)
  {
    match outcome
    case Answered(data) => Response(200, DataBody("Order processed successfully", data))
    case Threw(err) =>
      if err.response.Some? then
        Response(502, ErrorDetails("Failed to send order to Complies", err.response.value))
      else if err.requestSent then
        Response(504, ErrorDetails("No response from Complies API", err.message))
      else
        Response(500, ErrorDetails("Internal server error", err.message))
  }

  /**
   * One webhook delivery with HTTP method `verb`. `now` is the clock reading used as shipment date;
   * `remote` is what the Complies POST returns if it is made.
   */
  function Handle(verb: string, body: Option<Order>, env: Env, now: string, remote: CallOutcome): (r: Outcome<Item>)
    // Complies is called exactly when all three checks pass, with the
    // mapped order and the configured credentials.
    ensures r.call.Some? <==> verb == "POST" && ValidPayload(body) && Configured(env)
    ensures r.call.Some? ==> r.call.value == Call(MapOrder(body.value, now),
                                                  UserAuth(Some(env["API_EMAIL"]), Some(env["API_TOKEN"])))
    ensures r.call.Some? ==> r.response == Classify(remote)
    // the checks, in the order they are made
    ensures verb != "POST" ==> r.response == Response(405, ErrorBody("Method Not Allowed"))
    ensures verb == "POST" && !ValidPayload(body) ==>
      r.response == Response(400, ErrorBody("Invalid Shopify order data"))
    ensures verb == "POST" && ValidPayload(body) && !Configured(env) ==>
      r.response == Response(500, ErrorBody("Server configuration error"))
    ensures r.response.status in {200, 400, 405, 500, 502, 504}
  {
    if verb != "POST" then
      Outcome(Response(405, ErrorBody("Method Not Allowed")), None)
    else if !ValidPayload(body) then
      Outcome(Response(400, ErrorBody("Invalid Shopify order data")), None)
    else
      var order := MapOrder(body.value, now);
      if !Configured(env) then
        Outcome(Response(500, ErrorBody("Server configuration error")), None)
      else
        var auth := UserAuth(EnvGet(env, "API_EMAIL"), EnvGet(env, "API_TOKEN"));
        Outcome(Classify(remote), Some(Call(order, auth)))
  }

  /** A line item without a SKU, or with an empty one, is sent with item code `""` and is not dropped. */
  lemma MissingSkuKeepsItem(o: Order, now: string, i: nat)
    requires IdTruthy(o.id) && o.line_items.Some? && i < |o.line_items.value|
    requires !Truthy(o.line_items.value[i].sku)
    ensures MapOrder(o, now).items[i] == Item("", o.line_items.value[i].quantity)
  {
  }

  /** An order with no line items passes the payload check and is sent with no items. */
  lemma EmptyLineItemsAccepted(o: Order, env: Env, now: string, remote: CallOutcome)
    requires IdTruthy(o.id) && o.line_items == Some([]) && Configured(env)
    ensures Handle("POST", Some(o), env, now, remote).call.Some?
    ensures Handle("POST", Some(o), env, now, remote).call.value.order.items == []
  {
  }
}
