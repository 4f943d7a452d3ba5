/**
 * The Express route that receives the same webhook: it maps the order to a
 * Complies order of type "EX" with SKU, title and quantity per line, posts
 * it unconditionally, and answers 200 or 500.
 */
module LegacyWebhook {
  import opened Wrappers
  import opened JsText
  import opened Http
  import opened ShopifyWebhook
  import opened CompliesOrder
  import OrderFulfillment

  /** A line of the order: SKU and title copied as they are, absent ones included. */
  datatype LegacyItem = LegacyItem(itemcode: Option<string>, description: Option<string>, quantity: int)

  function MapLegacyItem(line: LineItem): LegacyItem {
    LegacyItem(line.sku, line.title, line.quantity)
  }

  /**
   * The order the route posts. The mapping runs before any check and reads
   * `id` and `line_items` unguarded, so both must be present.
   */
  function MapLegacyOrder(o: Order, now: string): (r: ComplOrder<LegacyItem>)
    requires o.id.Some? && o.line_items.Some?
    ensures r.orderref == IdToString(o.id.value)
    ensures r.ordertype == "EX" && r.deliverymethod == "" && r.partialdelivery == 0
    ensures r.shipmentdate == now
    ensures r.recipient == MapRecipient(o)
    ensures |r.items| == |o.line_items.value|
    ensures forall i :: 0 <= i < |r.items| ==>
      var line := o.line_items.value[i];
      r.items[i].itemcode == line.sku && r.items[i].description == line.title && r.items[i].quantity == line.quantity
  {
    var lines := o.line_items.value;
    ComplOrder(
      IdToString(o.id.value), "EX", "", 0, now,
      MapRecipient(o),
      seq(|lines|, i requires 0 <= i < |lines| => MapLegacyItem(lines[i])))
  }

  /**
   * One delivery to the route: Complies is always called, with the
   * credentials under `email`/`password`; an answer gives 200 and any
   * thrown error, whatever its kind, 500.
   */
  function HandleLegacy(o: Order, env: Env, now: string, remote: CallOutcome): (r: Outcome<LegacyItem>)
    requires o.id.Some? && o.line_items.Some?
    ensures r.call == Some(Call(MapLegacyOrder(o, now), EmailAuth(EnvGet(env, "API_EMAIL"), EnvGet(env, "API_TOKEN"))))
    ensures remote.Answered? ==> r.response == Response(200, TextBody("Order processed successfully."))
    ensures remote.Threw? ==> r.response == Response(500, TextBody("Failed to process order."))
  {
    var order := MapLegacyOrder(o, now);
    var auth := EmailAuth(EnvGet(env, "API_EMAIL"), EnvGet(env, "API_TOKEN"));
    var response :=
      match remote
      case Answered(_) => Response(200, TextBody("Order processed successfully."))
      case Threw(_) => Response(500, TextBody("Failed to process order."));
    Outcome(response, Some(Call(order, auth)))
  }

  /**
   * Where the two handlers diverge on one valid delivery: same reference,
   * recipient and item count, different order type; an item code agrees
   * when the SKU is truthy and is `""` against the raw SKU otherwise.
   */
  lemma HandlersDiverge(o: Order, now: string, i: nat)
    requires IdTruthy(o.id) && o.line_items.Some? && i < |o.line_items.value|
    ensures var d := OrderFulfillment.MapOrder(o, now);
            var l := MapLegacyOrder(o, now);
      && d.orderref == l.orderref && d.recipient == l.recipient && |d.items| == |l.items|
      && d.ordertype == "DS" && l.ordertype == "EX"
      && (Truthy(o.line_items.value[i].sku) ==> Some(d.items[i].itemcode) == l.items[i].itemcode)
      && (!Truthy(o.line_items.value[i].sku) ==> d.items[i].itemcode == "" && l.items[i].itemcode == o.line_items.value[i].sku)
  {
  }

  /**
   * The route does not check the configuration and collapses every failure:
   * where the serverless handler answers 502 or 504, the route answers 500.
   */
  lemma LegacyCollapsesFailures(o: Order, env: Env, now: string, err: ClientError)
    requires IdTruthy(o.id) && o.line_items.Some? && OrderFulfillment.Configured(env)
    ensures OrderFulfillment.Handle("POST", Some(o), env, now, Threw(err)).response.status in {502, 504, 500}
    ensures HandleLegacy(o, env, now, Threw(err)).response.status == 500
  {
  }
}
