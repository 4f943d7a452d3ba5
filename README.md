# Shopify ⇄ Complies relay — a Dafny model

This project models the logic core of a small relay between a Shopify
storefront and the Complies order/product API:

- the serverless **order-fulfillment webhook handler** (`api/order-fulfillment.js`):
  method check (405), payload check (400), mapping of the Shopify order to a
  Complies drop-ship order (`ordertype` `DS`), credentials check (500), one
  POST to Complies and the classification of its outcome (200 / 502 / 504 / 500);
- the older **Express webhook route** (`app.js`): a divergent mapping
  (`ordertype` `EX`, raw SKU, item title as description), no checks, and
  every failure of the Complies call answered with 500;
- the **batch order fetcher** (`ordersFetching.js`): mock fallback when the
  fetched list is empty or the fetch fails, the storefront order payload with
  first-space name splitting, and the sequential create loop that logs and
  carries on;
- the **one-shot order script** (`postOrder.js`): the storefront payload with
  a two-word name split, and the placeholder-filled Complies order built from
  the created order's shipping address;
- the **product importer** (`SendProductsFromComplianceToShopify/PostToShopify.js`):
  the Complies product → storefront product mapping and the sequential
  create loop.

Everything in these files is record and string transformation, so the model
is functional: datatypes for the JSON shapes, functions for the mappings and
handlers, lemmas for what they guarantee. Every remote call whose result
the code uses is an input — a `CallOutcome` value for the one POST a
webhook handler makes, a `Fetched` value for each batch script's list GET,
and a function parameter (`shop`) that answers the create calls. In the two loops that
function takes the list position of the call as well as its payload, so
two identical payloads at different positions may get different answers
(a duplicate rejected, a rate limit hit); the one-shot script makes a
single create call, so its `shop` takes the payload alone. JSON fields that
may be `undefined` or `null` are `Option`s, and JavaScript's `x || d` on a
string is `JsText.Or`, which falls back on `None` and on `Some("")` alike;
the mapping contracts state it through `JsText.Defaults`, which says of a
value exactly that it is `JsText.Or` of its source (`JsText.DefaultsIsOr`).
The loops are recursive functions over the list. The order fetcher's loop
returns one event per list entry, in list order: either the create call
made and its result, or `PayloadFailed` when building the payload throws
before any call. The product importer's loop returns one event per create
call made, in call order, and says whether an uncaught error ended it.

Files: `wrappers.dfy` (Option), `js_text.dfy` (the JavaScript string
built-ins the code uses: `||`, `charAt(0)`, `split`, `join`, integer
`toString`), `http.dfy` (responses, call outcomes, environment, credentials),
`shopify_webhook.dfy` (the webhook body), `complies_order.dfy` (the Complies
order and the recipient table shared by both webhook handlers),
`order_fulfillment.dfy`, `legacy_webhook.dfy`, `orders_fetching.dfy`,
`post_order.dfy`, `product_sync.dfy`.

What the code does, in the points where a reader might expect more of it:

- No shown file retries the Complies call or writes a status note back to
  the storefront order, so neither is modelled.
- The serverless handler checks only that `line_items` is present, so an
  empty list is accepted and sent with no items
  (`OrderFulfillment.EmptyLineItemsAccepted`).
- The serverless handler's configuration check looks only at `API_EMAIL`
  and `API_TOKEN`, not at the storefront credentials, and answers with a
  fixed message that names no key.
- The product importer logs a failed create and goes on only for a
  failure that carries a response: its `catch` reads `err.response.body`,
  which throws when there is no response, and a missing price makes
  `toFixed` throw outside the `try`. Either ends the loop, and the run
  stops at the first such product (`ProductSync.SyncInOrder`).

## Model

| member | source | states |
|---|---|---|
| `JsText.DefaultsIsOr` | api/order-fulfillment.js:25-35 | the defaulting stated in the mapping contracts holds of a value exactly when it is `JsText.Or(v, d)` |
| `JsText.CharAt0` | api/order-fulfillment.js:28 | `charAt(0)` is empty exactly for the empty string, else the one-character prefix |
| `JsText.Split` | ordersFetching.js:99 | `split(sep)` gives at least one piece and no piece holds the separator |
| `JsText.JoinSplit` | ordersFetching.js:100 | joining the pieces of a split with the separator gives the original string back |
| `JsText.SplitCount` | ordersFetching.js:99-100 | a string splits into more than one piece exactly when it holds the separator, and into itself alone otherwise |
| `JsText.SplitAfterWord` | ordersFetching.js:99 | a separator-free word, a separator and a rest split into the word followed by the pieces of the rest |
| `JsText.TwoWords` | postOrder.js:42-43 | a name of two space-free words splits into those two words under both splitting styles |
| `JsText.Join` | ordersFetching.js:100 | `join(sep)` of no pieces is `""`, of one piece that piece, and of two or more starts with the first piece and the separator |
| `JsText.JoinHoldsSeparator` | ordersFetching.js:100 | joining two or more pieces with a one-character separator gives a string that holds that character, so a name split into three or more pieces has a rest that holds a space |
| `JsText.FirstWord` | ordersFetching.js:99 | `split(" ")[0]` holds no space and is a prefix of the name; when the name holds a space it is followed by that space, otherwise it is the whole name |
| `JsText.RestWords` | ordersFetching.js:100 | `split(" ").slice(1).join(" ")` is what follows the first space: first word + `" "` + rest is the name; with no space it is `""` |
| `JsText.SecondWord` | postOrder.js:42-43 | `split(' ')[1]` is undefined exactly when there is no space, never holds a space, is the first word of the rest of the name (the text between the first and the second space) whenever there is a space, and equals the whole rest exactly when the name splits into exactly two pieces |
| `JsText.ThreeWords` | postOrder.js:43 | for a name of three space-free words, `split(' ')[1]` is the middle word, not the last |
| `JsText.NatToDecimal` | api/order-fulfillment.js:20 | the decimal rendering of a natural number is a non-empty run of digits with no leading zero |
| `JsText.IntToDecimal` | api/order-fulfillment.js:20 | the rendering of an integer is a canonical numeral — optional `-`, digits, no leading zero, no `-0` — and starts with `-` exactly for a negative number |
| `JsText.ParseNatOfDecimal` | api/order-fulfillment.js:20 | the decimal rendering of a natural number reads back as that number |
| `JsText.ParseIntOfDecimal` | api/order-fulfillment.js:20 | the rendering of any integer, sign included, reads back as that integer, so distinct numeric ids give distinct order references |
| `JsText.ParseNatPositive` | api/order-fulfillment.js:20 | a digit string that starts with a non-zero digit reads as a positive number |
| `JsText.CanonicalNatIsRendering` | api/order-fulfillment.js:20 | a canonical digit string is the rendering of the number it reads as |
| `JsText.DecimalIsUnique` | api/order-fulfillment.js:20 | a canonical numeral that reads as `n` is the rendering of `n`: each integer has exactly one rendering |
| `ShopifyWebhook.IdToString` | api/order-fulfillment.js:20 | a string id is its own reference; a numeric id's reference is a canonical numeral (no leading zero, no `-0`) that reads back as the id |
| `CompliesOrder.MapRecipient` | api/order-fulfillment.js:25-35 | each recipient field is the shipping-address field when truthy, else `"-"` for the company and `""` for the rest; e-mail from the order; company never empty; initials are the first character of the mapped first name; no address gives `"-"` and empty fields |
| `OrderFulfillment.MapOrder` | api/order-fulfillment.js:19-40 | reference is the id as a string; type `DS`, empty delivery method, no partial delivery, the given shipment date; the shared recipient table; one item per line item in order, item code the SKU or `""`, quantity unchanged |
| `OrderFulfillment.MissingSkuKeepsItem` | api/order-fulfillment.js:36-39 | a line item with a missing or empty SKU is kept, with item code `""` and its quantity |
| `OrderFulfillment.Classify` | api/order-fulfillment.js:61-82 | 200 with the data exactly on an answer; 502 with the response data exactly for an error with a response; 504 exactly for one without a response but with a request; 500 otherwise; matching error texts and details |
| `OrderFulfillment.Handle` | api/order-fulfillment.js:3-84 | Complies is called exactly when method, payload and credentials checks all pass, with the mapped order and the configured credentials, and then the response is the classification; otherwise 405, 400 or 500 in that order of precedence; status always one of 200/400/405/500/502/504 |
| `OrderFulfillment.EmptyLineItemsAccepted` | api/order-fulfillment.js:14-16 | a present but empty `line_items` passes the payload check and is sent with no items |
| `LegacyWebhook.MapLegacyOrder` | app.js:16-38 | reference is the id as a string; type `EX`, empty delivery method, no partial delivery; the same recipient table; one item per line item in order, with the raw SKU, the title as description and the quantity |
| `LegacyWebhook.HandleLegacy` | app.js:10-58 | the route always posts the mapped order with the `email`/`password` credentials object; an answer gives 200 `Order processed successfully.`, any error 500 `Failed to process order.` |
| `LegacyWebhook.HandlersDiverge` | app.js:17-37 | on the same valid order the two mappings share reference, recipient and item count but differ in order type, and in the item code when the SKU is falsy |
| `LegacyWebhook.LegacyCollapsesFailures` | app.js:54-56 | an error the serverless handler answers with 502, 504 or 500 is always answered with 500 by the route |
| `OrdersFetching.FetchOrders` | ordersFetching.js:51-73 | the list is never empty; a non-empty fetched list is returned as it is; an empty list or a failed fetch gives the mock order alone |
| `OrdersFetching.DraftFor` | ordersFetching.js:86-119 | a payload exists exactly when both names are present; one line with the fixed variant and the record's quantity; fixed customer; `paid`; billing from `orderedby*`, shipping from `customer*`, provinces `punjab` and `sindh`; names split at the first space |
| `OrdersFetching.DraftNamesRejoin` | ordersFetching.js:98-117 | billing and shipping first names hold no space, and first + `" "` + last gives back a name with a space; a one-word name gives an empty last name |
| `OrdersFetching.MockOrderNames` | ordersFetching.js:17-48 | the mock record gets a payload, with billing John / Doe and shipping Jane / Doe |
| `OrdersFetching.Attempt` | ordersFetching.js:86-125 | a record with a missing name throws while the payload is built, before any call; otherwise the create call is made with the record's payload and its result is the store's answer for that position; every failure is caught |
| `OrdersFetching.CreateFrom` | ordersFetching.js:140-142 | the loop from position `i` on yields one event per remaining order |
| `OrdersFetching.CreateAll` | ordersFetching.js:140-142 | the loop yields one event per order |
| `OrdersFetching.CreateFromInOrder` | ordersFetching.js:121-124 | from position `i` on, the event for position `k` is the processing of order `k` |
| `OrdersFetching.CreateAllInOrder` | ordersFetching.js:121-124 | event `k` is the processing of order `k` at position `k`, whatever earlier creates returned: a failed create does not stop later orders |
| `OrdersFetching.Main` | ordersFetching.js:128-143 | one event per fetched order (at least one), event `k` the processing of order `k`; when the fetch fails or finds nothing, exactly one create call is made, with the mock order's payload |
| `PostOrder.DraftFor` | postOrder.js:32-62 | a payload exists exactly when both names are present; one line with the fixed variant and the input quantity; e-mail from `customerEmail`; billing from `orderedBy*`, shipping from `customer*`, empty provinces; first and second space-split words as names |
| `PostOrder.LastNameIsSecondWordOnly` | postOrder.js:43-53 | a last name is undefined exactly for a one-word name, never holds a space, is the word between the first and the second space whenever there is a space, and equals the rest of the name exactly when the name has one space |
| `PostOrder.MockOrderNames` | postOrder.js:13-29 | the mock order gets a payload with billing John / Doe and shipping Jane / Doe |
| `PostOrder.DetailsFor` | postOrder.js:77-94 | surname, first name, street, zip and city are the address field or `Doe`, `John`, `123 Test Street`, `1234AA`, `Test City`, so never empty; company `Company Name`, country `NL`, type `AS`; one fixed item of quantity 1 |
| `PostOrder.Process` | postOrder.js:66-119 | the create call is made with the payload; Complies is called exactly when the create succeeds with a shipping address, with the details for it; a failure is logged by the top level exactly when Complies was not called, so a Complies failure is swallowed |
| `PostOrder.Main` | postOrder.js:113-120 | the script always makes the create call for its mock order, with that order's payload, and a failed create means no Complies call and a logged failure |
| `ProductSync.NewProductFor` | SendProductsFromComplianceToShopify/PostToShopify.js:32-54 | a payload exists exactly when both prices are present; title, body, vendor and type copied; tags and barcode default to `""`; stock defaults to 0; one image from `productimage`; one variant with the SKU, `shopify` inventory management and `deny` policy |
| `ProductSync.CallFor` | SendProductsFromComplianceToShopify/PostToShopify.js:56-57 | a create call is made for a product exactly when it gets a payload, with that payload, answered as the store answers at that position |
| `ProductSync.SyncFrom` | SendProductsFromComplianceToShopify/PostToShopify.js:78-80 | the loop from position `i` on makes at most one create call per remaining product |
| `ProductSync.Sync` | SendProductsFromComplianceToShopify/PostToShopify.js:78-80 | the loop makes at most one create call per product |
| `ProductSync.SyncFromInOrder` | SendProductsFromComplianceToShopify/PostToShopify.js:56-61 | from position `i` on: call `k` is the call for product `k`; the loop runs to the end exactly when every remaining product survives; a stopped loop stopped at the first product that does not survive |
| `ProductSync.SyncInOrder` | SendProductsFromComplianceToShopify/PostToShopify.js:56-61 | call `k` is the call for product `k`, in list order; the loop runs to the end, with one call per product, exactly when every product has its prices and no create fails without a response; a stopped run stops at the first product that does not survive, with one call for each product before it plus one for that product when it got a payload |
| `ProductSync.FetchProducts` | SendProductsFromComplianceToShopify/PostToShopify.js:14-27 | the fetched list on success, `[]` on a failed fetch |
| `ProductSync.Main` | SendProductsFromComplianceToShopify/PostToShopify.js:75-81 | the run is the loop over the fetched list; a failed fetch makes no create call and ends normally |

## Left out

- Retrying a remote call and writing a status note back to the storefront order: no shown file does either.
- `order.js`: one hardcoded order literal handed to a library call, with no logic.
- The network itself (HTTP, basic authentication, timeouts, the storefront client library): each call is an input value or function. The two webhook handlers record the credentials object they hand to the client; what the client does with it is not modelled.
- The credentials of the batch scripts' Complies calls are not modelled: the order fetch's GET (`username`/`API_PASSWORD`, ordersFetching.js:55-60), the one-shot script's POST (`username`/`API_PASSWORD`, postOrder.js:100-105) and the product GET (`email`/`API_TOKEN`, PostToShopify.js:16-21). None of them checks the environment, so the credentials do not decide anything the scripts do.
- PostOrder.Process: the one-shot script's Complies POST is recorded as the order details sent, without its URL or credentials.
- Loading the environment from a `.env` file: the environment is a map given to the handler.
- The Express server setup and `listen`, all console logging, and `testShopifyConnection` in both batch scripts (in the product importer its `catch` also reads `err.response.body`, which could end the run before the fetch; that is not modelled).
- The clock and date formatting: the shipment date of the webhook orders is an input string, and the date range of the order fetch is not modelled.
- `toFixed(2)` price formatting is floating point: product prices are inputs already rendered as text, and the script's fixed item price `1783.05` is kept as its text.
- Asynchronous scheduling: the loops are modelled as sequential calls, which is what `await` inside `for … of` gives.
- JavaScript number semantics: ids and quantities are unbounded integers, so the exponent notation `toString` uses from 1e21 on, the loss of precision beyond 2^53, and non-integer ids are not modelled.
- Values of unexpected JSON types (a number or `false` where a string is read, a `null` entry inside `line_items`, a `line_items` that is not an array, a price that is a string): every string field is a string or absent, every line item an object with an integer quantity. In the serverless handler most such values pass the mapping: `false` and `0` fall back through `||` like an absent field, and a non-zero number in any string field other than `first_name` is copied as it is. Only a `first_name` that is present but not a string (`charAt` is not a method of it), a `null` line item and a `line_items` that is not an array make the mapping throw, answered 500 `Internal server error`.
- An Express request whose `id` or `line_items` is missing makes the route's mapping throw outside its `try`, so no response is sent; `LegacyWebhook.MapLegacyOrder` and `LegacyWebhook.HandleLegacy` require both present instead.
- The fields of fetched or created records that the code never reads (the mock order's prices, status and dates; everything in the created storefront order but its shipping address).
- `charAt(0)` works on UTF-16 code units; the model works on Dafny characters.
- The Complies answer in the one-shot script is only logged, so the model takes no input for it.
