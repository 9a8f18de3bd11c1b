# Order-creation webhook: a Dafny model

This project models the Shopify order-creation webhook of this repository, the
`POST` handler in `src/app/api/shopify/webhook/route.ts`. The handler works in
four steps:

1. It computes the Base64 HMAC-SHA256 of the raw request body with the
   webhook secret. It compares that digest exactly with the
   `x-shopify-hmac-sha256` header, where a missing header counts as `""`. On a
   mismatch it answers 401 `Unauthorized`.
2. It parses the body as an order. It maps the order's `line_items` to
   item-image annotations
   `{item_number, product: {title, variant}, image_url}`. Numbering starts at
   1, the variant falls back to `"Default"`, and every annotation carries one
   constant placeholder image URL.
3. It issues one GraphQL `metafieldsSet` mutation. The metafield is owned by
   `gid://shopify/Order/<id>`, has namespace `custom`, key `product_images`
   and type `json`, and its value is the JSON text of the annotations.
4. It answers 400 `Failed to set metafield` with the `userErrors` when the
   reply reports any. Otherwise it answers 200 `Metafield set successfully`
   with the order id, the annotations and the first returned metafield.
   Anything that throws along the way becomes 500 `Server error`.

The handler is pure logic around external calls, so the model is made of
functions and lemmas. `Webhook.Handle` maps a configured secret, a request
and the external collaborators to an `Outcome`. An `Outcome` holds the
response and the list of remote calls issued. The collaborators are the HMAC
digest, `JSON.parse`, `JSON.stringify` and the GraphQL endpoint. They are
passed in as functions, so the model does not implement them.

Modules: `Wrappers` (the `Option` type), `ItemImages` (the order payload and the
annotation transform), `Metafields` (the global id, the mutation input, the
reply and the response classification) and `Webhook` (the handler).

Three consequences of the code are worth stating plainly:

- The handler makes one `metafieldsSet` call. It does not read the metafield
  first.
- A missing secret makes `createHmac` throw, so the handler answers the
  generic 500.
- Any reply whose body parses to a non-null JSON value without non-empty
  `userErrors` gets 200, whatever its HTTP status. This includes a reply
  without `data`. A reply body that is not JSON, or is the JSON value `null`,
  makes reading it throw, and the handler answers 500.

## Model

| member | source | states |
|---|---|---|
| `ItemImages.VariantOrDefault` | src/app/api/shopify/webhook/route.ts:42 | the variant is the variant title when that is present and non-empty, and `"Default"` when it is absent or `""`; never empty |
| `ItemImages.Annotate` | src/app/api/shopify/webhook/route.ts:38-45 | the map callback: the annotation of one item carries the given number, the item's title unchanged, the defaulted (never empty) variant and the constant image URL |
| `ItemImages.Numbered` | src/app/api/shopify/webhook/route.ts:38-45 | the element-wise map: same length, and position i holds the annotation of item i numbered `first + i` |
| `ItemImages.ItemImagesOf` | src/app/api/shopify/webhook/route.ts:35-45 | one annotation per line item in input order; at index i: item number i+1, title copied unchanged, variant defaulted, the constant image URL |
| `ItemImages.ItemNumbersAreOneToN` | src/app/api/shopify/webhook/route.ts:39 | n line items get item numbers exactly 1, 2, …, n in input order |
| `ItemImages.TitlesCopied` | src/app/api/shopify/webhook/route.ts:41 | the sequence of annotation titles equals the sequence of line-item titles |
| `ItemImages.VariantDefaultIff` | src/app/api/shopify/webhook/route.ts:42 | an annotation's variant is `"Default"` iff its item's variant title is absent, `""` or `"Default"` |
| `ItemImages.SameImageEverywhere` | src/app/api/shopify/webhook/route.ts:35-44 | any two annotations carry the same image URL, the hard-coded placeholder |
| `ItemImages.NumberedAppend` | src/app/api/shopify/webhook/route.ts:38-45 | the annotations of `a + b` are those of `a` followed by those of `b` numbered on from `first + |a|` (no reordering, merging or dropping) |
| `ItemImages.ItemImagesAppend` | src/app/api/shopify/webhook/route.ts:38-45 | appending line items leaves the earlier annotations unchanged and appends the new ones numbered from `|a| + 1` |
| `Metafields.OwnerGid` | src/app/api/shopify/webhook/route.ts:50 | the owner id is the prefix `gid://shopify/Order/` followed by the id's text (`undefined` when the id is absent) |
| `Metafields.OrderIdOfGid` | src/app/api/shopify/webhook/route.ts:50 | not in the source: the inverse of the owner id, defined only to state the round trip; it recovers the id text exactly from a string with the order prefix, and nothing from any other string |
| `Metafields.OwnerGidRoundTrip` | src/app/api/shopify/webhook/route.ts:50 | reading the id back from the owner id yields the id's text |
| `Metafields.OwnerGidInjective` | src/app/api/shopify/webhook/route.ts:50 | distinct present order ids give distinct owner ids |
| `Metafields.SetInput` | src/app/api/shopify/webhook/route.ts:70-78 | the mutation input is owned by the order's id, in namespace `custom`, key `product_images`, type `json`, with the serialised annotations as value |
| `Metafields.UserErrorsOf` | src/app/api/shopify/webhook/route.ts:100 | the optional chain `data?.metafieldsSet?.userErrors`: empty when any link is absent, otherwise exactly the reply's list |
| `Metafields.FirstMetafield` | src/app/api/shopify/webhook/route.ts:115 | `metafields?.[0]`: present iff every link is present and the list is non-empty, and then it is the list's first element |
| `Metafields.Response.Message` | src/app/api/shopify/webhook/route.ts:27-119 | the four responses carry the four distinct messages "Unauthorized", "Failed to set metafield", "Metafield set successfully" and "Server error" |
| `Metafields.Response.Status` | src/app/api/shopify/webhook/route.ts:25-119 | the four responses have the four distinct codes 401, 400, 200 and 500 |
| `Metafields.Classify` | src/app/api/shopify/webhook/route.ts:97-119 | 500 iff reading the reply throws or the reply is `null`; 400 with exactly the user errors iff they are present and non-empty; otherwise 200 with the order id, the annotations and the first metafield; never 401 |
| `Metafields.MissingDataIsSuccess` | src/app/api/shopify/webhook/route.ts:100-116 | a reply without `data` is answered 200 with the annotations |
| `Webhook.ClaimedHmac` | src/app/api/shopify/webhook/route.ts:15 | the claimed signature is the header's value, or `""` when the header is missing |
| `Webhook.Authentic` | src/app/api/shopify/webhook/route.ts:15-25 | with the header, authentic iff the digest equals its value exactly; without it, authentic only if the digest is `""` |
| `Webhook.Handle` | src/app/api/shopify/webhook/route.ts:6-121 | at most one remote call, issued iff the secret is set, the digest matches and the body parses to an order with line items; 401 iff the secret is set and the digest differs; no call means 401 or 500; the one call carries the order's owner id, `custom`, `product_images`, `json` and the serialised annotations, and its reply decides the response |
| `Webhook.HandleExits` | src/app/api/shopify/webhook/route.ts:25-119 | each exit of the handler with its code and message: 401 "Unauthorized" iff the secret is set and the digest differs; 500 "Server error" when the request is not forged and no call was made; once the call is made, 500 iff reading the reply throws or it is `null`; 400 "Failed to set metafield" iff the reply has user errors; 200 "Metafield set successfully" iff it has none |
| `Webhook.ForgedIgnoresBody` | src/app/api/shopify/webhook/route.ts:25-28 | a forged request gets 401 with no call, whatever parsing, serialising or the remote store would do |
| `Webhook.MissingHeaderRejected` | src/app/api/shopify/webhook/route.ts:15-28 | without the header, a non-empty digest always gives 401 with no call |
| `Webhook.MalformedIsServerError` | src/app/api/shopify/webhook/route.ts:31-45 | an authentic body that does not parse, or has no `line_items`, gives 500 with no call |
| `Webhook.SingleMugOrder` | src/app/api/shopify/webhook/route.ts:38-116 | order 5001 with one Mug/Red item, answered without user errors: 200, and one call to `gid://shopify/Order/5001` whose value is the serialisation of the single annotation numbered 1 |

## Left out

- HMAC-SHA256 and Base64: the digest is the function `Externals.hmac`. Only the exact string comparison is modelled.
- `JSON.parse`: it is `Externals.parse`, which yields an `Order` or nothing. Both a body that is not JSON and a body that is `null` map to nothing, since either way the handler answers 500 before any call.
- Parsed values that are not objects: a non-array `line_items` is read as a missing one. A line item that is `null` would throw at `item.title` and give 500. The model has no such item.
- Reading the request body: a failing `req.arrayBuffer()` would throw and give 500 with no call. The model starts from the body bytes.
- Line-item titles: `title` is an optional string. A `null` title and a missing one are both None, so the serialisation cannot tell them apart, although `JSON.stringify` writes `"title":null` for one and leaves the key out for the other. Titles that are not strings cannot be represented.
- JavaScript truthiness of a non-string `variant_title` (`0`, `false`): the variant title is an optional string, and the empty string counts as absent.
- `JSON.stringify` of the annotations: it is `Externals.stringify`. JSON text is not modelled.
- `fetch`: the GraphQL query text, the store domain, the API version and the request headers are left out. So is the access token, which goes into a header and is never checked. Only the mutation input and the reply (`Externals.graphql`) are modelled. A rejected `fetch` and a reply body that is not JSON are both `Reply.Threw`.
- Non-array `userErrors` or `metafields` values: they are modelled as optional lists.
- `console` logging and the Next.js `NextResponse` and runtime wiring: these have no effect on the outcome.
- The order id is modelled as the text a template literal renders for it, not as a JSON number.
