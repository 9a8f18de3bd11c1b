/**
 * The one remote call the webhook handler makes — a GraphQL `metafieldsSet`
 * mutation — as its input record, the shape of the reply, and the way the
 * handler turns that reply into its HTTP response.
 */
module Metafields {
  import opened Wrappers
  import opened ItemImages

  /** The `MetafieldsSetInput` the handler sends. */
  datatype MetafieldsSetInput = MetafieldsSetInput(
    ownerId: string,
    namespace: string,
    key: string,
    kind: string,   // the GraphQL `type` field
    value: string)

  const GidPrefix: string := "gid://shopify/Order/"
  const Namespace: string := "custom"
  const Key: string := "product_images"
  const TypeJson: string := "json"

  /** What a template literal renders for an absent `order.id`. */
  const Undefined: string := "undefined"

  /** The GraphQL global id of an order: `gid://shopify/Order/${orderId}`. */
  function OwnerGid(id: Option<string>): (g: string)
    ensures |g| >= |GidPrefix| && g[..|GidPrefix|] == GidPrefix
    ensures g[|GidPrefix|..] == id.GetOr(Undefined)
  {
    GidPrefix + id.GetOr(Undefined)
  }

  /** The order id text inside a global id, if it has the order prefix. */
  function OrderIdOfGid(g: string): (id: Option<string>)
    ensures id.Some? <==> |g| >= |GidPrefix| && g[..|GidPrefix|] == GidPrefix
    ensures id.Some? ==> GidPrefix + id.value == g
  {
    if |g| >= |GidPrefix| && g[..|GidPrefix|] == GidPrefix then Some(g[|GidPrefix|..]) else None
  }

  /** The global id keeps the order id: reading it back yields the id's text. */
  lemma OwnerGidRoundTrip(id: Option<string>)
    ensures OrderIdOfGid(OwnerGid(id)) == Some(id.GetOr(Undefined))
  {
  }

  /** Distinct present order ids address distinct owners. */
  lemma OwnerGidInjective(a: string, b: string)
    requires OwnerGid(Some(a)) == OwnerGid(Some(b))
    ensures a == b
  {
  }

  /**
   * The mutation input for an order: owned by the order's global id, in the
   * `custom` namespace under `product_images`, typed `json`, holding
   * `serialized` (the JSON text of the annotations).
   */
  function SetInput(id: Option<string>, serialized: string): (m: MetafieldsSetInput)
    ensures OrderIdOfGid(m.ownerId) == Some(id.GetOr(Undefined))
    ensures m.namespace == Namespace && m.key == Key && m.kind == TypeJson
    ensures m.value == serialized
  {
    OwnerGidRoundTrip(id);
    MetafieldsSetInput(OwnerGid(id), Namespace, Key, TypeJson, serialized)
  }

  /** One entry of `userErrors`. */
  datatype UserError = UserError(field: seq<string>, message: string)

  /** One entry of `metafields` in the reply (the fields the mutation selects). */
  datatype Metafield = Metafield(id: string, namespace: string, key: string, value: string)

  /** `data.metafieldsSet`: both parts may be absent or null. */
  datatype SetPayload = SetPayload(metafields: Option<seq<Metafield>>, userErrors: Option<seq<UserError>>)

  /** `data`: its `metafieldsSet` may be absent or null. */
  datatype ReplyData = ReplyData(metafieldsSet: Option<SetPayload>)

  /**
   * What `await (await fetch(…)).json()` produces: it throws (the request
   * fails or the body is not JSON), it is the JSON value `null`, or it is a
   * value whose `data` property may be absent or null.
   */
  datatype Reply = Threw | NullBody | Body(data: Option<ReplyData>)

  /** `data?.metafieldsSet?.userErrors`, with an absent list read as empty. */
  function UserErrorsOf(data: Option<ReplyData>): (errors: seq<UserError>)
    ensures data.None? || data.value.metafieldsSet.None? || data.value.metafieldsSet.value.userErrors.None?
      ==> errors == []
    ensures data.Some? && data.value.metafieldsSet.Some? && data.value.metafieldsSet.value.userErrors.Some?
      ==> errors == data.value.metafieldsSet.value.userErrors.value
  {
    if data.Some? && data.value.metafieldsSet.Some? && data.value.metafieldsSet.value.userErrors.Some?
    then data.value.metafieldsSet.value.userErrors.value
    else []
  }

  /** `data?.metafieldsSet?.metafields?.[0]`. */
  function FirstMetafield(data: Option<ReplyData>): (first: Option<Metafield>)
    ensures first.Some? <==>
      && data.Some? && data.value.metafieldsSet.Some? && data.value.metafieldsSet.value.metafields.Some?
      && data.value.metafieldsSet.value.metafields.value != []
    ensures first.Some? ==> first.value == data.value.metafieldsSet.value.metafields.value[0]
  {
    if data.Some? && data.value.metafieldsSet.Some? && data.value.metafieldsSet.value.metafields.Some?
       && |data.value.metafieldsSet.value.metafields.value| > 0
    then Some(data.value.metafieldsSet.value.metafields.value[0])
    else None
  }

  /** The handler's HTTP responses, one per exit of the handler. */
  datatype Response =
    | Unauthorized
    | SetFailed(errors: seq<UserError>)
    | MetafieldSaved(orderId: Option<string>, saved: seq<ItemImage>, metafield: Option<Metafield>)
    | ServerError
  {
    /** The HTTP status code; `NextResponse.json` defaults to 200. */
    function Status(): (s: int)
      ensures s in {200, 400, 401, 500}
      ensures s == 401 <==> Unauthorized?
      ensures s == 400 <==> SetFailed?
      ensures s == 200 <==> MetafieldSaved?
      ensures s == 500 <==> ServerError?
    {
      match this
      case Unauthorized => 401
      case SetFailed(_) => 400
      case MetafieldSaved(_, _, _) => 200
      case ServerError => 500
    }

    /** The response's `message` field. */
    function Message(): (m: string)
      ensures m == "Unauthorized" <==> Unauthorized?
      ensures m == "Failed to set metafield" <==> SetFailed?
      ensures m == "Metafield set successfully" <==> MetafieldSaved?
      ensures m == "Server error" <==> ServerError?
    {
      match this
      case Unauthorized => "Unauthorized"
      case SetFailed(_) => "Failed to set metafield"
      case MetafieldSaved(_, _, _) => "Metafield set successfully"
      case ServerError => "Server error"
    }
  }

  /**
   * The response for the reply to the mutation: 500 when reading the reply
   * throws, 400 carrying the user errors when there are any, and otherwise
   * 200 carrying the order id, the annotations and the first metafield —
   * also when `data` or `metafieldsSet` is missing.
   */
  function Classify(reply: Reply, orderId: Option<string>, saved: seq<ItemImage>): (r: Response)
    ensures !r.Unauthorized?
    ensures r.ServerError? <==> reply.Threw? || reply.NullBody?
    ensures r.SetFailed? <==> reply.Body? && UserErrorsOf(reply.data) != []
    ensures r.SetFailed? ==> r.errors == UserErrorsOf(reply.data)
    ensures r.MetafieldSaved? <==> reply.Body? && UserErrorsOf(reply.data) == []
    ensures r.MetafieldSaved? ==>
      r.orderId == orderId && r.saved == saved && r.metafield == FirstMetafield(reply.data)
  {
    match reply
    case Threw => ServerError       // fetch or .json() rejected: the catch block
    case NullBody => ServerError    // `null.data` throws: the catch block
    case Body(data) =>
      var errors := UserErrorsOf(data);
      if |errors| > 0 then SetFailed(errors)
      else MetafieldSaved(orderId, saved, FirstMetafield(data))
  }

  /** A reply without `data` (for instance one carrying only top-level GraphQL errors) is reported as saved. */
  lemma MissingDataIsSuccess(orderId: Option<string>, saved: seq<ItemImage>)
    ensures Classify(Body(None), orderId, saved) == MetafieldSaved(orderId, saved, None)
  {
  }
}
