/**
 * The `POST` handler of the order-creation webhook: authenticate the raw
 * body against the `x-shopify-hmac-sha256` header, parse the order, build
 * its item-image annotations, set them as one metafield on the order, and
 * answer with 401, 400, 200 or 500.
 */
module Webhook {
  import opened Wrappers
  import opened ItemImages
  import opened Metafields

  /** The inbound request: the raw body bytes and the signature header, if sent. */
  datatype Request = Request(rawBody: seq<bv8>, hmacHeader: Option<string>)

  /**
   * The collaborators the handler calls, given as functions:
   * `hmac(secret, body)` is the Base64 HMAC-SHA256 digest, `parse` is
   * `JSON.parse` of the UTF-8 text (None when it throws or yields `null`),
   * `stringify` is `JSON.stringify` of the annotations, and `graphql` is
   * the reply that the store's GraphQL endpoint gives to the mutation.
   */
  datatype Externals = Externals(
    hmac: (string, seq<bv8>) -> string,
    parse: seq<bv8> -> Option<Order>,
    stringify: seq<ItemImage> -> string,
    graphql: MetafieldsSetInput -> Reply)

  /** What the handler answers and the remote calls it issued, in order. */
  datatype Outcome = Outcome(response: Response, calls: seq<MetafieldsSetInput>)

  /** The signature the request claims: `headers.get(…) || ""`. */
  function ClaimedHmac(req: Request): (h: string)
    ensures req.hmacHeader.None? ==> h == ""
    ensures req.hmacHeader.Some? ==> h == req.hmacHeader.value
  {
    req.hmacHeader.GetOr("")
  }

  /** The request is authentic when the computed digest equals the claimed one exactly. */
  function Authentic(secret: string, req: Request, ext: Externals): (ok: bool)
    ensures req.hmacHeader.Some? ==> (ok <==> ext.hmac(secret, req.rawBody) == req.hmacHeader.value)
    ensures req.hmacHeader.None? ==> (ok <==> ext.hmac(secret, req.rawBody) == "")
  {
    ext.hmac(secret, req.rawBody) == ClaimedHmac(req)
  }

  /** The handler passes authentication and parses an order that has `line_items`. */
  predicate ReachesRemote(secret: Option<string>, req: Request, ext: Externals) {
    && secret.Some?
    && Authentic(secret.value, req, ext)
    && ext.parse(req.rawBody).Some?
    && ext.parse(req.rawBody).value.lineItems.Some?
  }

  /**
   * The handler. `secret` is the configured webhook secret; when it is
   * unset, `createHmac` throws and the catch block answers 500.
   */
  function Handle(secret: Option<string>, req: Request, ext: Externals): (o: Outcome)
    // at most one remote call, and only once the body is authentic and parsed
    ensures |o.calls| <= 1
    ensures o.calls != [] <==> ReachesRemote(secret, req, ext)
    // 401 exactly when a configured secret's digest differs from the header
    ensures o.response.Unauthorized? <==> secret.Some? && !Authentic(secret.value, req, ext)
    // without a remote call the answer is 401 or 500
    ensures o.calls == [] ==> o.response.Unauthorized? || o.response.ServerError?
    // the one call sets the annotations of the parsed order, and its reply decides the answer
    ensures o.calls != [] ==>
      var order := ext.parse(req.rawBody).value;
      var saved := ItemImagesOf(order.lineItems.value);
      && OrderIdOfGid(o.calls[0].ownerId) == Some(order.id.GetOr(Undefined))
      && o.calls[0].namespace == Namespace && o.calls[0].key == Key && o.calls[0].kind == TypeJson
      && o.calls[0].value == ext.stringify(saved)
      && o.response == Classify(ext.graphql(o.calls[0]), order.id, saved)
  {
    match secret
    case None => Outcome(ServerError, [])
    case Some(key) =>
      if !Authentic(key, req, ext) then Outcome(Unauthorized, [])
      else match ext.parse(req.rawBody)
        case None => Outcome(ServerError, [])            // JSON.parse threw, or `null.id`
        case Some(order) =>
          match order.lineItems
          case None => Outcome(ServerError, [])          // `line_items.map` on a non-array
          case Some(items) =>
            var saved := ItemImagesOf(items);
            var input := SetInput(order.id, ext.stringify(saved));
            Outcome(Classify(ext.graphql(input), order.id, saved), [input])
  }

  /**
   * Nothing past the signature check happens for a forged request: the
   * 401 outcome is the same whatever parsing, serialising or the remote
   * store would have done.
   */
  lemma ForgedIgnoresBody(secret: string, req: Request, e1: Externals, e2: Externals)
    requires e1.hmac(secret, req.rawBody) == e2.hmac(secret, req.rawBody)
    requires !Authentic(secret, req, e1)
    ensures Handle(Some(secret), req, e1) == Handle(Some(secret), req, e2) == Outcome(Unauthorized, [])
  {
  }

  /** A request without the header is rejected whenever the digest is non-empty, as a Base64 digest is. */
  lemma MissingHeaderRejected(secret: string, body: seq<bv8>, ext: Externals)
    requires ext.hmac(secret, body) != ""
    ensures Handle(Some(secret), Request(body, None), ext) == Outcome(Unauthorized, [])
  {
  }

  /** An authentic body that is not an order with `line_items` is a 500 with no remote call. */
  lemma MalformedIsServerError(secret: string, req: Request, ext: Externals)
    requires Authentic(secret, req, ext)
    requires ext.parse(req.rawBody).None? || ext.parse(req.rawBody).value.lineItems.None?
    ensures Handle(Some(secret), req, ext) == Outcome(ServerError, [])
  {
  }

  /**
   * The order `{id: 5001, line_items: [{title: "Mug", variant_title: "Red"}]}`,
   * authentic and answered without user errors, is saved with one call
   * holding the single annotation numbered 1.
   */
  lemma SingleMugOrder(secret: string, req: Request, ext: Externals, reply: ReplyData)
    requires Authentic(secret, req, ext)
    requires ext.parse(req.rawBody) == Some(Order(Some("5001"), Some([LineItem(Some("Mug"), Some("Red"))])))
    requires ext.graphql(MetafieldsSetInput("gid://shopify/Order/5001", "custom", "product_images", "json",
      ext.stringify([ItemImage(1, Product(Some("Mug"), "Red"), HardcodedImage)]))) == Body(Some(reply))
    requires UserErrorsOf(Some(reply)) == []
    ensures var mug := ItemImage(1, Product(Some("Mug"), "Red"), HardcodedImage);
      Handle(Some(secret), req, ext) == Outcome(
        MetafieldSaved(Some("5001"), [mug], FirstMetafield(Some(reply))),
        [MetafieldsSetInput("gid://shopify/Order/5001", "custom", "product_images", "json", ext.stringify([mug]))])
  {
    var mug := ItemImage(1, Product(Some("Mug"), "Red"), HardcodedImage);
    assert ItemImagesOf([LineItem(Some("Mug"), Some("Red"))]) == [mug];
    assert OwnerGid(Some("5001")) == "gid://shopify/Order/5001";
  }

  /**
   * Each exit of the handler with its status code and `message`: 401
   * "Unauthorized" for a forged request; 500 "Server error" when no call
   * was made for another reason or reading the reply throws; otherwise 400
   * "Failed to set metafield" or 200 "Metafield set successfully", as the
   * reply carries user errors or not.
   */
  lemma HandleExits(secret: Option<string>, req: Request, ext: Externals)
    ensures var o := Handle(secret, req, ext);
      var forged := secret.Some? && !Authentic(secret.value, req, ext);
      && (o.response.Status() == 401 <==> forged)
      && (o.calls == [] && !forged ==> o.response.Status() == 500)
      && (o.calls != [] ==>
            var reply := ext.graphql(o.calls[0]);
            && (o.response.Status() == 500 <==> reply.Threw? || reply.NullBody?)
            && (o.response.Status() == 400 <==> reply.Body? && UserErrorsOf(reply.data) != [])
            && (o.response.Status() == 200 <==> reply.Body? && UserErrorsOf(reply.data) == []))
      && (o.calls == [] ==> o.response.Status() in {401, 500})
      && (o.response.Status() == 401 ==> o.response.Message() == "Unauthorized")
      && (o.response.Status() == 400 ==> o.response.Message() == "Failed to set metafield")
      && (o.response.Status() == 200 ==> o.response.Message() == "Metafield set successfully")
      && (o.response.Status() == 500 ==> o.response.Message() == "Server error")
  {
  }
}
