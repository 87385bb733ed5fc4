/** The server route `POST /api/cart` (pages/api/cart.js): one request in,
    exactly one response out, with at most one call to the Storefront API on
    the way. The Storefront API is an oracle from the call to its result. */
module CartApi {
  import opened Values

  /** The body fields the route reads; `req.body || {}` makes a missing body
      read as all fields `undefined`. */
  datatype Body = Body(action: JsVal, cartId: JsVal, merchandiseId: JsVal, lineId: JsVal, quantity: JsVal)

  datatype Request = Request(httpMethod: string, body: Option<Body>)

  const EmptyBody := Body(Undefined, Undefined, Undefined, Undefined, Undefined)

  /** `req.body || {}`. */
  function Fields(req: Request): Body
  {
    match req.body
    case Some(b) => b
    case None => EmptyBody
  }

  /** The five Storefront operations the route can send. */
  datatype Operation = CartCreate | CartLinesAdd | CartQuery | CartLinesUpdate | CartLinesRemove

  datatype LineInput =
    | NewLine(merchandiseId: JsVal, quantity: JsVal)
    | LineUpdate(id: JsVal, quantity: JsVal)

  /** The GraphQL variables of each operation. */
  datatype Variables =
    | CreateVars(lines: seq<LineInput>)
    | LinesVars(cartId: JsVal, lines: seq<LineInput>)
    | IdVars(id: JsVal)
    | RemoveVars(cartId: JsVal, lineIds: seq<JsVal>)

  /** One call to the Storefront API. `document` tells whether a query
      document was sent at all: the route reads `QUERIES.CART_QUERY`,
      `QUERIES.CART_LINES_UPDATE` and `QUERIES.CART_LINES_REMOVE`, which
      lib/shopify.js does not define, so those three calls go out without one. */
  datatype Call = Call(op: Operation, document: bool, vars: Variables)

  /** What the Storefront API gives back: the operation's `cart` (possibly
      `null`) together with its `userErrors`, or a thrown error's message. */
  datatype UpstreamResult = Ok(cart: Option<Cart>, userErrors: seq<string>) | Err(message: string)

  datatype Header = Header(name: string, value: string)

  /** Everything the route does: headers set, status, JSON body, and the
      upstream calls made. */
  datatype Outcome = Outcome(headers: seq<Header>, status: int, body: Json, calls: seq<Call>)

  /** The route's decision before any upstream call: answer at once, or send one call. */
  datatype Plan = Reject(status: int, error: string) | Send(call: Call)

  const NoCacheHeaders := [
    Header("Cache-Control", "no-store, no-cache, must-revalidate, proxy-revalidate"),
    Header("Pragma", "no-cache"),
    Header("Expires", "0")
  ]

  /** Whether lib/shopify.js defines the query document of the operation. */
  predicate Defined(op: Operation)
  {
    op == CartCreate || op == CartLinesAdd
  }

  function MakeCall(op: Operation, vars: Variables): Call
  {
    Call(op, Defined(op), vars)
  }

  /** The five actions the route knows. */
  datatype ActionTag = Create | Add | Get | Update | Remove

  /** Which known action `action` names, by the strict comparison
      `action === "..."`; None for anything else. */
  function ActionOf(action: JsVal): Option<ActionTag>
  {
    if action == Str("create") then Some(Create)
    else if action == Str("add") then Some(Add)
    else if action == Str("get") then Some(Get)
    else if action == Str("update") then Some(Update)
    else if action == Str("remove") then Some(Remove)
    else None
  }

  /** The method check and the per-action validation, in the route's order. */
  function Decide(req: Request): (p: Plan)
    ensures p.Reject? ==> p.status in {400, 405}
    ensures p.Reject? && p.status == 405 <==> req.httpMethod != "POST"
    ensures p.Send? ==> req.httpMethod == "POST" && ActionOf(Fields(req).action).Some?
    ensures req.httpMethod == "POST" && ActionOf(Fields(req).action).None? ==> p == Reject(400, "Unknown action")
  {
    var b := Fields(req);
    if req.httpMethod != "POST" then Reject(405, "Method not allowed")
    else match ActionOf(b.action)
      case Some(Create) =>
        Send(MakeCall(CartCreate, CreateVars([])))
      case Some(Add) =>
        if !Truthy(b.cartId) || !Truthy(b.merchandiseId) then Reject(400, "Missing cartId or merchandiseId")
        else Send(MakeCall(CartLinesAdd, LinesVars(b.cartId, [NewLine(b.merchandiseId, Or(b.quantity, Num(1)))])))
      case Some(Get) =>
        if !Truthy(b.cartId) then Reject(400, "Missing cartId")
        else Send(MakeCall(CartQuery, IdVars(b.cartId)))
      case Some(Update) =>
        if !Truthy(b.cartId) || !Truthy(b.lineId) || !IsNumber(b.quantity) then Reject(400, "Missing cartId/lineId/quantity")
        else Send(MakeCall(CartLinesUpdate, LinesVars(b.cartId, [LineUpdate(b.lineId, b.quantity)])))
      case Some(Remove) =>
        if !Truthy(b.cartId) || !Truthy(b.lineId) then Reject(400, "Missing cartId/lineId")
        else Send(MakeCall(CartLinesRemove, RemoveVars(b.cartId, [b.lineId])))
      case None => Reject(400, "Unknown action")
  }

  /** The whole route: headers first, then the decision, then the call and
      the unwrapping of its `cart`, or the mapping of a thrown error to 500. */
  function Handle(req: Request, upstream: Call -> UpstreamResult): (r: Outcome)
    ensures r.headers == NoCacheHeaders
    ensures r.status in {200, 400, 405, 500}
    ensures req.httpMethod != "POST" ==> r == Outcome(NoCacheHeaders, 405, JError("Method not allowed"), [])
    ensures |r.calls| <= 1
    ensures r.calls == [] <==> r.status in {400, 405}
    ensures r.status == 200 <==> |r.calls| == 1 && upstream(r.calls[0]).Ok?
    ensures r.status == 200 ==> r.body == CartJson(upstream(r.calls[0]).cart)
    ensures r.status == 500 ==> r.body == JError(upstream(r.calls[0]).message)
    ensures r.status != 200 ==> r.body.JError?
  {
    match Decide(req)
    case Reject(status, error) => Outcome(NoCacheHeaders, status, JError(error), [])
    case Send(call) =>
      match upstream(call)
      case Ok(cart, _) => Outcome(NoCacheHeaders, 200, CartJson(cart), [call])
      case Err(message) => Outcome(NoCacheHeaders, 500, JError(message), [call])
  }

  // ---------------------------------------------------------------------
  // A reference for the validation: which fields each action needs.

  datatype Check = CartIdTruthy | MerchandiseIdTruthy | LineIdTruthy | QuantityIsNumber

  /** The checks each known action performs before it calls upstream. */
  function Required(action: ActionTag): set<Check>
  {
    match action
    case Create => {}
    case Add => {CartIdTruthy, MerchandiseIdTruthy}
    case Get => {CartIdTruthy}
    case Update => {CartIdTruthy, LineIdTruthy, QuantityIsNumber}
    case Remove => {CartIdTruthy, LineIdTruthy}
  }

  predicate Passes(b: Body, c: Check)
  {
    match c
    case CartIdTruthy => Truthy(b.cartId)
    case MerchandiseIdTruthy => Truthy(b.merchandiseId)
    case LineIdTruthy => Truthy(b.lineId)
    case QuantityIsNumber => IsNumber(b.quantity)
  }

  /** A POST request reaches the Storefront API exactly when its action is
      known and the body passes every check the action requires. */
  lemma SendsExactlyWhenValid(req: Request)
    ensures Decide(req).Send? <==>
              req.httpMethod == "POST" && ActionOf(Fields(req).action).Some? &&
              forall c :: c in Required(ActionOf(Fields(req).action).value) ==> Passes(Fields(req), c)
  {
    var b := Fields(req);
    if req.httpMethod == "POST" && ActionOf(b.action).Some? {
      if !Truthy(b.cartId) { assert !Passes(b, CartIdTruthy); }
      if !Truthy(b.merchandiseId) { assert !Passes(b, MerchandiseIdTruthy); }
      if !Truthy(b.lineId) { assert !Passes(b, LineIdTruthy); }
      if !IsNumber(b.quantity) { assert !Passes(b, QuantityIsNumber); }
    }
  }

  // ---------------------------------------------------------------------
  // The action-by-action promises.

  /** `create` sends one CartCreate with an empty line list, and only the
      `cart` of the reply is returned: its `userErrors` never reach the client. */
  lemma CreateSendsEmptyLines(req: Request, upstream: Call -> UpstreamResult)
    requires req.httpMethod == "POST" && Fields(req).action == Str("create")
    ensures Handle(req, upstream).calls == [Call(CartCreate, true, CreateVars([]))]
    ensures upstream(Call(CartCreate, true, CreateVars([]))).Ok? ==>
              Handle(req, upstream).body == CartJson(upstream(Call(CartCreate, true, CreateVars([]))).cart)
  {
  }

  /** The reply never depends on the upstream `userErrors`. */
  lemma UserErrorsDropped(req: Request, up1: Call -> UpstreamResult, up2: Call -> UpstreamResult)
    requires forall c :: up1(c).Ok? == up2(c).Ok?
    requires forall c :: up1(c).Ok? ==> up1(c).cart == up2(c).cart
    requires forall c :: up1(c).Err? ==> up1(c).message == up2(c).message
    ensures Handle(req, up1) == Handle(req, up2)
  {
  }

  /** `add` without a truthy cart id or merchandise id is refused before any call. */
  lemma AddNeedsIds(req: Request, upstream: Call -> UpstreamResult)
    requires req.httpMethod == "POST" && Fields(req).action == Str("add")
    requires !Truthy(Fields(req).cartId) || !Truthy(Fields(req).merchandiseId)
    ensures Handle(req, upstream) == Outcome(NoCacheHeaders, 400, JError("Missing cartId or merchandiseId"), [])
  {
  }

  /** `add` sends exactly one line, for the given variant, with the given
      quantity or with 1 when the quantity is falsy. A positive numeric
      quantity is sent unchanged. */
  lemma AddSendsOneLine(req: Request, upstream: Call -> UpstreamResult)
    requires req.httpMethod == "POST" && Fields(req).action == Str("add")
    requires Truthy(Fields(req).cartId) && Truthy(Fields(req).merchandiseId)
    ensures var r := Handle(req, upstream);
            |r.calls| == 1 && r.calls[0].op == CartLinesAdd && r.calls[0].vars.LinesVars? &&
            r.calls[0].vars.cartId == Fields(req).cartId &&
            |r.calls[0].vars.lines| == 1 &&
            r.calls[0].vars.lines[0].merchandiseId == Fields(req).merchandiseId &&
            (Truthy(Fields(req).quantity) ==> r.calls[0].vars.lines[0].quantity == Fields(req).quantity) &&
            (!Truthy(Fields(req).quantity) ==> r.calls[0].vars.lines[0].quantity == Num(1))
  {
  }

  /** `get` without a truthy cart id is refused before any call. */
  lemma GetNeedsCartId(req: Request, upstream: Call -> UpstreamResult)
    requires req.httpMethod == "POST" && Fields(req).action == Str("get") && !Truthy(Fields(req).cartId)
    ensures Handle(req, upstream) == Outcome(NoCacheHeaders, 400, JError("Missing cartId"), [])
  {
  }

  /** A valid `get` makes exactly one CartQuery call on the given cart id. */
  lemma GetSendsId(req: Request, upstream: Call -> UpstreamResult)
    requires req.httpMethod == "POST" && Fields(req).action == Str("get") && Truthy(Fields(req).cartId)
    ensures Handle(req, upstream).calls == [Call(CartQuery, false, IdVars(Fields(req).cartId))]
  {
  }

  /** `update` is refused unless the cart id and line id are truthy and the
      quantity is a number; a quantity of 0 passes and is sent as it is. */
  lemma UpdateValidation(req: Request, upstream: Call -> UpstreamResult)
    requires req.httpMethod == "POST" && Fields(req).action == Str("update")
    ensures var r := Handle(req, upstream);
            var b := Fields(req);
            (r.status == 400 <==> !Truthy(b.cartId) || !Truthy(b.lineId) || !IsNumber(b.quantity)) &&
            (r.status == 400 ==> r.body == JError("Missing cartId/lineId/quantity") && r.calls == []) &&
            (r.status != 400 ==> r.calls == [Call(CartLinesUpdate, false, LinesVars(b.cartId, [LineUpdate(b.lineId, b.quantity)]))])
  {
  }

  /** A numeric zero quantity is not a validation failure for `update`. */
  lemma UpdateAcceptsZero(cartId: string, lineId: string, upstream: Call -> UpstreamResult)
    requires cartId != "" && lineId != ""
    ensures Handle(Request("POST", Some(Body(Str("update"), Str(cartId), Undefined, Str(lineId), Num(0)))), upstream).status != 400
  {
  }

  /** `remove` without a truthy cart id or line id is refused before any call. */
  lemma RemoveNeedsIds(req: Request, upstream: Call -> UpstreamResult)
    requires req.httpMethod == "POST" && Fields(req).action == Str("remove")
    requires !Truthy(Fields(req).cartId) || !Truthy(Fields(req).lineId)
    ensures Handle(req, upstream) == Outcome(NoCacheHeaders, 400, JError("Missing cartId/lineId"), [])
  {
  }

  /** `remove` sends exactly the one line id it was given. */
  lemma RemoveSendsOneId(req: Request, upstream: Call -> UpstreamResult)
    requires req.httpMethod == "POST" && Fields(req).action == Str("remove")
    requires Truthy(Fields(req).cartId) && Truthy(Fields(req).lineId)
    ensures Handle(req, upstream).calls == [Call(CartLinesRemove, false, RemoveVars(Fields(req).cartId, [Fields(req).lineId]))]
  {
  }

  /** Only `create` and `add` send a query document; `get`, `update` and
      `remove` reach the Storefront API without one. */
  lemma OnlyCreateAndAddCarryADocument(req: Request, upstream: Call -> UpstreamResult)
    ensures forall c :: c in Handle(req, upstream).calls ==>
              (c.document <==> Fields(req).action in {Str("create"), Str("add")})
  {
  }

  /** A thrown upstream error becomes a 500 with its message, never a 200. */
  lemma UpstreamErrorIs500(req: Request, upstream: Call -> UpstreamResult)
    requires Decide(req).Send? && upstream(Decide(req).call).Err?
    ensures Handle(req, upstream).status == 500
    ensures Handle(req, upstream).body == JError(upstream(Decide(req).call).message)
  {
  }
}
