/** Values shared by the server route and the two client pages: JSON field
    values with JavaScript's truthiness, the cart as the Storefront API
    returns it, and the JSON reply that the cart route sends back. */
module Values {

  datatype Option<+T> = None | Some(value: T)

  /** One field of a parsed JSON request body, as JavaScript sees it.
      `Undefined` is an absent key (and a key whose value `JSON.stringify`
      dropped); `Composite` stands for any array or object. */
  datatype JsVal = Undefined | Null | Bool(b: bool) | Num(n: int) | Str(s: string) | Composite

  /** JavaScript truthiness: `undefined`, `null`, `false`, `0` and `""` are falsy. */
  predicate Truthy(v: JsVal)
  {
    match v
    case Undefined => false
    case Null => false
    case Bool(b) => b
    case Num(n) => n != 0
    case Str(s) => s != ""
    case Composite => true
  }

  /** `typeof v === "number"`. */
  predicate IsNumber(v: JsVal)
  {
    v.Num?
  }

  /** The JavaScript expression `v || fallback`. */
  function Or(v: JsVal, fallback: JsVal): JsVal
  {
    if Truthy(v) then v else fallback
  }

  /** A string field that may be missing from a JSON object, read as a JsVal. */
  function FromOption(o: Option<string>): (v: JsVal)
    ensures Truthy(v) <==> Present(o)
  {
    match o
    case Some(s) => Str(s)
    case None => Undefined
  }

  /** `!!s` for a string that may be missing. */
  predicate Present(o: Option<string>)
  {
    o.Some? && o.value != ""
  }

  /** One line of a cart: its id, its quantity and the variant it holds. */
  datatype CartLine = CartLine(id: string, quantity: int, merchandiseId: string)

  /** A cart as the client holds it. Every field may be missing: the catalog
      page restores a cart as `{ id }` alone, and the mutations select only
      `id`, `checkoutUrl` and `totalQuantity`. */
  datatype Cart = Cart(id: Option<string>, checkoutUrl: Option<string>,
                       totalQuantity: Option<int>, lines: seq<CartLine>)

  /** The JSON body of a reply of the cart route: `null`, a cart object, or
      an object `{ error }`. */
  datatype Json = JNull | JCart(cart: Cart) | JError(error: string)

  /** The JSON written for a cart that the upstream may have returned as `null`. */
  function CartJson(c: Option<Cart>): Json
  {
    match c
    case Some(cart) => JCart(cart)
    case None => JNull
  }

  /** The `id` key of a reply object; an error object has none. */
  function IdField(j: Json): Option<string>
  {
    match j
    case JCart(c) => c.id
    case _ => None
  }

  /** `cart && cart.id`: a reply that is a cart with a non-empty id. */
  predicate HasCartId(j: Json)
  {
    j.JCart? && Present(j.cart.id)
  }

  /** `j?.id` on a reply, as a field value: missing on `null` and on an error object. */
  function IdOf(j: Json): (v: JsVal)
    ensures Truthy(v) <==> HasCartId(j)
  {
    FromOption(IdField(j))
  }

  /** The string `localStorage.setItem` stores for an id that may be
      missing: a missing id is stored as the text "undefined". */
  function StoredForm(id: Option<string>): string
  {
    match id
    case Some(v) => v
    case None => "undefined"
  }

  /** What a page gets from `fetch("/api/cart", ...)` followed by
      `res.json()`: the parsed reply whatever its status, or a rejection
      (network failure, unreadable body). */
  datatype Reply = Failed | Replied(json: Json)
}
