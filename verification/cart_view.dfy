/** The cart page (pages/cart.js): restoring the cart on mount, changing a
    line's quantity, removing a line, and the checkout decision. */
module CartView {
  import opened Values
  import CartApi

  const MinQuantity := 1
  const MaxQuantity := 999

  /** `Math.max(1, Math.min(999, Number(next) || 1))`, where `next` is the
      number `Number` produced (None stands for NaN). */
  function Clamp(next: Option<int>): (q: int)
    ensures MinQuantity <= q <= MaxQuantity
    ensures next.Some? && MinQuantity <= next.value <= MaxQuantity ==> q == next.value
    ensures next.None? || next == Some(0) ==> q == MinQuantity
    ensures next.Some? && next.value < MinQuantity ==> q == MinQuantity
    ensures next.Some? && next.value > MaxQuantity ==> q == MaxQuantity
  {
    var n := if next.Some? && next.value != 0 then next.value else 1;
    var upper := if n < MaxQuantity then n else MaxQuantity;
    if upper > MinQuantity then upper else MinQuantity
  }

  /** Clamping a clamped quantity changes nothing. */
  lemma ClampIdempotent(next: Option<int>)
    ensures Clamp(Some(Clamp(next))) == Clamp(next)
  {
  }

  // ---------------------------------------------------------------------
  // Requests to the cart route.

  /** `{ action: "get", cartId }`. */
  function GetRequest(cartId: JsVal): CartApi.Body
  {
    CartApi.Body(Str("get"), cartId, Undefined, Undefined, Undefined)
  }

  /** `{ action: "update", cartId, lineId, quantity }`. */
  function UpdateRequest(cartId: string, lineId: string, quantity: int): CartApi.Body
  {
    CartApi.Body(Str("update"), Str(cartId), Undefined, Str(lineId), Num(quantity))
  }

  /** `{ action: "remove", cartId, lineId }`. */
  function RemoveRequest(cartId: string, lineId: string): CartApi.Body
  {
    CartApi.Body(Str("remove"), Str(cartId), Undefined, Str(lineId), Undefined)
  }

  /** `cart?.id` when it is truthy. */
  function CurrentId(cart: Json): Option<string>
  {
    if HasCartId(cart) then cart.cart.id else None
  }

  /** What a mutation followed by a re-fetch did: the requests sent, and the
      latest cart when both completed without a thrown error. */
  datatype Resync = Resync(sent: seq<CartApi.Body>, latest: Option<Json>)

  /** The sequence shared by `changeQty` and `removeLine`: send the mutation,
      then `get` the cart whose id the mutation returned. Reading `id` of a
      `null` reply throws, as does a rejected request. */
  function MutateThenRefetch(api: CartApi.Body -> Reply, mutation: CartApi.Body): (s: Resync)
    ensures 1 <= |s.sent| <= 2 && s.sent[0] == mutation
    ensures |s.sent| == 2 <==> api(mutation).Replied? && !api(mutation).json.JNull?
    ensures |s.sent| == 2 ==> s.sent[1] == GetRequest(IdOf(api(mutation).json))
    ensures s.latest.Some? <==> |s.sent| == 2 && api(s.sent[1]).Replied?
    ensures s.latest.Some? ==> s.latest.value == api(s.sent[1]).json
  {
    match api(mutation)
    case Failed => Resync([mutation], None)
    case Replied(updated) =>
      if updated.JNull? then Resync([mutation], None)
      else
        var get := GetRequest(IdOf(updated));
        match api(get)
        case Failed => Resync([mutation, get], None)
        case Replied(latest) => Resync([mutation, get], Some(latest))
  }

  // ---------------------------------------------------------------------
  // Checkout.

  datatype Action = Notify(message: string) | Navigate(url: string)

  /** `!cart || !cart.totalQuantity`. */
  predicate LooksEmpty(cart: Json)
  {
    !cart.JCart? || cart.cart.totalQuantity.None? || cart.cart.totalQuantity == Some(0)
  }

  /** `checkout`: notify that the cart is empty, or that the link is not
      ready, or navigate to the checkout URL. */
  function CheckoutAction(cart: Json): (a: Action)
    ensures a == Notify("Your cart is empty") <==> LooksEmpty(cart)
    ensures a == Notify("Checkout link is not ready yet") <==>
              !LooksEmpty(cart) && !Present(cart.cart.checkoutUrl)
    ensures a.Navigate? <==> !LooksEmpty(cart) && Present(cart.cart.checkoutUrl)
    ensures a.Navigate? ==> Some(a.url) == cart.cart.checkoutUrl && a.url != ""
  {
    if LooksEmpty(cart) then Notify("Your cart is empty")
    else if !Present(cart.cart.checkoutUrl) then Notify("Checkout link is not ready yet")
    else Navigate(cart.cart.checkoutUrl.value)
  }

  // ---------------------------------------------------------------------
  // The page.

  /** The state of the cart page that its handlers change. */
  class CartPage {
    var cart: Json
    /** The line whose request is in flight, if any. */
    var loadingId: Option<string>
    /** The `localStorage` entry "cartId". */
    var storedCartId: Option<string>
    /** The requests sent to the cart route, in order. */
    ghost var requests: seq<CartApi.Body>

    constructor (stored: Option<string>)
      ensures cart == JNull && loadingId == None && storedCartId == stored && requests == []
    {
      cart, loadingId, storedCartId, requests := JNull, None, stored, [];
    }

    /** The mount effect: `get` the stored cart, if an id is stored. */
    method Mount(api: CartApi.Body -> Reply) returns (ok: bool)
      modifies this
      ensures loadingId == old(loadingId) && storedCartId == old(storedCartId)
      ensures !Present(storedCartId) ==> ok && cart == old(cart) && requests == old(requests)
      ensures Present(storedCartId) ==>
                var get := GetRequest(Str(storedCartId.value));
                requests == old(requests) + [get] &&
                (ok <==> api(get).Replied?) &&
                cart == (if ok then api(get).json else old(cart))
    {
      if !Present(storedCartId) {
        return true;
      }
      var get := GetRequest(Str(storedCartId.value));
      requests := requests + [get];
      var reply := api(get);
      if reply.Failed? {
        return false;
      }
      cart := reply.json;
      ok := true;
    }

    /** `changeQty`: without a cart id nothing happens; otherwise the
        clamped quantity is sent, the cart is re-fetched, and `loadingId` is
        cleared whether or not a request threw. */
    method ChangeQty(lineId: string, next: Option<int>, api: CartApi.Body -> Reply) returns (ok: bool)
      modifies this
      ensures storedCartId == old(storedCartId)
      ensures CurrentId(old(cart)).None? ==>
                ok && cart == old(cart) && loadingId == old(loadingId) && requests == old(requests)
      ensures CurrentId(old(cart)).Some? ==>
                var s := MutateThenRefetch(api, UpdateRequest(CurrentId(old(cart)).value, lineId, Clamp(next)));
                loadingId == None && requests == old(requests) + s.sent &&
                (ok <==> s.latest.Some?) &&
                cart == (if ok then s.latest.value else old(cart))
    {
      var cartId := CurrentId(cart);
      if cartId.None? {
        return true;
      }
      var qty := Clamp(next);
      loadingId := Some(lineId);
      ok := Mutate(UpdateRequest(cartId.value, lineId, qty), api);
      loadingId := None;
    }

    /** `removeLine`: like `changeQty`, with a `remove` request. */
    method RemoveLine(lineId: string, api: CartApi.Body -> Reply) returns (ok: bool)
      modifies this
      ensures storedCartId == old(storedCartId)
      ensures CurrentId(old(cart)).None? ==>
                ok && cart == old(cart) && loadingId == old(loadingId) && requests == old(requests)
      ensures CurrentId(old(cart)).Some? ==>
                var s := MutateThenRefetch(api, RemoveRequest(CurrentId(old(cart)).value, lineId));
                loadingId == None && requests == old(requests) + s.sent &&
                (ok <==> s.latest.Some?) &&
                cart == (if ok then s.latest.value else old(cart))
    {
      var cartId := CurrentId(cart);
      if cartId.None? {
        return true;
      }
      loadingId := Some(lineId);
      ok := Mutate(RemoveRequest(cartId.value, lineId), api);
      loadingId := None;
    }

    /** The body of the `try` block of both handlers: the mutation, the
        re-fetch by the returned id, and `setCart` of the latest cart. */
    method Mutate(mutation: CartApi.Body, api: CartApi.Body -> Reply) returns (ok: bool)
      modifies this`cart, this`requests
      ensures var s := MutateThenRefetch(api, mutation);
              requests == old(requests) + s.sent &&
              (ok <==> s.latest.Some?) &&
              cart == (if ok then s.latest.value else old(cart))
    {
      requests := requests + [mutation];
      var updated := api(mutation);
      if updated.Failed? || updated.json.JNull? {
        return false;
      }
      var get := GetRequest(IdOf(updated.json));
      requests := requests + [get];
      var latest := api(get);
      if latest.Failed? {
        return false;
      }
      cart := latest.json;
      ok := true;
    }
  }

  // ---------------------------------------------------------------------
  // The page against the route.

  /** The route as the page sees it when the network delivers every reply. */
  function Served(up: CartApi.Call -> CartApi.UpstreamResult): CartApi.Body -> Reply
  {
    b => Replied(CartApi.Handle(CartApi.Request("POST", Some(b)), up).body)
  }

  /** Every update the page sends passes the route's validation, and the
      route forwards exactly one line whose quantity lies in [1, 999]. */
  lemma UpdateReachesStorefront(cartId: string, lineId: string, next: Option<int>)
    requires cartId != "" && lineId != ""
    ensures var p := CartApi.Decide(CartApi.Request("POST", Some(UpdateRequest(cartId, lineId, Clamp(next)))));
            p.Send? && p.call.op == CartApi.CartLinesUpdate &&
            p.call.vars == CartApi.LinesVars(Str(cartId), [CartApi.LineUpdate(Str(lineId), Num(Clamp(next)))]) &&
            MinQuantity <= Clamp(next) <= MaxQuantity
  {
  }

  /** As written, when the route answers an update with an error (the
      Storefront call threw), the page re-fetches with no cart id, the route
      refuses that `get`, and the page then shows that refusal as its cart. */
  lemma FailedUpdateShowsMissingCartId(up: CartApi.Call -> CartApi.UpstreamResult,
                                       cartId: string, lineId: string, quantity: int)
    requires cartId != "" && lineId != ""
    requires up(CartApi.Call(CartApi.CartLinesUpdate, false,
                             CartApi.LinesVars(Str(cartId), [CartApi.LineUpdate(Str(lineId), Num(quantity))]))).Err?
    ensures MutateThenRefetch(Served(up), UpdateRequest(cartId, lineId, quantity)).latest ==
              Some(JError("Missing cartId"))
  {
    var u := UpdateRequest(cartId, lineId, quantity);
    var call := CartApi.Call(CartApi.CartLinesUpdate, false,
                             CartApi.LinesVars(Str(cartId), [CartApi.LineUpdate(Str(lineId), Num(quantity))]));
    assert CartApi.Decide(CartApi.Request("POST", Some(u))) == CartApi.Send(call);
    CartApi.UpstreamErrorIs500(CartApi.Request("POST", Some(u)), up);
    var get := GetRequest(Undefined);
    CartApi.GetNeedsCartId(CartApi.Request("POST", Some(get)), up);
  }
}
