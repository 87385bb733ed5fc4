/** The catalog page (pages/index.js): loading every product by cursor
    pagination, restoring the cart id, creating a cart on the first
    "add to cart", and opening the checkout. */
module Catalog {
  import opened Values
  import CartApi

  // ---------------------------------------------------------------------
  // Pagination.

  type Cursor = Option<string>

  datatype Product = Product(id: string, title: string, handle: string, variantId: Option<string>)

  datatype PageInfo = PageInfo(hasNextPage: bool, endCursor: Cursor)

  /** The `products` connection of a reply; either part may be missing. */
  datatype Connection = Connection(edges: Option<seq<Product>>, pageInfo: Option<PageInfo>)

  /** What one paged query gives back: a rejection, or a reply whose
      `data.products` may be missing (an error reply has none). */
  datatype Fetched = Rejected | Delivered(conn: Option<Connection>)

  /** The variables of one paged query: `{ first, after }`. */
  datatype PageQuery = PageQuery(first: int, after: Cursor)

  /** A page as the loop reads it. */
  datatype Page = Page(nodes: seq<Product>, hasNextPage: bool, endCursor: Cursor)

  const PageSize := 100
  const MaxRequests := 100

  /** `conn?.edges || []` and `conn?.pageInfo?.hasNextPage`: a missing
      connection reads as an empty page with no next page. */
  function AsPage(conn: Option<Connection>): Page
  {
    match conn
    case None => Page([], false, None)
    case Some(c) =>
      Page(if c.edges.Some? then c.edges.value else [],
           c.pageInfo.Some? && c.pageInfo.value.hasNextPage,
           if c.pageInfo.Some? then c.pageInfo.value.endCursor else None)
  }

  /** The cursor the loop continues with after requesting `after`, or None
      when it stops there (a rejection, or a page without a next page). */
  function Next(o: PageQuery -> Fetched, after: Cursor): Option<Cursor>
  {
    match o(PageQuery(PageSize, after))
    case Rejected => None
    case Delivered(conn) => if AsPage(conn).hasNextPage then Some(AsPage(conn).endCursor) else None
  }

  /** The cursors requested, in order, starting from `after` with `budget`
      requests left. */
  function Walk(o: PageQuery -> Fetched, after: Cursor, budget: nat): seq<Cursor>
    decreases budget
  {
    if budget == 0 then []
    else match Next(o, after)
      case None => [after]
      case Some(c) => [after] + Walk(o, c, budget - 1)
  }

  /** The products of the page requested with cursor `c`. */
  function NodesAt(o: PageQuery -> Fetched, c: Cursor): seq<Product>
  {
    match o(PageQuery(PageSize, c))
    case Rejected => []
    case Delivered(conn) => AsPage(conn).nodes
  }

  /** The in-order concatenation of the pages requested with `cs`. */
  function Gather(o: PageQuery -> Fetched, cs: seq<Cursor>): seq<Product>
  {
    if cs == [] then [] else Gather(o, cs[..|cs| - 1]) + NodesAt(o, cs[|cs| - 1])
  }

  /** The sum of the edge counts of the pages requested with `cs`. */
  function EdgeCount(o: PageQuery -> Fetched, cs: seq<Cursor>): nat
  {
    if cs == [] then 0 else EdgeCount(o, cs[..|cs| - 1]) + |NodesAt(o, cs[|cs| - 1])|
  }

  /** Whether every request in `cs` was answered. */
  predicate AllDelivered(o: PageQuery -> Fetched, cs: seq<Cursor>)
  {
    forall k :: 0 <= k < |cs| ==> o(PageQuery(PageSize, cs[k])).Delivered?
  }

  /** The result of a load that made the requests `cs`: it fails when a
      request was rejected, and otherwise is every page's products. */
  function Loaded(o: PageQuery -> Fetched, cs: seq<Cursor>): Option<seq<Product>>
  {
    if AllDelivered(o, cs) then Some(Gather(o, cs)) else None
  }

  /** What one iteration of the loop establishes: the request `after` is
      the next one of the walk, and its page extends the products. */
  lemma Step(o: PageQuery -> Fetched, sent: seq<Cursor>, all: seq<Product>, after: Cursor, budget: nat)
    requires budget > 0
    requires Loaded(o, sent) == Some(all)
    ensures Next(o, after).Some? ==>
              sent + Walk(o, after, budget) == (sent + [after]) + Walk(o, Next(o, after).value, budget - 1)
    ensures Next(o, after).None? ==> sent + Walk(o, after, budget) == sent + [after]
    ensures o(PageQuery(PageSize, after)).Rejected? ==> Loaded(o, sent + [after]) == None
    ensures o(PageQuery(PageSize, after)).Delivered? ==>
              Loaded(o, sent + [after]) == Some(all + AsPage(o(PageQuery(PageSize, after)).conn).nodes)
  {
    if Next(o, after).Some? {
      var rest := Walk(o, Next(o, after).value, budget - 1);
      assert sent + ([after] + rest) == (sent + [after]) + rest;
    }
  }

  /** `fetchAllProducts`: request pages of 100 from `after = null`, append
      each page's products, and follow `endCursor` while `hasNextPage`
      holds, for at most 100 requests. `None` is a rejected request, which
      the source lets escape as an exception. */
  method FetchAllProducts(o: PageQuery -> Fetched) returns (r: Option<seq<Product>>, ghost sent: seq<Cursor>)
    ensures sent == Walk(o, None, MaxRequests)
    ensures r == Loaded(o, Walk(o, None, MaxRequests))
  {
    var after: Cursor := None;
    var all: seq<Product> := [];
    sent := [];
    for i := 0 to MaxRequests
      invariant sent + Walk(o, after, MaxRequests - i) == Walk(o, None, MaxRequests)
      invariant Loaded(o, sent) == Some(all)
    {
      var data := o(PageQuery(PageSize, after));
      Step(o, sent, all, after, MaxRequests - i);
      sent := sent + [after];
      if data.Rejected? {
        return None, sent;
      }
      var page := AsPage(data.conn);
      all := all + page.nodes;
      if !page.hasNextPage {
        break;
      }
      after := page.endCursor;
    }
    r := Some(all);
  }

  // ---------------------------------------------------------------------
  // What the requests and the result of a load are.

  /** At most `budget` requests; the first one, if any, uses `after`. */
  lemma {:induction false} WalkBounds(o: PageQuery -> Fetched, after: Cursor, budget: nat)
    ensures |Walk(o, after, budget)| <= budget
    ensures budget > 0 ==> |Walk(o, after, budget)| >= 1 && Walk(o, after, budget)[0] == after
    decreases budget
  {
    if budget > 0 && Next(o, after).Some? {
      WalkBounds(o, Next(o, after).value, budget - 1);
    }
  }

  /** Every request after the first uses the `endCursor` of the page before
      it, and was made only because that page had a next page. */
  lemma {:induction false} WalkChains(o: PageQuery -> Fetched, after: Cursor, budget: nat)
    ensures var w := Walk(o, after, budget);
            forall k :: 0 <= k < |w| - 1 ==> Next(o, w[k]) == Some(w[k + 1])
    decreases budget
  {
    var w := Walk(o, after, budget);
    if budget > 0 && Next(o, after).Some? {
      var c := Next(o, after).value;
      var rest := Walk(o, c, budget - 1);
      WalkChains(o, c, budget - 1);
      WalkBounds(o, c, budget - 1);
      assert w == [after] + rest;
      forall k | 0 <= k < |w| - 1
        ensures Next(o, w[k]) == Some(w[k + 1])
      {
        if k > 0 {
          assert w[k] == rest[k - 1] && w[k + 1] == rest[k];
        }
      }
    }
  }

  /** The loop stops right after the first page without a next page (or a
      rejected request), unless it ran out of its budget first. */
  lemma {:induction false} WalkStops(o: PageQuery -> Fetched, after: Cursor, budget: nat)
    ensures var w := Walk(o, after, budget);
            w == [] || |w| == budget || Next(o, w[|w| - 1]).None?
    decreases budget
  {
    if budget > 0 && Next(o, after).Some? {
      var c := Next(o, after).value;
      var rest := Walk(o, c, budget - 1);
      WalkStops(o, c, budget - 1);
      WalkBounds(o, c, budget - 1);
      assert Walk(o, after, budget) == [after] + rest;
    }
  }

  /** `fetchAllProducts` makes between 1 and 100 requests; the first uses
      `after = null`; each later one follows the previous `endCursor`; and
      it stops at the first page without a next page. */
  lemma RequestsOfALoad(o: PageQuery -> Fetched)
    ensures var w := Walk(o, None, MaxRequests);
            1 <= |w| <= MaxRequests && w[0] == None &&
            (forall k :: 0 <= k < |w| - 1 ==> Next(o, w[k]) == Some(w[k + 1])) &&
            (|w| == MaxRequests || Next(o, w[|w| - 1]).None?)
  {
    WalkBounds(o, None, MaxRequests);
    WalkChains(o, None, MaxRequests);
    WalkStops(o, None, MaxRequests);
  }

  /** A reply without a `products` connection ends the load, contributing
      no products. */
  lemma MissingConnectionIsLastPage(o: PageQuery -> Fetched, after: Cursor, budget: nat)
    requires budget > 0
    requires o(PageQuery(PageSize, after)) == Delivered(None)
    ensures Walk(o, after, budget) == [after]
    ensures Loaded(o, [after]) == Some([])
  {
    assert [after][..0] == [];
    assert AllDelivered(o, [after]) by { assert [after][0] == after; }
    assert NodesAt(o, after) == [];
    assert Gather(o, [after]) == Gather(o, []) + NodesAt(o, after);
  }

  lemma GatherSnoc(o: PageQuery -> Fetched, cs: seq<Cursor>, c: Cursor)
    ensures Gather(o, cs + [c]) == Gather(o, cs) + NodesAt(o, c)
  {
  }

  /** The products of several runs of pages, in order, are the products of
      the first run followed by those of the second. */
  lemma {:induction false} GatherAppend(o: PageQuery -> Fetched, a: seq<Cursor>, b: seq<Cursor>)
    ensures Gather(o, a + b) == Gather(o, a) + Gather(o, b)
    decreases |b|
  {
    if b == [] {
      assert a + b == a;
    } else {
      var b', x := b[..|b| - 1], b[|b| - 1];
      calc {
        Gather(o, a + b);
        { assert a + b == (a + b') + [x]; }
        Gather(o, (a + b') + [x]);
        { GatherSnoc(o, a + b', x); }
        Gather(o, a + b') + NodesAt(o, x);
        { GatherAppend(o, a, b'); }
        Gather(o, a) + Gather(o, b') + NodesAt(o, x);
        { assert b == b' + [x]; GatherSnoc(o, b', x); }
        Gather(o, a) + Gather(o, b);
      }
    }
  }

  /** The number of products loaded is the sum of the pages' edge counts. */
  lemma {:induction false} GatherLength(o: PageQuery -> Fetched, cs: seq<Cursor>)
    ensures |Gather(o, cs)| == EdgeCount(o, cs)
    decreases |cs|
  {
    if cs != [] {
      GatherLength(o, cs[..|cs| - 1]);
    }
  }

  // ---------------------------------------------------------------------
  // The page's cart handling.

  /** `{ action: "create" }`. */
  const CreateRequest := CartApi.Body(Str("create"), Undefined, Undefined, Undefined, Undefined)

  /** `{ action: "add", cartId, merchandiseId, quantity: 1 }`. */
  function AddRequest(cartId: JsVal, merchandiseId: string): CartApi.Body
  {
    CartApi.Body(Str("add"), cartId, Str(merchandiseId), Undefined, Num(1))
  }

  /** The cart restored from storage: `{ id: saved }`. */
  function Restored(saved: string): Cart
  {
    Cart(Some(saved), None, None, [])
  }

  /** Whether `create` gave a reply whose `id` can be read (not a rejection,
      not `null`). */
  predicate CreateAnswered(api: CartApi.Body -> Reply)
  {
    api(CreateRequest).Replied? && !api(CreateRequest).json.JNull?
  }

  /** `openCheckout`: the URL to navigate to, or None to do nothing. */
  function OpenCheckout(cart: Json): (url: Option<string>)
    ensures url.Some? <==> cart.JCart? && Present(cart.cart.checkoutUrl)
    ensures url.Some? ==> url == cart.cart.checkoutUrl
  {
    if cart.JCart? && Present(cart.cart.checkoutUrl) then cart.cart.checkoutUrl else None
  }

  /** The state of the catalog page that its handlers change. */
  class CatalogPage {
    var products: seq<Product>
    var cart: Json
    var loading: bool
    /** The `localStorage` entry "cartId". */
    var storedCartId: Option<string>
    /** The requests sent to the cart route, in order. */
    ghost var requests: seq<CartApi.Body>

    constructor (stored: Option<string>)
      ensures products == [] && cart == JNull && !loading
      ensures storedCartId == stored && requests == []
    {
      products, cart, loading := [], JNull, false;
      storedCartId, requests := stored, [];
    }

    /** The mount effect: load every product, then restore `{ id }` from
        storage when an id is stored. A rejected page request ends the
        effect before either is set. */
    method Mount(o: PageQuery -> Fetched) returns (ok: bool)
      modifies this
      ensures loading == old(loading) && storedCartId == old(storedCartId) && requests == old(requests)
      ensures ok <==> Loaded(o, Walk(o, None, MaxRequests)).Some?
      ensures ok ==> products == Loaded(o, Walk(o, None, MaxRequests)).value
      ensures ok && Present(storedCartId) ==> cart == JCart(Restored(storedCartId.value))
      ensures !(ok && Present(storedCartId)) ==> cart == old(cart)
      ensures !ok ==> products == old(products)
    {
      var list, sent := FetchAllProducts(o);
      if list.None? {
        return false;
      }
      products := list.value;
      if Present(storedCartId) {
        cart := JCart(Restored(storedCartId.value));
      }
      ok := true;
    }

    /** `ensureCart`: the known cart id, or a new cart whose id is stored
        and whose reply becomes the cart. None is a thrown error: a
        rejected request, or reading `id` of a `null` reply. */
    method EnsureCart(api: CartApi.Body -> Reply) returns (id: Option<JsVal>)
      modifies this
      ensures products == old(products) && loading == old(loading)
      ensures HasCartId(old(cart)) ==>
                id == Some(IdOf(old(cart))) && cart == old(cart) &&
                storedCartId == old(storedCartId) && requests == old(requests)
      ensures !HasCartId(old(cart)) ==> requests == old(requests) + [CreateRequest]
      ensures !HasCartId(old(cart)) && CreateAnswered(api) ==>
                var j := api(CreateRequest).json;
                id == Some(IdOf(j)) && cart == j && storedCartId == Some(StoredForm(IdField(j)))
      ensures !HasCartId(old(cart)) && !CreateAnswered(api) ==>
                id == None && cart == old(cart) && storedCartId == old(storedCartId)
    {
      if HasCartId(cart) {
        return Some(IdOf(cart));
      }
      requests := requests + [CreateRequest];
      var reply := api(CreateRequest);
      if reply.Failed? || reply.json.JNull? {
        return None;
      }
      var c := reply.json;
      storedCartId := Some(StoredForm(IdField(c)));
      cart := c;
      id := Some(IdOf(c));
    }

    /** `addToCart`: make sure a cart exists, add one unit of the variant,
        and show the reply; `loading` is cleared on every path. */
    method AddToCart(merchandiseId: string, api: CartApi.Body -> Reply) returns (ok: bool)
      modifies this
      ensures !loading && products == old(products)
      ensures HasCartId(old(cart)) ==>
                var add := AddRequest(IdOf(old(cart)), merchandiseId);
                requests == old(requests) + [add] && storedCartId == old(storedCartId) &&
                (ok <==> api(add).Replied?) &&
                cart == (if ok then api(add).json else old(cart))
      ensures !HasCartId(old(cart)) && CreateAnswered(api) ==>
                var created := api(CreateRequest).json;
                var add := AddRequest(IdOf(created), merchandiseId);
                requests == old(requests) + [CreateRequest, add] &&
                storedCartId == Some(StoredForm(IdField(created))) &&
                (ok <==> api(add).Replied?) &&
                cart == (if ok then api(add).json else created)
      ensures !HasCartId(old(cart)) && !CreateAnswered(api) ==>
                requests == old(requests) + [CreateRequest] && !ok &&
                cart == old(cart) && storedCartId == old(storedCartId)
    {
      loading := true;
      var id := EnsureCart(api);
      if id.None? {
        loading := false;
        return false;
      }
      var add := AddRequest(id.value, merchandiseId);
      requests := requests + [add];
      var reply := api(add);
      if reply.Failed? {
        loading := false;
        return false;
      }
      cart := reply.json;
      loading := false;
      ok := true;
    }
  }

  /** As written, a `create` that the route answers with an error (the
      Storefront call threw) leaves the text "undefined" stored as the cart
      id, and the `add` that follows carries no cart id, so the route
      refuses it without calling the Storefront API. */
  lemma FailedCreateStoresUndefined(up: CartApi.Call -> CartApi.UpstreamResult, merchandiseId: string)
    requires up(CartApi.Call(CartApi.CartCreate, true, CartApi.CreateVars([]))).Err?
    ensures var created := CartApi.Handle(CartApi.Request("POST", Some(CreateRequest)), up).body;
            StoredForm(IdField(created)) == "undefined" &&
            CartApi.Handle(CartApi.Request("POST", Some(AddRequest(IdOf(created), merchandiseId))), up) ==
              CartApi.Outcome(CartApi.NoCacheHeaders, 400, JError("Missing cartId or merchandiseId"), [])
  {
  }

  /** The text "undefined" that a failed `create` stores is a truthy id:
      restored on the next visit, it reads as a cart with that id. */
  lemma UndefinedSticks()
    ensures Present(Some(StoredForm(None)))
    ensures HasCartId(JCart(Restored(StoredForm(None))))
    ensures IdOf(JCart(Restored(StoredForm(None)))) == Str("undefined")
  {
  }

  /** A visit after a failed `create`: the page mounts with "undefined"
      stored, and once the products load, the first `ensureCart` of the
      visit answers with that id and does not ask the route for a new
      cart, whatever the route would answer. */
  method ReloadAfterFailedCreate(o: PageQuery -> Fetched, api: CartApi.Body -> Reply)
    returns (loaded: bool, id: Option<JsVal>, ghost sent: seq<CartApi.Body>)
    ensures loaded <==> Loaded(o, Walk(o, None, MaxRequests)).Some?
    ensures loaded ==> id == Some(Str("undefined")) && sent == []
  {
    var page := new CatalogPage(Some(StoredForm(None)));
    loaded := page.Mount(o);
    if !loaded {
      return loaded, None, page.requests;
    }
    UndefinedSticks();
    id := page.EnsureCart(api);
    sent := page.requests;
  }
}
