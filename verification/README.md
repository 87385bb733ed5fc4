# Telegram Mini App storefront — cart and catalog logic in Dafny

This project models the decision logic of a Telegram Mini App shop that is
backed by the Shopify Storefront GraphQL API. It covers three parts:

- **The cart route** `POST /api/cart` (`CartApi`, in `cart_api.dfy`). The
  route is a total function from a request (HTTP method plus the body
  fields `action`, `cartId`, `merchandiseId`, `lineId`, `quantity`) to an
  `Outcome`. The outcome holds the headers set, the status, the JSON body
  and the Storefront calls made. The Storefront API is an oracle from a
  `Call` (operation, whether a query document was sent, variables) to
  `Ok(cart, userErrors)` or `Err(message)`. JavaScript truthiness (`!cartId`,
  `quantity || 1`) and `typeof quantity !== "number"` are written out over
  `JsVal`, a parsed JSON field (`Values`, in `values.dfy`).
- **The catalog page** (`Catalog`, in `catalog.dfy`). `FetchAllProducts` is
  the cursor pagination loop. It is a method with a loop, proved against
  `Walk`, the cursors it requests, and `Loaded`/`Gather`, the in-order
  concatenation of those pages' products. The page oracle maps
  `{ first, after }` to a rejection or a reply whose `products` connection
  may be missing. `CatalogPage` is a class over `products`, `cart`,
  `loading` and the stored cart id. Its methods are the mount effect,
  `ensureCart` and `addToCart`. `OpenCheckout` is the `openCheckout`
  decision.
- **The cart page** (`CartView`, in `cart_view.dfy`). It covers the
  quantity clamp, the checkout decision, and `CartPage`, a class over
  `cart`, `loadingId` and the stored cart id. Its methods are the mount
  effect, `changeQty` and `removeLine`. Both handlers share the
  mutate-then-re-fetch sequence, whose specification is `MutateThenRefetch`.

The pages talk to the cart route through an oracle `Body -> Reply`. A
`Reply` is either the parsed JSON of the answer, whatever its status, or a
rejection. The pages never look at the HTTP status, so an error answer
`{ error }` flows into their state exactly as it does in the source.
Three members follow a failure end to end:

- `FailedCreateStoresUndefined` calls the route model directly: a failed
  `create` stores the text "undefined" as the cart id, and the `add` that
  follows is refused for lack of a cart id.
- `ReloadAfterFailedCreate`: on the next visit that text is restored as a
  truthy id, so the first `ensureCart` of that visit returns "undefined"
  without a `create`. By `AddToCart`'s contract, the `add` then goes out
  with the cart id "undefined".
- `FailedUpdateShowsMissingCartId` plugs the route model in as the page's
  oracle (`Served`): after a failed update, the page shows the route's own
  "Missing cartId" refusal as its cart.

The route reads `QUERIES.CART_QUERY`, `QUERIES.CART_LINES_UPDATE` and
`QUERIES.CART_LINES_REMOVE`, but lib/shopify.js:23-57 defines only
`PRODUCTS`, `CART_CREATE` and `CART_LINES_ADD`. So `get`, `update` and
`remove` reach the Storefront API without a query document. The model keeps
this as the `document` flag of a `Call`. What the Storefront API answers to
such a call is left to the oracle.

Further behaviour of the code that the model keeps:

- The three no-cache headers are set before any check, so 405 and 400
  answers carry them too (pages/api/cart.js:4-6).
- Each 400 carries a fixed message per action (pages/api/cart.js:19, 27,
  34, 43).
- A numeric 0 quantity passes `update` validation (pages/api/cart.js:34).
- The cart page re-fetches only on mount and after each mutation
  (pages/cart.js:16-55).

## Model

| member | source | states |
|---|---|---|
| CartApi.Decide | pages/api/cart.js:8-48 | A non-POST request is refused with 405 and nothing else is. Only a POST with one of the five known actions can reach the Storefront API. A POST with any other action gets 400 "Unknown action". |
| CartApi.Handle | pages/api/cart.js:3-53 | The three no-cache headers are on every outcome. A non-POST request gives 405 "Method not allowed" with no call. At most one call is made, and none exactly when the status is 400 or 405. 200 is sent exactly when the call returned a result, with only its `cart` as the body. A thrown error gives 500 with its message. Every status other than 200 carries `{ error }`. |
| CartApi.SendsExactlyWhenValid | pages/api/cart.js:17-46 | A request reaches the Storefront API if and only if it is a POST, its action is known and its body passes every check that action requires. The checks come from an independent table (`Required`). |
| CartApi.CreateSendsEmptyLines | pages/api/cart.js:12-15 | `create` makes exactly one CartCreate call with `lines = []`. On success the answer is that call's `cart`. |
| CartApi.UserErrorsDropped | pages/api/cart.js:14 | Two upstreams that differ only in `userErrors` give identical outcomes, so `userErrors` never reach the client. |
| CartApi.AddNeedsIds | pages/api/cart.js:19 | `add` with a falsy `cartId` or `merchandiseId` gets 400 "Missing cartId or merchandiseId" and makes no call. |
| CartApi.AddSendsOneLine | pages/api/cart.js:17-22 | A valid `add` sends one CartLinesAdd call with the given cart id and a single line for the given variant. The line's quantity is the given one when truthy, and 1 otherwise. |
| CartApi.GetSendsId | pages/api/cart.js:26-29 | A `get` with a truthy `cartId` makes exactly one CartQuery call with `{ id: cartId }`. |
| CartApi.GetNeedsCartId | pages/api/cart.js:25-27 | `get` with a falsy `cartId` gets 400 "Missing cartId" and makes no call. |
| CartApi.UpdateValidation | pages/api/cart.js:32-39 | `update` gets 400 "Missing cartId/lineId/quantity" with no call if and only if `cartId` or `lineId` is falsy or `quantity` is not a number. Otherwise it sends exactly one line `{ id: lineId, quantity }`. |
| CartApi.UpdateAcceptsZero | pages/api/cart.js:34-36 | A numeric quantity 0 with non-empty ids is not refused with 400. |
| CartApi.RemoveNeedsIds | pages/api/cart.js:42-43 | `remove` with a falsy `cartId` or `lineId` gets 400 "Missing cartId/lineId" and makes no call. |
| CartApi.RemoveSendsOneId | pages/api/cart.js:41-46 | A valid `remove` sends exactly one CartLinesRemove call with `lineIds = [lineId]`. |
| CartApi.OnlyCreateAndAddCarryADocument | pages/api/cart.js:13-44 | A call carries a query document if and only if the action is `create` or `add`. The other three read query names that are not defined. |
| CartApi.UpstreamErrorIs500 | pages/api/cart.js:49-51 | When the call throws, the status is 500 and the body is `{ error: message }`. |
| Catalog.FetchAllProducts | pages/index.js:33-52 | The requests made are exactly `Walk(None, 100)`. The result is the concatenation of those pages' products, or a failure when a request was rejected. |
| Catalog.WalkBounds | pages/index.js:35-39 | A walk makes at most `budget` requests. When the budget is positive it makes at least one, and the first uses the starting cursor. |
| Catalog.WalkChains | pages/index.js:45-46 | Each request after the first uses the previous page's `endCursor`, and is made only because that page had `hasNextPage`. |
| Catalog.WalkStops | pages/index.js:45-49 | A walk ends at its budget or right after the first page that has no next page (or whose request was rejected). |
| Catalog.RequestsOfALoad | pages/index.js:33-52 | A load makes 1 to 100 requests, the first with `after = null`, each later one following the previous `endCursor`, stopping at the first page without a next page unless the cap of 100 is reached. |
| Catalog.MissingConnectionIsLastPage | pages/index.js:41-49 | A reply without `products` is the last request and adds no products. |
| Catalog.GatherAppend | pages/index.js:43 | The products of two runs of pages are those of the first run followed by those of the second, so order is kept across page boundaries. |
| Catalog.GatherLength | pages/index.js:43 | The number of products gathered is the sum of the pages' edge counts. |
| Catalog.OpenCheckout | pages/index.js:96-100 | Navigation happens if and only if the cart has a truthy `checkoutUrl`, and it goes to that URL. Otherwise nothing happens. |
| Catalog.CatalogPage.constructor | pages/index.js:55-57 | A new page has no products, a `null` cart and `loading` false. |
| Catalog.CatalogPage.Mount | pages/index.js:59-69 | On success the products are the full load. When a non-empty id is stored, the cart becomes `{ id }`; otherwise the cart is unchanged. A rejected load sets neither. |
| Catalog.CatalogPage.EnsureCart | pages/index.js:71-78 | A cart with a truthy id returns that id and sends no request. Otherwise exactly one `create` is sent. A readable reply is stored under "cartId" (as "undefined" when it has no id), becomes the cart, and its id is returned. A rejected or `null` reply throws and changes nothing. |
| Catalog.CatalogPage.AddToCart | pages/index.js:80-94 | The requests are an optional `create` followed by one `add` of quantity 1 for the chosen variant, carrying the id that `ensureCart` gave. The cart becomes the `add` reply when one came. `loading` is false afterwards on every path. |
| Catalog.FailedCreateStoresUndefined | pages/index.js:73-77 | When the route answers `create` with an error, the id stored is "undefined", and the following `add` is refused with 400 without any Storefront call. |
| CartView.Clamp | pages/cart.js:33 | The clamped quantity lies in [1, 999]. Values already in [1, 999] are unchanged. NaN and 0 become 1, values below 1 become 1, and values above 999 become 999. |
| CartView.ClampIdempotent | pages/cart.js:33 | Clamping twice is the same as clamping once. |
| CartView.MutateThenRefetch | pages/cart.js:35-38 | The mutation is sent first. A `get` follows exactly when the mutation answered with something other than `null`, and that `get` uses the id from the answer. A latest cart exists exactly when the `get` was answered, and it is that answer. |
| CartView.CheckoutAction | pages/cart.js:74-84 | The action is "Your cart is empty" if and only if the cart is `null` or lacks a truthy `totalQuantity`. Otherwise it is "Checkout link is not ready yet" if and only if `checkoutUrl` is missing or empty. Otherwise it is navigation to `checkoutUrl`. |
| CartView.CartPage.constructor | pages/cart.js:13-14 | A new page has a `null` cart and no line loading. |
| CartView.CartPage.Mount | pages/cart.js:16-23 | With no stored id (or an empty one), no request is made and the cart stays as it was. Otherwise one `get` for the stored id is sent, and its answer becomes the cart. |
| CartView.CartPage.ChangeQty | pages/cart.js:30-42 | Without a cart id there is no request and no change of state. Otherwise the requests are an update with the clamped quantity followed by the re-fetch. The cart becomes the re-fetched cart when there is one and is otherwise unchanged. `loadingId` is None afterwards on every path that sends a request. |
| CartView.CartPage.RemoveLine | pages/cart.js:44-55 | Without a cart id there is no request and no change of state. Otherwise the requests are a remove of the line followed by the re-fetch. The cart becomes the re-fetched cart when there is one. `loadingId` is None afterwards on every path that sends a request. |
| CartView.CartPage.Mutate | pages/cart.js:35-38 | The requests sent and the new cart are exactly those of `MutateThenRefetch`. |
| CartView.UpdateReachesStorefront | pages/cart.js:33-36 | Every update the cart page sends with non-empty ids passes the route's validation. The route forwards exactly one line, with a quantity in [1, 999]. |
| CartView.FailedUpdateShowsMissingCartId | pages/cart.js:36-38 | When the Storefront call for an update throws, the page re-fetches without a cart id. The route refuses that `get`, and the refusal `{ error: "Missing cartId" }` becomes the cart. |
| Catalog.UndefinedSticks | pages/index.js:66-67 | The text "undefined" stored after a failed `create` is truthy, so the mount restores `{ id: "undefined" }` and that cart counts as having an id. |
| Catalog.ReloadAfterFailedCreate | pages/index.js:59-78 | With "undefined" stored, a visit whose products load gets the id "undefined" from `ensureCart`, sends no `create` and sends nothing else, whatever the route would answer. |

## Left out

- `storefront` in lib/shopify.js (the HTTP call, the environment variables, and taking the first GraphQL error message) is not modelled. The `UpstreamResult` oracle stands for it. The GraphQL query texts are opaque.
- A Storefront answer that lacks the operation's root field (`cartCreate`, `cartLinesAdd`, ...) would make the route throw a `TypeError` and answer 500. The oracle always carries the root field, so this path is not modelled.
- pages/api/storefront.js, pages/_app.js and next.config.js are not part of this model. They are a pass-through proxy, Telegram SDK calls and framework configuration.
- Rendering, `notify` (Telegram popup or alert), `back()`, `console.error` and `window.location` are not modelled. Navigation is only the URL returned by `OpenCheckout` and `CheckoutAction`.
- Asynchronous interleaving is not modelled. Each handler runs as one atomic step, so two overlapping `changeQty` calls cannot race.
- CartView.CartPage.ChangeQty: the intermediate `loadingId = lineId` while requests are in flight is not observable in the final state, so only its clearing is stated. The same holds for `loading = true` in Catalog.CatalogPage.AddToCart.
- `Number()` on arbitrary strings and fractional numbers are not modelled. The clamp takes an optional integer, with None standing for NaN. JSON numbers are integers.
- `localStorage` is one optional string field per page. The two pages' copies are not linked.
- Product and cart contents beyond what the logic reads (titles, prices, images, costs) are carried or dropped, never interpreted.
