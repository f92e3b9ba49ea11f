# Storefront client logic, modelled in Dafny

This project models the logic of a client-rendered storefront: the cart page
controller, the cart row's quantity buttons, the toast notification queue,
the auth session store, the catalog payload normaliser, the API client's
bearer-token interceptor and the product card's add-to-cart action.

Every network call is an `Outcome<T>` parameter (`Resolved(data)` or
`Rejected`), except the product card's POST: `ProductCard.AddToCart` takes a
`PostResult`, either `Responded(status)` or `Threw(RequestError)`, because
its 200/201 check needs the status and its message chain needs the error's
messages. The API client keeps axios's default status check, so `Responded`
is a resolved 2xx response; every other status arrives as `Threw`. What a
class's handler does to the outside world (API requests, toasts, navigation)
is appended, in order, to its `effects` or `requests` field; `AddToCart`,
which has no state of its own, returns its effects as a new sequence. The
contracts describe these sequences exactly. `localStorage`'s "token" entry
is an `Option<string>`: a field of `AuthSession`, and the parameter
`storedToken` of `Api.Intercept`. The clock (`Date.now()`) is a supplied id,
and each `setTimeout` is a pending timer that an explicit `ExpireNext` event
fires. React state becomes class fields, and a hook's setter becomes an
assignment.

Files, one module each:

- `base.dfy` (`Base`): `Option` and `Outcome`.
- `js.dfy` (`Js`): a JSON value whose leaves are the endpoint's records (`Json<R>`), JavaScript truthiness, the property read `v.key` (a TypeError on null or undefined), numbers with NaN, and prices as the API sends them (number or string).
- `api.dfy` (`Api`): the request vocabulary (verbs, paths, bodies) and the request interceptor of `lib/api.ts`.
- `toasts.dfy` (`Toasts`): toasts, the remove-by-id filter and its lemmas, and the `ToastQueue` class.
- `effects.dfy` (`Effects`): the effect log entries.
- `auth.dfy` (`Auth`): users, the `/auth/me` user selection and the `AuthSession` class.
- `catalog.dfy` (`Catalog`): the products payload normaliser and the `HomePage` class.
- `cart_item.dfy` (`CartItem`): cart lines and the row's button arguments and price display.
- `product_card.dfy` (`ProductCard`): status classification, the failure message chain and `AddToCart`.
- `cart.dfy` (`Cart`): cart response shapes, the derived totals with reference sums, and the `CartPage` class.

Numeric conversions of strings (`parseFloat`, `Number`) are floating-point
parsers. They are passed in as functions `string -> Number`, and each call
site receives its own, because the two parsers differ.

Three behaviours of the code that a reader might not expect:

- A failed cart load does not empty the cart. The earlier cart, address list and selection stay as they were, and only an error toast is posted.
- The address form's required-field check is done by the browser's `required` attributes on line one, city, pincode and country (`SubmitAddressForm`). `handleAddAddress` itself posts whatever the form holds.
- After a successful quantity change or removal, the success toast is posted before the reload completes, because the reload is not awaited. The reload's own error toast, if any, comes after it.

## Model

| member | source | states |
|---|---|---|
| `Api.TokenTruthy` | lib/api.ts:17 | a stored token counts exactly when it is present and non-empty |
| `Api.WithAuthorization` | lib/api.ts:17-18 | the bearer header is `"Bearer " + token` exactly when a non-empty token is stored; a missing or empty token adds no header and leaves the headers unchanged; every other entry keeps its value |
| `Api.Intercept` | lib/api.ts:13-22 | without a window the config comes back unchanged; with one, null headers become an empty map and the bearer header is then injected |
| `Toasts.Without` | context/ToastContext.tsx:36 | removing an id keeps exactly the toasts with other ids (none with that id survives, none with another id is lost) |
| `Toasts.WithoutAppend` | context/ToastContext.tsx:36 | removal distributes over concatenation, so the survivors keep their order |
| `Toasts.WithoutAbsent` | context/ToastContext.tsx:67 | removing an id no toast carries leaves the list unchanged |
| `Toasts.WithoutIdempotent` | context/ToastContext.tsx:67 | removing the same id twice (timer after dismiss) equals removing it once |
| `Toasts.WithoutCommutes` | context/ToastContext.tsx:35-37 | removals of two ids commute: one toast's timer or dismissal does not disturb another's |
| `Toasts.PostThenRemove` | context/ToastContext.tsx:31-37 | posting a toast with a fresh id and then firing its timer gives back the earlier list |
| `Toasts.SharedIdRemovedTogether` | context/ToastContext.tsx:31-36 | two toasts posted with the same `Date.now()` id are removed together by either one's timer or close button |
| `Toasts.ExpireAllEmpties` | context/ToastContext.tsx:34-37 | when every toast has a pending timer, no toast remains after those timers fire |
| `Toasts.Label` | context/ToastContext.tsx:65 | the heading is "ERROR" exactly for an error toast and "SYSTEM_MSG" otherwise |
| `Toasts.ToastQueue.constructor` | context/ToastContext.tsx:28 | the queue starts with no toast and no timer |
| `Toasts.ToastQueue.ShowToast` | context/ToastContext.tsx:30-38 | exactly one toast is appended, with id `now`, the given type or "info"; one timer for that id is scheduled; earlier toasts are untouched |
| `Toasts.ToastQueue.ExpireNext` | context/ToastContext.tsx:35-37 | the oldest timer fires and removes every toast with its own id and no other toast |
| `Toasts.ToastQueue.Dismiss` | context/ToastContext.tsx:67 | closing a toast removes every toast with its id; the timers are kept |
| `Toasts.ToastQueue.AllExpire` | context/ToastContext.tsx:34-37 | the queue invariant guarantees that every shown toast is gone once the pending timers have fired |
| `Auth.MeUser` | context/AuthContext.tsx:30 | the user is the body's truthy `user` field, else the body; it is truthy exactly when the body is |
| `Auth.MeShapes` | context/AuthContext.tsx:30 | a bare user and a `{user}` wrapper give the same user |
| `Auth.AuthSession.constructor` | context/AuthContext.tsx:24-25 | the store starts with no user, loading, and the stored token |
| `Auth.AuthSession.FetchMe` | context/AuthContext.tsx:27-39 | one `/auth/me` call; on success the user comes from the body; on failure the token is removed and the user cleared; loading ends either way |
| `Auth.AuthSession.Init` | context/AuthContext.tsx:41-50 | outside a window nothing happens; without a token no request is made, loading ends and the user stays null; with one the session is validated |
| `Auth.AuthSession.Login` | context/AuthContext.tsx:52-56 | on success the returned token is stored and the user set; on failure neither changes |
| `Auth.AuthSession.Signup` | context/AuthContext.tsx:58-62 | as login, on the signup endpoint with the signup body |
| `Auth.AuthSession.Logout` | context/AuthContext.tsx:64-67 | token and user are cleared and no request is made |
| `Catalog.Payload` | app/page.tsx:23 | a body with truthy `data` is unwrapped to `data`; any other body is used as it is |
| `Catalog.WithNumericPrices` | app/page.tsx:25 | same length and order; each product keeps id, name, description and tags, and only its price is converted |
| `Catalog.Normalize` | app/page.tsx:24-26 | an array payload is converted element-wise; any other payload gives the empty list |
| `Catalog.CatalogProducts` | app/page.tsx:23-26 | the shown list is the converted array of an array body or of a `{data}` wrapper holding an array; any other body shows nothing |
| `Catalog.ResponseShapes` | app/page.tsx:22-26 | `{count, data}` and a bare array give the same products; a body that is neither gives none |
| `Catalog.HomePage.constructor` | app/page.tsx:16-17 | no products and loading at first |
| `Catalog.HomePage.Load` | app/page.tsx:19-30 | one `GET /products`; on success the normalised list is shown, on failure the list is kept; loading ends either way |
| `CartItem.Decrement` | components/CartItem.tsx:32 | keyed by the cart-line id; the request is never below 1, is `q-1` for `q >= 2` and exactly 1 at `q <= 1` |
| `CartItem.Increment` | components/CartItem.tsx:39 | keyed by the cart-line id; the request is exactly `q+1` |
| `CartItem.RemoveTarget` | components/CartItem.tsx:48 | removal is keyed by the cart-line id |
| `CartItem.DisplayPrice` | components/CartItem.tsx:27 | a falsy price shows as 0; a numeric price shows as itself |
| `CartItem.StepRoundTrip` | components/CartItem.tsx:32-39 | decrement undoes increment for every positive quantity, and 1 is a fixed point of decrement |
| `ProductCard.FailureMessage` | components/ProductCard.tsx:45-46 | the prefix "FAILED_TO_ADD: " followed by the first non-empty of the response message, the error message and "Unknown Error" |
| `ProductCard.Added` | components/ProductCard.tsx:37 | the success statuses are exactly 200 and 201, both within 2xx |
| `ProductCard.UnexpectedStatusText` | components/ProductCard.tsx:37-46 | a resolved 2xx response other than 200 or 201 (204, say) is reported as "FAILED_TO_ADD: Unexpected status code"; a non-2xx status reaches the catch as an axios error instead |
| `ProductCard.AddToCart` | components/ProductCard.tsx:25-48 | without a user only the login toast is posted and no request is made; otherwise `{productId, quantity: 1}` is posted and exactly one toast follows, a success only for status 200 or 201; a resolved response is 2xx, so another 2xx gets the unexpected-status toast and a thrown error its own message chain |
| `Cart.CartArray` | app/cart/page.tsx:53 | an array body is used as it is; otherwise `items` if truthy, else the body; reading `items` of null or undefined throws |
| `Cart.CartLines` | app/cart/page.tsx:53-56 | the totals can be reduced exactly when the body is an array or a wrapper whose `items` is an array, and they run over those lines |
| `Cart.LineAmount` | app/cart/page.tsx:57 | a line's amount is a number exactly when its price converts, and is then price times quantity |
| `Cart.TotalPrice` | app/cart/page.tsx:56-58 | the left fold of line amounts from 0 is a number exactly when every line's price converts, and NaN otherwise |
| `Cart.TotalQuantity` | app/cart/page.tsx:60-62 | the left fold of quantities from 0; with every quantity at least 1 it is at least the number of lines |
| `Cart.TotalPriceIsSubtotal` | app/cart/page.tsx:56-58 | `totalPrice` is the sum of price times quantity when every price converts, and NaN otherwise |
| `Cart.TotalQuantityIsSum` | app/cart/page.tsx:60-62 | `totalQuantity` is the sum of the quantities |
| `Cart.TotalsExamples` | app/cart/page.tsx:56-62 | an empty cart totals 0 and 0; 2 at 10.00 plus 1 at 5.00 totals 25.00 for 3 units |
| `Cart.LoadOf` | app/cart/page.tsx:46-78 | a load succeeds exactly when both requests resolve and the cart body can be reduced, and then carries those lines and that address list |
| `Cart.LoadNotices` | app/cart/page.tsx:78-80 | a failed load posts exactly one error toast; a successful one posts none |
| `Cart.HasSelection` | app/cart/page.tsx:135 | a selection counts exactly when an id is held and it is not 0 |
| `Cart.Submittable` | app/cart/page.tsx:228-238 | the form can be submitted only when line one, city, pincode and country are all non-empty; the empty form cannot |
| `Cart.SetDefaultAddress` | app/cart/page.tsx:142-144 | the checkout's first call is a POST to `/users/update` whose body sets `defaultShippingAddressId` to the selected id; it is never the order request |
| `Cart.CartPage.CartTotals` | app/cart/page.tsx:56-71 | the page's stored totals are the sum of the quantities and, when every price converts, the sum of price times quantity, else NaN |
| `Cart.CartPage.constructor` | app/cart/page.tsx:30-43 | no cart, loading, no addresses or selection, the form hidden and empty |
| `Cart.CartPage.IssueLoad` | app/cart/page.tsx:47-50 | the cart and address requests are issued |
| `Cart.CartPage.CompleteLoad` | app/cart/page.tsx:52-83 | on success the cart and totals are set and the addresses replaced, with the first address selected when there is one and the selection kept otherwise; on failure an error toast and no state change; loading ends either way; totals stay consistent |
| `Cart.CartPage.FetchData` | app/cart/page.tsx:45-84 | both requests are issued, then the load completes as above |
| `Cart.CartPage.OnUserChange` | app/cart/page.tsx:86-90 | the page loads only when a user is logged in |
| `Cart.CartPage.UpdateQuantity` | app/cart/page.tsx:92-100 | the PATCH on the cart-line id comes first; the reload and the success toast follow only on success; on failure there is one error toast and no reload |
| `Cart.CartPage.RemoveItem` | app/cart/page.tsx:102-110 | the DELETE on the cart-line id comes first; the reload and the info toast follow only on success; on failure there is one error toast and no reload |
| `Cart.CartPage.SelectAddress` | app/cart/page.tsx:203 | the chosen id is selected; the placeholder's 0 counts as no selection |
| `Cart.CartPage.EditAddressForm` | app/cart/page.tsx:228-238 | the form holds the edited fields |
| `Cart.CartPage.SetShowAddAddress` | app/cart/page.tsx:219-242 | the add-address form is shown or hidden |
| `Cart.CartPage.HandleAddAddress` | app/cart/page.tsx:112-132 | the form is posted; on success the created address is appended and selected, and the form is hidden and all five fields reset; on failure an error toast and no change |
| `Cart.CartPage.SubmitAddressForm` | app/cart/page.tsx:225-238 | a form with an empty required field is not submitted; otherwise `handleAddAddress` runs |
| `Cart.CartPage.HandleCheckout` | app/cart/page.tsx:134-156 | without a selection (none, or 0) an error toast and no request; otherwise `/users/update` with the selected id strictly before `/orders`; the cart is cleared only when both succeed |

## Left out

- Rendering, styling and the view branches of every page and component: they are presentation only. The exception is the few event handlers that write state the core reads (address picker, form inputs, form toggle).
- components/Navbar.tsx, app/login/page.tsx, app/signup/page.tsx, app/orders/page.tsx and app/products/[id]/page.tsx are not part of this model. They display fetched data or forward to `login` and `signup`.
- next.config.ts is not part of this model: it is build and rewrite configuration.
- axios, the Next router, React's scheduling and `localStorage` are foreign code. They appear as `Outcome` parameters, logged effects and plain fields. The default `Content-Type` header set when the client is created is not modelled.
- `Api.Intercept`: axios normalises header names case-insensitively, which is not modelled; headers are a plain map from strings to strings.
- Concurrency: `Promise.all` and the un-awaited reloads run as sequential steps. The model does not capture the interleaving of a late reload with later user actions, or `handleAddAddress` appending to an address list captured before a concurrent reload.
- Logging: the `console.error` calls (context/AuthContext.tsx:33, app/cart/page.tsx:79 and 153, components/ProductCard.tsx:43) and the `console.log` of app/cart/page.tsx:70 write only to the developer console and are not modelled.
- `Auth.AuthSession.Init`: the `fetchMe()` that is started without `await` (context/AuthContext.tsx:45) runs to completion inside `Init`. A `login` that finishes before a failing `fetchMe` would have its token and user cleared by that request's `catch`; the model does not capture this interleaving.
- Real time: the 3000 ms delay and `Date.now()` ids are replaced by the `ExpireNext` event and a supplied id. Timers fire in the order they were scheduled, because every delay is the same.
- Floating point: prices and totals are exact reals, with NaN kept as a separate value. Infinities, rounding and `toFixed(2)` are not modelled. The string parsers of `parseFloat` and `Number` are parameters.
- JSON shapes: records (cart lines, products, users, addresses) have the fields the code reads, with numeric ids and quantities. A product price is a number or a string. The address endpoint returns an array. The login and signup responses carry `token` and `user`. Malformed records (a missing `product`, a string quantity) are outside the model.
- `ProductCard.FailureMessage`: a response `message` that is present but not a string is not modelled (the template literal would stringify it).
- Cart totals are a left fold over reals, which is exact. The floating-point order of additions in `reduce` is not modelled.
- The un-handled rejection of the catalog request when it fails (app/page.tsx:20-29 has no `catch`) is modelled only by its effect: the products stay as they were and loading ends.
- Debounced search, tag filtering and pagination are not implemented in the modelled files. The catalog issues a single `GET /products` with no parameters.
