# Storefront core, modelled in Dafny

This project models the logic at the heart of a small Next.js storefront.
The storefront is a product catalogue backed by an upstream JSON service. It
has a Redux shopping cart and cookie-based authentication with automatic
token refresh. The model covers these parts:

- **Cart slice** (`cart_slice.dfy`): the cart state and its five reducers.
  `addItem` merges into an existing line. `removeItem` filters the product out.
  `updateQuantity` removes the line when the quantity is zero or less.
  `clearCart` and `loadCart` replace the state; `loadCart` takes the snapshot
  as it is. There is also the initial state read from a stored snapshot.
  - The store is a class whose methods change its fields in place. Each method
    is proved equal to a pure reducer `Reduce(state, action)`.
  - The lemmas about `Reduce` cover the counts and totals, at most one line per
    product, idempotence, and what each action does.
- **Cart line and product detail components** (`cart_item.dfy`,
  `product_details.dfy`): which cart action a button dispatches, with the
  `isUpdating`/`isAdding` flags.
  - A cart line's "−" at quantity 1 removes the line.
  - The product page's quantity selector is clamped to `[1, stock]`.
- **Route guard** (`middleware.ts`, `middleware.dfy`): redirects to `/login`
  or `/products`, decided from the path and the `accessToken` cookie. Route
  matching respects path segments.
- **Token store** (`auth.dfy`): the two HTTP-only cookies, modelled as a class
  over a cookie jar.
- **Auth routes** (`auth_routes.dfy`): login, refresh, current user and
  logout. Login, refresh and current user forward to the upstream service
  and map its reply to a status; logout only clears the cookies. Login and
  refresh store the tokens they receive in cookies. Login answers with the
  profile, which is the upstream reply minus exactly its two tokens. Refresh
  answers with a fixed message. The current-user route relays the upstream
  user data as it is.
- **Request pipeline** (`api_client.dfy`): the browser client's response
  interceptor.
  - A 401 on a request that has not been retried and is not to an auth
    endpoint triggers one `POST /api/auth/refresh` and one retry.
  - If the refresh fails, the browser is sent to `/login`.
- **Catalogue arithmetic**: these modules cover the page count and the
  five-button page window (`pagination.dfy`), and the page size, `skip`,
  "has next page" and "Showing x to y" on the listing page
  (`products_page.dfy`). `product_filters.dfy` covers the filter query
  rewrites and which buttons are highlighted. `products_route.dfy` and
  `search_route.dfy` build the upstream URLs and relay the replies.

These are shared:

- `Wrappers` holds `Option`.
- `Strings` holds JavaScript truthiness, `s || fallback`, `includes` and
  decimal `toString`/`parseInt`.
- `Http` holds the responses (statuses as in RFC 9110, sections 15.5.1,
  15.5.2 and 15.6.1), the upstream `fetch` outcome and the upstream base
  address.

Money is in whole cents. `fetch`, axios' transport, `JSON.parse`,
`encodeURIComponent` and the `DUMMYJSON_URL` environment variable are
parameters of the model. A `fetch` reply is `Threw` or
`Replied(status, body)`, where the body is `None` when `response.json()`
would throw.

Two behaviours of the code worth knowing, both modelled as written:

- The interceptor does not await the retried request inside its `try`. A
  retry that fails is therefore returned as it is: it does not redirect to
  `/login`, and only a failed refresh does (`ApiClient.AfterRefresh`).
- `GET /api/products` and `POST /api/auth/login` use the fixed address
  `https://dummyjson.com`. The search, refresh and current-user routes honour
  `DUMMYJSON_URL`.

## Model

| member | source | states |
|---|---|---|
| CartSlice.Find | src/store/cartSlice.ts:39-41 | `items.find` by product id: the index of the first line for the id, none exactly when no line has it |
| CartSlice.Without | src/store/cartSlice.ts:62-64 | the filter keeps no line for the id, invents no line and never grows |
| CartSlice.InitialCart | src/store/cartSlice.ts:12-31 | outside a browser, with no or an empty stored string, or on a parse failure, the empty cart; otherwise the parsed snapshot verbatim |
| CartSlice.CartStore.constructor | src/store/cartSlice.ts:33-35 | the slice starts in the given initial state |
| CartSlice.CartStore.AddItem | src/store/cartSlice.ts:38-58 | the in-place `addItem` reaches `Reduce(old, AddItem)` and leaves the totals consistent with the lines |
| CartSlice.CartStore.RemoveItem | src/store/cartSlice.ts:61-75 | the in-place `removeItem` reaches `Reduce(old, RemoveItem)` with consistent totals |
| CartSlice.CartStore.UpdateQuantity | src/store/cartSlice.ts:78-105 | reaches `Reduce(old, UpdateQuantity)`; consistent when the product had a line, the whole state untouched when it had none |
| CartSlice.CartStore.ClearCart | src/store/cartSlice.ts:108-112 | the state becomes the empty cart |
| CartSlice.CartStore.LoadCart | src/store/cartSlice.ts:115-119 | the state becomes the snapshot, totals not recomputed |
| CartSlice.CartStore.Dispatch | src/store/cartSlice.ts:123-124 | dispatching any exported action is the reducer `Reduce` |
| CartSlice.SumQuantityAfterUpdate | src/store/cartSlice.ts:50-53 | replacing one line changes the summed quantity by the difference of the two lines |
| CartSlice.SumTotalAfterUpdate | src/store/cartSlice.ts:54-57 | replacing one line changes the price-times-quantity total by the difference of the two lines |
| CartSlice.SumQuantityConcat | src/store/cartSlice.ts:50-53 | the quantity sum distributes over concatenation |
| CartSlice.AddExisting | src/store/cartSlice.ts:39-44 | adding a product that has a line adds the quantity to its first line and changes nothing else |
| CartSlice.AddNew | src/store/cartSlice.ts:43-47 | adding a product with no line appends the payload unchanged |
| CartSlice.AddItemTotals | src/store/cartSlice.ts:38-58 | after `addItem` the count grows by the payload quantity and the total by that quantity times the unit price of the receiving line |
| CartSlice.AddKeepsPositive | src/store/cartSlice.ts:38-58 | adding a positive quantity to a cart whose lines are all positive leaves every line positive |
| CartSlice.LineOf | src/store/cartSlice.ts:39-47 | the line receiving an added payload exists and is for the payload's product |
| CartSlice.AddKeepsUniqueIds | src/store/cartSlice.ts:39-47 | `addItem` keeps at most one line per product |
| CartSlice.AddAllCounts | src/store/cartSlice.ts:38-58 | after any non-empty run of `addItem` the state is consistent and the count is the old lines' count plus every added quantity |
| CartSlice.AddSameProductTwice | src/store/cartSlice.ts:38-58 | adding the same product twice (2 then 1 at 10 cents) gives one line of 3 totalling 30 |
| CartSlice.WithoutConcat | src/store/cartSlice.ts:62-64 | the filter keeps the order of the kept lines |
| CartSlice.WithoutSingle | src/store/cartSlice.ts:62-64 | a single line is kept exactly when it is for another product |
| CartSlice.WithoutAbsent | src/store/cartSlice.ts:62-64 | removing a product with no line leaves the lines unchanged |
| CartSlice.RemoveIdempotent | src/store/cartSlice.ts:61-75 | `removeItem` twice equals `removeItem` once |
| CartSlice.RemoveDropsProduct | src/store/cartSlice.ts:61-75 | after `removeItem(x)` no line is for x and the totals match the lines |
| CartSlice.WithoutKeepsUniqueIds | src/store/cartSlice.ts:62-64 | filtering keeps at most one line per product |
| CartSlice.UpdateNonPositiveRemoves | src/store/cartSlice.ts:86-90 | a quantity of zero or less on a present product is exactly `removeItem` |
| CartSlice.UpdatePositiveSets | src/store/cartSlice.ts:91-103 | a positive quantity sets the first line for the product (found by `find`, duplicates from `loadCart` allowed) and no other, and the count moves by the difference |
| CartSlice.UpdateAbsentUnchanged | src/store/cartSlice.ts:82-86 | `updateQuantity` on a missing product leaves the state, totals included, unchanged |
| CartSlice.UpdateKeepsUniqueIds | src/store/cartSlice.ts:78-105 | `updateQuantity` keeps at most one line per product |
| CartSlice.ReduceKeepsConsistent | src/store/cartSlice.ts:38-112 | every action but `loadCart` leaves totals derived from the lines |
| CartSlice.ReduceKeepsUniqueIds | src/store/cartSlice.ts:38-112 | every action but `loadCart` keeps at most one line per product |
| CartSlice.ClearThenLoad | src/store/cartSlice.ts:108-119 | `clearCart` gives the empty cart, and `loadCart` after it gives the snapshot exactly |
| CartItemComponent.QuantityChange | src/ui/components/CartItem.tsx:18-27 | a requested quantity of zero or less dispatches `removeItem`, any other dispatches `updateQuantity` with it, always for the line's product |
| CartItemComponent.CartItemView.constructor | src/ui/components/CartItem.tsx:14-16 | the component starts not updating |
| CartItemComponent.CartItemView.HandleQuantityChange | src/ui/components/CartItem.tsx:18-31 | the cart becomes the reducer applied to the chosen action, and `isUpdating` ends false |
| CartItemComponent.CartItemView.HandleRemove | src/ui/components/CartItem.tsx:33-40 | the cart becomes `Reduce(old, removeItem)` whatever the quantity, and `isUpdating` ends false |
| CartItemComponent.CartItemView.Decrement | src/ui/components/CartItem.tsx:64 | "−" requests the quantity minus one |
| CartItemComponent.CartItemView.Increment | src/ui/components/CartItem.tsx:74 | "+" requests the quantity plus one |
| CartItemComponent.DecrementAtOneRemoves | src/ui/components/CartItem.tsx:21-22 | "−" at quantity 1 leaves no line for the product |
| CartItemComponent.QuantityChangeKeepsPositive | src/ui/components/CartItem.tsx:21-26 | the quantity buttons never store a quantity of zero or less |
| CartItemComponent.IncrementAddsOne | src/ui/components/CartItem.tsx:74 | "+" on the line the store finds for the product adds exactly one to it and to the item count |
| ProductDetailsComponent.ClampQuantity | src/ui/components/ProductDetails.tsx:53-56 | the new quantity is at least 1, at most the stock when there is stock, and exactly quantity + change when that lies in range |
| ProductDetailsComponent.CartLine | src/ui/components/ProductDetails.tsx:25-34 | the payload carries the product id as both ids, the unit price and the selected quantity |
| ProductDetailsComponent.ProductDetailsView.constructor | src/ui/components/ProductDetails.tsx:16-17 | the selection starts at 1, not adding |
| ProductDetailsComponent.ProductDetailsView.HandleQuantityChange | src/ui/components/ProductDetails.tsx:53-56 | the quantity becomes the clamp of the old one, and stays at least 1 |
| ProductDetailsComponent.ProductDetailsView.HandleAddToCart | src/ui/components/ProductDetails.tsx:22-51 | the cart becomes `Reduce(old, addItem(payload with the selected quantity))` and keeps every line positive if it was; then the quantity is 1 and `isAdding` is false |
| ProductDetailsComponent.SelectionWithinStock | src/ui/components/ProductDetails.tsx:53-56 | while "Add to Cart" is enabled (stock not 0), every clamped selection lies in [1, stock] |
| ProductDetailsComponent.AddToCartKeepsPositive | src/ui/components/ProductDetails.tsx:25-35 | adding a selection of at least 1 never stores a line of quantity zero or less |
| ProductDetailsComponent.EnabledButtonsStep | src/ui/components/ProductDetails.tsx:164-177 | an enabled "−" or "+" moves the selection by exactly one, and every ±1 step keeps it in [1, stock] |
| ProductDetailsComponent.AddToCartAddsSelection | src/ui/components/ProductDetails.tsx:25-35 | adding raises the item count by exactly the selected quantity and the product then has a line |
| Middleware.MatchesRoutePrefix | middleware.ts:15-17 | a path matching a route begins with it |
| Middleware.ProtectedIsNeitherPublicNorAuth | middleware.ts:4-26 | no path is both protected and public or an auth route |
| Middleware.Guard | middleware.ts:8-56 | redirect to /login iff no token and a protected path; to /products iff a token and an auth path; no other redirect |
| Middleware.TokenNeverRedirectsToLogin | middleware.ts:44-54 | with a token nobody is sent to /login and protected paths pass |
| Middleware.NoTokenAllowsHomeAndLogin | middleware.ts:28-41 | without a token `/` and the login pages pass |
| Middleware.SegmentAwareMatching | middleware.ts:15-17 | `/products/1` is protected and `/productsX` is not |
| Middleware.PolicyExamples | middleware.ts:28-56 | sample paths: protected without token redirects, login with token redirects, home and a protected sub-path pass |
| Auth.CookieStore.SetTokens | src/lib/auth.ts:6-24 | the jar gains both token cookies with their attributes, every other cookie kept |
| Auth.CookieStore.GetAccessToken | src/lib/auth.ts:26-29 | the access token is present exactly when its cookie is, with its value |
| Auth.CookieStore.GetRefreshToken | src/lib/auth.ts:31-34 | the refresh token is present exactly when its cookie is, with its value |
| Auth.CookieStore.ClearTokens | src/lib/auth.ts:36-40 | the jar loses both token cookies and nothing else |
| Auth.SetThenGet | src/lib/auth.ts:6-34 | after setting, the getters return the two tokens set |
| Auth.SetOverwrites | src/lib/auth.ts:6-24 | a second set replaces the first pair and leaves other cookies alone |
| Auth.KeysIndependent | src/lib/auth.ts:3-4 | the two keys differ, so writing or deleting one leaves the other |
| Auth.CookieAttributes | src/lib/auth.ts:9-23 | both cookies are HTTP-only, lax, on `/`, secure in production; 7 days and 30 days |
| Auth.ClearEmpties | src/lib/auth.ts:36-40 | after clearing both getters return nothing, and clearing is idempotent |
| AuthRoutes.Login | src/app/api/auth/login/route.ts:7-58 | unparsable body 500; missing credentials 400 with nothing sent; the body forwarded to the fixed upstream; non-ok 401; ok stores the tokens and returns only the profile; the jar changes only on success |
| AuthRoutes.ProfileIsReplyWithoutTokens | src/app/api/auth/login/route.ts:41-49 | the login body keeps every field of the upstream reply except the two tokens |
| AuthRoutes.Refresh | src/app/api/auth/refresh/route.ts:7-49 | no refresh token 401 with nothing sent; the token posted upstream; non-ok 401; ok replaces both tokens; the jar changes only on success |
| AuthRoutes.Me | src/app/api/auth/me/route.ts:7-45 | nothing is sent iff there is no access token (401); the Bearer header carries the token; upstream 401 maps to "expired", other failures mirror the status, errors are 500, success relays the user |
| AuthRoutes.Logout | src/app/api/auth/logout/route.ts:4-19 | both token cookies are cleared and 200 is returned |
| ApiClient.RefreshUrlExcluded | src/services/apiClient.ts:10-26 | the refresh endpoint itself never triggers a refresh |
| ApiClient.Send | src/services/apiClient.ts:17-49 | at most three requests, at most one refresh; excluded URLs and successes settle as sent; a refreshing 401 is followed by the refresh and, if it succeeds, one retry; only a failed refresh in a browser leads to /login |
| ApiClient.OnRejected | src/services/apiClient.ts:19-48 | a non-refreshing error is rejected unchanged with nothing sent; a refreshing one sends the refresh, then the retried request or the redirect |
| Strings.Contains | src/services/apiClient.ts:24-26 | `includes` holds exactly when the substring occurs at some index |
| Strings.OrElse | src/app/api/products/route.ts:11-12 | `s || fallback` is the value when non-empty, otherwise the fallback |
| Strings.ParseIntOfIntToString | src/app/products/page.tsx:30 | `parseInt` reads back every number `toString` writes |
| Pagination.TotalPages | src/ui/components/Pagination.tsx:22 | the page count is the ceiling: the least count of pages that holds every product |
| Pagination.PageWindow | src/ui/components/Pagination.tsx:46-56 | min(5, pages) buttons, consecutive, all within [1, pages], containing the current page when it is a real page |
| Pagination.Render | src/ui/components/Pagination.tsx:30-79 | nothing rendered iff the products fit on one page; "Previous" disabled iff on page 1; "Next" disabled iff no next page |
| Pagination.HandlePageChange | src/ui/components/Pagination.tsx:24-28 | the query navigated to has `page` set to the new number and every other parameter kept |
| Pagination.ExactlyOneHighlighted | src/ui/components/Pagination.tsx:46-61 | on a real page exactly one button is highlighted |
| Pagination.SmallCountShowsAllPages | src/ui/components/Pagination.tsx:48-49 | with at most five pages every page is shown, 1 to n |
| Pagination.RenderedWhenMoreThanOnePage | src/ui/components/Pagination.tsx:22-32 | there is more than one page exactly when the products exceed one page |
| ProductsPage.ProductsContent | src/app/products/page.tsx:27-77 | NaN page renders nothing here; otherwise limit 12 and skip (page−1)×12 are requested, "has next" is skip + 12 < total and agrees with the pagination's page count, "from" is skip + 1 and "to" is min(skip + 12, total): skip + 12 when there is a next page, the total otherwise |
| ProductsPage.HasNextAgreesWithPageCount | src/app/products/page.tsx:45 | for a page of at least 1, "has next page" iff the page is before the last of the ceiling page count |
| ProductsPage.MissingPageIsFirst | src/app/products/page.tsx:30-31 | an absent or empty `page` is page 1, which skips 0 |
| ProductsPage.PageParamRoundTrip | src/app/products/page.tsx:30 | the page number the pagination bar writes is read back unchanged |
| ProductsPage.ShowingRangeOnExistingPage | src/app/products/page.tsx:75-77 | on an existing page "Showing from" is at most "to" |
| ProductFilters.WithCategory | src/ui/components/ProductFilters.tsx:20-29 | a non-empty category is set, an empty one deleted, page set to "1", every other parameter kept |
| ProductFilters.WithSort | src/ui/components/ProductFilters.tsx:31-37 | sortBy, order and page "1" set, every other parameter kept |
| ProductFilters.HandleCategoryChange | src/ui/components/ProductFilters.tsx:20-29 | the in-place rewrite of the copied query yields `WithCategory` |
| ProductFilters.HandleSortChange | src/ui/components/ProductFilters.tsx:31-37 | the in-place rewrite of the copied query yields `WithSort` |
| ProductFilters.Defaults | src/ui/components/ProductFilters.tsx:16-18 | with every filter parameter missing or empty: all products, by title, ascending |
| ProductFilters.CategoryChangeIdempotent | src/ui/components/ProductFilters.tsx:20-29 | the same category change twice equals once |
| ProductFilters.SortChangeIdempotent | src/ui/components/ProductFilters.tsx:31-37 | the same sort change twice equals once |
| ProductFilters.CategoryChangeHighlights | src/ui/components/ProductFilters.tsx:45-63 | after choosing a category its button is highlighted and "All Products" is not; after "All Products" it is |
| ProductFilters.SortChangeHighlights | src/ui/components/ProductFilters.tsx:75-86 | after a sort button it is highlighted and the category is unchanged |
| ProductFilters.AtMostOneSortHighlighted | src/ui/components/ProductFilters.tsx:81 | two highlighted sort buttons are the same button |
| ProductFilters.PressedGridButtonAloneHighlighted | src/ui/components/ProductFilters.tsx:75-86 | after pressing a button of the 3×2 sort grid, exactly that button of the grid is highlighted |
| ProductFilters.DefaultGridButtonHighlighted | src/ui/components/ProductFilters.tsx:17-18 | with sortBy and order missing or empty, exactly the "title, ascending" grid button is highlighted |
| ProductFilters.ChangesResetToFirstPage | src/ui/components/ProductFilters.tsx:27-35 | every filter change reads back as page 1 on the listing |
| ProductsRoute.SortSuffix | src/app/api/products/route.ts:20-22 | the sort suffix is non-empty exactly when sortBy and order are both non-empty |
| ProductsRoute.BuildUrl | src/app/api/products/route.ts:11-29 | the reassigned `url` is `ProductsUrl` of the query |
| ProductsRoute.Get | src/app/api/products/route.ts:6-49 | requests `ProductsUrl`; non-ok mirrors the status with "Failed to fetch products", errors are 500, success relays the data |
| ProductsRoute.CategoryPathIffCategory | src/app/api/products/route.ts:18-29 | the category path is used exactly when a non-empty category is given, otherwise the plain listing |
| ProductsRoute.CategoryHead | src/app/api/products/route.ts:24-25 | with a category the URL begins with the category path |
| ProductsRoute.ListingHead | src/app/api/products/route.ts:18 | without one it begins with the listing path and not the category path |
| ProductsRoute.SortAppendedOnce | src/app/api/products/route.ts:18-29 | the URL is its head followed by the sort suffix once |
| ProductsRoute.DefaultListingUrl | src/app/api/products/route.ts:11-18 | for any query whose limit, skip and category are missing or empty and which lacks sortBy or order, the URL is the plain listing with limit 10, skip 0 |
| ProductsRoute.SortNeedsBoth | src/app/api/products/route.ts:20-28 | a sort field without an order adds no sort |
| SearchRoute.BuildUrl | src/app/api/products/search/route.ts:12-29 | the reassigned `url` is `SearchUrl` of the term and query |
| SearchRoute.Get | src/app/api/products/search/route.ts:6-49 | nothing sent iff `q` is missing or empty (400); otherwise `SearchUrl` on the configured base; non-ok mirrors the status with "Failed to search products", errors are 500 |
| SearchRoute.SearchUrlShape | src/app/api/products/search/route.ts:25-29 | the URL starts with the base and the encoded term, and ends with the same sort suffix as the listing route's |
| SearchRoute.DefaultBase | src/app/api/products/search/route.ts:4 | without `DUMMYJSON_URL` the search goes to the fixed upstream |

## Left out

- Browser storage. Saving the cart to localStorage, hydrating the store and
  the "cartNotification" write are left out; `getInitialCart` takes the
  stored string and its parse result as inputs.
- Floating-point money. Prices are whole cents. The discounted price of the
  product page is computed outside the model and given as `unitPrice`.
  `toFixed` formatting is left out.
- Exceptions from `dispatch`, `cookies()` and `setTokens`. The `finally`
  blocks that reset `isUpdating`/`isAdding` are modelled only on the normal
  path.
- Concurrency. Simultaneous 401s each start their own refresh; the model
  follows one request's pipeline in sequence.
- ApiClient.Send: `window.location.href = "/login"` is returned as the
  out-parameter `location` rather than performed.
- The middleware `config.matcher` regular expression, which decides which
  requests reach the guard.
- `parseInt` is modelled as an optional sign followed by decimal digits.
  Leading whitespace, `0x` prefixes and a NaN page flowing on into the
  request are left out (`ProductsContent` returns `None` for NaN).
- `encodeURIComponent` is an uninterpreted function parameter. The
  `URLSearchParams` serialisation order, repeated keys and `router.push` are
  left out: a query is a `map<string, string>`, and the handlers return the
  query they navigate to.
- Pagination.TotalPages: requires a positive page size; the page always
  passes 12, and a zero size (division to Infinity) is not modelled.
- Cookie expiry and the transport of cookie attributes, which are browser
  behaviour.
- JSON fields of the wrong type in request or reply bodies. A login body is
  either parsed into optional string fields or unparsable.
- The pass-through services (`productsService.ts`, `authService.ts`), the
  categories route, and the presentation-only pages and components.
