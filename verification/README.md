# E-Store storefront logic in Dafny

A model of the client-side logic of the E-Store storefront (a React shop over a mock JSON server) and of
the pure logic of its mock authentication server, with proofs of what that logic promises.

What is modelled, by module:

- **Token**, **Credentials**, **AuthService**, **AuthServer**: the demo credential table and its `find`,
  when the client falls back to it (a network error or an HTTP status of 500 and up), the reversible mock
  token and its decoding back into a user, and the server's `/auth/login`, `/auth/register` and
  `/auth/me` handlers with their 401 answers.
- **AuthStore**: the persisted session store (`user`, `token`, `isLoading`, `isAuthenticated`) and its
  `login`, `register`, `logout` and `checkAuth` transitions. The invariant "authenticated exactly when a
  token and a user are held" is proved for every transition and every sequence of them.
- **OrderService**, **Checkout**, **Cart**: cart lines become order-line snapshots, the order total is
  Σ price × quantity, the status is `pending`, the network fallback builds the same order locally, and the
  cart is cleared only after the order was created. The cart store itself is not part of this model. Pages
  are modelled by the requests they make of it.
- **ProductService**, **ProductsPage**: filters become ordered query parameters, with the truthiness test
  that drops 0. Also covered: the mock catalogue fallback, lookup by id, and the products page's filter
  transitions.
- **Carousel**, **ProductDetails**, **Header**, **ProductCard**: the carousel's wrap-around index, the
  quantity stepper's clamp to [1, stock], the `99+` cart badge, the admin link, and the stock and rating
  badges.
- **AdminProducts**, **AdminOrders**, **Dashboard**, **LoginPage**: replace-by-id and append in the
  product manager, the status colours and the unguarded status select, the revenue and count statistics,
  and the login form's empty-field check and role-based redirect.

Conventions:

- Everything is an immutable datatype with pure transition functions.
- The server's answer to each HTTP call, the clock, the `Date.now()` ids and the stored `auth-storage`
  entry are all parameters.
- Prices are integers in the smallest currency unit. Ratings are integers in tenths of a star, so the
  `Top Rated` threshold 4.5 is 45.
- A JavaScript number is `Num(int)` or `NaN`.

## Model

| member | source | states |
|---|---|---|
| `Types.ParseStatus` | src/types/index.ts:55 | a text parses as an order status only if it is that status's name |
| `Types.ParseStatusName` | src/types/index.ts:55 | each of the five status names reads back as that status |
| `JsValues.NumberOfIntToString` | src/pages/Admin/Products.tsx:77-80 | `Number` applied to the text `toString` wrote gives back the same integer (no text is shared by two integers) |
| `Token.Decode` | src/services/authService.ts:96 | a token that decodes is exactly the encoding of the claims it decodes to, so only issued tokens are accepted |
| `Token.DecodeEncode` | src/services/authService.ts:7 | round trip: decoding an encoded token returns its user id, role and expiry flag unchanged |
| `Token.EncodeInjective` | auth-server.js:40 | two different claim sets never share a token |
| `Credentials.Find` | src/services/authService.ts:36 | finds an entry iff some entry matches both email and password; the result is the first matching entry |
| `AuthService.GenerateToken` | src/services/authService.ts:5-8 | the client token decodes to the given id and role and carries an expiry stamp |
| `AuthService.FallbackConditions` | src/services/authService.ts:17-49 | only a network error or a status of 500 and up falls back; a status below 500 (such as 401) is re-raised unchanged by login and register, and so are thrown and parse errors |
| `AuthService.Login` | src/services/authService.ts:10-51 | server answers and non-fallback errors (e.g. 401) pass through unchanged; on network or ≥500 errors it succeeds iff an entry matches both fields, with that entry's id, email, name and role and no password, and a token for that id and role; otherwise it fails with the invalid-credentials message |
| `AuthService.Register` | src/services/authService.ts:53-83 | non-fallback outcomes pass through; the fallback always yields role `user` with the caller's name and email and the fresh id, and a token for that id and role |
| `AuthService.GetCurrentUser` | src/services/authService.ts:85-112 | any `/auth/me` failure falls back to the stored token: no entry or no token gives 'Not authenticated', an unreadable entry a parse error, an undecodable token 'Invalid token'; otherwise the id and role come from the token, id `1` gets admin@example.com / Admin User and every other id user@example.com / John Doe, created now |
| `AuthService.UserFromClaims` | src/services/authService.ts:98-104 | the rebuilt user has the token's id and role, the admin email and name only for id `1` and user@example.com / John Doe otherwise, and the current time |
| `AuthService.DemoAccounts` | src/services/authService.ts:19-34 | under fallback, admin@example.com/admin123 logs in as id `1`, role admin, and user@example.com/user123 as id `2`, role user |
| `AuthService.FallbackLoginRestores` | src/services/authService.ts:96-104 | a fallback login's token decodes back to the same user, up to its creation time |
| `AuthService.FallbackRegisterRestores` | src/services/authService.ts:99-102 | a fallback registration's token restores its id and role, but the name is the demo one, not the registered one |
| `AuthServer.ServerToken` | auth-server.js:40 | the server token decodes to the given id and role and carries no expiry stamp |
| `AuthServer.Login` | auth-server.js:10-46 | answers 401 'Invalid email or password' iff no entry matches both fields; otherwise the matched entry without its password, and a token for its id and role |
| `AuthServer.Register` | auth-server.js:48-65 | always succeeds with role `user`, the given name and email and the fresh id, and a token for that id and role |
| `AuthServer.RemoveFirstCutsFirst` | auth-server.js:68 | `replace('Bearer ', '')` cuts out only the first occurrence of the prefix and keeps the text before and after it |
| `AuthServer.RemoveFirstAbsent` | auth-server.js:68 | a header without the prefix is used unchanged as the token |
| `AuthServer.BearerToken` | auth-server.js:68 | no `Authorization` header gives no token, and a header always gives one |
| `AuthServer.BearerTokenStripsPrefix` | auth-server.js:68 | a `Bearer <token>` header yields exactly `<token>` |
| `AuthServer.BearerTokenWithoutPrefix` | auth-server.js:68 | a header that never contains `Bearer ` is used whole as the token |
| `AuthServer.UserFromClaims` | auth-server.js:76-82 | the rebuilt user has the token's id and role, the admin email and name only for id `1` and user@example.com / John Doe otherwise, and the current time |
| `AuthServer.ToClient` | auth-server.js:33-37 | a 200 reaches the client as its body, and every 401 as an HTTP error with status 401 |
| `AuthServer.Me` | auth-server.js:67-87 | a missing or empty bearer token answers 401 'No token provided'; an undecodable one 401 'Invalid token'; otherwise the user rebuilt from the token's claims |
| `AuthServer.SameDemoAccounts` | auth-server.js:14-29 | the server's credential table equals the client fallback's, entry for entry |
| `AuthServer.SameUserFromClaims` | auth-server.js:76-82 | the server rebuilds a user from a token exactly as the client fallback does |
| `AuthServer.LoginThenMe` | auth-server.js:39-83 | round trip: a token from `/auth/login`, sent back as a bearer header, resolves to the same user up to its creation time |
| `AuthServer.RegisterThenMe` | auth-server.js:59-80 | a token from `/auth/register` resolves to the fresh id and role `user` |
| `AuthServer.LiveLoginAgreesWithFallback` | auth-server.js:31-45 | a client login through the live server succeeds for exactly the credentials the local fallback accepts, with the same user; otherwise the client sees HTTP 401 |
| `AuthStore.InitialConsistent` | src/store/authStore.ts:19-23 | the initial session is consistent, unauthenticated and not loading |
| `AuthStore.Login` | src/store/authStore.ts:25-43 | success stores the response's user and token and authenticates; failure re-raises the error and changes only `isLoading`; both end not loading and keep the session invariant |
| `AuthStore.Register` | src/store/authStore.ts:45-59 | ends not loading and keeps the session invariant |
| `AuthStore.RegisterIsLogin` | src/store/authStore.ts:45-59 | registration has exactly the success and failure effects of login |
| `AuthStore.Logout` | src/store/authStore.ts:61-67 | clears user, token and authentication, leaving `isLoading` as it was |
| `AuthStore.CheckAuth` | src/store/authStore.ts:69-90 | no stored entry or no stored token changes nothing; an unreadable entry or any failure clears the session; success keeps the stored token and authenticates the resolved user; `isLoading` is untouched and the invariant kept |
| `AuthStore.RunKeepsConsistent` | src/store/authStore.ts:19-90 | every sequence of login, register, logout and checkAuth keeps "authenticated iff token and user are present" |
| `AuthStore.LogoutThenRestoreWithoutEntry` | src/store/authStore.ts:61-74 | logging out and restoring with no stored entry leaves the session unauthenticated |
| `AuthStore.FallbackLoginSurvivesReload` | src/store/authStore.ts:69-90 | after a fallback login and a reload with `/auth/me` failing, the restored session holds the same token and the same user up to its creation time |
| `OrderService.TotalAppend` | src/services/orderService.ts:10 | the order total is additive over concatenated line lists |
| `OrderService.TotalNonNegative` | src/services/orderService.ts:10 | with non-negative prices and quantities the total is non-negative |
| `OrderService.ReduceTotal` | src/services/orderService.ts:10 | the left-to-right `reduce` computes Σ price × quantity, which is 0 for no lines |
| `OrderService.CreateOrder` | src/services/orderService.ts:4-39 | server answers and non-network errors pass through; on a network error the local order has the fresh id, status `pending`, the placeholder user id, the given lines, address and payment, and total Σ price × quantity |
| `OrderService.FallbackAgreesWithDraft` | src/services/orderService.ts:11-34 | the submitted body has status `pending`, the placeholder user id and the computed total, and the fallback order agrees with it on every field it has |
| `OrderService.GetOrders` | src/services/orderService.ts:41-51 | a network error yields no orders; anything else passes through |
| `OrderService.GetOrder` | src/services/orderService.ts:53-63 | a network error fails with 'Order not found'; anything else passes through |
| `OrderService.UpdateOrderStatus` | src/services/orderService.ts:65-68 | the PATCH names the order's id and carries only the new status, with no check of the current one |
| `Cart.ItemCountAppend` | src/pages/Cart.tsx:98 | the displayed item count is additive over concatenated line lists |
| `Cart.ItemCountAtLeastLines` | src/pages/Cart.tsx:98 | with quantities of at least 1 the count is at least the number of lines, and 0 only for an empty cart |
| `Cart.EmptyViewIffNoItems` | src/pages/Cart.tsx:11-24 | with every quantity at least 1, the empty-cart view shows exactly when the item count is 0 |
| `Cart.MinusRequest` | src/pages/Cart.tsx:64-70 | disabled iff quantity ≤ 1; otherwise it asks to set this line's product to one fewer, never below 1 |
| `Cart.PlusRequest` | src/pages/Cart.tsx:72-77 | always asks to set this line's product to exactly one more, with no upper bound |
| `Cart.RemoveRequest` | src/pages/Cart.tsx:57-62 | removes by the line's own product id |
| `Cart.NoRequestBelowOne` | src/pages/Cart.tsx:64-77 | no cart-page control requests a quantity below 1 |
| `Checkout.PaymentCodesListed` | src/pages/Checkout.tsx:122-154 | each payment choice is one of `card`, `paypal`, `cod`, and distinct choices send distinct codes |
| `Checkout.InitialFormBlocked` | src/pages/Checkout.tsx:14-22 | the form opens with every address field empty, so it cannot be submitted yet, and with card payment selected |
| `Checkout.SubmitBlockedWhenBusyOrEmpty` | src/pages/Checkout.tsx:215 | Place Order is disabled while an order is in flight or when the cart is empty, and enabled otherwise |
| `Checkout.Snapshot` | src/pages/Checkout.tsx:29-35 | one order line per cart line in the same order, copying product id, name, price and image and the line quantity |
| `Checkout.SnapshotTotal` | src/pages/Checkout.tsx:29-37 | the total of the submitted order equals the sum of the line subtotals the summary shows |
| `Checkout.HandleSubmit` | src/pages/Checkout.tsx:24-46 | submits the snapshot with the form's address and payment; the cart is cleared and `/orders` opened iff the order was created, and nothing is cleared on failure; loading ends false |
| `Checkout.OfflineOrderMatchesCart` | src/pages/Checkout.tsx:28-38 | an offline checkout records exactly the cart's lines and total, status `pending` and a listed payment code, and clears the cart |
| `ProductService.QueryParams` | src/services/productService.ts:6-11 | no filters give no parameters; keys appear in the fixed order category, minPrice, maxPrice, rating, q; each key is present iff its filter is truthy (0, NaN and empty text dropped) and carries the filter's text |
| `ProductService.QueryString` | src/services/productService.ts:13 | the query text is empty iff there are no parameters, and one parameter gives its own `key=value` |
| `ProductService.QueryStringJoin` | src/services/productService.ts:13 | the query of two parameter lists is their queries joined by `&`, so pieces appear in parameter order |
| `ProductService.ProductsPath` | src/services/productService.ts:13 | the request path is `/products?` followed by the query text of the filters |
| `ProductService.CategoryAndSearchParams` | src/services/productService.ts:6-11 | a category with a search text gives exactly the parameters category, then q |
| `ProductService.CategoryAndSearchPath` | src/services/productService.ts:6-13 | a category with a search text requests `/products?category=<category>&q=<search>` |
| `ProductService.EmptyFiltersEmptyQuery` | src/services/productService.ts:6-13 | absent or empty filters request `/products?` with an empty query |
| `ProductService.ZeroPriceDropped` | src/services/productService.ts:8 | a minimum price of 0 is not sent |
| `ProductService.MockCatalogueShape` | src/services/productService.ts:63-137 | the mock catalogue has six products with ids `1` to `6` in order, all distinct |
| `ProductService.FindProduct` | src/services/productService.ts:31 | finds the first product with the requested id, as `Array.find` does, or none iff no product has that id |
| `ProductService.FindDistinct` | src/services/productService.ts:30-33 | with distinct ids, lookup returns the product at that id's position |
| `ProductService.GetProducts` | src/services/productService.ts:4-22 | a network error yields the mock catalogue; anything else passes through |
| `ProductService.GetProduct` | src/services/productService.ts:24-37 | on a network error it succeeds iff the id is one of the six mock ids, with the product of that id, else fails with 'Product not found'; anything else passes through |
| `ProductService.CreateProduct` | src/services/productService.ts:39-51 | a network error or status 0 becomes the "Unable to connect" error; anything else passes through |
| `ProductsPage.FromUrl` | src/pages/Products.tsx:12-13 | a missing or empty URL parameter is no filter; a non-empty one is kept as is |
| `ProductsPage.Initial` | src/pages/Products.tsx:11-15 | the first filters come only from the URL's `search` and `category`, and both price inputs start empty |
| `ProductsPage.CategoryChange` | src/pages/Products.tsx:20-29 | `all` removes the category and any other choice sets it; other filters and the price inputs are unchanged |
| `ProductsPage.ApplyPriceFilter` | src/pages/Products.tsx:31-36 | a non-empty price input sets its bound to `Number` of the text and an empty one keeps the old bound; category, search and rating are unchanged |
| `ProductsPage.ClearFilters` | src/pages/Products.tsx:38-42 | yields no filters and empty price inputs, so the request carries no parameters |
| `ProductsPage.CategoryReachesQuery` | src/pages/Products.tsx:20-27 | after a category choice, the request carries no category for `all` or empty text, and otherwise exactly the chosen one |
| `ProductsPage.ZeroMinimumIsSilentlyDropped` | src/pages/Products.tsx:33 | entering "0" as minimum sets a filter of 0, which the catalogue request then drops |
| `ProductsPage.PriceBoundReachesQuery` | src/pages/Products.tsx:34 | a non-zero maximum typed as its decimal text reaches the request as that same text |
| `Carousel.Next` | src/components/Carousel.tsx:82-84 | the next index stays in [0, 8): one more, or 0 after the last slide |
| `Carousel.Previous` | src/components/Carousel.tsx:78-80 | the previous index stays in [0, 8): one less, or the last slide before 0 |
| `Carousel.DotTargets` | src/components/Carousel.tsx:138-141 | there are eight dots and dot k offers index k, so `goToSlide` only receives valid indices |
| `Carousel.DotsReachEverySlide` | src/components/Carousel.tsx:74-76 | clicking dot k shows slide k, so every slide is reachable in one click |
| `Carousel.PreviousUndoesNext` | src/components/Carousel.tsx:78-84 | previous and next are mutual inverses |
| `Carousel.AdvanceIsModular` | src/components/Carousel.tsx:66-72 | k timer ticks from index i land on (i + k) mod 8 |
| `Carousel.TicksFromStart` | src/components/Carousel.tsx:64-69 | from the initial slide 0, k timer ticks show slide k mod 8 |
| `Carousel.FullRoundReturns` | src/components/Carousel.tsx:66-72 | eight ticks return to the starting slide |
| `ProductDetails.Decrement` | src/pages/ProductDetails.tsx:112 | the quantity never drops below 1, and an enabled minus subtracts exactly 1 |
| `ProductDetails.Increment` | src/pages/ProductDetails.tsx:120 | the quantity never exceeds the stock, and an enabled plus adds exactly 1 |
| `ProductDetails.QuantityStaysInRange` | src/pages/ProductDetails.tsx:111-125 | any sequence of clicks, with disabled buttons ignored, keeps the quantity in [1, stock] (1 when out of stock) |
| `ProductDetails.StepperFromInitial` | src/pages/ProductDetails.tsx:15 | from the initial quantity 1, any click sequence keeps the quantity in [1, stock] |
| `ProductDetails.AddToCart` | src/pages/ProductDetails.tsx:36-40 | nothing is added without a loaded product; otherwise the selected quantity is added |
| `ProductDetails.AddEnabledMatchesCard` | src/pages/ProductDetails.tsx:132 | the details page's add button is enabled exactly when the product card's is: stock ≠ 0 |
| `Header.CartBadge` | src/components/Layout/Header.tsx:97-101 | hidden iff the count is 0 or less, `99+` above 99, otherwise the count's own decimal digits: one or two digits, no leading zero, reading back as the count |
| `Header.ShownName` | src/components/Layout/Header.tsx:67-72 | a name is shown only for an authenticated session, and it is the user's name |
| `Header.HandleLogout` | src/components/Layout/Header.tsx:14-17 | clears the session, then navigates to `/`; afterwards no admin link and no name show |
| `Header.AdminLinkIff` | src/components/Layout/Header.tsx:28 | in a consistent session the admin link shows iff authenticated with role admin |
| `ProductCard.BadgesOf` | src/components/ProductCard.tsx:35-80 | 'Out of Stock' iff stock = 0, 'Limited Stock' iff 0 < stock ≤ 10, 'In Stock' iff stock > 0, 'Top Rated' iff rating ≥ 4.5, Add enabled iff stock ≠ 0 |
| `ProductCard.StockBadgesExclusive` | src/components/ProductCard.tsx:35-44 | 'Out of Stock' and 'Limited Stock' never show together; for non-negative stock exactly one of 'Out of Stock' and 'In Stock' shows and Add is enabled iff 'In Stock' shows |
| `ProductCard.AddRequest` | src/components/ProductCard.tsx:14-18 | Add passes the product with no explicit quantity |
| `AdminProducts.CreatePayload` | src/pages/Admin/Products.tsx:52-58 | a new product is sent with its four text fields as typed, price and stock through `Number`, rating 0 and review count 0 |
| `AdminProducts.UpdatePayload` | src/pages/Admin/Products.tsx:44-48 | the update body carries name, description, image and category as typed, price and stock through `Number`, and no rating or reviews |
| `AdminProducts.SaveRequestOf` | src/pages/Admin/Products.tsx:43-58 | submit updates the product being edited, by its id, with the update body of the form, and creates with the create body otherwise |
| `AdminProducts.ReplaceById` | src/pages/Admin/Products.tsx:49 | length kept; every element with the edited id is replaced by the saved product and every other element is kept |
| `AdminProducts.ReplaceByIdIsUpdate` | src/pages/Admin/Products.tsx:49 | with distinct ids, exactly the one position holding the id changes |
| `AdminProducts.ReplaceAbsentId` | src/pages/Admin/Products.tsx:49 | replacing an id that is not listed leaves the list unchanged |
| `AdminProducts.ResetForm` | src/pages/Admin/Products.tsx:98-107 | all six fields become empty and nothing else changes |
| `AdminProducts.Submit` | src/pages/Admin/Products.tsx:40-70 | a failed save leaves the page unchanged; a successful one replaces by id (edit) or appends (create), closes the modal, clears the edit target and empties the form |
| `AdminProducts.CreateAppends` | src/pages/Admin/Products.tsx:59 | a successful create keeps the old products in place and adds the new one last, growing the list by one |
| `AdminProducts.Edit` | src/pages/Admin/Products.tsx:72-83 | opens the modal on the product with the list unchanged; the form holds the product's name, description, image and category, and its price and stock as their `toString` text |
| `AdminProducts.StartCreate` | src/pages/Admin/Products.tsx:127-131 | `Add Product` opens an empty modal with no edit target |
| `AdminProducts.EditThenSaveUnchanged` | src/pages/Admin/Products.tsx:74-81 | editing a product and saving the untouched form sends the product's own six field values |
| `AdminOrders.StatusColorsDistinctAndShared` | src/pages/Admin/Orders.tsx:37-50 | delivered green, shipped blue, processing yellow, cancelled red and pending gray are five distinct classes, and the order history page's copy agrees with them |
| `AdminOrders.OptionsCoverStatuses` | src/pages/Admin/Orders.tsx:83-95 | the select offers every status, and every option names one |
| `AdminOrders.StatusUpdate` | src/pages/Admin/Orders.tsx:27-29 | the update targets the order's id and carries the selected status |
| `AdminOrders.AnyTransitionAllowed` | src/pages/Admin/Orders.tsx:83-95 | any status can be set from any status: there is no transition guard |
| `Dashboard.RevenueAppend` | src/pages/Admin/Dashboard.tsx:30 | revenue is additive over concatenated order lists |
| `Dashboard.RevenueIgnoresStatus` | src/pages/Admin/Dashboard.tsx:30 | changing an order's status does not change the revenue |
| `Dashboard.StatsOf` | src/pages/Admin/Dashboard.tsx:30-48 | the counts are the three list lengths and the revenue is Σ order.total, which is 0 with no orders |
| `Dashboard.FetchStats` | src/pages/Admin/Dashboard.tsx:22-56 | if any of the three fetches still fails after its service's fallback, every stat stays 0; otherwise the stats are those of the fetched lists |
| `Dashboard.OfflineDashboard` | src/pages/Admin/Dashboard.tsx:24-48 | offline, the dashboard counts six products, no orders and no revenue |
| `LoginPage.RedirectFor` | src/pages/Login.tsx:26-36 | the redirect is `/admin` iff the stored user is an admin, and `/` otherwise |
| `LoginPage.ErrorText` | src/pages/Login.tsx:39 | a failed login always shows a non-empty message: a thrown error's own non-empty message, and the default text when that message is empty |
| `LoginPage.FallbackRejectionShown` | src/pages/Login.tsx:37-40 | offline, a login the demo table rejects shows the fallback's "Invalid email or password" text and does not navigate |
| `LoginPage.Submit` | src/pages/Login.tsx:12-43 | an empty email or password is rejected without calling login; otherwise the store's login runs; success navigates by role and failure shows the error without navigating; loading always ends false |
| `LoginPage.RedirectByRole` | src/pages/Login.tsx:29-34 | after a successful login an admin lands on `/admin` and any other user on `/` |

## Left out

- HTTP transport, the json-server router and `listen`: every server answer is an input `Result`, and each handler is one sequential step.
- Async scheduling is not modelled. `isLoading` is set during a call and reset after it.
- The axios error codes are not modelled one by one. Only the network error and the response status matter, so they are folded into `NetworkError` and `HttpError(status)`.
- `localStorage` and `JSON.parse` are not modelled. The `auth-storage` entry is an input: no entry, unreadable, or an entry with an optional token.
- The `persist` middleware's rehydration is not modelled.
- `btoa`, `atob`, `Buffer` and JSON are not modelled. The token is a stand-in injective encoding with a decoder that accepts exactly the issued tokens.
- Token decoding does not tell the strict `atob` apart from the lenient `Buffer`.
- A token that decodes to JSON with missing fields or an unknown role counts as undecodable here. The source would build a user with undefined fields.
- The `exp` value is not modelled, only whether a token has one.
- `Date.now()` and `toISOString()` are not modelled. The fresh id and the creation time are parameters.
- Floating-point prices and ratings are not modelled, and neither is `toFixed` formatting.
- `JsValues.NumberOf`: models `Number(text)` only for the empty text and an optional sign followed by digits. Whitespace trimming, decimals, exponents, hex and `Infinity` are not modelled. Those texts give NaN here.
- `ProductService.QueryParams`: `URLSearchParams.toString()` is modelled without percent-encoding of keys and values.
- The cart store itself is not part of this model. `addItem` merging, `updateQuantity` on non-positive values, `getTotalItems` and `getTotalPrice` are not modelled. The header's count is an input, and the checkout's displayed total is the store's.
- The products page's `setSearchParams` URL updates and the `useProducts` refetch are navigation plumbing and are not modelled.
- `LoginPage.Submit`: assumes the persisted entry is present after a successful login, because the store writes it on every change. The no-entry branch is not modelled: that branch does not navigate.
- The admin product manager's `handleDelete` and `fetchProducts` are not modelled, and neither is `triggerRefresh`. The admin orders page's refetch after a status update is not modelled either. These are thin service calls with no logic.
- The dashboard's random chart data and its month labels are not modelled.
- `userService.getUsers` is not part of this model. Its outcome is an input.
- The Register, Profile, Home and Admin/Users pages are not modelled.
- The browser's `required` check on the five address inputs is modelled only as the predicate `AddressComplete`. `Checkout.HandleSubmit` does not require it, because the handler itself does not check it.
- `AuthStore.Register`: its own contract states only the invariant and the loading flag. `AuthStore.RegisterIsLogin` gives the rest by equating it with login.
- `ProductDetails`' `fetchProduct`, which navigates to `/products` when loading fails, is not modelled.
- Route guards, toasts, rendering, CSS and theme are not modelled.
- `AdminProducts.Edit`: the edit form shows the price as the integer in cents (`9999`), not the decimal dollar text `toString` gives the source's price (`99.99`). For the same reason a typed price is read as cents: `50` is 50 cents here but 50 dollars in the source.
- The descriptions and image URLs of the mock catalogue are kept as named constants. No proof depends on their text.
