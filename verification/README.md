# ShopEase storefront — a Dafny model

ShopEase is a React storefront backed by a hosted Postgres/auth service. This
project models the client-side rules of its core:

- the catalogue store and its reducer;
- the auth provider: the session user, profile merge, profile updates, the new order row and the dashboard count;
- the cart provider: its start-up state, API dispatches and remote sync paths;
- the wishlist provider;
- the route guard and the routes that use it;
- the theme provider;
- the navigation bar and the sign-in modal;
- the SEO head;
- the pages: home, product, cart, checkout, wishlist, and the two admin pages;
- the catalogue seeding script.

Each source file has its own module (`home.dfy` holds `module Home`, and so on). Three helper modules give the
JavaScript behaviour the pages rely on:

- `Js`: nullable values, truthiness of `||`, and the `{ data, error }` response.
- `Text`: `toLowerCase`, `trim`, `includes`, `slice(0, n)`, and the regular-expression classes `\s` and `[0-9]`.
- `Seqs`: `filter`, `map`, and `[...new Set(xs)]`.

The backend, the browser and time are not in the model:

- Every database or HTTP answer is a parameter: a `Response`, an `Option`, or a success flag.
- Every write the code asks for is returned as a value.
- `localStorage` contents, `window.innerWidth`, `window.confirm` and `Number(id)` are parameters.

The cart reducer (`src/reducer/cartReducer.js`) is not part of this model. The cart functions take it as a
function parameter `reduce`, together with its initial state. Their properties therefore hold for any reducer.

Two behaviours of the code are worth stating up front:

- **Cart on logout.** A logout leaves the local cart in place. The cart provider's remote effects do nothing without
  a user id, and nothing else clears the cart. `CartProvider.NoUserNoRemoteEffect` states this. The wishlist, by
  contrast, empties on logout.
- **Empty or unparsable saved cart.** A missing, empty or unparsable save falls back to the reducer's
  `initialState`, which is a parameter here, not to a literal empty cart.

## Model

| member | source | states |
|---|---|---|
| `ProductContext.InitialState` | src/context/ProductContext.jsx:8-13 | The store starts with no products, not loading, no error and an empty query. |
| `ProductContext.Reduce` | src/context/ProductContext.jsx:15-28 | Each of the four actions changes only its own fields: FETCH_START sets loading and clears the error, FETCH_SUCCESS installs rows and stops loading, FETCH_ERROR records the message and stops loading, SET_QUERY sets only the query. An unknown action changes nothing. |
| `ProductContext.FetchCycle` | src/context/ProductContext.jsx:34-58 | A completed fetch always ends not loading and keeps the query. Success clears any earlier error and shows exactly the returned rows. Failure records the message and keeps the products already shown. |
| `AuthContext.SessionDefaults` | src/context/AuthContext.jsx:53-62 | A session user gets the plain "user" role, no picture, an empty phone and an empty address. The name is the metadata name if non-empty, else "New User", so it is never empty. |
| `AuthContext.OnAuthStateChange` | src/context/AuthContext.jsx:50-76 | Loading always ends. With no session the user is cleared and no profile is requested. With one, the user is the session defaults and that user's profile row is requested. |
| `AuthContext.MergeProfile` | src/context/AuthContext.jsx:34-41 | Each profile field replaces the user's value only when it is truthy. The id and email are never touched. |
| `AuthContext.FetchProfile` | src/context/AuthContext.jsx:16-45 | Any error, including the not-found code PGRST116, leaves the user unchanged. A returned row is merged. |
| `AuthContext.MergeProfileStable` | src/context/AuthContext.jsx:34-41 | Merging the same row twice equals merging it once. A merge never empties a name or phone that was set. |
| `AuthContext.AdminOnlyFromProfile` | src/context/AuthContext.jsx:16-62 | After sign-in and the profile fetch, the user is an admin exactly when the fetched row's role is "admin". The session alone never grants it. |
| `AuthContext.UpdateUser` | src/context/AuthContext.jsx:154-186 | Each written field is the update when truthy, else the current value, under the user's own id. On success the local user takes exactly the written values. On failure it is unchanged. Without a user nothing is written. |
| `AuthContext.EmptyUpdateKeepsFields` | src/context/AuthContext.jsx:158-164 | An empty-string name or phone in an update cannot clear the stored one. |
| `AuthContext.PlaceOrderRow` | src/context/AuthContext.jsx:188-201 | An order row exists exactly when there is a user. It carries that user's id, the cart items, the total and the status "orderplaced". |
| `AuthContext.PlacedOrderSavesAddress` | src/context/AuthContext.jsx:188-216 | A successful order stores the checkout form as the shipping address and leaves the name and phone alone. |
| `AuthContext.AllStats` | src/context/AuthContext.jsx:274-293 | Either query failing gives zeros. Otherwise the count is the number of orders still in "orderplaced": zero exactly when none is, and never more than the number of orders. A null user count reads as 0. |
| `AuthContext.AllOrdersNew` | src/context/AuthContext.jsx:282 | The new-order count equals the number of orders exactly when every order is in "orderplaced". |
| `WishlistProvider.IsInWishlist` | src/context/WishlistProvider.jsx:110 | True exactly when the id occurs at some index of the list. |
| `WishlistProvider.Toggle` | src/context/WishlistProvider.jsx:89-108 | Without a user nothing changes and nothing is written. Otherwise the toggled id's membership flips, an absent id is appended at the end, and every other id keeps its membership. The new list is written exactly when the user has an id. |
| `WishlistProvider.ToggleRemovesAll` | src/context/WishlistProvider.jsx:98-100 | Removing an id drops every occurrence of it. Every other entry keeps its multiplicity and relative order. |
| `WishlistProvider.ToggleTwiceRestores` | src/context/WishlistProvider.jsx:95-106 | Starting from a list without the id, two toggles give back exactly the original list. |
| `WishlistProvider.ToggleTwiceMembership` | src/context/WishlistProvider.jsx:95-106 | For any list, two toggles restore the membership of every id. |
| `WishlistProvider.Clear` | src/context/WishlistProvider.jsx:112-116 | With a user id the list empties and the empty list is written. Otherwise nothing happens. |
| `WishlistProvider.ApplyRemote` | src/context/WishlistProvider.jsx:35-37 | A payload with `product_ids` replaces the list, and an empty array counts as present. Without `product_ids` the list is kept. |
| `WishlistProvider.OnUserChange` | src/context/WishlistProvider.jsx:13-42 | Without a user id the list resets to empty. With one, fetched ids, if any, replace it. |
| `WishlistProvider.LogoutEmptiesWishlist` | src/context/WishlistProvider.jsx:13-18 | After logout the list is empty, and a toggle without a user keeps it empty and writes nothing. |
| `CartProvider.InitialCartState` | src/context/CartProvider.jsx:10-20 | The start state is either the reducer's initial state or exactly what a non-empty saved string parses to. A missing, empty or unparsable save gives the initial state. |
| `CartProvider.ReloadRestoresCart` | src/context/CartProvider.jsx:24-27 | When the JSON codec round-trips, a reload starts from exactly the state last persisted. |
| `CartProvider.Dispatched` | src/context/CartProvider.jsx:107-132 | Each API function dispatches its own action with the same payload. A left-out `addItem` quantity becomes 1. |
| `CartProvider.ApiCallIsOneStep` | src/context/CartProvider.jsx:107-132 | For any reducer, an API call is exactly one reducer step. |
| `CartProvider.FetchRemoteCart` | src/context/CartProvider.jsx:30-52 | Without a user id nothing happens. With one, SET_CART is dispatched exactly when the row has items (an empty array is present). An error is logged exactly when it is not PGRST116. |
| `CartProvider.RealtimeCart` | src/context/CartProvider.jsx:78-105 | At most one action. SET_CART with the pushed items exactly when there is a user id and the update carries items. |
| `CartProvider.SyncWrite` | src/context/CartProvider.jsx:55-75 | The full item list is written exactly when there is a user id. |
| `CartProvider.NoUserNoRemoteEffect` | src/context/CartProvider.jsx:29-105 | Without a user id the fetch and realtime paths leave the cart as it is, whatever the reducer and backend do, and nothing is written. |
| `CartProvider.RemoteSnapshotIsOneSetCart` | src/context/CartProvider.jsx:40-97 | A remote snapshot with items reaches the reducer as one SET_CART with those items, through either path. |
| `Quantity.StepDown` | src/pages/Cart.jsx:98 | "-" asks for one less but never less than 1. |
| `Quantity.StepUp` | src/pages/Cart.jsx:106 | "+" asks for exactly one more. |
| `Quantity.StepsUndo` | src/pages/Product.jsx:128-135 | "+" then "-" returns to the start from any quantity of at least 1. "-" then "+" does so from any quantity above 1. |
| `CartPage.Decrement` | src/pages/Cart.jsx:98 | One UPDATE_QUANTITY for that line, never below 1. At quantity 1 it asks for 1 again. |
| `CartPage.Increment` | src/pages/Cart.jsx:106 | One UPDATE_QUANTITY for that line with one more. |
| `CartPage.CheckoutTarget` | src/pages/Cart.jsx:16-22 | Only a signed-in user is sent to "/checkout". |
| `CartPage.CheckoutTargetMatchesGuard` | src/pages/Cart.jsx:16-22 | The cart sends on exactly the users the checkout route's guard lets through, to a route that needs a user. A guest it keeps back would have been sent home by the guard. |
| `ProductPage.FindById` | src/pages/Product.jsx:25 | No result exactly when no product has the id. Otherwise the result is the first product with it. |
| `ProductPage.OnCatalogue` | src/pages/Product.jsx:23-28 | An empty catalogue changes nothing. Otherwise the page shows the lookup result, or nothing for a NaN route id. The selector is untouched. |
| `ProductPage.SkeletonUntilFound` | src/pages/Product.jsx:23-44 | Before the catalogue loads the skeleton stays. With a loaded catalogue and a non-zero id, the page leaves the skeleton exactly when a product has that id. |
| `ProductPage.SelectorStaysPositive` | src/pages/Product.jsx:128-135 | From a quantity of at least 1, no run of presses takes the selector below 1, and n presses raise it by at most n. |
| `ProductPage.AddToBag` | src/pages/Product.jsx:46-49 | One ADD_ITEM with the shown product and the selector quantity. |
| `ProductPage.BuyNow` | src/pages/Product.jsx:51-54 | The same ADD_ITEM as "Add to Bag", then navigation to "/checkout". |
| `Checkout.FieldErrors` | src/pages/Checkout.jsx:138-141 | At most one message per field. "Required" exactly when the field is empty. The pincode pattern message exactly when the pincode is non-empty but not six digits. |
| `Checkout.ErrorsOf` | src/pages/Checkout.jsx:120-174 | The listed fields' messages, with the same "required" and pattern conditions as for a single field. |
| `Checkout.Errors` | src/pages/Checkout.jsx:120-174 | Each of the six fields is reported required exactly when empty, and the pattern exactly when the pincode is non-empty and invalid. The form submits exactly when there are no messages. |
| `Checkout.LookupOnlyChecksLength` | src/pages/Checkout.jsx:52-79 | Every valid pincode starts the postal lookup. The lookup also fires for a six-character value the form rejects ("12345a"). |
| `Checkout.RedirectTarget` | src/pages/Checkout.jsx:81-85 | The page redirects, always to "/cart", exactly when the cart is empty, no order is in flight and the success modal is not shown. |
| `Checkout.InitialForm` | src/pages/Checkout.jsx:26-35 | The defaults are the user's name and phone and the saved address, or an empty form without a user. The phone does not fall back to the address phone. |
| `Checkout.ResetForm` | src/pages/Checkout.jsx:39-50 | The reset takes the user's name and the saved address. The phone is the user's if non-empty, else the address's. |
| `Checkout.ResetDiffersOnlyInPhone` | src/pages/Checkout.jsx:28-48 | The reset and the defaults agree on every field but the phone. They differ exactly when the user has no phone and the address has one. |
| `Checkout.SavedAddressPrefillsValidForm` | src/pages/Checkout.jsx:39-50 | After an order with a valid form, the next checkout's reset form shows that address and passes validation as it stands. |
| `Checkout.OnSubmit` | src/pages/Checkout.jsx:87-99 | The order is no longer in flight afterwards. On success the cart is cleared, the success modal is up and the visitor goes to "/". On failure nothing else changes. |
| `Checkout.SubmitNeverRedirectsToCart` | src/pages/Checkout.jsx:81-99 | A successful order's cleared cart does not trigger the cart redirect. The redirect fires only after a failed submit with an empty cart. |
| `AuthModal.MatchesEmail` | src/components/AuthModal.jsx:115 | The scan accepts exactly the strings `/^\S+@\S+$/i` matches: no whitespace, and an "@" with a character on each side. |
| `AuthModal.LowerKeepsEmailPattern` | src/components/AuthModal.jsx:47 | The lower-cased e-mail matches the pattern exactly when the typed one does. |
| `AuthModal.Validate` | src/components/AuthModal.jsx:95-165 | "Required" for an empty e-mail; the pattern message for a non-empty non-matching one; "too short" for a non-empty password under 6 characters. In sign-up, a mismatch exactly for a non-empty confirmation that differs. The sign-in view never reports sign-up fields. Once the browser's own `type="email"` check has let the value through, react-hook-form submits exactly when there are no messages. |
| `AuthModal.Submit` | src/components/AuthModal.jsx:46-54 | The sign-in view calls `loginUser` and the sign-up view `registerUser`. The e-mail is lower-cased letter by letter (ASCII letters only) with its length kept, and every other field is passed as typed. |
| `AuthModal.SubmitNormalisationStable` | src/components/AuthModal.jsx:46-54 | Normalising is idempotent, and an accepted form stays accepted after normalising. |
| `AuthModal.SwitchView` | src/components/AuthModal.jsx:189-199 | The switch link goes to the other view and empties the form. |
| `AuthModal.SwitchViewTwice` | src/components/AuthModal.jsx:189-199 | Two switches return to the starting view. The emptied form is refused. |
| `ManageProducts.IsMobile` | src/pages/admin/ManageProducts.jsx:19-22 | The desktop-only screen shows exactly for widths of 767 and below. |
| `ManageProducts.OpenModal` | src/pages/admin/ManageProducts.jsx:87-103 | The modal always opens. Editing prefills every field from the product, with a missing description as "". Creating gives the blank form. |
| `ManageProducts.SanitiseCategory` | src/pages/admin/ManageProducts.jsx:112-115 | The saved category is the lower-cased form of the stretch of the input that has only whitespace around it and none at its own ends. It is empty exactly when the input is all whitespace, has no upper-case letter, and is no longer than the input. |
| `ManageProducts.SanitiseCategoryDetermined` | src/pages/admin/ManageProducts.jsx:114 | Those properties leave one result only: the lower-casing of any such stretch of the input is the saved category. |
| `ManageProducts.SanitiseCategoryIdempotent` | src/pages/admin/ManageProducts.jsx:114 | Sanitising twice equals sanitising once. |
| `ManageProducts.SanitisedIsFixed` | src/pages/admin/ManageProducts.jsx:114 | A category that is trimmed and has no upper-case letter is saved as it is. |
| `ManageProducts.OptionsAreSanitised` | src/pages/admin/ManageProducts.jsx:282-302 | Every option of the category select is saved exactly as offered. |
| `ManageProducts.Payload` | src/pages/admin/ManageProducts.jsx:112-115 | The payload is the form with only its category changed, and that category is the sanitisation of the typed one. |
| `ManageProducts.Submit` | src/pages/admin/ManageProducts.jsx:117-132 | Editing updates the edited product's row, creating inserts. Either way the payload is the sanitised form. |
| `ManageProducts.AfterSubmit` | src/pages/admin/ManageProducts.jsx:134-140 | The modal closes only after a successful write. A failure keeps it open with the form as typed. |
| `ManageProducts.EditUnchangedWritesBack` | src/pages/admin/ManageProducts.jsx:87-132 | Opening a product with a sanitised category and saving untouched updates that row with its own values. Saving the blank form inserts. |
| `ManageProducts.AfterDelete` | src/pages/admin/ManageProducts.jsx:144-155 | A cancelled or failed delete keeps the list. A successful one keeps exactly the products with another id. |
| `ManageProducts.DeleteKeepsOthers` | src/pages/admin/ManageProducts.jsx:151 | A delete removes every product with the id and nothing else. The rest keep order and multiplicity, and an absent id changes nothing. |
| `ManageProducts.AfterFetch` | src/pages/admin/ManageProducts.jsx:61-77 | An error keeps the list. Rows replace it, and null data empties it. |
| `Home.CategoryGroup` | src/pages/Home.jsx:18-23 | A key names a group exactly when it is one of the four group keys. |
| `Home.Filtered` | src/pages/Home.jsx:41-51 | A product is listed exactly when it is in the catalogue and passes the active category. |
| `Home.FilteredIsSubseq` | src/pages/Home.jsx:41-51 | The filter keeps catalogue order and lists every shown product as often as the catalogue does, and none of the others. "all" lists the whole catalogue. |
| `Home.FilteredByKind` | src/pages/Home.jsx:44-50 | A group pill lists the products whose category is in the group. Any other value lists exactly that category. |
| `Home.AllGranularCategories` | src/pages/Home.jsx:29 | Each catalogue category appears once, and only catalogue categories appear. |
| `Home.GranularPillShowsItsProducts` | src/pages/Home.jsx:29-51 | A granular pill that is not "all" or a group key lists at least one product: exactly the products of that category. |
| `Home.GroupNamedCategoryHidden` | src/pages/Home.jsx:45-46 | A product whose category is literally "beauty" gets a granular pill, but picking the pill lists nothing. |
| `Home.SkincareNotInBeauty` | src/pages/Home.jsx:18-23 | A product saved with the admin option "skincare" is not under "beauty", which lists "skin-care". |
| `Home.ClickMain` | src/pages/Home.jsx:97 | A main pill selects its category and closes the panel. |
| `Home.ClickGranular` | src/pages/Home.jsx:130 | A granular pill selects its category and leaves the panel as it was. |
| `Home.ToggleViewAll` | src/pages/Home.jsx:110-113 | "View All" / "Hide Filters" flips the panel and keeps the selection. |
| `Home.ToggleViewAllTwice` | src/pages/Home.jsx:110 | Two flips restore the pill state. |
| `Home.CardImage` | src/pages/Home.jsx:159 | The card shows the first image when there is a non-empty one, else the thumbnail. |
| `Home.ProductGrid` | src/pages/Home.jsx:149-181 | Loading shows 8 skeletons and nothing else. Otherwise the grid shows the filtered products, with the empty message exactly when no catalogue product passes. |
| `ManageOrders.FilteredOrders` | src/pages/ManageOrders.jsx:39-42 | An order is listed exactly when the term is in its id as typed, or the lower-cased term is in its lower-cased customer name. Order is kept. |
| `ManageOrders.EmptyTermListsAll` | src/pages/ManageOrders.jsx:13-42 | The initial empty term lists every order. |
| `ManageOrders.NameSearchIgnoresCase` | src/pages/ManageOrders.jsx:41 | A customer is found by the name as stored, in lower case, and by any term that lower-cases to the same string. |
| `ManageOrders.IdSearchIsCaseSensitive` | src/pages/ManageOrders.jsx:40 | An unnamed order "A1" is found by "A1" but not by "a1". |
| `ManageOrders.ShortId` | src/pages/ManageOrders.jsx:122 | The short id is a prefix of the id: 8 characters, or the whole id if shorter. |
| `ManageOrders.ShortIdFindsOrder` | src/pages/ManageOrders.jsx:39-42 | Typing a row's short id finds that order. |
| `ManageOrders.CustomerLabel` | src/pages/ManageOrders.jsx:125 | The label is the customer's name when truthy, else "Anonymous", so never empty. |
| `ManageOrders.OneButtonHighlighted` | src/pages/ManageOrders.jsx:137-139 | An order in one of the three statuses highlights exactly one button. Any other status highlights none. |
| `ManageOrders.StatusColour` | src/pages/ManageOrders.jsx:257-258 | Blue exactly for "orderplaced", yellow exactly for "shipped", green for everything else. |
| `ManageOrders.ButtonColoursAgree` | src/pages/ManageOrders.jsx:137-139 | The three buttons' statuses get blue, yellow and green, and an unknown status also shows green. |
| `ManageOrders.AfterFetch` | src/pages/ManageOrders.jsx:16-21 | Rows replace the list, and no data empties it. |
| `ManageOrders.RefetchesAfter` | src/pages/ManageOrders.jsx:27-37 | The list is refetched exactly after a confirmed, successful call. A throwing call skips it. |
| `ProtectedRoute.Guard` | src/components/ProtectedRoute.jsx:5-26 | "Verifying" exactly while loading. The page renders exactly for a loaded user who is an admin when the route demands one. |
| `ProtectedRoute.RouteProtection` | src/App.jsx:27-62 | A location is admin-only exactly when, with its final slashes dropped and its letters lower-cased, it is "/admin" or "/admin/orders". It needs a user exactly when that form is "/account" or "/checkout". |
| `ProtectedRoute.ProtectionIgnoresCaseAndTrailingSlash` | src/App.jsx:27-41 | Lower-casing a location or adding a slash at its end does not change its protection. |
| `ProtectedRoute.AdminSpellingsGuarded` | src/App.jsx:27-34 | "/Admin" and "/admin/" get the same guard as "/admin", so a guest typing "/Admin" is sent home. |
| `ProtectedRoute.Visit` | src/App.jsx:27-62 | Open routes always render. Guarded ones render as the guard decides, with the route's protection. |
| `ProtectedRoute.AdminPagesNeedAdminProfile` | src/components/ProtectedRoute.jsx:20-23 | After sign-in, "/admin" opens exactly when the profile row says "admin". "/checkout" opens for any signed-in user and sends a guest home. |
| `ThemeProvider.InitialTheme` | src/context/ThemeProvider.jsx:5-8 | The saved theme if non-empty, else "light", so never empty. |
| `ThemeProvider.ToggleTheme` | src/context/ThemeProvider.jsx:21-23 | The toggle always gives "light" or "dark", and gives "dark" exactly from "light". |
| `ThemeProvider.ToggleFlipsKnownThemes` | src/context/ThemeProvider.jsx:12-23 | On "light" and "dark" the toggle is an involution that flips the `dark` class. A foreign saved theme renders light and its first toggle gives "light" again. |
| `ThemeProvider.Toggled` | src/context/ThemeProvider.jsx:21-23 | After any toggles the theme is "light" or "dark". From a known theme it is unchanged exactly after an even number of toggles. |
| `ThemeProvider.ReloadRestoresTheme` | src/context/ThemeProvider.jsx:5-13 | Because every theme is written back, a reload starts from the theme last shown. |
| `Navbar.NavLinks` | src/components/Navbar.jsx:46-58 | Always the three base links, followed by the two admin links exactly for an admin. |
| `Navbar.LinksMatchGuard` | src/components/Navbar.jsx:53-58 | Every link shown opens for its user once loaded, and an admin gets a link to the route of every admin-only location. |
| `Navbar.CartBadge` | src/components/Navbar.jsx:111-113 | The badge shows, with the count, exactly when the count is positive. |
| `Navbar.BadgeShowsForNonEmptyCart` | src/components/Navbar.jsx:111-113 | If the provider's total counts the units and every line holds at least one, the badge shows exactly when the cart has a line, with a number no smaller than the number of lines. |
| `Navbar.OpenAuthModal` | src/components/Navbar.jsx:40-44 | Opening records the view, opens the modal and closes the mobile menu. |
| `Navbar.CloseAuthModal` | src/components/Navbar.jsx:312 | Closing keeps the recorded view and the menu state. |
| `Navbar.ReopenShowsRequestedView` | src/components/Navbar.jsx:40-44 | Reopening records the newly requested view, whatever was recorded before. |
| `Navbar.InitialScreen` | src/components/AuthModal.jsx:9-10 | On mount the modal is closed and its own view is the bar's recorded view. |
| `Navbar.SwitchInModal` | src/components/AuthModal.jsx:189-199 | The in-modal switch changes only the modal's own view. |
| `Navbar.OpenAsWritten` | src/components/Navbar.jsx:310-314 | As written, opening updates the bar but the mounted modal keeps the view it had. |
| `Navbar.JoinOpensSignInView` | src/components/Navbar.jsx:298 | On a fresh page, "Join ShopEase" asks for sign-up but the modal shows sign-in. |
| `Navbar.Open` | src/components/Navbar.jsx:40-44 | Corrected opening: the modal shows exactly the requested view. |
| `Navbar.AsWrittenAgreesOnlyOnSameView` | src/components/AuthModal.jsx:9-10 | The written and corrected openings agree exactly when the modal already shows the requested view. |
| `Navbar.OpenAfterSwitchShowsRequested` | src/components/AuthModal.jsx:189-199 | With the corrected opening, the requested view shows even after an in-modal switch and a close. |
| `Seo.PageTitle` | src/components/SEO.jsx:10 | A truthy title gives that title followed by the ShopEase suffix, else the site title. |
| `Seo.SeoHead` | src/components/SEO.jsx:4-26 | One title is shared by the three title tags, and one description (the default when missing or empty) by the three description tags. The og:type and twitter:card values are fixed. Both image tags carry the image exactly when it is non-empty. |
| `Seo.TitleRecoverable` | src/components/SEO.jsx:5-10 | A page title can be read back from the head title, and the site title is never mistaken for a suffixed one. |
| `WishlistPage.WishlistedProducts` | src/pages/Wishlist.jsx:18 | Exactly the loaded products whose id is wishlisted, in catalogue order. |
| `WishlistPage.AddAllToCart` | src/pages/Wishlist.jsx:20-27 | One ADD_ITEM of quantity 1 per listed product, in list order. The toast carries the count, and there is no toast when the list is empty. |
| `WishlistPage.AddAllCoversWishlist` | src/pages/Wishlist.jsx:18-27 | Every action adds one wishlisted catalogue product, every such product is added, and an unmatched wishlist adds nothing. |
| `SeedProducts.CategoryOf` | scripts/seed_products.js:69 | A kept product's category is allowed: the string itself or the object's slug. |
| `SeedProducts.Transform` | scripts/seed_products.js:60-73 | Every field is copied, and the category is flattened to its allowed string. |
| `SeedProducts.SeedRows` | scripts/seed_products.js:52-73 | One row per kept product, in fetch order, each the transform of that product. |
| `SeedProducts.SeededRowsReachAGroup` | scripts/seed_products.js:43-49 | Every inserted row's category is allowed and belongs to one of the home page's groups. |
| `SeedProducts.SkinCareKept` | scripts/seed_products.js:43-55 | "skin-care" is kept in either shape and lands in "beauty". "beauty" and a null category are dropped. |
| `SeedProducts.ClearTable` | scripts/seed_products.js:28-31 | The clear step leaves exactly the rows whose id is 0. |
| `SeedProducts.SeedInsert` | scripts/seed_products.js:22-89 | The script inserts exactly when the clear succeeded and the fetch returned, and then it inserts the kept rows. |
| `Text.Trim` | src/pages/admin/ManageProducts.jsx:114 | The result is the stretch of the input that has only whitespace before and after it, and it neither starts nor ends with whitespace. It is empty exactly when the input is all whitespace, and it keeps every non-space character. |
| `Text.TrimDetermined` | src/pages/admin/ManageProducts.jsx:114 | Those properties leave one result only: any trimmed stretch of the input with only whitespace around it is the trim. |
| `Text.Includes` | src/pages/ManageOrders.jsx:40 | True exactly when the needle occurs at some index. |
| `Text.Prefix` | src/pages/ManageOrders.jsx:122 | A prefix of length n, or the whole string if shorter. |
| `Seqs.Dedup` | src/pages/Home.jsx:29 | No element repeats, and the elements are exactly those of the input. |
| `Seqs.DedupFirstAppearanceOrder` | src/pages/Home.jsx:29 | The distinct elements come in the order of their first appearance. |

## Left out

- **Backend and network.** The hosted database, the auth service, the realtime channels and the HTTP fetches are not
  modelled. Their answers are parameters and their writes are results. Timestamps (`updated_at`, `created_at`) are
  left out of the rows.
- **The cart reducer.** `src/reducer/cartReducer.js` is not part of this model. Merging, totals and removal are a
  function parameter, so the cart properties hold for every reducer but say nothing about its own arithmetic.
- Navbar.BadgeShowsForNonEmptyCart: takes "`totalItems` is the sum of the line quantities, each at least 1" as a
  precondition, because the reducer that computes `totalItems` is not part of this model.
- **Timers and races.** The 500 ms debounces of the cart sync and the two search boxes, and the in-flight request
  races, are not modelled. A debounced effect is modelled by what it does once it fires.
- **Server-side searches.** The `ilike` queries of the catalogue store and the admin product page run in the
  database and are left out.
- **Money.** Prices, totals and revenue are floating point in the source. Prices are `real` and are only copied;
  revenue and its `toFixed(2)` are left out.
- **Unicode text rules.** `Text.Lower` maps only ASCII A-Z, while JavaScript's `toLowerCase` also maps other
  letters, so the case-insensitivity lemmas hold for ASCII names only. String lengths count `char`s, not UTF-16 code
  units.
- **Object prototype keys.** `Home.CategoryGroup` treats only the four group keys as groups. In the source,
  `categoryGroups[k]` is also truthy for inherited keys such as "constructor", and `.includes` on that value throws.
- **Route id parsing.** `ProductPage.FindById` takes the route id after `Number(id)`. The parsing is a parameter
  (`None` for NaN).
- AuthModal.Validate: does not model the browser's own address check. The e-mail input has `type="email"` in a form
  without `noValidate`, so the browser checks the value before react-hook-form runs and refuses some values the
  pattern accepts, such as "a@b@c". The browser's rule, and its trimming of the typed value, are left out; the
  contract speaks of the values that pass that check.
- ProtectedRoute.RouteProtection: models React Router's case-insensitive matching for ASCII letters and its
  allowance of trailing slashes. Percent-decoding of the location and repeated slashes inside it are left out.
- **Admin form `required` attributes.** The admin product form's browser `required` attributes are left out; the
  save is modelled for any form.
- **Unvalidated inputs.**
  - The pincode lookup's response handling (`setValue` of city and state) is left out; only when the lookup fires
    is modelled.
- **Presentation.** Toasts, console logging, animations, the dropdown and scroll handlers, the invoice and account
  pages (`src/pages/Account.jsx`), the dashboard page, the footer, the hero and the layout are not modelled.
- **Category scripts.** `scripts/check_db_categories.js` and `scripts/list_categories.js` only print what the
  database holds and are not modelled.
- **React runtime.** Hook ordering, effect scheduling and re-render timing are not modelled. The admin product page
  calls hooks after its early return for narrow windows; this is not modelled.
- **Routes.** The admin product page and the wishlist page are not routed in `src/App.jsx`; they are modelled as
  pages nonetheless.

## Findings

| source | as written | input that shows it | evidently intended | confidence | as-written member | corrected member |
|---|---|---|---|---|---|---|
| src/components/Navbar.jsx:298 | `AuthModal` is mounted once and seeds its `view` state from `initialView` only on that first render; `openAuthModal(view)` changes only the prop | a fresh page, then "Join ShopEase" (`openAuthModal("signup")`): the modal opens on the sign-in form (`Navbar.JoinOpensSignInView`) | the modal opens in the view the caller asked for, even after an in-modal switch (`Navbar.OpenAfterSwitchShowsRequested`) | high (not executed) | `Navbar.OpenAsWritten` | `Navbar.Open` |
