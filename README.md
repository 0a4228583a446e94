# kadash storefront — a Dafny model of its client-side logic

kadash is a Next.js storefront for a beauty-products shop. This project models the
decisions its pages and stores make, and proves properties of them:

- **Shopping cart store.** An ordered list of lines keyed by variant id.
  - `addItem` merges by adding to an existing line.
  - `updateQuantity` replaces the quantity, and removes the line below 1.
  - `removeItem` and `clearCart` drop lines.
  - Two folds give the item count and the subtotal.
- **Cart page and cart drawer.** The free-shipping rule (50000, otherwise 8000), the
  totals, and the lines' +/− buttons.
- **Shipping configuration.** The per-store lookup with its defaults, and the
  header banner's choice of threshold.
- **Auth store and auth guard.**
  - The store holds the session: token, signed-in flag, payload, `hasHydrated`.
  - `login` rejects undecodable and expired tokens.
  - `logout`, and the rehydration callback that re-checks a stored token.
  - The guard's redirect and render decision.
- **Forms.** Field-by-field error messages and submit gates for login, registration,
  the account page's profile and address forms, and the three-step password
  recovery. They share one validator for the e-mail pattern
  `^[^\s@]+@[^\s@]+\.[^\s@]+$` and one for the ten-digit phone.
- **Listings.**
  - Catalogue pagination: twelve per page, clamped previous/next, the compact page
    links with ellipses.
  - Order search and status filter.
  - The order card's status mapping and line preview.
  - The FAQ search.
  - The product card's add-to-cart and favourite toggle.
  - The favourites page's stock, price and heading.

## Layout

There is one module per source file of the storefront, plus four shared modules:

- `Common`: `Option`, `filter`/`reduce`/`slice`, and subsequences.
- `Text`: ECMAScript white space, `trim`, white-space removal, ASCII lower-casing,
  `includes`.
- `Validators`: the e-mail automaton, proved equal to the pattern, and the phone
  check.
- `FormChecks`: the e-mail, new-password and confirmation checks, with their messages.
  The registration and password-recovery pages both write out all three, and the login page
  writes out the e-mail check, each with the same messages.

How each kind of source code is modelled:

- **Stores and page state that the code updates in place** are classes:
  `CartStore.ShoppingCartStore`, `AuthStore.AuthStoreState`, `CartDrawer.DrawerCart`,
  `ProductsPage.ProductsPageState` and `PasswordRecovery.RecoveryPage`.
  - Each method's `ensures` ties the new state to a pure function of the old state.
  - The lemmas are stated about those pure functions.
- **Submit handlers** that fill an error record field by field are methods. Each
  states the record it produces and when a request is made. The registration
  handler assigns each field's message from that field's function, in the
  source's order.
- **Pure expressions** are functions whose contracts state what the result means.

## Model

| member | source | states |
|---|---|---|
| CartStore.WithQuantity | store/shopping-cart-store.ts:49 | `{...item, quantity}` keeps every snapshot field of the item and has exactly the given quantity |
| CartStore.WithAdded | store/shopping-cart-store.ts:34-51 | the list `addItem` leaves: merged into the present line or appended; AddExisting, AddNew and FindAfterAdd state it |
| CartStore.WithoutVariant | store/shopping-cart-store.ts:54-58 | the list `removeItem` leaves; RemoveSpec and FindAfterRemove state that exactly the lines with another id remain, in order |
| CartStore.WithUpdated | store/shopping-cart-store.ts:60-71 | the list `updateQuantity` leaves; UpdateSpec and FindAfterUpdate state that below 1 it is the removal and otherwise the replacement of that line's quantity |
| CartStore.Find | store/shopping-cart-store.ts:36 | `find` by variant id returns a line exactly when the id is present, and that line is in the cart with that id |
| CartStore.FindAppend | store/shopping-cart-store.ts:36 | the first match of a list with one line appended is the old match, else the new line if its id matches |
| CartStore.FindUnique | store/shopping-cart-store.ts:36 | with unique ids, `find` returns the line at the id's position |
| CartStore.AddExisting | store/shopping-cart-store.ts:36-45 | adding a present variant keeps the length, raises only that line's quantity by `quantity`, keeps its price and snapshot, and leaves other lines as they were |
| CartStore.AddNew | store/shopping-cart-store.ts:48-50 | adding an absent variant appends `{...item, quantity}` at the end and keeps every earlier line |
| CartStore.AddExistingTotals | store/shopping-cart-store.ts:36-45 | merging into a line raises the item count by `quantity` and the subtotal by the line's first-seen price times `quantity` |
| CartStore.AddNewTotals | store/shopping-cart-store.ts:48-50 | appending raises the item count by `quantity` and the subtotal by price times `quantity` |
| CartStore.AddKeepsUnique | store/shopping-cart-store.ts:34-51 | `addItem` preserves uniqueness of variant ids |
| CartStore.AddKeepsPositive | store/shopping-cart-store.ts:34-51 | if every quantity is at least 1 and `addItem` is called with quantity at least 1, every quantity stays at least 1 |
| CartStore.FindAfterAdd | store/shopping-cart-store.ts:34-51 | read as a map from variant id to line, `addItem` changes only the added id: its quantity grows by `quantity`, or it gets the new line |
| CartStore.FindAddToLine | store/shopping-cart-store.ts:40-44 | the `map` of the merge branch changes only the line with that id, by adding `quantity` |
| CartStore.RepeatedAdds | store/shopping-cart-store.ts:34-51 | repeated adds of a new variant leave one appended line whose quantity is the sum of the quantities passed |
| CartStore.SumSplitLast | store/shopping-cart-store.ts:34 | the sum of the quantities splits off its last term |
| CartStore.AddScenario | store/shopping-cart-store.ts:34-51 | example: adding 1 unit priced 1000 to an empty cart, then 2 more, gives one line with quantity 3, item count 3 and subtotal 3000 |
| CartStore.RemoveSpec | store/shopping-cart-store.ts:54-58 | `removeItem` keeps exactly the lines with another id, in their order, and no line with that id remains |
| CartStore.RemoveAbsent | store/shopping-cart-store.ts:54-58 | removing an absent id leaves the cart unchanged |
| CartStore.RemoveIdempotent | store/shopping-cart-store.ts:54-58 | removing twice is removing once |
| CartStore.RemoveTotals | store/shopping-cart-store.ts:54-58 | removing a present line lowers the item count by its quantity and the subtotal by its line total |
| CartStore.RemoveKeepsInvariants | store/shopping-cart-store.ts:54-58 | removal keeps ids unique and quantities positive |
| CartStore.FindAfterRemove | store/shopping-cart-store.ts:54-58 | after removal the id has no line and every other id keeps its line |
| CartStore.UpdateSpec | store/shopping-cart-store.ts:60-71 | `updateQuantity` below 1 is exactly `removeItem`; otherwise it keeps the length, sets that line's quantity to exactly q, keeps the rest of that line and every other line, and an absent id changes nothing |
| CartStore.UpdateKeepsInvariants | store/shopping-cart-store.ts:60-71 | `updateQuantity` keeps ids unique and, since it removes below 1, quantities positive |
| CartStore.FindAfterUpdate | store/shopping-cart-store.ts:60-71 | read as a map, `updateQuantity` changes only that id: removed below 1, otherwise its quantity becomes q |
| CartStore.FindSetLine | store/shopping-cart-store.ts:67-71 | the `map` of `updateQuantity` changes only the line with that id, to quantity q |
| CartStore.UpdateTotals | store/shopping-cart-store.ts:67-71 | setting a line to q at least 1 changes the item count by q minus the old quantity and the subtotal by price times that difference |
| CartStore.SelectItemCount | store/shopping-cart-store.ts:84-85 | the sum of the quantities; AddExistingTotals, AddNewTotals, RemoveTotals and UpdateTotals state its change under each action |
| CartStore.SelectSubtotal | store/shopping-cart-store.ts:87-88 | the sum of price times quantity; the same four lemmas state its change under each action |
| CartStore.ShoppingCartStore.constructor | store/shopping-cart-store.ts:32 | the store starts with no lines and satisfies its invariant |
| CartStore.ShoppingCartStore.AddItem | store/shopping-cart-store.ts:34-51 | the items become the merge-or-append of the old items, and the invariant is kept for quantities at least 1 |
| CartStore.ShoppingCartStore.RemoveItem | store/shopping-cart-store.ts:54-58 | the items become the old items without that id; the invariant is kept |
| CartStore.ShoppingCartStore.UpdateQuantity | store/shopping-cart-store.ts:60-71 | the items become the removal (q < 1) or the replacement (q ≥ 1) of the old items; the invariant is kept |
| CartStore.ShoppingCartStore.ClearCart | store/shopping-cart-store.ts:74 | the items become empty |
| CartPage.ShippingCostFor | app/carrito/page.tsx:20-36 | shipping is 0 exactly when the subtotal reaches 50000, and 8000 otherwise |
| CartPage.Total | app/carrito/page.tsx:35-37 | the total is the subtotal at or above 50000 and the subtotal plus 8000 below it; so it always lies between the two |
| CartPage.TotalExamples | app/carrito/page.tsx:35-37 | example: a subtotal of 40000 totals 48000; 60000 totals 60000 |
| CartPage.Decrement | app/carrito/page.tsx:100-102 | `updateQuantity(id, quantity - 1)`; DecrementLastUnit states that on one unit it removes the line |
| CartPage.Increment | app/carrito/page.tsx:112-114 | `updateQuantity(id, quantity + 1)`; IncrementAddsOne states its effect on the line and the subtotal |
| CartPage.ShippingLabelFor | app/carrito/page.tsx:148-150 | the shipping row reads "Gratis" exactly when the cost is 0, and shows the cost otherwise |
| CartPage.Render | app/carrito/page.tsx:39-157 | an empty cart shows the empty view; otherwise the summary shows the store's subtotal, "Gratis" exactly at or above the threshold, and the total as subtotal plus the shown shipping |
| CartPage.DecrementLastUnit | app/carrito/page.tsx:100-102 | minus on a line of one unit removes that line, shortens the cart by one, and lowers the subtotal by its price |
| CartPage.RemoveLength | app/carrito/page.tsx:86 | removing a present line of a cart with unique ids shortens it by exactly one |
| CartPage.IncrementAddsOne | app/carrito/page.tsx:113 | plus raises that line's quantity by exactly one and the subtotal by its price, and keeps every other line |
| CartDrawer.RemainingForFreeShipping | components/layout/shopping-cart-drawer.tsx:71-74 | the amount still needed is never negative, is 0 exactly when the subtotal reaches 50000, and otherwise brings the subtotal to 50000 |
| CartDrawer.ShippingLabelFor | components/layout/shopping-cart-drawer.tsx:208-210 | the row reads "Gratis" exactly when nothing remains, and 8000 otherwise |
| CartDrawer.ChangeQuantity | components/layout/shopping-cart-drawer.tsx:78-86 | the `map` of `updateQuantity`; ChangeSpec and ChangeSubtotal state its effect |
| CartDrawer.WithoutId | components/layout/shopping-cart-drawer.tsx:88-90 | the `filter` of `removeItem`; RemoveSpec states which lines it keeps |
| CartDrawer.Subtotal | components/layout/shopping-cart-drawer.tsx:64-67 | the sum of price times quantity; ChangeSubtotal states its change under +/− |
| CartDrawer.Total | components/layout/shopping-cart-drawer.tsx:69 | equal to the subtotal, without shipping; SampleTotals gives its value on the sample lines |
| CartDrawer.LabelFromSubtotal | components/layout/shopping-cart-drawer.tsx:71-74 | the row reads "Gratis" exactly when the subtotal reaches 50000 |
| CartDrawer.ChangeSpec | components/layout/shopping-cart-drawer.tsx:78-86 | +/− keeps the length and the ids, sets the matching line to `max(1, quantity + delta)`, and keeps the other lines; positivity and unique ids are preserved |
| CartDrawer.ChangeSubtotal | components/layout/shopping-cart-drawer.tsx:78-86 | with unique ids, changing one line moves the subtotal by its price times the change in its quantity |
| CartDrawer.RemoveSpec | components/layout/shopping-cart-drawer.tsx:88-90 | removal keeps exactly the lines with another id, in order, and preserves positivity and unique ids |
| CartDrawer.SampleTotals | components/layout/shopping-cart-drawer.tsx:37-69 | example: the three sample lines have subtotal and total 130500, which leaves nothing for free shipping |
| CartDrawer.DrawerCart.constructor | components/layout/shopping-cart-drawer.tsx:37-62 | the drawer starts with the three sample lines, which satisfy its invariant |
| CartDrawer.DrawerCart.UpdateQuantity | components/layout/shopping-cart-drawer.tsx:78-86 | the lines become the +/− update of the old lines; the invariant is kept |
| CartDrawer.DrawerCart.RemoveItem | components/layout/shopping-cart-drawer.tsx:88-90 | the lines become the old lines without that id; the invariant is kept |
| ShippingConfigService.GetDefaults | app/carrito/services/shipping-config.service.ts:38-43 | the defaults are threshold 50000 and cost 8000 |
| ShippingConfigService.GetShippingConfig | app/carrito/services/shipping-config.service.ts:9-36 | the configuration for a store; NoStoreNoFetch, FailureGivesDefaults, FieldsCoalescedIndependently and ZeroThresholdKept state each of its branches |
| ShippingConfigService.NoStoreNoFetch | app/carrito/services/shipping-config.service.ts:15-20 | a missing or 0 store id gives the defaults whatever the server would answer |
| ShippingConfigService.FailureGivesDefaults | app/carrito/services/shipping-config.service.ts:26-35 | a response that is not OK, or a thrown failure, gives the defaults |
| ShippingConfigService.FieldsCoalescedIndependently | app/carrito/services/shipping-config.service.ts:28-32 | each field of an OK answer is used as given, or replaced by its own default when null, and does not depend on the other field |
| ShippingConfigService.ZeroThresholdKept | app/carrito/services/shipping-config.service.ts:29-30 | a threshold of 0 from the server is kept, because `??` replaces only null |
| Header.ThresholdForBanner | components/layout/header.tsx:31-34 | a positive prop is used as it is; otherwise the config's threshold when there is a config; otherwise 50000 |
| Header.ZeroConfigThresholdKept | components/layout/header.tsx:31-34 | a config threshold of 0 reaches the banner, with the prop absent or 0 |
| Header.PropWins | components/layout/header.tsx:31-33 | a positive prop wins over any config |
| AuthStore.AfterLogin | store/auth-store.ts:49-63 | a login either changes nothing or the token decoded and has not expired; in that case the token, the signed-in flag and the payload are set and nothing else changes |
| AuthStore.AfterLogout | store/auth-store.ts:64-70 | logout clears the token, the flag and the payload, and keeps `hasHydrated` |
| AuthStore.WithHasHydrated | store/auth-store.ts:45-47 | only `hasHydrated` changes |
| AuthStore.Persisted | store/auth-store.ts:74 | `partialize` writes the token and nothing else; Restored and PersistRoundTrip state the storage round trip |
| AuthStore.Restored | store/auth-store.ts:74 | the restored state persists exactly the stored token |
| AuthStore.Expired | store/auth-store.ts:52 | a non-zero `exp` in seconds is before `now` in milliseconds; LoginExpiry states its boundary cases |
| AuthStore.Rehydrate | store/auth-store.ts:75-92 | the rehydration callback; RehydrateOutcome, RehydrateKeepsInvariant and RehydrateSingleClock state its outcomes |
| AuthStore.LoginUndecodable | store/auth-store.ts:50-62 | a token the decoder throws on leaves the state as it is |
| AuthStore.LoginExpiry | store/auth-store.ts:52-54 | an expired token changes nothing; an expiry of exactly now in milliseconds, a 0 expiry and a missing one let the login through |
| AuthStore.LogoutIdempotent | store/auth-store.ts:64-70 | logout twice is logout once, and it leaves the initial session apart from `hasHydrated` |
| AuthStore.InvariantKept | store/auth-store.ts:45-70 | login, logout and `setHasHydrated` keep "signed in implies a token" |
| AuthStore.RehydrateKeepsInvariant | store/auth-store.ts:75-92 | rehydration keeps "signed in implies a token" |
| AuthStore.RehydrateOutcome | store/auth-store.ts:75-92 | after rehydration `hasHydrated` is set; no token changes nothing else; an undecodable token, or one expired at the callback's own clock reading, ends signed out; one still valid at both readings ends signed in with its payload; one valid at the first reading and expired at `login`'s stays in the store while the session remains signed out |
| AuthStore.RehydrateSingleClock | store/auth-store.ts:79-86 | with one clock reading, a decodable stored token ends signed in exactly when it has not expired |
| AuthStore.PersistRoundTrip | store/auth-store.ts:74 | restoring what was persisted persists the same token, and the restored state is signed out until the callback runs |
| AuthStore.AuthStoreState.constructor | store/auth-store.ts:40-43 | the store starts signed out, without token and not hydrated |
| AuthStore.AuthStoreState.SetHasHydrated | store/auth-store.ts:45-47 | the state becomes the old state with `hasHydrated` set |
| AuthStore.AuthStoreState.Login | store/auth-store.ts:49-63 | the state becomes the login transition of the old state, keeping the invariant |
| AuthStore.AuthStoreState.Logout | store/auth-store.ts:64-70 | the state becomes the logout transition of the old state |
| AuthStore.AuthStoreState.OnRehydrate | store/auth-store.ts:75-92 | calling the store's own actions in order, the state becomes the rehydration transition of the old state, keeping the invariant |
| AuthGuard.RedirectFor | components/auth/auth-guard.tsx:18-30 | nothing happens before hydration; protected mode redirects to login exactly when signed out; guest mode redirects to the account exactly when signed in |
| AuthGuard.ScreenFor | components/auth/auth-guard.tsx:32-60 | "loading" exactly before hydration; "redirecting" exactly when a redirect is due; the children otherwise |
| AuthGuard.RedirectMatchesScreen | components/auth/auth-guard.tsx:18-60 | the children are shown exactly when no redirect is issued and the store has hydrated |
| AuthGuard.DefaultIsProtected | components/auth/auth-guard.tsx:13 | omitting `mode` behaves as protected |
| AuthGuard.ModesComplementary | components/auth/auth-guard.tsx:21-29 | once hydrated, exactly one of the two modes redirects for any sign-in state |
| ProductsPage.TotalPages | app/productos/page.tsx:73 | the page count is the ceiling of n / 12, and 0 exactly when there are no products |
| ProductsPage.StartIndex | app/productos/page.tsx:74 | `(currentPage - 1) * 12`; PageContents states that the page's slice starts there |
| ProductsPage.CurrentProducts | app/productos/page.tsx:74-78 | a page shows at most twelve products |
| ProductsPage.PageContents | app/productos/page.tsx:74-78 | page p shows the products from (p−1)·12 to p·12, clipped to the list |
| ProductsPage.PagesArePrefix | app/productos/page.tsx:73-78 | the first k pages together are the first 12k products |
| ProductsPage.PagesCoverCatalogue | app/productos/page.tsx:73-78 | all the pages together list every product exactly once, in order |
| ProductsPage.PreviousPage | app/productos/page.tsx:228 | previous goes one page back, and never below 1 |
| ProductsPage.NextPage | app/productos/page.tsx:267 | next goes one page on, and never past the last page |
| ProductsPage.NavigationInRange | app/productos/page.tsx:228-267 | from a page in range, both buttons stay in range |
| ProductsPage.EmptyCatalogueNext | app/productos/page.tsx:267 | with no products there are no pages, and next would go to page 0 |
| ProductsPage.PageNumbers | app/productos/page.tsx:238 | the numbers are 1 to totalPages in order |
| ProductsPage.VisiblePages | app/productos/page.tsx:238-244 | the filtered page links; VisibleMembership and VisibleIncreasing state which links and in what order |
| ProductsPage.VisibleMembership | app/productos/page.tsx:238-244 | a link is listed exactly when its page is in range and is the first, the last, or within one of the current page |
| ProductsPage.VisibleIncreasing | app/productos/page.tsx:238-244 | the links are in strictly increasing order |
| ProductsPage.EllipsisBefore | app/productos/page.tsx:247 | an ellipsis before a non-first link whose predecessor is not the page before it; EllipsisMarksGap states that this is exactly a hidden page between the two links |
| ProductsPage.EllipsisMarksGap | app/productos/page.tsx:245-249 | an ellipsis precedes a link exactly when some page between it and the previous link is not listed |
| ProductsPage.FirstPageLinks | app/productos/page.tsx:238-249 | example: with 48 products, from page 1 the links are 1, 2 and 4, with an ellipsis only before 4 |
| ProductsPage.ProductsPageState.constructor | app/productos/page.tsx:43 | the page starts at 1, in range |
| ProductsPage.ProductsPageState.Previous | app/productos/page.tsx:228 | the current page becomes the previous page, staying in range |
| ProductsPage.ProductsPageState.Next | app/productos/page.tsx:267 | the current page becomes the next page, staying in range |
| ProductsPage.ProductsPageState.GoTo | app/productos/page.tsx:254 | choosing a listed link makes it the current page, in range |
| OrdersPage.NoFilterIsIdentity | app/cuenta/ordenes/page.tsx:23-35 | a blank search with status "all" lists every order |
| OrdersPage.FilterOrders | app/cuenta/ordenes/page.tsx:23-35 | `filteredOrders`; FilterMembershipIff, FilterKeepsOrder, FilterIdempotent and NoFilterIsIdentity state its result |
| OrdersPage.FilterMembershipIff | app/cuenta/ordenes/page.tsx:23-35 | an order is listed exactly when it is an order of the account, its lower-cased code includes the trimmed lower-cased search (when the search is not blank), and its status equals the filter (unless "all") |
| OrdersPage.FilterKeepsOrder | app/cuenta/ordenes/page.tsx:23-35 | the listed orders keep the account's order |
| OrdersPage.FilterIdempotent | app/cuenta/ordenes/page.tsx:23-35 | filtering the listed orders again changes nothing |
| OrdersPage.EmptyStateFor | app/cuenta/ordenes/page.tsx:97-102 | no message while something is listed; "no orders yet" exactly when the account has none; "no matches" exactly when it has some but none is listed |
| OrdersPage.EmptyStateOfPage | app/cuenta/ordenes/page.tsx:97-102 | for the page's own filter, "no matches" means that the account has orders and that none passes the search and status |
| OrderCard.StatusInfoFor | components/orders/order-card.tsx:71-72 | a backend status in `STATUS_MAP` gets the configuration of the card status it maps to; a card status gets its own configuration; any other string gets the "pending" configuration |
| OrderCard.BackendKeysConfigured | components/orders/order-card.tsx:15-60 | every value of `STATUS_MAP` has an entry in `statusConfig` |
| OrderCard.CardKeysUnmapped | components/orders/order-card.tsx:15-60 | no key of `statusConfig` is a key of `STATUS_MAP`, so a card status passes `?? status` unchanged |
| OrderCard.MappedStatus | components/orders/order-card.tsx:71 | `STATUS_MAP[status] ?? status`; BackendStatuses states the four backend values and CardStatusPassesThrough that a card status maps to itself |
| OrderCard.BackendStatuses | components/orders/order-card.tsx:15-60 | PENDING, PAID, SHIPPED and CANCELLED map to pending, processing, shipped and cancelled, with their labels |
| OrderCard.CardStatusPassesThrough | components/orders/order-card.tsx:71-72 | a status that already is a card status passes through unchanged and gets its own configuration |
| OrderCard.UnknownFallsBackToPending | components/orders/order-card.tsx:71-72 | any other status is shown as pending |
| OrderCard.StatusInfoAlwaysKnown | components/orders/order-card.tsx:34-72 | the badge label is always one of the five labels |
| OrderCard.Preview | components/orders/order-card.tsx:103 | the preview is the first min(2, n) lines |
| OrderCard.OverflowLabel | components/orders/order-card.tsx:117-119 | "+k producto(s) más" appears exactly when there are more than two lines, with k = n − 2 and the plural exactly when k > 1 |
| OrderCard.CountLabel | components/orders/order-card.tsx:129 | the count is n, with the plural exactly when n > 1 |
| OrderCard.PreviewPlusOverflow | components/orders/order-card.tsx:103-119 | the previewed lines plus the counted overflow are all the lines |
| FaqPage.Matches | app/preguntas-frecuentes/page.tsx:140-142 | a question matches when its lower-cased question or answer includes the lower-cased term; ResultSound and ResultComplete state that exactly the matching questions are shown |
| FaqPage.FilterCategory | app/preguntas-frecuentes/page.tsx:137-144 | filtering a category keeps its name |
| FaqPage.MapCategories | app/preguntas-frecuentes/page.tsx:136-144 | the `map` keeps one entry per category |
| FaqPage.FilterFaqs | app/preguntas-frecuentes/page.tsx:136-145 | `filteredFaqs`; ResultSound, ResultComplete, ResultKeepsOrder and EmptyTermKeepsAll state its result |
| FaqPage.EmptyTermKeepsAll | app/preguntas-frecuentes/page.tsx:136-145 | an empty search shows every category, with every question, when no category is empty |
| FaqPage.ResultSound | app/preguntas-frecuentes/page.tsx:136-145 | every shown category has questions, every shown question matches in its question or answer, and each shown category comes from the table |
| FaqPage.ResultComplete | app/preguntas-frecuentes/page.tsx:136-145 | every matching question is shown, under its category |
| FaqPage.ResultKeepsOrder | app/preguntas-frecuentes/page.tsx:136-145 | categories and questions keep the table's order |
| Validators.ValidateEmail | app/auth/register/page.tsx:37-40 | the e-mail pattern run as an automaton; ValidateEmailCorrect states exactly which strings it accepts |
| Validators.ValidatePhone | app/auth/register/page.tsx:42-45 | ten ASCII digits once white space is removed; PhoneIgnoresSpaces, PhoneShape and PhoneLength state its properties |
| Validators.ValidateEmailCorrect | app/auth/register/page.tsx:37-40 | the matcher accepts exactly the strings of the form local@domain.tld where every part is non-empty, without white space or '@' |
| Validators.EmailAccepted | app/auth/login/page.tsx:18-21 | example: "a@b.co" matches the pattern |
| Validators.EmailDotAfterAtRefused | app/auth/login/page.tsx:18-21 | example: "a@.co" does not match |
| Validators.PhoneIgnoresSpaces | app/auth/register/page.tsx:42-45 | inserting white space anywhere in a phone does not change the verdict |
| Validators.PhoneLength | app/auth/register/page.tsx:42-45 | a valid phone has at least ten characters |
| Validators.PhoneShape | app/auth/register/page.tsx:42-45 | on a string without white space the check holds exactly for ten ASCII digits |
| Text.Trim | app/cuenta/page.tsx:144 | `trim`; TrimSlice, BlankIffAllSpaces and TrimIdempotent state it |
| Text.TrimSlice | app/cuenta/page.tsx:144 | `trim` returns a slice of the input with only white space cut from either end, and neither end of the result is white space |
| Text.BlankIffAllSpaces | app/cuenta/page.tsx:144 | `!s.trim()` holds exactly when the string is all white space |
| Text.TrimIdempotent | app/cuenta/page.tsx:144 | trimming twice is trimming once |
| Text.StripSpaces | app/auth/register/page.tsx:44 | `replace(/\s/g, "")` leaves no white space and never lengthens; StripSpacesMembership, StripSpacesAppend, StripSpacesNoop and StripSpacesAllSpaces state which characters it keeps |
| Text.StripSpacesAppend | app/auth/register/page.tsx:44 | removing white space distributes over concatenation |
| Text.StripSpacesNoop | app/auth/register/page.tsx:44 | a string without white space is left unchanged |
| Text.StripSpacesAllSpaces | app/auth/register/page.tsx:44 | a string of white space only is removed entirely |
| Text.StripSpacesMembership | app/auth/register/page.tsx:44 | a character survives exactly when it occurs in the input and is not white space |
| Text.IsSpace | app/auth/register/page.tsx:44 | `\s`: the ECMAScript WhiteSpace and LineTerminator code points (tab, LF, VT, FF, CR, space, U+00A0, U+1680, U+2000–U+200A, U+2028, U+2029, U+202F, U+205F, U+3000, U+FEFF) |
| Text.Includes | app/cuenta/ordenes/page.tsx:28 | `includes`: the term occurs contiguously in the string; IncludesEmpty states that every string includes the empty term |
| Text.ToLower | app/cuenta/ordenes/page.tsx:26-28 | lower-casing keeps the length and maps each character by `LowerChar` |
| Text.LowerChar | app/cuenta/ordenes/page.tsx:26-28 | an ASCII capital becomes its lower-case letter, 32 code points on ('A' to 'a'); every other character is unchanged |
| Text.ToLowerIdempotent | app/cuenta/ordenes/page.tsx:26-28 | lower-casing twice is lower-casing once |
| Text.Utf16Length | app/auth/register/page.tsx:62 | `.length`: the count of UTF-16 code units, between the number of characters and twice it |
| Text.Utf16LengthBmp | app/auth/register/page.tsx:62 | for characters up to U+FFFF, `.length` is the number of characters |
| Text.Utf16LengthAstral | app/auth/register/page.tsx:62 | example: two emoji have `.length` 4 |
| FormChecks.EmailError | app/auth/login/page.tsx:27-31 | the message is empty exactly for a matching address, "required" exactly for the empty string, and "invalid" exactly for a non-empty address that does not match; the registration and recovery pages repeat this check |
| LoginPage.PasswordError | app/auth/login/page.tsx:33-37 | empty exactly from six UTF-16 code units; "required" exactly for the empty string; "too short" exactly for one to five |
| LoginPage.ErrorsFor | app/auth/login/page.tsx:25-37 | the two messages; ProceedsIff and ErrorsIndependent state when they are empty and what each depends on |
| LoginPage.HandleSubmit | app/auth/login/page.tsx:23-45 | the messages are the two field messages, and the attempt proceeds exactly when both are empty |
| LoginPage.ProceedsIff | app/auth/login/page.tsx:41-44 | the attempt proceeds exactly for a matching address and a password of at least six UTF-16 code units |
| LoginPage.ErrorsIndependent | app/auth/login/page.tsx:25-37 | each message depends only on its own field |
| RegisterPage.NameError | app/auth/register/page.tsx:60-64 | empty exactly from three UTF-16 code units (untrimmed); "required" exactly for the empty name; "too short" exactly for one or two |
| RegisterPage.NuipError | app/auth/register/page.tsx:66-71 | empty exactly from ten UTF-16 code units; "required" exactly for the empty value; "too short" exactly for one to nine |
| RegisterPage.PhoneError | app/auth/register/page.tsx:79-83 | empty exactly for a valid phone; "required" exactly for the empty string; "invalid" exactly for a non-empty phone that is not valid |
| FormChecks.PasswordError | app/auth/register/page.tsx:85-89 | empty exactly from eight UTF-16 code units; "required" exactly for the empty string; "too short" exactly for one to seven; the recovery page repeats it |
| FormChecks.ConfirmError | app/auth/register/page.tsx:91-95 | empty exactly for a non-empty confirmation equal to the password; "required" exactly for the empty one; "mismatch" exactly for a different non-empty one; the recovery page repeats it |
| RegisterPage.TermsError | app/auth/register/page.tsx:97-99 | empty exactly when the terms are accepted, and the "accept the terms" message exactly when they are not |
| RegisterPage.ErrorsFor | app/auth/register/page.tsx:58-99 | the seven messages, one per field function; SubmitGate states when all are empty |
| RegisterPage.HandleSubmit | app/auth/register/page.tsx:47-111 | the messages are the seven field messages; the request is built exactly when all are empty, and it carries name, e-mail, identification, phone and password |
| RegisterPage.SubmitGate | app/auth/register/page.tsx:58-104 | the request is made exactly for a name of three or more UTF-16 code units, an identification of ten or more, a matching e-mail, a valid phone, a password of eight or more repeated in the confirmation, and accepted terms |
| AccountPage.StatusBadgeClass | app/cuenta/page.tsx:65-78 | a class is given exactly for SHIPPED, PAID, PENDING and CANCELLED, and "" for anything else |
| AccountPage.BadgeClassesDistinct | app/cuenta/page.tsx:65-78 | the four known statuses get four different classes |
| AccountPage.NameError | app/cuenta/page.tsx:144-148 | empty exactly when the trimmed name has three or more UTF-16 code units; "required" exactly for a blank name; "too short" exactly for a non-blank one whose trim is shorter |
| AccountPage.EmailError | app/cuenta/page.tsx:150-154 | empty exactly when the trimmed address matches; "required" exactly for a blank one; "invalid" exactly for a non-blank one whose trim does not match |
| AccountPage.PhoneError | app/cuenta/page.tsx:156-158 | empty exactly for a blank phone or a valid one, since the phone is optional; "invalid" exactly for a non-blank phone that is not valid |
| AccountPage.NuipError | app/cuenta/page.tsx:160-164 | empty exactly when the trimmed value has ten or more UTF-16 code units; "required" exactly for a blank one; "too short" exactly for a non-blank one whose trim is shorter |
| AccountPage.EditErrorsFor | app/cuenta/page.tsx:144-164 | the four messages of the profile form; EditGate states when all are empty |
| AccountPage.TrimmedOrNone | app/cuenta/page.tsx:174 | `s.trim() \|\| undefined` is absent exactly for a blank string, and otherwise the non-empty trimmed string |
| AccountPage.HandleEditSubmit | app/cuenta/page.tsx:135-178 | the messages are the four field messages; the update is sent exactly when all are empty, with the trimmed fields and the phone only when not blank |
| AccountPage.EditGate | app/cuenta/page.tsx:144-167 | the update is sent exactly when the trimmed name has three or more UTF-16 code units, the trimmed e-mail matches, the phone is blank or valid, and the trimmed identification has ten or more |
| AccountPage.AddressErrorsFor | app/cuenta/page.tsx:203-206 | the `err` record of the address form; AddressErrorKeys and AddressGate state its keys |
| AccountPage.AddressDataFor | app/cuenta/page.tsx:211-233 | the trimmed address sent to create or update; AddressGate states which optional fields are sent |
| AccountPage.AddressErrorKeys | app/cuenta/page.tsx:203-206 | the error record has an entry for label, address line or city exactly when that field is blank |
| AccountPage.BuildAddressErrors | app/cuenta/page.tsx:203-206 | filled one blank field at a time, the record is the one for the three blank answers |
| AccountPage.HandleAddressSubmit | app/cuenta/page.tsx:201-233 | the error record as above; a request exactly when it is empty; an update of the edited address when one is being edited, a creation otherwise, with the trimmed data |
| AccountPage.AddressGate | app/cuenta/page.tsx:203-230 | a request is made exactly when label, address line and city are all non-blank; department and phone are sent exactly when not blank |
| PasswordRecovery.CodeError | app/auth/recuperar-contrasena/page.tsx:75-77 | empty exactly for a code of six UTF-16 code units, and the "enter the 6-digit code" message exactly otherwise |
| PasswordRecovery.AfterStep1 | app/auth/recuperar-contrasena/page.tsx:46-69 | `handleStep1`; StepAdvances, ValidationFailureKeepsStep and HandlersKeepOtherMessages state its effect |
| PasswordRecovery.AfterStep2 | app/auth/recuperar-contrasena/page.tsx:71-92 | `handleStep2`; the same three lemmas and EnabledCodeSubmitPasses state its effect |
| PasswordRecovery.AfterStep3 | app/auth/recuperar-contrasena/page.tsx:94-127 | `handleStep3`; ResetRequestedIff, ValidationFailureKeepsStep and HandlersKeepOtherMessages state its effect |
| PasswordRecovery.AfterBack | app/auth/recuperar-contrasena/page.tsx:132-148 | the back button; StepStaysInRange states that the step stays in range |
| PasswordRecovery.BackShown | app/auth/recuperar-contrasena/page.tsx:132-148 | the back button replaces the home link exactly when the step is not 1; StepStaysInRange states that going back from there stays in 1..3 |
| PasswordRecovery.Step2SubmitDisabled | app/auth/recuperar-contrasena/page.tsx:227 | the code button is disabled while loading or while the code is not six UTF-16 code units long; EnabledCodeSubmitPasses states that an enabled button submits a code the handler accepts |
| PasswordRecovery.StepStaysInRange | app/auth/recuperar-contrasena/page.tsx:24-148 | the page starts at step 1, and every handler, with back only where it is shown, keeps the step in {1, 2, 3} |
| PasswordRecovery.ValidationFailureKeepsStep | app/auth/recuperar-contrasena/page.tsx:46-127 | a validation failure only replaces that handler's own messages: the step and the loading flag stay, and no request is made |
| PasswordRecovery.StepAdvances | app/auth/recuperar-contrasena/page.tsx:46-92 | step 1 goes to 2, and step 2 to 3, exactly when the input is valid and the request succeeds; otherwise the step stays |
| PasswordRecovery.ResetRequestedIff | app/auth/recuperar-contrasena/page.tsx:102-119 | the reset is requested exactly when the password has eight or more UTF-16 code units and the confirmation equals it |
| PasswordRecovery.HandlersKeepOtherMessages | app/auth/recuperar-contrasena/page.tsx:46-127 | each handler keeps the other handlers' messages; step 3 never changes the step |
| PasswordRecovery.EnabledCodeSubmitPasses | app/auth/recuperar-contrasena/page.tsx:75-77 | an enabled code button always submits a code that passes the check |
| PasswordRecovery.HappyPath | app/auth/recuperar-contrasena/page.tsx:46-92 | from the start, a valid address and a code of six UTF-16 code units with both requests succeeding reach step 3 with no message and loading over |
| PasswordRecovery.RecoveryPage.constructor | app/auth/recuperar-contrasena/page.tsx:28-39 | the page starts at step 1 with empty inputs and messages and not loading |
| PasswordRecovery.RecoveryPage.SetInputs | app/auth/recuperar-contrasena/page.tsx:178 | the inputs change and nothing else does |
| PasswordRecovery.RecoveryPage.HandleStep1 | app/auth/recuperar-contrasena/page.tsx:46-69 | the state becomes the step-1 transition of the old state, keeping the step in range |
| PasswordRecovery.RecoveryPage.HandleStep2 | app/auth/recuperar-contrasena/page.tsx:71-92 | the state becomes the step-2 transition of the old state, keeping the step in range |
| PasswordRecovery.RecoveryPage.HandleStep3 | app/auth/recuperar-contrasena/page.tsx:94-127 | the state becomes the step-3 transition of the old state, with the same step; the page goes to login exactly when the reset was requested and succeeded |
| PasswordRecovery.RecoveryPage.Back | app/auth/recuperar-contrasena/page.tsx:132-148 | offered only when the step is not 1, back lowers the step by one and keeps it in range |
| Catalog.FirstVariant | app/productos/components/ProductCard.tsx:32 | `variants[0]` (also at favoritos/page.tsx lines 34 and 76) is present exactly for a non-empty list, and is its first element |
| Catalog.OrElse | app/productos/components/ProductCard.tsx:40 | `a \|\| b` on strings is `a` unless it is empty |
| ProductCard.CartLineFor | app/productos/components/ProductCard.tsx:31-41 | a line is built exactly when there is a first variant with a truthy id and the product's id is truthy; it carries those ids, the product's name, the variant's size and price, and no store id |
| ProductCard.CartLineImage | app/productos/components/ProductCard.tsx:40 | the line shows the variant's image, or the product's when the variant has none |
| ProductCard.HandleAddToCart | app/productos/components/ProductCard.tsx:31-43 | `handleAddToCart`, also used on the favourites page; AddToCartNoop and AddToCartEffect state its effect on the cart |
| ProductCard.AddToCartNoop | app/productos/components/ProductCard.tsx:32-33 | without a usable variant or product id the cart is unchanged |
| ProductCard.AddToCartEffect | app/productos/components/ProductCard.tsx:31-43 | otherwise the variant's line holds one unit more than before, the item count grows by one, the subtotal by that line's price, and every other variant's line is unchanged |
| ProductCard.FavoriteMutationFor | app/productos/components/ProductCard.tsx:45-56 | no mutation exactly when signed out or without a product id; otherwise removal exactly for a favourite and addition exactly for anything else, always for that product |
| ProductCard.FavoriteToggles | app/productos/components/ProductCard.tsx:45-56 | when it succeeds, the mutation flips that product's membership in the favourites and no other; signed out, nothing changes |
| FavoritesPage.InStock | app/favoritos/page.tsx:76-77 | in stock exactly when there is a first variant and its stock is positive |
| FavoritesPage.DisplayedPrice | app/favoritos/page.tsx:127 | the first variant's price, or 0 without variants |
| FavoritesPage.AddDisabled | app/favoritos/page.tsx:135 | the button is disabled exactly when the product is out of stock; EnabledButtonAdds states what an enabled click adds |
| FavoritesPage.EnabledButtonAdds | app/favoritos/page.tsx:33-45 | an enabled button has a first variant, and clicking it adds a line exactly when that variant and the product have ids |
| FavoritesPage.HeadingFor | app/favoritos/page.tsx:67-69 | "no favourites yet" exactly with none; otherwise the count, with the plural exactly when there is more than one |
| FavoritesPage.HeadingPlural | app/favoritos/page.tsx:67-69 | one favourite reads "producto guardado", more read "productos guardados" |
| Common.FilterMembership | app/cuenta/ordenes/page.tsx:27 | `filter` keeps an element exactly when it is in the input and satisfies the predicate |
| Common.FilterIsSubsequence | app/cuenta/ordenes/page.tsx:27 | `filter` keeps the input's order |
| Common.SumOfAppend | store/shopping-cart-store.ts:84-88 | the `reduce` sum distributes over concatenation |

## Left out

- Rendering, styling, toasts, `console.log`, and Next.js routing are not modelled. A redirect or navigation is modelled as a decision the model returns: the guard's route, `toLogin` in password recovery.
- The zustand `persist` middleware and localStorage are not modelled, apart from the persisted projection (only the token) and the restored state.
- `jwtDecode` and `Date.now` are inputs: the decoder is a function from token to an optional payload, and each clock reading is a parameter.
  - The rehydration callback reads the clock twice, once in its own check and once inside `login`, so it takes two readings.
- Network services (`fetch`, the account, address, order, favourite, registration, login and password-recovery services) are replaced by their outcome, given as a parameter (`FetchOutcome`, `ok`).
  - The react-query hooks are caching around these services and are not modelled.
  - The `?? 50000` and `?? 8000` defaults in `use-shipping-config.ts` repeat the rule `ShippingConfigService` models.
- Floating point is not modelled: the drawer's percentage progress, the mock products' ratings and `toFixed` are left out. Prices and quantities are unbounded integers.
- `Intl.NumberFormat` currency formatting is not modelled. A number shown in text is a parameter (`countText`) or a field of the returned datatype.
- Dafny strings hold Unicode scalar values, so a JavaScript string with an unpaired surrogate has no counterpart. `.length` is modelled as the UTF-16 count of a well-formed string (`Text.Utf16Length`).
- `toLowerCase` is modelled for ASCII letters only, and `\s` as the ECMAScript white-space and line-terminator set.
- JavaScript truthiness is modelled only where the code relies on it: numeric ids (missing or 0 is falsy) and strings (empty is falsy). `NaN` and the other falsy values are not modelled.
- The FAQ page's question table is a parameter, not its literal text.
- `isLoading` in the password-recovery page is modelled as its value once a handler has finished (false after a request). The flag is true only while a request is in flight, which is not observable in this model.
- "Proceder al Pago" on the cart page has no handler, so there is nothing to model.
- The drawer's total deliberately excludes shipping even though its shipping row shows 8000 below the threshold. The source marks this with a comment, and the model keeps it (`CartDrawer.Total`).
- The address's and account's optional `phone` (`string | null` in the payload, `|| undefined` in requests) is collapsed into `Option`.
- CartStore.ShoppingCartStore.AddItem: the invariant "every quantity is at least 1" is kept only when the caller passes a quantity of at least 1, because `addItem` has no guard. Every caller in the storefront passes 1 or a clamped value.
