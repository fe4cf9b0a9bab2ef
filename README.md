# Ramen storefront: cart pricing and order bookkeeping in Dafny

This project models the state logic of a browser ramen storefront, which has a
mocked back end. The modelled parts are:

- the cart provider, with its line items, placed orders and total (`CartContext.tsx`);
- the item configurator, with its quantity, spice level, topping toggle and add-to-cart guard (`Order.tsx`);
- checkout, which snapshots the cart into an order (`Payment.tsx`);
- the mocked session provider (`AuthContext.tsx`);
- the admin order board, which gathers, sorts, updates, counts and filters orders (`AdminDashboard.tsx`);
- the menu category filter (`Index.tsx`).

Prices are whole Rupiah amounts (`int`). Timestamps are integers. The
browser's persisted store is the class `Storage.BrowserStore`. It has one field
for each key the core uses: the saved session, the registered user ids, and a
map from user id to that user's stored order list.

Modules follow the source files: `RamenTypes` (types/ramen.ts), `Seqs` (the
order-preserving `filter` the pages share), `Pricing` (the `reduce` price
formulas), `Cart`, `Storage`, `Auth`, `OrderPage`, `Payment`, `Admin`, `Menu`.
The React providers and pages that hold state are classes: `CartLedger`,
`AuthProvider`, `ItemConfigurator`, `PaymentPage` and `AdminDashboard`. Their
methods state the whole new state. The pure expressions (`reduce`, `filter`,
`sort`, `split`, `find`) are functions, with lemmas about them.

The model follows what the code does, including where it is looser than a
storefront with real accounts would be:
- login accepts any non-empty email with a password of at least six characters. No account list is consulted, no admin account is seeded, and a duplicate email is not rejected;
- checkout creates orders with status `processing`, not `pending`;
- checkout orders have no owner id or name, so `Order.userId` and `Order.userName` are `Option`s and checkout leaves them `None`;
- the session record has no `role`, so `User.role` is an `Option`. Login and register always leave it `None`; the constructor of `AuthProvider` takes over whatever record is persisted, with or without one.

## Model

| member | source | states |
|---|---|---|
| `Seqs.Filter` | src/pages/Index.tsx:13 | the filtered list is no longer than its input and holds only kept elements of the input |
| `Seqs.FilterCounts` | src/pages/Index.tsx:13 | a kept value occurs as often as in the input; a dropped value does not occur |
| `Seqs.FilterIsSubsequence` | src/pages/Index.tsx:13 | filtering preserves the relative order of what it keeps |
| `Seqs.Sum` | src/pages/AdminDashboard.tsx:99 | the left fold `reduce` over amounts starting from 0; its first element splits off by `Seqs.SumCons`, and the revenue and displayed-total rows below state what it adds up |
| `Seqs.SumCons` | src/pages/AdminDashboard.tsx:99 | the left-fold sum of a list equals its first amount plus the sum of the rest |
| `Pricing.ToppingsPrice` | src/context/CartContext.tsx:34 | the sum of the selected toppings' prices; non-negative by `Pricing.ToppingsPriceNonNegative` |
| `Pricing.LineTotal` | src/context/CartContext.tsx:34-35 | (ramen price + toppings price) x quantity; non-negative by `Pricing.LineTotalNonNegative`, and equal to the configurator's shown total by `OrderPage.ItemConfigurator.CalculateTotal` |
| `Pricing.CartTotal` | src/context/CartContext.tsx:32-37 | the left fold of line totals; its properties are the `Pricing.CartTotalAppend`, `CartTotalSnoc`, `CartTotalCons` and `CartTotalNonNegative` rows |
| `Pricing.CartTotalAppend` | src/context/CartContext.tsx:32-37 | the cart total of two carts joined is the sum of their totals |
| `Pricing.CartTotalSnoc` | src/context/CartContext.tsx:32-37 | appending a line raises the total by exactly that line's (price + toppings) x quantity |
| `Pricing.CartTotalCons` | src/context/CartContext.tsx:32-37 | the total is the first line's total plus the total of the rest |
| `Pricing.ToppingsPriceNonNegative` | src/context/CartContext.tsx:34 | toppings with non-negative prices sum to a non-negative amount |
| `Pricing.LineTotalNonNegative` | src/context/CartContext.tsx:35 | a line with non-negative prices and quantity has a non-negative total |
| `Pricing.CartTotalNonNegative` | src/context/CartContext.tsx:32-37 | a cart whose prices and quantities are non-negative has a non-negative total; the empty cart's total is 0 |
| `Cart.WithoutIndex` | src/context/CartContext.tsx:24-26 | the position filter of `removeFromCart`; what it removes is stated by `Cart.WithoutIndexRemovesEntry` |
| `Cart.WithoutIndexRemovesEntry` | src/context/CartContext.tsx:25 | the index filter removes exactly entry i when 0 <= i < length, keeping the others in order, and changes nothing otherwise |
| `Cart.CartLedger.constructor` | src/context/CartContext.tsx:17-18 | the cart and the order list start empty |
| `Cart.CartLedger.TotalPrice` | src/context/CartContext.tsx:32-37 | the ledger's `CartTotal`; how each cart method moves it is stated in the method rows below |
| `Cart.CartLedger.AddToCart` | src/context/CartContext.tsx:20-22 | the item is appended after the unchanged earlier entries, with no merging; the total rises by its line total; orders are untouched |
| `Cart.CartLedger.RemoveFromCart` | src/context/CartContext.tsx:24-26 | in range, exactly entry i goes and the total falls by its line total; out of range, the cart is unchanged and nothing fails |
| `Cart.CartLedger.ClearCart` | src/context/CartContext.tsx:28-30 | the cart becomes empty and its total 0; orders are untouched |
| `Cart.CartLedger.AddOrder` | src/context/CartContext.tsx:39-41 | the new order is at index 0 and the previous orders follow unchanged; the cart is untouched |
| `Cart.AddThenRemove` | src/context/CartContext.tsx:20-37 | adding one line to an empty cart and removing entry 0 leaves a total of 0 |
| `Storage.BrowserStore.constructor` | src/pages/AdminDashboard.tsx:45-48 | the store holds exactly the given saved session, registered user ids and per-user order lists (the keys 'ramen-user', 'ramen-registered-users' and 'ramen-orders-<id>') |
| `Auth.NameFromEmail` | src/context/AuthContext.tsx:27 | the derived name is a prefix of the email with no '@', ending at the first '@' or at the end of the email |
| `Auth.NameFromEmailSplits` | src/context/AuthContext.tsx:27 | with an '@' at position i and none before, the name is the email's first i characters |
| `Auth.NameFromEmailWhole` | src/context/AuthContext.tsx:27 | without an '@', the name is the whole email |
| `Auth.AuthProvider.constructor` | src/context/AuthContext.tsx:17-20 | the initial session is the persisted record if there is one, else none |
| `Auth.AuthProvider.IsAuthenticated` | src/context/AuthContext.tsx:61 | signed in exactly when a session record is present; what login, register and logout do to it is in their rows |
| `Auth.AuthProvider.Login` | src/context/AuthContext.tsx:22-35 | succeeds iff the email is non-empty and the password has at least 6 characters; on success the session (also persisted) has the derived name and the given email; otherwise nothing changes |
| `Auth.AuthProvider.Register` | src/context/AuthContext.tsx:37-50 | succeeds iff name and email are non-empty and the password has at least 6 characters; on success the session has the given name and email; otherwise nothing changes |
| `Auth.AuthProvider.Logout` | src/context/AuthContext.tsx:52-55 | the session and its persisted copy become none, so the user is no longer authenticated |
| `OrderPage.Toggled` | src/pages/Order.tsx:66-74 | the toggle updater; its meaning is stated by `OrderPage.ToggleFlips` and the toggle-twice rows |
| `OrderPage.ToggleFlips` | src/pages/Order.tsx:66-74 | a toggle flips whether the topping's id is selected, leaves every other id's selection and relative order alone, and never creates a repeated id |
| `OrderPage.ToggleRemoves` | src/pages/Order.tsx:68-70 | toggling a selected topping removes every topping with its id and nothing else |
| `OrderPage.ToggleAppends` | src/pages/Order.tsx:72 | toggling an unselected topping selects it and changes no other id |
| `OrderPage.SelectedAfterRemoval` | src/pages/Order.tsx:70 | after removal by id x, an id is selected iff it was selected and is not x |
| `OrderPage.FilterSubsequenceDistinct` | src/pages/Order.tsx:70 | removing toppings keeps the remaining ids distinct |
| `OrderPage.ToggleTwiceRestores` | src/pages/Order.tsx:66-74 | toggling an unselected topping twice restores the selection exactly |
| `OrderPage.ToggleTwiceMovesToEnd` | src/pages/Order.tsx:66-74 | toggling a selected topping twice keeps the same toppings but moves that one to the end |
| `OrderPage.ItemConfigurator.constructor` | src/pages/Order.tsx:41-50 | quantity starts at 1 with no toppings and no notes; the spice level is the entry's first level when it has any, else empty; the configuration is a well-formed line |
| `OrderPage.ItemConfigurator.CalculateTotal` | src/pages/Order.tsx:76-79 | the shown total is the cart's line total of the configuration that would be added |
| `OrderPage.ItemConfigurator.ToggleTopping` | src/pages/Order.tsx:66-74 | only an offered topping can be toggled (the cards list the entry's toppings, src/pages/Order.tsx:197-205); the selection becomes the toggled one, stays within the entry's toppings and free of repeated ids; nothing else changes |
| `OrderPage.ItemConfigurator.Decrement` | src/pages/Order.tsx:154 | quantity becomes max(1, q - 1), so it stays at least 1 |
| `OrderPage.ItemConfigurator.Increment` | src/pages/Order.tsx:163 | quantity becomes q + 1 |
| `OrderPage.ItemConfigurator.SetSpiceLevel` | src/pages/Order.tsx:177-182 | the spice level becomes one of the entry's own levels |
| `OrderPage.ItemConfigurator.SetSpecialNotes` | src/pages/Order.tsx:228-229 | the notes become the typed text |
| `OrderPage.ItemConfigurator.AddToCart` | src/pages/Order.tsx:81-93 | when not authenticated the cart is unchanged; when authenticated exactly one line with the current quantity, spice level, toppings and notes is appended, and that line is well formed: quantity at least 1, only the entry's toppings, none twice, and one of its spice levels when it has any |
| `Payment.FindName` | src/pages/Payment.tsx:80 | the label is the name of the first method whose id matches, or '' when none matches |
| `Payment.PaymentLabel` | src/pages/Payment.tsx:80 | the label lookup over the three offered methods; its values are stated by `Payment.PaymentLabels` |
| `Payment.PaymentLabels` | src/pages/Payment.tsx:27-31 | 'bank', 'ewallet' and 'cod' give their method names; any other selection gives '' |
| `Payment.ItemTotals` | src/pages/Payment.tsx:113-115 | one displayed total per cart line, each that line's (price + toppings) x quantity |
| `Payment.DisplayedTotalsAddUp` | src/pages/Payment.tsx:114-115 | the displayed per-line totals sum to the cart total the page shows as subtotal |
| `Payment.PaymentPage.constructor` | src/pages/Payment.tsx:38-39 | no method is selected and no payment is in progress |
| `Payment.PaymentPage.SelectPayment` | src/pages/Payment.tsx:174 | clicking a method card selects its id |
| `Payment.PaymentPage.PressPay` | src/pages/Payment.tsx:220-226 | while a payment is processing or no method is selected the button does nothing; otherwise it places the order exactly as `HandlePayment` does |
| `Payment.PaymentPage.HandlePayment` | src/pages/Payment.tsx:61-89 | with no method selected, no order is created and the cart is unchanged; otherwise the order holds the cart's items, its current total, status processing and the method's label, comes first in the orders, and the cart is left empty |
| `Admin.Gathered` | src/pages/AdminDashboard.tsx:44-53 | the stored lists of the registered users joined in order; stated by `Admin.GatheredMembers`, `GatheredBag` and `GatheredLength` |
| `Admin.GatheredMembers` | src/pages/AdminDashboard.tsx:44-53 | an order is gathered iff it is stored under the key of some registered user; users without a key contribute nothing |
| `Admin.GatheredBag` | src/pages/AdminDashboard.tsx:44-53 | the gathered list holds each stored order exactly as often as the registered users' lists together hold it |
| `Admin.GatheredLength` | src/pages/AdminDashboard.tsx:44-53 | the gathered list's length is the sum of the stored lists' lengths |
| `Admin.InsertNewest` | src/pages/AdminDashboard.tsx:56 | inserting adds exactly one occurrence of the order |
| `Admin.SortNewestFirst` | src/pages/AdminDashboard.tsx:56 | sorting is a permutation of its input |
| `Admin.InsertKeepsOrder` | src/pages/AdminDashboard.tsx:56 | inserting into a newest-first list keeps it newest first |
| `Admin.SortIsNewestFirst` | src/pages/AdminDashboard.tsx:56 | the sorted list is ordered by createdAt descending and is a permutation of the input |
| `Admin.InsertStable` | src/pages/AdminDashboard.tsx:56 | insertion keeps orders with equal timestamps in their relative order |
| `Admin.SortIsStable` | src/pages/AdminDashboard.tsx:56 | orders with equal timestamps keep their gathered relative order |
| `Admin.LoadedOrders` | src/pages/AdminDashboard.tsx:43-57 | the loaded list is newest first, is a permutation of the gathered orders, holds each stored order of the registered users exactly as often as it is stored, and has the summed length |
| `Admin.WithStatus` | src/pages/AdminDashboard.tsx:64-66 | same length; each order with the id gets the new status and keeps every other field; every other order is unchanged |
| `Admin.WithStatusAbsent` | src/pages/AdminDashboard.tsx:64-66 | an id not in the list leaves the list unchanged |
| `Admin.RejectChangesNothing` | src/pages/AdminDashboard.tsx:248 | "reject" writes pending over a pending order, leaving the list unchanged |
| `Admin.ComputeStats` | src/pages/AdminDashboard.tsx:94-100 | the board's counters and revenue; stated by `Admin.StatsPartition` and the revenue rows |
| `Admin.Totals` | src/pages/AdminDashboard.tsx:99 | one price per order, each that order's totalPrice, in order |
| `Admin.Revenue` | src/pages/AdminDashboard.tsx:99 | the summed prices of the non-pending orders; how it moves is stated by `Admin.RevenueOnStatusChange` |
| `Admin.StatsPartition` | src/pages/AdminDashboard.tsx:94-98 | pending + processing (with confirmed) + completed (with delivered) equals the total |
| `Admin.RevenueOnStatusChange` | src/pages/AdminDashboard.tsx:99 | a status change moves revenue by the order's price exactly when it crosses the pending line |
| `Admin.ConfirmRaisesRevenue` | src/pages/AdminDashboard.tsx:99 | confirming a pending order raises revenue by exactly its totalPrice |
| `Admin.FilterOrders` | src/pages/AdminDashboard.tsx:90-92 | the status filter; stated by `Admin.FilterOrdersShows` |
| `Admin.FilterOrdersShows` | src/pages/AdminDashboard.tsx:90-92 | 'all' shows every order; any other filter shows exactly the orders with that status, with their multiplicity, in the same order |
| `Admin.AdminActions` | src/pages/AdminDashboard.tsx:234-284 | the statuses each status's buttons write; stated by `Admin.ActionsAdvanceOneStep` and the trace rows |
| `Admin.OwnerKey` | src/pages/AdminDashboard.tsx:239 | the user id a button passes: the order's owner, or "undefined" for an order without one |
| `Admin.ActionsAdvanceOneStep` | src/pages/AdminDashboard.tsx:234-284 | every button moves one step along pending, confirmed, processing, completed, delivered, except "reject", which stays at pending; only delivered offers none |
| `Admin.TraceNeverGoesBack` | src/pages/AdminDashboard.tsx:234-284 | pressing offered buttons never moves an order back along the life cycle |
| `Admin.TraceSkipsNothing` | src/pages/AdminDashboard.tsx:234-284 | pressing offered buttons passes through every status between the start and the current one |
| `Admin.AdminDashboard.constructor` | src/pages/AdminDashboard.tsx:32-33 | the board starts with no orders and the filter 'all' |
| `Admin.AdminDashboard.LoadOrders` | src/pages/AdminDashboard.tsx:43-58 | the loop gathers the registered users' stored lists in order, and the board then holds them sorted newest first, each stored order exactly as often as it is stored |
| `Admin.AdminDashboard.UpdateOrderStatus` | src/pages/AdminDashboard.tsx:60-70 | only the given user's key is rewritten, with the status replaced on matching orders (an absent key becomes an empty list); other keys, users and the session are untouched; the board is reloaded |
| `Admin.AdminDashboard.PressStatusButton` | src/pages/AdminDashboard.tsx:234-284 | a button writes only a status offered for the order's current status, one step forward or reject-to-pending, under the order's owner key, via `UpdateOrderStatus`, and the board is reloaded |
| `Admin.AdminDashboard.SetFilter` | src/pages/AdminDashboard.tsx:172 | a filter tab sets the filter and keeps the loaded orders |
| `Admin.AdminDashboard.FilteredOrders` | src/pages/AdminDashboard.tsx:90-92 | the board's orders under its filter; stated by `Admin.FilterOrdersShows` |
| `Admin.AdminDashboard.Statistics` | src/pages/AdminDashboard.tsx:94-100 | the shown pending, processing and completed counts add up to the shown total |
| `Menu.FilteredItems` | src/pages/Index.tsx:11-13 | the menu under the active category; stated by `Menu.FilteredItemsShows` and `Menu.FilteredItemsComplete` |
| `Menu.FilteredItemsShows` | src/pages/Index.tsx:11-13 | 'All' returns the menu unchanged; any other category returns only that category's entries, all of them, in menu order, never more than the menu |
| `Menu.FilteredItemsComplete` | src/pages/Index.tsx:13 | no entry of the chosen category is dropped |

## Left out

- Serialisation: the store holds decoded values. `JSON.parse`/`JSON.stringify` and the string keys of `localStorage` are not modelled. A stored list is read as present exactly when its key is present.
- Registered users: their records are reduced to their ids, because the board reads nothing else.
- Ids and clocks: `crypto.randomUUID` and `new Date()` are method parameters. `createdAt` is an integer timestamp and is compared as one.
- Async behaviour: the two-second payment delay and the `async`/`Promise` wrappers of login and register are left out. Each operation runs to completion in turn. React's state updaters are modelled as immediate assignments.
- Navigation, toasts, formatting (`Intl.NumberFormat`, dates, `toFixed`) and page markup: presentation only.
- Page render guards: the checkout page shows its pay button only to an authenticated user with a non-empty cart, and that condition is not modelled. The button is also disabled while a payment is processing or no method is selected; `PaymentPage.PressPay` models that, while `HandlePayment`, as in the source, does not check `isProcessing` itself.
- Dashboard mount guard: the board loads only when `isAdmin` is truthy. The session provider never supplies `isAdmin`, so the guard is not modelled; `LoadOrders` is modelled as the function it calls.
- Form validation in src/pages/Auth.tsx: the sign-in form additionally checks the email's format and, on registration, a name of at least two characters, by schema parsing in the `zod` library. Email-format checking is not modelled, so the model takes the session provider's own, looser rules.
- The menu data (`@/data/menuData`) is not part of this model; the menu is a parameter of `Menu.FilteredItems`.
- History and success pages, navbar, hero section and menu card: rendering only. Their line-total recomputations repeat the cart formula.
- The library sort: `Array.prototype.sort`, called with a comparator on creation times, is modelled as a stable insertion sort on a sequence, not an in-place sort of an array. Its algorithm is not visible; only its stated result (stable, newest first) is modelled.
- Numbers: JavaScript numbers are floating point. The model uses unbounded integers, so it agrees with the source while totals stay below 2^53. Fractional quantities or indices are not modelled.
- String lengths: a password's length is counted in characters; JavaScript counts UTF-16 code units.
- `Admin.ConfirmRaisesRevenue`: stated for a position in one list of orders. It is not connected to a store update followed by a reload, which would need revenue to be invariant under the sort's reordering.
