# Warung Mpok Mar: a verified model of the order checkout and the store

Warung Mpok Mar is a small food-ordering web app. A Node.js server keeps an
in-memory `db` of menu items, promos, orders, payments, users and inventory,
next to a fixed table of eight payment methods. A browser page keeps a cart and
posts orders. This project models the server's business logic and the page's
cart logic in Dafny and proves properties of both.

The heart of the model is `POST /api/orders`. The handler:

- checks the request;
- looks up the payment method;
- resolves every cart line against the menu, snapshotting the item with its
  quantity and line total, and sums the lines into a subtotal;
- applies at most one active promo as a floored percentage;
- adds the method's fixed fee;
- prepends an order record and the payment record derived from it.

Modules:

- `Wrappers` (wrappers.dfy): `Option` and `Result`.
- `Lookup` (lookup.dfy): JavaScript's `find`/`findIndex` as `FirstIndex`, and `filter` as `Filter`.
- `Records` (records.dfy): the record shapes of `db`, the payment-method table, the seed data, the request bodies (already parsed), the replies and the server's messages.
- `Checkout` (checkout.dfy): the order handler as a pure function `PlaceOrder` of the request, the menu, the promos and the identifiers and clock readings (`Stamps`). The lemmas about it state the pricing rules, the error paths and the records produced. `Ledger` is the invariant between the stored orders and payments.
- `Server` (store.dfy): class `Store`, whose fields are the sequences of `db`, with one method per route that changes them. `Store.PlaceOrder` performs the handler's steps in place (a loop accumulating the subtotal, then two prepends) and is proved equal to `Checkout.PlaceOrder`. It also keeps the ledger invariant.
- `Dashboard` (dashboard.dfy): the KPI reductions of `GET /api/admin/dashboard` and how they react to new orders and status changes.
- `Client` (client.dfy): the page `state` as class `Page`, with `addToCart`, the subtotal loop of `renderCart` and the submit handler's guard and payload. `SubtotalMatchesServer` proves that the subtotal the page shows is the one the server computes for the posted cart.
- `Table` (table.dfy): `buildTable` as string construction. A reader `ParseTable` recovers the header and the cell texts from its output, which proves the column and row structure.
- `Scenarios` (scenarios.dfy): concrete orders against the seed menu, promos and payment methods.

Where the code behaves in a way that is easy to misread, the model follows the code:

- A quantity is `Number(qty || 1)`: only an absent or zero quantity becomes 1. A negative quantity is accepted and priced as written, so `SumTotalsNonNegative` and `PlacedDiscountBounded` assume non-negative quantities.
- An unknown menu id is not answered with a client error. The handler throws, and the catch-all answers 500 with the thrown message, `Menu <id> tidak ditemukan`.
- The menu update overlays whatever fields the body carries, including `id`.
- Social login finds a user by e-mail alone, whatever the provider. A login with the seeded admin's e-mail therefore returns the admin user.

## Model

Some functions have no contract of their own; lemmas about them carry it:

- `Checkout.PlaceOrder` (server.js:152-176): `IncompleteRefused`, `PlaceOrderRejects`, `PlacedConsistent`, `PlacedFigures`, `PlacedLines`, `PlacedRecords`, `PromoNeverRejects`, `PricingIgnoresStamps` and `PlacedDiscountBounded`. `Server.Store.PlaceOrder` is proved equal to it.
- `Checkout.Complete` (server.js:154): `IncompleteRefused`.
- `Checkout.Discount` (server.js:166-170): `DiscountIsFloor` and `DiscountBounds`.
- `Checkout.Assemble` (server.js:171-174): `AssembledFigures`, `AssembledConsistent` and `PlacedRecords`.
- `Server.NewMenuItem` (server.js:109): the contract of `Server.Store.CreateMenuItem`.
- `Server.Overlay` (server.js:119): `OverlayEmpty`, `OverlayIdempotent`, `OverlayLaterWins` and the contract of `Server.Store.UpdateMenuItem`.
- `Dashboard.Revenue`, `Dashboard.PendingOrders` and `Dashboard.Customers` (server.js:188-191): `RevenueAppend`, `RevenuePrepend`, `RevenueIgnoresStatus`, `PendingPrepend`, `PendingAfterStatus` and `Lookup.FilterCounts`.
- `Client.Payload` (public/app.js:99-106): `AsRequestLines`, `SentOrdersHaveItems` and the contract of `Client.Page.Submit`.


| member | source | states |
|---|---|---|
| Lookup.FirstIndex | server.js:159 | `find`/`findIndex`: the index of the first element satisfying the predicate; None exactly when no element does |
| Lookup.Filter | server.js:190-191 | `filter`: every element of the result passes the test and comes from the input, every passing input element is in the result, and the result is no longer than the input |
| Lookup.FilterCounts | server.js:190-191 | `filter` keeps each passing element exactly as often as it occurs in the input and drops every failing one, so the filtered length counts the passing elements |
| Lookup.FilterSingle | server.js:190-191 | a one-element array is kept exactly when its element passes the test; with `FilterAppend` this fixes `filter` completely, order included |
| Lookup.FilterAppend | server.js:191 | filtering a concatenation is the concatenation of the filtered parts |
| Checkout.MenuIndex | server.js:159 | the first menu item whose id is the requested one; None exactly when the id is not on the menu |
| Checkout.PromoIndex | server.js:168 | the first promo with exactly that code that is active; None exactly when there is none |
| Checkout.MethodIndex | server.js:155 | the entry of the fixed payment-method table with that id; None exactly when the id is unknown |
| Checkout.Quantity | server.js:161 | the line's quantity with 1 as fallback: a present non-zero quantity is kept, an absent or zero one becomes 1, so the quantity is never 0 |
| Checkout.Snapshot | server.js:164 | `{ ...menuItem, qty, lineTotal }`: the line carries the menu item, the coerced non-zero quantity and `lineTotal == price * qty` |
| Checkout.ResolveLines | server.js:158-165 | succeeds exactly when every line's menu id is on the menu, giving one snapshot per line in order with `qty` (absent or zero read as 1) and `lineTotal == price * qty`; otherwise fails with the id of the first unknown line |
| Checkout.SumTotalsSnoc | server.js:163 | adding a line adds its total to the running subtotal |
| Checkout.SumTotalsNonNegative | server.js:157-165 | with non-negative prices and positive quantities the subtotal is non-negative |
| Checkout.DiscountIsFloor | server.js:166-170 | 0 without a truthy promo code or without an active promo of exactly that code; otherwise the floor of `subtotal * discountPercent / 100` |
| Checkout.DiscountBounds | server.js:166-170 | for a non-negative subtotal and percentages between 0 and 100, `0 <= discount <= subtotal` |
| Checkout.LedgerPrepend | server.js:173-174 | prepending a consistently priced order together with the payment that settles it keeps every order paired with its payment |
| Checkout.LedgerStatus | server.js:183 | changing an order's status keeps the pairing and the prices |
| Checkout.IncompleteRefused | server.js:154 | the handler answers 400 `Data order belum lengkap.` exactly when the name, the phone, a non-empty item list or the payment method is missing |
| Checkout.PlaceOrderRejects | server.js:154-160 | the three refusals in the handler's order: 400 for an incomplete request, 400 for an unknown payment method, 500 naming the first unknown menu id; nothing else is refused |
| Checkout.AssembledFigures | server.js:171-174 | the order record carries the lines, the method and its fee, the given subtotal and discount, `total == subtotal - discount + fee`, the address or pickup, the truthy promo code or none, and a payment of the total that is Paid exactly when the method is instant and settles the order |
| Checkout.AssembledConsistent | server.js:171-174 | an order built from non-empty priced lines with their sum as subtotal is consistently priced and settled by its payment, whatever the discount |
| Checkout.PlacedConsistent | server.js:171-174 | an accepted order is answered with 201, is priced consistently and its payment settles it |
| Checkout.PlacedFigures | server.js:155-171 | on success the order carries the method's entry and its fee, the subtotal is the sum of the line totals, the discount follows the promo rule, and `total == subtotal - discount + fee` |
| Checkout.PlacedLines | server.js:157-165 | on success there is one line per cart line, in order, each the snapshot of the first menu item with its id, with its quantity and `lineTotal == price * qty` |
| Checkout.PlacedRecords | server.js:172-174 | on success the order awaits confirmation, defaults to pickup and to no promo code, and carries the given id and time; its payment has the order's id, the method's name, the total as amount and is Paid exactly when the method is instant |
| Checkout.PromoNeverRejects | server.js:166-170 | the promo code never decides whether an order is accepted |
| Checkout.PricingIgnoresStamps | server.js:171-172 | two computations from the same request, menu and promos agree on acceptance, lines, subtotal, discount, fee and total, whatever ids and times they draw |
| Checkout.PlacedDiscountBounded | server.js:157-171 | with non-negative prices and quantities and percentages within 0..100, the discount lies between 0 and the subtotal and the total is at least the fee |
| Server.OverlayEmpty | server.js:119 | a body without fields leaves the menu item as it was |
| Server.OverlayIdempotent | server.js:119 | sending the same update body twice has the effect of sending it once |
| Server.OverlayLaterWins | server.js:119 | of two successive update bodies, the later one's price and id win, and where it carries none the earlier one's stand |
| Server.UserIndex | server.js:136 | the first user with that e-mail; None exactly when no user has it |
| Server.OrderIndex | server.js:180 | the first order with that id; None exactly when no order has it |
| Server.Store.constructor | server.js:7-28 | the store starts with the seed users, menu, promos and inventory, no orders and no payments, and satisfies the ledger invariant |
| Server.Store.CreateMenuItem | server.js:105-112 | 400 exactly when name, category or a non-zero price is missing, and the menu is then unchanged; success exactly when all three are there, and then the new item with the fresh id, stock and spicy level defaulting to 0, is appended and returned with 201 |
| Server.Store.UpdateMenuItem | server.js:114-121 | an unknown id gives 404 and leaves the menu unchanged; otherwise only the first item with that id is replaced by itself overlaid with the body, and it is returned with 200 |
| Server.Store.DeleteMenuItem | server.js:123-130 | an unknown id gives 404 and leaves the menu unchanged; otherwise exactly the first item with that id is removed, the others keep their order, and the reply is 204 |
| Server.Store.SocialLogin | server.js:132-142 | 400 for a missing field or a provider other than google or facebook, with the users unchanged; otherwise the user with that e-mail is returned unchanged, or a new customer is appended; the token is `demo-token-` and the user's id; distinct e-mails stay distinct |
| Server.Store.PriceLines | server.js:157-165 | the loop of the handler computes the lines of `ResolveLines` and their sum as subtotal, or stops at the first unknown menu id |
| Server.Store.PlaceOrder | server.js:152-176 | replies as `Checkout.PlaceOrder`; on success exactly one order and its payment are prepended, otherwise orders and payments are unchanged; menu and promos are not written; the ledger invariant is kept |
| Server.Store.PatchOrderStatus | server.js:178-185 | an unknown id gives 404 with the orders unchanged; otherwise only the first matching order changes, only its status, and only when the body's status is truthy; the ledger invariant is kept |
| Server.Store.AdminDashboard | server.js:187-193 | the revenue is the sum of the stored orders' totals, the order count their number, the customer count the number of users with role customer, the pending count the number of orders not `Selesai`; inventory and promos are passed through; the listed orders and payments are the first ten |
| Dashboard.FirstTen | server.js:192 | `slice(0, 10)`: the first ten elements, or all of them when there are fewer |
| Dashboard.Summarize | server.js:188-192 | the revenue is `Revenue(orders)`, the order count the number of orders, the customer and pending counts the lengths of the two filters (bounded by the user and order counts), inventory and promos unchanged, and the first ten orders and payments |
| Dashboard.SummarizeAfterPlace | server.js:173-191 | after a new order awaiting confirmation and its payment are prepended, the dashboard's revenue grows by the order's total, the order and pending counts by one, and the customer count stays |
| Dashboard.SummarizeAfterStatus | server.js:183-191 | after one order's status changes, revenue, order and customer counts stay, and the pending count moves by the change in the `!== 'Selesai'` test |
| Dashboard.RevenueAppend | server.js:188 | the revenue of two runs of orders is the sum of their revenues |
| Dashboard.RevenuePrepend | server.js:173-188 | a newly prepended order adds its total to the revenue |
| Dashboard.RevenueIgnoresStatus | server.js:183-188 | a status change leaves the revenue unchanged |
| Dashboard.PendingPrepend | server.js:172-191 | a new order awaiting confirmation adds one to the pending count |
| Dashboard.PendingAfterStatus | server.js:183-191 | a status change moves the order into or out of the pending count according to whether the new status is `Selesai` |
| Client.LineIndex | public/app.js:45 | the first cart line with that menu id; None exactly when there is none |
| Client.ItemCountAppend | public/app.js:44-50 | the item count, a measure of the cart the page itself never computes, is additive over two runs of lines |
| Client.ItemCountBump | public/app.js:47 | raising one line's quantity by one raises that derived item count by one |
| Client.LineTotals | public/app.js:62-67 | succeeds exactly when every cart line's menu item exists, with `price * qty` per line in order; otherwise fails with the first missing id |
| Client.CartSummary | public/app.js:54-73 | the empty view, with subtotal 0, exactly for an empty cart; the crash exactly when some line's menu item is missing, naming the first such line; otherwise one total per line, each the line's menu price times its quantity, and the subtotal is their sum |
| Client.SumSnoc | public/app.js:67 | adding a line total adds it to the running subtotal |
| Client.AsRequestLines | public/app.js:105 | the posted items are the cart lines, in order, with their quantities |
| Client.SubtotalMatchesServer | public/app.js:62-67 | for a cart of positive quantities on the menu, the server resolves the posted items and arrives at the subtotal the page shows |
| Client.Page.constructor | public/app.js:1-5 | the page starts with an empty menu, no payment methods and an empty cart |
| Client.Page.AddToCart | public/app.js:44-52 | a line with that menu id gets one more and nothing else changes; otherwise `{ menuId, qty: 1 }` is appended; each menu id stays once in the cart and the item count grows by one |
| Client.Page.RenderCart | public/app.js:54-73 | an empty cart shows the empty view; otherwise the loop's line totals and subtotal are those of `CartSummary`, one total per line, and the subtotal is their sum; a missing menu item stops it |
| Client.Page.Submit | public/app.js:90-106 | an empty cart shows the message and sends nothing; the order is sent exactly when the cart is non-empty, and the payload carries the form's name, phone, address and payment method, the promo code or null when it is blank, and the cart as its items |
| Client.Page.OrderAccepted | public/app.js:114 | after an accepted order the cart is empty |
| Client.SentOrdersHaveItems | public/app.js:94-106 | a request the page sends always has a non-empty items array, so the server refuses it as incomplete exactly when the name, the phone or the payment method is blank |
| Table.DigitsRoundTrip | public/app.js:181 | the decimal digits written for a number read back as that number |
| Table.DecimalString | public/app.js:181 | `String(n)`: a leading minus sign exactly when `n` is negative, then decimal digits that denote the absolute value of `n`, with no leading zero unless `n` is 0 |
| Table.CellText | public/app.js:181 | `row[c] ?? '-'`: an absent key or null is written `-`, a string as itself, a number as its decimal form, a boolean as `true` or `false` |
| Table.Grid | public/app.js:180-182 | one text per record and column, in order; an absent key or null becomes `-` |
| Table.BuildTable | public/app.js:176-177 | the output is exactly `<p>Belum ada data.</p>` when and only when there are no records |
| Table.TableRoundTrip | public/app.js:176-185 | for records, reading the table back gives the columns as header cells, in order, and one row per record with one cell text per column, in order, provided no column name or string value contains `<` |
| Table.NoDataIsNoTable | public/app.js:177 | the empty-data paragraph is not a table |
| Scenarios.TwoNasiUdukPlaced | server.js:152-176 | two Nasi Uduk Betawi with any listed method and any code: subtotal 44000, the promo rule's discount, the method's fee, total as the rule says, picked up, paid exactly when the method is instant |
| Scenarios.PlainQrisOrder | server.js:152-176 | two Nasi Uduk Betawi paid by QRIS without promo: subtotal 44000, discount 0, fee 0, total 44000, paid, picked up |
| Scenarios.PromoOrder | server.js:166-171 | the same order with BETAWI10: discount 4400, total 39600 |
| Scenarios.FeeOrder | server.js:171 | the same order paid by GoPay: fee 1500, total 45500 |
| Scenarios.UnknownPromoOrder | server.js:166-170 | an unknown code (wrong case) gives discount 0 and the order is still accepted |
| Scenarios.PendingOrder | server.js:174 | paid by Virtual Account BCA: total 46500 and the payment is pending |
| Scenarios.UnknownMenuOrder | server.js:158-160 | a cart with a line for m9 is refused with 500 and `Menu m9 tidak ditemukan` |
| Scenarios.UnknownMethodOrder | server.js:155-156 | an unknown payment method is refused with 400 |

## Left out

- The HTTP server, routing, URL splitting and response writing (server.js:45-48, 97-208). Each route is a method taking its parsed body and returning a `Response`. A thrown error is a `Fail(500, message)`.
- `parseBody` (server.js:50-68): bodies arrive as records of optional fields. Unknown extra fields, and values of the wrong JSON type, are not modelled.
- `serveStatic` (server.js:70-95): file system access.
- The health check and the GET routes that return a collection (server.js:100-103).
- `createId` and `new Date().toISOString()`: they are parameters. `Stamps` carries them for an order; `newId` carries them for a menu item and a user. Their uniqueness is not modelled.
- The fixed admin login (server.js:144-150): one credential comparison.
- `Number()` coercion of strings and the resulting NaN: prices, stocks and quantities are integers. Arithmetic is unbounded, so the loss of precision of JavaScript numbers beyond 2^53 is not modelled.
- Table.DecimalString: `String(n)` switches to exponent form (`1e+21`) from 10^21 upward; the model writes plain decimal digits for every integer.
- Server.Overlay: `{ ...item, ...body }` can also add fields that a menu item does not have. The model only overlays the seven known fields.
- Client.Page.RenderCart: the list items' text and the `rupiah` formatting are not produced. The view holds the numbers, and a missing menu item (a TypeError in the page) is the `Crashed` view.
- Client.Page.Submit: the request itself, its reply and the `fetchJSON` error path are not modelled. `OrderAccepted` models the cart being cleared after success.
- Table.BuildTable: only values that are null, strings, integers or booleans are rendered. Objects and fractional numbers are left out; the listed columns hold none.
- The DOM and fetch code of public/app.js: `fetchJSON`, `rupiah`, `renderMenu`, `renderPaymentMethods`, `initData` and `loadAdminDashboard`.
- Concurrency: each route runs to completion before the next one starts, as on Node's single thread, apart from the awaited body parsing. Routes are modelled as atomic.
- Server.Store.UpdateMenuItem: the route finds the index before it awaits the body (server.js:116-119). A DELETE served during that await shifts the indices, so the update then overlays a different item, or stores `{ ...undefined, ...body }` past the end. The atomic model cannot show this interleaving.
