# SmartQR order engine in Dafny

SmartQR is a single-page restaurant app (`app.js.js`). Customers fill a cart from a fixed
menu of six dishes, place an order and pay with a mock card. The kitchen moves orders
through placed → preparing → ready → completed. The owner filters the ledger, overrides
statuses and reads revenue counters. Under the DOM code sits a small engine that works on
four globals: `cart`, `orders`, `currentRole` and `currentView`. This project models that
engine and proves what it promises.

Modules:

- `Wrappers`: the `Option` type.
- `Search`: `find`/`findIndex` as "first index satisfying a predicate".
- `Menu`: the `MENU` catalog and the lookup `MENU.find(m => m.id == id)`.
- `Keys`: the least element of a finite set of ids. `Object.keys` and `Object.entries`
  list array-index keys (0 to 2^32 − 2) in ascending numeric order. The menu buttons
  only put menu ids 1 to 6 in the cart (app.js.js:125-126, 166-173), so the cart is read
  in ascending id order.
- `Cart`: the cart as a map from menu id to quantity. It has the effect of `addToCart`
  and `changeQty`, the ascending entries, the `items` snapshot, and the cart total. The
  sums are proved for any price table and then used with the catalog prices.
- `Text`: `trim()`, `replace(/\s/g, '')` and `slice(-n)`, as the payment form uses them.
- `Ledger`: statuses, order records and the ledger operations. These are the status
  update, the payment, the new order, the revenue sums of `computeTotals`, the kitchen
  and owner filters, and `loadOrders`.
- `App`: the class `Session`, holding the four globals as fields. Its methods are the
  handlers, each proved against the `Cart` and `Ledger` functions. `Valid()` is the
  invariant the handlers keep: every cart quantity is positive, and a customer only ever
  sees the customer view.

An id missing from the menu makes the source throw a TypeError (`it.price` of
`undefined`) in `updateCartTotal` and `placeOrder`. The model gives no total in that case
(`CartTotal` is `None`), and `placeOrder` reports `UnknownItem` and changes nothing,
because the throw happens before `orders.unshift`. A stored order without a total is read
as 0 by `o.total || 0`, so `Order.total` is an `Option<int>`.

## Model

| member | source | states |
|---|---|---|
| Search.FirstIndex | app.js.js:234 | the result is the first index whose element satisfies the predicate; None exactly when no element does |
| Menu.FindInFirst | app.js.js:214 | `find` by id yields the first catalog entry with that id, and nothing exactly when no entry has it |
| Menu.Find | app.js.js:214 | a catalog lookup that succeeds returns an entry carrying the id asked for |
| Menu.CatalogIds | app.js.js:4-11 | the ids on the menu are exactly 1 to 6 |
| Cart.AfterAdd | app.js.js:190-191 | `addToCart(id)` stores the old quantity plus one, counting an absent entry as 0; every other entry is unchanged; all-positive quantities stay positive |
| Cart.AfterChange | app.js.js:194-196 | `changeQty(id, delta)` keeps the entry exactly when old + delta is positive and then stores old + delta; other entries are unchanged; all-positive quantities stay positive |
| Cart.Entries | app.js.js:213 | `Object.entries(cart)` lists each cart entry once, with its quantity, in strictly ascending id order |
| Cart.ItemOf | app.js.js:213-216 | a line copies the catalog id and price of the entry's id and keeps its quantity |
| Cart.CartTotal | app.js.js:181-188 | the cart has a total exactly when every id is on the menu; the empty cart totals 0 |
| Cart.EntriesSumIsMapSum | app.js.js:182-186 | the running total over the ascending entries equals the sum of price × quantity over the cart |
| Cart.ItemsTotalIsEntriesSum | app.js.js:219-222 | folding price × qty over lines priced from the entries gives the entries' running total |
| Cart.SnapshotTotal | app.js.js:213-222 | the total that `placeOrder` reduces over the cart equals the sum over its `items` snapshot and the total `updateCartTotal` shows |
| Cart.EntriesSumStep | app.js.js:183-186 | one loop step of `updateCartTotal` adds price × qty of the next entry |
| Cart.KnownFromEntries | app.js.js:183-184 | if every listed entry is on the menu, so is every id of the cart |
| Cart.SumAfterAdd | app.js.js:190-191 | for any price table, adding one of an id adds its price to the sum |
| Cart.SumAfterChange | app.js.js:194-196 | for any price table, a quantity change moves the sum by the price times the change in the stored quantity |
| Cart.AddRaisesTotal | app.js.js:190-191 | after `addToCart(id)` the cart has a total exactly when the id is on the menu, and the total rises by that item's price |
| Cart.ChangeMovesTotal | app.js.js:194-196 | `changeQty` on a menu id moves the total by the price times the change in stored quantity, with a deleted entry counted as 0 |
| Text.TrimStart | app.js.js:239 | the result is a suffix of the input; only white space was removed; it does not start with white space |
| Text.TrimEnd | app.js.js:239 | the result is a prefix of the input; only white space was removed; it does not end with white space |
| Text.Trim | app.js.js:239 | the trimmed name is the input with an all-white-space prefix and suffix cut off; it neither starts nor ends with white space; it is empty exactly when the input is all white space |
| Text.StripSpaces | app.js.js:240 | the stripped number has no white space and keeps every other character of the input; the empty input gives the empty string; one character is dropped exactly when it is white space; an input without white space is returned as is |
| Text.StripSpacesAppend | app.js.js:240 | stripping a concatenation concatenates the stripped parts, so every non-space character is kept, in order and as often as it occurs |
| Text.Last | app.js.js:249 | `slice(-n)` gives the last min(n, length) characters for n > 0, and the whole string for n = 0 (`-0` is `0`) |
| Ledger.ParseStatus | app.js.js:337-340 | the owner's answer is accepted exactly when it names one of the four statuses, and then maps to that status |
| Ledger.ParseStatusName | app.js.js:339-341 | every status name typed by the owner is accepted as that status |
| Ledger.KitchenNext | app.js.js:287-289 | the kitchen's only button moves an order exactly one step forward; a completed order has none |
| Ledger.RevenueSplit | app.js.js:39-43 | total revenue equals paid revenue plus unpaid revenue |
| Ledger.SumCons | app.js.js:225 | putting an order in front of the ledger adds its share to each revenue sum |
| Ledger.SumUpdate | app.js.js:245 | replacing one order changes a revenue sum by the difference of its shares |
| Ledger.FirstPayable | app.js.js:234 | `payOrder` targets the first order that is unpaid and not completed; None exactly when there is none |
| Ledger.IndexOfId | app.js.js:350 | `findIndex` gives the first order with that id; None exactly when there is none |
| Ledger.WithStatus | app.js.js:349-352 | `updateStatus` keeps the length, changes only the status of the first order with the id, and changes nothing for an unknown id |
| Ledger.StatusOverwrite | app.js.js:349-352 | a later status update of the same id replaces an earlier one |
| Ledger.StatusIdempotent | app.js.js:349-352 | applying the same status update twice equals applying it once |
| Ledger.StatusKeepsRevenue | app.js.js:349-352 | status updates leave total, paid and unpaid revenue unchanged |
| Ledger.Settle | app.js.js:245-251 | payment changes only the target order: it becomes paid with the payment record; its id, items, status, total and time are kept |
| Ledger.PaymentMovesRevenue | app.js.js:245 | paying an unpaid order moves its total from unpaid to paid revenue and keeps total revenue |
| Ledger.PaymentAdvancesTarget | app.js.js:234 | after a payment the next payment targets a strictly later position or nothing, so no order is charged twice |
| Ledger.PayDecision | app.js.js:232-251 | `payOrder` reports no unpaid order exactly when there is none; invalid input exactly when the trimmed name is empty or the stripped number is shorter than 6; otherwise it charges the first payable order with a "card" payment carrying the trimmed name and the last 4 digits |
| Ledger.NewOrder | app.js.js:211-224 | the new order is placed, unpaid and without payment; its total is the cart total and the sum over its items; it has one item per cart entry with the cart quantity and the menu price, in ascending id order |
| Ledger.PlaceDecision | app.js.js:206-224 | `placeOrder` refuses exactly the empty cart; it fails exactly on a non-empty cart with an id not on the menu; otherwise it builds the new order from the cart |
| Ledger.PlacedOrderEffects | app.js.js:225 | a new order adds its total to total and unpaid revenue, leaves paid revenue unchanged, and becomes the next payment target |
| Ledger.ActiveOrders | app.js.js:264 | the kitchen lists exactly the orders that are not completed; a one-order ledger is kept exactly when that order is not completed |
| Ledger.ActiveOrdersAppend | app.js.js:264 | the kitchen filter of a concatenation is the concatenation of the filtered parts, so it keeps ledger order and every occurrence |
| Ledger.OwnerRows | app.js.js:310 | the owner lists exactly the orders with the chosen status, or the whole ledger for 'all'; a one-order ledger is kept exactly when the filter shows that order |
| Ledger.OwnerRowsAppend | app.js.js:310 | the owner filter of a concatenation is the concatenation of the filtered parts, so it keeps ledger order and every occurrence |
| Ledger.FiltersPartition | app.js.js:264 | the four single-status owner views together list every order once, and the kitchen lists exactly the orders the 'completed' view does not |
| Ledger.LoadOrders | app.js.js:26-29 | a parsed ledger is taken as is; a missing key or a parse failure gives the empty ledger |
| App.Session.constructor | app.js.js:20-23 | the page starts with an empty cart, the stored ledger, and the customer role and view |
| App.Session.SyncFromStorage | app.js.js:377-382 | a storage event for the ledger key replaces the ledger with the stored one; an event for any other key changes nothing; the invariant is kept |
| App.Session.ComputeTotals | app.js.js:36-45 | the counters are the ledger length and the total, paid and unpaid revenue, and total = paid + unpaid |
| App.Session.UpdateCartTotal | app.js.js:181-188 | the loop computes the cart total, or none where an id is not on the menu |
| App.Session.AddToCart | app.js.js:190-193 | the cart becomes `AfterAdd` of the old cart, and quantities stay positive |
| App.Session.ChangeQty | app.js.js:194-198 | the cart becomes `AfterChange` of the old cart, and quantities stay positive |
| App.Session.ClearCart | app.js.js:199-204 | a confirmed clear empties the cart; a cancelled one keeps it |
| App.Session.PlaceOrder | app.js.js:206-230 | the outcome is `PlaceDecision` for the id "ORD" plus the last six clock digits; a placed order goes in front of the old ledger and empties the cart; otherwise nothing changes |
| App.Session.PayOrder | app.js.js:232-254 | the outcome is `PayDecision`; on a charge the ledger becomes `Settle` of the old one; otherwise nothing changes |
| App.Session.UpdateStatus | app.js.js:349-354 | the ledger becomes `WithStatus` of the old one, and status is not checked |
| App.Session.KitchenAdvance | app.js.js:287-299 | a kitchen button applies the next status forward; a completed order has no button |
| App.Session.OwnerSetStatus | app.js.js:334-342 | an empty, cancelled or unknown answer changes nothing; any of the four names is applied as the status |
| App.Session.ShowView | app.js.js:83-100 | the switch is refused exactly for a staff view while the role is customer; otherwise the view becomes the target; the access rule is kept |
| App.Session.SetRole | app.js.js:55-81 | the role becomes the new one; switching to customer sends the view back to customer |
| App.Session.HandleLogin | app.js.js:364-374 | login succeeds exactly on a password match for a staff role; it then sets role and view to that role, and otherwise changes neither |

## Left out

- DOM rendering, event wiring, `alert`, the login modal and the `textContent` writes. Their results are inputs here: `confirm` and `prompt` answers, the form fields, the chosen login role.
- `saveOrders` and JSON serialisation. `localStorage` is modelled only as the `Stored` value that `loadOrders` reads. A parse that yields something other than an array of orders is not modelled.
- `Date.now()` and `new Date().toISOString()` are string parameters: the clock digits and the times.
- The demo passwords are modelled as the `matched` flag, meaning the password typed equals the picked role's password. The customer role has no password, so it never matches.
- JavaScript numbers are unbounded integers here: no floating point, overflow or NaN.
- Role names from the login select are the `Role` datatype, so an unexpected role string is not modelled.
- The owner's "Set" button appears only for orders that are not completed. That is a rendering detail. `OwnerSetStatus` models the click, whichever order it is for.
- The kitchen's `data-status` split on '|' is not modelled. Order ids are "ORD" plus digits, so they contain no '|'.
- Ledger.PayDecision: lengths and `slice` count characters (Unicode scalar values), not UTF-16 code units as JavaScript's `length` and `slice` do. The two differ only for characters above U+FFFF. For example, three U+1F600 characters have length 6 in JavaScript and are charged there, while the model refuses them as too short. The same holds for `Text.Last` and `Text.StripSpaces`.
- Cart.Entries: ids are listed in ascending order. JavaScript lists keys that are not array indices, such as negative ids, after the index keys and in insertion order. That order is not modelled. Only menu ids 1 to 6 reach the cart.
- Menu.Find: its contract states only that a hit carries the requested id. The first-match and absence properties are proved in `Menu.FindInFirst`, and the exact set of menu ids in `Menu.CatalogIds`.
- Cart.ItemOf: the contract does not state that the line copies the catalog name.
