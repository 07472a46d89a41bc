# OnlineShop client core, modelled in Dafny

This project models the state layer of the OnlineShop Angular storefront client:

- **`ShoppingCartService`** (`client/src/app/shopping-cart.service.ts`). It caches one snapshot of the remote cart (`shoppingCartPromise`) and fills it only when it is empty. Every mutator clears the cache before its request. A mutation emits one change event when its request succeeds and none when it fails. `addItem` merges a product into its existing line. `getItems` joins the catalog with the cart lines, and `getItemsCount` sums the quantities.
- **`OrdersService`** (`client/src/app/orders.service.ts`). `createOrder` stamps `id = orders.length + 1` and `products` on the contact object it is given. It then POSTs that object and clears the cart only after the POST succeeded. `getOrders` fetches the order list.
- **`PadPipe.transform`** (`client/src/app/pad.pipe.ts`): left padding of a number's decimal form to a width with a symbol.
- **the `ccexp` validator** (`client/src/app/order/order.component.ts`): a credit-card expiry `M/Y` accepted by `^(0?[1-9]|1[0-2])\/(0?[1-9]|[1-9][0-9])$`.

Files and modules:

| file | module | contents |
|---|---|---|
| `errors.dfy` | `Errors` | `Option`, `Result`, `Outcome`; the transport error, the rejection value and `handleError` |
| `cart_lines.dfy` | `CartLines` | cart lines; the effect of POST, PUT and DELETE on the stored lines; `find`, the quantity sum, the merge of `addItem`; lemmas |
| `cart_items.dfy` | `CartItems` | catalog products, enriched items, the join of `getItems`; lemmas |
| `backend.dfy` | `Backend` | class `Api`: the remote cart, the remote order list and the log of requests received |
| `shopping_cart_service.dfy` | `ShoppingCart` | class `ShoppingCartService`, and client methods that use only its contracts |
| `orders_service.dfy` | `Orders` | class `ContactInfo`, class `OrdersService`, the `products` mapping; lemmas |
| `pad_pipe.dfy` | `PadPipe` | `transform` and the decimal conversion it relies on |
| `order_form.dfy` | `OrderForm` | the `ccexp` predicate, the expression it tests, and its numeric meaning (digits read with `PadPipe`'s `ParseDecimal`) |

How the asynchronous code is modelled:

- Each HTTP request is a method of `Backend.Api`. The method takes a `reply: Outcome<HttpError>` parameter, which says whether the request succeeds or fails with a given transport error.
- A request is appended to `Api.log` whether it succeeds or not. Only a successful request changes the stored state. "One fetch", "exactly this POST body" and "no DELETE after a failed order POST" are therefore statements about `log`.
- The server is not part of this model. Its semantics are taken to be:
  - POST appends a line.
  - PUT replaces the quantity of the line for that product.
  - DELETE by id removes that line.
  - DELETE on the collection empties the cart.
- `shoppingCartPromise` is the field `cache: Option<Snapshot>`. A snapshot is the list of lines or the rejection the fetch settled to, so a failed fetch stays cached until the next `updateItemQuantity`, `removeItem` or `removeAllItems`. An `addItem` after a failed read rejects before it reaches its cache clear, so it leaves the failure cached (`ShoppingCart.AddAfterFailedRead`).
- The invariant `ShoppingCartService.Valid()` says that a successful cached snapshot always equals the remote cart. It holds because every request that changes the cart is preceded by clearing the cache.
- `onChangesEvent.emit()` increments the counter `changes`.
- The operations run sequentially. The awaited steps of each operation happen in source order.

The model follows the code on three points:

- `createOrder` builds `products` from the enriched items that `getItems()` returns (orders.service.ts:50-57), not from the raw cart lines. A cart line whose product is missing from the catalog is therefore not ordered (`Orders.OrderOmitsUnlisted`). When the cart has one line per product, the catalog ids are distinct and the catalog lists every product in the cart, nothing is lost (`Orders.OrderCoversCart`). A cart with two lines for one product, which the concurrent `addItem` race can produce, loses the second line, because `find` keeps only the first.
- The posted order includes the `id`, because `id` is set on `contactInfo` before `JSON.stringify` (orders.service.ts:51, 59).
- If `removeAllItems` fails after the order POST succeeded, `createOrder` rejects, because its `.catch` is chained after that call (orders.service.ts:61-66). Re-applying `handleError` to that rejection changes nothing (`Errors.HandleErrorIdempotent`).

## Model

| member | source | states |
|---|---|---|
| `Errors.HandleError` | client/src/app/shopping-cart.service.ts:36-39 | a failure carrying a non-empty `feedbackMessage` is rejected with that message; any other value is rejected as it is; the result never carries a further message |
| `Errors.Rejected` | client/src/app/orders.service.ts:30-33 | a failed transport call is rejected with its `feedbackMessage` when present and non-empty, otherwise with the raw error |
| `Errors.HandleErrorIdempotent` | client/src/app/orders.service.ts:61-66 | handling an already handled rejection again leaves it unchanged, so a `removeAllItems` rejection passes through `createOrder`'s handler unchanged |
| `CartLines.Find` | client/src/app/shopping-cart.service.ts:58 | `find` reports no line exactly when the cart has no line for the product. A reported line belongs to that product and is the first such line in the cart |
| `CartLines.SetQuantity` | client/src/app/shopping-cart.service.ts:122-124 | the PUT effect: as many lines as before; each line of the product becomes `{p, q}` and every other line stays as it was, in place |
| `CartLines.RemoveLine` | client/src/app/shopping-cart.service.ts:138-140 | the DELETE-by-id effect: a line remains exactly when it was in the cart and belongs to another product |
| `CartLines.SetQuantityFind` | client/src/app/shopping-cart.service.ts:118-124 | after a PUT on a product that has a line, `find` reports that product with the new quantity |
| `CartLines.SetQuantityAbsent` | client/src/app/shopping-cart.service.ts:122-124 | a PUT on a product that has no line leaves the cart unchanged |
| `CartLines.SetQuantityUnique` | client/src/app/shopping-cart.service.ts:118-124 | a PUT keeps the cart at one line per product |
| `CartLines.RemoveLineUnique` | client/src/app/shopping-cart.service.ts:136-140 | a DELETE keeps the cart at one line per product |
| `CartLines.SumAppend` | client/src/app/shopping-cart.service.ts:108 | the quantity sum of two concatenated carts is the sum of their sums |
| `CartLines.Sum` | client/src/app/shopping-cart.service.ts:108 | the item count is 0 for an empty cart. When no quantity is negative, the count is non-negative and at least the quantity of every line. `SumAppend`, `RemoveLineSum`, `SetQuantitySum` and `AddedSum` relate it to each cart request |
| `CartLines.RemoveLineSum` | client/src/app/shopping-cart.service.ts:136-140 | with one line per product, removing a product lowers the count by the quantity of its line |
| `CartLines.SetQuantitySum` | client/src/app/shopping-cart.service.ts:118-124 | with one line per product, a PUT on a present line changes the count by the new minus the old quantity |
| `CartLines.AddedLines` | client/src/app/shopping-cart.service.ts:57-73 | what a successful `addItem(p, q)` leaves in the remote cart. It has one more line exactly when `find` reported none for `p`. `AddedToAbsent`, `AddedToPresent`, `AddedQuantity`, `AddedOthers`, `AddedUnique` and `AddedSum` characterise it |
| `CartLines.AddedToAbsent` | client/src/app/shopping-cart.service.ts:59-70 | `addItem(p, q)` for a product with no line appends exactly `{p, q}` |
| `CartLines.AddedToPresent` | client/src/app/shopping-cart.service.ts:71-73 | `addItem(p, q)` for a product with a line sets that line to its found quantity plus `q` |
| `CartLines.AddedQuantity` | client/src/app/shopping-cart.service.ts:57-73 | after `addItem(p, q)`, `find` reports a line for `p` whose quantity is the previous quantity plus `q` (0 plus `q` when the line was created) |
| `CartLines.AddedOthers` | client/src/app/shopping-cart.service.ts:57-73 | `addItem(p, q)` changes what `find` reports for no other product |
| `CartLines.AddedUnique` | client/src/app/shopping-cart.service.ts:57-73 | sequential `addItem` never gives a product a second line |
| `CartLines.AddedSum` | client/src/app/shopping-cart.service.ts:57-73 | with one line per product, `addItem(p, q)` raises the item count by exactly `q` |
| `CartLines.AddTwiceMerges` | client/src/app/shopping-cart.service.ts:57-73 | two `addItem` calls for a product not in the cart leave one line for it with the sum of both quantities, appended after the existing lines |
| `CartItems.Join` | client/src/app/shopping-cart.service.ts:83-98 | every enriched item is a catalog product with a cart line; it carries the quantity of the line `find` reports and `total = price * quantity`; there are at most as many items as catalog products |
| `CartItems.JoinListsEveryProductWithALine` | client/src/app/shopping-cart.service.ts:90 | a catalog product is enriched if and only if the cart has a line for it |
| `CartItems.JoinDropsUnlisted` | client/src/app/shopping-cart.service.ts:90 | a line whose product is absent from the catalog yields no item |
| `CartItems.JoinKeepsCatalogOrder` | client/src/app/shopping-cart.service.ts:90-91 | `filter` and `map` keep the catalog's order: the items' products occur in the catalog at strictly increasing positions |
| `CartItems.JoinKeepsAlphaOrder` | client/src/app/shopping-cart.service.ts:83-91 | an alphabetically sorted catalog (the `alpha-asc` request) gives alphabetically sorted items |
| `CartItems.JoinDistinct` | client/src/app/shopping-cart.service.ts:90-98 | a catalog with distinct ids gives at most one item per product |
| `CartItems.JoinKeepsCoveredLines` | client/src/app/shopping-cart.service.ts:85-98 | when the cart has one line per product, the catalog ids are distinct and the catalog lists every product in the cart, the items' `{id, quantity}` pairs are exactly the cart lines, reordered |
| `CartItems.TotalsExample` | client/src/app/shopping-cart.service.ts:91-97 | lines `{1,2}`, `{2,1}` and prices 1000 and 500 give totals 2000 and 500 and an item count of 3 |
| `Backend.Api.GetCartLines` | client/src/app/shopping-cart.service.ts:167-170 | a GET is logged and returns the stored lines, or the transport error |
| `Backend.Api.PostCartLine` | client/src/app/shopping-cart.service.ts:64-68 | a POST is logged and, on success, appends its line |
| `Backend.Api.PutCartQuantity` | client/src/app/shopping-cart.service.ts:122-125 | a PUT is logged and, on success, applies `SetQuantity` |
| `Backend.Api.DeleteCartLine` | client/src/app/shopping-cart.service.ts:138-140 | a DELETE by id is logged and, on success, applies `RemoveLine` |
| `Backend.Api.DeleteWholeCart` | client/src/app/shopping-cart.service.ts:152-154 | a DELETE on the cart is logged and, on success, empties it |
| `Backend.Api.GetOrderList` | client/src/app/orders.service.ts:76-78 | a GET of the orders is logged and returns the stored orders, or the transport error |
| `Backend.Api.PostNewOrder` | client/src/app/orders.service.ts:59-60 | an order POST is logged and, on success, appends the order |
| `ShoppingCart.ReadSettlesOnce` | client/src/app/shopping-cart.service.ts:165-174 | once a read has settled and been cached, a later read returns the same value, whatever its own reply would have been |
| `ShoppingCart.ReadSeesRemoteCart` | client/src/app/shopping-cart.service.ts:165-174 | while a cached success equals the remote cart, every successful read returns the remote cart |
| `ShoppingCart.EventIffResolved` | client/src/app/shopping-cart.service.ts:125-127 | a mutator resolves exactly when it emitted its one change event. When it rejects, it emitted none, and its rejection has already been through `handleError` |
| `ShoppingCart.ShoppingCartService.constructor` | client/src/app/shopping-cart.service.ts:20-21 | a new service has no cached snapshot and has emitted no event |
| `ShoppingCart.ShoppingCartService.RetrieveItems` | client/src/app/shopping-cart.service.ts:165-174 | with a snapshot cached, nothing is requested and the snapshot is returned; otherwise exactly one GET is issued and what it settles to, failure included, is cached and returned; a cached success equals the remote cart |
| `ShoppingCart.ShoppingCartService.Complete` | client/src/app/shopping-cart.service.ts:125-127 | the `.then(emit).catch(handleError)` tail: one event on success, none on failure, and the matching settled value |
| `ShoppingCart.ShoppingCartService.UpdateItemQuantity` | client/src/app/shopping-cart.service.ts:118-128 | clears the cache, issues exactly the PUT `{productId, quantity}`, applies it to the remote cart on success, emits one event exactly on success |
| `ShoppingCart.ShoppingCartService.AddItem` | client/src/app/shopping-cart.service.ts:56-75 | `quantity` defaults to 1; a failed read rejects with the cached or fetched failure and writes nothing; otherwise the cache is cleared and exactly one request is sent: POST `{p, q}` when `p` has no line, else PUT of the found quantity plus `q`; on success the cart becomes `AddedLines` and one event is emitted; one line per product is preserved |
| `ShoppingCart.ShoppingCartService.RemoveItem` | client/src/app/shopping-cart.service.ts:136-143 | clears the cache, issues the DELETE for that product, removes its line on success, emits one event exactly on success |
| `ShoppingCart.ShoppingCartService.RemoveAllItems` | client/src/app/shopping-cart.service.ts:150-157 | clears the cache, issues the DELETE on the cart, empties it on success, emits one event exactly on success |
| `ShoppingCart.ShoppingCartService.GetItems` | client/src/app/shopping-cart.service.ts:82-100 | reads the cart (caching it) even when the catalog fails; resolves to the join of the catalog with the read lines, or rejects with the catalog's or the read's failure |
| `ShoppingCart.ShoppingCartService.GetItemsCount` | client/src/app/shopping-cart.service.ts:107-109 | resolves to the quantity sum of the read lines, or rejects with the read's failure |
| `ShoppingCart.ReadTwice` | client/src/app/shopping-cart.service.ts:166-173 | two reads with no mutation between them issue at most one GET and settle to the same value, a failed fetch included |
| `ShoppingCart.ReadAfterUpdate` | client/src/app/shopping-cart.service.ts:119 | a read after a mutation issues a new GET and, when the GET succeeds, sees the cart as the mutation left it |
| `ShoppingCart.AddAfterFailedRead` | client/src/app/shopping-cart.service.ts:57-62 | with a failed read cached, two `addItem` calls both reject with that failure. They send no request, change neither the cart nor the event count, and leave the failure cached |
| `ShoppingCart.AddOneUnit` | client/src/app/shopping-cart.service.ts:56 | `addItem` without a quantity adds one unit to the product's line |
| `Orders.ContactInfo.constructor` | client/src/app/order/order.component.ts:16-21 | the contact object starts with its four fields and no `id` or `products` |
| `Orders.OrderProducts` | client/src/app/orders.service.ts:52-57 | `products` has one entry per enriched item, in the same order, each `{id: item.product.id, quantity: item.quantity}` |
| `Orders.NextOrderIdFresh` | client/src/app/orders.service.ts:51 | when the stored orders carry ids 1 to n, the id `orders.length + 1` belongs to no stored order, and appending the new order keeps the ids 1 to n + 1 |
| `Orders.OrderOmitsUnlisted` | client/src/app/orders.service.ts:50-57 | a cart line whose product is not in the catalog is not ordered |
| `Orders.OrderCoversCart` | client/src/app/orders.service.ts:50-57 | when the catalog ids are distinct and the catalog lists every product in a cart with one line per product, `products` has one `{id, quantity}` entry for each cart line and no other entry |
| `Orders.OrdersService.constructor` | client/src/app/orders.service.ts:41 | the service uses the same backend as the shopping-cart service it is given |
| `Orders.OrdersService.GetOrderHistory` | client/src/app/orders.service.ts:75-80 | one GET of the orders; resolves to the stored orders or rejects with the handled error |
| `Orders.OrdersService.PlaceOrder` | client/src/app/orders.service.ts:50-67 | `id` becomes the order count plus one and `products` the mapped items. Exactly that order is POSTed. A failed POST rejects with the handled error and leaves the cart and the cache alone. A successful POST appends the order and is followed by exactly one DELETE of the cart. The result is the contact object when that DELETE succeeds and its handled error otherwise |
| `Orders.OrdersService.CreateOrder` | client/src/app/orders.service.ts:49-68 | both reads are issued first. If one fails, the call rejects and nothing is stamped, posted or cleared. Otherwise `id` and `products` are set on the contact object and exactly that order is POSTed. A failed POST rejects with the handled error, leaves the cart alone and issues no DELETE. In both failure cases the settled cart read stays cached. A successful POST is followed by the DELETE on the cart. The call resolves to the same contact object when that DELETE succeeds and rejects with its error otherwise. Contact fields are never changed |
| `PadPipe.Decimal` | client/src/app/pad.pipe.ts:22 | `value + ''` of a natural number is a non-empty digit string with no leading zero |
| `PadPipe.DecimalRoundTrip` | client/src/app/pad.pipe.ts:22 | reading the digit string back gives the number |
| `PadPipe.Repeat` | client/src/app/pad.pipe.ts:23 | `new Array(n + 1).join(symbol)` is `n` copies of `symbol`: length `n * |symbol|`, character `i` is `symbol[i % |symbol|]` |
| `PadPipe.PadLeft` | client/src/app/pad.pipe.ts:23 | `PaddedTo`: the result always ends with the digit string; a string at least `width` long is returned unchanged; otherwise the prefix is `width - len` copies of `symbol`; with a one-character symbol the length is `max(width, len)` |
| `PadPipe.Transform` | client/src/app/pad.pipe.ts:21-24 | `PaddedTo` of the value's decimal digits: they end the result, a value at least `width` long is returned unchanged, otherwise the prefix is `width - len` copies of `symbol`, and with a one-character symbol the length is `max(width, len)` |
| `PadPipe.DefaultPadsWithZeros` | client/src/app/pad.pipe.ts:21 | with the defaults (width 5, symbol `'0'`), 42 becomes `00042` |
| `PadPipe.DefaultKeepsLongNumbers` | client/src/app/pad.pipe.ts:23 | 123456, longer than the default width, is returned unchanged |
| `PadPipe.CustomSymbol` | client/src/app/pad.pipe.ts:21-23 | width 3 and symbol `*` turn 7 into `**7` |
| `OrderForm.Ccexp` | client/src/app/order/order.component.ts:36-42 | true exactly when the value is present, non-empty and the whole of it is a month part, one `/` and a year part |
| `OrderForm.MonthPatternMeansOneToTwelve` | client/src/app/order/order.component.ts:40 | the month alternatives accept exactly the one- or two-digit strings whose decimal value (`PadPipe.ParseDecimal`) is 1 to 12 |
| `OrderForm.YearPatternMeansOneToNinetyNine` | client/src/app/order/order.component.ts:40 | the year alternatives accept exactly the one- or two-digit strings whose decimal value (`PadPipe.ParseDecimal`) is 1 to 99 |
| `OrderForm.CcexpMeansNumericExpiry` | client/src/app/order/order.component.ts:36-42 | a present value is accepted if and only if it is `M/Y` with month 1..12 and year 1..99, one or two digits each, and nothing else |
| `OrderForm.EmptyRejected` | client/src/app/order/order.component.ts:37-39 | a missing or empty value is rejected |
| `OrderForm.MonthExamples` | client/src/app/order/order.component.ts:40 | `1/5`, `01/5` and `12/5` are accepted |
| `OrderForm.MonthCounterexamples` | client/src/app/order/order.component.ts:40 | `0/5`, `00/5` and `13/5` are rejected |
| `OrderForm.YearExamples` | client/src/app/order/order.component.ts:40 | `1/05` and `1/99` are accepted |
| `OrderForm.YearCounterexamples` | client/src/app/order/order.component.ts:40 | `1/0`, `1/00` and `1/100` are rejected |
| `OrderForm.AnchorExamples` | client/src/app/order/order.component.ts:40 | leading or trailing characters, another separator or a second `/` make the value rejected |

## Left out

- The HTTP transport, `Config.apiUrl`, headers, `withCredentials`, `JSON.stringify` and `toPromise`. They are replaced by the `Backend.Api` methods and an explicit success or failure per request.
- The server. The effect of each cart request is the one stated above. A PUT on a product that has no line leaves the cart unchanged (`CartLines.SetQuantityAbsent`).
- Orders.NextOrderIdFresh: the id is fresh only when the stored ids are 1 to n. The client never checks this, and the server that assigns the stored orders is not part of this model.
- Concurrency. Operations run one after another, so the race of two concurrent `addItem` calls for a new product is not modelled. Neither is the sharing of one pending fetch by concurrent readers. What the model keeps is that a cached snapshot is reused.
- `ShoppingCart.ShoppingCartService.GetItems`: when the catalog and the cart read both fail, it reports the catalog's failure. In the source, the first rejection to arrive wins.
- `Orders.OrdersService.CreateOrder`: when more than one of its reads fails, it reports the first failure in the order orders, catalog, cart. In the source, the first rejection to arrive wins.
- The product catalog service (`products.service`) is not part of this model. The catalog is an input that has either succeeded or failed with a rejection value.
- The `EventEmitter` subscription machinery. Change notification is a counter, and subscribers are not modelled.
- Floating point. Prices are integers (cents), so `total = price * quantity` is exact. The price pipe's `toFixed(2)` and the `totalAmount` sum in the cart component are left out.
- The `+item.quantity` coercion of `getItemsCount`. Quantities are integers.
- `console.error` logging.
- PadPipe.Transform: the value is a natural number. Negative, fractional or very large numbers, which JavaScript prints with a sign, a fraction or an exponent, are not modelled. Neither are non-integer widths.
- The UI components: cart page, product page, product list, app shell, confirmation page and price pipe. The same goes for routing, `confirm` dialogs and timers. The product page's clamp of a non-positive quantity to 1 is a caller-side guard; `AddItem` accepts any quantity, as the service does.
- The jQuery `phoneUS` and `creditcard` rules, form submission and navigation in the order component. These are foreign library calls.
