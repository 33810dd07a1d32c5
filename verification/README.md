# BookWithExt OrderService: the cart and order core in Dafny

The order service of the bookshop keeps shopping carts and orders. A cart is
a set of lines (product, quantity, the price seen when the product was
added). The service adds, updates and removes lines, lists and projects
carts, and checks a cart out: it buys every line from the remote product
service in cart order and, when every purchase succeeds, saves one
"Pending" order with one order item per line and deletes the cart. Orders
can then be listed newest first, read, have their status changed, or be
deleted. Every operation answers with a `ServiceResult` envelope.

This project models that core over an in-memory store and proves what each
operation does to it.

- `models.dfy`: the entities (`Cart`, `CartItem`, `Order`, `OrderItem`, the
  purchase receipt, availability information) and the `Outcome` of a call
  that can throw.
- `service_result.dfy`: `ServiceResult` with `Ok` and `Fail`, and the
  untyped `Data` payload narrowed to the values the core puts in it.
- `paging.dfy`: LINQ-to-objects `Skip`/`Take` and the in-memory page of the
  cart listing; the order listing pages in the database instead.
- `dtos.dfy`: the transfer objects.
- `product_gateway.dfy`: the product service as an oracle plus a log of the
  calls sent to it.
- `cart_repository.dfy`: the cart store, with a `Carts` table and a
  `CartItems` table. Each item row names its one cart. Deleting a cart
  cascades to its rows.
- `order_repository.dfy`: the order store, a table of whole orders (items
  are owned, so they go with their order), and the newest-first sort.
- `cart_lines.dfy`: what add, update and remove do to the lines of one cart,
  as functions on sequences, with the per-product quantity lemmas.
- `order_service.dfy`: the order service and its DTO mapping.
- `cart_service.dfy`: the cart service, including checkout.

Stores, the product service and the two services are classes whose methods
update their fields. Projections, listings and lookups are functions. The
checkout purchase loop and the unused rollback loop are `while` loops with
invariants.

### Behaviour of the code worth knowing

- `GetCartByIdAsync` never returns null. It throws "No cart for such id"
  (`CartRepository.cs:30`). So the "Cart not found." branches of add, update
  and remove cannot be reached. Those operations answer
  "An error occurred while …: No cart for such id" from their `catch`.
  Checkout and `GetCartAsync` have no `try`, so the exception escapes. The
  model returns it as `Threw`.
- A failed checkout purchase cancels nothing. The rollback call is commented
  out (`CartService.cs:138`). No order is saved and the cart stays.
  `RollbackPurchases` is modelled, but no operation calls it.
- `OrdersListDto.TotalCount` is the number of orders on the returned page,
  not the number of orders in the store.
- `GetAllCartsAsync` does not load items, so every listed cart shows an empty
  item list.
- `Models/OrderItem.cs` has no `PurchaseResponse` member. The schema
  (`AppDbContext.cs:68`), checkout (`CartService.cs:153`) and the DTO mapping
  (`OrderService.cs:117`) all use one, so the model gives an order item an
  optional receipt.
- Checkout's success message is the literal "Oder is confiremd".
- `CreateOrderAsync` saves whatever ids it is given, and the order
  controller passes the client's own order and item ids through
  (`OrderController.cs:81-86`). Two items of the order with one id make
  `Orders.Add` throw Entity Framework's tracking conflict before anything is
  saved; an id already in the store makes the save throw its update failure.
  Either exception escapes with nothing stored, and the model returns it as
  `Threw` with Entity Framework's message.
- The order listing pages in the database (SQL Server, `Program.cs:16`):
  `Skip`/`Take` become `OFFSET`/`FETCH`, which refuse a negative offset and a
  page size below one. The controller passes `page` and `pageSize` through
  unchecked, so page 0 or a page size of 0 or less throws, and the exception
  escapes. The cart listing pages an in-memory list, where the same
  arguments give a clamped or empty page.

## Model

| member | source | states |
|---|---|---|
| ServiceResults.Ok | OrderService/Models/ServiceResult.cs:9-12 | success, carrying exactly the given message and data; these default to "Operation successful" and no data |
| ServiceResults.Fail | OrderService/Models/ServiceResult.cs:14-17 | failure with exactly the given message and no data |
| ServiceResults.AsAvailability | OrderService/Services/CartService.cs:43 | `as AvailabilityInfo` gives a value exactly when the payload is availability information, and then that value |
| ServiceResults.AsReceipt | OrderService/Services/CartService.cs:153 | `as PurchaseResponseDto` gives a value exactly when the payload is a receipt, and then that receipt |
| Paging.Skip | OrderService/Services/CartService.cs:216 | a count at or below zero skips nothing; past the end, nothing is left; otherwise the suffix from that index |
| Paging.Take | OrderService/Services/CartService.cs:217 | a count at or below zero takes nothing; past the end, everything; otherwise the prefix of that length |
| Paging.PageStart | OrderService/Services/CartService.cs:216 | the in-memory page starts at `(page-1)*pageSize`, or at 0 when that is negative, as `Skip` on a list treats a negative count |
| Paging.Page | OrderService/Services/CartService.cs:215-217 | none if `pageSize <= 0`; otherwise exactly `min(pageSize, max(0, n - start))` elements of an `n`-element input, element i being element `start + i` |
| Paging.PageCovers | OrderService/Services/CartService.cs:216-217 | for a positive page size, element k is at position `k % pageSize` of page `k / pageSize + 1` |
| ProductGateway.ProductService.CheckProductAvailability | OrderService/Interfaces/IProductService.cs:10 | logs one availability call and returns the service's reply to it |
| ProductGateway.ProductService.PurchaseProduct | OrderService/Interfaces/IProductService.cs:8 | logs one purchase call and returns the service's reply to it |
| ProductGateway.ProductService.CancelPurchase | OrderService/Interfaces/IProductService.cs:9 | logs one cancel call and returns the service's reply to it |
| CartRepositories.ItemsOf | OrderService/Persistance/Repository/CartRepository.cs:27-28 | the loaded items of a cart are exactly the rows naming that cart, and keep distinct ids |
| CartRepositories.FindCartRow | OrderService/Persistance/Repository/CartRepository.cs:27-29 | `FirstOrDefault` on the id: a row exactly when one has the id, and then a row of the table with that id |
| CartRepositories.FindItem | OrderService/Persistance/Repository/CartRepository.cs:52-53 | `FindAsync` on the key: an item exactly when one has the id, and then an item of the table with that id |
| CartRepositories.WithoutCartItems | OrderService/Migrations/20250530053316_cascade_for_items_2.cs:57 | the cascade keeps exactly the rows of other carts, and their ids stay distinct |
| CartRepositories.Reconcile | OrderService/Persistance/Repository/CartRepository.cs:59-63 | saving a cart: its rows whose id is still in the collection take the collection's value, its rows missing from it are gone as orphans, every other cart's row stays, and ids stay distinct |
| CartRepositories.ItemOfOneCart | OrderService/Models/CartItem.cs:10 | an item belongs to one cart only: its id is among no other cart's items |
| CartRepositories.ItemsOfAppend | OrderService/Persistance/Repository/CartRepository.cs:38-42 | inserting a row appends it to its own cart's items and changes no other cart's items |
| CartRepositories.ItemsOfReplace | OrderService/Persistance/Repository/CartRepository.cs:44-48 | overwriting a row by id overwrites it within its own cart's items only |
| CartRepositories.ItemsOfWithoutItem | OrderService/Persistance/Repository/CartRepository.cs:50-57 | deleting a row by id deletes it from its cart's items only |
| CartRepositories.ItemsOfWithoutCart | OrderService/Migrations/20250530053316_cascade_for_items_2.cs:57 | the cascade empties the deleted cart and leaves every other cart's items as they were |
| CartRepositories.ReconcileRemoves | OrderService/Persistance/Repository/CartRepository.cs:59-63 | saving a cart whose collection lost exactly one item deletes exactly that row as an orphan |
| CartRepositories.RemoveAtIsWithoutItem | OrderService/Services/CartService.cs:253 | when ids are distinct, removing the item at index k is the same as deleting the item with that id |
| CartRepositories.CartRepository.CreateCart | OrderService/Persistance/Repository/CartRepository.cs:16-21 | appends the cart row and its items, returns the same cart, keeps keys unique and foreign keys valid |
| CartRepositories.CartRepository.GetCartById | OrderService/Persistance/Repository/CartRepository.cs:23-36 | returns the cart with all its rows exactly when the id exists; otherwise throws "No cart for such id", never null |
| CartRepositories.CartRepository.AddCartItem | OrderService/Persistance/Repository/CartRepository.cs:38-42 | appends the item row and reports success; the carts table is unchanged |
| CartRepositories.CartRepository.UpdateCartItem | OrderService/Persistance/Repository/CartRepository.cs:44-48 | replaces the row with the item's id and reports success |
| CartRepositories.CartRepository.RemoveCartItem | OrderService/Persistance/Repository/CartRepository.cs:50-57 | false and no change when no row has the id; otherwise deletes exactly that row |
| CartRepositories.CartRepository.UpdateCart | OrderService/Persistance/Repository/CartRepository.cs:59-63 | saves the cart row; its rows still in the collection take their new values, rows missing from it are deleted, and other carts' rows stay |
| CartRepositories.CartRepository.GetAllCarts | OrderService/Persistance/Repository/CartRepository.cs:65-69 | every cart in table order, with id and creation time, items not loaded |
| CartRepositories.CartRepository.DeleteCart | OrderService/Persistance/Repository/CartRepository.cs:72-77 | true exactly when the cart existed; deletes its row and, by cascade, its items |
| OrderRepositories.FindOrder | OrderService/Persistance/Repository/OrderRepository.cs:29 | finds an order exactly when one has the id, and it is an order of the table with that id |
| OrderRepositories.ReplaceOrder | OrderService/Persistance/Repository/OrderRepository.cs:46 | overwrites the order with the same id in place; ids stay the same and distinct |
| OrderRepositories.WithoutOrder | OrderService/Persistance/Repository/OrderRepository.cs:60 | removes exactly the orders with that id; nothing changes when none has it |
| OrderRepositories.FindAfterAppend | OrderService/Persistance/Repository/OrderRepository.cs:16-22 | after saving, a lookup finds the new order by its id and every other order as before |
| OrderRepositories.FindAfterReplace | OrderService/Persistance/Repository/OrderRepository.cs:42-49 | after an update, a lookup finds the new value by its id and every other order as before |
| OrderRepositories.InsertNewestFirst | OrderService/Persistance/Repository/OrderRepository.cs:36 | inserting into a newest-first sequence keeps it newest first and adds exactly that order |
| OrderRepositories.SortNewestFirst | OrderService/Persistance/Repository/OrderRepository.cs:36 | `OrderByDescending(createdAt)` is newest first and a permutation of the table |
| OrderRepositories.SortIsStable | OrderService/Persistance/Repository/OrderRepository.cs:36 | the model's tie-break: orders with the same creation time keep their table order (the database leaves that order open; see Left out) |
| OrderRepositories.PageOfNewestFirst | OrderService/Persistance/Repository/OrderRepository.cs:36-38 | a page of a newest-first sequence is newest first |
| OrderRepositories.OrderRepository.SaveOrder | OrderService/Persistance/Repository/OrderRepository.cs:16-22 | appends the order with its items when its id and item ids are new and distinct; two items sharing an id make `Add` throw the tracking conflict; otherwise a taken key makes the save throw; nothing is stored when it throws |
| OrderRepositories.OrderRepository.GetOrderById | OrderService/Persistance/Repository/OrderRepository.cs:24-30 | the stored order with that id, items included, or none exactly when absent |
| OrderRepositories.OrderRepository.GetAllOrders | OrderService/Persistance/Repository/OrderRepository.cs:32-40 | throws exactly when the offset `(page-1)*pageSize` is negative (SQL Server's offset error) or `pageSize` is below one (its fetch error); otherwise exactly page `page` of the table sorted newest first, of length `min(pageSize, max(0, n - offset))`, newest first, drawn from the table |
| OrderRepositories.OrderRepository.UpdateOrder | OrderService/Persistance/Repository/OrderRepository.cs:42-49 | replaces the stored order with the same id and reports success |
| OrderRepositories.OrderRepository.DeleteOrder | OrderService/Persistance/Repository/OrderRepository.cs:51-63 | true exactly when the order existed; removes it with its items |
| OrderServices.IsWhiteSpace | OrderService/Controllers/OrderController.cs:187 | `char.IsWhiteSpace`: the characters of Unicode's White_Space property |
| OrderServices.IsBlank | OrderService/Controllers/OrderController.cs:187 | `string.IsNullOrWhiteSpace` on a non-null string: the empty string is blank |
| OrderServices.ToOrderItemDto | OrderService/Services/OrderService.cs:111-118 | copies id, product, quantity, price and receipt of an order item |
| OrderServices.MapToOrderDto | OrderService/Services/OrderService.cs:104-120 | keeps id, creation time and status, and maps every item in order |
| OrderServices.MapToOrderDtoRoundTrip | OrderService/Services/OrderService.cs:104-120 | the order can be rebuilt from its transfer object, so the mapping loses nothing |
| OrderServices.MapToOrderDtoInjective | OrderService/Services/OrderService.cs:104-120 | different orders map to different transfer objects |
| OrderServices.Stamped | OrderService/Services/OrderService.cs:21-24 | the creation time becomes `now` only when it is the default; every other field stays |
| OrderServices.OrderService.CreateOrder | OrderService/Services/OrderService.cs:16-28 | saves the stamped order, returns that same order, and a lookup by its id then finds it; items sharing an id throw the tracking conflict, and a taken order or item id throws the save failure, with nothing stored |
| OrderServices.OrderService.DeleteOrder | OrderService/Services/OrderService.cs:30-39 | success equals "the order existed", with the matching message; afterwards no order has that id |
| OrderServices.OrderService.GetAllOrders | OrderService/Services/OrderService.cs:41-52 | the store's exception escapes unchanged; otherwise echoes page and page size, entry i is the mapping of order i of the store's page, `TotalCount` is the page's length, newest first |
| OrderServices.OrderService.GetOrder | OrderService/Services/OrderService.cs:54-61 | none exactly when no order has the id; otherwise the mapping of the stored order with that id |
| OrderServices.OrderService.UpdateOrderStatus | OrderService/Services/OrderService.cs:63-83 | "Order not found." and no change for an absent order; otherwise only its status changes, and every other lookup is unchanged |
| OrderServices.OrderService.UpdateOrder | OrderService/Services/OrderService.cs:85-102 | none and no change for an absent order; otherwise only the status is copied from the DTO and the updated order's DTO is returned |
| CartLines.IndexOfProduct | OrderService/Services/CartService.cs:295 | the first line holding the product, or the line count when none does |
| CartLines.MergeLine | OrderService/Services/CartService.cs:54-94 | adding keeps the line count exactly when the product is already in the cart and adds one line otherwise; the product is in the cart afterwards; lines of other products are kept |
| CartLines.RemoveAtUnique | OrderService/Services/CartService.cs:253 | removing a line never puts a product on a second line |
| CartLines.SetQuantityUnique | OrderService/Services/CartService.cs:304-313 | updating a line never puts a product on a second line |
| CartLines.RemoveAt | OrderService/Services/CartService.cs:253 | one line fewer; the lines before and after it stay, in order |
| CartLines.SetQuantity | OrderService/Services/CartService.cs:304-313 | quantity zero removes line k and keeps the rest in order; otherwise only line k's quantity changes |
| CartLines.MergeLineQuantity | OrderService/Services/CartService.cs:54-94 | adding raises the product's total quantity by exactly `quantity` and leaves every other product's total |
| CartLines.MergeLineExisting | OrderService/Services/CartService.cs:54-70 | for a product already in the cart, only its first line's quantity grows by `quantity`; no line is added |
| CartLines.MergeLineNew | OrderService/Services/CartService.cs:71-94 | for a product not in the cart, exactly one line is appended with that product, quantity and checked price |
| CartLines.MergeLineUnique | OrderService/Services/CartService.cs:54-94 | adding never puts a product on a second line |
| CartLines.SetQuantityEffect | OrderService/Services/CartService.cs:295-313 | with unique products, the product's total becomes `quantity` (zero when removed) and every other product's total stays |
| CartLines.RemoveFirstEffect | OrderService/Services/CartService.cs:243-253 | removing the product's first line takes that line's quantity off its total and leaves other products' totals |
| CartServices.ToDto | OrderService/Services/CartService.cs:342-358 | copies id, creation time and every item's fields in order; unloaded items show as an empty list |
| CartServices.ToDtoRoundTrip | OrderService/Services/CartService.cs:342-358 | a loaded cart can be rebuilt from its DTO |
| CartServices.ReplaceInCart | OrderService/Services/CartService.cs:311-312 | overwriting line k's row changes that line of its cart and no other cart's lines |
| CartServices.RemoveInCart | OrderService/Services/CartService.cs:307 | deleting line k's row removes that line of its cart and no other cart's lines |
| CartServices.AppendInCart | OrderService/Services/CartService.cs:84-86 | inserting a row appends a line to its cart and no other |
| CartServices.MergeNewInCart | OrderService/Services/CartService.cs:71-86 | inserting the new line is the merge of a product not yet in the cart |
| CartServices.KeptUnique | OrderService/Services/CartService.cs:54-94 | changing one cart's lines keeps every cart free of duplicate products when that cart stays free of them |
| CartServices.WithoutCartUnique | OrderService/Services/CartService.cs:202-210 | deleting a cart with its lines keeps every cart free of duplicate products |
| CartServices.RemoveReconciles | OrderService/Services/CartService.cs:253-254 | saving the cart with its first line of the product dropped deletes exactly that row |
| CartServices.PurchaseCalls | OrderService/Services/CartService.cs:129-133 | one purchase request per line, in cart order, for the line's product and quantity |
| CartServices.PurchaseReply | OrderService/Services/CartService.cs:129-133 | the reply to purchase request j is the product service's answer to the j-th call, given all calls sent before it |
| CartServices.FirstFailure | OrderService/Services/CartService.cs:129-145 | every purchase before the result succeeded, and the purchase at the result (if any) failed |
| CartServices.FirstFailureIsFirst | OrderService/Services/CartService.cs:129-145 | a failing line after only successful ones is where checkout stops |
| CartServices.OrderLines | OrderService/Services/CartService.cs:147-156 | one order item per line, in order, with the line's product, quantity and cart price and the returned receipt |
| CartServices.OrderLinesInsertable | OrderService/Services/CartService.cs:147-168 | with fresh distinct item ids and a fresh order id, the checkout order is one the store accepts |
| CartServices.CancelCalls | OrderService/Services/CartService.cs:184-187 | one cancel request per purchased item, in order |
| CartServices.CartService.SaveAddedLine | OrderService/Services/CartService.cs:54-94 | the store write of add: the cart's lines become the merge, and no other cart changes |
| CartServices.CartService.AddItemToCart | OrderService/Services/CartService.cs:23-110 | no change for a missing cart, a failed availability call (its reply returned as is) or an unavailable product; otherwise the lines become the merge at the current price, and no other cart changes |
| CartServices.CartService.SaveQuantity | OrderService/Services/CartService.cs:304-313 | the store write of update: the cart's lines become `SetQuantity`, and no other cart changes |
| CartServices.CartService.UpdateCartItem | OrderService/Services/CartService.cs:281-339 | missing cart or product: failure and no change; otherwise the first line of the product is set (zero deletes it), and no other cart changes |
| CartServices.CartService.RemoveItemFromCart | OrderService/Services/CartService.cs:229-279 | missing cart or product: failure and no change; otherwise only the first line of the product is removed, the rest stay in order, and no other cart changes |
| CartServices.CartService.PurchaseLines | OrderService/Services/CartService.cs:126-157 | purchases the lines in order up to the first failure and no further; when all succeed, builds the order items |
| CartServices.CartService.PlaceOrder | OrderService/Services/CartService.cs:159-167 | the checkout order, of fresh keys and stamped with the checkout time, is stored exactly as built |
| CartServices.CartService.CheckoutCart | OrderService/Services/CartService.cs:112-180 | missing cart throws; an empty cart fails with no calls; the first failed purchase fails naming the product, with no later calls, no cancels, no order and the cart kept; otherwise one "Pending" order of one item per line is saved, the cart is deleted and the order returned; no cart ever holds a product twice |
| CartServices.CartService.RollbackPurchases | OrderService/Services/CartService.cs:182-188 | sends one cancel per item, in order, and nothing else |
| CartServices.CartService.CreateCart | OrderService/Services/CartService.cs:190-200 | stores an empty cart with the fresh id, created now, and returns that id; a lookup then finds it |
| CartServices.CartService.DeleteCart | OrderService/Services/CartService.cs:202-210 | success exactly when the cart existed, with the matching message; the cart and its items are gone |
| CartServices.CartService.GetAllCarts | OrderService/Services/CartService.cs:212-220 | exactly `min(pageSize, max(0, n - start))` of the `n` carts from `start = (page-1)*pageSize` (none if `pageSize <= 0`), in store order, each with an empty item list |
| CartServices.CartService.GetCart | OrderService/Services/CartService.cs:222-227 | throws exactly when the cart is missing; otherwise the DTO of that stored cart, with its creation time and all its lines in order |

## Left out

- The product service's HTTP client (`Services/ProductService.cs`) is not
  part of this model. The service is an oracle: a function from the calls
  sent so far and the new call to a reply. Every call is logged.
- Controllers: HTTP routing and status codes are not modelled. Their guards
  are preconditions: add needs a positive quantity (`CartController.cs:70`),
  update a non-negative one (`CartController.cs:98`), and a status update a
  non-blank status (`OrderController.cs:187`).
- async, `Task`, `ContinueWith`, and lost updates between concurrent
  requests: the model runs one operation at a time.
- `Guid.NewGuid()` and `DateTime.UtcNow` are parameters: the fresh ids and
  the current time. Freshness of the ids the service makes itself is a
  precondition: the new line's id, the new cart's id, and checkout's order
  id and distinct item ids. This includes the time the `Cart` constructor
  stamps on a new cart (`Models/Cart.cs:12`). Ids a client supplies to
  order creation are not assumed fresh.
- Prices are `decimal` in the source; here they are integers (cents).
- Store writes of rows that exist always report success. Entity Framework
  throws a concurrency exception instead of returning false when such a row
  is gone, and that can only happen under concurrency. So the "Failed to
  update …" and "Failed to add item to cart." branches are kept but
  unreachable.
- `UpdateOrderAsync` in the order store takes an order that exists; the
  service only passes orders it has just loaded.
- Null arguments (`ArgumentNullException.ThrowIfNull`) cannot occur with
  Dafny values.
- CartServices.CartService.AddItemToCart: quantities are mathematical
  integers, so the C# `int` overflow of `quantity += quantity`
  (`CartService.cs:59`) is not modelled.
- Paging.PageStart: `(page - 1) * pageSize` is computed without 32-bit
  overflow.
- OrderRepositories.OrderRepository.GetAllOrders: the offset
  `(page - 1) * pageSize` is computed without 32-bit overflow, and when
  both the offset and the page size are refused, which of SQL Server's two
  messages comes first is a choice of the model (the offset's).
- `Persistance/Repository/ICartRepository.cs` is an unused duplicate
  interface; `Program.cs`, the migrations and `AppDbContext.cs` configure the
  framework. Only the cascade deletes and the owned receipt enter the model.
- OrderRepositories.SortNewestFirst: the database is SQL Server
  (`Program.cs:16`), and `OrderByDescending(createdAt)` leaves orders with
  the same creation time in no promised order. The model keeps their table
  order (`SortIsStable`); that tie order is a choice of the model.
- CartRepositories.ItemsOf: the cart's items are loaded with `Include` and
  no `OrderBy`, and the carts listing has none either, so the database
  promises no order. The model uses insertion order, so the position where
  `AddCartItem` appends a line, the order of a listing and the order in which
  checkout purchases the lines are choices of the model.
- `char.IsWhiteSpace` is modelled by the fixed list of Unicode White_Space
  characters; no other text handling (culture, normalisation) is involved.
