# Cart and order store of nodejs-aws-cart-api, in Dafny

This project models the persistence core of the cart API:

- the three Postgres tables `carts`, `cart_items` and `orders`;
- the repositories that read and write them;
- the two services built on top.

The store is a `Database` class holding one map per table (`schema.dfy`). The `CREATE TABLE` constraints of `db/seed.ts` are its invariant `Valid()`:

- primary keys;
- `count > 0` as an `INTEGER`;
- the `(cart_id, product_id)` key;
- the references from items and orders to carts;
- `NUMERIC(10, 2)` totals;
- the two status value sets, which are Dafny datatypes.

Every repository statement is a method on a class holding the shared `Database`, mirroring the injected `pg` pool. Each method either keeps the invariant and states its whole new state, or fails with an `Error` and changes nothing.

The services are classes over the repositories:

- `findOrCreateByUserId`, `updateByUserId`, `removeByUserId` and the catalog join on the cart side;
- `findById`, `update` and the checkout transaction `create` on the order side.

`BEGIN` captures the tables with `Database.Begin` and `ROLLBACK` restores them with `Database.Rollback`. This is how the all-or-nothing behaviour of `create` is stated and proved.

Postgres behaviour the code relies on, modelled explicitly:

- `INSERT ... ON CONFLICT DO UPDATE` evaluates the `CHECK (count > 0)` of the proposed row before it finds the conflict. So `addCartItem` with a count of 0 or less fails even when the item exists.
- Counts are 32-bit; a sum that overflows fails.
- `orders.cart_id` has no `ON DELETE` action, so deleting a cart that an order references fails. The cart's own items are deleted with it (`ON DELETE CASCADE`).
- `updateOrder` splices each key of its argument into the SQL as an unquoted identifier, and Postgres folds such identifiers to lower case. As a result:
  - the property names `id`, `payment`, `delivery`, `comments`, `status` and `total` name columns, so `total` can be rewritten;
  - `userId`, `cartId`, `createdAt` and `updatedAt` name no column, so any update that uses one of them fails;
  - an empty update produces `SET , updated_at = ...`, which is a syntax error.
- No constraint limits a user to one OPEN cart, and `updateCartStatus` has no `WHERE status = 'OPEN'` guard. "At most one OPEN cart per user" is therefore proved only as a property the services keep when run one after another. Checking out the same cart twice produces two orders (`OrderServices.CheckoutTwice`).

Among the behaviours of the code that differ from what a reader of the API would expect are the following. The model follows the code in each:

- uniqueness of the OPEN cart is not enforced by the storage;
- the generic order update accepts `total`;
- `updateByUserId` can create a cart and then fail on the item write, leaving the new cart in place;
- checkout does not require the cart to be OPEN;
- the item writes (`addCartItem`, `updateCartItemCount`, `removeCartItem`) do not check that the cart is OPEN;
- the item writes never update the cart's `updated_at`.

## Model

| member | source | states |
|---|---|---|
| Models.CartStatusName | db/seed.ts:34 | the text written for each cart status passes the status CHECK and reads back as that status |
| Models.ParseCartStatus | db/seed.ts:34 | a status text is accepted exactly when it is OPEN or ORDERED |
| Models.OrderStatusName | src/order/models/index.ts:1-8 | the text of each of the six order statuses passes the orders status CHECK and reads back as that status |
| Models.ParseOrderStatus | db/seed.ts:56 | an order status text is accepted exactly when it is one of the six names |
| Models.ParseOrderStatusName | db/seed.ts:56 | reading an accepted status text and writing it again gives the same text |
| Schema.WithoutCart | db/seed.ts:43 | the cascade leaves the table minus exactly the deleted cart's rows: that cart has no rows left and every other cart keeps its own |
| Schema.OrderingLeavesOpenCarts | src/order/services/order.service.ts:51 | marking a cart ORDERED removes exactly that cart from its user's OPEN carts |
| Schema.DeletingLeavesOpenCarts | src/cart/services/cart.service.ts:98 | deleting a cart removes exactly that cart from its user's OPEN carts |
| Schema.OpenCartsInsert | src/cart/repositories/cart.repository.ts:10-12 | inserting a fresh cart adds it to its user's OPEN carts when it is OPEN, and changes nothing else |
| Schema.OpenCartsAtMostOne | src/cart/repositories/cart.repository.ts:61 | when every user has at most one OPEN cart, the cart LIMIT 1 returns is the only OPEN cart |
| Schema.InsertOpenCartKeepsAtMostOne | src/cart/services/cart.service.ts:27-30 | creating an OPEN cart only for a user who has none keeps every user at one OPEN cart at most |
| Schema.SecondOpenCartBreaksAtMostOne | db/seed.ts:28-36 | the schema itself allows a second OPEN cart, which breaks the property |
| Schema.Database.NewCartId | db/seed.ts:30 | the generated cart id is fresh; the tables keep their contents and the invariant |
| Schema.Database.Begin | src/order/services/order.service.ts:35 | the snapshot is the current content of the three tables |
| Schema.Database.Rollback | src/order/services/order.service.ts:56 | the tables are exactly the snapshot again and the invariant holds |
| CartRepositories.CollectItems | src/cart/repositories/cart.repository.ts:43-53 | the collected items are the cart's rows, each exactly once with its count; no rows gives the empty list |
| CartRepositories.CartRepository.CreateCartByUserId | src/cart/repositories/cart.repository.ts:9-33 | adds exactly one new OPEN cart for the user with the current time and no items, returns it, and adds it to the user's OPEN carts |
| CartRepositories.CartRepository.FindCartByUserId | src/cart/repositories/cart.repository.ts:35-88 | None exactly when the user has no OPEN cart; otherwise one of the user's OPEN carts, with its row and exactly its items |
| CartRepositories.CartRepository.AddCartItem | src/cart/repositories/cart.repository.ts:90-111 | succeeds exactly for a positive 32-bit count, an existing cart and no overflow; inserts the item or adds to its count; on failure nothing changes |
| CartRepositories.CartRepository.UpdateCartItemCount | src/cart/repositories/cart.repository.ts:113-141 | sets an existing item's count to exactly the count when it is positive; a missing item fails with no change |
| CartRepositories.CartRepository.RemoveCartItem | src/cart/repositories/cart.repository.ts:143-164 | deletes exactly that item; a missing item fails with no change |
| CartRepositories.CartRepository.DeleteCartById | src/cart/repositories/cart.repository.ts:166-185 | removes the cart and all of its items; a missing cart or one referenced by an order fails with no change |
| CartRepositories.CartRepository.UpdateCartStatus | src/cart/repositories/cart.repository.ts:187-209 | sets the cart's status and updated_at and touches no other cart; a missing cart or a status outside the CHECK fails with no change |
| CartRules.CalculateCartTotal | src/cart/models-rules/index.ts:7-17 | an absent cart and a cart without items total 0 |
| CartRules.ReduceIsSum | src/cart/models-rules/index.ts:9-15 | the reduce from any start value is that value plus the sum of price times count |
| CartRules.LinesSumAppend | src/cart/models-rules/index.ts:9-15 | a line appended to the list adds exactly its price times count to the sum |
| CartRules.CartTotalIsSum | src/cart/models-rules/index.ts:8-16 | the total of a cart is the sum over its items of price times count |
| CartRules.CartTotalAppend | src/cart/models-rules/index.ts:9-15 | appending an item raises the total by exactly its price times its count |
| CartRules.LinesSumNonnegative | src/cart/models-rules/index.ts:9-15 | with no negative price or count the sum is not negative |
| CartRules.CartTotalNonnegative | src/cart/models-rules/index.ts:8-16 | with no negative price or count the cart total is not negative |
| CartServices.ProductIndex | src/cart/services/cart.service.ts:139-142 | the map has an entry exactly for the ids in the reply, each holding a product with that id |
| CartServices.ProductIndexLast | src/cart/services/cart.service.ts:140-142 | when an id appears more than once, the last product carrying it wins |
| CartServices.ProductIndexMembers | src/cart/services/cart.service.ts:139-142 | every product in the map is a product of the reply |
| CartServices.BuildProductMap | src/cart/services/cart.service.ts:139-142 | the loop builds exactly the index of the reply |
| CartServices.JoinItems | src/cart/services/cart.service.ts:144-158 | succeeds exactly when every item's product is known, giving item i paired with its product and count; otherwise fails on the first missing product |
| CartServices.PopulateCartWithProductDetails | src/cart/services/cart.service.ts:129-161 | an empty cart gives empty items without the catalog; otherwise the result keeps the cart, its length, its order and its counts, pairs each item with the product the map keeps for its id, and fails on the first item the reply has no product for, or when the catalog failed |
| CartServices.PopulatedTakesLastProduct | src/cart/services/cart.service.ts:140-146 | when the reply repeats an id, the populated item carries the last product with that id |
| CartServices.FindItem | src/cart/services/cart.service.ts:65-67 | an item is found exactly when one with that product id is in the list, and it is the first such item |
| CartServices.CartService.FindOrCreateByUserId | src/cart/services/cart.service.ts:25-39 | returns an OPEN cart of the user with exactly its items, each row once; creates no cart when one existed and exactly one fresh empty cart otherwise; keeps "at most one OPEN cart per user" |
| CartServices.CartService.FindOrCreateByUserIdPopulated | src/cart/services/cart.service.ts:41-55 | returns the cart findOrCreateByUserId gives (creating one exactly when the user had no OPEN cart) populated from the reply: success exactly when the cart is empty or the reply has every item's product, one populated item per stored row with its count and the reply's product |
| CartServices.CartService.UpdateByUserId | src/cart/services/cart.service.ts:57-89 | count 0 on a present item removes it; otherwise sets or inserts the item with exactly that count when it is a positive 32-bit number, in both branches; a failure leaves `cart_items` unchanged; keeps "at most one OPEN cart per user" |
| CartServices.CartService.RemoveByUserId | src/cart/services/cart.service.ts:91-107 | no OPEN cart fails with nothing changed; otherwise deletes exactly that cart and its items unless an order references it, after which, if the user had only that OPEN cart, the user has none |
| SqlText.Decimal | src/order/repositories/order.repository.ts:70 | a placeholder index is printed with at least one digit |
| SqlText.DecimalRoundTrip | src/order/repositories/order.repository.ts:70 | the printed index reads back as the same number |
| SqlText.DecimalInjective | src/order/repositories/order.repository.ts:77 | different indexes give different placeholders |
| OrderRepositories.FoldCase | src/order/repositories/order.repository.ts:70 | folding keeps the length and lower-cases each character |
| OrderRepositories.ResolveColumn | db/seed.ts:49-60 | a folded identifier resolves exactly to the column with that name, or to none |
| OrderRepositories.ColumnOf | src/order/repositories/order.repository.ts:70 | a key names a column exactly when its folded text is that column's name |
| OrderRepositories.GetDeterminesRow | db/seed.ts:49-60 | two order rows with the same value in every column are the same row |
| OrderRepositories.Assign | db/seed.ts:53-57 | writing a column succeeds exactly when NOT NULL, the status CHECK and NUMERIC(10, 2) admit the value; it writes that column only |
| OrderRepositories.ResolveEntries | src/order/repositories/order.repository.ts:69-72 | resolution succeeds exactly when every key names a column, and keeps entry order and values |
| OrderRepositories.ApplyAssignments | src/order/repositories/order.repository.ts:74-78 | the SET clause applies exactly when every value is admissible; a storable total stays storable |
| OrderRepositories.ApplyAssignmentsColumns | src/order/repositories/order.repository.ts:74-78 | the SET clause writes each named column with its value and leaves every other column as it was |
| OrderRepositories.SetClauseWritesEntries | src/order/repositories/order.repository.ts:69-76 | after the SET clause and `updated_at = NOW()`, the column of every entry holds that entry's value |
| OrderRepositories.SetClauseKeepsOthers | src/order/repositories/order.repository.ts:74-78 | after the SET clause and `updated_at = NOW()`, every column that no entry names, other than updated_at, holds its old value |
| OrderRepositories.UpdateResult | src/order/repositories/order.repository.ts:74-85 | an empty update is a syntax error and an unknown key an undefined column; success needs an existing row, sets updated_at to now, and keeps the key and cart references valid |
| OrderRepositories.UpdateWritesExactlySuppliedKeys | src/order/repositories/order.repository.ts:64-93 | a successful update overwrites exactly the supplied keys with their values and updated_at with now; every other field is unchanged |
| OrderRepositories.CamelCaseKeyFails | src/order/repositories/order.repository.ts:69-70 | a `userId`, `cartId`, `createdAt` or `updatedAt` key makes the update fail |
| OrderRepositories.TotalIsUpdatable | src/order/repositories/order.repository.ts:69-72 | an update of `total` alone to a storable amount succeeds and changes only total and updated_at |
| OrderRepositories.UnderscoreFreeUpdateKeepsOwnership | src/order/repositories/order.repository.ts:69-78 | an update whose keys contain no underscore never changes the order's user, cart or creation time |
| OrderRepositories.PlaceholderBinds | src/order/repositories/order.repository.ts:70 | placeholder `$n` refers to the n-th value of the list |
| OrderRepositories.PlaceholdersDistinct | src/order/repositories/order.repository.ts:70-72 | different indexes give different placeholders, so no two entries share a parameter |
| OrderRepositories.BuildUpdateQuery | src/order/repositories/order.repository.ts:65-79 | one `key = $i` per entry with i running from 1 in entry order; `$i` binds entry i's value; the order id is parameter n+1 and the query ends in `WHERE id = $n+1` |
| OrderRepositories.ParametersBind | src/order/repositories/order.repository.ts:71-79 | the values collected in entry order followed by the order id bind `$1`..`$n` to the entries' values and `$n+1` to the id |
| OrderRepositories.QueryBindsAssignments | src/order/repositories/order.repository.ts:69-82 | when the keys resolve, parameter `$i` of the built statement carries the value of the i-th assignment the update applies |
| OrderRepositories.Replaced | src/order/repositories/order.repository.ts:74-77 | an update that keeps the id keeps the table's key set; one that moves the row to a fresh id swaps exactly that key; the number of orders never changes |
| OrderRepositories.OrderRepository.FindById | src/order/repositories/order.repository.ts:13-32 | the order with that id, or None exactly when there is none |
| OrderRepositories.OrderRepository.CreateOrder | src/order/repositories/order.repository.ts:34-62 | stores and returns a row with exactly the supplied fields and the current time, leaving other orders unchanged; an out-of-range total, a duplicate id or an unknown cart fails with no change |
| OrderRepositories.OrderRepository.UpdateOrder | src/order/repositories/order.repository.ts:64-93 | the table afterwards is the update's result, or unchanged with the update's error; the other tables are untouched |
| OrderRepositories.UpdateKeepsTablesValid | db/seed.ts:49-60 | a successful update keeps the primary key, the cart reference and the NUMERIC(10, 2) bound of every order |
| OrderRepositories.OrderRepository.Execute | src/order/repositories/order.repository.ts:81-85 | running the statement stores the updated row under its id, or fails with the update's error and changes nothing; the other tables are untouched |
| OrderServices.OrderService.FindById | src/order/services/order.service.ts:14-30 | the order with that id, or OrderNotFound exactly when there is none |
| OrderServices.OrderService.Create | src/order/services/order.service.ts:32-64 | on success adds exactly one order with the fresh id, status OPEN and the supplied cart and total, and marks the cart ORDERED, which removes it from the OPEN carts and keeps "at most one OPEN cart per user"; on any failure all three tables equal their state before the call |
| OrderServices.OrderService.Update | src/order/services/order.service.ts:66-82 | a missing order fails with OrderNotFound before any update and nothing changes; otherwise the repository update's result |
| OrderServices.CheckoutTwice | src/order/services/order.service.ts:40-51 | two checkouts of the same existing cart with fresh ids both succeed and store two OPEN orders, each under its id and each referencing that cart, which ends ORDERED |

## Left out

- The HTTP request to the product service (`fetchProductDetailsBatch`) is outside the model. Its reply is the `response` parameter, and None stands for a failed request. Which ids the request carries is not modelled.
- The `pg` pool, client checkout and release pass through the models untouched. Every statement is an atomic update of the in-memory tables; `BEGIN`/`COMMIT` are a snapshot and its disposal.
- Concurrency, isolation levels and the find-then-create race are not modelled: the model is sequential.
- Floating-point numbers are left out: prices, counts and totals are integers, and amounts are integer cents. JavaScript `number` rounding and the two-decimal rounding of `NUMERIC(10, 2)` are not modelled.
- `NOW()`, `uuid_generate_v4()` and `uuidv4()` are parameters (`now`, `orderId`) or a fresh-id counter (`Database.nextCartId`). UUIDs are natural numbers.
- NestJS wiring (modules, controllers, bootstrap, the Lambda handler), the CDK stack, the users repository and service, and the DTO validators are not modelled.
- The seed data inserts and every log and error message text are left out. The thrown exceptions become one `Error` value that keeps the cause.
- The names of the returned fields are not modelled. Rows come back as one `Cart` or `Order` record, although the repositories return snake_case row keys (`user_id`, `created_at`) or `RETURNING *` columns.
- OrderRepositories.BuildUpdateQuery: normalises the whitespace of the template literal. It does not model keys that contain SQL syntax (quoting or injection through a key).
- OrderRepositories.UpdateResult: models parameter typing more simply than Postgres. A value must have the column's JavaScript type or be null: a uuid for the id columns, JSON for payment and delivery, text for comments and status, a number for total, a time for the timestamps. Postgres's text coercions, such as a number accepted as JSON, are not modelled. When several entries are invalid, the reported error is the first in entry order. Postgres's own precedence among errors of one row is not modelled.
- OrderServices.OrderService.Create: reads `userId`, `cartId`, `total`, `delivery`, `comments` and `payment` as typed values. A missing field, which would reach the insert as NULL, is not modelled. Failures the constraints do not explain (a dropped connection at the insert, at the status update or at `COMMIT`) are the `interruption` parameter; a `COMMIT` that does not complete leaves nothing behind, like a rollback. A failure of `BEGIN` or `ROLLBACK` itself is not modelled, and neither is a `COMMIT` the server applies whose reply is then lost: the caller sees an error although the order and the status change persist, whereas the model's failures always leave the tables as they were.
- CartServices.CartService.UpdateByUserId: takes the product id and count of the request directly. It does not model a non-integer count, which Postgres would reject.
- CartServices.CartService.UpdateByUserId: assumes the request's product id arrives in the lower-case text form Postgres prints for a uuid. The source looks the id up with `===` on strings (cart.service.ts:65-67) but the tables compare uuid values, so another spelling of a product already in the cart (upper case, say) misses the lookup and takes the insert branch: with a positive count `ON CONFLICT` adds to the stored count instead of setting it, and with count 0 the insert fails its CHECK instead of removing the row. Ids are modelled as one value (`Uuid = nat`), so this case is not captured.
- CartServices.PopulateCartWithProductDetails: makes the same assumption for the catalog's product ids. `productMap.get` (cart.service.ts:145) compares strings, so a catalog reply that spells an id differently from the stored lower-case form would miss and fail with "product not found"; the model treats the two spellings as one id.
- CartRepositories.CartRepository.FindCartByUserId: leaves the order of the items open, as the query does, and picks any OPEN cart when there are several, as `LIMIT 1` without `ORDER BY` does.
