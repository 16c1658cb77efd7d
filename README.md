# Order and product services: a verified model

This project models the core of two small web services. One is a product
catalogue with a stock count per product. The other places orders against
that catalogue. The model covers:

- **Validation and grouping of order items** (`validate_and_group_items`).
  Each requested item is checked in list order. Within an item the checks
  run in a fixed order: a missing field, then a value that is not an
  integer, then a negative value. The first failing item decides the error.
  If every item passes, quantities are summed per product id into an
  insertion-ordered dictionary.
- **Order creation** (`OrderListCreateView.post`). The request is rejected
  when `items` is absent or empty, or when validation fails. Otherwise an
  order is created, and the grouped products are handled one at a time, in
  dictionary order. For each one the service fetches the product, checks
  its stock, sends the reduced stock and attaches an item row. The row keeps
  the price seen at fetch time. On the first failure the order is deleted,
  and its rows go with it by cascade. Stock already deducted for earlier
  products is not given back.
- **Order detail and delete** (`OrderDetailDeleteView`). Detail is a
  lookup; delete removes the order and, by cascade, its item rows.
- **Product detail and stock update** (`ProductDetailView.get`,
  `ProductStockUpdateView.patch`). The update looks the product up first.
  It then coerces and checks the `stock` value, and finally overwrites the
  stock.
- **Order total** (`OrderSerializer.get_total_price`): the sum of price
  times quantity over an order's rows.

Modelling choices:

- The two services are two objects. `Products.ProductService` holds the
  product store, a `map` from id to product. `OrderViews.OrderService` holds
  the order ids, the item rows (each row carries its order id, the foreign
  key) and the next id to hand out.
- The GET and PATCH calls the order service makes become calls to
  `ProductService.Detail` and `ProductService.UpdateStock`. The model is
  therefore sequential and deterministic.
- Each imperative operation is a method proved against a specification
  function: `ValidateAndGroupItems` against `ValidateAndGroup`,
  `UpdateStock` against `PatchStock`, and `CreateOrder` against
  `CreateOrderSpec`. The properties are lemmas about those functions.
- Prices are integer cents, because the price column has two decimal
  places. Ids and quantities that pass validation are `nat`.
- A request field's outcome under Python's `int()` is `Coercion.Field`:
  `Missing`, `IntLike(n)` or `NotInt`.
- Order ids come from a counter. Every created order consumes one, even one
  that is deleted again on failure.

Two behaviours of the code that the model keeps on purpose:

- A quantity of 0 is accepted. order_manager/orders/views.py:43 rejects
  only negative values, and the `PositiveIntegerField` at
  order_manager/orders/models.py:11 stores 0 (`Grouping.CheckItem`).
- The grouped dictionary keeps first-appearance order. The creation loop
  at order_manager/orders/views.py:117 walks it in that order, so the order
  decides which failure is reported and which stock is already deducted
  when the loop stops (`Grouping.GroupOrder`, `OrderViews.FulfilFailure`).

## Model

| member | source | states |
|---|---|---|
| Grouping.CheckItem | order_manager/orders/views.py:31-44 | An item fails with a missing field exactly when either field is absent. It fails with not-an-integer exactly when both are present and one is not an integer. It fails with negative exactly when both are integers and one is below 0. Otherwise it is accepted with the coerced values, 0 included. |
| Grouping.ValidateAll | order_manager/orders/views.py:30-44 | Checks the items front to back and returns the first item's error, or one validated line per item. |
| Grouping.Accumulate | order_manager/orders/views.py:46 | `grouped_items[product_id] += quantity` on an insertion-ordered dictionary: adds to an existing key in place, or appends a new key at the end. |
| Grouping.Group | order_manager/orders/views.py:28-48 | The dictionary built by applying the update to each validated line in list order, starting from an empty one. |
| Grouping.ValidateAndGroup | order_manager/orders/views.py:15-48 | The result of `validate_and_group_items`: the validation error, or the grouped dictionary of all the lines. |
| OrderModels.ItemsOf | order_manager/orders/models.py:9 | `order.items.all()`: the rows whose foreign key is the order, in creation order; a row is in it exactly when it is in the table and points to that order. |
| OrderModels.Cascade | order_manager/orders/models.py:9 | The table after `on_delete=CASCADE` removes an order's rows; a row stays exactly when it points to another order. |
| OrderSerializers.TotalPrice | order_manager/orders/serializers.py:40 | `get_total_price`: the sum of price times quantity over the rows, in cents. |
| OrderViews.Render | order_manager/orders/serializers.py:40-47 | The serialized order: its id, its rows and the total of those rows. |
| OrderViews.FulfilOne | order_manager/orders/views.py:119-152 | One turn of the loop: not-found when the product is absent, insufficient stock when its stock is below the quantity, a failed-update error when the PATCH is rejected, and otherwise the store with the stock reduced and the row quoted at the fetched price. |
| OrderViews.Fulfil | order_manager/orders/views.py:117-152 | The loop over the grouped dictionary in order: runs turns until one fails, and returns the product store and either the rows attached or the first turn's error. |
| OrderViews.PlaceOrder | order_manager/orders/views.py:115-155 | Creates the order under the next id and runs the loop. On success the order is stored with its rows and rendered; on failure the order is deleted, the id stays used, and the stock changes made so far remain. |
| OrderViews.CreateOrderSpec | order_manager/orders/views.py:96-155 | `post`: an absent or empty list gives 'No items provided', an invalid list gives the validation error, both before any order exists; otherwise the order is placed. |
| OrderViews.DeleteSpec | order_manager/orders/views.py:209-215 | Not-found for an unknown id; otherwise the table without the order and, by cascade, without its rows. |
| Grouping.ValidateAllSpec | order_manager/orders/views.py:30-44 | Validation succeeds exactly when every item passes, and then yields one line per item. Otherwise its error is that of some item k, and every item before k passes. |
| Grouping.ValidateAllStopsAtError | order_manager/orders/views.py:34-44 | Once a prefix of the list has failed, later items do not change the answer. |
| Grouping.ValidateAndGroupEmpty | order_manager/orders/views.py:48 | An empty list is valid and groups to an empty dictionary. |
| Grouping.ValidateAndGroupItems | order_manager/orders/views.py:15-48 | The loop with early returns yields exactly the first item's error, or the grouped dictionary of the whole list. |
| Grouping.GroupSpec | order_manager/orders/views.py:28-48 | The grouped ids are distinct and are exactly the input ids. Each entry's value is the sum of the quantities given for its id. The overall quantity is conserved. Entries keep their ids' first-appearance order. |
| Grouping.GroupDistinctSums | order_manager/orders/views.py:28-48 | Ids are distinct and the key set is the input's. For every id, the grouped sum equals the input sum. The total equals the input total. |
| Grouping.GroupOrder | order_manager/orders/views.py:28-48 | Every entry's id occurs in the input, and entries come in the order in which their ids first appear in the input. |
| Grouping.GroupSums | order_manager/orders/views.py:46 | Each entry's value is the sum of all quantities given for that id. |
| Grouping.AccumulateKeys | order_manager/orders/views.py:46 | One dictionary update adds the line's id to the keys and no other. |
| Grouping.AccumulateDistinct | order_manager/orders/views.py:46 | One dictionary update keeps the keys distinct. |
| Grouping.AccumulateSums | order_manager/orders/views.py:46 | One update adds the line's quantity to its own id's value and to no other. |
| Grouping.AccumulateTotal | order_manager/orders/views.py:46 | One update adds the line's quantity to the total. |
| Grouping.AccumulateExistingKey | order_manager/orders/views.py:46 | Updating an existing key leaves every key where it was. |
| Grouping.AccumulateNewKey | order_manager/orders/views.py:46 | A new key is appended at the end of the dictionary. |
| Products.PatchStock | product_manager/products/views.py:86-104 | The lookup runs first, so an unknown id fails with not-found whatever the stock value. For a known id, an absent or non-integer stock fails with 'must be a valid integer'. A negative stock fails with 'cannot be negative'. Every failure leaves the store unchanged. Otherwise the product keeps its name and price and gets exactly the new stock, and the store changes only at that id. |
| Products.PatchStockFrame | product_manager/products/views.py:101-102 | An update never adds or drops a product, and leaves every other product unchanged. |
| Products.PatchStockLastWriterWins | product_manager/products/views.py:101-102 | After any first update, a valid second update gives the same result as if the first had not happened. |
| Products.PatchStockIdempotent | product_manager/products/views.py:101-102 | Applying the same update twice gives the same store and response as applying it once. |
| Products.DeductionAlwaysAccepted | product_manager/products/views.py:94-102 | For a product in the store, the stock minus a quantity not above it passes the update's checks. The new stock is exactly that difference. |
| Products.ProductService.Detail | product_manager/products/views.py:18-25 | Returns the stored product exactly when the id is known, and not-found otherwise. |
| Products.ProductService.UpdateStock | product_manager/products/views.py:86-104 | The new store and the response are those of PatchStock on the old store. |
| OrderModels.ItemsOfCascade | order_manager/orders/models.py:9 | Deleting an order leaves it no rows, and every other order keeps exactly its rows. |
| OrderModels.ItemsOfConcat | order_manager/orders/models.py:9 | An order's rows in two tables put together are its rows in each, in order. |
| OrderModels.CascadeConcat | order_manager/orders/models.py:9 | Deleting an order from two tables put together deletes it from each. |
| OrderModels.ItemsOfOwn | order_manager/orders/models.py:9 | Rows that all belong to an order are exactly its rows, and its deletion removes them all. |
| OrderModels.ItemsOfForeign | order_manager/orders/models.py:9 | Rows that belong to other orders give this order no rows, and survive its deletion. |
| OrderModels.FreshOrderRows | order_manager/orders/models.py:9 | Take a valid table and add rows for the newly created order. That order's rows are exactly the added ones, and deleting it restores the table. |
| OrderModels.CreatedValid | order_manager/orders/models.py:9 | Creating the next order with rows that point to it keeps every id issued and every row attached to an existing order. |
| OrderSerializers.TotalPriceEmpty | order_manager/orders/serializers.py:40 | An order with no rows totals 0. |
| OrderSerializers.TotalPriceConcat | order_manager/orders/serializers.py:40 | The total of two row lists put together is the sum of their totals. |
| OrderSerializers.TotalPriceAppend | order_manager/orders/serializers.py:40 | Attaching a row raises the total by exactly its price times quantity. |
| OrderSerializers.TotalPricePermutation | order_manager/orders/serializers.py:40 | Any two lists holding the same rows have the same total, whatever the order. |
| OrderSerializers.RemoveAtTotal | order_manager/orders/serializers.py:40 | Removing one row takes exactly its cost off the total. |
| OrderViews.FulfilRows | order_manager/orders/views.py:117-152 | A loop that reaches the end has attached one row per grouped product, in dictionary order. Each row has the product's quantity and the price the product had when fetched. |
| OrderViews.FulfilStock | order_manager/orders/views.py:117-145 | A loop that reaches the end reduces each product's stock by the quantity grouped for it. No product gains or loses an entry, and no name or price changes. |
| OrderViews.FulfilFailure | order_manager/orders/views.py:117-145 | A loop that fails stops at some grouped product k. The product store is as the loop over the first k products left it, so earlier deductions stay. The error names product k: not-found when the store lacks it, insufficient stock when its stock is below the quantity. |
| OrderViews.FulfilNeverFailsUpdate | order_manager/orders/views.py:134-145 | The loop never stops on a failed stock update: the value it sends always passes the update's checks. |
| OrderViews.RowsOfOrder | order_manager/orders/views.py:147-152 | Every row the loop attaches points to the order being created. |
| OrderViews.TotalPriceOfRows | order_manager/orders/serializers.py:40 | Rows with one entry per grouped product, each at its fetched price, total the grouped cost. |
| OrderViews.CreateOrderNoItems | order_manager/orders/views.py:106-108 | An absent or empty `items` list gives 'No items provided', and neither store changes. |
| OrderViews.CreateOrderInvalid | order_manager/orders/views.py:110-113 | A list that fails validation gives that validation error, and neither store changes. |
| OrderViews.CreateOrderRollback | order_manager/orders/views.py:115-145 | A failed creation leaves the same orders and rows as before, keeps the table valid, and never reports a failed stock update. When the loop fails, it fails at some product k, with the store the earlier products left. |
| OrderViews.PlaceOrderStored | order_manager/orders/views.py:115-155 | A placed order gets the next id, not in use before. It is stored with exactly the loop's rows, its view shows those rows and their total, and the table stays valid. |
| OrderViews.CreateOrderSuccess | order_manager/orders/views.py:110-155 | A successful creation stores a new order under the next id. Its grouped dictionary has distinct ids, exactly the requested ones, and the order has exactly one row per entry, in dictionary order. Each row has the summed quantity and the fetched price. The total is the sum of fetched price times summed quantity. |
| OrderViews.CreateOrderStock | order_manager/orders/views.py:117-145 | A successful creation reduces each product's stock by exactly the summed quantity requested for it. Products not requested, and every name and price, are unchanged. |
| OrderViews.CreateOrderExactStock | order_manager/orders/views.py:127-137 | A single item asking for exactly the available stock succeeds and leaves stock 0. |
| OrderViews.CreateOrderTooLittleStock | order_manager/orders/views.py:127-132 | A single item asking for more than the stock fails with insufficient stock. The product store is unchanged, and no order or row remains. |
| OrderViews.DeleteOrderSpec | order_manager/orders/views.py:209-215 | Deleting an unknown id fails with not-found. Deleting a known id removes the order and all its rows, leaves no orphan rows, and leaves every other order's rows as they were. |
| OrderViews.OrderService.constructor | order_manager/orders/models.py:4-12 | The order service starts with no orders, no rows and the first id 1. |
| OrderViews.OrderService.NewOrder | order_manager/orders/views.py:115 | Creates an empty order under the next id, which was not in use before. |
| OrderViews.OrderService.RemoveOrder | order_manager/orders/models.py:9 | Deleting an order removes its id and, by cascade, its rows. |
| OrderViews.OrderService.Rollback | order_manager/orders/views.py:119-145 | The compensating delete removes exactly the new order and the rows attached to it since. |
| OrderViews.OrderService.FulfilLine | order_manager/orders/views.py:119-152 | One turn of the loop (fetch, stock check, PATCH, quote the row) changes the product store and returns what FulfilOne specifies. |
| OrderViews.OrderService.CreateOrder | order_manager/orders/views.py:96-155 | The response and both stores after the request are those of CreateOrderSpec on the stores before, and the order table stays valid. |
| OrderViews.OrderService.Place | order_manager/orders/views.py:115-155 | Creating the order, the loop and the compensating delete give the response and stores of PlaceOrder. |
| OrderViews.OrderService.Detail | order_manager/orders/views.py:181-187 | Returns the order's view (its rows and total) exactly when the id exists, and not-found otherwise. The method changes nothing. |
| OrderViews.OrderService.Delete | order_manager/orders/views.py:209-215 | Matches DeleteSpec. On not-found the table is unchanged. Otherwise the order and its rows are gone, and the table stays valid. |

## Left out

- HTTP transport, status codes, JSON bodies, `Response`, schema decorators
  and URL routing are not modelled. Outcomes are the `OrderError` and
  `ProductError` datatypes, and each constructor's comment names its
  message and status.
- The remote calls cannot fail in transport, and a non-200 reply is only
  the product's absence or a rejected update. As a result the
  'Failed to update stock' branch is unreachable in the model. The spec
  function keeps it (`OrderViews.FulfilOne`), `OrderViews.FulfilNeverFailsUpdate`
  proves it unreachable, and `OrderViews.OrderService.FulfilLine` marks it
  dead.
- OrderViews.CreateOrderRollback: holds only because the remote calls
  cannot raise in the model. In the view, an exception from
  `requests.get`, `requests.patch`, `.json()` or `product_data['stock']`
  propagates before any `order.delete()`
  (order_manager/orders/views.py:119-145), so the created order and the
  rows attached so far stay in the database.
- Concurrent requests, and the race between the stock check and the
  deduction, are not modelled: the model is sequential.
- Python's `int()` coercion rules (strings, truncation of floats, bools)
  are abstracted as `Coercion.Field`. An item that is not a dictionary, or
  a non-empty `items` value that is not a list, makes the view raise (a
  server error). The model assumes a list of items with two fields.
- `created_at` is wall-clock time and is not modelled.
- The price travels through JSON as a decimal string. The model uses the
  fetched price in integer cents, and the 10-digit bound of the price
  column is not modelled.
- The list endpoints (orders and products) are plain reads and are not
  modelled. Product creation depends on a Product model and serializer;
  product_manager/products/models.py is not part of this model. A product's
  stock is taken to be a `nat`.
- Product delete is not modelled: no product-delete view exists in the
  product views.
- OrderModels.ItemsOf: `OrderItem` has no default ordering, so
  `items.all()` returns an order's rows in an order the database chooses.
  The model fixes it as creation order, and `OrderViews.CreateOrderSuccess`
  states the rows position by position in that order. The total does not
  depend on it (`OrderSerializers.TotalPricePermutation`).
- OrderViews.OrderService.Detail: returns the view, but the serializer's
  field list and `created_at` are not part of it.
