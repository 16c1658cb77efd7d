/**
  The Order Service's endpoints (order_manager/orders/views.py): order
  creation, which validates and groups the requested items and then, one
  product at a time, fetches the product from the Product Service, checks
  its stock, deducts the stock and attaches an item row; and order detail
  and delete. The two HTTP calls to the Product Service are calls on a
  ProductService object, so the model is deterministic and sequential.
 */
module OrderViews {
  import opened Wrappers
  import opened Coercion
  import opened Grouping
  import opened Products
  import opened OrderModels
  import opened OrderSerializers

  datatype OrderError =
    | NoItems                              // 'No items provided' (400)
    | InvalidItems(reason: ValidationError) // the validation message (400)
    | UnknownProduct(productId: nat)       // 'Product {id} not found' (404)
    | InsufficientStock(productId: nat)    // 'Insufficient stock for product {id}' (400)
    | StockUpdateFailed(productId: nat)    // 'Failed to update stock for product {id}' (400)
    | OrderNotFound                        // 'Order not found' (404)

  /** What OrderSerializer renders: the order id, its item rows and the computed total. */
  datatype OrderView = OrderView(id: nat, items: seq<OrderItem>, totalPriceCents: int)

  function Render(db: OrderDb, id: nat): OrderView
  {
    OrderView(id, ItemsOf(db.items, id), TotalPrice(ItemsOf(db.items, id)))
  }

  // ---------------------------------------------------------------------
  // Order creation

  /** The product store after the per-product loop, and the rows attached or the error that stopped it. */
  datatype Fulfilment = Fulfilment(products: map<nat, Product>, result: Result<seq<OrderItem>, OrderError>)

  /** The product store after one turn of the loop, and the row to attach or the error that stops the loop. */
  datatype Turn = Turn(products: map<nat, Product>, result: Result<OrderItem, OrderError>)

  /**
    One turn of the loop, for order `order`: fetch the product, check its
    stock, deduct the quantity, and quote a row with the price seen at
    fetch time.
   */
  function FulfilOne(products: map<nat, Product>, line: Line, order: nat): Turn
  {
    if line.productId !in products then Turn(products, Err(UnknownProduct(line.productId)))
    else
      var product := products[line.productId];
      if product.stock < line.quantity then Turn(products, Err(InsufficientStock(line.productId)))
      else
        var patched := PatchStock(products, line.productId, IntLike(product.stock - line.quantity));
        if patched.response.Err? then Turn(patched.products, Err(StockUpdateFailed(line.productId)))
        else Turn(patched.products, Ok(OrderItem(order, line.productId, line.quantity, product.priceCents)))
  }

  /**
    The loop over the grouped products, for order `order`, with the rows
    `attached` so far; the first failure stops the loop.
   */
  function Fulfil(products: map<nat, Product>, grouped: seq<Line>, order: nat, attached: seq<OrderItem>): Fulfilment
    decreases |grouped|
  {
    if grouped == [] then Fulfilment(products, Ok(attached))
    else
      var turn := FulfilOne(products, grouped[0], order);
      match turn.result
      case Err(e) => Fulfilment(turn.products, Err(e))
      case Ok(row) => Fulfil(turn.products, grouped[1..], order, attached + [row])
  }

  /** Both stores after a request, and the response. */
  datatype Outcome = Outcome(products: map<nat, Product>, db: OrderDb, response: Result<OrderView, OrderError>)

  /**
    POST /orders/: reject an absent or empty `items` list, then a list that
    fails validation, before any order exists; otherwise place the order.
   */
  function CreateOrderSpec(products: map<nat, Product>, db: OrderDb, request: Option<seq<RawItem>>): Outcome
  {
    if request.None? || request.value == [] then Outcome(products, db, Err(NoItems))
    else
      match ValidateAndGroup(request.value)
      case Err(e) => Outcome(products, db, Err(InvalidItems(e)))
      case Ok(grouped) => PlaceOrder(products, db, grouped)
  }

  /**
    Create the order (its id is taken from the counter), run the loop, and
    on failure delete the order with its rows. Stock already deducted is
    not given back.
   */
  function PlaceOrder(products: map<nat, Product>, db: OrderDb, grouped: seq<Line>): Outcome
  {
    var id := db.nextId;
    var fulfilment := Fulfil(products, grouped, id, []);
    match fulfilment.result
    case Err(e) => Outcome(fulfilment.products, OrderDb(db.orders, db.items, id + 1), Err(e))
    case Ok(rows) =>
      var created := OrderDb(db.orders + {id}, db.items + rows, id + 1);
      Outcome(fulfilment.products, created, Ok(Render(created, id)))
  }

  /** The sum over the grouped products of the fetched price times the summed quantity. */
  function GroupedCost(products: map<nat, Product>, grouped: seq<Line>): int
    requires forall k :: 0 <= k < |grouped| ==> grouped[k].productId in products
  {
    if grouped == [] then 0
    else products[grouped[0].productId].priceCents * grouped[0].quantity + GroupedCost(products, grouped[1..])
  }

  // ---------------------------------------------------------------------
  // What the loop promises

  /**
    A loop that gets to the end has attached one row per grouped product,
    in order, with its quantity and the price the product had.
   */
  lemma {:induction false} FulfilRows(products: map<nat, Product>, grouped: seq<Line>, order: nat, attached: seq<OrderItem>)
    requires Fulfil(products, grouped, order, attached).result.Ok?
    ensures |Fulfil(products, grouped, order, attached).result.value| == |attached| + |grouped|
    ensures Fulfil(products, grouped, order, attached).result.value[..|attached|] == attached
    ensures forall k :: 0 <= k < |grouped| ==>
      grouped[k].productId in products &&
      Fulfil(products, grouped, order, attached).result.value[|attached| + k]
        == OrderItem(order, grouped[k].productId, grouped[k].quantity, products[grouped[k].productId].priceCents)
    decreases |grouped|
  {
    if grouped != [] {
      var line := grouped[0];
      var product := products[line.productId];
      var next := PatchStock(products, line.productId, IntLike(product.stock - line.quantity)).products;
      var attached' := attached + [OrderItem(order, line.productId, line.quantity, product.priceCents)];
      FulfilRows(next, grouped[1..], order, attached');
      var rows := Fulfil(products, grouped, order, attached).result.value;
      assert rows == Fulfil(next, grouped[1..], order, attached').result.value;
      assert rows[..|attached|] == rows[..|attached'|][..|attached|];
      forall k | 0 <= k < |grouped|
        ensures grouped[k].productId in products
        ensures rows[|attached| + k]
             == OrderItem(order, grouped[k].productId, grouped[k].quantity, products[grouped[k].productId].priceCents)
      {
        if k == 0 {
          assert rows[|attached|] == rows[..|attached'|][|attached|];
        } else {
          assert grouped[k] == grouped[1..][k - 1];
          assert rows[|attached| + k] == rows[|attached'| + (k - 1)];
        }
      }
    }
  }

  /**
    A loop that gets to the end has reduced each product's stock by the
    quantity requested for it, and changed nothing else in any product.
   */
  lemma {:induction false} FulfilStock(products: map<nat, Product>, grouped: seq<Line>, order: nat, attached: seq<OrderItem>)
    requires Fulfil(products, grouped, order, attached).result.Ok?
    ensures Fulfil(products, grouped, order, attached).products.Keys == products.Keys
    ensures forall id :: id in products ==>
      var after := Fulfil(products, grouped, order, attached).products[id];
      after.name == products[id].name && after.priceCents == products[id].priceCents &&
      after.stock == products[id].stock - SumFor(grouped, id)
    decreases |grouped|
  {
    if grouped != [] {
      var line := grouped[0];
      var product := products[line.productId];
      var next := PatchStock(products, line.productId, IntLike(product.stock - line.quantity)).products;
      var attached' := attached + [OrderItem(order, line.productId, line.quantity, product.priceCents)];
      FulfilStock(next, grouped[1..], order, attached');
    }
  }

  /**
    A loop that fails at the k-th grouped product leaves the product store
    exactly as a loop over the first k products would have left it: the
    stock deducted for them stays deducted. The error names the k-th
    product and says why it failed in that store.
   */
  lemma {:induction false} FulfilFailure(products: map<nat, Product>, grouped: seq<Line>, order: nat, attached: seq<OrderItem>)
    requires Fulfil(products, grouped, order, attached).result.Err?
    ensures exists k :: 0 <= k < |grouped| && FailsAt(products, grouped, order, attached, k)
    decreases |grouped|
  {
    var line := grouped[0];
    assert grouped[..0] == [];
    if line.productId in products && products[line.productId].stock >= line.quantity {
      var product := products[line.productId];
      var next := PatchStock(products, line.productId, IntLike(product.stock - line.quantity)).products;
      var attached' := attached + [OrderItem(order, line.productId, line.quantity, product.priceCents)];
      FulfilFailure(next, grouped[1..], order, attached');
      var k :| 0 <= k < |grouped[1..]| && FailsAt(next, grouped[1..], order, attached', k);
      assert grouped[..k + 1][0] == line && grouped[..k + 1][1..] == grouped[1..][..k];
      assert grouped[k + 1] == grouped[1..][k];
      assert FailsAt(products, grouped, order, attached, k + 1);
    } else {
      assert FailsAt(products, grouped, order, attached, 0);
    }
  }

  /** The loop over `grouped` stops at position k, for the reason its error names. */
  predicate FailsAt(products: map<nat, Product>, grouped: seq<Line>, order: nat, attached: seq<OrderItem>, k: nat)
    requires k < |grouped|
  {
    var prefix := Fulfil(products, grouped[..k], order, attached);
    var whole := Fulfil(products, grouped, order, attached);
    var id := grouped[k].productId;
    && prefix.result.Ok?
    && whole.products == prefix.products
    && (|| (whole.result == Err(UnknownProduct(id)) && id !in prefix.products)
        || (whole.result == Err(InsufficientStock(id)) && id in prefix.products
            && prefix.products[id].stock < grouped[k].quantity))
  }

  /** The stock update the loop sends never fails, so the loop never stops with StockUpdateFailed. */
  lemma {:induction false} FulfilNeverFailsUpdate(products: map<nat, Product>, grouped: seq<Line>, order: nat, attached: seq<OrderItem>)
    ensures !Fulfil(products, grouped, order, attached).result.Err?
         || !Fulfil(products, grouped, order, attached).result.error.StockUpdateFailed?
    decreases |grouped|
  {
    if grouped != [] {
      var line := grouped[0];
      if line.productId in products && products[line.productId].stock >= line.quantity {
        var product := products[line.productId];
        DeductionAlwaysAccepted(products, line.productId, line.quantity);
        var next := PatchStock(products, line.productId, IntLike(product.stock - line.quantity)).products;
        var attached' := attached + [OrderItem(order, line.productId, line.quantity, product.priceCents)];
        FulfilNeverFailsUpdate(next, grouped[1..], order, attached');
      }
    }
  }

  /** The total of rows quoted one per grouped product is the grouped cost. */
  lemma {:induction false} TotalPriceOfRows(products: map<nat, Product>, grouped: seq<Line>, rows: seq<OrderItem>, order: nat)
    requires |rows| == |grouped|
    requires forall k :: 0 <= k < |grouped| ==>
      grouped[k].productId in products &&
      rows[k] == OrderItem(order, grouped[k].productId, grouped[k].quantity, products[grouped[k].productId].priceCents)
    ensures TotalPrice(rows) == GroupedCost(products, grouped)
  {
    if grouped != [] {
      assert forall k :: 0 <= k < |grouped| - 1 ==> grouped[1..][k] == grouped[k + 1] && rows[1..][k] == rows[k + 1];
      TotalPriceOfRows(products, grouped[1..], rows[1..], order);
    }
  }

  // ---------------------------------------------------------------------
  // What order creation promises

  /** An absent or empty `items` list is rejected before any order exists. */
  lemma CreateOrderNoItems(products: map<nat, Product>, db: OrderDb, request: Option<seq<RawItem>>)
    requires request.None? || request.value == []
    ensures CreateOrderSpec(products, db, request) == Outcome(products, db, Err(NoItems))
  {
  }

  /** An item list that fails validation is rejected with the validation error before any order exists. */
  lemma CreateOrderInvalid(products: map<nat, Product>, db: OrderDb, items: seq<RawItem>)
    requires items != [] && ValidateAll(items).Err?
    ensures CreateOrderSpec(products, db, Some(items)) == Outcome(products, db, Err(InvalidItems(ValidateAll(items).error)))
  {
  }

  /**
    A failed creation leaves no order and no item row behind, and never
    fails on the stock update. When it fails in the per-product loop, the
    stock deducted for the products before the failing one stays deducted.
   */
  lemma CreateOrderRollback(products: map<nat, Product>, db: OrderDb, request: Option<seq<RawItem>>)
    requires DbValid(db)
    requires CreateOrderSpec(products, db, request).response.Err?
    ensures CreateOrderSpec(products, db, request).db.orders == db.orders
    ensures CreateOrderSpec(products, db, request).db.items == db.items
    ensures DbValid(CreateOrderSpec(products, db, request).db)
    ensures !CreateOrderSpec(products, db, request).response.error.StockUpdateFailed?
    ensures request.Some? && ValidateAndGroup(request.value).Ok? && request.value != [] ==>
      exists k :: 0 <= k < |ValidateAndGroup(request.value).value| &&
        FailsAt(products, ValidateAndGroup(request.value).value, db.nextId, [], k)
  {
    if request.Some? && request.value != [] && ValidateAndGroup(request.value).Ok? {
      var grouped := ValidateAndGroup(request.value).value;
      FulfilNeverFailsUpdate(products, grouped, db.nextId, []);
      FulfilFailure(products, grouped, db.nextId, []);
    }
  }

  /**
    A placed order gets the next id, is stored with exactly the rows the
    loop quoted, and the database stays valid.
   */
  lemma PlaceOrderStored(products: map<nat, Product>, db: OrderDb, grouped: seq<Line>)
    requires DbValid(db)
    requires PlaceOrder(products, db, grouped).response.Ok?
    ensures
      var out := PlaceOrder(products, db, grouped);
      var view := out.response.value;
      var rows := Fulfil(products, grouped, db.nextId, []).result.value;
      && view.id == db.nextId && view.id !in db.orders
      && out.db == OrderDb(db.orders + {view.id}, db.items + rows, view.id + 1)
      && view.items == rows
      && view.totalPriceCents == TotalPrice(rows)
      && DbValid(out.db)
  {
    var id := db.nextId;
    var fulfilment := Fulfil(products, grouped, id, []);
    var rows := fulfilment.result.value;
    var created := OrderDb(db.orders + {id}, db.items + rows, id + 1);
    assert PlaceOrder(products, db, grouped) == Outcome(fulfilment.products, created, Ok(Render(created, id)));
    RowsOfOrder(products, grouped, id);
    FreshOrderRows(db, rows);
    CreatedValid(db, rows);
  }

  /** Every row the loop quotes for order `order` belongs to that order. */
  lemma RowsOfOrder(products: map<nat, Product>, grouped: seq<Line>, order: nat)
    requires Fulfil(products, grouped, order, []).result.Ok?
    ensures forall k :: 0 <= k < |Fulfil(products, grouped, order, []).result.value| ==>
      Fulfil(products, grouped, order, []).result.value[k].order == order
  {
    FulfilRows(products, grouped, order, []);
    var rows := Fulfil(products, grouped, order, []).result.value;
    forall k | 0 <= k < |rows|
      ensures rows[k].order == order
    {
      var none: seq<OrderItem> := [];
      assert |none| + k == k && k < |grouped|;
      var line := grouped[k];
      assert rows[|none| + k] == OrderItem(order, line.productId, line.quantity, products[line.productId].priceCents);
    }
  }

  /**
    A successful creation stores a new order whose rows are exactly one per
    distinct requested product id, in first-appearance order, each with the
    summed quantity and the price seen at fetch time, and whose total is
    the grouped cost.
   */
  lemma CreateOrderSuccess(products: map<nat, Product>, db: OrderDb, items: seq<RawItem>)
    requires DbValid(db)
    requires CreateOrderSpec(products, db, Some(items)).response.Ok?
    ensures ValidateAll(items).Ok?
    ensures
      var out := CreateOrderSpec(products, db, Some(items));
      var view := out.response.value;
      var lines := ValidateAll(items).value;
      var grouped := Group(lines);
      && view.id == db.nextId && view.id !in db.orders
      && out.db == OrderDb(db.orders + {view.id}, db.items + view.items, view.id + 1)
      && DbValid(out.db)
      && Distinct(grouped) && Keys(grouped) == Keys(lines)
      && |view.items| == |grouped|
      && (forall k :: 0 <= k < |grouped| ==>
            grouped[k].productId in products &&
            view.items[k] == OrderItem(view.id, grouped[k].productId,
                                       SumFor(lines, grouped[k].productId),
                                       products[grouped[k].productId].priceCents))
      && view.totalPriceCents == GroupedCost(products, grouped)
  {
    var lines := ValidateAll(items).value;
    var grouped := Group(lines);
    var id := db.nextId;
    assert CreateOrderSpec(products, db, Some(items)) == PlaceOrder(products, db, grouped);
    PlaceOrderStored(products, db, grouped);
    FulfilRows(products, grouped, id, []);
    GroupSpec(lines);
    var rows := Fulfil(products, grouped, id, []).result.value;
    TotalPriceOfRows(products, grouped, rows, id);
  }

  /**
    A successful creation reduces each requested product's stock by the
    summed quantity requested for it, and changes nothing else in any
    product.
   */
  lemma CreateOrderStock(products: map<nat, Product>, db: OrderDb, items: seq<RawItem>)
    requires CreateOrderSpec(products, db, Some(items)).response.Ok?
    ensures ValidateAll(items).Ok?
    ensures
      var out := CreateOrderSpec(products, db, Some(items));
      var lines := ValidateAll(items).value;
      && out.products.Keys == products.Keys
      && (forall id :: id in products ==>
            out.products[id].name == products[id].name &&
            out.products[id].priceCents == products[id].priceCents &&
            out.products[id].stock == products[id].stock - SumFor(lines, id))
  {
    var lines := ValidateAll(items).value;
    var grouped := Group(lines);
    assert CreateOrderSpec(products, db, Some(items)) == PlaceOrder(products, db, grouped);
    FulfilStock(products, grouped, db.nextId, []);
    GroupDistinctSums(lines);
  }

  /** One item whose quantity equals the stock succeeds and leaves a stock of 0. */
  lemma CreateOrderExactStock(products: map<nat, Product>, db: OrderDb, productId: nat)
    requires DbValid(db) && productId in products
    ensures
      var out := CreateOrderSpec(products, db, Some([RawItem(IntLike(productId), IntLike(products[productId].stock))]));
      out.response.Ok? && productId in out.products && out.products[productId].stock == 0
  {
    var items := [RawItem(IntLike(productId), IntLike(products[productId].stock))];
    assert items[..|items| - 1] == [];
    var line := Line(productId, products[productId].stock);
    assert CheckItem(items[|items| - 1]) == Ok(line);
    var none: seq<Line> := [];
    assert ValidateAll(items[..|items| - 1]) == Ok(none);
    assert none + [line] == [line];
    assert ValidateAll(items) == Ok([line]);
    assert [line][..|[line]| - 1] == [];
    assert Group([line]) == [line];
    DeductionAlwaysAccepted(products, productId, line.quantity);
    var turn := FulfilOne(products, line, db.nextId);
    assert turn.result.Ok? && productId in turn.products && turn.products[productId].stock == 0;
    assert [line][1..] == [];
    var noRows: seq<OrderItem> := [];
    assert Fulfil(products, [line], db.nextId, noRows) == Fulfilment(turn.products, Ok(noRows + [turn.result.value]));
  }

  /** One item whose quantity exceeds the stock is rejected with insufficient stock and changes nothing. */
  lemma CreateOrderTooLittleStock(products: map<nat, Product>, db: OrderDb, productId: nat, quantity: nat)
    requires productId in products && quantity > products[productId].stock
    ensures
      var out := CreateOrderSpec(products, db, Some([RawItem(IntLike(productId), IntLike(quantity))]));
      out.response == Err(InsufficientStock(productId)) && out.products == products &&
      out.db.orders == db.orders && out.db.items == db.items
  {
    var items := [RawItem(IntLike(productId), IntLike(quantity))];
    assert items[..|items| - 1] == [];
    var line := Line(productId, quantity);
    assert CheckItem(items[|items| - 1]) == Ok(line);
    var none: seq<Line> := [];
    assert ValidateAll(items[..|items| - 1]) == Ok(none);
    assert none + [line] == [line];
    assert ValidateAll(items) == Ok([line]);
    assert [line][..|[line]| - 1] == [];
    assert Group([line]) == [line];
  }

  // ---------------------------------------------------------------------
  // Order detail and delete

  /** DELETE /orders/{pk}/: the database once the order and, by cascade, its rows are gone. */
  function DeleteSpec(db: OrderDb, pk: nat): Result<OrderDb, OrderError>
  {
    if pk !in db.orders then Err(OrderNotFound)
    else Ok(OrderDb(db.orders - {pk}, Cascade(db.items, pk), db.nextId))
  }

  /**
    Deleting an unknown id fails with not-found; deleting an existing order
    removes it and all its rows, leaves no orphan rows, and leaves every
    other order and its rows untouched.
   */
  lemma DeleteOrderSpec(db: OrderDb, pk: nat)
    requires DbValid(db)
    ensures DeleteSpec(db, pk).Err? <==> pk !in db.orders
    ensures DeleteSpec(db, pk).Err? ==> DeleteSpec(db, pk).error == OrderNotFound
    ensures DeleteSpec(db, pk).Ok? ==>
      var after := DeleteSpec(db, pk).value;
      && DbValid(after)
      && after.orders == db.orders - {pk}
      && ItemsOf(after.items, pk) == []
      && (forall id :: id != pk ==> ItemsOf(after.items, id) == ItemsOf(db.items, id))
  {
    forall id {
      ItemsOfCascade(db.items, pk, id);
    }
  }

  /** The Order Service's own database. */
  class OrderService {
    var orders: set<nat>
    var items: seq<OrderItem>
    var nextId: nat

    function Db(): OrderDb
      reads this
    {
      OrderDb(orders, items, nextId)
    }

    ghost predicate Valid()
      reads this
    {
      DbValid(Db())
    }

    constructor ()
      ensures Valid() && Db() == OrderDb({}, [], 1)
    {
      orders, items, nextId := {}, [], 1;
    }

    /** `Order.objects.create()`: a new, empty order under the next id. */
    method NewOrder() returns (id: nat)
      requires Valid()
      modifies this
      ensures id == old(nextId) && id !in old(orders)
      ensures Db() == OrderDb(old(orders) + {id}, old(items), id + 1)
    {
      id := nextId;
      orders := orders + {id};
      nextId := nextId + 1;
    }

    /** `order.delete()`: the order goes, and its rows with it. */
    method RemoveOrder(id: nat)
      modifies this
      ensures Db() == OrderDb(old(orders) - {id}, Cascade(old(items), id), old(nextId))
    {
      orders := orders - {id};
      items := Cascade(items, id);
    }

    /** The compensating `order.delete()` of an order created on top of `db0`, with the rows `attached` since. */
    method Rollback(id: nat, ghost db0: OrderDb, ghost attached: seq<OrderItem>)
      requires DbValid(db0) && id == db0.nextId
      requires Db() == OrderDb(db0.orders + {id}, db0.items + attached, id + 1)
      requires forall k :: 0 <= k < |attached| ==> attached[k].order == id
      modifies this
      ensures Db() == OrderDb(db0.orders, db0.items, id + 1)
    {
      RemoveOrder(id);
      FreshOrderRows(db0, attached);
    }

    /**
      One turn of the loop in `post`: GET the product, compare its stock
      with the quantity, PATCH the reduced stock, and quote the row to
      create. Only the Product Service changes here.
     */
    method FulfilLine(api: ProductService, id: nat, line: Line) returns (r: Result<OrderItem, OrderError>)
      modifies api
      ensures Turn(api.products, r) == FulfilOne(old(api.products), line, id)
    {
      var fetched := api.Detail(line.productId);
      if fetched.Err? {
        return Err(UnknownProduct(line.productId));
      }
      var product := fetched.value;
      if product.stock < line.quantity {
        return Err(InsufficientStock(line.productId));
      }
      var updated := api.UpdateStock(line.productId, IntLike(product.stock - line.quantity));
      if updated.Err? {
        // The value sent is never negative and the product was just
        // fetched, so the update cannot fail (DeductionAlwaysAccepted);
        // FulfilOne keeps the view's rollback branch for this case.
        assert false;
      }
      r := Ok(OrderItem(id, line.productId, line.quantity, product.priceCents));
    }

    /** POST /orders/ (`OrderListCreateView.post`). */
    method CreateOrder(api: ProductService, request: Option<seq<RawItem>>) returns (r: Result<OrderView, OrderError>)
      requires Valid()
      modifies this, api
      ensures Valid()
      ensures Outcome(api.products, Db(), r) == CreateOrderSpec(old(api.products), old(Db()), request)
    {
      if request.None? || request.value == [] {
        return Err(NoItems);
      }
      var grouping := ValidateAndGroupItems(request.value);
      if grouping.Err? {
        return Err(InvalidItems(grouping.error));
      }
      r := Place(api, grouping.value);
    }

    /** The part of `post` after validation: create the order, run the loop, delete the order on failure. */
    method Place(api: ProductService, grouped: seq<Line>) returns (r: Result<OrderView, OrderError>)
      requires Valid()
      modifies this, api
      ensures Valid()
      ensures Outcome(api.products, Db(), r) == PlaceOrder(old(api.products), old(Db()), grouped)
    {
      ghost var db0 := Db();
      ghost var products0 := api.products;
      var id := NewOrder();
      ghost var attached: seq<OrderItem> := [];
      var i := 0;
      while i < |grouped|
        invariant 0 <= i <= |grouped|
        invariant DbValid(db0) && id == db0.nextId
        invariant orders == db0.orders + {id} && items == db0.items + attached && nextId == id + 1
        invariant forall k :: 0 <= k < |attached| ==> attached[k].order == id
        invariant Fulfil(products0, grouped, id, []) == Fulfil(api.products, grouped[i..], id, attached)
      {
        var turn := FulfilLine(api, id, grouped[i]);
        assert grouped[i..][0] == grouped[i] && grouped[i..][1..] == grouped[i + 1..];
        if turn.Err? {
          Rollback(id, db0, attached);
          return Err(turn.error);
        }
        items := items + [turn.value];
        attached := attached + [turn.value];
        i := i + 1;
      }
      FreshOrderRows(db0, attached);
      CreatedValid(db0, attached);
      r := Ok(Render(Db(), id));
    }

    /** GET /orders/{pk}/ (`OrderDetailDeleteView.get`). */
    method Detail(pk: nat) returns (r: Result<OrderView, OrderError>)
      ensures r.Ok? <==> pk in orders
      ensures r.Ok? ==> r.value == Render(Db(), pk)
      ensures r.Err? ==> r.error == OrderNotFound
    {
      if pk !in orders {
        return Err(OrderNotFound);
      }
      r := Ok(Render(Db(), pk));
    }

    /** DELETE /orders/{pk}/ (`OrderDetailDeleteView.delete`). */
    method Delete(pk: nat) returns (r: Result<(), OrderError>)
      requires Valid()
      modifies this
      ensures Valid()
      ensures DeleteSpec(old(Db()), pk).Ok? ==> r == Ok(()) && Db() == DeleteSpec(old(Db()), pk).value
      ensures DeleteSpec(old(Db()), pk).Err? ==> r == Err(OrderNotFound) && Db() == old(Db())
    {
      if pk !in orders {
        return Err(OrderNotFound);
      }
      DeleteOrderSpec(Db(), pk);
      RemoveOrder(pk);
      r := Ok(());
    }
  }
}
