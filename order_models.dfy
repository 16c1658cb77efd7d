/**
  The Order Service's tables (order_manager/orders/models.py): Order rows,
  and OrderItem rows that point to their order through a foreign key with
  on_delete=CASCADE.
 */
module OrderModels {

  /** An OrderItem row; `order` is its foreign key and `priceCents` the price snapshot in cents. */
  datatype OrderItem = OrderItem(order: nat, productId: nat, quantity: nat, priceCents: int)

  /** The Order Service's database: the ids of the Order rows, the OrderItem rows, and the next id to assign. */
  datatype OrderDb = OrderDb(orders: set<nat>, items: seq<OrderItem>, nextId: nat)

  /** Every order id has been handed out already, and no item row is left without its order. */
  predicate DbValid(db: OrderDb)
  {
    && (forall id :: id in db.orders ==> id < db.nextId)
    && (forall item :: item in db.items ==> item.order in db.orders)
  }

  /** `order.items.all()`: the rows of one order. The table sets no ordering; the model takes creation order. */
  function ItemsOf(items: seq<OrderItem>, id: nat): (r: seq<OrderItem>)
    ensures forall item :: item in r <==> item in items && item.order == id
  {
    if items == [] then []
    else (if items[0].order == id then [items[0]] else []) + ItemsOf(items[1..], id)
  }

  /** The rows left once order `id` is deleted: its rows go with it. */
  function Cascade(items: seq<OrderItem>, id: nat): (r: seq<OrderItem>)
    ensures forall item :: item in r <==> item in items && item.order != id
  {
    if items == [] then []
    else (if items[0].order != id then [items[0]] else []) + Cascade(items[1..], id)
  }

  /** Deleting order `pk` leaves it no rows and leaves every other order's rows as they were. */
  lemma {:induction false} ItemsOfCascade(items: seq<OrderItem>, pk: nat, id: nat)
    ensures ItemsOf(Cascade(items, pk), id) == if id == pk then [] else ItemsOf(items, id)
  {
    if items != [] {
      ItemsOfCascade(items[1..], pk, id);
      var head := if items[0].order != pk then [items[0]] else [];
      assert Cascade(items, pk) == head + Cascade(items[1..], pk);
      ItemsOfConcat(head, Cascade(items[1..], pk), id);
    }
  }

  lemma {:induction false} ItemsOfConcat(a: seq<OrderItem>, b: seq<OrderItem>, id: nat)
    ensures ItemsOf(a + b, id) == ItemsOf(a, id) + ItemsOf(b, id)
  {
    if a == [] {
      assert a + b == b;
    } else {
      assert (a + b)[1..] == a[1..] + b;
      ItemsOfConcat(a[1..], b, id);
    }
  }

  lemma {:induction false} CascadeConcat(a: seq<OrderItem>, b: seq<OrderItem>, id: nat)
    ensures Cascade(a + b, id) == Cascade(a, id) + Cascade(b, id)
  {
    if a == [] {
      assert a + b == b;
    } else {
      assert (a + b)[1..] == a[1..] + b;
      CascadeConcat(a[1..], b, id);
    }
  }

  /** Rows all belonging to order `id` are exactly that order's rows. */
  lemma {:induction false} ItemsOfOwn(items: seq<OrderItem>, id: nat)
    requires forall i :: 0 <= i < |items| ==> items[i].order == id
    ensures ItemsOf(items, id) == items
    ensures Cascade(items, id) == []
  {
    if items != [] {
      ItemsOfOwn(items[1..], id);
    }
  }

  /** Rows none of which belongs to order `id` are untouched by deleting it, and give it no rows. */
  lemma {:induction false} ItemsOfForeign(items: seq<OrderItem>, id: nat)
    requires forall i :: 0 <= i < |items| ==> items[i].order != id
    ensures ItemsOf(items, id) == []
    ensures Cascade(items, id) == items
  {
    if items != [] {
      ItemsOfForeign(items[1..], id);
    }
  }

  /**
    The compensating delete of an order created on top of a valid database
    removes exactly the rows attached to it since: the table is as before.
   */
  lemma FreshOrderRows(db: OrderDb, attached: seq<OrderItem>)
    requires DbValid(db)
    requires forall i :: 0 <= i < |attached| ==> attached[i].order == db.nextId
    ensures ItemsOf(db.items + attached, db.nextId) == attached
    ensures Cascade(db.items + attached, db.nextId) == db.items
  {
    var id := db.nextId;
    assert forall i :: 0 <= i < |db.items| ==> db.items[i] in db.items;
    ItemsOfForeign(db.items, id);
    ItemsOfOwn(attached, id);
    ItemsOfConcat(db.items, attached, id);
    CascadeConcat(db.items, attached, id);
  }

  /** Creating order `nextId` with rows that all point to it keeps the database valid. */
  lemma CreatedValid(db: OrderDb, attached: seq<OrderItem>)
    requires DbValid(db)
    requires forall i :: 0 <= i < |attached| ==> attached[i].order == db.nextId
    ensures DbValid(OrderDb(db.orders + {db.nextId}, db.items + attached, db.nextId + 1))
  {
  }
}
