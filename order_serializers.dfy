/**
  `OrderSerializer.get_total_price` (order_manager/orders/serializers.py):
  the total of an order is computed on read as the sum of price times
  quantity over its item rows. Prices are two-decimal amounts, so the
  total is exact in integer cents.
 */
module OrderSerializers {
  import opened OrderModels

  /** What one row contributes: price times quantity, in cents. */
  function Cost(item: OrderItem): int
  {
    item.priceCents * item.quantity
  }

  /** sum(item.price * item.quantity for item in items), in cents. */
  function TotalPrice(items: seq<OrderItem>): int
  {
    if items == [] then 0 else Cost(items[0]) + TotalPrice(items[1..])
  }

  /** An order with no items costs nothing. */
  lemma TotalPriceEmpty()
    ensures TotalPrice([]) == 0
  {
  }

  /** The total of two lists of rows is the sum of their totals. */
  lemma {:induction false} TotalPriceConcat(a: seq<OrderItem>, b: seq<OrderItem>)
    ensures TotalPrice(a + b) == TotalPrice(a) + TotalPrice(b)
  {
    if a == [] {
      assert a + b == b;
    } else {
      assert (a + b)[1..] == a[1..] + b;
      TotalPriceConcat(a[1..], b);
    }
  }

  /** Attaching one more item raises the total by exactly that item's price times quantity. */
  lemma TotalPriceAppend(items: seq<OrderItem>, item: OrderItem)
    ensures TotalPrice(items + [item]) == TotalPrice(items) + item.priceCents * item.quantity
  {
    TotalPriceConcat(items, [item]);
  }

  /** The total does not depend on the order in which the rows come back. */
  lemma {:induction false} TotalPricePermutation(a: seq<OrderItem>, b: seq<OrderItem>)
    requires multiset(a) == multiset(b)
    ensures TotalPrice(a) == TotalPrice(b)
    decreases |a|
  {
    if a == [] {
      assert |multiset(b)| == 0;
    } else {
      var x := a[0];
      assert x in multiset(b);
      var j :| 0 <= j < |b| && b[j] == x;
      RemoveAtRows(b, j);
      RemoveAtTotal(b, j);
      assert a == [x] + a[1..];
      assert multiset(a[1..]) == multiset(a) - multiset{x};
      TotalPricePermutation(a[1..], b[..j] + b[j + 1..]);
    }
  }

  /** Taking out the row at position `j` leaves the other rows. */
  lemma RemoveAtRows(b: seq<OrderItem>, j: nat)
    requires j < |b|
    ensures multiset(b[..j] + b[j + 1..]) == multiset(b) - multiset{b[j]}
  {
    var left, right := b[..j], b[j + 1..];
    assert b == left + ([b[j]] + right);
    assert multiset(b) == multiset(left) + multiset([b[j]] + right);
    assert multiset([b[j]] + right) == multiset{b[j]} + multiset(right);
  }

  /** Taking out the row at position `j` takes its cost off the total. */
  lemma RemoveAtTotal(b: seq<OrderItem>, j: nat)
    requires j < |b|
    ensures TotalPrice(b) == Cost(b[j]) + TotalPrice(b[..j] + b[j + 1..])
  {
    var left, right := b[..j], b[j + 1..];
    assert b == left + ([b[j]] + right);
    TotalPriceConcat(left, [b[j]] + right);
    assert ([b[j]] + right)[1..] == right;
    TotalPriceConcat(left, right);
  }
}
