/**
  Order-item validation and grouping (`validate_and_group_items` in
  order_manager/orders/views.py): check every requested item in list
  order, stop at the first one that fails, and otherwise sum the
  quantities per product id into an insertion-ordered dictionary.
 */
module Grouping {
  import opened Wrappers
  import opened Coercion

  /** One entry of the request's `items` list. */
  datatype RawItem = RawItem(productId: Field, quantity: Field)

  datatype ValidationError =
    | MissingField   // "Each item must contain 'product_id' and 'quantity'."
    | NotInteger     // "'product_id' and 'quantity' must be valid integers."
    | Negative       // "'product_id' and 'quantity' must be non-negative."

  /** A validated item, or one entry of the grouped dictionary. */
  datatype Line = Line(productId: nat, quantity: nat)

  /** The checks made on one item, in the order `validate_and_group_items` checks them: missing, then not an integer, then negative. */
  function CheckItem(item: RawItem): (r: Result<Line, ValidationError>)
    ensures r == Err(MissingField) <==> item.productId.Missing? || item.quantity.Missing?
    ensures r == Err(NotInteger) <==>
      !item.productId.Missing? && !item.quantity.Missing? && (item.productId.NotInt? || item.quantity.NotInt?)
    ensures r == Err(Negative) <==>
      item.productId.IntLike? && item.quantity.IntLike? && (item.productId.n < 0 || item.quantity.n < 0)
    ensures r.Ok? ==> item.productId == IntLike(r.value.productId) && item.quantity == IntLike(r.value.quantity)
  {
    if item.productId.Missing? || item.quantity.Missing? then Err(MissingField)
    else if item.productId.NotInt? || item.quantity.NotInt? then Err(NotInteger)
    else if item.productId.n < 0 || item.quantity.n < 0 then Err(Negative)
    else Ok(Line(item.productId.n, item.quantity.n))
  }

  /** Validation of the whole list, item by item from the front; the first failure is the answer. */
  function ValidateAll(items: seq<RawItem>): Result<seq<Line>, ValidationError>
  {
    if items == [] then Ok([])
    else
      match ValidateAll(items[..|items| - 1])
      case Err(e) => Err(e)
      case Ok(lines) =>
        match CheckItem(items[|items| - 1])
        case Err(e) => Err(e)
        case Ok(line) => Ok(lines + [line])
  }

  /** `grouped[line.productId] += line.quantity` on an insertion-ordered dictionary. */
  function Accumulate(grouped: seq<Line>, line: Line): seq<Line>
  {
    if grouped == [] then [line]
    else if grouped[0].productId == line.productId then
      [Line(line.productId, grouped[0].quantity + line.quantity)] + grouped[1..]
    else [grouped[0]] + Accumulate(grouped[1..], line)
  }

  /** The dictionary built from validated lines, in the order the loop visits them. */
  function Group(lines: seq<Line>): seq<Line>
  {
    if lines == [] then [] else Accumulate(Group(lines[..|lines| - 1]), lines[|lines| - 1])
  }

  /** What `validate_and_group_items` returns: the first error, or the grouped dictionary. */
  function ValidateAndGroup(items: seq<RawItem>): Result<seq<Line>, ValidationError>
  {
    match ValidateAll(items)
    case Err(e) => Err(e)
    case Ok(lines) => Ok(Group(lines))
  }

  // ---------------------------------------------------------------------
  // Reference definitions the grouping is measured against

  /** The product ids that occur in a list of lines. */
  function Keys(lines: seq<Line>): set<nat>
  {
    if lines == [] then {} else {lines[0].productId} + Keys(lines[1..])
  }

  /** No product id occurs twice. */
  predicate Distinct(lines: seq<Line>)
  {
    forall i, j :: 0 <= i < j < |lines| ==> lines[i].productId != lines[j].productId
  }

  /** The sum of the quantities given for product `id`. */
  function SumFor(lines: seq<Line>, id: nat): nat
  {
    if lines == [] then 0
    else (if lines[0].productId == id then lines[0].quantity else 0) + SumFor(lines[1..], id)
  }

  /** The sum of all quantities. */
  function Total(lines: seq<Line>): nat
  {
    if lines == [] then 0 else lines[0].quantity + Total(lines[1..])
  }

  /** The position where product `id` first appears. */
  function FirstIndex(lines: seq<Line>, id: nat): (k: nat)
    requires id in Keys(lines)
    ensures k < |lines| && lines[k].productId == id
    ensures forall j :: 0 <= j < k ==> lines[j].productId != id
  {
    if lines[0].productId == id then 0 else 1 + FirstIndex(lines[1..], id)
  }

  /** The entries appear in the order their product ids first appear in `lines`. */
  predicate InFirstAppearanceOrder(grouped: seq<Line>, lines: seq<Line>)
    requires forall i :: 0 <= i < |grouped| ==> grouped[i].productId in Keys(lines)
  {
    forall i, j :: 0 <= i < j < |grouped| ==>
      FirstIndex(lines, grouped[i].productId) < FirstIndex(lines, grouped[j].productId)
  }

  // ---------------------------------------------------------------------
  // Facts about the reference definitions and about one dictionary update

  /** An id is a key exactly when some line carries it. */
  lemma {:induction false} KeysMembership(lines: seq<Line>)
    ensures forall i :: 0 <= i < |lines| ==> lines[i].productId in Keys(lines)
    ensures forall id :: id in Keys(lines) ==> exists i :: 0 <= i < |lines| && lines[i].productId == id
  {
    if lines != [] {
      KeysMembership(lines[1..]);
      forall i | 0 < i < |lines| ensures lines[i].productId in Keys(lines) {
        assert lines[i] == lines[1..][i - 1];
      }
      forall id | id in Keys(lines) ensures exists i :: 0 <= i < |lines| && lines[i].productId == id {
        if id != lines[0].productId {
          var i :| 0 <= i < |lines[1..]| && lines[1..][i].productId == id;
          assert lines[i + 1].productId == id;
        }
      }
    }
  }

  lemma {:induction false} KeysSnoc(lines: seq<Line>, line: Line)
    ensures Keys(lines + [line]) == Keys(lines) + {line.productId}
  {
    if lines != [] {
      assert (lines + [line])[1..] == lines[1..] + [line];
      KeysSnoc(lines[1..], line);
    }
  }

  lemma {:induction false} SumForAppend(lines: seq<Line>, line: Line, id: nat)
    ensures SumFor(lines + [line], id) == SumFor(lines, id) + (if line.productId == id then line.quantity else 0)
  {
    if lines != [] {
      assert (lines + [line])[1..] == lines[1..] + [line];
      SumForAppend(lines[1..], line, id);
    }
  }

  lemma {:induction false} TotalAppend(lines: seq<Line>, line: Line)
    ensures Total(lines + [line]) == Total(lines) + line.quantity
  {
    if lines != [] {
      assert (lines + [line])[1..] == lines[1..] + [line];
      TotalAppend(lines[1..], line);
    }
  }

  /** One update adds the line's id to the keys and changes no other id. */
  lemma {:induction false} AccumulateKeys(grouped: seq<Line>, line: Line)
    ensures Keys(Accumulate(grouped, line)) == Keys(grouped) + {line.productId}
  {
    var r := Accumulate(grouped, line);
    if grouped == [] {
      assert r == [line];
      assert r[1..] == [];
    } else if grouped[0].productId == line.productId {
      assert r[1..] == grouped[1..];
    } else {
      assert r[1..] == Accumulate(grouped[1..], line);
      AccumulateKeys(grouped[1..], line);
    }
  }

  /** A list has distinct ids when its head's id is not among the rest's and the rest's are distinct. */
  lemma DistinctCons(head: Line, rest: seq<Line>)
    ensures Distinct([head] + rest) <==> head.productId !in Keys(rest) && Distinct(rest)
  {
    var s := [head] + rest;
    assert forall j :: 0 <= j < |rest| ==> s[j + 1] == rest[j];
    KeysMembership(rest);
    if head.productId !in Keys(rest) && Distinct(rest) {
      forall i, j | 0 <= i < j < |s| ensures s[i].productId != s[j].productId {
        if i > 0 {
          assert s[i] == rest[i - 1] && s[j] == rest[j - 1];
        } else {
          assert s[j] == rest[j - 1];
        }
      }
    }
    if Distinct(s) {
      forall i, j | 0 <= i < j < |rest| ensures rest[i].productId != rest[j].productId {
        assert s[i + 1] == rest[i] && s[j + 1] == rest[j];
      }
      assert forall j :: 0 <= j < |rest| ==> rest[j].productId != s[0].productId;
    }
  }

  /** One update keeps the ids distinct. */
  lemma {:induction false} AccumulateDistinct(grouped: seq<Line>, line: Line)
    requires Distinct(grouped)
    ensures Distinct(Accumulate(grouped, line))
  {
    var r := Accumulate(grouped, line);
    if grouped != [] {
      assert grouped == [grouped[0]] + grouped[1..];
      DistinctCons(grouped[0], grouped[1..]);
      if grouped[0].productId == line.productId {
        var head := Line(line.productId, grouped[0].quantity + line.quantity);
        assert r == [head] + grouped[1..];
        DistinctCons(head, grouped[1..]);
      } else {
        var tail := Accumulate(grouped[1..], line);
        assert r == [grouped[0]] + tail;
        AccumulateDistinct(grouped[1..], line);
        AccumulateKeys(grouped[1..], line);
        DistinctCons(grouped[0], tail);
      }
    }
  }

  /** One update adds the line's quantity to its own id's value and to nothing else. */
  lemma {:induction false} AccumulateSums(grouped: seq<Line>, line: Line, id: nat)
    ensures SumFor(Accumulate(grouped, line), id)
         == SumFor(grouped, id) + (if line.productId == id then line.quantity else 0)
  {
    var r := Accumulate(grouped, line);
    if grouped == [] {
      assert r[1..] == [];
    } else if grouped[0].productId == line.productId {
      assert r[1..] == grouped[1..];
    } else {
      assert r[1..] == Accumulate(grouped[1..], line);
      AccumulateSums(grouped[1..], line, id);
    }
  }

  /** One update adds the line's quantity to the sum of all values. */
  lemma {:induction false} AccumulateTotal(grouped: seq<Line>, line: Line)
    ensures Total(Accumulate(grouped, line)) == Total(grouped) + line.quantity
  {
    var r := Accumulate(grouped, line);
    if grouped == [] {
      assert r[1..] == [];
    } else if grouped[0].productId == line.productId {
      assert r[1..] == grouped[1..];
    } else {
      assert r[1..] == Accumulate(grouped[1..], line);
      AccumulateTotal(grouped[1..], line);
    }
  }

  /** When the id is already a key, an update keeps every entry's id where it was. */
  lemma {:induction false} AccumulateExistingKey(grouped: seq<Line>, line: Line)
    requires line.productId in Keys(grouped)
    ensures |Accumulate(grouped, line)| == |grouped|
    ensures forall i :: 0 <= i < |grouped| ==> Accumulate(grouped, line)[i].productId == grouped[i].productId
  {
    if grouped[0].productId != line.productId {
      AccumulateExistingKey(grouped[1..], line);
    }
  }

  /** When the id is new, an update appends it at the end. */
  lemma {:induction false} AccumulateNewKey(grouped: seq<Line>, line: Line)
    requires line.productId !in Keys(grouped)
    ensures Accumulate(grouped, line) == grouped + [line]
  {
    if grouped != [] {
      AccumulateNewKey(grouped[1..], line);
      assert grouped == [grouped[0]] + grouped[1..];
    }
  }

  /** Appending a line never moves the first appearance of an id that was already there. */
  lemma FirstIndexSnoc(lines: seq<Line>, line: Line, id: nat)
    requires id in Keys(lines)
    ensures id in Keys(lines + [line])
    ensures FirstIndex(lines + [line], id) == FirstIndex(lines, id)
  {
    KeysSnoc(lines, line);
    var k := FirstIndex(lines, id);
    assert (lines + [line])[k] == lines[k];
  }

  /** The first appearance of an id that is new to `lines` is the appended line. */
  lemma FirstIndexNew(lines: seq<Line>, line: Line)
    requires line.productId !in Keys(lines)
    ensures line.productId in Keys(lines + [line])
    ensures FirstIndex(lines + [line], line.productId) == |lines|
  {
    KeysSnoc(lines, line);
    KeysMembership(lines);
    assert forall j :: 0 <= j < |lines| ==> (lines + [line])[j] == lines[j];
  }

  // ---------------------------------------------------------------------
  // What the grouping promises

  /**
    The dictionary has exactly one entry per distinct input id, whose value
    is the sum of all quantities given for that id; the values add up to
    the total requested quantity; and the entries keep the order in which
    the ids first appear.
   */
  lemma GroupSpec(lines: seq<Line>)
    ensures Distinct(Group(lines))
    ensures Keys(Group(lines)) == Keys(lines)
    ensures forall k :: 0 <= k < |Group(lines)| ==> Group(lines)[k].quantity == SumFor(lines, Group(lines)[k].productId)
    ensures Total(Group(lines)) == Total(lines)
    ensures forall i :: 0 <= i < |Group(lines)| ==> Group(lines)[i].productId in Keys(lines)
    ensures InFirstAppearanceOrder(Group(lines), lines)
  {
    GroupDistinctSums(lines);
    GroupSums(lines);
    GroupOrder(lines);
  }

  /** Distinct keys, the same key set as the input, and per-id and overall sums conserved. */
  lemma {:induction false} GroupDistinctSums(lines: seq<Line>)
    ensures Distinct(Group(lines))
    ensures Keys(Group(lines)) == Keys(lines)
    ensures forall id :: SumFor(Group(lines), id) == SumFor(lines, id)
    ensures Total(Group(lines)) == Total(lines)
  {
    if lines != [] {
      var init, last := lines[..|lines| - 1], lines[|lines| - 1];
      assert lines == init + [last];
      var g := Group(init);
      GroupDistinctSums(init);
      AccumulateKeys(g, last);
      AccumulateDistinct(g, last);
      AccumulateTotal(g, last);
      KeysSnoc(init, last);
      TotalAppend(init, last);
      forall id ensures SumFor(Group(lines), id) == SumFor(lines, id) {
        AccumulateSums(g, last, id);
        SumForAppend(init, last, id);
      }
    }
  }

  /** The entries keep the order in which their ids first appear. */
  lemma {:induction false} GroupOrder(lines: seq<Line>)
    ensures forall i :: 0 <= i < |Group(lines)| ==> Group(lines)[i].productId in Keys(lines)
    ensures InFirstAppearanceOrder(Group(lines), lines)
  {
    if lines != [] {
      var init, last := lines[..|lines| - 1], lines[|lines| - 1];
      assert lines == init + [last];
      GroupDistinctSums(init);
      GroupOrder(init);
      GroupOrderStep(init, last);
    }
  }

  /** Each entry's value is the sum of the quantities given for its id. */
  lemma GroupSums(lines: seq<Line>)
    ensures forall k :: 0 <= k < |Group(lines)| ==> Group(lines)[k].quantity == SumFor(lines, Group(lines)[k].productId)
  {
    GroupDistinctSums(lines);
    forall k | 0 <= k < |Group(lines)| ensures Group(lines)[k].quantity == SumFor(lines, Group(lines)[k].productId) {
      SumForDistinct(Group(lines), k);
    }
  }

  /** The order part of GroupSpec for one more line, given it for the lines before. */
  lemma GroupOrderStep(init: seq<Line>, last: Line)
    requires Keys(Group(init)) == Keys(init)
    requires forall i :: 0 <= i < |Group(init)| ==> Group(init)[i].productId in Keys(init)
    requires InFirstAppearanceOrder(Group(init), init)
    ensures forall i :: 0 <= i < |Group(init + [last])| ==> Group(init + [last])[i].productId in Keys(init + [last])
    ensures InFirstAppearanceOrder(Group(init + [last]), init + [last])
  {
    var lines := init + [last];
    assert lines[..|lines| - 1] == init;
    assert Group(lines) == Accumulate(Group(init), last);
    if last.productId in Keys(Group(init)) {
      OrderStepExistingKey(init, last);
    } else {
      OrderStepNewKey(init, last);
    }
  }

  lemma OrderStepExistingKey(init: seq<Line>, last: Line)
    requires forall i :: 0 <= i < |Group(init)| ==> Group(init)[i].productId in Keys(init)
    requires InFirstAppearanceOrder(Group(init), init)
    requires last.productId in Keys(Group(init))
    ensures forall i :: 0 <= i < |Accumulate(Group(init), last)| ==>
      Accumulate(Group(init), last)[i].productId in Keys(init + [last])
    ensures InFirstAppearanceOrder(Accumulate(Group(init), last), init + [last])
  {
    var g := Group(init);
    var r := Accumulate(g, last);
    AccumulateExistingKey(g, last);
    KeysSnoc(init, last);
    forall i | 0 <= i < |r| ensures FirstIndex(init + [last], r[i].productId) == FirstIndex(init, g[i].productId) {
      FirstIndexSnoc(init, last, g[i].productId);
    }
  }

  lemma OrderStepNewKey(init: seq<Line>, last: Line)
    requires Keys(Group(init)) == Keys(init)
    requires forall i :: 0 <= i < |Group(init)| ==> Group(init)[i].productId in Keys(init)
    requires InFirstAppearanceOrder(Group(init), init)
    requires last.productId !in Keys(Group(init))
    ensures forall i :: 0 <= i < |Accumulate(Group(init), last)| ==>
      Accumulate(Group(init), last)[i].productId in Keys(init + [last])
    ensures InFirstAppearanceOrder(Accumulate(Group(init), last), init + [last])
  {
    var g := Group(init);
    var r := Accumulate(g, last);
    AccumulateNewKey(g, last);
    KeysSnoc(init, last);
    forall i | 0 <= i < |g| ensures FirstIndex(init + [last], r[i].productId) == FirstIndex(init, g[i].productId) {
      FirstIndexSnoc(init, last, g[i].productId);
    }
    FirstIndexNew(init, last);
    assert r[|g|] == last;
  }

  /** The value stored for an id in a dictionary with distinct keys is that id's SumFor. */
  lemma {:induction false} SumForDistinct(grouped: seq<Line>, k: nat)
    requires Distinct(grouped) && k < |grouped|
    ensures SumFor(grouped, grouped[k].productId) == grouped[k].quantity
  {
    if k == 0 {
      SumForAbsent(grouped[1..], grouped[0].productId);
    } else {
      assert grouped[1..][k - 1] == grouped[k];
      SumForDistinct(grouped[1..], k - 1);
    }
  }

  lemma {:induction false} SumForAbsent(lines: seq<Line>, id: nat)
    requires forall i :: 0 <= i < |lines| ==> lines[i].productId != id
    ensures SumFor(lines, id) == 0
  {
    if lines != [] {
      SumForAbsent(lines[1..], id);
    }
  }

  /**
    The first failing item in list order decides the error; if none fails,
    every item becomes one line, in order.
   */
  lemma {:induction false} ValidateAllSpec(items: seq<RawItem>)
    ensures ValidateAll(items).Ok? <==> forall k :: 0 <= k < |items| ==> CheckItem(items[k]).Ok?
    ensures ValidateAll(items).Ok? ==>
      |ValidateAll(items).value| == |items| &&
      forall k :: 0 <= k < |items| ==> CheckItem(items[k]) == Ok(ValidateAll(items).value[k])
    ensures ValidateAll(items).Err? ==>
      exists k :: 0 <= k < |items| && CheckItem(items[k]) == Err(ValidateAll(items).error) &&
        forall j :: 0 <= j < k ==> CheckItem(items[j]).Ok?
  {
    if items != [] {
      var init := items[..|items| - 1];
      ValidateAllSpec(init);
      assert forall k :: 0 <= k < |init| ==> init[k] == items[k];
      if ValidateAll(init).Err? {
        var k :| 0 <= k < |init| && CheckItem(init[k]) == Err(ValidateAll(init).error) &&
          forall j :: 0 <= j < k ==> CheckItem(init[j]).Ok?;
        assert CheckItem(items[k]) == Err(ValidateAll(items).error);
      } else if CheckItem(items[|items| - 1]).Err? {
        assert CheckItem(items[|items| - 1]) == Err(ValidateAll(items).error);
      }
    }
  }

  /** Once a prefix of the list has failed, the rest of the list is never looked at. */
  lemma {:induction false} ValidateAllStopsAtError(items: seq<RawItem>, i: nat)
    requires i <= |items| && ValidateAll(items[..i]).Err?
    ensures ValidateAll(items) == ValidateAll(items[..i])
  {
    if i < |items| {
      var init := items[..|items| - 1];
      assert init[..i] == items[..i];
      ValidateAllStopsAtError(init, i);
    } else {
      assert items[..i] == items;
    }
  }

  /** An empty list is valid and groups to an empty dictionary. */
  lemma ValidateAndGroupEmpty()
    ensures ValidateAndGroup([]) == Ok([])
  {
  }

  /**
    The body of `validate_and_group_items`: one pass over the items with a
    dictionary updated in place and an early return at the first error.
   */
  method ValidateAndGroupItems(items: seq<RawItem>) returns (r: Result<seq<Line>, ValidationError>)
    ensures r == ValidateAndGroup(items)
  {
    var grouped: seq<Line> := [];
    ghost var lines: seq<Line> := [];
    var i := 0;
    while i < |items|
      invariant 0 <= i <= |items|
      invariant ValidateAll(items[..i]) == Ok(lines)
      invariant grouped == Group(lines)
    {
      assert items[..i + 1][..i] == items[..i];
      var item := items[i];
      if CheckItem(item).Err? {
        ValidateAllStopsAtError(items, i + 1);
      }
      if item.productId.Missing? || item.quantity.Missing? {
        return Err(MissingField);
      }
      if item.productId.NotInt? || item.quantity.NotInt? {
        return Err(NotInteger);
      }
      var productId, quantity := item.productId.n, item.quantity.n;
      if productId < 0 || quantity < 0 {
        return Err(Negative);
      }
      var line := Line(productId, quantity);
      assert (lines + [line])[..|lines|] == lines;
      grouped := Accumulate(grouped, line);
      lines := lines + [line];
      i := i + 1;
    }
    assert items[..i] == items;
    r := Ok(grouped);
  }
}
