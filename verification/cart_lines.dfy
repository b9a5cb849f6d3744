/**
  The line list of a shopping cart, shared by the browser's cart store and the
  server's cart documents: one line per product with a quantity and a unit
  price, merged by product on add, filtered on remove, mapped on a quantity
  change, and summed into a subtotal and an item count.

  Money is a `real`; the floating-point rounding of the running sums is not
  modelled.
 */
module CartLines {
  import opened Common

  datatype Line = Line(product: ObjectId, quantity: int, price: real)

  /** At most one line per product. */
  ghost predicate UniqueProducts(items: seq<Line>) {
    forall i, j :: 0 <= i < j < |items| ==> items[i].product != items[j].product
  }

  /** No line holds `product`. */
  ghost predicate Absent(items: seq<Line>, product: ObjectId) {
    forall k :: 0 <= k < |items| ==> items[k].product != product
  }

  function LineTotal(l: Line): real {
    l.price * l.quantity as real
  }

  /** Sum of price times quantity over the lines. */
  function Subtotal(items: seq<Line>): real {
    if items == [] then 0.0 else LineTotal(items[0]) + Subtotal(items[1..])
  }

  /** Sum of the quantities over the lines. */
  function ItemCount(items: seq<Line>): int {
    if items == [] then 0 else items[0].quantity + ItemCount(items[1..])
  }

  /** `findIndex` on the product id: the first matching position, or -1. */
  function FindIndex(items: seq<Line>, product: ObjectId): (r: int)
    ensures -1 <= r < |items|
    ensures r == -1 <==> Absent(items, product)
    ensures r >= 0 ==> items[r].product == product && Absent(items[..r], product)
  {
    if items == [] then -1
    else if items[0].product == product then 0
    else
      var r := FindIndex(items[1..], product);
      assert forall k :: 1 <= k < |items| ==> items[k] == items[1..][k - 1];
      if r == -1 then -1
      else
        assert items[..r + 1] == [items[0]] + items[1..][..r];
        r + 1
  }

  /**
    Add `line`: when a line for the same product exists, the first one's
    quantity grows by `line.quantity` (its price stays); otherwise `line` is
    appended.
   */
  function AddLine(items: seq<Line>, line: Line): (r: seq<Line>)
    ensures Absent(items, line.product) ==> r == items + [line]
    ensures !Absent(items, line.product) ==> |r| == |items|
    ensures forall k :: 0 <= k < |items| && items[k].product == line.product && Absent(items[..k], line.product) ==>
      r == items[k := items[k].(quantity := items[k].quantity + line.quantity)]
  {
    var i := FindIndex(items, line.product);
    if i > -1 then
      items[i := items[i].(quantity := items[i].quantity + line.quantity)]
    else
      items + [line]
  }

  /** `filter`: drop every line for `product`, keeping the rest in order. */
  function RemoveProduct(items: seq<Line>, product: ObjectId): (r: seq<Line>)
    ensures |r| <= |items|
    ensures Absent(r, product)
    ensures forall l :: l in r <==> l in items && l.product != product
  {
    if items == [] then []
    else if items[0].product == product then RemoveProduct(items[1..], product)
    else
      assert forall l :: l in items <==> l == items[0] || l in items[1..];
      [items[0]] + RemoveProduct(items[1..], product)
  }

  /** `map`: every line for `product` takes `quantity`; the others are kept as they are. */
  function SetQuantity(items: seq<Line>, product: ObjectId, quantity: int): (r: seq<Line>)
    ensures |r| == |items|
    ensures forall k :: 0 <= k < |items| ==>
      r[k] == if items[k].product == product then items[k].(quantity := quantity) else items[k]
  {
    if items == [] then []
    else
      var head := if items[0].product == product then items[0].(quantity := quantity) else items[0];
      var rest := SetQuantity(items[1..], product, quantity);
      assert forall k :: 1 <= k < |items| ==> items[k] == items[1..][k - 1];
      [head] + rest
  }

  // ---------------------------------------------------------------------------
  // Sums
  // ---------------------------------------------------------------------------

  /** Appending a line adds its price times quantity to the subtotal and its quantity to the count. */
  lemma {:induction false} AppendLine(items: seq<Line>, line: Line)
    ensures Subtotal(items + [line]) == Subtotal(items) + LineTotal(line)
    ensures ItemCount(items + [line]) == ItemCount(items) + line.quantity
  {
    if items != [] {
      assert (items + [line])[1..] == items[1..] + [line];
      AppendLine(items[1..], line);
    }
  }

  /** Replacing one line changes the sums by the difference between the new and the old line. */
  lemma {:induction false} ReplaceLine(items: seq<Line>, i: nat, l: Line)
    requires i < |items|
    ensures Subtotal(items[i := l]) == Subtotal(items) - LineTotal(items[i]) + LineTotal(l)
    ensures ItemCount(items[i := l]) == ItemCount(items) - items[i].quantity + l.quantity
  {
    if i > 0 {
      assert items[i := l][1..] == items[1..][i - 1 := l];
      ReplaceLine(items[1..], i - 1, l);
    }
  }

  /** The two sums over the concatenation of two line lists. */
  lemma {:induction false} SumsOfConcat(a: seq<Line>, b: seq<Line>)
    ensures Subtotal(a + b) == Subtotal(a) + Subtotal(b)
    ensures ItemCount(a + b) == ItemCount(a) + ItemCount(b)
  {
    if a == [] {
      assert a + b == b;
    } else {
      assert (a + b)[1..] == a[1..] + b;
      SumsOfConcat(a[1..], b);
    }
  }

  /** With quantities of at least one, the item count is at least the number of lines. */
  lemma {:induction false} ItemCountAtLeastLines(items: seq<Line>)
    requires forall k :: 0 <= k < |items| ==> items[k].quantity >= 1
    ensures ItemCount(items) >= |items|
  {
    if items != [] {
      ItemCountAtLeastLines(items[1..]);
    }
  }

  /** With non-negative prices and quantities the subtotal is non-negative. */
  lemma {:induction false} SubtotalNonNegative(items: seq<Line>)
    requires forall k :: 0 <= k < |items| ==> items[k].price >= 0.0 && items[k].quantity >= 0
    ensures Subtotal(items) >= 0.0
  {
    if items != [] {
      SubtotalNonNegative(items[1..]);
      assert LineTotal(items[0]) >= 0.0;
    }
  }

  /** An empty list has no subtotal and no items. */
  lemma EmptySums()
    ensures Subtotal([]) == 0.0 && ItemCount([]) == 0
  {
  }

  // ---------------------------------------------------------------------------
  // Add
  // ---------------------------------------------------------------------------

  /** Adding a line grows the item count by the added quantity, whether it merged or appended. */
  lemma AddLineItemCount(items: seq<Line>, line: Line)
    ensures ItemCount(AddLine(items, line)) == ItemCount(items) + line.quantity
  {
    var i := FindIndex(items, line.product);
    if i == -1 {
      AppendLine(items, line);
    } else {
      ReplaceLine(items, i, items[i].(quantity := items[i].quantity + line.quantity));
    }
  }

  /** Raising one line's quantity by `more` raises the subtotal by `more` at that line's price. */
  lemma MergeSubtotal(items: seq<Line>, i: nat, more: int)
    requires i < |items|
    ensures Subtotal(items[i := items[i].(quantity := items[i].quantity + more)]) ==
      Subtotal(items) + items[i].price * more as real
  {
    ReplaceLine(items, i, items[i].(quantity := items[i].quantity + more));
    MoreOfLine(items[i], more);
  }

  /** Raising a line's quantity by `more` raises its total by `more` at its price. */
  lemma MoreOfLine(l: Line, more: int)
    ensures LineTotal(l.(quantity := l.quantity + more)) == LineTotal(l) + l.price * more as real
  {
    assert (l.quantity + more) as real == l.quantity as real + more as real;
  }

  /** Adding keeps at most one line per product. */
  lemma AddLineKeepsUnique(items: seq<Line>, line: Line)
    requires UniqueProducts(items)
    ensures UniqueProducts(AddLine(items, line))
  {
    var r := AddLine(items, line);
    if Absent(items, line.product) {
      forall i, j | 0 <= i < j < |r| ensures r[i].product != r[j].product {
        if j == |items| {
          assert r[i] == items[i];
        } else {
          assert r[i] == items[i] && r[j] == items[j];
        }
      }
    } else {
      var i := FindIndex(items, line.product);
      forall a, b | 0 <= a < b < |r| ensures r[a].product != r[b].product {
        assert r[a].product == items[a].product && r[b].product == items[b].product;
      }
    }
  }

  // ---------------------------------------------------------------------------
  // Remove and set quantity
  // ---------------------------------------------------------------------------

  /** Removing a product nobody holds changes nothing. */
  lemma {:induction false} RemoveAbsent(items: seq<Line>, product: ObjectId)
    requires Absent(items, product)
    ensures RemoveProduct(items, product) == items
  {
    if items != [] {
      assert Absent(items[1..], product) by {
        forall k | 0 <= k < |items[1..]| ensures items[1..][k].product != product {
          assert items[1..][k] == items[k + 1];
        }
      }
      RemoveAbsent(items[1..], product);
    }
  }

  /**
    With one line per product, removing the product of line `i` is cutting
    that line out: every other line stays, in the same order.
   */
  lemma {:induction false} RemoveUnique(items: seq<Line>, i: nat)
    requires UniqueProducts(items) && i < |items|
    ensures RemoveProduct(items, items[i].product) == items[..i] + items[i + 1..]
  {
    var p := items[i].product;
    if i == 0 {
      assert Absent(items[1..], p) by {
        forall k | 0 <= k < |items[1..]| ensures items[1..][k].product != p {
          assert items[1..][k] == items[k + 1];
        }
      }
      RemoveAbsent(items[1..], p);
    } else {
      TailUnique(items);
      assert items[1..][i - 1] == items[i];
      RemoveUnique(items[1..], i - 1);
      RemoveKeepsHead(items, p);
      SpliceTail(items, i);
    }
  }

  /** A first line for another product survives the filter, in front. */
  lemma RemoveKeepsHead(items: seq<Line>, product: ObjectId)
    requires items != [] && items[0].product != product
    ensures RemoveProduct(items, product) == [items[0]] + RemoveProduct(items[1..], product)
  {
  }

  /** Cutting position `i > 0` out of a list is keeping its head and cutting `i - 1` out of its tail. */
  lemma SpliceTail(items: seq<Line>, i: nat)
    requires 0 < i < |items|
    ensures [items[0]] + (items[1..][..i - 1] + items[1..][i..]) == items[..i] + items[i + 1..]
  {
    assert items[..i] == [items[0]] + items[1..][..i - 1];
    assert items[i + 1..] == items[1..][i..];
  }

  /** Dropping the first line keeps at most one line per product. */
  lemma TailUnique(items: seq<Line>)
    requires UniqueProducts(items) && items != []
    ensures UniqueProducts(items[1..])
  {
    forall a, b | 0 <= a < b < |items[1..]| ensures items[1..][a].product != items[1..][b].product {
      assert items[1..][a] == items[a + 1] && items[1..][b] == items[b + 1];
    }
  }

  /** Removing keeps at most one line per product. */
  lemma {:induction false} RemoveKeepsUnique(items: seq<Line>, product: ObjectId)
    requires UniqueProducts(items)
    ensures UniqueProducts(RemoveProduct(items, product))
  {
    if items != [] {
      TailUnique(items);
      RemoveKeepsUnique(items[1..], product);
      if items[0].product != product {
        var rest := RemoveProduct(items[1..], product);
        HeadAbsentFromTail(items);
        AbsentFromPart(rest, items[1..], items[0].product);
        PrependUnique(items[0], rest);
        RemoveKeepsHead(items, product);
      }
    }
  }

  /** With one line per product, the first line's product appears nowhere after it. */
  lemma HeadAbsentFromTail(items: seq<Line>)
    requires UniqueProducts(items) && items != []
    ensures Absent(items[1..], items[0].product)
  {
    forall k | 0 <= k < |items[1..]| ensures items[1..][k].product != items[0].product {
      assert items[1..][k] == items[k + 1];
    }
  }

  /** A product absent from a list is absent from any list drawn from its lines. */
  lemma AbsentFromPart(part: seq<Line>, whole: seq<Line>, product: ObjectId)
    requires Absent(whole, product) && forall l :: l in part ==> l in whole
    ensures Absent(part, product)
  {
    forall k | 0 <= k < |part| ensures part[k].product != product {
      assert part[k] in whole;
    }
  }

  /** Putting a line in front of a list that lacks its product keeps one line per product. */
  lemma PrependUnique(l: Line, rest: seq<Line>)
    requires UniqueProducts(rest) && Absent(rest, l.product)
    ensures UniqueProducts([l] + rest)
  {
    var r := [l] + rest;
    forall a, b | 0 <= a < b < |r| ensures r[a].product != r[b].product {
      assert r[b] == rest[b - 1];
      if a > 0 {
        assert r[a] == rest[a - 1];
      }
    }
  }

  /** Changing a quantity keeps the products, so at most one line per product. */
  lemma SetQuantityKeepsUnique(items: seq<Line>, product: ObjectId, quantity: int)
    requires UniqueProducts(items)
    ensures UniqueProducts(SetQuantity(items, product, quantity))
  {
    var r := SetQuantity(items, product, quantity);
    forall a, b | 0 <= a < b < |r| ensures r[a].product != r[b].product {
      assert r[a].product == items[a].product && r[b].product == items[b].product;
    }
  }

  /** With one line per product, setting the quantity of line `i`'s product rewrites that line only. */
  lemma SetQuantityUnique(items: seq<Line>, i: nat, quantity: int)
    requires UniqueProducts(items) && i < |items|
    ensures SetQuantity(items, items[i].product, quantity) == items[i := items[i].(quantity := quantity)]
    ensures ItemCount(SetQuantity(items, items[i].product, quantity)) == ItemCount(items) - items[i].quantity + quantity
  {
    var r := SetQuantity(items, items[i].product, quantity);
    assert r == items[i := items[i].(quantity := quantity)];
    ReplaceLine(items, i, items[i].(quantity := quantity));
  }
}
