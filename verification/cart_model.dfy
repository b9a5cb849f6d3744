/**
  The server's cart document: one per user, a list of cart lines, an optional
  coupon code and a discount, with the `subtotal`, `total` and `itemCount`
  virtuals. A save is refused (and the document left as stored) unless every
  line's quantity is at least 1 and the discount is at least 0.
 */
module CartModel {
  import opened Common
  import opened CartLines

  datatype Cart = Cart(user: ObjectId, items: seq<Line>, couponCode: Option<string>, discount: real) {

    /** The `subtotal` virtual. */
    function Subtotal(): real {
      CartLines.Subtotal(items)
    }

    /** The `total` virtual: the subtotal less the discount, but never below zero. */
    function Total(): (r: real)
      ensures r >= 0.0 && r >= Subtotal() - discount
      ensures r == 0.0 || r == Subtotal() - discount
    {
      if Subtotal() - discount > 0.0 then Subtotal() - discount else 0.0
    }

    /** The `itemCount` virtual. */
    function ItemCount(): int {
      CartLines.ItemCount(items)
    }

    /** The schema's validation on save: quantities of at least 1 and a discount of at least 0. */
    predicate SchemaValid() {
      && (forall k :: 0 <= k < |items| ==> items[k].quantity >= 1)
      && discount >= 0.0
    }
  }

  /** The cart created for a user who has none: no lines, no coupon, the default discount 0. */
  function EmptyCart(user: ObjectId): (c: Cart)
    ensures c.user == user && c.SchemaValid()
    ensures c.Subtotal() == 0.0 && c.Total() == 0.0 && c.ItemCount() == 0
  {
    Cart(user, [], None, 0.0)
  }

  /**
    A saved cart whose lines carry non-negative prices: its total lies between
    0 and its subtotal, equals the subtotal when there is no discount, and its
    item count is at least its number of lines.
   */
  lemma TotalBounds(c: Cart)
    requires c.SchemaValid()
    requires forall k :: 0 <= k < |c.items| ==> c.items[k].price >= 0.0
    ensures 0.0 <= c.Total() <= c.Subtotal()
    ensures c.discount == 0.0 ==> c.Total() == c.Subtotal()
    ensures c.ItemCount() >= |c.items|
  {
    SubtotalNonNegative(c.items);
    ItemCountAtLeastLines(c.items);
  }

  /** Appending a line to a cart raises its subtotal by the line's total and its item count by its quantity. */
  lemma AppendToCart(c: Cart, l: Line)
    ensures c.(items := c.items + [l]).Subtotal() == c.Subtotal() + LineTotal(l)
    ensures c.(items := c.items + [l]).ItemCount() == c.ItemCount() + l.quantity
  {
    AppendLine(c.items, l);
  }
}
