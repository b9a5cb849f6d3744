/**
  The browser's cart store: a list of cart lines that the page's actions
  replace as a whole (add, remove, change quantity, clear), and two readers
  for the running total and the number of items. The store's persistence to
  the browser's local storage is not modelled.
 */
module CartStore {
  import opened Common
  import opened CartLines

  class CartStore {
    var items: seq<Line>

    /** The store never holds two lines for one product. */
    ghost predicate Valid()
      reads this
    {
      UniqueProducts(items)
    }

    constructor ()
      ensures Valid() && items == []
    {
      items := [];
    }

    /** `getTotal`: price times quantity, summed over the lines. */
    function GetTotal(): real
      reads this
    {
      Subtotal(items)
    }

    /** `getItemCount`: the quantities, summed over the lines. */
    function GetItemCount(): int
      reads this
    {
      ItemCount(items)
    }

    /**
      `addItem`: merge into the line for the same product, else append. Either
      way the item count grows by exactly the added quantity.
     */
    method AddItem(item: Line)
      requires Valid()
      modifies this
      ensures Valid()
      ensures items == AddLine(old(items), item)
      ensures Absent(old(items), item.product) ==> items == old(items) + [item]
      ensures !Absent(old(items), item.product) ==> |items| == |old(items)|
      ensures GetItemCount() == old(GetItemCount()) + item.quantity
    {
      AddLineKeepsUnique(items, item);
      AddLineItemCount(items, item);
      var existing := FindIndex(items, item.product);
      if existing > -1 {
        items := items[existing := items[existing].(quantity := items[existing].quantity + item.quantity)];
      } else {
        items := items + [item];
      }
    }

    /** `removeItem`: no line for `product` is left; the others keep their order. */
    method RemoveItem(product: ObjectId)
      requires Valid()
      modifies this
      ensures Valid()
      ensures items == RemoveProduct(old(items), product)
      ensures forall i :: 0 <= i < |old(items)| && old(items)[i].product == product ==>
        items == old(items)[..i] + old(items)[i + 1..]
      ensures Absent(old(items), product) ==> items == old(items)
    {
      RemoveKeepsUnique(items, product);
      forall i | 0 <= i < |items| && items[i].product == product
        ensures RemoveProduct(items, product) == items[..i] + items[i + 1..]
      {
        RemoveUnique(items, i);
      }
      if Absent(items, product) {
        RemoveAbsent(items, product);
      }
      items := RemoveProduct(items, product);
    }

    /**
      `updateQuantity`: the line for `product` takes `quantity`, unbounded;
      length, order and every other line stay.
     */
    method UpdateQuantity(product: ObjectId, quantity: int)
      requires Valid()
      modifies this
      ensures Valid()
      ensures items == SetQuantity(old(items), product, quantity)
      ensures forall i :: 0 <= i < |old(items)| && old(items)[i].product == product ==>
        && items == old(items)[i := old(items)[i].(quantity := quantity)]
        && GetItemCount() == old(GetItemCount()) - old(items)[i].quantity + quantity
    {
      SetQuantityKeepsUnique(items, product, quantity);
      forall i | 0 <= i < |items| && items[i].product == product
        ensures SetQuantity(items, product, quantity) == items[i := items[i].(quantity := quantity)]
        ensures ItemCount(SetQuantity(items, product, quantity)) == ItemCount(items) - items[i].quantity + quantity
      {
        SetQuantityUnique(items, i, quantity);
      }
      items := SetQuantity(items, product, quantity);
    }

    /** `clearCart`: no lines, so a zero total and a zero count. */
    method ClearCart()
      modifies this
      ensures Valid()
      ensures items == []
      ensures GetTotal() == 0.0 && GetItemCount() == 0
    {
      items := [];
    }
  }
}
