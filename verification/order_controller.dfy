/**
  The order endpoints of the shop's server: placing an order from the user's
  cart (stock check, pricing, stock and sold updates, emptying the cart),
  cancelling it (which puts the stock back), and reading one order.
 */
module OrderController {
  import opened Common
  import opened CartLines
  import opened ProductModel
  import opened CartModel
  import opened ShopDb

  // ---------------------------------------------------------------------------
  // Stock movements
  // ---------------------------------------------------------------------------

  /** `findByIdAndUpdate(id, {$inc: ...})`: move stock and sold of one product; an unknown id changes nothing. */
  function Adjust(ps: map<ObjectId, Product>, id: ObjectId, dStock: int, dSold: int): (r: map<ObjectId, Product>)
    ensures r.Keys == ps.Keys
    ensures id in ps ==> r[id].stock == ps[id].stock + dStock && r[id].sold == ps[id].sold + dSold
    ensures id in ps ==> r[id].(stock := ps[id].stock, sold := ps[id].sold) == ps[id]
    ensures forall q :: q in ps && q != id ==> r[q] == ps[q]
  {
    if id in ps then ps[id := ps[id].(stock := ps[id].stock + dStock, sold := ps[id].sold + dSold)] else ps
  }

  /** Placing an order, line by line: stock down and sold up by each line's quantity. */
  function Reserve(ps: map<ObjectId, Product>, items: seq<Line>): map<ObjectId, Product> {
    if items == [] then ps
    else
      var last := items[|items| - 1];
      Adjust(Reserve(ps, items[..|items| - 1]), last.product, -last.quantity, last.quantity)
  }

  /** Cancelling an order, line by line: stock up and sold down by each line's quantity. */
  function Release(ps: map<ObjectId, Product>, items: seq<Line>): map<ObjectId, Product> {
    if items == [] then ps
    else
      var last := items[|items| - 1];
      Adjust(Release(ps, items[..|items| - 1]), last.product, last.quantity, -last.quantity)
  }

  /** The total quantity the lines hold of one product. */
  function QuantityOf(items: seq<Line>, id: ObjectId): int {
    if items == [] then 0
    else
      var last := items[|items| - 1];
      QuantityOf(items[..|items| - 1], id) + (if last.product == id then last.quantity else 0)
  }

  /** Placing moves each product's stock down and its sold count up by the quantity ordered of it. */
  lemma {:induction false} ReserveEffect(ps: map<ObjectId, Product>, items: seq<Line>)
    ensures Reserve(ps, items).Keys == ps.Keys
    ensures forall id :: id in ps ==>
      Reserve(ps, items)[id] == ps[id].(stock := ps[id].stock - QuantityOf(items, id), sold := ps[id].sold + QuantityOf(items, id))
  {
    if items != [] {
      ReserveEffect(ps, items[..|items| - 1]);
    }
  }

  /** Cancelling moves each product's stock up and its sold count down by the quantity ordered of it. */
  lemma {:induction false} ReleaseEffect(ps: map<ObjectId, Product>, items: seq<Line>)
    ensures Release(ps, items).Keys == ps.Keys
    ensures forall id :: id in ps ==>
      Release(ps, items)[id] == ps[id].(stock := ps[id].stock + QuantityOf(items, id), sold := ps[id].sold - QuantityOf(items, id))
  {
    if items != [] {
      ReleaseEffect(ps, items[..|items| - 1]);
    }
  }

  /** Cancelling an order right after placing it gives every product back its stock and sold count. */
  lemma CancelRestores(ps: map<ObjectId, Product>, items: seq<Line>)
    ensures Release(Reserve(ps, items), items) == ps
  {
    ReserveEffect(ps, items);
    ReleaseEffect(Reserve(ps, items), items);
  }

  /** Placing an order changes no product's stock plus sold. */
  lemma StockPlusSoldConserved(ps: map<ObjectId, Product>, items: seq<Line>)
    ensures Reserve(ps, items).Keys == ps.Keys
    ensures forall id :: id in ps ==>
      Reserve(ps, items)[id].stock + Reserve(ps, items)[id].sold == ps[id].stock + ps[id].sold
  {
    ReserveEffect(ps, items);
  }

  lemma {:induction false} QuantityOfAbsent(items: seq<Line>, id: ObjectId)
    requires Absent(items, id)
    ensures QuantityOf(items, id) == 0
  {
    if items != [] {
      QuantityOfAbsent(items[..|items| - 1], id);
    }
  }

  /** With one line per product, the quantity ordered of a product is that of its line. */
  lemma {:induction false} QuantityOfUnique(items: seq<Line>, k: nat)
    requires UniqueProducts(items) && k < |items|
    ensures QuantityOf(items, items[k].product) == items[k].quantity
  {
    var n := |items|;
    var prefix := items[..n - 1];
    if k == n - 1 {
      assert Absent(prefix, items[k].product) by {
        forall j | 0 <= j < |prefix| ensures prefix[j].product != items[k].product {
          assert prefix[j] == items[j];
        }
      }
      QuantityOfAbsent(prefix, items[k].product);
    } else {
      assert UniqueProducts(prefix) by {
        forall a, b | 0 <= a < b < |prefix| ensures prefix[a].product != prefix[b].product {
          assert prefix[a] == items[a] && prefix[b] == items[b];
        }
      }
      assert prefix[k] == items[k];
      QuantityOfUnique(prefix, k);
    }
  }

  // ---------------------------------------------------------------------------
  // Placing an order
  // ---------------------------------------------------------------------------

  /** A line whose product exists and has at least the line's quantity in stock. */
  predicate LinePasses(l: Line, ps: map<ObjectId, Product>) {
    l.product in ps && ps[l.product].stock >= l.quantity
  }

  /** Every line before the `k`-th passes. */
  predicate PassBefore(items: seq<Line>, ps: map<ObjectId, Product>, k: nat)
    requires k <= |items|
  {
    forall j :: 0 <= j < k ==> LinePasses(items[j], ps)
  }

  /** The first line that fails the check names a product that no longer exists. */
  ghost predicate FirstFailureMissing(items: seq<Line>, ps: map<ObjectId, Product>) {
    exists k :: 0 <= k < |items| && items[k].product !in ps && PassBefore(items, ps, k)
  }

  /** The first line that fails the check asks more than its product's stock. */
  ghost predicate FirstFailureShort(items: seq<Line>, ps: map<ObjectId, Product>) {
    exists k :: 0 <= k < |items| && items[k].product in ps && ps[items[k].product].stock < items[k].quantity && PassBefore(items, ps, k)
  }

  /** When the first line passes, the first failure is the tail's first failure. */
  lemma FirstFailureShift(items: seq<Line>, ps: map<ObjectId, Product>)
    requires items != [] && LinePasses(items[0], ps)
    ensures FirstFailureMissing(items, ps) <==> FirstFailureMissing(items[1..], ps)
    ensures FirstFailureShort(items, ps) <==> FirstFailureShort(items[1..], ps)
  {
    MissingShift(items, ps);
    ShortShift(items, ps);
  }

  lemma MissingShift(items: seq<Line>, ps: map<ObjectId, Product>)
    requires items != [] && LinePasses(items[0], ps)
    ensures FirstFailureMissing(items, ps) <==> FirstFailureMissing(items[1..], ps)
  {
    var t := items[1..];
    if FirstFailureMissing(items, ps) {
      var k :| 0 <= k < |items| && items[k].product !in ps && PassBefore(items, ps, k);
      PassBeforeShift(items, ps, k);
      assert t[k - 1] == items[k];
    }
    if FirstFailureMissing(t, ps) {
      var k :| 0 <= k < |t| && t[k].product !in ps && PassBefore(t, ps, k);
      PassBeforeShift(items, ps, k + 1);
      assert items[k + 1] == t[k];
    }
  }

  lemma ShortShift(items: seq<Line>, ps: map<ObjectId, Product>)
    requires items != [] && LinePasses(items[0], ps)
    ensures FirstFailureShort(items, ps) <==> FirstFailureShort(items[1..], ps)
  {
    var t := items[1..];
    if FirstFailureShort(items, ps) {
      var k :| 0 <= k < |items| && items[k].product in ps && ps[items[k].product].stock < items[k].quantity && PassBefore(items, ps, k);
      PassBeforeShift(items, ps, k);
      assert t[k - 1] == items[k];
    }
    if FirstFailureShort(t, ps) {
      var k :| 0 <= k < |t| && t[k].product in ps && ps[t[k].product].stock < t[k].quantity && PassBefore(t, ps, k);
      PassBeforeShift(items, ps, k + 1);
      assert items[k + 1] == t[k];
    }
  }

  /** Past a passing first line, "every line before the k-th passes" is the same claim about the tail. */
  lemma PassBeforeShift(items: seq<Line>, ps: map<ObjectId, Product>, k: nat)
    requires items != [] && LinePasses(items[0], ps) && k <= |items|
    ensures k >= 1 ==> (PassBefore(items, ps, k) <==> PassBefore(items[1..], ps, k - 1))
    ensures k == 0 ==> PassBefore(items, ps, k)
  {
    if k >= 1 {
      assert forall j :: 1 <= j < k ==> items[j] == items[1..][j - 1];
    }
  }

  /**
    The stock check over the cart's lines, first line first: 500 at a line
    whose product no longer exists (the populated product is null), 400 at a
    line asking more than its product's stock, 0 when every line passes.
   */
  function StockCheck(items: seq<Line>, ps: map<ObjectId, Product>): (r: int)
    ensures r == 0 || r == 400 || r == 500
    ensures r == 0 <==> forall k :: 0 <= k < |items| ==> LinePasses(items[k], ps)
    ensures r == 500 <==> FirstFailureMissing(items, ps)
    ensures r == 400 <==> FirstFailureShort(items, ps)
    ensures (forall k :: 0 <= k < |items| ==> items[k].product in ps) ==> (r != 0 ==> r == 400)
  {
    if items == [] then 0
    else if items[0].product !in ps then 500
    else if ps[items[0].product].stock < items[0].quantity then 400
    else
      assert forall k :: 1 <= k < |items| ==> items[k] == items[1..][k - 1];
      FirstFailureShift(items, ps);
      StockCheck(items[1..], ps)
  }

  /** With one line per product and every line passing the check, placing leaves no stock negative. */
  lemma ReserveKeepsStockNonNegative(ps: map<ObjectId, Product>, items: seq<Line>)
    requires UniqueProducts(items) && StockCheck(items, ps) == 0
    requires forall id :: id in ps ==> ps[id].stock >= 0
    ensures forall id :: id in Reserve(ps, items) ==> Reserve(ps, items)[id].stock >= 0
  {
    ReserveEffect(ps, items);
    forall id | id in ps ensures ps[id].stock - QuantityOf(items, id) >= 0 {
      if Absent(items, id) {
        QuantityOfAbsent(items, id);
      } else {
        var k :| 0 <= k < |items| && items[k].product == id;
        QuantityOfUnique(items, k);
      }
    }
  }

  /** Shipping is free above 50, else 5. */
  function Shipping(subtotal: real): (r: real)
    ensures r == 0.0 <==> subtotal > 50.0
    ensures r == 0.0 || r == 5.0
  {
    if subtotal > 50.0 then 0.0 else 5.0
  }

  /** The pricing of an order placed from cart `c`: a tenth in tax, shipping, and the cart's discount. */
  function PricingOf(c: Cart): (p: Pricing)
    ensures p.subtotal == c.Subtotal() && p.discount == c.discount
    ensures p.tax * 10.0 == p.subtotal
    ensures p.total == p.subtotal + p.tax + p.shipping - p.discount
    ensures p.shipping == 0.0 <==> p.subtotal > 50.0
  {
    var subtotal := c.Subtotal();
    var tax := subtotal * 0.1;
    var shipping := Shipping(subtotal);
    Pricing(subtotal, tax, shipping, c.discount, subtotal + tax + shipping - c.discount)
  }

  /**
    The order placed from cart `c`: its lines one for one, the billing address
    defaulting to the shipping address, and the initial statuses.
   */
  function PlacedOrder(id: ObjectId, c: Cart, shipping: Address, billing: Option<Address>, paymentMethod: string): (o: Order)
    ensures o.id == id && o.user == c.user && o.items == c.items
    ensures o.billingAddress == (if billing.Some? then billing.value else shipping)
    ensures o.pricing == PricingOf(c)
    ensures o.orderStatus == "pending" && o.statusHistory == []
  {
    Order(id, c.user, c.items, shipping, billing.GetOr(shipping), paymentMethod, PricingOf(c),
          "pending", "pending", [], None, None, None, None)
  }

  /** The loop of the stock check. */
  method CheckStock(items: seq<Line>, ps: map<ObjectId, Product>) returns (status: int)
    ensures status == StockCheck(items, ps)
  {
    var k := 0;
    while k < |items|
      invariant 0 <= k <= |items|
      invariant StockCheck(items, ps) == StockCheck(items[k..], ps)
    {
      assert items[k..][1..] == items[k + 1..];
      if items[k].product !in ps {
        return 500;
      }
      if ps[items[k].product].stock < items[k].quantity {
        return 400;
      }
      k := k + 1;
    }
    status := 0;
  }

  /** The loop that moves each ordered product's stock and sold count. */
  method ReserveStock(db: Shop, items: seq<Line>)
    modifies db
    ensures db.products == Reserve(old(db.products), items)
    ensures unchanged(db`accounts, db`carts, db`orders, db`reviews)
  {
    var k := 0;
    while k < |items|
      invariant 0 <= k <= |items|
      invariant db.products == Reserve(old(db.products), items[..k])
      invariant unchanged(db`accounts, db`carts, db`orders, db`reviews)
    {
      assert items[..k + 1][..k] == items[..k];
      db.products := Adjust(db.products, items[k].product, -items[k].quantity, items[k].quantity);
      k := k + 1;
    }
    assert items[..k] == items;
  }

  /** The loop that puts each cancelled product's stock back. */
  method ReleaseStock(db: Shop, items: seq<Line>)
    modifies db
    ensures db.products == Release(old(db.products), items)
    ensures unchanged(db`accounts, db`carts, db`orders, db`reviews)
  {
    var k := 0;
    while k < |items|
      invariant 0 <= k <= |items|
      invariant db.products == Release(old(db.products), items[..k])
      invariant unchanged(db`accounts, db`carts, db`orders, db`reviews)
    {
      assert items[..k + 1][..k] == items[..k];
      db.products := Adjust(db.products, items[k].product, items[k].quantity, -items[k].quantity);
      k := k + 1;
    }
    assert items[..k] == items;
  }

  /**
    `createOrder`: 400 without a cart or with an empty one; the stock check's
    400 or 500 at the first failing line; in each case nothing changes.
    Otherwise the order is stored, every line's product moves its stock and
    sold count, and the cart is emptied with discount 0 and no coupon.
   */
  method CreateOrder(db: Shop, user: ObjectId, shipping: Address, billing: Option<Address>, paymentMethod: string,
                     newId: ObjectId) returns (status: int)
    requires db.Valid()
    requires forall i :: 0 <= i < |db.orders| ==> db.orders[i].id != newId
    modifies db
    ensures db.Valid()
    ensures unchanged(db`accounts, db`reviews)
    ensures (user !in old(db.carts) || old(db.carts)[user].items == []) ==>
      status == 400 && unchanged(db`products, db`carts, db`orders)
    ensures user in old(db.carts) && old(db.carts)[user].items != [] && StockCheck(old(db.carts)[user].items, old(db.products)) != 0 ==>
      status == StockCheck(old(db.carts)[user].items, old(db.products)) && unchanged(db`products, db`carts, db`orders)
    ensures user in old(db.carts) && old(db.carts)[user].items != [] && StockCheck(old(db.carts)[user].items, old(db.products)) == 0 ==>
      var cart := old(db.carts)[user];
      && status == 201
      && db.orders == old(db.orders) + [PlacedOrder(newId, cart, shipping, billing, paymentMethod)]
      && db.products == Reserve(old(db.products), cart.items)
      && db.carts == old(db.carts)[user := Cart(user, [], None, 0.0)]
  {
    if user !in db.carts || db.carts[user].items == [] {
      return 400;
    }
    var cart := db.carts[user];
    var check := CheckStock(cart.items, db.products);
    if check != 0 {
      return check;
    }
    var order := PlacedOrder(newId, cart, shipping, billing, paymentMethod);
    db.orders := db.orders + [order];
    assert OrderIdsUnique(db.orders);
    ReserveStock(db, cart.items);
    db.carts := db.carts[user := Cart(user, [], None, 0.0)];
    assert CartsValid(db.carts);
    status := 201;
  }

  /**
    A coupon's discount stays on the cart when lines are removed afterwards,
    and the order total subtracts it unclamped: an order can be priced below
    zero.
   */
  lemma StaleDiscountNegativeTotal()
    ensures var c0 := Cart("u", [Line("a", 1, 1000.0), Line("b", 1, 1.0)], None, 0.0);
      var c1 := c0.(couponCode := Some("ANY"), discount := c0.Subtotal() * 0.1);
      var c2 := c1.(items := RemoveProduct(c1.items, "a"));
      && c2.SchemaValid()
      && PricingOf(c2).total < 0.0
  {
    var c0 := Cart("u", [Line("a", 1, 1000.0), Line("b", 1, 1.0)], None, 0.0);
    assert c0.Subtotal() == 1001.0;
    var c1 := c0.(couponCode := Some("ANY"), discount := c0.Subtotal() * 0.1);
    assert RemoveProduct(c1.items, "a") == [Line("b", 1, 1.0)] by {
      assert c1.items[1..] == [Line("b", 1, 1.0)];
      assert RemoveProduct([Line("b", 1, 1.0)], "a") == [Line("b", 1, 1.0)] + RemoveProduct([], "a");
    }
  }

  // ---------------------------------------------------------------------------
  // Cancelling and reading an order
  // ---------------------------------------------------------------------------

  /** The statuses from which an order can still be cancelled. */
  predicate Cancellable(status: string)
    ensures status == "cancelled" ==> !Cancellable(status)
    ensures status == "pending" || status == "processing" ==> Cancellable(status)
  {
    status != "shipped" && status != "delivered" && status != "cancelled"
  }

  /** The cancelled order: status, time and reason set, one history entry appended. */
  function Cancelled(o: Order, reason: Option<string>, now: int): (r: Order)
    ensures r.orderStatus == "cancelled" && !Cancellable(r.orderStatus)
    ensures r.cancelledAt == Some(now) && r.cancellationReason == reason
    ensures r.statusHistory == o.statusHistory + [StatusEntry("cancelled", reason)]
    ensures r.id == o.id && r.user == o.user && r.items == o.items && r.pricing == o.pricing
  {
    AddStatusHistory(o.(orderStatus := "cancelled", cancelledAt := Some(now), cancellationReason := reason), "cancelled", reason)
  }

  /**
    `cancelOrder`: 404 for an unknown order, 403 for anyone but its owner, 400
    once it is shipped, delivered or cancelled, each changing nothing.
    Otherwise the order is cancelled and every line's stock put back.
   */
  method CancelOrder(db: Shop, user: ObjectId, orderId: ObjectId, reason: Option<string>, now: int) returns (status: int)
    requires db.Valid()
    modifies db
    ensures db.Valid()
    ensures unchanged(db`accounts, db`carts, db`reviews)
    ensures var i := FindById(old(db.orders), OrderId, orderId);
      && (i.None? ==> status == 404 && unchanged(db`products, db`orders))
      && (i.Some? && old(db.orders)[i.value].user != user ==> status == 403 && unchanged(db`products, db`orders))
      && (i.Some? && old(db.orders)[i.value].user == user && !Cancellable(old(db.orders)[i.value].orderStatus) ==>
            status == 400 && unchanged(db`products, db`orders))
      && (i.Some? && old(db.orders)[i.value].user == user && Cancellable(old(db.orders)[i.value].orderStatus) ==>
            && status == 200
            && db.orders == old(db.orders)[i.value := Cancelled(old(db.orders)[i.value], reason, now)]
            && db.products == Release(old(db.products), old(db.orders)[i.value].items))
  {
    var i := FindById(db.orders, OrderId, orderId);
    if i.None? {
      return 404;
    }
    var order := db.orders[i.value];
    if order.user != user {
      return 403;
    }
    if !Cancellable(order.orderStatus) {
      return 400;
    }
    db.orders := db.orders[i.value := Cancelled(order, reason, now)];
    ReleaseStock(db, order.items);
    status := 200;
  }

  /** `getOrderById`: 404 for an unknown order, 403 unless the requester owns it or is an admin. */
  function GetOrderById(orders: seq<Order>, requester: ObjectId, role: string, orderId: ObjectId): (r: Result<Order, int>)
    ensures var f := FindById(orders, OrderId, orderId);
      r.Success? <==> f.Some? && (orders[f.value].user == requester || role == AdminRole)
    ensures r.Success? ==> r.value in orders && r.value.id == orderId
    ensures r == Failure(404) <==> forall i :: 0 <= i < |orders| ==> orders[i].id != orderId
    ensures r.Failure? ==> r.error == 404 || r.error == 403
  {
    match FindById(orders, OrderId, orderId)
    case None => Failure(404)
    case Some(i) =>
      if orders[i].user != requester && role != AdminRole then Failure(403) else Success(orders[i])
  }
}
