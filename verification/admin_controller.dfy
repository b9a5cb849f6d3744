/**
  The admin endpoints of the shop's server: switching an account on or off,
  approving a product, setting an order's status, and two dashboard figures
  (revenue from paid orders, products awaiting approval).
 */
module AdminController {
  import opened Common
  import opened ProductModel
  import opened ShopDb

  /** The account with its active flag flipped. */
  function Toggled(a: Account): (r: Account)
    ensures r.isActive == !a.isActive && r.role == a.role
  {
    a.(isActive := !a.isActive)
  }

  /** Toggling twice gives the account back. */
  lemma ToggleTwice(a: Account)
    ensures Toggled(Toggled(a)) == a
  {
  }

  /** `toggleUserStatus`: 404 for an unknown user (nothing changes), else flip its active flag. */
  method ToggleUserStatus(db: Shop, userId: ObjectId) returns (status: int)
    requires db.Valid()
    modifies db
    ensures db.Valid()
    ensures unchanged(db`products, db`carts, db`orders, db`reviews)
    ensures userId !in old(db.accounts) ==> status == 404 && db.accounts == old(db.accounts)
    ensures userId in old(db.accounts) ==>
      status == 200 && db.accounts == old(db.accounts)[userId := Toggled(old(db.accounts)[userId])]
  {
    if userId !in db.accounts {
      return 404;
    }
    db.accounts := db.accounts[userId := Toggled(db.accounts[userId])];
    status := 200;
  }

  /** The product made active. */
  function Approved(p: Product): (r: Product)
    ensures r.isActive
    ensures r.(isActive := p.isActive) == p
  {
    p.(isActive := true)
  }

  /** Approving an approved product changes nothing. */
  lemma ApproveIdempotent(p: Product)
    ensures Approved(Approved(p)) == Approved(p)
    ensures p.isActive ==> Approved(p) == p
  {
  }

  /** `approveProduct`: 404 for an unknown product (nothing changes), else make it active. */
  method ApproveProduct(db: Shop, productId: ObjectId) returns (status: int)
    requires db.Valid()
    modifies db
    ensures db.Valid()
    ensures unchanged(db`accounts, db`carts, db`orders, db`reviews)
    ensures productId !in old(db.products) ==> status == 404 && db.products == old(db.products)
    ensures productId in old(db.products) ==>
      status == 200 && db.products == old(db.products)[productId := Approved(old(db.products)[productId])]
  {
    if productId !in db.products {
      return 404;
    }
    db.products := db.products[productId := Approved(db.products[productId])];
    status := 200;
  }

  /**
    The order after a status update: the status as given, whatever the
    current one; one history entry; the tracking record replaced only when
    one is given; the delivery time set only for 'delivered'.
   */
  function WithStatus(o: Order, status: string, tracking: Option<Tracking>, note: Option<string>, now: int): (r: Order)
    ensures r.orderStatus == status
    ensures r.statusHistory == o.statusHistory + [StatusEntry(status, note)]
    ensures tracking.Some? ==> r.trackingInfo == tracking
    ensures tracking.None? ==> r.trackingInfo == o.trackingInfo
    ensures status == "delivered" ==> r.deliveredAt == Some(now)
    ensures status != "delivered" ==> r.deliveredAt == o.deliveredAt
    ensures r.(orderStatus := o.orderStatus, statusHistory := o.statusHistory, trackingInfo := o.trackingInfo,
               deliveredAt := o.deliveredAt) == o
  {
    var o1 := AddStatusHistory(o.(orderStatus := status), status, note);
    var o2 := if tracking.Some? then o1.(trackingInfo := tracking) else o1;
    if status == "delivered" then o2.(deliveredAt := Some(now)) else o2
  }

  /** `updateOrderStatus`: 404 for an unknown order (nothing changes), else the order takes `WithStatus`. */
  method UpdateOrderStatus(db: Shop, orderId: ObjectId, status: string, tracking: Option<Tracking>,
                           note: Option<string>, now: int) returns (code: int)
    requires db.Valid()
    modifies db
    ensures db.Valid()
    ensures unchanged(db`accounts, db`products, db`carts, db`reviews)
    ensures var i := FindById(old(db.orders), OrderId, orderId);
      && (i.None? ==> code == 404 && db.orders == old(db.orders))
      && (i.Some? ==> code == 200 && db.orders == old(db.orders)[i.value := WithStatus(old(db.orders)[i.value], status, tracking, note, now)])
  {
    var i := FindById(db.orders, OrderId, orderId);
    if i.None? {
      return 404;
    }
    ghost var before := db.orders;
    db.orders := db.orders[i.value := WithStatus(db.orders[i.value], status, tracking, note, now)];
    assert OrderIdsUnique(db.orders) by {
      forall a, b | 0 <= a < b < |db.orders| ensures db.orders[a].id != db.orders[b].id {
        assert db.orders[a].id == before[a].id && db.orders[b].id == before[b].id;
      }
    }
    code := 200;
  }

  const PaymentCompleted := "completed"

  /** The revenue aggregate: `pricing.total` summed over the orders whose payment completed. */
  function TotalRevenue(orders: seq<Order>): real {
    if orders == [] then 0.0
    else
      var last := orders[|orders| - 1];
      TotalRevenue(orders[..|orders| - 1]) + (if last.paymentStatus == PaymentCompleted then last.pricing.total else 0.0)
  }

  /** Without a completed payment the revenue is 0. */
  lemma {:induction false} NoPaidOrdersNoRevenue(orders: seq<Order>)
    requires forall i :: 0 <= i < |orders| ==> orders[i].paymentStatus != PaymentCompleted
    ensures TotalRevenue(orders) == 0.0
  {
    if orders != [] {
      NoPaidOrdersNoRevenue(orders[..|orders| - 1]);
    }
  }

  /** Revenue over two runs of orders is the sum of their revenues. */
  lemma {:induction false} RevenueOfConcat(a: seq<Order>, b: seq<Order>)
    ensures TotalRevenue(a + b) == TotalRevenue(a) + TotalRevenue(b)
    decreases |b|
  {
    if b == [] {
      assert a + b == a;
    } else {
      assert (a + b)[..|a + b| - 1] == a + b[..|b| - 1];
      RevenueOfConcat(a, b[..|b| - 1]);
    }
  }

  /** Revenue counts exactly the paid orders: changing an unpaid order's total changes nothing. */
  lemma RevenueIgnoresUnpaid(orders: seq<Order>, i: nat, total: real)
    requires i < |orders| && orders[i].paymentStatus != PaymentCompleted
    ensures TotalRevenue(orders[i := orders[i].(pricing := orders[i].pricing.(total := total))]) == TotalRevenue(orders)
  {
    var changed := orders[i := orders[i].(pricing := orders[i].pricing.(total := total))];
    assert orders == orders[..i] + [orders[i]] + orders[i + 1..];
    assert changed == orders[..i] + [changed[i]] + orders[i + 1..];
    RevenueOfConcat(orders[..i] + [orders[i]], orders[i + 1..]);
    RevenueOfConcat(orders[..i], [orders[i]]);
    RevenueOfConcat(orders[..i] + [changed[i]], orders[i + 1..]);
    RevenueOfConcat(orders[..i], [changed[i]]);
    assert TotalRevenue([orders[i]]) == 0.0 == TotalRevenue([changed[i]]);
  }

  /** `getPendingProducts`: the ids of the products not yet active. */
  function PendingProducts(products: map<ObjectId, Product>): (r: set<ObjectId>)
    ensures forall id :: id in r <==> id in products && !products[id].isActive
  {
    set id | id in products && !products[id].isActive
  }

  /** Approving a pending product takes it off the pending list and leaves the others on it. */
  lemma ApproveLeavesPending(products: map<ObjectId, Product>, id: ObjectId)
    requires id in products
    ensures PendingProducts(products[id := Approved(products[id])]) == PendingProducts(products) - {id}
  {
  }
}
