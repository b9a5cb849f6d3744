/**
  The cart endpoints of the shop's server. Each request works on the
  signed-in user's cart document; a change is stored by a save, which the
  cart schema refuses (answering 500 and leaving the stored cart as it was)
  when a quantity falls below 1 or the discount below 0.
 */
module CartController {
  import opened Common
  import opened CartLines
  import opened ProductModel
  import opened CartModel
  import opened ShopDb

  /** The user's cart, or the empty cart created for a user who has none. */
  function CartOrEmpty(carts: map<ObjectId, Cart>, user: ObjectId): (c: Cart)
    requires CartsValid(carts)
    ensures c.user == user && c.SchemaValid() && UniqueProducts(c.items)
    ensures user in carts ==> c == carts[user]
  {
    if user in carts then carts[user] else EmptyCart(user)
  }

  /** `getCart`: the user's cart, created empty (and stored) when there was none. */
  method GetCart(db: Shop, user: ObjectId) returns (status: int, cart: Cart)
    requires db.Valid()
    modifies db
    ensures db.Valid()
    ensures unchanged(db`accounts, db`products, db`orders, db`reviews)
    ensures status == 200
    ensures user in old(db.carts) ==> cart == old(db.carts)[user]
    ensures user !in old(db.carts) ==> cart == EmptyCart(user)
    ensures db.carts == old(db.carts)[user := cart]
  {
    cart := CartOrEmpty(db.carts, user);
    db.carts := db.carts[user := cart];
    status := 200;
  }

  /**
    `addToCart`: 404 for an unknown product and 400 when its stock is below the
    requested quantity (default 1), both changing nothing. Otherwise the cart
    is created if missing, and the quantity merged into the product's line or
    appended as a new line priced at the product's final price. The stock
    check looks at the requested quantity only, not at the merged one.
   */
  method AddToCart(db: Shop, user: ObjectId, productId: ObjectId, quantity: Option<int>) returns (status: int)
    requires db.Valid()
    modifies db
    ensures db.Valid()
    ensures unchanged(db`accounts, db`products, db`orders, db`reviews)
    ensures productId !in db.products ==> status == 404 && db.carts == old(db.carts)
    ensures productId in db.products && db.products[productId].stock < quantity.GetOr(1) ==>
      status == 400 && db.carts == old(db.carts)
    ensures productId in db.products && db.products[productId].stock >= quantity.GetOr(1) ==>
      var before := CartOrEmpty(old(db.carts), user);
      var after := before.(items := AddLine(before.items, Line(productId, quantity.GetOr(1), FinalPrice(db.products[productId]))));
      && (after.SchemaValid() ==> status == 200 && db.carts == old(db.carts)[user := after])
      && (!after.SchemaValid() ==> status == 500 && db.carts == old(db.carts)[user := before])
  {
    var q := quantity.GetOr(1);
    if productId !in db.products {
      return 404;
    }
    var product := db.products[productId];
    if product.stock < q {
      return 400;
    }
    var cart := CartOrEmpty(db.carts, user);
    db.carts := db.carts[user := cart];
    var line := Line(productId, q, FinalPrice(product));
    AddLineKeepsUnique(cart.items, line);
    var existing := FindIndex(cart.items, productId);
    var items;
    if existing > -1 {
      items := cart.items[existing := cart.items[existing].(quantity := cart.items[existing].quantity + q)];
    } else {
      items := cart.items + [line];
    }
    var updated := cart.(items := items);
    if !updated.SchemaValid() {
      return 500;
    }
    db.carts := db.carts[user := updated];
    status := 200;
  }

  /**
    The common tail of `updateCartItem` once the line has been looked up:
    404 when there is no such line; 500 when its product no longer exists or
    no quantity was sent (the save then refuses the missing value); 400 when
    the product's stock is below the quantity; otherwise that line alone takes
    the quantity, if the save accepts it.
   */
  method SetLineQuantity(db: Shop, user: ObjectId, found: Option<nat>, quantity: Option<int>) returns (status: int)
    requires db.Valid() && user in db.carts
    requires found.Some? ==> found.value < |db.carts[user].items|
    modifies db
    ensures db.Valid()
    ensures unchanged(db`accounts, db`products, db`orders, db`reviews)
    ensures found.None? ==> status == 404 && db.carts == old(db.carts)
    ensures found.Some? ==>
      var line := old(db.carts)[user].items[found.value];
      && (line.product !in db.products ==> status == 500 && db.carts == old(db.carts))
      && (line.product in db.products && quantity.None? ==> status == 500 && db.carts == old(db.carts))
      && (line.product in db.products && quantity.Some? && db.products[line.product].stock < quantity.value ==>
            status == 400 && db.carts == old(db.carts))
      && (line.product in db.products && quantity.Some? && db.products[line.product].stock >= quantity.value ==>
            var after := old(db.carts)[user].(items := old(db.carts)[user].items[found.value := line.(quantity := quantity.value)]);
            && (quantity.value >= 1 ==> status == 200 && db.carts == old(db.carts)[user := after])
            && (quantity.value < 1 ==> status == 500 && db.carts == old(db.carts)))
  {
    if found.None? {
      return 404;
    }
    var cart := db.carts[user];
    var i := found.value;
    var line := cart.items[i];
    if line.product !in db.products {
      return 500;
    }
    if quantity.None? {
      return 500;
    }
    if db.products[line.product].stock < quantity.value {
      return 400;
    }
    var updated := cart.(items := cart.items[i := line.(quantity := quantity.value)]);
    assert updated.items[i].quantity == quantity.value;
    if !updated.SchemaValid() {
      return 500;
    }
    assert UniqueProducts(updated.items) by {
      forall a, b | 0 <= a < b < |updated.items| ensures updated.items[a].product != updated.items[b].product {
        assert updated.items[a].product == cart.items[a].product && updated.items[b].product == cart.items[b].product;
      }
    }
    db.carts := db.carts[user := updated];
    status := 200;
  }

  /**
    `DocumentArray.id`: the position of the first subdocument whose own `_id`
    is `id`, given the `_id` of each subdocument; one without an `_id` never
    matches.
   */
  function SubdocumentById(ids: seq<Option<ObjectId>>, id: ObjectId): (r: Option<nat>)
    ensures r.None? <==> forall k :: 0 <= k < |ids| ==> ids[k] != Some(id)
    ensures r.Some? ==> r.value < |ids| && ids[r.value] == Some(id)
  {
    if ids == [] then None
    else if ids[0] == Some(id) then Some(0)
    else
      var r := SubdocumentById(ids[1..], id);
      assert forall k :: 1 <= k < |ids| ==> ids[k] == ids[1..][k - 1];
      if r.Some? then Some(r.value + 1) else None
  }

  /** The own `_id`s of a cart's lines: the line schema is declared with `_id: false`, so there are none. */
  function LineIds(items: seq<Line>): (r: seq<Option<ObjectId>>)
    ensures |r| == |items|
  {
    seq(|items|, k => None)
  }

  /**
    `updateCartItem` as written: it looks the line up by the line's own `_id`,
    which no line has, so every request ends in 404 and nothing changes, even
    for a line the cart does hold.
   */
  method UpdateCartItemAsWritten(db: Shop, user: ObjectId, itemId: ObjectId, quantity: Option<int>)
    returns (status: int)
    requires db.Valid()
    modifies db
    ensures db.Valid()
    ensures unchanged(db`accounts, db`products, db`orders, db`reviews)
    ensures status == 404 && db.carts == old(db.carts)
  {
    if user !in db.carts {
      return 404;
    }
    var found := SubdocumentById(LineIds(db.carts[user].items), itemId);
    status := SetLineQuantity(db, user, found, quantity);
  }

  /**
    The discrepancy: a line the cart does hold is found by its product id, yet
    no `_id` whatever finds it, so the request as written answers 404.
   */
  lemma HeldLineUnreachableById(items: seq<Line>, product: ObjectId, itemId: ObjectId)
    requires !Absent(items, product)
    ensures 0 <= FindIndex(items, product) < |items|
    ensures SubdocumentById(LineIds(items), itemId).None?
  {
    assert forall k :: 0 <= k < |items| ==> LineIds(items)[k] == None;
  }

  /**
    `updateCartItem` with the line looked up by its product id, as
    `removeFromCart` does: 404 without a cart or without a line for the
    product, then as `SetLineQuantity`; on success the line for the product,
    and no other, takes the quantity.
   */
  method UpdateCartItem(db: Shop, user: ObjectId, productId: ObjectId, quantity: Option<int>) returns (status: int)
    requires db.Valid()
    modifies db
    ensures db.Valid()
    ensures unchanged(db`accounts, db`products, db`orders, db`reviews)
    ensures user !in old(db.carts) ==> status == 404 && db.carts == old(db.carts)
    ensures user in old(db.carts) && Absent(old(db.carts)[user].items, productId) ==>
      status == 404 && db.carts == old(db.carts)
    ensures status == 400 ==> quantity.Some? && productId in db.products && db.products[productId].stock < quantity.value
    ensures status == 200 ==>
      && user in old(db.carts) && quantity.Some? && quantity.value >= 1
      && productId in db.products && db.products[productId].stock >= quantity.value
      && db.carts == old(db.carts)[user := old(db.carts)[user].(items := SetQuantity(old(db.carts)[user].items, productId, quantity.value))]
    ensures status != 200 ==> db.carts == old(db.carts)
    ensures (&& user in old(db.carts) && !Absent(old(db.carts)[user].items, productId) && productId in db.products
             && quantity.Some? && 1 <= quantity.value <= db.products[productId].stock) ==> status == 200
  {
    if user !in db.carts {
      return 404;
    }
    var i := FindIndex(db.carts[user].items, productId);
    var found := if i == -1 then None else Some(i as nat);
    if found.Some? && quantity.Some? {
      SetQuantityUnique(db.carts[user].items, i, quantity.value);
    }
    status := SetLineQuantity(db, user, found, quantity);
  }

  /** `removeFromCart`: every line for the product goes, the others stay in order; 404 without a cart. */
  method RemoveFromCart(db: Shop, user: ObjectId, productId: ObjectId) returns (status: int)
    requires db.Valid()
    modifies db
    ensures db.Valid()
    ensures unchanged(db`accounts, db`products, db`orders, db`reviews)
    ensures user !in old(db.carts) ==> status == 404 && db.carts == old(db.carts)
    ensures user in old(db.carts) ==>
      && status == 200
      && db.carts == old(db.carts)[user := old(db.carts)[user].(items := RemoveProduct(old(db.carts)[user].items, productId))]
  {
    if user !in db.carts {
      return 404;
    }
    var cart := db.carts[user];
    RemoveKeepsUnique(cart.items, productId);
    var updated := cart.(items := RemoveProduct(cart.items, productId));
    assert updated.SchemaValid() by {
      forall k | 0 <= k < |updated.items| ensures updated.items[k].quantity >= 1 {
        assert updated.items[k] in cart.items;
      }
    }
    db.carts := db.carts[user := updated];
    status := 200;
  }

  /** `clearCart`: no lines, discount 0, no coupon; 404 without a cart. */
  method ClearCart(db: Shop, user: ObjectId) returns (status: int)
    requires db.Valid()
    modifies db
    ensures db.Valid()
    ensures unchanged(db`accounts, db`products, db`orders, db`reviews)
    ensures user !in old(db.carts) ==> status == 404 && db.carts == old(db.carts)
    ensures user in old(db.carts) ==> status == 200 && db.carts == old(db.carts)[user := Cart(user, [], None, 0.0)]
    ensures user in old(db.carts) ==> db.carts[user].Total() == 0.0 && db.carts[user].ItemCount() == 0
  {
    if user !in db.carts {
      return 404;
    }
    db.carts := db.carts[user := Cart(user, [], None, 0.0)];
    status := 200;
  }

  /**
    `applyCoupon`: whatever the code, store it and set the discount to a tenth
    of the current subtotal; 404 without a cart, 500 when the discount would
    be negative.
   */
  method ApplyCoupon(db: Shop, user: ObjectId, couponCode: Option<string>) returns (status: int)
    requires db.Valid()
    modifies db
    ensures db.Valid()
    ensures unchanged(db`accounts, db`products, db`orders, db`reviews)
    ensures user !in old(db.carts) ==> status == 404 && db.carts == old(db.carts)
    ensures user in old(db.carts) ==>
      var before := old(db.carts)[user];
      var after := before.(couponCode := couponCode, discount := before.Subtotal() * 0.1);
      && (before.Subtotal() >= 0.0 ==> status == 200 && db.carts == old(db.carts)[user := after])
      && (before.Subtotal() < 0.0 ==> status == 500 && db.carts == old(db.carts))
  {
    if user !in db.carts {
      return 404;
    }
    var cart := db.carts[user];
    var updated := cart.(couponCode := couponCode, discount := cart.Subtotal() * 0.1);
    if !updated.SchemaValid() {
      return 500;
    }
    db.carts := db.carts[user := updated];
    status := 200;
  }

  /** After a coupon, a cart of non-negatively priced lines totals nine tenths of its subtotal. */
  lemma CouponTotal(c: Cart, code: Option<string>)
    requires c.SchemaValid()
    requires forall k :: 0 <= k < |c.items| ==> c.items[k].price >= 0.0
    ensures var d := c.(couponCode := code, discount := c.Subtotal() * 0.1);
      d.SchemaValid() && d.Total() == c.Subtotal() * 0.9
  {
    SubtotalNonNegative(c.items);
  }
}
