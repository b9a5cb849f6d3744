/**
  The product document: the fields the shop's controllers read and write, the
  schema's numeric bounds, and the two derived values `finalPrice` and
  `inStock`. Descriptive fields (description, images, variants, dimensions
  and the like) take no part in any rule here and are not modelled.
 */
module ProductModel {
  import opened Common

  datatype Rating = Rating(average: real, count: int)

  datatype Product = Product(
    name: string,
    price: real,
    stock: int,
    discount: real,
    rating: Rating,
    reviews: seq<ObjectId>,
    isActive: bool,
    sold: int)

  /** A product as created: no discount, no rating, no reviews, active, nothing sold. */
  function NewProduct(name: string, price: real, stock: int): (p: Product)
    ensures p.name == name && p.price == price && p.stock == stock
    ensures FinalPrice(p) == price && p.rating.count == 0 && p.reviews == [] && p.sold == 0 && p.isActive
    ensures price >= 0.0 && stock >= 0 ==> SchemaValid(p)
  {
    Product(name, price, stock, 0.0, Rating(0.0, 0), [], true, 0)
  }

  /** The schema's bounds: price and stock at least 0, discount within 0..100, average rating within 0..5. */
  ghost predicate SchemaValid(p: Product) {
    && p.price >= 0.0
    && p.stock >= 0
    && 0.0 <= p.discount <= 100.0
    && 0.0 <= p.rating.average <= 5.0
  }

  /** The `finalPrice` virtual: the price less `discount` percent of it, when the discount is positive. */
  function FinalPrice(p: Product): (r: real)
    ensures p.discount <= 0.0 ==> r == p.price
    ensures p.price >= 0.0 && 0.0 <= p.discount <= 100.0 ==> 0.0 <= r <= p.price
  {
    if p.discount > 0.0 then
      var cut := p.price * p.discount / 100.0;
      assert p.price >= 0.0 && p.discount <= 100.0 ==> 0.0 <= cut <= p.price by {
        if p.price >= 0.0 && p.discount <= 100.0 {
          PercentBetween(p.price, p.discount);
        }
      }
      p.price - cut
    else
      p.price
  }

  /** The `inStock` virtual. */
  predicate InStock(p: Product) {
    p.stock > 0
  }

  /** A product as the schema allows it is out of stock exactly at zero. */
  lemma InStockUnlessZero(p: Product)
    requires SchemaValid(p)
    ensures InStock(p) <==> p.stock != 0
    ensures !InStock(p) <==> p.stock == 0
  {
  }

  /** The schema's defaults satisfy its bounds and leave the final price at the list price. */
  lemma NewProductValid(name: string, price: real, stock: int)
    requires price >= 0.0 && stock >= 0
    ensures SchemaValid(NewProduct(name, price, stock))
    ensures FinalPrice(NewProduct(name, price, stock)) == price
    ensures InStock(NewProduct(name, price, stock)) <==> stock > 0
  {
  }

  /** A full discount makes the product free. */
  lemma FullDiscountIsFree(p: Product)
    requires p.discount == 100.0
    ensures FinalPrice(p) == 0.0
  {
  }

  /** For a fixed non-negative price, a larger discount never gives a higher final price. */
  lemma FinalPriceMonotone(p: Product, d1: real, d2: real)
    requires p.price >= 0.0 && d1 <= d2
    ensures FinalPrice(p.(discount := d2)) <= FinalPrice(p.(discount := d1))
  {
    var q1, q2 := p.(discount := d1), p.(discount := d2);
    if d2 <= 0.0 {
      assert FinalPrice(q1) == p.price && FinalPrice(q2) == p.price;
    } else if d1 <= 0.0 {
      var c2 := DiscountCut(p, d2);
      assert FinalPrice(q1) == p.price;
      assert c2 >= 0.0 by { assert p.price * d2 >= 0.0; }
    } else {
      BothDiscountedMonotone(p, d1, d2);
    }
  }

  /** The case of two positive discounts: the larger one takes more off. */
  lemma BothDiscountedMonotone(p: Product, d1: real, d2: real)
    requires p.price >= 0.0 && 0.0 < d1 <= d2
    ensures FinalPrice(p.(discount := d2)) <= FinalPrice(p.(discount := d1))
  {
    var c1 := DiscountCut(p, d1);
    var c2 := DiscountCut(p, d2);
    CutsInOrder(p.price, d1, d2, c1, c2);
  }

  /** Two cuts of the same non-negative amount keep the order of their percentages. */
  lemma CutsInOrder(x: real, a: real, b: real, ca: real, cb: real)
    requires x >= 0.0 && a <= b && ca == x * a / 100.0 && cb == x * b / 100.0
    ensures ca <= cb
  {
    PercentKeepsOrder(x, a, b);
  }

  /** The amount a positive discount `d` takes off the price of `p`. */
  lemma DiscountCut(p: Product, d: real) returns (c: real)
    requires d > 0.0
    ensures c == p.price * d / 100.0 && FinalPrice(p.(discount := d)) == p.price - c
  {
    c := p.price * d / 100.0;
  }

  /** A larger percentage of a non-negative amount is no smaller. */
  lemma PercentKeepsOrder(x: real, a: real, b: real)
    requires x >= 0.0 && a <= b
    ensures x * a / 100.0 <= x * b / 100.0
  {
    assert x * b - x * a == x * (b - a);
    assert x * (b - a) >= 0.0;
  }

  /** A percentage within 0..100 of a non-negative amount lies between 0 and the amount. */
  lemma PercentBetween(x: real, d: real)
    requires x >= 0.0 && 0.0 <= d <= 100.0
    ensures 0.0 <= x * d / 100.0 <= x
  {
    PercentKeepsOrder(x, 0.0, d);
    PercentKeepsOrder(x, d, 100.0);
  }
}
