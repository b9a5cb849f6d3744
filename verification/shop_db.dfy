/**
  The shop's document store, as the controllers see it: accounts, products
  and carts keyed by id (carts by their user, so one cart per user), and the
  order and review collections in insertion order, each document carrying
  its own id.

  The order and review documents are modelled with the fields the
  controllers read and write. Their schemas are not part of this model; a
  new order is taken to start as "pending" with a "pending" payment and an
  empty status history, a new review with no helpful marks.
 */
module ShopDb {
  import opened Common
  import opened CartLines
  import opened ProductModel
  import opened CartModel

  datatype Account = Account(role: string, isActive: bool)

  const AdminRole := "admin"

  datatype Review = Review(
    id: ObjectId,
    product: ObjectId,
    user: ObjectId,
    rating: int,
    title: string,
    comment: string,
    images: seq<string>,
    isApproved: bool,
    helpful: int,
    helpfulUsers: seq<ObjectId>)

  /** A postal address or a tracking record, as the key/value object the client sends. */
  type Address = map<string, string>
  type Tracking = map<string, string>

  datatype StatusEntry = StatusEntry(status: string, note: Option<string>)

  datatype Pricing = Pricing(subtotal: real, tax: real, shipping: real, discount: real, total: real)

  datatype Order = Order(
    id: ObjectId,
    user: ObjectId,
    items: seq<Line>,
    shippingAddress: Address,
    billingAddress: Address,
    paymentMethod: string,
    pricing: Pricing,
    orderStatus: string,
    paymentStatus: string,
    statusHistory: seq<StatusEntry>,
    trackingInfo: Option<Tracking>,
    cancelledAt: Option<int>,
    cancellationReason: Option<string>,
    deliveredAt: Option<int>)

  /** The order document's `addStatusHistory`: append one entry. */
  function AddStatusHistory(o: Order, status: string, note: Option<string>): (r: Order)
    ensures |r.statusHistory| == |o.statusHistory| + 1 && r.statusHistory[..|o.statusHistory|] == o.statusHistory
    ensures r.statusHistory[|o.statusHistory|] == StatusEntry(status, note)
    ensures r.(statusHistory := o.statusHistory) == o
  {
    o.(statusHistory := o.statusHistory + [StatusEntry(status, note)])
  }

  /** `findById` on a collection: the position of the first document with that id. */
  function FindById<T>(docs: seq<T>, idOf: T -> ObjectId, id: ObjectId): (r: Option<nat>)
    ensures r.None? <==> forall i :: 0 <= i < |docs| ==> idOf(docs[i]) != id
    ensures r.Some? ==> r.value < |docs| && idOf(docs[r.value]) == id
  {
    if docs == [] then None
    else if idOf(docs[0]) == id then Some(0)
    else
      var r := FindById(docs[1..], idOf, id);
      assert forall i :: 1 <= i < |docs| ==> docs[i] == docs[1..][i - 1];
      if r.Some? then Some(r.value + 1) else None
  }

  function OrderId(o: Order): ObjectId { o.id }
  function ReviewId(r: Review): ObjectId { r.id }

  ghost predicate OrderIdsUnique(orders: seq<Order>) {
    forall i, j :: 0 <= i < j < |orders| ==> orders[i].id != orders[j].id
  }

  ghost predicate ReviewIdsUnique(reviews: seq<Review>) {
    forall i, j :: 0 <= i < j < |reviews| ==> reviews[i].id != reviews[j].id
  }

  /** No user has two reviews of one product. */
  ghost predicate OneReviewPerUser(reviews: seq<Review>) {
    forall i, j :: 0 <= i < j < |reviews| ==>
      !(reviews[i].product == reviews[j].product && reviews[i].user == reviews[j].user)
  }

  ghost predicate Distinct(ids: seq<ObjectId>) {
    forall i, j :: 0 <= i < j < |ids| ==> ids[i] != ids[j]
  }

  /** Each review's helpful count is the number of distinct users who marked it. */
  ghost predicate HelpfulCounted(reviews: seq<Review>) {
    forall i :: 0 <= i < |reviews| ==>
      reviews[i].helpful == |reviews[i].helpfulUsers| && Distinct(reviews[i].helpfulUsers)
  }

  /** Every stored cart belongs to its key's user, passed validation and holds one line per product. */
  ghost predicate CartsValid(carts: map<ObjectId, Cart>) {
    forall u :: u in carts ==> carts[u].user == u && carts[u].SchemaValid() && UniqueProducts(carts[u].items)
  }

  class Shop {
    var accounts: map<ObjectId, Account>
    var products: map<ObjectId, Product>
    var carts: map<ObjectId, Cart>
    var orders: seq<Order>
    var reviews: seq<Review>

    ghost predicate Valid()
      reads this
    {
      && CartsValid(carts)
      && OrderIdsUnique(orders)
      && ReviewIdsUnique(reviews)
      && OneReviewPerUser(reviews)
      && HelpfulCounted(reviews)
    }

    constructor (accounts: map<ObjectId, Account>, products: map<ObjectId, Product>)
      ensures Valid()
      ensures this.accounts == accounts && this.products == products
      ensures carts == map[] && orders == [] && reviews == []
    {
      this.accounts := accounts;
      this.products := products;
      carts := map[];
      orders := [];
      reviews := [];
    }
  }
}
