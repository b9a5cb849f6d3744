/**
  The review endpoints of the shop's server: listing a product's approved
  reviews a page at a time, creating a review (one per user and product),
  editing and deleting it, and marking it helpful (once per user). Creating,
  editing and deleting recompute the product's rating from all of its
  reviews, approved or not.
 */
module ReviewController {
  import opened Common
  import opened ProductModel
  import opened ShopDb

  // ---------------------------------------------------------------------------
  // Rating aggregates
  // ---------------------------------------------------------------------------

  /** `Review.find({product})`: the product's reviews, in the order they were stored. */
  function ReviewsOf(reviews: seq<Review>, product: ObjectId): (r: seq<Review>)
    ensures |r| <= |reviews|
    ensures forall x :: x in r <==> x in reviews && x.product == product
  {
    if reviews == [] then []
    else
      var last := reviews[|reviews| - 1];
      var prefix := reviews[..|reviews| - 1];
      assert forall x :: x in reviews <==> x in prefix || x == last by {
        assert reviews == prefix + [last];
      }
      ReviewsOf(prefix, product) + (if last.product == product then [last] else [])
  }

  /** The sum of the ratings. */
  function RatingSum(rs: seq<Review>): int {
    if rs == [] then 0 else RatingSum(rs[..|rs| - 1]) + rs[|rs| - 1].rating
  }

  /** The mean rating. */
  function Mean(rs: seq<Review>): real
    requires rs != []
  {
    RatingSum(rs) as real / |rs| as real
  }

  lemma {:induction false} RatingSumBounds(rs: seq<Review>, lo: int, hi: int)
    requires forall k :: 0 <= k < |rs| ==> lo <= rs[k].rating <= hi
    ensures lo * |rs| <= RatingSum(rs) <= hi * |rs|
  {
    if rs != [] {
      RatingSumBounds(rs[..|rs| - 1], lo, hi);
      assert lo * |rs| == lo * (|rs| - 1) + lo;
      assert hi * |rs| == hi * (|rs| - 1) + hi;
    }
  }

  /** The mean of ratings within lo..hi lies within lo..hi. */
  lemma MeanBounds(rs: seq<Review>, lo: int, hi: int)
    requires rs != []
    requires forall k :: 0 <= k < |rs| ==> lo <= rs[k].rating <= hi
    ensures lo as real <= Mean(rs) <= hi as real
  {
    RatingSumBounds(rs, lo, hi);
    var n := |rs| as real;
    var s := RatingSum(rs) as real;
    assert lo as real * n <= s <= hi as real * n;
    assert s / n * n == s;
  }

  /** Ratings of 1 to 5 stars keep a product's average within the schema's 0..5. */
  lemma StarRatingsKeepAverageValid(rs: seq<Review>)
    requires rs != []
    requires forall k :: 0 <= k < |rs| ==> 1 <= rs[k].rating <= 5
    ensures 0.0 <= Mean(rs) <= 5.0
  {
    MeanBounds(rs, 1, 5);
  }

  // ---------------------------------------------------------------------------
  // Listing
  // ---------------------------------------------------------------------------

  /** The product's approved reviews, newest first. */
  function ApprovedNewestFirst(reviews: seq<Review>, product: ObjectId): (r: seq<Review>)
    ensures forall x :: x in r <==> x in reviews && x.product == product && x.isApproved
  {
    if reviews == [] then []
    else
      var last := reviews[|reviews| - 1];
      var prefix := reviews[..|reviews| - 1];
      assert forall x :: x in reviews <==> x in prefix || x == last by {
        assert reviews == prefix + [last];
      }
      (if last.product == product && last.isApproved then [last] else []) + ApprovedNewestFirst(prefix, product)
  }

  /** The approved reviews among `rs`, in their stored order. */
  function ApprovedOnly(rs: seq<Review>): (r: seq<Review>)
    ensures |r| <= |rs|
  {
    if rs == [] then []
    else ApprovedOnly(rs[..|rs| - 1]) + (if rs[|rs| - 1].isApproved then [rs[|rs| - 1]] else [])
  }

  /** `s` in reverse order. */
  function Reversed(s: seq<Review>): (r: seq<Review>)
    ensures |r| == |s|
  {
    if s == [] then [] else [s[|s| - 1]] + Reversed(s[..|s| - 1])
  }

  /**
    Reviews are stored in the order they were created, so sorting by
    `-createdAt` lists the product's approved reviews in reverse stored order:
    each once, the most recent first.
   */
  lemma {:induction false} ApprovedNewestFirstIsReversed(reviews: seq<Review>, product: ObjectId)
    ensures ApprovedNewestFirst(reviews, product) == Reversed(ApprovedOnly(ReviewsOf(reviews, product)))
  {
    if reviews != [] {
      var last := reviews[|reviews| - 1];
      var prefix := reviews[..|reviews| - 1];
      ApprovedNewestFirstIsReversed(prefix, product);
      var mine := ReviewsOf(prefix, product);
      var a := ApprovedOnly(mine);
      if last.product == product {
        assert ReviewsOf(reviews, product) == mine + [last];
        ApprovedOnlyAppend(mine, last);
        if last.isApproved {
          assert ApprovedNewestFirst(reviews, product) == [last] + ApprovedNewestFirst(prefix, product);
          assert ApprovedOnly(ReviewsOf(reviews, product)) == a + [last];
          ReversedAppend(a, last);
        } else {
          assert ApprovedNewestFirst(reviews, product) == ApprovedNewestFirst(prefix, product);
          assert ApprovedOnly(ReviewsOf(reviews, product)) == a;
        }
      } else {
        assert ReviewsOf(reviews, product) == mine;
        assert ApprovedNewestFirst(reviews, product) == ApprovedNewestFirst(prefix, product);
      }
    }
  }

  lemma ApprovedOnlyAppend(rs: seq<Review>, x: Review)
    ensures ApprovedOnly(rs + [x]) == ApprovedOnly(rs) + (if x.isApproved then [x] else [])
  {
    assert (rs + [x])[..|rs|] == rs;
  }

  lemma ReversedAppend(rs: seq<Review>, x: Review)
    ensures Reversed(rs + [x]) == [x] + Reversed(rs)
  {
    assert (rs + [x])[..|rs|] == rs;
  }

  datatype ReviewPage = ReviewPage(count: nat, totalPages: nat, currentPage: int, reviews: seq<Review>)

  /** `Math.ceil(count / limit)` for a positive limit. */
  function PageCount(count: nat, limit: nat): (r: nat)
    requires limit >= 1
    ensures r * limit >= count
    ensures count > 0 ==> (r - 1) * limit < count
    ensures r == 0 <==> count == 0
  {
    var q := (count + limit - 1) / limit;
    var rem := (count + limit - 1) % limit;
    assert count + limit - 1 == q * limit + rem && 0 <= rem < limit;
    assert (q - 1) * limit == q * limit - limit;
    q
  }

  lemma MulMonotone(a: int, b: int, c: nat)
    requires a <= b
    ensures a * c <= b * c
  {
  }

  /** Page `page` of `count` entries exists exactly when it starts before the last entry. */
  lemma PageExists(count: nat, limit: nat, page: int)
    requires limit >= 1 && page >= 1
    ensures page <= PageCount(count, limit) <==> (page - 1) * limit < count
  {
    var pages := PageCount(count, limit);
    if page <= pages {
      MulMonotone(page - 1, pages - 1, limit);
    } else {
      MulMonotone(pages, page - 1, limit);
    }
  }

  /**
    `getProductReviews` with its default sort: the approved reviews of the
    product, newest first, cut into pages of `limit`, and the page asked for.
   */
  function GetProductReviews(reviews: seq<Review>, product: ObjectId, page: int, limit: int): (r: ReviewPage)
    requires page >= 1 && limit >= 1
    ensures r.count == |ApprovedNewestFirst(reviews, product)|
    ensures r.totalPages == PageCount(r.count, limit) && r.currentPage == page
    ensures |r.reviews| <= limit
    ensures forall x :: x in r.reviews ==> x in reviews && x.product == product && x.isApproved
    ensures page <= r.totalPages ==> r.reviews != []
    ensures page > r.totalPages ==> r.reviews == []
    ensures var all := ApprovedNewestFirst(reviews, product); var start := (page - 1) * limit;
      0 <= start < |all| ==> r.reviews == all[start..if start + limit <= |all| then start + limit else |all|]
  {
    var all := ApprovedNewestFirst(reviews, product);
    var start := (page - 1) * limit;
    var end := start + limit;
    var stop := if end <= |all| then end else |all|;
    PageExists(|all|, limit, page);
    MulMonotone(0, page - 1, limit);
    var slice := if start < |all| then all[start..stop] else [];
    assert forall x :: x in slice ==> x in all;
    ReviewPage(|all|, PageCount(|all|, limit), page, slice)
  }

  // ---------------------------------------------------------------------------
  // Creating, editing, deleting, marking helpful
  // ---------------------------------------------------------------------------

  /** Has `user` reviewed `product` already? */
  predicate HasReviewed(reviews: seq<Review>, product: ObjectId, user: ObjectId)
    ensures HasReviewed(reviews, product, user) <==> exists x :: x in ReviewsOf(reviews, product) && x.user == user
  {
    exists i :: 0 <= i < |reviews| && reviews[i].product == product && reviews[i].user == user
  }

  /**
    `createReview`: 404 for an unknown product and 400 when the user has
    reviewed it already, both changing nothing. Otherwise the review is stored
    (with the schema's approval default and no helpful marks), and the
    product's rating becomes the count and mean of all its reviews, with the
    new review's id appended to its list.
   */
  method CreateReview(db: Shop, user: ObjectId, product: ObjectId, rating: int, title: string, comment: string,
                      images: seq<string>, approvedByDefault: bool, newId: ObjectId) returns (status: int)
    requires db.Valid()
    requires forall i :: 0 <= i < |db.reviews| ==> db.reviews[i].id != newId
    modifies db
    ensures db.Valid()
    ensures unchanged(db`accounts, db`carts, db`orders)
    ensures product !in old(db.products) ==> status == 404 && unchanged(db`products, db`reviews)
    ensures product in old(db.products) && HasReviewed(old(db.reviews), product, user) ==>
      status == 400 && unchanged(db`products, db`reviews)
    ensures product in old(db.products) && !HasReviewed(old(db.reviews), product, user) ==>
      var mine := ReviewsOf(db.reviews, product);
      var p := old(db.products)[product];
      && status == 201
      && db.reviews == old(db.reviews) + [Review(newId, product, user, rating, title, comment, images, approvedByDefault, 0, [])]
      && mine == ReviewsOf(old(db.reviews), product) + [db.reviews[|db.reviews| - 1]]
      && db.products == old(db.products)[product := p.(rating := Rating(Mean(mine), |mine|), reviews := p.reviews + [newId])]
  {
    if product !in db.products {
      return 404;
    }
    if HasReviewed(db.reviews, product, user) {
      return 400;
    }
    var review := Review(newId, product, user, rating, title, comment, images, approvedByDefault, 0, []);
    AppendKeepsInvariants(db.reviews, review);
    ReviewsOfAppend(db.reviews, review);
    db.reviews := db.reviews + [review];
    var mine := ReviewsOf(db.reviews, product);
    var p := db.products[product];
    db.products := db.products[product := p.(rating := Rating(Mean(mine), |mine|), reviews := p.reviews + [newId])];
    status := 201;
  }

  /** Appending a fresh review with no helpful marks, by a user who has not reviewed its product, keeps the collection's invariants. */
  lemma AppendKeepsInvariants(reviews: seq<Review>, review: Review)
    requires ReviewIdsUnique(reviews) && OneReviewPerUser(reviews) && HelpfulCounted(reviews)
    requires forall i :: 0 <= i < |reviews| ==> reviews[i].id != review.id
    requires !HasReviewed(reviews, review.product, review.user)
    requires review.helpful == 0 && review.helpfulUsers == []
    ensures var all := reviews + [review];
      ReviewIdsUnique(all) && OneReviewPerUser(all) && HelpfulCounted(all)
  {
    var all := reviews + [review];
    assert forall a :: 0 <= a < |reviews| ==> all[a] == reviews[a];
  }

  /** The appended review comes last among its product's reviews. */
  lemma ReviewsOfAppend(reviews: seq<Review>, review: Review)
    ensures ReviewsOf(reviews + [review], review.product) == ReviewsOf(reviews, review.product) + [review]
  {
    assert (reviews + [review])[..|reviews|] == reviews;
  }

  /** JavaScript's `value || fallback` for a rating: a missing or zero rating keeps the fallback. */
  function OrRating(v: Option<int>, fallback: int): (r: int)
    ensures v.Some? && v.value != 0 ==> r == v.value
    ensures r == fallback || (v.Some? && r == v.value)
  {
    if v.Some? && v.value != 0 then v.value else fallback
  }

  /** JavaScript's `value || fallback` for a text: a missing or empty text keeps the fallback. */
  function OrText(v: Option<string>, fallback: string): (r: string)
    ensures v.Some? && v.value != "" ==> r == v.value
    ensures r == fallback || (v.Some? && r == v.value)
  {
    if v.Some? && v.value != "" then v.value else fallback
  }

  /** The edited review: each supplied truthy field replaces the old one; an array, even empty, is truthy. */
  function Edited(r: Review, rating: Option<int>, title: Option<string>, comment: Option<string>,
                  images: Option<seq<string>>): (e: Review)
    ensures e.id == r.id && e.product == r.product && e.user == r.user
    ensures e.isApproved == r.isApproved && e.helpful == r.helpful && e.helpfulUsers == r.helpfulUsers
  {
    r.(rating := OrRating(rating, r.rating), title := OrText(title, r.title), comment := OrText(comment, r.comment),
       images := images.GetOr(r.images))
  }

  /** Omitted and falsy fields change nothing; supplied truthy ones replace. */
  lemma EditedKeepsFalsy(r: Review, images: seq<string>, rating: int, title: string)
    ensures Edited(r, None, None, None, None) == r
    ensures Edited(r, Some(0), Some(""), Some(""), None) == r
    ensures rating != 0 && title != "" ==>
      Edited(r, Some(rating), Some(title), None, Some(images)) == r.(rating := rating, title := title, images := images)
  {
  }

  /**
    `updateReview`: 404 for an unknown review, 403 for anyone but its author.
    Otherwise the review is edited and the product's average recomputed over
    all its reviews; its count and its list of reviews are left alone. A
    product that no longer exists is left alone.
   */
  method UpdateReview(db: Shop, user: ObjectId, reviewId: ObjectId, rating: Option<int>, title: Option<string>,
                      comment: Option<string>, images: Option<seq<string>>) returns (status: int)
    requires db.Valid()
    modifies db
    ensures db.Valid()
    ensures unchanged(db`accounts, db`carts, db`orders)
    ensures var i := FindById(old(db.reviews), ReviewId, reviewId);
      && (i.None? ==> status == 404 && unchanged(db`products, db`reviews))
      && (i.Some? && old(db.reviews)[i.value].user != user ==> status == 403 && unchanged(db`products, db`reviews))
      && (i.Some? && old(db.reviews)[i.value].user == user ==>
            var r := old(db.reviews)[i.value];
            var mine := ReviewsOf(db.reviews, r.product);
            && status == 200
            && db.reviews == old(db.reviews)[i.value := Edited(r, rating, title, comment, images)]
            && mine != []
            && (r.product in old(db.products) ==>
                  db.products == old(db.products)[r.product := old(db.products)[r.product].(
                    rating := old(db.products)[r.product].rating.(average := Mean(mine)))])
            && (r.product !in old(db.products) ==> db.products == old(db.products)))
  {
    var i := FindById(db.reviews, ReviewId, reviewId);
    if i.None? {
      return 404;
    }
    var r := db.reviews[i.value];
    if r.user != user {
      return 403;
    }
    var e := Edited(r, rating, title, comment, images);
    EditKeepsInvariants(db.reviews, i.value, e);
    db.reviews := db.reviews[i.value := e];
    assert db.reviews[i.value] == e;
    var mine := ReviewsOf(db.reviews, r.product);
    assert e in mine;
    if r.product in db.products {
      var p := db.products[r.product];
      db.products := db.products[r.product := p.(rating := p.rating.(average := Mean(mine)))];
    }
    status := 200;
  }

  /** Replacing a review by one with the same id, product, author and helpful marks keeps the collection's invariants. */
  lemma EditKeepsInvariants(reviews: seq<Review>, i: nat, e: Review)
    requires i < |reviews|
    requires ReviewIdsUnique(reviews) && OneReviewPerUser(reviews) && HelpfulCounted(reviews)
    requires e.id == reviews[i].id && e.product == reviews[i].product && e.user == reviews[i].user
    requires e.helpful == reviews[i].helpful && e.helpfulUsers == reviews[i].helpfulUsers
    ensures var all := reviews[i := e];
      ReviewIdsUnique(all) && OneReviewPerUser(all) && HelpfulCounted(all)
  {
    var all := reviews[i := e];
    assert forall a :: 0 <= a < |all| ==>
      all[a].id == reviews[a].id && all[a].product == reviews[a].product && all[a].user == reviews[a].user
      && all[a].helpful == reviews[a].helpful && all[a].helpfulUsers == reviews[a].helpfulUsers;
  }

  /** `$pull`: every occurrence of `id` removed, the rest kept in order. */
  function Pull(ids: seq<ObjectId>, id: ObjectId): (r: seq<ObjectId>)
    ensures |r| <= |ids|
    ensures forall x :: x in r <==> x in ids && x != id
  {
    if ids == [] then []
    else
      assert forall x :: x in ids <==> x == ids[0] || x in ids[1..];
      (if ids[0] == id then [] else [ids[0]]) + Pull(ids[1..], id)
  }

  /** Cutting one review out of the collection keeps the collection's invariants. */
  lemma CutKeepsInvariants(reviews: seq<Review>, i: nat)
    requires i < |reviews|
    requires ReviewIdsUnique(reviews) && OneReviewPerUser(reviews) && HelpfulCounted(reviews)
    ensures var rest := reviews[..i] + reviews[i + 1..];
      ReviewIdsUnique(rest) && OneReviewPerUser(rest) && HelpfulCounted(rest)
  {
    var rest := reviews[..i] + reviews[i + 1..];
    assert forall a :: 0 <= a < |rest| ==> rest[a] == reviews[if a < i then a else a + 1];
  }

  /**
    The product once review `id` is deleted: its rating recomputed over the
    remaining reviews `rest` (average 0 when none remain) and `id` pulled from
    its list; nothing else changes.
   */
  function WithoutReview(p: Product, rest: seq<Review>, id: ObjectId): (r: Product)
    ensures r.rating.count == |rest|
    ensures rest == [] ==> r.rating.average == 0.0
    ensures rest != [] ==> r.rating.average == Mean(rest)
    ensures id !in r.reviews && forall x :: x in r.reviews <==> x in p.reviews && x != id
    ensures r.(rating := p.rating, reviews := p.reviews) == p
  {
    p.(rating := Rating(if rest != [] then Mean(rest) else 0.0, |rest|), reviews := Pull(p.reviews, id))
  }

  /**
    `deleteReview`: 404 for an unknown review, 403 for anyone but its author
    or an admin. Otherwise the review goes, and the product's count becomes the
    number of its remaining reviews, its average their mean (0 when none
    remain), and the review's id leaves its list.
   */
  method DeleteReview(db: Shop, user: ObjectId, role: string, reviewId: ObjectId) returns (status: int)
    requires db.Valid()
    modifies db
    ensures db.Valid()
    ensures unchanged(db`accounts, db`carts, db`orders)
    ensures var i := FindById(old(db.reviews), ReviewId, reviewId);
      && (i.None? ==> status == 404 && unchanged(db`products, db`reviews))
      && (i.Some? && old(db.reviews)[i.value].user != user && role != AdminRole ==>
            status == 403 && unchanged(db`products, db`reviews))
      && (i.Some? && (old(db.reviews)[i.value].user == user || role == AdminRole) ==>
            var r := old(db.reviews)[i.value];
            var rest := ReviewsOf(db.reviews, r.product);
            && status == 200
            && db.reviews == old(db.reviews)[..i.value] + old(db.reviews)[i.value + 1..]
            && (r.product in old(db.products) ==>
                  db.products == old(db.products)[r.product := WithoutReview(old(db.products)[r.product], rest, r.id)])
            && (r.product !in old(db.products) ==> db.products == old(db.products)))
  {
    var i := FindById(db.reviews, ReviewId, reviewId);
    if i.None? {
      return 404;
    }
    var r := db.reviews[i.value];
    if r.user != user && role != AdminRole {
      return 403;
    }
    var kept := db.reviews[..i.value] + db.reviews[i.value + 1..];
    CutKeepsInvariants(db.reviews, i.value);
    var rest := ReviewsOf(kept, r.product);
    var products := db.products;
    if r.product in products {
      products := products[r.product := WithoutReview(products[r.product], rest, r.id)];
    }
    db.reviews, db.products := kept, products;
    status := 200;
  }

  /**
    `markHelpful`: 404 for an unknown review, 400 when this user marked it
    already (nothing changes); otherwise one more helpful mark, and the user
    is recorded.
   */
  method MarkHelpful(db: Shop, user: ObjectId, reviewId: ObjectId) returns (status: int)
    requires db.Valid()
    modifies db
    ensures db.Valid()
    ensures unchanged(db`accounts, db`carts, db`orders, db`products)
    ensures var i := FindById(old(db.reviews), ReviewId, reviewId);
      && (i.None? ==> status == 404 && db.reviews == old(db.reviews))
      && (i.Some? && user in old(db.reviews)[i.value].helpfulUsers ==> status == 400 && db.reviews == old(db.reviews))
      && (i.Some? && user !in old(db.reviews)[i.value].helpfulUsers ==>
            var r := old(db.reviews)[i.value];
            && status == 200
            && db.reviews == old(db.reviews)[i.value := r.(helpful := r.helpful + 1, helpfulUsers := r.helpfulUsers + [user])]
            && user in db.reviews[i.value].helpfulUsers)
  {
    var i := FindById(db.reviews, ReviewId, reviewId);
    if i.None? {
      return 404;
    }
    var r := db.reviews[i.value];
    if user in r.helpfulUsers {
      return 400;
    }
    var marked := r.(helpful := r.helpful + 1, helpfulUsers := r.helpfulUsers + [user]);
    ghost var before := db.reviews;
    db.reviews := db.reviews[i.value := marked];
    assert HelpfulCounted(db.reviews) by {
      forall k | 0 <= k < |db.reviews|
        ensures db.reviews[k].helpful == |db.reviews[k].helpfulUsers| && Distinct(db.reviews[k].helpfulUsers)
      {
        if k == i.value {
          assert before[k] == r;
          forall a, b | 0 <= a < b < |marked.helpfulUsers| ensures marked.helpfulUsers[a] != marked.helpfulUsers[b] {
            if b == |r.helpfulUsers| {
              assert marked.helpfulUsers[a] == r.helpfulUsers[a];
            } else {
              assert marked.helpfulUsers[a] == r.helpfulUsers[a] && marked.helpfulUsers[b] == r.helpfulUsers[b];
            }
          }
        }
      }
    }
    assert OneReviewPerUser(db.reviews) by {
      forall a, b | 0 <= a < b < |db.reviews|
        ensures !(db.reviews[a].product == db.reviews[b].product && db.reviews[a].user == db.reviews[b].user)
      {
        assert db.reviews[a].product == before[a].product && db.reviews[a].user == before[a].user;
        assert db.reviews[b].product == before[b].product && db.reviews[b].user == before[b].user;
      }
    }
    assert ReviewIdsUnique(db.reviews) by {
      forall a, b | 0 <= a < b < |db.reviews| ensures db.reviews[a].id != db.reviews[b].id {
        assert db.reviews[a].id == before[a].id && db.reviews[b].id == before[b].id;
      }
    }
    status := 200;
  }
}
