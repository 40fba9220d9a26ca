/**
 * The review routes of `backend/routes/reviews.js`: listing a product's reviews
 * with their average, and the checks in front of creating, updating and
 * deleting a review.
 */
module ReviewRoutes {

  import opened Wrappers
  import opened Seqs
  import opened Sorting
  import opened RecordStore

  // ---------------------------------------------------------------------------
  // Shared rules

  const RatingRange := "Rating must be between 1 and 5"

  /**
   * `!rating || rating < 1 || rating > 5` rejects; `None` is a missing rating.
   * Non-integral ratings pass.
   */
  predicate RatingAccepted(rating: Option<real>) {
    rating.Some? && rating.value != 0.0 && !(rating.value < 1.0) && !(rating.value > 5.0)
  }

  lemma RatingAcceptedIsRange(rating: Option<real>)
    ensures RatingAccepted(rating) <==> rating.Some? && 1.0 <= rating.value <= 5.0
  {
  }

  /** `comment || null`: a missing or empty comment is stored as `null`. */
  function StoredComment(comment: Option<string>): (c: Option<string>)
    ensures c.None? <==> comment.None? || comment.value == ""
    ensures c.Some? ==> c == comment
  {
    if comment.Some? && comment.value != "" then comment else None
  }

  /** The review as the handlers answer it (the joined user is reduced to its id). */
  datatype ReviewView = ReviewView(id: Id, rating: real, comment: Option<string>, createdAt: int, userId: Id)

  function View(r: Review): ReviewView {
    ReviewView(r.id, r.rating, r.comment, r.createdAt, r.userId)
  }

  // ---------------------------------------------------------------------------
  // GET /api/reviews/:productId

  /** `Math.round(x)`: the nearest integer, halves rounded up. */
  function RoundHalfUp(x: real): (n: int)
    ensures x - 0.5 < n as real <= x + 0.5
  {
    (x + 0.5).Floor
  }

  /** The sum of the ratings, `reviews.reduce((sum, r) => sum + r.rating, 0)`. */
  function RatingSum(rs: seq<Review>): real {
    if rs == [] then 0.0 else RatingSum(rs[..|rs| - 1]) + rs[|rs| - 1].rating
  }

  /**
   * `Math.round(averageRating * 10)`: the mean rating in tenths, or 0 when
   * there is no review.
   */
  function AverageTenths(rs: seq<Review>): (t: int)
    ensures rs == [] ==> t == 0
    ensures rs != [] ==>
      var mean := RatingSum(rs) / (|rs| as real);
      10.0 * mean - 0.5 < t as real <= 10.0 * mean + 0.5
  {
    if rs == [] then 0 else RoundHalfUp(10.0 * (RatingSum(rs) / (|rs| as real)))
  }

  predicate RatingsInRange(rs: seq<Review>) {
    forall i :: 0 <= i < |rs| ==> 1.0 <= rs[i].rating <= 5.0
  }

  lemma {:induction false} RatingSumBounds(rs: seq<Review>)
    requires RatingsInRange(rs)
    ensures |rs| as real <= RatingSum(rs) <= 5.0 * (|rs| as real)
    decreases |rs|
  {
    if rs != [] {
      RatingSumBounds(rs[..|rs| - 1]);
    }
  }

  /** When every stored rating lies in [1, 5], so does the rounded average. */
  lemma AverageInRange(rs: seq<Review>)
    requires rs != [] && RatingsInRange(rs)
    ensures 10 <= AverageTenths(rs) <= 50
  {
    RatingSumBounds(rs);
    var n := |rs| as real;
    MeanBounds(RatingSum(rs), n);
    var t := AverageTenths(rs);
    assert 9.5 < t as real <= 50.5;
  }

  /** A mean of values in [1, 5] lies in [1, 5]. */
  lemma MeanBounds(sum: real, n: real)
    requires n > 0.0 && n <= sum <= 5.0 * n
    ensures 1.0 <= sum / n <= 5.0
  {
    DivMono(sum, 5.0 * n, n);
    DivMono(n, sum, n);
  }

  lemma DivMono(a: real, b: real, n: real)
    requires n > 0.0 && a <= b
    ensures a / n <= b / n
  {
    assert b / n - a / n == (b - a) / n;
  }

  /** `order('created_at', { ascending: false })`. */
  predicate NewerOrSameReview(a: Review, b: Review) {
    a.createdAt >= b.createdAt
  }

  function NewestReviewsFirst(rs: seq<Review>): (r: seq<Review>)
    ensures multiset(r) == multiset(rs)
    ensures forall i, j :: 0 <= i < j < |r| ==> r[i].createdAt >= r[j].createdAt
  {
    SortBy(rs, NewerOrSameReview)
  }

  function ProductReviews(reviews: seq<Review>, productId: Id): (r: seq<Review>)
    ensures forall x :: x in r <==> x in reviews && x.productId == productId
  {
    Filter(reviews, (x: Review) => x.productId == productId)
  }

  function Views(rs: seq<Review>): (r: seq<ReviewView>)
    ensures |r| == |rs| && forall k :: 0 <= k < |rs| ==> r[k] == View(rs[k])
  {
    seq(|rs|, k requires 0 <= k < |rs| => View(rs[k]))
  }

  datatype ListResponse =
    | Listed(reviews: seq<ReviewView>, averageTenths: int, totalReviews: nat)   // 200
    | ListFailed(error: string)                                                // 500

  /**
   * The product's reviews newest first, their rounded average in tenths (the
   * response's `averageRating` is that divided by 10) and their number.
   */
  method GetReviews(db: Db, productId: Id, queryFails: bool) returns (res: ListResponse)
    ensures queryFails <==> res == ListFailed("Failed to fetch reviews")
    ensures res.Listed? ==>
      var mine := ProductReviews(db.reviews, productId);
      && res.totalReviews == |mine|
      && res.averageTenths == AverageTenths(mine)
      && res.reviews == Views(NewestReviewsFirst(mine))
      && forall i, j :: 0 <= i < j < |res.reviews| ==> res.reviews[i].createdAt >= res.reviews[j].createdAt
  {
    if queryFails {
      return ListFailed("Failed to fetch reviews");
    }
    var mine := ProductReviews(db.reviews, productId);
    var sorted := NewestReviewsFirst(mine);
    return Listed(Views(sorted), AverageTenths(mine), |mine|);
  }

  /** The average does not depend on the order the reviews are listed in. */
  lemma {:induction false} RatingSumPermutation(a: seq<Review>, b: seq<Review>)
    requires multiset(a) == multiset(b)
    ensures RatingSum(a) == RatingSum(b)
    decreases |a|
  {
    if a != [] {
      var x := a[|a| - 1];
      assert x in multiset(b) by { assert x in multiset(a); }
      var k :| 0 <= k < |b| && b[k] == x;
      var b' := b[..k] + b[k + 1..];
      assert b == b[..k] + [x] + b[k + 1..];
      assert multiset(a[..|a| - 1]) == multiset(b') by {
        assert a == a[..|a| - 1] + [x];
        assert multiset(a) == multiset(a[..|a| - 1]) + multiset{x};
        assert multiset(b) == multiset(b[..k]) + multiset{x} + multiset(b[k + 1..]);
        assert multiset(b') == multiset(b[..k]) + multiset(b[k + 1..]);
        assert multiset(b) == multiset(b') + multiset{x};
        assert multiset(a[..|a| - 1]) == multiset(a) - multiset{x};
        assert multiset(b') == multiset(b) - multiset{x};
      }
      RatingSumPermutation(a[..|a| - 1], b');
      RatingSumRemove(b, k);
    }
  }

  /** Taking one review out of the sum subtracts its rating. */
  lemma {:induction false} RatingSumRemove(b: seq<Review>, k: nat)
    requires k < |b|
    ensures RatingSum(b) == RatingSum(b[..k] + b[k + 1..]) + b[k].rating
    decreases |b|
  {
    if k < |b| - 1 {
      var init := b[..|b| - 1];
      RatingSumRemove(init, k);
      assert (b[..k] + b[k + 1..])[..|b| - 2] == init[..k] + init[k + 1..];
      assert (b[..k] + b[k + 1..])[|b| - 2] == b[|b| - 1];
    } else {
      assert b[..k] + b[k + 1..] == b[..|b| - 1];
    }
  }

  // ---------------------------------------------------------------------------
  // POST /api/reviews/:productId

  datatype CreateResponse =
    | Created(review: ReviewView)                 // 201
    | BadRequest(error: string)                   // 400
    | ProductNotFound(error: string)              // 404
    | ServerError(error: string)                  // 500

  /** Which store calls of one create request fail. */
  datatype CreateFaults = CreateFaults(
    productLookupFails: bool, existingCheckFails: bool, purchaseCheckFails: bool, insertFails: bool)

  /** The reviews this user wrote for this product. */
  function ReviewsBy(reviews: seq<Review>, productId: Id, userId: Id): seq<Review> {
    Filter(reviews, (r: Review) => r.productId == productId && r.userId == userId)
  }

  /**
   * An order line for the product whose order (inner join) belongs to the user
   * and is completed.
   */
  predicate Purchased(orders: seq<Order>, lines: seq<OrderLine>, productId: Id, userId: Id) {
    exists i, j :: 0 <= i < |lines| && 0 <= j < |orders| &&
      lines[i].productId == productId && orders[j].id == lines[i].orderId &&
      orders[j].userId == userId && orders[j].status == "completed"
  }

  /** At most one review per (user, product) pair. */
  predicate OneReviewPerPair(reviews: seq<Review>) {
    forall i, j :: 0 <= i < j < |reviews| ==>
      reviews[i].productId != reviews[j].productId || reviews[i].userId != reviews[j].userId
  }

  /**
   * The create gate, in order: rating, product, earlier review (the `.single()`
   * lookup only yields a row when there is exactly one), purchase, insert.
   */
  method CreateReview(db: Db, productId: Id, userId: Id, rating: Option<real>, comment: Option<string>,
                      now: int, faults: CreateFaults)
    returns (res: CreateResponse)
    requires db.Valid()
    modifies db`reviews, db`nextId
    ensures db.Valid()
    ensures res.Created? <==>
      && RatingAccepted(rating)
      && !faults.productLookupFails && ProductExists(old(db.products), productId)
      && !faults.existingCheckFails && |ReviewsBy(old(db.reviews), productId, userId)| != 1
      && !faults.purchaseCheckFails && Purchased(db.orders, db.orderLines, productId, userId)
      && !faults.insertFails
    ensures res.Created? ==>
      var r := Review(old(db.nextId), productId, userId, rating.value, StoredComment(comment), now, None);
      && db.reviews == old(db.reviews) + [r]
      && db.nextId == old(db.nextId) + 1
      && res.review == View(r)
    ensures !res.Created? ==> db.reviews == old(db.reviews) && db.nextId == old(db.nextId)
    ensures !RatingAccepted(rating) ==> res == BadRequest(RatingRange)
    ensures RatingAccepted(rating) && (faults.productLookupFails || !ProductExists(db.products, productId)) ==>
      res == ProductNotFound("Product not found")
    ensures RatingAccepted(rating) && !faults.productLookupFails && ProductExists(db.products, productId) ==>
      if faults.existingCheckFails then res == ServerError("Failed to check existing review")
      else if |ReviewsBy(old(db.reviews), productId, userId)| == 1 then
        res == BadRequest("You have already reviewed this product")
      else if faults.purchaseCheckFails then res == ServerError("Failed to verify purchase")
      else if !Purchased(db.orders, db.orderLines, productId, userId) then
        res == BadRequest("You can only review products you have purchased")
      else if faults.insertFails then res == ServerError("Failed to create review")
      else res.Created?
    ensures old(OneReviewPerPair(db.reviews)) ==> OneReviewPerPair(db.reviews)
  {
    if !RatingAccepted(rating) {
      return BadRequest(RatingRange);
    }
    if faults.productLookupFails || !ProductExists(db.products, productId) {
      return ProductNotFound("Product not found");
    }
    if faults.existingCheckFails {
      return ServerError("Failed to check existing review");
    }
    var earlier := ReviewsBy(db.reviews, productId, userId);
    if |earlier| == 1 {
      return BadRequest("You have already reviewed this product");
    }
    if faults.purchaseCheckFails {
      return ServerError("Failed to verify purchase");
    }
    if !Purchased(db.orders, db.orderLines, productId, userId) {
      return BadRequest("You can only review products you have purchased");
    }
    if faults.insertFails {
      return ServerError("Failed to create review");
    }
    ghost var before := db.reviews;
    ghost var unique := OneReviewPerPair(db.reviews);
    var r := db.InsertReview(productId, userId, rating.value, StoredComment(comment), now);
    if unique {
      NoEarlierReview(before, productId, userId);
      OneReviewPerPairAppend(before, r);
    }
    return Created(View(r));
  }

  /** Under the invariant, a count other than one is a count of zero. */
  lemma NoEarlierReview(reviews: seq<Review>, productId: Id, userId: Id)
    requires OneReviewPerPair(reviews)
    requires |ReviewsBy(reviews, productId, userId)| != 1
    ensures forall i :: 0 <= i < |reviews| ==> reviews[i].productId != productId || reviews[i].userId != userId
  {
    forall i | 0 <= i < |reviews| ensures reviews[i].productId != productId || reviews[i].userId != userId {
      if reviews[i].productId == productId && reviews[i].userId == userId {
        forall j | 0 <= j < |reviews| && j != i
          ensures !(reviews[j].productId == productId && reviews[j].userId == userId)
        {
          if j < i {
            assert reviews[j].productId != reviews[i].productId || reviews[j].userId != reviews[i].userId;
          } else {
            assert reviews[i].productId != reviews[j].productId || reviews[i].userId != reviews[j].userId;
          }
        }
        FilterSingle(reviews, (r: Review) => r.productId == productId && r.userId == userId, i);
        assert false;
      }
    }
  }

  lemma OneReviewPerPairAppend(reviews: seq<Review>, r: Review)
    requires OneReviewPerPair(reviews)
    requires forall i :: 0 <= i < |reviews| ==> reviews[i].productId != r.productId || reviews[i].userId != r.userId
    ensures OneReviewPerPair(reviews + [r])
  {
    var s := reviews + [r];
    forall i, j | 0 <= i < j < |s| ensures s[i].productId != s[j].productId || s[i].userId != s[j].userId {
      if j == |reviews| {
        assert s[j] == r && s[i] == reviews[i];
      } else {
        assert s[i] == reviews[i] && s[j] == reviews[j];
      }
    }
  }

  // ---------------------------------------------------------------------------
  // PUT and DELETE /api/reviews/:reviewId

  datatype ChangeResponse =
    | Changed(review: Option<ReviewView>)         // 200; `None` for a delete
    | InvalidRating(error: string)                // 400
    | ReviewNotFound(error: string)               // 404
    | NotOwner(error: string)                     // 403
    | ChangeFailed(error: string)                 // 500

  /** `PUT /api/reviews/:reviewId`: rating, then existence, then ownership. */
  method UpdateReview(db: Db, reviewId: Id, userId: Id, rating: Option<real>, comment: Option<string>,
                      now: int, lookupFails: bool, updateFails: bool)
    returns (res: ChangeResponse)
    requires db.Valid()
    modifies db`reviews
    ensures db.Valid()
    ensures !RatingAccepted(rating) ==> res == InvalidRating(RatingRange)
    ensures RatingAccepted(rating) && (lookupFails || FindReview(old(db.reviews), reviewId).None?) ==>
      res == ReviewNotFound("Review not found")
    ensures RatingAccepted(rating) && !lookupFails && FindReview(old(db.reviews), reviewId).Some? ==>
      var found := FindReview(old(db.reviews), reviewId).value;
      if found.userId != userId then res == NotOwner("You can only update your own reviews")
      else if updateFails then res == ChangeFailed("Failed to update review")
      else
        var revised := found.(rating := rating.value, comment := StoredComment(comment), updatedAt := Some(now));
        && res == Changed(Some(View(revised)))
        && db.reviews == WithRevision(old(db.reviews), reviewId, rating.value, StoredComment(comment), now)
    ensures !res.Changed? ==> db.reviews == old(db.reviews)
  {
    if !RatingAccepted(rating) {
      return InvalidRating(RatingRange);
    }
    var found := FindReview(db.reviews, reviewId);
    if lookupFails || found.None? {
      return ReviewNotFound("Review not found");
    }
    if found.value.userId != userId {
      return NotOwner("You can only update your own reviews");
    }
    if updateFails {
      return ChangeFailed("Failed to update review");
    }
    var c := StoredComment(comment);
    db.UpdateReview(reviewId, rating.value, c, now);
    return Changed(Some(View(found.value.(rating := rating.value, comment := c, updatedAt := Some(now)))));
  }

  /** A revision keeps every review's id, product, author and creation time. */
  lemma RevisionKeepsKeys(reviews: seq<Review>, id: Id, rating: real, comment: Option<string>, now: int)
    ensures var r := WithRevision(reviews, id, rating, comment, now);
      forall i :: 0 <= i < |reviews| ==>
        r[i].id == reviews[i].id && r[i].productId == reviews[i].productId &&
        r[i].userId == reviews[i].userId && r[i].createdAt == reviews[i].createdAt
    ensures OneReviewPerPair(reviews) ==> OneReviewPerPair(WithRevision(reviews, id, rating, comment, now))
  {
    var r := WithRevision(reviews, id, rating, comment, now);
    if OneReviewPerPair(reviews) {
      forall i, j | 0 <= i < j < |r| ensures r[i].productId != r[j].productId || r[i].userId != r[j].userId {
        assert r[i].productId == reviews[i].productId && r[i].userId == reviews[i].userId;
        assert r[j].productId == reviews[j].productId && r[j].userId == reviews[j].userId;
      }
    }
  }

  /** `DELETE /api/reviews/:reviewId`: existence, then ownership, then the delete. */
  method DeleteReview(db: Db, reviewId: Id, userId: Id, lookupFails: bool, deleteFails: bool)
    returns (res: ChangeResponse)
    requires db.Valid()
    modifies db`reviews
    ensures db.Valid()
    ensures lookupFails || FindReview(old(db.reviews), reviewId).None? ==>
      res == ReviewNotFound("Review not found")
    ensures !lookupFails && FindReview(old(db.reviews), reviewId).Some? ==>
      if FindReview(old(db.reviews), reviewId).value.userId != userId then
        res == NotOwner("You can only delete your own reviews")
      else if deleteFails then res == ChangeFailed("Failed to delete review")
      else res == Changed(None) && db.reviews == WithoutReview(old(db.reviews), reviewId)
    ensures !res.Changed? ==> db.reviews == old(db.reviews)
  {
    var found := FindReview(db.reviews, reviewId);
    if lookupFails || found.None? {
      return ReviewNotFound("Review not found");
    }
    if found.value.userId != userId {
      return NotOwner("You can only delete your own reviews");
    }
    if deleteFails {
      return ChangeFailed("Failed to delete review");
    }
    db.DeleteReview(reviewId);
    return Changed(None);
  }

  /** A delete removes exactly the review with that id, and keeps the others in order. */
  lemma {:induction false} DeleteRemovesOnlyTarget(reviews: seq<Review>, id: Id)
    requires DistinctBy(reviews, (r: Review) => r.id)
    ensures forall k :: 0 <= k < |reviews| && reviews[k].id == id ==>
      WithoutReview(reviews, id) == reviews[..k] + reviews[k + 1..]
    ensures (forall k :: 0 <= k < |reviews| ==> reviews[k].id != id) ==> WithoutReview(reviews, id) == reviews
  {
    var p := (x: Review) => x.id != id;
    forall k | 0 <= k < |reviews| && reviews[k].id == id
      ensures WithoutReview(reviews, id) == reviews[..k] + reviews[k + 1..]
    {
      forall j | 0 <= j < |reviews| && j != k ensures p(reviews[j]) {
        if j < k {
          assert reviews[j].id != reviews[k].id;
        } else {
          assert reviews[k].id != reviews[j].id;
        }
      }
      FilterAllBut(reviews, p, k);
    }
    if forall k :: 0 <= k < |reviews| ==> reviews[k].id != id {
      FilterKeepsAll(reviews, p);
    }
  }
}
