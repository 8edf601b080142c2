/** `POST /api/reviews`: validate the body with `reviewSchema`, then store
    one review written by the caller. */
module ReviewsRoute {
  import opened Common
  import opened Store
  import opened Validators

  /** `POST /api/reviews`. The reviewer is always the caller; a missing or
      null comment or listing id is stored as null. Nothing stops the same
      review from being posted again. */
  function Post(db: Db, x: ReviewInput, userId: string, newId: string, now: int): (r: (Gated<Review>, Db))
    ensures r.0.Rejected? <==> !(RatingOk(x.rating) && OptionalTextOk(x.comment, 3)
                                 && !x.listingId.WrongType? && x.sellerId.Present?)
    ensures r.0.Rejected? ==> r.1 == db && r.0.issues == ReviewIssues(x) && StatusCode(r.0) == 400
    ensures r.0.Created? ==>
      && StatusCode(r.0) == 201
      && r.1 == db.(reviews := db.reviews + [r.0.record])
      && r.0.record.id == newId && r.0.record.createdAt == now
      && r.0.record.reviewerId == userId
      && r.0.record.sellerId == x.sellerId.value
      && r.0.record.rating as real == x.rating.value && 1 <= r.0.record.rating <= 5
      && r.0.record.comment == PresentOrNone(x.comment)
      && r.0.record.listingId == PresentOrNone(x.listingId)
  {
    var issues := ReviewIssues(x);
    if issues != [] then (Rejected(issues), db)
    else
      var review := Review(newId, x.rating.value.Floor, PresentOrNone(x.comment), PresentOrNone(x.listingId),
                           x.sellerId.value, userId, now);
      (Created(review), db.(reviews := db.reviews + [review]))
  }

  /** Every stored rating is between 1 and 5. */
  ghost predicate RatingsInRange(reviews: seq<Review>)
  {
    forall k :: 0 <= k < |reviews| ==> 1 <= reviews[k].rating <= 5
  }

  /** Posting reviews keeps every stored rating between 1 and 5. */
  lemma PostKeepsRatingsInRange(db: Db, x: ReviewInput, userId: string, newId: string, now: int)
    requires RatingsInRange(db.reviews)
    ensures RatingsInRange(Post(db, x, userId, newId, now).1.reviews)
  {
    var r := Post(db, x, userId, newId, now);
    if r.0.Created? {
      assert r.1.reviews == db.reviews + [r.0.record];
      assert r.1.reviews[|db.reviews|] == r.0.record;
    }
  }

  /** A valid review posted twice is stored twice, under the two ids. */
  lemma RepeatedPostAppendsAgain(db: Db, x: ReviewInput, userId: string, id1: string, id2: string, t1: int, t2: int)
    requires ReviewIssues(x) == []
    ensures var once := Post(db, x, userId, id1, t1).1;
            var twice := Post(once, x, userId, id2, t2).1;
            && |twice.reviews| == |db.reviews| + 2
            && twice.reviews[|db.reviews|].id == id1 && twice.reviews[|db.reviews| + 1].id == id2
            && twice.reviews[|db.reviews|].(id := id2, createdAt := t2) == twice.reviews[|db.reviews| + 1]
  {
  }
}
