/** The profile page: the caller's listings split by status, their average
    rating, the counts shown in the header, and their recent transactions. */
module Profile {
  import opened Common
  import opened Store
  import ReviewsRoute
  import Badges

  /** How many transactions the history shows. */
  const HistorySize: nat := 10

  /** The listing partitions: AVAILABLE listings are active, SOLD ones are
      sold, and RESERVED ones are in neither. */
  function HasStatus(status: Status): Listing -> bool
  {
    (l: Listing) => l.status == status
  }

  function Active(listings: seq<Listing>): (r: seq<Listing>)
    ensures forall l :: l in r <==> l in listings && l.status == AVAILABLE
  {
    Filter(listings, HasStatus(AVAILABLE))
  }

  function Sold(listings: seq<Listing>): (r: seq<Listing>)
    ensures forall l :: l in r <==> l in listings && l.status == SOLD
  {
    Filter(listings, HasStatus(SOLD))
  }

  /** Active and sold never overlap, and together they are exactly the
      listings that are not RESERVED. */
  lemma PartitionByStatus(listings: seq<Listing>, l: Listing)
    ensures !(l in Active(listings) && l in Sold(listings))
    ensures l in listings && l.status != RESERVED <==> l in Active(listings) || l in Sold(listings)
  {
  }

  function RatingSum(reviews: seq<Review>): int
  {
    if |reviews| == 0 then 0 else reviews[0].rating + RatingSum(reviews[1..])
  }

  /** The sum of the ratings divided by their number, or 0 with none. */
  function AverageRating(reviews: seq<Review>): (a: real)
    ensures |reviews| == 0 ==> a == 0.0
    ensures |reviews| > 0 ==> a * (|reviews| as real) == RatingSum(reviews) as real
  {
    if |reviews| > 0 then (RatingSum(reviews) as real) / (|reviews| as real) else 0.0
  }

  /** Ratings between 1 and 5 add up to between once and five times their
      number. */
  lemma {:induction false} RatingSumBounds(reviews: seq<Review>)
    requires ReviewsRoute.RatingsInRange(reviews)
    ensures |reviews| <= RatingSum(reviews) <= 5 * |reviews|
  {
    if |reviews| > 0 {
      assert ReviewsRoute.RatingsInRange(reviews[1..]) by {
        forall k | 0 <= k < |reviews[1..]| ensures 1 <= reviews[1..][k].rating <= 5 {
          assert reviews[1..][k] == reviews[k + 1];
        }
      }
      RatingSumBounds(reviews[1..]);
      assert 1 <= reviews[0].rating <= 5;
    }
  }

  /** A quotient of a sum lying between `lo` and `hi` times a positive
      count lies between `lo` and `hi`. */
  lemma MeanBetween(sum: real, n: real, lo: real, hi: real)
    requires n > 0.0 && lo * n <= sum <= hi * n
    ensures lo <= sum / n <= hi
  {
    var a := sum / n;
    assert a * n == sum;
    assert (a - lo) * n >= 0.0;
    assert (hi - a) * n >= 0.0;
  }

  /** With ratings between 1 and 5 a non-empty average lies between 1 and 5. */
  lemma AverageInRange(reviews: seq<Review>)
    requires |reviews| > 0 && ReviewsRoute.RatingsInRange(reviews)
    ensures 1.0 <= AverageRating(reviews) <= 5.0
  {
    RatingSumBounds(reviews);
    var n := |reviews| as real;
    assert (5 * |reviews|) as real == 5.0 * n;
    MeanBetween(RatingSum(reviews) as real, n, 1.0, 5.0);
  }

  /** The header counts. */
  datatype Counts = Counts(saved: nat, sales: nat, purchases: nat, followers: nat, following: nat)

  function ProfileCounts(db: Db, userId: string): (c: Counts)
    ensures c.saved == Count(db.saved, (s: SavedListing) => s.userId == userId)
    ensures c.sales == Count(db.transactions, (t: Transaction) => t.sellerId == userId)
    ensures c.purchases == Count(db.transactions, (t: Transaction) => t.buyerId == userId)
    ensures c.followers == Count(db.follows, (f: Follow) => f.followingId == userId)
    ensures c.following == Count(db.follows, (f: Follow) => f.followerId == userId)
    ensures c.sales + c.purchases >= Count(db.transactions, InvolvesFilter(userId))
  {
    CountUnion(db.transactions, (t: Transaction) => t.sellerId == userId, (t: Transaction) => t.buyerId == userId,
               InvolvesFilter(userId));
    Counts(Count(db.saved, (s: SavedListing) => s.userId == userId),
           Count(db.transactions, (t: Transaction) => t.sellerId == userId),
           Count(db.transactions, (t: Transaction) => t.buyerId == userId),
           Count(db.follows, (f: Follow) => f.followingId == userId),
           Count(db.follows, (f: Follow) => f.followerId == userId))
  }

  /** Rows satisfying either of two tests are at most those satisfying the
      first plus those satisfying the second. */
  lemma {:induction false} CountUnion<T(!new)>(s: seq<T>, p: T -> bool, q: T -> bool, r: T -> bool)
    requires forall x :: x in s ==> (r(x) <==> p(x) || q(x))
    ensures Count(s, r) <= Count(s, p) + Count(s, q)
  {
    if |s| > 0 {
      CountUnion(s[1..], p, q, r);
      assert Count(s, r) == (if r(s[0]) then 1 else 0) + Count(s[1..], r);
      assert Count(s, p) == (if p(s[0]) then 1 else 0) + Count(s[1..], p);
      assert Count(s, q) == (if q(s[0]) then 1 else 0) + Count(s[1..], q);
    }
  }

  function CompletedAt(t: Transaction): int { t.completedAt }

  /** The caller takes part in the transaction as seller or buyer. */
  predicate Involves(t: Transaction, userId: string)
  {
    t.sellerId == userId || t.buyerId == userId
  }

  function InvolvesFilter(userId: string): Transaction -> bool
  {
    (t: Transaction) => Involves(t, userId)
  }

  /** The ten most recently completed transactions the caller took part in. */
  function RecentTransactions(db: Db, userId: string): (r: seq<Transaction>)
    ensures |r| <= HistorySize
    ensures forall t :: t in r ==> t in db.transactions && Involves(t, userId)
    ensures forall i, j :: 0 <= i < j < |r| ==> r[i].completedAt >= r[j].completedAt
    ensures forall t :: t in db.transactions && Involves(t, userId) && t !in r ==>
      |r| == HistorySize && t.completedAt <= r[HistorySize - 1].completedAt
    ensures Count(db.transactions, InvolvesFilter(userId)) <= HistorySize ==>
      forall t :: t in db.transactions && Involves(t, userId) ==> t in r
  {
    var r := TopBy(db.transactions, InvolvesFilter(userId), CompletedAt, HistorySize);
    assert SortedDesc(r, CompletedAt);
    forall t | t in db.transactions && Involves(t, userId) && t !in r
      ensures |r| == HistorySize && t.completedAt <= r[HistorySize - 1].completedAt
    {
      assert InvolvesFilter(userId)(t);
    }
    r
  }

  /** With at most ten sales and purchases between them, the history shows
      every transaction of the user. */
  lemma SmallHistoryIsComplete(db: Db, userId: string)
    requires ProfileCounts(db, userId).sales + ProfileCounts(db, userId).purchases <= HistorySize
    ensures forall t :: t in db.transactions && Involves(t, userId) ==> t in RecentTransactions(db, userId)
  {
  }

  /** The sales count in the header is the one the trusted-seller badge
      is decided on. */
  lemma SalesCountMatchesBadge(db: Db, userId: string)
    ensures ProfileCounts(db, userId).sales == Badges.SalesCount(db, userId)
  {
    CountSame(db.transactions, (t: Transaction) => t.sellerId == userId, (t: Transaction) => t.sellerId == userId);
  }

  /** How a history row reads. */
  datatype Role = SoldTo | BoughtFrom

  function RowRole(t: Transaction, userId: string): (r: Role)
    ensures r == SoldTo <==> t.sellerId == userId
  {
    if t.sellerId == userId then SoldTo else BoughtFrom
  }

  /** The page: "User not found" for an unknown user. */
  datatype Page = NotFound | Shown(active: seq<Listing>, sold: seq<Listing>, averageRating: real,
                                   counts: Counts, recent: seq<Transaction>, badges: seq<Badges.Badge>)

  function Owner(userId: string): Listing -> bool
  {
    (l: Listing) => l.userId == userId
  }

  /** The user's listings with one status. */
  function OwnedWith(userId: string, status: Status): Listing -> bool
  {
    (l: Listing) => l.userId == userId && l.status == status
  }

  /** The user's own listings, newest first, each as often as it is stored,
      and the reviews they received. */
  function OwnListings(db: Db, userId: string): (r: seq<Listing>)
    ensures forall l :: l in r <==> l in db.listings && l.userId == userId
    ensures SortedDesc(r, ListingTime)
    ensures multiset(r) == multiset(Filter(db.listings, Owner(userId)))
  {
    SortDesc(Filter(db.listings, Owner(userId)), ListingTime)
  }

  /** The user's listings of one status, as the page lists them: newest
      first, each as often as it is stored, so the page's count is the
      number of such rows. */
  lemma OwnWithStatus(db: Db, userId: string, status: Status)
    ensures SortedDesc(Filter(OwnListings(db, userId), HasStatus(status)), ListingTime)
    ensures multiset(Filter(OwnListings(db, userId), HasStatus(status)))
            == multiset(Filter(db.listings, OwnedWith(userId, status)))
    ensures |Filter(OwnListings(db, userId), HasStatus(status))| == Count(db.listings, OwnedWith(userId, status))
  {
    var own := OwnListings(db, userId);
    var shown := Filter(own, HasStatus(status));
    FilterKeepsSorted(own, HasStatus(status), ListingTime);
    FilterPermutation(own, Filter(db.listings, Owner(userId)), HasStatus(status));
    FilterTwice(db.listings, Owner(userId), HasStatus(status), OwnedWith(userId, status));
    assert |shown| == |multiset(shown)|;
    assert |Filter(db.listings, OwnedWith(userId, status))| == |multiset(Filter(db.listings, OwnedWith(userId, status)))|;
  }

  function ReviewsReceived(db: Db, userId: string): (r: seq<Review>)
    ensures forall v :: v in r <==> v in db.reviews && v.sellerId == userId
    ensures ReviewsRoute.RatingsInRange(db.reviews) ==> ReviewsRoute.RatingsInRange(r)
  {
    var r := Filter(db.reviews, (v: Review) => v.sellerId == userId);
    assert ReviewsRoute.RatingsInRange(db.reviews) ==> ReviewsRoute.RatingsInRange(r) by {
      if ReviewsRoute.RatingsInRange(db.reviews) {
        forall k | 0 <= k < |r| ensures 1 <= r[k].rating <= 5 {
          assert r[k] in db.reviews;
        }
      }
    }
    r
  }

  function ProfilePage(db: Db, userId: string): (p: Page)
    ensures p.NotFound? <==> FindUser(db.users, userId).None?
    ensures p.Shown? ==>
      && (forall l :: l in p.active <==> l in db.listings && l.userId == userId && l.status == AVAILABLE)
      && (forall l :: l in p.sold <==> l in db.listings && l.userId == userId && l.status == SOLD)
      && SortedDesc(p.active, ListingTime) && SortedDesc(p.sold, ListingTime)
      && multiset(p.active) == multiset(Filter(db.listings, OwnedWith(userId, AVAILABLE)))
      && multiset(p.sold) == multiset(Filter(db.listings, OwnedWith(userId, SOLD)))
      && |p.active| == Count(db.listings, OwnedWith(userId, AVAILABLE))
      && |p.sold| == Count(db.listings, OwnedWith(userId, SOLD))
      && p.averageRating == AverageRating(ReviewsReceived(db, userId))
      && p.counts == ProfileCounts(db, userId)
      && p.recent == RecentTransactions(db, userId)
      && p.badges == Badges.GetUserBadges(db, userId)
      && (Badges.Trusted in p.badges <==> p.counts.sales >= Badges.TrustedSales)
  {
    if FindUser(db.users, userId).None? then NotFound
    else
      var own := OwnListings(db, userId);
      OwnWithStatus(db, userId, AVAILABLE);
      OwnWithStatus(db, userId, SOLD);
      Shown(Active(own), Sold(own), AverageRating(ReviewsReceived(db, userId)),
            ProfileCounts(db, userId), RecentTransactions(db, userId), Badges.GetUserBadges(db, userId))
  }

  /** When every stored rating came through the review route, a user's
      shown average is 0 or between 1 and 5. */
  lemma ShownAverageInRange(db: Db, userId: string)
    requires ReviewsRoute.RatingsInRange(db.reviews)
    requires ProfilePage(db, userId).Shown?
    ensures var a := ProfilePage(db, userId).averageRating;
            a == 0.0 || 1.0 <= a <= 5.0
  {
    var rs := ReviewsReceived(db, userId);
    if |rs| > 0 {
      AverageInRange(rs);
    }
  }
}
