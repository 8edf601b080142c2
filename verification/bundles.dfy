/** The new-bundle page: which of the caller's listings can go into a
    bundle. */
module NewBundle {
  import opened Common
  import opened Store
  import opened Validators
  import ListingsRoute

  /** A listing can be bundled when the caller owns it, it is AVAILABLE,
      and it is not already in a bundle. */
  predicate Eligible(l: Listing, userId: string)
  {
    l.userId == userId && l.status == AVAILABLE && l.bundleId.None?
  }

  function EligibleFor(userId: string): Listing -> bool
  {
    (l: Listing) => Eligible(l, userId)
  }

  /** Every eligible listing, newest first, with no limit; each appears as
      often as it is stored. */
  function BundleCandidates(db: Db, userId: string): (r: seq<Listing>)
    ensures forall l :: l in r <==> l in db.listings && Eligible(l, userId)
    ensures multiset(r) <= multiset(db.listings)
    ensures multiset(r) == multiset(Filter(db.listings, EligibleFor(userId)))
    ensures forall i, j :: 0 <= i < j < |r| ==> r[i].createdAt >= r[j].createdAt
  {
    var mine := Filter(db.listings, EligibleFor(userId));
    FilterSubMultiset(db.listings, EligibleFor(userId));
    var r := SortDesc(mine, ListingTime);
    assert SortedDesc(r, ListingTime);
    r
  }

  /** A listing the caller has just created through the listings API is
      offered for bundling. */
  lemma NewListingIsCandidate(db: Db, x: ListingInput, userId: string, newId: string, now: int, isUrl: string -> bool)
    requires ListingAccepted(x, isUrl)
    ensures var r := ListingsRoute.Post(db, x, userId, newId, now, isUrl);
            r.0.Created? && r.0.record in BundleCandidates(r.1, userId)
  {
    var r := ListingsRoute.Post(db, x, userId, newId, now, isUrl);
    assert r.0.record in r.1.listings;
    assert Eligible(r.0.record, userId);
  }
}
