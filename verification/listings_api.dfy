/** `/api/listings`: the filtered listing search (GET) and listing creation
    from a JSON body (POST). Query parameters arrive as `Option<string>`
    (None when absent); `Number()` of the price bounds is the `Parsed`
    parameter, None when the parameter is absent or empty. */
module ListingsRoute {
  import opened Common
  import opened Store
  import opened Validators

  /** `parseNumber`: a bound applies only when it was given and is finite. */
  function ParseNumber(v: Option<Parsed>): (r: Option<real>)
    ensures r.Some? <==> v.Some? && v.value.Finite?
    ensures r.Some? ==> r.value == v.value.value
  {
    match v
    case None => None
    case Some(NaN) => None
    case Some(Finite(x)) => Some(x)
  }

  /** A text parameter after `?.trim() ?? ""`. */
  function Param(v: Option<string>): string
  {
    Trim(OrEmpty(v))
  }

  /** The search after its parameters were read. */
  datatype Search = Search(query: string, category: string, campus: string,
                           transactionType: Option<TxType>, min: Option<int>, max: Option<int>)

  /** Reads the query string; a `type` other than empty, "all", "SELL" or
      "RENT" makes the database reject the query (None). */
  function ReadSearch(q: Option<string>, category: Option<string>, campus: Option<string>,
                      tpe: Option<string>, min: Option<Parsed>, max: Option<Parsed>): (s: Option<Search>)
    ensures s.None? <==> Narrows(Param(tpe)) && Param(tpe) != "SELL" && Param(tpe) != "RENT"
    ensures s.Some? ==>
      && s.value.query == Param(q) && s.value.category == Param(category) && s.value.campus == Param(campus)
      && (s.value.transactionType.None? <==> !Narrows(Param(tpe)))
      && (s.value.transactionType == Some(SELL) <==> Param(tpe) == "SELL")
      && (s.value.min.Some? <==> ParseNumber(min).Some?)
      && (s.value.min.Some? ==> s.value.min.value == RoundCents(ParseNumber(min).value))
      && (s.value.max.Some? <==> ParseNumber(max).Some?)
      && (s.value.max.Some? ==> s.value.max.value == RoundCents(ParseNumber(max).value))
  {
    var t := Param(tpe);
    if Narrows(t) && t != "SELL" && t != "RENT" then None
    else
      var lo := ParseNumber(min);
      var hi := ParseNumber(max);
      Some(Search(Param(q), Param(category), Param(campus),
                  if !Narrows(t) then None else if t == "SELL" then Some(SELL) else Some(RENT),
                  if lo.Some? then Some(RoundCents(lo.value)) else None,
                  if hi.Some? then Some(RoundCents(hi.value)) else None))
  }

  /** The `where` clause: every active constraint holds, the price bounds
      inclusively. */
  predicate Matches(l: Listing, s: Search)
  {
    && (s.query != "" ==> ContainsInsensitive(l.title, s.query) || ContainsInsensitive(l.description, s.query))
    && (Narrows(s.category) ==> l.category == s.category)
    && (Narrows(s.campus) ==> l.campus == s.campus)
    && (s.transactionType.Some? ==> l.transactionType == s.transactionType.value)
    && (s.min.Some? ==> l.priceCents >= s.min.value)
    && (s.max.Some? ==> l.priceCents <= s.max.value)
  }

  function MatchFilter(s: Search): Listing -> bool
  {
    (l: Listing) => Matches(l, s)
  }

  /** `GET /api/listings`: every matching listing, newest first. */
  function Get(db: Db, q: Option<string>, category: Option<string>, campus: Option<string>,
               tpe: Option<string>, min: Option<Parsed>, max: Option<Parsed>): (r: Option<seq<Listing>>)
    ensures r.None? <==> ReadSearch(q, category, campus, tpe, min, max).None?
    ensures r.Some? ==> forall l :: l in r.value <==>
      l in db.listings && Matches(l, ReadSearch(q, category, campus, tpe, min, max).value)
    ensures r.Some? ==> multiset(r.value) <= multiset(db.listings)
    ensures r.Some? ==> forall i, j :: 0 <= i < j < |r.value| ==> r.value[i].createdAt >= r.value[j].createdAt
  {
    match ReadSearch(q, category, campus, tpe, min, max)
    case None => None
    case Some(s) =>
      var hits := Filter(db.listings, MatchFilter(s));
      FilterSubMultiset(db.listings, MatchFilter(s));
      var sorted := SortDesc(hits, ListingTime);
      assert SortedDesc(sorted, ListingTime);
      Some(sorted)
  }

  /** With no parameters at all, the search returns every listing. */
  lemma NoParametersReturnsAll(db: Db)
    ensures Get(db, None, None, None, None, None, None).Some?
    ensures multiset(Get(db, None, None, None, None, None, None).value) == multiset(db.listings)
  {
    var s := Search("", "", "", None, None, None);
    EmptySearch();
    var hits := Filter(db.listings, MatchFilter(s));
    assert Get(db, None, None, None, None, None, None) == Some(SortDesc(hits, ListingTime));
    forall l | l in db.listings
      ensures MatchFilter(s)(l)
    {
      Unconstrained(l);
    }
    FilterAll(db.listings, MatchFilter(s));
    assert multiset(SortDesc(hits, ListingTime)) == multiset(db.listings);
  }

  /** The search without constraints matches every listing. */
  lemma Unconstrained(l: Listing)
    ensures Matches(l, Search("", "", "", None, None, None))
  {
  }

  /** With no parameters, the search has no constraint. */
  lemma EmptySearch()
    ensures ReadSearch(None, None, None, None, None, None) == Some(Search("", "", "", None, None, None))
  {
    assert Param(None) == "" by { assert Trim("") == ""; }
  }

  /** A price given in whole cents survives the conversion to cents. */
  lemma CentsRoundTrip(c: int)
    ensures RoundCents(c as real / 100.0) == c
  {
    assert (c as real / 100.0) * 100.0 == c as real;
  }

  /** Both price bounds are inclusive: a listing priced exactly at the
      minimum and at the maximum is returned. */
  lemma PriceAtBoundsIsReturned(db: Db, l: Listing)
    requires l in db.listings
    ensures var b := Some(Finite(l.priceCents as real / 100.0));
            var r := Get(db, None, None, None, None, b, b);
            r.Some? && l in r.value
  {
    CentsRoundTrip(l.priceCents);
    assert Trim("") == "";
  }

  /** The images of a created listing: `imageUrls` in order, then a
      non-empty `imageUrl`. */
  function Images(d: ListingData): (r: seq<string>)
    ensures d.imageUrls.None? && d.imageUrl.None? ==> r == []
    ensures |r| == (if d.imageUrls.Some? then |d.imageUrls.value| else 0)
                   + (if d.imageUrl.Some? && d.imageUrl.value != "" then 1 else 0)
    ensures d.imageUrls.Some? ==> r[..|d.imageUrls.value|] == d.imageUrls.value
    ensures d.imageUrl.Some? && d.imageUrl.value != "" ==> r[|r| - 1] == d.imageUrl.value
  {
    var urls := if d.imageUrls.Some? then d.imageUrls.value else [];
    var single := if d.imageUrl.Some? && d.imageUrl.value != "" then [d.imageUrl.value] else [];
    assert (urls + single)[..|urls|] == urls;
    urls + single
  }

  /** `POST /api/listings`: an invalid body is answered 400 and writes
      nothing; a valid one adds one AVAILABLE listing owned by the caller,
      with delivery by meetup unless the body lists options. */
  function Post(db: Db, x: ListingInput, userId: string, newId: string, now: int, isUrl: string -> bool): (r: (Gated<Listing>, Db))
    ensures r.0.Rejected? <==> !ListingAccepted(x, isUrl)
    ensures r.0.Rejected? ==> r.1 == db && r.0.issues == ListingIssues(x, isUrl) && StatusCode(r.0) == 400
    ensures r.0.Created? ==>
      && StatusCode(r.0) == 201
      && r.1 == db.(listings := db.listings + [r.0.record])
      && r.0.record.id == newId && r.0.record.userId == userId && r.0.record.status == AVAILABLE
      && r.0.record.bundleId.None? && r.0.record.createdAt == now
      && r.0.record.viewCount == 0
      && r.0.record.title == x.title.value && r.0.record.description == x.description.value
      && r.0.record.priceCents as real == x.priceCents.value
      && r.0.record.category == x.category.value && r.0.record.condition == x.condition.value
      && r.0.record.campus == x.campus.value
      && (r.0.record.transactionType == SELL <==> x.transactionType.value == "SELL")
      && (x.rentalPeriodDays.Present? <==> r.0.record.rentalPeriodDays.Some?)
      && (x.rentalPeriodDays.Present? ==> r.0.record.rentalPeriodDays.value as real == x.rentalPeriodDays.value)
      && r.0.record.deliveryOptions.Some?
      && (!x.deliveryOptions.Present? ==> r.0.record.deliveryOptions == Some([MEETUP]))
      && (x.deliveryOptions.Present? ==>
            && |r.0.record.deliveryOptions.value| == |x.deliveryOptions.value|
            && forall k :: 0 <= k < |x.deliveryOptions.value| ==>
                 DeliveryName(r.0.record.deliveryOptions.value[k]) == x.deliveryOptions.value[k])
      && r.0.record.images == Images(ParseListing(x, isUrl).data)
      && (x.imageUrls.Absent? && !x.imageUrl.Present? ==> r.0.record.images == [])
  {
    match ParseListing(x, isUrl)
    case Invalid(issues) => (Rejected(issues), db)
    case Valid(d) =>
      var delivery := if d.deliveryOptions.Some? then d.deliveryOptions.value else [MEETUP];
      var l := StoredListing(newId, userId, d, Some(delivery), Images(d), now);
      (Created(l), db.(listings := db.listings + [l]))
  }
}
