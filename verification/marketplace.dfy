/** The marketplace page: the filtered, paginated listing grid, the
    trending strip, and the sections cut from the current page. Search
    parameters arrive as `Option<string>` (None when absent); the price
    bounds arrive as `Number()` of the parameter, which is NaN when it is
    absent. */
module Marketplace {
  import opened Common
  import opened Store

  /** Listings per page. */
  const PerPage: nat := 20
  /** Sizes of the trending strip and of the two short sections. */
  const TrendingSize: nat := 8
  const SectionSize: nat := 6
  const DefaultCampus: string := "Main Campus"

  /** The status names `formatStatus` knows. */
  predicate KnownStatus(s: string)
  {
    s == "AVAILABLE" || s == "RESERVED" || s == "SOLD"
  }

  /** `formatStatus`: a known status name is shown in title case; anything
      else is shown as given. */
  function FormatStatus(s: string): (r: string)
    ensures r == s <==> !KnownStatus(s)
  {
    if s == "AVAILABLE" then "Available"
    else if s == "RESERVED" then "Reserved"
    else if s == "SOLD" then "Sold"
    else s
  }

  /** A known status is shown with its first letter kept and the rest in
      lower case. */
  lemma FormatStatusIsTitleCase(s: string)
    requires KnownStatus(s)
    ensures var r := FormatStatus(s);
            |r| == |s| && r[0] == s[0] && r[1..] == Lower(s[1..])
  {
    TitleCaseOf(s, FormatStatus(s));
  }

  /** `r` is `s` with every letter after the first in lower case. */
  lemma TitleCaseOf(s: string, r: string)
    requires |s| == |r| && |s| > 0 && r[0] == s[0]
    requires forall i :: 1 <= i < |s| ==> r[i] == LowerChar(s[i])
    ensures r[1..] == Lower(s[1..])
  {
    assert forall i :: 0 <= i < |s| - 1 ==> r[1..][i] == Lower(s[1..])[i];
  }

  // ---------------------------------------------------------------------
  // Pagination

  /** `Math.max(1, Number(page) || 1)` for an integer page parameter; None
      stands for a missing or non-numeric one. */
  function PageNumber(p: Option<int>): (n: int)
    ensures n >= 1
    ensures p.Some? && p.value >= 1 ==> n == p.value
    ensures !(p.Some? && p.value >= 1) ==> n == 1
  {
    var v := if p.None? || p.value == 0 then 1 else p.value;
    if v < 1 then 1 else v
  }

  /** `Math.ceil(totalCount / perPage)`. */
  function TotalPages(count: nat): (t: nat)
    ensures (t as int - 1) * PerPage < count <= t * PerPage || (count == 0 && t == 0)
  {
    (count + PerPage - 1) / PerPage
  }

  /** The listings of page `page` (`skip` and `take`). */
  function PageOf<T>(s: seq<T>, page: int): (r: seq<T>)
    requires page >= 1
    ensures |r| <= PerPage
    ensures r == [] || (page - 1) * PerPage + |r| <= |s|
    ensures forall i :: 0 <= i < |r| ==> r[i] == s[(page - 1) * PerPage + i]
    ensures forall x :: x in r ==> x in s
  {
    var r := Take(Drop(s, (page - 1) * PerPage), PerPage);
    forall x | x in r ensures x in s {
      var i :| 0 <= i < |r| && r[i] == x;
      assert x == s[(page - 1) * PerPage + i];
    }
    r
  }

  /** Each result appears on exactly the page its position says, and that
      page is within the page count. */
  lemma OnItsPage<T>(s: seq<T>, i: nat)
    requires i < |s|
    ensures 1 <= i / PerPage + 1 <= TotalPages(|s|)
    ensures |PageOf(s, i / PerPage + 1)| > i % PerPage
    ensures PageOf(s, i / PerPage + 1)[i % PerPage] == s[i]
  {
    var page := i / PerPage + 1;
    assert (page - 1) * PerPage + i % PerPage == i;
    var d := Drop(s, (page - 1) * PerPage);
    assert |d| > i % PerPage;
  }

  /** The pagination bar: shown when there is more than one page, with
      Previous after the first page and Next before the last. */
  datatype Nav = Nav(shown: bool, previous: bool, next: bool)

  function Pagination(page: int, totalPages: nat): (n: Nav)
    ensures n.shown <==> totalPages > 1
    ensures n.previous <==> totalPages > 1 && page > 1
    ensures n.next <==> totalPages > 1 && page < totalPages
  {
    if totalPages > 1 then Nav(true, page > 1, page < totalPages) else Nav(false, false, false)
  }

  // ---------------------------------------------------------------------
  // The where clause

  /** What the `type` parameter asks for. */
  datatype Kind = AnyKind | FreeOnly | HousingOnly | OfType(t: TxType)

  datatype Where = Where(query: string, category: string, campus: string, kind: Kind,
                         min: Option<int>, max: Option<int>,
                         furnished: Option<bool>, petsAllowed: bool)

  function Bound(x: Parsed): (b: Option<int>)
    ensures b.Some? <==> x.Finite?
  {
    if x.Finite? then Some(RoundCents(x.value)) else None
  }

  /** A trimmed optional parameter. */
  function Trimmed(v: Option<string>): (r: Option<string>)
    ensures r.Some? <==> v.Some?
  {
    if v.Some? then Some(Trim(v.value)) else None
  }

  /** Builds the where clause. A `type` (default "all") other than "all",
      "FREE", "HOUSING", "TRENDING", "SELL" or "RENT" makes the database
      reject the query (None); the furnished and pets filters apply only to
      HOUSING. */
  function ReadWhere(q: Option<string>, category: Option<string>, campus: Option<string>, tpe: Option<string>,
                     min: Parsed, max: Parsed, furnished: Option<string>, pets: Option<string>): (w: Option<Where>)
    ensures var t := if tpe.Some? then Trim(tpe.value) else "all";
            w.None? <==> t !in {"all", "FREE", "HOUSING", "TRENDING", "SELL", "RENT"}
    ensures w.Some? ==> var t := if tpe.Some? then Trim(tpe.value) else "all";
      && (w.value.kind == FreeOnly <==> t == "FREE")
      && (w.value.kind == HousingOnly <==> t == "HOUSING")
      && (w.value.kind == AnyKind <==> t == "all" || t == "TRENDING")
      && (w.value.kind == OfType(SELL) <==> t == "SELL")
      && (w.value.kind == OfType(RENT) <==> t == "RENT")
      && w.value.query == (if q.Some? then Trim(q.value) else "")
      && w.value.category == (if category.Some? then Trim(category.value) else "")
      && w.value.campus == (if campus.Some? then Trim(campus.value) else "")
      && (w.value.furnished == Some(true) <==> t == "HOUSING" && furnished == Some("yes"))
      && (w.value.furnished == Some(false) <==> t == "HOUSING" && furnished == Some("no"))
      && (w.value.petsAllowed <==> t == "HOUSING" && pets == Some("yes"))
      && (t != "HOUSING" ==> w.value.furnished.None? && !w.value.petsAllowed)
      && (w.value.min.Some? <==> min.Finite?) && (w.value.max.Some? <==> max.Finite?)
      && (min.Finite? ==> w.value.min == Some(RoundCents(min.value)))
      && (max.Finite? ==> w.value.max == Some(RoundCents(max.value)))
  {
    var t := if tpe.Some? then Trim(tpe.value) else "all";
    if t !in {"all", "FREE", "HOUSING", "TRENDING", "SELL", "RENT"} then None
    else
      var kind := if t == "FREE" then FreeOnly
                  else if t == "HOUSING" then HousingOnly
                  else if t == "SELL" then OfType(SELL)
                  else if t == "RENT" then OfType(RENT)
                  else AnyKind;
      var housing := t == "HOUSING";
      var furnishedWanted :=
        if housing && furnished == Some("yes") then Some(true)
        else if housing && furnished == Some("no") then Some(false)
        else None;
      Some(Where(OrEmpty(Trimmed(q)), OrEmpty(Trimmed(category)), OrEmpty(Trimmed(campus)), kind,
                 Bound(min), Bound(max), furnishedWanted, housing && pets == Some("yes")))
  }

  /** The listing satisfies every part of the where clause. */
  predicate Satisfies(l: Listing, w: Where)
  {
    && (w.query != "" ==> ContainsInsensitive(l.title, w.query) || ContainsInsensitive(l.description, w.query))
    && (Narrows(w.category) ==> l.category == w.category)
    && (Narrows(w.campus) ==> l.campus == w.campus)
    && (w.kind == FreeOnly ==> l.priceCents == 0)
    && (w.kind == HousingOnly ==> l.category == "Housing")
    && (w.kind.OfType? ==> l.transactionType == w.kind.t)
    && (w.min.Some? ==> l.priceCents >= w.min.value)
    && (w.max.Some? ==> l.priceCents <= w.max.value)
    && (w.furnished.Some? ==> l.furnished == w.furnished)
    && (w.petsAllowed ==> l.petsAllowed == Some(true))
  }

  function WhereFilter(w: Where): Listing -> bool
  {
    (l: Listing) => Satisfies(l, w)
  }

  /** The furnished and pets parameters change nothing unless the type is
      HOUSING. */
  lemma HousingFiltersOnlyForHousing(q: Option<string>, category: Option<string>, campus: Option<string>,
                                     tpe: Option<string>, min: Parsed, max: Parsed,
                                     furnished: Option<string>, pets: Option<string>)
    requires tpe.None? || Trim(tpe.value) != "HOUSING"
    ensures ReadWhere(q, category, campus, tpe, min, max, furnished, pets)
            == ReadWhere(q, category, campus, tpe, min, max, None, None)
  {
  }

  /** Under type FREE every counted listing is free, and under HOUSING
      every one is in the Housing category. */
  lemma KindConstrains(l: Listing, w: Where)
    requires Satisfies(l, w)
    ensures w.kind == FreeOnly ==> l.priceCents == 0
    ensures w.kind == HousingOnly ==> l.category == "Housing"
  {
  }

  // ---------------------------------------------------------------------
  // The grid, trending and sections

  function Views(l: Listing): int { l.viewCount }

  /** All listings matching the where clause, newest first. */
  function Matching(db: Db, w: Where): (r: seq<Listing>)
    ensures forall l :: l in r <==> l in db.listings && Satisfies(l, w)
    ensures |r| == Count(db.listings, WhereFilter(w))
    ensures SortedDesc(r, ListingTime)
  {
    SortDesc(Filter(db.listings, WhereFilter(w)), ListingTime)
  }

  /** The grid of one page, with the total count and page count. */
  datatype Grid = Grid(page: int, listings: seq<Listing>, totalCount: nat, totalPages: nat)

  function Browse(db: Db, w: Where, p: Option<int>): (g: Grid)
    ensures g.page == PageNumber(p) && g.page >= 1
    ensures |g.listings| <= PerPage
    ensures forall l :: l in g.listings ==> l in db.listings && Satisfies(l, w)
    ensures forall i, j :: 0 <= i < j < |g.listings| ==> g.listings[i].createdAt >= g.listings[j].createdAt
    ensures g.totalCount == Count(db.listings, WhereFilter(w))
    ensures g.page > g.totalPages ==> g.listings == []
    ensures g.totalPages == TotalPages(g.totalCount)
    ensures g.listings == PageOf(Matching(db, w), g.page)
  {
    var all := Matching(db, w);
    var page := PageNumber(p);
    var shown := PageOf(all, page);
    assert SortedDesc(all, ListingTime);
    Grid(page, shown, |all|, TotalPages(|all|))
  }

  predicate Available(l: Listing)
  {
    l.status == AVAILABLE
  }

  /** The trending strip: at most eight AVAILABLE listings, most viewed
      first. An AVAILABLE listing is left out only when eight others are
      shown, none with fewer views than it. */
  function Trending(db: Db): (r: seq<Listing>)
    ensures |r| <= TrendingSize
    ensures forall l :: l in r ==> l in db.listings && l.status == AVAILABLE
    ensures forall i, j :: 0 <= i < j < |r| ==> r[i].viewCount >= r[j].viewCount
    ensures forall l :: l in db.listings && l.status == AVAILABLE && l !in r ==>
      |r| == TrendingSize && l.viewCount <= r[TrendingSize - 1].viewCount
  {
    var r := TopBy(db.listings, Available, Views, TrendingSize);
    assert SortedDesc(r, Views);
    r
  }

  /** `campus ?? user?.campus ?? campusOptions[0] ?? "Main Campus"`, where
      the campus options are the listings' campuses in sorted order. An
      empty campus parameter is not nullish and is kept. */
  function PrimaryCampus(campus: Option<string>, user: Option<User>, campuses: seq<string>): (c: string)
    ensures campus.Some? ==> c == Trim(campus.value)
    ensures campus.None? && user.Some? && user.value.campus.Some? ==> c == user.value.campus.value
    ensures campus.None? && (user.None? || user.value.campus.None?) && |campuses| > 0 ==>
      c in campuses && forall x :: x in campuses ==> LexLeq(c, x)
    ensures campus.None? && (user.None? || user.value.campus.None?) && |campuses| == 0 ==> c == DefaultCampus
  {
    if campus.Some? then Trim(campus.value)
    else if user.Some? && user.value.campus.Some? then user.value.campus.value
    else
      match LexMin(campuses)
      case Some(first) => first
      case None => DefaultCampus
  }

  function CampusesOf(listings: seq<Listing>): (r: seq<string>)
    ensures |r| == |listings|
    ensures forall i :: 0 <= i < |r| ==> r[i] == listings[i].campus
  {
    if |listings| == 0 then [] else [listings[0].campus] + CampusesOf(listings[1..])
  }

  /** The sections cut from the current page. */
  datatype Sections = Sections(buySell: seq<Listing>, rentals: seq<Listing>, free: seq<Listing>,
                               todayPicks: seq<Listing>, nearYou: seq<Listing>)

  /** Buy & Sell: for sale and not free. */
  predicate OnSale(l: Listing) { l.transactionType == SELL && l.priceCents > 0 }
  predicate ForRent(l: Listing) { l.transactionType == RENT }
  predicate IsFree(l: Listing) { l.priceCents == 0 }

  function OnCampus(campus: string): Listing -> bool
  {
    (l: Listing) => l.campus == campus
  }

  /** Each section keeps the page's order; Near You holds the first six
      listings of the page on the primary campus. */
  function Sectioned(page: seq<Listing>, primaryCampus: string): (s: Sections)
    ensures s.buySell == Filter(page, OnSale) && s.rentals == Filter(page, ForRent) && s.free == Filter(page, IsFree)
    ensures forall l :: l in s.buySell <==> l in page && l.transactionType == SELL && l.priceCents > 0
    ensures forall l :: l in s.rentals <==> l in page && l.transactionType == RENT
    ensures forall l :: l in s.free <==> l in page && l.priceCents == 0
    ensures |s.todayPicks| <= SectionSize && |s.todayPicks| <= |page| && s.todayPicks == page[..|s.todayPicks|]
    ensures |s.todayPicks| == SectionSize || s.todayPicks == page
    ensures s.nearYou == Take(Filter(page, OnCampus(primaryCampus)), SectionSize)
    ensures |s.nearYou| <= SectionSize
    ensures forall l :: l in s.nearYou ==> l in page && l.campus == primaryCampus
    ensures forall l :: l in page && l.campus == primaryCampus && l !in s.nearYou ==> |s.nearYou| == SectionSize
  {
    var near := Filter(page, OnCampus(primaryCampus));
    var nearYou := Take(near, SectionSize);
    TakeOfFilter(page, OnCampus(primaryCampus), SectionSize);
    Sections(
      Filter(page, OnSale),
      Filter(page, ForRent),
      Filter(page, IsFree),
      Take(page, SectionSize),
      nearYou)
  }

  /** Buy & Sell and Free never share a listing. */
  lemma BuySellAndFreeDisjoint(page: seq<Listing>, primaryCampus: string, l: Listing)
    ensures !(l in Sectioned(page, primaryCampus).buySell && l in Sectioned(page, primaryCampus).free)
  {
  }

  /** How many trending listings the "all" overview shows. */
  const StripSize: nat := 4

  /** The `type` parameter as the page reads it: trimmed, "all" when absent. */
  function TypeText(tpe: Option<string>): string
  {
    if tpe.Some? then Trim(tpe.value) else "all"
  }

  /** The heading of the single grid shown for a narrowing type. */
  function GridHeading(t: string): string
  {
    if t == "SELL" then "Buy & Sell" else if t == "RENT" then "Rentals" else if t == "FREE" then "Free Stuff" else "Housing"
  }

  /** What the page body shows: under "all" the overview (a strip of the
      most viewed listings, then the sections, Free Stuff only when it has
      listings); under TRENDING the whole trending list; under any other
      type one headed grid of the current page. */
  datatype Display =
    | Overview(strip: seq<Listing>, sections: Sections, showFree: bool)
    | TrendingOnly(trending: seq<Listing>)
    | GridOnly(heading: string, listings: seq<Listing>)

  function Displayed(t: string, grid: Grid, trending: seq<Listing>, sections: Sections): (d: Display)
    ensures d.Overview? <==> t == "all"
    ensures d.TrendingOnly? <==> t == "TRENDING"
    ensures d.Overview? ==>
      && |d.strip| == (if |trending| < StripSize then |trending| else StripSize)
      && d.strip == trending[..|d.strip|]
      && d.sections == sections
      && (d.showFree <==> |sections.free| > 0)
    ensures d.TrendingOnly? ==> d.trending == trending
    ensures d.GridOnly? ==> d.listings == grid.listings
    ensures d.GridOnly? ==> (d.heading == "Buy & Sell" <==> t == "SELL") && (d.heading == "Rentals" <==> t == "RENT")
                            && (d.heading == "Free Stuff" <==> t == "FREE")
  {
    if t == "all" then
      var strip := Take(trending, StripSize);
      assert strip == trending[..|strip|];
      Overview(strip, sections, |sections.free| > 0)
    else if t == "TRENDING" then TrendingOnly(trending)
    else GridOnly(GridHeading(t), grid.listings)
  }

  /** The whole page: None when the database rejects the where clause.
      Every part is computed for every type; `display` is what is shown. */
  datatype View = View(grid: Grid, trending: seq<Listing>, sections: Sections, primaryCampus: string, nav: Nav,
                       display: Display)

  function MarketplacePage(db: Db, userId: string, q: Option<string>, category: Option<string>,
                           campus: Option<string>, tpe: Option<string>, min: Parsed, max: Parsed,
                           furnished: Option<string>, pets: Option<string>, page: Option<int>): (v: Option<View>)
    ensures v.None? <==> ReadWhere(q, category, campus, tpe, min, max, furnished, pets).None?
    ensures v.Some? ==>
      && v.value.grid == Browse(db, ReadWhere(q, category, campus, tpe, min, max, furnished, pets).value, page)
      && v.value.trending == Trending(db)
      && v.value.primaryCampus == PrimaryCampus(campus, FindUser(db.users, userId), CampusesOf(db.listings))
      && v.value.sections == Sectioned(v.value.grid.listings, v.value.primaryCampus)
      && v.value.nav == Pagination(v.value.grid.page, v.value.grid.totalPages)
    ensures v.Some? ==> v.value.display == Displayed(TypeText(tpe), v.value.grid, v.value.trending, v.value.sections)
  {
    match ReadWhere(q, category, campus, tpe, min, max, furnished, pets)
    case None => None
    case Some(w) =>
      var grid := Browse(db, w, page);
      var primary := PrimaryCampus(campus, FindUser(db.users, userId), CampusesOf(db.listings));
      var sections := Sectioned(grid.listings, primary);
      Some(View(grid, Trending(db), sections, primary, Pagination(grid.page, grid.totalPages),
                Displayed(TypeText(tpe), grid, Trending(db), sections)))
  }

  /** A single grid is shown exactly when the type narrows the where clause;
      under "all" and TRENDING the grid is unfiltered by kind and not shown. */
  lemma GridShownIffNarrowed(q: Option<string>, category: Option<string>, campus: Option<string>, tpe: Option<string>,
                             min: Parsed, max: Parsed, furnished: Option<string>, pets: Option<string>,
                             grid: Grid, trending: seq<Listing>, sections: Sections)
    requires ReadWhere(q, category, campus, tpe, min, max, furnished, pets).Some?
    ensures Displayed(TypeText(tpe), grid, trending, sections).GridOnly?
            <==> ReadWhere(q, category, campus, tpe, min, max, furnished, pets).value.kind != AnyKind
  {
  }
}
