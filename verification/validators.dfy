/** The zod request schemas, as issue-producing checks. Each schema yields
    the list of issues zod would report, in field order; the body is
    accepted exactly when that list is empty, and a declarative predicate
    per schema says what acceptance means. URL syntax is the opaque
    predicate `isUrl`. */
module Validators {
  import opened Common
  import opened Store

  /** Whether a field may be missing (`.optional()`) or null (`.nullable()`). */
  datatype Presence = Req | Opt | OptNull

  datatype IssueKind =
    | Required          // a required field is missing
    | InvalidType       // null where not allowed, NaN, or another JSON type
    | TooShort(minLength: nat) // fewer than `min` characters or items
    | NotInteger
    | TooSmall(minimum: int) // below the inclusive minimum
    | TooBig(maximum: int)   // above the inclusive maximum
    | NotPositive
    | InvalidEnum
    | InvalidUrl

  /** One issue: the field it concerns, the array position when the field
      is an array, and what is wrong. */
  datatype Issue = Issue(field: string, index: Option<nat>, kind: IssueKind)

  /** A parse: the validated data or the (non-empty) issue list. */
  datatype Outcome<T> = Valid(data: T) | Invalid(issues: seq<Issue>)

  predicate IsInt(x: real)
  {
    x.Floor as real == x
  }

  /** The field's presence part passes: missing only when optional, null
      only when nullable, never of the wrong type. */
  predicate Admits<T>(f: Field<T>, mode: Presence)
  {
    match f
    case Absent => mode != Req
    case Null => mode == OptNull
    case WrongType => false
    case Present(_) => true
  }

  /** The issues of a field that is not present. */
  function Gate<T>(field: string, f: Field<T>, mode: Presence): (r: seq<Issue>)
    requires !f.Present?
    ensures r == [] <==> Admits(f, mode)
    ensures forall i :: 0 <= i < |r| ==> r[i].field == field
  {
    match f
    case Absent => if mode == Req then [Issue(field, None, Required)] else []
    case Null => if mode == OptNull then [] else [Issue(field, None, InvalidType)]
    case WrongType => [Issue(field, None, InvalidType)]
  }

  /** `z.string().min(min)` with the given presence. */
  function StringIssues(field: string, f: Field<string>, min: nat, mode: Presence): (r: seq<Issue>)
    ensures r == [] <==> Admits(f, mode) && (f.Present? ==> Utf16Length(f.value) >= min)
    ensures forall i :: 0 <= i < |r| ==> r[i].field == field
  {
    if !f.Present? then Gate(field, f, mode)
    else if Utf16Length(f.value) < min then [Issue(field, None, TooShort(min))]
    else []
  }

  /** The checks of `z.number().int()` with optional inclusive bounds and
      an optional positivity check; zod runs every check and reports each
      failure. */
  function IntIssues(field: string, x: real, lo: Option<int>, hi: Option<int>, positive: bool): (r: seq<Issue>)
    ensures r == [] <==> IntWithin(x, lo, hi, positive)
    ensures forall i :: 0 <= i < |r| ==> r[i].field == field
  {
    (if IsInt(x) then [] else [Issue(field, None, NotInteger)])
    + (if positive && !(x > 0.0) then [Issue(field, None, NotPositive)] else [])
    + (if lo.Some? && x < lo.value as real then [Issue(field, None, TooSmall(lo.value))] else [])
    + (if hi.Some? && x > hi.value as real then [Issue(field, None, TooBig(hi.value))] else [])
  }

  /** An integer with its bounds in range. */
  predicate IntWithin(x: real, lo: Option<int>, hi: Option<int>, positive: bool)
  {
    IsInt(x) && (lo.Some? ==> x >= lo.value as real) && (hi.Some? ==> x <= hi.value as real) && (positive ==> x > 0.0)
  }

  function NumberIssues(field: string, f: Field<real>, lo: Option<int>, hi: Option<int>, positive: bool, mode: Presence): (r: seq<Issue>)
    ensures r == [] <==> Admits(f, mode) && (f.Present? ==> IntWithin(f.value, lo, hi, positive))
    ensures forall i :: 0 <= i < |r| ==> r[i].field == field
  {
    if !f.Present? then Gate(field, f, mode) else IntIssues(field, f.value, lo, hi, positive)
  }

  /** `z.enum(allowed)` with the given presence. */
  function EnumIssues(field: string, f: Field<string>, allowed: set<string>, mode: Presence): (r: seq<Issue>)
    ensures r == [] <==> Admits(f, mode) && (f.Present? ==> f.value in allowed)
    ensures forall i :: 0 <= i < |r| ==> r[i].field == field
  {
    if !f.Present? then Gate(field, f, mode)
    else if f.value in allowed then []
    else [Issue(field, None, InvalidEnum)]
  }

  /** A field that only has to be of its type (`z.boolean()`, `z.string()`). */
  function TypeIssues<T>(field: string, f: Field<T>, mode: Presence): (r: seq<Issue>)
    ensures r == [] <==> Admits(f, mode)
    ensures forall i :: 0 <= i < |r| ==> r[i].field == field
  {
    if !f.Present? then Gate(field, f, mode) else []
  }

  /** `z.string().url()` with the given presence. */
  function UrlIssues(field: string, f: Field<string>, isUrl: string -> bool, mode: Presence): (r: seq<Issue>)
    ensures r == [] <==> Admits(f, mode) && (f.Present? ==> isUrl(f.value))
    ensures forall i :: 0 <= i < |r| ==> r[i].field == field
  {
    if !f.Present? then Gate(field, f, mode)
    else if isUrl(f.value) then []
    else [Issue(field, None, InvalidUrl)]
  }

  /** One issue per array element, starting at position `from`, that fails
      membership in `allowed` (an enum element schema) or, when `allowed`
      is None, fails `isUrl`. */
  function ElementIssues(field: string, xs: seq<string>, from: nat, allowed: Option<set<string>>, isUrl: string -> bool): (r: seq<Issue>)
    ensures r == [] <==> forall k :: 0 <= k < |xs| ==> ElementOk(xs[k], allowed, isUrl)
    ensures forall i :: 0 <= i < |r| ==> r[i].field == field && r[i].index.Some? && from <= r[i].index.value < from + |xs|
    decreases |xs|
  {
    if |xs| == 0 then []
    else
      var rest := ElementIssues(field, xs[1..], from + 1, allowed, isUrl);
      ElementsOkSplit(xs, allowed, isUrl);
      (if ElementOk(xs[0], allowed, isUrl) then []
       else [Issue(field, Some(from), if allowed.Some? then InvalidEnum else InvalidUrl)])
      + rest
  }

  /** Every element is fine iff the first one is and all the rest are. */
  lemma ElementsOkSplit(xs: seq<string>, allowed: Option<set<string>>, isUrl: string -> bool)
    requires |xs| > 0
    ensures (forall k :: 0 <= k < |xs| ==> ElementOk(xs[k], allowed, isUrl))
      <==> ElementOk(xs[0], allowed, isUrl) && forall k :: 0 <= k < |xs[1..]| ==> ElementOk(xs[1..][k], allowed, isUrl)
  {
    if forall k :: 0 <= k < |xs[1..]| ==> ElementOk(xs[1..][k], allowed, isUrl) {
      forall k | 1 <= k < |xs| ensures ElementOk(xs[k], allowed, isUrl) {
        assert xs[k] == xs[1..][k - 1];
      }
    }
  }

  predicate ElementOk(x: string, allowed: Option<set<string>>, isUrl: string -> bool)
  {
    if allowed.Some? then x in allowed.value else isUrl(x)
  }

  predicate ArrayOk(xs: seq<string>, minItems: nat, allowed: Option<set<string>>, isUrl: string -> bool)
  {
    |xs| >= minItems && forall k :: 0 <= k < |xs| ==> ElementOk(xs[k], allowed, isUrl)
  }

  /** `z.array(element).min(minItems)` with the given presence: the length
      issue first, then one issue per failing element. */
  function ArrayIssues(field: string, f: Field<seq<string>>, minItems: nat, allowed: Option<set<string>>, isUrl: string -> bool, mode: Presence): (r: seq<Issue>)
    ensures r == [] <==> Admits(f, mode) && (f.Present? ==> ArrayOk(f.value, minItems, allowed, isUrl))
    ensures forall i :: 0 <= i < |r| ==> r[i].field == field
  {
    if !f.Present? then Gate(field, f, mode)
    else
      (if |f.value| < minItems then [Issue(field, None, TooShort(minItems))] else [])
      + ElementIssues(field, f.value, 0, allowed, isUrl)
  }

  // ---------------------------------------------------------------------
  // listingSchema

  const TransactionTypes: set<string> := {"SELL", "RENT"}
  const DeliveryNames: set<string> := {"MEETUP", "DELIVERY", "PICKUP"}

  datatype ListingInput = ListingInput(
    title: Field<string>,
    description: Field<string>,
    priceCents: Field<real>,
    category: Field<string>,
    condition: Field<string>,
    campus: Field<string>,
    transactionType: Field<string>,
    rentalPeriodDays: Field<real>,
    flairs: Field<seq<string>>,
    deliveryOptions: Field<seq<string>>,
    imageUrl: Field<string>,
    imageUrls: Field<seq<string>>,
    moveInDate: Field<string>,
    moveOutDate: Field<string>,
    furnished: Field<bool>,
    roommates: Field<real>,
    petsAllowed: Field<bool>)

  /** What listingSchema accepts, field by field. */
  ghost predicate ListingAccepted(x: ListingInput, isUrl: string -> bool)
  {
    && x.title.Present? && Utf16Length(x.title.value) >= 4
    && x.description.Present? && Utf16Length(x.description.value) >= 10
    && x.priceCents.Present? && IsInt(x.priceCents.value) && x.priceCents.value >= 0.0
    && x.category.Present? && Utf16Length(x.category.value) >= 2
    && x.condition.Present? && Utf16Length(x.condition.value) >= 2
    && x.campus.Present? && Utf16Length(x.campus.value) >= 2
    && x.transactionType.Present? && x.transactionType.value in {"SELL", "RENT"}
    && (x.rentalPeriodDays.Absent? || x.rentalPeriodDays.Null?
        || (x.rentalPeriodDays.Present? && IsInt(x.rentalPeriodDays.value) && x.rentalPeriodDays.value > 0.0))
    && (x.flairs.Absent? || x.flairs.Present?)
    && (x.deliveryOptions.Absent?
        || (x.deliveryOptions.Present? && forall k :: 0 <= k < |x.deliveryOptions.value| ==>
              x.deliveryOptions.value[k] in {"MEETUP", "DELIVERY", "PICKUP"}))
    && (x.imageUrl.Absent? || x.imageUrl.Null? || (x.imageUrl.Present? && isUrl(x.imageUrl.value)))
    && (x.imageUrls.Absent?
        || (x.imageUrls.Present? && forall k :: 0 <= k < |x.imageUrls.value| ==> isUrl(x.imageUrls.value[k])))
    && !x.moveInDate.WrongType? && !x.moveOutDate.WrongType? && !x.furnished.WrongType?
    && (x.roommates.Absent? || x.roommates.Null?
        || (x.roommates.Present? && IsInt(x.roommates.value) && x.roommates.value >= 0.0))
    && !x.petsAllowed.WrongType?
  }

  function ListingIssues(x: ListingInput, isUrl: string -> bool): (r: seq<Issue>)
    ensures r == [] <==> ListingAccepted(x, isUrl)
  {
    StringIssues("title", x.title, 4, Req)
    + StringIssues("description", x.description, 10, Req)
    + NumberIssues("priceCents", x.priceCents, Some(0), None, false, Req)
    + StringIssues("category", x.category, 2, Req)
    + StringIssues("condition", x.condition, 2, Req)
    + StringIssues("campus", x.campus, 2, Req)
    + EnumIssues("transactionType", x.transactionType, TransactionTypes, Req)
    + NumberIssues("rentalPeriodDays", x.rentalPeriodDays, None, None, true, OptNull)
    + TypeIssues("flairs", x.flairs, Opt)
    + ArrayIssues("deliveryOptions", x.deliveryOptions, 0, Some(DeliveryNames), isUrl, Opt)
    + UrlIssues("imageUrl", x.imageUrl, isUrl, OptNull)
    + ArrayIssues("imageUrls", x.imageUrls, 0, None, isUrl, Opt)
    + TypeIssues("moveInDate", x.moveInDate, OptNull)
    + TypeIssues("moveOutDate", x.moveOutDate, OptNull)
    + TypeIssues("furnished", x.furnished, OptNull)
    + NumberIssues("roommates", x.roommates, Some(0), None, false, OptNull)
    + TypeIssues("petsAllowed", x.petsAllowed, OptNull)
  }

  /** The fields of a parsed listing that the routes store. Optional fields
      that were missing or null are None. */
  datatype ListingData = ListingData(
    title: string,
    description: string,
    priceCents: int,
    category: string,
    condition: string,
    campus: string,
    transactionType: TxType,
    rentalPeriodDays: Option<int>,
    deliveryOptions: Option<seq<Delivery>>,
    imageUrl: Option<string>,
    imageUrls: Option<seq<string>>)

  /** The enum name of a delivery option. */
  function DeliveryName(d: Delivery): string
  {
    match d
    case MEETUP => "MEETUP"
    case DELIVERY => "DELIVERY"
    case PICKUP => "PICKUP"
  }

  function DeliveryOf(name: string): (d: Delivery)
    requires name in DeliveryNames
    ensures name == "MEETUP" <==> d == MEETUP
    ensures name == "DELIVERY" <==> d == DELIVERY
    ensures name == "PICKUP" <==> d == PICKUP
    ensures DeliveryName(d) == name
  {
    if name == "MEETUP" then MEETUP else if name == "DELIVERY" then DELIVERY else PICKUP
  }

  function DeliveriesOf(names: seq<string>): (ds: seq<Delivery>)
    requires forall k :: 0 <= k < |names| ==> names[k] in DeliveryNames
    ensures |ds| == |names|
    ensures forall k :: 0 <= k < |ds| ==> ds[k] == DeliveryOf(names[k])
  {
    if |names| == 0 then [] else [DeliveryOf(names[0])] + DeliveriesOf(names[1..])
  }

  function PresentOrNone<T>(f: Field<T>): (r: Option<T>)
    ensures r.Some? <==> f.Present?
    ensures r.Some? ==> r.value == f.value
  {
    if f.Present? then Some(f.value) else None
  }

  /** `listingSchema.safeParse`. */
  function ParseListing(x: ListingInput, isUrl: string -> bool): (r: Outcome<ListingData>)
    ensures r.Valid? <==> ListingAccepted(x, isUrl)
    ensures r.Invalid? ==> r.issues != [] && r.issues == ListingIssues(x, isUrl)
    ensures r.Valid? ==>
      && r.data.title == x.title.value && r.data.description == x.description.value
      && r.data.priceCents as real == x.priceCents.value && r.data.priceCents >= 0
      && r.data.category == x.category.value && r.data.condition == x.condition.value
      && r.data.campus == x.campus.value
      && (r.data.transactionType == SELL <==> x.transactionType.value == "SELL")
      && (r.data.rentalPeriodDays.Some? <==> x.rentalPeriodDays.Present?)
      && (r.data.rentalPeriodDays.Some? ==>
            (r.data.rentalPeriodDays.value >= 1 && r.data.rentalPeriodDays.value as real == x.rentalPeriodDays.value))
      && (r.data.imageUrl.Some? <==> x.imageUrl.Present?)
      && (r.data.imageUrl.Some? ==> r.data.imageUrl.value == x.imageUrl.value)
      && r.data.imageUrls == PresentOrNone(x.imageUrls)
      && (r.data.deliveryOptions.Some? <==> x.deliveryOptions.Present?)
      && (r.data.deliveryOptions.Some? ==>
            && |r.data.deliveryOptions.value| == |x.deliveryOptions.value|
            && forall k :: 0 <= k < |x.deliveryOptions.value| ==>
                 DeliveryName(r.data.deliveryOptions.value[k]) == x.deliveryOptions.value[k])
  {
    var issues := ListingIssues(x, isUrl);
    if issues != [] then Invalid(issues)
    else
      Valid(ListingData(
        x.title.value, x.description.value, x.priceCents.value.Floor,
        x.category.value, x.condition.value, x.campus.value,
        if x.transactionType.value == "SELL" then SELL else RENT,
        if x.rentalPeriodDays.Present? then Some(x.rentalPeriodDays.value.Floor) else None,
        if x.deliveryOptions.Present? then Some(DeliveriesOf(x.deliveryOptions.value)) else None,
        PresentOrNone(x.imageUrl),
        PresentOrNone(x.imageUrls)))
  }

  /** The row a parsed listing becomes: owned by `userId`, AVAILABLE, not
      in a bundle, with no views yet and no housing details. */
  function StoredListing(id: string, userId: string, d: ListingData, deliveryOptions: Option<seq<Delivery>>,
                         images: seq<string>, now: int): Listing
  {
    Listing(id, userId, d.title, d.description, d.priceCents, d.category, d.condition, d.campus,
            d.transactionType, AVAILABLE, d.rentalPeriodDays, deliveryOptions, images, None, 0,
            None, None, now)
  }

  /** The price rule on its own: a body is accepted with price `p` iff it
      is accepted as a free listing and `p` is a whole, non-negative number
      of cents. */
  lemma FreeListingPrice(x: ListingInput, p: real, isUrl: string -> bool)
    ensures ListingAccepted(x.(priceCents := Present(p)), isUrl)
        <==> ListingAccepted(x.(priceCents := Present(0.0)), isUrl) && p >= 0.0 && p.Floor as real == p
  {
  }

  // ---------------------------------------------------------------------
  // messageSchema

  /** `messageSchema`: the body must be non-empty. */
  function MessageIssues(body: Field<string>): (r: seq<Issue>)
    ensures r == [] <==> body.Present? && body.value != ""
  {
    StringIssues("body", body, 1, Req)
  }

  // ---------------------------------------------------------------------
  // reviewSchema and mutualReviewSchema

  datatype ReviewInput = ReviewInput(rating: Field<real>, comment: Field<string>, listingId: Field<string>, sellerId: Field<string>)

  datatype MutualReviewInput = MutualReviewInput(rating: Field<real>, comment: Field<string>, transactionId: Field<string>)

  /** A rating is an integer from 1 to 5. */
  ghost predicate RatingOk(f: Field<real>)
  {
    f.Present? && IsInt(f.value) && 1.0 <= f.value <= 5.0
  }

  /** An optional comment is missing, null, or at least `min` long. */
  ghost predicate OptionalTextOk(f: Field<string>, min: nat)
  {
    f.Absent? || f.Null? || (f.Present? && Utf16Length(f.value) >= min)
  }

  function ReviewIssues(x: ReviewInput): (r: seq<Issue>)
    ensures r == [] <==> RatingOk(x.rating) && OptionalTextOk(x.comment, 3)
                         && (x.listingId.Absent? || x.listingId.Null? || x.listingId.Present?)
                         && x.sellerId.Present?
  {
    NumberIssues("rating", x.rating, Some(1), Some(5), false, Req)
    + StringIssues("comment", x.comment, 3, OptNull)
    + TypeIssues("listingId", x.listingId, OptNull)
    + TypeIssues("sellerId", x.sellerId, Req)
  }

  function MutualReviewIssues(x: MutualReviewInput): (r: seq<Issue>)
    ensures r == [] <==> RatingOk(x.rating) && OptionalTextOk(x.comment, 3) && x.transactionId.Present?
  {
    NumberIssues("rating", x.rating, Some(1), Some(5), false, Req)
    + StringIssues("comment", x.comment, 3, OptNull)
    + TypeIssues("transactionId", x.transactionId, Req)
  }

  // ---------------------------------------------------------------------
  // reportSchema and transactionSchema

  datatype ReportInput = ReportInput(reason: Field<string>, details: Field<string>, listingId: Field<string>)

  function ReportIssues(x: ReportInput): (r: seq<Issue>)
    ensures r == [] <==> x.reason.Present? && Utf16Length(x.reason.value) >= 3
                         && OptionalTextOk(x.details, 3) && x.listingId.Present?
  {
    StringIssues("reason", x.reason, 3, Req)
    + StringIssues("details", x.details, 3, OptNull)
    + TypeIssues("listingId", x.listingId, Req)
  }

  datatype TransactionInput = TransactionInput(listingId: Field<string>, buyerId: Field<string>)

  function TransactionIssues(x: TransactionInput): (r: seq<Issue>)
    ensures r == [] <==> x.listingId.Present? && x.buyerId.Present?
  {
    TypeIssues("listingId", x.listingId, Req) + TypeIssues("buyerId", x.buyerId, Req)
  }

  // ---------------------------------------------------------------------
  // bundleSchema

  datatype BundleInput = BundleInput(title: Field<string>, description: Field<string>, discountPercent: Field<real>, listingIds: Field<seq<string>>)

  function BundleIssues(x: BundleInput): (r: seq<Issue>)
    ensures r == [] <==> && x.title.Present? && Utf16Length(x.title.value) >= 3
                         && !x.description.WrongType?
                         && x.discountPercent.Present? && IsInt(x.discountPercent.value)
                         && 0.0 <= x.discountPercent.value <= 100.0
                         && x.listingIds.Present? && |x.listingIds.value| >= 1
  {
    StringIssues("title", x.title, 3, Req)
    + TypeIssues("description", x.description, OptNull)
    + NumberIssues("discountPercent", x.discountPercent, Some(0), Some(100), false, Req)
    + ArrayIssues("listingIds", x.listingIds, 1, None, _ => true, Req)
  }

  // ---------------------------------------------------------------------
  // The validate-then-insert answer

  /** What a validate-then-insert route answers: 400 with the issues, or
      201 with the created row. */
  datatype Gated<T> = Rejected(issues: seq<Issue>) | Created(record: T)

  function StatusCode<T>(r: Gated<T>): int
  {
    if r.Rejected? then 400 else 201
  }
}
