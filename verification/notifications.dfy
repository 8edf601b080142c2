/** The notifications page: recent messages from others in the caller's
    conversations, offers on their listings and reviews of them, merged
    into one feed, newest first, each with a relative time. Sender,
    buyer and reviewer names and the listing titles come from joins that
    are not modelled; the offer text is the `offerBody` parameter. */
module Notifications {
  import opened Common
  import opened Store

  const MessageLimit: nat := 20
  const OfferLimit: nat := 10
  const ReviewLimit: nat := 10
  /** Message previews longer than this are cut and end in "...". */
  const PreviewLength: nat := 80
  /** Review comments are quoted up to this length. */
  const QuoteLength: nat := 60

  // ---------------------------------------------------------------------
  // timeAgo

  /** How long ago something happened, in the largest unit under its
      limit. */
  datatype Ago = JustNow | MinutesAgo(minutes: int) | HoursAgo(hours: int) | DaysAgo(days: int)

  /** `timeAgo`: whole seconds elapsed, then floor divisions into minutes,
      hours and days. A time in the future is "just now". */
  function TimeAgo(now: int, t: int): (a: Ago)
    ensures var seconds := (now - t) / 1000;
      && (a == JustNow <==> seconds < 60)
      && (a.MinutesAgo? ==> a.minutes == seconds / 60 && 1 <= a.minutes < 60)
      && (a.HoursAgo? ==> a.hours == seconds / 3600 && 1 <= a.hours < 24)
      && (a.DaysAgo? ==> a.days == seconds / 86400 && a.days >= 1)
  {
    var seconds := (now - t) / 1000;
    if seconds < 60 then JustNow
    else
      var minutes := seconds / 60;
      if minutes < 60 then MinutesAgo(minutes)
      else
        var hours := minutes / 60;
        HoursOfSeconds(seconds);
        if hours < 24 then HoursAgo(hours)
        else
          DaysOfSeconds(seconds);
          DaysAgo(hours / 24)
  }

  /** Minutes of whole seconds, then hours of those minutes, are hours of
      the seconds. */
  lemma HoursOfSeconds(seconds: int)
    requires seconds >= 0
    ensures (seconds / 60) / 60 == seconds / 3600
  {
  }

  /** Days of whole hours are days of the seconds. */
  lemma DaysOfSeconds(seconds: int)
    requires seconds >= 0
    ensures (seconds / 3600) / 24 == seconds / 86400
  {
  }

  /** The text `timeAgo` renders. */
  function AgoText(a: Ago): string
  {
    match a
    case JustNow => "just now"
    case MinutesAgo(m) => IntText(m) + "m ago"
    case HoursAgo(h) => IntText(h) + "h ago"
    case DaysAgo(d) => IntText(d) + "d ago"
  }

  /** A JavaScript integer in decimal. */
  function IntText(i: int): string
  {
    if i < 0 then "-" + Decimal(-i) else Decimal(i)
  }

  // ---------------------------------------------------------------------
  // Items

  datatype Kind = MessageKind | OfferKind | ReviewKind

  /** One feed entry (its icon and title are not modelled). */
  datatype Item = Item(id: string, kind: Kind, body: string, href: string, time: int)

  /** A message body longer than eighty characters is cut to eighty and
      ends in "..."; shorter ones are shown whole. */
  function Preview(body: string): (r: string)
    ensures |body| <= PreviewLength ==> r == body
    ensures |body| > PreviewLength ==>
      |r| == PreviewLength + 3 && r[..PreviewLength] == body[..PreviewLength] && r[PreviewLength..] == "..."
  {
    if |body| > PreviewLength then body[..PreviewLength] + "..." else body
  }

  function MessageItem(m: Message): Item
  {
    Item("msg-" + m.id, MessageKind, Preview(m.body), "/messages/" + m.conversationId, m.createdAt)
  }

  function OfferItem(o: Offer, offerBody: Offer -> string): Item
  {
    Item("offer-" + o.id, OfferKind, offerBody(o), "/marketplace/" + o.listingId, o.createdAt)
  }

  /** "<rating>/5", then the first sixty characters of a non-empty comment
      in quotes after a dash. */
  function ReviewBody(r: Review): (b: string)
    ensures StartsWith(b, IntText(r.rating) + "/5")
    ensures !Truthy(r.comment) ==> b == IntText(r.rating) + "/5"
    ensures Truthy(r.comment) ==>
      b == IntText(r.rating) + "/5" + " \U{2014} \"" + Take(r.comment.value, QuoteLength) + "\""
  {
    var head := IntText(r.rating) + "/5";
    var b := if Truthy(r.comment) then head + " \U{2014} \"" + Take(r.comment.value, QuoteLength) + "\"" else head;
    assert b[..|head|] == head;
    b
  }

  /** A review links to its listing when it has one, otherwise to the
      profile. */
  function ReviewHref(r: Review): (h: string)
    ensures r.listingId.Some? ==> h == "/marketplace/" + r.listingId.value
    ensures r.listingId.None? ==> h == "/profile"
  {
    if r.listingId.Some? then "/marketplace/" + r.listingId.value else "/profile"
  }

  function ReviewItem(r: Review): Item
  {
    Item("review-" + r.id, ReviewKind, ReviewBody(r), ReviewHref(r), r.createdAt)
  }

  /** The kind prefix of an item id. */
  function Prefix(k: Kind): string
  {
    match k
    case MessageKind => "msg-"
    case OfferKind => "offer-"
    case ReviewKind => "review-"
  }

  /** Ids with different kind prefixes differ: the prefixes already differ
      in their first character. */
  lemma PrefixedIdsDiffer(k1: Kind, id1: string, k2: Kind, id2: string)
    requires k1 != k2
    ensures Prefix(k1) + id1 != Prefix(k2) + id2
  {
    assert (Prefix(k1) + id1)[0] == Prefix(k1)[0];
    assert (Prefix(k2) + id2)[0] == Prefix(k2)[0];
  }

  /** Feed items of different kinds never share an id, whatever the row
      ids are. */
  lemma IdsNeverCollideAcrossKinds(m: Message, o: Offer, v: Review, offerBody: Offer -> string)
    ensures MessageItem(m).id != OfferItem(o, offerBody).id
    ensures MessageItem(m).id != ReviewItem(v).id
    ensures OfferItem(o, offerBody).id != ReviewItem(v).id
  {
    PrefixedIdsDiffer(MessageKind, m.id, OfferKind, o.id);
    PrefixedIdsDiffer(MessageKind, m.id, ReviewKind, v.id);
    PrefixedIdsDiffer(OfferKind, o.id, ReviewKind, v.id);
  }

  // ---------------------------------------------------------------------
  // The three queries

  function OfferTime(o: Offer): int { o.createdAt }
  function ReviewTime(r: Review): int { r.createdAt }

  /** A message from someone else in one of the caller's conversations. */
  predicate IncomingMessage(db: Db, userId: string, m: Message)
  {
    Participates(db.participants, m.conversationId, userId) && m.senderId != userId
  }

  function RecentMessages(db: Db, userId: string): (r: seq<Message>)
    ensures |r| <= MessageLimit
    ensures forall m :: m in r ==> m in db.messages && IncomingMessage(db, userId, m)
    ensures SortedDesc(r, MessageTime)
    ensures forall m :: m in db.messages && IncomingMessage(db, userId, m) && m !in r ==>
      |r| == MessageLimit && m.createdAt <= r[MessageLimit - 1].createdAt
  {
    TopBy(db.messages, (m: Message) => IncomingMessage(db, userId, m), MessageTime, MessageLimit)
  }

  function RecentOffers(db: Db, userId: string): (r: seq<Offer>)
    ensures |r| <= OfferLimit
    ensures forall o :: o in r ==> o in db.offers && o.sellerId == userId
    ensures SortedDesc(r, OfferTime)
    ensures forall o :: o in db.offers && o.sellerId == userId && o !in r ==>
      |r| == OfferLimit && o.createdAt <= r[OfferLimit - 1].createdAt
  {
    TopBy(db.offers, (o: Offer) => o.sellerId == userId, OfferTime, OfferLimit)
  }

  /** Reviews of the caller written by someone else. */
  function RecentReviews(db: Db, userId: string): (r: seq<Review>)
    ensures |r| <= ReviewLimit
    ensures forall v :: v in r ==> v in db.reviews && v.sellerId == userId && v.reviewerId != userId
    ensures SortedDesc(r, ReviewTime)
    ensures forall v :: v in db.reviews && v.sellerId == userId && v.reviewerId != userId && v !in r ==>
      |r| == ReviewLimit && v.createdAt <= r[ReviewLimit - 1].createdAt
  {
    TopBy(db.reviews, (v: Review) => v.sellerId == userId && v.reviewerId != userId, ReviewTime, ReviewLimit)
  }

  function MessageItems(ms: seq<Message>): (r: seq<Item>)
    ensures |r| == |ms| && forall i :: 0 <= i < |r| ==> r[i] == MessageItem(ms[i])
  {
    if |ms| == 0 then [] else [MessageItem(ms[0])] + MessageItems(ms[1..])
  }

  function OfferItems(os: seq<Offer>, offerBody: Offer -> string): (r: seq<Item>)
    ensures |r| == |os| && forall i :: 0 <= i < |r| ==> r[i] == OfferItem(os[i], offerBody)
    ensures forall x :: x in r ==> x.kind == OfferKind
  {
    if |os| == 0 then [] else [OfferItem(os[0], offerBody)] + OfferItems(os[1..], offerBody)
  }

  function ReviewItems(vs: seq<Review>): (r: seq<Item>)
    ensures |r| == |vs| && forall i :: 0 <= i < |r| ==> r[i] == ReviewItem(vs[i])
    ensures forall x :: x in r ==> x.kind == ReviewKind
  {
    if |vs| == 0 then [] else [ReviewItem(vs[0])] + ReviewItems(vs[1..])
  }

  function ItemTime(i: Item): int { i.time }

  /** The three lists' items, messages then offers then reviews. */
  function Merged(db: Db, userId: string, offerBody: Offer -> string): (r: seq<Item>)
    ensures |r| <= MessageLimit + OfferLimit + ReviewLimit
    ensures forall x :: x in r && x.kind == MessageKind ==> x in MessageItems(RecentMessages(db, userId))
  {
    MessageItems(RecentMessages(db, userId))
    + OfferItems(RecentOffers(db, userId), offerBody)
    + ReviewItems(RecentReviews(db, userId))
  }

  /** The feed: exactly the merged items, newest first. */
  function Feed(db: Db, userId: string, offerBody: Offer -> string): (r: seq<Item>)
    ensures multiset(r) == multiset(Merged(db, userId, offerBody))
    ensures |r| <= MessageLimit + OfferLimit + ReviewLimit
    ensures forall i, j :: 0 <= i < j < |r| ==> r[i].time >= r[j].time
  {
    var r := SortDesc(Merged(db, userId, offerBody), ItemTime);
    assert SortedDesc(r, ItemTime);
    r
  }

  /** A message item stands for one of the messages it was made from. */
  lemma MessageItemOrigin(ms: seq<Message>, it: Item)
    requires it in MessageItems(ms)
    ensures exists m :: m in ms && it == MessageItem(m)
  {
    var i :| 0 <= i < |MessageItems(ms)| && MessageItems(ms)[i] == it;
    assert ms[i] in ms;
  }

  /** Every message item in the feed stands for an incoming message. */
  lemma FeedMessagesAreIncoming(db: Db, userId: string, offerBody: Offer -> string, it: Item)
    requires it in Feed(db, userId, offerBody) && it.kind == MessageKind
    ensures exists m :: m in db.messages && IncomingMessage(db, userId, m) && it == MessageItem(m)
  {
    assert it in multiset(Merged(db, userId, offerBody));
    MessageItemOrigin(RecentMessages(db, userId), it);
  }
}
