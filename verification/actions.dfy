/** The server actions of `app/actions.ts`: creating a listing from the
    new-listing form, starting a conversation, and sending a message. Form
    entries are `Option<string>` (None when `formData.get` returns null);
    the caller's id, the clock and the new rows' ids are parameters. */
module Actions {
  import opened Common
  import opened Store
  import opened Validators
  import UnreadRoute
  import ConversationsRoute

  /** How an action ends: the state returned to the form, a redirect, a
      plain return, or a thrown error. */
  datatype ActionEnd = FormError(message: string) | Redirect(path: string) | Returned | Thrown(message: string)

  // ---------------------------------------------------------------------
  // createListingAction

  /** The new-listing form. `priceCents` is `Math.round(Number(price || 0)
      * 100)`, None when that is not a finite number; `rentalPeriodDays` is
      None when the entry is missing or empty, otherwise `Number()` of it. */
  datatype ListingForm = ListingForm(
    title: Option<string>,
    description: Option<string>,
    priceCents: Option<int>,
    category: Option<string>,
    condition: Option<string>,
    campus: Option<string>,
    transactionType: Option<string>,
    rentalPeriodDays: Option<Parsed>,
    imageUrl: Option<string>)

  /** The payload object the action builds from the form and hands to
      `listingSchema`. */
  function Payload(f: ListingForm): (x: ListingInput)
    ensures x.title == Present(OrEmpty(f.title)) && x.description == Present(OrEmpty(f.description))
    ensures x.category == Present(OrEmpty(f.category)) && x.condition == Present(OrEmpty(f.condition))
    ensures x.campus == Present(OrEmpty(f.campus))
    ensures f.priceCents.Some? ==> x.priceCents == Present(f.priceCents.value as real)
    ensures f.priceCents.None? ==> x.priceCents.WrongType?
    ensures x.transactionType == Present(if Truthy(f.transactionType) then f.transactionType.value else "SELL")
    ensures f.rentalPeriodDays.None? ==> x.rentalPeriodDays == Null
    ensures forall v :: f.rentalPeriodDays == Some(Finite(v)) ==> x.rentalPeriodDays == Present(v)
    ensures f.rentalPeriodDays == Some(NaN) ==> x.rentalPeriodDays.WrongType?
    ensures x.imageUrl.Present? <==> Truthy(f.imageUrl)
    ensures x.deliveryOptions == Absent && x.imageUrls == Absent
  {
    ListingInput(
      Present(OrEmpty(f.title)),
      Present(OrEmpty(f.description)),
      if f.priceCents.Some? then Present(f.priceCents.value as real) else WrongType,
      Present(OrEmpty(f.category)),
      Present(OrEmpty(f.condition)),
      Present(OrEmpty(f.campus)),
      Present(if Truthy(f.transactionType) then f.transactionType.value else "SELL"),
      match f.rentalPeriodDays
        case None => Null
        case Some(Finite(v)) => Present(v)
        case Some(NaN) => WrongType,
      Absent,
      Absent,
      if Truthy(f.imageUrl) then Present(f.imageUrl.value) else Null,
      Absent, Absent, Absent, Absent, Absent, Absent)
  }

  function Messages(issues: seq<Issue>, messageOf: Issue -> string): (r: seq<string>)
    ensures |r| == |issues|
    ensures forall i :: 0 <= i < |r| ==> r[i] == messageOf(issues[i])
  {
    if |issues| == 0 then [] else [messageOf(issues[0])] + Messages(issues[1..], messageOf)
  }

  /** The listing a valid form becomes: the caller's, AVAILABLE, not in a
      bundle and unviewed, with the form's texts, price, type and rental
      period, at most the one image the form gives, and delivery options
      left to the database. */
  predicate FromForm(l: Listing, f: ListingForm, userId: string, newId: string, now: int)
  {
    && l.id == newId && l.userId == userId && l.status == AVAILABLE
    && l.title == OrEmpty(f.title) && l.description == OrEmpty(f.description)
    && l.category == OrEmpty(f.category) && l.condition == OrEmpty(f.condition)
    && l.campus == OrEmpty(f.campus) && f.priceCents.Some? && l.priceCents == f.priceCents.value
    && l.createdAt == now && l.viewCount == 0 && l.bundleId.None? && l.deliveryOptions.None?
    && l.transactionType == (if Truthy(f.transactionType) && f.transactionType.value == "RENT" then RENT else SELL)
    && (f.rentalPeriodDays.None? ==> l.rentalPeriodDays.None?)
    && (f.rentalPeriodDays.Some? ==>
          l.rentalPeriodDays.Some? && f.rentalPeriodDays.value == Finite(l.rentalPeriodDays.value as real))
    && |l.images| <= 1 && (|l.images| == 1 <==> Truthy(f.imageUrl))
    && (Truthy(f.imageUrl) ==> l.images == [f.imageUrl.value])
  }

  /** The images the action stores: the parsed image URL, if any. */
  function FormImages(d: ListingData): (r: seq<string>)
    ensures |r| <= 1 && (|r| == 1 <==> d.imageUrl.Some?)
    ensures d.imageUrl.Some? ==> r == [d.imageUrl.value]
  {
    if d.imageUrl.Some? then [d.imageUrl.value] else []
  }

  /** A form that passes the schema is stored with its own values. */
  lemma StoredFromForm(f: ListingForm, d: ListingData, userId: string, newId: string, now: int, isUrl: string -> bool)
    requires ParseListing(Payload(f), isUrl) == Valid(d)
    ensures FromForm(StoredListing(newId, userId, d, None, FormImages(d), now), f, userId, newId, now)
  {
    var x := Payload(f);
    assert x.priceCents.Present?;
    match f.rentalPeriodDays
    case None =>
    case Some(v) => assert v.Finite?;
  }

  /** `createListingAction`: an invalid form returns the issue messages
      joined by spaces and writes nothing; a valid one adds exactly one
      listing owned by the caller and redirects to it. */
  function CreateListingAction(db: Db, f: ListingForm, userId: string, newId: string, now: int,
                               isUrl: string -> bool, messageOf: Issue -> string): (r: (ActionEnd, Db))
    ensures r.0.FormError? <==> !ListingAccepted(Payload(f), isUrl)
    ensures r.0.FormError? ==>
      && r.1 == db
      && r.0.message == JoinSpaces(Messages(ListingIssues(Payload(f), isUrl), messageOf))
    ensures !r.0.FormError? ==>
      && r.0 == Redirect("/marketplace/" + newId)
      && |r.1.listings| == |db.listings| + 1 && r.1 == db.(listings := r.1.listings)
      && r.1.listings[..|db.listings|] == db.listings
      && FromForm(r.1.listings[|db.listings|], f, userId, newId, now)
  {
    match ParseListing(Payload(f), isUrl)
    case Invalid(issues) => (FormError(JoinSpaces(Messages(issues, messageOf))), db)
    case Valid(d) =>
      var l := StoredListing(newId, userId, d, None, FormImages(d), now);
      StoredFromForm(f, d, userId, newId, now, isUrl);
      assert (db.listings + [l])[..|db.listings|] == db.listings;
      (Redirect("/marketplace/" + newId), db.(listings := db.listings + [l]))
  }

  // ---------------------------------------------------------------------
  // startConversation

  datatype StartForm = StartForm(listingId: Option<string>, sellerId: Option<string>, message: Option<string>)

  /** JavaScript's `String(value)` on a form entry: a missing entry is the
      text "null", which is truthy. */
  function JsString(x: Option<string>): (s: string)
    ensures x.None? ==> s == "null"
    ensures x.Some? ==> s == x.value
  {
    if x.None? then "null" else OrEmpty(x)
  }

  /** `startConversation`: throws before writing when the listing or seller
      text is empty; otherwise creates the conversation, the caller's and
      the seller's participant rows, and the opening message when there is
      one, then redirects to the conversation. */
  function StartConversation(db: Db, f: StartForm, userId: string, convId: string, msgId: string, now: int): (r: (ActionEnd, Db))
    ensures r.0.Thrown? <==> f.listingId == Some("") || f.sellerId == Some("")
    ensures r.0.Thrown? ==> r.1 == db
    ensures !r.0.Thrown? ==>
      && r.0 == Redirect("/messages/" + convId)
      && r.1.conversations == db.conversations + [Conversation(convId, JsString(f.listingId), now)]
      && r.1.participants == db.participants + [Participant(convId, userId, None), Participant(convId, JsString(f.sellerId), None)]
      && (Truthy(f.message) ==> r.1.messages == db.messages + [Message(msgId, convId, userId, f.message.value, now)])
      && (!Truthy(f.message) ==> r.1.messages == db.messages)
      && r.1 == db.(conversations := r.1.conversations, participants := r.1.participants, messages := r.1.messages)
      && r.1 == ConversationsRoute.OpenConversation(db, JsString(f.listingId), JsString(f.sellerId), OrEmpty(f.message), userId, convId, msgId, now)
  {
    var listingId := JsString(f.listingId);
    var sellerId := JsString(f.sellerId);
    var initial := OrEmpty(f.message);
    if listingId == "" || sellerId == "" then (Thrown("Missing listing or seller."), db)
    else
      (Redirect("/messages/" + convId),
       ConversationsRoute.OpenConversation(db, listingId, sellerId, initial, userId, convId, msgId, now))
  }

  /** An absent listing or seller entry does not stop the action: it
      becomes the text "null". */
  lemma MissingEntriesBecomeNull(db: Db, userId: string, convId: string, msgId: string, now: int)
    ensures StartConversation(db, StartForm(None, None, None), userId, convId, msgId, now).0.Redirect?
    ensures StartConversation(db, StartForm(None, None, None), userId, convId, msgId, now).1.conversations
            == db.conversations + [Conversation(convId, "null", now)]
  {
  }

  // ---------------------------------------------------------------------
  // sendMessage

  /** `updateMany` setting `lastReadAt` on the caller's row of the
      conversation; every other row is untouched. */
  function MarkRead(parts: seq<Participant>, conversationId: string, userId: string, now: int): (r: seq<Participant>)
    ensures |r| == |parts|
    ensures forall i :: 0 <= i < |parts| ==>
      if parts[i].conversationId == conversationId && parts[i].userId == userId
      then r[i] == parts[i].(lastReadAt := Some(now))
      else r[i] == parts[i]
  {
    if |parts| == 0 then []
    else
      var p := parts[0];
      [if p.conversationId == conversationId && p.userId == userId then p.(lastReadAt := Some(now)) else p]
      + MarkRead(parts[1..], conversationId, userId, now)
  }

  /** `sendMessage`: an empty body throws and writes nothing; otherwise the
      caller's message is appended and their read time in the conversation
      moves to now. */
  function SendMessage(db: Db, conversationId: string, body: Option<string>, userId: string, msgId: string, now: int): (r: (ActionEnd, Db))
    ensures r.0.Thrown? <==> OrEmpty(body) == ""
    ensures r.0.Thrown? ==> r.1 == db
    ensures !r.0.Thrown? ==>
      && r.0 == Returned
      && r.1.messages == db.messages + [Message(msgId, conversationId, userId, OrEmpty(body), now)]
      && r.1.participants == MarkRead(db.participants, conversationId, userId, now)
      && r.1 == db.(messages := r.1.messages, participants := r.1.participants)
  {
    var text := OrEmpty(body);
    if MessageIssues(Present(text)) != [] then (Thrown("body: String must contain at least 1 character(s)"), db)
    else
      (Returned,
       db.(messages := db.messages + [Message(msgId, conversationId, userId, text, now)],
           participants := MarkRead(db.participants, conversationId, userId, now)))
  }

  /** The caller's participant rows after MarkRead are their rows before,
      each with the same or a later read time when no read time lies
      after `now`. */
  lemma {:induction false} OwnAfterMarkRead(parts: seq<Participant>, conversationId: string, userId: string, now: int)
    requires forall p :: p in parts && p.userId == userId && p.lastReadAt.Some? ==> p.lastReadAt.value <= now
    ensures var before := UnreadRoute.Own(parts, userId);
            var after := UnreadRoute.Own(MarkRead(parts, conversationId, userId, now), userId);
            && |after| == |before|
            && forall i :: 0 <= i < |before| ==>
                 after[i] == before[i].(lastReadAt := after[i].lastReadAt)
                 && (after[i].lastReadAt == before[i].lastReadAt
                     || UnreadRoute.NotEarlier(before[i].lastReadAt, after[i].lastReadAt))
  {
    if |parts| > 0 {
      OwnAfterMarkRead(parts[1..], conversationId, userId, now);
      var m := MarkRead(parts, conversationId, userId, now);
      assert m[1..] == MarkRead(parts[1..], conversationId, userId, now);
      assert parts == [parts[0]] + parts[1..] && m == [m[0]] + m[1..];
      var before, after := UnreadRoute.Own(parts, userId), UnreadRoute.Own(m, userId);
      var before', after' := UnreadRoute.Own(parts[1..], userId), UnreadRoute.Own(m[1..], userId);
      assert before == (if parts[0].userId == userId then [parts[0]] else []) + before';
      assert after == (if m[0].userId == userId then [m[0]] else []) + after';
    }
  }

  /** Sending a message never raises the sender's unread count: their own
      message is not counted and their read time only moves forward. */
  lemma SendMessageNoNewUnread(db: Db, conversationId: string, body: Option<string>, userId: string, msgId: string, now: int)
    requires forall p :: p in db.participants && p.userId == userId && p.lastReadAt.Some? ==> p.lastReadAt.value <= now
    ensures UnreadRoute.UnreadCount(SendMessage(db, conversationId, body, userId, msgId, now).1, userId)
            <= UnreadRoute.UnreadCount(db, userId)
  {
    var r := SendMessage(db, conversationId, body, userId, msgId, now);
    if !r.0.Thrown? {
      var m := Message(msgId, conversationId, userId, OrEmpty(body), now);
      var before := UnreadRoute.Own(db.participants, userId);
      var after := UnreadRoute.Own(r.1.participants, userId);
      OwnAfterMarkRead(db.participants, conversationId, userId, now);
      UnreadRoute.OwnMessageNotCounted(db.messages, after, userId, m);
      UnreadRoute.ReadLaterTotalFewer(db.messages, before, after, userId);
    }
  }
}
