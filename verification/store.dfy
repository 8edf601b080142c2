/** The records of the marketplace's database, one datatype per table the
    modelled routes read or write. Timestamps are milliseconds since the
    epoch; ids are opaque strings chosen by the database. */
module Store {
  import opened Common

  datatype Status = AVAILABLE | RESERVED | SOLD

  datatype TxType = SELL | RENT

  datatype Delivery = MEETUP | DELIVERY | PICKUP

  datatype User = User(
    id: string,
    isVerified: bool,
    universityEmail: Option<string>,
    campus: Option<string>)

  /** A listing. `deliveryOptions` is None when the creating code left the
      column to the database default. */
  datatype Listing = Listing(
    id: string,
    userId: string,
    title: string,
    description: string,
    priceCents: int,
    category: string,
    condition: string,
    campus: string,
    transactionType: TxType,
    status: Status,
    rentalPeriodDays: Option<int>,
    deliveryOptions: Option<seq<Delivery>>,
    images: seq<string>,
    bundleId: Option<string>,
    viewCount: int,
    furnished: Option<bool>,
    petsAllowed: Option<bool>,
    createdAt: int)

  datatype Conversation = Conversation(id: string, listingId: string, createdAt: int)

  /** A user's membership of a conversation, with the time they last read it. */
  datatype Participant = Participant(conversationId: string, userId: string, lastReadAt: Option<int>)

  datatype Message = Message(id: string, conversationId: string, senderId: string, body: string, createdAt: int)

  datatype Review = Review(
    id: string,
    rating: int,
    comment: Option<string>,
    listingId: Option<string>,
    sellerId: string,
    reviewerId: string,
    createdAt: int)

  datatype Report = Report(
    id: string,
    reason: string,
    details: Option<string>,
    listingId: string,
    reporterId: string,
    createdAt: int)

  datatype SavedListing = SavedListing(userId: string, listingId: string, createdAt: int)

  datatype Transaction = Transaction(
    id: string,
    listingId: string,
    sellerId: string,
    buyerId: string,
    priceCents: int,
    completedAt: int)

  datatype Follow = Follow(followerId: string, followingId: string)

  datatype Offer = Offer(id: string, listingId: string, buyerId: string, sellerId: string, amountCents: int, createdAt: int)

  /** The whole database: one sequence of rows per table. */
  datatype Db = Db(
    users: seq<User>,
    listings: seq<Listing>,
    conversations: seq<Conversation>,
    participants: seq<Participant>,
    messages: seq<Message>,
    reviews: seq<Review>,
    reports: seq<Report>,
    saved: seq<SavedListing>,
    transactions: seq<Transaction>,
    follows: seq<Follow>,
    offers: seq<Offer>)

  /** `findUnique` on the user table. */
  function FindUser(users: seq<User>, id: string): (r: Option<User>)
    ensures r.Some? ==> r.value in users && r.value.id == id
    ensures r.None? ==> forall u :: u in users ==> u.id != id
  {
    if |users| == 0 then None
    else if users[0].id == id then Some(users[0])
    else FindUser(users[1..], id)
  }

  /** `userId` has a participant row in conversation `conversationId`. */
  predicate Participates(participants: seq<Participant>, conversationId: string, userId: string)
  {
    exists p :: p in participants && p.conversationId == conversationId && p.userId == userId
  }

  // The creation times the queries order by.

  function ListingTime(l: Listing): int { l.createdAt }

  function ConversationTime(c: Conversation): int { c.createdAt }

  function MessageTime(m: Message): int { m.createdAt }
}
