/** `getUserBadges`: the verified, trusted-seller and quick-responder
    badges computed from a user's record, sales and conversations. */
module Badges {
  import opened Common
  import opened Store

  /** The three badges, in the order they are awarded. */
  datatype Badge = Verified | Trusted | Quick

  function Key(b: Badge): string
  {
    match b
    case Verified => "verified"
    case Trusted => "trusted"
    case Quick => "quick"
  }

  function Label(b: Badge): string
  {
    match b
    case Verified => "Verified Student"
    case Trusted => "Trusted Seller"
    case Quick => "Quick Responder"
  }

  function Rank(b: Badge): nat
  {
    match b
    case Verified => 0
    case Trusted => 1
    case Quick => 2
  }

  /** Sales needed for the trusted badge. */
  const TrustedSales: nat := 5
  /** One hour: the mean first-reply time must be below it. */
  const QuickResponseMs: int := 60 * 60 * 1000
  /** How many recent conversations, and how many of their first messages,
      the response-time scan looks at. */
  const ScannedConversations: nat := 10
  const ScannedMessages: nat := 10

  // ---------------------------------------------------------------------
  // The response-time scan

  /** Message `i` is `userId` answering someone else. */
  ghost predicate IsReplyAt(msgs: seq<Message>, userId: string, i: int)
  {
    1 <= i < |msgs| && msgs[i].senderId == userId && msgs[i - 1].senderId != userId
  }

  /** The first reply at or after position `from`. */
  function FirstReplyFrom(msgs: seq<Message>, userId: string, from: nat): (r: Option<nat>)
    requires from >= 1
    ensures r.None? <==> forall j :: from <= j < |msgs| ==> !IsReplyAt(msgs, userId, j)
    ensures r.Some? ==> from <= r.value && IsReplyAt(msgs, userId, r.value)
                        && forall j :: from <= j < r.value ==> !IsReplyAt(msgs, userId, j)
    decreases |msgs| - from
  {
    if from >= |msgs| then None
    else if msgs[from].senderId == userId && msgs[from - 1].senderId != userId then
      assert IsReplyAt(msgs, userId, from);
      Some(from)
    else FirstReplyFrom(msgs, userId, from + 1)
  }

  /** The index of the first reply in a conversation, if there is one. */
  function FirstReply(msgs: seq<Message>, userId: string): (r: Option<nat>)
    ensures r.None? <==> forall j :: !IsReplyAt(msgs, userId, j)
    ensures r.Some? ==> IsReplyAt(msgs, userId, r.value) && forall j :: j < r.value ==> !IsReplyAt(msgs, userId, j)
  {
    FirstReplyFrom(msgs, userId, 1)
  }

  /** Time between a reply and the message it answers. */
  function Gap(msgs: seq<Message>, i: nat): int
    requires 1 <= i < |msgs|
  {
    msgs[i].createdAt - msgs[i - 1].createdAt
  }

  /** One response sample per conversation that has a reply, in order. */
  function Samples(convos: seq<seq<Message>>, userId: string): (r: seq<int>)
    ensures |r| <= |convos|
  {
    if |convos| == 0 then []
    else
      var first := FirstReply(convos[0], userId);
      (if first.Some? then [Gap(convos[0], first.value)] else []) + Samples(convos[1..], userId)
  }

  /** A conversation with fewer than two messages, or in which the user
      never answers anyone, adds no sample. */
  lemma NoReplyNoSample(msgs: seq<Message>, rest: seq<seq<Message>>, userId: string)
    requires |msgs| < 2 || forall i :: 1 <= i < |msgs| ==> msgs[i].senderId != userId || msgs[i - 1].senderId == userId
    ensures Samples([msgs] + rest, userId) == Samples(rest, userId)
  {
    assert ([msgs] + rest)[1..] == rest;
  }

  /** The scan of `getUserBadges`: two nested loops, the inner one
      stopping at the first reply. Returns the total gap and the count. */
  method ResponseStats(convos: seq<seq<Message>>, userId: string) returns (total: int, count: nat)
    ensures count == |Samples(convos, userId)|
    ensures total == Sum(Samples(convos, userId))
  {
    total, count := 0, 0;
    var c := 0;
    while c < |convos|
      invariant 0 <= c <= |convos|
      invariant count + |Samples(convos[c..], userId)| == |Samples(convos, userId)|
      invariant total + Sum(Samples(convos[c..], userId)) == Sum(Samples(convos, userId))
    {
      var msgs := convos[c];
      ghost var total0, count0 := total, count;
      var i := 1;
      var found := false;
      while i < |msgs| && !found
        invariant 1 <= i
        invariant !found ==> forall j :: 1 <= j < i ==> !IsReplyAt(msgs, userId, j)
        invariant !found ==> total == total0 && count == count0
        invariant found ==> 2 <= i <= |msgs| && FirstReply(msgs, userId) == Some(i - 1)
        invariant found ==> total == total0 + Gap(msgs, i - 1) && count == count0 + 1
        decreases |msgs| - i
      {
        if msgs[i].senderId == userId && msgs[i - 1].senderId != userId {
          assert IsReplyAt(msgs, userId, i);
          total := total + (msgs[i].createdAt - msgs[i - 1].createdAt);
          count := count + 1;
          found := true;
        }
        i := i + 1;
      }
      assert !found ==> FirstReply(msgs, userId).None?;
      assert convos[c..][1..] == convos[c + 1..];
      assert convos[c..][0] == msgs;
      SumConcat(if found then [Gap(msgs, i - 1)] else [], Samples(convos[c + 1..], userId));
      c := c + 1;
    }
  }

  /** The mean of the samples is under an hour; compared without division. */
  predicate QuickResponder(total: int, count: nat)
  {
    count > 0 && total < QuickResponseMs * count
  }

  /** The division-free test agrees with `getUserBadges`'s `total / count < 1h`. */
  lemma QuickResponderMean(total: int, count: nat)
    requires count > 0
    ensures QuickResponder(total, count) <==> (total as real) / (count as real) < QuickResponseMs as real
  {
    var mean := (total as real) / (count as real);
    assert mean * (count as real) == total as real;
    if mean < QuickResponseMs as real {
      assert mean * (count as real) < (QuickResponseMs as real) * (count as real);
    } else {
      assert mean * (count as real) >= (QuickResponseMs as real) * (count as real);
    }
  }

  // ---------------------------------------------------------------------
  // The queries

  /** Sales recorded with the user as seller. */
  function SalesCount(db: Db, userId: string): nat
  {
    Count(db.transactions, (t: Transaction) => t.sellerId == userId)
  }

  /** Earlier messages rank higher: the scan reads a conversation oldest
      first. */
  function Earliness(m: Message): int { -m.createdAt }

  /** The ten most recent conversations the user takes part in. */
  function RecentConversations(db: Db, userId: string): (r: seq<Conversation>)
    ensures |r| <= ScannedConversations
    ensures forall c :: c in r ==> c in db.conversations && Participates(db.participants, c.id, userId)
    ensures SortedDesc(r, ConversationTime)
    ensures forall c :: c in db.conversations && Participates(db.participants, c.id, userId) && c !in r ==>
      |r| == ScannedConversations && c.createdAt <= r[ScannedConversations - 1].createdAt
  {
    TopBy(db.conversations, (c: Conversation) => Participates(db.participants, c.id, userId),
          ConversationTime, ScannedConversations)
  }

  /** The first ten messages of a conversation, oldest first. */
  function FirstMessages(db: Db, conversationId: string): (r: seq<Message>)
    ensures |r| <= ScannedMessages
    ensures forall m :: m in r ==> m in db.messages && m.conversationId == conversationId
    ensures forall i, j :: 0 <= i < j < |r| ==> r[i].createdAt <= r[j].createdAt
    ensures forall m :: m in db.messages && m.conversationId == conversationId && m !in r ==>
      |r| == ScannedMessages && m.createdAt >= r[ScannedMessages - 1].createdAt
  {
    var r := TopBy(db.messages, (m: Message) => m.conversationId == conversationId, Earliness, ScannedMessages);
    assert SortedDesc(r, Earliness);
    r
  }

  function MessageLists(db: Db, convos: seq<Conversation>): (r: seq<seq<Message>>)
    ensures |r| == |convos|
    ensures forall i :: 0 <= i < |r| ==> r[i] == FirstMessages(db, convos[i].id)
  {
    seq(|convos|, i requires 0 <= i < |convos| => FirstMessages(db, convos[i].id))
  }

  /** The response samples of the user's scanned conversations. */
  function ScanSamples(db: Db, userId: string): seq<int>
  {
    Samples(MessageLists(db, RecentConversations(db, userId)), userId)
  }

  /** The badge list for the three decisions, in award order. */
  function Awarded(verified: bool, trusted: bool, quick: bool): (r: seq<Badge>)
    ensures Verified in r <==> verified
    ensures Trusted in r <==> trusted
    ensures Quick in r <==> quick
    ensures forall i, j :: 0 <= i < j < |r| ==> Rank(r[i]) < Rank(r[j])
  {
    (if verified then [Verified] else [])
    + (if trusted then [Trusted] else [])
    + (if quick then [Quick] else [])
  }

  /** `getUserBadges(userId)`. */
  function GetUserBadges(db: Db, userId: string): (r: seq<Badge>)
    ensures FindUser(db.users, userId).None? ==> r == []
    ensures Verified in r <==> (FindUser(db.users, userId).Some?
                                && (FindUser(db.users, userId).value.isVerified
                                    || Truthy(FindUser(db.users, userId).value.universityEmail)))
    ensures Trusted in r <==> FindUser(db.users, userId).Some? && SalesCount(db, userId) >= TrustedSales
    ensures Quick in r <==> (FindUser(db.users, userId).Some?
                             && QuickResponder(Sum(ScanSamples(db, userId)), |ScanSamples(db, userId)|))
    ensures forall i, j :: 0 <= i < j < |r| ==> Rank(r[i]) < Rank(r[j])
  {
    match FindUser(db.users, userId)
    case None => []
    case Some(user) =>
      var samples := ScanSamples(db, userId);
      Awarded(user.isVerified || Truthy(user.universityEmail),
              SalesCount(db, userId) >= TrustedSales,
              QuickResponder(Sum(samples), |samples|))
  }
}
