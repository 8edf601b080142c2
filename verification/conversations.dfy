/** `/api/conversations`: the caller's conversations with their latest
    message (GET), and opening a conversation about a listing (POST). The
    write that opens a conversation is shared with the `startConversation`
    server action. */
module ConversationsRoute {
  import opened Common
  import opened Store

  /** The POST answers: 400 with "Missing listingId or sellerId", or 201
      with the new conversation. */
  datatype PostReply = MissingIds | Created(conversation: Conversation)

  function StatusCode(r: PostReply): int
  {
    match r
    case MissingIds => 400
    case Created(_) => 201
  }

  /** Creates conversation `convId` about `listingId`, the caller's and the
      seller's participant rows (in that order, never read), and the opening
      message from the caller when `message` is not empty. Nothing else in
      the store changes. */
  function OpenConversation(db: Db, listingId: string, sellerId: string, message: string,
                            userId: string, convId: string, msgId: string, now: int): (r: Db)
    ensures r.conversations == db.conversations + [Conversation(convId, listingId, now)]
    ensures |r.participants| == |db.participants| + 2 && r.participants[..|db.participants|] == db.participants
    ensures r.participants[|db.participants|] == Participant(convId, userId, None)
    ensures r.participants[|db.participants| + 1] == Participant(convId, sellerId, None)
    ensures message != "" ==> r.messages == db.messages + [Message(msgId, convId, userId, message, now)]
    ensures message == "" ==> r.messages == db.messages
    ensures r == db.(conversations := r.conversations, participants := r.participants, messages := r.messages)
  {
    var parts := db.participants + [Participant(convId, userId, None), Participant(convId, sellerId, None)];
    assert parts[..|db.participants|] == db.participants;
    db.(conversations := db.conversations + [Conversation(convId, listingId, now)],
        participants := parts,
        messages := db.messages + (if message != "" then [Message(msgId, convId, userId, message, now)] else []))
  }

  /** `POST /api/conversations`. Each body field is None when it is falsy
      (missing, null or empty); `message` is already `String(message)`. */
  function Post(db: Db, listingId: Option<string>, sellerId: Option<string>, message: Option<string>,
                userId: string, convId: string, msgId: string, now: int): (r: (PostReply, Db))
    ensures r.0.MissingIds? <==> !Truthy(listingId) || !Truthy(sellerId)
    ensures r.0.MissingIds? ==> r.1 == db && StatusCode(r.0) == 400
    ensures r.0.Created? ==>
      && StatusCode(r.0) == 201
      && r.0.conversation == Conversation(convId, listingId.value, now)
      && r.1 == OpenConversation(db, listingId.value, sellerId.value, OrEmpty(message), userId, convId, msgId, now)
      && (Truthy(message) <==> |r.1.messages| == |db.messages| + 1)
  {
    if !Truthy(listingId) || !Truthy(sellerId) then (MissingIds, db)
    else (Created(Conversation(convId, listingId.value, now)),
          OpenConversation(db, listingId.value, sellerId.value, OrEmpty(message), userId, convId, msgId, now))
  }

  /** The newest message of a conversation, if it has any. */
  function LatestMessage(messages: seq<Message>, conversationId: string): (r: Option<Message>)
    ensures r.None? <==> forall m :: m in messages ==> m.conversationId != conversationId
    ensures r.Some? ==> r.value in messages && r.value.conversationId == conversationId
    ensures r.Some? ==> forall m :: m in messages && m.conversationId == conversationId ==> m.createdAt <= r.value.createdAt
  {
    var inConvo := Filter(messages, (m: Message) => m.conversationId == conversationId);
    var sorted := SortDesc(inConvo, MessageTime);
    if |sorted| == 0 then None
    else
      assert forall m :: m in inConvo ==> m.createdAt <= sorted[0].createdAt by {
        forall m | m in inConvo ensures m.createdAt <= sorted[0].createdAt {
          assert m in sorted;
          var k :| 0 <= k < |sorted| && sorted[k] == m;
          if k > 0 { assert SortedDesc(sorted, MessageTime); }
        }
      }
      assert sorted[0] in inConvo;
      Some(sorted[0])
  }

  /** The conversations `userId` takes part in, newest first. */
  function MyConversations(db: Db, userId: string): (r: seq<Conversation>)
    ensures forall c :: c in r <==> c in db.conversations && Participates(db.participants, c.id, userId)
    ensures forall i, j :: 0 <= i < j < |r| ==> r[i].createdAt >= r[j].createdAt
  {
    var mine := Filter(db.conversations, (c: Conversation) => Participates(db.participants, c.id, userId));
    var sorted := SortDesc(mine, ConversationTime);
    assert SortedDesc(sorted, ConversationTime);
    sorted
  }

  /** One row of the GET answer: a conversation and its latest message. */
  datatype Thread = Thread(conversation: Conversation, latest: Option<Message>)

  /** `GET /api/conversations`: the caller's conversations in the order of
      MyConversations, each carrying its latest message. */
  function Get(db: Db, userId: string): (r: seq<Thread>)
    ensures |r| == |MyConversations(db, userId)|
    ensures forall i :: 0 <= i < |r| ==>
      && r[i].conversation == MyConversations(db, userId)[i]
      && r[i].latest == LatestMessage(db.messages, r[i].conversation.id)
  {
    WithLatest(db.messages, MyConversations(db, userId))
  }

  function WithLatest(messages: seq<Message>, convos: seq<Conversation>): (r: seq<Thread>)
    ensures |r| == |convos|
    ensures forall i :: 0 <= i < |r| ==> r[i] == Thread(convos[i], LatestMessage(messages, convos[i].id))
  {
    seq(|convos|, i requires 0 <= i < |convos| => Thread(convos[i], LatestMessage(messages, convos[i].id)))
  }

  /** A conversation just opened is among the conversations of both the caller and
      the seller. */
  lemma OpenedIsListedForBoth(db: Db, listingId: string, sellerId: string, message: string,
                              userId: string, convId: string, msgId: string, now: int)
    ensures var db' := OpenConversation(db, listingId, sellerId, message, userId, convId, msgId, now);
            var c := Conversation(convId, listingId, now);
            c in MyConversations(db', userId) && c in MyConversations(db', sellerId)
  {
    var db' := OpenConversation(db, listingId, sellerId, message, userId, convId, msgId, now);
    var n := |db.participants|;
    assert db'.participants[n] in db'.participants;
    assert db'.participants[n + 1] in db'.participants;
    assert Participates(db'.participants, convId, userId);
    assert Participates(db'.participants, convId, sellerId);
    assert Conversation(convId, listingId, now) in db'.conversations;
  }
}
