/** `/api/notifications/unread`: the number of messages from other people
    that arrived in the caller's conversations after they last read each. */
module UnreadRoute {
  import opened Common
  import opened Store

  /** Message `m` counts as unread for participation `p` of `userId`: it is
      in that conversation, someone else sent it, and it is newer than the
      last read (every such message when the conversation was never read). */
  predicate IsUnread(m: Message, p: Participant, userId: string)
  {
    && m.conversationId == p.conversationId
    && m.senderId != userId
    && (p.lastReadAt.None? || m.createdAt > p.lastReadAt.value)
  }

  function UnreadFilter(p: Participant, userId: string): Message -> bool
  {
    (m: Message) => IsUnread(m, p, userId)
  }

  /** The per-conversation `message.count`. */
  function UnreadIn(messages: seq<Message>, p: Participant, userId: string): nat
  {
    Count(messages, UnreadFilter(p, userId))
  }

  /** The sum of the per-conversation counts over `parts`. */
  function SumUnread(messages: seq<Message>, parts: seq<Participant>, userId: string): nat
  {
    if |parts| == 0 then 0 else UnreadIn(messages, parts[0], userId) + SumUnread(messages, parts[1..], userId)
  }

  /** The caller's participant rows. */
  function Own(participants: seq<Participant>, userId: string): (r: seq<Participant>)
    ensures forall p :: p in r <==> p in participants && p.userId == userId
  {
    Filter(participants, (p: Participant) => p.userId == userId)
  }

  /** `GET /api/notifications/unread`. */
  function UnreadCount(db: Db, userId: string): (n: nat)
    ensures (forall p :: p in db.participants ==> p.userId != userId) ==> n == 0
    ensures n == SumUnread(db.messages, Own(db.participants, userId), userId)
  {
    var own := Own(db.participants, userId);
    if |own| == 0 then 0 else SumUnread(db.messages, own, userId)
  }

  /** A message the caller sends is never unread for them. */
  lemma {:induction false} OwnMessageNotCounted(messages: seq<Message>, parts: seq<Participant>, userId: string, m: Message)
    requires m.senderId == userId
    ensures SumUnread(messages + [m], parts, userId) == SumUnread(messages, parts, userId)
  {
    if |parts| > 0 {
      CountAppend(messages, m, UnreadFilter(parts[0], userId));
      OwnMessageNotCounted(messages, parts[1..], userId, m);
    }
  }

  /** `b` is the same read time as `a` or a later one. */
  predicate NotEarlier(a: Option<int>, b: Option<int>)
  {
    b.Some? && (a.Some? ==> a.value <= b.value)
  }

  /** Moving the read time of one participation later never adds unread
      messages for it. */
  lemma ReadLaterCountsFewer(messages: seq<Message>, p: Participant, t: Option<int>, userId: string)
    requires NotEarlier(p.lastReadAt, t) || p.lastReadAt == t
    ensures UnreadIn(messages, p.(lastReadAt := t), userId) <= UnreadIn(messages, p, userId)
  {
    var later, earlier := UnreadFilter(p.(lastReadAt := t), userId), UnreadFilter(p, userId);
    forall m | m in messages && later(m)
      ensures earlier(m)
    {
    }
    CountMono(messages, later, earlier);
  }

  /** Moving read times later, participation by participation, never
      increases the total. */
  lemma {:induction false} ReadLaterTotalFewer(messages: seq<Message>, parts: seq<Participant>, parts': seq<Participant>, userId: string)
    requires |parts'| == |parts|
    requires forall i :: 0 <= i < |parts| ==>
      parts'[i] == parts[i] || parts'[i] == parts[i].(lastReadAt := parts'[i].lastReadAt)
    requires forall i :: 0 <= i < |parts| ==>
      parts'[i].lastReadAt == parts[i].lastReadAt || NotEarlier(parts[i].lastReadAt, parts'[i].lastReadAt)
    ensures SumUnread(messages, parts', userId) <= SumUnread(messages, parts, userId)
  {
    if |parts| > 0 {
      ReadLaterCountsFewer(messages, parts[0], parts'[0].lastReadAt, userId);
      ReadLaterTotalFewer(messages, parts[1..], parts'[1..], userId);
    }
  }
}
