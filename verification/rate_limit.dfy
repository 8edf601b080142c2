/** The in-memory sliding-window rate limiter. The process-global map from
    key to hit timestamps is passed in and returned; the clock is the `now`
    parameter. */
module RateLimit {
  import opened Common

  /** Hit timestamps per key (`${userId}:${action}`). */
  type Hits = map<string, seq<int>>

  const DefaultMaxHits: int := 5
  const DefaultWindowMs: int := 60_000

  /** Whether the call is blocked, and the map after the call. */
  datatype Verdict = Verdict(limited: bool, hits: Hits)

  /** The timestamps stored for `key`, empty when it has none. */
  function Stored(hits: Hits, key: string): seq<int>
  {
    if key in hits then hits[key] else []
  }

  /** The stored timestamps that are still inside the window, in order. */
  function Recent(ts: seq<int>, now: int, windowMs: int): (r: seq<int>)
    ensures |r| <= |ts|
    ensures forall t :: t in r <==> t in ts && now - t < windowMs
  {
    Filter(ts, t => now - t < windowMs)
  }

  /** Reference count of the timestamps of `ts` less than `windowMs` old. */
  function CountInWindow(ts: seq<int>, now: int, windowMs: int): nat
  {
    if |ts| == 0 then 0
    else (if now - ts[0] < windowMs then 1 else 0) + CountInWindow(ts[1..], now, windowMs)
  }

  lemma {:induction false} RecentCount(ts: seq<int>, now: int, windowMs: int)
    ensures |Recent(ts, now, windowMs)| == CountInWindow(ts, now, windowMs)
  {
    if |ts| > 0 {
      RecentCount(ts[1..], now, windowMs);
    }
  }

  /** `isRateLimited(key, maxHits, windowMs)` at time `now`. */
  function IsRateLimited(hits: Hits, key: string, maxHits: int, windowMs: int, now: int): (v: Verdict)
    ensures v.limited <==> CountInWindow(Stored(hits, key), now, windowMs) >= maxHits
    ensures key in v.hits
    ensures v.limited ==> v.hits[key] == Recent(Stored(hits, key), now, windowMs)
    ensures !v.limited ==> v.hits[key] == Recent(Stored(hits, key), now, windowMs) + [now]
    ensures forall k :: k != key ==> (k in v.hits <==> k in hits)
    ensures forall k :: k != key && k in hits ==> v.hits[k] == hits[k]
  {
    var recent := Recent(Stored(hits, key), now, windowMs);
    RecentCount(Stored(hits, key), now, windowMs);
    if |recent| >= maxHits then Verdict(true, hits[key := recent])
    else Verdict(false, hits[key := recent + [now]])
  }

  /** The call with the default policy: 5 hits per minute. */
  function IsRateLimitedDefault(hits: Hits, key: string, now: int): (v: Verdict)
    ensures v.limited <==> CountInWindow(Stored(hits, key), now, 60_000) >= 5
  {
    IsRateLimited(hits, key, DefaultMaxHits, DefaultWindowMs, now)
  }

  /** No key holds more than `maxHits` timestamps. */
  ghost predicate Bounded(hits: Hits, maxHits: int)
  {
    forall k :: k in hits ==> |hits[k]| <= maxHits
  }

  /** With one `maxHits` for a key, its stored list never outgrows it. */
  lemma BoundPreserved(hits: Hits, key: string, maxHits: int, windowMs: int, now: int)
    requires maxHits >= 0
    requires Bounded(hits, maxHits)
    ensures Bounded(IsRateLimited(hits, key, maxHits, windowMs, now).hits, maxHits)
  {
  }

  /** One call of a trace: the key and the clock reading. */
  datatype Call = Call(key: string, now: int)

  /** The map after a sequence of calls with one policy. */
  function Replay(hits: Hits, calls: seq<Call>, maxHits: int, windowMs: int): Hits
    decreases |calls|
  {
    if |calls| == 0 then hits
    else Replay(IsRateLimited(hits, calls[0].key, maxHits, windowMs, calls[0].now).hits, calls[1..], maxHits, windowMs)
  }

  lemma {:induction false} ReplayBounded(hits: Hits, calls: seq<Call>, maxHits: int, windowMs: int)
    requires maxHits >= 0
    requires Bounded(hits, maxHits)
    ensures Bounded(Replay(hits, calls, maxHits, windowMs), maxHits)
    decreases |calls|
  {
    if |calls| > 0 {
      BoundPreserved(hits, calls[0].key, maxHits, windowMs, calls[0].now);
      ReplayBounded(IsRateLimited(hits, calls[0].key, maxHits, windowMs, calls[0].now).hits, calls[1..], maxHits, windowMs);
    }
  }

  ghost predicate Ascending(ts: seq<int>)
  {
    forall i, j :: 0 <= i < j < |ts| ==> ts[i] <= ts[j]
  }

  /** Every stored list is in time order and no later than `t`. */
  ghost predicate OrderedUpTo(hits: Hits, t: int)
  {
    forall k :: k in hits ==> Ascending(hits[k]) && forall x :: x in hits[k] ==> x <= t
  }

  /** Pruning keeps the survivors in their order. */
  lemma RecentAscending(ts: seq<int>, now: int, windowMs: int)
    requires Ascending(ts)
    ensures Ascending(Recent(ts, now, windowMs))
  {
    var key := (t: int) => -t;
    assert SortedDesc(ts, key);
    FilterKeepsSorted(ts, t => now - t < windowMs, key);
    var r := Recent(ts, now, windowMs);
    assert SortedDesc(r, key);
  }

  /** A call at a time no earlier than every stored hit keeps every list in
      time order. */
  lemma OrderPreserved(hits: Hits, key: string, maxHits: int, windowMs: int, t: int, now: int)
    requires OrderedUpTo(hits, t) && t <= now
    ensures OrderedUpTo(IsRateLimited(hits, key, maxHits, windowMs, now).hits, now)
  {
    var v := IsRateLimited(hits, key, maxHits, windowMs, now);
    var ts := Stored(hits, key);
    RecentAscending(ts, now, windowMs);
    var r := Recent(ts, now, windowMs);
    if !v.limited {
      assert Ascending(r + [now]) by {
        forall i, j | 0 <= i < j < |r + [now]|
          ensures (r + [now])[i] <= (r + [now])[j]
        {
          assert (r + [now])[i] in r + [now];
          if j == |r| {
            assert r[i] in ts;
          }
        }
      }
    }
  }

  /** Calls whose clock never goes backwards leave every list in time order. */
  lemma {:induction false} ReplayOrdered(hits: Hits, calls: seq<Call>, maxHits: int, windowMs: int, t: int)
    requires OrderedUpTo(hits, t)
    requires forall i :: 0 <= i < |calls| ==> t <= calls[i].now
    requires forall i, j :: 0 <= i < j < |calls| ==> calls[i].now <= calls[j].now
    ensures forall k :: k in Replay(hits, calls, maxHits, windowMs) ==> Ascending(Replay(hits, calls, maxHits, windowMs)[k])
    decreases |calls|
  {
    if |calls| > 0 {
      var c := calls[0];
      OrderPreserved(hits, c.key, maxHits, windowMs, t, c.now);
      ReplayOrdered(IsRateLimited(hits, c.key, maxHits, windowMs, c.now).hits, calls[1..], maxHits, windowMs, c.now);
    }
  }
}
