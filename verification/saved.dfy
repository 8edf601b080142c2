/** `/api/saved`: the caller's saved listings (GET) and the save toggle
    (POST) over the saved-listing table, whose unique key is the
    (userId, listingId) pair. Requests are handled one at a time. */
module SavedRoute {
  import opened Common
  import opened Store

  /** The POST answers: 400 with "Missing listingId", or 200 `{ ok: true }`. */
  datatype PostReply = MissingListingId | Ok

  function StatusCode(r: PostReply): int
  {
    match r
    case MissingListingId => 400
    case Ok => 200
  }

  /** The table's unique key holds: no pair is saved twice. */
  ghost predicate UniquePairs(rows: seq<SavedListing>)
  {
    forall i, j :: 0 <= i < j < |rows| ==>
      rows[i].userId != rows[j].userId || rows[i].listingId != rows[j].listingId
  }

  predicate IsSaved(rows: seq<SavedListing>, userId: string, listingId: string)
  {
    exists r :: r in rows && r.userId == userId && r.listingId == listingId
  }

  /** The saved pairs, forgetting when each was saved. */
  ghost function Pairs(rows: seq<SavedListing>): set<(string, string)>
  {
    set r | r in rows :: (r.userId, r.listingId)
  }

  predicate Matches(r: SavedListing, userId: string, listingId: string)
  {
    r.userId == userId && r.listingId == listingId
  }

  /** Delete the pair's row if it exists, otherwise create it. */
  function Toggle(rows: seq<SavedListing>, userId: string, listingId: string, now: int): (r: seq<SavedListing>)
    requires UniquePairs(rows)
    ensures UniquePairs(r)
    ensures IsSaved(r, userId, listingId) <==> !IsSaved(rows, userId, listingId)
    ensures Pairs(r) == if IsSaved(rows, userId, listingId) then Pairs(rows) - {(userId, listingId)}
                        else Pairs(rows) + {(userId, listingId)}
    ensures forall x :: x in rows && !Matches(x, userId, listingId) ==> x in r
    ensures forall x :: x in r && !Matches(x, userId, listingId) ==> x in rows
  {
    if IsSaved(rows, userId, listingId) then
      var r := Filter(rows, (x: SavedListing) => !Matches(x, userId, listingId));
      assert UniquePairs(r) by {
        forall i, j | 0 <= i < j < |r|
          ensures r[i].userId != r[j].userId || r[i].listingId != r[j].listingId
        {
          FilterPositions(rows, (x: SavedListing) => !Matches(x, userId, listingId), i, j);
        }
      }
      r
    else
      var row := SavedListing(userId, listingId, now);
      var r := rows + [row];
      assert Pairs(r) == Pairs(rows) + {(userId, listingId)} by {
        assert forall x :: x in r <==> x in rows || x == row;
      }
      r
  }

  /** Two rows at different positions of a filtered sequence come from two
      different positions of the original. */
  lemma {:induction false} FilterPositions<T(!new)>(s: seq<T>, p: T -> bool, i: int, j: int)
    requires 0 <= i < j < |Filter(s, p)|
    ensures exists a, b :: 0 <= a < b < |s| && s[a] == Filter(s, p)[i] && s[b] == Filter(s, p)[j]
  {
    var f := Filter(s, p);
    var rest := Filter(s[1..], p);
    if p(s[0]) {
      if i == 0 {
        FilterLater(s, p, j);
        var b :| 1 <= b < |s| && s[b] == f[j];
        assert s[0] == f[0];
      } else {
        FilterPositions(s[1..], p, i - 1, j - 1);
        var a, b :| 0 <= a < b < |s[1..]| && s[1..][a] == rest[i - 1] && s[1..][b] == rest[j - 1];
        assert s[a + 1] == f[i] && s[b + 1] == f[j];
      }
    } else {
      assert f == rest;
      FilterPositions(s[1..], p, i, j);
      var a, b :| 0 <= a < b < |s[1..]| && s[1..][a] == rest[i] && s[1..][b] == rest[j];
      assert s[a + 1] == f[i] && s[b + 1] == f[j];
    }
  }

  /** When the first element passes, every later row of the filtered
      sequence comes from a later position of the original. */
  lemma FilterLater<T(!new)>(s: seq<T>, p: T -> bool, j: int)
    requires |s| > 0 && p(s[0]) && 0 < j < |Filter(s, p)|
    ensures exists b :: 1 <= b < |s| && s[b] == Filter(s, p)[j]
  {
    var rest := Filter(s[1..], p);
    assert Filter(s, p)[j] == rest[j - 1];
    assert rest[j - 1] in s[1..];
    var b :| 0 <= b < |s[1..]| && s[1..][b] == rest[j - 1];
    assert s[b + 1] == Filter(s, p)[j];
  }

  /** `POST /api/saved` with body field `listingId`. */
  function Post(rows: seq<SavedListing>, userId: string, listingId: Option<string>, now: int): (r: (PostReply, seq<SavedListing>))
    requires UniquePairs(rows)
    ensures !Truthy(listingId) ==> r.0 == MissingListingId && r.1 == rows
    ensures Truthy(listingId) ==> r.0 == Ok && StatusCode(r.0) == 200
    ensures Truthy(listingId) ==> (IsSaved(r.1, userId, listingId.value) <==> !IsSaved(rows, userId, listingId.value))
    ensures Truthy(listingId) ==> r.1 == Toggle(rows, userId, listingId.value, now)
    ensures Truthy(listingId) ==> forall x :: x in rows && !Matches(x, userId, listingId.value) ==> x in r.1
    ensures Truthy(listingId) ==> forall x :: x in r.1 && !Matches(x, userId, listingId.value) ==> x in rows
    ensures UniquePairs(r.1)
  {
    if !Truthy(listingId) then (MissingListingId, rows)
    else (Ok, Toggle(rows, userId, listingId.value, now))
  }

  /** Toggling twice restores the saved pairs; when the pair was not saved
      it restores the rows themselves. */
  lemma ToggleTwice(rows: seq<SavedListing>, userId: string, listingId: string, t1: int, t2: int)
    requires UniquePairs(rows)
    ensures Pairs(Toggle(Toggle(rows, userId, listingId, t1), userId, listingId, t2)) == Pairs(rows)
    ensures !IsSaved(rows, userId, listingId) ==>
      Toggle(Toggle(rows, userId, listingId, t1), userId, listingId, t2) == rows
  {
    var once := Toggle(rows, userId, listingId, t1);
    if IsSaved(rows, userId, listingId) {
      assert (userId, listingId) in Pairs(rows);
    } else {
      var row := SavedListing(userId, listingId, t1);
      assert once == rows + [row];
      var p := (x: SavedListing) => !Matches(x, userId, listingId);
      FilterConcat(rows, [row], p);
      FilterAll(rows, p);
      assert Filter([row], p) == [];
      assert (userId, listingId) !in Pairs(rows);
    }
  }

  /** `GET /api/saved`: the caller's saved rows, newest first. */
  function Get(rows: seq<SavedListing>, userId: string): (r: seq<SavedListing>)
    ensures forall x :: x in r <==> x in rows && x.userId == userId
    ensures SortedDesc(r, (x: SavedListing) => x.createdAt)
    ensures multiset(r) <= multiset(rows)
  {
    var mine := Filter(rows, (x: SavedListing) => x.userId == userId);
    FilterSubMultiset(rows, (x: SavedListing) => x.userId == userId);
    SortDesc(mine, (x: SavedListing) => x.createdAt)
  }
}
