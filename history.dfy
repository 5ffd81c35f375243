/**
 * The message store and the history query a chat consumer runs when a
 * connection joins a room: the room's messages, ordered by ascending
 * timestamp, cut to the first HISTORY_LIMIT of that order.
 */
module History {

  /** How many stored messages the history query returns at most. */
  const HISTORY_LIMIT: nat := 50

  /** One stored chat message: its room, its author's username, its text and
      its creation time. */
  datatype Msg = Msg(room: string, user: string, content: string, timestamp: int)

  /** Timestamps never decrease along `s`. */
  predicate Sorted(s: seq<Msg>) {
    forall i, j :: 0 <= i < j < |s| ==> s[i].timestamp <= s[j].timestamp
  }

  function Min(a: nat, b: nat): nat {
    if a <= b then a else b
  }

  /** The messages of `store` that belong to `room`, in store order. */
  function InRoom(store: seq<Msg>, room: string): (r: seq<Msg>)
    ensures |r| <= |store|
    ensures forall i :: 0 <= i < |r| ==> r[i].room == room
    ensures forall m :: m in r <==> m in store && m.room == room
  {
    if store == [] then []
    else if store[0].room == room then [store[0]] + InRoom(store[1..], room)
    else InRoom(store[1..], room)
  }

  /** The room filter keeps each of the room's messages as many times as the
      store holds it, and nothing else. */
  lemma {:induction false} InRoomCounts(store: seq<Msg>, room: string, m: Msg)
    ensures multiset(InRoom(store, room))[m] == if m.room == room then multiset(store)[m] else 0
  {
    if store != [] {
      InRoomCounts(store[1..], room, m);
      assert store == [store[0]] + store[1..];
    }
  }

  /** Inserts `m` into the ordered `s` in front of the first message that is
      not older than it, so that of two messages with equal timestamps the one
      inserted later comes first. */
  function Insert(m: Msg, s: seq<Msg>): (r: seq<Msg>)
    ensures multiset(r) == multiset(s) + multiset{m}
  {
    if s == [] || m.timestamp <= s[0].timestamp then [m] + s
    else
      assert s == [s[0]] + s[1..];
      [s[0]] + Insert(m, s[1..])
  }

  /** Prepending a message no more recent than any of `s` keeps order. */
  lemma SortedCons(x: Msg, s: seq<Msg>)
    requires Sorted(s)
    requires forall y :: y in multiset(s) ==> x.timestamp <= y.timestamp
    ensures Sorted([x] + s)
  {
  }

  /** Inserting into an ordered sequence gives an ordered sequence. */
  lemma {:induction false} InsertSorted(m: Msg, s: seq<Msg>)
    requires Sorted(s)
    ensures Sorted(Insert(m, s))
  {
    if s == [] || m.timestamp <= s[0].timestamp {
      SortedCons(m, s);
    } else {
      var t := s[1..];
      assert Sorted(t);
      InsertSorted(m, t);
      forall y | y in multiset(Insert(m, t)) ensures s[0].timestamp <= y.timestamp {
        if y != m {
          assert y in multiset(t);
          var k :| 0 <= k < |t| && t[k] == y;
          assert s[k + 1] == y;
        }
      }
      SortedCons(s[0], Insert(m, t));
    }
  }

  /** The messages of `s` ordered by ascending timestamp; messages with equal
      timestamps keep their store order. */
  function SortByTimestamp(s: seq<Msg>): (r: seq<Msg>)
    ensures Sorted(r)
    ensures multiset(r) == multiset(s)
  {
    if s == [] then []
    else
      assert s == [s[0]] + s[1..];
      InsertSorted(s[0], SortByTimestamp(s[1..]));
      Insert(s[0], SortByTimestamp(s[1..]))
  }

  /** Two sequences with equal multisets have the same length and elements. */
  lemma SameElements(a: seq<Msg>, b: seq<Msg>)
    requires multiset(a) == multiset(b)
    ensures |a| == |b|
    ensures forall i :: 0 <= i < |a| ==> a[i] in b
  {
    assert |multiset(a)| == |multiset(b)|;
    forall i | 0 <= i < |a| ensures a[i] in b {
      assert a[i] in multiset(b);
    }
  }

  /** The history query: filter by room, order by timestamp, keep the first
      HISTORY_LIMIT. */
  function GetMessages(store: seq<Msg>, room: string): (r: seq<Msg>)
    ensures |r| == Min(HISTORY_LIMIT, |InRoom(store, room)|)
    ensures forall i :: 0 <= i < |r| ==> r[i].room == room && r[i] in store
    ensures Sorted(r)
    ensures r <= SortByTimestamp(InRoom(store, room))
  {
    var ordered := SortByTimestamp(InRoom(store, room));
    SameElements(ordered, InRoom(store, room));
    if |ordered| <= HISTORY_LIMIT then ordered else ordered[..HISTORY_LIMIT]
  }

  /** The history holds the OLDEST messages of the room: every message of the
      room that is left out is at least as recent as every message returned. */
  lemma HistoryIsOldest(store: seq<Msg>, room: string, m: Msg)
    requires m in store && m.room == room
    requires m !in GetMessages(store, room)
    ensures forall i :: 0 <= i < |GetMessages(store, room)| ==>
              GetMessages(store, room)[i].timestamp <= m.timestamp
  {
    var r := GetMessages(store, room);
    var ordered := SortByTimestamp(InRoom(store, room));
    assert m in multiset(ordered);
    var j :| 0 <= j < |ordered| && ordered[j] == m;
    assert j >= |r|;
    forall i | 0 <= i < |r|
      ensures r[i].timestamp <= m.timestamp
    {
      assert r[i] == ordered[i];
    }
  }

  /** A room with no more than HISTORY_LIMIT messages is replayed in full. */
  lemma SmallRoomReplayedInFull(store: seq<Msg>, room: string)
    requires |InRoom(store, room)| <= HISTORY_LIMIT
    ensures multiset(GetMessages(store, room)) == multiset(InRoom(store, room))
  {
  }

  /** Ordering an already ordered sequence changes nothing. */
  lemma {:induction false} SortOfSorted(s: seq<Msg>)
    requires Sorted(s)
    ensures SortByTimestamp(s) == s
  {
    if s != [] {
      assert Sorted(s[1..]);
      SortOfSorted(s[1..]);
      assert [s[0]] + s[1..] == s;
    }
  }

  /** When a room's messages were stored in timestamp order, the history is
      the first HISTORY_LIMIT of them in store order: after sixty messages it
      is the first fifty, not the last fifty. */
  lemma HistoryOfOrderedRoom(store: seq<Msg>, room: string)
    requires Sorted(InRoom(store, room))
    ensures GetMessages(store, room) == InRoom(store, room)[..Min(HISTORY_LIMIT, |InRoom(store, room)|)]
  {
    SortOfSorted(InRoom(store, room));
  }
}
