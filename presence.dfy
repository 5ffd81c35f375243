/**
 * Presence bookkeeping of the chat consumer: the process-wide map
 * `connected_users` from a room name to the set of usernames present in it.
 * Entries are keyed by username alone, rooms are created on first join and
 * never removed.
 */
module Presence {

  import opened Wrappers

  type Registry = map<string, set<string>>

  /** The users listed for `room`: its set, or none when the room has no
      entry yet. */
  function UserList(registry: Registry, room: string): (users: set<string>)
    ensures forall u :: u in users <==> room in registry && u in registry[room]
  {
    if room in registry then registry[room] else {}
  }

  /** Connect: create the room's set when it is missing, then add the user. */
  function AddUser(registry: Registry, room: string, user: string): (r: Registry)
    ensures r.Keys == registry.Keys + {room}
    ensures forall u :: u in r[room] <==> u == user || u in UserList(registry, room)
    ensures forall other :: other in registry && other != room ==> r[other] == registry[other]
  {
    registry[room := UserList(registry, room) + {user}]
  }

  /** Disconnect: remove the user when the room exists and lists them; do
      nothing otherwise. The room's entry stays, even when it becomes empty. */
  function RemoveUser(registry: Registry, room: string, user: string): (r: Registry)
    ensures r.Keys == registry.Keys
    ensures room in r ==> user !in r[room]
    ensures room in r ==> forall u :: u != user ==> (u in r[room] <==> u in registry[room])
    ensures forall other :: other in registry && other != room ==> r[other] == registry[other]
    ensures user !in UserList(registry, room) ==> r == registry
  {
    if room in registry && user in registry[room] then
      registry[room := registry[room] - {user}]
    else
      registry
  }

  /** Disconnecting twice leaves the same presence as disconnecting once. */
  lemma RemoveIdempotent(registry: Registry, room: string, user: string)
    ensures RemoveUser(RemoveUser(registry, room, user), room, user) == RemoveUser(registry, room, user)
  {
  }

  /** A second connect by a user already present changes nothing. */
  lemma AddIdempotent(registry: Registry, room: string, user: string)
    ensures AddUser(AddUser(registry, room, user), room, user) == AddUser(registry, room, user)
  {
  }

  /** Connect followed by disconnect of the same user leaves the room's entry
      (created if it was missing) without that user, and every other room as
      it was. */
  lemma AddThenRemove(registry: Registry, room: string, user: string)
    ensures RemoveUser(AddUser(registry, room, user), room, user)
            == registry[room := UserList(registry, room) - {user}]
  {
    var r := RemoveUser(AddUser(registry, room, user), room, user);
    assert r[room] == UserList(registry, room) - {user};
  }

  /** One join or leave of a room, as the consumer applies it. */
  datatype Event = Join(user: string) | Leave(user: string)

  /** The registry after the events of `events`, in order, on one room. */
  function ApplyAll(registry: Registry, room: string, events: seq<Event>): Registry
    decreases |events|
  {
    if events == [] then registry
    else
      var last := events[|events| - 1];
      var before := ApplyAll(registry, room, events[..|events| - 1]);
      match last
      case Join(u) => AddUser(before, room, u)
      case Leave(u) => RemoveUser(before, room, u)
  }

  /** The most recent event of `events` about `user`, if there is one. */
  function LastAbout(events: seq<Event>, user: string): (e: Option<Event>)
    ensures e.Some? ==> e.value.user == user && e.value in events
    ensures e.None? ==> forall i :: 0 <= i < |events| ==> events[i].user != user
    decreases |events|
  {
    if events == [] then None
    else if events[|events| - 1].user == user then Some(events[|events| - 1])
    else LastAbout(events[..|events| - 1], user)
  }

  /** After any sequence of joins and leaves on a room, a user is present
      exactly when their most recent event was a join, or when they had no
      event and were present before. The number of connections a user still
      has open plays no part. */
  lemma {:induction false} PresenceAfterEvents(registry: Registry, room: string, events: seq<Event>, user: string)
    ensures user in UserList(ApplyAll(registry, room, events), room) <==>
            match LastAbout(events, user)
            case Some(e) => e.Join?
            case None => user in UserList(registry, room)
    decreases |events|
  {
    if events != [] {
      PresenceAfterEvents(registry, room, events[..|events| - 1], user);
    }
  }

  /** A user with two connections to a room who closes one of them is no
      longer listed, although the other connection is still open. */
  lemma SecondConnectionLeaveDropsUser(registry: Registry, room: string, user: string)
    ensures user !in UserList(ApplyAll(registry, room, [Join(user), Join(user), Leave(user)]), room)
  {
  }
}
