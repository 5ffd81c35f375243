# Chat consumer of nexus-grid, modelled in Dafny

nexus-grid is a Django Channels chat site. Its one piece of real logic is
`ChatConsumer` in `chat/consumers.py`: one consumer object per WebSocket
connection, plus a process-wide dictionary `connected_users` that maps a room
name to the set of usernames present in it. This project models that
consumer and proves what each of its handlers does.

- `connect` copies the room name and the user out of the connection's scope.
  It closes an unauthenticated connection and does nothing else. Otherwise it
  joins the channel to the group `chat_<room>`, accepts the socket, adds the
  username to the room's set (creating the set on first use), sends the
  room's user list to the group, and replays the room's history to the new
  socket alone, one chat line per message.
- `disconnect` leaves the group, removes the username if the room lists it,
  and sends the updated user list to the group.
- `receive` reads the `message` field, stores the message, and sends
  `"<username>: <message>"` to the group.
- `chat_message` and `user_list_update` are the per-socket handlers of those
  two group events.
- `get_messages` filters the room's messages, orders them by ascending
  timestamp and keeps the first 50: the oldest 50, not the latest.

Layout:

- `wrappers.dfy` (`Wrappers`): `Option`.
- `history.dfy` (`History`): stored messages and the history query, with a
  stable insertion sort by timestamp.
- `presence.dfy` (`Presence`): `connected_users` as a `map<string, set<string>>`
  and the add and remove steps of connect and disconnect. It also folds a
  sequence of joins and leaves, to state what presence is after any history.
- `protocol.dfy` (`Protocol`): channel-layer groups, group events, socket
  frames, and the effect log. `Inbox` gives what one socket receives from a
  stretch of effects. It also holds the `"user: content"` chat line and a
  reader for it.
- `consumers.dfy` (`Consumers`): class `Server` holds the process-wide state:
  presence, groups, the message store, and an append-only log of every
  outbound effect in order. Class `ChatConsumer` holds the per-connection
  fields and the handlers as methods. Each handler's `ensures` gives the new
  state and the exact effects appended. Lemmas beside them say who receives
  what.

Awaited calls are modelled as ordinary method calls, and each handler runs
as one atomic step. Sending to a group is recorded together with the set of
channels in the group at that moment. That set is what the channel layer
delivers to.

## Model

| member | source | states |
|---|---|---|
| `History.InRoom` | chat/consumers.py:95 | The room filter keeps exactly the stored messages whose room is the requested one, and no others. |
| `History.InRoomCounts` | chat/consumers.py:95 | The room filter keeps each of the room's messages as many times as the store holds it, and every other message zero times. |
| `History.SortByTimestamp` | chat/consumers.py:95 | Ordering by timestamp gives a nondecreasing sequence that is a permutation of its input. |
| `History.GetMessages` | chat/consumers.py:93-95 | The history has min(50, room's message count) messages. All are from the room and in the store, in nondecreasing timestamp order. They are a prefix of the room's messages ordered by timestamp. |
| `History.HistoryIsOldest` | chat/consumers.py:95 | Every message of the room left out of the history is at least as recent as every message returned, so the history is the oldest 50. |
| `History.SmallRoomReplayedInFull` | chat/consumers.py:95 | A room with at most 50 messages gets all of them back. |
| `History.HistoryOfOrderedRoom` | chat/consumers.py:95 | When a room's n messages were stored in timestamp order, whatever other rooms hold, the history is the first min(50, n) of them in store order. After sixty messages these are the first fifty, not the last fifty. |
| `History.SortOfSorted` | chat/consumers.py:95 | Ordering an already ordered sequence leaves it as it is, ties included. |
| `Presence.UserList` | chat/consumers.py:78 | A user is listed exactly when the room has an entry that contains them; a room without an entry lists nobody. |
| `Presence.AddUser` | chat/consumers.py:27-29 | After connect the room key exists, the user is in its set, the set is otherwise unchanged, and every other room keeps its entry. |
| `Presence.RemoveUser` | chat/consumers.py:49-51 | Disconnect keeps every room key. It removes the user from the room's set and nothing else. It changes nothing when the room is missing or does not list the user. |
| `Presence.RemoveIdempotent` | chat/consumers.py:49-51 | Removing a user twice leaves the same presence as removing them once. |
| `Presence.AddIdempotent` | chat/consumers.py:29 | A second connect by a user already present leaves presence unchanged: one entry per username. |
| `Presence.AddThenRemove` | chat/consumers.py:27-51 | Connect then disconnect of one user leaves the room's entry (created if it was missing) without that user, and every other room as it was. |
| `Presence.PresenceAfterEvents` | chat/consumers.py:27-51 | After any sequence of joins and leaves, a user is present exactly when their last event was a join, or when they had no event and were present before. |
| `Presence.SecondConnectionLeaveDropsUser` | chat/consumers.py:29-51 | A user who joins twice and leaves once is no longer listed, although one connection is still open. |
| `Protocol.WithMember` | chat/consumers.py:20-23 | After a group join the channel is a member of the group, the other members stay, and other groups are unchanged. |
| `Protocol.WithoutMember` | chat/consumers.py:43-46 | After a group discard the channel is not a member, every other member stays, and other groups are unchanged. |
| `Protocol.FrameFor` | chat/consumers.py:71-91 | A `chat_message` event becomes a chat frame with the same text. A `user_list_update` event becomes a `user_list` frame with the same users. |
| `Protocol.BroadcastIsHandlerSend` | chat/consumers.py:71-91 | For a group member, one group send of an event delivers exactly what one `send` of that event's frame by the member's own handler delivers. |
| `Protocol.InboxAppend` | chat/consumers.py:63-85 | What a socket receives over two stretches of sends is what it receives over the first, then what it receives over the second. |
| `Protocol.Format` | chat/consumers.py:67 | The chat line is the username, then ": ", then the content, and nothing else. |
| `Protocol.FormatRoundTrip` | chat/consumers.py:67 | For a username without ':', the chat line `"user: content"` reads back into exactly that user and that content, whatever the content holds. |
| `Consumers.GroupName` | chat/consumers.py:12 | A room's group name is "chat_" followed by the room name, and nothing else. |
| `Consumers.GroupNameInjective` | chat/consumers.py:12 | Distinct rooms have distinct channel-layer groups. |
| `Consumers.ReplayInbox` | chat/consumers.py:34-39 | The history replay reaches the joining socket only, with one chat line `"user: content"` per message, in history order. |
| `Consumers.ReplayAt` | chat/consumers.py:34-39 | The replay makes one log entry per history message: entry i is a private send of message i's chat line to the joining socket. |
| `Consumers.JoinOrder` | chat/consumers.py:20-39 | In the log of a connect, the user-list group send is the third entry. It comes before every history send, and the history sends follow one per message, in history order. |
| `Consumers.JoinDelivery` | chat/consumers.py:20-39 | On connect, the joining socket receives exactly the user list and one chat line per history message, each once. Every other group member receives only the user list, and a socket outside the group receives nothing. |
| `Consumers.LeaveDelivery` | chat/consumers.py:43-53 | The user list sent on disconnect reaches the remaining members; the socket that left receives nothing. |
| `Consumers.ReceiveDelivery` | chat/consumers.py:57-69 | A received message reaches each group member exactly once as `"user: content"`, and nobody outside the group. |
| `Consumers.DisconnectTwice` | chat/consumers.py:41-53 | A second disconnect leaves presence and group membership as the first left them. |
| `Consumers.Server.constructor` | chat/consumers.py:7 | The process starts with no presence entries, no groups, no stored messages and nothing sent. |
| `Consumers.Server.GroupAdd` | chat/consumers.py:20-23 | `group_add` adds the channel to the group and is recorded in the effect log. |
| `Consumers.Server.GroupDiscard` | chat/consumers.py:43-46 | `group_discard` removes the channel from the group and is recorded in the effect log. |
| `Consumers.Server.GroupSend` | chat/consumers.py:63-69 | `group_send` records the event together with the group's members at that moment. |
| `Consumers.ChatConsumer.Accept` | chat/consumers.py:24 | Accepting the socket appends one accept effect for this channel. |
| `Consumers.ChatConsumer.Close` | chat/consumers.py:16 | Closing the socket appends one close effect for this channel. |
| `Consumers.ChatConsumer.Send` | chat/consumers.py:36-39 | A send writes one frame to this channel only. |
| `Consumers.ChatConsumer.Connect` | chat/consumers.py:10-39 | Connect always sets the room, group name and user. Unauthenticated: one close effect, and presence, groups and store unchanged. Authenticated: group join, accept, user-list broadcast to the group including the new channel, then the history replay. Presence is `AddUser` of the old presence. |
| `Consumers.ChatConsumer.JoinRoom` | chat/consumers.py:20-39 | The authenticated branch of connect joins the group, accepts, adds the user to presence, sends the user list to the group including the new channel, and then replays the history. The store is unchanged. |
| `Consumers.ChatConsumer.Enter` | chat/consumers.py:20-31 | The part of connect before the history appends the group join, the accept and the user-list group send, in that order. Presence is `AddUser` of the old presence. |
| `Consumers.ChatConsumer.SendHistory` | chat/consumers.py:34-39 | The replay loop appends exactly one private chat-line send per history message, in order. |
| `Consumers.ChatConsumer.Disconnect` | chat/consumers.py:41-53 | Disconnect leaves the group before the user-list broadcast, so the leaver's socket receives nothing. Presence becomes `RemoveUser` of the old presence, and the store is unchanged. |
| `Consumers.ChatConsumer.Receive` | chat/consumers.py:55-69 | Without a `message` field nothing changes. With one, exactly one message (room, user, content, time) is stored, and then exactly one group send of `"user: message"` is made. Presence and groups are unchanged. |
| `Consumers.ChatConsumer.ChatMessage` | chat/consumers.py:71-75 | The `chat_message` handler writes the event's text to its own socket. |
| `Consumers.ChatConsumer.BroadcastUserList` | chat/consumers.py:77-85 | Sends to the room's group exactly the room's current users, or an empty list when the room has no entry. |
| `Consumers.ChatConsumer.UserListUpdate` | chat/consumers.py:87-91 | The `user_list_update` handler writes a `user_list` frame with the event's users to its own socket. |
| `Consumers.ChatConsumer.SaveMessage` | chat/consumers.py:97-99 | Saving appends one message with the author's username, the room, the content and the creation time to the store. |

## Behaviour worth knowing

Facts about the code as it stands, each proved in the model:

- History is the oldest 50 messages of the room, not the most recent 50. The
  slice comes after the ascending `order_by('timestamp')` (consumers.py:95).
  `History.HistoryOfOrderedRoom` states the consequence.
- Presence is keyed by username, not by connection. A user with two open
  sockets who closes one is dropped from the list
  (`Presence.SecondConnectionLeaveDropsUser`).
- Inbound payloads carry no type tag. There are no typing events, no
  `joined`/`left` system notices, and no check that a message is non-empty.
  None of these are modelled, because the code has none of them.
- A second disconnect is not fully idempotent. Presence and groups are
  unchanged by it, but the user list is sent again
  (`Consumers.DisconnectTwice`).
- A rejected connection still announces the room's users when it
  disconnects. `connect` closes an unauthenticated socket, but `disconnect`
  runs in full and sends the room's user list to the group
  (consumers.py:41-53). `Consumers.RejectedConnection` plays this out.

## Left out

- Consumers.JoinDelivery: states the joining socket's frames as a multiset,
  not as a sequence. In the source the joining consumer receives its own
  `user_list_update` through its handler, which runs after `connect`
  returns, so the socket sees its history before the user list. `Inbox`
  places a group send's frame at the point of the send instead. The order
  of the log itself is stated by `Consumers.JoinOrder`.
- The handler methods `ChatMessage` and `UserListUpdate` are modelled but not
  called by the other handlers. A `Broadcast` entry in the effect log,
  read through `Protocol.Inbox`, is what the model takes as delivery, and
  `Protocol.BroadcastIsHandlerSend` states that it delivers what the
  handler's own send would.

- JSON encoding and decoding. `receive` takes the payload already decoded, as
  a map from field name to string. Text that is not valid JSON, and
  non-string `message` values, are not modelled.
- What the framework does after `receive` raises on a payload without a
  `message` key. The model returns `ok == false` and changes nothing; the
  exception is raised before anything is stored or sent.
- Socket semantics of `accept`, `close` and `send`, the ASGI transport, and
  the channel layer's own delivery. Each is an entry in the effect log. A
  group send records the group's members at that moment, and `Protocol.Inbox`
  turns that into the frames each member's handler writes.
- Async scheduling and races on the shared `connected_users` dictionary.
  Each handler is one atomic step.
- The Django ORM and database. The store is a sequence of messages.
  `chat/models.py` is not part of this model, so the creation timestamp is a
  parameter of `receive`. How the database orders messages with equal
  timestamps is also not part of it: the model keeps store order for ties.
- `History.GetMessages` returns whole message records, while the source
  projects them to (username, content) pairs. The replay uses only those two
  fields.
- The order of the user list. The source sends `list(set)`, whose order
  carries no meaning, so the model sends a set.
- `Protocol.FormatRoundTrip` rests on usernames never containing ':'. That
  is what Django's default username validator enforces. The validator is not
  part of this model.
- A `disconnect` or `receive` before `connect` would fail on missing
  attributes in the source. The framework never makes such a call, and the
  model requires that `connect` ran.
- `chat/views.py` (page rendering, signup and login), `chat/urls.py` and
  `chat_project/urls.py` (routing and a health check), `chat/admin.py`
  (admin registration), and `static/sw.js` (browser cache glue). None of
  these is part of the consumer.
