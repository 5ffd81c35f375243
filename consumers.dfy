/**
 * The chat consumer: one object per socket connection, driven through
 * connect, receive and disconnect, and the process-wide state every consumer
 * shares — the presence map, the channel layer's groups, the message store,
 * and the log of everything sent.
 */
module Consumers {

  import opened History
  import opened Presence
  import opened Protocol

  /** The user attached to a connection by the authentication middleware. */
  datatype User = User(username: string, isAuthenticated: bool)

  /** What a connection is opened with: the room named in its URL and its
      user. */
  datatype Scope = Scope(roomName: string, user: User)

  /** The channel-layer group of a room: "chat_" followed by the room name. */
  function GroupName(room: string): (g: string)
    ensures |g| == |room| + 5 && g[..5] == "chat_" && g[5..] == room
  {
    "chat_" + room
  }

  /** Distinct rooms have distinct groups. */
  lemma GroupNameInjective(a: string, b: string)
    requires GroupName(a) == GroupName(b)
    ensures a == b
  {
    assert a == GroupName(a)[5..];
  }

  /** The frames that replay stored messages to one channel, one per
      message, in the messages' order. */
  function HistoryLines(messages: seq<Msg>): (lines: seq<Frame>)
    ensures |lines| == |messages|
  {
    seq(|messages|, i requires 0 <= i < |messages| =>
      ChatMessageFrame(Format(messages[i].user, messages[i].content)))
  }

  /** The effects of the replay loop of connect: a private send of each
      message's chat line to `channel`. */
  function ReplayEffects(channel: ChannelId, messages: seq<Msg>): seq<Effect>
    decreases |messages|
  {
    if messages == [] then []
    else
      var last := messages[|messages| - 1];
      ReplayEffects(channel, messages[..|messages| - 1])
        + [Sent(channel, ChatMessageFrame(Format(last.user, last.content)))]
  }

  /** One more message adds one more chat line at the end. */
  lemma HistoryLinesSnoc(messages: seq<Msg>)
    requires messages != []
    ensures HistoryLines(messages) == HistoryLines(messages[..|messages| - 1])
              + [ChatMessageFrame(Format(messages[|messages| - 1].user, messages[|messages| - 1].content))]
  {
    var front := messages[..|messages| - 1];
    var lines, frontLines := HistoryLines(messages), HistoryLines(front);
    forall i | 0 <= i < |frontLines| ensures lines[i] == frontLines[i] {
      assert messages[i] == front[i];
    }
  }

  /** The replay reaches the joining channel only, and it receives exactly
      one chat line per message, in order. */
  lemma {:induction false} ReplayInbox(channel: ChannelId, messages: seq<Msg>, c: ChannelId)
    ensures Inbox(ReplayEffects(channel, messages), c) == if c == channel then HistoryLines(messages) else []
    decreases |messages|
  {
    if messages != [] {
      var front := messages[..|messages| - 1];
      var last := messages[|messages| - 1];
      var e := Sent(channel, ChatMessageFrame(Format(last.user, last.content)));
      ReplayInbox(channel, front, c);
      InboxAppend(ReplayEffects(channel, front), [e], c);
      InboxSingle(e, c);
      HistoryLinesSnoc(messages);
    }
  }

  /** The effects of an authenticated connect, in order: join the group,
      accept, announce the room's users to the group, replay history to the
      joining channel. */
  function JoinEffects(channel: ChannelId, group: string, recipients: set<ChannelId>,
                       users: set<string>, history: seq<Msg>): seq<Effect>
  {
    [Joined(group, channel), Accepted(channel), Broadcast(group, recipients, UserListUpdateEvent(users))]
      + ReplayEffects(channel, history)
  }

  /** The replay's log entries are, position by position, private sends of
      the history lines to the joining channel. */
  lemma {:induction false} ReplayAt(channel: ChannelId, messages: seq<Msg>)
    ensures |ReplayEffects(channel, messages)| == |messages|
    ensures forall i :: 0 <= i < |messages| ==>
              ReplayEffects(channel, messages)[i] == Sent(channel, HistoryLines(messages)[i])
    decreases |messages|
  {
    if messages != [] {
      var front := messages[..|messages| - 1];
      ReplayAt(channel, front);
      HistoryLinesSnoc(messages);
    }
  }

  /** In the log of a connect the user-list broadcast comes before every
      history send, and the history sends follow it one per message, in
      history order, each addressed to the joining channel alone. */
  lemma JoinOrder(channel: ChannelId, group: string, recipients: set<ChannelId>,
                  users: set<string>, history: seq<Msg>)
    ensures |JoinEffects(channel, group, recipients, users, history)| == 3 + |history|
    ensures JoinEffects(channel, group, recipients, users, history)[2]
            == Broadcast(group, recipients, UserListUpdateEvent(users))
    ensures forall i :: 3 <= i < 3 + |history| ==>
              JoinEffects(channel, group, recipients, users, history)[i]
              == Sent(channel, HistoryLines(history)[i - 3])
  {
    ReplayAt(channel, history);
  }

  /** The first three effects of a connect deliver the user list to the
      group's members and nothing else. */
  lemma EnterInbox(channel: ChannelId, group: string, recipients: set<ChannelId>,
                   users: set<string>, c: ChannelId)
    ensures Inbox([Joined(group, channel), Accepted(channel), Broadcast(group, recipients, UserListUpdateEvent(users))], c)
            == if c in recipients then [UserListFrame(users)] else []
  {
    var a, b, d := Joined(group, channel), Accepted(channel), Broadcast(group, recipients, UserListUpdateEvent(users));
    assert [a, b, d] == [a] + [b] + [d];
    InboxAppend([a] + [b], [d], c);
    InboxAppend([a], [b], c);
    InboxSingle(a, c);
    InboxSingle(b, c);
    InboxSingle(d, c);
  }

  /** What a connect delivers: the joining channel receives the user list and
      one chat line per history message; every other member receives the user
      list only. */
  lemma JoinDelivery(channel: ChannelId, group: string, recipients: set<ChannelId>,
                     users: set<string>, history: seq<Msg>, c: ChannelId)
    requires channel in recipients
    ensures multiset(Inbox(JoinEffects(channel, group, recipients, users, history), channel))
            == multiset{UserListFrame(users)} + multiset(HistoryLines(history))
    ensures c != channel ==>
              Inbox(JoinEffects(channel, group, recipients, users, history), c)
              == if c in recipients then [UserListFrame(users)] else []
  {
    var head := [Joined(group, channel), Accepted(channel), Broadcast(group, recipients, UserListUpdateEvent(users))];
    forall x: ChannelId
      ensures Inbox(JoinEffects(channel, group, recipients, users, history), x)
              == Inbox(head, x) + (if x == channel then HistoryLines(history) else [])
    {
      InboxAppend(head, ReplayEffects(channel, history), x);
      ReplayInbox(channel, history, x);
    }
    EnterInbox(channel, group, recipients, users, channel);
    EnterInbox(channel, group, recipients, users, c);
  }

  /** The effects of a disconnect, in order: leave the group, then announce
      the room's users to the group. */
  function LeaveEffects(channel: ChannelId, group: string, recipients: set<ChannelId>,
                        users: set<string>): seq<Effect>
  {
    [Discarded(group, channel), Broadcast(group, recipients, UserListUpdateEvent(users))]
  }

  /** The user list sent on a disconnect goes to the remaining members; the
      channel that left receives nothing. */
  lemma LeaveDelivery(channel: ChannelId, group: string, recipients: set<ChannelId>,
                      users: set<string>, c: ChannelId)
    requires channel !in recipients
    ensures Inbox(LeaveEffects(channel, group, recipients, users), c)
            == if c in recipients then [UserListFrame(users)] else []
    ensures Inbox(LeaveEffects(channel, group, recipients, users), channel) == []
  {
    var a, b := Discarded(group, channel), Broadcast(group, recipients, UserListUpdateEvent(users));
    assert [a, b] == [a] + [b];
    forall x: ChannelId ensures Inbox([a, b], x) == Received(a, x) + Received(b, x) {
      InboxAppend([a], [b], x);
      InboxSingle(a, x);
      InboxSingle(b, x);
    }
  }

  /** The effects of receiving a chat message, in order: store it, then send
      its chat line to the group. */
  function ReceiveEffects(msg: Msg, group: string, recipients: set<ChannelId>): seq<Effect> {
    [Persisted(msg), Broadcast(group, recipients, ChatMessageEvent(Format(msg.user, msg.content)))]
  }

  /** Every member of the group, the sender's own channel included when it
      is a member, receives the message's chat line exactly once; no one else
      receives anything. */
  lemma ReceiveDelivery(msg: Msg, group: string, recipients: set<ChannelId>, c: ChannelId)
    ensures Inbox(ReceiveEffects(msg, group, recipients), c)
            == if c in recipients then [ChatMessageFrame(Format(msg.user, msg.content))] else []
  {
    var a, b := Persisted(msg), Broadcast(group, recipients, ChatMessageEvent(Format(msg.user, msg.content)));
    assert [a, b] == [a] + [b];
    InboxAppend([a], [b], c);
    InboxSingle(a, c);
    InboxSingle(b, c);
  }

  /** A second disconnect of the same connection leaves presence and group
      membership as the first one left them (it still sends the user list
      again). */
  lemma DisconnectTwice(registry: Registry, groups: Groups, room: string, user: string, channel: ChannelId)
    ensures RemoveUser(RemoveUser(registry, room, user), room, user) == RemoveUser(registry, room, user)
    ensures WithoutMember(WithoutMember(groups, GroupName(room), channel), GroupName(room), channel)
            == WithoutMember(groups, GroupName(room), channel)
  {
    RemoveIdempotent(registry, room, user);
    var g := GroupName(room);
    if g in groups {
      assert WithoutMember(WithoutMember(groups, g, channel), g, channel)[g] == groups[g] - {channel};
    }
  }

  /** The state every consumer of the process shares: the presence map, the
      channel layer's groups, the message store, and the log of outbound
      effects. */
  class Server {
    var connectedUsers: Registry
    var groups: Groups
    var store: seq<Msg>
    var effects: seq<Effect>

    constructor ()
      ensures connectedUsers == map[] && groups == map[] && store == [] && effects == []
    {
      connectedUsers := map[];
      groups := map[];
      store := [];
      effects := [];
    }

    /** The channel layer adds `channel` to `group`. */
    method GroupAdd(group: string, channel: ChannelId)
      modifies this`groups, this`effects
      ensures groups == WithMember(old(groups), group, channel)
      ensures effects == old(effects) + [Joined(group, channel)]
    {
      groups := WithMember(groups, group, channel);
      effects := effects + [Joined(group, channel)];
    }

    /** The channel layer removes `channel` from `group`. */
    method GroupDiscard(group: string, channel: ChannelId)
      modifies this`groups, this`effects
      ensures groups == WithoutMember(old(groups), group, channel)
      ensures effects == old(effects) + [Discarded(group, channel)]
    {
      groups := WithoutMember(groups, group, channel);
      effects := effects + [Discarded(group, channel)];
    }

    /** The channel layer sends `event` to the channels in `group` now. */
    method GroupSend(group: string, event: GroupEvent)
      modifies this`effects
      ensures effects == old(effects) + [Broadcast(group, Members(groups, group), event)]
    {
      effects := effects + [Broadcast(group, Members(groups, group), event)];
    }
  }

  /** The consumer of one socket connection. */
  class ChatConsumer {
    const server: Server
    const channelName: ChannelId
    const scope: Scope
    var roomName: string
    var roomGroupName: string
    var user: User
    /** Whether connect has copied the scope into the three fields above;
        the framework calls receive and disconnect only after connect. */
    var scoped: bool

    constructor (server: Server, channelName: ChannelId, scope: Scope)
      ensures this.server == server && this.channelName == channelName && this.scope == scope
      ensures !scoped
    {
      this.server := server;
      this.channelName := channelName;
      this.scope := scope;
      roomName := "";
      roomGroupName := "";
      user := User("", false);
      scoped := false;
    }

    /** Accept the socket. */
    method Accept()
      modifies server`effects
      ensures server.effects == old(server.effects) + [Accepted(channelName)]
    {
      server.effects := server.effects + [Accepted(channelName)];
    }

    /** Close the socket. */
    method Close()
      modifies server`effects
      ensures server.effects == old(server.effects) + [Closed(channelName)]
    {
      server.effects := server.effects + [Closed(channelName)];
    }

    /** Write `frame` to this connection's socket only. */
    method Send(frame: Frame)
      modifies server`effects
      ensures server.effects == old(server.effects) + [Sent(channelName, frame)]
    {
      server.effects := server.effects + [Sent(channelName, frame)];
    }

    method Connect()
      modifies this`roomName, this`roomGroupName, this`user, this`scoped, server
      ensures scoped && roomName == scope.roomName && user == scope.user
      ensures roomGroupName == GroupName(roomName)
      // an unauthenticated user is closed on and changes nothing else
      ensures !user.isAuthenticated ==>
                && server.connectedUsers == old(server.connectedUsers)
                && server.groups == old(server.groups)
                && server.store == old(server.store)
                && server.effects == old(server.effects) + [Closed(channelName)]
      ensures user.isAuthenticated ==>
                && server.groups == WithMember(old(server.groups), roomGroupName, channelName)
                && server.connectedUsers == AddUser(old(server.connectedUsers), roomName, user.username)
                && server.store == old(server.store)
                && server.effects == old(server.effects)
                     + JoinEffects(channelName, roomGroupName, Members(server.groups, roomGroupName),
                                   UserList(server.connectedUsers, roomName),
                                   GetMessages(server.store, roomName))
      // the joining channel is among those that receive the user list
      ensures user.isAuthenticated ==> channelName in Members(server.groups, roomGroupName)
    {
      roomName := scope.roomName;
      roomGroupName := GroupName(roomName);
      user := scope.user;
      scoped := true;

      if !user.isAuthenticated {
        Close();
        return;
      }
      JoinRoom();
    }

    /** The authenticated part of connect: join the group, accept, record
        the user as present, announce the room's users, replay history. */
    method JoinRoom()
      modifies server
      ensures server.groups == WithMember(old(server.groups), roomGroupName, channelName)
      ensures server.connectedUsers == AddUser(old(server.connectedUsers), roomName, user.username)
      ensures server.store == old(server.store)
      ensures server.effects == old(server.effects)
                + JoinEffects(channelName, roomGroupName, Members(server.groups, roomGroupName),
                              UserList(server.connectedUsers, roomName),
                              GetMessages(server.store, roomName))
      ensures channelName in Members(server.groups, roomGroupName)
    {
      Enter();
      var messages := GetMessages(server.store, roomName);
      SendHistory(messages);
    }

    /** The part of connect before the history: join the group, accept,
        record the user as present, announce the room's users. */
    method Enter()
      modifies server
      ensures server.groups == WithMember(old(server.groups), roomGroupName, channelName)
      ensures server.connectedUsers == AddUser(old(server.connectedUsers), roomName, user.username)
      ensures server.store == old(server.store)
      ensures server.effects == old(server.effects)
                + [Joined(roomGroupName, channelName), Accepted(channelName),
                   Broadcast(roomGroupName, Members(server.groups, roomGroupName),
                             UserListUpdateEvent(UserList(server.connectedUsers, roomName)))]
    {
      server.GroupAdd(roomGroupName, channelName);
      Accept();

      server.connectedUsers := AddUser(server.connectedUsers, roomName, user.username);

      BroadcastUserList();
    }

    /** The replay loop of connect: send each stored message's chat line to
        this socket only, one frame per message. */
    method SendHistory(messages: seq<Msg>)
      modifies server`effects
      ensures server.effects == old(server.effects) + ReplayEffects(channelName, messages)
    {
      for i := 0 to |messages|
        invariant server.effects == old(server.effects) + ReplayEffects(channelName, messages[..i])
      {
        Send(ChatMessageFrame(Format(messages[i].user, messages[i].content)));
        assert messages[..i + 1][..i] == messages[..i];
      }
      assert messages[..|messages|] == messages;
    }

    method Disconnect(closeCode: int)
      requires scoped
      modifies server
      ensures server.groups == WithoutMember(old(server.groups), roomGroupName, channelName)
      ensures server.connectedUsers == RemoveUser(old(server.connectedUsers), roomName, user.username)
      ensures server.store == old(server.store)
      ensures server.effects == old(server.effects)
                + LeaveEffects(channelName, roomGroupName, Members(server.groups, roomGroupName),
                               UserList(server.connectedUsers, roomName))
      // the channel that leaves receives nothing from its own disconnect
      ensures Inbox(server.effects, channelName) == Inbox(old(server.effects), channelName)
    {
      server.GroupDiscard(roomGroupName, channelName);

      server.connectedUsers := RemoveUser(server.connectedUsers, roomName, user.username);

      BroadcastUserList();

      var users := UserList(server.connectedUsers, roomName);
      var recipients := Members(server.groups, roomGroupName);
      InboxAppend(old(server.effects), LeaveEffects(channelName, roomGroupName, recipients, users), channelName);
      LeaveDelivery(channelName, roomGroupName, recipients, users, channelName);
    }

    /** Handle one decoded inbound payload. A payload without a "message" key
        raises before anything happens; `ok` says whether it was handled. */
    method Receive(payload: map<string, string>, now: int) returns (ok: bool)
      requires scoped
      modifies server
      ensures ok <==> "message" in payload
      ensures !ok ==> && server.store == old(server.store) && server.effects == old(server.effects)
      ensures ok ==> server.store == old(server.store) + [Msg(roomName, user.username, payload["message"], now)]
      ensures ok ==> server.effects == old(server.effects)
                       + ReceiveEffects(Msg(roomName, user.username, payload["message"], now),
                                        roomGroupName, Members(server.groups, roomGroupName))
      ensures server.groups == old(server.groups) && server.connectedUsers == old(server.connectedUsers)
    {
      if "message" !in payload {
        return false;
      }
      var message := payload["message"];

      SaveMessage(user, roomName, message, now);

      server.GroupSend(roomGroupName, ChatMessageEvent(Format(user.username, message)));
      return true;
    }

    /** Handler of a `chat_message` group event: write its text to this
        socket. The model does not call the handlers itself: the log's
        `Broadcast` entry stands for their calls on every member, and
        `BroadcastIsHandlerSend` says it delivers what they write. */
    method ChatMessage(event: GroupEvent)
      requires event.ChatMessageEvent?
      modifies server`effects
      ensures server.effects == old(server.effects) + [Sent(channelName, FrameFor(event))]
      ensures Inbox(server.effects, channelName) == Inbox(old(server.effects), channelName)
                                                  + [ChatMessageFrame(event.message)]
    {
      Send(ChatMessageFrame(event.message));
    }

    /** Send the room's current users to the room's group. */
    method BroadcastUserList()
      modifies server`effects
      ensures server.effects == old(server.effects)
                + [Broadcast(roomGroupName, Members(server.groups, roomGroupName),
                             UserListUpdateEvent(UserList(server.connectedUsers, roomName)))]
    {
      var users := UserList(server.connectedUsers, roomName);
      server.GroupSend(roomGroupName, UserListUpdateEvent(users));
    }

    /** Handler of a `user_list_update` group event: write a `user_list`
        frame with its users to this socket. Like `ChatMessage`, it stands
        behind a `Broadcast` entry rather than being called by the model. */
    method UserListUpdate(event: GroupEvent)
      requires event.UserListUpdateEvent?
      modifies server`effects
      ensures server.effects == old(server.effects) + [Sent(channelName, FrameFor(event))]
      ensures Inbox(server.effects, channelName) == Inbox(old(server.effects), channelName)
                                                  + [UserListFrame(event.users)]
    {
      Send(UserListFrame(event.users));
    }

    /** Append a message by `author` to the store. */
    method SaveMessage(author: User, room: string, content: string, now: int)
      modifies server`store, server`effects
      ensures server.store == old(server.store) + [Msg(room, author.username, content, now)]
      ensures server.effects == old(server.effects) + [Persisted(Msg(room, author.username, content, now))]
    {
      var msg := Msg(room, author.username, content, now);
      server.store := server.store + [msg];
      server.effects := server.effects + [Persisted(msg)];
    }
  }

  /** Two users in one room: A joins, B joins, A says "hi", B leaves. */
  method TwoUserSession() {
    var server := new Server();
    var a := new ChatConsumer(server, "channel-a", Scope("r1", User("A", true)));
    a.Connect();
    assert UserList(server.connectedUsers, "r1") == {"A"};
    assert server.effects[2] == Broadcast("chat_r1", {"channel-a"}, UserListUpdateEvent({"A"}));

    var b := new ChatConsumer(server, "channel-b", Scope("r1", User("B", true)));
    b.Connect();
    assert UserList(server.connectedUsers, "r1") == {"A", "B"};
    assert Members(server.groups, "chat_r1") == {"channel-a", "channel-b"};

    var ok := a.Receive(map["message" := "hi"], 1);
    assert ok;
    assert server.store == [Msg("r1", "A", "hi", 1)];
    assert Format("A", "hi") == "A: hi";
    assert server.effects[|server.effects| - 1]
        == Broadcast("chat_r1", {"channel-a", "channel-b"}, ChatMessageEvent("A: hi"));

    b.Disconnect(1000);
    assert UserList(server.connectedUsers, "r1") == {"A"};
    assert server.effects[|server.effects| - 1]
        == Broadcast("chat_r1", {"channel-a"}, UserListUpdateEvent({"A"}));
  }

  /** A rejected connection: it is closed and changes nothing on connect,
      yet its disconnect still announces the room's users to the group. */
  method RejectedConnection() {
    var server := new Server();
    var a := new ChatConsumer(server, "channel-a", Scope("r1", User("A", true)));
    a.Connect();
    assert UserList(server.connectedUsers, "r1") == {"A"};

    var anonymous := new ChatConsumer(server, "channel-c", Scope("r1", User("", false)));
    ghost var beforeRejection := server.effects;
    anonymous.Connect();
    assert !anonymous.user.isAuthenticated;
    assert server.effects == beforeRejection + [Closed("channel-c")];
    assert UserList(server.connectedUsers, "r1") == {"A"};
    assert GroupName("r1") == "chat_r1";
    assert Members(server.groups, "chat_r1") == {"channel-a"};
    assert server.effects[|server.effects| - 1] == Closed("channel-c");

    anonymous.Disconnect(1000);
    assert UserList(server.connectedUsers, "r1") == {"A"};
    assert server.effects[|server.effects| - 1]
        == Broadcast("chat_r1", {"channel-a"}, UserListUpdateEvent({"A"}));
  }
}
