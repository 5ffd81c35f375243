/**
 * What the chat consumer exchanges with the channel layer and with its own
 * socket: channel groups, the events sent to a group, the frames written to
 * a socket, the log of outbound effects, and the "user: content" chat line.
 */
module Protocol {

  import opened Wrappers
  import opened History

  /** The name the channel layer gives one connection. */
  type ChannelId = string

  /** Group name to the channels that have joined it. */
  type Groups = map<string, set<ChannelId>>

  /** The channels in `group`; none when the group is unknown. */
  function Members(groups: Groups, group: string): (m: set<ChannelId>)
    ensures forall c :: c in m <==> group in groups && c in groups[group]
  {
    if group in groups then groups[group] else {}
  }

  /** The groups after `channel` joins `group`. */
  function WithMember(groups: Groups, group: string, channel: ChannelId): (r: Groups)
    ensures forall c :: c in Members(r, group) <==> c == channel || c in Members(groups, group)
    ensures forall g :: g != group ==> Members(r, g) == Members(groups, g)
  {
    groups[group := Members(groups, group) + {channel}]
  }

  /** The groups after `channel` leaves `group`; leaving a group one is not
      in changes nothing. */
  function WithoutMember(groups: Groups, group: string, channel: ChannelId): (r: Groups)
    ensures forall c :: c in Members(r, group) <==> c != channel && c in Members(groups, group)
    ensures forall g :: g != group ==> Members(r, g) == Members(groups, g)
  {
    if group in groups then groups[group := groups[group] - {channel}] else groups
  }

  /** An event sent to a group: its type names the consumer handler that
      receives it. */
  datatype GroupEvent =
    | ChatMessageEvent(message: string)
    | UserListUpdateEvent(users: set<string>)

  /** A frame written to one socket. The user list is a set: the order in
      which the listing of a set comes out carries no meaning. */
  datatype Frame =
    | ChatMessageFrame(message: string)
    | UserListFrame(users: set<string>)

  /** One outbound effect of a consumer, in the order it happens. */
  datatype Effect =
    | Joined(group: string, channel: ChannelId)
    | Discarded(group: string, channel: ChannelId)
    | Accepted(channel: ChannelId)
    | Closed(channel: ChannelId)
    | Broadcast(group: string, recipients: set<ChannelId>, event: GroupEvent)
    | Sent(channel: ChannelId, frame: Frame)
    | Persisted(msg: Msg)

  /** The frame a member's handler writes for a group event: `chat_message`
      passes the text on, `user_list_update` becomes a `user_list` frame with
      the same users. */
  function FrameFor(event: GroupEvent): (f: Frame)
    ensures f.ChatMessageFrame? <==> event.ChatMessageEvent?
    ensures event.ChatMessageEvent? ==> f.message == event.message
    ensures event.UserListUpdateEvent? ==> f.users == event.users
  {
    match event
    case ChatMessageEvent(text) => ChatMessageFrame(text)
    case UserListUpdateEvent(users) => UserListFrame(users)
  }

  /** What the effect `e` writes to the socket of `channel`. */
  function Received(e: Effect, channel: ChannelId): seq<Frame> {
    match e
    case Sent(c, f) => if c == channel then [f] else []
    case Broadcast(_, recipients, event) => if channel in recipients then [FrameFor(event)] else []
    case _ => []
  }

  /** Everything written to the socket of `channel`, in order, by `effects`. */
  function Inbox(effects: seq<Effect>, channel: ChannelId): seq<Frame>
    decreases |effects|
  {
    if effects == [] then []
    else Inbox(effects[..|effects| - 1], channel) + Received(effects[|effects| - 1], channel)
  }

  /** A channel's inbox over two stretches of effects is the two inboxes
      one after the other. */
  lemma {:induction false} InboxAppend(a: seq<Effect>, b: seq<Effect>, channel: ChannelId)
    ensures Inbox(a + b, channel) == Inbox(a, channel) + Inbox(b, channel)
    decreases |b|
  {
    if b == [] {
      assert a + b == a;
    } else {
      var front := b[..|b| - 1];
      assert (a + b)[..|a + b| - 1] == a + front;
      assert (a + b)[|a + b| - 1] == b[|b| - 1];
      InboxAppend(a, front, channel);
    }
  }

  /** A single effect delivers what `Received` says. */
  lemma InboxSingle(e: Effect, channel: ChannelId)
    ensures Inbox([e], channel) == Received(e, channel)
  {
  }

  /** For a member of the group, a group send delivers exactly the frame its
      handler would write to its own socket for that event. */
  lemma BroadcastIsHandlerSend(group: string, recipients: set<ChannelId>, event: GroupEvent, c: ChannelId)
    requires c in recipients
    ensures Inbox([Broadcast(group, recipients, event)], c) == Inbox([Sent(c, FrameFor(event))], c)
  {
    InboxSingle(Broadcast(group, recipients, event), c);
    InboxSingle(Sent(c, FrameFor(event)), c);
  }

  /** The chat line for `content` written by `user`: the author, the
      separator ": ", then the text. */
  function Format(user: string, content: string): (line: string)
    ensures |line| == |user| + 2 + |content|
    ensures line[..|user|] == user && line[|user|..|user| + 2] == ": " && line[|user| + 2..] == content
  {
    user + ": " + content
  }

  /** The index of the first ':' in `s`, or |s| when there is none. */
  function ColonAt(s: string): (i: nat)
    ensures i <= |s|
    ensures forall k :: 0 <= k < i ==> s[k] != ':'
    ensures i < |s| ==> s[i] == ':'
  {
    if s == [] || s[0] == ':' then 0 else 1 + ColonAt(s[1..])
  }

  /** Reads a chat line back into its author and its text: the author is
      everything before the first ':', and the separator must be ": ". */
  function SplitLine(line: string): Option<(string, string)> {
    var i := ColonAt(line);
    if i + 2 <= |line| && line[i + 1] == ' ' then Some((line[..i], line[i + 2..])) else None
  }

  /** A username has no ':' (the account's username validator admits
      letters, digits and @ . + - _ only), so every chat line names its author
      and text unambiguously, whatever the text holds. */
  lemma FormatRoundTrip(user: string, content: string)
    requires ':' !in user
    ensures SplitLine(Format(user, content)) == Some((user, content))
  {
    var line := Format(user, content);
    assert line[|user|] == ':';
    var i := ColonAt(line);
    assert i == |user|;
    assert line[..i] == user;
    assert line[i + 2..] == content;
  }
}
