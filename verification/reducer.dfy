/**
 * The page's `onmessage` handler: a pure transition from the message list,
 * the connected list and the typing list, plus one inbound frame, to the next
 * three lists.
 */
module Reducer {
  import opened Wrappers
  import opened Protocol

  /** A reaction attached to a message on the page: who reacted, with which emoji. */
  datatype Reaction = Reaction(name: string, emoji: string)

  /**
   * An inbound JSON object as the page sees it.  The server leaves out empty
   * fields, so `id` and `messageId` may be absent (`undefined`), and
   * `undefined === undefined` holds; `users` is `None` when it is not an
   * array.  Stored chat messages are these same objects, and a reaction
   * gives them a `reactions` field.
   */
  datatype Event = Event(
    kind: string,
    name: string,
    avatar: string,
    message: string,
    id: Option<string>,
    messageId: Option<string>,
    reaction: string,
    users: Option<seq<string>>,
    reactions: Option<seq<Reaction>>)

  /** The three pieces of page state the handler updates; `connected` takes whatever `users` held. */
  datatype View = View(messages: seq<Event>, connected: Option<seq<string>>, typing: seq<string>)

  /** The state before any frame arrives. */
  const Initial := View([], Some([]), [])

  /** A message's reactions, an absent list counting as empty (`msg.reactions || []`). */
  function Reactions(msg: Event): seq<Reaction>
  {
    msg.reactions.GetOr([])
  }

  /** `msg` with `r` appended to its reactions. */
  function WithReaction(msg: Event, r: Reaction): Event
  {
    msg.(reactions := Some(Reactions(msg) + [r]))
  }

  /** The reaction a `reaction` frame carries. */
  function ReactionOf(data: Event): Reaction
  {
    Reaction(data.name, data.reaction)
  }

  /** The `reaction` case: every message whose `id` equals the frame's `messageId` gets the reaction. */
  function React(msgs: seq<Event>, data: Event): (r: seq<Event>)
    ensures |r| == |msgs|
    ensures forall i :: 0 <= i < |msgs| ==>
      r[i] == (if msgs[i].id == data.messageId then WithReaction(msgs[i], ReactionOf(data)) else msgs[i])
  {
    if msgs == [] then []
    else
      var m := msgs[0];
      [if m.id == data.messageId then WithReaction(m, ReactionOf(data)) else m] + React(msgs[1..], data)
  }

  /** The `typing_users` filter: the payload names minus the page's own name. */
  function WithoutSelf(users: seq<string>, self: string): seq<string>
  {
    if users == [] then []
    else (if users[0] == self then [] else [users[0]]) + WithoutSelf(users[1..], self)
  }

  /** The filter removes every occurrence of the page's own name and keeps every other name as often as it occurs. */
  lemma {:induction false} WithoutSelfCount(users: seq<string>, self: string)
    ensures multiset(WithoutSelf(users, self)) == multiset(users)[self := 0]
  {
    if users != [] {
      WithoutSelfCount(users[1..], self);
      assert users == [users[0]] + users[1..];
    }
  }

  /** The handler; `None` is a frame `JSON.parse` rejects, which is logged and ignored. */
  function OnMessage(self: string, v: View, frame: Option<Event>): (w: View)
  {
    match frame
    case None => v
    case Some(data) =>
      if data.kind == Chat then v.(messages := v.messages + [data])
      else if data.kind == ReactionType then v.(messages := React(v.messages, data))
      else if data.kind == ConnectedUsers then v.(connected := data.users)
      else if data.kind == TypingUsers then
        v.(typing := if data.users.Some? then WithoutSelf(data.users.value, self) else [])
      else v
  }

  /** A frame of a kind the handler does not know, or one that does not parse, changes nothing. */
  lemma UnknownIgnored(self: string, v: View, frame: Option<Event>)
    requires frame.None? || frame.value.kind !in {Chat, ReactionType, ConnectedUsers, TypingUsers}
    ensures OnMessage(self, v, frame) == v
  {
  }

  /** `chat` appends the frame as the last message; earlier messages and both user lists stay. */
  lemma ChatAppends(self: string, v: View, data: Event)
    requires data.kind == Chat
    ensures var w := OnMessage(self, v, Some(data));
      && |w.messages| == |v.messages| + 1
      && w.messages[..|v.messages|] == v.messages
      && w.messages[|v.messages|] == data
      && w.connected == v.connected && w.typing == v.typing
  {
  }

  /**
   * `reaction` keeps the list's length and order and the two user lists; a
   * message changes only if its `id` matches, and then only by the new
   * reaction appended after its earlier ones.
   */
  lemma ReactionUpdates(self: string, v: View, data: Event, i: nat)
    requires data.kind == ReactionType
    requires i < |v.messages|
    ensures var w := OnMessage(self, v, Some(data));
      && |w.messages| == |v.messages|
      && w.connected == v.connected && w.typing == v.typing
      && (v.messages[i].id != data.messageId ==> w.messages[i] == v.messages[i])
      && (v.messages[i].id == data.messageId ==>
            && Reactions(w.messages[i]) == Reactions(v.messages[i]) + [Reaction(data.name, data.reaction)]
            && w.messages[i].(reactions := v.messages[i].reactions) == v.messages[i])
  {
  }

  /** A reaction whose `messageId` matches no message leaves the list as it was. */
  lemma ReactionWithoutTarget(msgs: seq<Event>, data: Event)
    requires forall i :: 0 <= i < |msgs| ==> msgs[i].id != data.messageId
    ensures React(msgs, data) == msgs
  {
  }

  /**
   * From a fresh page, a `chat` frame followed by a `reaction` that names its
   * `id` leaves one message carrying that reaction; the same two frames in the
   * other order leave the message without it, since a reaction is only ever
   * attached to messages already on the page.
   */
  lemma ReactionNeedsMessage(self: string, msg: Event, data: Event)
    requires msg.kind == Chat && data.kind == ReactionType
    requires msg.id == data.messageId
    ensures
      var w := OnMessage(self, OnMessage(self, Initial, Some(msg)), Some(data));
      && w.messages == [WithReaction(msg, ReactionOf(data))]
      && w.connected == Initial.connected && w.typing == Initial.typing
    ensures OnMessage(self, OnMessage(self, Initial, Some(data)), Some(msg)).messages == [msg]
  {
    ReactionWithoutTarget([], data);
    var v := OnMessage(self, Initial, Some(msg));
    assert v.messages == [msg];
    assert React(v.messages, data) == [WithReaction(msg, ReactionOf(data))];
  }

  /** The filter keeps the payload's order: it distributes over concatenation. */
  lemma {:induction false} WithoutSelfAppend(a: seq<string>, b: seq<string>, self: string)
    ensures WithoutSelf(a + b, self) == WithoutSelf(a, self) + WithoutSelf(b, self)
  {
    if a == [] {
      assert a + b == b;
    } else {
      var head := if a[0] == self then [] else [a[0]];
      assert (a + b)[0] == a[0] && (a + b)[1..] == a[1..] + b;
      calc {
        WithoutSelf(a + b, self);
        head + WithoutSelf(a[1..] + b, self);
        { WithoutSelfAppend(a[1..], b, self); }
        head + (WithoutSelf(a[1..], self) + WithoutSelf(b, self));
        (head + WithoutSelf(a[1..], self)) + WithoutSelf(b, self);
        WithoutSelf(a, self) + WithoutSelf(b, self);
      }
    }
  }

  /** A payload that does not hold the page's own name is kept as it is. */
  lemma {:induction false} WithoutSelfKeeps(users: seq<string>, self: string)
    requires self !in users
    ensures WithoutSelf(users, self) == users
  {
    if users != [] {
      WithoutSelfKeeps(users[1..], self);
      assert users == [users[0]] + users[1..];
    }
  }

  /**
   * `typing_users` sets the typing list to the payload minus the page's own
   * name, or to [] when the payload is not an array; `connected_users` puts
   * the payload in place of the connected list.  Nothing else changes.
   */
  lemma UserListsReplaced(self: string, v: View, data: Event)
    ensures data.kind == TypingUsers ==>
      var w := OnMessage(self, v, Some(data));
      && w.messages == v.messages && w.connected == v.connected
      && self !in w.typing
      && (data.users.None? ==> w.typing == [])
      && (data.users.Some? ==> multiset(w.typing) == multiset(data.users.value)[self := 0])
    ensures data.kind == ConnectedUsers ==>
      OnMessage(self, v, Some(data)) == v.(connected := data.users)
  {
    if data.kind == TypingUsers && data.users.Some? {
      WithoutSelfCount(data.users.value, self);
      var w := OnMessage(self, v, Some(data));
      assert multiset(w.typing)[self] == 0;
    }
  }
}
