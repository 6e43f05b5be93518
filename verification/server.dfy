/**
 * The presence hub of the Go server: the set of registered connections, the
 * set of names currently typing, the broadcast that prunes dead connections,
 * and the per-connection handler (join handshake, dispatch loop, cleanup).
 *
 * The server runs one handler per connection under a mutex; here the hub has
 * one sequential owner.  Socket writes are abstracted by a predicate
 * `ok: Client -> bool` that says whose write succeeds during one event.
 */
module Server {
  import opened Protocol

  /** A registered connection (Go's `*Client`): compared by identity, carrying its display name. */
  class Client {
    const name: string

    constructor (name: string)
      ensures this.name == name
    {
      this.name := name;
    }
  }

  /** One broadcast: the message written and the clients it reached. */
  datatype Delivery = Delivery(msg: Message, recipients: set<Client>)

  /** The clients of `cs` whose write succeeds. */
  function Surviving(cs: set<Client>, ok: Client -> bool): set<Client>
  {
    set c | c in cs && ok(c)
  }

  ghost function Pick(cs: set<Client>): (c: Client)
    requires cs != {}
    ensures c in cs
  {
    var c :| c in cs; c
  }

  /** The display names of `cs`, one entry per client (two clients may share a name). */
  ghost function NamesOf(cs: set<Client>): (names: multiset<string>)
    ensures |names| == |cs|
    decreases |cs|
  {
    if cs == {} then multiset{} else
      var c := Pick(cs);
      NamesOf(cs - {c}) + multiset{c.name}
  }

  /** A name is listed exactly when some client in `cs` carries it. */
  lemma {:induction false} NamesOfMembers(cs: set<Client>, n: string)
    ensures n in NamesOf(cs) <==> exists c :: c in cs && c.name == n
    decreases |cs|
  {
    if cs != {} {
      var d := Pick(cs);
      NamesOfMembers(cs - {d}, n);
      if n !in NamesOf(cs) {
        forall c | c in cs ensures c.name != n {
          if c != d {
            assert c in cs - {d};
          }
        }
      }
    }
  }

  /** Any client can be taken out first: `NamesOf` does not depend on the order of choice. */
  lemma {:induction false} NamesOfRemove(cs: set<Client>, c: Client)
    requires c in cs
    ensures NamesOf(cs) == NamesOf(cs - {c}) + multiset{c.name}
    decreases |cs|
  {
    var d := Pick(cs);
    if d != c {
      NamesOfRemove(cs - {d}, c);
      NamesOfRemove(cs - {c}, d);
      assert cs - {d} - {c} == cs - {c} - {d};
    }
  }

  /** What the read loop's `switch msg.Type` does with one frame. */
  datatype Action = Relay(msg: Message) | AddTyping | RemoveTyping | Ignore

  /** The dispatch: chat and reaction frames are relayed as they are, typing frames toggle, the rest is dropped. */
  function Classify(f: Frame): (a: Action)
    ensures a.Relay? <==> f.Decoded? && (f.msg.kind == Chat || f.msg.kind == ReactionType)
    ensures a.Relay? ==> a.msg == f.msg
    ensures a == AddTyping <==> f.Decoded? && f.msg.kind == Typing
    ensures a == RemoveTyping <==> f.Decoded? && f.msg.kind == StopTyping
    ensures a == Ignore <==> f.Malformed? || f.msg.kind !in {Chat, ReactionType, Typing, StopTyping}
  {
    match f
    case Malformed => Ignore
    case Decoded(m) =>
      if m.kind == Chat || m.kind == ReactionType then Relay(m)
      else if m.kind == Typing then AddTyping
      else if m.kind == StopTyping then RemoveTyping
      else Ignore
  }

  /** Whether handling `f` broadcasts, and so may drop clients whose write fails. */
  predicate Broadcasts(f: Frame)
  {
    Classify(f) != Ignore
  }

  /**
   * The clients of `cs` still registered after frames `start` to `end - 1`
   * are handled, the writes made for frame `k` succeeding where `oks[k]` says.
   */
  function Survivors(cs: set<Client>, frames: seq<Frame>, oks: seq<Client -> bool>, start: nat, end: nat): set<Client>
    requires start <= end <= |frames| <= |oks|
    decreases end
  {
    if end == start then cs
    else
      var before := Survivors(cs, frames, oks, start, end - 1);
      if Broadcasts(frames[end - 1]) then Surviving(before, oks[end - 1]) else before
  }

  /** Every write to `c` made while handling frames `start` to `end - 1` succeeded. */
  ghost predicate Delivered(c: Client, frames: seq<Frame>, oks: seq<Client -> bool>, start: nat, end: nat)
    requires start <= end <= |frames| <= |oks|
  {
    forall k :: start <= k < end && Broadcasts(frames[k]) ==> oks[k](c)
  }

  /** A client survives a run of frames exactly when it was there and every write to it succeeded. */
  lemma {:induction false} SurvivorsMembers(
    cs: set<Client>, frames: seq<Frame>, oks: seq<Client -> bool>, start: nat, end: nat, c: Client)
    requires start <= end <= |frames| <= |oks|
    ensures c in Survivors(cs, frames, oks, start, end) <==> c in cs && Delivered(c, frames, oks, start, end)
    decreases end
  {
    if end > start {
      SurvivorsMembers(cs, frames, oks, start, end - 1, c);
    }
  }

  /**
   * Who is left after a session: a client registered before it stays
   * exactly when every write to it succeeded, at the join, during the read
   * loop and at the cleanup; the session's own client is gone.
   */
  lemma SessionSurvivors(
    before: set<Client>, client: Client, frames: seq<Frame>, oks: seq<Client -> bool>,
    read: nat, connectedOk: Client -> bool, typingOk: Client -> bool, after: set<Client>)
    requires 1 <= read <= |frames| == |oks|
    requires client !in before
    requires after == Surviving(Surviving(
      Survivors(Surviving(before + {client}, oks[0]), frames, oks, 1, read) - {client}, connectedOk), typingOk)
    ensures client !in after
    ensures forall c :: c in after <==>
      c in before && oks[0](c) && Delivered(c, frames, oks, 1, read) && connectedOk(c) && typingOk(c)
  {
    forall c
      ensures c in after <==>
        c in before && oks[0](c) && Delivered(c, frames, oks, 1, read) && connectedOk(c) && typingOk(c)
    {
      SurvivorsMembers(Surviving(before + {client}, oks[0]), frames, oks, 1, read, c);
    }
  }

  /**
   * The session's own client was still registered when the last frame was
   * read (and so when every earlier one was), and a loop that stopped early
   * had lost it.
   */
  lemma SessionReads(
    joined: set<Client>, client: Client, frames: seq<Frame>, oks: seq<Client -> bool>, read: nat)
    requires 1 <= read <= |frames| == |oks|
    requires client in joined <==> oks[0](client)
    requires read > 1 ==> client in Survivors(joined, frames, oks, 1, read - 1)
    requires read < |frames| ==> client !in Survivors(joined, frames, oks, 1, read)
    ensures read > 1 ==> oks[0](client) && Delivered(client, frames, oks, 1, read - 1)
    ensures read < |frames| ==> !(oks[0](client) && Delivered(client, frames, oks, 1, read))
  {
    if read > 1 {
      SurvivorsMembers(joined, frames, oks, 1, read - 1, client);
    }
    SurvivorsMembers(joined, frames, oks, 1, read, client);
  }

  /** A presence payload of type `kind`: its users, their number as `Count`, and no other field set. */
  predicate IsPayload(m: Message, kind: string)
  {
    m == Message(kind, "", "", "", "", "", m.users, |m.users|, "")
  }

  class Hub {
    var clients: set<Client>
    var typingUsers: set<string>

    constructor ()
      ensures clients == {} && typingUsers == {}
    {
      clients := {};
      typingUsers := {};
    }

    /** `broadcastJSON`: write `data` to every client; a client whose write fails is closed and dropped. */
    method Broadcast(data: Message, ok: Client -> bool) returns (d: Delivery)
      modifies this
      ensures clients == Surviving(old(clients), ok)
      ensures typingUsers == old(typingUsers)
      ensures d == Delivery(data, clients)
    {
      var pending := clients;
      var delivered := {};
      while pending != {}
        invariant pending <= old(clients)
        invariant typingUsers == old(typingUsers)
        invariant delivered == Surviving(old(clients) - pending, ok)
        invariant clients == delivered + pending
        decreases pending
      {
        var c :| c in pending;
        pending := pending - {c};
        if ok(c) {
          delivered := delivered + {c};
        } else {
          clients := clients - {c};
        }
      }
      d := Delivery(data, delivered);
    }

    /** The `connected_users` payload: one name per registered client, and their number. */
    method ConnectedUsersPayload() returns (m: Message)
      ensures IsPayload(m, ConnectedUsers)
      ensures multiset(m.users) == NamesOf(clients)
      ensures |m.users| == |clients|
    {
      var names := [];
      var pending := clients;
      while pending != {}
        invariant pending <= clients
        invariant multiset(names) + NamesOf(pending) == NamesOf(clients)
        decreases pending
      {
        var c :| c in pending;
        NamesOfRemove(pending, c);
        names := names + [c.name];
        pending := pending - {c};
      }
      m := Message(ConnectedUsers, "", "", "", "", "", names, |names|, "");
    }

    /** The `typing_users` payload: each typing name once, and their number. */
    method TypingUsersPayload() returns (m: Message)
      ensures IsPayload(m, TypingUsers)
      ensures multiset(m.users) == multiset(typingUsers)
      ensures |m.users| == |typingUsers|
    {
      var names := [];
      var pending := typingUsers;
      while pending != {}
        invariant pending <= typingUsers
        invariant multiset(names) + multiset(pending) == multiset(typingUsers)
        decreases pending
      {
        var n :| n in pending;
        names := names + [n];
        pending := pending - {n};
      }
      m := Message(TypingUsers, "", "", "", "", "", names, |names|, "");
    }

    /** `updateConnectedUsers`: broadcast the current client names. */
    method UpdateConnectedUsers(ok: Client -> bool) returns (d: Delivery)
      modifies this
      ensures clients == Surviving(old(clients), ok)
      ensures typingUsers == old(typingUsers)
      ensures IsPayload(d.msg, ConnectedUsers)
      ensures multiset(d.msg.users) == NamesOf(old(clients))
      ensures d.recipients == clients
    {
      var m := ConnectedUsersPayload();
      d := Broadcast(m, ok);
    }

    /** `updateTypingUsers`: broadcast the names currently typing. */
    method UpdateTypingUsers(ok: Client -> bool) returns (d: Delivery)
      modifies this
      ensures clients == Surviving(old(clients), ok)
      ensures typingUsers == old(typingUsers)
      ensures IsPayload(d.msg, TypingUsers)
      ensures multiset(d.msg.users) == multiset(typingUsers)
      ensures d.recipients == clients
    {
      var m := TypingUsersPayload();
      d := Broadcast(m, ok);
    }

    /** The handshake: a connection whose first frame is a `join` becomes a client named by it. */
    method Join(first: Frame, ok: Client -> bool) returns (client: Client?, sent: seq<Delivery>)
      modifies this
      ensures client == null <==> !IsJoin(first)
      ensures typingUsers == old(typingUsers)
      ensures client == null ==> clients == old(clients) && sent == []
      ensures client != null ==>
        && fresh(client) && client.name == first.msg.name
        && clients == Surviving(old(clients) + {client}, ok)
        && |sent| == 1 && IsPayload(sent[0].msg, ConnectedUsers)
        && multiset(sent[0].msg.users) == NamesOf(old(clients) + {client})
        && sent[0].recipients == clients
    {
      if !IsJoin(first) {
        return null, [];
      }
      client := new Client(first.msg.name);
      clients := clients + {client};
      var d := UpdateConnectedUsers(ok);
      sent := [d];
    }

    /** One iteration of the read loop for `client`'s frame `f`. */
    method HandleFrame(client: Client, f: Frame, ok: Client -> bool) returns (sent: seq<Delivery>)
      modifies this
      ensures Classify(f) == Ignore ==>
        clients == old(clients) && typingUsers == old(typingUsers) && sent == []
      ensures Classify(f) != Ignore ==> clients == Surviving(old(clients), ok)
      ensures Classify(f).Relay? ==>
        typingUsers == old(typingUsers) && sent == [Delivery(f.msg, clients)]
      ensures Classify(f) == AddTyping ==> typingUsers == old(typingUsers) + {client.name}
      ensures Classify(f) == RemoveTyping ==> typingUsers == old(typingUsers) - {client.name}
      ensures Classify(f) in {AddTyping, RemoveTyping} ==>
        && |sent| == 1 && IsPayload(sent[0].msg, TypingUsers)
        && multiset(sent[0].msg.users) == multiset(typingUsers)
        && sent[0].recipients == clients
    {
      match Classify(f)
      case Relay(m) =>
        var d := Broadcast(m, ok);
        sent := [d];
      case AddTyping =>
        typingUsers := typingUsers + {client.name};
        var d := UpdateTypingUsers(ok);
        sent := [d];
      case RemoveTyping =>
        typingUsers := typingUsers - {client.name};
        var d := UpdateTypingUsers(ok);
        sent := [d];
      case Ignore =>
        sent := [];
    }

    /**
     * The deferred cleanup: drop the client and its name from the typing set,
     * then announce both, in two broadcasts whose writes succeed where
     * `connectedOk` and `typingOk` say.
     */
    method Disconnect(client: Client, connectedOk: Client -> bool, typingOk: Client -> bool)
      returns (sent: seq<Delivery>)
      modifies this
      ensures typingUsers == old(typingUsers) - {client.name}
      ensures |sent| == 2
      ensures IsPayload(sent[0].msg, ConnectedUsers)
      ensures multiset(sent[0].msg.users) == NamesOf(old(clients) - {client})
      ensures sent[0].recipients == Surviving(old(clients) - {client}, connectedOk)
      ensures IsPayload(sent[1].msg, TypingUsers)
      ensures multiset(sent[1].msg.users) == multiset(typingUsers)
      ensures clients == sent[1].recipients == Surviving(sent[0].recipients, typingOk)
    {
      clients := clients - {client};
      typingUsers := typingUsers - {client.name};
      var d0 := UpdateConnectedUsers(connectedOk);
      var d1 := UpdateTypingUsers(typingOk);
      sent := [d0, d1];
    }

    /**
     * The read loop of `wsHandler` for a registered `client`, from frame
     * `start` on; the writes made for frame `k` succeed where `oks[k]` says.
     * It stops at the end of `frames` (a failed read) or once a broadcast has
     * dropped `client`: its connection is then closed and the next read
     * fails.  `read` is where it stopped.
     */
    method ReadLoop(client: Client, frames: seq<Frame>, start: nat, oks: seq<Client -> bool>)
      returns (read: nat, sent: seq<Delivery>)
      requires start <= |frames| == |oks|
      modifies this
      ensures start <= read <= |frames|
      ensures clients == Survivors(old(clients), frames, oks, start, read)
      ensures read > start ==> client in Survivors(old(clients), frames, oks, start, read - 1)
      ensures read < |frames| ==> client !in clients
      ensures typingUsers - {client.name} == old(typingUsers) - {client.name}
    {
      read, sent := start, [];
      while read < |frames| && client in clients
        invariant start <= read <= |frames|
        invariant clients == Survivors(old(clients), frames, oks, start, read)
        invariant read > start ==> client in Survivors(old(clients), frames, oks, start, read - 1)
        invariant typingUsers - {client.name} == old(typingUsers) - {client.name}
      {
        var s := HandleFrame(client, frames[read], oks[read]);
        sent := sent + s;
        read := read + 1;
      }
    }

    /**
     * `wsHandler` after the upgrade: `frames` are the frames the connection
     * delivers before a read fails.  The writes made for frame `k` (for the
     * join, frame 0) succeed where `oks[k]` says, those of the cleanup's two
     * broadcasts where `connectedOk` and `typingOk` say.  `read` counts the
     * frames consumed.
     */
    method Session(
      frames: seq<Frame>, oks: seq<Client -> bool>, connectedOk: Client -> bool, typingOk: Client -> bool)
      returns (client: Client?, read: nat, sent: seq<Delivery>)
      requires |oks| == |frames|
      modifies this
      ensures client == null <==> |frames| == 0 || !IsJoin(frames[0])
      ensures client == null ==>
        clients == old(clients) && typingUsers == old(typingUsers) && sent == []
      ensures client != null ==>
        && fresh(client) && client.name == frames[0].msg.name
        && 1 <= read <= |frames|
        && client !in clients
        && (forall c :: c in clients <==>
              c in old(clients) && oks[0](c) && Delivered(c, frames, oks, 1, read)
              && connectedOk(c) && typingOk(c))
        && (read > 1 ==> oks[0](client) && Delivered(client, frames, oks, 1, read - 1))
        && (read < |frames| ==> !(oks[0](client) && Delivered(client, frames, oks, 1, read)))
        && typingUsers == old(typingUsers) - {client.name}
    {
      if |frames| == 0 {
        return null, 0, [];
      }
      client, sent := Join(frames[0], oks[0]);
      if client == null {
        return client, 1, sent;
      }
      ghost var joined := clients;
      var s;
      read, s := ReadLoop(client, frames, 1, oks);
      SessionReads(joined, client, frames, oks, read);
      sent := sent + s;
      s := Disconnect(client, connectedOk, typingOk);
      sent := sent + s;
      SessionSurvivors(old(clients), client, frames, oks, read, connectedOk, typingOk, clients);
    }
  }

  /** Announcing typing twice leaves the typing set as announcing it once does. */
  method RepeatedTyping(hub: Hub, client: Client, ok: Client -> bool)
    modifies hub
    ensures hub.typingUsers == old(hub.typingUsers) + {client.name}
  {
    var typing := Decoded(Named(Typing, client.name));
    var first := hub.HandleFrame(client, typing, ok);
    var second := hub.HandleFrame(client, typing, ok);
  }

  /**
   * The typing set is keyed by name: when `a` leaves, the flag that `b`, a
   * different client with the same name, set is cleared as well, although
   * `b` stays connected.
   */
  method SharedNameCleanup(hub: Hub, a: Client, b: Client, ok: Client -> bool)
    requires a != b && a.name == b.name && b in hub.clients && ok(b)
    modifies hub
    ensures b in hub.clients && a !in hub.clients
    ensures b.name !in hub.typingUsers
  {
    var announced := hub.HandleFrame(b, Decoded(Named(Typing, b.name)), ok);
    assert b.name in hub.typingUsers;
    var cleanup := hub.Disconnect(a, ok, ok);
  }
}
