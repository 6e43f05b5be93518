/**
 * The page's outgoing side: the join sent when the socket opens, the typing
 * announcement with its 2-second retraction timer, `sendMessage` and
 * `sendReaction`.  `sent` lists, in order, every frame handed to `ws.send`.
 * The timer's delay is not modelled: `TypingTimeout` is the moment it fires.
 */
module Sender {
  import opened Protocol

  /** Whether the last `typing`/`stop_typing` frame in `frames` is a `typing`. */
  function TypingAnnounced(frames: seq<Message>): bool
  {
    if frames == [] then false
    else
      var last := frames[|frames| - 1];
      if last.kind == Typing then true
      else if last.kind == StopTyping then false
      else TypingAnnounced(frames[..|frames| - 1])
  }

  /** The `chat` frame `sendMessage` builds. */
  function ChatFrame(name: string, avatar: string, text: string, id: string): Message
  {
    Message(Chat, name, avatar, text, "", "", [], 0, id)
  }

  /** The `reaction` frame `sendReaction` builds. */
  function ReactionFrame(name: string, messageId: string, emoji: string): Message
  {
    Message(ReactionType, name, "", "", messageId, emoji, [], 0, "")
  }

  class Composer {
    /** The random display name and its avatar URL, fixed for the page's life. */
    const name: string
    const avatar: string
    /** Whether `ws` is set. */
    var hasSocket: bool
    /** The text field. */
    var input: string
    /** Whether `typingTimeout` holds a pending `stop_typing` callback. */
    var timerArmed: bool
    /** The frames handed to `ws.send`, oldest first. */
    var sent: seq<Message>

    /**
     * A `stop_typing` is scheduled exactly while the last typing
     * announcement stands, and only with a socket to send it on.
     */
    ghost predicate Valid()
      reads this
    {
      && (timerArmed <==> TypingAnnounced(sent))
      && (timerArmed ==> hasSocket)
    }

    constructor (name: string, avatar: string)
      ensures Valid()
      ensures this.name == name && this.avatar == avatar
      ensures !hasSocket && input == "" && sent == []
    {
      this.name := name;
      this.avatar := avatar;
      hasSocket := false;
      input := "";
      timerArmed := false;
      sent := [];
    }

    /** The mount effect stores the new socket with `setWs`. */
    method Mount()
      requires Valid()
      modifies this
      ensures Valid() && hasSocket
      ensures input == old(input) && sent == old(sent) && timerArmed == old(timerArmed)
    {
      hasSocket := true;
    }

    /** `onopen`: announce the page's name, which the server's handshake accepts. */
    method OnOpen()
      requires Valid() && hasSocket
      modifies this`sent
      ensures Valid()
      ensures sent == old(sent) + [Named(Join, name)]
      ensures IsJoin(Decoded(sent[|sent| - 1]))
    {
      sent := sent + [Named(Join, name)];
    }

    /** The text field's `onChange`. */
    method SetInput(value: string)
      requires Valid()
      modifies this`input
      ensures Valid() && input == value
    {
      input := value;
    }

    /** `handleTyping`: with an open socket, announce typing and (re)arm the retraction timer. */
    method HandleTyping(open: bool)
      requires Valid()
      modifies this`sent, this`timerArmed
      ensures Valid()
      ensures hasSocket && open ==> sent == old(sent) + [Named(Typing, name)] && timerArmed
      ensures !(hasSocket && open) ==> sent == old(sent) && timerArmed == old(timerArmed)
    {
      if hasSocket && open {
        sent := sent + [Named(Typing, name)];
        timerArmed := true;
      }
    }

    /** The retraction timer fires: retract the announcement. */
    method TypingTimeout()
      requires Valid()
      modifies this`sent, this`timerArmed
      ensures Valid() && !timerArmed
      ensures old(timerArmed) ==> sent == old(sent) + [Named(StopTyping, name)]
      ensures !old(timerArmed) ==> sent == old(sent)
    {
      if timerArmed {
        sent := sent + [Named(StopTyping, name)];
        timerArmed := false;
      }
    }

    /**
     * `sendMessage`: with a socket and a non-empty field, send the text as a
     * `chat` frame stamped `id`, then `stop_typing`; clear the field and the
     * timer.  Otherwise do nothing.
     */
    method SendMessage(id: string)
      requires Valid()
      modifies this`sent, this`input, this`timerArmed
      ensures Valid()
      ensures old(hasSocket && input != "") ==>
        && sent == old(sent) + [ChatFrame(name, avatar, old(input), id), Named(StopTyping, name)]
        && input == "" && !timerArmed
      ensures !old(hasSocket && input != "") ==>
        sent == old(sent) && input == old(input) && timerArmed == old(timerArmed)
    {
      if hasSocket && input != "" {
        sent := sent + [ChatFrame(name, avatar, input, id)];
        input := "";
        timerArmed := false;
        sent := sent + [Named(StopTyping, name)];
      }
    }

    /** `sendReaction`: with a socket, send the reaction; nothing else changes. */
    method SendReaction(messageId: string, emoji: string)
      requires Valid()
      modifies this`sent
      ensures Valid()
      ensures hasSocket ==> sent == old(sent) + [ReactionFrame(name, messageId, emoji)]
      ensures !hasSocket ==> sent == old(sent)
    {
      if hasSocket {
        assert TypingAnnounced(sent + [ReactionFrame(name, messageId, emoji)]) == TypingAnnounced(sent) by {
          assert (sent + [ReactionFrame(name, messageId, emoji)])[..|sent|] == sent;
        }
        sent := sent + [ReactionFrame(name, messageId, emoji)];
      }
    }
  }
}
