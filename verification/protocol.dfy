/**
 * The JSON frames exchanged over the `/ws` socket, as the Go server decodes
 * them into its `Message` struct.  JSON itself is not modelled: a frame is
 * either a decoded `Message` or one that failed to decode.
 */
module Protocol {

  /** The discriminators the server and the client switch on. */
  const Join := "join"
  const Chat := "chat"
  const ReactionType := "reaction"
  const Typing := "typing"
  const StopTyping := "stop_typing"
  const ConnectedUsers := "connected_users"
  const TypingUsers := "typing_users"

  /**
   * The server's generic message (its `Message` struct).  `kind` is the JSON
   * field `type`; a field missing from the JSON decodes to "" (or [] / 0).
   */
  datatype Message = Message(
    kind: string,
    name: string,
    avatar: string,
    message: string,
    messageId: string,
    reaction: string,
    users: seq<string>,
    count: int,
    id: string)

  /** A message that sets only `type` and `name`, as `join`, `typing` and `stop_typing` frames do. */
  function Named(kind: string, name: string): Message
  {
    Message(kind, name, "", "", "", "", [], 0, "")
  }

  /** One text frame read from a connection: it decodes into a `Message`, or it does not. */
  datatype Frame = Decoded(msg: Message) | Malformed

  /** The handshake test: the frame decodes and its type is `join`. */
  predicate IsJoin(f: Frame)
  {
    f.Decoded? && f.msg.kind == Join
  }
}
