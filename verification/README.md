# Chat presence hub and page reducer, in Dafny

This project models the two small state machines of a WebSocket chat
application (*messagerie*): the Go server's presence hub and the React
page's handling of frames.

**Server** (`server.dfy`, module `Server`). The hub holds the set of
registered connections (`clients`, each a `Client` object with a display name)
and the set of names currently typing (`typingUsers`). A connection becomes a
client only if its first frame decodes as a `join`. The read loop relays
`chat` and `reaction` frames unchanged to every client, the sender included.
`typing` and `stop_typing` add or remove the sender's name and then broadcast
the `typing_users` payload. A frame that does not decode, or whose type is
unknown, changes nothing and leaves the connection open. On disconnect the
client and its name are removed, and both payloads are broadcast. Every
broadcast drops a client whose write fails. Such a client's connection is
closed, so its own read loop ends too. Whether a write succeeds is an input
predicate `ok: Client -> bool`.

**Page** (`reducer.dfy`, `indicator.dfy`, `sender.dfy`).
- `Reducer.OnMessage` is the `onmessage` switch, a pure transition of the
  message list, the connected list and the typing list.
- `Indicator.TypingText` is the "X, Y, Z et N autres écrivent..." line.
- `Sender.Composer` is the outgoing side. `sent` records every frame handed to
  `ws.send`, in order. Its invariant says that a `stop_typing` timer is pending
  exactly while the last `typing` announcement has not been retracted.

`protocol.dfy` holds the server's `Message` struct as a datatype, shared by both
sides. `wrappers.dfy` holds `Option`.

The server code has no message store, no server-assigned ids, no check that a
reaction's target exists and no server-side typing timer. The model follows
the code: `chat` and `reaction` frames are relayed as they are. The typing timeout lives only in
the page.

## Model

| member | source | states |
|---|---|---|
| Server.Hub.constructor | backend/main.go:29-32 | the hub starts with no clients and nobody typing |
| Server.Hub.Broadcast | backend/main.go:47-59 | afterwards `clients` is exactly the earlier clients whose write succeeded; they are the recipients of the unchanged message; the typing set is untouched |
| Server.NamesOf | backend/main.go:62-65 | the connected names hold one entry per client |
| Server.NamesOfRemove | backend/main.go:63-65 | the multiset of names does not depend on the order in which clients are visited |
| Server.NamesOfMembers | backend/main.go:62-65 | a name is listed exactly when some client carries it |
| Server.Hub.ConnectedUsersPayload | backend/main.go:61-70 | a `connected_users` message whose `Users` hold one name per client (as a multiset, since map order is unspecified) and whose `Count` is their number; other fields empty |
| Server.Hub.TypingUsersPayload | backend/main.go:73-82 | a `typing_users` message whose `Users` hold each typing name once and whose `Count` is their number |
| Server.Hub.UpdateConnectedUsers | backend/main.go:61-71 | broadcasts the names of the clients registered before the broadcast; prunes failed writes |
| Server.Hub.UpdateTypingUsers | backend/main.go:73-83 | broadcasts the typing names; prunes failed writes; the typing set is unchanged |
| Server.Classify | backend/main.go:129-149 | `chat` and `reaction` frames are relayed unchanged, `typing`/`stop_typing` toggle, and a malformed frame or any other type is ignored (each case if and only if) |
| Server.Hub.Join | backend/main.go:92-111 | a client is created exactly when the first frame decodes with type `join`; it is fresh and carries the frame's name; it is added to the clients and nothing else is; then a `connected_users` message is broadcast whose `Users` name every client registered at that point (the new one included) and whose `Count` is their number; otherwise clients, typing set and output are unchanged |
| Server.Hub.HandleFrame | backend/main.go:129-149 | ignored frames change nothing and send nothing; relayed frames go out unchanged to all surviving clients, the sender included, without touching the typing set; `typing` adds the sender's name, `stop_typing` removes it, and then a `typing_users` message is broadcast whose `Users` hold each name of the new typing set once and whose `Count` is its size |
| Server.Hub.Disconnect | backend/main.go:113-121 | the client leaves `clients` and its name leaves `typingUsers`, which clears a same-named client's flag too; then two broadcasts, each with its own write outcomes: a `connected_users` message (one name per remaining client, `Count` their number) reaches the remaining clients whose first write succeeds, and a `typing_users` message (each remaining typing name once, `Count` its size) reaches those of them whose second write succeeds; these last are the new `clients` |
| Server.Hub.ReadLoop | backend/main.go:123-150 | each frame may meet its own write outcome; the loop reads frames while its client stays registered, so a loop that stops early has lost its client, and the client was still registered when the last frame was read; the clients are then exactly those that survived every broadcast so far; only the client's own name can enter or leave the typing set |
| Server.SurvivorsMembers | backend/main.go:47-59 | after a run of frames, a client is still registered exactly when it was registered before and its write succeeded at every broadcasting frame; a removed client had a failing write at some frame |
| Server.Hub.Session | backend/main.go:92-151 | a connection without a first `join` frame leaves the hub unchanged; otherwise it ends unregistered, a client remains exactly when it was there before and its write succeeded at the join, at every broadcasting frame that was read and at both cleanup broadcasts, the typing set is as before minus the client's name, and a read stops before the end only because the client's own write failed |
| Server.SessionSurvivors | backend/main.go:113-121 | after the join, the frames and the cleanup, the session's client is gone and every other client remains exactly when each of its writes succeeded |
| Server.RepeatedTyping | backend/main.go:139-143 | a second `typing` frame from the same client leaves the typing set as the first left it |
| Server.SharedNameCleanup | backend/main.go:113-117 | when a client leaves, a still-connected client with the same name loses its typing flag |
| Reducer.React | frontend/src/App.js:47-59 | the `reaction` update keeps the list's length and order; each message whose `id` equals `messageId` gets the reaction, every other message is left as it was |
| Reducer.WithoutSelfCount | frontend/src/App.js:64-66 | the filtered typing list holds the payload's names with every occurrence of the page's own name removed |
| Reducer.UnknownIgnored | frontend/src/App.js:39-76 | a frame that fails to parse, or whose type is none of the four handled, leaves the state unchanged |
| Reducer.ChatAppends | frontend/src/App.js:43-45 | `chat` adds the frame as the last message; earlier messages and both user lists are unchanged |
| Reducer.ReactionUpdates | frontend/src/App.js:46-60 | `reaction` keeps the list's length and both user lists. A message whose `id` matches gets the new `{name, emoji}` after its earlier reactions (none counts as empty), and nothing else of it changes. Any other message is unchanged |
| Reducer.ReactionWithoutTarget | frontend/src/App.js:47-59 | a reaction whose `messageId` matches no message leaves the list unchanged |
| Reducer.ReactionNeedsMessage | frontend/src/App.js:39-60 | from a fresh page, `chat` then a matching `reaction` leaves the message with the reaction; the other order leaves it without, since reactions only attach to messages already on the page |
| Reducer.WithoutSelfAppend | frontend/src/App.js:66 | the filter keeps the payload's order: it distributes over concatenation |
| Reducer.WithoutSelfKeeps | frontend/src/App.js:66 | a payload without the page's own name is kept as it is |
| Reducer.UserListsReplaced | frontend/src/App.js:61-70 | `typing_users` sets the typing list to the payload minus the own name, or to [] when `users` is not an array; `connected_users` replaces the connected list wholesale; nothing else changes |
| Indicator.Decimal | frontend/src/App.js:136 | the count of further typists is rendered as a non-empty string of decimal digits without a leading zero; "0" exactly for zero |
| Indicator.DecimalRoundTrip | frontend/src/App.js:136 | reading the rendered count back gives the count |
| Indicator.TypingTextEmpty | frontend/src/App.js:133 | the line is empty exactly when nobody types |
| Indicator.TypingTextNames | frontend/src/App.js:134 | the line opens with the first min(3, n) names, in order, joined by ", " |
| Indicator.TypingTextOthers | frontend/src/App.js:135-137 | after the names the line starts with " et " exactly when n > 3, and then reads " et (n-3) autres" before the verb; for at most three names only a space and the verb follow |
| Indicator.TypingTextVerb | frontend/src/App.js:138 | the line ends with "écrivent..." exactly when n > 1 and with "écrit..." exactly when n == 1 |
| Indicator.TypingTextFirstThree | frontend/src/App.js:133-138 | names after the third never reach the line: only the count and the first three matter |
| Sender.Composer.constructor | frontend/src/App.js:12-24 | the page starts with no socket, an empty field, no pending timer and nothing sent |
| Sender.Composer.Mount | frontend/src/App.js:79 | the socket is stored; nothing is sent |
| Sender.Composer.OnOpen | frontend/src/App.js:29-36 | opening sends one `join` frame with the page's name, which passes the server's handshake test |
| Sender.Composer.SetInput | frontend/src/App.js:199 | the field takes the typed value |
| Sender.Composer.HandleTyping | frontend/src/App.js:99-108 | with a socket in the open state, one `typing` frame is sent and the timer is (re)armed; otherwise nothing happens |
| Sender.Composer.TypingTimeout | frontend/src/App.js:104-106 | a pending timer sends one `stop_typing` frame and is disarmed |
| Sender.Composer.SendMessage | frontend/src/App.js:83-97 | with a socket and a non-empty field: a `chat` frame carrying the field, then `stop_typing`; the field is cleared and the timer cancelled. Otherwise nothing is sent and nothing changes |
| Sender.Composer.SendReaction | frontend/src/App.js:110-121 | with a socket, exactly one `reaction` frame naming the message and the emoji is sent; the typing invariant is kept |

## Left out

- The WebSocket upgrade, `ReadMessage`/`WriteMessage`, the file server and `ListenAndServe` (backend/main.go:85-91, 153-162) are network I/O. A connection is the sequence of frames it delivers before a read fails, and the outcome of the writes during one broadcast is a predicate `ok` on clients: one per frame in the read loop, and one for each of the two cleanup broadcasts.
- The mutex and the unlocked reads in `updateConnectedUsers`/`updateTypingUsers` (backend/main.go:48-49, 62-65, 74-77): the hub has one sequential owner, so interleavings of concurrent handlers are not modelled.
- JSON encoding and the `omitempty` tags (backend/main.go:35-45): frames are datatypes. On the page, an absent field is `None`: `id`, `messageId` and a non-array `users`.
- Go's map iteration order: the payloads' `Users` are stated as multisets.
- `conn.Close()` after a failed write is modelled as the client leaving `clients`; the closed socket itself is not.
- Server.Hub.Session: states the final hub state and the number of frames read, but not the full list of deliveries. Each step's deliveries are stated by Join, HandleFrame and Disconnect.
- Server.Hub.ReadLoop: does not state the deliveries it returns (HandleFrame states them frame by frame).
- React rendering, `useState`/`useEffect` wiring and styling (frontend/src/App.js:123-213), and the socket's `close()` on unmount (line 80).
- `getRandomName`'s randomness, `encodeURIComponent` for the avatar URL and `Date.now()` for the message id (frontend/src/App.js:3-9, 19-21, 90): the name and avatar are constructor arguments, and the id is a parameter of `SendMessage`.
- The 2-second delay of the typing timer: `TypingTimeout` is the moment the timer fires.
- The browser's handling of `ws.send` on a socket that is not open (it throws while connecting): `sent` records every call the page makes.
- A `reactions` field that holds something other than an array, and a parsed frame that is not an object: the first is not modelled, and the second counts as a frame that fails to parse.
