# Room-scoped chat events, modelled in Dafny

This project models the real-time core of a small chat application. Anonymous participants join a
room under a nickname and exchange messages that are stored in a database and broadcast to the
room. It covers two files:

- `lib/socket.ts`, the Socket.IO server. It has `initSocket`, `getIO` and the per-connection
  handlers for `join-room`, `leave-room`, `send-message` and `disconnect`.
- `lib/socket-client.ts`, the browser-side `SocketManager`. It holds at most one socket, emits
  the client's three events, and dispatches inbound events to per-room callbacks.

Modules, one file each:

- `Wrappers`: `Option` and `Result`.
- `JsString`: `String.prototype.trim` of ECMA-262. It is written out over the WhiteSpace
  (section 12.2) and LineTerminator (section 12.3) code points.
- `Rooms`: room membership, a map from room name to the set of joined connections. A connection
  may be in several rooms at once.
- `Events`: the stored record and the events the server emits.
  - An emission is one `emit` call: an event plus the recipient set it resolved to at that moment.
  - The outbox is every emission, in order.
  - `Inbox(outbox, c)` is what connection `c` received, in order.
- `Socket`: two classes.
  - `ChatServer` holds the membership map, the message store (append-only) and the outbox; the
    connection handlers are its methods.
  - `SocketModule` is the module-level `io` variable.
- `SocketClient`: the `SocketManager` class.
  - Its state is a connected flag (the `socket` field non-null), the callback map, a log of
    emitted events and a log of callback invocations.
  - Callbacks are opaque identifiers.
- `Wire`: the server's events as the client's handlers receive them.
- `Scenarios`: scenario methods, checked against the contracts of the server and client classes.

`ChatServer.Valid()` is the invariant every handler keeps:

- every stored record has its position as its id;
- every stored record has a non-empty room and sender;
- every stored text is non-empty and has no whitespace at either end;
- the `new-message` events emitted so far are exactly the stored records, in store order.

So nothing is broadcast before it is stored, and no stored message goes unannounced.
`Events.ReceivedInStoreOrder` derives a per-connection ordering from the last point: every
connection receives its `new-message` events in the order the records were stored.

The server's `user-joined` and `user-left` payloads carry no `roomId`, but the client looks its
callback up by `data.roomId`. Each file is modelled as written: the client payload's `roomId` is
an `Option`, `None` standing for `undefined`. `Wire.NoticeReachesNoCallback` states the
consequence: no callback ever fires for a server notice.

What the code does not do, and neither does the model:

- `join-room` does not check nickname length or emptiness.
- Joining a second room does not leave the first.
- `disconnect` emits no departure notice.
- Text length is not checked.
- `leave-room` does not check membership: a connection that is not a member still sends
  `user-left` to the room (lib/socket.ts:63-73).

Inputs from the outside world become parameters:

- `now` is the `Date` of a notice or of `Date.now` at store time.
- `persisted` says whether `Message.create` succeeded.

A stored record's id is its position in the store. It stands in for the database's ObjectId and
makes ids unique.

## Model

| member | source | states |
|---|---|---|
| JsString.Trim | lib/socket.ts:91 | `text.trim()` is no longer than the text, and a non-empty result neither starts nor ends with whitespace |
| JsString.TrimIsSlice | lib/socket.ts:91 | the trimmed text is a contiguous slice of the original, and all that was cut off on both sides is whitespace |
| JsString.TrimEmptyIffAllWhitespace | lib/socket.ts:82 | `text.trim() === ''` holds exactly when every character of the text is whitespace (both directions) |
| JsString.TrimIdempotent | lib/socket.ts:91 | trimming the stored (already trimmed) text again changes nothing |
| Rooms.Join | lib/socket.ts:50 | after `socket.join`, the connection is in the room; every other room's members and every other connection's memberships are unchanged |
| Rooms.Leave | lib/socket.ts:64 | after `socket.leave`, the connection is not in the room and the other rooms are unchanged; leaving a room it was never in changes nothing |
| Rooms.LeaveUndoesJoin | lib/socket.ts:49-74 | leaving right after joining a room one was not in restores every room's membership |
| Socket.IsValidSend | lib/socket.ts:82 | the send guard accepts exactly when `roomId` and `sender` are non-empty and the text has a non-whitespace character |
| Socket.ChatServer.HandleJoinRoom | lib/socket.ts:49-60 | the joiner becomes a member and keeps its other rooms; one `user-joined` notice (`sender` = nickname, text `<nickname> joined the room`, `isSystemMessage` true) reaches every earlier member, never the joiner; the store is unchanged; the invariant is kept |
| Socket.ChatServer.HandleLeaveRoom | lib/socket.ts:63-74 | the leaver is no longer a member; a `user-left` notice reaches the remaining members, never the leaver, and is sent whether or not the leaver was a member; the store is unchanged |
| Socket.ChatServer.HandleSendMessage | lib/socket.ts:77-111 | invalid data: exactly one `Invalid message data` error, to the sender only, nothing stored; failed save: exactly one `Failed to send message` error, to the sender only, nothing stored or broadcast; otherwise exactly one record with the trimmed text is appended, then its `new-message` (id, roomId, sender, text, timestamp of the record) reaches every member, the sender included; membership is unchanged |
| Socket.ChatServer.Publish | lib/socket.ts:88-105 | the record is appended to the store and only then broadcast to all members of its room, keeping the store/broadcast invariant |
| Socket.ChatServer.HandleDisconnect | lib/socket.ts:114-116 | the disconnect handler changes nothing and emits nothing |
| Socket.ChatServer.constructor | lib/socket.ts:26-36 | a new server has no rooms, no stored messages and no emissions, and satisfies the invariant |
| Socket.SocketModule.constructor | lib/socket.ts:21 | `io` starts undefined |
| Socket.SocketModule.InitSocket | lib/socket.ts:23-128 | the first call creates a fresh, empty server and keeps it; every later call returns that same server and creates nothing; the server returned keeps the server invariant |
| Socket.SocketModule.GetIO | lib/socket.ts:130-135 | `getIO` fails with `Socket.IO not initialized!` exactly when no server exists, and otherwise returns the singleton, which keeps the server invariant so its handlers can be called |
| Socket.ChatServer.Emit | lib/socket.ts:105 | one `emit` (as at lib/socket.ts:54, 68, 83, 105 and 109): one emission is appended, it reaches exactly its recipients, and only a `new-message` adds to the broadcast messages |
| Events.MessageData | lib/socket.ts:97-103 | the `new-message` payload carries the stored record's id, roomId, sender, text and timestamp |
| Events.JoinedNotice | lib/socket.ts:54-59 | the `user-joined` payload: sender the nickname, text `<nickname> joined the room`, the given timestamp, `isSystemMessage` true |
| Events.LeftNotice | lib/socket.ts:68-73 | the `user-left` payload: sender the nickname, text `<nickname> left the room`, the given timestamp, `isSystemMessage` true |
| JsString.TrimStart | lib/socket.ts:91 | the leading half of `trim`: a suffix of the text, everything dropped is whitespace, and a non-empty result starts with a non-whitespace character |
| JsString.TrimEnd | lib/socket.ts:91 | the trailing half of `trim`: a prefix of the text, everything dropped is whitespace, and a non-empty result ends with a non-whitespace character |
| Events.ReceivedInStoreOrder | lib/socket.ts:88-105 | when broadcasts equal the stored records in order, each connection receives its `new-message` events as a subsequence of the store, in store order |
| Events.InboxAppend | lib/socket.ts:105 | an emission reaches a connection exactly when it is among the recipients; earlier deliveries are kept |
| SocketClient.Dispatch | lib/socket-client.ts:32-52 | the lookup-then-invoke rule: exactly one call of the room's registered callback, with the payload itself, when the key names a room with a callback, and no call otherwise |
| SocketClient.SocketManager.constructor | lib/socket-client.ts:11-12 | the manager starts with no socket, no callbacks and empty logs |
| SocketClient.SocketManager.Connect | lib/socket-client.ts:14-53 | afterwards a socket exists; when one already existed nothing changes (idempotent); otherwise exactly one socket is created; callbacks and logs are untouched |
| SocketClient.SocketManager.Disconnect | lib/socket-client.ts:55-60 | afterwards no socket exists; a no-op when already disconnected; callbacks and logs are untouched |
| SocketClient.SocketManager.EmitIfConnected | lib/socket-client.ts:63-65 | the `if (this.socket) this.socket.emit(...)` guard shared by the three emit methods (also lib/socket-client.ts:69-71, 75-77): exactly one event appended when connected, none otherwise |
| SocketClient.SocketManager.JoinRoom | lib/socket-client.ts:62-66 | emits exactly one `join-room` with the given room, nickname and `isHost` (false by default) when connected, and nothing otherwise |
| SocketClient.SocketManager.LeaveRoom | lib/socket-client.ts:68-72 | emits exactly one `leave-room` with the given fields when connected, and nothing otherwise |
| SocketClient.SocketManager.SendMessage | lib/socket-client.ts:74-78 | emits exactly one `send-message` with the given, untrimmed fields when connected, and nothing otherwise |
| SocketClient.SocketManager.OnMessage | lib/socket-client.ts:80-82 | the callback becomes the room's entry, replacing any earlier one; other rooms' entries are unchanged |
| SocketClient.SocketManager.OffMessage | lib/socket-client.ts:84-86 | only that room's entry is removed; removing an absent entry changes nothing |
| SocketClient.SocketManager.ReceiveNewMessage | lib/socket-client.ts:32-37 | an inbound `new-message` invokes the callback of `message.roomId` once if one is registered, and nothing otherwise |
| SocketClient.SocketManager.ReceiveUserJoined | lib/socket-client.ts:39-45 | an inbound `user-joined` follows the same rule, keyed on the payload's `roomId` |
| SocketClient.SocketManager.ReceiveUserLeft | lib/socket-client.ts:47-52 | an inbound `user-left` follows the same rule, keyed on the payload's `roomId` |
| Wire.NoticeReachesNoCallback | lib/socket.ts:54-59 | a server join or leave notice has no `roomId`, so the client's lookup finds no callback, whatever is registered |
| Wire.MessageReachesRoomCallback | lib/socket-client.ts:32-37 | a broadcast `new-message` reaches exactly the callback registered for its record's room, once |

## Left out

- Socket.IO transport and CORS options (`lib/socket.ts:26-36`): library configuration.
- The HTTP server argument of `initSocket`: library configuration.
- The client's connection URL and options: library configuration.
- The database connection (`dbConnect`) and every `console.log` / `console.error` line: they
  have no effect on the modelled state.
- The socket `error` handler: it only logs.
- The client's `connect` and `disconnect` log handlers: they only log.
- Interleaving of handler calls across connections, including a send suspended at its database
  `await`: each handler call is treated as one atomic step.
- Socket.IO's own removal of a closed connection from its rooms: library behaviour, not in the
  source.
- Delivery failures to closed connections: library behaviour, not in the source.
- Payloads that are not objects of strings. A missing field is `undefined` and fails the
  `!roomId || !sender || !text` test of lib/socket.ts:82, so it gets `Invalid message data`,
  like the empty string the model uses for it. A truthy `text` that is not a string (a number,
  say) reaches `text.trim()`, which throws, and the catch at lib/socket.ts:107-110 sends
  `Failed to send message`. A missing payload object makes the destructuring at
  lib/socket.ts:79 throw into the same catch. The modelled payloads are strings, as the client
  always sends.
- Database ObjectIds and `Date` values: ids are store positions, timestamps are opaque integers
  passed in.
- JavaScript strings are UTF-16 code units while Dafny characters are code points. Every
  whitespace character is a single unit, so trimming is unaffected.
- What a client callback does when called: it is an opaque identifier, and a call is recorded as
  an invocation.
- The client's `SocketMessage` type lists no `id`, though the received object has one. The
  model keeps the declared type.
- Inbound client events with no socket: the handlers live on the socket object, so an event can
  arrive only while a socket exists, and the model drops one that arrives while disconnected.
- The room pages, HTTP routes, authentication and database schemas: outside the modelled core.
