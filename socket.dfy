/**
 * The chat server of `lib/socket.ts`: the `join-room`, `leave-room`, `send-message` and
 * `disconnect` handlers that every connection registers, and the module-level `io` singleton
 * that `initSocket` creates once and `getIO` hands out. Each handler call runs to completion
 * before the next one starts.
 */
module Socket {
  import opened Wrappers
  import opened JsString
  import opened Rooms
  import opened Events

  const InvalidMessageData := "Invalid message data"
  const FailedToSendMessage := "Failed to send message"
  const NotInitialized := "Socket.IO not initialized!"

  /** The guard of `send-message`: `roomId`, `sender` and `text` are non-empty and `text.trim()`
      is not empty, that is, `text` holds some non-whitespace character. */
  function IsValidSend(roomId: RoomId, sender: string, text: string): (ok: bool)
    ensures ok <==> roomId != [] && sender != [] && !AllWhitespace(text)
  {
    TrimEmptyIffAllWhitespace(text);
    !(roomId == [] || sender == [] || text == [] || Trim(text) == [])
  }

  /** What the store accepts from the handler: the checked room and sender, and a text that is
      already trimmed and therefore neither empty nor padded with whitespace. */
  predicate IsPersistable(m: StoredMessage) {
    m.roomId != [] && m.sender != [] && m.text != []
    && !IsWhitespace(m.text[0]) && !IsWhitespace(m.text[|m.text| - 1])
  }

  /** The state a Socket.IO server shares among its connections: the rooms, the message store
      and every emission made so far. */
  class ChatServer {
    var rooms: Membership
    var store: seq<StoredMessage>
    var outbox: seq<Emission>

    /** Every record has its position as its id and passed the handler's checks, and the
        `new-message` events sent so far are exactly the store's records, in store order:
        nothing is broadcast that was not stored, and nothing stored goes unannounced. */
    ghost predicate Valid()
      reads this
    {
      (forall i :: 0 <= i < |store| ==> store[i].id == i && IsPersistable(store[i]))
      && NewMessages(Emitted(outbox)) == Broadcasts(store)
    }

    /** A freshly created server: no rooms, nothing stored, nothing sent. */
    constructor ()
      ensures Valid()
      ensures rooms == map[] && store == [] && outbox == []
    {
      rooms, store, outbox := map[], [], [];
    }

    /** One `emit` of `event` to `recipients`. */
    method Emit(recipients: set<ConnId>, event: ServerEvent)
      modifies this`outbox
      ensures outbox == old(outbox) + [Emission(recipients, event)]
      ensures NewMessages(Emitted(outbox))
           == NewMessages(Emitted(old(outbox))) + (if event.NewMessage? then [event] else [])
      ensures forall c ::
                Inbox(outbox, c) == Inbox(old(outbox), c) + (if c in recipients then [event] else [])
    {
      var e := Emission(recipients, event);
      EmittedAppend(outbox, e);
      NewMessagesAppend(Emitted(outbox), event);
      forall c ensures Inbox(outbox + [e], c)
                    == Inbox(outbox, c) + (if c in recipients then [event] else []) {
        InboxAppend(outbox, e, c);
      }
      outbox := outbox + [e];
    }

    /** `join-room`: the connection joins the room, keeping its other rooms, and every other
        member of the room is told; the joiner is not. `isHost` only feeds a log line. */
    method HandleJoinRoom(conn: ConnId, roomId: RoomId, nickname: string, now: Timestamp,
                          isHost: bool := false)
      requires Valid()
      modifies this
      ensures Valid()
      ensures rooms == Join(old(rooms), roomId, conn) && store == old(store)
      ensures outbox == old(outbox)
                      + [Emission(Members(old(rooms), roomId) - {conn},
                                  UserJoined(JoinedNotice(nickname, now)))]
      ensures Inbox(outbox, conn) == Inbox(old(outbox), conn)
      ensures forall c :: c != conn ==>
                Inbox(outbox, c) == Inbox(old(outbox), c)
                  + (if c in Members(old(rooms), roomId) then [UserJoined(JoinedNotice(nickname, now))] else [])
    {
      rooms := Join(rooms, roomId, conn);
      assert Members(rooms, roomId) - {conn} == Members(old(rooms), roomId) - {conn};
      Emit(Members(rooms, roomId) - {conn}, UserJoined(JoinedNotice(nickname, now)));
    }

    /** `leave-room`: the connection leaves the room and the remaining members are told, whether
        or not the connection was a member. */
    method HandleLeaveRoom(conn: ConnId, roomId: RoomId, nickname: string, now: Timestamp)
      requires Valid()
      modifies this
      ensures Valid()
      ensures rooms == Leave(old(rooms), roomId, conn) && store == old(store)
      ensures outbox == old(outbox)
                      + [Emission(Members(old(rooms), roomId) - {conn},
                                  UserLeft(LeftNotice(nickname, now)))]
      ensures Inbox(outbox, conn) == Inbox(old(outbox), conn)
      ensures forall c :: c != conn ==>
                Inbox(outbox, c) == Inbox(old(outbox), c)
                  + (if c in Members(old(rooms), roomId) then [UserLeft(LeftNotice(nickname, now))] else [])
    {
      rooms := Leave(rooms, roomId, conn);
      assert Members(rooms, roomId) - {conn} == Members(old(rooms), roomId) - {conn};
      Emit(Members(rooms, roomId) - {conn}, UserLeft(LeftNotice(nickname, now)));
    }

    /** `send-message`. Invalid data: one `Invalid message data` error to the sender only.
        Valid data whose save fails (`persisted` false): one `Failed to send message` error to
        the sender only. Otherwise the trimmed text is stored as a new record, and only then is
        that record broadcast to every member of the room, the sender included. */
    method HandleSendMessage(conn: ConnId, roomId: RoomId, sender: string, text: string,
                             persisted: bool, now: Timestamp)
      requires Valid()
      modifies this
      ensures Valid()
      ensures rooms == old(rooms)
      ensures !IsValidSend(roomId, sender, text) ==>
                store == old(store)
                && outbox == old(outbox) + [Emission({conn}, Error(InvalidMessageData))]
      ensures IsValidSend(roomId, sender, text) && !persisted ==>
                store == old(store)
                && outbox == old(outbox) + [Emission({conn}, Error(FailedToSendMessage))]
      ensures IsValidSend(roomId, sender, text) && persisted ==>
                store == old(store) + [StoredMessage(|old(store)|, roomId, sender, Trim(text), now)]
                && outbox == old(outbox)
                             + [Emission(Members(rooms, roomId), MessageData(store[|old(store)|]))]
      ensures !IsValidSend(roomId, sender, text) ==>
                forall c :: Inbox(outbox, c) == Inbox(old(outbox), c)
                     + (if c == conn then [Error(InvalidMessageData)] else [])
      ensures IsValidSend(roomId, sender, text) && !persisted ==>
                forall c :: Inbox(outbox, c) == Inbox(old(outbox), c)
                     + (if c == conn then [Error(FailedToSendMessage)] else [])
      ensures IsValidSend(roomId, sender, text) && persisted ==>
                forall c :: Inbox(outbox, c) == Inbox(old(outbox), c)
                     + (if c in Members(rooms, roomId) then [MessageData(store[|store| - 1])] else [])
    {
      if !IsValidSend(roomId, sender, text) {
        Emit({conn}, Error(InvalidMessageData));
        return;
      }
      if !persisted {
        Emit({conn}, Error(FailedToSendMessage));
        return;
      }
      Publish(StoredMessage(|store|, roomId, sender, Trim(text), now));
    }

    /** The successful end of `send-message`: the record is appended to the store, then
        broadcast to every member of its room. */
    method Publish(message: StoredMessage)
      requires Valid()
      requires message.id == |store| && IsPersistable(message)
      modifies this
      ensures Valid()
      ensures rooms == old(rooms) && store == old(store) + [message]
      ensures outbox == old(outbox) + [Emission(Members(rooms, message.roomId), MessageData(message))]
      ensures forall c ::
                Inbox(outbox, c) == Inbox(old(outbox), c)
                  + (if c in Members(rooms, message.roomId) then [MessageData(message)] else [])
    {
      BroadcastsAppend(store, message);
      store := store + [message];
      Emit(Members(rooms, message.roomId), MessageData(message));
    }

    /** `disconnect`: only a log line; no notice is sent and nothing changes. */
    method HandleDisconnect(conn: ConnId)
      ensures unchanged(this)
    {
    }
  }

  /** The module-level `io` variable of `lib/socket.ts`, undefined until `initSocket` runs. */
  class SocketModule {
    var io: ChatServer?

    /** Once the server exists, it keeps the server invariant. */
    ghost predicate Valid()
      reads this, io
    {
      io != null ==> io.Valid()
    }

    constructor ()
      ensures Valid() && io == null
    {
      io := null;
    }

    /** `initSocket`: the first call creates the server (and with it the connection handlers);
        every later call returns that same server and creates nothing. */
    method InitSocket() returns (server: ChatServer)
      requires Valid()
      modifies this
      ensures Valid() && server.Valid()
      ensures io == server
      ensures old(io) != null ==> server == old(io)
      ensures old(io) == null ==> fresh(server)
                                  && server.rooms == map[] && server.store == [] && server.outbox == []
    {
      if io == null {
        io := new ChatServer();
      }
      server := io;
    }

    /** `getIO`: the server once it exists, and otherwise the error it throws. */
    method GetIO() returns (r: Result<ChatServer, string>)
      requires Valid()
      ensures io == null ==> r == Failure(NotInitialized)
      ensures io != null ==> r == Success(io)
      ensures r.Success? ==> r.value.Valid()
    {
      if io == null {
        return Failure(NotInitialized);
      }
      return Success(io);
    }
  }
}
