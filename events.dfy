/**
 * What the chat server stores and what it sends. An emission is one `emit` call: the event and
 * the set of connections the room broadcast resolved to at that moment. The outbox is every
 * emission in order; a connection's inbox is the events addressed to it, in order.
 */
module Events {
  import opened Rooms

  /** An opaque `Date`; only equality matters. */
  type Timestamp = int

  /** A persisted chat message, the record `Message.create` returns. */
  datatype StoredMessage = StoredMessage(
    id: nat, roomId: RoomId, sender: string, text: string, timestamp: Timestamp)

  /** The payload of `user-joined` and `user-left`. It carries no `roomId`. */
  datatype SystemNotice = SystemNotice(
    sender: string, text: string, timestamp: Timestamp, isSystemMessage: bool)

  /** The events the server emits to clients. */
  datatype ServerEvent =
    | NewMessage(id: nat, roomId: RoomId, sender: string, text: string, timestamp: Timestamp)
    | UserJoined(notice: SystemNotice)
    | UserLeft(notice: SystemNotice)
    | Error(message: string)

  /** One `emit`: the event and the connections it is delivered to. */
  datatype Emission = Emission(recipients: set<ConnId>, event: ServerEvent)

  /** The `new-message` payload built from a stored record. */
  function MessageData(m: StoredMessage): ServerEvent {
    NewMessage(m.id, m.roomId, m.sender, m.text, m.timestamp)
  }

  /** The notice announcing that `nickname` joined. */
  function JoinedNotice(nickname: string, now: Timestamp): SystemNotice {
    SystemNotice(nickname, nickname + " joined the room", now, true)
  }

  /** The notice announcing that `nickname` left. */
  function LeftNotice(nickname: string, now: Timestamp): SystemNotice {
    SystemNotice(nickname, nickname + " left the room", now, true)
  }

  /** Every emitted event, in emission order. */
  function Emitted(outbox: seq<Emission>): seq<ServerEvent> {
    if outbox == [] then [] else [outbox[0].event] + Emitted(outbox[1..])
  }

  /** The events delivered to `conn`, in the order it receives them. */
  function Inbox(outbox: seq<Emission>, conn: ConnId): seq<ServerEvent> {
    if outbox == [] then []
    else (if conn in outbox[0].recipients then [outbox[0].event] else []) + Inbox(outbox[1..], conn)
  }

  /** The `new-message` events among `events`, in order. */
  function NewMessages(events: seq<ServerEvent>): seq<ServerEvent> {
    if events == [] then []
    else (if events[0].NewMessage? then [events[0]] else []) + NewMessages(events[1..])
  }

  /** The `new-message` broadcasts that a store's records call for, one per record, in order. */
  function Broadcasts(store: seq<StoredMessage>): seq<ServerEvent> {
    if store == [] then [] else [MessageData(store[0])] + Broadcasts(store[1..])
  }

  /** `a` is `b` with some elements left out and the rest kept in their order. */
  predicate IsSubsequence<T(==)>(a: seq<T>, b: seq<T>)
    decreases |b|
  {
    |a| <= |b| &&
    (a == [] || (a[0] == b[0] && IsSubsequence(a[1..], b[1..])) || IsSubsequence(a, b[1..]))
  }

  lemma {:induction false} EmittedAppend(outbox: seq<Emission>, e: Emission)
    ensures Emitted(outbox + [e]) == Emitted(outbox) + [e.event]
    decreases |outbox|
  {
    if outbox != [] {
      assert (outbox + [e])[1..] == outbox[1..] + [e];
      EmittedAppend(outbox[1..], e);
    }
  }

  /** A new emission reaches `conn` exactly when `conn` is one of its recipients. */
  lemma {:induction false} InboxAppend(outbox: seq<Emission>, e: Emission, conn: ConnId)
    ensures Inbox(outbox + [e], conn)
         == Inbox(outbox, conn) + (if conn in e.recipients then [e.event] else [])
    decreases |outbox|
  {
    if outbox != [] {
      assert (outbox + [e])[1..] == outbox[1..] + [e];
      InboxAppend(outbox[1..], e, conn);
    }
  }

  lemma {:induction false} NewMessagesAppend(events: seq<ServerEvent>, e: ServerEvent)
    ensures NewMessages(events + [e]) == NewMessages(events) + (if e.NewMessage? then [e] else [])
    decreases |events|
  {
    if events != [] {
      assert (events + [e])[1..] == events[1..] + [e];
      NewMessagesAppend(events[1..], e);
    }
  }

  lemma {:induction false} BroadcastsAppend(store: seq<StoredMessage>, m: StoredMessage)
    ensures Broadcasts(store + [m]) == Broadcasts(store) + [MessageData(m)]
    decreases |store|
  {
    if store != [] {
      assert (store + [m])[1..] == store[1..] + [m];
      BroadcastsAppend(store[1..], m);
    }
  }

  lemma SubsequenceOfLonger<T>(a: seq<T>, x: T, b: seq<T>)
    requires IsSubsequence(a, b)
    ensures IsSubsequence(a, [x] + b)
  {
    assert ([x] + b)[1..] == b;
  }

  /** What a connection receives is a subsequence of everything emitted. */
  lemma {:induction false} InboxIsSubsequence(outbox: seq<Emission>, conn: ConnId)
    ensures IsSubsequence(Inbox(outbox, conn), Emitted(outbox))
    decreases |outbox|
  {
    if outbox != [] {
      InboxIsSubsequence(outbox[1..], conn);
      var rest := Inbox(outbox[1..], conn);
      var all := Emitted(outbox[1..]);
      if conn in outbox[0].recipients {
        assert ([outbox[0].event] + rest)[1..] == rest;
        assert ([outbox[0].event] + all)[1..] == all;
      } else {
        assert Inbox(outbox, conn) == rest;
        SubsequenceOfLonger(rest, outbox[0].event, all);
      }
    }
  }

  /** Keeping only the `new-message` events preserves the subsequence relation. */
  lemma {:induction false} NewMessagesOfSubsequence(a: seq<ServerEvent>, b: seq<ServerEvent>)
    requires IsSubsequence(a, b)
    ensures IsSubsequence(NewMessages(a), NewMessages(b))
    decreases |b|
  {
    if a == [] {
    } else if a[0] == b[0] && IsSubsequence(a[1..], b[1..]) {
      NewMessagesOfSubsequence(a[1..], b[1..]);
      var ra, rb := NewMessages(a[1..]), NewMessages(b[1..]);
      if a[0].NewMessage? {
        assert NewMessages(a) == [a[0]] + ra && NewMessages(b) == [a[0]] + rb;
        assert ([a[0]] + ra)[1..] == ra && ([a[0]] + rb)[1..] == rb;
      } else {
        assert NewMessages(a) == ra && NewMessages(b) == rb;
      }
    } else {
      NewMessagesOfSubsequence(a, b[1..]);
      if b[0].NewMessage? {
        assert NewMessages(b) == [b[0]] + NewMessages(b[1..]);
        SubsequenceOfLonger(NewMessages(a), b[0], NewMessages(b[1..]));
      } else {
        assert NewMessages(b) == NewMessages(b[1..]);
      }
    }
  }

  /** First in the store, first to each recipient: when the `new-message` broadcasts are exactly
      the store's records in order, every connection receives its `new-message` events in the
      order their records were stored. */
  lemma ReceivedInStoreOrder(outbox: seq<Emission>, store: seq<StoredMessage>, conn: ConnId)
    requires NewMessages(Emitted(outbox)) == Broadcasts(store)
    ensures IsSubsequence(NewMessages(Inbox(outbox, conn)), Broadcasts(store))
  {
    InboxIsSubsequence(outbox, conn);
    NewMessagesOfSubsequence(Inbox(outbox, conn), Emitted(outbox));
  }
}
