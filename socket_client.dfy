/**
 * The browser-side `SocketManager` of `lib/socket-client.ts`: at most one socket at a time, the
 * events it emits while that socket exists, and the per-room callbacks that inbound events are
 * dispatched to. Callbacks are identified by an opaque id; calling one is recorded as an
 * invocation.
 */
module SocketClient {
  import opened Wrappers

  type RoomId = string

  /** The identity of a callback function passed to `onMessage`. */
  type CallbackId = nat

  /** An opaque `Date`. */
  type Timestamp = int

  /** The events the client emits to the server. */
  datatype OutboundEvent =
    | JoinRoomEvent(roomId: RoomId, nickname: string, isHost: bool)
    | LeaveRoomEvent(roomId: RoomId, nickname: string)
    | SendMessageEvent(roomId: RoomId, sender: string, text: string)

  /** The `new-message` payload as the client types it (`SocketMessage`). */
  datatype SocketMessage = SocketMessage(
    roomId: RoomId, sender: string, text: string, timestamp: Timestamp)

  /** The untyped `user-joined` / `user-left` payload; `roomId` is `undefined` when absent. */
  datatype NoticeData = NoticeData(
    roomId: Option<RoomId>, sender: string, text: string, timestamp: Timestamp,
    isSystemMessage: bool)

  /** What a callback is called with. */
  datatype Payload =
    | MessagePayload(message: SocketMessage)
    | NoticePayload(data: NoticeData)

  /** One call of a registered callback. */
  datatype Invocation = Invocation(callback: CallbackId, payload: Payload)

  /** Look up the callback of room `key` and call it with `payload` if there is one: exactly one
      call, of the registered callback with the payload itself, when `key` is a room with a
      callback, and no call otherwise (in particular when `key` is undefined). */
  function Dispatch(callbacks: map<RoomId, CallbackId>, key: Option<RoomId>, payload: Payload)
    : (r: seq<Invocation>)
    ensures |r| <= 1
    ensures |r| == 1 <==> key.Some? && key.value in callbacks
    ensures forall inv :: inv in r ==> inv.callback == callbacks[key.value] && inv.payload == payload
  {
    match key
    case Some(room) =>
      if room in callbacks then [Invocation(callbacks[room], payload)] else []
    case None => []
  }

  class SocketManager {
    /** `socket !== null`: a socket has been created and not yet disconnected. */
    var connected: bool
    /** How many sockets `connect` has created. */
    var socketsCreated: nat
    /** `messageCallbacks`. */
    var callbacks: map<RoomId, CallbackId>
    /** Every event emitted to the server, in order. */
    var sent: seq<OutboundEvent>
    /** Every callback call, in order. */
    var invoked: seq<Invocation>

    /** The exported singleton starts with no socket and no callbacks. */
    constructor ()
      ensures !connected && socketsCreated == 0 && callbacks == map[] && sent == [] && invoked == []
    {
      connected, socketsCreated, callbacks, sent, invoked := false, 0, map[], [], [];
    }

    /** `connect`: creates a socket, with its inbound handlers, only when there is none;
        calling it again is a no-op. */
    method Connect()
      modifies this
      ensures connected
      ensures old(connected) ==> unchanged(this)
      ensures !old(connected) ==> socketsCreated == old(socketsCreated) + 1
      ensures callbacks == old(callbacks) && sent == old(sent) && invoked == old(invoked)
    {
      if connected {
        return;
      }
      connected, socketsCreated := true, socketsCreated + 1;
    }

    /** `disconnect`: closes and drops the socket if there is one; callbacks are kept. */
    method Disconnect()
      modifies this`connected
      ensures !connected
      ensures !old(connected) ==> unchanged(this)
    {
      if connected {
        connected := false;
      }
    }

    /** Emits `event` when a socket exists, and does nothing otherwise. */
    method EmitIfConnected(event: OutboundEvent)
      modifies this`sent
      ensures sent == old(sent) + (if connected then [event] else [])
    {
      if connected {
        sent := sent + [event];
      }
    }

    /** `joinRoom`; `isHost` is false unless given. */
    method JoinRoom(roomId: RoomId, nickname: string, isHost: bool := false)
      modifies this`sent
      ensures sent == old(sent) + (if connected then [JoinRoomEvent(roomId, nickname, isHost)] else [])
    {
      EmitIfConnected(JoinRoomEvent(roomId, nickname, isHost));
    }

    /** `leaveRoom`. */
    method LeaveRoom(roomId: RoomId, nickname: string)
      modifies this`sent
      ensures sent == old(sent) + (if connected then [LeaveRoomEvent(roomId, nickname)] else [])
    {
      EmitIfConnected(LeaveRoomEvent(roomId, nickname));
    }

    /** `sendMessage`: the text goes out as given, untrimmed. */
    method SendMessage(roomId: RoomId, sender: string, text: string)
      modifies this`sent
      ensures sent == old(sent) + (if connected then [SendMessageEvent(roomId, sender, text)] else [])
    {
      EmitIfConnected(SendMessageEvent(roomId, sender, text));
    }

    /** `onMessage`: `callback` becomes the room's callback, replacing any earlier one; every
        other room keeps its entry. */
    method OnMessage(roomId: RoomId, callback: CallbackId)
      modifies this`callbacks
      ensures roomId in callbacks && callbacks[roomId] == callback
      ensures callbacks.Keys == old(callbacks).Keys + {roomId}
      ensures forall r :: r in callbacks && r != roomId ==> callbacks[r] == old(callbacks)[r]
    {
      callbacks := callbacks[roomId := callback];
    }

    /** `offMessage`: drops the room's entry, if any, and keeps every other one. */
    method OffMessage(roomId: RoomId)
      modifies this`callbacks
      ensures roomId !in callbacks
      ensures callbacks.Keys == old(callbacks).Keys - {roomId}
      ensures forall r :: r in callbacks ==> callbacks[r] == old(callbacks)[r]
      ensures roomId !in old(callbacks) ==> callbacks == old(callbacks)
    {
      callbacks := callbacks - {roomId};
    }

    /** The inbound `new-message` handler, keyed on `message.roomId`. Events arrive only through
        a live socket, so none is handled while disconnected. */
    method ReceiveNewMessage(message: SocketMessage)
      modifies this`invoked
      ensures invoked == old(invoked)
        + (if connected then Dispatch(callbacks, Some(message.roomId), MessagePayload(message)) else [])
    {
      if connected {
        invoked := invoked + Dispatch(callbacks, Some(message.roomId), MessagePayload(message));
      }
    }

    /** The inbound `user-joined` handler, keyed on the payload's `roomId`. */
    method ReceiveUserJoined(data: NoticeData)
      modifies this`invoked
      ensures invoked == old(invoked)
        + (if connected then Dispatch(callbacks, data.roomId, NoticePayload(data)) else [])
    {
      if connected {
        invoked := invoked + Dispatch(callbacks, data.roomId, NoticePayload(data));
      }
    }

    /** The inbound `user-left` handler, keyed on the payload's `roomId`. */
    method ReceiveUserLeft(data: NoticeData)
      modifies this`invoked
      ensures invoked == old(invoked)
        + (if connected then Dispatch(callbacks, data.roomId, NoticePayload(data)) else [])
    {
      if connected {
        invoked := invoked + Dispatch(callbacks, data.roomId, NoticePayload(data));
      }
    }
  }
}
