/**
 * The server's events as the client's handlers see them. `user-joined` and `user-left`
 * payloads are built without a `roomId`, so the client's lookup key is `undefined`; a
 * `new-message` payload carries the record's `roomId`.
 */
module Wire {
  import opened Wrappers
  import Events
  import SocketClient

  /** A server notice as received: every field kept, and no `roomId`. */
  function ReceivedNotice(n: Events.SystemNotice): SocketClient.NoticeData {
    SocketClient.NoticeData(None, n.sender, n.text, n.timestamp, n.isSystemMessage)
  }

  /** A `new-message` event as received, in the client's `SocketMessage` shape. */
  function ReceivedMessage(e: Events.ServerEvent): SocketClient.SocketMessage
    requires e.NewMessage?
  {
    SocketClient.SocketMessage(e.roomId, e.sender, e.text, e.timestamp)
  }

  /** A join or leave notice from the server reaches no callback, whatever is registered. */
  lemma NoticeReachesNoCallback(callbacks: map<SocketClient.RoomId, SocketClient.CallbackId>,
                                n: Events.SystemNotice)
    ensures SocketClient.Dispatch(callbacks, ReceivedNotice(n).roomId,
                                  SocketClient.NoticePayload(ReceivedNotice(n))) == []
  {
  }

  /** A broadcast message reaches exactly the callback registered for its room, once. */
  lemma MessageReachesRoomCallback(callbacks: map<SocketClient.RoomId, SocketClient.CallbackId>,
                                   m: Events.StoredMessage)
    requires m.roomId in callbacks
    ensures var received := ReceivedMessage(Events.MessageData(m));
            SocketClient.Dispatch(callbacks, Some(received.roomId),
                                  SocketClient.MessagePayload(received))
            == [SocketClient.Invocation(callbacks[m.roomId], SocketClient.MessagePayload(received))]
  {
  }
}
