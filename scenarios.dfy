/** Scenario methods, checked against the contracts of the server and client classes alone. */
module Scenarios {
  import opened Wrappers
  import opened Rooms
  import opened Events
  import opened JsString
  import opened Socket
  import SocketClient

  /** `initSocket` creates one server however often it is called. */
  method InitOnce() {
    var sockets := new SocketModule();
    var failed := sockets.GetIO();
    assert failed.Failure?;
    var io := sockets.InitSocket();
    var again := sockets.InitSocket();
    var got := sockets.GetIO();
    assert again == io && got == Success(io);
  }

  lemma LeadingBlankDropped()
    ensures TrimStart(" hi\n") == "hi\n"
  {
    var s := " hi\n";
    assert IsWhitespace(s[0]) && s[1..] == "hi\n";
    assert !IsWhitespace("hi\n"[0]);
  }

  lemma TrailingNewlineDropped()
    ensures TrimEnd("hi\n") == "hi"
  {
    var s := "hi\n";
    assert IsWhitespace(s[2]) && s[..2] == "hi";
    assert !IsWhitespace("hi"[1]);
  }

  lemma PaddedHiTrimmed()
    ensures Trim(" hi\n") == "hi"
  {
    LeadingBlankDropped();
    TrailingNewlineDropped();
  }

  /** A module that reaches the server only through `getIO` can call its handlers. */
  method UseSingleton(sockets: SocketModule)
    requires sockets.Valid() && sockets.io != null
    modifies sockets.io
  {
    var r := sockets.GetIO();
    r.value.HandleJoinRoom("c", "r", "n", 0);
  }

  /** Two connections join one room and the first sends a padded message: both receive the
      stored, trimmed record, and only the earlier member heard of the later one's arrival. */
  method TwoMemberRoom() {
    var io := new ChatServer();
    io.HandleJoinRoom("alice-conn", "abc12345", "alice", 1);
    io.HandleJoinRoom("bob-conn", "abc12345", "bob", 2);
    var joined := UserJoined(JoinedNotice("bob", 2));
    assert Inbox(io.outbox, "alice-conn") == [joined];
    assert Inbox(io.outbox, "bob-conn") == [];

    PaddedHiTrimmed();
    assert IsValidSend("abc12345", "alice", " hi\n") by {
      assert !IsWhitespace(" hi\n"[1]);
    }
    var bobNow := Inbox(io.outbox, "bob-conn");
    var aliceNow := Inbox(io.outbox, "alice-conn");
    assert "bob-conn" in Members(io.rooms, "abc12345");
    assert "alice-conn" in Members(io.rooms, "abc12345");
    io.HandleSendMessage("alice-conn", "abc12345", "alice", " hi\n", true, 3);
    var hi := NewMessage(0, "abc12345", "alice", "hi", 3);
    assert io.store == [StoredMessage(0, "abc12345", "alice", "hi", 3)];
    assert Inbox(io.outbox, "alice-conn") == aliceNow + [hi];
    assert Inbox(io.outbox, "bob-conn") == bobNow + [hi];
  }

  /** A blank message and a message whose save fails: nothing is stored, and only the sender
      hears of it; a disconnect sends nothing. */
  method RejectedSends() {
    var io := new ChatServer();
    io.HandleJoinRoom("alice-conn", "abc12345", "alice", 1);
    io.HandleJoinRoom("bob-conn", "abc12345", "bob", 2);
    var bobNow := Inbox(io.outbox, "bob-conn");
    assert !IsValidSend("abc12345", "alice", " \t") by {
      assert IsWhitespace(" \t"[0]) && IsWhitespace(" \t"[1]);
    }
    io.HandleSendMessage("alice-conn", "abc12345", "alice", " \t", true, 3);
    io.HandleSendMessage("alice-conn", "abc12345", "alice", "again", false, 4);
    assert io.store == [];
    assert Inbox(io.outbox, "bob-conn") == bobNow;
    var before := io.outbox;
    io.HandleDisconnect("bob-conn");
    assert io.outbox == before;
  }

  /** A client registers a callback, connects, joins and receives one message for its room
      and one for another room. */
  method ClientDispatch() {
    var client := new SocketClient.SocketManager();
    client.JoinRoom("abc12345", "alice");
    assert client.sent == [];
    client.Connect();
    client.Connect();
    assert client.socketsCreated == 1;
    client.OnMessage("abc12345", 7);
    client.JoinRoom("abc12345", "alice");
    assert client.sent == [SocketClient.JoinRoomEvent("abc12345", "alice", false)];
    var mine := SocketClient.SocketMessage("abc12345", "bob", "hi", 3);
    var other := SocketClient.SocketMessage("zzz", "carol", "yo", 4);
    client.ReceiveNewMessage(mine);
    client.ReceiveNewMessage(other);
    assert client.invoked == [SocketClient.Invocation(7, SocketClient.MessagePayload(mine))];
    client.OffMessage("abc12345");
    client.ReceiveNewMessage(mine);
    assert |client.invoked| == 1;
  }
}
