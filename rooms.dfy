/**
 * Room membership as socket.io keeps it for the chat server: each room name maps to the set of
 * connections (sockets) that joined it. A connection may belong to any number of rooms.
 */
module Rooms {

  /** A room's public identifier; socket.io room names are arbitrary strings. */
  type RoomId = string

  /** The identifier of one live connection (`socket.id`). */
  type ConnId = string

  type Membership = map<RoomId, set<ConnId>>

  /** The connections in `room`; a room nobody joined has no members. */
  function Members(m: Membership, room: RoomId): set<ConnId> {
    if room in m then m[room] else {}
  }

  /** `socket.join(room)`: `conn` becomes a member of `room`; every other membership, of `conn`
      in other rooms and of every other connection anywhere, is kept. */
  function Join(m: Membership, room: RoomId, conn: ConnId): (r: Membership)
    ensures conn in Members(r, room)
    ensures Members(r, room) == Members(m, room) + {conn}
    ensures forall other :: other != room ==> Members(r, other) == Members(m, other)
  {
    m[room := Members(m, room) + {conn}]
  }

  /** `socket.leave(room)`: `conn` is no longer a member of `room`; every other membership is
      kept, and leaving a room one never joined changes nothing. */
  function Leave(m: Membership, room: RoomId, conn: ConnId): (r: Membership)
    ensures conn !in Members(r, room)
    ensures Members(r, room) == Members(m, room) - {conn}
    ensures forall other :: other != room ==> Members(r, other) == Members(m, other)
    ensures conn !in Members(m, room) ==> forall any :: Members(r, any) == Members(m, any)
  {
    m[room := Members(m, room) - {conn}]
  }

  /** Leaving right after joining a room one was not in restores every room's membership. */
  lemma LeaveUndoesJoin(m: Membership, room: RoomId, conn: ConnId)
    requires conn !in Members(m, room)
    ensures forall any :: Members(Leave(Join(m, room, conn), room, conn), any) == Members(m, any)
  {
  }
}
