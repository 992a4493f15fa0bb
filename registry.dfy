/** The room registry that `join_room` and `leave_room` act on: for each room
    name, the set of connection ids (Socket.IO session ids) subscribed to it.
    A room whose last member leaves is dropped, as the Socket.IO server does. */
module Registry {

  /** A connection's session id. */
  type Sid = string

  type Rooms = map<string, set<Sid>>

  /** No room is kept with nobody in it. */
  predicate WellFormed(reg: Rooms) {
    forall room :: room in reg ==> reg[room] != {}
  }

  /** The connections a broadcast to `room` reaches. */
  function Members(reg: Rooms, room: string): (sids: set<Sid>) {
    if room in reg then reg[room] else {}
  }

  /** `join_room(room)` for connection `sid`: it becomes a member of `room`,
      and no other room changes. */
  function Join(reg: Rooms, room: string, sid: Sid): (r: Rooms)
    ensures forall q :: Members(r, q) == if q == room then Members(reg, q) + {sid} else Members(reg, q)
    ensures WellFormed(reg) ==> WellFormed(r)
  {
    reg[room := Members(reg, room) + {sid}]
  }

  /** `leave_room(room)` for connection `sid`: it stops being a member of
      `room` (if it was one), and no other room changes. */
  function Leave(reg: Rooms, room: string, sid: Sid): (r: Rooms)
    ensures forall q :: Members(r, q) == if q == room then Members(reg, q) - {sid} else Members(reg, q)
    ensures WellFormed(reg) ==> WellFormed(r)
  {
    if room !in reg then reg
    else if reg[room] - {sid} == {} then reg - {room}
    else reg[room := reg[room] - {sid}]
  }

  /** Two registries with the same members everywhere are the same registry. */
  lemma SameMembersSame(reg: Rooms, reg': Rooms)
    requires WellFormed(reg) && WellFormed(reg')
    requires forall q :: Members(reg, q) == Members(reg', q)
    ensures reg == reg'
  {
    forall q | q in reg ensures q in reg' && reg[q] == reg'[q] {
      assert Members(reg, q) == Members(reg', q);
    }
    forall q | q in reg' ensures q in reg {
      assert Members(reg, q) == Members(reg', q);
    }
  }

  /** Joining a room twice is joining it once: a connection is never
      listed twice and so never gets a broadcast twice. */
  lemma JoinIdempotent(reg: Rooms, room: string, sid: Sid)
    ensures Join(Join(reg, room, sid), room, sid) == Join(reg, room, sid)
  {
  }

  /** Leaving a room one is not in changes nothing. */
  lemma LeaveAbsentIsNoop(reg: Rooms, room: string, sid: Sid)
    requires WellFormed(reg) && sid !in Members(reg, room)
    ensures Leave(reg, room, sid) == reg
  {
    SameMembersSame(Leave(reg, room, sid), reg);
  }

  /** Leaving undoes joining: a connection that joins a room it was not in and
      then leaves it restores the registry exactly. */
  lemma LeaveUndoesJoin(reg: Rooms, room: string, sid: Sid)
    requires WellFormed(reg) && sid !in Members(reg, room)
    ensures Leave(Join(reg, room, sid), room, sid) == reg
  {
    SameMembersSame(Leave(Join(reg, room, sid), room, sid), reg);
  }
}
