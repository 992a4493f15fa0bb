/** The Socket.IO event handlers of the chat server: `join_chat`,
    `leave_chat`, `send_message` and `clear_chat`, over the message store, the
    set of registered users and the room registry. */
module Chat {
  import opened Text
  import opened Validation
  import opened RoomNames
  import opened Store
  import opened Registry

  datatype Option<T> = None | Some(value: T)

  /** An event's `data` dictionary. For the ids and the user name, `None` is a
      key that is absent or null; for `text` it is an absent key only, which
      reads as `""`. */
  datatype Payload = Payload(
    text: Option<string>,
    receiverId: Option<int>,
    currentUserId: Option<int>,
    currentUsername: Option<string>)

  /** Python truthiness of an id read with `data.get`: absent, null and 0 are falsy. */
  predicate IdGiven(o: Option<int>) {
    o.Some? && o.value != 0
  }

  /** Python truthiness of a name read with `data.get`: absent, null and "" are falsy. */
  predicate NameGiven(o: Option<string>) {
    o.Some? && o.value != ""
  }

  /** The three fields `send_message` and `clear_chat` insist on. */
  predicate HasParties(data: Payload) {
    IdGiven(data.receiverId) && IdGiven(data.currentUserId) && NameGiven(data.currentUsername)
  }

  /** `data.get('text', '').strip()`. */
  function MessageText(data: Payload): (text: string) {
    Trim(if data.text.Some? then data.text.value else "")
  }

  /** What a broadcast carries; the timestamps are not modelled. */
  datatype Event =
    | NewMessage(id: nat, senderId: int, senderUsername: string, receiverId: int, text: string)
    | ChatCleared(clearedBy: string)

  /** What `send_message` and `clear_chat` emit: an `error` event to the
      requesting connection, or an event to every member of a room. */
  datatype Outcome = Error(message: string) | Broadcast(room: string, event: Event)

  const MissingData := "Missing required data"
  const ReceiverNotFound := "Receiver not found"
  const SendFailed := "Failed to send message. Please try again."
  const ClearFailed := "Failed to clear chat. Please try again."

  /** The connections an outcome reaches when the requesting connection is
      `origin`: `emit` answers the requester only, `socketio.emit(..., room=room)`
      reaches the members of that room at that moment. */
  function Deliveries(reg: Rooms, o: Outcome, origin: Sid): (r: set<Sid>)
    ensures o.Error? ==> r == {origin}
    ensures o.Broadcast? ==> forall s :: s in r ==> s in Members(reg, o.room)
  {
    match o
    case Error(_) => {origin}
    case Broadcast(room, _) => Members(reg, room)
  }

  /** A connection whose only room is the one of users `a` and `b` never
      receives what is broadcast to a different pair `c`, `d`. */
  lemma ScopeIsolation(reg: Rooms, sid: Sid, a: int, b: int, c: int, d: int, e: Event, origin: Sid)
    requires forall q :: sid in Members(reg, q) ==> q == RoomName(a, b)
    requires {a, b} != {c, d}
    ensures sid !in Deliveries(reg, Broadcast(RoomName(c, d), e), origin)
  {
    RoomNameEquality(a, b, c, d);
  }

  /** The state the handlers share: the message table, the user table (read
      only here) and the room registry. */
  class ChatServer {
    var messages: seq<Message>
    var users: set<int>
    var rooms: Rooms
    /** The id the store will give the next message. */
    var nextId: nat

    ghost predicate Valid()
      reads this
    {
      WellFormed(rooms) && IdsIncreasing(messages) && IdsBelow(messages, nextId)
    }

    /** A server started over the existing tables: the stored users and
        messages, with `next` above every stored id; no connection is
        subscribed to any room yet. */
    constructor (registered: set<int>, stored: seq<Message>, next: nat)
      requires IdsIncreasing(stored) && IdsBelow(stored, next)
      ensures Valid()
      ensures messages == stored && users == registered && rooms == map[] && nextId == next
    {
      messages := stored;
      users := registered;
      rooms := map[];
      nextId := next;
    }

    /** The history query of the private chat page: the messages between the
        two users, in either direction, oldest first. */
    function History(current: int, receiver: int): (h: seq<Message>)
      reads this
      ensures forall m :: m in h <==> m in messages && Between(m, current, receiver)
    {
      Conversation(messages, current, receiver)
    }

    /** `join_chat`: with a receiver id, a user id and a user name given, the
        connection joins the pair's room; otherwise nothing happens. */
    method JoinChat(data: Payload, sid: Sid)
      requires Valid()
      modifies this`rooms
      ensures Valid()
      ensures HasParties(data) ==>
        rooms == Join(old(rooms), RoomName(data.currentUserId.value, data.receiverId.value), sid)
      ensures !HasParties(data) ==> rooms == old(rooms)
    {
      if !IdGiven(data.receiverId) {
        return;
      }
      if !IdGiven(data.currentUserId) || !NameGiven(data.currentUsername) {
        return;
      }
      var room := RoomName(data.currentUserId.value, data.receiverId.value);
      rooms := Join(rooms, room, sid);
    }

    /** `leave_chat`: with a receiver id and a user id given, the connection
        leaves the pair's room (a no-op when it is not in it); the user name is
        not required here. */
    method LeaveChat(data: Payload, sid: Sid)
      requires Valid()
      modifies this`rooms
      ensures Valid()
      ensures IdGiven(data.receiverId) && IdGiven(data.currentUserId) ==>
        rooms == Leave(old(rooms), RoomName(data.currentUserId.value, data.receiverId.value), sid)
      ensures !(IdGiven(data.receiverId) && IdGiven(data.currentUserId)) ==> rooms == old(rooms)
    {
      if !IdGiven(data.receiverId) {
        return;
      }
      if !IdGiven(data.currentUserId) {
        return;
      }
      var room := RoomName(data.currentUserId.value, data.receiverId.value);
      rooms := Leave(rooms, room, sid);
    }

    /** `db.session.add(message)` and `commit()`: the store appends one row
        with a fresh id, which extends the pair's history by that row only. */
    method AddMessage(sender: int, receiver: int, text: string) returns (m: Message)
      requires Valid()
      modifies this`messages, this`nextId
      ensures Valid()
      ensures m == Message(old(nextId), sender, receiver, text)
      ensures forall i :: 0 <= i < |old(messages)| ==> old(messages)[i].id != m.id
      ensures messages == old(messages) + [m] && nextId == old(nextId) + 1
      ensures History(sender, receiver) == old(History(sender, receiver)) + [m]
    {
      m := Message(nextId, sender, receiver, text);
      AppendKeepsIds(messages, m, nextId);
      ConversationAppend(messages, m, sender, receiver);
      messages, nextId := messages + [m], nextId + 1;
    }

    /** `send_message`. The checks run in this order: the stripped text, the
        three required fields, the store being reachable (`fault` stands for any
        exception the database raises), the receiver being a registered user.
        A failed check answers the requester with an error and changes nothing.
        Otherwise exactly one message is appended, with a fresh id and the
        stripped text, and it is broadcast to the pair's room. */
    method SendMessage(data: Payload, fault: bool) returns (o: Outcome)
      requires Valid()
      modifies this`messages, this`nextId
      ensures Valid()
      ensures !ValidateMessage(MessageText(data)).ok ==>
        o == Error(ValidateMessage(MessageText(data)).error)
      ensures ValidateMessage(MessageText(data)).ok && !HasParties(data) ==> o == Error(MissingData)
      ensures ValidateMessage(MessageText(data)).ok && HasParties(data) && fault ==> o == Error(SendFailed)
      ensures (ValidateMessage(MessageText(data)).ok && HasParties(data) && !fault
               && data.receiverId.value !in users) ==> o == Error(ReceiverNotFound)
      ensures (ValidateMessage(MessageText(data)).ok && HasParties(data) && !fault
               && data.receiverId.value in users) ==> o.Broadcast?
      ensures o.Error? ==> messages == old(messages) && nextId == old(nextId)
      ensures o.Broadcast? ==>
        && HasParties(data)
        && var sender, receiver, text := data.currentUserId.value, data.receiverId.value, MessageText(data);
           var m := Message(old(nextId), sender, receiver, text);
           && (forall i :: 0 <= i < |old(messages)| ==> old(messages)[i].id != m.id)
           && messages == old(messages) + [m] && nextId == old(nextId) + 1
           && History(sender, receiver) == old(History(sender, receiver)) + [m]
           && Stripped(text) && 1 <= |text| <= MessageMax
           && o == Broadcast(RoomName(sender, receiver),
                             NewMessage(m.id, sender, data.currentUsername.value, receiver, text))
    {
      var text := MessageText(data);
      var verdict := ValidateMessage(text);
      if !verdict.ok {
        o := Error(verdict.error);
        return;
      }
      if !HasParties(data) {
        o := Error(MissingData);
        return;
      }
      if fault {
        o := Error(SendFailed);
        return;
      }
      var sender, receiver := data.currentUserId.value, data.receiverId.value;
      if receiver !in users {
        o := Error(ReceiverNotFound);
        return;
      }
      TrimIdempotent(if data.text.Some? then data.text.value else "");
      var m := AddMessage(sender, receiver, text);
      o := Broadcast(RoomName(sender, receiver), NewMessage(m.id, sender, data.currentUsername.value, receiver, text));
    }

    /** `clear_chat`. The checks run in this order: the three required fields,
        the store being reachable, the receiver being a registered user. A
        failed check answers the requester with an error and changes nothing.
        Otherwise every message between the two users, in either direction,
        is deleted, all others are kept in order, and `chat_cleared` is
        broadcast to the pair's room even when nothing was deleted. */
    method ClearChat(data: Payload, fault: bool) returns (o: Outcome)
      requires Valid()
      modifies this`messages
      ensures Valid() && nextId == old(nextId)
      ensures !HasParties(data) ==> o == Error(MissingData)
      ensures HasParties(data) && fault ==> o == Error(ClearFailed)
      ensures HasParties(data) && !fault && data.receiverId.value !in users ==> o == Error(ReceiverNotFound)
      ensures HasParties(data) && !fault && data.receiverId.value in users ==> o.Broadcast?
      ensures o.Error? ==> messages == old(messages)
      ensures o.Broadcast? ==>
        && HasParties(data) && !fault && data.receiverId.value in users
        && var current, receiver := data.currentUserId.value, data.receiverId.value;
           && messages == Without(old(messages), current, receiver)
           && History(current, receiver) == []
           && o == Broadcast(RoomName(current, receiver), ChatCleared(data.currentUsername.value))
    {
      if !HasParties(data) {
        o := Error(MissingData);
        return;
      }
      if fault {
        o := Error(ClearFailed);
        return;
      }
      var current, receiver := data.currentUserId.value, data.receiverId.value;
      if receiver !in users {
        o := Error(ReceiverNotFound);
        return;
      }
      WithoutKeepsIdsIncreasing(messages, current, receiver);
      WithoutKeepsIdsBelow(messages, current, receiver, nextId);
      ClearEmptiesConversation(messages, current, receiver);
      messages := Without(messages, current, receiver);
      o := Broadcast(RoomName(current, receiver), ChatCleared(data.currentUsername.value));
    }
  }

  /** `"  hi  "` strips to `"hi"`, which is a valid message. */
  lemma PaddedHi()
    ensures Trim("  hi  ") == "hi" && ValidateMessage("hi").ok
  {
    TrimPadded("  ", "hi", "  ");
    assert "  " + "hi" + "  " == "  hi  ";
    TrimPadded([], "hi", []);
    assert [] + "hi" + [] == "hi";
  }

  /** Users 1 and 2 open their chat with each other, from either side. */
  method JoinedPair() returns (server: ChatServer)
    ensures fresh(server) && server.Valid() && server.users == {1, 2, 3}
    ensures Members(server.rooms, RoomName(1, 2)) == {"sid-alice", "sid-bob"}
  {
    server := new ChatServer({1, 2, 3}, [], 1);
    server.JoinChat(Payload(None, Some(2), Some(1), Some("alice")), "sid-alice");
    server.JoinChat(Payload(None, Some(1), Some(2), Some("bob")), "sid-bob");
    RoomNameSymmetric(1, 2);
  }

  /** Two users in one room: a message with padding arrives stripped at both
      of their connections. */
  method TwoUserScenario()
  {
    var server := JoinedPair();

    var hi := Payload(Some("  hi  "), Some(2), Some(1), Some("alice"));
    PaddedHi();
    assert MessageText(hi) == "hi";
    assert HasParties(hi) && 2 in server.users;
    var o := server.SendMessage(hi, false);
    assert o.Broadcast?;
    assert o.room == RoomName(1, 2) && o.event.text == "hi";
    assert Deliveries(server.rooms, o, "sid-alice") == {"sid-alice", "sid-bob"};
  }

  /** Consecutive messages get consecutive ids, starting from the first free one. */
  method ConsecutiveIds()
  {
    var server := new ChatServer({1, 2}, [], 1);
    var hi := Payload(Some("hi"), Some(2), Some(1), Some("alice"));
    PaddedHi();
    assert MessageText(hi) == "hi" by { TrimIdempotent("  hi  "); }
    assert HasParties(hi) && 2 in server.users;
    var o1 := server.SendMessage(hi, false);
    var o2 := server.SendMessage(hi, false);
    assert o1.event.id == 1 && o2.event.id == 2;
  }

  /** Clearing a pair's chat broadcasts `chat_cleared` to their room even when
      there is nothing to delete, and leaves their history empty. */
  method ClearScenario()
  {
    var server := new ChatServer({1, 2}, [], 1);
    var clear := Payload(None, Some(1), Some(2), Some("bob"));
    assert HasParties(clear) && 1 in server.users;
    var o := server.ClearChat(clear, false);
    assert o == Broadcast(RoomName(2, 1), ChatCleared("bob"));
    assert server.History(1, 2) == [] by {
      ConversationSymmetric(server.messages, 1, 2);
    }
  }

  /** A 1001-character message is refused with the length error, which only
      the sender's connection receives, and nothing is stored. */
  method TooLongScenario()
  {
    var server := new ChatServer({1, 2}, [], 1);
    var long := seq(1001, _ => 'a');
    assert Trim(long) == long by {
      TrimPadded([], long, []);
      assert [] + long + [] == long;
    }
    var o := server.SendMessage(Payload(Some(long), Some(2), Some(1), Some("alice")), false);
    assert o == Error(MessageTooLong);
    assert Deliveries(server.rooms, o, "sid-alice") == {"sid-alice"};
    assert server.messages == [];
  }
}
