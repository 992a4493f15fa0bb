# A verified model of the chatbot server's core

The chatbot is a Flask-SocketIO server for private one-to-one chats between
registered users. Its core, `app.py`, holds two input validators
(user name and message text), the room-name function that maps a pair of users
to one Socket.IO room, the history query of the private chat page, and the four
Socket.IO event handlers: `join_chat`, `leave_chat`, `send_message` and
`clear_chat`.

This project models that core in Dafny and proves what its design promises:

- a message is validated after being stripped;
- it is stored with a fresh id;
- it is broadcast only to the room of its two users, which is the same room
  whichever user computes it, and no other pair shares it;
- clearing a chat deletes exactly that pair's history and nothing else;
- every failed check answers only the requesting connection and leaves the
  store unchanged.

Modules:

- `Text` (text.dfy) models Python's `str.strip()` over the characters
  `str.isspace()` accepts.
- `Validation` (validation.dfy) models `validate_username` and
  `validate_message`, with the regex `^[a-zA-Z0-9_]+$`. Python's `$` also
  matches before a final newline, and the model includes that case.
- `RoomNames` (rooms.dfy) models `get_room_name` as the string
  `"room_" + str(min) + "_" + str(max)`, with Python's `str` on integers.
- `Store` (store.dfy) models the message table in insertion order, the history
  filter and the bulk delete.
- `Registry` (registry.dfy) models the room registry that `join_room` and
  `leave_room` act on.
- `Chat` (chat.dfy) models the event payloads, the handlers' outcomes and a
  `ChatServer` class whose fields are the message table, the user table,
  the room registry and the next message id. Its handler methods update those
  fields.

Some definitions model source lines directly and carry no contract of their
own; the lemmas above state their properties:

- `RoomNames.RoomName` is `get_room_name` (app.py:24-26);
- `Chat.MessageText` is `data.get('text', '').strip()` (app.py:185);
- `Validation.MatchesWordPattern` is the `re.match` test (app.py:34);
- `Store.Between` is the pair filter (app.py:115-118 and 257-259);
- `Chat.HasParties` is the required-fields test (app.py:196 and 245).

Exceptions from the database are a `fault` parameter of the two handlers that
use the store. The clock is left out.

## Model

| member | source | states |
|---|---|---|
| Text.Trim | app.py:185 | `strip()`; neither end of the result is whitespace; the result is no longer than the input; the result is empty exactly when the input is all whitespace |
| Text.TrimSplits | app.py:185 | every string is its stripped form with only whitespace before and after it |
| Text.TrimPadded | app.py:185 | stripping whitespace + a stripped core + whitespace gives back exactly that core |
| Text.TrimIdempotent | app.py:54-57 | stripping twice is stripping once; the login form strips and `validate_username` strips again |
| Validation.StrippedPatternMatch | app.py:34 | on a stripped name, `re.match('^[a-zA-Z0-9_]+$')` accepts exactly the non-empty strings of letters, digits and underscores |
| Validation.ValidateUsername | app.py:28-36 | accepted iff the stripped name has 3 to 20 characters, all word characters; on success the error is ""; too short, too long and bad characters each give their own message, tested in that order |
| Validation.ValidateMessage | app.py:38-44 | accepted iff the stripped text has 1 to 1000 characters; the "empty" error exactly when it strips to nothing, the "too long" error exactly when it exceeds 1000 |
| Validation.ValidateMessageOfStripped | app.py:185-191 | validating the stripped text gives the same verdict as validating the raw text |
| Validation.ValidateUsernameOfStripped | app.py:54-57 | validating the stripped name gives the same verdict as validating the raw name |
| Validation.AcceptedUsernameIsStripped | app.py:28-36 | the stripped form of an accepted name contains no whitespace at all |
| RoomNames.NatToString | app.py:26 | `str(n)` is a non-empty string of digits, one digit exactly for n < 10 |
| RoomNames.IntToString | app.py:26 | `str(n)` contains no `_`, starts with `-` exactly for negatives, and is digits otherwise |
| RoomNames.NatToStringRoundTrip | app.py:26 | reading the digits back gives the number |
| RoomNames.IntToStringRoundTrip | app.py:26 | `int(str(n)) == n` |
| RoomNames.IntToStringInjective | app.py:26 | two integers print alike iff they are equal |
| RoomNames.SplitUnique | app.py:26 | a separator that is absent from the left parts splits a string in one way only |
| RoomNames.RoomNameSymmetric | app.py:24-26 | both users of a pair compute the same room |
| RoomNames.RoomNameDeterminesEnds | app.py:24-26 | the room name determines the smaller and the larger id |
| RoomNames.SamePairSameEnds | app.py:26 | two unordered pairs are equal iff their minima and maxima are equal |
| RoomNames.RoomNameEquality | app.py:24-26 | two pairs share a room iff they are the same unordered pair |
| Store.Conversation | app.py:115-118 | the history holds exactly the stored messages exchanged by the pair in either direction, and is no longer than the store |
| Store.Without | app.py:257-260 | after the delete, the store holds exactly the messages not between the pair |
| Store.BetweenDistinctPairs | app.py:258-259 | no message belongs to two different pairs |
| Store.ConversationSymmetric | app.py:115-118 | the history does not depend on which participant asks |
| Store.ConversationAppend | app.py:208-214 | storing a message appends it to its own pair's history and leaves every other pair's history unchanged |
| Store.WithoutSymmetric | app.py:257-260 | clearing from either side deletes the same messages |
| Store.ClearEmptiesConversation | app.py:257-262 | after clearing, the pair's history is empty |
| Store.ClearKeepsOtherConversations | app.py:257-262 | clearing one pair leaves the history of every other pair exactly as it was, order included |
| Store.ClearPartitions | app.py:257-260 | the kept and the deleted messages together make up the old store, as multisets and in count |
| Store.ClearWithNothingToDelete | app.py:257-262 | clearing a pair with no history leaves the store unchanged |
| Store.AppendKeepsIds | app.py:208-214 | appending with the fresh id keeps ids increasing and the next id fresh |
| Store.WithoutKeepsIdsIncreasing | app.py:257-260 | deleting keeps ids in increasing order |
| Store.WithoutKeepsIdsBelow | app.py:257-260 | deleting keeps every id below the next fresh one |
| Registry.Join | app.py:160-161 | `join_room` adds the connection to that room only, and no room is left empty |
| Registry.Leave | app.py:176-177 | `leave_room` removes the connection from that room only; an emptied room is dropped |
| Registry.SameMembersSame | app.py:160-161 | two well-formed registries with the same members everywhere are equal |
| Registry.JoinIdempotent | app.py:160-161 | joining twice is joining once, so a connection never receives a broadcast twice |
| Registry.LeaveAbsentIsNoop | app.py:176-177 | leaving a room one is not in changes nothing |
| Registry.LeaveUndoesJoin | app.py:160-177 | joining a room one was not in and then leaving it restores the registry |
| Chat.Deliveries | app.py:193-230 | an `emit` error reaches only the requesting connection; a room broadcast reaches only the room's members |
| Chat.ScopeIsolation | app.py:217-230 | a connection subscribed only to its own pair's room never receives a broadcast to a different pair |
| Chat.ChatServer.constructor | app.py:20-22 | a server starts over the tables `db.create_all()` keeps: the stored users and messages, with the next id above every stored one; no connection is in any room; the invariant holds |
| Chat.ChatServer.History | app.py:114-118 | the private chat page's history between the two users |
| Chat.ChatServer.JoinChat | app.py:144-163 | with receiver id, user id and user name given, the connection joins the pair's room; otherwise nothing changes; the registry invariant is kept |
| Chat.ChatServer.LeaveChat | app.py:165-179 | with receiver id and user id given, the connection leaves the pair's room; otherwise nothing changes |
| Chat.ChatServer.AddMessage | app.py:207-214 | one row is appended with a fresh id; ids stay increasing; the pair's history grows by that row |
| Chat.ChatServer.SendMessage | app.py:181-235 | validation, required fields, store fault and unknown receiver produce their errors in that order, with the store unchanged; otherwise one message with the next id and the stripped 1..1000-character text is appended, the next id advances by one, and `new_message` goes to the pair's room |
| Chat.ChatServer.ClearChat | app.py:237-279 | required fields, store fault and unknown receiver produce their errors in that order, with the store unchanged; otherwise exactly the pair's messages are deleted, its history becomes empty, and `chat_cleared` goes to the pair's room even when nothing was deleted |
| Chat.PaddedHi | app.py:185-191 | `"  hi  "` strips to `"hi"`, which is a valid message |
| Chat.JoinedPair | app.py:144-163 | users 1 and 2, joining from either side, end up in the same room |

The methods `TwoUserScenario`, `ConsecutiveIds`, `ClearScenario` and `TooLongScenario` in
chat.dfy contain worked examples:

- a padded message reaches both users' connections, stripped;
- clearing an empty chat still broadcasts `chat_cleared`;
- two consecutive messages get the ids 1 and 2;
- a 1001-character message yields the length error, which only the sender's
  connection receives.

## Left out

- The page routes `index`, `login`, `chat`, `private_chat` and `logout` (app.py:46-132) are not modelled as operations. Flask sessions, templates, redirects and flashes are left out. Login's validation is covered by `ValidateUsername` and `ValidateUsernameOfStripped`. The history query of `private_chat` is `ChatServer.History`.
- The login's find-or-create step (app.py:62-80) is left out. The user table is a fixed set of ids given to the constructor.
- `connect` and `disconnect` (app.py:135-142) only print, so they are left out. The Socket.IO server drops a closed connection from its rooms on its own, and that cleanup is not modelled.
- Timestamps (`message.timestamp`, `datetime.utcnow()` and `strftime`) are left out of the events. Store order stands for timestamp order.
- Database transactions and rollback are reduced to one `fault` flag per request. When it is set, the handler answers with the "Failed to ..." error and nothing changes. With a fault, every store access fails, so the model cannot report `Receiver not found` before the fault.
- Message ids come from a counter that only grows. SQLite's reuse of a deleted top rowid is not modelled.
- A `text` key that is present with value null makes `None.strip()` raise inside the handler, and that path is not modelled. `None` in `Payload` stands for an absent key, which reads as `""`.
- A missing or non-dictionary `data` makes `data.get` raise in all four handlers; that path is not modelled, and `Payload` always has its four fields.
- Ids are Python `int` values. Ids of other JSON types, such as strings or floats, and `bool` ids are not modelled.
- Logging through `print` is left out.
- config.py and wsgi.py are not part of this model. They only select configuration and start the server.
- Concurrency between handlers is left out: each handler runs as one atomic step of `ChatServer`.
- `Chat.Deliveries`: for a broadcast, the contract promises only that everyone reached is a member of the room. The body delivers to exactly the members.

## Notes on the code as written

- The handlers do not reject `current_user_id == receiver_id`. Only the `private_chat` page redirects in that case. The model follows the handlers: a user may message themself, in room `room_n_n`.
- `validate_username` says "less than 20 characters" and `validate_message` says "less than 1000 characters", but both accept exactly 20 and exactly 1000 characters. The model keeps both the texts and the inclusive limits.
- `join_chat` requires the user name and `leave_chat` does not, as in the code.
