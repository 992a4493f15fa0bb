/** The message table as a sequence in insertion order (which is timestamp
    order), with the two queries the handlers run against it: the history of a
    pair of users and the bulk delete of that history. */
module Store {

  /** A stored row: the id the store assigned, who sent it to whom, and the text. */
  datatype Message = Message(id: nat, senderId: int, receiverId: int, text: string)

  /** The filter `(sender == a and receiver == b) or (sender == b and receiver == a)`. */
  predicate Between(m: Message, a: int, b: int) {
    (m.senderId == a && m.receiverId == b) || (m.senderId == b && m.receiverId == a)
  }

  /** Every message was given an id below `n`, so `n` is fresh. */
  predicate IdsBelow(ms: seq<Message>, n: nat) {
    forall i :: 0 <= i < |ms| ==> ms[i].id < n
  }

  /** Ids grow along the sequence, so they are distinct and ties in time are
      broken by id. */
  predicate IdsIncreasing(ms: seq<Message>) {
    forall i, j :: 0 <= i < j < |ms| ==> ms[i].id < ms[j].id
  }

  /** The history between `a` and `b`: the messages they exchanged, in either
      direction, in store order. */
  function Conversation(ms: seq<Message>, a: int, b: int): (h: seq<Message>)
    ensures |h| <= |ms|
    ensures forall m :: m in h <==> m in ms && Between(m, a, b)
  {
    if ms == [] then []
    else if Between(ms[0], a, b) then [ms[0]] + Conversation(ms[1..], a, b)
    else Conversation(ms[1..], a, b)
  }

  /** The store after deleting the history between `a` and `b`: every other
      message, in store order. */
  function Without(ms: seq<Message>, a: int, b: int): (r: seq<Message>)
    ensures |r| <= |ms|
    ensures forall m :: m in r <==> m in ms && !Between(m, a, b)
  {
    if ms == [] then []
    else if Between(ms[0], a, b) then Without(ms[1..], a, b)
    else [ms[0]] + Without(ms[1..], a, b)
  }

  /** Two unordered pairs select the same messages only when they are the same pair. */
  lemma BetweenDistinctPairs(m: Message, a: int, b: int, c: int, d: int)
    requires {a, b} != {c, d}
    ensures !(Between(m, a, b) && Between(m, c, d))
  {
  }

  /** The history does not depend on which participant asks for it. */
  lemma {:induction false} ConversationSymmetric(ms: seq<Message>, a: int, b: int)
    ensures Conversation(ms, a, b) == Conversation(ms, b, a)
  {
    if ms != [] {
      ConversationSymmetric(ms[1..], a, b);
    }
  }

  /** Appending a message extends the history of its own pair by exactly that
      message, at the end, and leaves the history of every other pair as it was. */
  lemma {:induction false} ConversationAppend(ms: seq<Message>, m: Message, a: int, b: int)
    ensures Conversation(ms + [m], a, b)
            == Conversation(ms, a, b) + (if Between(m, a, b) then [m] else [])
  {
    if ms != [] {
      assert (ms + [m])[1..] == ms[1..] + [m];
      ConversationAppend(ms[1..], m, a, b);
    } else {
      assert [] + [m] == [m];
      assert [m][1..] == [];
    }
  }

  /** Clearing from either side deletes the same messages. */
  lemma {:induction false} WithoutSymmetric(ms: seq<Message>, a: int, b: int)
    ensures Without(ms, a, b) == Without(ms, b, a)
  {
    if ms != [] {
      WithoutSymmetric(ms[1..], a, b);
    }
  }

  /** After clearing, the pair's history is empty. */
  lemma ClearEmptiesConversation(ms: seq<Message>, a: int, b: int)
    ensures Conversation(Without(ms, a, b), a, b) == []
  {
  }

  /** Clearing one pair's history leaves the history of every other pair, order
      included, exactly as it was; since the history query is the only way the
      store is read, nothing else about the store is observably changed. */
  lemma {:induction false} ClearKeepsOtherConversations(ms: seq<Message>, a: int, b: int, c: int, d: int)
    requires {a, b} != {c, d}
    ensures Conversation(Without(ms, a, b), c, d) == Conversation(ms, c, d)
  {
    if ms != [] {
      BetweenDistinctPairs(ms[0], a, b, c, d);
      ClearKeepsOtherConversations(ms[1..], a, b, c, d);
    }
  }

  /** Clearing deletes exactly the pair's history: what is kept and what is
      deleted together make up the store, with nothing lost or duplicated. */
  lemma {:induction false} ClearPartitions(ms: seq<Message>, a: int, b: int)
    ensures multiset(Without(ms, a, b)) + multiset(Conversation(ms, a, b)) == multiset(ms)
    ensures |Without(ms, a, b)| + |Conversation(ms, a, b)| == |ms|
  {
    if ms != [] {
      ClearPartitions(ms[1..], a, b);
      assert ms == [ms[0]] + ms[1..];
    }
  }

  /** Clearing a pair with no history changes nothing. */
  lemma {:induction false} ClearWithNothingToDelete(ms: seq<Message>, a: int, b: int)
    requires Conversation(ms, a, b) == []
    ensures Without(ms, a, b) == ms
  {
    if ms != [] {
      assert !Between(ms[0], a, b);
      ClearWithNothingToDelete(ms[1..], a, b);
    }
  }

  /** Appending a message with the fresh id keeps the ids increasing and makes
      the next id fresh again. */
  lemma AppendKeepsIds(ms: seq<Message>, m: Message, n: nat)
    requires IdsIncreasing(ms) && IdsBelow(ms, n) && m.id == n
    ensures IdsIncreasing(ms + [m]) && IdsBelow(ms + [m], n + 1)
  {
  }

  /** Deleting messages keeps the ids in increasing order. */
  lemma {:induction false} WithoutKeepsIdsIncreasing(ms: seq<Message>, a: int, b: int)
    requires IdsIncreasing(ms)
    ensures IdsIncreasing(Without(ms, a, b))
  {
    if ms != [] {
      var rest := Without(ms[1..], a, b);
      WithoutKeepsIdsIncreasing(ms[1..], a, b);
      forall k | 0 <= k < |rest| ensures ms[0].id < rest[k].id {
        assert rest[k] in ms[1..];
      }
    }
  }

  /** Deleting messages keeps every id below the next fresh one. */
  lemma WithoutKeepsIdsBelow(ms: seq<Message>, a: int, b: int, n: nat)
    requires IdsBelow(ms, n)
    ensures IdsBelow(Without(ms, a, b), n)
  {
    var r := Without(ms, a, b);
    forall k | 0 <= k < |r| ensures r[k].id < n {
      assert r[k] in ms;
    }
  }
}
