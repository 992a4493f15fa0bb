/** Room names: the canonical Socket.IO room of a two-user conversation,
    `"room_" + str(min(a, b)) + "_" + str(max(a, b))`. */
module RoomNames {

  function Min(a: int, b: int): (m: int) { if a <= b then a else b }
  function Max(a: int, b: int): (m: int) { if a <= b then b else a }

  predicate IsDigit(c: char) { '0' <= c <= '9' }

  predicate AllDigits(s: string) {
    forall i :: 0 <= i < |s| ==> IsDigit(s[i])
  }

  function DigitChar(d: int): (c: char)
    requires 0 <= d < 10
    ensures IsDigit(c)
  {
    (48 + d) as char
  }

  /** Python's `str(n)` for a non-negative integer: decimal, no leading zeros. */
  function NatToString(n: nat): (s: string)
    ensures |s| >= 1 && AllDigits(s)
    ensures |s| == 1 <==> n < 10
  {
    if n < 10 then [DigitChar(n)] else NatToString(n / 10) + [DigitChar(n % 10)]
  }

  /** The value of a string of decimal digits. */
  function ParseNat(s: string): (n: nat)
    requires AllDigits(s)
  {
    if s == [] then 0 else ParseNat(s[..|s| - 1]) * 10 + (s[|s| - 1] as int - 48)
  }

  /** Python's `str(n)` for any integer: a minus sign in front of negatives. */
  function IntToString(n: int): (s: string)
    ensures |s| >= 1 && '_' !in s
    ensures n < 0 <==> s[0] == '-'
    ensures AllDigits(s[1..]) && (n >= 0 ==> AllDigits(s))
  {
    if n < 0 then "-" + NatToString(-n) else NatToString(n)
  }

  /** Python's `int(s)` on what `str` produces. */
  function ParseInt(s: string): (n: int)
    requires |s| >= 1 && AllDigits(s[1..]) && (s[0] != '-' ==> AllDigits(s))
  {
    if s[0] == '-' then -(ParseNat(s[1..]) as int) else ParseNat(s)
  }

  /** Reading back the decimal rendering gives the number. */
  lemma {:induction false} NatToStringRoundTrip(n: nat)
    ensures ParseNat(NatToString(n)) == n
  {
    if n >= 10 {
      var s := NatToString(n);
      assert s[..|s| - 1] == NatToString(n / 10);
      NatToStringRoundTrip(n / 10);
    }
  }

  lemma IntToStringRoundTrip(n: int)
    ensures ParseInt(IntToString(n)) == n
  {
    if n < 0 {
      var digits := NatToString(-n);
      assert IntToString(n) == "-" + digits;
      assert ("-" + digits)[1..] == digits;
      NatToStringRoundTrip(-n);
    } else {
      NatToStringRoundTrip(n);
    }
  }

  /** Distinct integers have distinct renderings. */
  lemma IntToStringInjective(a: int, b: int)
    ensures IntToString(a) == IntToString(b) <==> a == b
  {
    IntToStringRoundTrip(a);
    IntToStringRoundTrip(b);
  }

  /** `get_room_name(user1_id, user2_id)`. */
  function RoomName(a: int, b: int): (room: string) {
    "room_" + IntToString(Min(a, b)) + "_" + IntToString(Max(a, b))
  }

  /** A separator that occurs in neither left part splits a string in one way only. */
  lemma {:induction false} SplitUnique(x: string, y: string, x': string, y': string, c: char)
    requires c !in x && c !in x'
    requires x + [c] + y == x' + [c] + y'
    ensures x == x' && y == y'
  {
    var s := x + [c] + y;
    assert s[|x|] == c;
    assert s[|x'|] == c;
    assert |x| == |x'|;
    assert x == s[..|x|] == x';
    assert y == s[|x| + 1..] == y';
  }

  /** The room name is order-independent. */
  lemma RoomNameSymmetric(a: int, b: int)
    ensures RoomName(a, b) == RoomName(b, a)
  {
  }

  /** The room name determines the smaller and the larger id. */
  lemma RoomNameDeterminesEnds(a: int, b: int, c: int, d: int)
    requires RoomName(a, b) == RoomName(c, d)
    ensures Min(a, b) == Min(c, d) && Max(a, b) == Max(c, d)
  {
    var x, y := IntToString(Min(a, b)), IntToString(Max(a, b));
    var x', y' := IntToString(Min(c, d)), IntToString(Max(c, d));
    assert RoomName(a, b)[5..] == x + ['_'] + y;
    assert RoomName(c, d)[5..] == x' + ['_'] + y';
    SplitUnique(x, y, x', y', '_');
    IntToStringInjective(Min(a, b), Min(c, d));
    IntToStringInjective(Max(a, b), Max(c, d));
  }

  /** An unordered pair is the same as its smaller and larger element. */
  lemma SamePairSameEnds(a: int, b: int, c: int, d: int)
    ensures {a, b} == {c, d} <==> Min(a, b) == Min(c, d) && Max(a, b) == Max(c, d)
  {
    if {a, b} == {c, d} {
      assert a in {c, d} && b in {c, d} && c in {a, b} && d in {a, b};
    }
  }

  /** Two pairs of users share a room exactly when they are the same unordered pair. */
  lemma RoomNameEquality(a: int, b: int, c: int, d: int)
    ensures RoomName(a, b) == RoomName(c, d) <==> {a, b} == {c, d}
  {
    SamePairSameEnds(a, b, c, d);
    if RoomName(a, b) == RoomName(c, d) {
      RoomNameDeterminesEnds(a, b, c, d);
    }
  }
}
