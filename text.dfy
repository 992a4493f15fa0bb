/** Python's `str.strip()` with no argument: remove leading and trailing
    whitespace, where whitespace is what `str.isspace()` accepts. */
module Text {

  /** The characters `str.isspace()` accepts: the ASCII controls TAB, LF, VT,
      FF, CR and FS..US, SPACE, NEL, NO-BREAK SPACE, and the Unicode space,
      line and paragraph separators. */
  const Whitespace: set<char> := {
    '\t', '\n', '\U{B}', '\U{C}', '\r', '\U{1C}', '\U{1D}', '\U{1E}', '\U{1F}', ' ',
    '\U{85}', '\U{A0}', '\U{1680}',
    '\U{2000}', '\U{2001}', '\U{2002}', '\U{2003}', '\U{2004}', '\U{2005}',
    '\U{2006}', '\U{2007}', '\U{2008}', '\U{2009}', '\U{200A}',
    '\U{2028}', '\U{2029}', '\U{202F}', '\U{205F}', '\U{3000}'
  }

  predicate IsSpace(c: char) {
    c in Whitespace
  }

  predicate AllSpace(s: string) {
    forall i :: 0 <= i < |s| ==> IsSpace(s[i])
  }

  /** True when `s` neither starts nor ends with whitespace. */
  predicate Stripped(s: string) {
    s == [] || (!IsSpace(s[0]) && !IsSpace(s[|s| - 1]))
  }

  /** `s.strip()`: drop whitespace from the front, then from the back, until
      neither end is whitespace. The result is empty exactly when `s` is all
      whitespace. */
  function Trim(s: string): (r: string)
    ensures |r| <= |s|
    ensures Stripped(r)
    ensures r == [] <==> AllSpace(s)
    decreases |s|
  {
    if |s| > 0 && IsSpace(s[0]) then
      var r := Trim(s[1..]);
      assert AllSpace(s[1..]) ==> AllSpace(s) by {
        if AllSpace(s[1..]) {
          forall k | 0 < k < |s| ensures IsSpace(s[k]) { assert s[k] == s[1..][k - 1]; }
        }
      }
      r
    else if |s| > 0 && IsSpace(s[|s| - 1]) then
      Trim(s[..|s| - 1])
    else
      s
  }

  /** How many characters `strip` drops from the front of `s`. */
  function StripOffset(s: string): (n: nat)
    decreases |s|
  {
    if |s| > 0 && IsSpace(s[0]) then 1 + StripOffset(s[1..])
    else if |s| > 0 && IsSpace(s[|s| - 1]) then StripOffset(s[..|s| - 1])
    else 0
  }

  /** `s` is `Trim(s)` with the whitespace `StripOffset(s)` counts in front
      of it and only whitespace behind it. */
  predicate SplitsAtOffset(s: string) {
    && StripOffset(s) + |Trim(s)| <= |s|
    && s[StripOffset(s)..StripOffset(s) + |Trim(s)|] == Trim(s)
    && AllSpace(s[..StripOffset(s)]) && AllSpace(s[StripOffset(s) + |Trim(s)|..])
  }

  /** Every string is its stripped form with whitespace around it. */
  lemma {:induction false} TrimSplits(s: string)
    ensures SplitsAtOffset(s)
    decreases |s|
  {
    if |s| > 0 && IsSpace(s[0]) {
      TrimSplits(s[1..]);
      SplitsAfterLeadingSpace(s);
    } else if |s| > 0 && IsSpace(s[|s| - 1]) {
      TrimSplits(s[..|s| - 1]);
      SplitsAfterTrailingSpace(s);
    } else {
      assert s[0..|s|] == s;
    }
  }

  lemma SplitsAfterLeadingSpace(s: string)
    requires |s| > 0 && IsSpace(s[0]) && SplitsAtOffset(s[1..])
    ensures SplitsAtOffset(s)
  {
    var s', r, i := s[1..], Trim(s), StripOffset(s);
    assert s[i..i + |r|] == s'[i - 1..i - 1 + |r|];
    assert AllSpace(s[..i]) by {
      forall k | 0 < k < i ensures IsSpace(s[k]) { assert s[k] == s'[..i - 1][k - 1]; }
    }
    assert s[i + |r|..] == s'[i - 1 + |r|..];
  }

  lemma SplitsAfterTrailingSpace(s: string)
    requires |s| > 0 && !IsSpace(s[0]) && IsSpace(s[|s| - 1]) && SplitsAtOffset(s[..|s| - 1])
    ensures SplitsAtOffset(s)
  {
    var s', r, i := s[..|s| - 1], Trim(s), StripOffset(s);
    assert s[i..i + |r|] == s'[i..i + |r|];
    assert s[..i] == s'[..i];
    assert AllSpace(s[i + |r|..]) by {
      forall k | i + |r| <= k < |s| - 1 ensures IsSpace(s[k]) {
        assert s[k] == s'[i + |r|..][k - i - |r|];
      }
    }
  }

  /** Stripping a string that is whitespace around a stripped core gives
      back exactly that core: the decomposition TrimSplits gives is unique. */
  lemma {:induction false} TrimPadded(p: string, t: string, q: string)
    requires AllSpace(p) && AllSpace(q) && Stripped(t)
    ensures Trim(p + t + q) == t
    decreases |p| + |q|
  {
    var s := p + t + q;
    if p != [] {
      assert s[0] == p[0];
      assert s == [p[0]] + (p[1..] + t + q);
      TrimPadded(p[1..], t, q);
    } else if t != [] {
      assert s[0] == t[0];
      if q != [] {
        assert s[|s| - 1] == q[|q| - 1];
        assert s[..|s| - 1] == p + t + q[..|q| - 1];
        TrimPadded(p, t, q[..|q| - 1]);
      } else {
        assert s == t;
      }
    } else {
      assert s == q;
    }
  }

  /** Stripping twice is stripping once. */
  lemma TrimIdempotent(s: string)
    ensures Trim(Trim(s)) == Trim(s)
  {
    TrimPadded([], Trim(s), []);
    assert [] + Trim(s) + [] == Trim(s);
  }
}
