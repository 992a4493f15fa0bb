/** The two input validators: user names and message bodies. Each answers
    with a pass/fail flag and an error text, empty on success. */
module Validation {
  import opened Text

  /** The `(is_valid, error_message)` pair the validators return. */
  datatype Verdict = Verdict(ok: bool, error: string)

  const Accepted := Verdict(true, "")

  const UsernameTooShort := "Username must be at least 3 characters long"
  const UsernameTooLong := "Username must be less than 20 characters"
  const UsernameBadChars := "Username can only contain letters, numbers, and underscores"
  const MessageEmpty := "Message cannot be empty"
  const MessageTooLong := "Message must be less than 1000 characters"

  const UsernameMin := 3
  const UsernameMax := 20
  const MessageMax := 1000

  /** The character class `[a-zA-Z0-9_]`. */
  predicate IsWordChar(c: char) {
    ('a' <= c <= 'z') || ('A' <= c <= 'Z') || ('0' <= c <= '9') || c == '_'
  }

  predicate AllWord(s: string) {
    forall i :: 0 <= i < |s| ==> IsWordChar(s[i])
  }

  /** Whether `re.match(r'^[a-zA-Z0-9_]+$', s)` finds a match. The greedy run
      must cover the whole string, except that Python's `$` also matches just
      before a newline that ends the string. */
  predicate MatchesWordPattern(s: string) {
    || (|s| >= 1 && AllWord(s))
    || (|s| >= 2 && s[|s| - 1] == '\n' && AllWord(s[..|s| - 1]))
  }

  /** On a stripped string the pattern means "non-empty and only word
      characters": the newline allowance of `$` never applies. */
  lemma StrippedPatternMatch(s: string)
    requires Stripped(s)
    ensures MatchesWordPattern(s) <==> |s| >= 1 && AllWord(s)
  {
    if |s| >= 2 {
      assert IsSpace('\n');
    }
  }

  /** `validate_username`: the stripped name must be 3 to 20 characters long and
      made of ASCII letters, digits and underscores; the length checks come
      first, the short check before the long check. */
  function ValidateUsername(username: string): (v: Verdict)
    ensures v.ok <==> UsernameMin <= |Trim(username)| <= UsernameMax && AllWord(Trim(username))
    ensures v.ok ==> v == Accepted
    ensures |Trim(username)| < UsernameMin ==> v == Verdict(false, UsernameTooShort)
    ensures |Trim(username)| > UsernameMax ==> v == Verdict(false, UsernameTooLong)
    ensures (UsernameMin <= |Trim(username)| <= UsernameMax && !AllWord(Trim(username)))
      ==> v == Verdict(false, UsernameBadChars)
  {
    var name := Trim(username);
    StrippedPatternMatch(name);
    if |username| == 0 || |name| < UsernameMin then Verdict(false, UsernameTooShort)
    else if |name| > UsernameMax then Verdict(false, UsernameTooLong)
    else if !MatchesWordPattern(name) then Verdict(false, UsernameBadChars)
    else Accepted
  }

  /** `validate_message`: the stripped text must be 1 to 1000 characters long;
      emptiness is reported before excess length. */
  function ValidateMessage(text: string): (v: Verdict)
    ensures v.ok <==> 1 <= |Trim(text)| <= MessageMax
    ensures v.ok ==> v == Accepted
    ensures Trim(text) == [] <==> v == Verdict(false, MessageEmpty)
    ensures |Trim(text)| > MessageMax <==> v == Verdict(false, MessageTooLong)
  {
    if |text| == 0 || |Trim(text)| == 0 then Verdict(false, MessageEmpty)
    else if |Trim(text)| > MessageMax then Verdict(false, MessageTooLong)
    else Accepted
  }

  /** Validating already stripped text gives the same verdict as validating the
      raw text, so a handler may strip first and validate after. */
  lemma ValidateMessageOfStripped(text: string)
    ensures ValidateMessage(Trim(text)) == ValidateMessage(text)
  {
    TrimIdempotent(text);
  }

  /** The same for user names: the login form strips before validating. */
  lemma ValidateUsernameOfStripped(username: string)
    ensures ValidateUsername(Trim(username)) == ValidateUsername(username)
  {
    TrimIdempotent(username);
  }

  /** No word character is whitespace. */
  lemma WordCharIsNotSpace(c: char)
    requires IsWordChar(c)
    ensures !IsSpace(c)
  {
  }

  /** An accepted user name carries no whitespace anywhere once stripped. */
  lemma AcceptedUsernameIsStripped(username: string)
    requires ValidateUsername(username).ok
    ensures forall i :: 0 <= i < |Trim(username)| ==> !IsSpace(Trim(username)[i])
  {
    var name := Trim(username);
    forall i | 0 <= i < |name| ensures !IsSpace(name[i]) {
      WordCharIsNotSpace(name[i]);
    }
  }
}
