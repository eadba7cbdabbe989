/**
 * Field validators (src/utils/validation.ts): ordered checks that stop at the
 * first failure and report its message. Regular expressions become character
 * predicates.
 */
module Validation {
  import opened Wrappers
  import opened Text

  datatype ValidationResult = ValidationResult(isValid: bool, error: Option<string>)

  const Valid: ValidationResult := ValidationResult(true, None)

  function Invalid(message: string): (r: ValidationResult)
    ensures !r.isValid && r.error == Some(message)
  {
    ValidationResult(false, Some(message))
  }

  /** The class `[a-zA-Z0-9_-]`. */
  predicate IsUsernameChar(c: char) {
    ('a' <= c <= 'z') || ('A' <= c <= 'Z') || ('0' <= c <= '9') || c == '_' || c == '-'
  }

  /** `/^[a-zA-Z0-9_-]+$/.test(s)`: at least one character, each in the class. */
  function MatchesUsernamePattern(s: string): (b: bool)
    ensures b <==> |s| > 0 && forall i :: 0 <= i < |s| ==> IsUsernameChar(s[i])
  {
    |s| > 0 && AllUsernameChars(s)
  }

  function AllUsernameChars(s: string): (b: bool)
    ensures b <==> forall i :: 0 <= i < |s| ==> IsUsernameChar(s[i])
  {
    if s == [] then true
    else
      var rest := AllUsernameChars(s[1..]);
      assert forall i :: 1 <= i < |s| ==> s[i] == s[1..][i - 1];
      IsUsernameChar(s[0]) && rest
  }

  function ValidateUsername(username: string, minLength: int := 3, maxLength: int := 20): (r: ValidationResult)
    // the error is absent exactly when the name is valid
    ensures r.isValid <==> r.error == None
    ensures r.isValid <==>
              && username != ""
              && minLength <= |username| <= maxLength
              && forall i :: 0 <= i < |username| ==> IsUsernameChar(username[i])
    // the checks run in order and the first failing one decides the message
    ensures username == "" ==> r.error == Some("Username cannot be empty")
    ensures username != "" && |username| < minLength ==>
              r.error == Some("Username must be at least " + IntToString(minLength) + " characters long")
    ensures username != "" && minLength <= |username| && |username| > maxLength ==>
              r.error == Some("Username must not exceed " + IntToString(maxLength) + " characters")
    ensures username != "" && minLength <= |username| <= maxLength && !MatchesUsernamePattern(username) ==>
              r.error == Some("Username can only contain letters, numbers, hyphens, and underscores")
  {
    if username == "" then Invalid("Username cannot be empty")
    else if |username| < minLength then
      Invalid("Username must be at least " + IntToString(minLength) + " characters long")
    else if |username| > maxLength then
      Invalid("Username must not exceed " + IntToString(maxLength) + " characters")
    else if !MatchesUsernamePattern(username) then
      Invalid("Username can only contain letters, numbers, hyphens, and underscores")
    else Valid
  }

  /** With the default bounds, the length limits are inclusive at 3 and 20. */
  lemma UsernameDefaultBounds(username: string)
    requires forall i :: 0 <= i < |username| ==> IsUsernameChar(username[i])
    ensures ValidateUsername(username).isValid <==> 3 <= |username| <= 20
    ensures |username| == 2 ==> ValidateUsername(username).error == Some("Username must be at least 3 characters long")
    ensures |username| == 21 ==> ValidateUsername(username).error == Some("Username must not exceed 20 characters")
  {
    assert IntToString(3) == "3";
    assert "Username must be at least " + IntToString(3) + " characters long" == "Username must be at least 3 characters long";
    assert NatToString(20) == NatToString(2) + [DigitChar(0)];
    assert IntToString(20) == "20";
    assert "Username must not exceed " + IntToString(20) + " characters" == "Username must not exceed 20 characters";
  }

  function ValidateMessage(message: string, maxLength: int := 1000): (r: ValidationResult)
    ensures r.isValid <==> r.error == None
    ensures r.isValid <==> message != "" && |message| <= maxLength
    ensures message == "" ==> r.error == Some("Message cannot be empty")
    ensures message != "" && |message| > maxLength ==>
              r.error == Some("Message must not exceed " + IntToString(maxLength) + " characters")
  {
    if message == "" then Invalid("Message cannot be empty")
    else if |message| > maxLength then Invalid("Message must not exceed " + IntToString(maxLength) + " characters")
    else Valid
  }

  /** The class `[^\s@]`. */
  predicate IsEmailChar(c: char) {
    !IsWhitespace(c) && c != '@'
  }

  predicate AllEmailChars(s: string) {
    forall i :: 0 <= i < |s| ==> IsEmailChar(s[i])
  }

  /**
   * `/^[^\s@]+@[^\s@]+\.[^\s@]+$/.test(s)`: three non-empty runs of `[^\s@]`
   * separated by '@' and then '.'.
   */
  predicate MatchesEmailPattern(s: string) {
    exists at, dot :: 0 < at < |s| && 0 < dot < |s| && EmailSplit(s, at, dot)
  }

  /** `s` reads local part, '@' at `at`, domain name, '.' at `dot`, top-level part. */
  predicate EmailSplit(s: string, at: int, dot: int) {
    && 0 < at && at + 1 < dot && dot + 1 < |s|
    && s[at] == '@' && s[dot] == '.'
    && AllEmailChars(s[..at]) && AllEmailChars(s[at + 1..dot]) && AllEmailChars(s[dot + 1..])
  }

  function ValidateEmail(email: string): (r: ValidationResult)
    ensures r.isValid <==> r.error == None
    ensures r.isValid <==> email != "" && MatchesEmailPattern(email)
    ensures email == "" ==> r.error == Some("Email cannot be empty")
    ensures email != "" && !MatchesEmailPattern(email) ==> r.error == Some("Invalid email format")
  {
    if email == "" then Invalid("Email cannot be empty")
    else if !MatchesEmailPattern(email) then Invalid("Invalid email format")
    else Valid
  }

  /** The number of occurrences of `c` in `s`. */
  function Count(s: string, c: char): nat {
    if s == [] then 0 else (if s[0] == c then 1 else 0) + Count(s[1..], c)
  }

  lemma {:induction false} CountSplit(s: string, c: char, k: nat)
    requires k <= |s|
    ensures Count(s, c) == Count(s[..k], c) + Count(s[k..], c)
  {
    if k > 0 {
      CountSplit(s[1..], c, k - 1);
      assert s[1..][..k - 1] == s[..k][1..];
      assert s[1..][k - 1..] == s[k..];
    } else {
      assert s[..k] == [];
      assert s[k..] == s;
    }
  }

  lemma {:induction false} CountNone(s: string, c: char)
    ensures Count(s, c) == 0 <==> forall i :: 0 <= i < |s| ==> s[i] != c
  {
    if s != [] {
      CountNone(s[1..], c);
      assert forall i :: 1 <= i < |s| ==> s[i] == s[1..][i - 1];
    }
  }

  /** `s` has exactly one `c`, at position k. */
  lemma CountOnlyAt(s: string, c: char, k: nat)
    requires k < |s| && s[k] == c
    ensures Count(s, c) == 1 <==> forall i :: 0 <= i < |s| && i != k ==> s[i] != c
  {
    CountSplit(s, c, k);
    CountSplit(s[k..], c, 1);
    assert s[k..][..1] == [c];
    assert s[k..][1..] == s[k + 1..];
    CountNone(s[..k], c);
    CountNone(s[k + 1..], c);
    assert forall i :: 0 <= i < k ==> s[i] == s[..k][i];
    assert forall i :: k < i < |s| ==> s[i] == s[k + 1..][i - k - 1];
  }

  /** A slice with only email characters, from a range of indices that has only those. */
  lemma EmailCharsSlice(s: string, lo: nat, hi: nat)
    requires lo <= hi <= |s|
    requires forall i :: lo <= i < hi ==> IsEmailChar(s[i])
    ensures AllEmailChars(s[lo..hi])
  {
    assert forall j :: 0 <= j < hi - lo ==> s[lo..hi][j] == s[lo + j];
  }

  /** What a slice of email characters says about the string's own indices. */
  lemma EmailCharsOfSlice(s: string, lo: nat, hi: nat)
    requires lo <= hi <= |s|
    requires AllEmailChars(s[lo..hi])
    ensures forall i :: lo <= i < hi ==> IsEmailChar(s[i])
  {
    assert forall i :: lo <= i < hi ==> s[i] == s[lo..hi][i - lo];
  }

  /** A matching email has no whitespace and exactly one '@'. */
  lemma EmailPatternSound(s: string)
    requires MatchesEmailPattern(s)
    ensures forall i :: 0 <= i < |s| ==> !IsWhitespace(s[i])
    ensures Count(s, '@') == 1
  {
    var at, dot :| 0 < at < |s| && 0 < dot < |s| && EmailSplit(s, at, dot);
    assert 0 < at && at + 1 < dot && dot + 1 < |s| && s[at] == '@';
    assert AllEmailChars(s[..at]) && AllEmailChars(s[at + 1..dot]) && AllEmailChars(s[dot + 1..]);
    assert s[..at] == s[0..at] && s[dot + 1..] == s[dot + 1..|s|];
    EmailCharsOfSlice(s, 0, at);
    EmailCharsOfSlice(s, at + 1, dot);
    EmailCharsOfSlice(s, dot + 1, |s|);
    CountOnlyAt(s, '@', at);
  }

  /** Conversely, one '@' with a non-empty local part, an interior '.' after it and no whitespace match. */
  lemma EmailPatternComplete(s: string, at: nat, dot: nat)
    requires forall i :: 0 <= i < |s| ==> !IsWhitespace(s[i])
    requires Count(s, '@') == 1
    requires 0 < at && at + 1 < dot && dot + 1 < |s| && s[at] == '@' && s[dot] == '.'
    ensures MatchesEmailPattern(s)
  {
    CountOnlyAt(s, '@', at);
    EmailCharsSlice(s, 0, at);
    EmailCharsSlice(s, at + 1, dot);
    EmailCharsSlice(s, dot + 1, |s|);
    assert s[..at] == s[0..at] && s[dot + 1..] == s[dot + 1..|s|];
    assert EmailSplit(s, at, dot);
  }

  /**
   * The email pattern in plain terms: no whitespace, exactly one '@', a non-empty
   * local part, and a '.' in the domain that is neither its first nor its last character.
   */
  lemma EmailPatternMeaning(s: string)
    ensures MatchesEmailPattern(s) <==>
              && (forall i :: 0 <= i < |s| ==> !IsWhitespace(s[i]))
              && Count(s, '@') == 1
              && exists at, dot :: 0 < at && at + 1 < dot && dot + 1 < |s| && s[at] == '@' && s[dot] == '.'
  {
    if MatchesEmailPattern(s) {
      EmailPatternSound(s);
    }
    if && (forall i :: 0 <= i < |s| ==> !IsWhitespace(s[i]))
       && Count(s, '@') == 1
       && exists at, dot :: 0 < at && at + 1 < dot && dot + 1 < |s| && s[at] == '@' && s[dot] == '.'
    {
      var at, dot :| 0 < at && at + 1 < dot && dot + 1 < |s| && s[at] == '@' && s[dot] == '.';
      EmailPatternComplete(s, at, dot);
    }
  }
}
