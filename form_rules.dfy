/**
 * The field checks the sign-up and sign-in forms share: the email must be present and
 * contain a match of `/\S+@\S+\.\S+/`, the password must be present and at least six
 * UTF-16 code units long. Field errors live in a map from field name to message; typing
 * into a field whose message is showing blanks that message.
 */
module FormRules {
  import opened JsValues

  predicate NonSpace(s: string) {
    forall i :: 0 <= i < |s| ==> !IsWhitespace(s[i])
  }

  /** `s[lo..hi]` is a match: a run, an `@` at `at`, a run, a `.` at `dot`, a run, each run non-empty and free of white space. */
  predicate MatchSpan(s: string, lo: int, at: int, dot: int, hi: int) {
    && 0 <= lo < at && at + 1 < dot && dot + 1 < hi <= |s|
    && NonSpace(s[lo..at]) && s[at] == '@'
    && NonSpace(s[at + 1..dot]) && s[dot] == '.'
    && NonSpace(s[dot + 1..hi])
  }

  /** The regular expression `\S+@\S+\.\S+` matches somewhere in `s`. */
  ghost predicate PatternOccurs(s: string) {
    exists lo, at, dot, hi :: MatchSpan(s, lo, at, dot, hi)
  }

  /** The search `RegExp.prototype.test` performs, with the outer runs cut to one character each. */
  predicate MatchAt(s: string, at: int, dot: int) {
    && 1 <= at && at + 1 < dot && dot + 1 < |s|
    && !IsWhitespace(s[at - 1]) && s[at] == '@'
    && NonSpace(s[at + 1..dot]) && s[dot] == '.'
    && !IsWhitespace(s[dot + 1])
  }

  /** `/\S+@\S+\.\S+/.test(s)`. */
  predicate Test(s: string) {
    exists at, dot | 0 <= at < dot < |s| :: MatchAt(s, at, dot)
  }

  /** The search agrees with the pattern: any match can be shortened to one character in each outer run. */
  lemma TestIffPatternOccurs(s: string)
    ensures Test(s) <==> PatternOccurs(s)
  {
    if Test(s) {
      var at, dot :| 0 <= at < dot < |s| && MatchAt(s, at, dot);
      assert s[at - 1..at] == [s[at - 1]];
      assert s[dot + 1..dot + 2] == [s[dot + 1]];
      assert MatchSpan(s, at - 1, at, dot, dot + 2);
    }
    if PatternOccurs(s) {
      var lo, at, dot, hi :| MatchSpan(s, lo, at, dot, hi);
      assert s[at - 1] == s[lo..at][at - 1 - lo];
      assert s[dot + 1] == s[dot + 1..hi][0];
      assert MatchAt(s, at, dot);
    }
  }

  /** The email check: required first, then the pattern. */
  function EmailError(email: string): (r: Option<string>)
    ensures r.None? <==> email != "" && PatternOccurs(email)
    ensures email == "" ==> r == Some("Email is required")
    ensures email != "" && !PatternOccurs(email) ==> r == Some("Please enter a valid email address")
  {
    TestIffPatternOccurs(email);
    if email == "" then Some("Email is required")
    else if !Test(email) then Some("Please enter a valid email address")
    else None
  }

  /** The password check: required first, then at least six UTF-16 code units. */
  function PasswordError(password: string): (r: Option<string>)
    ensures r.None? <==> Utf16Length(password) >= 6
    ensures password == "" ==> r == Some("Password is required")
    ensures |password| >= 6 ==> r.None?
    ensures password != "" && Utf16Length(password) < 6 ==> r == Some("Password must be at least 6 characters")
  {
    if password == "" then Some("Password is required")
    else if Utf16Length(password) < 6 then Some("Password must be at least 6 characters")
    else None
  }

  /** `errors[field]`, absent when the key is not set. */
  function Lookup(errors: map<string, string>, field: string): Option<string> {
    if field in errors then Some(errors[field]) else None
  }

  /** `errors` with `field` set to the message when there is one. */
  function Put(errors: map<string, string>, field: string, message: Option<string>): map<string, string> {
    if message.Some? then errors[field := message.value] else errors
  }

  /**
   * The edit handler's update: a showing message for the edited field is blanked, so that
   * field shows nothing afterwards, and every other field is as before.
   */
  function ClearError(errors: map<string, string>, field: string): (r: map<string, string>)
    ensures !Truthy(Lookup(r, field))
    ensures forall k :: k != field ==> Lookup(r, k) == Lookup(errors, k)
    ensures !Truthy(Lookup(errors, field)) ==> r == errors
  {
    if Truthy(Lookup(errors, field)) then errors[field := ""] else errors
  }
}
