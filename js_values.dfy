/**
 * The JavaScript values and string operations the views rely on: absent values, the
 * difference between `null` and `undefined` in a JSON field, truthiness of strings,
 * singular and plural nouns, the white-space class shared by `\s` and `String.prototype.trim`,
 * the UTF-16 length that `String.prototype.length` reports, ASCII lower-casing,
 * `String.prototype.includes`, and the decimal form of a non-negative integer.
 */
module JsValues {

  /** A value that may be `null` or `undefined`. */
  datatype Option<T> = None | Some(value: T)

  /** JavaScript truthiness of a string that may be absent: `null`, `undefined` and "" are falsy. */
  predicate Truthy(s: Option<string>) {
    s.Some? && s.value != ""
  }

  /**
   * A string field of a JSON response, where a missing key (`undefined`) and an explicit
   * `null` behave differently: `String(v)` and `v !== null` tell them apart.
   */
  datatype JsonString = Undefined | Null | Given(text: string)

  /** `String(v)`, the text `localStorage.setItem` stores for `v`. */
  function StringOf(v: JsonString): (s: string)
    ensures v.Given? ==> s == v.text
    ensures v == Undefined ==> s == "undefined"
    ensures v == Null ==> s == "null"
  {
    match v
    case Undefined => "undefined"
    case Null => "null"
    case Given(t) => t
  }

  /** A count's noun: the singular for exactly one, the singular with an "s" for any other count. */
  function Plural(n: int, singular: string): (word: string)
    ensures word == singular <==> n == 1
    ensures n != 1 ==> word == singular + "s"
  {
    if n == 1 then singular else singular + "s"
  }

  /** `s || fallback` for a string that may be absent. */
  function OrElse(s: Option<string>, fallback: string): string {
    if Truthy(s) then s.value else fallback
  }

  /** The characters ECMAScript counts as WhiteSpace or LineTerminator (the `\s` class, and what `trim` removes). */
  predicate IsWhitespace(c: char) {
    || c == '\t' || c == '\n' || c == '\U{000B}' || c == '\U{000C}' || c == '\r' || c == ' '
    || c == '\U{00A0}' || c == '\U{1680}' || ('\U{2000}' <= c <= '\U{200A}')
    || c == '\U{2028}' || c == '\U{2029}' || c == '\U{202F}' || c == '\U{205F}'
    || c == '\U{3000}' || c == '\U{FEFF}'
  }

  predicate AllWhitespace(s: string) {
    forall i :: 0 <= i < |s| ==> IsWhitespace(s[i])
  }

  function TrimStart(s: string): string {
    if s != [] && IsWhitespace(s[0]) then TrimStart(s[1..]) else s
  }

  function TrimEnd(s: string): string {
    if s != [] && IsWhitespace(s[|s| - 1]) then TrimEnd(s[..|s| - 1]) else s
  }

  /** `String.prototype.trim`. */
  function Trim(s: string): string {
    TrimEnd(TrimStart(s))
  }

  lemma {:induction false} TrimStartEmptyIff(s: string)
    ensures TrimStart(s) == "" <==> AllWhitespace(s)
    ensures TrimStart(s) != "" ==> !IsWhitespace(TrimStart(s)[0])
  {
    if s != [] && IsWhitespace(s[0]) {
      TrimStartEmptyIff(s[1..]);
      if AllWhitespace(s[1..]) {
        forall i | 0 <= i < |s| ensures IsWhitespace(s[i]) {
          if i > 0 { assert s[i] == s[1..][i - 1]; }
        }
      } else {
        var j :| 0 <= j < |s[1..]| && !IsWhitespace(s[1..][j]);
        assert s[j + 1] == s[1..][j];
      }
    }
  }

  lemma {:induction false} TrimEndEmptyIff(s: string)
    ensures TrimEnd(s) == "" <==> AllWhitespace(s)
  {
    if s != [] && IsWhitespace(s[|s| - 1]) {
      var init := s[..|s| - 1];
      TrimEndEmptyIff(init);
      if AllWhitespace(init) {
        forall i | 0 <= i < |s| ensures IsWhitespace(s[i]) {
          if i < |s| - 1 { assert s[i] == init[i]; }
        }
      } else {
        var j :| 0 <= j < |init| && !IsWhitespace(init[j]);
        assert s[j] == init[j];
      }
    } else if s != [] {
      assert !IsWhitespace(s[|s| - 1]);
    }
  }

  /** A string trims to "" exactly when every one of its characters is white space. */
  lemma TrimEmptyIff(s: string)
    ensures Trim(s) == "" <==> AllWhitespace(s)
  {
    TrimStartEmptyIff(s);
    TrimEndEmptyIff(TrimStart(s));
    if TrimStart(s) != "" {
      assert !IsWhitespace(TrimStart(s)[0]);
    }
  }

  /** Number of UTF-16 code units of one character. */
  function CodeUnits(c: char): nat {
    if c as int > 0xFFFF then 2 else 1
  }

  /** `String.prototype.length`: counts UTF-16 code units, so a character outside the Basic Multilingual Plane counts twice. */
  function Utf16Length(s: string): (n: nat)
    ensures |s| <= n <= 2 * |s|
  {
    if s == [] then 0 else CodeUnits(s[0]) + Utf16Length(s[1..])
  }

  function LowerChar(c: char): char {
    if 'A' <= c <= 'Z' then (c as int + 32) as char else c
  }

  /** `String.prototype.toLowerCase` restricted to the ASCII letters. */
  function ToLower(s: string): (r: string)
    ensures |r| == |s|
  {
    if s == [] then [] else [LowerChar(s[0])] + ToLower(s[1..])
  }

  /** `needle` starts at index `i` of `hay`. */
  predicate OccursAt(hay: string, needle: string, i: int) {
    0 <= i <= |hay| && needle <= hay[i..]
  }

  /** `hay.includes(needle)`. */
  predicate Contains(hay: string, needle: string) {
    exists i | 0 <= i <= |hay| :: OccursAt(hay, needle, i)
  }

  lemma ContainsEmpty(hay: string)
    ensures Contains(hay, "")
  {
    assert OccursAt(hay, "", 0);
  }

  function DigitChar(d: nat): char
    requires d < 10
  {
    (48 + d) as char
  }

  predicate IsDigit(c: char) {
    '0' <= c <= '9'
  }

  /** The decimal text of a non-negative integer, as template literals print it. */
  function Decimal(n: nat): (s: string)
    ensures s != []
  {
    if n < 10 then [DigitChar(n)] else Decimal(n / 10) + [DigitChar(n % 10)]
  }

  /** Reads a run of decimal digits back into its value. */
  function ParseDecimal(s: string): nat {
    if s == [] then 0
    else
      var d := s[|s| - 1] as int - 48;
      ParseDecimal(s[..|s| - 1]) * 10 + (if 0 <= d then d else 0)
  }

  /** `Decimal` produces only digits, and `ParseDecimal` reads it back. */
  lemma {:induction false} DecimalRoundTrip(n: nat)
    ensures forall i :: 0 <= i < |Decimal(n)| ==> IsDigit(Decimal(n)[i])
    ensures ParseDecimal(Decimal(n)) == n
  {
    if n >= 10 {
      DecimalRoundTrip(n / 10);
      var s := Decimal(n);
      assert s[..|s| - 1] == Decimal(n / 10);
      forall i | 0 <= i < |s| ensures IsDigit(s[i]) {
        if i < |s| - 1 { assert s[i] == Decimal(n / 10)[i]; }
      }
    }
  }
}
