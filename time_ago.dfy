/**
 * `formatTimeAgo`: the relative age of a timestamp as the views print it. The elapsed
 * time is cut into whole seconds, minutes, hours and days by successive floors; less
 * than a minute reads "few seconds ago", then minutes, hours and days with the unit in
 * the singular exactly when the count is 1, and a week or more falls back to the
 * locale's date text.
 *
 * The clock and the date parser are inputs: the model receives the elapsed time `now -
 * date` in milliseconds, `None` when the timestamp does not parse (the subtraction is
 * NaN), together with the text `toLocaleDateString` gives for the date.
 */
module TimeAgo {
  import opened JsValues

  const SecondMs: int := 1000
  const MinuteMs: int := 60 * SecondMs
  const HourMs: int := 60 * MinuteMs
  const DayMs: int := 24 * HourMs
  const WeekMs: int := 7 * DayMs

  /** Which phrase the age is written as. */
  datatype Ago = FewSeconds | Minutes(n: int) | Hours(n: int) | Days(n: int) | OnDate

  /**
   * The branch the age falls in. With `e` the elapsed milliseconds: below one minute
   * (a future date included) is a few seconds; otherwise the count is the whole number of
   * minutes, hours or days, each bucket bounded by the next unit; a week or more, or an
   * unparsable date, shows the date.
   */
  function Bucket(elapsedMs: Option<int>): (a: Ago)
    ensures a == FewSeconds <==> elapsedMs.Some? && elapsedMs.value < MinuteMs
    ensures a.Minutes? <==> elapsedMs.Some? && MinuteMs <= elapsedMs.value < HourMs
    ensures a.Hours? <==> elapsedMs.Some? && HourMs <= elapsedMs.value < DayMs
    ensures a.Days? <==> elapsedMs.Some? && DayMs <= elapsedMs.value < WeekMs
    ensures a == OnDate <==> elapsedMs.None? || elapsedMs.value >= WeekMs
    ensures a.Minutes? ==> a.n == elapsedMs.value / MinuteMs && 1 <= a.n < 60
    ensures a.Hours? ==> a.n == elapsedMs.value / HourMs && 1 <= a.n < 24
    ensures a.Days? ==> a.n == elapsedMs.value / DayMs && 1 <= a.n < 7
  {
    if elapsedMs.None? then OnDate
    else
      var ms := elapsedMs.value;
      var seconds := ms / 1000;
      var minutes := seconds / 60;
      var hours := minutes / 60;
      var days := hours / 24;
      if seconds < 60 then FewSeconds
      else if minutes < 60 then Minutes(minutes)
      else if hours < 24 then Hours(hours)
      else if days < 7 then Days(days)
      else OnDate
  }

  /** The text of a phrase; the count is printed in decimal. */
  function Text(a: Ago, localeDate: string): string
    requires !a.OnDate? ==> a == FewSeconds || a.n >= 0
  {
    match a
    case FewSeconds => "few seconds ago"
    case Minutes(n) => Decimal(n) + " " + Plural(n, "minute") + " ago"
    case Hours(n) => Decimal(n) + " " + Plural(n, "hour") + " ago"
    case Days(n) => Decimal(n) + " " + Plural(n, "day") + " ago"
    case OnDate => localeDate
  }

  /** `formatTimeAgo(dateString)`, given the elapsed time and the locale text of the date. */
  function FormatTimeAgo(elapsedMs: Option<int>, localeDate: string): (s: string)
    ensures elapsedMs.Some? && elapsedMs.value < MinuteMs ==> s == "few seconds ago"
    ensures elapsedMs.None? || elapsedMs.value >= WeekMs ==> s == localeDate
    ensures Bucket(elapsedMs).Minutes? ==>
      s == Decimal(Bucket(elapsedMs).n) + (if Bucket(elapsedMs).n == 1 then " minute ago" else " minutes ago")
    ensures Bucket(elapsedMs).Hours? ==>
      s == Decimal(Bucket(elapsedMs).n) + (if Bucket(elapsedMs).n == 1 then " hour ago" else " hours ago")
    ensures Bucket(elapsedMs).Days? ==>
      s == Decimal(Bucket(elapsedMs).n) + (if Bucket(elapsedMs).n == 1 then " day ago" else " days ago")
  {
    Text(Bucket(elapsedMs), localeDate)
  }

  /** The number of leading decimal digits of a string. */
  function LeadingDigits(s: string): (k: nat)
    ensures k <= |s|
    ensures forall i :: 0 <= i < k ==> IsDigit(s[i])
    ensures k < |s| ==> !IsDigit(s[k])
  {
    if s != [] && IsDigit(s[0]) then 1 + LeadingDigits(s[1..]) else 0
  }

  /** The phrase a count and the unit text after it spell, if they spell one. */
  function PhraseOf(n: int, rest: string): Option<Ago> {
    if rest == " minute ago" || rest == " minutes ago" then Some(Minutes(n))
    else if rest == " hour ago" || rest == " hours ago" then Some(Hours(n))
    else if rest == " day ago" || rest == " days ago" then Some(Days(n))
    else None
  }

  /** Reads a phrase back from its text; the locale date is not read. */
  function ParseAgo(s: string): Option<Ago> {
    if s == "few seconds ago" then Some(FewSeconds)
    else
      var k := LeadingDigits(s);
      if k == 0 then None else PhraseOf(ParseDecimal(s[..k]), s[k..])
  }

  lemma {:induction false} LeadingDigitsOf(d: string, rest: string)
    requires forall i :: 0 <= i < |d| ==> IsDigit(d[i])
    requires rest != [] && !IsDigit(rest[0])
    ensures LeadingDigits(d + rest) == |d|
  {
    if d != [] {
      assert (d + rest)[1..] == d[1..] + rest;
      LeadingDigitsOf(d[1..], rest);
    }
  }

  /** A count followed by a space-led unit text reads back as that count and that unit text. */
  lemma CountReadsBack(n: nat, rest: string)
    requires rest != [] && rest[0] == ' '
    ensures ParseAgo(Decimal(n) + rest) == PhraseOf(n, rest)
  {
    var d := Decimal(n);
    var s := d + rest;
    DecimalRoundTrip(n);
    LeadingDigitsOf(d, rest);
    assert s[..|d|] == d && s[|d|..] == rest;
    assert s != "few seconds ago" by {
      assert s[0] == d[0] && IsDigit(s[0]);
    }
  }

  /** Every phrase but the date is printed unambiguously: its text reads back as the same phrase. */
  lemma TextRoundTrip(a: Ago, localeDate: string)
    requires !a.OnDate? && (a == FewSeconds || a.n >= 0)
    ensures ParseAgo(Text(a, localeDate)) == Some(a)
  {
    if !a.FewSeconds? {
      var unit := if a.Minutes? then "minute" else if a.Hours? then "hour" else "day";
      var rest := " " + Plural(a.n, unit) + " ago";
      assert Text(a, localeDate) == Decimal(a.n) + rest;
      CountReadsBack(a.n, rest);
      UnitReadsBack(a);
    }
  }

  /** The unit text of a counted phrase names that phrase's unit, in whichever number it is printed. */
  lemma UnitReadsBack(a: Ago)
    requires a.Minutes? || a.Hours? || a.Days?
    ensures var unit := if a.Minutes? then "minute" else if a.Hours? then "hour" else "day";
      PhraseOf(a.n, " " + Plural(a.n, unit) + " ago") == Some(a)
  {
    var unit := if a.Minutes? then "minute" else if a.Hours? then "hour" else "day";
    var rest := " " + Plural(a.n, unit) + " ago";
    if a.Minutes? {
      assert rest == if a.n == 1 then " minute ago" else " minutes ago";
    } else if a.Hours? {
      assert rest == if a.n == 1 then " hour ago" else " hours ago";
      assert rest[1] == 'h';
    } else {
      assert rest == if a.n == 1 then " day ago" else " days ago";
      assert rest[1] == 'd';
    }
  }

  /** What `formatTimeAgo` prints reads back as the bucket of the elapsed time, unless it is the date. */
  lemma FormatReadsBack(elapsedMs: Option<int>, localeDate: string)
    requires Bucket(elapsedMs) != OnDate
    ensures ParseAgo(FormatTimeAgo(elapsedMs, localeDate)) == Some(Bucket(elapsedMs))
  {
    TextRoundTrip(Bucket(elapsedMs), localeDate);
  }

  /** Rank of a phrase: a later phrase describes an older date. */
  function Rank(a: Ago): nat {
    match a
    case FewSeconds => 0
    case Minutes(_) => 1
    case Hours(_) => 2
    case Days(_) => 3
    case OnDate => 4
  }

  /** An older date never reads as younger: the phrase rank and, within a unit, the count grow with the elapsed time. */
  lemma BucketMonotone(e1: int, e2: int)
    requires e1 <= e2
    ensures Rank(Bucket(Some(e1))) <= Rank(Bucket(Some(e2)))
    ensures Rank(Bucket(Some(e1))) == Rank(Bucket(Some(e2))) && Bucket(Some(e1)) != FewSeconds && Bucket(Some(e1)) != OnDate ==>
      Bucket(Some(e1)).n <= Bucket(Some(e2)).n
  {
  }
}
