/**
 * Dates and times as text: the `strftime` layouts the code writes
 * (`%Y-%m-%d`, `%Y%m%d`, `%H-%M`, `%H%M%S`, ...), and the leftmost
 * `re.search` of the filename pattern
 * `\d{4}-\d{2}-\d{2}<sep>\d{2}-\d{2}(-\d{2})?` together with the field
 * checks `strptime` applies to what it captured.
 */
module DateText {
  import opened Wrappers
  import opened Text
  import opened Calendar

  // ------------------------------------------------------------ strftime

  /** `%Y-%m-%d`. */
  function IsoDate(d: Date): string
    requires d.year >= 0 && d.month >= 0 && d.day >= 0
  {
    Padded(d.year, 4) + "-" + Padded(d.month, 2) + "-" + Padded(d.day, 2)
  }

  /** `%Y%m%d`. */
  function CompactDate(d: Date): string
    requires d.year >= 0 && d.month >= 0 && d.day >= 0
  {
    Padded(d.year, 4) + Padded(d.month, 2) + Padded(d.day, 2)
  }

  /** `%H-%M`. */
  function DashedClock(t: DateTime): string
    requires t.hour >= 0 && t.minute >= 0
  {
    Padded(t.hour, 2) + "-" + Padded(t.minute, 2)
  }

  /** `%H%M%S`. */
  function CompactClock(t: DateTime): string
    requires t.hour >= 0 && t.minute >= 0 && t.second >= 0
  {
    Padded(t.hour, 2) + Padded(t.minute, 2) + Padded(t.second, 2)
  }

  /** `%H:%M:%S`. */
  function ColonClock(t: DateTime): string
    requires t.hour >= 0 && t.minute >= 0 && t.second >= 0
  {
    Padded(t.hour, 2) + ":" + Padded(t.minute, 2) + ":" + Padded(t.second, 2)
  }

  lemma {:induction false} Pow10Values()
    ensures Pow10(2) == 100 && Pow10(4) == 10000
  {
    assert Pow10(1) == 10;
    assert Pow10(3) == 1000;
  }

  /** Valid in-range dates print as exactly ten characters: four, two and two digits. */
  lemma IsoDateShape(d: Date)
    requires ValidDate(d) && InYearRange(d)
    ensures |Padded(d.year, 4)| == 4 && |Padded(d.month, 2)| == 2 && |Padded(d.day, 2)| == 2
    ensures |IsoDate(d)| == 10
  {
    Pow10Values();
    PaddedLength(d.year, 4);
    PaddedLength(d.month, 2);
    PaddedLength(d.day, 2);
  }

  /** Different dates never share a `%Y-%m-%d` key. */
  lemma IsoDateInjective(a: Date, b: Date)
    requires ValidDate(a) && InYearRange(a) && ValidDate(b) && InYearRange(b)
    requires IsoDate(a) == IsoDate(b)
    ensures a == b
  {
    IsoDateShape(a);
    IsoDateShape(b);
    var s := IsoDate(a);
    assert s[..4] == Padded(a.year, 4) && s[..4] == Padded(b.year, 4);
    assert s[5..7] == Padded(a.month, 2) && s[5..7] == Padded(b.month, 2);
    assert s[8..] == Padded(a.day, 2) && s[8..] == Padded(b.day, 2);
    PaddedInjective(a.year, b.year, 4);
    PaddedInjective(a.month, b.month, 2);
    PaddedInjective(a.day, b.day, 2);
  }

  /**
   * `datetime.strptime(s, "%Y-%m-%d").date()` on the ten-character shape `strftime` writes;
   * `None` where Python raises `ValueError` (a malformed string or a date that does not exist).
   */
  function ParseIsoDate(s: string): (r: Option<Date>)
    ensures r.Some? ==> ValidDate(r.value) && InYearRange(r.value) && IsoDate(r.value) == s
  {
    if |s| == 10 && DigitsAt(s, 0, 4) && s[4] == '-' && DigitsAt(s, 5, 2) && s[7] == '-' && DigitsAt(s, 8, 2) then
      var d := Date(FieldAt(s, 0, 4), FieldAt(s, 5, 2), FieldAt(s, 8, 2));
      if ValidDate(d) && InYearRange(d) then PrintParsed(s); Some(d) else None
    else None
  }

  /** The fields read from a `YYYY-MM-DD` string print back as that string. */
  lemma PrintParsed(s: string)
    requires |s| == 10 && DigitsAt(s, 0, 4) && s[4] == '-' && DigitsAt(s, 5, 2) && s[7] == '-' && DigitsAt(s, 8, 2)
    ensures IsoDate(Date(FieldAt(s, 0, 4), FieldAt(s, 5, 2), FieldAt(s, 8, 2))) == s
  {
    FieldRoundTrip(s, 0, 4);
    FieldRoundTrip(s, 5, 2);
    FieldRoundTrip(s, 8, 2);
    assert s == s[0..4] + [s[4]] + s[5..7] + [s[7]] + s[8..10];
  }

  /** Parsing a printed date gives the date back. */
  lemma ParseIsoDateRoundTrip(d: Date)
    requires ValidDate(d) && InYearRange(d)
    ensures ParseIsoDate(IsoDate(d)) == Some(d)
  {
    IsoDateShape(d);
    var s := IsoDate(d);
    assert s[0..4] == Padded(d.year, 4);
    assert s[5..7] == Padded(d.month, 2);
    assert s[8..10] == Padded(d.day, 2);
    ValueOfPadded(d.year, 4);
    ValueOfPadded(d.month, 2);
    ValueOfPadded(d.day, 2);
  }

  /** Equal-width padded numbers compare as strings the way the numbers compare. */
  lemma FieldOrder(x: nat, y: nat, w: nat)
    requires |Padded(x, w)| == |Padded(y, w)|
    ensures LexLess(Padded(x, w), Padded(y, w)) <==> x < y
    ensures Padded(x, w) == Padded(y, w) <==> x == y
  {
    ValueOfPadded(x, w);
    ValueOfPadded(y, w);
    DigitsLexOrder(Padded(x, w), Padded(y, w));
  }

  lemma DashOrder(x: string, y: string)
    ensures LexLess("-" + x, "-" + y) <==> LexLess(x, y)
    ensures "-" + x == "-" + y <==> x == y
  {
    assert ("-" + x)[1..] == x && ("-" + y)[1..] == y;
  }

  /** The `MM-DD` part of a `%Y-%m-%d` key. */
  function MonthDay(d: Date): string
    requires d.month >= 0 && d.day >= 0
  {
    Padded(d.month, 2) + ("-" + Padded(d.day, 2))
  }

  lemma MonthDayOrder(a: Date, b: Date)
    requires ValidDate(a) && InYearRange(a) && ValidDate(b) && InYearRange(b)
    ensures LexLess(MonthDay(a), MonthDay(b)) <==> a.month < b.month || (a.month == b.month && a.day < b.day)
    ensures MonthDay(a) == MonthDay(b) <==> a.month == b.month && a.day == b.day
  {
    IsoDateShape(a);
    IsoDateShape(b);
    FieldOrder(a.month, b.month, 2);
    FieldOrder(a.day, b.day, 2);
    DashOrder(Padded(a.day, 2), Padded(b.day, 2));
    LexConcat(Padded(a.month, 2), "-" + Padded(a.day, 2), Padded(b.month, 2), "-" + Padded(b.day, 2));
    if MonthDay(a) == MonthDay(b) {
      assert MonthDay(a)[..2] == Padded(a.month, 2) && MonthDay(b)[..2] == Padded(b.month, 2);
      assert MonthDay(a)[2..] == "-" + Padded(a.day, 2) && MonthDay(b)[2..] == "-" + Padded(b.day, 2);
    }
  }

  lemma IsoDateSplit(d: Date)
    requires d.year >= 0 && d.month >= 0 && d.day >= 0
    ensures IsoDate(d) == Padded(d.year, 4) + ("-" + MonthDay(d))
  {
  }

  /** Sorting `%Y-%m-%d` keys as strings sorts the dates chronologically. */
  lemma IsoDateOrder(a: Date, b: Date)
    requires ValidDate(a) && InYearRange(a) && ValidDate(b) && InYearRange(b)
    ensures LexLess(IsoDate(a), IsoDate(b)) <==> DateBefore(a, b)
  {
    IsoDateShape(a);
    IsoDateShape(b);
    IsoDateSplit(a);
    IsoDateSplit(b);
    var ya, yb := Padded(a.year, 4), Padded(b.year, 4);
    var ra, rb := "-" + MonthDay(a), "-" + MonthDay(b);
    FieldOrder(a.year, b.year, 4);
    MonthDayOrder(a, b);
    DashOrder(MonthDay(a), MonthDay(b));
    LexConcat(ya, ra, yb, rb);
  }

  // ------------------------------------------------------- the filename pattern

  /** `n` decimal digits at position `i`. */
  predicate DigitsAt(s: string, i: nat, n: nat) {
    i + n <= |s| && AllDigits(s[i..i + n])
  }

  /** The mandatory part of the pattern matches at `i`: `YYYY-MM-DD`, a separator from `seps`, `HH-MM`. */
  predicate CoreAt(s: string, i: nat, seps: set<char>) {
    i + 16 <= |s|
    && DigitsAt(s, i, 4) && s[i + 4] == '-' && DigitsAt(s, i + 5, 2) && s[i + 7] == '-' && DigitsAt(s, i + 8, 2)
    && s[i + 10] in seps
    && DigitsAt(s, i + 11, 2) && s[i + 13] == '-' && DigitsAt(s, i + 14, 2)
  }

  /** The optional `-SS` follows the mandatory part at `i`. */
  predicate SecondsAt(s: string, i: nat) {
    i + 19 <= |s| && s[i + 16] == '-' && DigitsAt(s, i + 17, 2)
  }

  /** Where the pattern matched, and whether the greedy optional group took the seconds. */
  datatype Match = Match(start: nat, hasSeconds: bool)

  /**
   * `re.search`: the leftmost position at or after `from` where the pattern matches.
   * Nothing follows the optional group, so the engine keeps the seconds whenever they are there.
   */
  function Search(s: string, seps: set<char>, from: nat): (r: Option<Match>)
    ensures r.Some? ==> from <= r.value.start && CoreAt(s, r.value.start, seps)
                        && r.value.hasSeconds == SecondsAt(s, r.value.start)
                        && forall j :: from <= j < r.value.start ==> !CoreAt(s, j, seps)
    ensures r.None? ==> forall j :: from <= j ==> !CoreAt(s, j, seps)
    decreases |s| - from
  {
    if from + 16 > |s| then None
    else if CoreAt(s, from, seps) then Some(Match(from, SecondsAt(s, from)))
    else Search(s, seps, from + 1)
  }

  /** The number written by the `n` digits at `i`. */
  function FieldAt(s: string, i: nat, n: nat): nat
    requires DigitsAt(s, i, n)
  {
    ValueOf(s[i..i + n])
  }

  /** The date the first group spells (not yet checked). */
  function MatchedDate(s: string, m: Match, seps: set<char>): Date
    requires CoreAt(s, m.start, seps)
  {
    Date(FieldAt(s, m.start, 4), FieldAt(s, m.start + 5, 2), FieldAt(s, m.start + 8, 2))
  }

  /** The time the second group spells, with second 0 when only `HH-MM` matched (not yet checked). */
  function MatchedTime(s: string, m: Match, seps: set<char>): DateTime
    requires CoreAt(s, m.start, seps) && (m.hasSeconds ==> SecondsAt(s, m.start))
  {
    DateTime(MatchedDate(s, m, seps), FieldAt(s, m.start + 11, 2), FieldAt(s, m.start + 14, 2),
             if m.hasSeconds then FieldAt(s, m.start + 17, 2) else 0)
  }

  /** What `strptime` accepts for `%Y-%m-%d`: a year from 1, a real month and day. */
  predicate DateAccepted(d: Date) {
    InYearRange(d) && ValidDate(d)
  }

  /** What `strptime` accepts for the clock fields of `%H..%M..%S`. */
  predicate ClockAccepted(t: DateTime) {
    0 <= t.hour < 24 && 0 <= t.minute < 60 && 0 <= t.second < 60
  }

  /** The text of the first group, `YYYY-MM-DD`. */
  function DateGroup(s: string, m: Match, seps: set<char>): string
    requires CoreAt(s, m.start, seps)
  {
    s[m.start..m.start + 10]
  }

  /** The text of the clock group, `HH-MM` or `HH-MM-SS`. */
  function TimeGroup(s: string, m: Match, seps: set<char>): string
    requires CoreAt(s, m.start, seps) && (m.hasSeconds ==> SecondsAt(s, m.start))
  {
    s[m.start + 11..m.start + (if m.hasSeconds then 19 else 16)]
  }

  /** A digit field read back and printed with its own width is the matched text. */
  lemma FieldRoundTrip(s: string, i: nat, n: nat)
    requires DigitsAt(s, i, n) && n >= 1
    ensures Padded(FieldAt(s, i, n), n) == s[i..i + n]
  {
    PaddedValueOf(s[i..i + n]);
  }

  /** Printing the parsed date with `%Y-%m-%d` reproduces the first group. */
  lemma DateGroupRoundTrip(s: string, m: Match, seps: set<char>)
    requires CoreAt(s, m.start, seps)
    ensures IsoDate(MatchedDate(s, m, seps)) == DateGroup(s, m, seps)
  {
    var i := m.start;
    FieldRoundTrip(s, i, 4);
    FieldRoundTrip(s, i + 5, 2);
    FieldRoundTrip(s, i + 8, 2);
    assert s[i..i + 10] == s[i..i + 4] + [s[i + 4]] + s[i + 5..i + 7] + [s[i + 7]] + s[i + 8..i + 10];
  }

  /** A slice is the concatenation of two adjacent slices. */
  lemma SliceSplit(s: string, i: nat, j: nat, k: nat)
    requires i <= j <= k <= |s|
    ensures s[i..k] == s[i..j] + s[j..k]
  {
  }

  /** A slice spelling `a + b` spells `a` on its first `|a|` places and `b` on the rest. */
  lemma PieceIn(s: string, i: nat, j: nat, a: string, b: string)
    requires i <= j <= |s| && s[i..j] == a + b
    ensures s[i..i + |a|] == a && s[i + |a|..j] == b
  {
    assert s[i..i + |a|] == s[i..j][..|a|];
    assert s[i + |a|..j] == s[i..j][|a|..];
  }

  /** Two concatenations with equally long fronts are equal only part by part. */
  lemma ConcatInjective(a: string, b: string, c: string, d: string)
    requires a + b == c + d && |a| == |c|
    ensures a == c && b == d
  {
    assert a == (a + b)[..|a|] && c == (c + d)[..|c|];
    assert b == (a + b)[|a|..] && d == (c + d)[|c|..];
  }

  /** `HH-MM` read back: two digit fields around a dash. */
  lemma DashedFieldsRoundTrip(s: string, i: nat)
    requires DigitsAt(s, i, 2) && i + 2 < |s| && s[i + 2] == '-' && DigitsAt(s, i + 3, 2)
    ensures Padded(FieldAt(s, i, 2), 2) + "-" + Padded(FieldAt(s, i + 3, 2), 2) == s[i..i + 5]
  {
    FieldRoundTrip(s, i, 2);
    FieldRoundTrip(s, i + 3, 2);
    SliceSplit(s, i, i + 2, i + 5);
    SliceSplit(s, i + 2, i + 3, i + 5);
    assert s[i + 2..i + 3] == "-";
  }

  /** Printing the parsed clock back with dashes reproduces the second group. */
  lemma TimeGroupRoundTrip(s: string, m: Match, seps: set<char>)
    requires CoreAt(s, m.start, seps) && (m.hasSeconds ==> SecondsAt(s, m.start))
    ensures m.hasSeconds ==>
      DashedClock(MatchedTime(s, m, seps)) + "-" + Padded(MatchedTime(s, m, seps).second, 2) == TimeGroup(s, m, seps)
    ensures !m.hasSeconds ==> DashedClock(MatchedTime(s, m, seps)) == TimeGroup(s, m, seps)
  {
    var i := m.start;
    DashedFieldsRoundTrip(s, i + 11);
    if m.hasSeconds {
      DashedFieldsRoundTrip(s, i + 14);
      FieldRoundTrip(s, i + 17, 2);
      SliceSplit(s, i + 11, i + 16, i + 19);
      SliceSplit(s, i + 16, i + 17, i + 19);
      assert s[i + 16..i + 17] == "-";
    }
  }
}
