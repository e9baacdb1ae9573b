/**
 * String helpers with Python's meaning: ASCII digits and their values,
 * zero-padded decimal fields (`strftime`), string comparison, the
 * file-name sanitiser used by the desktop tools, case folding and
 * whitespace stripping restricted to ASCII, `int()` on decimal text, and
 * the lexical part of `pathlib` / `os.path` (name, suffix, stem,
 * `splitext`, relative parts).
 */
module Text {
  import opened Wrappers

  // ---------------------------------------------------------------- digits

  predicate IsDigit(c: char) {
    '0' <= c <= '9'
  }

  predicate AllDigits(s: string) {
    forall i :: 0 <= i < |s| ==> IsDigit(s[i])
  }

  function DigitValue(c: char): nat
    requires IsDigit(c)
  {
    (c as int) - ('0' as int)
  }

  function DigitChar(d: nat): (c: char)
    requires d < 10
    ensures IsDigit(c) && DigitValue(c) == d
  {
    (('0' as int) + d) as char
  }

  function Pow10(n: nat): (r: nat)
    ensures r >= 1
  {
    if n == 0 then 1 else 10 * Pow10(n - 1)
  }

  /** The number a string of decimal digits denotes (`int(s)` on such a string). */
  function ValueOf(s: string): nat
    requires AllDigits(s)
  {
    if s == [] then 0 else 10 * ValueOf(s[..|s| - 1]) + DigitValue(s[|s| - 1])
  }

  /** Decimal digits of `n`, left-padded with zeros to at least `width` digits (`%04d`, `%02d`). */
  function Padded(n: nat, width: nat): (r: string)
    ensures AllDigits(r) && |r| >= 1 && |r| >= width
    decreases n + width
  {
    if n < 10 && width <= 1 then [DigitChar(n)]
    else Padded(n / 10, if width > 0 then width - 1 else 0) + [DigitChar(n % 10)]
  }

  /** A number below `10^width` takes exactly `width` digits. */
  lemma {:induction false} PaddedLength(n: nat, width: nat)
    requires 1 <= width && n < Pow10(width)
    ensures |Padded(n, width)| == width
    decreases width
  {
    if !(n < 10 && width <= 1) {
      assert width >= 2;
      PaddedLength(n / 10, width - 1);
    }
  }

  /** Reading a padded number back gives the number. */
  lemma {:induction false} ValueOfPadded(n: nat, width: nat)
    ensures ValueOf(Padded(n, width)) == n
    decreases n + width
  {
    var r := Padded(n, width);
    if !(n < 10 && width <= 1) {
      var w' := if width > 0 then width - 1 else 0;
      ValueOfPadded(n / 10, w');
      assert r[..|r| - 1] == Padded(n / 10, w');
    }
  }

  /** Padding the value of a digit string to its own length gives the string back. */
  lemma {:induction false} PaddedValueOf(s: string)
    requires AllDigits(s) && |s| >= 1
    ensures Padded(ValueOf(s), |s|) == s
    decreases |s|
  {
    var p := s[..|s| - 1];
    var d := DigitValue(s[|s| - 1]);
    var v := 10 * ValueOf(p) + d;
    assert v / 10 == ValueOf(p) && v % 10 == d;
    assert DigitChar(d) == s[|s| - 1];
    if |s| >= 2 {
      PaddedValueOf(p);
      assert s == p + [s[|s| - 1]];
    }
  }

  /** Equal-width padded numbers are equal only when the numbers are. */
  lemma PaddedInjective(a: nat, b: nat, width: nat)
    requires Padded(a, width) == Padded(b, width)
    ensures a == b
  {
    ValueOfPadded(a, width);
    ValueOfPadded(b, width);
  }

  // ---------------------------------------------------------- comparison

  /** Python's `a < b` on strings: lexicographic by code point. */
  predicate LexLess(a: string, b: string)
    decreases |a|
  {
    if a == [] then b != []
    else b != [] && (a[0] < b[0] || (a[0] == b[0] && LexLess(a[1..], b[1..])))
  }

  /** Python's `a <= b` on strings. */
  predicate LexLe(a: string, b: string) {
    LexLess(a, b) || a == b
  }

  lemma {:induction false} LexLessIrreflexive(a: string)
    ensures !LexLess(a, a)
    decreases |a|
  {
    if a != [] {
      LexLessIrreflexive(a[1..]);
    }
  }

  /** `<` on strings is a strict total order. */
  lemma {:induction false} LexTrichotomy(a: string, b: string)
    ensures LexLess(a, b) || a == b || LexLess(b, a)
    ensures !(LexLess(a, b) && LexLess(b, a))
    decreases |a|
  {
    if a != [] && b != [] && a[0] == b[0] {
      LexTrichotomy(a[1..], b[1..]);
      if a[1..] == b[1..] {
        assert a == [a[0]] + a[1..] && b == [b[0]] + b[1..];
      }
    }
  }

  lemma {:induction false} LexTransitive(a: string, b: string, c: string)
    requires LexLess(a, b) && LexLess(b, c)
    ensures LexLess(a, c)
    decreases |a|
  {
    if a != [] && a[0] == b[0] && b[0] == c[0] {
      LexTransitive(a[1..], b[1..], c[1..]);
    }
  }

  /** Comparing concatenations whose first parts have equal length. */
  lemma {:induction false} LexConcat(a: string, b: string, c: string, d: string)
    requires |a| == |c|
    ensures LexLess(a + b, c + d) <==> LexLess(a, c) || (a == c && LexLess(b, d))
    decreases |a|
  {
    if a != [] {
      assert (a + b)[0] == a[0] && (c + d)[0] == c[0];
      assert (a + b)[1..] == a[1..] + b && (c + d)[1..] == c[1..] + d;
      LexConcat(a[1..], b, c[1..], d);
      if a[0] == c[0] && a[1..] == c[1..] {
        assert a == [a[0]] + a[1..] && c == [c[0]] + c[1..];
      }
    } else {
      assert a + b == b && c + d == d;
    }
  }

  lemma ShiftDigits(d: nat, q: nat, rest: nat, last: nat)
    ensures 10 * (d * q + rest) + last == d * (10 * q) + (10 * rest + last)
  {
  }

  lemma AppendDigitBound(v: nat, p: nat, last: nat)
    requires v < p && last < 10
    ensures 10 * v + last < 10 * p
  {
  }

  /** `ValueOf` read from the first digit. */
  lemma {:induction false} ValueOfFront(s: string)
    requires AllDigits(s) && |s| >= 1
    ensures ValueOf(s) == DigitValue(s[0]) * Pow10(|s| - 1) + ValueOf(s[1..])
    ensures ValueOf(s) < Pow10(|s|)
    decreases |s|
  {
    var n := |s|;
    var p := s[..n - 1];
    var t := s[1..];
    var last := DigitValue(s[n - 1]);
    assert ValueOf(s) == 10 * ValueOf(p) + last;
    if n >= 2 {
      ValueOfFront(p);
      assert p[1..] == t[..|t| - 1] && p[0] == s[0] && t[|t| - 1] == s[n - 1];
      ShiftDigits(DigitValue(s[0]), Pow10(n - 2), ValueOf(p[1..]), last);
      AppendDigitBound(ValueOf(p), Pow10(n - 1), last);
    } else {
      assert p == [] && t == [];
    }
  }

  lemma LeadingDigitDominates(x: nat, y: nat, p: nat, ra: nat, rb: nat)
    requires x < y && ra < p
    ensures x * p + ra < y * p + rb
  {
    var k: nat := y - x - 1;
    assert y * p == x * p + p + k * p;
  }

  /** On digit strings of one width, string order is numeric order. */
  lemma {:induction false} DigitsLexOrder(a: string, b: string)
    requires AllDigits(a) && AllDigits(b) && |a| == |b|
    ensures LexLess(a, b) <==> ValueOf(a) < ValueOf(b)
    decreases |a|
  {
    if a != [] {
      ValueOfFront(a);
      ValueOfFront(b);
      DigitsLexOrder(a[1..], b[1..]);
      var p := Pow10(|a| - 1);
      var x, y := DigitValue(a[0]), DigitValue(b[0]);
      var ra, rb := ValueOf(a[1..]), ValueOf(b[1..]);
      assert ra < p && rb < p by {
        if |a| >= 2 {
          ValueOfFront(a[1..]);
          ValueOfFront(b[1..]);
        }
      }
      if x < y {
        LeadingDigitDominates(x, y, p, ra, rb);
      } else if y < x {
        LeadingDigitDominates(y, x, p, rb, ra);
      }
    }
  }

  // ----------------------------------------------------------- sanitising

  /** The characters the desktop tools replace in generated names. */
  predicate IsForbidden(c: char) {
    c in "\\/*?:\"<>|"
  }

  predicate IsClean(s: string) {
    forall i :: 0 <= i < |s| ==> !IsForbidden(s[i])
  }

  /** Each forbidden character replaced by `_`, everything else kept in place. */
  function Sanitize(s: string): string {
    seq(|s|, i requires 0 <= i < |s| => if IsForbidden(s[i]) then '_' else s[i])
  }

  /** The result never holds a forbidden character, keeps the length, and keeps every other character. */
  lemma SanitizeCleans(s: string)
    ensures IsClean(Sanitize(s)) && |Sanitize(s)| == |s|
    ensures forall i :: 0 <= i < |s| && !IsForbidden(s[i]) ==> Sanitize(s)[i] == s[i]
  {
  }

  /** A name that is already clean is left unchanged, so sanitising twice is sanitising once. */
  lemma SanitizeFixesClean(s: string)
    ensures IsClean(s) ==> Sanitize(s) == s
    ensures Sanitize(Sanitize(s)) == Sanitize(s)
  {
  }

  lemma SanitizeAppend(a: string, b: string)
    ensures Sanitize(a + b) == Sanitize(a) + Sanitize(b)
  {
  }

  // ------------------------------------------------ case and whitespace

  function LowerChar(c: char): char {
    if 'A' <= c <= 'Z' then ((c as int) + 32) as char else c
  }

  /** `str.lower()` on ASCII letters. */
  function Lower(s: string): string {
    seq(|s|, i requires 0 <= i < |s| => LowerChar(s[i]))
  }

  function UpperChar(c: char): char {
    if 'a' <= c <= 'z' then ((c as int) - 32) as char else c
  }

  /** `str.upper()` on ASCII letters. */
  function Upper(s: string): string {
    seq(|s|, i requires 0 <= i < |s| => UpperChar(s[i]))
  }

  /** The ASCII characters `str.isspace()` accepts. */
  predicate IsSpace(c: char) {
    c == ' ' || '\t' <= c <= '\r' || '\U{1c}' <= c <= '\U{1f}'
  }

  function StripLeft(s: string): (r: string)
    ensures |r| <= |s| && r == s[|s| - |r|..]
    ensures r != [] ==> !IsSpace(r[0])
  {
    if s != [] && IsSpace(s[0]) then StripLeft(s[1..]) else s
  }

  function StripRight(s: string): (r: string)
    ensures |r| <= |s| && r == s[..|r|]
    ensures r != [] ==> !IsSpace(r[|r| - 1])
  {
    if s != [] && IsSpace(s[|s| - 1]) then StripRight(s[..|s| - 1]) else s
  }

  /** `str.strip()`. */
  function Strip(s: string): string {
    StripRight(StripLeft(s))
  }

  /** `int(s)` for decimal text: surrounding whitespace, an optional sign, then at least one digit. */
  function ParseInt(s: string): Option<int> {
    var t := Strip(s);
    if t != [] && (t[0] == '+' || t[0] == '-') && |t| >= 2 && AllDigits(t[1..]) then
      var v: int := ValueOf(t[1..]);
      Some(if t[0] == '-' then -v else v)
    else if t != [] && AllDigits(t) then Some(ValueOf(t))
    else None
  }

  /** A digit string has no surrounding whitespace to strip. */
  lemma StripKeepsDigits(t: string)
    requires AllDigits(t) && t != []
    ensures Strip(t) == t
  {
    assert !IsSpace(t[0]);
    assert StripLeft(t) == t;
    assert !IsSpace(t[|t| - 1]);
  }

  /** `int()` of a plain digit string is the number it denotes. */
  lemma ParseIntDigits(t: string)
    requires AllDigits(t) && t != []
    ensures ParseInt(t) == Some(ValueOf(t))
  {
    StripKeepsDigits(t);
    assert IsDigit(t[0]);
  }

  /** `int()` reads back what `str()` of a natural number writes. */
  lemma ParseIntPadded(n: nat)
    ensures ParseInt(Padded(n, 1)) == Some(n)
  {
    ParseIntDigits(Padded(n, 1));
    ValueOfPadded(n, 1);
  }

  // ---------------------------------------------------------------- paths

  /** An absolute path as its components below the root (`Path.parts` without the root). */
  type Path = seq<string>

  /** `Path.name`. */
  function Name(p: Path): string {
    if p == [] then "" else p[|p| - 1]
  }

  /** Index of the last occurrence of `c` in `s`, or -1 (`str.rfind`). */
  function LastIndexOf(s: string, c: char): (r: int)
    ensures -1 <= r < |s|
    ensures r >= 0 ==> s[r] == c
    ensures forall k :: r < k < |s| ==> s[k] != c
  {
    if s == [] then -1
    else if s[|s| - 1] == c then |s| - 1
    else LastIndexOf(s[..|s| - 1], c)
  }

  /** `PurePath.suffix` of a name: from the last dot, unless that dot is first or last. */
  function Suffix(name: string): (r: string)
    ensures r == [] || (r[0] == '.' && |r| >= 2 && forall k :: 1 <= k < |r| ==> r[k] != '.')
  {
    var i := LastIndexOf(name, '.');
    if 0 < i < |name| - 1 then name[i..] else ""
  }

  /** `PurePath.stem` of a name. */
  function Stem(name: string): (r: string)
    ensures r + Suffix(name) == name
  {
    var i := LastIndexOf(name, '.');
    if 0 < i < |name| - 1 then name[..i] else name
  }

  /** `os.path.splitext` of a bare file name: leading dots never start an extension. */
  function SplitExt(name: string): (r: (string, string))
    ensures r.0 + r.1 == name
    ensures r.1 == [] || (r.1[0] == '.' && forall k :: 1 <= k < |r.1| ==> r.1[k] != '.')
  {
    var i := LastIndexOf(name, '.');
    if i >= 0 && exists k | 0 <= k < i :: name[k] != '.' then (name[..i], name[i..]) else (name, "")
  }

  /** An extension appended to a stem that has a character other than a dot is split off again. */
  lemma SplitExtAppend(stem: string, ext: string)
    requires ext != [] && ext[0] == '.' && forall k | 1 <= k < |ext| :: ext[k] != '.'
    requires exists k | 0 <= k < |stem| :: stem[k] != '.'
    ensures SplitExt(stem + ext) == (stem, ext)
  {
    var s := stem + ext;
    var i := LastIndexOf(s, '.');
    assert s[|stem|] == '.';
    assert i >= |stem|;
    forall k | |stem| < k < |s| ensures s[k] != '.' {
      assert s[k] == ext[k - |stem|];
    }
    assert i == |stem|;
    var k :| 0 <= k < |stem| && stem[k] != '.';
    assert s[k] == stem[k];
    assert s[..i] == stem && s[i..] == ext;
  }

  /** Digit strings hold no character the sanitiser replaces. */
  lemma DigitsAreClean(s: string)
    requires AllDigits(s)
    ensures IsClean(s)
  {
  }

  /** How many copies of `c` open `s`. */
  function LeadingCount(s: string, c: char): (n: nat)
    ensures n <= |s|
    ensures forall k | 0 <= k < n :: s[k] == c
    ensures n < |s| ==> s[n] != c
  {
    if s != [] && s[0] == c then
      var m := LeadingCount(s[1..], c);
      assert forall k | 1 <= k < m + 1 :: s[k] == s[1..][k - 1];
      m + 1
    else 0
  }

  /** `s.lstrip(c)` for a single character `c`: drops every leading `c` and nothing more. */
  function StripLeading(s: string, c: char): (r: string)
    ensures |r| <= |s| && r == s[|s| - |r|..]
    ensures r != [] ==> r[0] != c
    ensures forall k | 0 <= k < |s| - |r| :: s[k] == c
  {
    s[LeadingCount(s, c)..]
  }

  /** `str.endswith`. */
  predicate EndsWith(s: string, suffix: string) {
    |suffix| <= |s| && s[|s| - |suffix|..] == suffix
  }

  /** `str.split(sep)`. */
  function Split(s: string, sep: char): (r: seq<string>)
    ensures |r| >= 1
    ensures forall k :: 0 <= k < |r| ==> sep !in r[k]
    decreases |s|
  {
    var i := LastIndexOf(s, sep);
    if i < 0 then [s] else Split(s[..i], sep) + [s[i + 1..]]
  }

  /** The components of a relative POSIX path (`PurePosixPath(rel).parts`): empty and `.` parts vanish. */
  function RelParts(rel: string): (r: seq<string>)
    ensures forall k :: 0 <= k < |r| ==> r[k] != "" && r[k] != "." && '/' !in r[k]
  {
    var all := Split(rel, '/');
    KeepNamed(all)
  }

  function KeepNamed(parts: seq<string>): (r: seq<string>)
    requires forall k :: 0 <= k < |parts| ==> '/' !in parts[k]
    ensures forall k :: 0 <= k < |r| ==> r[k] != "" && r[k] != "." && '/' !in r[k]
    ensures forall x :: x in r ==> x in parts
  {
    if parts == [] then []
    else
      var rest := KeepNamed(parts[1..]);
      if parts[0] == "" || parts[0] == "." then rest else [parts[0]] + rest
  }
}
