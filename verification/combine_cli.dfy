/**
 * The console merger (combine.py): the filename parser, the grouping of the
 * folder's `.mp3` names by day, the menu answer, the keyboard file picker,
 * and the name of the merged file.
 */
module CombineCli {
  import opened Wrappers
  import opened Text
  import opened Calendar
  import opened DateText
  import opened Collections
  import opened CombineGui

  // ------------------------------------------------------------- parsing

  /** How a parse ends: no match, a moment, or a `ValueError` that nothing catches. */
  datatype NameParse = NoMatch | Parsed(moment: Stamp) | Raises

  /**
   * `parse_time_from_filename`: the leftmost match of the space-separated pattern, its date
   * read with `%Y-%m-%d`, its clock with `%H-%M-%S` and, when that fails, with `%H-%M`.
   * A date or a clock that `strptime` refuses raises.
   */
  function ParseName(name: string): NameParse {
    match Search(name, GuiSeps, 0)
    case None => NoMatch
    case Some(m) =>
      match ParseIsoDate(DateGroup(name, m, GuiSeps))
      case None => Raises
      case Some(d) =>
        var text := TimeGroup(name, m, GuiSeps);
        var withSeconds := ParseClock(text, true);
        match if withSeconds.Some? then withSeconds else ParseClock(text, false)
        case None => Raises
        case Some(c) =>
          var t: Stamp := DateTime(d, c.hour, c.minute, c.second);
          Parsed(t)
  }

  /**
   * The console parser and the desktop parser read the same moment from every name; the
   * console one raises exactly where the desktop one gives up after a match.
   */
  lemma ParseNameAgrees(name: string)
    ensures ParseName(name).NoMatch? <==> Search(name, GuiSeps, 0).None?
    ensures ParseName(name).Parsed? <==> ParseDateAndTime(name).Some?
    ensures ParseName(name).Parsed? ==> ParseName(name).moment == ParseDateAndTime(name).value
  {
    if Search(name, GuiSeps, 0).Some? {
      var m := Search(name, GuiSeps, 0).value;
      var text := TimeGroup(name, m, GuiSeps);
      assert |text| == if m.hasSeconds then 8 else 5;
    }
  }

  /**
   * No match gives `None`; on a match the moment is the one the digits spell when `strptime`
   * accepts both the date and the clock, and otherwise the parse raises.
   */
  lemma ParseNameSpec(name: string)
    ensures Search(name, GuiSeps, 0).None? ==> ParseName(name) == NoMatch
    ensures Search(name, GuiSeps, 0).Some? ==>
      var t := MatchedTime(name, Search(name, GuiSeps, 0).value, GuiSeps);
      (ParseName(name).Parsed? <==> DateAccepted(t.date) && ClockAccepted(t))
      && (ParseName(name).Parsed? ==> ParseName(name).moment == t)
      && (ParseName(name).Raises? <==> !(DateAccepted(t.date) && ClockAccepted(t)))
  {
    ParseNameAgrees(name);
    ParseDateAndTimeSpec(name);
  }

  /** The `(date, time)` pair of `parse_date_and_time_from_filename`. */
  datatype Split = Split(date: Option<Date>, clock: Option<Clock>)

  /**
   * `parse_date_and_time_from_filename`: the same parse as `parse_time_from_filename`, split
   * into the date and the clock, and `(None, None)` without a match; `None` where it raises.
   */
  function DateAndClock(name: string): (r: Option<Split>)
    ensures r.None? <==> ParseName(name).Raises?
    ensures r.Some? ==> (r.value.date.None? <==> r.value.clock.None?)
  {
    match ParseName(name)
    case NoMatch => Some(Split(None, None))
    case Parsed(t) => Some(Split(Some(t.date), Some(Clock(t.hour, t.minute, t.second))))
    case Raises => None
  }

  /** `(None, None)` exactly without a match; otherwise the components are the matched digits. */
  lemma DateAndClockSpec(name: string)
    ensures DateAndClock(name) == Some(Split(None, None)) <==> Search(name, GuiSeps, 0).None?
    ensures DateAndClock(name).Some? && Search(name, GuiSeps, 0).Some? ==>
      var m := Search(name, GuiSeps, 0).value;
      var t := MatchedTime(name, m, GuiSeps);
      DateAndClock(name).value == Split(Some(MatchedDate(name, m, GuiSeps)), Some(Clock(t.hour, t.minute, t.second)))
      && IsoDate(MatchedDate(name, m, GuiSeps)) == DateGroup(name, m, GuiSeps)
  {
    ParseNameSpec(name);
    if Search(name, GuiSeps, 0).Some? {
      DateGroupRoundTrip(name, Search(name, GuiSeps, 0).value, GuiSeps);
    }
  }

  // ------------------------------------------------------------- grouping by day

  /** `f.endswith('.mp3')`: the listing's names the script works on, in listing order. */
  function Mp3Names(listing: seq<string>): (r: seq<string>)
    ensures forall i | 0 <= i < |r| :: r[i] in listing && EndsWith(r[i], ".mp3")
    ensures forall x | x in listing && EndsWith(x, ".mp3") :: x in r
  {
    if listing == [] then []
    else
      var rest := Mp3Names(listing[..|listing| - 1]);
      var x := listing[|listing| - 1];
      assert forall y | y in listing[..|listing| - 1] :: y in listing;
      rest + if EndsWith(x, ".mp3") then [x] else []
  }

  /**
   * The names the module-level grouping files under a date, in listing order; `None` when
   * one of them makes `parse_date_and_time_from_filename` raise, which ends the script.
   */
  function Dated(names: seq<string>): (r: Option<seq<string>>)
    ensures r.Some? ==> forall i | 0 <= i < |r.value| :: r.value[i] in names && ParseName(r.value[i]).Parsed?
    ensures r.Some? ==> forall x | x in names && ParseName(x).Parsed? :: x in r.value
    ensures r.None? ==> exists x | x in names :: ParseName(x).Raises?
    ensures (forall x | x in names :: !ParseName(x).Raises?) ==> r.Some?
  {
    if names == [] then Some([])
    else
      var x := names[|names| - 1];
      assert forall y | y in names[..|names| - 1] :: y in names;
      assert names == names[..|names| - 1] + [x];
      match Dated(names[..|names| - 1])
      case None => None
      case Some(rest) =>
        match ParseName(x)
        case Raises => None
        case NoMatch => Some(rest)
        case Parsed(_) => Some(rest + [x])
  }

  /** The date a parsed name is filed under. */
  function NameDate(name: string): Date {
    match ParseName(name)
    case Parsed(t) => t.date
    case _ => Date(1, 1, 1)
  }

  /** The sort key `parse_time_from_filename` gives a parsed name, as seconds since `datetime.min`'s day. */
  function NameMoment(name: string): int {
    match ParseName(name)
    case Parsed(t) => Ordinal(t)
    case _ => 0
  }

  /** `sorted(grouped_files.keys())`: the days with files, earliest first. */
  function Days(dated: seq<string>): (days: seq<Date>)
    ensures SortedBy(days, DayNumber, IntLe)
    ensures multiset(days) == multiset(FirstOccurrences(dated, NameDate))
  {
    IntLeTotal();
    SortBy(FirstOccurrences(dated, NameDate), DayNumber, IntLe)
  }

  /** The menu lists every day with a file, and no other. */
  lemma DaysMembers(dated: seq<string>)
    ensures forall d :: d in Days(dated) <==> exists i | 0 <= i < |dated| :: NameDate(dated[i]) == d
  {
    var firsts := FirstOccurrences(dated, NameDate);
    FirstOccurrencesSpec(dated, NameDate);
    forall d ensures d in Days(dated) <==> exists i | 0 <= i < |dated| :: NameDate(dated[i]) == d {
      assert d in Days(dated) <==> d in multiset(firsts);
    }
  }

  /** The menu lists each day once, strictly earliest first. */
  lemma DaysIncreasing(dated: seq<string>)
    requires forall i | 0 <= i < |dated| :: ParseName(dated[i]).Parsed?
    ensures forall i, j | 0 <= i < j < |Days(dated)| :: DateBefore(Days(dated)[i], Days(dated)[j])
  {
    forall i, j | 0 <= i < j < |Days(dated)| ensures DateBefore(Days(dated)[i], Days(dated)[j]) {
      DaysPairBefore(dated, i, j);
    }
  }

  /** One pair of the menu's days is in strict order. */
  lemma DaysPairBefore(dated: seq<string>, i: nat, j: nat)
    requires forall k | 0 <= k < |dated| :: ParseName(dated[k]).Parsed?
    requires i < j < |Days(dated)|
    ensures DateBefore(Days(dated)[i], Days(dated)[j])
  {
    var days := Days(dated);
    var firsts := FirstOccurrences(dated, NameDate);
    FirstOccurrencesSpec(dated, NameDate);
    var a, b := days[i], days[j];
    assert a in multiset(days) && b in multiset(days);
    ParsedDateValid(dated, a);
    ParsedDateValid(dated, b);
    DayNumberOrder(a, b);
    DayNumberOrder(b, a);
    assert DayNumber(a) <= DayNumber(b);
    SortedDuplicate(days, firsts, i, j);
  }

  /** A day of the menu is a real date. */
  lemma ParsedDateValid(dated: seq<string>, d: Date)
    requires forall i | 0 <= i < |dated| :: ParseName(dated[i]).Parsed?
    requires d in multiset(FirstOccurrences(dated, NameDate))
    ensures ValidDate(d) && InYearRange(d)
  {
    FirstOccurrencesSpec(dated, NameDate);
    var firsts := FirstOccurrences(dated, NameDate);
    assert d in firsts;
    var j :| 0 <= j < |firsts| && firsts[j] == d;
    var i :| 0 <= i < |dated| && NameDate(dated[i]) == firsts[j];
    assert ParseName(dated[i]).Parsed?;
  }

  /** A sorted copy of a list without repeats has no repeats either. */
  lemma SortedDuplicate(days: seq<Date>, firsts: seq<Date>, i: nat, j: nat)
    requires multiset(days) == multiset(firsts)
    requires forall a, b | 0 <= a < b < |firsts| :: firsts[a] != firsts[b]
    requires i < j < |days|
    ensures days[i] != days[j]
  {
    if days[i] == days[j] {
      var x := days[i];
      assert days == days[..i] + [x] + days[i + 1..j] + [x] + days[j + 1..];
      assert multiset(days)[x] >= 2;
      DistinctMultiplicity(firsts, x);
      assert false;
    }
  }

  /** An element of a list without repeats occurs at most once. */
  lemma {:induction false} DistinctMultiplicity<T>(s: seq<T>, x: T)
    requires forall a, b | 0 <= a < b < |s| :: s[a] != s[b]
    ensures multiset(s)[x] <= 1
    decreases |s|
  {
    if s != [] {
      var p := s[..|s| - 1];
      assert s == p + [s[|s| - 1]];
      DistinctMultiplicity(p, x);
      if s[|s| - 1] == x {
        assert x !in p;
      }
    }
  }

  /** `sorted(files, key=parse_time_from_filename)`: earliest moment first, the same names. */
  function ByMoment(files: seq<string>): (r: seq<string>)
    ensures SortedBy(r, NameMoment, IntLe) && multiset(r) == multiset(files)
  {
    IntLeTotal();
    SortBy(files, NameMoment, IntLe)
  }

  /** `sorted(grouped_files[day], key=parse_time_from_filename)`. */
  function DayFiles(dated: seq<string>, day: Date): seq<string> {
    ByMoment(Filter(dated, NameDate, day))
  }

  /** A day's list holds that day's names, each as often as it is listed, earliest first. */
  lemma DayFilesSpec(dated: seq<string>, day: Date)
    ensures multiset(DayFiles(dated, day)) == multiset(Filter(dated, NameDate, day))
    ensures forall i | 0 <= i < |DayFiles(dated, day)| :: DayFiles(dated, day)[i] in dated && NameDate(DayFiles(dated, day)[i]) == day
    ensures forall i, j | 0 <= i < j < |DayFiles(dated, day)| :: NameMoment(DayFiles(dated, day)[i]) <= NameMoment(DayFiles(dated, day)[j])
  {
    var kept := Filter(dated, NameDate, day);
    var r := DayFiles(dated, day);
    FilterSpec(dated, NameDate, day);
    forall i | 0 <= i < |r| ensures r[i] in dated && NameDate(r[i]) == day {
      assert r[i] in multiset(kept);
      var k :| 0 <= k < |kept| && kept[k] == r[i];
    }
  }

  // ------------------------------------------------------------- the menu

  /** What an answer at the prompt asks for. */
  datatype Choice = Exit | MergeDay(index: nat) | PickFromDay(index: nat) | Retry

  /**
   * The answer's reading in `select_files_to_merge`, for a menu of `dayCount` days: `0` exits,
   * `<n>a` merges all of day `n`, `<n>` opens the picker on day `n` (days counted from 1);
   * anything else, an out-of-range number included, asks again.
   */
  function ParseChoice(answer: string, dayCount: nat): (c: Choice)
    ensures c.MergeDay? ==> c.index < dayCount
    ensures c.PickFromDay? ==> c.index < dayCount
  {
    ReadChoice(Lower(Strip(answer)), dayCount)
  }

  /** The reading of the stripped, lower-cased answer. */
  function ReadChoice(choice: string, dayCount: nat): (c: Choice)
    ensures c.MergeDay? ==> c.index < dayCount
    ensures c.PickFromDay? ==> c.index < dayCount
  {
    if choice == "0" then Exit
    else if EndsWith(choice, "a") then
      match ParseInt(choice[..|choice| - 1])
      case Some(n) => if 1 <= n <= dayCount then MergeDay(n - 1) else Retry
      case None => Retry
    else
      match ParseInt(choice)
      case Some(n) => if 1 <= n <= dayCount then PickFromDay(n - 1) else Retry
      case None => Retry
  }

  /** Digits are left alone by `lower()`. */
  lemma LowerDigits(t: string)
    requires AllDigits(t)
    ensures Lower(t) == t
  {
    forall i | 0 <= i < |t| ensures !('A' <= t[i] <= 'Z') {
      assert IsDigit(t[i]);
    }
    LowerUnchanged(t);
  }

  /** Text without capital letters is left alone by `lower()`. */
  lemma LowerUnchanged(u: string)
    requires forall i | 0 <= i < |u| :: !('A' <= u[i] <= 'Z')
    ensures Lower(u) == u
  {
  }

  /** A number, with or without a trailing `a`, is already stripped and lower-cased. */
  lemma NumberNormalized(t: string)
    requires AllDigits(t) && t != []
    ensures Lower(Strip(t)) == t && Lower(Strip(t + "a")) == t + "a"
  {
    StripKeepsDigits(t);
    LowerDigits(t);
    var u := t + "a";
    assert IsDigit(u[0]) && !IsSpace(u[0]) && !IsSpace(u[|u| - 1]);
    StripUnpadded(u);
    forall i | 0 <= i < |u| ensures !('A' <= u[i] <= 'Z') {
      if i < |t| {
        assert u[i] == t[i];
      }
    }
    LowerUnchanged(u);
  }

  /** A number `n` typed alone opens day `n` when the menu has it; `0` exits; other numbers ask again. */
  lemma ChoiceOfNumber(t: string, dayCount: nat)
    requires AllDigits(t) && t != []
    ensures ParseChoice(t, dayCount)
            == if t == "0" then Exit
               else if 1 <= ValueOf(t) <= dayCount then PickFromDay(ValueOf(t) - 1) else Retry
  {
    NumberNormalized(t);
    ReadNumber(t, dayCount);
  }

  /** The reading of an already normalised `<n>`. */
  lemma ReadNumber(t: string, dayCount: nat)
    requires AllDigits(t) && t != []
    ensures t == "0" ==> ReadChoice(t, dayCount) == Exit
    ensures t != "0" ==> ReadChoice(t, dayCount) == if 1 <= ValueOf(t) <= dayCount then PickFromDay(ValueOf(t) - 1) else Retry
  {
    if t != "0" {
      DigitsNotA(t);
      ParseIntDigits(t);
      ReadPlainNumber(t, dayCount, ValueOf(t));
    }
  }

  /** An answer other than `0`, not ending in `a`, that parses as `n` picks from day `n`. */
  lemma ReadPlainNumber(t: string, dayCount: nat, n: int)
    requires t != "0" && !EndsWith(t, "a") && ParseInt(t) == Some(n)
    ensures ReadChoice(t, dayCount) == if 1 <= n <= dayCount then PickFromDay(n - 1) else Retry
  {
  }

  /** A digit string does not end with `a`. */
  lemma DigitsNotA(t: string)
    requires AllDigits(t) && t != []
    ensures !EndsWith(t, "a")
  {
    assert IsDigit(t[|t| - 1]);
  }

  /** A number `n` typed with `a` merges all of day `n` when the menu has it, and asks again otherwise. */
  lemma ChoiceOfNumberAll(t: string, dayCount: nat)
    requires AllDigits(t) && t != []
    ensures ParseChoice(t + "a", dayCount)
            == if 1 <= ValueOf(t) <= dayCount then MergeDay(ValueOf(t) - 1) else Retry
  {
    NumberNormalized(t);
    ReadNumberAll(t, dayCount);
  }

  /** The reading of an already normalised `<n>a`. */
  lemma ReadNumberAll(t: string, dayCount: nat)
    requires AllDigits(t) && t != []
    ensures ReadChoice(t + "a", dayCount)
            == if 1 <= ValueOf(t) <= dayCount then MergeDay(ValueOf(t) - 1) else Retry
  {
    TrailingA(t);
    ParseIntDigits(t);
  }

  /** Text with an `a` appended ends with `a`, is not `0`, and loses exactly the `a` to `[:-1]`. */
  lemma TrailingA(t: string)
    requires t != []
    ensures var u := t + "a"; u != "0" && EndsWith(u, "a") && u[..|u| - 1] == t
  {
    var u := t + "a";
    assert |u| >= 2 && u[|u| - 1..] == "a";
  }

  /** Text that starts and ends with a non-space is its own `strip()`. */
  lemma StripUnpadded(u: string)
    requires u != [] && !IsSpace(u[0]) && !IsSpace(u[|u| - 1])
    ensures Strip(u) == u
  {
    assert StripLeft(u) == u;
  }

  /** The menu is empty exactly when no name has a date. */
  lemma DaysEmpty(dated: seq<string>)
    ensures Days(dated) == [] <==> dated == []
  {
    if dated != [] {
      FirstOccurrencesSpec(dated, NameDate);
      assert NameDate(dated[0]) in multiset(Days(dated));
    }
  }

  /** What one prompt of `select_files_to_merge` leads to. */
  datatype Answer = NoFiles | Quit | Again | MergeAll(date: Date, files: seq<string>)
                  | Interactive(date: Date, files: seq<string>)

  /** One prompt: the menu's days, the answer read against them, and the chosen day's files by time. */
  function SelectStep(dated: seq<string>, answer: string): (r: Answer)
    ensures r.MergeAll? ==> r.date in Days(dated) && r.files == DayFiles(dated, r.date)
    ensures r.Interactive? ==> r.date in Days(dated) && r.files == DayFiles(dated, r.date)
    ensures r.NoFiles? <==> dated == []
    ensures r.Again? <==> dated != [] && ParseChoice(answer, |Days(dated)|).Retry?
    ensures r.Quit? <==> dated != [] && ParseChoice(answer, |Days(dated)|).Exit?
  {
    var days := Days(dated);
    DaysEmpty(dated);
    if days == [] then NoFiles
    else
      match ParseChoice(answer, |days|)
      case Exit => Quit
      case Retry => Again
      case MergeDay(i) => MergeAll(days[i], DayFiles(dated, days[i]))
      case PickFromDay(i) => Interactive(days[i], DayFiles(dated, days[i]))
  }

  // ------------------------------------------------------------- the file picker

  /** A key as `interactive_file_selection` tells them apart. */
  datatype Key = Up | Down | OtherSpecial | Space | Enter | QuitKey | SelectAll | DeselectAll | OtherKey

  /** The picker's state: the ticked names and the highlighted row. */
  datatype Picker = Picker(selected: set<string>, cursor: int)

  /** How a key leaves the picker: still waiting, or returned (`None` for quitting or an error). */
  datatype Outcome = Waiting | Finished(choice: Option<set<string>>)

  /** The highlighted row is a row, or the first place of an empty list. */
  predicate InRange(files: seq<string>, cursor: int) {
    0 <= cursor && (cursor == 0 || cursor < |files|)
  }

  /** What the picker keeps: the row in range and only listed names ticked. */
  predicate Consistent(files: seq<string>, p: Picker) {
    InRange(files, p.cursor) && forall x | x in p.selected :: x in files
  }

  /**
   * One key of `interactive_file_selection`. Up and Down move the row with wrap-around, Space
   * ticks or unticks the highlighted name, `a` ticks all, `d` none, Enter returns a non-empty
   * selection, `q` returns nothing; with no files, the moves and Space fail and return nothing.
   */
  function Step(files: seq<string>, p: Picker, key: Key): (r: (Picker, Outcome))
    requires InRange(files, p.cursor)
    ensures InRange(files, r.0.cursor)
  {
    match key
    case Up =>
      if |files| == 0 then (p, Finished(None)) else (p.(cursor := (p.cursor - 1) % |files|), Waiting)
    case Down =>
      if |files| == 0 then (p, Finished(None)) else (p.(cursor := (p.cursor + 1) % |files|), Waiting)
    case Space =>
      if |files| == 0 then (p, Finished(None))
      else
        var f := files[p.cursor];
        (p.(selected := if f in p.selected then p.selected - {f} else p.selected + {f}), Waiting)
    case Enter => if p.selected != {} then (p, Finished(Some(p.selected))) else (p, Waiting)
    case QuitKey => (p, Finished(None))
    case SelectAll => (p.(selected := set f | f in files), Waiting)
    case DeselectAll => (p.(selected := {}), Waiting)
    case OtherSpecial => (p, Waiting)
    case OtherKey => (p, Waiting)
  }

  /** Every key keeps the picker consistent. */
  lemma StepKeepsConsistent(files: seq<string>, p: Picker, key: Key)
    requires Consistent(files, p)
    ensures Consistent(files, Step(files, p, key).0)
  {
  }

  /** Up goes to the row above and from the first row to the last; Down the other way. */
  lemma CursorWraps(files: seq<string>, p: Picker)
    requires Consistent(files, p) && |files| > 0
    ensures Step(files, p, Up) == (p.(cursor := if p.cursor == 0 then |files| - 1 else p.cursor - 1), Waiting)
    ensures Step(files, p, Down) == (p.(cursor := if p.cursor == |files| - 1 then 0 else p.cursor + 1), Waiting)
  {
    var n, c := |files|, p.cursor;
    if c == 0 {
      assert (c - 1) % n == n - 1;
    } else {
      assert (c - 1) % n == c - 1;
    }
    if c == n - 1 {
      assert (c + 1) % n == 0;
    } else {
      assert (c + 1) % n == c + 1;
    }
  }

  /** Down undoes Up. */
  lemma UpThenDown(files: seq<string>, p: Picker)
    requires Consistent(files, p) && |files| > 0
    ensures Step(files, Step(files, p, Up).0, Down).0 == p
  {
    CursorWraps(files, p);
    CursorWraps(files, Step(files, p, Up).0);
  }

  /** Space flips the highlighted name and no other, and a second Space flips it back. */
  lemma SpaceToggles(files: seq<string>, p: Picker)
    requires Consistent(files, p) && |files| > 0
    ensures var q := Step(files, p, Space).0;
            q.cursor == p.cursor
            && (forall x :: x in q.selected <==> (x in p.selected) != (x == files[p.cursor]))
            && Step(files, q, Space).0 == p
  {
  }

  /** `a` ticks every listed name and `d` unticks all; neither moves the row or returns. */
  lemma SelectAllAndNone(files: seq<string>, p: Picker)
    requires Consistent(files, p)
    ensures var q := Step(files, p, SelectAll);
            q.1 == Waiting && q.0.cursor == p.cursor && forall x :: x in q.0.selected <==> x in files
    ensures Step(files, p, DeselectAll) == (Picker({}, p.cursor), Waiting)
  {
  }

  /**
   * The picker returns exactly on `q`, on Enter with something ticked (returning what is
   * ticked), and on a move or Space over an empty list; it returns names only on Enter.
   */
  lemma WhenFinished(files: seq<string>, p: Picker, key: Key)
    requires Consistent(files, p)
    ensures var o := Step(files, p, key).1;
            (o.Finished? <==> key == QuitKey || (key == Enter && p.selected != {})
                              || (|files| == 0 && (key == Up || key == Down || key == Space)))
            && (o.Finished? && o.choice.Some? <==> key == Enter && p.selected != {})
            && (o.Finished? && o.choice.Some? ==> o.choice.value == p.selected)
  {
  }

  /** `a` then Enter returns every listed name. */
  lemma SelectAllThenEnter(files: seq<string>, p: Picker)
    requires Consistent(files, p) && |files| > 0
    ensures var q := Step(files, p, SelectAll).0;
            Step(files, q, Enter).1 == Finished(Some(set f | f in files))
  {
    var q := Step(files, p, SelectAll).0;
    assert files[0] in q.selected;
  }

  /** The keys fed to the picker from state `p` until it returns; `Waiting` when they run out first. */
  function Run(files: seq<string>, p: Picker, keys: seq<Key>): Outcome
    requires InRange(files, p.cursor)
    decreases |keys|
  {
    if keys == [] then Waiting
    else
      var (q, o) := Step(files, p, keys[0]);
      if o.Finished? then o else Run(files, q, keys[1..])
  }

  /** Whatever keys are pressed, the picker returns only a non-empty set of listed names. */
  lemma {:induction false} RunSelection(files: seq<string>, p: Picker, keys: seq<Key>)
    requires Consistent(files, p)
    ensures Run(files, p, keys).Finished? && Run(files, p, keys).choice.Some? ==>
      Run(files, p, keys).choice.value != {} && forall x | x in Run(files, p, keys).choice.value :: x in files
    decreases |keys|
  {
    if keys != [] {
      StepKeepsConsistent(files, p, keys[0]);
      WhenFinished(files, p, keys[0]);
      RunSelection(files, Step(files, p, keys[0]).0, keys[1..]);
    }
  }

  /** The state of `interactive_file_selection`: the list shown, the ticked names, the highlighted row. */
  class FilePicker {
    const files: seq<string>
    var selected: set<string>
    var cursor: int

    /** The state as a value. */
    function State(): Picker
      reads this
    {
      Picker(selected, cursor)
    }

    ghost predicate Valid()
      reads this
    {
      Consistent(files, State())
    }

    /** Nothing ticked, the first row highlighted. */
    constructor (files: seq<string>)
      ensures this.files == files && State() == Picker({}, 0) && Valid()
    {
      this.files := files;
      selected := {};
      cursor := 0;
    }

    /** One key press, handled in place. */
    method Press(key: Key) returns (outcome: Outcome)
      requires Valid()
      modifies this
      ensures Valid()
      ensures (State(), outcome) == Step(files, old(State()), key)
    {
      StepKeepsConsistent(files, State(), key);
      outcome := Waiting;
      match key {
        case Up =>
          if |files| == 0 {
            outcome := Finished(None);
          } else {
            cursor := (cursor - 1) % |files|;
          }
        case Down =>
          if |files| == 0 {
            outcome := Finished(None);
          } else {
            cursor := (cursor + 1) % |files|;
          }
        case Space =>
          if |files| == 0 {
            outcome := Finished(None);
          } else if files[cursor] in selected {
            selected := selected - {files[cursor]};
          } else {
            selected := selected + {files[cursor]};
          }
        case Enter =>
          if selected != {} {
            outcome := Finished(Some(selected));
          }
        case QuitKey =>
          outcome := Finished(None);
        case SelectAll =>
          selected := set f | f in files;
        case DeselectAll =>
          selected := {};
        case OtherSpecial =>
        case OtherKey =>
      }
    }
  }

  /** `interactive_file_selection` fed the keys in order: the picker's outcome on them. */
  method InteractiveFileSelection(files: seq<string>, keys: seq<Key>) returns (outcome: Outcome)
    ensures outcome == Run(files, Picker({}, 0), keys)
  {
    var picker := new FilePicker(files);
    for i := 0 to |keys|
      invariant picker.Valid() && picker.files == files
      invariant Run(files, picker.State(), keys[i..]) == Run(files, Picker({}, 0), keys)
    {
      assert keys[i..][1..] == keys[i + 1..];
      outcome := picker.Press(keys[i]);
      if outcome.Finished? {
        return;
      }
    }
    return Waiting;
  }

  /** The picked names in the order the picker listed them. */
  function InListOrder(files: seq<string>, picked: set<string>): (r: seq<string>)
    ensures forall i | 0 <= i < |r| :: r[i] in files && r[i] in picked
    ensures forall x | x in files && x in picked :: x in r
  {
    if files == [] then []
    else
      var rest := InListOrder(files[..|files| - 1], picked);
      var x := files[|files| - 1];
      assert forall y | y in files[..|files| - 1] :: y in files;
      rest + if x in picked then [x] else []
  }

  /**
   * What a prompt's answer gives once it neither asks again nor finds no files: `0` gives
   * `None`; `<n>a` gives the day with all its files; `<n>` runs the picker on the day's files
   * and gives the picked ones, or `None` when the picker returns nothing.
   */
  method Resolve(dated: seq<string>, step: Answer, keys: seq<Key>) returns (r: Option<(Date, seq<string>)>)
    requires step == Quit || step.MergeAll? || step.Interactive?
    requires step.MergeAll? || step.Interactive? ==> step.date in Days(dated) && step.files == DayFiles(dated, step.date)
    ensures step == Quit ==> r.None?
    ensures step.MergeAll? ==> r == Some((step.date, step.files))
    ensures r.Some? ==> r.value.0 in Days(dated) && r.value.1 != []
    ensures r.Some? ==> forall x | x in r.value.1 :: x in DayFiles(dated, r.value.0)
    ensures r.Some? ==> step.MergeAll? || (step.Interactive? && r.value.0 == step.date)
    ensures step.Interactive? ==> r == Chosen(step.date, step.files, Run(step.files, Picker({}, 0), keys))
  {
    match step {
      case Quit =>
        return None;
      case MergeAll(day, files) =>
        DayNonEmpty(dated, day);
        return Some((day, files));
      case Interactive(day, files) =>
        var outcome := InteractiveFileSelection(files, keys);
        RunSelection(files, Picker({}, 0), keys);
        if outcome.Finished? && outcome.choice.Some? {
          var picked := InListOrder(files, outcome.choice.value);
          var x :| x in outcome.choice.value;
          assert x in picked;
          return Some((day, picked));
        }
        return None;
    }
  }

  /**
   * `select_files_to_merge`, fed the typed answers and the picker's keys: answers that ask
   * again are skipped and the first other answer decides, as `Resolve` says.
   */
  method SelectFilesToMerge(dated: seq<string>, answers: seq<string>, keys: seq<Key>)
    returns (r: Option<(Date, seq<string>)>)
    ensures dated == [] ==> r.None?
    ensures r.Some? ==> r.value.0 in Days(dated) && r.value.1 != []
    ensures r.Some? ==> forall x | x in r.value.1 :: x in DayFiles(dated, r.value.0)
    ensures r.Some? ==> exists i | 0 <= i < |answers| ::
      (forall j | 0 <= j < i :: ParseChoice(answers[j], |Days(dated)|).Retry?)
      && (SelectStep(dated, answers[i]) == MergeAll(r.value.0, r.value.1)
          || SelectStep(dated, answers[i]) == Interactive(r.value.0, DayFiles(dated, r.value.0)))
    ensures r == Selection(dated, answers, keys)
  {
    if dated == [] {
      return None;
    }
    var k := FirstDecisive(answers, |Days(dated)|);
    SelectionSkip(dated, answers, keys, k);
    if k == |answers| {
      return None;
    }
    assert answers[k..][0] == answers[k];
    r := Resolve(dated, SelectStep(dated, answers[k]), keys);
  }

  /** What the picker's outcome gives for a day: the picked names in list order, or nothing. */
  function Chosen(day: Date, files: seq<string>, o: Outcome): Option<(Date, seq<string>)> {
    if o.Finished? && o.choice.Some? then Some((day, InListOrder(files, o.choice.value))) else None
  }

  /** The selection the prompts settle on, answer by answer: asking again moves to the next answer. */
  function Selection(dated: seq<string>, answers: seq<string>, keys: seq<Key>): Option<(Date, seq<string>)>
    decreases |answers|
  {
    if answers == [] then None
    else
      match SelectStep(dated, answers[0])
      case NoFiles => None
      case Quit => None
      case Again => Selection(dated, answers[1..], keys)
      case MergeAll(day, files) => Some((day, files))
      case Interactive(day, files) => Chosen(day, files, Run(files, Picker({}, 0), keys))
  }

  /** Answers that ask again are passed over. */
  lemma {:induction false} SelectionSkip(dated: seq<string>, answers: seq<string>, keys: seq<Key>, k: nat)
    requires dated != [] && k <= |answers|
    requires forall j | 0 <= j < k :: ParseChoice(answers[j], |Days(dated)|).Retry?
    ensures Selection(dated, answers, keys) == Selection(dated, answers[k..], keys)
    decreases k
  {
    if k > 0 {
      assert SelectStep(dated, answers[0]) == Again;
      var rest := answers[1..];
      forall j | 0 <= j < k - 1 ensures ParseChoice(rest[j], |Days(dated)|).Retry? {
        assert rest[j] == answers[j + 1];
      }
      SelectionSkip(dated, rest, keys, k - 1);
      assert rest[k - 1..] == answers[k..];
    }
  }

  /**
   * The first answer that does not ask again decides: none left gives `None`, `0` gives
   * `None`, `<n>a` gives day `n` with all its files, `<n>` gives what the picker returns
   * on day `n`'s files.
   */
  lemma SelectionDecided(dated: seq<string>, answers: seq<string>, keys: seq<Key>, k: nat)
    requires dated != [] && k <= |answers|
    requires forall j | 0 <= j < k :: ParseChoice(answers[j], |Days(dated)|).Retry?
    requires k < |answers| ==> !ParseChoice(answers[k], |Days(dated)|).Retry?
    ensures k == |answers| ==> Selection(dated, answers, keys) == None
    ensures k < |answers| && ParseChoice(answers[k], |Days(dated)|).Exit? ==> Selection(dated, answers, keys) == None
    ensures k < |answers| && ParseChoice(answers[k], |Days(dated)|).MergeDay? ==>
      var day := Days(dated)[ParseChoice(answers[k], |Days(dated)|).index];
      Selection(dated, answers, keys) == Some((day, DayFiles(dated, day)))
    ensures k < |answers| && ParseChoice(answers[k], |Days(dated)|).PickFromDay? ==>
      var day := Days(dated)[ParseChoice(answers[k], |Days(dated)|).index];
      Selection(dated, answers, keys) == Chosen(day, DayFiles(dated, day), Run(DayFiles(dated, day), Picker({}, 0), keys))
  {
    SelectionSkip(dated, answers, keys, k);
    if k < |answers| {
      assert answers[k..][0] == answers[k];
    }
  }

  /** The prompt loop: the place of the first answer that does not ask again, or `|answers|`. */
  method FirstDecisive(answers: seq<string>, dayCount: nat) returns (k: nat)
    ensures k <= |answers|
    ensures forall j | 0 <= j < k :: ParseChoice(answers[j], dayCount).Retry?
    ensures k < |answers| ==> !ParseChoice(answers[k], dayCount).Retry?
  {
    var choices := seq(|answers|, j requires 0 <= j < |answers| => ParseChoice(answers[j], dayCount));
    k := FirstNotRetry(choices);
    forall j | 0 <= j < k ensures ParseChoice(answers[j], dayCount).Retry? {
      assert choices[j].Retry?;
    }
    if k < |answers| {
      assert !choices[k].Retry?;
    }
  }

  /** The loop over the readings of the answers: the place of the first one that does not ask again, or `|choices|`. */
  method FirstNotRetry(choices: seq<Choice>) returns (k: nat)
    ensures k <= |choices|
    ensures forall j | 0 <= j < k :: choices[j].Retry?
    ensures k < |choices| ==> !choices[k].Retry?
  {
    k := 0;
    while k < |choices| && choices[k].Retry?
      invariant k <= |choices|
      invariant forall j | 0 <= j < k :: choices[j].Retry?
    {
      k := k + 1;
    }
  }

  /** Every day on the menu has at least one file. */
  lemma DayNonEmpty(dated: seq<string>, day: Date)
    requires day in Days(dated)
    ensures DayFiles(dated, day) != []
  {
    var firsts := FirstOccurrences(dated, NameDate);
    FirstOccurrencesSpec(dated, NameDate);
    assert day in multiset(firsts);
    var j :| 0 <= j < |firsts| && firsts[j] == day;
    var i :| 0 <= i < |dated| && NameDate(dated[i]) == day;
    FilterKeeps(dated, NameDate, i);
    assert |multiset(DayFiles(dated, day))| == |multiset(Filter(dated, NameDate, day))|;
  }

  /** An element whose key is `key(s[i])` is kept by that key's filter. */
  lemma {:induction false} FilterKeeps<T, K>(s: seq<T>, key: T -> K, i: nat)
    requires i < |s|
    ensures s[i] in Filter(s, key, key(s[i]))
    decreases |s|
  {
    var p := s[..|s| - 1];
    if i < |p| {
      FilterKeeps(p, key, i);
      assert p[i] == s[i];
    }
  }

  // ------------------------------------------------------------- the merged name

  /** The moment of the first file once sorted by time: the earliest moment among the files. */
  function Earliest(files: seq<string>): (t: Stamp)
    requires files != [] && forall i | 0 <= i < |files| :: ParseName(files[i]).Parsed?
    ensures exists i | 0 <= i < |files| :: ParseName(files[i]).moment == t
    ensures forall j | 0 <= j < |files| :: !Before(ParseName(files[j]).moment, t)
  {
    var sorted := ByMoment(files);
    assert sorted[0] in multiset(files);
    SortedFirstEarliest(files, sorted);
    ParseName(sorted[0]).moment
  }

  /** The first of the sorted files is no later than any of them. */
  lemma SortedFirstEarliest(files: seq<string>, sorted: seq<string>)
    requires forall i | 0 <= i < |files| :: ParseName(files[i]).Parsed?
    requires sorted == ByMoment(files) && sorted != []
    ensures ParseName(sorted[0]).Parsed? && sorted[0] in files
    ensures forall j | 0 <= j < |files| :: !Before(ParseName(files[j]).moment, ParseName(sorted[0]).moment)
  {
    assert sorted[0] in multiset(files);
    forall j | 0 <= j < |files| ensures !Before(ParseName(files[j]).moment, ParseName(sorted[0]).moment) {
      assert files[j] in multiset(sorted);
      var k :| 0 <= k < |sorted| && sorted[k] == files[j];
      assert k == 0 || NameMoment(sorted[0]) <= NameMoment(sorted[k]);
      OrdinalOrder(ParseName(files[j]).moment, ParseName(sorted[0]).moment);
    }
  }

  /** Files in any order have the same earliest moment. */
  lemma EarliestOrderFree(a: seq<string>, b: seq<string>)
    requires multiset(a) == multiset(b) && a != []
    requires forall i | 0 <= i < |a| :: ParseName(a[i]).Parsed?
    requires forall i | 0 <= i < |b| :: ParseName(b[i]).Parsed?
    ensures b != [] && Earliest(a) == Earliest(b)
  {
    assert a[0] in multiset(b);
    var ta, tb := Earliest(a), Earliest(b);
    var i :| 0 <= i < |a| && ParseName(a[i]).moment == ta;
    var j :| 0 <= j < |b| && ParseName(b[j]).moment == tb;
    assert a[i] in multiset(b) && b[j] in multiset(a);
    var i' :| 0 <= i' < |b| && b[i'] == a[i];
    var j' :| 0 <= j' < |a| && a[j'] == b[j];
    assert !Before(ta, tb) && !Before(tb, ta);
    OrdinalOrder(ta, tb);
    OrdinalOrder(tb, ta);
  }

  /**
   * The name `process_files` writes: the files sorted by time, and `YYYYMMDD HH-MM.mp3` from
   * the first of them, whether or not its own clip had sound; `None` when no clip has a
   * positive duration. The files must parse, or sorting them would raise.
   */
  function MergedName(files: seq<string>, playable: string -> bool): (r: Option<string>)
    requires forall i | 0 <= i < |files| :: ParseName(files[i]).Parsed?
  {
    if Count(files, playable) == 0 then None
    else
      var t := Earliest(files);
      Some(CompactDate(t.date) + " " + DashedClock(t) + ".mp3")
  }

  /**
   * A name exists exactly when some clip plays, and it is the day and `HH-MM` of the earliest
   * file; nothing in it needs sanitising.
   */
  lemma MergedNameSpec(files: seq<string>, playable: string -> bool)
    requires forall i | 0 <= i < |files| :: ParseName(files[i]).Parsed?
    ensures MergedName(files, playable).Some? <==> exists i | 0 <= i < |files| :: playable(files[i])
    ensures MergedName(files, playable).Some? ==>
      exists i | 0 <= i < |files| ::
        var t := ParseName(files[i]).moment;
        MergedName(files, playable).value == CompactDate(t.date) + " " + DashedClock(t) + ".mp3"
        && IsClean(MergedName(files, playable).value)
        && forall j | 0 <= j < |files| :: !Before(ParseName(files[j]).moment, t)
  {
    CountPositive(files, playable);
    if Count(files, playable) > 0 {
      var t := Earliest(files);
      var i :| 0 <= i < |files| && ParseName(files[i]).moment == t;
      JoinedIsClean(t, t.date);
    }
  }

  /** The name does not depend on the order the files come in (the picker's set has none). */
  lemma MergedNameOrderFree(a: seq<string>, b: seq<string>, playable: string -> bool)
    requires multiset(a) == multiset(b)
    requires forall i | 0 <= i < |a| :: ParseName(a[i]).Parsed?
    ensures forall i | 0 <= i < |b| :: ParseName(b[i]).Parsed?
    ensures MergedName(a, playable) == MergedName(b, playable)
  {
    forall i | 0 <= i < |b| ensures ParseName(b[i]).Parsed? {
      assert b[i] in multiset(a);
    }
    CountPermutation(a, b, playable);
    if Count(a, playable) > 0 {
      EarliestOrderFree(a, b);
    }
  }
}
