/**
 * The desktop merge-and-organise tool (combine_GUI.py) without its widgets:
 * the filename date/time parser, the merged-output and folder names, the
 * names written by conversion and silence removal, the success counts of
 * the background workers, the by-day grouping of the organiser, and the
 * running-task counter of the main window.
 */
module CombineGui {
  import opened Wrappers
  import opened Text
  import opened Calendar
  import opened DateText
  import opened Collections

  /** The default pattern puts a single space between the date and the clock. */
  const GuiSeps: set<char> := {' '}

  // ------------------------------------------------------------- parsing

  /** A `datetime.time` with whole seconds. */
  datatype Clock = Clock(hour: int, minute: int, second: int)

  /**
   * `datetime.strptime(text, "%H-%M-%S").time()` (with seconds) or `"%H-%M"` (without) on
   * the two-digit texts the pattern captures; `None` where Python raises `ValueError`.
   */
  function ParseClock(text: string, withSeconds: bool): (r: Option<Clock>)
    ensures r.Some? ==> 0 <= r.value.hour < 24 && 0 <= r.value.minute < 60 && 0 <= r.value.second < 60
    ensures r.Some? ==> |text| == if withSeconds then 8 else 5
    ensures r.Some? && !withSeconds ==> r.value.second == 0
  {
    if !withSeconds then
      if |text| == 5 && DigitsAt(text, 0, 2) && text[2] == '-' && DigitsAt(text, 3, 2)
         && FieldAt(text, 0, 2) < 24 && FieldAt(text, 3, 2) < 60
      then Some(Clock(FieldAt(text, 0, 2), FieldAt(text, 3, 2), 0))
      else None
    else
      if |text| == 8 && DigitsAt(text, 0, 2) && text[2] == '-' && DigitsAt(text, 3, 2)
         && text[5] == '-' && DigitsAt(text, 6, 2)
         && FieldAt(text, 0, 2) < 24 && FieldAt(text, 3, 2) < 60 && FieldAt(text, 6, 2) < 60
      then Some(Clock(FieldAt(text, 0, 2), FieldAt(text, 3, 2), FieldAt(text, 6, 2)))
      else None
  }

  /**
   * `parse_date_and_time_from_filename`: the leftmost match, its date read with `%Y-%m-%d`,
   * its clock with `%H-%M-%S` when the seconds group matched, else (and, on failure, again)
   * with `%H-%M`. `None` stands for `(None, None)`.
   */
  function ParseDateAndTime(name: string): (r: Option<Stamp>)
  {
    match Search(name, GuiSeps, 0)
    case None => None
    case Some(m) =>
      var dateText := DateGroup(name, m, GuiSeps);
      var timeText := TimeGroup(name, m, GuiSeps);
      match ParseIsoDate(dateText)
      case None => None
      case Some(d) =>
        var first := ParseClock(timeText, m.hasSeconds);
        var clock := if first.None? && m.hasSeconds then ParseClock(timeText, false) else first;
        match clock
        case None => None
        case Some(c) =>
          var t: Stamp := DateTime(d, c.hour, c.minute, c.second);
          Some(t)
  }

  /** The date group is read back as the date the match spells, when that date exists. */
  lemma DateGroupParses(s: string, m: Match)
    requires CoreAt(s, m.start, GuiSeps)
    ensures ParseIsoDate(DateGroup(s, m, GuiSeps))
            == if DateAccepted(MatchedDate(s, m, GuiSeps)) then Some(MatchedDate(s, m, GuiSeps)) else None
  {
    var i := m.start;
    var g := DateGroup(s, m, GuiSeps);
    assert g == s[i..i + 10];
    SliceOfSlice(s, i, i + 10, 0, 4);
    SliceOfSlice(s, i, i + 10, 5, 7);
    SliceOfSlice(s, i, i + 10, 8, 10);
    assert g[4] == s[i + 4] && g[7] == s[i + 7];
    assert DigitsAt(g, 0, 4) && DigitsAt(g, 5, 2) && DigitsAt(g, 8, 2);
    assert Date(FieldAt(g, 0, 4), FieldAt(g, 5, 2), FieldAt(g, 8, 2)) == MatchedDate(s, m, GuiSeps);
  }

  /** The clock group is read back as the clock the match spells, when that clock exists. */
  lemma TimeGroupParses(s: string, m: Match)
    requires CoreAt(s, m.start, GuiSeps) && (m.hasSeconds ==> SecondsAt(s, m.start))
    ensures var t := MatchedTime(s, m, GuiSeps);
            ParseClock(TimeGroup(s, m, GuiSeps), m.hasSeconds)
            == if ClockAccepted(t) then Some(Clock(t.hour, t.minute, t.second)) else None
    ensures m.hasSeconds ==> ParseClock(TimeGroup(s, m, GuiSeps), false).None?
  {
    var i := m.start;
    var g := TimeGroup(s, m, GuiSeps);
    assert g[0..2] == s[i + 11..i + 13] && g[3..5] == s[i + 14..i + 16] && g[2] == s[i + 13];
    if m.hasSeconds {
      assert g[6..8] == s[i + 17..i + 19] && g[5] == s[i + 16];
    }
  }

  /**
   * What the parser returns: nothing without a match; otherwise the date and clock the
   * match spells exactly when both exist (the minutes-only retry never rescues a clock
   * with seconds), and then printing them back gives the two captured groups.
   */
  lemma ParseDateAndTimeSpec(name: string)
    ensures Search(name, GuiSeps, 0).None? ==> ParseDateAndTime(name).None?
    ensures Search(name, GuiSeps, 0).Some? ==>
      var m := Search(name, GuiSeps, 0).value;
      var t := MatchedTime(name, m, GuiSeps);
      (ParseDateAndTime(name).Some? <==> DateAccepted(t.date) && ClockAccepted(t))
      && (ParseDateAndTime(name).Some? ==>
            ParseDateAndTime(name).value == t
            && IsoDate(t.date) == DateGroup(name, m, GuiSeps)
            && (m.hasSeconds ==> DashedClock(t) + "-" + Padded(t.second, 2) == TimeGroup(name, m, GuiSeps))
            && (!m.hasSeconds ==> DashedClock(t) == TimeGroup(name, m, GuiSeps)))
  {
    if Search(name, GuiSeps, 0).Some? {
      var m := Search(name, GuiSeps, 0).value;
      DateGroupParses(name, m);
      TimeGroupParses(name, m);
      DateGroupRoundTrip(name, m, GuiSeps);
      TimeGroupRoundTrip(name, m, GuiSeps);
    }
  }

  /** `parse_time_from_filename`: the parsed moment, or `datetime.min` when parsing fails. */
  function ParseTime(name: string): (t: Stamp)
    ensures ParseDateAndTime(name).Some? ==> t == ParseDateAndTime(name).value
    ensures ParseDateAndTime(name).None? ==> t == MinStamp
  {
    match ParseDateAndTime(name)
    case Some(t) => t
    case None => MinStamp
  }

  /** No moment is earlier than `datetime.min`, so unparseable names sort first. */
  lemma UnparsedSortsFirst(name: string, other: string)
    requires ParseDateAndTime(name).None?
    ensures !Before(ParseTime(other), ParseTime(name))
  {
  }

  // ------------------------------------------------------------- names

  /** `%Y%m%d` writes only digits. */
  lemma CompactDateDigits(d: Date)
    requires d.year >= 0 && d.month >= 0 && d.day >= 0
    ensures AllDigits(CompactDate(d))
  {
  }

  /** Different existing dates never share a `%Y%m%d` string. */
  lemma CompactDateInjective(a: Date, b: Date)
    requires ValidDate(a) && InYearRange(a) && ValidDate(b) && InYearRange(b)
    requires CompactDate(a) == CompactDate(b)
    ensures a == b
  {
    IsoDateShape(a);
    IsoDateShape(b);
    var s := CompactDate(a);
    assert s[..4] == Padded(a.year, 4) && s[..4] == Padded(b.year, 4);
    assert s[4..6] == Padded(a.month, 2) && s[4..6] == Padded(b.month, 2);
    assert s[6..] == Padded(a.day, 2) && s[6..] == Padded(b.day, 2);
    PaddedInjective(a.year, b.year, 4);
    PaddedInjective(a.month, b.month, 2);
    PaddedInjective(a.day, b.day, 2);
  }

  /**
   * The date text `process_files` takes from the last clip's name: its first group, or the
   * first clip's date printed with `%Y-%m-%d` when the last name has no match.
   */
  function LastDateText(last: string, first: Stamp): (r: string)
    ensures |r| == 10
  {
    match Search(last, GuiSeps, 0)
    case Some(m) => DateGroup(last, m, GuiSeps)
    case None => IsoDateShape(first.date); IsoDate(first.date)
  }

  /** The date the last clip stands for: its date text read with `%Y-%m-%d`. */
  function LastDate(last: string, first: Stamp): Option<Date> {
    ParseIsoDate(LastDateText(last, first))
  }

  /** A last name without a match stands for the first clip's own date. */
  lemma LastDateUnmatched(last: string, first: Stamp)
    requires Search(last, GuiSeps, 0).None?
    ensures LastDate(last, first) == Some(first.date)
  {
    ParseIsoDateRoundTrip(first.date);
  }

  /** `last_date_formatted`: the last date's `%Y%m%d` when it differs from the first, else the first's. */
  function LastDateField(lastText: string, first: Stamp): string {
    if lastText == "" then ""
    else match ParseIsoDate(lastText)
         case Some(d) => if d != first.date then CompactDate(d) else CompactDate(first.date)
         case None => CompactDate(first.date)
  }

  /** `output_filename` before sanitising. */
  function JoinName(firstDate: string, lastDate: string, clock: string): string {
    if firstDate == lastDate || lastDate == "" then firstDate + " " + clock + ".mp3"
    else firstDate + "-" + lastDate + " " + clock + ".mp3"
  }

  /**
   * The naming part of `process_files`, given the names of the clips that loaded, in the
   * order they were collected: the first clip's `YYYYMMDD HH-MM`, with `-YYYYMMDD` of the
   * last clip's date added when that date is a different real date; sanitised.
   * `None` for an empty list or a first name without a readable date and time.
   */
  function MergeOutputName(loaded: seq<string>): (r: Option<string>)
    ensures loaded == [] ==> r.None?
    ensures r.Some? ==> IsClean(r.value)
  {
    if loaded == [] then None
    else
      match ParseDateAndTime(loaded[0])
      case None => None
      case Some(ft) =>
        var lastDate := LastDateField(LastDateText(loaded[|loaded| - 1], ft), ft);
        var name := JoinName(CompactDate(ft.date), lastDate, DashedClock(ft));
        SanitizeCleans(name);
        Some(Sanitize(name))
  }

  /** The name's date part: the first date alone, or first and last when the last is another real date. */
  lemma JoinedDates(last: string, ft: Stamp)
    ensures var ld := LastDate(last, ft);
            var joined := JoinName(CompactDate(ft.date), LastDateField(LastDateText(last, ft), ft), DashedClock(ft));
            (ld.None? || ld.value == ft.date ==> joined == CompactDate(ft.date) + " " + DashedClock(ft) + ".mp3")
            && (ld.Some? && ld.value != ft.date ==>
                  joined == CompactDate(ft.date) + "-" + CompactDate(ld.value) + " " + DashedClock(ft) + ".mp3")
  {
    var ld := LastDate(last, ft);
    if ld.Some? && ld.value != ft.date && CompactDate(ld.value) == CompactDate(ft.date) {
      CompactDateInjective(ld.value, ft.date);
    }
  }

  /** Digits, dashes, a space and `.mp3` need no sanitising. */
  lemma JoinedIsClean(ft: Stamp, other: Date)
    requires other.year >= 0 && other.month >= 0 && other.day >= 0
    ensures IsClean(CompactDate(ft.date) + " " + DashedClock(ft) + ".mp3")
    ensures IsClean(CompactDate(ft.date) + "-" + CompactDate(other) + " " + DashedClock(ft) + ".mp3")
  {
    DigitsAreClean(CompactDate(ft.date));
    DigitsAreClean(CompactDate(other));
    DigitsAreClean(Padded(ft.hour, 2));
    DigitsAreClean(Padded(ft.minute, 2));
  }

  /**
   * The merged file is named `<first YYYYMMDD> <first HH-MM>.mp3` when the last clip is from
   * the same day or its date cannot be read, and `<first YYYYMMDD>-<last YYYYMMDD> <first HH-MM>.mp3`
   * otherwise; nothing in either needs sanitising.
   */
  lemma MergeOutputNameSpec(loaded: seq<string>)
    requires loaded != []
    ensures ParseDateAndTime(loaded[0]).None? ==> MergeOutputName(loaded).None?
    ensures ParseDateAndTime(loaded[0]).Some? ==>
      var ft := ParseDateAndTime(loaded[0]).value;
      var ld := LastDate(loaded[|loaded| - 1], ft);
      MergeOutputName(loaded).Some?
      && (ld.None? || ld.value == ft.date ==>
            MergeOutputName(loaded).value == CompactDate(ft.date) + " " + DashedClock(ft) + ".mp3")
      && (ld.Some? && ld.value != ft.date ==>
            MergeOutputName(loaded).value
            == CompactDate(ft.date) + "-" + CompactDate(ld.value) + " " + DashedClock(ft) + ".mp3")
  {
    if ParseDateAndTime(loaded[0]).Some? {
      var ft := ParseDateAndTime(loaded[0]).value;
      var last := loaded[|loaded| - 1];
      var ld := LastDate(last, ft);
      var joined := JoinName(CompactDate(ft.date), LastDateField(LastDateText(last, ft), ft), DashedClock(ft));
      assert MergeOutputName(loaded) == Some(Sanitize(joined));
      JoinedDates(last, ft);
      JoinedIsClean(ft, if ld.Some? then ld.value else ft.date);
      SanitizeFixesClean(joined);
    }
  }

  /** `convert_mp4_to_mp3`'s output name: the input's `splitext` base with `.mp3`. */
  function ConvertedName(video: string): (r: string)
    ensures EndsWith(r, ".mp3")
  {
    SplitExt(video).0 + ".mp3"
  }

  /** The converted file's own extension is `.mp3` and its base is the video's base. */
  lemma ConvertedNameSplits(video: string)
    requires exists k | 0 <= k < |video| :: video[k] != '.'
    ensures SplitExt(ConvertedName(video)) == (SplitExt(video).0, ".mp3")
  {
    var base := SplitExt(video).0;
    var i := LastIndexOf(video, '.');
    if base != video {
      var k :| 0 <= k < i && video[k] != '.';
      assert base[k] == video[k];
    }
    SplitExtAppend(base, ".mp3");
  }

  /** `remove_silence_from_file`'s output name: the sanitised base, `_nosilence`, the input's extension. */
  function SilenceName(file: string): (r: string)
  {
    Sanitize(SplitExt(file).0) + "_nosilence" + SplitExt(file).1
  }

  /** The output keeps the input's extension, and its base is the sanitised base marked `_nosilence`. */
  lemma SilenceNameSplits(file: string)
    requires SplitExt(file).1 != []
    ensures SplitExt(SilenceName(file)) == (Sanitize(SplitExt(file).0) + "_nosilence", SplitExt(file).1)
    ensures IsClean(SplitExt(SilenceName(file)).0)
  {
    var stem := Sanitize(SplitExt(file).0) + "_nosilence";
    assert stem[|stem| - 10] == '_';
    SanitizeCleans(SplitExt(file).0);
    SplitExtAppend(stem, SplitExt(file).1);
    assert SilenceName(file) == stem + SplitExt(file).1;
  }

  // ------------------------------------------------------------- workers

  /** `f.lower().endswith(ext) and os.path.isfile(f)`. */
  predicate Listed(name: string, ext: string, isFile: string -> bool) {
    EndsWith(Lower(name), ext) && isFile(name)
  }

  /** The directory entries a worker picks up, in listing order. */
  function Pick(listing: seq<string>, ext: string, isFile: string -> bool): (r: seq<string>)
    ensures forall i | 0 <= i < |r| :: r[i] in listing && Listed(r[i], ext, isFile)
    ensures forall x | x in listing && Listed(x, ext, isFile) :: x in r
  {
    if listing == [] then []
    else
      var rest := Pick(listing[..|listing| - 1], ext, isFile);
      var x := listing[|listing| - 1];
      assert forall y | y in listing[..|listing| - 1] :: y in listing;
      assert forall y | y in listing :: y in listing[..|listing| - 1] || y == x;
      rest + if Listed(x, ext, isFile) then [x] else []
  }

  /** A count is positive exactly when some element qualifies. */
  lemma {:induction false} CountPositive<T>(s: seq<T>, p: T -> bool)
    ensures Count(s, p) > 0 <==> exists i | 0 <= i < |s| :: p(s[i])
    decreases |s|
  {
    if s != [] {
      var init := s[..|s| - 1];
      CountPositive(init, p);
      if exists i | 0 <= i < |init| :: p(init[i]) {
        var i :| 0 <= i < |init| && p(init[i]);
        assert s[i] == init[i];
      }
      if exists i | 0 <= i < |s| :: p(s[i]) {
        var i :| 0 <= i < |s| && p(s[i]);
        if i < |s| - 1 {
          assert init[i] == s[i];
        }
      }
    }
  }

  /** How a worker finishes: its success flag, how many files succeeded and how many were handled. */
  datatype WorkerResult = WorkerResult(success: bool, successful: nat, processed: nat)

  /**
   * `ConvertWorker.run`: `None` for a listing that raised. Every `.mp4` file is handled;
   * `converts` answers whether a file existed, its audio loaded and the `.mp3` was written.
   */
  method ConvertRun(listing: Option<seq<string>>, isFile: string -> bool, converts: string -> bool)
    returns (r: WorkerResult)
    ensures listing.None? ==> r == WorkerResult(false, 0, 0)
    ensures listing.Some? ==>
      var mp4 := Pick(listing.value, ".mp4", isFile);
      r.processed == |mp4| && r.successful == Count(mp4, converts)
      && (r.success <==> r.successful > 0 || r.processed == 0)
  {
    if listing.None? {
      return WorkerResult(false, 0, 0);
    }
    var mp4 := Pick(listing.value, ".mp4", isFile);
    if mp4 == [] {
      return WorkerResult(true, 0, 0);
    }
    var successful: nat := 0;
    var processed: nat := 0;
    for i := 0 to |mp4|
      invariant processed == i && successful == Count(mp4[..i], converts)
    {
      assert mp4[..i + 1][..i] == mp4[..i];
      processed := processed + 1;
      if converts(mp4[i]) {
        successful := successful + 1;
      }
    }
    assert mp4[..|mp4|] == mp4;
    return WorkerResult(successful > 0 || processed == 0, successful, processed);
  }

  /** The names silence removal leaves behind, one per file that existed and that ffmpeg processed. */
  function SilenceOutputs(files: seq<string>, present: string -> bool, ffmpegOk: string -> bool): (r: seq<string>)
    ensures |r| == Count(files, f => present(f) && ffmpegOk(f))
  {
    if files == [] then []
    else
      var f := files[|files| - 1];
      SilenceOutputs(files[..|files| - 1], present, ffmpegOk)
      + if present(f) && ffmpegOk(f) then [SilenceName(f)] else []
  }

  /**
   * `RemoveSilenceWorker.run`: fails at once without `ffmpeg.exe`; an empty selection is a
   * success with nothing done; otherwise every file is handled and the output of a failed
   * ffmpeg run is removed, so the outputs reported are those of the successful runs.
   */
  method RemoveSilenceRun(hasFfmpeg: bool, files: seq<string>, present: string -> bool, ffmpegOk: string -> bool)
    returns (r: WorkerResult, outputs: seq<string>)
    ensures !hasFfmpeg ==> r == WorkerResult(false, 0, 0) && outputs == []
    ensures hasFfmpeg ==>
      r.processed == |files| && r.successful == Count(files, f => present(f) && ffmpegOk(f))
      && (r.success <==> r.successful > 0 || r.processed == 0)
      && outputs == SilenceOutputs(files, present, ffmpegOk)
  {
    outputs := [];
    if !hasFfmpeg {
      return WorkerResult(false, 0, 0), outputs;
    }
    if files == [] {
      return WorkerResult(true, 0, 0), outputs;
    }
    var ok := f => present(f) && ffmpegOk(f);
    var successful: nat := 0;
    var processed: nat := 0;
    for i := 0 to |files|
      invariant processed == i && successful == Count(files[..i], ok)
      invariant outputs == SilenceOutputs(files[..i], present, ffmpegOk)
    {
      assert files[..i + 1][..i] == files[..i];
      processed := processed + 1;
      if present(files[i]) && ffmpegOk(files[i]) {
        successful := successful + 1;
        outputs := outputs + [SilenceName(files[i])];
      }
    }
    assert files[..|files|] == files;
    return WorkerResult(successful > 0 || processed == 0, successful, processed), outputs;
  }

  /** A worker reports success exactly when some file succeeded or there was nothing to do. */
  lemma WorkerSuccessMeaning(files: seq<string>, ok: string -> bool, r: WorkerResult)
    requires r.processed == |files| && r.successful == Count(files, ok)
    requires r.success <==> r.successful > 0 || r.processed == 0
    ensures r.success <==> files == [] || exists i | 0 <= i < |files| :: ok(files[i])
  {
    CountPositive(files, ok);
  }

  // ------------------------------------------------------------- organising

  /** What already sits at a folder's path. */
  datatype Occupant = Absent | Directory | RegularFile

  /** One `(HH-MM, filename)` pair of a day's list. */
  datatype Entry = Entry(time: string, name: string)

  function EntryTime(e: Entry): string {
    e.time
  }

  /** `sorted(files_with_time, key = lambda item: item[0])`. */
  function ByClock(entries: seq<Entry>): (r: seq<Entry>)
    ensures SortedBy(r, EntryTime, LexLe) && multiset(r) == multiset(entries) && |r| == |entries|
  {
    LexLeTotal();
    var r := SortBy(entries, EntryTime, LexLe);
    assert |r| == |multiset(r)| == |entries|;
    r
  }

  /** `YYYYMMDD HH-MM` of the day's earliest clock, sanitised. */
  function FolderName(day: string, entries: seq<Entry>): (r: string)
    requires entries != []
    ensures IsClean(r)
  {
    var name := day + " " + ByClock(entries)[0].time;
    SanitizeCleans(name);
    Sanitize(name)
  }

  /** The folder is named after the earliest clock of the day. */
  lemma FolderNameEarliest(day: string, entries: seq<Entry>)
    requires entries != []
    ensures exists e | e in entries :: FolderName(day, entries) == Sanitize(day + " " + e.time)
                                      && forall x | x in entries :: LexLe(e.time, x.time)
  {
    var sorted := ByClock(entries);
    var e := sorted[0];
    assert e in multiset(entries);
    forall x | x in entries ensures LexLe(e.time, x.time) {
      assert x in multiset(sorted);
      var j :| 0 <= j < |sorted| && sorted[j] == x;
      if j > 0 {
        assert LexLe(EntryTime(sorted[0]), EntryTime(sorted[j]));
      } else {
        LexTrichotomy(e.time, e.time);
      }
    }
  }

  /** How `process_date_group` ends: the folder it filled, the moves made and failed, its flag. */
  datatype GroupOutcome = GroupOutcome(folder: Option<string>, moved: nat, errors: nat, success: bool)

  /** A file of the day is moved when its source is still there and the move succeeds. */
  function Movable(present: string -> bool, moveOk: string -> bool): Entry -> bool {
    (e: Entry) => present(e.name) && moveOk(e.name)
  }

  /**
   * `process_date_group`: the entries sorted by clock, the folder named after the earliest
   * one, then every entry moved in turn. A missing source or a failed move is an error that
   * does not stop the others and does not make the group fail; the group fails only when it
   * is empty or a file sits where the folder should be.
   */
  method ProcessDateGroup(day: string, entries: seq<Entry>, occupant: string -> Occupant,
                          present: string -> bool, moveOk: string -> bool)
    returns (r: GroupOutcome)
    ensures r.success <==> entries != [] && occupant(FolderName(day, entries)) != RegularFile
    ensures r.success ==> r.folder == Some(FolderName(day, entries))
                          && r.moved == Count(entries, Movable(present, moveOk))
                          && r.moved + r.errors == |entries|
    ensures !r.success ==> r.folder.None? && r.moved == 0 && r.errors == 0
  {
    if entries == [] {
      return GroupOutcome(None, 0, 0, false);
    }
    var sorted := ByClock(entries);
    var folder := FolderName(day, entries);
    if occupant(folder) == RegularFile {
      return GroupOutcome(None, 0, 0, false);
    }
    var ok := Movable(present, moveOk);
    var moved: nat := 0;
    var errors: nat := 0;
    for i := 0 to |sorted|
      invariant moved == Count(sorted[..i], ok) && moved + errors == i
    {
      assert sorted[..i + 1][..i] == sorted[..i];
      var e := sorted[i];
      if !present(e.name) {
        errors := errors + 1;
      } else if moveOk(e.name) {
        moved := moved + 1;
      } else {
        errors := errors + 1;
      }
    }
    assert sorted[..|sorted|] == sorted;
    CountPermutation(sorted, entries, ok);
    return GroupOutcome(Some(folder), moved, errors, true);
  }

  /** The pair a name contributes: `(HH-MM, name)` when it has a readable date and time. */
  function NameEntry(n: string): (r: seq<Entry>)
    ensures |r| <= 1
    ensures r != [] <==> ParseDateAndTime(n).Some?
    ensures r != [] ==> r[0].name == n && r[0].time == DashedClock(ParseDateAndTime(n).value)
  {
    match ParseDateAndTime(n)
    case Some(t) => [Entry(DashedClock(t), n)]
    case None => []
  }

  /** The organiser's pairs: `(HH-MM, name)` for each name with a readable date and time, in order. */
  function Entries(names: seq<string>): (r: seq<Entry>)
    ensures |r| <= |names|
  {
    if names == [] then [] else Entries(names[..|names| - 1]) + NameEntry(names[|names| - 1])
  }

  /** The pairs of a prefix one name longer. */
  lemma EntriesStep(names: seq<string>, i: nat)
    requires i < |names|
    ensures Entries(names[..i + 1]) == Entries(names[..i]) + NameEntry(names[i])
  {
    assert names[..i + 1][..i] == names[..i];
  }

  /** The `YYYYMMDD` day an entry's name gives (empty for a name without one, which never occurs). */
  function EntryDay(e: Entry): string {
    match ParseDateAndTime(e.name)
    case Some(t) => CompactDate(t.date)
    case None => ""
  }

  /** Files the pair of the `i`-th name, if it has one, keeping the grouping of the pairs before it. */
  method FileName(names: seq<string>, i: nat, days: seq<string>, groups: map<string, seq<Entry>>)
    returns (days': seq<string>, groups': map<string, seq<Entry>>)
    requires i < |names| && Grouped(Entries(names[..i]), EntryDay, days, groups)
    ensures Grouped(Entries(names[..i + 1]), EntryDay, days', groups')
  {
    ghost var before := Entries(names[..i]);
    EntriesStep(names, i);
    var pair := NameEntry(names[i]);
    if pair == [] {
      assert Entries(names[..i + 1]) == before;
      return days, groups;
    }
    var e := pair[0];
    assert Entries(names[..i + 1]) == before + [e];
    var day := EntryDay(e);
    if day in groups {
      GroupedSnocKnown(before, e, EntryDay, days, groups);
      days', groups' := days, groups[day := groups[day] + [e]];
    } else {
      GroupedSnocNew(before, e, EntryDay, days, groups);
      days', groups' := days + [day], groups[day := [e]];
    }
  }

  /**
   * The grouping loop of `OrganizeWorker.run`: names without a readable date and time are
   * ignored; the others go, as `(HH-MM, name)`, to the list of their `YYYYMMDD` day.
   */
  method GroupByDay(names: seq<string>) returns (days: seq<string>, groups: map<string, seq<Entry>>)
    ensures Grouped(Entries(names), EntryDay, days, groups)
  {
    days := [];
    groups := map[];
    for i := 0 to |names|
      invariant Grouped(Entries(names[..i]), EntryDay, days, groups)
    {
      days, groups := FileName(names, i, days, groups);
    }
    assert names[..|names|] == names;
  }

  /** How `OrganizeWorker.run` finishes: its flag, the folders filled and the archives made. */
  datatype OrganizeResult = OrganizeResult(success: bool, folders: nat, archives: nat)

  /** A day's group is filled: it has entries and no file blocks its folder. */
  function GroupFills(groups: map<string, seq<Entry>>, occupant: string -> Occupant): string -> bool {
    day => day in groups && groups[day] != [] && occupant(FolderName(day, groups[day])) != RegularFile
  }

  /** The folders of the filled groups, in the order of their days. */
  function FilledFolders(days: seq<string>, groups: map<string, seq<Entry>>, occupant: string -> Occupant): (r: seq<string>)
    ensures |r| == Count(days, GroupFills(groups, occupant))
  {
    if days == [] then []
    else
      var d := days[|days| - 1];
      FilledFolders(days[..|days| - 1], groups, occupant)
      + if GroupFills(groups, occupant)(d) then [FolderName(d, groups[d])] else []
  }

  /** The filled folders of a prefix one day longer. */
  lemma FilledFoldersStep(days: seq<string>, i: nat, groups: map<string, seq<Entry>>, occupant: string -> Occupant)
    requires i < |days|
    ensures FilledFolders(days[..i + 1], groups, occupant)
            == FilledFolders(days[..i], groups, occupant)
               + if GroupFills(groups, occupant)(days[i]) then [FolderName(days[i], groups[days[i]])] else []
  {
    assert days[..i + 1][..i] == days[..i];
  }

  /**
   * `OrganizeWorker.run`: the `.mp3` files of the listing grouped by day; with no group the
   * run ends as a success with nothing done; otherwise every day's group is processed, the
   * filled folders are counted, and when 7-Zip is there each of them is archived and the
   * archives that succeed are counted.
   */
  method OrganizeRun(listing: Option<seq<string>>, isFile: string -> bool, hasSevenZip: bool,
                     occupant: string -> Occupant, present: string -> bool, moveOk: string -> bool,
                     archiveOk: string -> bool)
    returns (r: OrganizeResult)
    ensures listing.None? ==> r == OrganizeResult(false, 0, 0)
    ensures listing.Some? ==> r.success
    ensures listing.Some? && Entries(Pick(listing.value, ".mp3", isFile)) == [] ==> r == OrganizeResult(true, 0, 0)
    ensures listing.Some? ==>
      var entries := Entries(Pick(listing.value, ".mp3", isFile));
      var days := FirstOccurrences(entries, EntryDay);
      var groups := map k | k in days :: Filter(entries, EntryDay, k);
      r.folders == Count(days, GroupFills(groups, occupant))
    ensures listing.Some? ==>
      var entries := Entries(Pick(listing.value, ".mp3", isFile));
      var days := FirstOccurrences(entries, EntryDay);
      var groups := map k | k in days :: Filter(entries, EntryDay, k);
      r.archives == if hasSevenZip then Count(FilledFolders(days, groups, occupant), archiveOk) else 0
    ensures r.archives <= r.folders
  {
    if listing.None? {
      return OrganizeResult(false, 0, 0);
    }
    var mp3 := Pick(listing.value, ".mp3", isFile);
    var days, groups := GroupByDay(mp3);
    ghost var entries := Entries(mp3);
    assert groups == map k | k in days :: Filter(entries, EntryDay, k);
    if days == [] {
      return OrganizeResult(true, 0, 0);
    }
    var filled := ProcessGroups(days, groups, occupant, present, moveOk);
    var archives: nat := 0;
    if hasSevenZip && filled != [] {
      archives := ArchiveAll(filled, archiveOk);
    }
    return OrganizeResult(true, |filled|, archives);
  }

  /** The loop over the days of `OrganizeWorker.run`: each day's group processed, the filled folders kept in order. */
  method ProcessGroups(days: seq<string>, groups: map<string, seq<Entry>>, occupant: string -> Occupant,
                       present: string -> bool, moveOk: string -> bool)
    returns (filled: seq<string>)
    requires forall d | d in days :: d in groups
    ensures filled == FilledFolders(days, groups, occupant)
  {
    filled := [];
    for i := 0 to |days|
      invariant filled == FilledFolders(days[..i], groups, occupant)
    {
      FilledFoldersStep(days, i, groups, occupant);
      var outcome := ProcessDateGroup(days[i], groups[days[i]], occupant, present, moveOk);
      if outcome.success && outcome.folder.Some? {
        filled := filled + [outcome.folder.value];
      }
    }
    assert days[..|days|] == days;
  }

  /** The archiving loop of `OrganizeWorker.run`: one `create_zip_archive` per filled folder, the successes counted. */
  method ArchiveAll(filled: seq<string>, archiveOk: string -> bool) returns (archives: nat)
    ensures archives == Count(filled, archiveOk)
  {
    archives := 0;
    for j := 0 to |filled|
      invariant archives == Count(filled[..j], archiveOk)
    {
      CountStep(filled, j, archiveOk);
      if archiveOk(filled[j]) {
        archives := archives + 1;
      }
    }
    assert filled[..|filled|] == filled;
  }

  // ------------------------------------------------------------- main window

  /** The part of the main window that counts running workers and locks the buttons meanwhile. */
  class MainWindow {
    var currentWorkers: int
    var buttonsEnabled: bool

    /** The buttons are enabled exactly when no worker runs. */
    predicate Valid()
      reads this
    {
      currentWorkers >= 0 && (buttonsEnabled <==> currentWorkers == 0)
    }

    constructor ()
      ensures Valid() && currentWorkers == 0
    {
      currentWorkers := 0;
      buttonsEnabled := true;
    }

    /** `startTask`: one more worker runs and the buttons are locked. */
    method StartTask()
      requires Valid()
      modifies this
      ensures Valid() && currentWorkers == old(currentWorkers) + 1 && !buttonsEnabled
    {
      currentWorkers := currentWorkers + 1;
      buttonsEnabled := false;
    }

    /** `onTaskFinished`: one worker fewer, never below zero; the buttons come back with the last one. */
    method OnTaskFinished()
      requires Valid()
      modifies this
      ensures Valid()
      ensures currentWorkers == if old(currentWorkers) > 0 then old(currentWorkers) - 1 else 0
      ensures buttonsEnabled <==> old(currentWorkers) <= 1
    {
      currentWorkers := currentWorkers - 1;
      if currentWorkers <= 0 {
        currentWorkers := 0;
        buttonsEnabled := true;
      }
    }
  }
}
