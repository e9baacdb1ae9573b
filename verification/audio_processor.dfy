/**
 * The processing engine (audio_processor.py): building the library from a
 * directory, reading recording times out of file names, and the five task
 * handlers run through one dispatcher that moves the targeted files through
 * PROCESSING to PROCESSED or FAILED.
 *
 * The file system and the external programs are parameters: a `Disk` answers
 * what the directory calls would (which paths exist, listings, stat results,
 * whether a rename succeeds) and `Tools` says which programs are installed and
 * whether each call of one succeeds. The thread pools become loops in task order.
 */
module AudioProcessor {
  import opened Wrappers
  import opened Text
  import opened Calendar
  import opened DateText
  import opened Collections
  import opened AudioModels

  /** What the engine asks of the file system. */
  datatype Disk = Disk(
    home: Path,
    cwd: Path,
    present: Path -> bool,
    isFile: Path -> bool,
    listing: Path -> seq<string>,
    mtime: Path -> Stamp,
    sizeOf: Path -> nat,
    renames: (Path, Path) -> bool)

  /** The external programs: whether each is installed, and whether a call of it succeeds. */
  datatype Tools = Tools(
    hasFfmpeg: bool,
    hasSevenzip: bool,
    convertToMp3: (Path, Path) -> bool,
    mergeAudio: (seq<Path>, Path) -> bool,
    removeSilence: (Path, Path, string, string) -> bool,
    createArchive: (Path, Path) -> bool)

  /** A rename (or an archive written from a directory): from where, to where. */
  datatype Move = Move(source: Path, target: Path)

  // ----------------------------------------------------------------- file names

  /** The separators the filename pattern accepts between date and time. */
  const Seps: set<char> := {'_', ' '}

  /**
   * `_create_audio_file`'s timestamp: without a match the file's mtime; with one, the
   * `strptime` of both groups with `%S` required, so a match without seconds, or with
   * fields no calendar has, makes the file unusable (`None`).
   */
  function ExtractTimestamp(name: string, mtime: Stamp): Option<Stamp> {
    match Search(name, Seps, 0)
    case None => Some(mtime)
    case Some(m) =>
      if m.hasSeconds && DateAccepted(MatchedDate(name, m, Seps)) && ClockAccepted(MatchedTime(name, m, Seps)) then
        var t: Stamp := MatchedTime(name, m, Seps);
        Some(t)
      else None
  }

  /**
   * What the timestamp read from a name means: a name without the pattern keeps the mtime;
   * one with it yields a time only when the seconds are there, and printing that time
   * back gives exactly the two groups the pattern captured.
   */
  lemma ExtractTimestampSpec(name: string, mtime: Stamp)
    ensures Search(name, Seps, 0).None? ==> ExtractTimestamp(name, mtime) == Some(mtime)
    ensures Search(name, Seps, 0).Some? && ExtractTimestamp(name, mtime).Some? ==>
      var m := Search(name, Seps, 0).value;
      var t := ExtractTimestamp(name, mtime).value;
      m.hasSeconds
      && IsoDate(t.date) == DateGroup(name, m, Seps)
      && DashedClock(t) + "-" + Padded(t.second, 2) == TimeGroup(name, m, Seps)
  {
    var r := Search(name, Seps, 0);
    if r.Some? && ExtractTimestamp(name, mtime).Some? {
      DateGroupRoundTrip(name, r.value, Seps);
      TimeGroupRoundTrip(name, r.value, Seps);
    }
  }

  /** The name a recorder gives a file made at `t`: `%Y-%m-%d<sep>%H-%M-%S`. */
  function StampName(t: Stamp, sep: char): string {
    IsoDate(t.date) + [sep] + DashedClock(t) + "-" + Padded(t.second, 2)
  }

  /** The digits of a stamp's fields take their fixed widths. */
  lemma StampFieldWidths(t: Stamp)
    ensures |Padded(t.date.year, 4)| == 4 && |Padded(t.date.month, 2)| == 2 && |Padded(t.date.day, 2)| == 2
    ensures |Padded(t.hour, 2)| == 2 && |Padded(t.minute, 2)| == 2 && |Padded(t.second, 2)| == 2
  {
    IsoDateShape(t.date);
    Pow10Values();
    PaddedLength(t.hour, 2);
    PaddedLength(t.minute, 2);
    PaddedLength(t.second, 2);
  }

  /** Reading a padded field back out of a longer text. */
  lemma FieldOfPadded(s: string, i: nat, n: nat, width: nat)
    requires i + width <= |s| && |Padded(n, width)| == width && s[i..i + width] == Padded(n, width)
    ensures DigitsAt(s, i, width) && FieldAt(s, i, width) == n
  {
    ValueOfPadded(n, width);
  }

  /** A printed date inside a text: its three digit fields read back as the date. */
  lemma DatePieces(s: string, i: nat, t: Stamp)
    requires i + 10 <= |s| && s[i..i + 10] == IsoDate(t.date)
    ensures DigitsAt(s, i, 4) && s[i + 4] == '-' && DigitsAt(s, i + 5, 2) && s[i + 7] == '-' && DigitsAt(s, i + 8, 2)
    ensures FieldAt(s, i, 4) == t.date.year && FieldAt(s, i + 5, 2) == t.date.month && FieldAt(s, i + 8, 2) == t.date.day
  {
    StampFieldWidths(t);
    var y, mo, d := Padded(t.date.year, 4), Padded(t.date.month, 2), Padded(t.date.day, 2);
    PieceIn(s, i, i + 10, y + "-" + mo + "-", d);
    PieceIn(s, i, i + 8, y + "-" + mo, "-");
    PieceIn(s, i, i + 7, y + "-", mo);
    PieceIn(s, i, i + 5, y, "-");
    assert s[i + 4] == s[i + 4..i + 5][0] && s[i + 7] == s[i + 7..i + 8][0];
    FieldOfPadded(s, i, t.date.year, 4);
    FieldOfPadded(s, i + 5, t.date.month, 2);
    FieldOfPadded(s, i + 8, t.date.day, 2);
  }

  /** A printed `HH-MM` inside a text: its two digit fields read back as hour and minute. */
  lemma ClockPieces(s: string, i: nat, t: Stamp)
    requires i + 5 <= |s| && s[i..i + 5] == DashedClock(t)
    ensures DigitsAt(s, i, 2) && s[i + 2] == '-' && DigitsAt(s, i + 3, 2)
    ensures FieldAt(s, i, 2) == t.hour && FieldAt(s, i + 3, 2) == t.minute
  {
    StampFieldWidths(t);
    var h, mi := Padded(t.hour, 2), Padded(t.minute, 2);
    PieceIn(s, i, i + 5, h + "-", mi);
    PieceIn(s, i, i + 3, h, "-");
    assert s[i + 2] == s[i + 2..i + 3][0];
    FieldOfPadded(s, i, t.hour, 2);
    FieldOfPadded(s, i + 3, t.minute, 2);
  }

  /** Where the parts of a recorder's name sit. */
  lemma StampNameLayout(t: Stamp, sep: char, rest: string)
    ensures var s := StampName(t, sep) + rest;
            |s| >= 19 && s[0..10] == IsoDate(t.date) && s[10] == sep && s[11..16] == DashedClock(t)
            && s[16] == '-' && s[17..19] == Padded(t.second, 2)
  {
    StampFieldWidths(t);
    var a1 := IsoDate(t.date);
    var a2 := a1 + [sep];
    var a3 := a2 + DashedClock(t);
    var a4 := a3 + "-";
    var n := a4 + Padded(t.second, 2);
    var s := n + rest;
    PieceIn(s, 0, |s|, n, rest);
    PieceIn(s, 0, 19, a4, Padded(t.second, 2));
    PieceIn(s, 0, 17, a3, "-");
    PieceIn(s, 0, 16, a2, DashedClock(t));
    PieceIn(s, 0, 11, a1, [sep]);
    assert s[10] == s[10..11][0] && s[16] == s[16..17][0];
  }

  /**
   * A file named after its recording time, behind any words without digits and before
   * anything at all, is dated by the stamp in its name and not by its mtime: `re.search`
   * finds the stamp wherever it stands.
   */
  lemma StampNameRoundTrip(prefix: string, t: Stamp, sep: char, rest: string, mtime: Stamp)
    requires sep in Seps && forall c | c in prefix :: !IsDigit(c)
    ensures ExtractTimestamp(prefix + StampName(t, sep) + rest, mtime) == Some(t)
  {
    var s := prefix + StampName(t, sep) + rest;
    var p := |prefix|;
    StampFieldWidths(t);
    assert s[p..p + 19] == StampName(t, sep);
    StampAt(s, p, t, sep);
    NoStampInWords(prefix, s);
    FirstStamp(s, p);
  }

  /** A recorder's name inside a text: the pattern matches there with seconds, and spells `t`. */
  lemma StampAt(s: string, p: nat, t: Stamp, sep: char)
    requires sep in Seps && p + 19 <= |s| && s[p..p + 19] == StampName(t, sep)
    ensures CoreAt(s, p, Seps) && SecondsAt(s, p) && MatchedTime(s, Match(p, true), Seps) == t
  {
    var n := StampName(t, sep);
    StampNameLayout(t, sep, []);
    assert n + [] == n;
    SliceOfSlice(s, p, p + 19, 0, 10);
    SliceOfSlice(s, p, p + 19, 11, 16);
    SliceOfSlice(s, p, p + 19, 17, 19);
    assert s[p + 10] == n[10] && s[p + 16] == n[16];
    DatePieces(s, p, t);
    ClockPieces(s, p + 11, t);
    FieldOfPadded(s, p + 17, t.second, 2);
  }

  /** `re.search` finds the first place the pattern matches. */
  lemma FirstStamp(s: string, p: nat)
    requires CoreAt(s, p, Seps) && forall j | 0 <= j < p :: !CoreAt(s, j, Seps)
    ensures Search(s, Seps, 0) == Some(Match(p, SecondsAt(s, p)))
  {
    var r := Search(s, Seps, 0);
    assert r.Some?;
    assert !(r.value.start < p);
    assert !(p < r.value.start);
  }

  /** The pattern cannot start inside a leading run of text without digits. */
  lemma NoStampInWords(prefix: string, s: string)
    requires prefix <= s && forall c | c in prefix :: !IsDigit(c)
    ensures forall j | 0 <= j < |prefix| :: !CoreAt(s, j, Seps)
  {
    forall j | 0 <= j < |prefix| ensures !CoreAt(s, j, Seps) {
      assert s[j] == prefix[j];
      if j + 4 <= |s| {
        assert s[j..j + 4][0] == s[j];
      }
    }
  }

  // ------------------------------------------------------------------ scanning

  /** The extensions of `scan_directory`'s glob patterns, in the order it globs them. */
  const ScanExtensions: seq<string> := ["mp3", "mp4", "wav", "m4a", "flac", "ogg", "avi", "mov", "mkv"]

  /** The name matches the glob `*.<ext>`. */
  predicate GlobMatches(name: string, ext: string) {
    EndsWith(name, "." + ext)
  }

  predicate MatchesSome(name: string, exts: seq<string>) {
    exists e | e in exts :: GlobMatches(name, e)
  }

  /** The directory entry `name` becomes a library member: a media file whose timestamp can be read. */
  predicate Admitted(disk: Disk, dir: Path, name: string) {
    disk.isFile(dir + [name]) && ExtractTimestamp(name, disk.mtime(dir + [name])).Some?
  }

  /** The four places `find_obs_save_location` looks, in its order. */
  function ObsCandidates(home: Path): seq<Path> {
    [home + ["Movies"], home + ["Videos"], home + ["Documents", "OBS"], home + ["Desktop"]]
  }

  /** Some entry of the listing matches `*.mp4`. */
  predicate HasRecordings(names: seq<string>) {
    exists n | n in names :: GlobMatches(n, "mp4")
  }

  /** A place that exists and holds recordings. */
  predicate Qualifies(disk: Disk, p: Path) {
    disk.present(p) && HasRecordings(disk.listing(p))
  }

  /** `Path(source_dir)`: the named components of the string. */
  function ToPath(s: string): Path {
    RelParts(s)
  }

  /** The first of the places that exists and holds an `*.mp4`, or none. */
  function FirstQualifying(disk: Disk, places: seq<Path>): Option<Path> {
    if places == [] then None
    else if Qualifies(disk, places[0]) then Some(places[0])
    else FirstQualifying(disk, places[1..])
  }

  /** Where `_import_files` takes recordings from: the given `source_dir`, else the first usual place. */
  function ImportSource(disk: Disk, task: ProcessingTask): Option<Path> {
    if task.params.sourceDir.GetOr("") != "" then Some(ToPath(task.params.sourceDir.value))
    else FirstQualifying(disk, ObsCandidates(disk.home))
  }

  // ------------------------------------------------------------- handler outputs

  /** Where `_convert_files` writes the MP3 made from `f`. */
  function ConvertTarget(f: AudioFile, dir: Path): Path {
    dir + [Stem(Name(f.path)) + ".mp3"]
  }

  /** `_convert_files` converts `f` (it is not an MP3) and the converter reports success. */
  predicate Converts(tools: Tools, f: AudioFile, dir: Path) {
    f.format != "mp3" && tools.convertToMp3(f.path, ConvertTarget(f, dir))
  }

  /** The outputs of the successful conversions, in task order. */
  function ConvertOutputs(tools: Tools, fs: seq<AudioFile>, dir: Path): seq<Path> {
    if fs == [] then []
    else
      var f := fs[|fs| - 1];
      ConvertOutputs(tools, fs[..|fs| - 1], dir) + (if Converts(tools, f, dir) then [ConvertTarget(f, dir)] else [])
  }

  /** Each output is the MP3 of a converted file of the task, and every converted file has its output. */
  lemma {:induction false} ConvertOutputsSpec(tools: Tools, fs: seq<AudioFile>, dir: Path)
    ensures |ConvertOutputs(tools, fs, dir)| <= |fs|
    ensures forall p | p in ConvertOutputs(tools, fs, dir) ::
      exists f | f in fs :: Converts(tools, f, dir) && p == ConvertTarget(f, dir)
    ensures forall f | f in fs && Converts(tools, f, dir) :: ConvertTarget(f, dir) in ConvertOutputs(tools, fs, dir)
    decreases |fs|
  {
    if fs != [] {
      var p := fs[..|fs| - 1];
      ConvertOutputsSpec(tools, p, dir);
      assert fs == p + [fs[|fs| - 1]];
    }
  }

  /** Some output is listed exactly when some file converts. */
  lemma ConvertOutputsNonEmpty(tools: Tools, fs: seq<AudioFile>, dir: Path)
    ensures ConvertOutputs(tools, fs, dir) != [] <==> exists f | f in fs :: Converts(tools, f, dir)
  {
    ConvertOutputsSpec(tools, fs, dir);
    var outputs := ConvertOutputs(tools, fs, dir);
    if outputs != [] {
      assert outputs[0] in outputs;
    }
  }

  /** One more file of the task: its output, if any, goes after the outputs of the files before it. */
  lemma ConvertOutputsStep(tools: Tools, fs: seq<AudioFile>, i: nat, dir: Path)
    requires i < |fs|
    ensures ConvertOutputs(tools, fs[..i + 1], dir)
      == ConvertOutputs(tools, fs[..i], dir) + (if Converts(tools, fs[i], dir) then [ConvertTarget(fs[i], dir)] else [])
    ensures forall g | g in fs[..i + 1] :: g in fs[..i] || g == fs[i]
  {
    assert fs[..i + 1] == fs[..i] + [fs[i]];
    assert fs[..i + 1][..i] == fs[..i];
  }

  /** `g` is the MP3 `_convert_files` records for `f`: its path, `f`'s timestamp, and `f` as its source. */
  predicate MadeFrom(g: AudioFile, f: AudioFile, dir: Path) {
    g.path == ConvertTarget(f, dir) && g.timestamp == f.timestamp && g.sourceFile == Some(f.path)
  }

  /** `g` is the MP3 recorded for some file of `fs` that converted. */
  ghost predicate ConvertedFrom(tools: Tools, g: AudioFile, fs: seq<AudioFile>, dir: Path) {
    exists f | f in fs :: Converts(tools, f, dir) && MadeFrom(g, f, dir)
  }

  /** Each member of `now` that `start` did not hold is an UNPROCESSED MP3 made from a file of `fs` that converted. */
  ghost predicate Gained(tools: Tools, start: set<AudioFile>, now: set<AudioFile>, fs: seq<AudioFile>, dir: Path)
    reads now - start
  {
    forall g | g in now && g !in start :: g.state == Unprocessed && ConvertedFrom(tools, g, fs, dir)
  }

  lemma GainedAdd(tools: Tools, start: set<AudioFile>, now: set<AudioFile>, fs: seq<AudioFile>, dir: Path, g: AudioFile)
    requires Gained(tools, start, now, fs, dir) && g.state == Unprocessed && ConvertedFrom(tools, g, fs, dir)
    ensures Gained(tools, start, now + {g}, fs, dir)
  {
  }

  /** Whether `f` converts, as a function value to count with. */
  function ConvertsIn(tools: Tools, dir: Path): AudioFile -> bool {
    (f: AudioFile) => Converts(tools, f, dir)
  }

  /** One output per file that converts. */
  lemma {:induction false} ConvertOutputsCount(tools: Tools, fs: seq<AudioFile>, dir: Path)
    ensures |ConvertOutputs(tools, fs, dir)| == Count(fs, ConvertsIn(tools, dir))
    decreases |fs|
  {
    if fs != [] {
      ConvertOutputsCount(tools, fs[..|fs| - 1], dir);
    }
  }

  /** Where `_remove_silence` writes the trimmed copy of `f`. */
  function SilenceTarget(f: AudioFile, dir: Path): Path {
    dir + ["nosilence_" + Name(f.path)]
  }

  /** The outputs of the successful silence removals, in task order. */
  function SilenceOutputs(tools: Tools, fs: seq<AudioFile>, dir: Path, threshold: string, duration: string): seq<Path> {
    if fs == [] then []
    else
      var f := fs[|fs| - 1];
      var ok := tools.removeSilence(f.path, SilenceTarget(f, dir), threshold, duration);
      SilenceOutputs(tools, fs[..|fs| - 1], dir, threshold, duration) + (if ok then [SilenceTarget(f, dir)] else [])
  }

  lemma {:induction false} SilenceOutputsSpec(tools: Tools, fs: seq<AudioFile>, dir: Path, threshold: string, duration: string)
    ensures |SilenceOutputs(tools, fs, dir, threshold, duration)| <= |fs|
    ensures forall p | p in SilenceOutputs(tools, fs, dir, threshold, duration) ::
      exists f | f in fs :: tools.removeSilence(f.path, p, threshold, duration) && p == SilenceTarget(f, dir)
    ensures forall f | f in fs && tools.removeSilence(f.path, SilenceTarget(f, dir), threshold, duration) ::
      SilenceTarget(f, dir) in SilenceOutputs(tools, fs, dir, threshold, duration)
    decreases |fs|
  {
    if fs != [] {
      var p := fs[..|fs| - 1];
      SilenceOutputsSpec(tools, p, dir, threshold, duration);
      assert fs == p + [fs[|fs| - 1]];
    }
  }

  /** Some output is listed exactly when some trim succeeds. */
  lemma SilenceOutputsNonEmpty(tools: Tools, fs: seq<AudioFile>, dir: Path, threshold: string, duration: string)
    ensures SilenceOutputs(tools, fs, dir, threshold, duration) != [] <==>
      exists f | f in fs :: tools.removeSilence(f.path, SilenceTarget(f, dir), threshold, duration)
  {
    SilenceOutputsSpec(tools, fs, dir, threshold, duration);
    var outputs := SilenceOutputs(tools, fs, dir, threshold, duration);
    if outputs != [] {
      assert outputs[0] in outputs;
    }
  }

  /** The silence threshold and minimum duration `_remove_silence` passes on, with their defaults. */
  function Threshold(task: ProcessingTask): string {
    task.params.threshold.GetOr("-55dB")
  }

  function Duration(task: ProcessingTask): string {
    task.params.duration.GetOr("0.1")
  }

  /** Whether trimming `f` succeeds, as a function value to count with. */
  function TrimsIn(tools: Tools, dir: Path, threshold: string, duration: string): AudioFile -> bool {
    (f: AudioFile) => tools.removeSilence(f.path, SilenceTarget(f, dir), threshold, duration)
  }

  /** One output per file whose trimming succeeds. */
  lemma {:induction false} SilenceOutputsCount(tools: Tools, fs: seq<AudioFile>, dir: Path, threshold: string, duration: string)
    ensures |SilenceOutputs(tools, fs, dir, threshold, duration)| == Count(fs, TrimsIn(tools, dir, threshold, duration))
    decreases |fs|
  {
    if fs != [] {
      SilenceOutputsCount(tools, fs[..|fs| - 1], dir, threshold, duration);
    }
  }

  /** The imported paths: each `*.mp4` of the listing whose rename into `dir` succeeded, in listing order. */
  function Imported(disk: Disk, src: Path, names: seq<string>, dir: Path): seq<Path> {
    if names == [] then []
    else
      var n := names[|names| - 1];
      var ok := GlobMatches(n, "mp4") && disk.renames(src + [n], dir + [n]);
      Imported(disk, src, names[..|names| - 1], dir) + (if ok then [dir + [n]] else [])
  }

  lemma {:induction false} ImportedSpec(disk: Disk, src: Path, names: seq<string>, dir: Path)
    ensures |Imported(disk, src, names, dir)| <= |names|
    ensures forall p | p in Imported(disk, src, names, dir) ::
      exists n | n in names :: GlobMatches(n, "mp4") && disk.renames(src + [n], dir + [n]) && p == dir + [n]
    ensures forall n | n in names && GlobMatches(n, "mp4") && disk.renames(src + [n], dir + [n]) ::
      dir + [n] in Imported(disk, src, names, dir)
    decreases |names|
  {
    if names != [] {
      var p := names[..|names| - 1];
      ImportedSpec(disk, src, p, dir);
      assert names == p + [names[|names| - 1]];
    }
  }

  /** Some recording is imported exactly when some `*.mp4` of the listing is moved. */
  lemma ImportedNonEmpty(disk: Disk, src: Path, names: seq<string>, dir: Path)
    ensures Imported(disk, src, names, dir) != [] <==>
      exists n | n in names :: GlobMatches(n, "mp4") && disk.renames(src + [n], dir + [n])
  {
    ImportedSpec(disk, src, names, dir);
    var imported := Imported(disk, src, names, dir);
    if imported != [] {
      assert imported[0] in imported;
    }
  }

  /** `merged_<first %Y%m%d_%H%M%S>_to_<last %H%M%S>.mp3`. */
  function MergedName(first: Stamp, last: Stamp): string {
    "merged_" + CompactDate(first.date) + "_" + CompactClock(first) + "_to_" + CompactClock(last) + ".mp3"
  }

  /** `%H%M%S` read back: equal clocks print equal texts and no others. */
  lemma CompactClockInjective(a: Stamp, b: Stamp)
    requires CompactClock(a) == CompactClock(b)
    ensures a.hour == b.hour && a.minute == b.minute && a.second == b.second
  {
    StampFieldWidths(a);
    StampFieldWidths(b);
    var ha, ma, sa := Padded(a.hour, 2), Padded(a.minute, 2), Padded(a.second, 2);
    var hb, mb, sb := Padded(b.hour, 2), Padded(b.minute, 2), Padded(b.second, 2);
    ConcatInjective(ha + ma, sa, hb + mb, sb);
    ConcatInjective(ha, ma, hb, mb);
    PaddedInjective(a.hour, b.hour, 2);
    PaddedInjective(a.minute, b.minute, 2);
    PaddedInjective(a.second, b.second, 2);
  }

  /** `%Y%m%d` read back. */
  lemma CompactDateInjective(a: Stamp, b: Stamp)
    requires CompactDate(a.date) == CompactDate(b.date)
    ensures a.date == b.date
  {
    StampFieldWidths(a);
    StampFieldWidths(b);
    var ya, ma, da := Padded(a.date.year, 4), Padded(a.date.month, 2), Padded(a.date.day, 2);
    var yb, mb, db := Padded(b.date.year, 4), Padded(b.date.month, 2), Padded(b.date.day, 2);
    ConcatInjective(ya + ma, da, yb + mb, db);
    ConcatInjective(ya, ma, yb, mb);
    PaddedInjective(a.date.year, b.date.year, 4);
    PaddedInjective(a.date.month, b.date.month, 2);
    PaddedInjective(a.date.day, b.date.day, 2);
  }

  /** The merged file's name fixes the first recording's date and time and the last one's time of day. */
  lemma MergedNameInjective(a: Stamp, b: Stamp, c: Stamp, d: Stamp)
    requires MergedName(a, c) == MergedName(b, d)
    ensures a == b
    ensures c.hour == d.hour && c.minute == d.minute && c.second == d.second
  {
    StampFieldWidths(a);
    StampFieldWidths(b);
    StampFieldWidths(c);
    StampFieldWidths(d);
    var pa := "merged_" + CompactDate(a.date) + "_" + CompactClock(a) + "_to_";
    var pb := "merged_" + CompactDate(b.date) + "_" + CompactClock(b) + "_to_";
    ConcatInjective(pa + CompactClock(c), ".mp3", pb + CompactClock(d), ".mp3");
    ConcatInjective(pa, CompactClock(c), pb, CompactClock(d));
    CompactClockInjective(c, d);
    var qa := "merged_" + CompactDate(a.date) + "_";
    var qb := "merged_" + CompactDate(b.date) + "_";
    ConcatInjective(qa + CompactClock(a), "_to_", qb + CompactClock(b), "_to_");
    ConcatInjective(qa, CompactClock(a), qb, CompactClock(b));
    CompactClockInjective(a, b);
    ConcatInjective("merged_" + CompactDate(a.date), "_", "merged_" + CompactDate(b.date), "_");
    ConcatInjective("merged_", CompactDate(a.date), "merged_", CompactDate(b.date));
    CompactDateInjective(a, b);
  }

  /** The merged MP3 in the output directory, named after the first and last recording. */
  function MergeTarget(dir: Path, order: seq<AudioFile>): Path
    requires order != []
  {
    dir + [MergedName(order[0].timestamp, order[|order| - 1].timestamp)]
  }

  /** What `_merge_files` reports once the merge tool has answered `ok`. */
  function MergeResult(task: ProcessingTask, order: seq<AudioFile>, ok: bool): TaskResult
    requires order != []
  {
    TaskResult(task, ok, if ok then [MergeTarget(task.outputDir, order)] else [], None, if ok then |task.files| else 0)
  }

  /** `[f.path for f in files]`. */
  function PathsOf(fs: seq<AudioFile>): (r: seq<Path>)
    ensures |r| == |fs| && forall i | 0 <= i < |fs| :: r[i] == fs[i].path
  {
    if fs == [] then [] else PathsOf(fs[..|fs| - 1]) + [fs[|fs| - 1].path]
  }

  /** The date key as a function value, the grouping key of `_organize_files`. */
  function DateKeyOf(f: AudioFile): string {
    f.DateKey()
  }

  /** `date_dir / audio_file.path.name`. */
  function MoveInto(f: AudioFile, dir: Path): Move {
    Move(f.path, dir + [Name(f.path)])
  }

  /** The move `_organize_files` makes of `f`: into the folder named after its date. */
  function OrganizeMove(f: AudioFile, out: Path): Move {
    MoveInto(f, out + [DateKeyOf(f)])
  }

  /** `m` is the move of some file of `fs`. */
  ghost predicate MovesSomeFile(m: Move, fs: seq<AudioFile>, out: Path) {
    exists j | 0 <= j < |fs| :: m == OrganizeMove(fs[j], out)
  }

  /** The date folders `<out>/<key>`, one per key in order. */
  function DateDirs(out: Path, keys: seq<string>): seq<Path> {
    if keys == [] then [] else DateDirs(out, keys[..|keys| - 1]) + [out + [keys[|keys| - 1]]]
  }

  /** Folder `i` belongs to key `i`. */
  lemma {:induction false} DateDirsSpec(out: Path, keys: seq<string>)
    ensures |DateDirs(out, keys)| == |keys|
    ensures forall i | 0 <= i < |keys| :: DateDirs(out, keys)[i] == out + [keys[i]]
    decreases |keys|
  {
    if keys != [] {
      DateDirsSpec(out, keys[..|keys| - 1]);
    }
  }

  /** The archive steps: each date folder `<out>/<key>` packed into `<out>/<key>.7z`. */
  function ArchiveMoves(out: Path, keys: seq<string>): seq<Move> {
    if keys == [] then []
    else
      var k := keys[|keys| - 1];
      ArchiveMoves(out, keys[..|keys| - 1]) + [Move(out + [k], out + [k + ".7z"])]
  }

  /** Archive `i` packs the folder of key `i`. */
  lemma {:induction false} ArchiveMovesSpec(out: Path, keys: seq<string>)
    ensures |ArchiveMoves(out, keys)| == |keys|
    ensures forall i | 0 <= i < |keys| :: ArchiveMoves(out, keys)[i] == Move(out + [keys[i]], out + [keys[i] + ".7z"])
    decreases |keys|
  {
    if keys != [] {
      ArchiveMovesSpec(out, keys[..|keys| - 1]);
    }
  }

  /**
   * What the organize loop has done after the groups of the keys `done`: every move takes
   * some target into its date's folder, and every target of those dates has its move.
   */
  ghost predicate MovesCover(moves: seq<Move>, s: seq<AudioFile>, out: Path, done: seq<string>) {
    (forall m | m in moves :: MovesSomeFile(m, s, out))
    && forall f | f in s && DateKeyOf(f) in done :: OrganizeMove(f, out) in moves
  }

  /** Paths held stay held when the library only gains members. */
  lemma PathsKept(a: set<AudioFile>, b: set<AudioFile>, ps: seq<Path>)
    requires a <= b && forall p | p in ps :: PathIn(a, p)
    ensures forall p | p in ps :: PathIn(b, p)
  {
    forall p | p in ps ensures PathIn(b, p) {
      var g :| g in a && g.path == p;
      assert g in b;
    }
  }

  /** `f` is a file the scan of `dir` made from its listing. */
  ghost predicate InScan(disk: Disk, f: AudioFile, dir: Path, names: seq<string>) {
    f.path == dir + [Name(f.path)] && Name(f.path) in names
    && MatchesSome(Name(f.path), ScanExtensions) && Admitted(disk, dir, Name(f.path))
    && Some(f.timestamp) == ExtractTimestamp(Name(f.path), disk.mtime(f.path))
  }

  /** Adding the file made from entry `a` adds exactly the entries named `a`. */
  lemma PathInAddName(fs: set<AudioFile>, f: AudioFile, dir: Path, a: string, b: string)
    requires f.path == dir + [a]
    ensures PathIn(fs + {f}, dir + [b]) <==> PathIn(fs, dir + [b]) || a == b
  {
    PathInAdd(fs, f, dir + [b]);
    if dir + [a] == dir + [b] {
      assert (dir + [a])[|dir|] == a;
    }
  }

  /**
   * After globbing the patterns `done`, and `*.<ext>` over the first `i` entries, exactly
   * the admitted entries matching one of those are held.
   */
  ghost predicate ScanProgress(disk: Disk, dir: Path, names: seq<string>, fs: set<AudioFile>,
                               done: seq<string>, ext: string, i: nat)
    requires i <= |names|
  {
    forall k | 0 <= k < |names| ::
      PathIn(fs, dir + [names[k]]) <==>
        (MatchesSome(names[k], done) || (GlobMatches(names[k], ext) && names[k] in names[..i]))
        && Admitted(disk, dir, names[k])
  }

  /** Every file held came from an admitted entry of the listing and is still unprocessed. */
  ghost predicate AllScanned(disk: Disk, dir: Path, names: seq<string>, fs: set<AudioFile>)
    reads fs
  {
    forall f | f in fs :: InScan(disk, f, dir, names) && f.state == Unprocessed
  }

  lemma AllScannedAdd(disk: Disk, dir: Path, names: seq<string>, fs: set<AudioFile>, f: AudioFile, gs: set<AudioFile>)
    requires AllScanned(disk, dir, names, fs) && InScan(disk, f, dir, names) && f.state == Unprocessed
    requires gs <= fs + {f}
    ensures AllScanned(disk, dir, names, gs)
  {
  }

  /** All nine patterns done: an entry's path is held exactly when some pattern matches and it is admitted. */
  lemma ScanFinished(disk: Disk, dir: Path, names: seq<string>, fs: set<AudioFile>)
    requires forall e :: ScanProgress(disk, dir, names, fs, ScanExtensions[..|ScanExtensions|], e, 0)
    ensures forall n | n in names :: PathIn(fs, dir + [n]) <==> MatchesSome(n, ScanExtensions) && Admitted(disk, dir, n)
  {
    assert ScanExtensions[..|ScanExtensions|] == ScanExtensions;
    assert ScanProgress(disk, dir, names, fs, ScanExtensions, "", 0);
    forall n | n in names
      ensures PathIn(fs, dir + [n]) <==> MatchesSome(n, ScanExtensions) && Admitted(disk, dir, n)
    {
      var k :| 0 <= k < |names| && names[k] == n;
    }
  }

  /** Entry `i` taken: its file is added (or its path was already held). */
  lemma ScanProgressAdd(disk: Disk, dir: Path, names: seq<string>, fs: set<AudioFile>,
                        done: seq<string>, ext: string, i: nat, f: AudioFile)
    requires i < |names| && ScanProgress(disk, dir, names, fs, done, ext, i)
    requires f.path == dir + [names[i]] && GlobMatches(names[i], ext) && Admitted(disk, dir, names[i])
    ensures ScanProgress(disk, dir, names, fs + {f}, done, ext, i + 1)
    ensures PathIn(fs, f.path) ==> ScanProgress(disk, dir, names, fs, done, ext, i + 1)
  {
    assert names[..i + 1] == names[..i] + [names[i]];
    forall k | 0 <= k < |names| {
      PathInAddName(fs, f, dir, names[i], names[k]);
    }
  }

  /** Entry `i` passed over: it does not match or is not admitted. */
  lemma ScanProgressSkip(disk: Disk, dir: Path, names: seq<string>, fs: set<AudioFile>,
                         done: seq<string>, ext: string, i: nat)
    requires i < |names| && ScanProgress(disk, dir, names, fs, done, ext, i)
    requires !(GlobMatches(names[i], ext) && Admitted(disk, dir, names[i]))
    ensures ScanProgress(disk, dir, names, fs, done, ext, i + 1)
  {
    assert names[..i + 1] == names[..i] + [names[i]];
  }

  /** A finished pattern joins the globbed ones. */
  lemma ScanProgressNext(disk: Disk, dir: Path, names: seq<string>, fs: set<AudioFile>,
                         done: seq<string>, ext: string)
    requires ScanProgress(disk, dir, names, fs, done, ext, |names|)
    ensures forall e :: ScanProgress(disk, dir, names, fs, done + [ext], e, 0)
  {
    assert names[..|names|] == names;
    forall k | 0 <= k < |names|
      ensures MatchesSome(names[k], done + [ext]) <==> MatchesSome(names[k], done) || GlobMatches(names[k], ext)
    {
      if GlobMatches(names[k], ext) {
        assert ext in done + [ext];
      }
      if MatchesSome(names[k], done) {
        var e :| e in done && GlobMatches(names[k], e);
        assert e in done + [ext];
      }
    }
  }

  // ------------------------------------------------------------- handler results

  /** What the handler for the task's kind returns, given what the disk and the tools answer. */
  function HandlerResult(disk: Disk, tools: Tools, task: ProcessingTask): TaskResult {
    match task.taskType
    case Import =>
      (match ImportSource(disk, task)
       case None => TaskResult(task, false, [], Some("No OBS recordings found in common locations"), 0)
       case Some(src) =>
         var imported := Imported(disk, src, disk.listing(src), task.outputDir);
         TaskResult(task, |imported| > 0, imported, None, |imported|))
    case Convert =>
      if !tools.hasFfmpeg then TaskResult(task, false, [], Some("FFmpeg not available"), 0)
      else
        var outputs := ConvertOutputs(tools, task.files, task.outputDir);
        TaskResult(task, |outputs| > 0, outputs, None, |outputs|)
    case Merge =>
      if !tools.hasFfmpeg then TaskResult(task, false, [], Some("FFmpeg not available"), 0)
      else if task.files == [] then TaskResult(task, false, [], Some("No files to merge"), 0)
      else
        var order := ByTime(task.files);
        MergeResult(task, order, tools.mergeAudio(PathsOf(order), MergeTarget(task.outputDir, order)))
    case RemoveSilence =>
      if !tools.hasFfmpeg then TaskResult(task, false, [], Some("FFmpeg not available"), 0)
      else
        var outputs := SilenceOutputs(tools, task.files, task.outputDir, Threshold(task), Duration(task));
        TaskResult(task, |outputs| > 0, outputs, None, |outputs|)
    case Organize =>
      var dirs := DateDirs(task.outputDir, FirstOccurrences(task.files, DateKeyOf));
      TaskResult(task, |dirs| > 0, dirs, None, |task.files|)
  }

  /**
   * When each handler reports success: an import when some `*.mp4` of the source was moved,
   * a conversion or a trim when some target went through, a merge when the merge call
   * succeeded on a non-empty task, an organisation when there was anything to organise.
   * The three FFmpeg handlers never succeed without FFmpeg.
   */
  lemma HandlerSucceeds(disk: Disk, tools: Tools, task: ProcessingTask)
    ensures var r := HandlerResult(disk, tools, task);
      (task.taskType == Import ==>
         (r.success <==> ImportSource(disk, task).Some?
                         && var src := ImportSource(disk, task).value;
                            exists n | n in disk.listing(src) ::
                              GlobMatches(n, "mp4") && disk.renames(src + [n], task.outputDir + [n])))
      && (task.taskType == Convert ==>
         (r.success <==> tools.hasFfmpeg && exists f | f in task.files :: Converts(tools, f, task.outputDir)))
      && (task.taskType == Merge ==>
         (r.success <==> tools.hasFfmpeg && task.files != []
                         && tools.mergeAudio(PathsOf(ByTime(task.files)), MergeTarget(task.outputDir, ByTime(task.files)))))
      && (task.taskType == RemoveSilence ==>
         (r.success <==> tools.hasFfmpeg && exists f | f in task.files ::
                           tools.removeSilence(f.path, SilenceTarget(f, task.outputDir), Threshold(task), Duration(task))))
      && (task.taskType == Organize ==> (r.success <==> task.files != []))
  {
    match task.taskType
    case Import =>
      if ImportSource(disk, task).Some? {
        var src := ImportSource(disk, task).value;
        ImportedNonEmpty(disk, src, disk.listing(src), task.outputDir);
      }
    case Convert =>
      ConvertOutputsNonEmpty(tools, task.files, task.outputDir);
    case Merge =>
    case RemoveSilence =>
      SilenceOutputsNonEmpty(tools, task.files, task.outputDir, Threshold(task), Duration(task));
    case Organize =>
      OrganizeSucceeds(task);
  }

  /** An organisation reports success exactly when it had targets. */
  lemma OrganizeSucceeds(task: ProcessingTask)
    ensures task.files != [] <==> DateDirs(task.outputDir, FirstOccurrences(task.files, DateKeyOf)) != []
  {
    FirstOccurrencesSpec(task.files, DateKeyOf);
    DateDirsSpec(task.outputDir, FirstOccurrences(task.files, DateKeyOf));
    if task.files != [] {
      assert DateKeyOf(task.files[0]) in multiset(FirstOccurrences(task.files, DateKeyOf));
    }
  }

  /**
   * `failed_count` (the targets minus the processed count) of each handler's result: the
   * targets that did not convert or could not be trimmed; all of a merge's targets unless it
   * succeeded; none of an organisation's; and for an import, whose task carries no targets,
   * minus the number of recordings moved.
   */
  lemma HandlerFailedCount(disk: Disk, tools: Tools, task: ProcessingTask)
    ensures var r := HandlerResult(disk, tools, task);
      (task.taskType == Convert && tools.hasFfmpeg ==>
         r.FailedCount() == Count(task.files, (f: AudioFile) => !Converts(tools, f, task.outputDir)))
      && (task.taskType == RemoveSilence && tools.hasFfmpeg ==>
         r.FailedCount() == Count(task.files, (f: AudioFile) =>
                              !tools.removeSilence(f.path, SilenceTarget(f, task.outputDir), Threshold(task), Duration(task))))
      && (task.taskType in {Convert, RemoveSilence} && !tools.hasFfmpeg ==> r.FailedCount() == |task.files|)
      && (task.taskType == Merge ==> r.FailedCount() == if r.success then 0 else |task.files|)
      && (task.taskType == Organize ==> r.FailedCount() == 0)
      && (task.taskType == Import && task.files == [] ==> r.FailedCount() == -(r.processedCount as int))
  {
    match task.taskType
    case Convert =>
      if tools.hasFfmpeg {
        var p := ConvertsIn(tools, task.outputDir);
        ConvertOutputsCount(tools, task.files, task.outputDir);
        CountComplement(task.files, p, (f: AudioFile) => !Converts(tools, f, task.outputDir));
      }
    case RemoveSilence =>
      if tools.hasFfmpeg {
        var p := TrimsIn(tools, task.outputDir, Threshold(task), Duration(task));
        SilenceOutputsCount(tools, task.files, task.outputDir, Threshold(task), Duration(task));
        CountComplement(task.files, p, (f: AudioFile) =>
          !tools.removeSilence(f.path, SilenceTarget(f, task.outputDir), Threshold(task), Duration(task)));
      }
    case Merge =>
    case Organize =>
    case Import =>
  }

  // ------------------------------------------------------------------- engine

  class AudioProcessor {
    const library: AudioLibrary
    const tools: Tools
    const disk: Disk

    ghost predicate Valid()
      reads this, library, library.files
    {
      library.Valid()
    }

    /** `__init__`: an empty library and the given tools. */
    constructor (tools: Tools, disk: Disk)
      ensures Valid() && fresh(library) && library.files == {}
      ensures this.tools == tools && this.disk == disk
    {
      library := new AudioLibrary();
      this.tools := tools;
      this.disk := disk;
    }

    /**
     * `find_obs_save_location`: the first of the four usual places that exists and
     * holds an `*.mp4`, or none when no place does.
     */
    method FindObsSaveLocation() returns (r: Option<Path>)
      ensures r.Some? ==> exists i | 0 <= i < 4 :: r.value == ObsCandidates(disk.home)[i]
                           && Qualifies(disk, r.value)
                           && forall j | 0 <= j < i :: !Qualifies(disk, ObsCandidates(disk.home)[j])
      ensures r.None? ==> forall j | 0 <= j < 4 :: !Qualifies(disk, ObsCandidates(disk.home)[j])
      ensures r == FirstQualifying(disk, ObsCandidates(disk.home))
    {
      var places := ObsCandidates(disk.home);
      for i := 0 to 4
        invariant forall j | 0 <= j < i :: !Qualifies(disk, places[j])
        invariant FirstQualifying(disk, places[i..]) == FirstQualifying(disk, places)
      {
        assert places[i..][0] == places[i] && places[i..][1..] == places[i + 1..];
        var names := disk.listing(places[i]);
        if disk.present(places[i]) && exists n | n in names :: GlobMatches(n, "mp4") {
          return Some(places[i]);
        }
      }
      assert places[4..] == [];
      return None;
    }

    /** `_create_audio_file`: a new UNPROCESSED file, or none when its name carries an unreadable timestamp. */
    method CreateAudioFile(path: Path) returns (r: Option<AudioFile>)
      ensures r.None? <==> ExtractTimestamp(Name(path), disk.mtime(path)).None?
      ensures r.Some? ==> fresh(r.value) && r.value.path == path && r.value.state == Unprocessed
                          && Some(r.value.timestamp) == ExtractTimestamp(Name(path), disk.mtime(path))
                          && r.value.size == disk.sizeOf(path) && r.value.format == FormatOf(path)
    {
      var t := ExtractTimestamp(Name(path), disk.mtime(path));
      if t.None? {
        return None;
      }
      var f := new AudioFile.FromPath(path, t.value, disk.sizeOf(path));
      return Some(f);
    }

    /** One glob pattern of `scan_directory`: every admitted entry matching `*.<ext>` is added. */
    method ScanPattern(dir: Path, names: seq<string>, ghost done: seq<string>, ext: string)
      requires library.Valid() && ext in ScanExtensions
      requires ScanProgress(disk, dir, names, library.files, done, ext, 0)
      requires AllScanned(disk, dir, names, library.files)
      modifies library
      ensures library.Valid()
      ensures ScanProgress(disk, dir, names, library.files, done, ext, |names|)
      ensures AllScanned(disk, dir, names, library.files)
    {
      for i := 0 to |names|
        invariant library.Valid()
        invariant ScanProgress(disk, dir, names, library.files, done, ext, i)
        invariant AllScanned(disk, dir, names, library.files)
      {
        ScanEntry(dir, names, done, ext, i);
      }
    }

    /** One entry of one glob: a matching regular file with a readable timestamp joins the library. */
    method ScanEntry(dir: Path, names: seq<string>, ghost done: seq<string>, ext: string, i: nat)
      requires i < |names| && library.Valid() && ext in ScanExtensions
      requires ScanProgress(disk, dir, names, library.files, done, ext, i)
      requires AllScanned(disk, dir, names, library.files)
      modifies library
      ensures library.Valid()
      ensures ScanProgress(disk, dir, names, library.files, done, ext, i + 1)
      ensures AllScanned(disk, dir, names, library.files)
    {
      var name := names[i];
      var made: Option<AudioFile> := None;
      if GlobMatches(name, ext) && disk.isFile(dir + [name]) {
        made := CreateAudioFile(dir + [name]);
      }
      if made.Some? {
        AdmitEntry(dir, names, done, ext, i, made.value);
      } else {
        ScanProgressSkip(disk, dir, names, library.files, done, ext, i);
      }
    }

    /** A taken entry: its new unprocessed file is added to the library. */
    method AdmitEntry(dir: Path, names: seq<string>, ghost done: seq<string>, ext: string, i: nat, f: AudioFile)
      requires i < |names| && library.Valid()
      requires ScanProgress(disk, dir, names, library.files, done, ext, i)
      requires AllScanned(disk, dir, names, library.files)
      requires f.path == dir + [names[i]] && GlobMatches(names[i], ext) && Admitted(disk, dir, names[i])
      requires InScan(disk, f, dir, names) && f.state == Unprocessed
      modifies library
      ensures library.Valid()
      ensures ScanProgress(disk, dir, names, library.files, done, ext, i + 1)
      ensures AllScanned(disk, dir, names, library.files)
    {
      ScanProgressAdd(disk, dir, names, library.files, done, ext, i, f);
      ghost var before := library.files;
      library.Add(f);
      assert f.state == Unprocessed && library.files <= before + {f};
      AllScannedAdd(disk, dir, names, before, f, library.files);
    }

    /**
     * `scan_directory`: the library is emptied, then every regular file of the directory
     * that matches one of the nine patterns and has a readable timestamp is added.
     */
    method ScanDirectory(directory: Option<Path>)
      modifies library
      ensures Valid()
      ensures var dir := directory.GetOr(disk.cwd);
              forall n | n in disk.listing(dir) ::
                library.HasPath(dir + [n]) <==> MatchesSome(n, ScanExtensions) && Admitted(disk, dir, n)
      ensures var dir := directory.GetOr(disk.cwd);
              forall f | f in library.files ::
                f.path == dir + [Name(f.path)] && Name(f.path) in disk.listing(dir)
                && MatchesSome(Name(f.path), ScanExtensions) && Admitted(disk, dir, Name(f.path))
                && Some(f.timestamp) == ExtractTimestamp(Name(f.path), disk.mtime(f.path))
                && f.state == Unprocessed
    {
      var dir := directory.GetOr(disk.cwd);
      var names := disk.listing(dir);
      library.Clear();
      for j := 0 to |ScanExtensions|
        invariant library.Valid()
        invariant forall e :: ScanProgress(disk, dir, names, library.files, ScanExtensions[..j], e, 0)
        invariant AllScanned(disk, dir, names, library.files)
      {
        var ext := ScanExtensions[j];
        assert ScanExtensions[..j + 1] == ScanExtensions[..j] + [ext];
        assert ScanProgress(disk, dir, names, library.files, ScanExtensions[..j], ext, 0);
        assert ext in ScanExtensions;
        ScanPattern(dir, names, ScanExtensions[..j], ext);
        ScanProgressNext(disk, dir, names, library.files, ScanExtensions[..j], ext);
      }
      ScanFinished(disk, dir, names, library.files);
    }

    // --------------------------------------------------------------- dispatch

    /** `update_state(file, s)` for each listed member, in order; nothing else changes. */
    method MarkAll(fs: seq<AudioFile>, s: FileState)
      requires library.Valid() && forall f | f in fs :: f in library.files
      modifies library, fs
      ensures library.Valid() && library.files == old(library.files) && library.byDate == old(library.byDate)
      ensures forall g | g in library.files :: g.state == if g in fs then s else old(g.state)
    {
      for i := 0 to |fs|
        invariant library.Valid() && library.files == old(library.files) && library.byDate == old(library.byDate)
        invariant forall g | g in library.files :: g.state == if g in fs[..i] then s else old(g.state)
      {
        var f := fs[i];
        assert fs[..i + 1] == fs[..i] + [f];
        library.UpdateState(f, s);
        forall g | g in library.files
          ensures g.state == if g in fs[..i + 1] then s else old(g.state)
        {
          if g != f {
            assert g in fs[..i + 1] <==> g in fs[..i];
          }
        }
      }
      assert fs[..|fs|] == fs;
    }

    /**
     * `process_task`: the targets go to PROCESSING, the handler for the task's kind runs,
     * and then every target is PROCESSED when it reports success and FAILED otherwise.
     * `raised` is the message of an exception the handler throws (before it changes
     * anything); then every target is FAILED and the result carries the message.
     */
    method ProcessTask(task: ProcessingTask, raised: Option<string>) returns (r: TaskResult)
      requires library.Valid() && forall f | f in task.files :: f in library.files
      modifies library, task.files
      ensures library.Valid() && r.task == task && old(library.files) <= library.files
      ensures raised.Some? ==> r == TaskResult(task, false, [], raised, 0)
      ensures raised.None? ==> r == HandlerResult(disk, tools, task)
      ensures forall f | f in task.files :: f.state == if r.success then Processed else Failed
      ensures forall g | g in old(library.files) && g !in task.files :: g.state == old(g.state)
    {
      MarkAll(task.files, Processing);
      if raised.Some? {
        MarkAll(task.files, Failed);
        return TaskResult(task, false, [], raised, 0);
      }
      r := RunHandler(task);
      MarkAll(task.files, if r.success then Processed else Failed);
    }

    /** The dispatcher table: each task kind goes to its handler, whose result is returned. */
    method RunHandler(task: ProcessingTask) returns (r: TaskResult)
      requires library.Valid() && forall f | f in task.files :: f in library.files
      modifies library, task.files
      ensures library.Valid() && r.task == task && old(library.files) <= library.files
      ensures r == HandlerResult(disk, tools, task)
      ensures task.taskType != Convert ==> library.files == old(library.files)
    {
      match task.taskType
      case Import =>
        var src;
        r, src := ImportFiles(task);
      case Convert =>
        r := ConvertFiles(task);
      case Merge =>
        var order;
        r, order := MergeFiles(task);
      case RemoveSilence =>
        r := RemoveSilenceFiles(task);
      case Organize =>
        var moves, archives;
        r, moves, archives := OrganizeFiles(task);
        OrganizeSucceeds(task);
    }

    // --------------------------------------------------------------- handlers

    /**
     * `_import_files`: from the given source directory, or else from the first usual
     * recording place, every `*.mp4` is renamed into the output directory; the result
     * lists the renames that succeeded.
     */
    method ImportFiles(task: ProcessingTask) returns (r: TaskResult, src: Option<Path>)
      ensures r.task == task && src == ImportSource(disk, task)
      ensures task.params.sourceDir.GetOr("") != "" ==> src == Some(ToPath(task.params.sourceDir.value))
      ensures task.params.sourceDir.GetOr("") == "" && src.Some? ==>
        src.value in ObsCandidates(disk.home) && Qualifies(disk, src.value)
      ensures src.None? <==>
        task.params.sourceDir.GetOr("") == "" && forall j | 0 <= j < 4 :: !Qualifies(disk, ObsCandidates(disk.home)[j])
      ensures src.None? ==> r == TaskResult(task, false, [], Some("No OBS recordings found in common locations"), 0)
      ensures src.Some? ==>
        r.outputFiles == Imported(disk, src.value, disk.listing(src.value), task.outputDir)
        && r.processedCount == |r.outputFiles| && r.success == (r.processedCount > 0) && r.error == None
    {
      if task.params.sourceDir.GetOr("") == "" {
        src := FindObsSaveLocation();
        if src.None? {
          return TaskResult(task, false, [], Some("No OBS recordings found in common locations"), 0), src;
        }
      } else {
        src := Some(ToPath(task.params.sourceDir.value));
      }
      var names := disk.listing(src.value);
      var imported: seq<Path> := [];
      for i := 0 to |names|
        invariant imported == Imported(disk, src.value, names[..i], task.outputDir)
      {
        assert names[..i + 1][..i] == names[..i];
        var dest := task.outputDir + [names[i]];
        if GlobMatches(names[i], "mp4") && disk.renames(src.value + [names[i]], dest) {
          imported := imported + [dest];
        }
      }
      assert names[..|names|] == names;
      r := TaskResult(task, |imported| > 0, imported, None, |imported|);
    }

    /**
     * Converts one file of `_convert_files`: on success the source is marked CONVERTED and a
     * new UNPROCESSED MP3 with the source's timestamp, pointing back at the source, joins the
     * library (`made`), unless the library already holds that path; a skipped or failed
     * conversion changes nothing.
     */
    method ConvertOne(f: AudioFile, dir: Path) returns (out: Option<Path>, ghost made: Option<AudioFile>)
      requires library.Valid() && f in library.files
      modifies library, f
      ensures library.Valid()
      ensures out == if Converts(tools, f, dir) then Some(ConvertTarget(f, dir)) else None
      ensures Converts(tools, f, dir) ==> f.state == Converted && library.HasPath(ConvertTarget(f, dir))
      ensures !Converts(tools, f, dir) ==> f.state == old(f.state)
      ensures made.Some? <==> Converts(tools, f, dir) && !old(library.HasPath(ConvertTarget(f, dir)))
      ensures made.None? ==> library.files == old(library.files)
      ensures made.Some? ==>
        fresh(made.value) && library.files == old(library.files) + {made.value}
        && MadeFrom(made.value, f, dir) && made.value.state == Unprocessed
    {
      out, made := None, None;
      if f.format != "mp3" {
        var target := ConvertTarget(f, dir);
        if tools.convertToMp3(f.path, target) {
          made := AddConverted(f, target);
          out := Some(target);
        }
      }
    }

    /** The library side of a successful conversion: `f` is CONVERTED and an MP3 at `target` made from it joins. */
    method AddConverted(f: AudioFile, target: Path) returns (ghost made: Option<AudioFile>)
      requires library.Valid() && f in library.files
      modifies library, f
      ensures library.Valid() && f.state == Converted && library.HasPath(target)
      ensures made.Some? <==> !old(library.HasPath(target))
      ensures made.None? ==> library.files == old(library.files)
      ensures made.Some? ==>
        fresh(made.value) && library.files == old(library.files) + {made.value} && made.value.state == Unprocessed
        && made.value.path == target && made.value.timestamp == f.timestamp && made.value.sourceFile == Some(f.path)
    {
      made := None;
      ghost var held := library.HasPath(target);
      library.UpdateState(f, Converted);
      var g := new AudioFile(target, f.timestamp, Unprocessed, disk.sizeOf(target), "", Some(f.path));
      PathInAdd(library.files, g, target);
      library.Add(g);
      if !held {
        made := Some(g);
      }
    }

    /**
     * `_convert_files`: every file that is not already an MP3 is converted to `<stem>.mp3`
     * in the output directory; each success is listed, counted, marks its source
     * CONVERTED and puts the new MP3 (same timestamp, pointing back at its source) in the library.
     */
    method ConvertFiles(task: ProcessingTask) returns (r: TaskResult)
      requires library.Valid() && forall f | f in task.files :: f in library.files
      modifies library, task.files
      ensures library.Valid() && r.task == task && old(library.files) <= library.files
      ensures !tools.hasFfmpeg ==> r == TaskResult(task, false, [], Some("FFmpeg not available"), 0)
      ensures tools.hasFfmpeg ==>
        r.outputFiles == ConvertOutputs(tools, task.files, task.outputDir)
        && r.processedCount == |r.outputFiles| && r.success == (r.processedCount > 0) && r.error == None
      ensures forall g | g in task.files ::
        g.state == if tools.hasFfmpeg && Converts(tools, g, task.outputDir) then Converted else old(g.state)
      ensures !tools.hasFfmpeg ==> library.files == old(library.files)
      ensures forall p | p in r.outputFiles :: library.HasPath(p)
      ensures forall g | g in library.files && g !in old(library.files) :: fresh(g)
      ensures Gained(tools, old(library.files), library.files, task.files, task.outputDir)
    {
      if !tools.hasFfmpeg {
        return TaskResult(task, false, [], Some("FFmpeg not available"), 0);
      }
      var outputs := ConvertAll(task.files, task.outputDir);
      r := TaskResult(task, |outputs| > 0, outputs, None, |outputs|);
    }

    /**
     * The loop of `_convert_files`: each file in turn, collecting the outputs of the successes;
     * every output path ends up held, and each member the library gains is a new UNPROCESSED
     * MP3 made from a file that converted.
     */
    method ConvertAll(fs: seq<AudioFile>, dir: Path) returns (outputs: seq<Path>)
      requires library.Valid() && forall f | f in fs :: f in library.files
      modifies library, fs
      ensures library.Valid() && old(library.files) <= library.files
      ensures outputs == ConvertOutputs(tools, fs, dir)
      ensures forall g | g in fs :: g.state == if Converts(tools, g, dir) then Converted else old(g.state)
      ensures forall p | p in outputs :: library.HasPath(p)
      ensures forall g | g in library.files && g !in old(library.files) :: fresh(g)
      ensures Gained(tools, old(library.files), library.files, fs, dir)
    {
      outputs := [];
      for i := 0 to |fs|
        invariant library.Valid() && old(library.files) <= library.files
        invariant outputs == ConvertOutputs(tools, fs[..i], dir)
        invariant forall g | g in fs :: g.state == if g in fs[..i] && Converts(tools, g, dir) then Converted else old(g.state)
        invariant forall p | p in outputs :: library.HasPath(p)
        invariant forall g | g in library.files && g !in old(library.files) :: fresh(g)
        invariant Gained(tools, old(library.files), library.files, fs, dir)
      {
        ConvertOutputsStep(tools, fs, i, dir);
        outputs := ConvertNext(fs, i, dir, outputs, old(library.files));
      }
      assert fs[..|fs|] == fs;
    }

    /** One turn of the loop of `_convert_files`: converts `fs[i]` and lists its output on success. */
    method ConvertNext(fs: seq<AudioFile>, i: nat, dir: Path, outputs: seq<Path>, ghost start: set<AudioFile>)
      returns (next: seq<Path>)
      requires library.Valid() && i < |fs| && fs[i] in start && start <= library.files
      requires forall p | p in outputs :: library.HasPath(p)
      requires Gained(tools, start, library.files, fs, dir)
      modifies library, fs[i]
      ensures library.Valid() && old(library.files) <= library.files
      ensures next == outputs + if Converts(tools, fs[i], dir) then [ConvertTarget(fs[i], dir)] else []
      ensures fs[i].state == if Converts(tools, fs[i], dir) then Converted else old(fs[i].state)
      ensures forall p | p in next :: library.HasPath(p)
      ensures forall g | g in library.files && g !in old(library.files) :: fresh(g)
      ensures Gained(tools, start, library.files, fs, dir)
    {
      ghost var before := library.files;
      var out, made := ConvertOne(fs[i], dir);
      PathsKept(before, library.files, outputs);
      assert Gained(tools, start, before, fs, dir);
      if made.Some? {
        assert fs[i] in fs;
        GainedAdd(tools, start, before, fs, dir, made.value);
      }
      next := outputs;
      if out.Some? {
        next := outputs + [out.value];
      }
    }

    /**
     * `_merge_files`: the targets in timestamp order are joined into one MP3 named after
     * the first and last recording times; on success every target is MERGED.
     */
    method MergeFiles(task: ProcessingTask) returns (r: TaskResult, order: seq<AudioFile>)
      requires library.Valid() && forall f | f in task.files :: f in library.files
      modifies library, task.files
      ensures library.Valid() && r.task == task && library.files == old(library.files)
      ensures !tools.hasFfmpeg ==> r == TaskResult(task, false, [], Some("FFmpeg not available"), 0)
      ensures tools.hasFfmpeg && task.files == [] ==> r == TaskResult(task, false, [], Some("No files to merge"), 0)
      ensures tools.hasFfmpeg && task.files != [] ==>
        order == ByTime(task.files) && SortedBy(order, TimeKey, IntLe) && multiset(order) == multiset(task.files) && order != []
        && r == MergeResult(task, order, tools.mergeAudio(PathsOf(order), MergeTarget(task.outputDir, order)))
      ensures forall f | f in task.files :: f.state == if r.success then Merged else old(f.state)
    {
      order := [];
      if !tools.hasFfmpeg {
        return TaskResult(task, false, [], Some("FFmpeg not available"), 0), order;
      }
      if task.files == [] {
        return TaskResult(task, false, [], Some("No files to merge"), 0), order;
      }
      order := ByTime(task.files);
      var ok := tools.mergeAudio(PathsOf(order), MergeTarget(task.outputDir, order));
      if ok {
        // Every target is marked; the order of the updates does not change the outcome.
        MarkAll(task.files, Merged);
      }
      r := MergeResult(task, order, ok);
    }

    /**
     * `_remove_silence`: each target is trimmed into `nosilence_<name>` in the output
     * directory; the result lists and counts the successes. The library is not touched.
     */
    method RemoveSilenceFiles(task: ProcessingTask) returns (r: TaskResult)
      ensures r.task == task
      ensures !tools.hasFfmpeg ==> r == TaskResult(task, false, [], Some("FFmpeg not available"), 0)
      ensures tools.hasFfmpeg ==>
        r.outputFiles == SilenceOutputs(tools, task.files, task.outputDir, Threshold(task), Duration(task))
        && r.processedCount == |r.outputFiles| && r.success == (r.processedCount > 0) && r.error == None
    {
      if !tools.hasFfmpeg {
        return TaskResult(task, false, [], Some("FFmpeg not available"), 0);
      }
      var threshold, duration := Threshold(task), Duration(task);
      var outputs: seq<Path> := [];
      for i := 0 to |task.files|
        invariant outputs == SilenceOutputs(tools, task.files[..i], task.outputDir, threshold, duration)
      {
        var f := task.files[i];
        assert task.files[..i + 1][..i] == task.files[..i];
        var out := SilenceTarget(f, task.outputDir);
        if tools.removeSilence(f.path, out, threshold, duration) {
          outputs := outputs + [out];
        }
      }
      assert task.files[..|task.files|] == task.files;
      r := TaskResult(task, |outputs| > 0, outputs, None, |outputs|);
    }

    /** Archives are made when the task asks for them and 7-Zip is installed. */
    predicate ArchiveWanted(task: ProcessingTask) {
      task.params.createArchive.GetOr(false) && tools.hasSevenzip
    }

    /** The moves of one date group: each file into the date folder, in group order. */
    method MoveGroup(group: seq<AudioFile>, dir: Path) returns (ms: seq<Move>)
      ensures |ms| == |group| && forall j | 0 <= j < |group| :: ms[j] == MoveInto(group[j], dir)
    {
      ms := [];
      for j := 0 to |group|
        invariant |ms| == j && forall k | 0 <= k < j :: ms[k] == MoveInto(group[k], dir)
      {
        ms := ms + [MoveInto(group[j], dir)];
      }
    }

    /**
     * `_organize_files`: the targets are grouped by date key in order of first appearance;
     * each group's folder `<output>/<date key>` is listed as an output, every file is moved
     * into its date's folder exactly once, and each folder is archived to `<date key>.7z`
     * when archives are wanted. The count is the number of targets.
     */
    method OrganizeFiles(task: ProcessingTask) returns (r: TaskResult, moves: seq<Move>, archives: seq<Move>)
      ensures r.task == task && r.error == None && r.processedCount == |task.files|
      ensures r.success <==> task.files != []
      ensures r.outputFiles == DateDirs(task.outputDir, FirstOccurrences(task.files, DateKeyOf))
      ensures |moves| == |task.files|
      ensures forall f | f in task.files :: OrganizeMove(f, task.outputDir) in moves
      ensures forall m | m in moves :: MovesSomeFile(m, task.files, task.outputDir)
      ensures archives == if ArchiveWanted(task) then ArchiveMoves(task.outputDir, FirstOccurrences(task.files, DateKeyOf)) else []
    {
      var s, out := task.files, task.outputDir;
      var keys, groups := GroupInOrder(s, DateKeyOf);
      var dirs;
      dirs, moves, archives := OrganizeGroups(s, out, keys, groups, ArchiveWanted(task));
      FirstOccurrencesSpec(s, DateKeyOf);
      GroupsPartition(s, DateKeyOf);
      DateDirsSpec(out, keys);
      if s != [] {
        assert DateKeyOf(s[0]) in keys;
      }
      r := TaskResult(task, |dirs| > 0, dirs, None, |s|);
    }

    /**
     * The loop over the date groups of `_organize_files`: a folder per key, the moves of
     * the group's files into it, and its archive when archives are wanted.
     */
    method OrganizeGroups(s: seq<AudioFile>, out: Path, keys: seq<string>, groups: map<string, seq<AudioFile>>, wanted: bool)
      returns (dirs: seq<Path>, moves: seq<Move>, archives: seq<Move>)
      requires forall k | k in keys :: k in groups && groups[k] == Filter(s, DateKeyOf, k)
      ensures dirs == DateDirs(out, keys)
      ensures |moves| == GroupSizes(keys, s, DateKeyOf)
      ensures MovesCover(moves, s, out, keys)
      ensures archives == if wanted then ArchiveMoves(out, keys) else []
    {
      dirs, moves, archives := [], [], [];
      for i := 0 to |keys|
        invariant dirs == DateDirs(out, keys[..i])
        invariant |moves| == GroupSizes(keys[..i], s, DateKeyOf)
        invariant MovesCover(moves, s, out, keys[..i])
        invariant archives == if wanted then ArchiveMoves(out, keys[..i]) else []
      {
        var k := keys[i];
        var dateDir := out + [k];
        var group := groups[k];
        var ms := MoveGroup(group, dateDir);
        OrganizeGroupStep(s, out, keys[..i], k, group, ms, moves);
        PrefixSnoc(keys, i);
        GroupSizesAppendKey(keys[..i], k, s, DateKeyOf);
        moves := moves + ms;
        dirs := dirs + [dateDir];
        if wanted {
          archives := archives + [Move(dateDir, out + [k + ".7z"])];
        }
      }
      assert keys[..|keys|] == keys;
    }

    /** `create_merge_task_for_date`: a MERGE task over the date's unmerged files, or none when there are none. */
    method CreateMergeTaskForDate(k: string, outputDir: Option<Path>) returns (r: Option<ProcessingTask>)
      requires library.Valid()
      ensures r.None? <==> library.UnmergedOn(k) == {}
      ensures r.Some? ==>
        r.value.taskType == Merge && r.value.outputDir == outputDir.GetOr(disk.cwd) && r.value.params == NoParams
        && Enumerates(r.value.files, library.UnmergedOn(k)) && SortedBy(r.value.files, TimeKey, IntLe)
    {
      var unmerged := library.GetUnmergedForDate(k);
      if unmerged == [] {
        return None;
      }
      assert unmerged[0] in library.UnmergedOn(k);
      return Some(ProcessingTask(Merge, unmerged, outputDir.GetOr(disk.cwd), NoParams));
    }
  }

  /** The moves of one group keep the organize invariant, now covering the group's key too. */
  lemma OrganizeGroupStep(s: seq<AudioFile>, out: Path, done: seq<string>, k: string, group: seq<AudioFile>, ms: seq<Move>, moves: seq<Move>)
    requires group == Filter(s, DateKeyOf, k)
    requires |ms| == |group| && forall j | 0 <= j < |group| :: ms[j] == MoveInto(group[j], out + [k])
    requires MovesCover(moves, s, out, done)
    ensures MovesCover(moves + ms, s, out, done + [k])
  {
    FilterSpec(s, DateKeyOf, k);
    FilterOwnKey(s, DateKeyOf);
    GroupMovesAreOrganizeMoves(s, out, k, group, ms);
    forall f | f in s && DateKeyOf(f) in done + [k] ensures OrganizeMove(f, out) in moves + ms {
      if DateKeyOf(f) == k {
        var j :| 0 <= j < |group| && group[j] == f;
        assert ms[j] == OrganizeMove(f, out);
      } else {
        assert DateKeyOf(f) in done;
      }
    }
  }

  /** Each move of a group takes one of the targets into its own date's folder. */
  lemma GroupMovesAreOrganizeMoves(s: seq<AudioFile>, out: Path, k: string, group: seq<AudioFile>, ms: seq<Move>)
    requires forall j | 0 <= j < |group| :: group[j] in s && DateKeyOf(group[j]) == k
    requires |ms| == |group| && forall j | 0 <= j < |group| :: ms[j] == MoveInto(group[j], out + [k])
    ensures forall m | m in ms :: MovesSomeFile(m, s, out)
  {
    forall m | m in ms ensures MovesSomeFile(m, s, out) {
      var j :| 0 <= j < |ms| && ms[j] == m;
      var i :| 0 <= i < |s| && s[i] == group[j];
      assert m == OrganizeMove(s[i], out);
    }
  }
}
