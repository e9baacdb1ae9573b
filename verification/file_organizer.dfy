/**
 * Session-day organisation of recordings for display: the time-zone
 * adjustment with its early-morning cutoff, the grouping by adjusted day,
 * the hiding of videos that already have an MP3, the colour of each day and
 * the per-file display metadata.
 *
 * Zones are fixed UTC offsets in seconds (no daylight saving); naive
 * recording times are read as Asia/Shanghai time, UTC+8.
 */
module FileOrganizer {
  import opened Wrappers
  import opened Text
  import opened Calendar
  import opened DateText
  import opened Collections
  import opened AudioModels

  /** A UTC offset in seconds; Python's `tzinfo` offsets lie strictly within one day. */
  type UtcOffset = x: int | -86400 < x < 86400

  /** Asia/Shanghai: the zone naive timestamps are localised to. */
  const SourceOffset: UtcOffset := 8 * 3600

  const SecondsPerDay := 86400

  /** `TimeZoneAdapter(timezone, cutoff_hour)`: the target zone's name and offset, and the cutoff hour. */
  datatype TimeZoneAdapter = TimeZoneAdapter(timezone: string, offset: UtcOffset, cutoffHour: int)
  {
    /** The wall-clock time in the target zone: `localize` to Shanghai, then `astimezone`. */
    function LocalTime(t: Stamp): DateTime {
      ShiftSeconds(t, offset - SourceOffset)
    }

    /** `get_adjusted_date`: the local date, or the day before it when the local hour is before the cutoff. */
    function GetAdjustedDate(t: Stamp): (d: Date)
      ensures ValidDate(d)
    {
      var local := LocalTime(t);
      if local.hour < cutoffHour then AddDays(local.date, -1) else local.date
    }

    /**
     * Python computes the adjusted date without `OverflowError`. pytz's `localize` for
     * Asia/Shanghai, a zone with transitions, looks up the recording time one day earlier and
     * one day later, so both of those days must lie inside years 1 to 9999; then the local time
     * and, when the cutoff applies, the day before it must lie there too.
     */
    predicate InRange(t: Stamp) {
      var local := LocalTime(t);
      InYearRange(AddDays(t.date, -1)) && InYearRange(AddDays(t.date, 1))
      && InYearRange(local.date) && (local.hour < cutoffHour ==> InYearRange(AddDays(local.date, -1)))
    }
  }

  /** `TimeZoneAdapter()` and `TimeZoneAdapter('UTC')`: UTC with the 4 a.m. cutoff. */
  const DefaultAdapter := TimeZoneAdapter("UTC", 0, 4)

  /** The cutoff as an hour of the day: a cutoff below 0 never applies and one above 24 always does. */
  function ClampedCutoff(c: int): (h: int)
    ensures 0 <= h <= 24
  {
    if c < 0 then 0 else if c > 24 then 24 else c
  }

  /** Whole days of a second count that may be off the day boundary by less than a day either way. */
  lemma DayOf(q: int, r: int)
    requires -SecondsPerDay <= r < SecondsPerDay
    ensures r >= 0 ==> (q * SecondsPerDay + r) / SecondsPerDay == q
    ensures r < 0 ==> (q * SecondsPerDay + r) / SecondsPerDay == q - 1
  {
    if r >= 0 {
      assert q * SecondsPerDay <= q * SecondsPerDay + r < (q + 1) * SecondsPerDay;
    } else {
      assert (q - 1) * SecondsPerDay <= q * SecondsPerDay + r < q * SecondsPerDay;
    }
  }

  /**
   * The adjusted day in closed form: count the seconds of the recording on the target zone's
   * clock, step back by the cutoff, and take the whole days. So the session day changes at the
   * cutoff hour, not at midnight.
   */
  lemma AdjustedDayNumber(a: TimeZoneAdapter, t: Stamp)
    ensures DayNumber(a.GetAdjustedDate(t))
            == (Ordinal(t) + a.offset - SourceOffset - ClampedCutoff(a.cutoffHour) * 3600) / SecondsPerDay
  {
    var local := a.LocalTime(t);
    var c := ClampedCutoff(a.cutoffHour);
    var sod := SecondOfDay(local);
    assert Ordinal(local) == DayNumber(local.date) * SecondsPerDay + sod;
    assert local.hour < a.cutoffHour <==> local.hour < c;
    if local.hour < c {
      assert sod < c * 3600;
      DayOf(DayNumber(local.date), sod - c * 3600);
    } else {
      assert sod >= c * 3600;
      DayOf(DayNumber(local.date), sod - c * 3600);
    }
  }

  lemma DivMonotone(x: int, y: int)
    requires x <= y
    ensures x / SecondsPerDay <= y / SecondsPerDay
  {
  }

  /** A later recording never belongs to an earlier session day. */
  lemma AdjustedDateMonotone(a: TimeZoneAdapter, t1: Stamp, t2: Stamp)
    requires !Before(t2, t1)
    ensures !DateBefore(a.GetAdjustedDate(t2), a.GetAdjustedDate(t1))
  {
    OrdinalOrder(t1, t2);
    AdjustedDayNumber(a, t1);
    AdjustedDayNumber(a, t2);
    var c := ClampedCutoff(a.cutoffHour);
    DivMonotone(Ordinal(t1) + a.offset - SourceOffset - c * 3600, Ordinal(t2) + a.offset - SourceOffset - c * 3600);
    DayNumberOrder(a.GetAdjustedDate(t2), a.GetAdjustedDate(t1));
  }

  /** Where Python computes the adjusted day without overflow, the day is a real in-range date. */
  lemma AdjustedInRange(a: TimeZoneAdapter, t: Stamp)
    requires a.InRange(t)
    ensures InYearRange(a.GetAdjustedDate(t))
  {
  }

  /**
   * The first and last day a `datetime` can hold never get an adjusted day: `localize` steps
   * a day past them whatever the adapter and the clock time.
   */
  lemma EdgeDaysOverflow(a: TimeZoneAdapter, t: Stamp)
    requires t.date == Date(1, 1, 1) || t.date == Date(9999, 12, 31)
    ensures !a.InRange(t)
  {
    if t.date == Date(1, 1, 1) {
      assert AddDays(t.date, -1) == AddDays(PrevDay(t.date), 0);
    } else {
      assert AddDays(t.date, 1) == AddDays(NextDay(t.date), 0);
    }
  }

  // ------------------------------------------------------------------ grouping by adjusted day

  /** A file's adjusted day. */
  function AdjustedOf(a: TimeZoneAdapter): AudioFile -> Date {
    (f: AudioFile) => a.GetAdjustedDate(f.timestamp)
  }

  /** Every file's adjusted day is computed without overflow. */
  predicate AllInRange(a: TimeZoneAdapter, files: seq<AudioFile>) {
    forall f | f in files :: a.InRange(f.timestamp)
  }

  /**
   * `group_by_adjusted_date`: the files grouped by adjusted day, the days in the order they
   * first occur (dict insertion order) and each day's files in input order.
   */
  method GroupByAdjustedDate(a: TimeZoneAdapter, files: seq<AudioFile>) returns (days: seq<Date>, groups: map<Date, seq<AudioFile>>)
    ensures Grouped(files, AdjustedOf(a), days, groups)
  {
    days, groups := GroupInOrder(files, AdjustedOf(a));
  }

  /** The grouping by adjusted day is a partition: each file sits in its day's group, once. */
  lemma GroupByAdjustedDatePartition(a: TimeZoneAdapter, files: seq<AudioFile>, days: seq<Date>, groups: map<Date, seq<AudioFile>>)
    requires Grouped(files, AdjustedOf(a), days, groups)
    ensures forall f | f in files :: a.GetAdjustedDate(f.timestamp) in groups && f in groups[a.GetAdjustedDate(f.timestamp)]
    ensures forall d | d in groups :: forall f | f in groups[d] :: f in files && a.GetAdjustedDate(f.timestamp) == d
    ensures GroupSizes(days, files, AdjustedOf(a)) == |files|
  {
    GroupsPartition(files, AdjustedOf(a));
    FirstOccurrencesSpec(files, AdjustedOf(a));
    forall d | d in groups
      ensures forall f | f in groups[d] :: f in files && a.GetAdjustedDate(f.timestamp) == d
    {
      FilterSpec(files, AdjustedOf(a), d);
    }
  }

  // ------------------------------------------------------------------ the day keys of group_files

  /** `adjusted_date.strftime("%Y-%m-%d")`: the string `group_files` keys its groups by (unused where Python overflows). */
  function DayKeyOf(a: TimeZoneAdapter): AudioFile -> string {
    (f: AudioFile) => if a.InRange(f.timestamp) then IsoDate(a.GetAdjustedDate(f.timestamp)) else ""
  }

  /** Among in-range files the files keyed by a day's string are the files of that day. */
  lemma DayKeySameDay(a: TimeZoneAdapter, files: seq<AudioFile>, d: Date)
    requires AllInRange(a, files) && ValidDate(d) && InYearRange(d)
    ensures Filter(files, DayKeyOf(a), IsoDate(d)) == Filter(files, AdjustedOf(a), d)
  {
    forall i | 0 <= i < |files|
      ensures DayKeyOf(a)(files[i]) == IsoDate(d) <==> AdjustedOf(a)(files[i]) == d
    {
      var e := a.GetAdjustedDate(files[i].timestamp);
      assert files[i] in files;
      if IsoDate(e) == IsoDate(d) {
        IsoDateInjective(e, d);
      }
    }
    FilterSameClass(files, DayKeyOf(a), IsoDate(d), AdjustedOf(a), d);
  }

  /** A group key of in-range files parses back to the day of some file, and its group holds that day's files. */
  lemma KeyIsDay(a: TimeZoneAdapter, files: seq<AudioFile>, keys: seq<string>, groups: map<string, seq<AudioFile>>, k: string)
    requires AllInRange(a, files) && Grouped(files, DayKeyOf(a), keys, groups) && k in groups
    ensures ParseIsoDate(k).Some?
    ensures groups[k] == Filter(files, AdjustedOf(a), ParseIsoDate(k).value)
    ensures groups[k] != []
  {
    FirstOccurrencesSpec(files, DayKeyOf(a));
    FilterOwnKey(files, DayKeyOf(a));
    var i :| 0 <= i < |files| && DayKeyOf(a)(files[i]) == k;
    var f := files[i];
    assert f in files && a.InRange(f.timestamp);
    var d := a.GetAdjustedDate(f.timestamp);
    AdjustedInRange(a, f.timestamp);
    assert k == IsoDate(d);
    ParseIsoDateRoundTrip(d);
    DayKeySameDay(a, files, d);
  }

  /** The file's own key is one of the keys, and parses back to the file's day. */
  lemma FileKeyListed(a: TimeZoneAdapter, files: seq<AudioFile>, keys: seq<string>, f: AudioFile)
    requires AllInRange(a, files) && keys == FirstOccurrences(files, DayKeyOf(a)) && f in files
    ensures DayKeyOf(a)(f) in keys && ParseIsoDate(DayKeyOf(a)(f)) == Some(a.GetAdjustedDate(f.timestamp))
  {
    FirstOccurrencesSpec(files, DayKeyOf(a));
    var i :| 0 <= i < |files| && files[i] == f;
    ParseIsoDateRoundTrip(a.GetAdjustedDate(f.timestamp));
  }

  /** A key compared as itself. */
  function Itself(s: string): string {
    s
  }

  /** `sorted(keys)`: the keys in string order. */
  function KeyOrder(keys: seq<string>): (r: seq<string>)
    ensures SortedBy(r, Itself, LexLe) && multiset(r) == multiset(keys)
  {
    LexLeTotal();
    SortBy(keys, Itself, LexLe)
  }

  // ------------------------------------------------------------------ day colours

  /** `adjusted_dates` after the first loop of `group_files`: each path mapped to the adjusted day of the last file with that path. */
  function PathDates(a: TimeZoneAdapter, files: seq<AudioFile>): map<Path, Date> {
    if files == [] then map[]
    else
      var f := files[|files| - 1];
      PathDates(a, files[..|files| - 1])[f.path := a.GetAdjustedDate(f.timestamp)]
  }

  /** No two files share a path, as in a set of files (their hash and equality are the path's). */
  predicate DistinctPaths(files: seq<AudioFile>) {
    forall i, j | 0 <= i < j < |files| :: files[i].path != files[j].path
  }

  /** The map has exactly the files' paths. */
  lemma {:induction false} PathDatesKeys(a: TimeZoneAdapter, files: seq<AudioFile>)
    ensures PathDates(a, files).Keys == set f | f in files :: f.path
    decreases |files|
  {
    if files != [] {
      var p := files[..|files| - 1];
      var g := files[|files| - 1];
      assert files == p + [g];
      PathDatesKeys(a, p);
      assert (set f | f in files :: f.path) == (set f | f in p :: f.path) + {g.path};
    }
  }

  /** Every day in the map is the adjusted day of some file. */
  lemma {:induction false} PathDatesSome(a: TimeZoneAdapter, files: seq<AudioFile>)
    ensures forall d | d in PathDates(a, files).Values :: exists f | f in files :: a.GetAdjustedDate(f.timestamp) == d
    decreases |files|
  {
    if files != [] {
      var p := files[..|files| - 1];
      var g := files[|files| - 1];
      assert files == p + [g];
      PathDatesSome(a, p);
      var m := PathDates(a, p);
      forall d | d in PathDates(a, files).Values ensures exists f | f in files :: a.GetAdjustedDate(f.timestamp) == d {
        var k :| k in PathDates(a, files) && PathDates(a, files)[k] == d;
        if k == g.path {
          assert a.GetAdjustedDate(g.timestamp) == d;
        } else {
          assert m[k] == d;
          assert d in m.Values;
          var f :| f in p && a.GetAdjustedDate(f.timestamp) == d;
          assert f in files;
        }
      }
    }
  }

  /** With distinct paths the map holds each file's own adjusted day. */
  lemma {:induction false} PathDatesOwnDay(a: TimeZoneAdapter, files: seq<AudioFile>)
    requires DistinctPaths(files)
    ensures forall f | f in files :: f.path in PathDates(a, files) && PathDates(a, files)[f.path] == a.GetAdjustedDate(f.timestamp)
    decreases |files|
  {
    if files != [] {
      var p := files[..|files| - 1];
      var g := files[|files| - 1];
      assert files == p + [g];
      assert DistinctPaths(p) by {
        forall i, j | 0 <= i < j < |p| ensures p[i].path != p[j].path {
          assert p[i] == files[i] && p[j] == files[j];
        }
      }
      PathDatesOwnDay(a, p);
      var m := PathDates(a, p);
      assert PathDates(a, files) == m[g.path := a.GetAdjustedDate(g.timestamp)];
      forall f | f in files
        ensures f.path in PathDates(a, files) && PathDates(a, files)[f.path] == a.GetAdjustedDate(f.timestamp)
      {
        if f != g {
          var i :| 0 <= i < |files| && files[i] == f;
          assert i < |p| && p[i] == f;
          assert f.path != g.path;
          assert f.path in m && m[f.path] == a.GetAdjustedDate(f.timestamp);
        }
      }
    }
  }

  /** With distinct paths the distinct days of the map are the files' days. */
  lemma PathDatesValues(a: TimeZoneAdapter, files: seq<AudioFile>)
    requires DistinctPaths(files)
    ensures PathDates(a, files).Values == set f | f in files :: a.GetAdjustedDate(f.timestamp)
  {
    var m := PathDates(a, files);
    PathDatesKeys(a, files);
    PathDatesOwnDay(a, files);
    forall v | v in m.Values ensures exists f | f in files :: a.GetAdjustedDate(f.timestamp) == v {
      var p :| p in m && m[p] == v;
      assert p in m.Keys;
      var f :| f in files && f.path == p;
    }
    forall f | f in files ensures a.GetAdjustedDate(f.timestamp) in m.Values {
      assert m[f.path] == a.GetAdjustedDate(f.timestamp);
    }
  }

  /** How many of `days` come before `d`: the position of `d` in `sorted(days)` (0 for the first). */
  function DayRank(d: Date, days: set<Date>): nat {
    |set e | e in days && DayNumber(e) < DayNumber(d)|
  }

  /** Dates are sorted by their day number, which orders valid dates as `date` comparison does. */
  function DayKey(d: Date): int {
    DayNumber(d)
  }

  /** `sorted(days)`: the days in chronological order. */
  function Chronological(days: seq<Date>): (r: seq<Date>)
    ensures SortedBy(r, DayKey, IntLe) && multiset(r) == multiset(days)
  {
    IntLeTotal();
    SortBy(days, DayKey, IntLe)
  }

  /** In a chronologically increasing list of all the days, each day's index is its rank. */
  lemma RankInSorted(days: seq<Date>, values: set<Date>, j: nat)
    requires Enumerates(days, values)
    requires forall x, y | 0 <= x < y < |days| :: DayNumber(days[x]) < DayNumber(days[y])
    requires j < |days|
    ensures DayRank(days[j], values) == j
  {
    var below := set e | e in values && DayNumber(e) < DayNumber(days[j]);
    assert below == set x | x in days[..j] by {
      forall e | e in below ensures e in days[..j] {
        var k :| 0 <= k < |days| && days[k] == e;
      }
    }
    DistinctCount(days[..j]);
  }

  /** A sorted list of distinct valid days increases strictly. */
  lemma SortedDaysIncrease(days: seq<Date>)
    requires SortedBy(days, DayKey, IntLe)
    requires forall x, y | 0 <= x < y < |days| :: days[x] != days[y]
    requires forall x | 0 <= x < |days| :: ValidDate(days[x])
    ensures forall x, y | 0 <= x < y < |days| :: DayNumber(days[x]) < DayNumber(days[y])
  {
    forall x, y | 0 <= x < y < |days| ensures DayNumber(days[x]) < DayNumber(days[y]) {
      DayNumberOrder(days[x], days[y]);
    }
  }

  // ------------------------------------------------------------------ the organizer

  /** A palette is never empty: `colors or DEFAULT_COLORS`. */
  type Palette = s: seq<string> | |s| > 0 witness ["#FFFFFF"]

  /** `FileOrganizer.DEFAULT_COLORS`. */
  const DefaultColors: Palette :=
    ["#FFB3B3", "#B3D9FF", "#B3FFB3", "#FFFFB3", "#E6B3FF", "#FFB3E6", "#B3FFE6", "#FFE6B3", "#B3B3FF", "#E6FFB3"]

  /** `FileGroup`. */
  datatype FileGroup = FileGroup(dateKey: string, displayDate: Date, files: seq<AudioFile>, color: Option<string>)

  /**
   * What `group_files` promises: the groups in increasing day order, each keyed by its day,
   * holding exactly that day's files sorted by time, none empty; every file's day has a group.
   */
  ghost predicate DayGroups(a: TimeZoneAdapter, files: seq<AudioFile>, gs: seq<FileGroup>) {
    (forall i, j | 0 <= i < j < |gs| :: DateBefore(gs[i].displayDate, gs[j].displayDate))
    && (forall i | 0 <= i < |gs| ::
          ValidDate(gs[i].displayDate) && InYearRange(gs[i].displayDate)
          && gs[i].dateKey == IsoDate(gs[i].displayDate)
          && SortedBy(gs[i].files, TimeKey, IntLe)
          && multiset(gs[i].files) == multiset(Filter(files, AdjustedOf(a), gs[i].displayDate))
          && gs[i].files != [])
    && (forall f | f in files :: exists i | 0 <= i < |gs| :: gs[i].displayDate == a.GetAdjustedDate(f.timestamp))
  }

  /** Each group's colour is `day_colors.get(display_date)`, the palette entry of its day's rank among `days`. */
  ghost predicate Colored(gs: seq<FileGroup>, days: set<Date>, colors: Palette) {
    forall i | 0 <= i < |gs| ::
      gs[i].color == if gs[i].displayDate in days then Some(colors[DayRank(gs[i].displayDate, days) % |colors|]) else None
  }

  /** A video whose stem is the stem of some MP3 is not shown. */
  predicate Hidden(f: AudioFile, stems: set<string>) {
    f.IsVideo() && Stem(Name(f.path)) in stems
  }

  /** `{f.path.stem for f in files if f.format == 'mp3'}`. */
  function Mp3Stems(files: seq<AudioFile>): set<string> {
    set f | f in files && f.format == "mp3" :: Stem(Name(f.path))
  }

  /** The files the filter loop of `prepare_files` keeps, in iteration order. */
  function Displayed(files: seq<AudioFile>, stems: set<string>): seq<AudioFile> {
    if files == [] then []
    else
      var f := files[|files| - 1];
      Displayed(files[..|files| - 1], stems) + (if Hidden(f, stems) then [] else [f])
  }

  /** The kept files are exactly the files not hidden. */
  lemma {:induction false} DisplayedSpec(files: seq<AudioFile>, stems: set<string>)
    ensures forall f :: f in Displayed(files, stems) <==> f in files && !Hidden(f, stems)
    decreases |files|
  {
    if files != [] {
      DisplayedSpec(files[..|files| - 1], stems);
      assert files == files[..|files| - 1] + [files[|files| - 1]];
    }
  }

  /** Some MP3 among the files has the stem of `f`. */
  predicate HasMp3Twin(files: seq<AudioFile>, f: AudioFile) {
    exists g | g in files && g.format == "mp3" :: Stem(Name(g.path)) == Stem(Name(f.path))
  }

  /**
   * What `prepare_files` shows: every file except a video that has an MP3 of the same stem
   * among the files; in particular every MP3 is shown.
   */
  lemma PreparedFiles(files: seq<AudioFile>, f: AudioFile)
    ensures f in Displayed(files, Mp3Stems(files)) <==> f in files && !(f.IsVideo() && HasMp3Twin(files, f))
    ensures f in files && f.format == "mp3" ==> f in Displayed(files, Mp3Stems(files))
  {
    DisplayedSpec(files, Mp3Stems(files));
    if HasMp3Twin(files, f) {
      var g :| g in files && g.format == "mp3" && Stem(Name(g.path)) == Stem(Name(f.path));
      assert Stem(Name(f.path)) in Mp3Stems(files);
    }
    if f.format == "mp3" {
      Mp3IsNotVideo(f);
    }
  }

  /** An MP3 is never a video. */
  lemma Mp3IsNotVideo(f: AudioFile)
    requires f.format == "mp3"
    ensures !f.IsVideo()
  {
  }

  /** Display metadata of a file. */
  datatype Metadata = Metadata(icon: string, suffix: string, selectable: bool, disabled: bool, tooltip: Option<string>)

  /** `str(n)`. */
  function DecimalText(n: int): string {
    if n < 0 then "-" + Padded(-n, 1) else Padded(n, 1)
  }

  const PackageIcon := "\U{1F4E6}"
  const VideoIcon := "\U{1F3AC}"
  const LockIcon := "\U{1F512}"
  const CheckIcon := "\U{2713}"
  const NoteIcon := "\U{1F3B5}"

  /** `FileOrganizer`: the adapter (always with the default 4 a.m. cutoff), the palette and the cache of MP3 stems. */
  class FileOrganizer {
    const adapter: TimeZoneAdapter
    const colors: Palette
    var mp3StemsCache: set<string>

    /** `FileOrganizer(timezone, colors)`: the zone is given with its UTC offset; an empty palette means the default. */
    constructor (timezone: string, offset: UtcOffset, colors: seq<string>)
      ensures adapter == TimeZoneAdapter(timezone, offset, 4)
      ensures this.colors == (if colors == [] then DefaultColors else colors)
      ensures mp3StemsCache == {}
    {
      adapter := TimeZoneAdapter(timezone, offset, 4);
      this.colors := if colors == [] then DefaultColors else colors;
      mp3StemsCache := {};
    }

    /**
     * `prepare_files`: remember the stems of the MP3s, drop the videos that have one, and sort
     * the rest by time. `files` lists the set in its iteration order.
     */
    method PrepareFiles(files: seq<AudioFile>) returns (display: seq<AudioFile>)
      modifies this
      ensures mp3StemsCache == Mp3Stems(files)
      ensures SortedBy(display, TimeKey, IntLe)
      ensures multiset(display) == multiset(Displayed(files, mp3StemsCache))
    {
      var stems := Mp3Stems(files);
      mp3StemsCache := stems;
      var kept: seq<AudioFile> := [];
      for i := 0 to |files|
        invariant mp3StemsCache == stems && kept == Displayed(files[..i], stems)
      {
        PrefixSnoc(files, i);
        if Hidden(files[i], stems) {
          continue;
        }
        kept := kept + [files[i]];
      }
      assert files[..|files|] == files;
      display := ByTime(kept);
    }
  
    /**
     * The first loop of `group_files`: each file's adjusted day under its path, and the files
     * grouped by the day's `%Y-%m-%d` key in first-occurrence order. `ok` is false where
     * Python's `datetime` arithmetic overflows on some file, which raises `OverflowError`.
     */
    method CollectDays(files: seq<AudioFile>) returns (ok: bool, adjustedDates: map<Path, Date>, keys: seq<string>, groups: map<string, seq<AudioFile>>)
      ensures ok <==> AllInRange(adapter, files)
      ensures ok ==> adjustedDates == PathDates(adapter, files) && Grouped(files, DayKeyOf(adapter), keys, groups)
    {
      adjustedDates, keys, groups := map[], [], map[];
      for i := 0 to |files|
        invariant AllInRange(adapter, files[..i])
        invariant adjustedDates == PathDates(adapter, files[..i])
        invariant Grouped(files[..i], DayKeyOf(adapter), keys, groups)
      {
        var f := files[i];
        if !adapter.InRange(f.timestamp) {
          assert f in files;
          return false, adjustedDates, keys, groups;
        }
        CollectStep(adapter, files, i, adjustedDates);
        var day := adapter.GetAdjustedDate(f.timestamp);
        adjustedDates := adjustedDates[f.path := day];
        var key := IsoDate(day);
        if key in groups {
          GroupedSnocKnown(files[..i], f, DayKeyOf(adapter), keys, groups);
          groups := groups[key := groups[key] + [f]];
        } else {
          GroupedSnocNew(files[..i], f, DayKeyOf(adapter), keys, groups);
          groups := groups[key := [f]];
          keys := keys + [key];
        }
      }
      assert files[..|files|] == files;
      ok := true;
    }

    /**
     * `day_colors`: the distinct days sorted chronologically and given the palette colours in
     * turn, so each day gets the colour of its rank, cycling through the palette.
     */
    method DayColors(days: set<Date>) returns (dayColors: map<Date, string>)
      requires forall d | d in days :: ValidDate(d)
      ensures dayColors.Keys == days
      ensures forall d | d in dayColors :: dayColors[d] == colors[DayRank(d, days) % |colors|]
    {
      var unique := SetToSeq(days);
      var sorted := Chronological(unique);
      EnumeratesByMultiset(sorted, days);
      dayColors := map[];
      for i := 0 to |sorted|
        invariant dayColors.Keys == set x | x in sorted[..i]
        invariant forall j | 0 <= j < i :: dayColors[sorted[j]] == colors[j % |colors|]
      {
        PrefixSnoc(sorted, i);
        dayColors := dayColors[sorted[i] := colors[i % |colors|]];
      }
      RankColors(colors, sorted, days, dayColors);
    }

    /**
     * The last loop of `group_files`: one group per key in sorted key order, its day read back
     * from the key, its files sorted by time and its colour looked up by day.
     */
    method BuildGroups(files: seq<AudioFile>, keys: seq<string>, groups: map<string, seq<AudioFile>>, dayColors: map<Date, string>)
      returns (out: seq<FileGroup>)
      requires AllInRange(adapter, files) && Grouped(files, DayKeyOf(adapter), keys, groups)
      ensures DayGroups(adapter, files, out)
      ensures forall i | 0 <= i < |out| ::
                out[i].color == if out[i].displayDate in dayColors then Some(dayColors[out[i].displayDate]) else None
    {
      var sortedKeys := KeyOrder(keys);
      SortedKeysParse(adapter, files, keys, groups, sortedKeys);
      out := [];
      for i := 0 to |sortedKeys|
        invariant |out| == i
        invariant forall j | 0 <= j < i :: sortedKeys[j] in groups && ParseIsoDate(sortedKeys[j]).Some?
                                            && out[j] == GroupOfKey(sortedKeys[j], groups, dayColors)
      {
        GroupsSnoc(sortedKeys, i, out, groups, dayColors);
        out := out + [GroupOfKey(sortedKeys[i], groups, dayColors)];
      }
      assert forall j | 0 <= j < |out| :: Built(out[j], sortedKeys[j], groups, dayColors);
      BuiltGroupsAreDayGroups(adapter, files, keys, groups, sortedKeys, out, dayColors);
    }

    /**
     * `group_files`: the files grouped by adjusted day in chronological order, each day coloured
     * by its rank among the distinct days of the path map; `None` where Python raises `OverflowError`.
     */
    method GroupFiles(files: seq<AudioFile>) returns (r: Option<seq<FileGroup>>)
      ensures r.None? <==> !AllInRange(adapter, files)
      ensures r.Some? ==> DayGroups(adapter, files, r.value) && Colored(r.value, PathDates(adapter, files).Values, colors)
    {
      var ok, adjustedDates, keys, groups := CollectDays(files);
      if !ok {
        return None;
      }
      PathDatesSome(adapter, files);
      var dayColors := DayColors(adjustedDates.Values);
      var gs := BuildGroups(files, keys, groups, dayColors);
      r := Some(gs);
    }

    /** `get_file_color`: the colour of the rank of the file's day among the map's days; none for an unknown path. */
    function GetFileColor(f: AudioFile, adjustedDates: map<Path, Date>): (c: Option<string>)
      ensures c.Some? <==> f.path in adjustedDates
      ensures c.Some? ==> c.value in colors
    {
      if f.path !in adjustedDates then None
      else Some(colors[DayRank(adjustedDates[f.path], adjustedDates.Values) % |colors|])
    }

    /** `_get_file_icon`: merged output, then video, then merged, then converted, then converted-from-a-source. */
    function FileIcon(f: AudioFile): (icon: string)
      reads f
      ensures icon == PackageIcon <==> f.state == MergedOutput
      ensures icon == VideoIcon <==> f.state != MergedOutput && f.IsVideo()
      ensures icon == LockIcon <==> f.state != MergedOutput && !f.IsVideo() && f.state == Merged
      ensures icon == CheckIcon <==> f.state != MergedOutput && !f.IsVideo() && f.state == Converted
      ensures icon == NoteIcon <==>
        f.state != MergedOutput && !f.IsVideo() && f.state != Merged && f.state != Converted && f.sourceFile.Some?
      ensures icon == "" <==> f.state != MergedOutput && !f.IsVideo() && f.state != Merged && f.state != Converted && f.sourceFile.None?
    {
      if f.state == MergedOutput then PackageIcon
      else if f.IsVideo() then VideoIcon
      else if f.state == Merged then LockIcon
      else if f.state == Converted then CheckIcon
      else if f.sourceFile.Some? then NoteIcon
      else ""
    }

    /** `_get_file_suffix`: merged output, then converted-from-a-source, then merged. */
    function FileSuffix(f: AudioFile): (suffix: string)
      reads f
      ensures suffix == " [OUTPUT]" <==> f.state == MergedOutput
      ensures suffix == " [CONVERTED]" <==> f.state != MergedOutput && f.sourceFile.Some?
      ensures suffix == " [MERGED]" <==> f.state != MergedOutput && f.sourceFile.None? && f.state == Merged
      ensures suffix == "" <==> f.state != MergedOutput && f.sourceFile.None? && f.state != Merged
    {
      if f.state == MergedOutput then " [OUTPUT]"
      else if f.sourceFile.Some? then " [CONVERTED]"
      else if f.state == Merged then " [MERGED]"
      else ""
    }

    /** The tooltip of an unprocessed file: both dates when the adjustment moved the day, else the one date. */
    function DateTooltip(adjusted: Date, original: Date): string
      requires adjusted.year >= 0 && adjusted.month >= 0 && adjusted.day >= 0
      requires original.year >= 0 && original.month >= 0 && original.day >= 0
    {
      if adjusted != original then
        "Original: " + IsoDate(original) + "\n"
        + "In " + adapter.timezone + ": " + IsoDate(adjusted) + " "
        + "(" + DecimalText(adapter.cutoffHour) + "am cutoff)"
      else "Date in " + adapter.timezone + ": " + IsoDate(adjusted)
    }

    /**
     * `get_file_metadata`. Unprocessed and processed files are selectable; merged, converted and
     * merged-output files are disabled; unprocessed and merged-output files carry a tooltip.
     * `None` where computing an unprocessed file's adjusted day raises `OverflowError`.
     */
    function GetFileMetadata(f: AudioFile): (m: Option<Metadata>)
      reads f
      ensures m.None? <==> f.state == Unprocessed && !adapter.InRange(f.timestamp)
      ensures m.Some? ==> (m.value.selectable <==> f.state == Unprocessed || f.state == Processed)
      ensures m.Some? ==> (m.value.disabled <==> f.state == Merged || f.state == Converted || f.state == MergedOutput)
      ensures m.Some? ==> !(m.value.selectable && m.value.disabled)
      ensures m.Some? ==> (m.value.tooltip.Some? <==> f.state == Unprocessed || f.state == MergedOutput)
      ensures m.Some? && m.value.disabled ==> m.value.icon != ""
    {
      var selectable := f.state in [Unprocessed, Processed];
      var disabled := f.state in [Merged, Converted, MergedOutput];
      var icon := FileIcon(f);
      var suffix := FileSuffix(f);
      if f.state == Unprocessed then
        if !adapter.InRange(f.timestamp) then None
        else
          var adjusted := adapter.GetAdjustedDate(f.timestamp);
          AdjustedInRange(adapter, f.timestamp);
          Some(Metadata(icon, suffix, selectable, disabled, Some(DateTooltip(adjusted, f.timestamp.date))))
      else if f.state == MergedOutput then
        Some(Metadata(icon, suffix, selectable, disabled, Some("Merged output file - contains multiple recordings combined")))
      else
        Some(Metadata(icon, suffix, selectable, disabled, None))
    }
  }

  /** Colouring the chronologically sorted days in turn gives each day the colour of its rank. */
  lemma RankColors(colors: Palette, sorted: seq<Date>, days: set<Date>, dayColors: map<Date, string>)
    requires forall d | d in days :: ValidDate(d)
    requires SortedBy(sorted, DayKey, IntLe) && Enumerates(sorted, days)
    requires dayColors.Keys == set x | x in sorted[..|sorted|]
    requires forall j | 0 <= j < |sorted| :: dayColors[sorted[j]] == colors[j % |colors|]
    ensures dayColors.Keys == days
    ensures forall d | d in dayColors :: dayColors[d] == colors[DayRank(d, days) % |colors|]
  {
    assert sorted[..|sorted|] == sorted;
    SortedDaysIncrease(sorted);
    forall d | d in dayColors ensures dayColors[d] == colors[DayRank(d, days) % |colors|] {
      var j :| 0 <= j < |sorted| && sorted[j] == d;
      RankInSorted(sorted, days, j);
    }
  }

  /** One more in-range file read by the first loop of `group_files`: the checks and the path map grow by it. */
  lemma CollectStep(a: TimeZoneAdapter, files: seq<AudioFile>, i: nat, adjustedDates: map<Path, Date>)
    requires i < |files| && a.InRange(files[i].timestamp)
    requires AllInRange(a, files[..i]) && adjustedDates == PathDates(a, files[..i])
    ensures files[..i + 1] == files[..i] + [files[i]]
    ensures AllInRange(a, files[..i + 1])
    ensures adjustedDates[files[i].path := a.GetAdjustedDate(files[i].timestamp)] == PathDates(a, files[..i + 1])
    ensures DayKeyOf(a)(files[i]) == IsoDate(a.GetAdjustedDate(files[i].timestamp))
  {
    PrefixSnoc(files, i);
    AdjustedInRange(a, files[i].timestamp);
  }

  /** Every sorted key has a group and reads back as a date. */
  lemma SortedKeysParse(a: TimeZoneAdapter, files: seq<AudioFile>, keys: seq<string>, groups: map<string, seq<AudioFile>>, sortedKeys: seq<string>)
    requires AllInRange(a, files) && Grouped(files, DayKeyOf(a), keys, groups)
    requires multiset(sortedKeys) == multiset(keys)
    ensures forall j | 0 <= j < |sortedKeys| :: sortedKeys[j] in groups && ParseIsoDate(sortedKeys[j]).Some?
  {
    forall j | 0 <= j < |sortedKeys| ensures sortedKeys[j] in groups && ParseIsoDate(sortedKeys[j]).Some? {
      assert sortedKeys[j] in multiset(keys);
      KeyIsDay(a, files, keys, groups, sortedKeys[j]);
    }
  }

  /** One built group: the key's group, its day read back from the key, its files by time, its day's colour. */
  ghost predicate Built(g: FileGroup, key: string, groups: map<string, seq<AudioFile>>, dayColors: map<Date, string>) {
    key in groups
    && g.dateKey == key && ParseIsoDate(key) == Some(g.displayDate)
    && SortedBy(g.files, TimeKey, IntLe) && multiset(g.files) == multiset(groups[key])
    && g.color == if g.displayDate in dayColors then Some(dayColors[g.displayDate]) else None
  }

  /** One group of `group_files`: the day read back from its key, its files by time, its colour by day. */
  function GroupOfKey(key: string, groups: map<string, seq<AudioFile>>, dayColors: map<Date, string>): (g: FileGroup)
    requires key in groups && ParseIsoDate(key).Some?
    ensures Built(g, key, groups, dayColors)
  {
    var displayDate := ParseIsoDate(key).value;
    FileGroup(key, displayDate, ByTime(groups[key]),
              if displayDate in dayColors then Some(dayColors[displayDate]) else None)
  }

  /** One more key of the loop of `group_files` turned into its group. */
  lemma GroupsSnoc(sortedKeys: seq<string>, i: nat, out: seq<FileGroup>,
                   groups: map<string, seq<AudioFile>>, dayColors: map<Date, string>)
    requires i < |sortedKeys| && |out| == i
    requires forall j | 0 <= j < |sortedKeys| :: sortedKeys[j] in groups && ParseIsoDate(sortedKeys[j]).Some?
    requires forall j | 0 <= j < i :: out[j] == GroupOfKey(sortedKeys[j], groups, dayColors)
    ensures var next := out + [GroupOfKey(sortedKeys[i], groups, dayColors)];
            forall j | 0 <= j < i + 1 :: sortedKeys[j] in groups && ParseIsoDate(sortedKeys[j]).Some?
                                       && next[j] == GroupOfKey(sortedKeys[j], groups, dayColors)
  {
    var g := GroupOfKey(sortedKeys[i], groups, dayColors);
    var next := out + [g];
    forall j | 0 <= j < i + 1
      ensures next[j] == GroupOfKey(sortedKeys[j], groups, dayColors)
    {
      if j < i {
        assert next[j] == out[j];
      }
    }
  }

  /** Groups built from the sorted keys are in increasing day order. */
  lemma BuiltInDayOrder(a: TimeZoneAdapter, files: seq<AudioFile>, keys: seq<string>, sortedKeys: seq<string>,
                        groups: map<string, seq<AudioFile>>, out: seq<FileGroup>, dayColors: map<Date, string>)
    requires keys == FirstOccurrences(files, DayKeyOf(a))
    requires SortedBy(sortedKeys, Itself, LexLe) && multiset(sortedKeys) == multiset(keys)
    requires |out| == |sortedKeys| && forall j | 0 <= j < |out| :: Built(out[j], sortedKeys[j], groups, dayColors)
    ensures forall i, j | 0 <= i < j < |out| :: DateBefore(out[i].displayDate, out[j].displayDate)
  {
    FirstOccurrencesSpec(files, DayKeyOf(a));
    DistinctByMultiset(sortedKeys, keys);
    forall i, j | 0 <= i < j < |out| ensures DateBefore(out[i].displayDate, out[j].displayDate) {
      assert LexLe(Itself(sortedKeys[i]), Itself(sortedKeys[j]));
      IsoDateOrder(out[i].displayDate, out[j].displayDate);
    }
  }

  /** Groups built from the sorted keys hold each day's files and cover every file. */
  lemma BuiltGroupsAreDayGroups(a: TimeZoneAdapter, files: seq<AudioFile>, keys: seq<string>, groups: map<string, seq<AudioFile>>,
                                sortedKeys: seq<string>, out: seq<FileGroup>, dayColors: map<Date, string>)
    requires AllInRange(a, files) && Grouped(files, DayKeyOf(a), keys, groups)
    requires SortedBy(sortedKeys, Itself, LexLe) && multiset(sortedKeys) == multiset(keys)
    requires |out| == |sortedKeys| && forall j | 0 <= j < |out| :: Built(out[j], sortedKeys[j], groups, dayColors)
    ensures DayGroups(a, files, out)
  {
    BuiltInDayOrder(a, files, keys, sortedKeys, groups, out, dayColors);
    forall i | 0 <= i < |out|
      ensures ValidDate(out[i].displayDate) && InYearRange(out[i].displayDate)
      ensures out[i].dateKey == IsoDate(out[i].displayDate)
      ensures multiset(out[i].files) == multiset(Filter(files, AdjustedOf(a), out[i].displayDate))
      ensures out[i].files != []
    {
      KeyIsDay(a, files, keys, groups, sortedKeys[i]);
      assert groups[sortedKeys[i]][0] in multiset(out[i].files);
    }
    forall f | f in files ensures exists i | 0 <= i < |out| :: out[i].displayDate == a.GetAdjustedDate(f.timestamp) {
      FileKeyListed(a, files, keys, f);
      var key := DayKeyOf(a)(f);
      assert key in multiset(sortedKeys);
      var i :| 0 <= i < |sortedKeys| && sortedKeys[i] == key;
      assert Built(out[i], sortedKeys[i], groups, dayColors);
    }
  }

  /**
   * With distinct paths (a set of files) the groups take the palette's colours in turn: the
   * group at position `i` gets colour `i` modulo the palette's size.
   */
  lemma GroupColorsCycle(a: TimeZoneAdapter, files: seq<AudioFile>, gs: seq<FileGroup>, colors: Palette)
    requires DistinctPaths(files) && DayGroups(a, files, gs) && Colored(gs, PathDates(a, files).Values, colors)
    ensures forall i | 0 <= i < |gs| :: gs[i].color == Some(colors[i % |colors|])
  {
    var values := PathDates(a, files).Values;
    PathDatesValues(a, files);
    var dates := seq(|gs|, i requires 0 <= i < |gs| => gs[i].displayDate);
    forall x, y | 0 <= x < y < |dates| ensures DayNumber(dates[x]) < DayNumber(dates[y]) {
      DayNumberOrder(dates[x], dates[y]);
    }
    forall i | 0 <= i < |dates| ensures dates[i] in values {
      var f := gs[i].files[0];
      GroupMember(a, files, gs[i].displayDate, f);
    }
    forall d | d in values ensures d in dates {
      var f :| f in files && a.GetAdjustedDate(f.timestamp) == d;
      var i :| 0 <= i < |gs| && gs[i].displayDate == a.GetAdjustedDate(f.timestamp);
      assert dates[i] == d;
    }
    assert Enumerates(dates, values);
    forall i | 0 <= i < |gs| ensures gs[i].color == Some(colors[i % |colors|]) {
      RankInSorted(dates, values, i);
    }
  }

  /** A member of a day's filtered files is a file of that day. */
  lemma GroupMember(a: TimeZoneAdapter, files: seq<AudioFile>, d: Date, f: AudioFile)
    requires f in multiset(Filter(files, AdjustedOf(a), d))
    ensures f in files && a.GetAdjustedDate(f.timestamp) == d
  {
    var kept := Filter(files, AdjustedOf(a), d);
    FilterSpec(files, AdjustedOf(a), d);
    var k :| 0 <= k < |kept| && kept[k] == f;
  }

  /** `get_file_color` on the path map of the files gives each file the colour of its group. */
  lemma FileColorIsGroupColor(o: FileOrganizer, files: seq<AudioFile>, gs: seq<FileGroup>, f: AudioFile, i: nat)
    requires DistinctPaths(files) && DayGroups(o.adapter, files, gs) && Colored(gs, PathDates(o.adapter, files).Values, o.colors)
    requires f in files && i < |gs| && f in gs[i].files
    ensures o.GetFileColor(f, PathDates(o.adapter, files)) == gs[i].color
  {
    var a := o.adapter;
    var d := gs[i].displayDate;
    GroupMember(a, files, d, f);
    PathDatesOwnDay(a, files);
    PathDatesValues(a, files);
    assert PathDates(a, files)[f.path] == d;
    assert d in PathDates(a, files).Values;
  }

  /** A disabled file is never selectable and always shows an icon; a merged output says so in its suffix. */
  lemma MetadataFlags(o: FileOrganizer, f: AudioFile)
    requires o.GetFileMetadata(f).Some?
    ensures var m := o.GetFileMetadata(f).value;
            !(m.selectable && m.disabled)
            && (m.disabled ==> m.icon != "")
            && (f.state == MergedOutput ==> m.disabled && m.icon == PackageIcon && m.suffix == " [OUTPUT]")
  {
  }
}
