/**
 * The file model and the registry (audio_models.py): a recording
 * identified by its path, the lifecycle states, the task and result
 * records, and the library of files with its two indexes, by date key
 * and by state, kept in step as files are added, removed and change state.
 */
module AudioModels {
  import opened Wrappers
  import opened Text
  import opened Calendar
  import opened DateText
  import opened Collections

  /** The lifecycle of a file. */
  datatype FileState = Unprocessed | Processing | Processed | Converted | Merged | MergedOutput | Failed

  /** The five operations the engine runs. */
  datatype TaskType = Import | Convert | Merge | RemoveSilence | Organize

  /** `FileState.name`. */
  function StateName(s: FileState): string {
    match s
    case Unprocessed => "UNPROCESSED"
    case Processing => "PROCESSING"
    case Processed => "PROCESSED"
    case Converted => "CONVERTED"
    case Merged => "MERGED"
    case MergedOutput => "MERGED_OUTPUT"
    case Failed => "FAILED"
  }

  /** The format a path implies: `path.suffix.lower().lstrip('.')`. */
  function FormatOf(p: Path): (r: string)
    ensures Suffix(Name(p)) == [] ==> r == []
    ensures Suffix(Name(p)) != [] ==> "." + r == Lower(Suffix(Name(p)))
    ensures '.' !in r
  {
    var suffix := Suffix(Name(p));
    var lowered := Lower(suffix);
    if suffix != [] then
      assert lowered[0] == '.' && lowered[1] != '.';
      assert lowered == "." + lowered[1..];
      StripLeading(lowered, '.')
    else
      StripLeading(lowered, '.')
  }

  const VideoFormats: seq<string> := ["mp4", "avi", "mov", "mkv"]
  const AudioFormats: seq<string> := ["mp3", "wav", "m4a", "flac", "ogg"]

  /** A recording on disk. Everything but the state is fixed once the object exists. */
  class AudioFile {
    const path: Path
    const timestamp: Stamp
    var state: FileState
    const size: nat
    const format: string
    const sourceFile: Option<Path>

    /** The dataclass constructor followed by `__post_init__`: an empty format is taken from the path. */
    constructor (path: Path, timestamp: Stamp, state: FileState, size: nat, format: string, sourceFile: Option<Path>)
      ensures this.path == path && this.timestamp == timestamp && this.state == state
      ensures this.size == size && this.sourceFile == sourceFile
      ensures this.format == if format == "" then FormatOf(path) else format
    {
      this.path := path;
      this.timestamp := timestamp;
      this.state := state;
      this.size := size;
      this.format := if format == "" then FormatOf(path) else format;
      this.sourceFile := sourceFile;
    }

    /** `AudioFile.from_path`, with the size and the timestamp (given or the mtime) supplied by the caller. */
    constructor FromPath(path: Path, timestamp: Stamp, size: nat)
      ensures this.path == path && this.timestamp == timestamp && this.state == Unprocessed
      ensures this.size == size && this.format == FormatOf(path) && this.sourceFile == None
    {
      this.path := path;
      this.timestamp := timestamp;
      this.state := Unprocessed;
      this.size := size;
      this.format := FormatOf(path);
      this.sourceFile := None;
    }

    /** `basename`. */
    function Basename(): string {
      Name(path)
    }

    /** `date_key`: the timestamp's date as `YYYY-MM-DD`. */
    function DateKey(): (k: string)
      ensures |k| == 10 && k[4] == '-' && k[7] == '-'
    {
      IsoDateShape(timestamp.date);
      IsoDate(timestamp.date)
    }

    predicate IsVideo() {
      format in VideoFormats
    }

    predicate IsAudio() {
      format in AudioFormats
    }

    /** `__eq__`: files are the same file when their paths are equal. */
    predicate Equals(other: AudioFile) {
      path == other.path
    }

    /** `__hash__` hashes the path, so the path is the hash key. */
    function HashKey(): Path {
      path
    }
  }

  /** The date key a file with this timestamp gets, read back: it names the timestamp's own date. */
  lemma DateKeyNamesDate(f: AudioFile, g: AudioFile)
    ensures f.DateKey() == g.DateKey() <==> f.timestamp.date == g.timestamp.date
  {
    if f.DateKey() == g.DateKey() {
      IsoDateInjective(f.timestamp.date, g.timestamp.date);
    }
  }

  /** No format is both a video and an audio format. */
  lemma VideoAndAudioDisjoint(f: AudioFile)
    ensures !(f.IsVideo() && f.IsAudio())
  {
  }

  /** Equality is an equivalence that agrees with the hash key, as a `set` of files needs. */
  lemma EqualityFollowsPath(f: AudioFile, g: AudioFile, h: AudioFile)
    ensures f.Equals(f)
    ensures f.Equals(g) <==> g.Equals(f)
    ensures f.Equals(g) && g.Equals(h) ==> f.Equals(h)
    ensures f.Equals(g) <==> f.HashKey() == g.HashKey()
  {
  }

  /** `timestamp` as the sort key of `sorted(..., key=lambda f: f.timestamp)`. */
  function TimeKey(f: AudioFile): int {
    Ordinal(f.timestamp)
  }

  /** `sorted(files, key=lambda f: f.timestamp)`: the same files in recording-time order. */
  function ByTime(files: seq<AudioFile>): (order: seq<AudioFile>)
    ensures SortedBy(order, TimeKey, IntLe) && multiset(order) == multiset(files)
    ensures |order| == |files|
  {
    IntLeTotal();
    var order := SortBy(files, TimeKey, IntLe);
    assert |order| == |multiset(order)| == |files|;
    order
  }

  /** `params` of a task: only the keys the handlers read. */
  datatype TaskParams = TaskParams(
    sourceDir: Option<string>,
    threshold: Option<string>,
    duration: Option<string>,
    createArchive: Option<bool>)

  const NoParams := TaskParams(None, None, None, None)

  datatype ProcessingTask = ProcessingTask(taskType: TaskType, files: seq<AudioFile>, outputDir: Path, params: TaskParams)

  datatype TaskResult = TaskResult(task: ProcessingTask, success: bool, outputFiles: seq<Path>, error: Option<string>, processedCount: nat)
  {
    /** `failed_count`: the targets that were not processed. */
    function FailedCount(): int {
      |task.files| - processedCount
    }
  }

  /** `d.get(k, set())`. */
  function Bucket<K>(m: map<K, set<AudioFile>>, k: K): set<AudioFile> {
    if k in m then m[k] else {}
  }

  /** No two members share a path: `__eq__` and `__hash__` make a Python set keep one file per path. */
  ghost predicate PathsUnique(fs: set<AudioFile>) {
    forall f, g | f in fs && g in fs && f.path == g.path :: f == g
  }

  /** The date index files exactly the members, each under its own date key. */
  ghost predicate DateIndexed(fs: set<AudioFile>, idx: map<string, set<AudioFile>>) {
    (forall k, g | k in idx && g in idx[k] :: g in fs && g.DateKey() == k)
    && (forall g | g in fs :: g in Bucket(idx, g.DateKey()))
  }

  /** The state index files exactly the members, each under its current state. */
  ghost predicate StateIndexed(fs: set<AudioFile>, idx: map<FileState, set<AudioFile>>)
    reads fs
  {
    (forall s, g | s in idx && g in idx[s] :: g in fs && g.state == s)
    && (forall g | g in fs :: g in Bucket(idx, g.state))
  }

  /** Some file of `fs` has path `p`. */
  predicate PathIn(fs: set<AudioFile>, p: Path) {
    exists g | g in fs :: g.path == p
  }

  /** Adding a file adds exactly its path to the paths held. */
  lemma PathInAdd(fs: set<AudioFile>, f: AudioFile, p: Path)
    ensures PathIn(fs + {f}, p) <==> PathIn(fs, p) || f.path == p
  {
    if f.path == p {
      assert f in fs + {f};
    }
  }

  /** A path held stays held when files are only added. */
  lemma PathInGrow(fs: set<AudioFile>, gs: set<AudioFile>, p: Path)
    requires fs <= gs && PathIn(fs, p)
    ensures PathIn(gs, p)
  {
  }

  lemma PathsUniqueAdd(fs: set<AudioFile>, f: AudioFile)
    requires PathsUnique(fs) && forall g | g in fs :: g.path != f.path
    ensures PathsUnique(fs + {f})
  {
  }

  /** `_index_file` on the date index. */
  lemma DateIndexedAdd(fs: set<AudioFile>, idx: map<string, set<AudioFile>>, f: AudioFile)
    requires DateIndexed(fs, idx)
    ensures DateIndexed(fs + {f}, idx[f.DateKey() := Bucket(idx, f.DateKey()) + {f}])
  {
  }

  /** `_index_file` on the state index. */
  lemma StateIndexedAdd(fs: set<AudioFile>, idx: map<FileState, set<AudioFile>>, f: AudioFile)
    requires StateIndexed(fs, idx)
    ensures StateIndexed(fs + {f}, idx[f.state := Bucket(idx, f.state) + {f}])
  {
  }

  /** `_deindex_file` on the date index. */
  lemma DateIndexedRemove(fs: set<AudioFile>, idx: map<string, set<AudioFile>>, f: AudioFile)
    requires DateIndexed(fs, idx)
    ensures var k := f.DateKey();
            DateIndexed(fs - {f}, if k in idx then idx[k := idx[k] - {f}] else idx)
  {
  }

  /** `_deindex_file` on the state index. */
  lemma StateIndexedRemove(fs: set<AudioFile>, idx: map<FileState, set<AudioFile>>, f: AudioFile)
    requires StateIndexed(fs, idx)
    ensures StateIndexed(fs - {f}, if f.state in idx then idx[f.state := idx[f.state] - {f}] else idx)
  {
  }

  /**
   * The state index after a member's state was changed to `f.state` from `o`:
   * once `f` leaves the bucket of `o` and joins its new one, every member is filed right again.
   */
  lemma StateIndexedMove(fs: set<AudioFile>, idx: map<FileState, set<AudioFile>>, f: AudioFile, o: FileState)
    requires f in fs
    requires forall s | s in idx && f in idx[s] :: s == o
    requires forall s, g | s in idx && g in idx[s] && g != f :: g in fs && g.state == s
    requires forall g | g in fs && g != f :: g in Bucket(idx, g.state)
    ensures var cleared := if o in idx then idx[o := idx[o] - {f}] else idx;
            StateIndexed(fs, cleared[f.state := Bucket(cleared, f.state) + {f}])
  {
  }

  /** `[f for f in files if f.state == FileState.UNPROCESSED]`, in the set's iteration order. */
  method KeepUnprocessed(files: set<AudioFile>) returns (picked: seq<AudioFile>)
    ensures Enumerates(picked, set f | f in files && f.state == Unprocessed)
  {
    var rest := files;
    picked := [];
    while rest != {}
      invariant rest <= files
      invariant forall i | 0 <= i < |picked| :: picked[i] in files && picked[i] !in rest && picked[i].state == Unprocessed
      invariant forall g | g in files && g !in rest && g.state == Unprocessed :: g in picked
      invariant forall i, j | 0 <= i < j < |picked| :: picked[i] != picked[j]
      decreases rest
    {
      var f :| f in rest;
      if f.state == Unprocessed {
        picked := picked + [f];
      }
      rest := rest - {f};
    }
  }

  /** The registry: a set of files plus a dict of sets by date key and one by state. */
  class AudioLibrary {
    var files: set<AudioFile>
    var byDate: map<string, set<AudioFile>>
    var byState: map<FileState, set<AudioFile>>

    /** One member per path, and both indexes file exactly the members, each under its own key. */
    ghost predicate Valid()
      reads this, files
    {
      PathsUnique(files) && DateIndexed(files, byDate) && StateIndexed(files, byState)
    }

    /** The library holds a file with path `p`: what `f in self.files` asks. */
    predicate HasPath(p: Path)
      reads this
    {
      PathIn(files, p)
    }

    constructor ()
      ensures Valid() && files == {} && byDate == map[] && byState == map[]
    {
      files := {};
      byDate := map[];
      byState := map[];
    }

    /** `get_by_date`: exactly the members with that date key (none for an unknown key). */
    function GetByDate(k: string): (r: set<AudioFile>)
      reads this, files
      requires Valid()
      ensures forall g | g in r :: g in files && g.DateKey() == k
      ensures forall g | g in files && g.DateKey() == k :: g in r
    {
      Bucket(byDate, k)
    }

    /** `get_by_state`: exactly the members in that state (none for a state never used). */
    function GetByState(s: FileState): (r: set<AudioFile>)
      reads this, files
      requires Valid()
      ensures forall g | g in r :: g in files && g.state == s
      ensures forall g | g in files && g.state == s :: g in r
    {
      Bucket(byState, s)
    }

    /**
     * `add` followed by `_index_file`, for a path the library does not hold yet; for a
     * path it already holds, nothing changes (see the finding on `AddAsWritten`).
     */
    method Add(f: AudioFile)
      requires Valid()
      modifies this
      ensures Valid()
      ensures old(HasPath(f.path)) ==> files == old(files) && byDate == old(byDate) && byState == old(byState)
      ensures !old(HasPath(f.path)) ==>
        files == old(files) + {f}
        && byDate == old(byDate)[f.DateKey() := Bucket(old(byDate), f.DateKey()) + {f}]
        && byState == old(byState)[f.state := Bucket(old(byState), f.state) + {f}]
    {
      if g :| g in files && g.path == f.path {
        return;
      }
      PathsUniqueAdd(files, f);
      DateIndexedAdd(files, byDate, f);
      StateIndexedAdd(files, byState, f);
      files := files + {f};
      // `if key not in index: index[key] = set()`, then `index[key].add(file)`
      byDate := byDate[f.DateKey() := Bucket(byDate, f.DateKey()) + {f}];
      byState := byState[f.state := Bucket(byState, f.state) + {f}];
    }

    /** `remove` followed by `_deindex_file`: the file leaves the set and both of its buckets, nothing else moves. */
    method Remove(f: AudioFile)
      requires Valid()
      requires f in files || !HasPath(f.path)
      modifies this
      ensures Valid()
      ensures files == old(files) - {f}
      ensures byDate == if f.DateKey() in old(byDate) then old(byDate)[f.DateKey() := old(byDate)[f.DateKey()] - {f}] else old(byDate)
      ensures byState == if f.state in old(byState) then old(byState)[f.state := old(byState)[f.state] - {f}] else old(byState)
    {
      DateIndexedRemove(files, byDate, f);
      StateIndexedRemove(files, byState, f);
      files := files - {f};
      var k := f.DateKey();
      if k in byDate {
        byDate := byDate[k := byDate[k] - {f}];
      }
      if f.state in byState {
        byState := byState[f.state := byState[f.state] - {f}];
      }
    }

    /** `update_state` on a member: the file moves from its old state bucket to the new one. */
    method UpdateState(f: AudioFile, s: FileState)
      requires Valid() && f in files
      modifies this, f
      ensures Valid() && f.state == s
      ensures files == old(files) && byDate == old(byDate)
      ensures var cleared := if old(f.state) in old(byState) then old(byState)[old(f.state) := old(byState)[old(f.state)] - {f}] else old(byState);
              byState == cleared[s := Bucket(cleared, s) + {f}]
    {
      var oldState := f.state;
      assert forall t | t in byState && f in byState[t] :: t == oldState;
      f.state := s;
      StateIndexedMove(files, byState, f, oldState);
      if oldState in byState {
        byState := byState[oldState := byState[oldState] - {f}];
      }
      byState := byState[s := Bucket(byState, s) + {f}];
    }

  /** The files `get_unmerged_for_date` must list: members of that date still UNPROCESSED. */
    ghost function UnmergedOn(k: string): set<AudioFile>
      reads this, files
    {
      set f | f in files && f.DateKey() == k && f.state == Unprocessed
    }

    /** `get_unmerged_for_date`: each UNPROCESSED member of the date once, in timestamp order. */
    method GetUnmergedForDate(k: string) returns (r: seq<AudioFile>)
      requires Valid()
      ensures Enumerates(r, UnmergedOn(k))
      ensures SortedBy(r, TimeKey, IntLe)
    {
      var picked := KeepUnprocessed(GetByDate(k));
      assert (set f | f in GetByDate(k) && f.state == Unprocessed) == UnmergedOn(k);
      EnumeratesMultiset(picked, UnmergedOn(k));
      r := ByTime(picked);
      EnumeratesByMultiset(r, UnmergedOn(k));
    }

    /** `clear`: no files and empty indexes. */
    method Clear()
      modifies this
      ensures Valid() && files == {} && byDate == map[] && byState == map[]
    {
      files := {};
      byDate := map[];
      byState := map[];
    }
  }

  // ----------------------------------------------------------------------------
  // `add` as written, on the library as Python's path-keyed sets see it.

  /** A file as the indexes see it: its path, date key and state. */
  datatype Entry = Entry(path: Path, dateKey: string, state: FileState)

  /**
   * The library with every set keyed by path, as `__eq__`/`__hash__` make Python's sets
   * behave: the date key and the state of each member, and the two indexes.
   */
  datatype LibraryView = LibraryView(
    dateOf: map<Path, string>,
    stateOf: map<Path, FileState>,
    byDate: map<string, set<Path>>,
    byState: map<FileState, set<Path>>)

  function PathBucket<K>(m: map<K, set<Path>>, k: K): set<Path> {
    if k in m then m[k] else {}
  }

  /** `idx` files every path of `keyOf` under its key and nothing else. */
  ghost predicate PathIndexed<K>(keyOf: map<Path, K>, idx: map<K, set<Path>>) {
    (forall k, p | k in idx && p in idx[k] :: p in keyOf && keyOf[p] == k)
    && (forall p | p in keyOf :: p in PathBucket(idx, keyOf[p]))
  }

  /** The index invariant on the view: each member under its own date key and state, and nowhere else. */
  ghost predicate ViewConsistent(v: LibraryView) {
    v.dateOf.Keys == v.stateOf.Keys && PathIndexed(v.dateOf, v.byDate) && PathIndexed(v.stateOf, v.byState)
  }

  lemma PathIndexedAdd<K>(keyOf: map<Path, K>, idx: map<K, set<Path>>, p: Path, k: K)
    requires PathIndexed(keyOf, idx) && p !in keyOf
    ensures PathIndexed(keyOf[p := k], idx[k := PathBucket(idx, k) + {p}])
  {
  }

  /**
   * `add` as written: `files.add` keeps the member already stored under that path,
   * while `_index_file` files the path under the new object's date key and state.
   */
  function AddAsWritten(v: LibraryView, e: Entry): (r: LibraryView)
    ensures e.path in r.dateOf
    ensures e.path in v.dateOf ==> r.dateOf == v.dateOf && r.stateOf == v.stateOf
    ensures e.path in PathBucket(r.byDate, e.dateKey) && e.path in PathBucket(r.byState, e.state)
  {
    var known := e.path in v.dateOf;
    LibraryView(
      if known then v.dateOf else v.dateOf[e.path := e.dateKey],
      if known then v.stateOf else v.stateOf[e.path := e.state],
      v.byDate[e.dateKey := PathBucket(v.byDate, e.dateKey) + {e.path}],
      v.byState[e.state := PathBucket(v.byState, e.state) + {e.path}])
  }

  /** `add` as the model's `AudioLibrary.Add` does it: a path already held changes nothing. */
  function AddCorrected(v: LibraryView, e: Entry): (r: LibraryView)
    ensures e.path in v.dateOf ==> r == v
  {
    if e.path in v.dateOf then v else AddAsWritten(v, e)
  }

  /** Before: `rec.mp3` is a member in state MERGED. */
  function MergedRecording(): LibraryView {
    var p := ["rec.mp3"];
    LibraryView(map[p := "2024-05-01"], map[p := Merged], map["2024-05-01" := {p}], map[Merged := {p}])
  }

  /**
   * Adding a fresh UNPROCESSED object for `rec.mp3` (what `_convert_files` does after
   * converting `rec.mp4`) leaves the path filed under MERGED and UNPROCESSED at once,
   * while the member itself stays MERGED.
   */
  lemma AddAsWrittenDoubleFiles()
    ensures ViewConsistent(MergedRecording())
    ensures var after := AddAsWritten(MergedRecording(), Entry(["rec.mp3"], "2024-05-01", Unprocessed));
            ["rec.mp3"] in after.byState[Merged] && ["rec.mp3"] in after.byState[Unprocessed]
            && after.stateOf[["rec.mp3"]] == Merged
            && !ViewConsistent(after)
  {
    var after := AddAsWritten(MergedRecording(), Entry(["rec.mp3"], "2024-05-01", Unprocessed));
    assert ["rec.mp3"] in after.byState[Unprocessed] && after.stateOf[["rec.mp3"]] == Merged;
  }

  /** The corrected `add` keeps the index invariant, whatever entry is added, and the entry is then a member. */
  lemma AddCorrectedKeepsIndex(v: LibraryView, e: Entry)
    requires ViewConsistent(v)
    ensures ViewConsistent(AddCorrected(v, e))
    ensures e.path in AddCorrected(v, e).dateOf
    ensures e.path !in v.dateOf ==>
      AddCorrected(v, e).dateOf[e.path] == e.dateKey && AddCorrected(v, e).stateOf[e.path] == e.state
  {
    if e.path !in v.dateOf {
      PathIndexedAdd(v.dateOf, v.byDate, e.path, e.dateKey);
      PathIndexedAdd(v.stateOf, v.byState, e.path, e.state);
    }
  }
}
