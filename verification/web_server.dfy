/**
 * The task controller of the browser front end (web_server.py): the checks
 * on the relative paths a browser sends, the clamp on the worker setting,
 * the cap on the log a task record exposes, and the application object that
 * admits one running task at a time, validates each request by its kind and
 * records how the task's thread ends.
 */
module WebServer {
  import opened Wrappers
  import opened Text
  import opened Calendar
  import opened DateText
  import opened Collections
  import opened AudioModels
  import opened AudioProcessor
  import opened FileOrganizer
  import opened FilePresenter

  // ------------------------------------------------------------ relative paths

  /** What `_validate_rel_path` returns: whether the path is acceptable, and the reason when it is not. */
  datatype Verdict = Verdict(ok: bool, reason: string)

  /**
   * `_validate_rel_path`. `None` stands for a value that is not a string. A path is
   * refused when it is blank, absolute, or has a `..` component, in that order.
   */
  function ValidateRelPath(rel: Option<string>): Verdict {
    if rel.None? || Strip(rel.value) == "" then Verdict(false, "Empty path")
    else if rel.value[0] == '/' then Verdict(false, "Absolute paths are not allowed")
    else if ".." in RelParts(rel.value) then Verdict(false, "Path traversal is not allowed")
    else Verdict(true, "")
  }

  /**
   * A path is accepted exactly when it is a string that is not blank, does not start at
   * the root and has no `..` component; then the reason is empty, and otherwise it names
   * the first of the three checks that fails.
   */
  lemma ValidateRelPathSpec(rel: Option<string>)
    ensures var v := ValidateRelPath(rel);
            (v.ok <==> rel.Some? && Strip(rel.value) != "" && rel.value[0] != '/' && ".." !in RelParts(rel.value))
            && (v.ok ==> v.reason == "")
            && ((rel.None? || Strip(rel.value) == "") ==> v.reason == "Empty path")
            && (!v.ok && rel.Some? && Strip(rel.value) != "" && rel.value[0] == '/' ==> v.reason == "Absolute paths are not allowed")
            && (!v.ok && rel.Some? && Strip(rel.value) != "" && rel.value[0] != '/' ==> v.reason == "Path traversal is not allowed")
  {
  }

  /** `_path_is_within`: `target.relative_to(base)` succeeds, matching the components one by one. */
  function PathIsWithin(base: Path, target: Path): (r: bool)
    ensures r <==> |base| <= |target| && target[..|base|] == base
  {
    if base == [] then true
    else if target == [] || base[0] != target[0] then false
    else
      var r := PathIsWithin(base[1..], target[1..]);
      if |base| <= |target| then
        assert target[..|base|] == [target[0]] + target[1..][..|base| - 1];
        assert base == [base[0]] + base[1..];
        assert target[..|base|] == base ==> target[..|base|][1..] == base[1..];
        r
      else
        r
  }

  /** One step of `resolve()`: `..` climbs (the root is its own parent), any other name descends. */
  function Descend(p: Path, part: string): Path {
    if part == ".." then (if p == [] then [] else p[..|p| - 1]) else p + [part]
  }

  /** `(base / rel).resolve()` on a path without links: the components applied one after another. */
  function Resolve(base: Path, parts: seq<string>): Path
    decreases |parts|
  {
    if parts == [] then base else Resolve(Descend(base, parts[0]), parts[1..])
  }

  /** Without `..`, resolving only appends. */
  lemma {:induction false} ResolveAppends(base: Path, parts: seq<string>)
    requires ".." !in parts
    ensures Resolve(base, parts) == base + parts
    decreases |parts|
  {
    if parts != [] {
      assert ".." !in parts[1..];
      ResolveAppends(base + [parts[0]], parts[1..]);
      assert base + [parts[0]] + parts[1..] == base + parts;
    }
  }

  /** An accepted path, put under any directory, names something inside that directory. */
  lemma AcceptedStaysWithin(cwd: Path, rel: string)
    requires ValidateRelPath(Some(rel)).ok
    ensures Resolve(cwd, RelParts(rel)) == cwd + RelParts(rel)
    ensures PathIsWithin(cwd, Resolve(cwd, RelParts(rel)))
  {
    ResolveAppends(cwd, RelParts(rel));
    assert (cwd + RelParts(rel))[..|cwd|] == cwd;
  }

  /** What the `..` check keeps out: two levels up from `/srv/app`, `etc` is outside it. */
  lemma TraversalLeaves()
    ensures Resolve(["srv", "app"], ["..", "..", "etc"]) == ["etc"]
    ensures !PathIsWithin(["srv", "app"], ["etc"])
  {
    assert Resolve(["srv", "app"], ["..", "..", "etc"]) == Resolve(["srv"], ["..", "etc"]);
    assert Resolve(["srv"], ["..", "etc"]) == Resolve([], ["etc"]);
  }

  // ------------------------------------------------------------ the settings clamp

  /** The `max_workers` field of a settings request as `int(body.get("max_workers") or 4)` sees it. */
  datatype WorkersField =
    | Missing          // absent or null
    | Falsy            // 0, "", false or another false value: `or 4` replaces it
    | Converts(n: int) // a true value `int()` turns into n
    | Unconvertible    // a true value `int()` refuses with TypeError or ValueError

  const DefaultWorkers := 4
  const MinWorkers := 1
  const MaxWorkers := 16

  /** The worker count a settings request stores: 4 unless an integer is given, then clamped into 1..16. */
  function ClampWorkers(field: WorkersField): (w: int)
    ensures MinWorkers <= w <= MaxWorkers
    ensures !field.Converts? ==> w == DefaultWorkers
    ensures field.Converts? && MinWorkers <= field.n <= MaxWorkers ==> w == field.n
    ensures field.Converts? && field.n < MinWorkers ==> w == MinWorkers
    ensures field.Converts? && field.n > MaxWorkers ==> w == MaxWorkers
  {
    var mw := if field.Converts? then field.n else DefaultWorkers;
    var upper := if mw < MaxWorkers then mw else MaxWorkers;
    if upper < MinWorkers then MinWorkers else upper
  }

  /** Storing a stored value again keeps it, and a larger request never stores fewer workers. */
  lemma ClampSettles(field: WorkersField, a: int, b: int)
    ensures ClampWorkers(Converts(ClampWorkers(field))) == ClampWorkers(field)
    ensures a <= b ==> ClampWorkers(Converts(a)) <= ClampWorkers(Converts(b))
  {
  }

  datatype Settings = Settings(timezone: string, maxWorkers: int)

  /** The settings a settings request stores; an empty zone stands for a missing or false one. */
  function SettingsFromPost(timezone: string, workers: WorkersField): (s: Settings)
    ensures s.timezone == if timezone == "" then "Asia/Shanghai" else timezone
    ensures MinWorkers <= s.maxWorkers <= MaxWorkers && s.maxWorkers == ClampWorkers(workers)
  {
    Settings(if timezone == "" then "Asia/Shanghai" else timezone, ClampWorkers(workers))
  }

  // ------------------------------------------------------------ task records

  datatype Status = Running | Done | Error

  function StatusName(s: Status): string {
    match s
    case Running => "running"
    case Done => "done"
    case Error => "error"
  }

  /** The `result` a record keeps when its task completes. */
  datatype Summary = Succeeded(processedCount: nat, outputFiles: seq<Path>) | FailedWith(error: Option<string>)

  const LogCap := 500

  /** `s[-n:]` for a positive n: the last n elements, or all of them when there are fewer. */
  function Last<T>(s: seq<T>, n: nat): (r: seq<T>)
    requires n > 0
    ensures |r| == if |s| <= n then |s| else n
    ensures r == s[|s| - |r|..]
  {
    if |s| <= n then s else s[|s| - n..]
  }

  /** Capping after each appended line gives what capping once at the end gives. */
  lemma LastOfAppend<T>(s: seq<T>, x: T, n: nat)
    requires n > 0
    ensures Last(s + [x], n) == Last(Last(s, n) + [x], n)
    ensures Last(Last(s, n), n) == Last(s, n)
  {
    var t := Last(s, n);
    if |s| + 1 > n {
      assert (s + [x])[|s| + 1 - n..] == s[|s| + 1 - n..] + [x];
      assert (t + [x])[|t| + 1 - n..] == t[|t| + 1 - n..] + [x];
      assert t[|t| + 1 - n..] == s[|s| + 1 - n..];
    }
  }

  /** What `to_json` sends, without the two times. */
  datatype TaskJson = TaskJson(taskId: string, status: string, log: seq<string>, result: Option<Summary>)

  /** `TaskRecord`: one task's status, log and result; the times are not modelled. */
  class TaskRecord {
    const taskId: string
    var status: Status
    var log: seq<string>
    var result: Option<Summary>

    /** The record `start_task` creates: running, with an empty log and no result. */
    constructor (taskId: string)
      ensures this.taskId == taskId && status == Running && log == [] && result == None
    {
      this.taskId := taskId;
      status := Running;
      log := [];
      result := None;
    }

    /** `to_json`: the status by name, the result, and no more than the last 500 lines of the log. */
    function ToJson(): (j: TaskJson)
      reads this
      ensures j.taskId == taskId && j.status == StatusName(status) && j.result == result
      ensures |j.log| <= LogCap && |j.log| <= |log| && j.log == log[|log| - |j.log|..]
      ensures |log| <= LogCap ==> j.log == log
      ensures |log| > LogCap ==> |j.log| == LogCap
    {
      TaskJson(taskId, StatusName(status), Last(log, LogCap), result)
    }
  }

  // ------------------------------------------------------------ path lookup

  /** `by_abs.get(path)`: the library file with this path; in a dict built in order the last one wins. */
  function FileAt(listing: seq<AudioFile>, p: Path): (r: Option<AudioFile>)
    ensures r.Some? ==> r.value in listing && r.value.path == p
    ensures r.None? <==> forall i | 0 <= i < |listing| :: listing[i].path != p
  {
    if listing == [] then None
    else if listing[|listing| - 1].path == p then Some(listing[|listing| - 1])
    else
      var r := FileAt(listing[..|listing| - 1], p);
      assert forall i | 0 <= i < |listing| - 1 :: listing[..|listing| - 1][i] == listing[i];
      r
  }

  /** One check of a request's loop: the file it yields, or the message that refuses the request. */
  datatype PathLookup = Hit(file: AudioFile) | Miss(message: string)

  /** A whole loop: the files in order, or the first refusal's message. */
  datatype Lookup = Found(files: seq<AudioFile>) | Refused(message: string)

  function Prepend(fs: seq<AudioFile>, r: Lookup): Lookup {
    match r
    case Found(gs) => Found(fs + gs)
    case Refused(m) => Refused(m)
  }

  lemma PrependTwice(fs: seq<AudioFile>, gs: seq<AudioFile>, r: Lookup)
    ensures Prepend(fs, Prepend(gs, r)) == Prepend(fs + gs, r)
  {
    if r.Found? {
      assert fs + (gs + r.files) == (fs + gs) + r.files;
    }
  }

  /** A loop that returns at its first refusal: the checks taken in turn. */
  function Gather(ls: seq<PathLookup>): (r: Lookup)
    decreases |ls|
  {
    if ls == [] then Found([])
    else
      match ls[0]
      case Miss(m) => Refused(m)
      case Hit(f) => Prepend([f], Gather(ls[1..]))
  }

  /**
   * All or nothing: the loop succeeds exactly when every check does, with the files in
   * order; otherwise its message is that of the first check that fails.
   */
  lemma {:induction false} GatherAllOrNothing(ls: seq<PathLookup>)
    ensures Gather(ls).Found? <==> forall i | 0 <= i < |ls| :: ls[i].Hit?
    ensures Gather(ls).Found? ==> |Gather(ls).files| == |ls| && forall i | 0 <= i < |ls| :: Gather(ls).files[i] == ls[i].file
    ensures Gather(ls).Refused? ==>
              exists i | 0 <= i < |ls| :: (forall j | 0 <= j < i :: ls[j].Hit?) && ls[i] == Miss(Gather(ls).message)
    decreases |ls|
  {
    if ls != [] {
      var rest := ls[1..];
      GatherAllOrNothing(rest);
      assert forall i | 1 <= i < |ls| :: ls[i] == rest[i - 1];
      if ls[0].Hit? && Gather(rest).Refused? {
        var k :| 0 <= k < |rest| && (forall j | 0 <= j < k :: rest[j].Hit?) && rest[k] == Miss(Gather(rest).message);
        assert forall j | 0 <= j < k + 1 :: ls[j].Hit?;
        assert ls[k + 1] == Miss(Gather(ls).message);
      }
    }
  }

  /** One iteration of `_audio_files_from_paths`. */
  function LookUpPath(cwd: Path, listing: seq<AudioFile>, rel: string): (r: PathLookup)
    ensures r.Hit? ==> r.file in listing && r.file.path == Resolve(cwd, RelParts(rel)) && ValidateRelPath(Some(rel)).ok
    ensures !ValidateRelPath(Some(rel)).ok ==>
              r == Miss("Invalid path: " + rel + " (" + ValidateRelPath(Some(rel)).reason + ")")
  {
    var v := ValidateRelPath(Some(rel));
    if !v.ok then Miss("Invalid path: " + rel + " (" + v.reason + ")")
    else
      var target := Resolve(cwd, RelParts(rel));
      if !PathIsWithin(cwd, target) then Miss("Invalid path (outside cwd): " + rel)
      else
        match FileAt(listing, target)
        case None => Miss("File not found in library: " + rel)
        case Some(f) => Hit(f)
  }

  /**
   * Without links the containment check never fires: an accepted path either names a
   * library file or is not found.
   */
  lemma LookUpOutcomes(cwd: Path, listing: seq<AudioFile>, rel: string)
    requires ValidateRelPath(Some(rel)).ok
    ensures LookUpPath(cwd, listing, rel).Hit? <==> exists i | 0 <= i < |listing| :: listing[i].path == cwd + RelParts(rel)
    ensures LookUpPath(cwd, listing, rel).Hit? ==> LookUpPath(cwd, listing, rel).file.path == cwd + RelParts(rel)
    ensures LookUpPath(cwd, listing, rel).Miss? ==> LookUpPath(cwd, listing, rel).message == "File not found in library: " + rel
  {
    AcceptedStaysWithin(cwd, rel);
  }

  /** The checks of `_audio_files_from_paths`, one per path. */
  function Lookups(cwd: Path, listing: seq<AudioFile>, rels: seq<string>): (ls: seq<PathLookup>)
    ensures |ls| == |rels| && forall i | 0 <= i < |rels| :: ls[i] == LookUpPath(cwd, listing, rels[i])
  {
    seq(|rels|, i requires 0 <= i < |rels| => LookUpPath(cwd, listing, rels[i]))
  }

  /** `_audio_files_from_paths` as a value. */
  function Resolved(cwd: Path, listing: seq<AudioFile>, rels: seq<string>): (r: Lookup)
    ensures r.Found? ==> forall i | 0 <= i < |r.files| :: r.files[i] in listing
  {
    var ls := Lookups(cwd, listing, rels);
    GatherAllOrNothing(ls);
    Gather(ls)
  }

  /** The check of the second loop of `_selectable_files_from_paths`: a file the list shows locked refuses the request. */
  function Screened(f: AudioFile): (r: PathLookup)
    reads f
    ensures r.Hit? <==> f.state !in {Merged, MergedOutput, Converted}
    ensures r.Hit? ==> r.file == f
  {
    var config := ConfigFor(f.state);
    if !config.checkable || config.disabled then Miss("File is not selectable (disabled in UI): " + Name(f.path))
    else Hit(f)
  }

  function Screens(fs: seq<AudioFile>): (ls: seq<PathLookup>)
    reads fs
    ensures |ls| == |fs| && forall i | 0 <= i < |fs| :: ls[i] == Screened(fs[i])
    decreases |fs|
  {
    if fs == [] then [] else [Screened(fs[0])] + Screens(fs[1..])
  }

  /** `_selectable_files_from_paths` as a value. */
  function Selectable(cwd: Path, listing: seq<AudioFile>, rels: seq<string>): Lookup
    reads listing
  {
    match Resolved(cwd, listing, rels)
    case Refused(m) => Refused(m)
    case Found(fs) => Gather(Screens(fs))
  }

  /**
   * The selected files of a request: one per path, in path order, each the library file at
   * that path below the directory, and none of them locked in the list. A refusal carries
   * the message of the first path or file that fails.
   */
  lemma SelectableSpec(cwd: Path, listing: seq<AudioFile>, rels: seq<string>)
    ensures var sel := Selectable(cwd, listing, rels);
            (sel.Found? <==> (forall i | 0 <= i < |rels| :: LookUpPath(cwd, listing, rels[i]).Hit?)
                             && forall i | 0 <= i < |rels| :: LookUpPath(cwd, listing, rels[i]).file.state !in {Merged, MergedOutput, Converted})
            && (sel.Found? ==> |sel.files| == |rels|
                               && forall i | 0 <= i < |rels| :: sel.files[i] in listing && sel.files[i].path == cwd + RelParts(rels[i])
                                                                 && ValidateRelPath(Some(rels[i])).ok
                                                                 && sel.files[i].state !in {Merged, MergedOutput, Converted})
  {
    var ls := Lookups(cwd, listing, rels);
    GatherAllOrNothing(ls);
    if Gather(ls).Found? {
      var fs := Gather(ls).files;
      GatherAllOrNothing(Screens(fs));
      forall i | 0 <= i < |rels| ensures fs[i].path == cwd + RelParts(rels[i]) {
        AcceptedStaysWithin(cwd, rels[i]);
      }
    }
  }

  // ------------------------------------------------------------ requests

  /**
   * A task request. `kind` is `str(payload.get("type") or "")`; `paths` the list of paths,
   * `None` for an item that is not a string (a payload whose paths are not a list has none);
   * `dateKey` and `sourceDir` the text of those parameters ("" when missing or false);
   * the last three the parameters of the same names when given.
   */
  datatype Request = Request(kind: string, paths: seq<Option<string>>, dateKey: string, sourceDir: string,
                             threshold: Option<string>, duration: Option<string>, createArchive: Option<bool>)

  /** `[str(p) for p in paths if isinstance(p, str)]`. */
  function StringsOf(paths: seq<Option<string>>): (r: seq<string>)
    ensures |r| <= |paths|
    ensures forall s | s in r :: Some(s) in paths
    ensures forall i | 0 <= i < |paths| && paths[i].Some? :: paths[i].value in r
    decreases |paths|
  {
    if paths == [] then []
    else
      var rest := StringsOf(paths[1..]);
      assert forall i | 1 <= i < |paths| :: paths[i] == paths[1..][i - 1];
      (if paths[0].Some? then [paths[0].value] else []) + rest
  }

  /** What `start_task` dispatches on: a merge by date, one of the task types, or neither. */
  datatype RequestKind = ByDate | Typed(taskType: TaskType) | Unknown

  /** The kind a request's normalised type names: `MERGE_BY_DATE`, then the names in `TaskType.__members__`. */
  function KindOf(name: string): RequestKind {
    if name == "MERGE_BY_DATE" then ByDate
    else if name == "IMPORT" then Typed(Import)
    else if name == "CONVERT" then Typed(Convert)
    else if name == "MERGE" then Typed(Merge)
    else if name == "REMOVE_SILENCE" then Typed(RemoveSilence)
    else if name == "ORGANIZE" then Typed(Organize)
    else Unknown
  }

  /** The type's own name, the inverse of `KindOf` on the task types. */
  function TypeName(t: TaskType): string {
    match t
    case Import => "IMPORT"
    case Convert => "CONVERT"
    case Merge => "MERGE"
    case RemoveSilence => "REMOVE_SILENCE"
    case Organize => "ORGANIZE"
  }

  /** Each task type is named by its own name, and a name that is none of them is unknown. */
  lemma KindOfNames(t: TaskType, name: string)
    ensures KindOf(TypeName(t)) == Typed(t)
    ensures KindOf(name).Typed? ==> name == TypeName(KindOf(name).taskType)
    ensures KindOf(name) == Unknown <==> name != "MERGE_BY_DATE" && forall u: TaskType :: name != TypeName(u)
  {
    var names := ["MERGE_BY_DATE", "IMPORT", "CONVERT", "MERGE", "REMOVE_SILENCE", "ORGANIZE"];
    assert forall i, j | 0 <= i < j < |names| :: names[i] != names[j] by {
      assert names[0][1] == 'E' && names[1][1] == 'M' && names[2][1] == 'O' && names[3][1] == 'E';
      assert names[4][1] == 'E' && names[5][1] == 'R' && |names[0]| == 13 && |names[3]| == 5 && |names[4]| == 14;
    }
  }

  /** The normalised type of a request: stripped and upper-cased. */
  function Kind(req: Request): string {
    Upper(Strip(req.kind))
  }

  /** `[f for f in files if f.is_video]`. */
  function Videos(fs: seq<AudioFile>): (r: seq<AudioFile>)
    ensures forall f | f in r :: f in fs && f.IsVideo()
    ensures forall i | 0 <= i < |fs| && fs[i].IsVideo() :: fs[i] in r
    decreases |fs|
  {
    if fs == [] then []
    else
      var rest := Videos(fs[1..]);
      assert forall i | 1 <= i < |fs| :: fs[i] == fs[1..][i - 1];
      (if fs[0].IsVideo() then [fs[0]] else []) + rest
  }

  /** `[f for f in files if f.is_audio]`. */
  function Audios(fs: seq<AudioFile>): (r: seq<AudioFile>)
    ensures forall f | f in r :: f in fs && f.IsAudio()
    ensures forall i | 0 <= i < |fs| && fs[i].IsAudio() :: fs[i] in r
    decreases |fs|
  {
    if fs == [] then []
    else
      var rest := Audios(fs[1..]);
      assert forall i | 1 <= i < |fs| :: fs[i] == fs[1..][i - 1];
      (if fs[0].IsAudio() then [fs[0]] else []) + rest
  }

  /** A file's adjusted day as `%Y-%m-%d`, where Python computes it without overflow. */
  function AdjustedKey(a: TimeZoneAdapter, f: AudioFile): Option<string> {
    if a.InRange(f.timestamp) then
      AdjustedInRange(a, f.timestamp);
      Some(IsoDate(a.GetAdjustedDate(f.timestamp)))
    else None
  }

  /** Whether the fallback of a merge by date takes this file. */
  predicate OnAdjustedDay(a: TimeZoneAdapter, f: AudioFile, key: string)
    reads f
  {
    f.state == Unprocessed && AdjustedKey(a, f) == Some(key) && f.IsAudio()
  }

  /** The fallback of a merge by date: the unprocessed audio files whose adjusted day is the key, in listing order. */
  function AdjustedCandidates(a: TimeZoneAdapter, listing: seq<AudioFile>, key: string): seq<AudioFile>
    reads listing
    decreases |listing|
  {
    if listing == [] then []
    else
      var f := listing[|listing| - 1];
      var r := AdjustedCandidates(a, listing[..|listing| - 1], key);
      if OnAdjustedDay(a, f, key) then r + [f] else r
  }

  /** The fallback takes exactly the listed files on the adjusted day. */
  lemma {:induction false} AdjustedCandidatesSpec(a: TimeZoneAdapter, listing: seq<AudioFile>, key: string)
    ensures forall f | f in AdjustedCandidates(a, listing, key) :: f in listing && OnAdjustedDay(a, f, key)
    ensures forall i | 0 <= i < |listing| && OnAdjustedDay(a, listing[i], key) :: listing[i] in AdjustedCandidates(a, listing, key)
    decreases |listing|
  {
    if listing != [] {
      var init := listing[..|listing| - 1];
      AdjustedCandidatesSpec(a, init, key);
      assert forall i | 0 <= i < |listing| - 1 :: init[i] == listing[i];
    }
  }

  /** How `start_task` answers a request once it is not busy: a task to launch, or a 400 with an error and a message ("" for none). */
  datatype Plan = Launch(task: ProcessingTask) | Refuse(error: string, message: string)

  /**
   * A merge by date: the key is required; the processor's task for the key (`dated`) is
   * taken when there is one, else the fallback files by time, else the request is refused.
   */
  function PlanByDate(key: string, cwd: Path, a: TimeZoneAdapter, listing: seq<AudioFile>, dated: Option<ProcessingTask>): (p: Plan)
    reads listing
  {
    if key == "" then Refuse("Missing date_key", "")
    else if dated.Some? then Launch(dated.value)
    else
      var adjusted := AdjustedCandidates(a, listing, key);
      if adjusted != [] then Launch(ProcessingTask(Merge, ByTime(adjusted), cwd, NoParams))
      else Refuse("No files", "No unmerged files for " + key)
  }

  /** An import: the source directory is required and must exist as a directory. */
  function PlanImport(dir: string, cwd: Path, sourceIsDir: bool): (p: Plan)
    ensures p.Launch? <==> dir != "" && sourceIsDir
    ensures p.Launch? ==> p.task == ProcessingTask(Import, [], cwd, NoParams.(sourceDir := Some(dir)))
    ensures dir == "" ==> p == Refuse("Missing source_dir", "")
    ensures dir != "" && !sourceIsDir ==> p == Refuse("Invalid source_dir", "Directory does not exist")
  {
    if dir == "" then Refuse("Missing source_dir", "")
    else if !sourceIsDir then Refuse("Invalid source_dir", "Directory does not exist")
    else Launch(ProcessingTask(Import, [], cwd, NoParams.(sourceDir := Some(dir))))
  }

  /** The three kinds that act on selected files, given the outcome of the selection. */
  function PlanFiles(k: TaskType, sel: Lookup, req: Request, cwd: Path): (p: Plan)
    requires k in {Convert, Merge, RemoveSilence}
  {
    match sel
    case Refused(m) => Refuse("Invalid paths", m)
    case Found(fs) =>
      if k == Convert then
        var videos := Videos(fs);
        if videos == [] then Refuse("No videos selected", "") else Launch(ProcessingTask(Convert, videos, cwd, NoParams))
      else if k == Merge then
        Launch(ProcessingTask(Merge, Audios(fs), cwd, NoParams))
      else
        var audio := Audios(fs);
        if audio == [] then Refuse("No audio selected", "")
        else Launch(ProcessingTask(RemoveSilence, audio, cwd, SilenceParams(req)))
  }

  /** The parameters of a silence removal: the given threshold and duration, or -55dB and 0.1 s. */
  function SilenceParams(req: Request): TaskParams {
    NoParams.(threshold := Some(req.threshold.GetOr("-55dB")), duration := Some(req.duration.GetOr("0.1")))
  }

  /** The validation and dispatch of `start_task`; `dated` is what `create_merge_task_for_date` returned for the key. */
  function PlanTask(req: Request, cwd: Path, a: TimeZoneAdapter, listing: seq<AudioFile>,
                    dated: Option<ProcessingTask>, sourceIsDir: bool): (p: Plan)
    reads listing
  {
    match KindOf(Kind(req))
    case ByDate => PlanByDate(Strip(req.dateKey), cwd, a, listing, dated)
    case Unknown => Refuse("Unknown task type", "")
    case Typed(k) => PlanTyped(k, req, cwd, listing, sourceIsDir)
  }

  /** The task types other than a merge by date: an import, an organisation of the whole library, or a selection of files. */
  function PlanTyped(k: TaskType, req: Request, cwd: Path, listing: seq<AudioFile>, sourceIsDir: bool): (p: Plan)
    reads listing
  {
    match k
    case Import => PlanImport(Strip(req.sourceDir), cwd, sourceIsDir)
    case Organize =>
      Launch(ProcessingTask(Organize, listing, cwd, NoParams.(createArchive := Some(req.createArchive.GetOr(true)))))
    case Convert | Merge | RemoveSilence => PlanFiles(k, Selectable(cwd, listing, StringsOf(req.paths)), req, cwd)
  }

  /**
   * CONVERT launches exactly when the selection succeeds and includes a video, and then
   * converts the selected videos and nothing else.
   */
  lemma PlanConvert(sel: Lookup, req: Request, cwd: Path)
    ensures var p := PlanFiles(Convert, sel, req, cwd);
            (p.Launch? <==> sel.Found? && exists i | 0 <= i < |sel.files| :: sel.files[i].IsVideo())
            && (sel.Refused? ==> p == Refuse("Invalid paths", sel.message))
            && (sel.Found? && Videos(sel.files) == [] ==> p == Refuse("No videos selected", ""))
            && (p.Launch? ==> p.task.taskType == Convert && p.task.files == Videos(sel.files) && p.task.files != []
                              && forall f | f in p.task.files :: f.IsVideo() && f in sel.files)
  {
    if sel.Found? && Videos(sel.files) != [] {
      assert Videos(sel.files)[0] in Videos(sel.files);
    }
  }

  /** REMOVE_SILENCE launches exactly when the selection succeeds and includes audio, with the default parameters filled in. */
  lemma PlanRemoveSilence(sel: Lookup, req: Request, cwd: Path)
    ensures var p := PlanFiles(RemoveSilence, sel, req, cwd);
            (p.Launch? <==> sel.Found? && exists i | 0 <= i < |sel.files| :: sel.files[i].IsAudio())
            && (sel.Found? && Audios(sel.files) == [] ==> p == Refuse("No audio selected", ""))
            && (p.Launch? ==> p.task.taskType == RemoveSilence && p.task.files == Audios(sel.files) && p.task.files != []
                              && (forall f | f in p.task.files :: f.IsAudio() && f in sel.files)
                              && p.task.params.threshold == Some(req.threshold.GetOr("-55dB"))
                              && p.task.params.duration == Some(req.duration.GetOr("0.1")))
  {
    if sel.Found? && Audios(sel.files) != [] {
      assert Audios(sel.files)[0] in Audios(sel.files);
    }
  }

  /** MERGE keeps the selected audio and launches even when none is left. */
  lemma PlanMerge(sel: Lookup, req: Request, cwd: Path)
    ensures var p := PlanFiles(Merge, sel, req, cwd);
            (p.Launch? <==> sel.Found?)
            && (p.Launch? ==> p.task.taskType == Merge && p.task.files == Audios(sel.files)
                              && forall f | f in p.task.files :: f.IsAudio() && f in sel.files)
            && ((sel.Found? && forall i | 0 <= i < |sel.files| :: !sel.files[i].IsAudio()) ==> p == Launch(ProcessingTask(Merge, [], cwd, NoParams)))
  {
    if sel.Found? && Audios(sel.files) != [] {
      assert Audios(sel.files)[0] in Audios(sel.files);
    }
  }

  /**
   * A merge by date needs a key; it takes the processor's task for that key when there is
   * one, and otherwise the unprocessed audio files whose adjusted day is the key, by time.
   */
  lemma PlanByDateSpec(key: string, cwd: Path, a: TimeZoneAdapter, listing: seq<AudioFile>, dated: Option<ProcessingTask>)
    ensures var p := PlanByDate(key, cwd, a, listing, dated);
            (key == "" ==> p == Refuse("Missing date_key", ""))
            && (key != "" && dated.Some? ==> p == Launch(dated.value))
            && (key != "" && dated.None? ==>
                  (p.Launch? <==> exists i | 0 <= i < |listing| :: OnAdjustedDay(a, listing[i], key))
                  && (p.Refuse? ==> p == Refuse("No files", "No unmerged files for " + key))
                  && (p.Launch? ==> p.task.taskType == Merge && SortedBy(p.task.files, TimeKey, IntLe)
                                    && multiset(p.task.files) == multiset(AdjustedCandidates(a, listing, key))
                                    && forall f | f in p.task.files :: f in listing && OnAdjustedDay(a, f, key)))
  {
    if key != "" && dated.None? {
      AdjustedCandidatesSpec(a, listing, key);
      var adjusted := AdjustedCandidates(a, listing, key);
      if adjusted != [] {
        assert adjusted[0] in adjusted;
        var order := ByTime(adjusted);
        forall f | f in order ensures f in adjusted {
          assert f in multiset(order);
        }
      }
    }
  }

  /** A kind that is neither a merge by date nor a task type is refused as unknown; an organize takes the whole library. */
  lemma PlanDispatch(req: Request, cwd: Path, a: TimeZoneAdapter, listing: seq<AudioFile>,
                     dated: Option<ProcessingTask>, sourceIsDir: bool)
    ensures var p := PlanTask(req, cwd, a, listing, dated, sourceIsDir);
            (KindOf(Kind(req)) == Unknown ==> p == Refuse("Unknown task type", ""))
            && (KindOf(Kind(req)) == Typed(Organize) ==>
                  p.Launch? && p.task.files == listing && p.task.params.createArchive == Some(req.createArchive.GetOr(true)))
            && (KindOf(Kind(req)) == Typed(Import) ==> (p.Launch? <==> Strip(req.sourceDir) != "" && sourceIsDir))
  {
  }

  /** Every file a launched task carries, other than the processor's own task for a date, is a library file. */
  lemma PlanFilesListed(req: Request, cwd: Path, a: TimeZoneAdapter, listing: seq<AudioFile>,
                        dated: Option<ProcessingTask>, sourceIsDir: bool)
    requires PlanTask(req, cwd, a, listing, dated, sourceIsDir).Launch?
    requires !(KindOf(Kind(req)) == ByDate && dated.Some?)
    ensures forall f | f in PlanTask(req, cwd, a, listing, dated, sourceIsDir).task.files :: f in listing
  {
    match KindOf(Kind(req))
    case ByDate =>
      PlanByDateSpec(Strip(req.dateKey), cwd, a, listing, dated);
    case Typed(k) =>
      if k in {Convert, Merge, RemoveSilence} {
        var sel := Selectable(cwd, listing, StringsOf(req.paths));
        SelectableSpec(cwd, listing, StringsOf(req.paths));
        if k == Convert {
          PlanConvert(sel, req, cwd);
        } else if k == Merge {
          PlanMerge(sel, req, cwd);
        } else {
          PlanRemoveSilence(sel, req, cwd);
        }
      }
    case Unknown =>
  }

  // ------------------------------------------------------------ the session's merged files

  /** A component `resolve()` can leave in a path: not empty, not `.` or `..`, and without a slash. */
  predicate Named(part: string) {
    part != "" && part != "." && part != ".." && '/' !in part
  }

  /** `"/".join(parts)` for a non-empty list. */
  function JoinSlash(parts: seq<string>): string
    requires parts != []
    decreases |parts|
  {
    if |parts| == 1 then parts[0] else JoinSlash(parts[..|parts| - 1]) + "/" + parts[|parts| - 1]
  }

  /** `PurePosixPath(*parts).as_posix()`: the components joined by slashes, `.` when there are none. */
  function PosixText(parts: seq<string>): string {
    if parts == [] then "." else JoinSlash(parts)
  }

  /** `p.relative_to(cwd).as_posix()`, or nothing when `p` is not below `cwd`. */
  function RelOf(cwd: Path, p: Path): (r: Option<string>)
    ensures r.Some? <==> PathIsWithin(cwd, p)
  {
    if PathIsWithin(cwd, p) then Some(PosixText(p[|cwd|..])) else None
  }

  lemma {:induction false} LastSlash(a: string, b: string)
    requires '/' !in b
    ensures LastIndexOf(a + "/" + b, '/') == |a|
    decreases |b|
  {
    var s := a + "/" + b;
    if b != [] {
      var c := b[..|b| - 1];
      assert b[|b| - 1] in b;
      assert forall k | 0 <= k < |c| :: c[k] == b[k];
      LastSlash(a, c);
      assert s[..|s| - 1] == a + "/" + c;
    }
  }

  lemma {:induction false} SplitJoin(parts: seq<string>)
    requires parts != [] && forall k | 0 <= k < |parts| :: '/' !in parts[k]
    ensures Split(JoinSlash(parts), '/') == parts
    decreases |parts|
  {
    if |parts| == 1 {
      assert LastIndexOf(parts[0], '/') == -1;
    } else {
      var init := parts[..|parts| - 1];
      var a := JoinSlash(init);
      var b := parts[|parts| - 1];
      assert forall k | 0 <= k < |init| :: init[k] == parts[k];
      SplitJoin(init);
      assert JoinSlash(parts) == a + "/" + b;
      var s := a + "/" + b;
      LastSlash(a, b);
      assert s[..|a|] == a && s[|a| + 1..] == b;
      assert Split(s, '/') == Split(a, '/') + [b];
      assert parts == init + [b];
    }
  }

  lemma {:induction false} KeepNamedAll(parts: seq<string>)
    requires forall k | 0 <= k < |parts| :: Named(parts[k])
    ensures forall k | 0 <= k < |parts| :: '/' !in parts[k]
    ensures KeepNamed(parts) == parts
    decreases |parts|
  {
    if parts != [] {
      assert forall k | 1 <= k < |parts| :: parts[k] == parts[1..][k - 1];
      KeepNamedAll(parts[1..]);
    }
  }

  /** Reading back the text of named components gives the components. */
  lemma PosixTextRoundTrip(parts: seq<string>)
    requires forall k | 0 <= k < |parts| :: Named(parts[k])
    ensures RelParts(PosixText(parts)) == parts
  {
    if parts == [] {
      assert LastIndexOf(".", '/') == -1;
      assert Split(".", '/') == ["."];
    } else {
      SplitJoin(parts);
      KeepNamedAll(parts);
    }
  }

  /** What one source of a successful merge adds to the session's merged paths. */
  function RecordedRels(cwd: Path, f: AudioFile): set<string> {
    match RelOf(cwd, f.path)
    case None => {}
    case Some(rel) => if ValidateRelPath(Some(rel)).ok then {rel} else {}
  }

  /** The relative paths `_run_task_thread` adds for the sources of a successful merge. */
  function MergedRels(cwd: Path, fs: seq<AudioFile>): set<string>
    decreases |fs|
  {
    if fs == [] then {} else MergedRels(cwd, fs[..|fs| - 1]) + RecordedRels(cwd, fs[|fs| - 1])
  }

  /** Each path recorded for a merge was recorded for one of its sources, at index `i`. */
  lemma {:induction false} MergedRelSource(cwd: Path, fs: seq<AudioFile>, rel: string) returns (i: nat)
    requires rel in MergedRels(cwd, fs)
    ensures i < |fs| && rel in RecordedRels(cwd, fs[i])
    decreases |fs|
  {
    if rel in RecordedRels(cwd, fs[|fs| - 1]) {
      i := |fs| - 1;
    } else {
      var init := fs[..|fs| - 1];
      i := MergedRelSource(cwd, init, rel);
      assert init[i] == fs[i];
    }
  }

  /**
   * A path recorded as merged leads back to its file: sent back in a request it is accepted
   * and looks up a library file with the same path.
   */
  lemma MergedRelLeadsBack(cwd: Path, listing: seq<AudioFile>, f: AudioFile, rel: string)
    requires f in listing && forall k | 0 <= k < |f.path| :: Named(f.path[k])
    requires rel in RecordedRels(cwd, f)
    ensures ValidateRelPath(Some(rel)).ok
    ensures LookUpPath(cwd, listing, rel).Hit? && LookUpPath(cwd, listing, rel).file.path == f.path
  {
    var rest := f.path[|cwd|..];
    assert rel == PosixText(rest);
    PosixTextRoundTrip(rest);
    assert cwd + rest == f.path;
    LookUpOutcomes(cwd, listing, rel);
    AcceptedStaysWithin(cwd, rel);
    var i :| 0 <= i < |listing| && listing[i] == f;
  }

  /** Every path a merge records leads back, in a later request, to one of the merged sources. */
  lemma MergedRelsLeadBack(cwd: Path, listing: seq<AudioFile>, fs: seq<AudioFile>, rel: string)
    requires forall i | 0 <= i < |fs| :: fs[i] in listing && forall k | 0 <= k < |fs[i].path| :: Named(fs[i].path[k])
    requires rel in MergedRels(cwd, fs)
    ensures ValidateRelPath(Some(rel)).ok && LookUpPath(cwd, listing, rel).Hit?
    ensures exists i | 0 <= i < |fs| :: LookUpPath(cwd, listing, rel).file.path == fs[i].path
  {
    var i := MergedRelSource(cwd, fs, rel);
    MergedRelLeadsBack(cwd, listing, fs[i], rel);
  }

  // ------------------------------------------------------------ the application

  /** How the task's thread ends: `process_task` returned this result, or an exception with this text escaped. */
  datatype ThreadEnd = Completed(result: TaskResult) | Raised(message: string)

  /** The lines the end of a thread adds to the log. */
  function EndLines(end: ThreadEnd): (lines: seq<string>)
    ensures |lines| <= 1
    ensures end.Raised? ==> lines == ["ERROR: " + end.message]
    ensures end.Completed? ==> (lines != [] <==> !end.result.success && end.result.error.GetOr("") != "")
  {
    match end
    case Raised(m) => ["ERROR: " + m]
    case Completed(r) =>
      if !r.success && r.error.GetOr("") != "" then ["ERROR: " + r.error.value] else []
  }

  function SummaryOf(r: TaskResult): Summary {
    if r.success then Succeeded(r.processedCount, r.outputFiles) else FailedWith(r.error)
  }

  /** What a request gets back: 200 with the task id, or an error status with an error and a message. */
  datatype Reply = Accepted(taskId: string) | Rejected(code: int, error: string, message: string)

  const BadRequest := 400
  const Conflict := 409

  /**
   * `AudioToolboxApp`: the task records by id, the current task, and the relative paths
   * merged in this session. `cwd` is the working directory requests are relative to.
   */
  class App {
    const cwd: Path
    const processor: AudioProcessor
    const organizer: FileOrganizer
    var tasks: map<string, TaskRecord>
    var currentTaskId: Option<string>
    var sessionMerged: set<string>

    /** Each record is filed under its own id, so distinct ids hold distinct records. */
    ghost predicate Valid()
      reads this, tasks.Values
    {
      forall id | id in tasks :: tasks[id].taskId == id
    }

    /** The part of `__init__` the controller needs: no tasks, none current, nothing merged. */
    constructor (cwd: Path, processor: AudioProcessor, organizer: FileOrganizer)
      ensures Valid() && this.cwd == cwd && this.processor == processor && this.organizer == organizer
      ensures tasks == map[] && currentTaskId == None && sessionMerged == {}
    {
      this.cwd := cwd;
      this.processor := processor;
      this.organizer := organizer;
      tasks := map[];
      currentTaskId := None;
      sessionMerged := {};
    }

    /** `busy`: there is a current task id, a record under it, and that record is running. */
    predicate Busy()
      reads this, tasks.Values
    {
      currentTaskId.Some? && currentTaskId.value != "" && currentTaskId.value in tasks
      && tasks[currentTaskId.value].status == Running
    }

    /** `current_task`: the record of the current id; busy exactly when it exists and is running. */
    function CurrentTask(): (r: Option<TaskRecord>)
      reads this, tasks.Values
      ensures r.Some? ==> currentTaskId.Some? && currentTaskId.value in tasks && r.value == tasks[currentTaskId.value]
      ensures Busy() <==> r.Some? && r.value.status == Running
    {
      if currentTaskId.None? || currentTaskId.value == "" || currentTaskId.value !in tasks then None
      else Some(tasks[currentTaskId.value])
    }
    /** `_audio_files_from_paths`: the first path that is not acceptable, outside the directory or unknown refuses the request. */
    method AudioFilesFromPaths(listing: seq<AudioFile>, rels: seq<string>) returns (files: seq<AudioFile>, err: Option<string>)
      ensures err.None? ==> Resolved(cwd, listing, rels) == Found(files)
      ensures err.Some? ==> Resolved(cwd, listing, rels) == Refused(err.value) && files == []
    {
      ghost var ls := Lookups(cwd, listing, rels);
      files := [];
      err := None;
      for i := 0 to |rels|
        invariant Gather(ls) == Prepend(files, Gather(ls[i..]))
      {
        var rel := rels[i];
        assert ls[i..][0] == LookUpPath(cwd, listing, rel) && ls[i..][1..] == ls[i + 1..];
        var v := ValidateRelPath(Some(rel));
        if !v.ok {
          return [], Some("Invalid path: " + rel + " (" + v.reason + ")");
        }
        var target := Resolve(cwd, RelParts(rel));
        if !PathIsWithin(cwd, target) {
          return [], Some("Invalid path (outside cwd): " + rel);
        }
        var found := FileAt(listing, target);
        if found.None? {
          return [], Some("File not found in library: " + rel);
        }
        PrependTwice(files, [found.value], Gather(ls[i + 1..]));
        files := files + [found.value];
      }
      assert ls[|rels|..] == [];
      assert files + [] == files;
    }

    /** `_selectable_files_from_paths`: the lookup, then the first file the list shows locked refuses the request. */
    method SelectableFilesFromPaths(listing: seq<AudioFile>, rels: seq<string>) returns (selectable: seq<AudioFile>, err: Option<string>)
      ensures err.None? ==> Selectable(cwd, listing, rels) == Found(selectable)
      ensures err.Some? ==> Selectable(cwd, listing, rels) == Refused(err.value) && selectable == []
    {
      var files, e := AudioFilesFromPaths(listing, rels);
      if e.Some? {
        return [], e;
      }
      ghost var ls := Screens(files);
      selectable := [];
      err := None;
      for i := 0 to |files|
        invariant Gather(ls) == Prepend(selectable, Gather(ls[i..]))
      {
        assert ls[i..][0] == Screened(files[i]) && ls[i..][1..] == ls[i + 1..];
        var presented := Present(files[i]);
        if !presented.checkable || presented.disabled {
          return [], Some("File is not selectable (disabled in UI): " + Name(files[i].path));
        }
        PrependTwice(selectable, [files[i]], Gather(ls[i + 1..]));
        selectable := selectable + [files[i]];
      }
      assert ls[|files|..] == [];
      assert selectable + [] == selectable;
    }

    /** The fallback loop of a merge by date. */
    method CollectAdjusted(listing: seq<AudioFile>, key: string) returns (adjusted: seq<AudioFile>)
      ensures adjusted == AdjustedCandidates(organizer.adapter, listing, key)
    {
      adjusted := [];
      for i := 0 to |listing|
        invariant adjusted == AdjustedCandidates(organizer.adapter, listing[..i], key)
      {
        assert listing[..i + 1][..i] == listing[..i];
        var f := listing[i];
        if f.state != Unprocessed {
          continue;
        }
        var day := AdjustedKey(organizer.adapter, f);
        if day == Some(key) && f.IsAudio() {
          adjusted := adjusted + [f];
        }
      }
      assert listing[..|listing|] == listing;
    }

    /** The branch of `start_task` for a merge by date. */
    method PrepareByDate(key: string, listing: seq<AudioFile>) returns (plan: Plan, dated: Option<ProcessingTask>)
      requires processor.library.Valid()
      ensures plan == PlanByDate(key, cwd, organizer.adapter, listing, dated)
      ensures key != "" ==> (dated.None? <==> processor.library.UnmergedOn(key) == {})
      ensures dated.Some? ==>
                key != "" && dated.value.taskType == Merge && dated.value.outputDir == cwd
                && Enumerates(dated.value.files, processor.library.UnmergedOn(key))
                && SortedBy(dated.value.files, TimeKey, IntLe)
    {
      if key == "" {
        return Refuse("Missing date_key", ""), None;
      }
      dated := processor.CreateMergeTaskForDate(key, Some(cwd));
      if dated.Some? {
        return Launch(dated.value), dated;
      }
      var adjusted := CollectAdjusted(listing, key);
      if adjusted != [] {
        return Launch(ProcessingTask(Merge, ByTime(adjusted), cwd, NoParams)), dated;
      }
      return Refuse("No files", "No unmerged files for " + key), dated;
    }

    /** The branch of `start_task` for the kinds that act on selected files. */
    method PrepareFiles(k: TaskType, req: Request, listing: seq<AudioFile>) returns (plan: Plan)
      requires k in {Convert, Merge, RemoveSilence}
      ensures plan == PlanFiles(k, Selectable(cwd, listing, StringsOf(req.paths)), req, cwd)
    {
      var files, err := SelectableFilesFromPaths(listing, StringsOf(req.paths));
      if err.Some? {
        return Refuse("Invalid paths", err.value);
      }
      if k == Convert {
        files := Videos(files);
        if files == [] {
          return Refuse("No videos selected", "");
        }
        return Launch(ProcessingTask(Convert, files, cwd, NoParams));
      } else if k == Merge {
        files := Audios(files);
        return Launch(ProcessingTask(Merge, files, cwd, NoParams));
      } else {
        files := Audios(files);
        if files == [] {
          return Refuse("No audio selected", "");
        }
        return Launch(ProcessingTask(RemoveSilence, files, cwd, SilenceParams(req)));
      }
    }

    /**
     * The processor's task for a request: none unless it is a merge by date; for one with a
     * date key, none exactly when the library has no unmerged file on that day; and a task
     * that exists merges exactly those files, in timestamp order, into the working directory.
     */
    ghost predicate DatedTask(req: Request, dated: Option<ProcessingTask>)
      reads processor.library, processor.library.files
    {
      (KindOf(Kind(req)) != ByDate ==> dated == None)
      && (KindOf(Kind(req)) == ByDate && Strip(req.dateKey) != "" ==>
            (dated.None? <==> processor.library.UnmergedOn(Strip(req.dateKey)) == {}))
      && (dated.Some? ==>
            KindOf(Kind(req)) == ByDate && dated.value.taskType == Merge && dated.value.outputDir == cwd
            && Enumerates(dated.value.files, processor.library.UnmergedOn(Strip(req.dateKey)))
            && SortedBy(dated.value.files, TimeKey, IntLe))
    }

    /** The validation and dispatch of `start_task`, after the busy check; it changes nothing. */
    method Prepare(req: Request, listing: seq<AudioFile>, sourceIsDir: bool) returns (plan: Plan, dated: Option<ProcessingTask>)
      requires processor.library.Valid() && Enumerates(listing, processor.library.files)
      ensures plan == PlanTask(req, cwd, organizer.adapter, listing, dated, sourceIsDir)
      ensures DatedTask(req, dated)
    {
      var kind := KindOf(Kind(req));
      dated := None;
      match kind {
        case ByDate =>
          plan, dated := PrepareByDate(Strip(req.dateKey), listing);
        case Unknown =>
          plan := Refuse("Unknown task type", "");
        case Typed(k) =>
          plan := PrepareTyped(k, req, listing, sourceIsDir);
      }
    }

    /** The branches of `start_task` for the task types other than a merge by date. */
    method PrepareTyped(k: TaskType, req: Request, listing: seq<AudioFile>, sourceIsDir: bool) returns (plan: Plan)
      ensures plan == PlanTyped(k, req, cwd, listing, sourceIsDir)
    {
      match k {
        case Import =>
          plan := PlanImport(Strip(req.sourceDir), cwd, sourceIsDir);
        case Organize =>
          plan := Launch(ProcessingTask(Organize, listing, cwd, NoParams.(createArchive := Some(req.createArchive.GetOr(true)))));
        case Convert | Merge | RemoveSilence =>
          plan := PrepareFiles(k, req, listing);
      }
    }

    /**
     * `start_task`: 409 while busy; otherwise the request is validated, and an accepted one
     * gets a fresh running record under the new id (a uuid in the source), which becomes
     * current. `listing` lists the library's files in their iteration order.
     */
    method StartTask(req: Request, newId: string, listing: seq<AudioFile>, sourceIsDir: bool)
      returns (reply: Reply, launched: Option<ProcessingTask>, ghost plan: Plan, ghost dated: Option<ProcessingTask>)
      requires Valid() && processor.library.Valid() && Enumerates(listing, processor.library.files) && newId != ""
      modifies this
      ensures Valid() && sessionMerged == old(sessionMerged)
      ensures old(Busy()) ==>
                reply == Rejected(Conflict, "Busy", "A task is already running") && launched == None
                && tasks == old(tasks) && currentTaskId == old(currentTaskId)
      ensures !old(Busy()) ==> plan == PlanTask(req, cwd, organizer.adapter, listing, dated, sourceIsDir)
      ensures !old(Busy()) ==> DatedTask(req, dated)
      ensures !old(Busy()) && plan.Refuse? ==>
                reply == Rejected(BadRequest, plan.error, plan.message) && launched == None
                && tasks == old(tasks) && currentTaskId == old(currentTaskId)
      ensures !old(Busy()) && plan.Launch? ==>
                reply == Accepted(newId) && launched == Some(plan.task)
                && newId in tasks && fresh(tasks[newId]) && tasks == old(tasks)[newId := tasks[newId]]
                && tasks[newId].status == Running && tasks[newId].log == [] && tasks[newId].result == None
                && currentTaskId == Some(newId) && Busy()
    {
      if Busy() {
        return Rejected(Conflict, "Busy", "A task is already running"), None, Refuse("Busy", ""), None;
      }
      var p, d := Prepare(req, listing, sourceIsDir);
      plan, dated := p, d;
      if p.Refuse? {
        return Rejected(BadRequest, p.error, p.message), None, plan, dated;
      }
      Register(newId);
      reply := Accepted(newId);
      launched := Some(p.task);
    }

    /** The record an accepted request gets: running, with an empty log, and current. */
    method Register(newId: string)
      requires Valid() && newId != ""
      modifies this
      ensures Valid() && sessionMerged == old(sessionMerged)
      ensures newId in tasks && fresh(tasks[newId]) && tasks == old(tasks)[newId := tasks[newId]]
      ensures tasks[newId].status == Running && tasks[newId].log == [] && tasks[newId].result == None
      ensures currentTaskId == Some(newId) && Busy()
    {
      var record := new TaskRecord(newId);
      tasks := tasks[newId := record];
      currentTaskId := Some(newId);
    }

    /** The `progress` callback: a line is kept only while the record exists and is running. */
    method Progress(taskId: string, msg: string)
      requires Valid()
      modifies if taskId in tasks then {tasks[taskId]} else {}
      ensures taskId in tasks ==>
                tasks[taskId].status == old(tasks[taskId].status) && tasks[taskId].result == old(tasks[taskId].result)
                && tasks[taskId].log == old(tasks[taskId].log) + (if old(tasks[taskId].status) == Running then [msg] else [])
    {
      if taskId !in tasks || tasks[taskId].status != Running {
        return;
      }
      var rec := tasks[taskId];
      rec.log := rec.log + [msg];
    }

    /** The loop over a merge's sources: each one inside the directory whose relative path is acceptable is recorded. */
    method RecordMerged(files: seq<AudioFile>)
      modifies this
      ensures sessionMerged == old(sessionMerged) + MergedRels(cwd, files)
      ensures tasks == old(tasks) && currentTaskId == old(currentTaskId)
    {
      for i := 0 to |files|
        invariant sessionMerged == old(sessionMerged) + MergedRels(cwd, files[..i])
        invariant tasks == old(tasks) && currentTaskId == old(currentTaskId)
      {
        assert files[..i + 1][..i] == files[..i];
        RecordOne(files[i]);
      }
      assert files[..|files|] == files;
    }

    /** One source of a successful merge: recorded when it lies inside the directory and its relative path is acceptable. */
    method RecordOne(f: AudioFile)
      modifies this
      ensures sessionMerged == old(sessionMerged) + RecordedRels(cwd, f)
      ensures tasks == old(tasks) && currentTaskId == old(currentTaskId)
    {
      var rel := RelOf(cwd, f.path);
      if rel.None? {
        return;
      }
      var v := ValidateRelPath(Some(rel.value));
      if v.ok {
        sessionMerged := sessionMerged + {rel.value};
      }
    }

    /**
     * `_run_task_thread`: the progress lines go to the log while the record runs; then the
     * record is done when the result is a success and in error otherwise, with an error line
     * when there is a message, and a successful merge records its sources as merged.
     */
    method RunTaskThread(taskId: string, task: ProcessingTask, progress: seq<string>, end: ThreadEnd)
      requires Valid()
      modifies this, if taskId in tasks then {tasks[taskId]} else {}
      ensures Valid() && tasks == old(tasks) && currentTaskId == old(currentTaskId)
      ensures taskId !in tasks ==> sessionMerged == old(sessionMerged)
      ensures taskId in tasks ==>
                var rec := tasks[taskId];
                rec.status == (if end.Completed? && end.result.success then Done else Error)
                && rec.log == old(rec.log) + (if old(rec.status) == Running then progress else []) + EndLines(end)
                && rec.result == (if end.Completed? then Some(SummaryOf(end.result)) else old(rec.result))
                && sessionMerged == old(sessionMerged) + (if end.Completed? && end.result.success && task.taskType == Merge
                                                          then MergedRels(cwd, task.files) else {})
      ensures currentTaskId == Some(taskId) ==> !Busy()
    {
      for i := 0 to |progress|
        invariant Valid() && tasks == old(tasks) && currentTaskId == old(currentTaskId) && sessionMerged == old(sessionMerged)
        invariant taskId in tasks ==>
                    tasks[taskId].status == old(tasks[taskId].status) && tasks[taskId].result == old(tasks[taskId].result)
                    && tasks[taskId].log == old(tasks[taskId].log) + (if old(tasks[taskId].status) == Running then progress[..i] else [])
      {
        Progress(taskId, progress[i]);
        assert progress[..i + 1] == progress[..i] + [progress[i]];
      }
      assert progress[..|progress|] == progress;
      if taskId !in tasks {
        return;
      }
      var rec := tasks[taskId];
      match end {
        case Raised(m) =>
          rec.status := Error;
          rec.log := rec.log + ["ERROR: " + m];
        case Completed(r) =>
          if r.success {
            rec.status := Done;
            rec.result := Some(SummaryOf(r));
            if task.taskType == Merge {
              RecordMerged(task.files);
            }
          } else {
            rec.status := Error;
            rec.result := Some(SummaryOf(r));
            if r.error.GetOr("") != "" {
              rec.log := rec.log + ["ERROR: " + r.error.value];
            }
          }
      }
    }
  }
}
