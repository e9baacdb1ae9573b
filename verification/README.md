# Combine-Organize-MP3, modelled in Dafny

Combine-Organize-MP3 keeps a folder of timestamped recordings (OBS-style
`YYYY-MM-DD HH-MM-SS` names) in order: it converts videos to MP3, merges a
day's clips into one file, strips silence and files recordings into day
folders, through a desktop tool, a console script and a small web server.
This project models the bookkeeping around that media work and proves what
it promises:

- `audio_models.dfy` (module `AudioModels`): the recording, its lifecycle
  states, the task and result records, and the library with its indexes by
  date key and by state, kept consistent as files are added, removed and
  change state.
- `audio_processor.dfy` (`AudioProcessor`): reading a recording's time from
  its name, scanning a directory, the `process_task` dispatcher and its five
  handlers (import, convert, merge, remove silence, organise) with their
  counting and success rules, and the merge task for a day.
- `file_organizer.dfy` (`FileOrganizer`): the session day of a recording
  (time-zone shift and early-morning cutoff), hiding videos that already
  have an MP3, the day groups and their colours, and the display metadata.
- `file_presenter.dfy` (`FilePresenter`): the per-state display table, the
  icon and the display line.
- `combine_gui.dfy` (`CombineGui`): the desktop tool's filename parser, the
  merged-file and day-folder names, the names written by conversion and
  silence removal, the workers' success counts, the organiser's grouping
  and the running-worker counter.
- `combine_cli.dfy` (`CombineCli`): the console script's parser, its day
  menu and the answer read at the prompt, the keyboard file picker, and
  the merged file's name.
- `web_server.dfy` (`WebServer`): checks on relative paths, the worker
  setting clamp, the log cap, and the controller that runs one task at a
  time, validates each request by type and records how a task ends.
- `wrappers.dfy`, `text.dfy`, `calendar.dfy`, `date_text.dfy` and
  `collections.dfy`: Python's meaning of what the code leans on.
  That covers `Option`, digits and `int()`, string order, `strip`/`lower`,
  the `pathlib` name functions, the proleptic Gregorian calendar and
  `timedelta` shifts, the `strftime`/`strptime` layouts, the filename
  regular expression, a stable `sorted`, and the one-pass dict-of-lists
  grouping.

Objects whose fields the code updates are classes: `AudioFile`,
`AudioLibrary`, `AudioProcessor`, `FileOrganizer`, the console
`FilePicker`, the desktop `MainWindow` counter, `TaskRecord` and the web
`App`. Their methods are proved against functions of their inputs and
state. The pure parts are functions with lemmas.

The file system, clocks, uuids and external programs are inputs. A `Disk`
value answers listings, existence checks, stat results and renames. A
`Tools` value, or plain boolean parameters, says whether ffmpeg and 7-Zip
are installed and whether each call succeeds. The thread pools become loops
in task order.

The dispatcher (audio_processor.py:117-119) marks every target PROCESSED on
success, including the files a conversion marked CONVERTED and the sources
a merge marked MERGED. `AudioProcessor.AudioProcessor.ProcessTask` states
that overwrite.

## Model

| member | source | states |
|---|---|---|
| AudioModels.FormatOf | audio_models.py:45-50 | an empty format becomes the file name's suffix lower-cased without its dot (empty when there is no suffix), and never contains a dot |
| AudioModels.AudioFile.constructor | audio_models.py:45-50 | a given format is kept; an empty one is derived from the path as `FormatOf` says |
| AudioModels.AudioFile.FromPath | audio_models.py:53-71 | the file gets the given path, timestamp and size and the format of its path, in state UNPROCESSED |
| AudioModels.AudioFile.DateKey | audio_models.py:77-79 | the key is ten characters `YYYY-MM-DD` with dashes at positions 4 and 7 |
| AudioModels.DateKeyNamesDate | audio_models.py:77-79 | two files share a date key exactly when their timestamps fall on the same calendar date |
| AudioModels.VideoAndAudioDisjoint | audio_models.py:81-89 | no file is both a video and an audio file |
| AudioModels.EqualityFollowsPath | audio_models.py:91-97 | equality is reflexive, symmetric and transitive, and holds exactly when the hash keys (the paths) are equal |
| AudioModels.ByTime | audio_models.py:167-173 | the result is sorted by timestamp and is a permutation of its input |
| AudioModels.PathInAdd | audio_models.py:136-139 | adding a file adds exactly its path to the paths the set holds |
| AudioModels.DateIndexedAdd | audio_models.py:175-183 | `_index_file` keeps the date index filing each member under its own date key and nothing else |
| AudioModels.StateIndexedAdd | audio_models.py:185-186 | `_index_file` keeps the state index filing each member under its current state and nothing else |
| AudioModels.DateIndexedRemove | audio_models.py:188-192 | `_deindex_file` keeps the date index exact for the remaining members |
| AudioModels.StateIndexedRemove | audio_models.py:194-195 | `_deindex_file` keeps the state index exact for the remaining members |
| AudioModels.StateIndexedMove | audio_models.py:146-157 | after a member's state changes, leaving the old bucket and joining the new one files every member correctly again |
| AudioModels.KeepUnprocessed | audio_models.py:169-170 | the list holds each UNPROCESSED file of the set exactly once |
| AudioModels.AudioLibrary.constructor | audio_models.py:130-134 | a new library is empty and satisfies the index invariant |
| AudioModels.AudioLibrary.GetByDate | audio_models.py:159-161 | exactly the members with that date key, and no file for an unknown key |
| AudioModels.AudioLibrary.GetByState | audio_models.py:163-165 | exactly the members in that state, and no file for a state never used |
| AudioModels.AudioLibrary.Add | audio_models.py:136-139 | for a new path, the file joins the set, its date bucket and its state bucket and nothing else changes; for a path already held nothing changes; the index invariant is kept |
| AudioModels.AudioLibrary.Remove | audio_models.py:141-144 | the file leaves the set, its date bucket and its state bucket, no other membership changes, and the invariant is kept |
| AudioModels.AudioLibrary.UpdateState | audio_models.py:146-157 | the file's state becomes the new one and it moves from its old state bucket to the new bucket (staying put for the same state); set and date index unchanged; invariant kept |
| AudioModels.AudioLibrary.GetUnmergedForDate | audio_models.py:167-173 | lists each UNPROCESSED member of that date exactly once, in non-decreasing timestamp order |
| AudioModels.AudioLibrary.Clear | audio_models.py:197-201 | the set and both indexes are empty and the invariant holds |
| AudioModels.PathIndexedAdd | audio_models.py:175-186 | on the path-keyed view, filing a new path under its key keeps an index exact |
| AudioModels.AddAsWritten | audio_models.py:136-139 | `add` as written: a path already held keeps its stored member, but the path is filed under the new object's date and state |
| AudioModels.AddCorrected | audio_models.py:136-139 | the corrected `add`: a path already held leaves the library unchanged |
| AudioModels.AddAsWrittenDoubleFiles | audio_models.py:136-139 | a consistent library holding `rec.mp3` as MERGED, after `add` of a new UNPROCESSED `rec.mp3`, files that path under both MERGED and UNPROCESSED and is no longer consistent |
| AudioModels.AddCorrectedKeepsIndex | audio_models.py:136-139 | the corrected `add` keeps the index invariant for every entry, and a new entry is filed under its own date and state |
| AudioProcessor.ExtractTimestampSpec | audio_processor.py:83-98 | a name without the date pattern keeps the mtime; a name with it yields a time only when the seconds matched, and that time prints back as exactly the two captured groups |
| AudioProcessor.StampNameRoundTrip | audio_processor.py:83-95 | a name made of any digit-free text, `YYYY-MM-DD<_ or space>HH-MM-SS` for time `t`, and anything after it gets timestamp `t`, not its mtime |
| AudioProcessor.AudioProcessor.constructor | audio_processor.py:23-41 | an empty, consistent library with the given tools |
| AudioProcessor.AudioProcessor.FindObsSaveLocation | audio_processor.py:43-65 | the first of the four usual places that exists and holds an `*.mp4` (`FirstQualifying`), and none exactly when no place qualifies |
| AudioProcessor.AudioProcessor.CreateAudioFile | audio_processor.py:83-98 | no file exactly when the timestamp cannot be read; otherwise a fresh UNPROCESSED file with that path, timestamp, size and format |
| AudioProcessor.AudioProcessor.ScanPattern | audio_processor.py:74-79 | one glob pattern adds every admitted entry matching it and keeps the library consistent |
| AudioProcessor.AudioProcessor.ScanEntry | audio_processor.py:75-79 | one entry of a glob: a matching regular file with a readable timestamp joins the library |
| AudioProcessor.AudioProcessor.ScanDirectory | audio_processor.py:67-81 | after the clear and the nine patterns, an entry's path is held exactly when it matches a pattern and is admitted, and every member is such an entry, UNPROCESSED, with the timestamp read from its name |
| AudioProcessor.ScanFinished | audio_processor.py:73-79 | once all nine patterns are done, exactly the admitted entries matching some pattern are held |
| AudioProcessor.AudioProcessor.MarkAll | audio_processor.py:108-119 | `update_state` on each listed member gives those members the state and changes nothing else |
| AudioProcessor.AudioProcessor.ProcessTask | audio_processor.py:100-126 | without an exception the result is the handler's result (`HandlerResult`); every target ends PROCESSED on success and FAILED otherwise, other members keep their state, no member is lost; a raised exception gives failure with its message and no count |
| AudioProcessor.AudioProcessor.RunHandler | audio_processor.py:30-36 | each task type goes to its handler and the result is that handler's result (`HandlerResult`); the library stays consistent, loses no member, and gains members only in a conversion |
| AudioProcessor.HandlerSucceeds | audio_processor.py:128-331 | success per kind: an import iff a source is found and some `*.mp4` in it is moved; a conversion iff ffmpeg is present and some target converts; a merge iff ffmpeg is present, there are targets and the merge call succeeds; a trim iff ffmpeg is present and some trim succeeds; an organisation iff it has targets |
| AudioProcessor.HandlerFailedCount | audio_models.py:124-126 | `failed_count` of each handler's result: the targets that did not convert or could not be trimmed; all targets without ffmpeg; all of a merge's targets unless it succeeded, else none; none for an organisation; minus the number moved for an import without targets |
| AudioProcessor.OrganizeSucceeds | audio_processor.py:292-331 | an organisation lists at least one date folder exactly when it has targets |
| AudioProcessor.AudioProcessor.ImportFiles | audio_processor.py:128-166 | the source is the given directory, else the first qualifying usual place (`ImportSource`); with none the fixed error is returned; otherwise the outputs are the successful renames of `*.mp4`, counted, success iff at least one |
| AudioProcessor.ImportedSpec | audio_processor.py:151-155 | each imported path is the rename of an `*.mp4` entry that succeeded, and every such rename is listed |
| AudioProcessor.ImportedNonEmpty | audio_processor.py:151-166 | something is imported exactly when some `*.mp4` of the source is moved |
| AudioProcessor.AudioProcessor.ConvertOne | audio_processor.py:186-198 | a successful conversion gives `<stem>.mp3` and marks the source CONVERTED; unless the library already held that path it gains exactly one new member, an UNPROCESSED MP3 at that path with the source's timestamp and the source as `source_file`; a failed or skipped conversion changes nothing |
| AudioProcessor.AudioProcessor.AddConverted | audio_processor.py:192-198 | the source becomes CONVERTED and the target path is held; a new member, UNPROCESSED, at the target, with the source's timestamp and source path, joins exactly when the path was not held before |
| AudioProcessor.AudioProcessor.ConvertFiles | audio_processor.py:168-209 | without ffmpeg the fixed error and no change; otherwise the outputs are the successful conversions of non-MP3 files, counted, success iff one or more; exactly the converted targets become CONVERTED; every output path is held afterwards, and every member gained is new, UNPROCESSED and made from a target that converted |
| AudioProcessor.AudioProcessor.ConvertAll | audio_processor.py:179-202 | the loop collects the outputs of the successes in task order, marks exactly those sources CONVERTED, holds every output path, and gains only new UNPROCESSED MP3s made from files that converted |
| AudioProcessor.AudioProcessor.ConvertNext | audio_processor.py:186-198 | one file: its output is listed exactly when it converts, it is CONVERTED exactly then, the listed paths stay held, and any member gained is a new MP3 made from a converted file |
| AudioProcessor.ConvertOutputsSpec | audio_processor.py:179-198 | at most one output per file; each output is the MP3 of a converted target, and every converted target has its output |
| AudioProcessor.ConvertOutputsNonEmpty | audio_processor.py:179-209 | some output is listed exactly when some target converts |
| AudioProcessor.ConvertOutputsCount | audio_processor.py:179-198 | the number of outputs is the number of targets that convert |
| AudioProcessor.AudioProcessor.MergeFiles | audio_processor.py:211-246 | without ffmpeg or files the fixed errors; otherwise the tool gets the targets in timestamp order (a permutation of the task's), named after the first and last times; on success one output, every target counted and MERGED, otherwise none |
| AudioProcessor.MergedNameInjective | audio_processor.py:224-226 | the merged name determines the first recording's date and time and the last one's time of day |
| AudioProcessor.PathsOf | audio_processor.py:233 | the paths of the files, position by position |
| AudioProcessor.AudioProcessor.RemoveSilenceFiles | audio_processor.py:248-287 | without ffmpeg the fixed error; otherwise the outputs are the successful `nosilence_<name>` copies with the default threshold `-55dB` and duration `0.1`, counted, success iff one or more |
| AudioProcessor.SilenceOutputsSpec | audio_processor.py:263-276 | each output is a successful trimmed copy of a target, and every successful copy is listed |
| AudioProcessor.SilenceOutputsNonEmpty | audio_processor.py:261-287 | some output is listed exactly when some trim succeeds |
| AudioProcessor.SilenceOutputsCount | audio_processor.py:261-280 | the number of outputs is the number of targets whose trim succeeds |
| AudioProcessor.AudioProcessor.MoveGroup | audio_processor.py:307-310 | one move per file of a group, into the date folder, in group order |
| AudioProcessor.AudioProcessor.OrganizeFiles | audio_processor.py:289-332 | one folder per date key in order of first appearance, every target moved into its date folder exactly once, archives only when asked and 7-Zip exists, count = number of targets, success iff there are targets |
| AudioProcessor.AudioProcessor.OrganizeGroups | audio_processor.py:303-325 | the loop over the date groups: a folder per key, the moves of each group and its archive when wanted |
| AudioProcessor.DateDirsSpec | audio_processor.py:304-315 | folder `i` is `<output>/<key i>` |
| AudioProcessor.ArchiveMovesSpec | audio_processor.py:321-323 | archive `i` packs the folder of key `i` into `<key i>.7z` |
| AudioProcessor.OrganizeGroupStep | audio_processor.py:303-315 | the moves of one more group keep every move inside its date folder and cover that group's files too |
| AudioProcessor.AudioProcessor.CreateMergeTaskForDate | audio_processor.py:334-344 | none exactly when the date has no unmerged file; otherwise a MERGE task listing each of them once, in timestamp order, into the given directory or the working directory |
| FileOrganizer.TimeZoneAdapter.GetAdjustedDate | file_organizer.py:30-48 | the adjusted day is always a valid calendar date |
| FileOrganizer.AdjustedDayNumber | file_organizer.py:30-48 | the adjusted day number is the whole days of the recording's seconds on the target zone's clock (shifted from UTC+8) minus the cutoff hours: before the cutoff a recording belongs to the previous day |
| FileOrganizer.ClampedCutoff | file_organizer.py:46 | the cutoff compared with an hour of the day acts as a value between 0 and 24 |
| FileOrganizer.AdjustedDateMonotone | file_organizer.py:30-48 | with a fixed offset and cutoff, a later recording never maps to an earlier day |
| FileOrganizer.AdjustedInRange | file_organizer.py:38-48 | where Python computes the day without `OverflowError` (the `localize` lookups one day either side, the zone conversion and the cutoff step all stay in years 1 to 9999), it is a date of years 1 to 9999 |
| FileOrganizer.EdgeDaysOverflow | file_organizer.py:38-40 | a recording dated 0001-01-01 or 9999-12-31 never gets an adjusted day, for any adapter and any clock time, because `localize` steps a day past the range |
| FileOrganizer.GroupByAdjustedDate | file_organizer.py:50-58 | the files grouped by adjusted day, days in first-occurrence order, each group in input order |
| FileOrganizer.GroupByAdjustedDatePartition | file_organizer.py:50-58 | each file is in the group of its own adjusted day, every group member is an input file of that day, and the group sizes add up to the input size |
| FileOrganizer.DayKeySameDay | file_organizer.py:118-121 | grouping by the `%Y-%m-%d` string of the day groups the same files as grouping by the day |
| FileOrganizer.KeyIsDay | file_organizer.py:118-134 | every group key parses back to a day, and its group is that day's files and is not empty |
| FileOrganizer.FileKeyListed | file_organizer.py:112-121 | every file's key is among the keys and parses back to the file's adjusted day |
| FileOrganizer.KeyOrder | file_organizer.py:130 | the keys sorted as strings, a permutation of the keys |
| FileOrganizer.PathDatesKeys | file_organizer.py:112-115 | the path map has exactly the files' paths |
| FileOrganizer.PathDatesSome | file_organizer.py:112-115 | every day in the path map is some file's adjusted day |
| FileOrganizer.PathDatesOwnDay | file_organizer.py:112-115 | with distinct paths, each path maps to its own file's adjusted day |
| FileOrganizer.PathDatesValues | file_organizer.py:124 | with distinct paths, the distinct days of the map are the files' adjusted days |
| FileOrganizer.Chronological | file_organizer.py:124 | the days in chronological order, a permutation of the input |
| FileOrganizer.RankInSorted | file_organizer.py:124-126 | in the strictly increasing list of all days, a day's index is its rank |
| FileOrganizer.DisplayedSpec | file_organizer.py:94-99 | the filter loop keeps exactly the files not hidden |
| FileOrganizer.PreparedFiles | file_organizer.py:84-101 | a file is shown iff it is in the input and is not a video with an MP3 of the same stem; every MP3 is shown |
| FileOrganizer.FileOrganizer.constructor | file_organizer.py:79-82 | the adapter uses the zone with the 4 o'clock cutoff, an empty palette means the default, and the stem cache is empty |
| FileOrganizer.FileOrganizer.PrepareFiles | file_organizer.py:84-101 | the stem cache becomes the MP3 stems, and the result is the kept files sorted by timestamp (a permutation of them) |
| FileOrganizer.FileOrganizer.CollectDays | file_organizer.py:108-121 | fails exactly where some file's day overflows; otherwise the path map and the grouping by day string |
| FileOrganizer.FileOrganizer.DayColors | file_organizer.py:124-126 | every distinct day gets a colour, the palette entry of its chronological rank modulo the palette size |
| FileOrganizer.FileOrganizer.BuildGroups | file_organizer.py:128-146 | groups in increasing day order, each holding exactly that day's files sorted by time, with the colour looked up by its day |
| FileOrganizer.FileOrganizer.GroupFiles | file_organizer.py:103-146 | `None` exactly where Python raises `OverflowError`; otherwise one non-empty group per day in chronological order, each day's files by time, every file in its day's group, coloured by the day's rank |
| FileOrganizer.BuiltInDayOrder | file_organizer.py:130-134 | groups built from the string-sorted keys are in strictly increasing day order |
| FileOrganizer.BuiltGroupsAreDayGroups | file_organizer.py:128-146 | the built groups are exactly the day groups and cover every file |
| FileOrganizer.GroupColorsCycle | file_organizer.py:124-137 | with distinct paths, group `i` gets colour `i mod len(colors)` |
| FileOrganizer.FileOrganizer.GetFileColor | file_organizer.py:148-160 | a colour exactly when the path is in the map, and then a palette colour |
| FileOrganizer.RankColors | file_organizer.py:154-158 | colouring the sorted days in turn gives each day the colour of its rank |
| FileOrganizer.FileColorIsGroupColor | file_organizer.py:137-158 | `get_file_color` on the path map gives each file the colour of its group |
| FileOrganizer.FileOrganizer.FileIcon | file_organizer.py:186-198 | the first rule that applies decides: the package icon iff MERGED_OUTPUT; else the video icon iff a video; else the lock iff MERGED; else the check iff CONVERTED; else the note iff it has a source file; else no icon |
| FileOrganizer.FileOrganizer.FileSuffix | file_organizer.py:200-208 | the first rule that applies decides: ` [OUTPUT]` iff MERGED_OUTPUT; else ` [CONVERTED]` iff it has a source file; else ` [MERGED]` iff MERGED; else empty |
| FileOrganizer.FileOrganizer.GetFileMetadata | file_organizer.py:162-184 | `None` only where the adjusted day overflows for an UNPROCESSED file; selectable iff UNPROCESSED or PROCESSED, disabled iff MERGED, CONVERTED or MERGED_OUTPUT, never both; a tooltip iff UNPROCESSED or MERGED_OUTPUT |
| FileOrganizer.MetadataFlags | file_organizer.py:162-208 | a disabled file is never selectable and shows an icon; a merged output is disabled, with the package icon and ` [OUTPUT]` |
| FilePresenter.ConfigFor | file_presenter.py:13-58 | a state with a row gets its row and the others the UNPROCESSED row; checkable is always the negation of disabled, and disabled holds exactly for MERGED, MERGED_OUTPUT and CONVERTED |
| FilePresenter.FallbackStates | file_presenter.py:13-58 | the states without a row are exactly PROCESSING and FAILED, shown as `normal`, checkable, not disabled, with the note icon |
| FilePresenter.Extension | file_presenter.py:64 | the file name's suffix without its dot, lower-cased; empty without a suffix |
| FilePresenter.ExtensionIsFormat | file_presenter.py:64 | the extension read here equals the format a file takes from its path |
| FilePresenter.IconFor | file_presenter.py:60-65 | a video always gets the clapper; otherwise the extension's icon, falling back to the state's icon |
| FilePresenter.StateMarker | file_presenter.py:68-72 | ` (merged)` iff MERGED, ` (output)` iff MERGED_OUTPUT, nothing otherwise |
| FilePresenter.Present | file_presenter.py:56-83 | the display is the icon, a space, the base name and the state's marker; the time is `%H:%M:%S`; state is the state's name, style and flags come from the state's row, and `ref` is the file |
| FilePresenter.DisplayParts | file_presenter.py:68-72 | the display starts with the one-character icon and a space and ends with the name and the marker |
| FilePresenter.PresenterAgreesWithOrganizer | file_presenter.py:13-58 | the presenter and `get_file_metadata` agree on which files are disabled; they disagree on checkable versus selectable exactly for PROCESSING and FAILED files |
| CombineGui.ParseClock | combine_GUI.py:106-123 | a parsed clock is a real time of day, read from eight characters with seconds or five without, and without seconds its seconds are 0 |
| CombineGui.DateGroupParses | combine_GUI.py:104-109 | the captured date is read back as the date the digits spell exactly when that date exists |
| CombineGui.TimeGroupParses | combine_GUI.py:100-123 | the captured clock is read back as the time the digits spell exactly when that time exists; a clock with seconds never parses as `%H-%M` |
| CombineGui.ParseDateAndTimeSpec | combine_GUI.py:90-132 | no match gives nothing; with a match, a date and time exactly when both fields are real, and then they print back as the two captured groups |
| CombineGui.ParseTime | combine_GUI.py:135-144 | the parsed moment, or `datetime.min` when parsing fails |
| CombineGui.UnparsedSortsFirst | combine_GUI.py:135-144 | an unparseable name never sorts after any other name |
| CombineGui.CompactDateInjective | combine_GUI.py:258-263 | two real dates with the same `%Y%m%d` text are the same date |
| CombineGui.LastDateText | combine_GUI.py:233-241 | the last date text is always ten characters |
| CombineGui.LastDateUnmatched | combine_GUI.py:235-241 | a last name without a match stands for the first clip's date |
| CombineGui.MergeOutputName | combine_GUI.py:228-278 | no name for an empty list, and a produced name has none of the characters the sanitiser replaces |
| CombineGui.JoinedDates | combine_GUI.py:256-274 | one date when the last date is the same or unreadable, else first and last dates joined by a dash, then the first clock and `.mp3` |
| CombineGui.JoinedIsClean | combine_GUI.py:278 | both name shapes are unchanged by the sanitising |
| CombineGui.MergeOutputNameSpec | combine_GUI.py:228-278 | no name when the first clip has no readable date and time; otherwise `<first YYYYMMDD> <HH-MM>.mp3` for the same or an unreadable last date and `<first>-<last YYYYMMDD> <HH-MM>.mp3` for another date |
| CombineGui.ConvertedName | combine_GUI.py:346-347 | the converted name ends in `.mp3` |
| CombineGui.ConvertedNameSplits | combine_GUI.py:346-347 | the converted name splits into the video's base and `.mp3` |
| CombineGui.SilenceNameSplits | combine_GUI.py:405-408 | the silence output keeps the input's extension, and its base is the sanitised base followed by `_nosilence` |
| CombineGui.Pick | combine_GUI.py:658 | exactly the listed regular files whose lower-cased name ends with the extension |
| CombineGui.ConvertRun | combine_GUI.py:654-707 | a failed listing reports failure with 0/0; otherwise every `.mp4` is handled, the successes are counted, and success means at least one success or nothing to do |
| CombineGui.SilenceOutputs | combine_GUI.py:437-449 | one output per file that existed and that ffmpeg processed |
| CombineGui.RemoveSilenceRun | combine_GUI.py:720-769 | without ffmpeg failure with 0/0; otherwise every file handled, successes counted, success means one success or nothing to do, and the outputs reported are those of the successful runs |
| CombineGui.WorkerSuccessMeaning | combine_GUI.py:702-764 | a worker reports success exactly when its list is empty or some file succeeded |
| CombineGui.CountPositive | combine_GUI.py:702 | a count is positive exactly when some element qualifies |
| CombineGui.ByClock | combine_GUI.py:481 | the entries sorted by their `HH-MM` text, a permutation of them |
| CombineGui.FolderName | combine_GUI.py:484-487 | the folder name needs no further sanitising |
| CombineGui.FolderNameEarliest | combine_GUI.py:481-487 | the folder is named after the day and the earliest clock among the entries |
| CombineGui.ProcessDateGroup | combine_GUI.py:465-535 | success exactly when there are entries and no regular file blocks the folder; then every entry is moved or counted as an error, and the moves are the entries whose source exists and whose move succeeds |
| CombineGui.NameEntry | combine_GUI.py:810-815 | a name gives a `(HH-MM, name)` pair exactly when its date and time parse |
| CombineGui.Entries | combine_GUI.py:810-815 | at most one pair per name |
| CombineGui.EntriesStep | combine_GUI.py:810-815 | the pairs of one more name are the earlier pairs plus that name's pair |
| CombineGui.FileName | combine_GUI.py:811-815 | one more name keeps the pairs grouped by their `YYYYMMDD` day |
| CombineGui.GroupByDay | combine_GUI.py:807-817 | the pairs grouped by day, days in first-occurrence order, each day's pairs in listing order |
| CombineGui.OrganizeRun | combine_GUI.py:782-889 | a failed listing fails with 0/0; no dated MP3 gives success 0/0; otherwise success, with the folders counted as the days whose group fills its folder and the archives as those filled folders whose archive succeeds, none without 7-Zip |
| CombineGui.FilledFolders | combine_GUI.py:843-849 | one folder name per day whose group fills its folder |
| CombineGui.ProcessGroups | combine_GUI.py:834-849 | the loop over the day groups lists exactly the folders of the groups that fill them, in day order |
| CombineGui.ArchiveAll | combine_GUI.py:856-877 | the archive count is the number of listed folders whose archive succeeds |
| CombineGui.MainWindow.constructor | combine_GUI.py:909 | no worker runs and the buttons are enabled |
| CombineGui.MainWindow.StartTask | combine_GUI.py:1398-1404 | one more worker runs and the buttons are locked |
| CombineGui.MainWindow.OnTaskFinished | combine_GUI.py:1435-1446 | one worker fewer, never below zero, and the buttons come back exactly when the last one finishes |
| CombineCli.ParseNameSpec | combine.py:28-42 | no match gives `None`; on a match the moment is the one the digits spell when both date and clock exist (seconds tried first, then minutes), and otherwise the parse raises |
| CombineCli.ParseNameAgrees | combine.py:28-42 | the console parser and the desktop parser agree on every name: the same moment, and the console one raises exactly where the desktop one gives up after a match |
| CombineCli.DateAndClock | combine.py:44-58 | raises exactly where the moment parse raises; date and clock are both present or both absent |
| CombineCli.DateAndClockSpec | combine.py:44-58 | `(None, None)` exactly without a match; otherwise the components are the matched digits and the date prints back as the captured group |
| CombineCli.Mp3Names | combine.py:26 | exactly the listed names that end with `.mp3`, in listing order |
| CombineCli.Dated | combine.py:206-212 | the names filed under a date are exactly the parsed ones, and the script stops exactly when some name makes the parse raise |
| CombineCli.Days | combine.py:128 | the days with files sorted, a permutation of the distinct days |
| CombineCli.DaysMembers | combine.py:128-132 | the menu lists a day exactly when some name is of that day |
| CombineCli.DaysIncreasing | combine.py:128 | the menu lists each day once, strictly earliest first |
| CombineCli.ByMoment | combine.py:148-158 | the files by parsed moment, a permutation of them |
| CombineCli.DayFilesSpec | combine.py:148-158 | a day's list holds that day's names, each as often as listed, in non-decreasing moment order |
| CombineCli.DayNonEmpty | combine.py:128-158 | every day on the menu has at least one file |
| CombineCli.ParseChoice | combine.py:137-166 | a chosen day is always a day of the menu |
| CombineCli.ChoiceOfNumber | combine.py:137-164 | `0` exits, `<n>` within the menu opens day `n`, any other number asks again |
| CombineCli.ChoiceOfNumberAll | combine.py:142-151 | `<n>a` within the menu merges all of day `n`, otherwise asks again |
| CombineCli.DaysEmpty | combine.py:123-125 | the menu is empty exactly when no name has a date |
| CombineCli.SelectStep | combine.py:122-166 | no files exactly when nothing is dated; asks again or exits exactly as the answer reads; a merge-all or picker choice carries a menu day and that day's files by time |
| CombineCli.Step | combine.py:96-116 | every key leaves the highlighted row a row of the list (or 0 for an empty one) |
| CombineCli.StepKeepsConsistent | combine.py:96-116 | every key keeps the row in range and only listed names ticked |
| CombineCli.CursorWraps | combine.py:98-101 | Up goes to the row above and from the first row to the last; Down the other way round |
| CombineCli.UpThenDown | combine.py:98-101 | Down undoes Up |
| CombineCli.SpaceToggles | combine.py:102-107 | Space flips the highlighted name and no other, and a second Space flips it back |
| CombineCli.SelectAllAndNone | combine.py:113-116 | `a` ticks exactly the listed names and `d` clears the selection; neither moves the row or ends the picker |
| CombineCli.WhenFinished | combine.py:96-120 | the picker returns exactly on `q`, on Enter with something ticked, or when a move or Space fails on an empty list; it returns names only on Enter, and then exactly the ticked ones |
| CombineCli.SelectAllThenEnter | combine.py:108-114 | `a` then Enter returns every listed name |
| CombineCli.RunSelection | combine.py:82-120 | whatever keys are pressed, the picker returns only a non-empty set of listed names |
| CombineCli.FilePicker.constructor | combine.py:87-88 | nothing ticked and the first row highlighted |
| CombineCli.FilePicker.Press | combine.py:93-120 | one key press changes the picker's state and outcome as `Step` says |
| CombineCli.InteractiveFileSelection | combine.py:82-120 | the outcome of feeding the keys in order to a fresh picker |
| CombineCli.InListOrder | combine.py:159-162 | exactly the picked names of the list, in list order |
| CombineCli.Resolve | combine.py:137-162 | `0` gives nothing, `<n>a` gives the day and all its files, `<n>` gives the day and the files the picker returns in list order (a non-empty subset), or nothing when it returns none |
| CombineCli.SelectFilesToMerge | combine.py:122-166 | the result is `Selection` of the answers: nothing when no name has a date; otherwise answers that ask again are skipped and the first other answer decides, returning a menu day with a non-empty subset of its files |
| CombineCli.SelectionSkip | combine.py:135-166 | answers that ask again do not change the selection |
| CombineCli.SelectionDecided | combine.py:135-166 | with the first decisive answer at `k`: no such answer gives nothing, `0` gives nothing, `<n>a` gives day `n` with all its files by time, `<n>` gives what the picker returns on day `n`'s files |
| CombineCli.FirstDecisive | combine.py:135-166 | the place of the first answer that does not ask again, every earlier one asking again |
| CombineCli.FirstNotRetry | combine.py:135-166 | the place of the first reading that does not ask again, every earlier reading asking again |
| CombineCli.Earliest | combine.py:170-189 | the earliest moment among the files, attained by one of them |
| CombineCli.SortedFirstEarliest | combine.py:170-189 | the first file after sorting is one of the files and is no later than any of them |
| CombineCli.EarliestOrderFree | combine.py:170 | the earliest moment does not depend on the order of the files |
| CombineCli.MergedNameSpec | combine.py:168-199 | a name exactly when some clip has sound, and then `YYYYMMDD HH-MM.mp3` of the earliest file, needing no sanitising |
| CombineCli.MergedNameOrderFree | combine.py:168-199 | the output name does not depend on the order the files come in |
| WebServer.ValidateRelPathSpec | web_server.py:62-70 | a path is accepted exactly when it is a non-blank string, not absolute and without a `..` component; otherwise the reason names the first failing check ("Empty path", "Absolute paths are not allowed", "Path traversal is not allowed") |
| WebServer.PathIsWithin | web_server.py:54-59 | inside exactly when the base is a prefix of the target's components |
| WebServer.ResolveAppends | web_server.py:320 | resolving components without `..` only appends them |
| WebServer.AcceptedStaysWithin | web_server.py:311-322 | an accepted path put under any directory names something inside that directory |
| WebServer.TraversalLeaves | web_server.py:62-70 | a path with `..` can name something outside the directory (the case the check keeps out) |
| WebServer.ClampWorkers | web_server.py:529-533 | the stored worker count is 4 without an integer, else the integer clamped into 1..16 |
| WebServer.ClampSettles | web_server.py:529-533 | clamping is idempotent and monotone |
| WebServer.SettingsFromPost | web_server.py:528-534 | the zone defaults to `Asia/Shanghai`; the worker count is the clamped one, within 1..16 |
| WebServer.Last | web_server.py:163 | `s[-n:]`: the last `n` elements, or all when there are fewer |
| WebServer.LastOfAppend | web_server.py:163 | capping after every appended line is capping once; capping twice is capping once |
| WebServer.TaskRecord.constructor | web_server.py:424-425 | a new record is running, with an empty log and no result |
| WebServer.TaskRecord.ToJson | web_server.py:157-165 | the status by name, the result, and the log's last 500 lines (all of it when shorter) |
| WebServer.FileAt | web_server.py:313-323 | a file is found exactly when some library file has the path, and it is one with that path |
| WebServer.GatherAllOrNothing | web_server.py:316-326 | a request's loop succeeds exactly when every path does, giving the files in order; otherwise its message is that of the first failing path |
| WebServer.LookUpPath | web_server.py:317-325 | a path that is not accepted is refused with `Invalid path: <rel> (<reason>)`; a hit is a library file at the resolved path |
| WebServer.LookUpOutcomes | web_server.py:320-325 | for an accepted path the lookup hits exactly when a library file has that path below the directory, else `File not found in library: <rel>` |
| WebServer.Lookups | web_server.py:316-325 | one check per path, in order |
| WebServer.Resolved | web_server.py:311-326 | every file found is a library file |
| WebServer.Screened | web_server.py:332-337 | a file is selectable exactly when it is not in a locked state (merged, a merge output or converted) |
| WebServer.Screens | web_server.py:332-337 | one screening per file, in order |
| WebServer.SelectableSpec | web_server.py:328-338 | the selection succeeds exactly when every path is found and no found file is locked; then it holds one library file per path, in order, at that path below the directory |
| WebServer.StringsOf | web_server.py:386 | exactly the string items of the list, in order |
| WebServer.KindOfNames | web_server.py:345-356 | every task type is named by its own name; an unknown kind is exactly a name that is neither `MERGE_BY_DATE` nor a type's name |
| WebServer.Videos | web_server.py:392 | exactly the videos among the files |
| WebServer.Audios | web_server.py:398-401 | exactly the audio among the files |
| WebServer.AdjustedCandidatesSpec | web_server.py:362-369 | exactly the listed unprocessed audio files whose adjusted day is the key |
| WebServer.PlanImport | web_server.py:376-384 | an import launches exactly with a non-empty source that is a directory, and then carries that source and no files; otherwise it answers `Missing source_dir`, or `Invalid source_dir` with `Directory does not exist` |
| WebServer.PlanConvert | web_server.py:385-396 | a conversion launches exactly when the selection succeeds and includes a video, and converts the selected videos only; a failed selection answers `Invalid paths` with its message, and one without videos `No videos selected` |
| WebServer.PlanRemoveSilence | web_server.py:399-411 | a silence removal launches exactly when the selection succeeds and includes audio, on the selected audio, with threshold and duration defaulting to `-55dB` and 0.1 |
| WebServer.PlanMerge | web_server.py:397-398 | a merge launches exactly when the selection succeeds, on the selected audio, even when none is left |
| WebServer.PlanByDateSpec | web_server.py:357-375 | a missing key is refused; the processor's task for the key is taken when there is one; otherwise the fallback launches exactly when some file is on the adjusted day, with those files sorted by time as a permutation, and is refused with `No unmerged files for <key>` otherwise |
| WebServer.PlanDispatch | web_server.py:352-422 | an unknown type is refused; an organize takes the whole library with `create_archive` defaulting to true; an import launches exactly with an existing source directory |
| WebServer.PlanFilesListed | web_server.py:357-419 | every file a launched task carries, other than the processor's own dated task, is a library file |
| WebServer.RelOf | web_server.py:463-465 | a relative path exactly when the file is below the directory |
| WebServer.PosixTextRoundTrip | web_server.py:464 | the text of a relative path reads back as the same components |
| WebServer.MergedRelSource | web_server.py:462-468 | each path recorded for a merge was recorded for one of its sources |
| WebServer.MergedRelLeadsBack | web_server.py:462-468 | a path recorded for a library file is accepted in a later request and finds that file |
| WebServer.MergedRelsLeadBack | web_server.py:462-468 | every recorded path of a merge, sent back, is accepted and finds one of the merged sources |
| WebServer.EndLines | web_server.py:469-484 | an escaped exception adds `ERROR: <message>`; a result adds one line exactly when it failed with a non-empty error |
| WebServer.App.constructor | web_server.py:169-198 | no tasks, no current task, nothing merged in the session |
| WebServer.App.CurrentTask | web_server.py:204-215 | the record of the current id; busy exactly when it exists and is running |
| WebServer.App.AudioFilesFromPaths | web_server.py:311-326 | the loop returns what the all-or-nothing lookup gives: the files, or the first refusal and no files |
| WebServer.App.SelectableFilesFromPaths | web_server.py:328-338 | the two loops return what the selection gives: the files, or the first refusal and no files |
| WebServer.App.CollectAdjusted | web_server.py:362-369 | the fallback loop collects exactly the adjusted candidates in listing order |
| WebServer.App.PrepareByDate | web_server.py:357-375 | the merge-by-date branch answers as `PlanByDate`; the processor offers a task exactly when the day has unmerged files, and then it merges exactly those, sorted by time |
| WebServer.App.PrepareFiles | web_server.py:385-411 | the selected-files branches answer as `PlanFiles` on the selection |
| WebServer.App.Prepare | web_server.py:344-422 | the validation answers as `PlanTask`, on a listing that enumerates the refreshed library; the processor's task (`DatedTask`) exists only for a merge by date, for a date key it exists exactly when the day has unmerged files, and it then merges exactly those files, sorted by time, into the working directory |
| WebServer.App.PrepareTyped | web_server.py:376-419 | the task-type branches answer as `PlanTyped` |
| WebServer.App.StartTask | web_server.py:340-436 | 409 `Busy` while busy, changing nothing; otherwise a refused plan answers 400 with its error and message, changing nothing, and a launched one answers with the new id, whose fresh running record with an empty log becomes current; when not busy, the processor's task is as `Prepare` states (`DatedTask`) |
| WebServer.App.Register | web_server.py:424-427 | the new id gets a fresh running record with an empty log and becomes current; no other record changes |
| WebServer.App.Progress | web_server.py:438-443 | a line is appended exactly when the record exists and is running; nothing else changes |
| WebServer.App.RecordMerged | web_server.py:461-468 | the session's merged paths grow by exactly the paths recorded for the sources |
| WebServer.App.RecordOne | web_server.py:462-468 | one source adds its relative path when it is below the directory and accepted, and nothing otherwise |
| WebServer.App.RunTaskThread | web_server.py:437-484 | progress lines are kept while running; the record ends done on success and in error otherwise, with the summary of a result and an `ERROR:` line when there is a message; a successful merge adds its sources' paths; the task is no longer busy |
| Text.SanitizeCleans | combine_GUI.py:278 | replacing each forbidden character (backslash, slash, `*?:"<>` and the vertical bar) by `_` leaves none of them, keeps the length and every other character |
| Text.SanitizeFixesClean | combine_GUI.py:278 | a clean name is left as it is, so sanitising twice is sanitising once |
| Text.SplitExtAppend | combine_GUI.py:346-347 | an extension appended to a stem with a non-dot character is split off again |
| DateText.IsoDateInjective | audio_models.py:77-79 | different dates never share a `%Y-%m-%d` key |
| DateText.ParseIsoDateRoundTrip | file_organizer.py:134 | reading back a printed day key gives the day |
| DateText.IsoDateOrder | file_organizer.py:130 | sorting day keys as strings sorts the days chronologically |
| Collections.SortBy | audio_models.py:170-173 | `sorted` with a key: keys never decrease and the result is a permutation |
| Collections.GroupInOrder | file_organizer.py:52-58 | the one-pass grouping lists the keys in first-occurrence order, and under each key the elements with that key in input order |
| Collections.GroupsPartition | file_organizer.py:52-58 | every element is in its own key's group, and the group sizes add up to the input's length |
| Collections.FirstOccurrencesSpec | file_organizer.py:55-56 | each key is listed exactly once and nothing else is |

## Left out

- Widgets and servers: the Qt windows, the rest of `MainWindow`, the HTTP request handler, static files and `_open_chrome` are outside the model. Only the running-worker counter of `MainWindow` is modelled.
- Concurrency: the thread pools, QThreads, the threaded HTTP server and the `RLock` are not modelled. Work runs as sequential loops in task order. The counts and the sets of outputs do not depend on completion order, but the order of `output_files` in the model is task order.
- External programs: ffmpeg, 7-Zip and moviepy are not run. Their presence and the outcome of each call are parameters (`Tools`, or boolean functions).
- Media: clip durations (floats) appear only as a `playable` predicate. `format_size` is not modelled.
- File system: the file system is a `Disk` value or plain predicates. It answers listings, existence, `stat` sizes and times, whether a path is a directory, and whether a rename or move succeeds.
- Config: loading and writing the config and state files (`_atomic_write_json`, `PersistedState`) is not modelled. Config overrides of the filename pattern are not modelled either; the default pattern is used.
- Web server state: the files cache (`_refresh_files_cache`, `get_files_payload`) and `_restore_session_merged_states` are not modelled.
- Time and ids: `time.time()` and `uuid4()` become parameters. The new task id is an input to `StartTask`, and the record's start and finish times are dropped.
- Time zones: they are fixed UTC offsets in whole seconds. The pytz database and daylight saving are not modelled; only the overflow of the `localize` lookups one day either side of the recording is.
- Web paths: `resolve()` is lexical; symbolic links are not modelled. For an accepted path the "outside cwd" refusal therefore cannot occur, and `LookUpOutcomes` proves that.
- WebServer.PlanTask: whether the source directory exists is an input (`sourceIsDir`).
- WebServer.PlanTask: the library's file set is given as a sequence in its iteration order.
- WebServer.PlanTask: a `paths` item that is not a string is `None`.
- WebServer.PlanTask: `threshold` and `duration` are kept as given, as text.
- WebServer.PlanTask: a body that is not a JSON object, and the other HTTP-level errors, are not modelled.
- WebServer.AdjustedCandidatesSpec: a file whose adjusted day would overflow Python's date range counts as not on the day. Python would raise `OverflowError` out of `start_task` instead.
- AudioProcessor.AudioProcessor.ProcessTask: a handler that raises is modelled as raising before any of its state changes, so only the FAILED marks are applied. In Python, changes the handler made before raising stay.
- AudioModels.AudioLibrary.Remove: requires the file to be a member or its path to be unheld. Python's `remove` of a non-member whose path is held discards the member with that path and de-indexes the argument's date and state; nothing in the code calls `remove` that way.
- FileOrganizer.GroupByAdjustedDate: a recording whose shifted time would leave the years 1 to 9999 is grouped on the shifted day the arithmetic gives, and so is one dated 0001-01-01 or 9999-12-31. Python raises `OverflowError` there.
- CombineGui.ProcessDateGroup: a failing `os.makedirs` other than a regular file in the way (permissions, a full disk) is not modelled.
- AudioProcessor.AudioProcessor.ProcessTask: the unknown-task-type branch cannot be reached with the five task types, so it is not modelled.
- WebServer.App.RunTaskThread: the final `_refresh_files_cache(force=True)` is taken not to raise. If it raises after a success, Python keeps the success result and the merged paths and then sets the status to error with an `ERROR:` line. The model's `Raised` keeps the old result and session set instead.
- CombineGui.RemoveSilenceRun: the clean-up of a failed run's partial output is not modelled. If `os.remove` raises `OSError` there, that file stays on disk. The contract speaks of the outputs reported, not of the files on disk.
- WebServer.App.RunTaskThread: `process_task` is not re-run there. Its outcome is given as the progress lines it emitted and a `ThreadEnd`.
- Organize path rewrite: `_organize_files` rewrites `audio_file.path` on a set member. Paths are immutable in the model, so the library is stale after an organise, and that step is not modelled.
- `strftime("%Y")` for years below 1000 is platform dependent. The model always pads to four digits.
- Text: `int()` accepts only ASCII decimal digits in the model (no Unicode digits, no `_` separators). Case folding and whitespace are ASCII only.
- CombineCli.InteractiveFileSelection: keys are already decoded (`msvcrt.getch` is not modelled). An exception other than the empty-list errors cannot occur in the model.
- Scripts: `organize.py`, `mp4convertmp3.py`, `external_tools.py`'s process calls and the GUI files other than `combine_GUI.py` are not part of this model.

## Findings

| source | as written | input that shows it | evidently intended | confidence | as-written member | corrected member |
|---|---|---|---|---|---|---|
| audio_models.py:136-186 | `add` of an object whose path the library already holds keeps the stored member in `files` but files the path under the new object's date and state buckets | converting `rec.mp4` while `rec.mp3` is a member in state MERGED adds a new UNPROCESSED `rec.mp3`; the path then sits in both the MERGED and UNPROCESSED buckets, while the member's state is MERGED | each member in exactly one state bucket, its own state's; adding a path already held changes nothing | not executed | AudioModels.AddAsWrittenDoubleFiles | AudioModels.AddCorrectedKeepsIndex |

The rest of the model uses the corrected behaviour: `AudioModels.AudioLibrary.Add` leaves the library unchanged when it already holds the path.
