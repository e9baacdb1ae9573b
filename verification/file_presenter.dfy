/**
 * The display table of file_presenter.py: a style per lifecycle state (with
 * the unprocessed style as the fallback for states the table does not list),
 * an icon chosen by kind, extension and state, and the display line.
 */
module FilePresenter {
  import opened Wrappers
  import opened Text
  import opened Calendar
  import opened DateText
  import opened AudioModels
  import opened FileOrganizer

  const CycleIcon := "\U{1F504}"

  /** One row of `STATE_CONFIG`. */
  datatype StateConfig = StateConfig(style: string, checkable: bool, disabled: bool, icon: string)

  /** `STATE_CONFIG`: five of the seven states have a row. */
  const StateTable: map<FileState, StateConfig> := map[
    Unprocessed := StateConfig("normal", true, false, NoteIcon),
    Processed := StateConfig("normal", true, false, NoteIcon),
    Merged := StateConfig("merged", false, true, CheckIcon),
    MergedOutput := StateConfig("output", false, true, PackageIcon),
    Converted := StateConfig("converted", false, true, CycleIcon)
  ]

  /** `TYPE_ICONS`: icons by lower-cased extension. */
  const TypeIcons: map<string, string> := map[
    "mp3" := NoteIcon, "mp4" := VideoIcon, "mkv" := VideoIcon, "wav" := NoteIcon, "flac" := NoteIcon
  ]

  /** `STATE_CONFIG.get(state, STATE_CONFIG[UNPROCESSED])`. */
  function ConfigFor(s: FileState): (c: StateConfig)
    ensures s in StateTable ==> c == StateTable[s]
    ensures s !in StateTable ==> c == StateTable[Unprocessed]
    ensures c.checkable == !c.disabled
    ensures c.disabled <==> s == Merged || s == MergedOutput || s == Converted
  {
    if s in StateTable then StateTable[s] else StateTable[Unprocessed]
  }

  /** The two states without a row are exactly the ones shown like an unprocessed file. */
  lemma FallbackStates(s: FileState)
    ensures s !in StateTable <==> s == Processing || s == Failed
    ensures s !in StateTable ==> ConfigFor(s) == StateConfig("normal", true, false, NoteIcon)
  {
  }

  /** `path.suffix[1:].lower()`: the extension without its dot, lower-cased (empty when there is none). */
  function Extension(p: Path): (e: string)
    ensures Suffix(Name(p)) == [] ==> e == []
    ensures Suffix(Name(p)) != [] ==> "." + e == Lower(Suffix(Name(p)))
  {
    var suffix := Suffix(Name(p));
    if suffix == [] then [] else Lower(suffix)[1..]
  }

  /** The extension `present` reads is the format the file takes from its path when none is given. */
  lemma ExtensionIsFormat(p: Path)
    ensures Extension(p) == FormatOf(p)
  {
    var suffix := Suffix(Name(p));
    if suffix != [] {
      assert "." + Extension(p) == "." + FormatOf(p);
      assert Extension(p) == ("." + Extension(p))[1..];
      assert FormatOf(p) == ("." + FormatOf(p))[1..];
    }
  }

  /** The icon `present` shows: the clapper for every video, else the extension's icon, else the state's. */
  function IconFor(f: AudioFile): (icon: string)
    reads f
    ensures f.IsVideo() ==> icon == VideoIcon
    ensures !f.IsVideo() && Extension(f.path) in TypeIcons ==> icon == TypeIcons[Extension(f.path)]
    ensures !f.IsVideo() && Extension(f.path) !in TypeIcons ==> icon == ConfigFor(f.state).icon
    ensures icon in {NoteIcon, VideoIcon, CheckIcon, PackageIcon, CycleIcon}
  {
    if f.IsVideo() then VideoIcon
    else
      var ext := Extension(f.path);
      if ext in TypeIcons then TypeIcons[ext] else ConfigFor(f.state).icon
  }

  /** The marker appended to the display line. */
  function StateMarker(s: FileState): (m: string)
    ensures m == " (merged)" <==> s == Merged
    ensures m == " (output)" <==> s == MergedOutput
    ensures m == "" <==> s != Merged && s != MergedOutput
  {
    if s == Merged then " (merged)" else if s == MergedOutput then " (output)" else ""
  }

  /** What `present` returns, without the formatted size. */
  datatype Presentation = Presentation(display: string, time: string, state: string, style: string,
                                       checkable: bool, disabled: bool, ref: AudioFile)

  /** `present`: the display line, the clock time, the state's name, its style and flags, and the file itself. */
  function Present(f: AudioFile): (p: Presentation)
    reads f
    ensures p.ref == f && p.state == StateName(f.state)
    ensures p.display == IconFor(f) + " " + f.Basename() + StateMarker(f.state)
    ensures p.time == ColonClock(f.timestamp)
    ensures p.style == ConfigFor(f.state).style
    ensures p.checkable == !p.disabled
    ensures p.disabled <==> f.state == Merged || f.state == MergedOutput || f.state == Converted
  {
    var config := ConfigFor(f.state);
    var display := IconFor(f) + " " + f.Basename() + StateMarker(f.state);
    Presentation(display, ColonClock(f.timestamp), StateName(f.state), config.style,
                 config.checkable, config.disabled, f)
  }

  /** The line starts with the icon and a space and ends with the name and the state's marker. */
  lemma DisplayParts(f: AudioFile)
    ensures var p := Present(f); var icon := IconFor(f);
            |icon| == 1 && p.display[..2] == icon + " "
            && p.display[2..] == f.Basename() + StateMarker(f.state)
  {
    var p := Present(f);
    var icon := IconFor(f);
    assert |icon| == 1;
    assert p.display == (icon + " ") + (f.Basename() + StateMarker(f.state));
  }

  /**
   * The web list and the desktop list agree on which files are locked; they disagree on
   * which can be ticked exactly for files being processed or failed, which the presenter
   * shows as tickable and the organizer does not.
   */
  lemma PresenterAgreesWithOrganizer(o: FileOrganizer, f: AudioFile)
    requires o.GetFileMetadata(f).Some?
    ensures Present(f).disabled == o.GetFileMetadata(f).value.disabled
    ensures Present(f).checkable != o.GetFileMetadata(f).value.selectable <==> f.state == Processing || f.state == Failed
  {
  }
}
