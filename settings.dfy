/** Presets and the settings file. A preset entry is a JSON object whose six
    appearance fields may each be missing (entries read back from the settings
    file are not cleaned), plus the optional `name` key that exporting adds.
    Missing fields are filled with the same defaults wherever an entry is
    applied or imported, and wherever the settings file is read. */
module Settings {
  import opened Wrappers
  import opened Text
  import opened Overlay

  datatype PresetEntry = PresetEntry(
    size: Option<int>,
    thickness: Option<int>,
    color: Option<string>,
    dot: Option<int>,
    style: Option<string>,
    imagePath: Option<string>,
    name: Option<string>)

  /** The text the preset selector shows before anything is chosen. */
  const Placeholder: string := "<--下拉选择预设-->"

  /** The configuration the control panel starts with. */
  const InitialConfig: Config := Config(20, 2, "#00FF00", 4, "十字", "")

  /** Every field of a stored or imported entry, with a missing one replaced by
      its default: size 20, thickness 2, colour #00FF00, dot 4, style 十字, no image. */
  function Fill(e: PresetEntry): (c: Config)
    ensures e.size.Some? ==> c.size == e.size.value
    ensures e.thickness.Some? ==> c.thickness == e.thickness.value
    ensures e.color.Some? ==> c.color == e.color.value
    ensures e.dot.Some? ==> c.dot == e.dot.value
    ensures e.style.Some? ==> c.style == e.style.value
    ensures e.imagePath.Some? ==> c.imagePath == e.imagePath.value
    ensures e.size.None? ==> c.size == InitialConfig.size
    ensures e.thickness.None? ==> c.thickness == InitialConfig.thickness
    ensures e.color.None? ==> c.color == InitialConfig.color
    ensures e.dot.None? ==> c.dot == InitialConfig.dot
    ensures e.style.None? ==> c.style == InitialConfig.style
    ensures e.imagePath.None? ==> c.imagePath == InitialConfig.imagePath
  {
    Config(
      e.size.GetOr(20),
      e.thickness.GetOr(2),
      e.color.GetOr("#00FF00"),
      e.dot.GetOr(4),
      e.style.GetOr("十字"),
      e.imagePath.GetOr(""))
  }

  /** The entry `save_preset` stores: the six current fields, and no name. */
  function Capture(c: Config): (e: PresetEntry)
    ensures Complete(e) && e.name.None?
    ensures Fill(e) == c
  {
    PresetEntry(Some(c.size), Some(c.thickness), Some(c.color), Some(c.dot), Some(c.style), Some(c.imagePath), None)
  }

  predicate Complete(e: PresetEntry) {
    e.size.Some? && e.thickness.Some? && e.color.Some? && e.dot.Some? && e.style.Some? && e.imagePath.Some?
  }

  /** The entry `import_preset` stores: the six fields of the file, defaults
      for the missing ones, and no name key. */
  function Sanitize(e: PresetEntry): (r: PresetEntry)
    ensures Complete(r) && r.name.None?
    ensures Complete(e) && e.name.None? ==> r == e
  {
    Capture(Fill(e))
  }

  /** A complete entry without a name is exactly what saving its configuration stores. */
  lemma CaptureFill(e: PresetEntry)
    requires Complete(e) && e.name.None?
    ensures Capture(Fill(e)) == e
  {
  }

  /** Applying an imported entry applies what the file said, defaults included. */
  lemma FillSanitize(e: PresetEntry)
    ensures Fill(Sanitize(e)) == Fill(e)
  {
  }

  lemma SanitizeIdempotent(e: PresetEntry)
    ensures Sanitize(Sanitize(e)) == Sanitize(e)
  {
  }

  /** The defaults filled in for missing fields are the panel's initial configuration. */
  lemma DefaultsAreInitialConfig()
    ensures Fill(PresetEntry(None, None, None, None, None, None, None)) == InitialConfig
  {
  }

  /** The name an imported entry is stored under: the file's `name` field if it
      has one, otherwise the file name without directory and extension. */
  function ImportName(doc: PresetEntry, path: string): (r: string)
    ensures doc.name.Some? ==> r == doc.name.value
    ensures doc.name.None? ==> IsStemOf(r, Basename(path))
  {
    doc.name.GetOr(Stem(Basename(path)))
  }

  /** A file without a `name` key saved as `n.json` in any directory, the file
      name `export_preset` proposes for a preset called `n`, imports as `n`. */
  lemma ImportNameOfProposedFile(doc: PresetEntry, dir: string, sep: char, n: string)
    requires doc.name.None? && IsSep(sep)
    requires forall i :: 0 <= i < |n| ==> !IsSep(n[i])
    requires !OnlyDots(n)
    ensures ImportName(doc, dir + [sep] + n + ".json") == n
  {
    assert dir + [sep] + n + ".json" == dir + [sep] + (n + ".json");
    var f := n + ".json";
    assert forall i :: 0 <= i < |f| ==> !IsSep(f[i]) by {
      assert forall i :: |n| <= i < |f| ==> f[i] == ".json"[i - |n|];
    }
    BasenameAfterSeparator(dir, sep, f);
    assert f == n + "." + "json";
    StemOfExtension(n, "json");
  }

  /** An exported entry carries its own name, so importing it restores that name
      whatever file it was saved to, and applies what the entry applied. */
  lemma ExportImportRoundTrip(e: PresetEntry, name: string, path: string)
    ensures ImportName(e.(name := Some(name)), path) == name
    ensures Fill(Sanitize(e.(name := Some(name)))) == Fill(e)
  {
  }

  /** The settings file's object. The six appearance fields sit at top level
      exactly as in a preset entry, so `look` holds them (its name is unused). */
  datatype SettingsDoc = SettingsDoc(
    posX: Option<int>,
    posY: Option<int>,
    look: PresetEntry,
    forceAdmin: Option<bool>,
    presets: Option<map<string, PresetEntry>>)

  /** The part of the control panel's state the settings file restores. */
  datatype Restored = Restored(
    posX: string,
    posY: string,
    config: Config,
    forceAdmin: bool,
    presets: map<string, PresetEntry>)

  /** The state before any settings are read: the entries show the screen centre. */
  function Initial(centre: (int, int)): Restored {
    Restored(IntToString(centre.0), IntToString(centre.1), InitialConfig, false, map[])
  }

  /** `load_config`: an absent or unreadable file changes nothing; otherwise every
      field comes from the file or its default. Stored presets are taken as they are. */
  function LoadConfig(prior: Restored, doc: Option<SettingsDoc>, centre: (int, int)): (r: Restored)
    ensures doc.None? ==> r == prior
    ensures doc.Some? ==>
      && DecimalValue(r.posX) == Some(doc.value.posX.GetOr(centre.0))
      && DecimalValue(r.posY) == Some(doc.value.posY.GetOr(centre.1))
      && r.config == Fill(doc.value.look)
      && (r.forceAdmin <==> doc.value.forceAdmin == Some(true))
      && r.presets == doc.value.presets.GetOr(map[])
  {
    match doc
    case None => prior
    case Some(d) =>
      IntToStringRoundTrip(d.posX.GetOr(centre.0));
      IntToStringRoundTrip(d.posY.GetOr(centre.1));
      Restored(
        IntToString(d.posX.GetOr(centre.0)),
        IntToString(d.posY.GetOr(centre.1)),
        Fill(d.look),
        d.forceAdmin.GetOr(false),
        d.presets.GetOr(map[]))
  }

  /** `save_config`: the integer position, the six fields, the elevation flag and
      the presets, all present. */
  function SaveConfig(pos: (int, int), c: Config, forceAdmin: bool, presets: map<string, PresetEntry>): (d: SettingsDoc)
    ensures Complete(d.look) && d.posX.Some? && d.posY.Some? && d.forceAdmin.Some? && d.presets.Some?
  {
    SettingsDoc(Some(pos.0), Some(pos.1), Capture(c), Some(forceAdmin), Some(presets))
  }

  /** Saving the settings and reading them back at the next start restores every field;
      the position entries then hold the saved integers as text. */
  lemma SaveLoadRoundTrip(prior: Restored, pos: (int, int), c: Config, forceAdmin: bool,
                          presets: map<string, PresetEntry>, centre: (int, int))
    ensures LoadConfig(prior, Some(SaveConfig(pos, c, forceAdmin, presets)), centre)
         == Restored(IntToString(pos.0), IntToString(pos.1), c, forceAdmin, presets)
  {
  }

  /** `check_force_admin` and the start-up test: relaunch elevated when the settings
      ask for it and the process is not elevated already. */
  function ShouldRelaunchElevated(doc: Option<SettingsDoc>, isAdmin: bool): (r: bool)
    ensures r <==> doc.Some? && doc.value.forceAdmin == Some(true) && !isAdmin
  {
    match doc
    case None => false
    case Some(d) => d.forceAdmin.GetOr(false) && !isAdmin
  }

  /** The flag written before an elevation relaunch triggers it at the next start,
      and the flag written before a de-elevation relaunch does not. */
  lemma ElevationFlagRoundTrip(pos: (int, int), c: Config, flag: bool, presets: map<string, PresetEntry>)
    ensures ShouldRelaunchElevated(Some(SaveConfig(pos, c, flag, presets)), false) == flag
    ensures !ShouldRelaunchElevated(Some(SaveConfig(pos, c, flag, presets)), true)
  {
  }
}
