/** The control panel: it owns the configuration, the position entries and the
    preset table, and drives the overlay's canvas and placement. Widget layout,
    dialogs and file access are outside the model; each handler takes what a
    dialog or a file would have given it as a parameter. */
module Panel {
  import opened Wrappers
  import opened Text
  import opened Overlay
  import opened Settings
  import opened Position

  /** A preset entry whose style is the custom image (export warns about it). */
  predicate IsCustomEntry(e: PresetEntry) {
    e.style.Some? && StyleOf(e.style.value) == Some(Custom)
  }

  /** The condition under which `on_style_change` asks for an image file: a
      custom style without an image, outside start-up. */
  predicate PromptsForImage(c: Config, startup: bool) {
    !startup && StyleOf(c.style) == Some(Custom) && c.imagePath == ""
  }

  class ControlPanel {
    const screenW: nat
    const screenH: nat
    /** `int(float(s))`, None where it raises. */
    const parse: string -> Option<int>
    /** Whether the image file at a path exists and decodes. */
    const imageReadable: string -> bool

    /** The texts of the X and Y entries. */
    var posX: string
    var posY: string
    var config: Config
    var forceAdmin: bool
    var presets: map<string, PresetEntry>
    /** The text of the preset selector. */
    var presetName: string
    /** What the last press on the drag button recorded. */
    var drag: Option<DragAnchor>
    /** The overlay canvas's items. */
    var canvas: seq<Shape>
    /** The overlay window's top-left corner; None before it was first placed. */
    var origin: Option<(int, int)>

    /** The overlay always shows the current configuration. */
    ghost predicate Valid()
      reads this`canvas, this`config
    {
      canvas == Redraw(config, imageReadable)
    }

    function Centre(): (int, int) {
      ScreenCentre(screenW, screenH)
    }

    /** Where `update_pos` leaves an overlay that was at `prev`. */
    function Placed(prev: Option<(int, int)>): Option<(int, int)>
      reads this`posX, this`posY
    {
      match Target(parse, posX, posY, Centre())
      case Some(p) => Some(SetPosition(p.0, p.1))
      case None => prev
    }

    /** Start-up: read the settings (None when the file is absent or unreadable),
        set the selector's placeholder, create, draw and place the overlay. */
    constructor (screenW: nat, screenH: nat, parse: string -> Option<int>,
                 imageReadable: string -> bool, settings: Option<SettingsDoc>)
      ensures this.screenW == screenW && this.screenH == screenH
      ensures this.parse == parse && this.imageReadable == imageReadable
      ensures var r := LoadConfig(Initial(Centre()), settings, Centre());
        posX == r.posX && posY == r.posY && config == r.config
        && forceAdmin == r.forceAdmin && presets == r.presets
      ensures presetName == Placeholder && drag == None
      ensures Valid()
      ensures origin == Placed(None)
    {
      this.screenW := screenW;
      this.screenH := screenH;
      this.parse := parse;
      this.imageReadable := imageReadable;
      var centre := ScreenCentre(screenW, screenH);
      var r := LoadConfig(Initial(centre), settings, centre);
      posX, posY, config, forceAdmin, presets := r.posX, r.posY, r.config, r.forceAdmin, r.presets;
      presetName := Placeholder;
      drag := None;
      canvas := Redraw(r.config, imageReadable);
      var t := Target(parse, r.posX, r.posY, centre);
      origin := if t.Some? then Some(SetPosition(t.value.0, t.value.1)) else None;
    }

    /** `update_overlay`: clear the canvas and draw the current configuration. */
    method RefreshOverlay()
      modifies this`canvas
      ensures Valid()
    {
      canvas := Redraw(config, imageReadable);
    }

    /** `update_pos`: centre the overlay on the entries' point when both read. */
    method UpdatePos()
      modifies this`origin
      ensures origin == Placed(old(origin))
    {
      var t := Target(parse, posX, posY, Centre());
      if t.Some? {
        origin := Some(SetPosition(t.value.0, t.value.1));
      }
    }

    /** Typing into the X entry (its write trace runs `update_pos`). */
    method EditX(text: string)
      modifies this`posX, this`origin
      ensures posX == text
      ensures origin == Placed(old(origin))
    {
      posX := text;
      UpdatePos();
    }

    method EditY(text: string)
      modifies this`posY, this`origin
      ensures posY == text
      ensures origin == Placed(old(origin))
    {
      posY := text;
      UpdatePos();
    }

    /** `center_pos`. */
    method CentrePos()
      modifies this`posX, this`posY, this`origin
      ensures posX == IntToString(Centre().0) && posY == IntToString(Centre().1)
      ensures origin == Placed(old(origin))
    {
      posX, posY := IntToString(Centre().0), IntToString(Centre().1);
      UpdatePos();
    }

    /** `adjust_pos(dx, dy)`, bound to the arrow keys. */
    method AdjustPos(dx: int, dy: int)
      modifies this`posX, this`posY, this`origin
      ensures (posX, posY) == Nudged(parse, old(posX), old(posY), Centre(), dx, dy)
      ensures origin == Placed(old(origin))
    {
      var p := CurrentOrCentre(parse, posX, posY, Centre());
      ghost var t := Nudged(parse, posX, posY, Centre(), dx, dy);
      posX, posY := IntToString(p.0 + dx), IntToString(p.1 + dy);
      assert (posX, posY) == t;
      ghost var o := origin;
      UpdatePos();
      assert origin == Placed(o);
    }

    /** `drag_start`: pressing the drag button at screen point (px, py). */
    method DragStart(px: int, py: int)
      modifies this`drag
      ensures drag == Some(Position.DragStart(parse, posX, posY, Centre(), px, py))
    {
      var p := CurrentOrCentre(parse, posX, posY, Centre());
      drag := Some(DragAnchor(px, py, p.0, p.1));
    }

    /** `drag_move`: the pointer moved to (px, py) with the button held. Without
        an earlier press the handler fails and nothing changes. */
    method DragMove(px: int, py: int)
      modifies this`posX, this`posY, this`origin
      ensures drag.None? ==> posX == old(posX) && posY == old(posY) && origin == old(origin)
      ensures drag.Some? ==> (posX, posY) == Dragged(drag.value, px, py) && origin == Placed(old(origin))
    {
      if drag.Some? {
        var t := Dragged(drag.value, px, py);
        posX, posY := t.0, t.1;
        assert (posX, posY) == Dragged(drag.value, px, py);
        ghost var o := origin;
        UpdatePos();
        assert origin == Placed(o);
        assert (posX, posY) == Dragged(drag.value, px, py);
      }
    }

    /** `choose_color`; "" is a cancelled colour dialog. */
    method ChooseColor(color: string)
      modifies this`config, this`canvas
      ensures config == if color == "" then old(config) else old(config).(color := color)
      ensures color == "" ==> canvas == old(canvas)
      ensures color != "" ==> Valid()
    {
      if color != "" {
        config := config.(color := color);
        RefreshOverlay();
      }
    }

    /** `choose_image`; "" is a cancelled file dialog. Picking a file switches to
        the custom style. */
    method ChooseImage(path: string)
      modifies this`config, this`canvas
      ensures config == if path == "" then old(config) else old(config).(imagePath := path, style := ChineseLabel(Custom))
      ensures path == "" ==> canvas == old(canvas)
      ensures path != "" ==> Valid() && StyleOf(config.style) == Some(Custom)
    {
      if path != "" {
        config := config.(imagePath := path, style := ChineseLabel(Custom));
        RefreshOverlay();
      }
    }

    /** `on_style_change`: redraw, and report whether an image dialog is
        scheduled (custom style, no image, not at start-up). */
    method OnStyleChange(startup: bool) returns (promptImage: bool)
      modifies this`canvas
      ensures Valid()
      ensures promptImage == PromptsForImage(config, startup)
    {
      promptImage := PromptsForImage(config, startup);
      RefreshOverlay();
    }

    /** Picking a label in the style selector. */
    method SelectStyle(name: string) returns (promptImage: bool)
      modifies this`config, this`canvas
      ensures config == old(config).(style := name)
      ensures Valid()
      ensures promptImage == PromptsForImage(config, false)
    {
      config := config.(style := name);
      promptImage := OnStyleChange(false);
    }

    /** Typing into the preset selector. */
    method SetPresetName(name: string)
      modifies this`presetName
      ensures presetName == name
    {
      presetName := name;
    }

    /** `save_preset`: store the six current fields under the stripped name,
        replacing any entry of that name; a blank name does nothing. */
    method SavePreset()
      modifies this`presets
      ensures Trim(presetName) == [] ==> presets == old(presets)
      ensures Trim(presetName) != [] ==> presets == old(presets)[Trim(presetName) := Capture(config)]
    {
      var name := Trim(presetName);
      if name != [] {
        presets := presets[name := Capture(config)];
      }
    }

    /** `load_preset`: apply the entry the selector names, with defaults for its
        missing fields; the placeholder or an unknown name does nothing. */
    method LoadPreset() returns (promptImage: bool)
      requires Valid()
      modifies this`config, this`canvas
      ensures Valid()
      ensures presetName == Placeholder || presetName !in presets ==>
        config == old(config) && canvas == old(canvas) && !promptImage
      ensures presetName != Placeholder && presetName in presets ==>
        config == Fill(presets[presetName]) && promptImage == PromptsForImage(config, false)
    {
      promptImage := false;
      if presetName != Placeholder && presetName in presets {
        config := Fill(presets[presetName]);
        promptImage := OnStyleChange(false);
      }
    }

    /** Choosing a name from the selector's list. */
    method SelectPreset(name: string) returns (promptImage: bool)
      requires Valid()
      modifies this`presetName, this`config, this`canvas
      ensures presetName == name && Valid()
      ensures name == Placeholder || name !in presets ==> config == old(config) && !promptImage
      ensures name != Placeholder && name in presets ==>
        config == Fill(presets[name]) && promptImage == PromptsForImage(config, false)
    {
      presetName := name;
      promptImage := LoadPreset();
    }

    /** `delete_preset`: remove the named entry and clear the selector; an
        unknown name does nothing. */
    method DeletePreset()
      modifies this`presets, this`presetName
      ensures old(presetName) in old(presets) ==> presets == old(presets) - {old(presetName)} && presetName == ""
      ensures old(presetName) !in old(presets) ==> presets == old(presets) && presetName == old(presetName)
    {
      if presetName in presets {
        presets := presets - {presetName};
        presetName := "";
      }
    }

    /** `export_preset`. `proceed` is the answer to the custom-image warning and
        `saveChosen` whether a file was picked; the result is the document
        written. Once past the warning the stored entry gains a `name` key, even
        if no file is then picked. */
    method ExportPreset(proceed: bool, saveChosen: bool) returns (written: Option<PresetEntry>)
      modifies this`presets
      ensures presetName == "" || presetName !in old(presets)
              || (IsCustomEntry(old(presets)[presetName]) && !proceed) ==>
        presets == old(presets) && written == None
      ensures presetName != "" && presetName in old(presets)
              && (IsCustomEntry(old(presets)[presetName]) ==> proceed) ==>
        presets == old(presets)[presetName := old(presets)[presetName].(name := Some(presetName))]
        && written == (if saveChosen then Some(presets[presetName]) else None)
    {
      written := None;
      if presetName == "" || presetName !in presets {
        return;
      }
      var data := presets[presetName];
      if IsCustomEntry(data) && !proceed {
        return;
      }
      presets := presets[presetName := data.(name := Some(presetName))];
      if saveChosen {
        written := Some(presets[presetName]);
      }
    }

    /** `import_preset`. `path` is the chosen file ("" when cancelled) and `doc`
        its JSON object (None when it cannot be read). The cleaned entry is stored
        under its name, replacing any entry of that name, and applied. */
    method ImportPreset(path: string, doc: Option<PresetEntry>) returns (promptImage: bool)
      requires Valid()
      modifies this`presets, this`presetName, this`config, this`canvas
      ensures Valid()
      ensures path == "" || doc.None? ==>
        presets == old(presets) && presetName == old(presetName) && config == old(config) && !promptImage
      ensures path != "" && doc.Some? ==>
        var name := ImportName(doc.value, path);
        presets == old(presets)[name := Sanitize(doc.value)] && presetName == name
        && config == (if name == Placeholder then old(config) else Fill(doc.value))
        && promptImage == (name != Placeholder && PromptsForImage(config, false))
    {
      promptImage := false;
      if path == "" || doc.None? {
        return;
      }
      var name := ImportName(doc.value, path);
      presets := presets[name := Sanitize(doc.value)];
      presetName := name;
      FillSanitize(doc.value);
      promptImage := LoadPreset();
    }

    /** `save_config` (also run on quitting): the document written to the
        settings file. */
    method SaveConfig() returns (doc: SettingsDoc)
      ensures doc == Settings.SaveConfig(CurrentOrCentre(parse, posX, posY, Centre()), config, forceAdmin, presets)
    {
      doc := Settings.SaveConfig(CurrentOrCentre(parse, posX, posY, Centre()), config, forceAdmin, presets);
    }

    /** `restart_as_admin` (elevated) and `restart_as_normal`: record the wish and
        save the settings; the relaunch and exit follow outside the model. */
    method RequestRelaunch(elevated: bool) returns (doc: SettingsDoc)
      modifies this`forceAdmin
      ensures forceAdmin == elevated
      ensures doc == Settings.SaveConfig(CurrentOrCentre(parse, posX, posY, Centre()), config, elevated, presets)
    {
      forceAdmin := elevated;
      doc := SaveConfig();
    }
  }

  /** Saving a preset under a typed name and then choosing it from the list,
      where it appears under the stripped name, restores all six fields; the
      frame keeps the position and the overlay where they were. */
  method SaveThenSelect(p: ControlPanel, typed: string)
    requires p.Valid()
    requires Trim(typed) != [] && Trim(typed) != Placeholder
    modifies p`presetName, p`presets, p`config, p`canvas
    ensures p.Valid()
    ensures p.config == old(p.config)
    ensures p.presets == old(p.presets)[Trim(typed) := Capture(old(p.config))]
    ensures p.presetName == Trim(typed)
  {
    p.SetPresetName(typed);
    p.SavePreset();
    assert p.presets == old(p.presets)[Trim(typed) := Capture(p.config)];
    var _ := p.SelectPreset(Trim(typed));
  }

  /** Right arrow then left arrow: the entries read the same integers as before
      and the overlay is centred on that point; nothing but the entries and the
      overlay's placement changes. */
  method RightThenLeft(p: ControlPanel)
    requires ReadsDecimals(p.parse)
    requires var q := CurrentOrCentre(p.parse, p.posX, p.posY, p.Centre());
      ExactInFloat(q.0) && ExactInFloat(q.0 + 1) && ExactInFloat(q.1)
    modifies p`posX, p`posY, p`origin
    ensures CurrentOrCentre(p.parse, p.posX, p.posY, p.Centre())
         == old(CurrentOrCentre(p.parse, p.posX, p.posY, p.Centre()))
    ensures var q := old(CurrentOrCentre(p.parse, p.posX, p.posY, p.Centre()));
      p.origin == Some(SetPosition(q.0, q.1))
  {
    ghost var parse, centre := p.parse, p.Centre();
    ghost var x0, y0 := p.posX, p.posY;
    ghost var q := CurrentOrCentre(parse, x0, y0, centre);
    NudgeThenBack(parse, x0, y0, centre, 1, 0);
    ghost var t := Nudged(parse, x0, y0, centre, 1, 0);
    p.AdjustPos(1, 0);
    assert (p.posX, p.posY) == t;
    p.AdjustPos(-1, 0);
    assert (p.posX, p.posY) == Nudged(parse, t.0, t.1, centre, -1, 0);
    assert (p.posX, p.posY) == (IntToString(q.0), IntToString(q.1));
    assert CurrentOrCentre(parse, p.posX, p.posY, centre) == q;
    assert Target(parse, p.posX, p.posY, centre) == Some(q);
    assert p.origin == Some(SetPosition(q.0, q.1));
  }

  /** Sharing the selected preset and importing the shared file again stores the
      cleaned entry under the same name and applies the same configuration. */
  method ExportThenImport(p: ControlPanel, path: string)
    requires p.Valid()
    requires p.presetName != "" && p.presetName != Placeholder && p.presetName in p.presets
    requires path != ""
    modifies p`presets, p`presetName, p`config, p`canvas
    ensures p.Valid()
    ensures p.presetName == old(p.presetName)
    ensures p.presets == old(p.presets)[p.presetName := Sanitize(old(p.presets)[p.presetName])]
    ensures p.config == Fill(old(p.presets)[p.presetName])
  {
    var name := p.presetName;
    var e := p.presets[name];
    var written := p.ExportPreset(true, true);
    assert written == Some(e.(name := Some(name)));
    assert p.presets == old(p.presets)[name := e.(name := Some(name))];
    ExportImportRoundTrip(e, name, path);
    var _ := p.ImportPreset(path, written);
    assert p.presets == old(p.presets)[name := Sanitize(e.(name := Some(name)))];
  }
}
