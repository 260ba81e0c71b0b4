# Crosshair overlay and control panel — a Dafny model

This project models the logic inside `main.py` of a Windows crosshair overlay
tool. Two parts matter. The **overlay** is a borderless, always-on-top,
click-through 200×200 window that draws a crosshair. The **control panel** owns
the crosshair configuration, the position entries and a table of named presets.

The model covers:

- what the overlay canvas holds after a redraw, for each style label (English or
  Chinese);
- where the window goes for a requested centre point;
- the extended-style bits that make the window click-through;
- the position entries and how nudging, dragging, centring and typing change them;
- the preset table: save, load, delete, export with its in-place `name` edit, and
  import with its cleaning and naming;
- reading and writing the settings file, including the flag that asks for an
  elevated relaunch.

Modules:

- `Wrappers` (`wrappers.dfy`): `Option`.
- `Text` (`text.dfy`): the Python string operations the panel uses:
  `str.strip()` with Python's whitespace set, `str(int)`, decimal reading,
  `os.path.basename` and `os.path.splitext`.
- `Overlay` (`overlay.dfy`): style labels, canvas shapes, `Redraw`, `SetPosition`
  and `ClickThrough`, as pure functions.
- `Settings` (`settings.dfy`): preset entries, default filling, and the
  settings document.
- `Position` (`position.dfy`): how the position entries are read and rewritten.
- `Panel` (`panel.dfy`): the `ControlPanel` class. Its fields are the entries'
  texts, the configuration, the preset map, the selector text, the drag anchor,
  the overlay canvas and the overlay's placement. Each handler is a method with a
  `modifies` clause. `Valid()` says that the canvas shows the current
  configuration as drawn against a file system that does not change while the
  panel runs (see "Left out"). Three client methods at the end show what callers can prove
  about sequences of handler calls.

Inputs that come from dialogs, the file system or the OS are parameters:

- `parse` stands for `int(float(s))`. It returns None where Python raises.
- `imageReadable` says whether an image file exists and decodes.
- A dialog's answer or a file's JSON object is passed to the handler that uses it.

`parse` is abstract. The lemmas that need it to behave require
`ReadsDecimals(parse)`: plain decimal integer text whose value a double holds
exactly (magnitude at most 2^53) reads back as that value.

Behaviour of the code worth noting:

- A cross arm is `size // 2` long on each side, so the cross spans
  `2 * (size // 2)`, which is `size - 1` for an odd size. The circle and the dot
  also have diameter `2 * (n // 2)`.
- Text that does not read makes `adjust_pos`, `drag_start` and `save_config` use
  the screen centre. `update_pos` then leaves the overlay where it was, and a
  blank entry means the centre coordinate.
- `save_preset` stores under the stripped name. `load_preset`, `delete_preset` and
  `export_preset` look up the text exactly as typed.
- The placeholder name can be saved as a preset, but `load_preset` never applies
  it. An import under the placeholder name is stored but not applied.
- Once export is past the custom-image warning, the stored entry gains a `name`
  key, even if no file is then chosen.

## Model

| member | source | states |
|---|---|---|
| `Text.Trim` | main.py:490 | `str.strip()`: the result is empty exactly when the text is all whitespace; otherwise it starts and ends with non-whitespace |
| `Text.TrimCutsOnlyOuterSpace` | main.py:490 | stripping cuts only whitespace, and only from the two ends: every text is some whitespace, then its stripped text, then some whitespace |
| `Text.TrimOfPadded` | main.py:490 | text with no outer whitespace, padded with whitespace on either side, strips back to exactly that text |
| `Text.TrimPadded` | main.py:490 | whitespace added at either end of any text does not change what it strips to |
| `Text.TrimIdempotent` | main.py:454-455 | stripping twice equals stripping once |
| `Text.TrimWithoutOuterSpace` | main.py:454-455 | text with no outer whitespace is left unchanged by stripping |
| `Text.IntToString` | main.py:481-482 | `str(n)` is non-empty and starts with `-` exactly for negative n |
| `Text.IntToStringHasNoSpace` | main.py:481-482 | `str(n)` holds no whitespace character |
| `Text.IntToStringRoundTrip` | main.py:475-482 | reading `str(n)` as decimal text gives n for every integer n |
| `Text.IntTextReadsBack` | main.py:475-482 | if `parse` reads decimals exactly, `int(float(str(n)))` is n for \|n\| ≤ 2^53, and `str(n)` strips to itself and is not blank |
| `Text.Basename` | main.py:576 | `os.path.basename`: the longest suffix without `/` or `\`, which follows a separator when it is not the whole path |
| `Text.Stem` | main.py:576 | `os.path.splitext(..)[0]`: a prefix that either drops the last `.` extension, when some non-dot character precedes it, or keeps the whole name |
| `Overlay.StyleOf` | main.py:77-95 | a label names a style exactly when it is that style's English or Chinese label; any other label names none |
| `Overlay.CrossArms` | main.py:77-83 | the cross is a centred horizontal line then a centred vertical line, each with arms of `size // 2`, in the configured colour and width |
| `Overlay.DotDisc` | main.py:85-88 | the dot is a centred disc of radius `dot // 2` filled and outlined in the configured colour |
| `Overlay.CircleRing` | main.py:90-93 | the circle is a centred outline ring of radius `size // 2` and stroke `thickness` |
| `Overlay.Redraw` | main.py:67-106 | the cleared canvas holds shapes that are all centred at (100,100). Cross gives a horizontal then a vertical line with arms of `size // 2`; Dot gives one filled disc of radius `dot // 2`; Both gives the two lines then the disc; Circle gives one outline ring of radius `size // 2` and stroke `thickness`; Custom gives one centred image when the path is non-empty and readable, else nothing; an unknown label gives nothing. Colours and widths come from the configuration |
| `Overlay.LabelsDrawAlike` | main.py:77-95 | the English and the Chinese label of each style draw identical canvases |
| `Overlay.BothIsCrossThenDot` | main.py:77-88 | the Both canvas is the Cross canvas followed by the Dot canvas |
| `Overlay.SetPosition` | main.py:108-113 | for every integer x, y, the top-left corner puts the canvas centre on screen point (x, y) |
| `Overlay.ShapesCentredOnScreenPoint` | main.py:67-113 | after placement at (x, y), every line, every disc's and ring's bounding box is symmetric about (x, y) in screen coordinates, and every image is anchored at (x, y) |
| `Overlay.DefaultCrossScenario` | main.py:148-156 | the default configuration draws a green plus from 90 to 110 on both axes; the centre of a 1920×1080 screen gives top-left (860, 440) |
| `Overlay.ClickThrough` | main.py:62 | the new style has `WS_EX_TRANSPARENT` (0x20) and `WS_EX_LAYERED` (0x80000) set and every other bit as before |
| `Overlay.ClickThroughIdempotent` | main.py:62 | applying the click-through style twice equals applying it once |
| `Overlay.ClickThroughKeepsClickThroughStyle` | main.py:62 | a style that already has both bits is written back unchanged |
| `Settings.Sanitize` | main.py:579-586 | the cleaned imported entry has all six fields and no name; an entry that already has all six fields and no name is kept as is |
| `Settings.Fill` | main.py:514-519 | applying an entry takes its fields; each missing field gets the panel's start-up value (size 20, thickness 2, colour #00FF00, dot 4, style 十字, no image) |
| `Settings.Capture` | main.py:495-502 | the saved entry is complete, has no name, and applying it restores all six configuration fields exactly |
| `Settings.CaptureFill` | main.py:495-519 | a complete, nameless entry is exactly what saving the configuration it applies would store |
| `Settings.FillSanitize` | main.py:579-591 | applying a cleaned entry applies what the raw entry would have applied, defaults included |
| `Settings.SanitizeIdempotent` | main.py:579-586 | cleaning twice equals cleaning once |
| `Settings.DefaultsAreInitialConfig` | main.py:514-519 | the defaults 20 / 2 / #00FF00 / 4 / 十字 / "" used when fields are missing are the panel's start-up configuration |
| `Settings.ImportName` | main.py:576 | the imported name is the file's `name` field when present, else the stem of the file's base name: cut at its last dot when the part before holds a non-dot character, else the whole base name |
| `Settings.ImportNameOfProposedFile` | main.py:553 | a nameless file saved as `n.json` in any directory, the file name export proposes for preset `n`, imports under `n`, for every separator-free `n` with a non-dot character |
| `Text.BasenameAfterSeparator` | main.py:576 | the base name of a path ending in a separator and then separator-free text is that text |
| `Text.StemOfExtension` | main.py:576 | the stem of `n.ext` with a dot-free extension is `n` whenever `n` holds a non-dot character |
| `Settings.ExportImportRoundTrip` | main.py:531-591 | an exported entry carries its name, so importing it from any path restores that name and applies the same configuration |
| `Settings.LoadConfig` | main.py:617-636 | with no readable file nothing changes; otherwise the entries hold decimal text of the file's position or the screen centre, the six fields come from the file or the defaults, the flag is set exactly when the file's `force_admin` is true, and the presets are the file's or none |
| `Settings.SaveConfig` | main.py:638-657 | the settings document written has both position fields, all six appearance fields, the flag and the presets present |
| `Settings.SaveLoadRoundTrip` | main.py:617-657 | reading back a saved settings document restores the configuration, the flag and the presets exactly, with the entries holding the saved integers as text |
| `Settings.ShouldRelaunchElevated` | main.py:664-688 | the program relaunches elevated exactly when a settings document exists, its `force_admin` is true, and the process is not elevated |
| `Settings.ElevationFlagRoundTrip` | main.py:244-268 | the flag saved before an elevation relaunch triggers one at the next start; the flag saved before a de-elevation does not, nor does any flag in an elevated process |
| `Position.ScreenCentre` | main.py:138-142 | the screen centre lies on the screen, at half the width and height rounded down |
| `Position.CurrentOrCentre` | main.py:426-431 | when either entry does not read the result is the screen centre; when both read it is the two integers they read as |
| `Position.EntryValueIgnoresOuterSpace` | main.py:454-461 | whitespace around an entry's text does not change what it reads as |
| `Position.BlankEntriesPlaceAtCentre` | main.py:457-461 | two blank entries centre the overlay on the screen centre |
| `Position.PlacementFailsOnUnreadableText` | main.py:450-466 | placing fails exactly when some entry is not blank and its stripped text does not read; the overlay then stays where it was |
| `Position.PaddedIntTextsPlace` | main.py:450-466 | integer texts with whitespace around them place the overlay at those integers |
| `Position.IntTextsReadBack` | main.py:473-483 | entries holding written integers read back as those integers, for nudging and for placing |
| `Position.NudgeMovesOverlay` | main.py:473-483 | after a nudge by (dx, dy) the overlay is centred at the starting integer position plus (dx, dy) |
| `Position.NudgeThenBack` | main.py:473-483 | a nudge by (dx, dy) and then (−dx, −dy) leaves the entries holding, and placing the overlay at, the integers the first nudge started from |
| `Position.Nudged` | main.py:481-482 | the texts written by a nudge are the decimal texts of the starting integers plus (dx, dy) |
| `Position.UnreadableNudgesFromCentre` | main.py:474-479 | if either entry does not read, a nudge starts from the screen centre on both axes |
| `Position.UnreadableDragStartsFromCentre` | main.py:423-431 | if either entry does not read, a press records the pointer and the screen centre as the start |
| `Position.PressRecordsEntryIntegers` | main.py:423-429 | a press while the entries hold integer texts records the pointer and those integers |
| `Position.Dragged` | main.py:434-437 | the texts written during a drag are the decimal texts of the start position plus the pointer's displacement |
| `Position.DragFollowsPointer` | main.py:433-438 | during a drag the overlay is centred at the start position plus the pointer's displacement since the press |
| `Position.DragBackToPress` | main.py:433-437 | moving the pointer back to the press point writes the start position back |
| `Panel.ControlPanel.constructor` | main.py:116-170 | start-up loads the settings, or keeps the defaults when there are none; the selector shows the placeholder; the canvas shows the configuration; the overlay is placed from the entries |
| `Panel.ControlPanel.RefreshOverlay` | main.py:446-448 | the canvas is replaced by the drawing of the current configuration |
| `Panel.ControlPanel.UpdatePos` | main.py:450-466 | the overlay moves to the entries' point when both read, and otherwise stays |
| `Panel.ControlPanel.EditX` | main.py:145 | typing into the X entry sets its text and runs the placement |
| `Panel.ControlPanel.EditY` | main.py:146 | typing into the Y entry sets its text and runs the placement |
| `Panel.ControlPanel.CentrePos` | main.py:468-471 | the entries are set to the screen centre and the overlay is placed |
| `Panel.ControlPanel.AdjustPos` | main.py:473-483 | the entries become the nudged integers and the overlay is placed; nothing else changes |
| `Panel.ControlPanel.DragStart` | main.py:423-431 | only the drag anchor changes, to the pointer and the starting position |
| `Panel.ControlPanel.DragMove` | main.py:433-438 | the entries become start plus displacement and the overlay is placed; without a press nothing changes |
| `Panel.ControlPanel.ChooseColor` | main.py:389-393 | a chosen colour replaces the configured colour and is redrawn; a cancelled dialog changes nothing |
| `Panel.ControlPanel.ChooseImage` | main.py:412-421 | a chosen file becomes the image path and switches the style to 自定义; a cancelled dialog changes nothing |
| `Panel.ControlPanel.OnStyleChange` | main.py:395-410 | the canvas is redrawn; an image prompt is scheduled exactly for a custom style with no image outside start-up |
| `Panel.ControlPanel.SelectStyle` | main.py:286-289 | only the style changes, then the style-change handling runs |
| `Panel.ControlPanel.SetPresetName` | main.py:339 | the selector text becomes the typed name |
| `Panel.ControlPanel.SavePreset` | main.py:489-505 | a blank or whitespace-only name changes nothing; otherwise the stripped name maps to the six current fields, replacing any old entry. Other entries, the configuration and the position are untouched |
| `Panel.ControlPanel.LoadPreset` | main.py:507-522 | the placeholder or an absent name changes nothing; otherwise the six fields come from the entry with defaults, the canvas is redrawn, and an image prompt is reported for a custom preset with no image. Presets and position are untouched |
| `Panel.ControlPanel.SelectPreset` | main.py:341 | choosing a name from the list sets the selector and loads that preset |
| `Panel.ControlPanel.DeletePreset` | main.py:524-529 | a stored name is removed, with no other entry changed, and the selector is cleared; an absent name changes nothing |
| `Panel.ControlPanel.ExportPreset` | main.py:531-562 | an empty or absent name, or a declined custom-image warning, changes nothing and writes nothing; otherwise the stored entry gains its `name` key and is what gets written when a file is chosen |
| `Panel.ControlPanel.ImportPreset` | main.py:564-594 | a cancelled dialog or an unreadable file changes nothing. Otherwise the cleaned entry is stored under the file's name or file stem, replacing any old entry, the selector shows that name, and the entry is applied unless the name is the placeholder |
| `Panel.ControlPanel.SaveConfig` | main.py:638-662 | the document written holds the integer position (or the centre), the configuration, the flag and the presets |
| `Panel.ControlPanel.RequestRelaunch` | main.py:244-268 | the elevation flag is set as requested and the settings are saved with it |
| `Panel.SaveThenSelect` | main.py:489-522 | saving under any typed name whose stripped form is non-blank and not the placeholder, then choosing the stripped name, stores the six fields under it and restores the configuration exactly; the position and the overlay placement are outside its frame |
| `Panel.RightThenLeft` | main.py:173-176 | right arrow then left arrow leaves the entries reading the original integers and the overlay centred there |
| `Panel.ExportThenImport` | main.py:531-594 | sharing the selected preset and importing the file stores the cleaned entry under the same name and applies the same configuration; only the presets, the selector, the configuration and the canvas change |

## Left out

- Widget construction, layout, `mainloop`, the status labels and the preset list refresh (`update_preset_list`): UI plumbing.
- Variable traces: typing is modelled by `EditX` and `EditY`. During `adjust_pos`, `center_pos` and `drag_move` the traces also place the overlay in between; the model keeps only the final `update_pos`, which overrides those in-between placements whenever the final texts read.
- The size, thickness and dot sliders (`ttk.Scale`, `add_slider`): they write floating-point values.
- The image file's contents over time: `imageReadable` is fixed for the panel's lifetime, so the model assumes image files do not appear, disappear or change while it runs. The program's canvas keeps what the file held at the last redraw; `Valid()` relates the canvas to `Redraw` of the current configuration under that fixed view of the file system.
- Canvas painting, `PhotoImage`, base64 and file reading for the custom image: `imageReadable(path)` stands for "exists and decodes". The image's own size is not modelled. Tk errors from an invalid colour string are not modelled either.
- `int(float(s))`: floating point; it is the abstract `parse`. `ReadsDecimals` constrains it only for decimal integers up to 2^53. Beyond that, float rounding breaks the read-back, so the nudge and drag lemmas require positions in that range.
- The Win32 calls (`GetParent`, `GetWindowLongW`, `SetWindowLongW`), the choice between the parent and the own window handle, `IsUserAnAdmin`, `ShellExecuteW`, the `explorer` relaunch and `sys.exit`: foreign OS calls. Only the style-bit arithmetic is modelled, and only the elevation flag sets up the relaunch decision.
- Autostart in the registry (`check_startup`, `toggle_startup`): a registry side effect only.
- The tray icon and its worker thread (`minimize_to_tray`, `create_tray_icon`): concurrency and a foreign library.
- File and colour dialogs, message boxes, JSON reading and writing, `get_config_path`, `resource_path`, and `check_force_admin`'s file access: I/O. Their outcomes are handler parameters, such as a chosen path, a JSON object or None, or an answer.
- JSON values of unexpected types (a string `size`, a float `pos_x`): every field is typed in the model.
- The transparent key colour `#000001`: the colour chooser can return it, and nothing in the code refuses it; compositing is not modelled.
- Text.Basename: does not model `ntpath.splitdrive`, so a drive-relative path such as `C:name.json` keeps its `C:` prefix. Dialogs return absolute paths, where this does not arise.
