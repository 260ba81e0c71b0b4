/** The crosshair position as the control panel keeps it: two entry texts.
    `parse` stands for `int(float(s))` (None where Python raises). Nudging,
    dragging and saving read both texts together and fall back to the screen
    centre when either fails; placing the overlay reads each stripped text on
    its own and lets a blank one mean the centre. */
module Position {
  import opened Wrappers
  import opened Text

  /** `(screen_w // 2, screen_h // 2)`. */
  function ScreenCentre(w: nat, h: nat): (c: (int, int))
    ensures 0 <= c.0 <= w && 0 <= c.1 <= h
    ensures w - 1 <= 2 * c.0 <= w && h - 1 <= 2 * c.1 <= h
  {
    (w / 2, h / 2)
  }

  /** The integer position `adjust_pos`, `drag_start` and `save_config` start from:
      both texts read, or the screen centre as soon as one of them does not. */
  function CurrentOrCentre(parse: string -> Option<int>, posX: string, posY: string, centre: (int, int)): (p: (int, int))
    ensures parse(posX).None? || parse(posY).None? ==> p == centre
    ensures parse(posX).Some? && parse(posY).Some? ==> parse(posX) == Some(p.0) && parse(posY) == Some(p.1)
  {
    match (parse(posX), parse(posY))
    case (Some(x), Some(y)) => (x, y)
    case _ => centre
  }

  /** One coordinate as `update_pos` reads it: blank text means the centre
      coordinate, other text is read after stripping. */
  function EntryValue(parse: string -> Option<int>, text: string, fallback: int): Option<int> {
    var t := Trim(text);
    if t == [] then Some(fallback) else parse(t)
  }

  /** The point `update_pos` centres the overlay on, or None when a text does not
      read (the overlay then stays where it is). */
  function Target(parse: string -> Option<int>, posX: string, posY: string, centre: (int, int)): Option<(int, int)> {
    match (EntryValue(parse, posX, centre.0), EntryValue(parse, posY, centre.1))
    case (Some(x), Some(y)) => Some((x, y))
    case _ => None
  }

  /** Whitespace around an entry's text does not change what it reads as. */
  lemma EntryValueIgnoresOuterSpace(parse: string -> Option<int>, a: string, text: string, b: string, fallback: int)
    requires AllSpace(a) && AllSpace(b)
    ensures EntryValue(parse, a + text + b, fallback) == EntryValue(parse, text, fallback)
  {
    TrimPadded(a, text, b);
  }

  /** Two blank (empty or all-whitespace) entries centre the overlay on the screen. */
  lemma BlankEntriesPlaceAtCentre(parse: string -> Option<int>, posX: string, posY: string, centre: (int, int))
    requires AllSpace(posX) && AllSpace(posY)
    ensures Target(parse, posX, posY, centre) == Some(centre)
  {
  }

  /** Placing fails exactly when an entry is not blank and its stripped text does
      not read; a blank entry never makes it fail. */
  lemma PlacementFailsOnUnreadableText(parse: string -> Option<int>, posX: string, posY: string, centre: (int, int))
    ensures Target(parse, posX, posY, centre).None? <==>
      (!AllSpace(posX) && parse(Trim(posX)).None?) || (!AllSpace(posY) && parse(Trim(posY)).None?)
  {
  }

  /** The entry texts after `adjust_pos(dx, dy)`. */
  function Nudged(parse: string -> Option<int>, posX: string, posY: string, centre: (int, int), dx: int, dy: int): (t: (string, string))
    ensures var p := CurrentOrCentre(parse, posX, posY, centre);
      DecimalValue(t.0) == Some(p.0 + dx) && DecimalValue(t.1) == Some(p.1 + dy)
  {
    var p := CurrentOrCentre(parse, posX, posY, centre);
    IntToStringRoundTrip(p.0 + dx);
    IntToStringRoundTrip(p.1 + dy);
    (IntToString(p.0 + dx), IntToString(p.1 + dy))
  }

  /** Entry texts written from integers read back as those integers, both for
      nudging and for placing the overlay. */
  lemma IntTextsReadBack(parse: string -> Option<int>, x: int, y: int, centre: (int, int))
    requires ReadsDecimals(parse)
    requires ExactInFloat(x) && ExactInFloat(y)
    ensures CurrentOrCentre(parse, IntToString(x), IntToString(y), centre) == (x, y)
    ensures Target(parse, IntToString(x), IntToString(y), centre) == Some((x, y))
  {
    IntTextReadsBack(parse, x);
    IntTextReadsBack(parse, y);
  }

  /** A nudge moves the overlay by exactly (dx, dy) from the position it started from. */
  lemma NudgeMovesOverlay(parse: string -> Option<int>, posX: string, posY: string, centre: (int, int), dx: int, dy: int)
    requires ReadsDecimals(parse)
    requires var p := CurrentOrCentre(parse, posX, posY, centre); ExactInFloat(p.0 + dx) && ExactInFloat(p.1 + dy)
    ensures var p := CurrentOrCentre(parse, posX, posY, centre);
      var t := Nudged(parse, posX, posY, centre, dx, dy);
      Target(parse, t.0, t.1, centre) == Some((p.0 + dx, p.1 + dy))
  {
    var p := CurrentOrCentre(parse, posX, posY, centre);
    IntTextsReadBack(parse, p.0 + dx, p.1 + dy, centre);
  }

  /** Nudging by (dx, dy) and then by (-dx, -dy) leaves the entries holding the
      integers the first nudge started from. When the texts read, that is the
      original position; when they do not, it is the screen centre. */
  lemma NudgeThenBack(parse: string -> Option<int>, posX: string, posY: string, centre: (int, int), dx: int, dy: int)
    requires ReadsDecimals(parse)
    requires var p := CurrentOrCentre(parse, posX, posY, centre);
      ExactInFloat(p.0) && ExactInFloat(p.1) && ExactInFloat(p.0 + dx) && ExactInFloat(p.1 + dy)
    ensures var p := CurrentOrCentre(parse, posX, posY, centre);
      var t := Nudged(parse, posX, posY, centre, dx, dy);
      var back := Nudged(parse, t.0, t.1, centre, -dx, -dy);
      back == (IntToString(p.0), IntToString(p.1)) && CurrentOrCentre(parse, back.0, back.1, centre) == p
      && Target(parse, back.0, back.1, centre) == Some(p)
  {
    var p := CurrentOrCentre(parse, posX, posY, centre);
    var t := Nudged(parse, posX, posY, centre, dx, dy);
    assert t == (IntToString(p.0 + dx), IntToString(p.1 + dy));
    IntTextsReadBack(parse, p.0 + dx, p.1 + dy, centre);
    var q := CurrentOrCentre(parse, t.0, t.1, centre);
    assert q == (p.0 + dx, p.1 + dy);
    var back := Nudged(parse, t.0, t.1, centre, -dx, -dy);
    assert back == (IntToString(q.0 + -dx), IntToString(q.1 + -dy));
    assert q.0 + -dx == p.0 && q.1 + -dy == p.1;
    IntTextsReadBack(parse, p.0, p.1, centre);
  }

  /** When either text does not read, a nudge starts from the screen centre. */
  lemma UnreadableNudgesFromCentre(parse: string -> Option<int>, posX: string, posY: string, centre: (int, int), dx: int, dy: int)
    requires parse(posX).None? || parse(posY).None?
    ensures Nudged(parse, posX, posY, centre, dx, dy) == (IntToString(centre.0 + dx), IntToString(centre.1 + dy))
  {
  }

  /** What `drag_start` records: the pointer and the integer position at press time. */
  datatype DragAnchor = DragAnchor(pointerX: int, pointerY: int, startX: int, startY: int)

  function DragStart(parse: string -> Option<int>, posX: string, posY: string, centre: (int, int), px: int, py: int): DragAnchor {
    var p := CurrentOrCentre(parse, posX, posY, centre);
    DragAnchor(px, py, p.0, p.1)
  }

  /** When either text does not read, a drag starts from the screen centre. */
  lemma UnreadableDragStartsFromCentre(parse: string -> Option<int>, posX: string, posY: string, centre: (int, int), px: int, py: int)
    requires parse(posX).None? || parse(posY).None?
    ensures DragStart(parse, posX, posY, centre, px, py) == DragAnchor(px, py, centre.0, centre.1)
  {
  }

  /** A press while the entries hold integer texts records those integers. */
  lemma PressRecordsEntryIntegers(parse: string -> Option<int>, x: int, y: int, centre: (int, int), px: int, py: int)
    requires ReadsDecimals(parse)
    requires ExactInFloat(x) && ExactInFloat(y)
    ensures DragStart(parse, IntToString(x), IntToString(y), centre, px, py) == DragAnchor(px, py, x, y)
  {
    IntTextsReadBack(parse, x, y, centre);
  }

  /** Blank-padded integer texts place the overlay at those integers. */
  lemma PaddedIntTextsPlace(parse: string -> Option<int>, a: string, b: string, c: string, d: string,
                            x: int, y: int, centre: (int, int))
    requires ReadsDecimals(parse)
    requires ExactInFloat(x) && ExactInFloat(y)
    requires AllSpace(a) && AllSpace(b) && AllSpace(c) && AllSpace(d)
    ensures Target(parse, a + IntToString(x) + b, c + IntToString(y) + d, centre) == Some((x, y))
  {
    EntryValueIgnoresOuterSpace(parse, a, IntToString(x), b, centre.0);
    EntryValueIgnoresOuterSpace(parse, c, IntToString(y), d, centre.1);
    IntTextsReadBack(parse, x, y, centre);
  }

  /** The entry texts `drag_move` writes for the pointer at (px, py). */
  function Dragged(a: DragAnchor, px: int, py: int): (t: (string, string))
    ensures DecimalValue(t.0) == Some(a.startX + (px - a.pointerX))
    ensures DecimalValue(t.1) == Some(a.startY + (py - a.pointerY))
  {
    IntToStringRoundTrip(a.startX + (px - a.pointerX));
    IntToStringRoundTrip(a.startY + (py - a.pointerY));
    (IntToString(a.startX + (px - a.pointerX)), IntToString(a.startY + (py - a.pointerY)))
  }

  /** During a drag the overlay is centred on the start position moved by the
      pointer's displacement since the press. */
  lemma DragFollowsPointer(parse: string -> Option<int>, a: DragAnchor, px: int, py: int, centre: (int, int))
    requires ReadsDecimals(parse)
    requires ExactInFloat(a.startX + (px - a.pointerX)) && ExactInFloat(a.startY + (py - a.pointerY))
    ensures var t := Dragged(a, px, py);
      Target(parse, t.0, t.1, centre) == Some((a.startX + (px - a.pointerX), a.startY + (py - a.pointerY)))
  {
    var x, y := a.startX + (px - a.pointerX), a.startY + (py - a.pointerY);
    assert Dragged(a, px, py) == (IntToString(x), IntToString(y));
    IntTextsReadBack(parse, x, y, centre);
  }

  /** Each move depends only on the press, not on earlier moves: returning the
      pointer to where it was pressed writes the start position back. */
  lemma DragBackToPress(a: DragAnchor)
    ensures Dragged(a, a.pointerX, a.pointerY) == (IntToString(a.startX), IntToString(a.startY))
  {
  }
}
