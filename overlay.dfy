/** The crosshair overlay window: a 200x200 canvas that is cleared and redrawn
    from the current configuration, a window placed so that the canvas centre
    sits on the chosen screen point, and the extended window style that makes
    it layered and transparent to mouse input. */
module Overlay {
  import opened Wrappers

  /** The canvas is always 200 by 200 pixels. */
  const Width: int := 200
  const Height: int := 200
  /** The canvas centre (`width // 2`, `height // 2`). */
  const Cx: int := Width / 2
  const Cy: int := Height / 2

  /** The crosshair appearance the overlay reads on every redraw. The style is
      kept as the label text the user picked; `StyleOf` interprets it. */
  datatype Config = Config(
    size: int,
    thickness: int,
    color: string,
    dot: int,
    style: string,
    imagePath: string)

  datatype Style = Cross | Dot | Both | Circle | Custom

  function EnglishLabel(s: Style): string {
    match s
    case Cross => "Cross"
    case Dot => "Dot"
    case Both => "Both"
    case Circle => "Circle"
    case Custom => "Custom"
  }

  /** The labels the style selector offers. */
  function ChineseLabel(s: Style): string {
    match s
    case Cross => "十字"
    case Dot => "圆点"
    case Both => "混合"
    case Circle => "圆圈"
    case Custom => "自定义"
  }

  /** The style a label stands for; an unrecognised label stands for none. */
  function StyleOf(name: string): (r: Option<Style>)
    ensures forall s :: r == Some(s) <==> name == EnglishLabel(s) || name == ChineseLabel(s)
  {
    if name == "Cross" || name == "十字" then Some(Cross)
    else if name == "Dot" || name == "圆点" then Some(Dot)
    else if name == "Both" || name == "混合" then Some(Both)
    else if name == "Circle" || name == "圆圈" then Some(Circle)
    else if name == "Custom" || name == "自定义" then Some(Custom)
    else None
  }

  /** One canvas item: a line, a disc (fill and outline in one colour), a ring
      (outline only, of a given stroke width) or an image anchored at its centre. */
  datatype Shape =
    | Line(x0: int, y0: int, x1: int, y1: int, fill: string, width: int)
    | Disc(left: int, top: int, right: int, bottom: int, fill: string)
    | Ring(left: int, top: int, right: int, bottom: int, outline: string, width: int)
    | Picture(x: int, y: int, path: string)

  /** The shape is symmetric about the canvas centre. */
  predicate Centred(s: Shape) {
    match s
    case Line(x0, y0, x1, y1, _, _) => x0 + x1 == 2 * Cx && y0 + y1 == 2 * Cy
    case Disc(l, t, r, b, _) => l + r == 2 * Cx && t + b == 2 * Cy
    case Ring(l, t, r, b, _, _) => l + r == 2 * Cx && t + b == 2 * Cy
    case Picture(x, y, _) => x == Cx && y == Cy
  }

  /** A horizontal line through the centre whose two arms are each `size // 2` long. */
  predicate HorizontalArm(s: Shape, c: Config) {
    s.Line? && Centred(s) && s.y0 == s.y1 && s.x1 - s.x0 == 2 * (c.size / 2)
    && s.fill == c.color && s.width == c.thickness
  }

  predicate VerticalArm(s: Shape, c: Config) {
    s.Line? && Centred(s) && s.x0 == s.x1 && s.y1 - s.y0 == 2 * (c.size / 2)
    && s.fill == c.color && s.width == c.thickness
  }

  /** The centre dot: a filled circle whose bounding box has radius `dot // 2`. */
  predicate CentreDot(s: Shape, c: Config) {
    s.Disc? && Centred(s) && s.right - s.left == 2 * (c.dot / 2) && s.bottom - s.top == 2 * (c.dot / 2)
    && s.fill == c.color
  }

  /** The unfilled circle: radius `size // 2`, stroke `thickness`. */
  predicate CentreRing(s: Shape, c: Config) {
    s.Ring? && Centred(s) && s.right - s.left == 2 * (c.size / 2) && s.bottom - s.top == 2 * (c.size / 2)
    && s.outline == c.color && s.width == c.thickness
  }

  /** The two lines of the cross. */
  function CrossArms(c: Config): (r: seq<Shape>)
    ensures |r| == 2 && HorizontalArm(r[0], c) && VerticalArm(r[1], c)
  {
    var arm := c.size / 2;
    [Line(Cx - arm, Cy, Cx + arm, Cy, c.color, c.thickness),
     Line(Cx, Cy - arm, Cx, Cy + arm, c.color, c.thickness)]
  }

  function DotDisc(c: Config): (r: Shape)
    ensures CentreDot(r, c)
  {
    var r := c.dot / 2;
    Disc(Cx - r, Cy - r, Cx + r, Cy + r, c.color)
  }

  function CircleRing(c: Config): (r: Shape)
    ensures CentreRing(r, c)
  {
    var arm := c.size / 2;
    Ring(Cx - arm, Cy - arm, Cx + arm, Cy + arm, c.color, c.thickness)
  }

  /** What the canvas holds after `redraw`: it is cleared first, so the items
      depend on the configuration alone (and, for a custom image, on whether the
      file can be read and decoded, which `imageReadable` stands for).
      Python's `//` by 2 and Dafny's `/` by 2 agree on every integer. */
  function Redraw(c: Config, imageReadable: string -> bool): (r: seq<Shape>)
    ensures forall i :: 0 <= i < |r| ==> Centred(r[i])
    ensures StyleOf(c.style) == None ==> r == []
    ensures StyleOf(c.style) == Some(Cross) ==> |r| == 2 && HorizontalArm(r[0], c) && VerticalArm(r[1], c)
    ensures StyleOf(c.style) == Some(Dot) ==> |r| == 1 && CentreDot(r[0], c)
    ensures StyleOf(c.style) == Some(Both) ==>
      |r| == 3 && HorizontalArm(r[0], c) && VerticalArm(r[1], c) && CentreDot(r[2], c)
    ensures StyleOf(c.style) == Some(Circle) ==> |r| == 1 && CentreRing(r[0], c)
    ensures StyleOf(c.style) == Some(Custom) ==>
      if c.imagePath != "" && imageReadable(c.imagePath) then r == [Picture(Cx, Cy, c.imagePath)] else r == []
  {
    var style := StyleOf(c.style);
    var cross := if style == Some(Cross) || style == Some(Both) then CrossArms(c) else [];
    var dot := if style == Some(Dot) || style == Some(Both) then [DotDisc(c)] else [];
    var ring := if style == Some(Circle) then [CircleRing(c)] else [];
    var picture :=
      if style == Some(Custom) && c.imagePath != "" && imageReadable(c.imagePath) then
        [Picture(Cx, Cy, c.imagePath)]
      else [];
    cross + dot + ring + picture
  }

  /** The English and the Chinese label of a style draw the same thing. */
  lemma LabelsDrawAlike(c: Config, s: Style, imageReadable: string -> bool)
    ensures Redraw(c.(style := EnglishLabel(s)), imageReadable) == Redraw(c.(style := ChineseLabel(s)), imageReadable)
  {
    var e, z := c.(style := EnglishLabel(s)), c.(style := ChineseLabel(s));
    assert StyleOf(e.style) == Some(s) == StyleOf(z.style);
    assert CrossArms(e) == CrossArms(z) && DotDisc(e) == DotDisc(z) && CircleRing(e) == CircleRing(z);
  }

  /** "Both" draws exactly the cross followed by the dot. */
  lemma BothIsCrossThenDot(c: Config, imageReadable: string -> bool)
    ensures Redraw(c.(style := "Both"), imageReadable)
         == Redraw(c.(style := "Cross"), imageReadable) + Redraw(c.(style := "Dot"), imageReadable)
  {
  }

  /** `set_position(x, y)`: the window's top-left corner, chosen so that the
      canvas centre lands on screen point (x, y), for every x and y. */
  function SetPosition(x: int, y: int): (tl: (int, int))
    ensures tl.0 + Cx == x && tl.1 + Cy == y
  {
    (x - Width / 2, y - Height / 2)
  }

  /** Every shape of a redraw, in screen coordinates, is centred on the point
      the window was placed at. */
  lemma ShapesCentredOnScreenPoint(c: Config, imageReadable: string -> bool, x: int, y: int)
    ensures var tl := SetPosition(x, y);
      forall s :: s in Redraw(c, imageReadable) && s.Line? ==>
        (tl.0 + s.x0) + (tl.0 + s.x1) == 2 * x && (tl.1 + s.y0) + (tl.1 + s.y1) == 2 * y
    ensures var tl := SetPosition(x, y);
      forall s :: s in Redraw(c, imageReadable) && (s.Disc? || s.Ring?) ==>
        (tl.0 + s.left) + (tl.0 + s.right) == 2 * x && (tl.1 + s.top) + (tl.1 + s.bottom) == 2 * y
    ensures var tl := SetPosition(x, y);
      forall s :: s in Redraw(c, imageReadable) && s.Picture? ==> tl.0 + s.x == x && tl.1 + s.y == y
  {
  }

  /** The default crosshair at (960, 540) on a 1920x1080 screen: a plus sign
      with 10-pixel arms around screen pixel (960, 540). */
  lemma DefaultCrossScenario(imageReadable: string -> bool)
    ensures Redraw(Config(20, 2, "#00FF00", 4, "十字", ""), imageReadable)
         == [Line(90, 100, 110, 100, "#00FF00", 2), Line(100, 90, 100, 110, "#00FF00", 2)]
    ensures SetPosition(1920 / 2, 1080 / 2) == (860, 440)
  {
  }

  /** `WS_EX_TRANSPARENT` and `WS_EX_LAYERED`. */
  const TransparentBit: bv32 := 0x0000_0020
  const LayeredBit: bv32 := 0x0008_0000
  const ClickThroughBits: bv32 := TransparentBit | LayeredBit

  /** The extended window style written back by `apply_click_through`. The
      signed LONG the OS returns is modelled by its 32 bits. */
  function ClickThrough(style: bv32): (r: bv32)
    ensures r & TransparentBit == TransparentBit
    ensures r & LayeredBit == LayeredBit
    ensures r & !ClickThroughBits == style & !ClickThroughBits
  {
    style | TransparentBit | LayeredBit
  }

  lemma ClickThroughIdempotent(style: bv32)
    ensures ClickThrough(ClickThrough(style)) == ClickThrough(style)
  {
  }

  /** A style that already has both bits is written back unchanged. */
  lemma ClickThroughKeepsClickThroughStyle(style: bv32)
    requires style & ClickThroughBits == ClickThroughBits
    ensures ClickThrough(style) == style
  {
  }
}
