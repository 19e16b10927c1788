/** The layout resolver: the three position switches of the preview's render
    effect, one per text role, each mapping a named anchor, the canvas size
    and the font size to a baseline point and a text alignment. */
module Layout {
  import opened Types
  import opened Canvas

  datatype Anchor = Anchor(x: real, y: real, align: Align)

  /** The margin kept from the canvas edges: 30 pixels, or 0.8 of the font
      size when that is larger. */
  function Padding(fontSize: int): (p: real)
    ensures p >= 30.0 && p >= 0.8 * fontSize as real
    ensures p == 30.0 || p == 0.8 * fontSize as real
  {
    if 0.8 * fontSize as real > 30.0 then 0.8 * fontSize as real else 30.0
  }

  function LineHeight(fontSize: int): real {
    1.2 * fontSize as real
  }

  /** The horizontal third and vertical band a named anchor lies in. */
  datatype Column = LeftColumn | CenterColumn | RightColumn
  datatype Band = TopBand | MiddleBand | BottomBand

  function ColumnOf(p: Position): Column {
    match p
    case TopLeft | BottomLeft => LeftColumn
    case Center => CenterColumn
    case TopRight | BottomRight => RightColumn
  }

  function BandOf(p: Position): Band {
    match p
    case TopLeft | TopRight => TopBand
    case Center => MiddleBand
    case BottomLeft | BottomRight => BottomBand
  }

  /** The one horizontal rule all three roles follow. */
  function ColumnX(col: Column, width: int, padding: real): real {
    match col
    case LeftColumn => padding
    case CenterColumn => width as real / 2.0
    case RightColumn => width as real - padding
  }

  function ColumnAlign(col: Column): Align {
    match col
    case LeftColumn => LeftAligned
    case CenterColumn => Centered
    case RightColumn => RightAligned
  }

  /** The editor's dimension sliders keep the width at least 800 and the
      font size at most 72; inside that range every anchor keeps at least
      the padding from both side edges. */
  predicate HorizontalRoom(width: int, fontSize: int) {
    width >= 800 && fontSize <= 72
  }

  /** Where the name is drawn. */
  function NameAnchor(pos: Position, width: int, height: int, fontSize: int): (a: Anchor)
    ensures a.x == ColumnX(ColumnOf(pos), width, Padding(fontSize))
    ensures a.align == ColumnAlign(ColumnOf(pos))
    ensures a.y == match BandOf(pos)
                   case TopBand => Padding(fontSize) + fontSize as real
                   case MiddleBand => height as real / 2.0
                   case BottomBand => height as real - Padding(fontSize) - fontSize as real
    ensures HorizontalRoom(width, fontSize) ==>
              Padding(fontSize) <= a.x <= width as real - Padding(fontSize)
    ensures 200 <= height && 16 <= fontSize <= 72 ==> 0.0 < a.y < height as real
  {
    var padding := Padding(fontSize);
    var w := width as real;
    var h := height as real;
    var fs := fontSize as real;
    match pos
    case TopLeft => Anchor(padding, padding + fs, LeftAligned)
    case TopRight => Anchor(w - padding, padding + fs, RightAligned)
    case Center => Anchor(w / 2.0, h / 2.0, Centered)
    case BottomLeft => Anchor(padding, h - padding - fs, LeftAligned)
    case BottomRight => Anchor(w - padding, h - padding - fs, RightAligned)
  }

  /** Where the first line of the info block is drawn. */
  function InfoAnchor(pos: Position, width: int, height: int, fontSize: int): (a: Anchor)
    ensures a.x == ColumnX(ColumnOf(pos), width, Padding(fontSize))
    ensures a.align == ColumnAlign(ColumnOf(pos))
    ensures a.y == match BandOf(pos)
                   case TopBand => Padding(fontSize) + 2.0 * fontSize as real
                   case MiddleBand => height as real / 2.0 + LineHeight(fontSize)
                   case BottomBand => height as real - Padding(fontSize) - 3.0 * fontSize as real
    ensures HorizontalRoom(width, fontSize) ==>
              Padding(fontSize) <= a.x <= width as real - Padding(fontSize)
  {
    var padding := Padding(fontSize);
    var w := width as real;
    var h := height as real;
    var fs := fontSize as real;
    match pos
    case TopLeft => Anchor(padding, padding + fs * 2.0, LeftAligned)
    case TopRight => Anchor(w - padding, padding + fs * 2.0, RightAligned)
    case Center => Anchor(w / 2.0, h / 2.0 + LineHeight(fontSize), Centered)
    case BottomLeft => Anchor(padding, h - padding - fs * 3.0, LeftAligned)
    case BottomRight => Anchor(w - padding, h - padding - fs * 3.0, RightAligned)
  }

  /** Where the first (lowest) contact line is drawn. */
  function ContactAnchor(pos: Position, width: int, height: int, fontSize: int): (a: Anchor)
    ensures a.x == ColumnX(ColumnOf(pos), width, Padding(fontSize))
    ensures a.align == ColumnAlign(ColumnOf(pos))
    ensures a.y == match BandOf(pos)
                   case TopBand => Padding(fontSize) + 4.0 * fontSize as real
                   case MiddleBand | BottomBand => height as real - Padding(fontSize)
    ensures HorizontalRoom(width, fontSize) ==>
              Padding(fontSize) <= a.x <= width as real - Padding(fontSize)
  {
    var padding := Padding(fontSize);
    var w := width as real;
    var h := height as real;
    var fs := fontSize as real;
    match pos
    case TopLeft => Anchor(padding, padding + fs * 4.0, LeftAligned)
    case TopRight => Anchor(w - padding, padding + fs * 4.0, RightAligned)
    case Center => Anchor(w / 2.0, h - padding, Centered)
    case BottomLeft => Anchor(padding, h - padding, LeftAligned)
    case BottomRight => Anchor(w - padding, h - padding, RightAligned)
  }

  /** "Center" is not one point: for the same anchor the name sits at
      mid-height and both the info block (one line height lower) and the
      contact block (on the bottom margin) sit below it. */
  lemma CenterDiffersPerRole(width: int, height: int, fontSize: int)
    requires 200 <= height && 16 <= fontSize <= 72
    ensures NameAnchor(Center, width, height, fontSize).y
            < InfoAnchor(Center, width, height, fontSize).y
    ensures NameAnchor(Center, width, height, fontSize).y
            < ContactAnchor(Center, width, height, fontSize).y
  {
  }

  /** Unlike the name, the info block can start above the canvas: at the
      smallest height and the largest font, a bottom info anchor has a
      negative baseline. */
  lemma InfoBottomCanLeaveCanvas()
    ensures InfoAnchor(BottomLeft, 800, 200, 72).y < 0.0
  {
  }
}
