/**
 * Points and text labels of the IDEF0 renderer.
 *
 * A Point is an immutable integer coordinate pair; a Label is a piece of
 * text drawn at a point, 7 drawing units per character and 20 units high,
 * aligned to the left, to the right or centred on its point.
 */
module Geometry {

  /** An immutable coordinate pair; translating builds a new point. */
  datatype Point = Point(x: int, y: int) {

    function Translate(dx: int, dy: int): (p: Point)
    {
      Point(x + dx, y + dy)
    }
  }

  /** The point every box starts at. */
  const Origin: Point := Point(0, 0)

  /** Translation moves each coordinate by its own offset. */
  lemma TranslateMoves(p: Point, dx: int, dy: int)
    ensures p.Translate(dx, dy).x == p.x + dx
    ensures p.Translate(dx, dy).y == p.y + dy
    ensures p.Translate(dx, dy).x - dx == p.x && p.Translate(dx, dy).y - dy == p.y
  {
  }

  /** Translating by (0, 0) gives an equal point. */
  lemma TranslateZero(p: Point)
    ensures p.Translate(0, 0) == p
  {
  }

  /** Two translations compose into one by the summed offsets. */
  lemma TranslateCompose(p: Point, a: int, b: int, c: int, d: int)
    ensures p.Translate(a, b).Translate(c, d) == p.Translate(a + c, b + d)
  {
  }

  lemma OriginIsZero()
    ensures Origin.x == 0 && Origin.y == 0
  {
  }

  /** Width of one character of label text, in drawing units. */
  const CharWidth: int := 7
  /** Height of every label, in drawing units. */
  const LabelHeight: int := 20

  datatype Alignment = LeftAligned | RightAligned | Centred

  /**
   * A label: its text, the point it is drawn at, and its alignment
   * (LeftAlignedLabel, RightAlignedLabel, CentredLabel).  The point is the
   * bottom of the text.
   */
  datatype Label = Label(text: string, point: Point, align: Alignment) {

    function Length(): int
    {
      |text| * CharWidth
    }

    function TopEdge(): int
    {
      point.y - LabelHeight
    }

    function BottomEdge(): int
    {
      point.y
    }

    function LeftEdge(): int
    {
      match align
      case LeftAligned => point.x
      case RightAligned => point.x - Length()
      case Centred => point.x - Length() / 2
    }

    function RightEdge(): int
    {
      LeftEdge() + Length()
    }

    /** Strict rectangle intersection: touching edges do not overlap. */
    predicate Overlapping(other: Label)
    {
      && LeftEdge() < other.RightEdge()
      && RightEdge() > other.LeftEdge()
      && TopEdge() < other.BottomEdge()
      && BottomEdge() > other.TopEdge()
    }
  }

  /** Every label is 20 high and 7 units wide per character, whatever its alignment. */
  lemma LabelExtent(l: Label)
    ensures l.Length() == 7 * |l.text| && l.Length() >= 0
    ensures l.BottomEdge() - l.TopEdge() == 20
    ensures l.RightEdge() - l.LeftEdge() == l.Length()
    ensures l.LeftEdge() <= l.RightEdge() && l.TopEdge() < l.BottomEdge()
  {
  }

  /** Where each alignment puts the text relative to its point. */
  lemma AlignmentAnchoring(l: Label)
    ensures l.align == LeftAligned ==> l.LeftEdge() == l.point.x
    ensures l.align == RightAligned ==> l.RightEdge() == l.point.x
    ensures l.align == Centred ==> l.LeftEdge() == l.point.x - (7 * |l.text|) / 2
    ensures l.align == Centred ==> l.LeftEdge() <= l.point.x <= l.RightEdge()
  {
  }

  lemma OverlappingSymmetric(a: Label, b: Label)
    ensures a.Overlapping(b) <==> b.Overlapping(a)
  {
  }

  /** A non-empty label overlaps itself; an empty one has no area and overlaps nothing. */
  lemma OverlappingSelf(a: Label)
    ensures a.Overlapping(a) <==> |a.text| > 0
  {
  }

  /** Labels that only share an edge (side by side, or stacked) do not overlap. */
  lemma SharedEdgeNoOverlap(a: Label, b: Label)
    requires a.RightEdge() == b.LeftEdge() || a.BottomEdge() == b.TopEdge()
    ensures !a.Overlapping(b) && !b.Overlapping(a)
  {
  }

  /** Labels whose baselines are 20 or more apart never overlap. */
  lemma VerticallySeparatedNoOverlap(a: Label, b: Label)
    requires a.point.y - b.point.y >= 20 || b.point.y - a.point.y >= 20
    ensures !a.Overlapping(b)
  {
  }

  /** Moving a label up by k units moves its rectangle up by k units. */
  lemma RaiseLabel(l: Label, k: int)
    ensures Label(l.text, l.point.Translate(0, -k), l.align).TopEdge() == l.TopEdge() - k
    ensures Label(l.text, l.point.Translate(0, -k), l.align).BottomEdge() == l.BottomEdge() - k
    ensures Label(l.text, l.point.Translate(0, -k), l.align).LeftEdge() == l.LeftEdge()
  {
  }
}
