/**
 * Where the anchors of a box side sit.  A side reads its box's corners,
 * except that each side overrides one coordinate so that it lies on its
 * own edge: a top side's y2 is the box's y1, a bottom side's y1 is the
 * box's y2, a left side's x2 is the box's x1 and a right side's x1 is the
 * box's x2.  Anchors are spread 20 apart, centred on the side's midpoint.
 */
module Placement {
  import opened Geometry
  import opened Taxonomy

  /** A box's top-left corner and size. */
  datatype Rect = Rect(x1: int, y1: int, width: int, height: int) {
    function X2(): int { x1 + width }
    function Y2(): int { y1 + height }
  }

  /** The four coordinates a side reports, with its own override applied. */
  datatype Span = Span(x1: int, y1: int, x2: int, y2: int)

  function SideSpan(dir: Direction, box: Rect): (s: Span)
  {
    match dir
    case Top => Span(box.x1, box.y1, box.X2(), box.y1)
    case Bottom => Span(box.x1, box.Y2(), box.X2(), box.Y2())
    case Left => Span(box.x1, box.y1, box.x1, box.Y2())
    case Right => Span(box.X2(), box.y1, box.X2(), box.Y2())
  }

  predicate IsHorizontal(dir: Direction)
  {
    dir == Top || dir == Bottom
  }

  /**
   * `anchor_point(n)` of a side holding `count` anchors: horizontal sides
   * place anchor n at x = x1 + width/2 - 20*(count-1)/2 + 20n on their y,
   * vertical sides likewise along y on their x.
   */
  function AnchorPoint(dir: Direction, box: Rect, count: int, n: int): (p: Point)
  {
    var s := SideSpan(dir, box);
    if IsHorizontal(dir) then
      var baseline := s.x1 + (s.x2 - s.x1) / 2 - 20 * (count - 1) / 2;
      Point(baseline + n * 20, s.y1)
    else
      var baseline := s.y1 + (s.y2 - s.y1) / 2 - 20 * (count - 1) / 2;
      Point(s.x1, baseline + n * 20)
  }

  /** The midpoint of a side along its own axis. */
  function Midpoint(dir: Direction, box: Rect): int
  {
    if IsHorizontal(dir) then box.x1 + box.width / 2 else box.y1 + box.height / 2
  }

  /** Each side keeps the box's extent along its own axis and lies on its own edge. */
  lemma SideSpanOnEdge(dir: Direction, box: Rect)
    ensures dir == Top ==> SideSpan(dir, box).y1 == SideSpan(dir, box).y2 == box.y1
    ensures dir == Bottom ==> SideSpan(dir, box).y1 == SideSpan(dir, box).y2 == box.Y2()
    ensures dir == Left ==> SideSpan(dir, box).x1 == SideSpan(dir, box).x2 == box.x1
    ensures dir == Right ==> SideSpan(dir, box).x1 == SideSpan(dir, box).x2 == box.X2()
    ensures IsHorizontal(dir) ==> SideSpan(dir, box).x2 - SideSpan(dir, box).x1 == box.width
    ensures !IsHorizontal(dir) ==> SideSpan(dir, box).y2 - SideSpan(dir, box).y1 == box.height
  {
  }

  /** Top anchors sit on the box's top edge, bottom anchors on its bottom, and so on. */
  lemma AnchorsOnTheirEdge(dir: Direction, box: Rect, count: int, n: int)
    ensures dir == Top ==> AnchorPoint(dir, box, count, n).y == box.y1
    ensures dir == Bottom ==> AnchorPoint(dir, box, count, n).y == box.y1 + box.height
    ensures dir == Left ==> AnchorPoint(dir, box, count, n).x == box.x1
    ensures dir == Right ==> AnchorPoint(dir, box, count, n).x == box.x1 + box.width
  {
  }

  /** Consecutive anchors are 20 apart along the side and level across it. */
  lemma AnchorSpacing(dir: Direction, box: Rect, count: int, n: int)
    ensures IsHorizontal(dir) ==>
      AnchorPoint(dir, box, count, n + 1).x == AnchorPoint(dir, box, count, n).x + 20 &&
      AnchorPoint(dir, box, count, n + 1).y == AnchorPoint(dir, box, count, n).y
    ensures !IsHorizontal(dir) ==>
      AnchorPoint(dir, box, count, n + 1).y == AnchorPoint(dir, box, count, n).y + 20 &&
      AnchorPoint(dir, box, count, n + 1).x == AnchorPoint(dir, box, count, n).x
  {
  }

  /**
   * The anchors are centred: anchor n and anchor count-1-n lie symmetrically
   * about the side's midpoint, and a single anchor sits on it.
   */
  lemma AnchorsCentred(dir: Direction, box: Rect, count: int, n: int)
    ensures IsHorizontal(dir) ==>
      AnchorPoint(dir, box, count, n).x + AnchorPoint(dir, box, count, count - 1 - n).x == 2 * Midpoint(dir, box)
    ensures !IsHorizontal(dir) ==>
      AnchorPoint(dir, box, count, n).y + AnchorPoint(dir, box, count, count - 1 - n).y == 2 * Midpoint(dir, box)
    ensures count == 1 ==>
      (if IsHorizontal(dir) then AnchorPoint(dir, box, 1, 0).x else AnchorPoint(dir, box, 1, 0).y) == Midpoint(dir, box)
  {
    assert 20 * (count - 1) / 2 == 10 * (count - 1);
  }
}
