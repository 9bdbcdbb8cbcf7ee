/**
 * Where each kind of line runs: its end points (`x1`, `y1`, `x2`, `y2`),
 * the single vertical and horizontal segments of the internal kinds
 * (`x_vertical`, `y_horizontal`), its bounding edges and its label.  They
 * are read from the line's boxes, the points of the anchors it is bound
 * to and its clearance map.
 *
 * The external guidance and mechanism lines also move themselves: before
 * the final shift they are stretched to the diagram's bounds, and then
 * their labels are pushed away from the labels of the other lines.
 */
module Routing {
  import opened Taxonomy
  import opened Geometry
  import opened Placement
  import opened Lines

  /**
   * The boxes a line runs between and the points of its bound anchors.  A
   * kind that binds no source (or no target) anchor never reads that point.
   */
  datatype Ends = Ends(source: Rect, target: Rect, sourceAnchor: Point, targetAnchor: Point)

  function Min(a: int, b: int): int { if a < b then a else b }
  function Max(a: int, b: int): int { if a < b then b else a }

  /** `minimum_length`: 10 more than the label's length, 7 per character of the name. */
  function MinimumLength(name: string): int
  {
    10 + CharWidth * |name|
  }

  function X1(l: LineSpec, e: Ends, c: map<SideId, int>): int
  {
    match Behaviour(l.kind)
    case ExternalInput => Min(e.source.x1, e.targetAnchor.x - MinimumLength(l.name))
    case ExternalGuidance | ExternalMechanism => e.targetAnchor.x
    case _ => e.sourceAnchor.x
  }

  function Y1(l: LineSpec, e: Ends, c: map<SideId, int>): int
  {
    match Behaviour(l.kind)
    case ExternalInput => e.targetAnchor.y
    case ExternalGuidance => e.targetAnchor.y - ClearanceIn(c, TopOf(l.target))
    case ExternalMechanism => e.targetAnchor.y + ClearanceIn(c, BottomOf(l.target))
    case _ => e.sourceAnchor.y
  }

  function X2(l: LineSpec, e: Ends, c: map<SideId, int>): int
  {
    match Behaviour(l.kind)
    case ExternalOutput => Max(X1(l, e, c) + MinimumLength(l.name), e.target.X2())
    case ExternalGuidance | ExternalMechanism => X1(l, e, c)
    case _ => e.targetAnchor.x
  }

  function Y2(l: LineSpec, e: Ends, c: map<SideId, int>): int
  {
    match Behaviour(l.kind)
    case ExternalInput | ExternalOutput => Y1(l, e, c)
    case _ => e.targetAnchor.y
  }

  /** The kinds that run through one vertical segment set off from their source's right side. */
  predicate HasVertical(k: Kind)
  {
    k in {ForwardInput, ForwardMechanism, BackwardInput, BackwardGuidance, BackwardMechanism}
  }

  /** The kinds that run through one horizontal segment above or below a box. */
  predicate HasHorizontal(k: Kind)
  {
    k in {ForwardMechanism, BackwardInput, BackwardGuidance, BackwardMechanism}
  }

  /** `x_vertical`: as far right of the start as the line's clearance from its source's right side. */
  function XVertical(l: LineSpec, e: Ends, c: map<SideId, int>): int
    requires HasVertical(l.kind)
  {
    X1(l, e, c) + ClearanceIn(c, RightOf(l.source))
  }

  /**
   * `y_horizontal`: below the target's bottom side (forward mechanism),
   * below the source box (backward input and mechanism), or above the
   * target's top side (backward guidance), by the line's clearance there.
   */
  function YHorizontal(l: LineSpec, e: Ends, c: map<SideId, int>): int
    requires HasHorizontal(l.kind)
  {
    match l.kind
    case ForwardMechanism => Y2(l, e, c) + ClearanceIn(c, BottomOf(l.target))
    case BackwardGuidance => Y2(l, e, c) - ClearanceIn(c, TopOf(l.target))
    case _ => e.source.Y2() + ClearanceIn(c, BottomOf(l.source))
  }

  /** `label` of each kind. */
  function LabelOf(l: LineSpec, e: Ends, c: map<SideId, int>): Label
  {
    match Behaviour(l.kind)
    case ForwardMechanism => Label(l.name, Point(XVertical(l, e, c) + 10, YHorizontal(l, e, c) - 5), LeftAligned)
    case BackwardInput => Label(l.name, Point(X2(l, e, c) + 10, YHorizontal(l, e, c) - 5), LeftAligned)
    case BackwardGuidance => Label(l.name, Point(XVertical(l, e, c) - 10, YHorizontal(l, e, c) - 5 + 20), RightAligned)
    case BackwardMechanism => Label(l.name, Point(XVertical(l, e, c) - 10, YHorizontal(l, e, c) - 5), RightAligned)
    case ExternalInput => Label(l.name, Point(e.source.x1 + 5, Y1(l, e, c) - 5), LeftAligned)
    case ExternalOutput => Label(l.name, Point(e.target.X2() - 5, Y2(l, e, c) - 5), RightAligned)
    case ExternalGuidance => Label(l.name, Point(X1(l, e, c), Y1(l, e, c) + 20 - 5), Centred)
    case ExternalMechanism => Label(l.name, Point(X1(l, e, c), Y1(l, e, c) - 5), Centred)
    case _ => Label(l.name, Point(e.sourceAnchor.x + 5, e.sourceAnchor.y - 5), LeftAligned)
  }

  function LeftEdge(l: LineSpec, e: Ends, c: map<SideId, int>): int
  {
    if Behaviour(l.kind) == ExternalMechanism then LabelOf(l, e, c).LeftEdge()
    else Min(X1(l, e, c), X2(l, e, c))
  }

  function RightEdge(l: LineSpec, e: Ends, c: map<SideId, int>): int
  {
    match Behaviour(l.kind)
    case BackwardGuidance | BackwardMechanism => XVertical(l, e, c)
    case ExternalMechanism => LabelOf(l, e, c).RightEdge()
    case _ => Max(X1(l, e, c), X2(l, e, c))
  }

  function TopEdge(l: LineSpec, e: Ends, c: map<SideId, int>): int
  {
    if l.kind == BackwardGuidance then YHorizontal(l, e, c) else Min(Y1(l, e, c), Y2(l, e, c))
  }

  function BottomEdge(l: LineSpec, e: Ends, c: map<SideId, int>): int
  {
    if l.kind in {ForwardMechanism, BackwardMechanism} then YHorizontal(l, e, c) else Max(Y1(l, e, c), Y2(l, e, c))
  }

  ghost predicate NonNegative(c: map<SideId, int>)
  {
    forall s :: s in c ==> c[s] >= 0
  }

  // ---------------------------------------------------------------------
  // Properties of the routes

  /** The minimum length is 10 more than the length of whatever label the line draws. */
  lemma MinimumLengthIsLabelPlusTen(l: LineSpec, e: Ends, c: map<SideId, int>)
    ensures MinimumLength(l.name) == 10 + LabelOf(l, e, c).Length()
    ensures MinimumLength(l.name) >= 10
  {
  }

  /**
   * With no clearance written the segments sit on the line's ends; any
   * clearance sets the vertical segment that far right of the start, the
   * horizontal one that far below the target's bottom (forward mechanism),
   * below the source box (backward input, mechanism) or above the target
   * anchor (backward guidance).
   */
  lemma SegmentsFollowClearance(l: LineSpec, e: Ends, c: map<SideId, int>)
    ensures HasVertical(l.kind) ==> XVertical(l, e, c) == e.sourceAnchor.x + ClearanceIn(c, RightOf(l.source))
    ensures HasVertical(l.kind) ==> XVertical(l, e, map[]) == X1(l, e, map[])
    ensures l.kind == ForwardMechanism ==> YHorizontal(l, e, c) == e.targetAnchor.y + ClearanceIn(c, BottomOf(l.target))
    ensures l.kind == BackwardGuidance ==> YHorizontal(l, e, c) == e.targetAnchor.y - ClearanceIn(c, TopOf(l.target))
    ensures l.kind in {BackwardInput, BackwardMechanism} ==> YHorizontal(l, e, c) == e.source.Y2() + ClearanceIn(c, BottomOf(l.source))
  {
  }

  /**
   * With non-negative clearances a forward mechanism's horizontal segment
   * is at or below its target anchor and a backward guidance's at or above
   * it, and the vertical segments are at or right of the start.
   */
  lemma SegmentsClearTheirSides(l: LineSpec, e: Ends, c: map<SideId, int>)
    requires NonNegative(c)
    ensures HasVertical(l.kind) ==> XVertical(l, e, c) >= X1(l, e, c)
    ensures l.kind == ForwardMechanism ==> YHorizontal(l, e, c) >= Y2(l, e, c)
    ensures l.kind == BackwardGuidance ==> YHorizontal(l, e, c) <= Y2(l, e, c)
    ensures l.kind in {BackwardInput, BackwardMechanism} ==> YHorizontal(l, e, c) >= e.source.Y2()
  {
  }

  /**
   * The edges bound the line: left at most right and top at most bottom,
   * given non-negative clearances and a source anchor no lower than the
   * source box's bottom (the anchors of a box's right side lie on it).
   */
  lemma EdgesOrdered(l: LineSpec, e: Ends, c: map<SideId, int>)
    requires NonNegative(c)
    requires e.sourceAnchor.y <= e.source.Y2()
    ensures LeftEdge(l, e, c) <= RightEdge(l, e, c)
    ensures TopEdge(l, e, c) <= BottomEdge(l, e, c)
  {
    LabelExtent(LabelOf(l, e, c));
  }

  /** The external input line: horizontal at its target anchor, at least the minimum length, starting at or left of the diagram. */
  lemma ExternalInputRoute(l: LineSpec, e: Ends, c: map<SideId, int>)
    requires Behaviour(l.kind) == ExternalInput
    ensures Y1(l, e, c) == Y2(l, e, c) == e.targetAnchor.y
    ensures X2(l, e, c) - X1(l, e, c) >= MinimumLength(l.name)
    ensures X1(l, e, c) <= e.source.x1
    ensures X1(l, e, c) == e.source.x1 || X1(l, e, c) == X2(l, e, c) - MinimumLength(l.name)
    ensures LabelOf(l, e, c) == Label(l.name, Point(e.source.x1 + 5, e.targetAnchor.y - 5), LeftAligned)
  {
  }

  /** The external output line: horizontal, at least the minimum length, reaching the diagram's right edge. */
  lemma ExternalOutputRoute(l: LineSpec, e: Ends, c: map<SideId, int>)
    requires Behaviour(l.kind) == ExternalOutput
    ensures Y1(l, e, c) == Y2(l, e, c) == e.sourceAnchor.y
    ensures X2(l, e, c) - X1(l, e, c) >= MinimumLength(l.name)
    ensures X2(l, e, c) >= e.target.X2()
    ensures X2(l, e, c) == e.target.X2() || X2(l, e, c) == X1(l, e, c) + MinimumLength(l.name)
    ensures LabelOf(l, e, c).RightEdge() == e.target.X2() - 5
  {
  }

  /** The external guidance and mechanism lines are vertical, set off from their target anchor by the clearance. */
  lemma ExternalVerticalRoutes(l: LineSpec, e: Ends, c: map<SideId, int>)
    requires Behaviour(l.kind) in {ExternalGuidance, ExternalMechanism}
    ensures X1(l, e, c) == X2(l, e, c) == e.targetAnchor.x
    ensures Behaviour(l.kind) == ExternalGuidance ==> Y1(l, e, c) == Y2(l, e, c) - ClearanceIn(c, TopOf(l.target))
    ensures Behaviour(l.kind) == ExternalMechanism ==> Y1(l, e, c) == Y2(l, e, c) + ClearanceIn(c, BottomOf(l.target))
    ensures Behaviour(l.kind) == ExternalMechanism ==>
      LeftEdge(l, e, c) == LabelOf(l, e, c).LeftEdge() && RightEdge(l, e, c) == LabelOf(l, e, c).RightEdge()
  {
  }

  /** A line that binds no source anchor draws the same whatever that unread point is, and likewise for the target. */
  lemma UnboundAnchorsUnread(l: LineSpec, e: Ends, c: map<SideId, int>, p: Point)
    ensures SourceAnchorSide(l).None? ==>
      var f := Ends(e.source, e.target, p, e.targetAnchor);
      X1(l, e, c) == X1(l, f, c) && Y1(l, e, c) == Y1(l, f, c) && X2(l, e, c) == X2(l, f, c) && Y2(l, e, c) == Y2(l, f, c)
      && LabelOf(l, e, c) == LabelOf(l, f, c)
    ensures TargetAnchorSide(l).None? ==>
      var f := Ends(e.source, e.target, e.sourceAnchor, p);
      X1(l, e, c) == X1(l, f, c) && Y1(l, e, c) == Y1(l, f, c) && X2(l, e, c) == X2(l, f, c) && Y2(l, e, c) == Y2(l, f, c)
      && LabelOf(l, e, c) == LabelOf(l, f, c)
  {
  }

  // ---------------------------------------------------------------------
  // Stretching to the diagram, and avoiding other labels

  /**
   * `bounding_box(p1, p2)`: an external guidance line sets its clearance so
   * that it starts 40 above the diagram's top-left corner p1; every other
   * line ignores the call.
   */
  method BoundingBox(line: Line, e: Ends, p1: Point, p2: Point)
    modifies line`clearance
    ensures Behaviour(line.spec.kind) == ExternalGuidance ==> Y1(line.spec, e, line.clearance) == p1.y - 40
    ensures Behaviour(line.spec.kind) == ExternalGuidance ==>
      line.clearance == old(line.clearance)[TopOf(line.spec.target) := ClearanceIn(line.clearance, TopOf(line.spec.target))]
    ensures Behaviour(line.spec.kind) != ExternalGuidance ==> line.clearance == old(line.clearance)
  {
    if Behaviour(line.spec.kind) == ExternalGuidance {
      var side := TopOf(line.spec.target);
      line.Clear(side, Y1(line.spec, e, line.clearance) - p1.y + 40 + line.ClearanceFrom(side));
    }
  }

  /**
   * `bounds(b)`: an external mechanism line adds to its clearance so that
   * it starts 40 below the bottom of b; every other line ignores the call.
   */
  method Bounds(line: Line, e: Ends, b: Rect)
    modifies line`clearance
    ensures Behaviour(line.spec.kind) == ExternalMechanism ==> Y1(line.spec, e, line.clearance) == b.Y2() + 40
    ensures Behaviour(line.spec.kind) == ExternalMechanism ==>
      line.clearance == old(line.clearance)[BottomOf(line.spec.target) := ClearanceIn(line.clearance, BottomOf(line.spec.target))]
    ensures Behaviour(line.spec.kind) != ExternalMechanism ==> line.clearance == old(line.clearance)
  {
    if Behaviour(line.spec.kind) == ExternalMechanism {
      line.AddClearanceFrom(BottomOf(line.spec.target), b.Y2() - Y1(line.spec, e, line.clearance) + 40);
    }
  }

  /** The two clearance maps read the same on every side but one. */
  ghost predicate SameElsewhere(before: map<SideId, int>, after: map<SideId, int>, side: SideId)
  {
    forall s :: s != side ==> ClearanceIn(after, s) == ClearanceIn(before, s)
  }

  /** Whether a label overlaps any of the given ones. */
  predicate AnyOverlap(lab: Label, others: seq<Label>)
  {
    exists o :: o in others && lab.Overlapping(o)
  }

  /** The highest top edge among the labels, a floor under any label they overlap (0 when there are none). */
  function HighestTop(others: seq<Label>): (t: int)
    ensures forall o :: o in others ==> t <= o.TopEdge()
  {
    if others == [] then 0
    else
      var rest := HighestTop(others[1..]);
      assert forall o :: o in others ==> o == others[0] || o in others[1..];
      Min(others[0].TopEdge(), rest)
  }

  /** A label that overlaps one of the others has its bottom below the floor they sit on. */
  lemma OverlapAboveFloor(lab: Label, others: seq<Label>)
    requires AnyOverlap(lab, others)
    ensures lab.BottomEdge() > HighestTop(others)
  {
  }

  /** The side whose clearance `avoid` changes, if the kind moves at all. */
  predicate Avoids(k: Kind)
  {
    Behaviour(k) in {ExternalGuidance, ExternalMechanism}
  }

  function AvoidSide(l: LineSpec): SideId
  {
    if Behaviour(l.kind) == ExternalGuidance then TopOf(l.target) else BottomOf(l.target)
  }

  /**
   * `avoid(lines)`: while its label overlaps the label of any other line,
   * an external guidance line raises its clearance by 20 and an external
   * mechanism line lowers it by 20; either way the label moves 20 up.
   * Only the one clearance changes, by a multiple of 20, and on return the
   * label overlaps none of the others.  Other kinds do nothing.  The loop
   * ends because the label rises past the highest of the other labels.
   */
  method Avoid(line: Line, e: Ends, others: seq<Label>)
    modifies line`clearance
    ensures !Avoids(line.spec.kind) ==> line.clearance == old(line.clearance)
    ensures Avoids(line.spec.kind) ==> !AnyOverlap(LabelOf(line.spec, e, line.clearance), others)
    ensures Avoids(line.spec.kind) ==>
      SameElsewhere(old(line.clearance), line.clearance, AvoidSide(line.spec))
    ensures Behaviour(line.spec.kind) == ExternalGuidance ==>
      ClearanceIn(line.clearance, AvoidSide(line.spec)) >= ClearanceIn(old(line.clearance), AvoidSide(line.spec))
    ensures Behaviour(line.spec.kind) == ExternalMechanism ==>
      ClearanceIn(line.clearance, AvoidSide(line.spec)) <= ClearanceIn(old(line.clearance), AvoidSide(line.spec))
    ensures (ClearanceIn(line.clearance, AvoidSide(line.spec)) - ClearanceIn(old(line.clearance), AvoidSide(line.spec))) % 20 == 0
  {
    if !Avoids(line.spec.kind) {
      return;
    }
    var side := AvoidSide(line.spec);
    var step := if Behaviour(line.spec.kind) == ExternalGuidance then 20 else -20;
    while AnyOverlap(LabelOf(line.spec, e, line.clearance), others)
      invariant SameElsewhere(old(line.clearance), line.clearance, side)
      invariant step == 20 ==> ClearanceIn(line.clearance, side) >= ClearanceIn(old(line.clearance), side)
      invariant step == -20 ==> ClearanceIn(line.clearance, side) <= ClearanceIn(old(line.clearance), side)
      invariant (ClearanceIn(line.clearance, side) - ClearanceIn(old(line.clearance), side)) % 20 == 0
      decreases LabelOf(line.spec, e, line.clearance).BottomEdge() - HighestTop(others)
    {
      OverlapAboveFloor(LabelOf(line.spec, e, line.clearance), others);
      if step == 20 {
        line.Clear(side, 20 + line.ClearanceFrom(side));
      } else {
        line.AddClearanceFrom(side, -20);
      }
    }
  }
}
