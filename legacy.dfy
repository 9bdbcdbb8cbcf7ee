/**
 * The older single-file line taxonomy, where it differs from the one file
 * per kind taxonomy modelled in Taxonomy, Generation and Routing:
 *
 *  - a backward mechanism line is made only when the source comes after
 *    the target, so a box never feeds its own mechanism;
 *  - external guidance and mechanism lines start 40 clear of the box side
 *    they enter, start no further in than the diagram's own edge, and
 *    `avoid` widens that clearance by 20 at a time, so a guidance label
 *    moves up and a mechanism label moves down.
 *
 * The clearance groups (2 for every external line, whatever the side), the
 * empty anchor tuple of the external lines and the binding of only the
 * process-box anchor by an external `connect` read the same in both files.
 */
module LegacyLines {
  import opened Taxonomy
  import opened Geometry
  import opened Placement
  import opened Lines
  import opened Boxes
  import opened Sides
  import opened Generation
  import Routing

  /**
   * Whether a matching `make_line` yields anything: forward kinds need the
   * source before the target, backward kinds after it, external kinds
   * always.
   */
  predicate LegacyFires(k: Kind, sourceSeq: int, targetSeq: int)
  {
    match k
    case ForwardInput | ForwardGuidance | ForwardMechanism => sourceSeq < targetSeq
    case BackwardInput | BackwardGuidance | BackwardMechanism => sourceSeq > targetSeq
    case _ => true
  }

  /**
   * The older rule fires only where the newer one does, and misses exactly
   * the backward mechanism line from a box to itself.
   */
  lemma LegacyFiresVsCurrent(k: Kind, source: BoxRef, target: BoxRef, sourceSeq: int, targetSeq: int)
    ensures LegacyFires(k, sourceSeq, targetSeq) ==> Fires(k, source, target, sourceSeq, targetSeq)
    ensures Fires(k, source, target, sourceSeq, targetSeq) && !LegacyFires(k, sourceSeq, targetSeq) <==>
      k == BackwardMechanism && source == target && sourceSeq <= targetSeq
  {
  }

  /** `make_line` of the older file: the matching names between the kind's sides, if the boxes are in order. */
  method LegacyMakeLines(k: Kind, source: Box, target: Box, firstId: nat) returns (r: seq<LineSpec>)
    requires IsMatching(k) && source.Valid() && target.Valid()
    ensures !LegacyFires(k, source.sequence, target.sequence) ==> r == []
    ensures LegacyFires(k, source.sequence, target.sequence) ==>
      var names := Matching(NamesOf(SideOf(source, WalkedDir(k)).anchors), NamesOf(SideOf(target, ExpectingDir(k)).anchors));
      r == LinesFor(k, source.ref, target.ref, names, firstId)
  {
    r := [];
    if LegacyFires(k, source.sequence, target.sequence) {
      var names := MatchingNames(SideOf(source, WalkedDir(k)), SideOf(target, ExpectingDir(k)));
      r := LinesFor(k, source.ref, target.ref, names, firstId);
    }
  }

  /** Both a box's own backward mechanism and a line to an earlier box are refused unless the source is later. */
  lemma LegacySelfLoopRefused(k: Kind, n: int, m: int)
    requires k == BackwardMechanism
    ensures !LegacyFires(k, n, n) && Fires(k, Process("P"), Process("P"), n, n)
    ensures LegacyFires(k, n, m) <==> n > m
  {
  }

  // ---------------------------------------------------------------------
  // External guidance and mechanism lines

  /** The initial clearance of the older external guidance and mechanism lines. */
  const LegacyInitialClearance: int := 40

  /** The kinds that stretch towards the diagram edge and move their labels. */
  predicate Vertical(k: Kind)
  {
    k == ExternalGuidance || k == ExternalMechanism
  }

  /** The side an external guidance or mechanism line enters, whose clearance it keeps. */
  function EnteredSide(l: LineSpec): SideId
  {
    if l.kind == ExternalGuidance then TopOf(l.target) else BottomOf(l.target)
  }

  /**
   * `y1`: a guidance line starts at the diagram's top or `clearance` above
   * its anchor, whichever is higher; a mechanism line at the diagram's
   * bottom or `clearance` below its anchor, whichever is lower.
   */
  function LegacyY1(guidance: bool, diagram: Rect, anchor: Point, clearance: int): int
  {
    if guidance then Routing.Min(diagram.y1, anchor.y - clearance)
    else Routing.Max(diagram.Y2(), anchor.y + clearance)
  }

  /** The label: centred on the line, 15 below its start for guidance and 5 above it for a mechanism. */
  function LegacyLabel(guidance: bool, name: string, diagram: Rect, anchor: Point, clearance: int): Label
  {
    var y1 := LegacyY1(guidance, diagram, anchor, clearance);
    if guidance then Label(name, Point(anchor.x, y1 + 20 - 5), Centred)
    else Label(name, Point(anchor.x, y1 - 5), Centred)
  }

  /**
   * A guidance line starts at or above both the diagram top and the point
   * `clearance` above its anchor; a mechanism line at or below both the
   * diagram bottom and the point `clearance` below its anchor; and one of
   * the two is met exactly.
   */
  lemma LegacyY1Clamps(guidance: bool, diagram: Rect, anchor: Point, c: int)
    ensures guidance ==> var y := LegacyY1(guidance, diagram, anchor, c);
      y <= diagram.y1 && y <= anchor.y - c && (y == diagram.y1 || y == anchor.y - c)
    ensures !guidance ==> var y := LegacyY1(guidance, diagram, anchor, c);
      y >= diagram.Y2() && y >= anchor.y + c && (y == diagram.Y2() || y == anchor.y + c)
  {
  }

  /** The lowest bottom edge among the labels, a ceiling over any label they overlap (0 when there are none). */
  function LowestBottom(others: seq<Label>): (b: int)
    ensures forall o :: o in others ==> o.BottomEdge() <= b
  {
    if others == [] then 0
    else
      var rest := LowestBottom(others[1..]);
      assert forall o :: o in others ==> o == others[0] || o in others[1..];
      Routing.Max(others[0].BottomEdge(), rest)
  }

  /** A label that overlaps one of the others has its top above the ceiling they hang from. */
  lemma OverlapBelowCeiling(lab: Label, others: seq<Label>)
    requires Routing.AnyOverlap(lab, others)
    ensures lab.TopEdge() < LowestBottom(others)
  {
  }

  /**
   * The loop of `avoid`: while the label overlaps the label of any other
   * line, the clearance grows by 20.  The result is the first clearance,
   * among the given one and those 20, 40, ... above it, at which the label
   * overlaps none of the others.  The loop ends because a guidance label
   * rises above the highest of the other labels and a mechanism label
   * sinks below the lowest.
   */
  method RaiseClearance(guidance: bool, name: string, diagram: Rect, anchor: Point, others: seq<Label>, c: int)
    returns (r: int)
    ensures !Routing.AnyOverlap(LegacyLabel(guidance, name, diagram, anchor, r), others)
    ensures r >= c && (r - c) % 20 == 0
    ensures forall d :: c <= d < r && (d - c) % 20 == 0 ==>
      Routing.AnyOverlap(LegacyLabel(guidance, name, diagram, anchor, d), others)
  {
    r := c;
    while Routing.AnyOverlap(LegacyLabel(guidance, name, diagram, anchor, r), others)
      invariant r >= c && (r - c) % 20 == 0
      invariant forall d :: c <= d < r && (d - c) % 20 == 0 ==>
        Routing.AnyOverlap(LegacyLabel(guidance, name, diagram, anchor, d), others)
      decreases if guidance
        then anchor.y + 15 - Routing.HighestTop(others) - r
        else LowestBottom(others) - anchor.y + 25 - r
    {
      if guidance {
        Routing.OverlapAboveFloor(LegacyLabel(guidance, name, diagram, anchor, r), others);
      } else {
        OverlapBelowCeiling(LegacyLabel(guidance, name, diagram, anchor, r), others);
      }
      r := r + 20;
    }
  }

  /** An external guidance or mechanism line of the older file, with its clearance map. */
  class LegacyLine {
    const spec: LineSpec
    var clearance: map<SideId, int>

    /** `initialize`: the line starts 40 clear of the side it enters. */
    constructor (spec: LineSpec)
      requires Vertical(spec.kind)
      ensures this.spec == spec && clearance == map[EnteredSide(spec) := LegacyInitialClearance]
    {
      this.spec := spec;
      clearance := map[EnteredSide(spec) := LegacyInitialClearance];
    }

    function LabelAt(diagram: Rect, anchor: Point): Geometry.Label
      reads this
    {
      LegacyLabel(spec.kind == ExternalGuidance, spec.name, diagram, anchor, ClearanceIn(clearance, EnteredSide(spec)))
    }

    /**
     * `avoid(lines)`: the clearance of the entered side grows by 20 until
     * the label overlaps the label of no other line.  Only that clearance
     * changes, by a non-negative multiple of 20, and by no more than needed.
     */
    method Avoid(diagram: Rect, anchor: Point, others: seq<Geometry.Label>)
      modifies this`clearance
      ensures !Routing.AnyOverlap(LabelAt(diagram, anchor), others)
      ensures forall s :: s != EnteredSide(spec) ==> ClearanceIn(clearance, s) == ClearanceIn(old(clearance), s)
      ensures var grown := ClearanceIn(clearance, EnteredSide(spec)) - ClearanceIn(old(clearance), EnteredSide(spec));
        grown >= 0 && grown % 20 == 0
    {
      var side := EnteredSide(spec);
      var r := RaiseClearance(spec.kind == ExternalGuidance, spec.name, diagram, anchor, others, ClearanceIn(clearance, side));
      clearance := clearance[side := r];
    }
  }
}
