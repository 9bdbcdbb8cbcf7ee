/**
 * The diagram of the prototype renderer (spike.rb, `Diagram`): its child
 * boxes, get-or-created by name; its lines, made by `connect`; and
 * `layout`, which gives each line its lanes box by box while placing the
 * boxes on a staircase, moves the external guidance and mechanism labels
 * apart, shifts the boxes so that no line starts left of or above the
 * origin, and sizes the diagram to what it draws.
 */
module SpikeDiagram {
  import opened Wrappers
  import opened Geometry
  import opened SpikeBoxes
  import opened SpikeConnect
  import opened SpikeLayout
  import Placement
  import Order
  import Routing
  import Diagrams
  import LegacyLines
  import ArraySets

  // ---------------------------------------------------------------------
  // What a line's geometry reads

  /** The frame's rectangle, and each box's declarations and corner. */
  datatype Scene = Scene(frame: Placement.Rect, boxes: seq<Concepts>, corners: seq<Point>)

  /** The rectangle of a line's end: the frame's, or the box's. */
  function RectAt(s: Scene, e: End): Placement.Rect
  {
    match e
    case Frame => s.frame
    case Child(i) => if i < |s.boxes| && i < |s.corners| then BoxRect(s.corners[i], s.boxes[i]) else s.frame
  }

  /**
   * The anchor of a name on a line's end.  The frame hands out no anchors
   * (no external line reads one there), and Ruby raises for a name a box
   * does not declare; `connect` never makes such a line, so the origin put
   * in those places is never read.
   */
  function AnchorAt(s: Scene, e: End, role: Role, name: string): Point
  {
    match e
    case Frame => Origin
    case Child(i) =>
      if i < |s.boxes| && i < |s.corners| then
        match AnchorFor(s.corners[i], s.boxes[i], role, name)
        case Some(a) => a.point
        case None => Origin
      else Origin
  }

  /** `source`, `target`, `source_anchor` and `target_anchor` of a line. */
  function EndsOf(c: Connection, s: Scene): Routing.Ends
  {
    Routing.Ends(RectAt(s, c.source), RectAt(s, c.target),
                 AnchorAt(s, c.source, Output, c.name), AnchorAt(s, c.target, TargetRole(c.kind), c.name))
  }

  /**
   * For a line `connect` makes, the ends are its boxes' rectangles (or the
   * frame) and their anchors for its name: the output anchor at a box
   * source, and at a box target the anchor of the role the target declares
   * the name in.
   */
  lemma EndsOfAdmissible(frame: Concepts, s: Scene, c: Connection)
    requires Admissible(frame, s.boxes, c) && |s.corners| == |s.boxes|
    ensures var e := EndsOf(c, s);
      && (c.source.Child? ==>
            e.source == BoxRect(s.corners[c.source.index], s.boxes[c.source.index])
            && AnchorFor(s.corners[c.source.index], s.boxes[c.source.index], Output, c.name).Some?
            && e.sourceAnchor == AnchorFor(s.corners[c.source.index], s.boxes[c.source.index], Output, c.name).value.point)
      && (c.target.Child? ==>
            e.target == BoxRect(s.corners[c.target.index], s.boxes[c.target.index])
            && AnchorFor(s.corners[c.target.index], s.boxes[c.target.index], TargetRole(c.kind), c.name).Some?
            && e.targetAnchor == AnchorFor(s.corners[c.target.index], s.boxes[c.target.index], TargetRole(c.kind), c.name).value.point)
      && (c.source == Frame ==> e.source == s.frame)
      && (c.target == Frame ==> e.target == s.frame)
  {
  }

  /**
   * The edges of every line `connect` makes enclose it, whatever the
   * (non-negative) clearances: a backward mechanism line starts at an
   * output anchor, which lies on its box.
   */
  lemma LineEdgesOrdered(frame: Concepts, s: Scene, c: Connection, m: map<Side, int>)
    requires Admissible(frame, s.boxes, c) && |s.corners| == |s.boxes| && Distances(m)
    ensures LeftEdge(c, EndsOf(c, s), m) <= RightEdge(c, EndsOf(c, s), m)
    ensures TopEdge(c, EndsOf(c, s), m) <= BottomEdge(c, EndsOf(c, s), m)
  {
    if c.kind == BackwardMechanism {
      var i := c.source.index;
      SideAnchorsInside(s.corners[i], s.boxes[i], Output, c.name);
    }
    EdgesOrdered(c, EndsOf(c, s), m);
  }

  /** The labels of the lines, each read from its own ends and clearances. */
  function LabelsOf(cs: seq<Connection>, ms: seq<map<Side, int>>, s: Scene): (r: seq<Label>)
    requires |ms| == |cs|
    ensures |r| == |cs| && forall k :: 0 <= k < |cs| ==> r[k] == LabelOf(cs[k], EndsOf(cs[k], s), ms[k])
  {
    seq(|cs|, k requires 0 <= k < |cs| => LabelOf(cs[k], EndsOf(cs[k], s), ms[k]))
  }

  function LeftEdges(cs: seq<Connection>, ms: seq<map<Side, int>>, s: Scene): (r: seq<int>)
    requires |ms| == |cs|
    ensures |r| == |cs| && forall k :: 0 <= k < |cs| ==> r[k] == LeftEdge(cs[k], EndsOf(cs[k], s), ms[k])
  {
    seq(|cs|, k requires 0 <= k < |cs| => LeftEdge(cs[k], EndsOf(cs[k], s), ms[k]))
  }

  function TopEdges(cs: seq<Connection>, ms: seq<map<Side, int>>, s: Scene): (r: seq<int>)
    requires |ms| == |cs|
    ensures |r| == |cs| && forall k :: 0 <= k < |cs| ==> r[k] == TopEdge(cs[k], EndsOf(cs[k], s), ms[k])
  {
    seq(|cs|, k requires 0 <= k < |cs| => TopEdge(cs[k], EndsOf(cs[k], s), ms[k]))
  }

  function RightEdges(cs: seq<Connection>, ms: seq<map<Side, int>>, s: Scene): (r: seq<int>)
    requires |ms| == |cs|
    ensures |r| == |cs| && forall k :: 0 <= k < |cs| ==> r[k] == RightEdge(cs[k], EndsOf(cs[k], s), ms[k])
  {
    seq(|cs|, k requires 0 <= k < |cs| => RightEdge(cs[k], EndsOf(cs[k], s), ms[k]))
  }

  function BottomEdges(cs: seq<Connection>, ms: seq<map<Side, int>>, s: Scene): (r: seq<int>)
    requires |ms| == |cs|
    ensures |r| == |cs| && forall k :: 0 <= k < |cs| ==> r[k] == BottomEdge(cs[k], EndsOf(cs[k], s), ms[k])
  {
    seq(|cs|, k requires 0 <= k < |cs| => BottomEdge(cs[k], EndsOf(cs[k], s), ms[k]))
  }

  /** The right edges of the boxes: 180 right of each corner. */
  function BoxRights(s: Scene): (r: seq<int>)
    requires |s.corners| == |s.boxes|
    ensures |r| == |s.boxes| && forall i :: 0 <= i < |s.boxes| ==> r[i] == BoxRect(s.corners[i], s.boxes[i]).X2()
  {
    seq(|s.boxes|, i requires 0 <= i < |s.boxes| => BoxRect(s.corners[i], s.boxes[i]).X2())
  }

  /** The bottom edges of the boxes: each box's height below its corner. */
  function BoxBottoms(s: Scene): (r: seq<int>)
    requires |s.corners| == |s.boxes|
    ensures |r| == |s.boxes| && forall i :: 0 <= i < |s.boxes| ==> r[i] == BoxRect(s.corners[i], s.boxes[i]).Y2()
  {
    seq(|s.boxes|, i requires 0 <= i < |s.boxes| => BoxRect(s.corners[i], s.boxes[i]).Y2())
  }

  // ---------------------------------------------------------------------
  // Lanes of a whole diagram

  function KeyOf(c: Connection, side: Side, boxes: seq<Concepts>): seq<int>
  {
    match Precedence(c, side, boxes)
    case Some(k) => k
    case None => []
  }

  /** The sort keys of the lines at the given positions. */
  function KeysOf(cs: seq<Connection>, sel: seq<nat>, side: Side, boxes: seq<Concepts>): (r: seq<seq<int>>)
    requires forall q :: 0 <= q < |sel| ==> sel[q] < |cs|
    ensures |r| == |sel| && forall q :: 0 <= q < |sel| ==> r[q] == KeyOf(cs[sel[q]], side, boxes)
  {
    seq(|sel|, q requires 0 <= q < |sel| && sel[q] < |cs| => KeyOf(cs[sel[q]], side, boxes))
  }

  /** The clearances the lines at the given positions hold from the side. */
  function LanesOf(ms: seq<map<Side, int>>, sel: seq<nat>, side: Side): (r: seq<int>)
    requires forall q :: 0 <= q < |sel| ==> sel[q] < |ms|
    ensures |r| == |sel| && forall q :: 0 <= q < |sel| ==> r[q] == Cleared(ms[sel[q]], side)
  {
    seq(|sel|, q requires 0 <= q < |sel| && sel[q] < |ms| => Cleared(ms[sel[q]], side))
  }

  /**
   * The lines of one group of a side hold from it the lanes 20, 40, ...,
   * one each, a line with a smaller key nearer the side.
   */
  ghost predicate GroupLaned(cs: seq<Connection>, ms: seq<map<Side, int>>, boxes: seq<Concepts>, side: Side, f: Filter)
  {
    |ms| == |cs| &&
    var sel := Selected(cs, side, f);
    IsLaneAssignment(LanesOf(ms, sel, side), KeysOf(cs, sel, side, boxes))
  }

  lemma GroupLanedBy(cs: seq<Connection>, ms: seq<map<Side, int>>, boxes: seq<Concepts>, side: Side, f: Filter, lanes: seq<int>)
    requires |ms| == |cs|
    requires IsLaneAssignment(lanes, KeysOf(cs, Selected(cs, side, f), side, boxes))
    requires LanesOf(ms, Selected(cs, side, f), side) == lanes
    ensures GroupLaned(cs, ms, boxes, side, f)
  {
  }

  /** All four groups of box i are laned: its top side, the upward and downward lines of its right side, its bottom side. */
  ghost predicate BoxLaned(cs: seq<Connection>, ms: seq<map<Side, int>>, boxes: seq<Concepts>, i: nat)
  {
    && GroupLaned(cs, ms, boxes, TopOf(Child(i)), All)
    && GroupLaned(cs, ms, boxes, RightOf(Child(i)), Up)
    && GroupLaned(cs, ms, boxes, RightOf(Child(i)), Down)
    && GroupLaned(cs, ms, boxes, BottomOf(Child(i)), All)
  }

  /** A group stays laned while its lines keep their clearance from its side. */
  lemma GroupLanedFrame(cs: seq<Connection>, ms: seq<map<Side, int>>, ms': seq<map<Side, int>>, boxes: seq<Concepts>, side: Side, f: Filter)
    requires |ms| == |cs| == |ms'|
    requires forall k :: 0 <= k < |cs| && InGroup(cs[k], side, f) ==> Cleared(ms[k], side) == Cleared(ms'[k], side)
    ensures GroupLaned(cs, ms, boxes, side, f) <==> GroupLaned(cs, ms', boxes, side, f)
  {
    var sel := Selected(cs, side, f);
    assert LanesOf(ms, sel, side) == LanesOf(ms', sel, side);
  }

  /** A box stays laned while no clearance from any of its sides changes. */
  lemma BoxLanedFrame(cs: seq<Connection>, ms: seq<map<Side, int>>, ms': seq<map<Side, int>>, boxes: seq<Concepts>, i: nat)
    requires |ms| == |cs| == |ms'|
    requires forall k, s: Side :: 0 <= k < |cs| && s.box == Child(i) ==> Cleared(ms[k], s) == Cleared(ms'[k], s)
    ensures BoxLaned(cs, ms, boxes, i) <==> BoxLaned(cs, ms', boxes, i)
  {
    GroupLanedFrame(cs, ms, ms', boxes, TopOf(Child(i)), All);
    GroupLanedFrame(cs, ms, ms', boxes, RightOf(Child(i)), Up);
    GroupLanedFrame(cs, ms, ms', boxes, RightOf(Child(i)), Down);
    GroupLanedFrame(cs, ms, ms', boxes, BottomOf(Child(i)), All);
  }

  /** What placing box i reads: its width and height, and the margins its lines need. */
  function FootprintAt(cs: seq<Connection>, boxes: seq<Concepts>, i: nat): Diagrams.Footprint
    requires i < |boxes|
  {
    Diagrams.Footprint(BoxWidth, Height(boxes[i]), TopMargin(cs, i), RightMargin(cs, i), BottomMargin(cs, i))
  }

  /**
   * The footprints are sensible: boxes have size and margins are not
   * negative, so the staircase separates every pair of boxes.
   */
  lemma FootprintsSensible(cs: seq<Connection>, boxes: seq<Concepts>, fs: seq<Diagrams.Footprint>)
    requires |fs| == |boxes| && forall i :: 0 <= i < |boxes| ==> fs[i] == FootprintAt(cs, boxes, i)
    ensures Diagrams.Sensible(fs)
  {
  }

  // ---------------------------------------------------------------------
  // Label separation

  /** The line classes whose `avoid` moves them: external guidance and mechanism lines. */
  predicate Avoids(k: LineKind)
  {
    k == ExternalGuidance || k == ExternalMechanism
  }

  /** The side an external guidance or mechanism line keeps its distance from: its box's top or bottom. */
  function EnteredSide(c: Connection): Side
  {
    if c.kind == ExternalGuidance then TopOf(c.target) else BottomOf(c.target)
  }

  /** The clearances a new line starts with: 40 from the side an external guidance or mechanism line enters. */
  function InitialClearance(c: Connection): map<Side, int>
  {
    if Avoids(c.kind) then map[EnteredSide(c) := LegacyLines.LegacyInitialClearance] else map[]
  }

  /** The label the line would have with its entered side's clearance set to d. */
  function LabelAt(c: Connection, e: Routing.Ends, m: map<Side, int>, d: int): Label
  {
    LabelOf(c, e, m[EnteredSide(c) := d])
  }

  /**
   * The label of an external guidance or mechanism line is the older
   * file's label at that clearance.
   */
  lemma LabelAtIsLegacy(c: Connection, e: Routing.Ends, m: map<Side, int>, d: int)
    requires Avoids(c.kind)
    ensures LabelAt(c, e, m, d) == LegacyLines.LegacyLabel(c.kind == ExternalGuidance, c.name, e.source, e.targetAnchor, d)
  {
    assert Cleared(m[EnteredSide(c) := d], EnteredSide(c)) == d;
  }

  /** Whether the labels at positions a and b are settled apart once the first i lines have avoided. */
  ghost predicate Settled(cs: seq<Connection>, a: nat, b: nat, i: nat)
    requires a < |cs| && b < |cs|
  {
    a < i && Avoids(cs[a].kind) && (b < i || !Avoids(cs[b].kind))
  }

  /**
   * One step of the avoiding pass: a line that moved clear of all other
   * labels settles its pairs, and the pairs settled before stay apart
   * because no other label moved.
   */
  lemma AvoidStep(cs: seq<Connection>, before: seq<Label>, now: seq<Label>, i: nat, others: seq<Label>)
    requires |before| == |cs| && |now| == |cs| && i < |cs|
    requires others == before[..i] + before[i + 1..]
    requires forall a, b :: 0 <= a < |cs| && 0 <= b < |cs| && a != b && Settled(cs, a, b, i) ==>
      !before[a].Overlapping(before[b]) && !before[b].Overlapping(before[a])
    requires forall k :: 0 <= k < |cs| && k != i ==> now[k] == before[k]
    requires !Avoids(cs[i].kind) ==> now[i] == before[i]
    requires Avoids(cs[i].kind) ==> !Routing.AnyOverlap(now[i], others)
    ensures forall a, b :: 0 <= a < |cs| && 0 <= b < |cs| && a != b && Settled(cs, a, b, i + 1) ==>
      !now[a].Overlapping(now[b]) && !now[b].Overlapping(now[a])
  {
    forall a, b | 0 <= a < |cs| && 0 <= b < |cs| && a != b && Settled(cs, a, b, i + 1)
      ensures !now[a].Overlapping(now[b]) && !now[b].Overlapping(now[a])
    {
      if a == i || b == i {
        var o := if a == i then b else a;
        if Avoids(cs[i].kind) {
          assert before[o] in others by {
            if o < i { assert others[o] == before[o]; } else { assert others[o - 1] == before[o]; }
          }
          OverlappingSymmetric(now[i], now[o]);
        } else {
          assert Settled(cs, a, b, i);
        }
      } else {
        assert Settled(cs, a, b, i);
      }
    }
  }

  // ---------------------------------------------------------------------
  // Lines and the diagram

  /** A line: what it connects, and the clearances it has been given from box sides. */
  class Line {
    const conn: Connection
    var clearance: map<Side, int>

    /** `initialize`: external guidance and mechanism lines start 40 clear of the side they enter. */
    constructor (conn: Connection)
      ensures this.conn == conn && clearance == InitialClearance(conn)
    {
      this.conn := conn;
      clearance := InitialClearance(conn);
    }

    /** `clear(side, distance)`. */
    method Clear(side: Side, distance: int)
      modifies this`clearance
      ensures clearance == old(clearance)[side := distance]
    {
      clearance := clearance[side := distance];
    }

    /**
     * `avoid(lines)`: an external guidance or mechanism line widens the
     * clearance of the side it enters by 20 until its label overlaps none
     * of the others' labels, and by no more; other lines do not move.
     */
    method Avoid(s: Scene, others: seq<Label>)
      modifies this`clearance
      ensures !Avoids(conn.kind) ==> clearance == old(clearance)
      ensures Avoids(conn.kind) ==>
        var side := EnteredSide(conn);
        var c0 := Cleared(old(clearance), side);
        var r := Cleared(clearance, side);
        && clearance == old(clearance)[side := r]
        && r >= c0 && (r - c0) % 20 == 0
        && !Routing.AnyOverlap(LabelAt(conn, EndsOf(conn, s), old(clearance), r), others)
        && forall d :: c0 <= d < r && (d - c0) % 20 == 0 ==>
             Routing.AnyOverlap(LabelAt(conn, EndsOf(conn, s), old(clearance), d), others)
    {
      if Avoids(conn.kind) {
        var side := EnteredSide(conn);
        var e := EndsOf(conn, s);
        var c0 := Cleared(clearance, side);
        var r := LegacyLines.RaiseClearance(conn.kind == ExternalGuidance, conn.name, e.source, e.targetAnchor, others, c0);
        LabelAtIsLegacy(conn, e, clearance, r);
        forall d | c0 <= d < r && (d - c0) % 20 == 0
          ensures Routing.AnyOverlap(LabelAt(conn, e, clearance, d), others)
        {
          LabelAtIsLegacy(conn, e, clearance, d);
        }
        clearance := clearance[side := r];
      }
    }
  }

  /** What the lines connect, in order. */
  function Conns(ls: seq<Line>): (r: seq<Connection>)
    ensures |r| == |ls| && forall k :: 0 <= k < |ls| ==> r[k] == ls[k].conn
  {
    seq(|ls|, k requires 0 <= k < |ls| => ls[k].conn)
  }

  /** The clearances of the lines, in order. */
  function Clearances(ls: seq<Line>): (r: seq<map<Side, int>>)
    reads ls
    ensures |r| == |ls| && forall k :: 0 <= k < |ls| ==> r[k] == ls[k].clearance
  {
    seq(|ls|, k requires 0 <= k < |ls| reads ls => ls[k].clearance)
  }

  function NamesOf(ps: seq<ChildBox>): (r: seq<string>)
    ensures |r| == |ps| && forall i :: 0 <= i < |ps| ==> r[i] == ps[i].name
  {
    seq(|ps|, i requires 0 <= i < |ps| => ps[i].name)
  }

  /** What each box declares, in box order. */
  function ConceptsOf(ps: seq<ChildBox>): (r: seq<Concepts>)
    reads ps
    ensures |r| == |ps| && forall i :: 0 <= i < |ps| ==> r[i] == ps[i].concepts
  {
    seq(|ps|, i requires 0 <= i < |ps| reads ps => ps[i].concepts)
  }

  /** Where each box is, in box order. */
  function CornersOf(ps: seq<ChildBox>): (r: seq<Point>)
    reads ps
    ensures |r| == |ps| && forall i :: 0 <= i < |ps| ==> r[i] == ps[i].topLeft
  {
    seq(|ps|, i requires 0 <= i < |ps| reads ps => ps[i].topLeft)
  }

  ghost predicate DistinctLines(ls: seq<Line>)
  {
    forall a, b :: 0 <= a < b < |ls| ==> ls[a] != ls[b]
  }

  /** `Line.new` for each connection in turn: new, distinct lines with their initial clearances. */
  method NewLines(cs: seq<Connection>) returns (ls: seq<Line>)
    ensures Conns(ls) == cs && DistinctLines(ls)
    ensures forall k :: 0 <= k < |ls| ==> fresh(ls[k]) && ls[k].clearance == InitialClearance(ls[k].conn)
  {
    ls := [];
    var j := 0;
    while j < |cs|
      invariant 0 <= j <= |cs|
      invariant Conns(ls) == cs[..j] && DistinctLines(ls)
      invariant forall k :: 0 <= k < |ls| ==> fresh(ls[k]) && ls[k].clearance == InitialClearance(ls[k].conn)
    {
      var l := new Line(cs[j]);
      assert cs[..j + 1] == cs[..j] + [cs[j]];
      ls := ls + [l];
      j := j + 1;
    }
    assert cs[..|cs|] == cs;
  }

  /** `line.clear(side, lane)` for the line at each selected position, in turn. */
  method SetLanes(ls: seq<Line>, sel: seq<nat>, side: Side, lanes: seq<int>)
    requires DistinctLines(ls) && Ascending(sel) && |lanes| == |sel|
    requires forall q :: 0 <= q < |sel| ==> sel[q] < |ls|
    modifies ls`clearance
    ensures forall q :: 0 <= q < |sel| ==> ls[sel[q]].clearance == old(ls[sel[q]].clearance)[side := lanes[q]]
    ensures forall k :: 0 <= k < |ls| && k !in sel ==> ls[k].clearance == old(ls[k].clearance)
  {
    var q := 0;
    while q < |sel|
      invariant 0 <= q <= |sel|
      invariant forall p :: 0 <= p < q ==> ls[sel[p]].clearance == old(ls[sel[p]].clearance)[side := lanes[p]]
      invariant forall k :: 0 <= k < |ls| && k !in sel[..q] ==> ls[k].clearance == old(ls[k].clearance)
    {
      assert forall p :: 0 <= p < q ==> sel[p] < sel[q];
      ls[sel[q]].Clear(side, lanes[q]);
      assert sel[..q + 1] == sel[..q] + [sel[q]];
      q := q + 1;
    }
    assert sel[..|sel|] == sel;
  }

  /**
   * The clearances change only as one group of one side is laned: a line
   * of the group has only its clearance from that side changed, the
   * others keep theirs.
   */
  ghost predicate Relaned(cs: seq<Connection>, before: seq<map<Side, int>>, after: seq<map<Side, int>>, side: Side, f: Filter)
  {
    && |before| == |cs| && |after| == |cs|
    && forall k :: 0 <= k < |cs| ==>
         after[k] == if InGroup(cs[k], side, f) then before[k][side := Cleared(after[k], side)] else before[k]
  }

  /**
   * Laning one group leaves the clearances from any other side alone, and
   * those of the lines outside the group from its own side.
   */
  lemma RelanedKeeps(cs: seq<Connection>, before: seq<map<Side, int>>, after: seq<map<Side, int>>, side: Side, f: Filter, s: Side)
    requires Relaned(cs, before, after, side, f)
    ensures forall k :: 0 <= k < |cs| && (s != side || !InGroup(cs[k], side, f)) ==> Cleared(after[k], s) == Cleared(before[k], s)
  {
  }

  /**
   * One group of a side (`select`, `partition`, `sort_by(precedence)`,
   * `each_with_index`): the lines of the group get 20, 40, ... from the
   * side in the order of their keys; nothing else changes.
   */
  method LaneGroup(ls: seq<Line>, boxes: seq<Concepts>, side: Side, f: Filter)
    requires DistinctLines(ls)
    modifies ls`clearance
    ensures GroupLaned(Conns(ls), Clearances(ls), boxes, side, f)
    ensures Relaned(Conns(ls), old(Clearances(ls)), Clearances(ls), side, f)
  {
    var cs := Conns(ls);
    ghost var before := Clearances(ls);
    var sel, lanes := PlanLanes(cs, boxes, side, f);
    SetLanes(ls, sel, side, lanes);
    LanesSet(cs, before, Clearances(ls), boxes, side, f, lanes);
  }

  /**
   * The plan of one group: the positions of its lines, in line order, and
   * the lane of each, numbered by `sort_by(precedence)`.
   */
  method PlanLanes(cs: seq<Connection>, boxes: seq<Concepts>, side: Side, f: Filter) returns (sel: seq<nat>, lanes: seq<int>)
    ensures sel == Selected(cs, side, f) && Ascending(sel)
    ensures IsLaneAssignment(lanes, KeysOf(cs, sel, side, boxes))
  {
    sel := Selected(cs, side, f);
    var keys := KeysOf(cs, sel, side, boxes);
    Order.LexIsStrictOrder();
    lanes := Order.AssignLanes(keys, Order.LexLess);
    SelectedAscending(cs, side, f);
  }

  /**
   * Giving the lines of a group their planned lanes, and touching no other
   * clearance of theirs, lanes the group.
   */
  lemma LanesSet(cs: seq<Connection>, before: seq<map<Side, int>>, after: seq<map<Side, int>>, boxes: seq<Concepts>, side: Side, f: Filter, lanes: seq<int>)
    requires |before| == |cs| && |after| == |cs|
    requires IsLaneAssignment(lanes, KeysOf(cs, Selected(cs, side, f), side, boxes))
    requires var sel := Selected(cs, side, f);
      forall q :: 0 <= q < |sel| ==> after[sel[q]] == before[sel[q]][side := lanes[q]]
    requires forall k :: 0 <= k < |cs| && k !in Selected(cs, side, f) ==> after[k] == before[k]
    ensures GroupLaned(cs, after, boxes, side, f)
    ensures Relaned(cs, before, after, side, f)
  {
    var sel := Selected(cs, side, f);
    assert LanesOf(after, sel, side) == lanes by {
      forall q | 0 <= q < |sel|
        ensures LanesOf(after, sel, side)[q] == lanes[q]
      {
        assert after[sel[q]] == before[sel[q]][side := lanes[q]];
      }
    }
    GroupLanedBy(cs, after, boxes, side, f, lanes);
    forall k | 0 <= k < |cs| && InGroup(cs[k], side, f)
      ensures after[k] == before[k][side := Cleared(after[k], side)]
    {
      SelectedComplete(cs, side, f);
      var q :| 0 <= q < |sel| && sel[q] == k;
    }
  }

  /**
   * The four groups of box i, laned in the order `layout` takes them: its
   * top side, the upward and then the downward lines of its right side,
   * its bottom side.  Afterwards all four are laned, and no clearance from
   * a side of another box has changed.
   */
  method LaneBox(ls: seq<Line>, boxes: seq<Concepts>, i: nat)
    requires DistinctLines(ls)
    modifies ls`clearance
    ensures BoxLaned(Conns(ls), Clearances(ls), boxes, i)
    ensures forall k, s: Side :: 0 <= k < |ls| && s.box != Child(i) ==> Cleared(ls[k].clearance, s) == Cleared(old(ls[k].clearance), s)
  {
    var cs := Conns(ls);
    ghost var m0 := Clearances(ls);
    LaneGroup(ls, boxes, TopOf(Child(i)), All);
    ghost var m1 := Clearances(ls);
    LaneGroup(ls, boxes, RightOf(Child(i)), Up);
    ghost var m2 := Clearances(ls);
    LaneGroup(ls, boxes, RightOf(Child(i)), Down);
    ghost var m3 := Clearances(ls);
    LaneGroup(ls, boxes, BottomOf(Child(i)), All);
    BoxLanedInTurn(cs, m1, m2, m3, Clearances(ls), boxes, i);
    OtherBoxesUntouched(cs, m0, m1, m2, m3, Clearances(ls), i);
  }

  /**
   * A laned group stays laned while another group is laned: one of
   * another side, or the downward lines after the upward ones of the same
   * side, which are other lines.
   */
  lemma LanedStays(cs: seq<Connection>, before: seq<map<Side, int>>, after: seq<map<Side, int>>, boxes: seq<Concepts>,
                   side: Side, f: Filter, other: Side, g: Filter)
    requires GroupLaned(cs, before, boxes, side, f) && Relaned(cs, before, after, other, g)
    requires side != other || (f == Up && g == Down)
    ensures GroupLaned(cs, after, boxes, side, f)
  {
    RelanedKeeps(cs, before, after, other, g, side);
    GroupLanedFrame(cs, before, after, boxes, side, f);
  }

  /**
   * Laning the four groups of a box in turn lanes the box: a later group
   * changes no clearance an earlier group gave.
   */
  lemma BoxLanedInTurn(cs: seq<Connection>, m1: seq<map<Side, int>>, m2: seq<map<Side, int>>,
                       m3: seq<map<Side, int>>, m4: seq<map<Side, int>>, boxes: seq<Concepts>, i: nat)
    requires GroupLaned(cs, m1, boxes, TopOf(Child(i)), All)
    requires GroupLaned(cs, m2, boxes, RightOf(Child(i)), Up) && Relaned(cs, m1, m2, RightOf(Child(i)), Up)
    requires GroupLaned(cs, m3, boxes, RightOf(Child(i)), Down) && Relaned(cs, m2, m3, RightOf(Child(i)), Down)
    requires GroupLaned(cs, m4, boxes, BottomOf(Child(i)), All) && Relaned(cs, m3, m4, BottomOf(Child(i)), All)
    ensures BoxLaned(cs, m4, boxes, i)
  {
    var top, right, bottom := TopOf(Child(i)), RightOf(Child(i)), BottomOf(Child(i));
    LanedStays(cs, m1, m2, boxes, top, All, right, Up);
    LanedStays(cs, m2, m3, boxes, top, All, right, Down);
    LanedStays(cs, m3, m4, boxes, top, All, bottom, All);
    LanedStays(cs, m2, m3, boxes, right, Up, right, Down);
    LanedStays(cs, m3, m4, boxes, right, Up, bottom, All);
    LanedStays(cs, m3, m4, boxes, right, Down, bottom, All);
  }

  /** Laning the four groups of a box in turn touches no clearance from another box's sides. */
  lemma OtherBoxesUntouched(cs: seq<Connection>, m0: seq<map<Side, int>>, m1: seq<map<Side, int>>, m2: seq<map<Side, int>>,
                            m3: seq<map<Side, int>>, m4: seq<map<Side, int>>, i: nat)
    requires Relaned(cs, m0, m1, TopOf(Child(i)), All)
    requires Relaned(cs, m1, m2, RightOf(Child(i)), Up)
    requires Relaned(cs, m2, m3, RightOf(Child(i)), Down)
    requires Relaned(cs, m3, m4, BottomOf(Child(i)), All)
    ensures forall k, s: Side :: 0 <= k < |cs| && s.box != Child(i) ==> Cleared(m4[k], s) == Cleared(m0[k], s)
  {
    forall k, s: Side | 0 <= k < |cs| && s.box != Child(i)
      ensures Cleared(m4[k], s) == Cleared(m0[k], s)
    {
      RelanedKeeps(cs, m0, m1, TopOf(Child(i)), All, s);
      RelanedKeeps(cs, m1, m2, RightOf(Child(i)), Up, s);
      RelanedKeeps(cs, m2, m3, RightOf(Child(i)), Down, s);
      RelanedKeeps(cs, m3, m4, BottomOf(Child(i)), All, s);
    }
  }

  ghost predicate DistinctBoxes(ps: seq<ChildBox>)
  {
    forall a, b :: 0 <= a < b < |ps| ==> ps[a] != ps[b]
  }

  /** Boxes numbered by their positions are distinct objects. */
  lemma NumberedDistinct(ps: seq<ChildBox>)
    requires forall i :: 0 <= i < |ps| ==> ps[i].sequence == i
    ensures DistinctBoxes(ps)
  {
    forall a, b | 0 <= a < b < |ps|
      ensures ps[a] != ps[b]
    {
      assert ps[a].sequence != ps[b].sequence;
    }
  }

  /** The first n boxes are laned. */
  ghost predicate LanedUpTo(cs: seq<Connection>, ms: seq<map<Side, int>>, boxes: seq<Concepts>, n: nat)
  {
    forall j :: 0 <= j < n ==> BoxLaned(cs, ms, boxes, j)
  }

  /** Laning box n, touching no other box's sides, extends the laned boxes by one. */
  lemma LanedUpToStep(cs: seq<Connection>, before: seq<map<Side, int>>, after: seq<map<Side, int>>, boxes: seq<Concepts>, n: nat)
    requires |before| == |cs| == |after|
    requires LanedUpTo(cs, before, boxes, n) && BoxLaned(cs, after, boxes, n)
    requires forall k, s: Side :: 0 <= k < |cs| && s.box != Child(n) ==> Cleared(after[k], s) == Cleared(before[k], s)
    ensures LanedUpTo(cs, after, boxes, n + 1)
  {
    forall j | 0 <= j < n + 1
      ensures BoxLaned(cs, after, boxes, j)
    {
      if j < n {
        assert BoxLaned(cs, before, boxes, j);
        BoxLanedFrame(cs, before, after, boxes, j);
      }
    }
  }

  /** The footprints of the boxes, in order. */
  function FootprintsOf(cs: seq<Connection>, boxes: seq<Concepts>): (r: seq<Diagrams.Footprint>)
    ensures |r| == |boxes| && forall i :: 0 <= i < |boxes| ==> r[i] == FootprintAt(cs, boxes, i)
  {
    seq(|boxes|, i requires 0 <= i < |boxes| => FootprintAt(cs, boxes, i))
  }

  /**
   * The first pass of `layout`, over the boxes in order: lane the four
   * groups of the box, move the box down from the running point by its top
   * margin, and continue at its bottom-right corner past its right and
   * bottom margins.  Afterwards every box is laned and the corners lie on
   * the staircase of the boxes' footprints; the declarations do not change.
   */
  method PlaceBoxes(ls: seq<Line>, ps: seq<ChildBox>, start: Point)
    requires DistinctLines(ls) && DistinctBoxes(ps)
    modifies ls`clearance, ps`topLeft
    ensures ConceptsOf(ps) == old(ConceptsOf(ps))
    ensures Diagrams.IsStaircase(start, FootprintsOf(Conns(ls), ConceptsOf(ps)), CornersOf(ps))
    ensures LanedUpTo(Conns(ls), Clearances(ls), ConceptsOf(ps), |ps|)
  {
    var boxes := ConceptsOf(ps);
    var fs := FootprintsOf(Conns(ls), boxes);
    ghost var pts: seq<Point> := [];
    var point := start;
    var i := 0;
    PlacedNone(ps, boxes, fs, start);
    while i < |ps|
      invariant PlacedUpTo(ps, boxes, fs, start, pts, i, point)
      invariant LanedUpTo(Conns(ls), Clearances(ls), boxes, i)
    {
      pts, point := PlaceNext(ls, ps, boxes, fs, start, i, pts, point);
      i := i + 1;
    }
    PlacedAll(ps, boxes, fs, start, pts, point);
  }

  lemma PlacedNone(ps: seq<ChildBox>, boxes: seq<Concepts>, fs: seq<Diagrams.Footprint>, start: Point)
    requires |boxes| == |ps| == |fs| && forall j :: 0 <= j < |ps| ==> ps[j].concepts == boxes[j]
    ensures PlacedUpTo(ps, boxes, fs, start, [], 0, start)
  {
  }

  lemma PlacedAll(ps: seq<ChildBox>, boxes: seq<Concepts>, fs: seq<Diagrams.Footprint>, start: Point, pts: seq<Point>, point: Point)
    requires PlacedUpTo(ps, boxes, fs, start, pts, |ps|, point)
    ensures ConceptsOf(ps) == boxes && CornersOf(ps) == pts && Diagrams.IsStaircase(start, fs, pts)
  {
    assert fs[..|ps|] == fs;
  }

  /** The first i boxes stand on the staircase of their footprints from the start, and none has changed its declarations. */
  ghost predicate PlacedUpTo(ps: seq<ChildBox>, boxes: seq<Concepts>, fs: seq<Diagrams.Footprint>, start: Point,
                             pts: seq<Point>, i: nat, point: Point)
    reads ps
  {
    && i <= |ps| && |pts| == i && |boxes| == |ps| && |fs| == |ps|
    && (forall j :: 0 <= j < |ps| ==> ps[j].concepts == boxes[j])
    && (forall j :: 0 <= j < i ==> ps[j].topLeft == pts[j])
    && Diagrams.IsStaircase(start, fs[..i], pts)
    && point == if i == 0 then start else Diagrams.Next(pts[i - 1], fs[i - 1])
  }

  /**
   * One step of the first pass: lane box i, move it down from the running
   * point by its top margin, and continue at its bottom-right corner past
   * its margins.
   */
  method PlaceNext(ls: seq<Line>, ps: seq<ChildBox>, boxes: seq<Concepts>, fs: seq<Diagrams.Footprint>, start: Point,
                   i: nat, ghost pts: seq<Point>, point: Point) returns (ghost pts': seq<Point>, point': Point)
    requires DistinctLines(ls) && DistinctBoxes(ps) && i < |ps|
    requires PlacedUpTo(ps, boxes, fs, start, pts, i, point) && LanedUpTo(Conns(ls), Clearances(ls), boxes, i)
    modifies ls`clearance, ps`topLeft
    ensures PlacedUpTo(ps, boxes, fs, start, pts', i + 1, point') && LanedUpTo(Conns(ls), Clearances(ls), boxes, i + 1)
    ensures forall j :: 0 <= j < |ps| && j != i ==> ps[j].topLeft == old(ps[j].topLeft)
  {
    LaneNext(ls, boxes, i);
    var box := ps[i];
    box.MoveTo(point.Translate(0, fs[i].top));
    StaircaseStep(start, fs, pts, i, box.topLeft);
    pts' := pts + [box.topLeft];
    point' := Diagrams.Next(box.topLeft, fs[i]);
  }

  /** A box placed at the running point, lowered by its top margin, extends the staircase. */
  lemma StaircaseStep(start: Point, fs: seq<Diagrams.Footprint>, pts: seq<Point>, i: nat, p: Point)
    requires i < |fs| && Diagrams.IsStaircase(start, fs[..i], pts)
    requires p == (if i == 0 then start else Diagrams.Next(pts[i - 1], fs[i - 1])).Translate(0, fs[i].top)
    ensures Diagrams.IsStaircase(start, fs[..i + 1], pts + [p])
  {
  }

  /** Lanes box i after the boxes before it, keeping those laned. */
  method LaneNext(ls: seq<Line>, boxes: seq<Concepts>, i: nat)
    requires DistinctLines(ls) && LanedUpTo(Conns(ls), Clearances(ls), boxes, i)
    modifies ls`clearance
    ensures LanedUpTo(Conns(ls), Clearances(ls), boxes, i + 1)
  {
    ghost var before := Clearances(ls);
    LaneBox(ls, boxes, i);
    LanedUpToStep(Conns(ls), before, Clearances(ls), boxes, i);
  }

  /**
   * What `avoid` may do to one line's clearances: an external guidance or
   * mechanism line widens its entered side's clearance by a multiple of
   * 20; any other line keeps its clearances.
   */
  ghost predicate Widened(c: Connection, before: map<Side, int>, after: map<Side, int>)
  {
    if Avoids(c.kind) then
      var side := EnteredSide(c);
      && after == before[side := Cleared(after, side)]
      && Cleared(after, side) >= Cleared(before, side)
      && (Cleared(after, side) - Cleared(before, side)) % 20 == 0
    else after == before
  }

  /** No label of an external guidance or mechanism line overlaps the label of another line, either way round. */
  ghost predicate LabelsApart(cs: seq<Connection>, labels: seq<Label>)
    requires |labels| == |cs|
  {
    forall a, b :: 0 <= a < |cs| && 0 <= b < |cs| && a != b && Avoids(cs[a].kind) ==>
      !labels[a].Overlapping(labels[b]) && !labels[b].Overlapping(labels[a])
  }

  /**
   * The second pass of `layout`: each line in turn avoids the labels of
   * all the other lines as they stand.  Afterwards no label of an external
   * guidance or mechanism line overlaps another label, and only those
   * lines' entered-side clearances have changed, each by a multiple of 20.
   */
  method AvoidAll(ls: seq<Line>, s: Scene)
    requires DistinctLines(ls)
    modifies ls`clearance
    ensures LabelsApart(Conns(ls), LabelsOf(Conns(ls), Clearances(ls), s))
    ensures forall k :: 0 <= k < |ls| ==> Widened(ls[k].conn, old(ls[k].clearance), ls[k].clearance)
  {
    ghost var before := Clearances(ls);
    var i := 0;
    while i < |ls|
      invariant 0 <= i <= |ls|
      invariant WidenedUpTo(Conns(ls), before, Clearances(ls), i)
      invariant SettledApart(Conns(ls), LabelsOf(Conns(ls), Clearances(ls), s), i)
    {
      ghost var mid := Clearances(ls);
      AvoidOne(ls, s, i, ls[i]);
      WidenedStep(Conns(ls), before, mid, Clearances(ls), i);
      i := i + 1;
    }
    WidenedAll(Conns(ls), before, Clearances(ls));
    AllSettled(Conns(ls), LabelsOf(Conns(ls), Clearances(ls), s));
  }

  /** The first i lines have avoided, and the others are as they were. */
  ghost predicate WidenedUpTo(cs: seq<Connection>, before: seq<map<Side, int>>, now: seq<map<Side, int>>, i: nat)
  {
    && i <= |cs| && |before| == |cs| && |now| == |cs|
    && (forall k :: 0 <= k < i ==> Widened(cs[k], before[k], now[k]))
    && (forall k :: i <= k < |cs| ==> now[k] == before[k])
  }

  lemma WidenedStep(cs: seq<Connection>, before: seq<map<Side, int>>, mid: seq<map<Side, int>>, now: seq<map<Side, int>>, i: nat)
    requires WidenedUpTo(cs, before, mid, i) && i < |cs|
    requires |now| == |mid| && now == mid[i := now[i]] && Widened(cs[i], mid[i], now[i])
    ensures WidenedUpTo(cs, before, now, i + 1)
  {
  }

  lemma WidenedAll(cs: seq<Connection>, before: seq<map<Side, int>>, now: seq<map<Side, int>>)
    requires WidenedUpTo(cs, before, now, |cs|)
    ensures forall k :: 0 <= k < |cs| ==> Widened(cs[k], before[k], now[k])
  {
  }

  /** Once every line has avoided, every pair with an avoiding line is settled. */
  lemma AllSettled(cs: seq<Connection>, labels: seq<Label>)
    requires |labels| == |cs| && SettledApart(cs, labels, |cs|)
    ensures LabelsApart(cs, labels)
  {
    forall a, b | 0 <= a < |cs| && 0 <= b < |cs| && a != b && Avoids(cs[a].kind)
      ensures !labels[a].Overlapping(labels[b]) && !labels[b].Overlapping(labels[a])
    {
      assert Settled(cs, a, b, |cs|);
    }
  }

  /** The pairs settled once the first i lines have avoided are apart. */
  ghost predicate SettledApart(cs: seq<Connection>, labels: seq<Label>, i: nat)
    requires |labels| == |cs|
  {
    forall a, b :: 0 <= a < |cs| && 0 <= b < |cs| && a != b && Settled(cs, a, b, i) ==>
      !labels[a].Overlapping(labels[b]) && !labels[b].Overlapping(labels[a])
  }

  /** `line.avoid(@lines.delete(line))` for the line at position i. */
  method AvoidOne(ls: seq<Line>, s: Scene, i: nat, line: Line)
    requires DistinctLines(ls) && i < |ls| && line == ls[i]
    requires SettledApart(Conns(ls), LabelsOf(Conns(ls), Clearances(ls), s), i)
    modifies line`clearance
    ensures SettledApart(Conns(ls), LabelsOf(Conns(ls), Clearances(ls), s), i + 1)
    ensures Widened(ls[i].conn, old(ls[i].clearance), ls[i].clearance)
    ensures Clearances(ls) == old(Clearances(ls))[i := line.clearance]
  {
    var cs := Conns(ls);
    var all := LabelsOf(cs, Clearances(ls), s);
    var others := all[..i] + all[i + 1..];
    line.Avoid(s, others);
    ghost var now := LabelsOf(cs, Clearances(ls), s);
    AvoidStep(cs, all, now, i, others);
  }

  /**
   * Avoiding keeps the lanes: the lines that move their labels keep no
   * side clear, so every line of a group keeps its clearances.
   */
  lemma AvoidKeepsGroup(cs: seq<Connection>, before: seq<map<Side, int>>, after: seq<map<Side, int>>, boxes: seq<Concepts>, side: Side, f: Filter)
    requires |before| == |cs| == |after|
    requires forall k :: 0 <= k < |cs| ==> Widened(cs[k], before[k], after[k])
    requires GroupLaned(cs, before, boxes, side, f)
    ensures GroupLaned(cs, after, boxes, side, f)
  {
    forall k | 0 <= k < |cs| && InGroup(cs[k], side, f)
      ensures Cleared(before[k], side) == Cleared(after[k], side)
    {
      assert Widened(cs[k], before[k], after[k]);
    }
    GroupLanedFrame(cs, before, after, boxes, side, f);
  }

  /** Avoiding keeps every laned box laned. */
  lemma AvoidKeepsLanes(cs: seq<Connection>, before: seq<map<Side, int>>, after: seq<map<Side, int>>, boxes: seq<Concepts>, n: nat)
    requires |before| == |cs| == |after|
    requires forall k :: 0 <= k < |cs| ==> Widened(cs[k], before[k], after[k])
    requires LanedUpTo(cs, before, boxes, n)
    ensures LanedUpTo(cs, after, boxes, n)
  {
    forall j | 0 <= j < n
      ensures BoxLaned(cs, after, boxes, j)
    {
      assert BoxLaned(cs, before, boxes, j);
      AvoidKeepsGroup(cs, before, after, boxes, TopOf(Child(j)), All);
      AvoidKeepsGroup(cs, before, after, boxes, RightOf(Child(j)), Up);
      AvoidKeepsGroup(cs, before, after, boxes, RightOf(Child(j)), Down);
      AvoidKeepsGroup(cs, before, after, boxes, BottomOf(Child(j)), All);
    }
  }

  // ---------------------------------------------------------------------
  // Shifting and sizing

  /** Every point moved by (dx, dy). */
  function TranslatedAll(ps: seq<Point>, dx: int, dy: int): (r: seq<Point>)
    ensures |r| == |ps| && forall i :: 0 <= i < |ps| ==> r[i] == ps[i].Translate(dx, dy)
  {
    seq(|ps|, i requires 0 <= i < |ps| => ps[i].Translate(dx, dy))
  }

  /** A box moved by (dx, dy) has its anchors moved by (dx, dy), and has the same names anchored. */
  lemma AnchorForTranslates(p: Point, c: Concepts, role: Role, name: string, dx: int, dy: int)
    ensures AnchorFor(p.Translate(dx, dy), c, role, name).Some? == AnchorFor(p, c, role, name).Some?
    ensures AnchorFor(p, c, role, name).Some? ==>
      AnchorFor(p.Translate(dx, dy), c, role, name).value.point == AnchorFor(p, c, role, name).value.point.Translate(dx, dy)
  {
  }

  /** A translated staircase is the staircase from the translated start. */
  lemma StaircaseTranslates(start: Point, fs: seq<Diagrams.Footprint>, ps: seq<Point>, dx: int, dy: int)
    requires Diagrams.IsStaircase(start, fs, ps)
    ensures Diagrams.IsStaircase(start.Translate(dx, dy), fs, TranslatedAll(ps, dx, dy))
  {
  }

  /**
   * The shift clears the origin: if moving every line's left edge right by
   * dx and its top edge down by dy leaves none negative, then after the
   * boxes are moved by (dx, dy) no line `connect` makes starts left of or
   * above the origin, whatever size the frame at the origin then has.
   * External lines reach out to the frame, which does not move, and stop
   * at the origin instead of following their box.
   */
  lemma ShiftClearsOrigin(frame: Concepts, s: Scene, c: Connection, m: map<Side, int>, dx: int, dy: int, f: Placement.Rect)
    requires Admissible(frame, s.boxes, c) && |s.corners| == |s.boxes|
    requires LeftEdge(c, EndsOf(c, s), m) + dx >= 0 && TopEdge(c, EndsOf(c, s), m) + dy >= 0
    requires f.x1 >= 0 && f.y1 >= 0 && f.Y2() >= 0
    ensures var t := Scene(f, s.boxes, TranslatedAll(s.corners, dx, dy));
      LeftEdge(c, EndsOf(c, t), m) >= 0 && TopEdge(c, EndsOf(c, t), m) >= 0
  {
    var t := Scene(f, s.boxes, TranslatedAll(s.corners, dx, dy));
    var e, e' := EndsOf(c, s), EndsOf(c, t);
    if c.source.Child? {
      var i := c.source.index;
      AnchorForTranslates(s.corners[i], s.boxes[i], Output, c.name, dx, dy);
    }
    if c.target.Child? {
      var i := c.target.index;
      AnchorForTranslates(s.corners[i], s.boxes[i], TargetRole(c.kind), c.name, dx, dy);
    }
    EndsOfAdmissible(frame, s, c);
    EndsOfAdmissible(frame, t, c);
    EdgesAfterShift(c, e, e', m, dx, dy);
  }

  /**
   * The edges of one line whose box anchors moved by (dx, dy) while the
   * frame it reaches to lies at or right of and below the origin.
   */
  lemma EdgesAfterShift(c: Connection, e: Routing.Ends, e': Routing.Ends, m: map<Side, int>, dx: int, dy: int)
    requires c.kind != ExternalOutput ==> e'.targetAnchor == e.targetAnchor.Translate(dx, dy)
    requires c.kind !in {ExternalInput, ExternalGuidance, ExternalMechanism} ==> e'.sourceAnchor == e.sourceAnchor.Translate(dx, dy)
    requires c.kind in {ExternalInput, ExternalGuidance, ExternalMechanism} ==>
      e'.source.x1 >= 0 && e'.source.y1 >= 0 && e'.source.Y2() >= 0
    requires LeftEdge(c, e, m) + dx >= 0 && TopEdge(c, e, m) + dy >= 0
    ensures LeftEdge(c, e', m) >= 0 && TopEdge(c, e', m) >= 0
  {
    match c.kind
    case ExternalInput =>
    case ExternalOutput =>
    case ExternalGuidance =>
      LegacyLines.LegacyY1Clamps(true, e.source, e.targetAnchor, Cleared(m, TopOf(c.target)));
      LegacyLines.LegacyY1Clamps(true, e'.source, e'.targetAnchor, Cleared(m, TopOf(c.target)));
    case ExternalMechanism =>
      LegacyLines.LegacyY1Clamps(false, e.source, e.targetAnchor, Cleared(m, BottomOf(c.target)));
      LegacyLines.LegacyY1Clamps(false, e'.source, e'.targetAnchor, Cleared(m, BottomOf(c.target)));
    case _ =>
  }

  /**
   * `resize(right_edge, bottom_edge)` encloses the lines: with the frame
   * widened to at least every line's right edge and heightened to at least
   * every bottom edge, the external lines that reach to the frame's right
   * or bottom edge still end within it.
   */
  lemma ResizeEncloses(frame: Concepts, s: Scene, c: Connection, m: map<Side, int>, w: int, h: int)
    requires Admissible(frame, s.boxes, c) && |s.corners| == |s.boxes|
    requires RightEdge(c, EndsOf(c, s), m) <= s.frame.x1 + w && BottomEdge(c, EndsOf(c, s), m) <= s.frame.y1 + h
    ensures var t := s.(frame := Placement.Rect(s.frame.x1, s.frame.y1, w, h));
      RightEdge(c, EndsOf(c, t), m) <= t.frame.X2() && BottomEdge(c, EndsOf(c, t), m) <= t.frame.Y2()
  {
    var t := s.(frame := Placement.Rect(s.frame.x1, s.frame.y1, w, h));
    EndsOfAdmissible(frame, s, c);
    EndsOfAdmissible(frame, t, c);
  }

  /** `translate(dx, dy)` of every box. */
  method TranslateBoxes(ps: seq<ChildBox>, dx: int, dy: int)
    requires DistinctBoxes(ps)
    modifies ps`topLeft
    ensures CornersOf(ps) == TranslatedAll(old(CornersOf(ps)), dx, dy)
    ensures ConceptsOf(ps) == old(ConceptsOf(ps))
  {
    var i := 0;
    while i < |ps|
      invariant 0 <= i <= |ps|
      invariant forall j :: 0 <= j < i ==> ps[j].topLeft == old(ps[j].topLeft).Translate(dx, dy)
      invariant forall j :: i <= j < |ps| ==> ps[j].topLeft == old(ps[j].topLeft)
      invariant forall j :: 0 <= j < |ps| ==> ps[j].concepts == old(ps[j].concepts)
    {
      ps[i].Translate(dx, dy);
      i := i + 1;
    }
  }

  /**
   * Every line `connect` makes for these declarations lies right of and
   * below the origin and within the frame's right and bottom edges.
   */
  ghost predicate Fits(frame: Concepts, cs: seq<Connection>, ms: seq<map<Side, int>>, s: Scene)
    requires |ms| == |cs|
  {
    forall k {:trigger Admissible(frame, s.boxes, cs[k])} :: 0 <= k < |cs| && Admissible(frame, s.boxes, cs[k]) ==> Within(cs[k], ms[k], s)
  }

  /** The line lies right of and below the origin and within the frame's right and bottom edges. */
  predicate Within(c: Connection, m: map<Side, int>, s: Scene)
  {
    var e := EndsOf(c, s);
    && LeftEdge(c, e, m) >= 0 && TopEdge(c, e, m) >= 0
    && RightEdge(c, e, m) <= s.frame.X2() && BottomEdge(c, e, m) <= s.frame.Y2()
  }

  /** Every line `connect` makes is admissible, so where the admissible lines fit, all of them do. */
  lemma ConnectedFit(frame: Concepts, ms: seq<map<Side, int>>, s: Scene)
    requires |ms| == |SpikeConnect.Connect(frame, s.boxes)| && Fits(frame, SpikeConnect.Connect(frame, s.boxes), ms, s)
    ensures forall k :: 0 <= k < |ms| ==> Within(SpikeConnect.Connect(frame, s.boxes)[k], ms[k], s)
  {
    var cs := SpikeConnect.Connect(frame, s.boxes);
    forall k | 0 <= k < |ms|
      ensures Within(cs[k], ms[k], s)
    {
      SpikeConnect.ConnectExact(frame, s.boxes, cs[k]);
    }
  }

  /**
   * After the shift and the resize every line `connect` makes lies right
   * of and below the origin and within the diagram's width and height.
   */
  lemma FinalFits(frame: Concepts, placed: Scene, cs: seq<Connection>, ms: seq<map<Side, int>>, dx: int, dy: int)
    requires |ms| == |cs| && |placed.corners| == |placed.boxes| && placed.frame.x1 == 0 && placed.frame.y1 == 0
    requires Diagrams.IsStaircase(Origin, FootprintsOf(cs, placed.boxes), placed.corners)
    requires dx == Diagrams.ShiftAmount(LeftEdges(cs, ms, placed)) && dy == Diagrams.ShiftAmount(TopEdges(cs, ms, placed))
    ensures Fits(frame, cs, ms, SizedFor(ShiftedBy(placed, dx, dy), cs, ms))
  {
    var shifted := ShiftedBy(placed, dx, dy);
    var sized := SizedFor(shifted, cs, ms);
    var lefts, tops := LeftEdges(cs, ms, placed), TopEdges(cs, ms, placed);
    var rights := BoxRights(shifted) + RightEdges(cs, ms, shifted);
    var bottoms := BoxBottoms(shifted) + BottomEdges(cs, ms, shifted);
    forall k | 0 <= k < |cs| && Admissible(frame, placed.boxes, cs[k])
      ensures Within(cs[k], ms[k], sized)
    {
      AdmissibleOwner(frame, placed.boxes, cs[k]);
      assert lefts[k] in lefts && tops[k] in tops;
      assert rights[|shifted.boxes| + k] in rights && bottoms[|shifted.boxes| + k] in bottoms;
      assert bottoms[0] in bottoms;
      ResizeEncloses(frame, shifted, cs[k], ms[k], sized.frame.width, sized.frame.height);
      assert shifted.(frame := Placement.Rect(0, 0, sized.frame.width, sized.frame.height)) == sized;
      ShiftClearsOrigin(frame, placed, cs[k], ms[k], dx, dy, sized.frame);
    }
  }

  /** The scene with every box moved by (dx, dy). */
  function ShiftedBy(s: Scene, dx: int, dy: int): Scene
  {
    s.(corners := TranslatedAll(s.corners, dx, dy))
  }

  /** The scene with the frame as wide and as tall as the greatest right and bottom edge of any box or line, or 0. */
  function SizedFor(s: Scene, cs: seq<Connection>, ms: seq<map<Side, int>>): Scene
    requires |ms| == |cs| && |s.corners| == |s.boxes|
  {
    s.(frame := Placement.Rect(s.frame.x1, s.frame.y1,
      Diagrams.Greatest(BoxRights(s) + RightEdges(cs, ms, s)),
      Diagrams.Greatest(BoxBottoms(s) + BottomEdges(cs, ms, s))))
  }

  /** The diagram: itself a box (the frame of its external lines), its child boxes and its lines. */
  class Diagram {
    const name: string
    /** The frame's corner; `layout` starts the staircase there and never moves it. */
    const topLeft: Point
    var concepts: Concepts
    var processes: seq<ChildBox>
    var lines: seq<Line>
    var width: int
    var height: int

    /** Each box is numbered by its position, names are unique, and the lines are distinct objects. */
    ghost predicate Valid()
      reads this
    {
      && topLeft == Origin
      && (forall i :: 0 <= i < |processes| ==> processes[i].sequence == i)
      && ArraySets.NoDuplicates(NamesOf(processes))
      && DistinctLines(lines)
    }

    /** `initialize`: an empty diagram of size 0 at the origin. */
    constructor (name: string)
      ensures Valid() && this.name == name && topLeft == Origin
      ensures concepts == NoConcepts && processes == [] && lines == [] && width == 0 && height == 0
    {
      this.name := name;
      topLeft := Origin;
      concepts := NoConcepts;
      processes := [];
      lines := [];
      width := 0;
      height := 0;
    }

    /** `receives`, `produces`, `respects`, `requires` of the diagram itself. */
    method Declare(role: Role, x: string)
      modifies this`concepts
      ensures concepts == old(concepts).With(role, x)
    {
      concepts := concepts.With(role, x);
    }

    /** Everything the lines' geometry reads. */
    function SceneOf(): (s: Scene)
      reads this, processes
      ensures s.boxes == ConceptsOf(processes) && s.corners == CornersOf(processes)
    {
      Scene(Placement.Rect(topLeft.x, topLeft.y, width, height), ConceptsOf(processes), CornersOf(processes))
    }

    /**
     * `process(name)`: the box of that name, or a new one numbered by the
     * count of boxes so far and added at the end.
     */
    method Process(name: string) returns (box: ChildBox)
      requires Valid()
      modifies this`processes
      ensures Valid() && box.name == name && box.sequence < |processes| && processes[box.sequence] == box
      ensures NamesOf(processes) == ArraySets.Added(NamesOf(old(processes)), name)
      ensures name in NamesOf(old(processes)) ==> processes == old(processes)
      ensures name !in NamesOf(old(processes)) ==>
        fresh(box) && processes == old(processes) + [box] && box.concepts == NoConcepts && box.topLeft == Origin
    {
      var i := 0;
      while i < |processes|
        invariant 0 <= i <= |processes|
        invariant forall j :: 0 <= j < i ==> processes[j].name != name
      {
        if processes[i].name == name {
          box := processes[i];
          assert name in NamesOf(processes);
          return;
        }
        i := i + 1;
      }
      assert name !in NamesOf(processes);
      box := new ChildBox(name, |processes|);
      ArraySets.AddedKeepsNoDuplicates(NamesOf(processes), name);
      processes := processes + [box];
      assert NamesOf(processes) == NamesOf(old(processes)) + [name];
    }

    /**
     * `connect`: replaces the lines by new ones, one for each connection
     * `SpikeConnect.Connect` lists for the diagram's declarations, in that
     * order, each with its initial clearance.
     */
    method Connect()
      requires Valid()
      modifies this`lines
      ensures Valid()
      ensures Conns(lines) == SpikeConnect.Connect(concepts, ConceptsOf(processes))
      ensures forall k :: 0 <= k < |lines| ==> fresh(lines[k]) && lines[k].clearance == InitialClearance(lines[k].conn)
    {
      lines := NewLines(SpikeConnect.Connect(concepts, ConceptsOf(processes)));
    }

    /**
     * The first pass of `layout` (its `inject` over the boxes): every box
     * gets its lanes, and the boxes stand on the staircase of their
     * footprints from the diagram's corner.
     */
    method Place()
      requires Valid()
      modifies lines`clearance, processes`topLeft
      ensures ConceptsOf(processes) == old(ConceptsOf(processes))
      ensures Diagrams.IsStaircase(topLeft, FootprintsOf(Conns(lines), ConceptsOf(processes)), CornersOf(processes))
      ensures LanedUpTo(Conns(lines), Clearances(lines), ConceptsOf(processes), |processes|)
    {
      NumberedDistinct(processes);
      PlaceBoxes(lines, processes, topLeft);
    }

    /**
     * The second pass of `layout`: each line avoids the labels of all the
     * others, so that no external guidance or mechanism label overlaps
     * another label.
     */
    method AvoidLabels()
      requires Valid()
      modifies lines`clearance
      ensures LabelsApart(Conns(lines), LabelsOf(Conns(lines), Clearances(lines), SceneOf()))
      ensures forall k :: 0 <= k < |lines| ==> Widened(lines[k].conn, old(lines[k].clearance), lines[k].clearance)
    {
      AvoidAll(lines, SceneOf());
    }

    /**
     * The shift of `layout`: the boxes move right by the most any line
     * reaches left of the origin and down by the most any line reaches
     * above it (0 when none does).
     */
    method Shift() returns (dx: int, dy: int)
      requires Valid()
      modifies processes`topLeft
      ensures dx == Diagrams.ShiftAmount(LeftEdges(Conns(lines), Clearances(lines), old(SceneOf())))
      ensures dy == Diagrams.ShiftAmount(TopEdges(Conns(lines), Clearances(lines), old(SceneOf())))
      ensures CornersOf(processes) == TranslatedAll(old(CornersOf(processes)), dx, dy)
      ensures ConceptsOf(processes) == old(ConceptsOf(processes)) && Clearances(lines) == old(Clearances(lines))
    {
      var s := SceneOf();
      var ms := Clearances(lines);
      dx := Diagrams.ShiftAmount(LeftEdges(Conns(lines), ms, s));
      dy := Diagrams.ShiftAmount(TopEdges(Conns(lines), ms, s));
      NumberedDistinct(processes);
      TranslateBoxes(processes, dx, dy);
      assert Clearances(lines) == ms;
    }

    /** `resize(right_edge, bottom_edge)`: the greatest right and bottom edge of any box or line, or 0. */
    method Resize()
      modifies this`width, this`height
      ensures width == Diagrams.Greatest(BoxRights(old(SceneOf())) + RightEdges(Conns(lines), Clearances(lines), old(SceneOf())))
      ensures height == Diagrams.Greatest(BoxBottoms(old(SceneOf())) + BottomEdges(Conns(lines), Clearances(lines), old(SceneOf())))
      ensures ConceptsOf(processes) == old(ConceptsOf(processes)) && CornersOf(processes) == old(CornersOf(processes))
      ensures Clearances(lines) == old(Clearances(lines))
    {
      var s := SceneOf();
      width := Diagrams.Greatest(BoxRights(s) + RightEdges(Conns(lines), Clearances(lines), s));
      height := Diagrams.Greatest(BoxBottoms(s) + BottomEdges(Conns(lines), Clearances(lines), s));
    }

    /**
     * The first two passes of `layout`: every box laned and stacked on its
     * staircase, then the labels moved apart.  `placed` is the scene they
     * leave.
     */
    method Arrange() returns (ghost placed: Scene)
      requires Valid()
      modifies lines`clearance, processes`topLeft
      ensures placed == SceneOf() && ConceptsOf(processes) == old(ConceptsOf(processes))
      ensures Diagrams.IsStaircase(topLeft, FootprintsOf(Conns(lines), placed.boxes), placed.corners)
      ensures LanedUpTo(Conns(lines), Clearances(lines), placed.boxes, |processes|)
      ensures LabelsApart(Conns(lines), LabelsOf(Conns(lines), Clearances(lines), placed))
    {
      Place();
      ghost var before := Clearances(lines);
      placed := SceneOf();
      AvoidLabels();
      AvoidKeepsLanes(Conns(lines), before, Clearances(lines), placed.boxes, |processes|);
    }

    /**
     * The last two steps of `layout`: the shift, then the resize.  Every
     * line `connect` makes then lies right of and below the origin and
     * within the diagram's width and height.
     */
    method Settle(ghost placed: Scene) returns (dx: int, dy: int)
      requires Valid() && placed == SceneOf()
      requires Diagrams.IsStaircase(topLeft, FootprintsOf(Conns(lines), placed.boxes), placed.corners)
      modifies processes`topLeft, this`width, this`height
      ensures ConceptsOf(processes) == placed.boxes
      ensures dx == Diagrams.ShiftAmount(LeftEdges(Conns(lines), Clearances(lines), placed))
      ensures dy == Diagrams.ShiftAmount(TopEdges(Conns(lines), Clearances(lines), placed))
      ensures CornersOf(processes) == TranslatedAll(placed.corners, dx, dy)
      ensures Fits(concepts, Conns(lines), Clearances(lines), SceneOf())
    {
      dx, dy := Shift();
      SizeShifted(placed, dx, dy);
    }

    /** The resize after the shift, with the lines fitting the frame it leaves. */
    method SizeShifted(ghost placed: Scene, dx: int, dy: int)
      requires topLeft == Origin && placed.frame == Placement.Rect(0, 0, width, height) && |placed.corners| == |placed.boxes|
      requires Diagrams.IsStaircase(Origin, FootprintsOf(Conns(lines), placed.boxes), placed.corners)
      requires dx == Diagrams.ShiftAmount(LeftEdges(Conns(lines), Clearances(lines), placed))
      requires dy == Diagrams.ShiftAmount(TopEdges(Conns(lines), Clearances(lines), placed))
      requires ConceptsOf(processes) == placed.boxes && CornersOf(processes) == TranslatedAll(placed.corners, dx, dy)
      modifies this`width, this`height
      ensures Fits(concepts, Conns(lines), Clearances(lines), SceneOf())
      ensures ConceptsOf(processes) == old(ConceptsOf(processes)) && CornersOf(processes) == old(CornersOf(processes))
      ensures Clearances(lines) == old(Clearances(lines))
    {
      ghost var ms := Clearances(lines);
      ghost var shifted := ShiftedBy(placed, dx, dy);
      assert SceneOf() == shifted;
      Resize();
      assert SceneOf() == SizedFor(shifted, Conns(lines), ms);
      FinalFits(concepts, placed, Conns(lines), ms, dx, dy);
    }

    /**
     * `layout`: lanes every box and stacks the boxes on their staircase
     * from the corner, moves the external guidance and mechanism labels
     * apart, shifts the boxes so that no line `connect` makes starts left
     * of or above the origin, and sizes the diagram to enclose the boxes
     * and lines.  `placed` is the scene the labels were moved apart in,
     * before the shift, and `ms` the clearances the lines end with.
     */
    method Layout() returns (ghost placed: Scene, ghost ms: seq<map<Side, int>>, dx: int, dy: int)
      requires Valid()
      modifies lines`clearance, processes`topLeft, this`width, this`height
      ensures Valid() && Clearances(lines) == ms
      ensures ConceptsOf(processes) == old(ConceptsOf(processes)) && placed.boxes == ConceptsOf(processes)
      ensures Diagrams.IsStaircase(topLeft, FootprintsOf(Conns(lines), placed.boxes), placed.corners)
      ensures LanedUpTo(Conns(lines), ms, placed.boxes, |processes|)
      ensures LabelsApart(Conns(lines), LabelsOf(Conns(lines), ms, placed))
      ensures dx == Diagrams.ShiftAmount(LeftEdges(Conns(lines), ms, placed))
      ensures dy == Diagrams.ShiftAmount(TopEdges(Conns(lines), ms, placed))
      ensures CornersOf(processes) == TranslatedAll(placed.corners, dx, dy)
      ensures Diagrams.IsStaircase(topLeft.Translate(dx, dy), FootprintsOf(Conns(lines), placed.boxes), CornersOf(processes))
      ensures Fits(concepts, Conns(lines), Clearances(lines), SceneOf())
    {
      placed := Arrange();
      ms := Clearances(lines);
      dx, dy := Settle(placed);
      assert Clearances(lines) == ms;
      StaircaseTranslates(topLeft, FootprintsOf(Conns(lines), placed.boxes), placed.corners, dx, dy);
    }

    /**
     * What `IDEF0.diagram` does once the block has declared the boxes:
     * `connect`, then `layout`.  Every line then lies right of and below
     * the origin and within the diagram's width and height, and every box
     * is laned.
     */
    method ConnectAndLayout() returns (dx: int, dy: int)
      requires Valid()
      modifies this`lines, processes`topLeft, this`width, this`height
      ensures Valid() && ConceptsOf(processes) == old(ConceptsOf(processes))
      ensures Conns(lines) == SpikeConnect.Connect(concepts, ConceptsOf(processes))
      ensures LanedUpTo(Conns(lines), Clearances(lines), ConceptsOf(processes), |processes|)
      ensures forall k :: 0 <= k < |lines| ==> Within(lines[k].conn, lines[k].clearance, SceneOf())
    {
      Connect();
      ghost var placed, ms;
      placed, ms, dx, dy := Layout();
      ConnectedFit(concepts, ms, SceneOf());
    }
  }
}
