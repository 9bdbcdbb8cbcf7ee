/**
 * The layout rules of the prototype renderer (spike.rb): which box sides a
 * line keeps clear, the order of the lines along a side, the margins a box
 * leaves around itself, and the shape of each line class.
 */
module SpikeLayout {
  import opened Wrappers
  import opened Geometry
  import opened SpikeBoxes
  import opened SpikeConnect
  import Taxonomy
  import Order
  import Routing
  import LegacyLines

  /** A side of a box or of the frame. */
  datatype Side = Side(box: End, dir: Taxonomy.Direction)

  function TopOf(e: End): Side { Side(e, Taxonomy.Top) }
  function RightOf(e: End): Side { Side(e, Taxonomy.Right) }
  function BottomOf(e: End): Side { Side(e, Taxonomy.Bottom) }

  // ---------------------------------------------------------------------
  // Cleared sides and their order

  /**
   * `sides_to_clear`: a forward input line keeps its source's right side
   * clear; a backward guidance line its target's top and its source's right;
   * a forward mechanism line its source's right and its target's bottom; a
   * backward mechanism line its source's right and bottom.  External and
   * forward guidance lines keep no side clear.
   */
  function SidesToClear(c: Connection): seq<Side>
  {
    match c.kind
    case ForwardInput => [RightOf(c.source)]
    case BackwardGuidance => [TopOf(c.target), RightOf(c.source)]
    case ForwardMechanism => [RightOf(c.source), BottomOf(c.target)]
    case BackwardMechanism => [RightOf(c.source), BottomOf(c.source)]
    case _ => []
  }

  /** `clear?(side)`. */
  predicate Clears(c: Connection, side: Side)
  {
    side in SidesToClear(c)
  }

  /** `upward?`: only a backward guidance line climbs the right side of its source. */
  predicate Upward(c: Connection)
  {
    c.kind == BackwardGuidance
  }

  /**
   * What a line keeps clear: no left side ever; of right sides only its
   * source's; a top side only as a backward guidance line entering its
   * target; a bottom side only as a mechanism line, its target's when
   * forward and its source's when backward.
   */
  lemma ClearedSides(c: Connection, side: Side)
    requires Clears(c, side)
    ensures c.kind in {ForwardInput, BackwardGuidance, ForwardMechanism, BackwardMechanism}
    ensures side.dir != Taxonomy.Left
    ensures side.dir == Taxonomy.Right <==> side == RightOf(c.source)
    ensures side.dir == Taxonomy.Top <==> c.kind == BackwardGuidance && side == TopOf(c.target)
    ensures side.dir == Taxonomy.Bottom <==>
      (c.kind == ForwardMechanism && side == BottomOf(c.target)) || (c.kind == BackwardMechanism && side == BottomOf(c.source))
  {
  }

  /** The role in which a line's target declares its name, and whose anchor the line ends at. */
  function TargetRole(k: LineKind): Role
  {
    match k
    case ExternalInput | ForwardInput => Input
    case ExternalGuidance | ForwardGuidance | BackwardGuidance => Guidance
    case ExternalMechanism | ForwardMechanism | BackwardMechanism => Mechanism
    case ExternalOutput => Output
  }

  function Tuple(o: Option<nat>, f: int -> seq<int>): Option<seq<int>>
  {
    match o
    case None => None
    case Some(a) => Some(f(a))
  }

  /**
   * `precedence(side)`: the sort key of a line on a side it keeps clear,
   * built from box sequence numbers (a box's position) and anchor sequence
   * numbers (a name's position in its set).  None for a side the class
   * does not list (Ruby's nil) and, where Ruby would raise, for a name the
   * box does not declare.
   */
  function Precedence(c: Connection, side: Side, boxes: seq<Concepts>): Option<seq<int>>
  {
    if !(c.source.Child? && c.target.Child? && c.source.index < |boxes| && c.target.index < |boxes|) then None
    else
      var s: int := c.source.index;
      var t: int := c.target.index;
      var sa := IndexIn(boxes[s].outputs, c.name);
      var ta := IndexIn(boxes[t].Of(TargetRole(c.kind)), c.name);
      match c.kind
      case ForwardInput =>
        if side == RightOf(c.source) then Tuple(ta, a => [2, -t, 2, -a]) else None
      case BackwardGuidance =>
        if side == TopOf(c.target) then Tuple(ta, a => [1, s, -a])
        else if side == RightOf(c.source) then Tuple(sa, a => [1, -t, a])
        else None
      case ForwardMechanism =>
        if side == BottomOf(c.target) then Tuple(ta, a => [1, -s, a])
        else if side == RightOf(c.source) then Tuple(ta, a => [2, -t, 1, -a])
        else None
      case BackwardMechanism =>
        if side == BottomOf(c.source) then Tuple(ta, a => [2, -t, -a])
        else if side == RightOf(c.source) then Tuple(ta, a => [1, -t, -a])
        else None
      case _ => None
  }

  /** A line that `connect` would draw has a key on every side it keeps clear, and on no other. */
  lemma PrecedenceDefined(frame: Concepts, boxes: seq<Concepts>, c: Connection, side: Side)
    requires Admissible(frame, boxes, c)
    ensures Precedence(c, side, boxes).Some? <==> Clears(c, side)
  {
  }

  /**
   * The order along the right side of a box, among lines running down:
   * its backward mechanism lines come first (nearest the box), then its
   * forward lines, those to a farther box before those to a nearer one,
   * and to the same box a mechanism line before an input line.
   */
  lemma RightSideOrder(frame: Concepts, boxes: seq<Concepts>, a: Connection, b: Connection)
    requires Admissible(frame, boxes, a) && Admissible(frame, boxes, b)
    requires a.source == b.source && Clears(a, RightOf(a.source)) && Clears(b, RightOf(b.source))
    ensures a.kind == BackwardMechanism && b.kind in {ForwardInput, ForwardMechanism} ==>
      Order.LexLess(Precedence(a, RightOf(a.source), boxes).value, Precedence(b, RightOf(b.source), boxes).value)
    ensures (a.kind in {ForwardInput, ForwardMechanism} && b.kind in {ForwardInput, ForwardMechanism} &&
             a.target.index > b.target.index) ==>
      Order.LexLess(Precedence(a, RightOf(a.source), boxes).value, Precedence(b, RightOf(b.source), boxes).value)
    ensures a.kind == ForwardMechanism && b.kind == ForwardInput && a.target == b.target ==>
      Order.LexLess(Precedence(a, RightOf(a.source), boxes).value, Precedence(b, RightOf(b.source), boxes).value)
  {
    PrecedenceDefined(frame, boxes, a, RightOf(a.source));
    PrecedenceDefined(frame, boxes, b, RightOf(b.source));
  }

  /**
   * The order along the bottom side of a box: forward mechanism lines
   * entering it come before (nearer the box than) its own backward
   * mechanism lines leaving it.
   */
  lemma BottomSideOrder(frame: Concepts, boxes: seq<Concepts>, a: Connection, b: Connection, side: Side)
    requires Admissible(frame, boxes, a) && Admissible(frame, boxes, b)
    requires Clears(a, side) && Clears(b, side) && side.dir == Taxonomy.Bottom
    requires a.kind == ForwardMechanism && b.kind == BackwardMechanism
    ensures Order.LexLess(Precedence(a, side, boxes).value, Precedence(b, side, boxes).value)
  {
    PrecedenceDefined(frame, boxes, a, side);
    PrecedenceDefined(frame, boxes, b, side);
  }

  // ---------------------------------------------------------------------
  // Groups, lanes and margins

  /** Which lines of a side a group holds: all of them, or only those running up or down. */
  datatype Filter = All | Up | Down

  predicate InGroup(c: Connection, side: Side, f: Filter)
  {
    Clears(c, side) && match f
      case All => true
      case Up => Upward(c)
      case Down => !Upward(c)
  }

  /**
   * `select` and `partition`: the positions of the lines of the group, in
   * line order.
   */
  function Selected(cs: seq<Connection>, side: Side, f: Filter): (r: seq<nat>)
    ensures forall q :: 0 <= q < |r| ==> r[q] < |cs| && InGroup(cs[r[q]], side, f)
  {
    if cs == [] then []
    else
      var n := |cs| - 1;
      var init := cs[..n];
      var rest := Selected(init, side, f);
      assert forall q :: 0 <= q < |rest| ==> rest[q] < n && init[rest[q]] == cs[rest[q]];
      if InGroup(cs[n], side, f) then rest + [n] else rest
  }

  /** A group holds every line of the side that passes its filter. */
  lemma {:induction false} SelectedComplete(cs: seq<Connection>, side: Side, f: Filter)
    ensures forall k :: 0 <= k < |cs| && InGroup(cs[k], side, f) ==> k in Selected(cs, side, f)
  {
    if cs != [] {
      var n := |cs| - 1;
      var init := cs[..n];
      SelectedComplete(init, side, f);
      assert forall k :: 0 <= k < n ==> init[k] == cs[k];
    }
  }

  predicate Ascending(r: seq<nat>)
  {
    forall p, q :: 0 <= p < q < |r| ==> r[p] < r[q]
  }

  /** A group lists its lines in line order, each once. */
  lemma {:induction false} SelectedAscending(cs: seq<Connection>, side: Side, f: Filter)
    ensures Ascending(Selected(cs, side, f))
  {
    if cs != [] {
      var n := |cs| - 1;
      var init := cs[..n];
      SelectedAscending(init, side, f);
      var rest := Selected(init, side, f);
      assert forall q :: 0 <= q < |rest| ==> rest[q] < n;
      if InGroup(cs[n], side, f) {
        var r := rest + [n];
        assert Selected(cs, side, f) == r;
        forall p, q | 0 <= p < q < |r|
          ensures r[p] < r[q]
        {
          if q < |rest| {
            assert r[p] == rest[p] && r[q] == rest[q];
          } else {
            assert r[p] == rest[p] && r[q] == n;
          }
        }
      }
    }
  }

  /** `partition(&:upward?)` splits the lines of a side into the upward and the downward ones. */
  lemma {:induction false} PartitionSizes(cs: seq<Connection>, side: Side)
    ensures |Selected(cs, side, Up)| + |Selected(cs, side, Down)| == |Selected(cs, side, All)|
  {
    if cs != [] {
      PartitionSizes(cs[..|cs| - 1], side);
    }
  }

  /**
   * Lanes as `each_with_index` hands them out after `sort_by(precedence)`:
   * the group's lines get the distances 20, 40, ..., 20 * n, each once,
   * and a line with a smaller key gets a smaller distance.
   */
  ghost predicate IsLaneAssignment(lanes: seq<int>, keys: seq<seq<int>>)
  {
    && |lanes| == |keys|
    && (forall q :: 0 <= q < |keys| ==> 20 <= lanes[q] <= 20 * |keys| && lanes[q] % 20 == 0)
    && (forall q :: 0 <= q < |keys| ==> 20 + 20 * q in lanes)
    && (forall p, q :: 0 <= p < |keys| && 0 <= q < |keys| && p != q ==> lanes[p] != lanes[q])
    && (forall p, q :: 0 <= p < |keys| && 0 <= q < |keys| && Order.LexLess(keys[p], keys[q]) ==> lanes[p] < lanes[q])
  }

  /** The top margin: 20 per line crossing the top side. */
  function TopMargin(cs: seq<Connection>, i: nat): int
  {
    20 * |Selected(cs, TopOf(Child(i)), All)|
  }

  /** The right margin: 20, plus 20 per line on the busier of the upward and downward groups. */
  function RightMargin(cs: seq<Connection>, i: nat): int
  {
    20 + 20 * Max(|Selected(cs, RightOf(Child(i)), Up)|, |Selected(cs, RightOf(Child(i)), Down)|)
  }

  /** The bottom margin: 20, plus 20 per line running under the bottom side. */
  function BottomMargin(cs: seq<Connection>, i: nat): int
  {
    20 + 20 * |Selected(cs, BottomOf(Child(i)), All)|
  }

  /**
   * The margins hold the lanes: a top lane lies within the top margin, and
   * a right or bottom lane leaves at least 20 of its margin free beyond it.
   * The right margin counts the two right-side groups apart, because they
   * are numbered apart, so it may be smaller than 20 per line on the side.
   */
  lemma MarginsHoldLanes(cs: seq<Connection>, i: nat, lanes: seq<int>, keys: seq<seq<int>>, side: Side, f: Filter)
    requires side.box == Child(i) && |keys| == |Selected(cs, side, f)| && IsLaneAssignment(lanes, keys)
    requires side.dir == Taxonomy.Top ==> f == All
    requires side.dir == Taxonomy.Bottom ==> f == All
    requires side.dir == Taxonomy.Right ==> f != All
    ensures forall q :: 0 <= q < |lanes| ==>
      (side.dir == Taxonomy.Top ==> lanes[q] <= TopMargin(cs, i)) &&
      (side.dir == Taxonomy.Right ==> lanes[q] + 20 <= RightMargin(cs, i)) &&
      (side.dir == Taxonomy.Bottom ==> lanes[q] + 20 <= BottomMargin(cs, i))
    ensures Max(|Selected(cs, RightOf(Child(i)), Up)|, |Selected(cs, RightOf(Child(i)), Down)|) <= |Selected(cs, RightOf(Child(i)), All)|
  {
    PartitionSizes(cs, RightOf(Child(i)));
  }

  // ---------------------------------------------------------------------
  // Line shapes

  /** `clearance_from(side)`: the distance set for the side, or 0. */
  function Cleared(m: map<Side, int>, s: Side): int
  {
    if s in m then m[s] else 0
  }

  /**
   * The start x: an external input line starts at the frame's left edge or
   * a minimum length before its anchor, whichever is further left;
   * external guidance and mechanism lines are vertical under or over their
   * anchor; every other line starts at its source's output anchor.
   */
  function X1(c: Connection, e: Routing.Ends, m: map<Side, int>): int
  {
    match c.kind
    case ExternalInput => Routing.Min(e.source.x1, e.targetAnchor.x - Routing.MinimumLength(c.name))
    case ExternalGuidance | ExternalMechanism => e.targetAnchor.x
    case _ => e.sourceAnchor.x
  }

  /** The start y: external guidance and mechanism lines start clear of the frame edge and of their anchor. */
  function Y1(c: Connection, e: Routing.Ends, m: map<Side, int>): int
  {
    match c.kind
    case ExternalInput => e.targetAnchor.y
    case ExternalGuidance => LegacyLines.LegacyY1(true, e.source, e.targetAnchor, Cleared(m, TopOf(c.target)))
    case ExternalMechanism => LegacyLines.LegacyY1(false, e.source, e.targetAnchor, Cleared(m, BottomOf(c.target)))
    case _ => e.sourceAnchor.y
  }

  /** The end x: an external output line runs to the frame's right edge or a minimum length, whichever is further. */
  function X2(c: Connection, e: Routing.Ends, m: map<Side, int>): int
  {
    if c.kind == ExternalOutput then Routing.Max(e.sourceAnchor.x + Routing.MinimumLength(c.name), e.target.X2())
    else e.targetAnchor.x
  }

  function Y2(c: Connection, e: Routing.Ends, m: map<Side, int>): int
  {
    if c.kind == ExternalOutput then e.sourceAnchor.y else e.targetAnchor.y
  }

  /** `x_vertical`: the vertical segment runs the source's right-side clearance right of the start. */
  function XVertical(c: Connection, e: Routing.Ends, m: map<Side, int>): int
  {
    e.sourceAnchor.x + Cleared(m, RightOf(c.source))
  }

  /**
   * `y_horizontal`: a backward guidance line crosses above its target by
   * the target's top clearance, a forward mechanism line below its target by
   * the target's bottom clearance, a backward mechanism line below its
   * source's bottom edge by the source's bottom clearance.
   */
  function YHorizontal(c: Connection, e: Routing.Ends, m: map<Side, int>): int
  {
    match c.kind
    case BackwardGuidance => e.targetAnchor.y - Cleared(m, TopOf(c.target))
    case ForwardMechanism => e.targetAnchor.y + Cleared(m, BottomOf(c.target))
    case BackwardMechanism => e.source.Y2() + Cleared(m, BottomOf(c.source))
    case _ => e.targetAnchor.y
  }

  function LeftEdge(c: Connection, e: Routing.Ends, m: map<Side, int>): int
  {
    Routing.Min(X1(c, e, m), X2(c, e, m))
  }

  function TopEdge(c: Connection, e: Routing.Ends, m: map<Side, int>): int
  {
    if c.kind == BackwardGuidance then YHorizontal(c, e, m) else Routing.Min(Y1(c, e, m), Y2(c, e, m))
  }

  function RightEdge(c: Connection, e: Routing.Ends, m: map<Side, int>): int
  {
    if c.kind == BackwardGuidance || c.kind == BackwardMechanism then XVertical(c, e, m)
    else Routing.Max(X1(c, e, m), X2(c, e, m))
  }

  function BottomEdge(c: Connection, e: Routing.Ends, m: map<Side, int>): int
  {
    if c.kind == ForwardMechanism || c.kind == BackwardMechanism then YHorizontal(c, e, m)
    else Routing.Max(Y1(c, e, m), Y2(c, e, m))
  }

  /** `label` of each line class. */
  function LabelOf(c: Connection, e: Routing.Ends, m: map<Side, int>): Label
  {
    match c.kind
    case ExternalInput => Label(c.name, Point(e.source.x1 + 5, Y1(c, e, m) - 5), LeftAligned)
    case ExternalOutput => Label(c.name, Point(e.target.X2() - 5, Y2(c, e, m) - 5), RightAligned)
    case ExternalGuidance => LegacyLines.LegacyLabel(true, c.name, e.source, e.targetAnchor, Cleared(m, TopOf(c.target)))
    case ExternalMechanism => LegacyLines.LegacyLabel(false, c.name, e.source, e.targetAnchor, Cleared(m, BottomOf(c.target)))
    case BackwardGuidance => Label(c.name, Point(RightEdge(c, e, m) - 10, YHorizontal(c, e, m) - 5 + 20), RightAligned)
    case ForwardMechanism => Label(c.name, Point(XVertical(c, e, m) + 10, YHorizontal(c, e, m) - 5), LeftAligned)
    case BackwardMechanism => Label(c.name, Point(RightEdge(c, e, m) - 10, YHorizontal(c, e, m) - 5), RightAligned)
    case _ => Label(c.name, Point(e.sourceAnchor.x + 5, e.sourceAnchor.y - 5), LeftAligned)
  }

  /** Every clearance is a distance, never negative. */
  ghost predicate Distances(m: map<Side, int>)
  {
    forall s :: s in m ==> m[s] >= 0
  }

  /**
   * Each line's edges enclose it: the left edge is not right of the right
   * edge, and the top edge not below the bottom edge.  A backward mechanism
   * line needs its output anchor on its source box, which holds for every
   * anchor a box hands out.
   */
  lemma EdgesOrdered(c: Connection, e: Routing.Ends, m: map<Side, int>)
    requires Distances(m)
    requires c.kind == BackwardMechanism ==> e.sourceAnchor.y <= e.source.Y2()
    ensures LeftEdge(c, e, m) <= RightEdge(c, e, m)
    ensures TopEdge(c, e, m) <= BottomEdge(c, e, m)
  {
  }

  /**
   * The external lines reach the frame: an input line starts at or left of
   * the frame's left edge and an output line ends at or right of its right
   * edge, both horizontal and at least the minimum length (10 plus the
   * label's length) long; guidance and mechanism lines are vertical and
   * start at or beyond the frame's top or bottom edge.
   */
  lemma ExternalRoutes(c: Connection, e: Routing.Ends, m: map<Side, int>)
    ensures c.kind == ExternalInput ==>
      X1(c, e, m) <= e.source.x1 && X2(c, e, m) - X1(c, e, m) >= Routing.MinimumLength(c.name) &&
      Y1(c, e, m) == Y2(c, e, m) == e.targetAnchor.y
    ensures c.kind == ExternalOutput ==>
      X2(c, e, m) >= e.target.X2() && X2(c, e, m) - X1(c, e, m) >= Routing.MinimumLength(c.name) &&
      Y1(c, e, m) == Y2(c, e, m) == e.sourceAnchor.y
    ensures c.kind == ExternalGuidance ==>
      X1(c, e, m) == X2(c, e, m) && Y1(c, e, m) <= e.source.y1 && Y1(c, e, m) <= e.targetAnchor.y - Cleared(m, TopOf(c.target))
    ensures c.kind == ExternalMechanism ==>
      X1(c, e, m) == X2(c, e, m) && Y1(c, e, m) >= e.source.Y2() && Y1(c, e, m) >= e.targetAnchor.y + Cleared(m, BottomOf(c.target))
  {
    LegacyLines.LegacyY1Clamps(true, e.source, e.targetAnchor, Cleared(m, TopOf(c.target)));
    LegacyLines.LegacyY1Clamps(false, e.source, e.targetAnchor, Cleared(m, BottomOf(c.target)));
  }

  /**
   * The lanes place the segments: every line that keeps a side clear runs
   * its segment along that side at exactly the side's clearance, vertical
   * ones right of the source's output anchor and horizontal ones above or
   * below the box edge or anchor they pass.
   */
  lemma SegmentsFollowLanes(c: Connection, e: Routing.Ends, m: map<Side, int>, side: Side)
    requires Clears(c, side)
    ensures side.dir == Taxonomy.Right ==> XVertical(c, e, m) - X1(c, e, m) == Cleared(m, side)
    ensures side.dir == Taxonomy.Top ==> Y2(c, e, m) - YHorizontal(c, e, m) == Cleared(m, side)
    ensures side.dir == Taxonomy.Bottom && c.kind == ForwardMechanism ==>
      YHorizontal(c, e, m) - Y2(c, e, m) == Cleared(m, side)
    ensures side.dir == Taxonomy.Bottom && c.kind == BackwardMechanism ==>
      YHorizontal(c, e, m) - e.source.Y2() == Cleared(m, side)
  {
  }
}
