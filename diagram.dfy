/**
 * The diagram (Diagram): its process boxes, get-or-created by name; the
 * choice of box order that draws the fewest backward lines; the staircase
 * placement of the boxes; the passes that stretch the external lines and
 * move their labels apart; and the final shift and resize.
 */
module Diagrams {
  import opened Wrappers
  import opened Taxonomy
  import opened Geometry
  import opened Lines
  import opened Sides
  import opened Boxes
  import opened Routing
  import ArraySets

  // ---------------------------------------------------------------------
  // Extremes

  /** `min || 0`: the least value, or 0 when there is none. */
  function Least(xs: seq<int>): (r: int)
    ensures xs == [] ==> r == 0
    ensures xs != [] ==> r in xs && forall x :: x in xs ==> r <= x
  {
    if |xs| <= 1 then (if xs == [] then 0 else xs[0])
    else
      var rest := Least(xs[1..]);
      assert forall x :: x in xs ==> x == xs[0] || x in xs[1..];
      Min(xs[0], rest)
  }

  /** `max || 0`: the greatest value, or 0 when there is none. */
  function Greatest(xs: seq<int>): (r: int)
    ensures xs == [] ==> r == 0
    ensures xs != [] ==> r in xs && forall x :: x in xs ==> x <= r
  {
    if |xs| <= 1 then (if xs == [] then 0 else xs[0])
    else
      var rest := Greatest(xs[1..]);
      assert forall x :: x in xs ==> x == xs[0] || x in xs[1..];
      Max(xs[0], rest)
  }

  /** The four edges of something drawn: a box, a line, or the whole diagram. */
  datatype Extent = Extent(left: int, top: int, right: int, bottom: int)

  function Lefts(xs: seq<Extent>): (r: seq<int>)
    ensures |r| == |xs| && forall i :: 0 <= i < |xs| ==> r[i] == xs[i].left
  {
    seq(|xs|, i requires 0 <= i < |xs| => xs[i].left)
  }

  function Tops(xs: seq<Extent>): (r: seq<int>)
    ensures |r| == |xs| && forall i :: 0 <= i < |xs| ==> r[i] == xs[i].top
  {
    seq(|xs|, i requires 0 <= i < |xs| => xs[i].top)
  }

  function Rights(xs: seq<Extent>): (r: seq<int>)
    ensures |r| == |xs| && forall i :: 0 <= i < |xs| ==> r[i] == xs[i].right
  {
    seq(|xs|, i requires 0 <= i < |xs| => xs[i].right)
  }

  function Bottoms(xs: seq<Extent>): (r: seq<int>)
    ensures |r| == |xs| && forall i :: 0 <= i < |xs| ==> r[i] == xs[i].bottom
  {
    seq(|xs|, i requires 0 <= i < |xs| => xs[i].bottom)
  }

  /**
   * The diagram's edges: the least left and top and the greatest right and
   * bottom over its boxes and lines together, each 0 when there are none.
   * A box's left and top edges are its x1 and y1.
   */
  function DiagramExtent(boxes: seq<Extent>, lines: seq<Extent>): Extent
  {
    var all := boxes + lines;
    Extent(Least(Lefts(all)), Least(Tops(all)), Greatest(Rights(all)), Greatest(Bottoms(all)))
  }

  /** Everything drawn lies within the diagram's edges, and each edge is met by something drawn unless nothing is. */
  lemma DiagramExtentBounds(boxes: seq<Extent>, lines: seq<Extent>)
    ensures var d := DiagramExtent(boxes, lines);
      && (forall x :: x in boxes + lines ==> d.left <= x.left && d.top <= x.top && x.right <= d.right && x.bottom <= d.bottom)
      && (boxes + lines == [] ==> d == Extent(0, 0, 0, 0))
      && (boxes + lines != [] ==> exists x :: x in boxes + lines && x.left == d.left)
      && (boxes + lines != [] ==> exists x :: x in boxes + lines && x.bottom == d.bottom)
  {
    var all := boxes + lines;
    var d := DiagramExtent(boxes, lines);
    forall x | x in all
      ensures d.left <= x.left && d.top <= x.top && x.right <= d.right && x.bottom <= d.bottom
    {
      var i :| 0 <= i < |all| && all[i] == x;
      assert Lefts(all)[i] in Lefts(all) && Tops(all)[i] in Tops(all);
      assert Rights(all)[i] in Rights(all) && Bottoms(all)[i] in Bottoms(all);
    }
    if all != [] {
      var i :| 0 <= i < |all| && Lefts(all)[i] == d.left;
      assert all[i] in all;
      var j :| 0 <= j < |all| && Bottoms(all)[j] == d.bottom;
      assert all[j] in all;
    }
  }

  /**
   * `top_edge` and `left_edge` as written ask each process box for its
   * top and left edge, which Box does not define, so they raise as soon
   * as the diagram holds a box; right and bottom edges are defined.
   */
  function TopEdgeAsWritten(boxes: seq<Extent>, lines: seq<Extent>): (r: Result<int>)
    ensures boxes == [] ==> r == Ok(DiagramExtent(boxes, lines).top)
  {
    if boxes != [] then Err("undefined method `top_edge'")
    else
      assert boxes + lines == lines;
      Ok(Least(Tops(lines)))
  }

  /** A diagram with one box and no line: as written its top edge raises; the corrected edge is the box's top. */
  lemma TopEdgeAsWrittenRaises()
    ensures TopEdgeAsWritten([Extent(20, 30, 200, 90)], []).Err?
    ensures DiagramExtent([Extent(20, 30, 200, 90)], []).top == 30
  {
    var all := [Extent(20, 30, 200, 90)] + [];
    assert Tops(all) == [30];
  }

  // ---------------------------------------------------------------------
  // Choosing the box order

  /** How many of the flags are set. */
  function Count(flags: seq<bool>): (n: nat)
    ensures n <= |flags|
  {
    if flags == [] then 0
    else Count(flags[..|flags| - 1]) + (if flags[|flags| - 1] then 1 else 0)
  }

  /** None is counted exactly when no flag is set, and all are exactly when every flag is. */
  lemma {:induction false} CountExtremes(flags: seq<bool>)
    ensures Count(flags) == 0 <==> forall i :: 0 <= i < |flags| ==> !flags[i]
    ensures Count(flags) == |flags| <==> forall i :: 0 <= i < |flags| ==> flags[i]
  {
    if flags != [] {
      var prefix := flags[..|flags| - 1];
      CountExtremes(prefix);
      assert forall i :: 0 <= i < |prefix| ==> prefix[i] == flags[i];
    }
  }

  /** Which of the lines are backward. */
  function BackwardFlags(lines: seq<LineSpec>): (r: seq<bool>)
    ensures |r| == |lines| && forall i :: 0 <= i < |lines| ==> r[i] == IsBackward(lines[i].kind)
  {
    seq(|lines|, i requires 0 <= i < |lines| => IsBackward(lines[i].kind))
  }

  /** `count(&:backward?)`: how many of the lines are backward. */
  function BackwardCount(lines: seq<LineSpec>): (n: nat)
    ensures n <= |lines|
  {
    Count(BackwardFlags(lines))
  }

  /** No line is counted exactly when none is backward, and every line exactly when all are. */
  lemma BackwardCountExtremes(lines: seq<LineSpec>)
    ensures BackwardCount(lines) == 0 <==> forall i :: 0 <= i < |lines| ==> !IsBackward(lines[i].kind)
    ensures BackwardCount(lines) == |lines| <==> forall i :: 0 <= i < |lines| ==> IsBackward(lines[i].kind)
  {
    CountExtremes(BackwardFlags(lines));
  }

  /** k is the first position holding the least count. */
  ghost predicate IsFirstMinimum(counts: seq<nat>, k: nat)
  {
    && k < |counts|
    && (forall j :: 0 <= j < |counts| ==> counts[k] <= counts[j])
    && (forall j :: 0 <= j < k ==> counts[j] > counts[k])
  }

  /** There is only one first minimum. */
  lemma FirstMinimumUnique(counts: seq<nat>, k: nat, m: nat)
    requires IsFirstMinimum(counts, k) && IsFirstMinimum(counts, m)
    ensures k == m
  {
    assert counts[k] <= counts[m] && counts[m] <= counts[k];
  }

  /**
   * The selection in `create_lines`: walks the candidates' backward counts
   * and keeps a candidate when it is the first or strictly beats the one
   * kept, so the kept one is the first with the least count.
   */
  method ChooseOrdering(counts: seq<nat>) returns (best: Option<nat>)
    ensures counts == [] <==> best.None?
    ensures best.Some? ==> IsFirstMinimum(counts, best.value)
  {
    best := None;
    var least := 0;
    var i := 0;
    while i < |counts|
      invariant 0 <= i <= |counts|
      invariant i == 0 <==> best.None?
      invariant best.Some? ==> IsFirstMinimum(counts[..i], best.value) && least == counts[best.value]
    {
      if best.None? || counts[i] < least {
        best, least := Some(i), counts[i];
      }
      i := i + 1;
    }
    assert counts[..i] == counts;
  }

  /** Positions of a sequence of distinct boxes. */
  ghost predicate Distinct(bs: seq<Box>)
  {
    forall i, j :: 0 <= i < j < |bs| ==> bs[i] != bs[j]
  }

  /** `sequence!`: numbers the boxes 0, 1, ... in order, leaving where they are alone. */
  method Resequence(bs: seq<Box>)
    requires Distinct(bs)
    modifies bs`sequence
    ensures forall k :: 0 <= k < |bs| ==> bs[k].sequence == k
  {
    var k := 0;
    while k < |bs|
      invariant 0 <= k <= |bs|
      invariant forall j :: 0 <= j < k ==> bs[j].sequence == j
    {
      bs[k].sequence := k;
      k := k + 1;
    }
  }

  /** After renumbering, `before?` is the order of the list. */
  lemma ResequencedOrder(bs: seq<Box>, i: nat, j: nat)
    requires forall k :: 0 <= k < |bs| ==> bs[k].sequence == k
    requires i < |bs| && j < |bs|
    ensures bs[i].Before(bs[j]) <==> i < j
    ensures bs[i].After(bs[j]) <==> i > j
  {
  }

  // ---------------------------------------------------------------------
  // Placement

  /** What placing a box reads: its size and the margins of its top, right and bottom sides. */
  datatype Footprint = Footprint(width: int, height: int, top: int, right: int, bottom: int)

  /** Where the next box starts: right of this one and its right margin, below it and its bottom margin. */
  function Next(corner: Point, f: Footprint): Point
  {
    Point(corner.x + f.width + f.right, corner.y + f.height + f.bottom)
  }

  /**
   * The staircase: the first box is at the start point lowered by its top
   * margin, and each next box at the point past the previous box's
   * bottom-right corner and its right and bottom margins, lowered by its
   * own top margin.
   */
  ghost predicate IsStaircase(start: Point, fs: seq<Footprint>, ps: seq<Point>)
  {
    && |ps| == |fs|
    && (fs != [] ==> ps[0] == start.Translate(0, fs[0].top))
    && forall k :: 0 <= k < |fs| - 1 ==> ps[k + 1] == Next(ps[k], fs[k]).Translate(0, fs[k + 1].top)
  }

  /** Sizes and margins as laid out: positive sizes, non-negative margins. */
  ghost predicate Sensible(fs: seq<Footprint>)
  {
    forall k :: 0 <= k < |fs| ==> fs[k].width > 0 && fs[k].height > 0 && fs[k].top >= 0 && fs[k].right >= 0 && fs[k].bottom >= 0
  }

  /**
   * Along a staircase every later box lies wholly right of an earlier box
   * and its right margin, and wholly below it and its bottom margin, so no
   * two boxes overlap.
   */
  lemma {:induction false} StaircaseSeparates(start: Point, fs: seq<Footprint>, ps: seq<Point>, i: nat, j: nat)
    requires IsStaircase(start, fs, ps) && Sensible(fs)
    requires i < j < |fs|
    ensures ps[i].x + fs[i].width + fs[i].right <= ps[j].x
    ensures ps[i].y + fs[i].height + fs[i].bottom <= ps[j].y
    decreases j
  {
    if i < j - 1 {
      StaircaseSeparates(start, fs, ps, i, j - 1);
    }
    assert ps[j] == Next(ps[j - 1], fs[j - 1]).Translate(0, fs[j].top);
  }

  function FootprintOf(b: Box): Footprint
    reads b, b.top, b.left, b.right, b.bottom
  {
    Footprint(b.Width(), b.Height(), b.top.margin, b.right.margin, b.bottom.margin)
  }

  /** Moves one box to the running point, lowered by its top margin, and gives the next running point. */
  method PlaceBox(b: Box, point: Point) returns (next: Point, ghost f: Footprint)
    modifies b`topLeft
    ensures f == FootprintOf(b)
    ensures b.topLeft == point.Translate(0, f.top)
    ensures next == Next(b.topLeft, f)
  {
    f := FootprintOf(b);
    b.MoveTo(point);
    b.Translate(0, b.top.margin);
    next := Point(b.X2() + b.right.margin, b.Y2() + b.bottom.margin);
  }

  /** The placement half of `layout`'s fold over the boxes: moves each box to its stair. */
  method PlaceBoxes(bs: seq<Box>, start: Point) returns (ghost fs: seq<Footprint>, ghost ps: seq<Point>)
    requires Distinct(bs)
    modifies bs`topLeft
    ensures |fs| == |bs| && forall k :: 0 <= k < |bs| ==> fs[k] == FootprintOf(bs[k])
    ensures IsStaircase(start, fs, ps) && forall k :: 0 <= k < |bs| ==> bs[k].topLeft == ps[k]
  {
    fs, ps := [], [];
    var point := start;
    var i := 0;
    while i < |bs|
      invariant 0 <= i <= |bs| && |fs| == i
      invariant forall k :: 0 <= k < i ==> fs[k] == FootprintOf(bs[k])
      invariant IsStaircase(start, fs, ps) && forall k :: 0 <= k < i ==> bs[k].topLeft == ps[k]
      invariant point == if i == 0 then start else Next(ps[i - 1], fs[i - 1])
    {
      ghost var f;
      point, f := PlaceBox(bs[i], point);
      fs, ps := fs + [f], ps + [bs[i].topLeft];
      i := i + 1;
    }
  }

  // ---------------------------------------------------------------------
  // Stretching the external lines and separating labels

  /** The labels of the lines, each read from its own end points and clearances. */
  ghost function Labels(ls: seq<Line>, ends: seq<Ends>): (r: seq<Label>)
    requires |ends| == |ls|
    reads ls
    ensures |r| == |ls|
  {
    seq(|ls|, j requires 0 <= j < |ls| reads ls => LabelOf(ls[j].spec, ends[j], ls[j].clearance))
  }

  ghost predicate DistinctLines(ls: seq<Line>)
  {
    forall i, j :: 0 <= i < j < |ls| ==> ls[i] != ls[j]
  }

  /** The bounding-box pass of `layout`: every line is offered the diagram's corners. */
  method StretchAll(ls: seq<Line>, ends: seq<Ends>, p1: Point, p2: Point)
    requires |ends| == |ls| && DistinctLines(ls)
    modifies ls`clearance
    ensures forall k :: 0 <= k < |ls| && Behaviour(ls[k].spec.kind) == ExternalGuidance ==>
      Y1(ls[k].spec, ends[k], ls[k].clearance) == p1.y - 40
    ensures forall k :: 0 <= k < |ls| && Behaviour(ls[k].spec.kind) != ExternalGuidance ==>
      ls[k].clearance == old(ls[k].clearance)
  {
    var i := 0;
    while i < |ls|
      invariant 0 <= i <= |ls|
      invariant forall k :: 0 <= k < i && Behaviour(ls[k].spec.kind) == ExternalGuidance ==>
        Y1(ls[k].spec, ends[k], ls[k].clearance) == p1.y - 40
      invariant forall k :: 0 <= k < |ls| && (k >= i || Behaviour(ls[k].spec.kind) != ExternalGuidance) ==>
        ls[k].clearance == old(ls[k].clearance)
    {
      BoundingBox(ls[i], ends[i], p1, p2);
      i := i + 1;
    }
  }

  /** Whether the labels at positions a and b are settled apart once the first i lines have avoided. */
  ghost predicate Settled(ls: seq<Line>, a: nat, b: nat, i: nat)
    requires a < |ls| && b < |ls|
  {
    a < i && Avoids(ls[a].spec.kind) && (b < i || !Avoids(ls[b].spec.kind))
  }

  /**
   * The avoiding pass of `layout`: each line in turn avoids the labels of
   * all the other lines.  Afterwards the label of every external guidance
   * or mechanism line overlaps the label of no other line: a line that
   * moves later moves clear of the labels already settled, and a line that
   * never moves keeps the label the earlier ones moved clear of.
   */
  method AvoidAll(ls: seq<Line>, ends: seq<Ends>)
    requires |ends| == |ls| && DistinctLines(ls)
    modifies ls`clearance
    ensures forall a, b :: 0 <= a < |ls| && 0 <= b < |ls| && a != b && Avoids(ls[a].spec.kind) ==>
      !Labels(ls, ends)[a].Overlapping(Labels(ls, ends)[b]) && !Labels(ls, ends)[b].Overlapping(Labels(ls, ends)[a])
    ensures forall k :: 0 <= k < |ls| && !Avoids(ls[k].spec.kind) ==> ls[k].clearance == old(ls[k].clearance)
  {
    var i := 0;
    while i < |ls|
      invariant 0 <= i <= |ls|
      invariant forall a, b :: 0 <= a < |ls| && 0 <= b < |ls| && a != b && Settled(ls, a, b, i) ==>
        !Labels(ls, ends)[a].Overlapping(Labels(ls, ends)[b]) && !Labels(ls, ends)[b].Overlapping(Labels(ls, ends)[a])
      invariant forall k :: 0 <= k < |ls| && (k >= i || !Avoids(ls[k].spec.kind)) ==> ls[k].clearance == old(ls[k].clearance)
    {
      ghost var before := Labels(ls, ends);
      var others := OthersLabels(ls, ends, i);
      Avoid(ls[i], ends[i], others);
      AvoidStep(ls, ends, i, before, others);
      i := i + 1;
    }
  }

  /** `lines.delete(line)`: the labels of every line but the i-th, in order. */
  method OthersLabels(ls: seq<Line>, ends: seq<Ends>, i: nat) returns (r: seq<Label>)
    requires |ends| == |ls| && i < |ls|
    ensures r == Labels(ls, ends)[..i] + Labels(ls, ends)[i + 1..]
  {
    r := [];
    var j := 0;
    while j < |ls|
      invariant 0 <= j <= |ls|
      invariant r == if j <= i then Labels(ls, ends)[..j] else Labels(ls, ends)[..i] + Labels(ls, ends)[i + 1..j]
    {
      if j != i {
        r := r + [LabelOf(ls[j].spec, ends[j], ls[j].clearance)];
      }
      j := j + 1;
    }
  }

  /** One step of the avoiding pass keeps the settled pairs apart and settles the pairs of the line that moved. */
  lemma AvoidStep(ls: seq<Line>, ends: seq<Ends>, i: nat, before: seq<Label>, others: seq<Label>)
    requires |ends| == |ls| && i < |ls| && |before| == |ls|
    requires others == before[..i] + before[i + 1..]
    requires forall a, b :: 0 <= a < |ls| && 0 <= b < |ls| && a != b && Settled(ls, a, b, i) ==>
      !before[a].Overlapping(before[b]) && !before[b].Overlapping(before[a])
    requires forall k :: 0 <= k < |ls| && k != i ==> Labels(ls, ends)[k] == before[k]
    requires !Avoids(ls[i].spec.kind) ==> Labels(ls, ends)[i] == before[i]
    requires Avoids(ls[i].spec.kind) ==> !AnyOverlap(Labels(ls, ends)[i], others)
    ensures forall a, b :: 0 <= a < |ls| && 0 <= b < |ls| && a != b && Settled(ls, a, b, i + 1) ==>
      !Labels(ls, ends)[a].Overlapping(Labels(ls, ends)[b]) && !Labels(ls, ends)[b].Overlapping(Labels(ls, ends)[a])
  {
    var now := Labels(ls, ends);
    forall a, b | 0 <= a < |ls| && 0 <= b < |ls| && a != b && Settled(ls, a, b, i + 1)
      ensures !now[a].Overlapping(now[b]) && !now[b].Overlapping(now[a])
    {
      if a == i || b == i {
        var o := if a == i then b else a;
        if Avoids(ls[i].spec.kind) {
          assert before[o] in others by {
            if o < i { assert others[o] == before[o]; } else { assert others[o - 1] == before[o]; }
          }
          OverlappingSymmetric(now[i], now[o]);
        } else {
          assert Settled(ls, a, b, i);
        }
      } else {
        assert Settled(ls, a, b, i);
      }
    }
  }

  // ---------------------------------------------------------------------
  // Shifting and resizing

  /**
   * How far to shift so that nothing is left of (or above) the origin: the
   * largest magnitude among the non-positive edges, or 0 when none is.
   */
  function ShiftAmount(edges: seq<int>): (d: int)
    ensures d >= 0
    ensures forall e :: e in edges ==> e + d >= 0
    ensures d == 0 || -d in edges
  {
    if edges == [] then 0
    else
      var rest := ShiftAmount(edges[1..]);
      assert forall e :: e in edges ==> e == edges[0] || e in edges[1..];
      Max(if edges[0] <= 0 then -edges[0] else 0, rest)
  }

  /** The shift is the least that works: any smaller amount leaves some edge negative. */
  lemma ShiftAmountIsLeast(edges: seq<int>, d: int)
    requires 0 <= d < ShiftAmount(edges)
    ensures exists e :: e in edges && e + d < 0
  {
    assert -ShiftAmount(edges) in edges;
  }

  /** `translate(dx + 20, dy + 20)` of every box. */
  method ShiftBoxes(bs: seq<Box>, dx: int, dy: int)
    requires Distinct(bs)
    modifies bs`topLeft
    ensures forall k :: 0 <= k < |bs| ==> bs[k].topLeft == old(bs[k].topLeft).Translate(dx + 20, dy + 20)
  {
    var i := 0;
    while i < |bs|
      invariant 0 <= i <= |bs|
      invariant forall k :: 0 <= k < i ==> bs[k].topLeft == old(bs[k].topLeft).Translate(dx + 20, dy + 20)
      invariant forall k :: i <= k < |bs| ==> bs[k].topLeft == old(bs[k].topLeft)
    {
      bs[i].Translate(dx + 20, dy + 20);
      i := i + 1;
    }
  }

  // ---------------------------------------------------------------------
  // The diagram

  function RefsOf(bs: seq<Box>): (r: seq<BoxRef>)
    ensures |r| == |bs| && forall i :: 0 <= i < |bs| ==> r[i] == bs[i].ref
  {
    seq(|bs|, i requires 0 <= i < |bs| => bs[i].ref)
  }

  class Diagram {
    /** The diagram is itself a box: the frame its external lines run to. */
    const frame: Box
    var boxes: seq<Box>
    var lines: seq<Line>

    /** The frame is the frame; the boxes are process boxes with unique names. */
    ghost predicate Valid()
      reads this
    {
      && frame.ref == Frame
      && ArraySets.NoDuplicates(RefsOf(boxes))
      && forall i :: 0 <= i < |boxes| ==> boxes[i].ref.Process?
    }

    constructor ()
      ensures Valid() && fresh(frame) && frame.frameWidth == 0 && frame.frameHeight == 0
      ensures boxes == [] && lines == []
    {
      frame := new Box(Frame);
      boxes := [];
      lines := [];
    }

    /** `box(name)`: the box of that name, created and added at the end if there is none. */
    method GetBox(name: string) returns (b: Box)
      requires Valid()
      modifies this`boxes
      ensures Valid() && b in boxes && b.ref == Process(name)
      ensures RefsOf(boxes) == ArraySets.Added(old(RefsOf(boxes)), Process(name))
      ensures Process(name) in old(RefsOf(boxes)) ==> boxes == old(boxes)
      ensures Process(name) !in old(RefsOf(boxes)) ==> fresh(b) && boxes == old(boxes) + [b] && b.Valid()
    {
      var i := 0;
      while i < |boxes|
        invariant 0 <= i <= |boxes|
        invariant forall j :: 0 <= j < i ==> boxes[j].ref != Process(name)
      {
        if boxes[i].ref == Process(name) {
          return boxes[i];
        }
        i := i + 1;
      }
      b := new Box(Process(name));
      boxes := boxes + [b];
      assert RefsOf(boxes) == old(RefsOf(boxes)) + [Process(name)];
    }

    /**
     * `create_lines` over the candidate box orders, given the lines each
     * order yields: keeps the first order with the fewest backward lines,
     * then numbers the kept boxes in order.
     */
    method CreateLines(candidates: seq<seq<Box>>, lineSets: seq<seq<Line>>)
      requires |candidates| == |lineSets| && candidates != []
      requires forall i :: 0 <= i < |candidates| ==> Distinct(candidates[i]) && multiset(candidates[i]) == multiset(boxes)
      modifies this`boxes, this`lines, boxes`sequence
      ensures exists k: nat :: IsFirstMinimum(BackwardCounts(lineSets), k) && boxes == candidates[k] && lines == lineSets[k]
      ensures multiset(boxes) == multiset(old(boxes))
      ensures forall k :: 0 <= k < |boxes| ==> boxes[k].sequence == k
    {
      var counts := BackwardCounts(lineSets);
      var best := ChooseOrdering(counts);
      var k := best.value;
      var chosen := candidates[k];
      forall i | 0 <= i < |chosen|
        ensures chosen[i] in boxes
      {
        assert chosen[i] in multiset(chosen);
      }
      Resequence(chosen);
      boxes, lines := chosen, lineSets[k];
    }

    /** `resize(right_edge + 20, bottom_edge + 20)`. */
    method Resize(drawn: Extent)
      modifies frame`frameWidth, frame`frameHeight
      ensures frame.frameWidth == drawn.right + 20 && frame.frameHeight == drawn.bottom + 20
    {
      frame.Resize(drawn.right + 20, drawn.bottom + 20);
    }
  }

  /** The backward count of each candidate's lines. */
  function BackwardCounts(lineSets: seq<seq<Line>>): (r: seq<nat>)
    ensures |r| == |lineSets| && forall i :: 0 <= i < |lineSets| ==> r[i] == BackwardCount(SpecsOf(lineSets[i]))
  {
    seq(|lineSets|, i requires 0 <= i < |lineSets| => BackwardCount(SpecsOf(lineSets[i])))
  }
}
