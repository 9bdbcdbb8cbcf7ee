/**
 * Boxes (Box, ProcessBox, and the diagram frame, which is a Box too): a
 * top-left corner that only moves as a whole, four sides, and the size a
 * process box derives from its anchor counts.
 */
module Boxes {
  import opened Taxonomy
  import opened Geometry
  import opened Placement
  import opened Order
  import opened Anchors
  import opened Lines
  import opened Sides
  import ArraySets

  /** Every process box is 180 wide. */
  const ProcessWidth: int := 180

  /** A process box is 20 taller than 20 per anchor of its busier vertical side, and at least 60. */
  function ProcessHeight(leftCount: nat, rightCount: nat): (h: int)
  {
    var busiest := if leftCount > rightCount then leftCount else rightCount;
    if busiest * 20 + 20 > 60 then busiest * 20 + 20 else 60
  }

  /** The height is at least 60 and leaves room for 20 per anchor plus 20 on either vertical side. */
  lemma ProcessHeightBounds(leftCount: nat, rightCount: nat)
    ensures ProcessHeight(leftCount, rightCount) >= 60
    ensures ProcessHeight(leftCount, rightCount) >= 20 * leftCount + 20
    ensures ProcessHeight(leftCount, rightCount) >= 20 * rightCount + 20
    ensures ProcessHeight(leftCount, rightCount) == 60 || ProcessHeight(leftCount, rightCount) == 20 * leftCount + 20 ||
      ProcessHeight(leftCount, rightCount) == 20 * rightCount + 20
    ensures ProcessHeight(leftCount, rightCount) == ProcessHeight(rightCount, leftCount)
  {
  }

  /**
   * On a process box's left or right side the anchors, 20 apart and
   * centred, all lie at least 20 inside the box's top and bottom.
   */
  lemma VerticalAnchorsFit(box: Rect, leftCount: nat, rightCount: nat, dir: Direction, n: int)
    requires box.height == ProcessHeight(leftCount, rightCount)
    requires dir == Left || dir == Right
    requires 0 <= n < (if dir == Left then leftCount else rightCount)
    ensures box.y1 + 20 <= AnchorPoint(dir, box, if dir == Left then leftCount else rightCount, n).y <= box.Y2() - 20
  {
    var count := if dir == Left then leftCount else rightCount;
    ProcessHeightBounds(leftCount, rightCount);
    assert 20 * (count - 1) / 2 == 10 * (count - 1);
  }

  /** `precedence` of a process box from its anchor counts: `[-right, left + top + bottom]`. */
  function BoxPrecedence(left: nat, top: nat, bottom: nat, right: nat): (p: seq<int>)
  {
    [-(right as int), left + top + bottom]
  }

  /** Sorting by precedence puts the boxes with more outputs first, and on a tie those with fewer other anchors. */
  lemma BoxPrecedenceOrder(l1: nat, t1: nat, b1: nat, r1: nat, l2: nat, t2: nat, b2: nat, r2: nat)
    ensures LexLess(BoxPrecedence(l1, t1, b1, r1), BoxPrecedence(l2, t2, b2, r2)) <==>
      r1 > r2 || (r1 == r2 && l1 + t1 + b1 < l2 + t2 + b2)
  {
    var p, q := BoxPrecedence(l1, t1, b1, r1), BoxPrecedence(l2, t2, b2, r2);
    var x, y: seq<int> := [l1 + t1 + b1], [l2 + t2 + b2];
    assert p[1..] == x && q[1..] == y;
    assert !LexLess(x[1..], y[1..]);
    assert LexLess(x, y) <==> l1 + t1 + b1 < l2 + t2 + b2;
  }

  class Box {
    const ref: BoxRef
    const top: Side
    const bottom: Side
    const left: Side
    const right: Side
    var topLeft: Point
    /** The position in the chosen box order (process boxes). */
    var sequence: int
    /** The size set by `resize` (the diagram frame). */
    var frameWidth: int
    var frameHeight: int

    /** Each side knows which side of which box it is, and its anchor names are unique. */
    ghost predicate Valid()
      reads top`anchors, bottom`anchors, left`anchors, right`anchors
    {
      && Sided()
      && top.Valid() && bottom.Valid() && left.Valid() && right.Valid()
    }

    /** Each side knows which side of this box it is. */
    predicate Sided()
    {
      top.id == TopOf(ref) && bottom.id == BottomOf(ref) && left.id == LeftOf(ref) && right.id == RightOf(ref)
    }

    /** A new box is at the origin with four fresh, distinct, empty sides. */
    constructor (ref: BoxRef)
      ensures this.ref == ref && topLeft == Origin && Valid()
      ensures fresh(top) && fresh(bottom) && fresh(left) && fresh(right)
      ensures top.anchors == [] && bottom.anchors == [] && left.anchors == [] && right.anchors == []
      ensures sequence == 0 && frameWidth == 0 && frameHeight == 0
    {
      this.ref := ref;
      topLeft := Origin;
      top := new Side(TopOf(ref));
      bottom := new Side(BottomOf(ref));
      left := new Side(LeftOf(ref));
      right := new Side(RightOf(ref));
      sequence := 0;
      frameWidth, frameHeight := 0, 0;
    }

    function Width(): int
      reads this
    {
      if ref.Process? then ProcessWidth else frameWidth
    }

    function Height(): int
      reads this, left, right
    {
      if ref.Process? then ProcessHeight(|left.anchors|, |right.anchors|) else frameHeight
    }

    function X1(): int reads this { topLeft.x }
    function Y1(): int reads this { topLeft.y }
    function X2(): int reads this { X1() + Width() }
    function Y2(): int reads this, left, right { Y1() + Height() }
    function RightEdge(): int reads this { X2() }
    function BottomEdge(): int reads this, left, right { Y2() }

    /** The rectangle the sides read their coordinates from. */
    function Bounds(): (r: Rect)
      reads this, left, right
      ensures r.X2() == X2() && r.Y2() == Y2() && r.x1 == X1() && r.y1 == Y1()
    {
      Rect(X1(), Y1(), Width(), Height())
    }

    /** `precedence` (process boxes). */
    function Precedence(): seq<int>
      reads this, top, bottom, left, right
    {
      BoxPrecedence(|left.anchors|, |top.anchors|, |bottom.anchors|, |right.anchors|)
    }

    predicate Before(other: Box)
      reads this, other
    {
      sequence < other.sequence
    }

    predicate After(other: Box)
      reads this, other
    {
      sequence > other.sequence
    }

    method MoveTo(p: Point)
      modifies this`topLeft
      ensures topLeft == p
    {
      topLeft := p;
    }

    /** `translate`: moves the corner; the size, which does not depend on the corner, is kept. */
    method Translate(dx: int, dy: int)
      modifies this`topLeft
      ensures topLeft == old(topLeft).Translate(dx, dy)
      ensures X1() == old(X1()) + dx && Y1() == old(Y1()) + dy
      ensures Width() == old(Width()) && Height() == old(Height())
      ensures X2() == old(X2()) + dx && Y2() == old(Y2()) + dy
    {
      MoveTo(topLeft.Translate(dx, dy));
    }

    /** `resize` of the diagram frame. */
    method Resize(width: int, height: int)
      modifies this`frameWidth, this`frameHeight
      ensures frameWidth == width && frameHeight == height
    {
      frameWidth, frameHeight := width, height;
    }

    /**
     * `layout(lines)`: lays out the four sides in turn, then moves the box
     * down by its top side's margin, keeping x.
     */
    method Layout(lines: seq<Line>, sq: Sequencing) returns (ghost t: seq<int>, ghost b: seq<int>, ghost l: seq<int>, ghost r: seq<int>)
      requires Sided()
      requires forall i, j :: 0 <= i < j < |lines| ==> lines[i] != lines[j]
      modifies this`topLeft, top`margin, bottom`margin, left`margin, right`margin, lines`clearance
      ensures top.margin == 20 + 20 * LargestGroup(SpecsOf(lines), top.id)
      ensures bottom.margin == 20 + 20 * LargestGroup(SpecsOf(lines), bottom.id)
      ensures left.margin == 20 + 20 * LargestGroup(SpecsOf(lines), left.id)
      ensures right.margin == 20 + 20 * LargestGroup(SpecsOf(lines), right.id)
      ensures IsLanePlan(SpecsOf(lines), top.id, sq, t) && IsLanePlan(SpecsOf(lines), bottom.id, sq, b)
      ensures IsLanePlan(SpecsOf(lines), left.id, sq, l) && IsLanePlan(SpecsOf(lines), right.id, sq, r)
      ensures forall i :: 0 <= i < |lines| ==>
        lines[i].clearance == Cleared(Cleared(Cleared(Cleared(old(lines[i].clearance),
          lines[i].spec, top.id, t[i]), lines[i].spec, bottom.id, b[i]), lines[i].spec, left.id, l[i]), lines[i].spec, right.id, r[i])
      ensures topLeft == old(topLeft).Translate(0, top.margin)
    {
      t := top.Layout(lines, sq);
      b := bottom.Layout(lines, sq);
      l := left.Layout(lines, sq);
      r := right.Layout(lines, sq);
      Translate(0, top.margin);
    }

    /** `receives(name)`: registers an input on the left side. */
    method Receives(name: string) returns (a: Anchor)
      requires Valid()
      modifies left`anchors
      ensures Valid() && a in left.anchors && a.name == name && a.side == LeftOf(ref)
      ensures NamesOf(left.anchors) == ArraySets.Added(old(NamesOf(left.anchors)), name)
    {
      a := left.Expects(name);
    }

    /** `produces(name)`: registers an output on the right side. */
    method Produces(name: string) returns (a: Anchor)
      requires Valid()
      modifies right`anchors
      ensures Valid() && a in right.anchors && a.name == name && a.side == RightOf(ref)
      ensures NamesOf(right.anchors) == ArraySets.Added(old(NamesOf(right.anchors)), name)
    {
      a := right.Expects(name);
    }

    /** `respects(name)`: registers a guidance on the top side. */
    method Respects(name: string) returns (a: Anchor)
      requires Valid()
      modifies top`anchors
      ensures Valid() && a in top.anchors && a.name == name && a.side == TopOf(ref)
      ensures NamesOf(top.anchors) == ArraySets.Added(old(NamesOf(top.anchors)), name)
    {
      a := top.Expects(name);
    }

    /** `requires(name)`: registers a mechanism on the bottom side. */
    method Needs(name: string) returns (a: Anchor)
      requires Valid()
      modifies bottom`anchors
      ensures Valid() && a in bottom.anchors && a.name == name && a.side == BottomOf(ref)
      ensures NamesOf(bottom.anchors) == ArraySets.Added(old(NamesOf(bottom.anchors)), name)
    {
      a := bottom.Expects(name);
    }
  }

  /** `before?`/`after?` are strict orders, mutually exclusive, and each is the other's converse. */
  lemma BeforeAfterStrict(a: Box, b: Box)
    ensures !a.Before(a) && !a.After(a)
    ensures a.Before(b) <==> b.After(a)
    ensures !(a.Before(b) && a.After(b))
    ensures a.sequence != b.sequence <==> a.Before(b) || a.After(b)
  {
  }

  /** A process box's size does not depend on where it is or on its top and bottom anchors. */
  lemma ProcessSize(b: Box)
    requires b.ref.Process?
    ensures b.Width() == 180
    ensures b.Height() == ProcessHeight(|b.left.anchors|, |b.right.anchors|) >= 60
    ensures b.X2() - b.X1() == 180 && b.RightEdge() == b.X2() && b.BottomEdge() == b.Y2()
  {
    ProcessHeightBounds(|b.left.anchors|, |b.right.anchors|);
  }
}
