/**
 * The process boxes of the single-file prototype renderer (spike.rb).
 *
 * A child process box has a name, a fixed sequence number given when it is
 * declared, a top-left corner, and four insertion-ordered name sets: the
 * inputs it receives, the outputs it produces, the guidances it respects
 * and the mechanisms it requires.  It is 180 wide and tall enough for its
 * inputs and outputs; each name of a set has an anchor on the side of its role,
 * the anchors spread 20 apart and centred on that side.
 */
module SpikeBoxes {
  import opened Wrappers
  import opened Geometry
  import Taxonomy
  import Placement
  import ArraySets

  /** The four ways a box declares a name. */
  datatype Role = Input | Output | Guidance | Mechanism

  /** The four name sets of a box, in declaration order. */
  datatype Concepts = Concepts(inputs: seq<string>, outputs: seq<string>, guidances: seq<string>, mechanisms: seq<string>) {

    function Of(role: Role): seq<string>
    {
      match role
      case Input => inputs
      case Output => outputs
      case Guidance => guidances
      case Mechanism => mechanisms
    }

    /**
     * `receives`, `produces`, `respects`, `requires`: the name is added to
     * the set of its role unless it is there already; the other sets stay.
     */
    function With(role: Role, name: string): (c: Concepts)
      ensures c.Of(role) == ArraySets.Added(Of(role), name)
      ensures forall r :: r != role ==> c.Of(r) == Of(r)
    {
      match role
      case Input => this.(inputs := ArraySets.Added(inputs, name))
      case Output => this.(outputs := ArraySets.Added(outputs, name))
      case Guidance => this.(guidances := ArraySets.Added(guidances, name))
      case Mechanism => this.(mechanisms := ArraySets.Added(mechanisms, name))
    }

    /** Every set is free of duplicates, as an ArraySet built by `<<` is. */
    ghost predicate Valid()
    {
      forall r: Role :: ArraySets.NoDuplicates(Of(r))
    }
  }

  /** A box that has declared nothing. */
  const NoConcepts: Concepts := Concepts([], [], [], [])

  /** Declaring a name keeps every set free of duplicates and makes the name a member of its role. */
  lemma WithKeepsValid(c: Concepts, role: Role, name: string)
    requires c.Valid()
    ensures c.With(role, name).Valid()
    ensures name in c.With(role, name).Of(role)
  {
    ArraySets.AddedKeepsNoDuplicates(c.Of(role), name);
  }

  /** The width of every child process box. */
  const BoxWidth: int := 180

  function Max(a: int, b: int): int { if a < b then b else a }

  /**
   * The height of a child process box: 60, or 20 per input or output (on
   * the side holding more of them) plus 20, whichever is larger.
   */
  function Height(c: Concepts): (h: int)
    ensures h >= 60 && h >= 20 * |c.inputs| + 20 && h >= 20 * |c.outputs| + 20
    ensures h == 60 || h == 20 * |c.inputs| + 20 || h == 20 * |c.outputs| + 20
  {
    Max(60, Max(|c.inputs|, |c.outputs|) * 20 + 20)
  }

  /** The height is always a multiple of 20, so halving it is exact. */
  lemma HeightIsEven(c: Concepts)
    ensures Height(c) % 20 == 0 && Height(c) / 2 * 2 == Height(c)
  {
    var m := Max(|c.inputs|, |c.outputs|);
    if m * 20 + 20 < 60 {
      assert Height(c) == 60;
    } else {
      assert Height(c) == 20 * (m + 1);
      TwentyFold(m + 1);
    }
  }

  lemma TwentyFold(q: int)
    ensures (20 * q) % 20 == 0 && (20 * q) / 2 == 10 * q
  {
  }

  /**
   * `Array#index`: the position of the first occurrence of the name, or
   * nothing (Ruby's nil) when it is absent.
   */
  function IndexIn(names: seq<string>, name: string): (r: Option<nat>)
    ensures r.None? <==> name !in names
    ensures r.Some? ==> r.value < |names| && names[r.value] == name && name !in names[..r.value]
  {
    if names == [] then None
    else if names[0] == name then Some(0)
    else
      match IndexIn(names[1..], name)
      case None => None
      case Some(i) =>
        assert names[..i + 1] == [names[0]] + names[1..][..i];
        Some(i + 1)
  }

  /** In a set without duplicates the name at position i is found at position i. */
  lemma IndexOfMember(names: seq<string>, i: nat)
    requires ArraySets.NoDuplicates(names) && i < |names|
    ensures IndexIn(names, names[i]) == Some(i)
  {
    var k := IndexIn(names, names[i]).value;
    assert names[k] == names[i];
  }

  /** The side a role's anchors sit on: inputs left, outputs right, guidances top, mechanisms bottom. */
  function SideFor(role: Role): Taxonomy.Direction
  {
    match role
    case Input => Taxonomy.Left
    case Output => Taxonomy.Right
    case Guidance => Taxonomy.Top
    case Mechanism => Taxonomy.Bottom
  }

  /** The rectangle of a box at a corner with the given declarations. */
  function BoxRect(topLeft: Point, c: Concepts): Placement.Rect
  {
    Placement.Rect(topLeft.x, topLeft.y, BoxWidth, Height(c))
  }

  /** An anchor: a point on a box side, numbered by its name's position in its set. */
  datatype Anchor = Anchor(point: Point, sequence: nat)

  /**
   * `input_anchor_for`, `output_anchor_for`, `guidance_anchor_for`,
   * `mechanism_anchor_for`: the anchor of a declared name.  An undeclared
   * name has no index, and multiplying Ruby's nil raises; that is None.
   */
  function AnchorFor(topLeft: Point, c: Concepts, role: Role, name: string): (r: Option<Anchor>)
    ensures r.Some? <==> name in c.Of(role)
    ensures r.Some? ==> r.value.sequence < |c.Of(role)| && c.Of(role)[r.value.sequence] == name
  {
    match IndexIn(c.Of(role), name)
    case None => None
    case Some(i) => Some(Anchor(Placement.AnchorPoint(SideFor(role), BoxRect(topLeft, c), |c.Of(role)|, i), i))
  }

  /**
   * An anchor lies on its role's edge: inputs on the left edge, outputs on
   * the right edge (180 further), guidances on the top edge and mechanisms
   * on the bottom edge.
   */
  lemma AnchorOnEdge(topLeft: Point, c: Concepts, role: Role, name: string)
    requires name in c.Of(role)
    ensures var p := AnchorFor(topLeft, c, role, name).value.point;
      match role
      case Input => p.x == topLeft.x
      case Output => p.x == topLeft.x + 180
      case Guidance => p.y == topLeft.y
      case Mechanism => p.y == topLeft.y + Height(c)
  {
  }

  /**
   * Anchors are 20 apart in declaration order: the anchors of the names at
   * positions i and j of a set differ by 20 * (j - i) along the side and
   * not at all across it.
   */
  lemma AnchorsTwentyApart(topLeft: Point, c: Concepts, role: Role, i: nat, j: nat)
    requires ArraySets.NoDuplicates(c.Of(role)) && i < |c.Of(role)| && j < |c.Of(role)|
    ensures var a := AnchorFor(topLeft, c, role, c.Of(role)[i]).value;
      var b := AnchorFor(topLeft, c, role, c.Of(role)[j]).value;
      a.sequence == i && b.sequence == j &&
      if role == Input || role == Output then b.point.x == a.point.x && b.point.y - a.point.y == 20 * (j - i)
      else b.point.y == a.point.y && b.point.x - a.point.x == 20 * (j - i)
  {
    IndexOfMember(c.Of(role), i);
    IndexOfMember(c.Of(role), j);
  }

  /**
   * Anchors are centred on their side: the anchors of the names at
   * positions i and count-1-i lie symmetrically about the side's midpoint.
   */
  lemma AnchorsCentredOnSide(topLeft: Point, c: Concepts, role: Role, i: nat)
    requires ArraySets.NoDuplicates(c.Of(role)) && i < |c.Of(role)|
    ensures var n := |c.Of(role)|;
      var a := AnchorFor(topLeft, c, role, c.Of(role)[i]).value.point;
      var b := AnchorFor(topLeft, c, role, c.Of(role)[n - 1 - i]).value.point;
      if role == Input || role == Output then a.y + b.y == 2 * topLeft.y + Height(c)
      else a.x + b.x == 2 * topLeft.x + 180
  {
    var n := |c.Of(role)|;
    IndexOfMember(c.Of(role), i);
    IndexOfMember(c.Of(role), n - 1 - i);
    Placement.AnchorsCentred(SideFor(role), BoxRect(topLeft, c), n, i);
    HeightIsEven(c);
  }

  /**
   * Because the height grows with the inputs and outputs, their anchors
   * stay at least 20 inside the box's top and bottom edges.
   */
  lemma SideAnchorsInside(topLeft: Point, c: Concepts, role: Role, name: string)
    requires role == Input || role == Output
    requires name in c.Of(role)
    ensures var y := AnchorFor(topLeft, c, role, name).value.point.y;
      topLeft.y + 20 <= y <= topLeft.y + Height(c) - 20
  {
    var n := |c.Of(role)|;
    var i := AnchorFor(topLeft, c, role, name).value.sequence;
    HeightIsEven(c);
    assert 20 * (n - 1) / 2 == 10 * (n - 1);
    assert Height(c) >= 20 * n + 20;
  }

  /**
   * The width is fixed, so guidance and mechanism anchors fit on the edge
   * only while there are at most ten of them; with more, the first anchor
   * lies left of the box.
   */
  lemma EdgeAnchorsFitTen(topLeft: Point, c: Concepts, role: Role, name: string)
    requires role == Guidance || role == Mechanism
    requires name in c.Of(role)
    ensures |c.Of(role)| <= 10 ==>
      var x := AnchorFor(topLeft, c, role, name).value.point.x;
      topLeft.x <= x <= topLeft.x + 180
    ensures |c.Of(role)| > 10 ==>
      AnchorFor(topLeft, c, role, c.Of(role)[0]).value.point.x < topLeft.x
  {
    var n := |c.Of(role)|;
    assert 20 * (n - 1) / 2 == 10 * (n - 1);
    assert IndexIn(c.Of(role), c.Of(role)[0]) == Some(0);
  }

  /** A child process box: its declarations change as it is described, its corner as it is laid out. */
  class ChildBox {
    const name: string
    const sequence: nat
    var topLeft: Point
    var concepts: Concepts

    /** A new box at the origin, numbered as given, declaring nothing. */
    constructor (name: string, sequence: nat)
      ensures this.name == name && this.sequence == sequence
      ensures topLeft == Origin && concepts == NoConcepts
    {
      this.name := name;
      this.sequence := sequence;
      topLeft := Origin;
      concepts := NoConcepts;
    }

    /** `receives`, `produces`, `respects`, `requires`. */
    method Declare(role: Role, x: string)
      modifies this`concepts
      ensures concepts == old(concepts).With(role, x)
    {
      concepts := concepts.With(role, x);
    }

    /** `receives?`, `produces?`, `respects?`, `requires?`. */
    predicate Declares(role: Role, x: string)
      reads this
    {
      x in concepts.Of(role)
    }

    function Rect(): Placement.Rect
      reads this
    {
      BoxRect(topLeft, concepts)
    }

    function AnchorOf(role: Role, x: string): Option<Anchor>
      reads this
    {
      AnchorFor(topLeft, concepts, role, x)
    }

    /** `move_to`. */
    method MoveTo(p: Point)
      modifies this`topLeft
      ensures topLeft == p
    {
      topLeft := p;
    }

    /** `translate`. */
    method Translate(dx: int, dy: int)
      modifies this`topLeft
      ensures topLeft == old(topLeft).Translate(dx, dy)
    {
      topLeft := topLeft.Translate(dx, dy);
    }
  }
}
