/**
 * Anchors: the named points on a box side where lines start or end.  An
 * anchor is created unattached with sequence 1; lines attach to it (a set,
 * so attaching a line twice is attaching it once); its precedence, which
 * orders the anchors of a side, is the smallest [group, tuple, name] key
 * over its lines, and asking an unattached anchor for it raises.
 */
module Anchors {
  import opened Wrappers
  import opened Taxonomy
  import opened Order
  import opened Geometry
  import opened Placement
  import ArraySets

  /** `[clearance_group, anchor_precedence, name]` of one line, compared as a Ruby array. */
  datatype AnchorKey = AnchorKey(group: int, prec: seq<int>, name: string)

  predicate KeyLess(a: AnchorKey, b: AnchorKey)
  {
    || a.group < b.group
    || (a.group == b.group && LexLess(a.prec, b.prec))
    || (a.group == b.group && a.prec == b.prec && StrLess(a.name, b.name))
  }

  lemma {:induction false} KeyLessIsStrictOrder()
    ensures StrictOrder(KeyLess)
  {
    forall a: AnchorKey
      ensures !KeyLess(a, a)
    {
      LexLessIrreflexive(a.prec);
      LexLessIrreflexive(Codes(a.name));
    }
    forall a: AnchorKey, b: AnchorKey, c: AnchorKey | KeyLess(a, b) && KeyLess(b, c)
      ensures KeyLess(a, c)
    {
      if a.group == b.group == c.group {
        if LexLess(a.prec, b.prec) && LexLess(b.prec, c.prec) {
          LexLessTransitive(a.prec, b.prec, c.prec);
        } else if a.prec == b.prec == c.prec {
          LexLessTransitive(Codes(a.name), Codes(b.name), Codes(c.name));
        }
      }
    }
  }

  /** Any two keys are equal or ordered one way. */
  lemma KeyTrichotomy(a: AnchorKey, b: AnchorKey)
    ensures a == b || KeyLess(a, b) || KeyLess(b, a)
  {
    LexTrichotomy(a.prec, b.prec);
    StrTrichotomy(a.name, b.name);
  }

  /** Ruby `min` over a non-empty list of keys. */
  function MinKey(keys: seq<AnchorKey>): AnchorKey
    requires |keys| > 0
  {
    if |keys| == 1 then keys[0]
    else
      var rest := MinKey(keys[1..]);
      if KeyLess(rest, keys[0]) then rest else keys[0]
  }

  /** The minimum is one of the keys, and no key is strictly less than it. */
  lemma {:induction false} MinKeyIsMinimum(keys: seq<AnchorKey>)
    requires |keys| > 0
    ensures MinKey(keys) in keys
    ensures forall k :: k in keys ==> !KeyLess(k, MinKey(keys))
  {
    KeyLessIsStrictOrder();
    if |keys| > 1 {
      MinKeyIsMinimum(keys[1..]);
      var rest := MinKey(keys[1..]);
      KeyTrichotomy(rest, keys[0]);
      assert keys == [keys[0]] + keys[1..];
    }
  }

  /**
   * The sequence numbers in force when keys are computed: of each box, and
   * of each anchor, by its side and name.
   */
  datatype Sequencing = Sequencing(box: BoxRef -> int, anchor: (SideId, string) -> int)

  /** The numbers a line's tuples read: its boxes' and the anchors it is bound to. */
  function RanksOf(l: LineSpec, sq: Sequencing): Ranks
  {
    var sa := SourceAnchorSide(l);
    var ta := TargetAnchorSide(l);
    Ranks(sq.box(l.source), sq.box(l.target),
          if sa.Some? then sq.anchor(sa.value, l.name) else 0,
          if ta.Some? then sq.anchor(ta.value, l.name) else 0)
  }

  /** The key one attached line contributes on a side; the first raise wins. */
  function LineKey(l: LineSpec, side: SideId, sq: Sequencing): (r: Result<AnchorKey>)
  {
    var g := ClearanceGroup(l, side);
    if g.Err? then Err(g.error)
    else
      var p := AnchorPrecedence(l, side, RanksOf(l, sq));
      if p.Err? then Err(p.error) else Ok(AnchorKey(g.value, p.value, l.name))
  }

  /** The keys of all attached lines, in attachment order, or the first error. */
  function LineKeys(lines: seq<LineSpec>, side: SideId, sq: Sequencing): (r: Result<seq<AnchorKey>>)
    ensures r.Ok? ==> |r.value| == |lines| && forall i :: 0 <= i < |lines| ==> LineKey(lines[i], side, sq) == Ok(r.value[i])
    ensures r.Err? ==> exists i :: 0 <= i < |lines| && LineKey(lines[i], side, sq).Err?
  {
    if lines == [] then Ok([])
    else
      var k := LineKey(lines[0], side, sq);
      if k.Err? then Err(k.error)
      else
        var rest := LineKeys(lines[1..], side, sq);
        if rest.Err? then
          var i :| 0 <= i < |lines[1..]| && LineKey(lines[1..][i], side, sq).Err?;
          assert LineKey(lines[i + 1], side, sq).Err?;
          Err(rest.error)
        else Ok([k.value] + rest.value)
  }

  class Anchor {
    const side: SideId
    const name: string
    var sequence: int
    /** The attached lines, a set kept in insertion order. */
    var lines: seq<LineSpec>

    constructor (side: SideId, name: string)
      ensures this.side == side && this.name == name
      ensures sequence == 1 && lines == []
    {
      this.side := side;
      this.name := name;
      sequence := 1;
      lines := [];
    }

    /** `attach`: adds the line to the set of attached lines. */
    method Attach(l: LineSpec)
      modifies this
      ensures lines == ArraySets.Added(old(lines), l)
      ensures sequence == old(sequence)
    {
      if l !in lines {
        lines := lines + [l];
      }
    }

    predicate Attached()
      reads this`lines
    {
      lines != []
    }

    /**
     * `precedence`: raises for an unattached anchor; otherwise the smallest
     * key over the attached lines.
     */
    function Precedence(sq: Sequencing): (r: Result<AnchorKey>)
      reads this`lines
      ensures lines == [] ==> r.Err?
      ensures r.Ok? ==> exists i :: 0 <= i < |lines| && LineKey(lines[i], side, sq) == Ok(r.value)
      ensures r.Ok? ==> forall i :: 0 <= i < |lines| && LineKey(lines[i], side, sq).Ok? ==>
        !KeyLess(LineKey(lines[i], side, sq).value, r.value)
      ensures lines != [] && (forall i :: 0 <= i < |lines| ==> LineKey(lines[i], side, sq).Ok?) ==> r.Ok?
    {
      if lines == [] then Err("Unattached anchor on side: " + name)
      else
        var keys := LineKeys(lines, side, sq);
        if keys.Err? then Err(keys.error)
        else
          MinKeyIsMinimum(keys.value);
          var m := MinKey(keys.value);
          var i :| 0 <= i < |keys.value| && keys.value[i] == m;
          Ok(m)
    }

    /** `position`: the side's anchor point for this anchor's sequence number. */
    function Position(box: Rect, count: int): (p: Point)
      reads this
    {
      AnchorPoint(side.dir, box, count, sequence)
    }
  }

  /** Attaching the same line twice is attaching it once, and afterwards the anchor is attached. */
  lemma AttachTwiceIsOnce(lines: seq<LineSpec>, l: LineSpec)
    ensures ArraySets.Added(ArraySets.Added(lines, l), l) == ArraySets.Added(lines, l)
    ensures ArraySets.Added(lines, l) != [] && l in ArraySets.Added(lines, l)
  {
  }
}
