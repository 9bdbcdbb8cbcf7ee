/**
 * A side of a box (Side): the anchors registered on it, created on demand
 * by name and kept free of duplicate names, and the clearance negotiation
 * that gives the lines needing a lane on the side their distances and the
 * side its margin.
 *
 * Lane negotiation: the lines that clear a side are grouped by their
 * clearance group; within a group they are ranked by clearance precedence
 * and given the distances 20, 40, ..., 20 * (group size); the margin is 20
 * plus 20 per line of the largest group.
 */
module Sides {
  import opened Wrappers
  import opened Taxonomy
  import opened Order
  import opened Anchors
  import opened Lines
  import ArraySets
  import Bounds

  // ---------------------------------------------------------------------
  // Lane planning on line values

  /** The group a line joins on a side (only consulted for lines that clear it, where it is defined). */
  function GroupOf(l: LineSpec, side: SideId): int
  {
    var g := ClearanceGroup(l, side);
    if g.Ok? then g.value else 0
  }

  /** The tuple a line is ranked by within its group (defined for lines that clear the side). */
  function Prec(l: LineSpec, side: SideId, sq: Sequencing): seq<int>
  {
    var p := ClearancePrecedence(l, side, RanksOf(l, sq));
    if p.Ok? then p.value else []
  }

  predicate InGroup(l: LineSpec, side: SideId, g: int)
  {
    Clears(l, side) && GroupOf(l, side) == g
  }

  /** The positions of the lines in group g on the side, in increasing order. */
  function Members(specs: seq<LineSpec>, side: SideId, g: int): (r: seq<nat>)
    ensures forall k :: 0 <= k < |r| ==> r[k] < |specs| && InGroup(specs[r[k]], side, g)
    ensures forall k, k2 :: 0 <= k < k2 < |r| ==> r[k] < r[k2]
    ensures forall j :: 0 <= j < |specs| && InGroup(specs[j], side, g) ==> j in r
  {
    if specs == [] then []
    else
      var rest := Members(specs[..|specs| - 1], side, g);
      MembersExtend(specs, side, g, rest);
      if InGroup(specs[|specs| - 1], side, g) then rest + [|specs| - 1] else rest
  }

  /** One more line keeps the members of its group listed in increasing order, and only them. */
  lemma MembersExtend(specs: seq<LineSpec>, side: SideId, g: int, rest: seq<nat>)
    requires specs != []
    requires forall k :: 0 <= k < |rest| ==> rest[k] < |specs| - 1 && InGroup(specs[rest[k]], side, g)
    requires forall k, k2 :: 0 <= k < k2 < |rest| ==> rest[k] < rest[k2]
    requires forall j :: 0 <= j < |specs| - 1 && InGroup(specs[j], side, g) ==> j in rest
    ensures var r := if InGroup(specs[|specs| - 1], side, g) then rest + [|specs| - 1] else rest;
      && (forall k :: 0 <= k < |r| ==> r[k] < |specs| && InGroup(specs[r[k]], side, g))
      && (forall k, k2 :: 0 <= k < k2 < |r| ==> r[k] < r[k2])
      && (forall j :: 0 <= j < |specs| && InGroup(specs[j], side, g) ==> j in r)
  {
    var last := |specs| - 1;
    if InGroup(specs[last], side, g) {
      var r := rest + [last];
      forall k, k2 | 0 <= k < k2 < |r|
        ensures r[k] < r[k2]
      {
        assert r[k] == rest[k];
        if k2 < |rest| { assert r[k2] == rest[k2]; } else { assert r[k2] == last; }
      }
      forall j | 0 <= j < |specs| && InGroup(specs[j], side, g)
        ensures j in r
      {
        if j < last {
          var k :| 0 <= k < |rest| && rest[k] == j;
          assert r[k] == j;
        } else {
          assert r[|rest|] == j;
        }
      }
    }
  }

  function GroupSize(specs: seq<LineSpec>, side: SideId, g: int): nat
  {
    |Members(specs, side, g)|
  }

  /** The size of each line's group on the side, 0 for a line that does not clear it. */
  function GroupSizes(specs: seq<LineSpec>, side: SideId): (r: seq<int>)
    ensures |r| == |specs|
    ensures forall i :: 0 <= i < |specs| ==> r[i] == if Clears(specs[i], side) then GroupSize(specs, side, GroupOf(specs[i], side)) else 0
  {
    seq(|specs|, i requires 0 <= i < |specs| =>
      if Clears(specs[i], side) then GroupSize(specs, side, GroupOf(specs[i], side)) else 0)
  }

  /** `clearance_groups.map(&:count).max || 0`. */
  function LargestGroup(specs: seq<LineSpec>, side: SideId): int
  {
    Bounds.Accumulate(GroupSizes(specs, side))
  }

  /**
   * The largest group is as large as every group and is the size of one of
   * them; it is 0 exactly when no line clears the side.
   */
  lemma LargestGroupIsMax(specs: seq<LineSpec>, side: SideId)
    ensures forall i :: 0 <= i < |specs| && Clears(specs[i], side) ==>
      1 <= GroupSize(specs, side, GroupOf(specs[i], side)) <= LargestGroup(specs, side)
    ensures LargestGroup(specs, side) == 0 <==> forall i :: 0 <= i < |specs| ==> !Clears(specs[i], side)
    ensures LargestGroup(specs, side) >= 0
  {
    var sizes := GroupSizes(specs, side);
    Bounds.AccumulateIsMax(sizes);
    forall i | 0 <= i < |specs| && Clears(specs[i], side)
      ensures 1 <= GroupSize(specs, side, GroupOf(specs[i], side))
    {
      assert i in Members(specs, side, GroupOf(specs[i], side));
    }
    if LargestGroup(specs, side) != 0 {
      var i :| 0 <= i < |sizes| && sizes[i] == LargestGroup(specs, side);
      assert Clears(specs[i], side);
    }
  }

  /** Group g's lines hold distinct multiples of 20 from 20 to 20 * (group size), ranked by precedence. */
  ghost predicate GroupLanesOk(specs: seq<LineSpec>, side: SideId, sq: Sequencing, lane: seq<int>, g: int)
    requires |lane| == |specs|
  {
    var m := Members(specs, side, g);
    && (forall k :: 0 <= k < |m| ==> 20 <= lane[m[k]] <= 20 * |m| && lane[m[k]] % 20 == 0)
    && (forall k, k2 :: 0 <= k < |m| && 0 <= k2 < |m| && k != k2 ==> lane[m[k]] != lane[m[k2]])
    && (forall k, k2 :: 0 <= k < |m| && 0 <= k2 < |m| && LexLess(Prec(specs[m[k]], side, sq), Prec(specs[m[k2]], side, sq)) ==>
          lane[m[k]] < lane[m[k2]])
  }

  /**
   * What the negotiation promises every line that clears the side: a lane
   * that is a multiple of 20 between 20 and 20 times its group's size,
   * different from every other lane of its group, and smaller than the
   * lane of every line of its group it strictly precedes.
   */
  ghost predicate IsLanePlan(specs: seq<LineSpec>, side: SideId, sq: Sequencing, lane: seq<int>)
  {
    && |lane| == |specs|
    && (forall i :: 0 <= i < |specs| && Clears(specs[i], side) ==>
          20 <= lane[i] <= 20 * GroupSize(specs, side, GroupOf(specs[i], side)) && lane[i] % 20 == 0)
    && (forall i, j ::
          (0 <= i < |specs| && 0 <= j < |specs| && i != j && Clears(specs[i], side) && Clears(specs[j], side) &&
           GroupOf(specs[i], side) == GroupOf(specs[j], side)) ==> lane[i] != lane[j])
    && (forall i, j ::
          (0 <= i < |specs| && 0 <= j < |specs| && Clears(specs[i], side) && Clears(specs[j], side) &&
           GroupOf(specs[i], side) == GroupOf(specs[j], side) && LexLess(Prec(specs[i], side, sq), Prec(specs[j], side, sq))) ==>
          lane[i] < lane[j])
  }

  lemma MemberPosition(specs: seq<LineSpec>, side: SideId, g: int, i: nat) returns (k: nat)
    requires i < |specs| && InGroup(specs[i], side, g)
    ensures k < |Members(specs, side, g)| && Members(specs, side, g)[k] == i
  {
    var m := Members(specs, side, g);
    assert i in m;
    k :| 0 <= k < |m| && m[k] == i;
  }

  /** Writing one group's lanes leaves every other group's lanes as they were. */
  lemma GroupUnaffected(specs: seq<LineSpec>, side: SideId, sq: Sequencing, lane: seq<int>, next: seq<int>, g: int, other: int)
    requires |lane| == |specs| == |next| && g != other
    requires forall j :: 0 <= j < |specs| && !InGroup(specs[j], side, g) ==> next[j] == lane[j]
    requires GroupLanesOk(specs, side, sq, lane, other)
    ensures GroupLanesOk(specs, side, sq, next, other)
  {
    var m := Members(specs, side, other);
    assert forall k :: 0 <= k < |m| ==> next[m[k]] == lane[m[k]];
  }

  /** When every group's lanes are in order, the whole assignment is a lane plan. */
  lemma PlanFromGroups(specs: seq<LineSpec>, side: SideId, sq: Sequencing, lane: seq<int>)
    requires |lane| == |specs|
    requires forall i :: 0 <= i < |specs| && Clears(specs[i], side) ==> GroupLanesOk(specs, side, sq, lane, GroupOf(specs[i], side))
    ensures IsLanePlan(specs, side, sq, lane)
  {
    forall i | 0 <= i < |specs| && Clears(specs[i], side)
      ensures 20 <= lane[i] <= 20 * GroupSize(specs, side, GroupOf(specs[i], side)) && lane[i] % 20 == 0
    {
      var k := MemberPosition(specs, side, GroupOf(specs[i], side), i);
    }
    forall i, j | 0 <= i < |specs| && 0 <= j < |specs| && Clears(specs[i], side) && Clears(specs[j], side) &&
      GroupOf(specs[i], side) == GroupOf(specs[j], side)
      ensures i != j ==> lane[i] != lane[j]
      ensures LexLess(Prec(specs[i], side, sq), Prec(specs[j], side, sq)) ==> lane[i] < lane[j]
    {
      var g := GroupOf(specs[i], side);
      var ki := MemberPosition(specs, side, g, i);
      var kj := MemberPosition(specs, side, g, j);
    }
  }

  /** Ranks group g by clearance precedence and writes its lanes, leaving every other position alone. */
  method AssignGroup(specs: seq<LineSpec>, side: SideId, sq: Sequencing, lane: seq<int>, g: int) returns (next: seq<int>)
    requires |lane| == |specs|
    ensures |next| == |specs|
    ensures GroupLanesOk(specs, side, sq, next, g)
    ensures forall j :: 0 <= j < |specs| && !InGroup(specs[j], side, g) ==> next[j] == lane[j]
  {
    var m := Members(specs, side, g);
    var keys := seq(|m|, k requires 0 <= k < |m| => Prec(specs[m[k]], side, sq));
    LexIsStrictOrder();
    var lanes := AssignLanes(keys, LexLess);
    next := lane;
    var k := 0;
    while k < |m|
      invariant 0 <= k <= |m| && |next| == |specs|
      invariant forall k2 :: 0 <= k2 < k ==> next[m[k2]] == lanes[k2]
      invariant forall j :: 0 <= j < |specs| && (forall k2 :: 0 <= k2 < k ==> m[k2] != j) ==> next[j] == lane[j]
    {
      next := next[m[k] := lanes[k]];
      k := k + 1;
    }
  }

  /**
   * The lane negotiation of one side, on the lines' values: every group is
   * ranked and given its lanes, in the order the groups first appear.
   */
  method PlanLanes(specs: seq<LineSpec>, side: SideId, sq: Sequencing) returns (lane: seq<int>)
    ensures IsLanePlan(specs, side, sq, lane)
  {
    lane := seq(|specs|, _ => 0);
    var done: set<int> := {};
    var i := 0;
    while i < |specs|
      invariant 0 <= i <= |specs| && |lane| == |specs|
      invariant forall j :: 0 <= j < i && Clears(specs[j], side) ==> GroupOf(specs[j], side) in done
      invariant forall g :: g in done ==> GroupLanesOk(specs, side, sq, lane, g)
    {
      if Clears(specs[i], side) && GroupOf(specs[i], side) !in done {
        var g := GroupOf(specs[i], side);
        var next := AssignGroup(specs, side, sq, lane, g);
        forall other | other in done
          ensures GroupLanesOk(specs, side, sq, next, other)
        {
          GroupUnaffected(specs, side, sq, lane, next, g, other);
        }
        lane := next;
        done := done + {g};
      }
      i := i + 1;
    }
    PlanFromGroups(specs, side, sq, lane);
  }

  /** Every lane a plan gives is below the margin 20 + 20 * (largest group). */
  lemma LanesBelowMargin(specs: seq<LineSpec>, side: SideId, sq: Sequencing, lane: seq<int>)
    requires IsLanePlan(specs, side, sq, lane)
    ensures forall i :: 0 <= i < |specs| && Clears(specs[i], side) ==> 20 <= lane[i] < 20 + 20 * LargestGroup(specs, side)
  {
    LargestGroupIsMax(specs, side);
  }

  /** A line's clearances after a side's layout gave it `lane`: written only if the line clears the side. */
  function Cleared(m: map<SideId, int>, l: LineSpec, side: SideId, lane: int): map<SideId, int>
  {
    if Clears(l, side) then m[side := lane] else m
  }

  function SpecsOf(lines: seq<Line>): (r: seq<LineSpec>)
    ensures |r| == |lines| && forall i :: 0 <= i < |lines| ==> r[i] == lines[i].spec
  {
    seq(|lines|, i requires 0 <= i < |lines| => lines[i].spec)
  }

  function NamesOf(anchors: seq<Anchor>): (r: seq<string>)
    ensures |r| == |anchors| && forall i :: 0 <= i < |anchors| ==> r[i] == anchors[i].name
  {
    seq(|anchors|, i requires 0 <= i < |anchors| => anchors[i].name)
  }

  /** `each_unattached_anchor`: the anchors no line has attached to, in order. */
  function UnattachedOf(anchors: seq<Anchor>): (r: seq<Anchor>)
    reads anchors
    ensures forall k :: 0 <= k < |r| ==> r[k] in anchors && r[k].lines == []
    ensures forall k :: 0 <= k < |anchors| && anchors[k].lines == [] ==> anchors[k] in r
    ensures |r| <= |anchors|
  {
    if anchors == [] then []
    else
      var last := anchors[|anchors| - 1];
      UnattachedOf(anchors[..|anchors| - 1]) + (if last.lines == [] then [last] else [])
  }

  /** The precedence of every anchor, in order, or the first raise. */
  method PrecedenceKeys(xs: seq<Anchor>, sq: Sequencing) returns (r: Result<seq<AnchorKey>>)
    ensures r.Err? <==> exists k :: 0 <= k < |xs| && xs[k].Precedence(sq).Err?
    ensures r.Ok? ==> |r.value| == |xs| && forall k :: 0 <= k < |xs| ==> xs[k].Precedence(sq) == Ok(r.value[k])
  {
    var keys: seq<AnchorKey> := [];
    var i := 0;
    while i < |xs|
      invariant 0 <= i <= |xs| && |keys| == i
      invariant forall k :: 0 <= k < i ==> xs[k].Precedence(sq) == Ok(keys[k])
    {
      var p := xs[i].Precedence(sq);
      if p.Err? {
        return Err(p.error);
      }
      KeysExtend(xs, sq, keys, p.value);
      keys := keys + [p.value];
      i := i + 1;
    }
    r := Ok(keys);
  }

  lemma KeysExtend(xs: seq<Anchor>, sq: Sequencing, keys: seq<AnchorKey>, v: AnchorKey)
    requires |keys| < |xs| && forall k :: 0 <= k < |keys| ==> xs[k].Precedence(sq) == Ok(keys[k])
    requires xs[|keys|].Precedence(sq) == Ok(v)
    ensures forall k :: 0 <= k <= |keys| ==> xs[k].Precedence(sq) == Ok((keys + [v])[k])
  {
  }

  /** `sequence!`: numbers the anchors 0, 1, ... in list order. */
  method Renumber(xs: seq<Anchor>)
    requires forall j, k :: 0 <= j < k < |xs| ==> xs[j] != xs[k]
    modifies xs
    ensures forall k :: 0 <= k < |xs| ==> xs[k].sequence == k
    ensures forall a :: a in xs ==> a.lines == old(a.lines)
  {
    var k := 0;
    while k < |xs|
      invariant 0 <= k <= |xs|
      invariant forall j :: 0 <= j < k ==> xs[j].sequence == j
      invariant forall a :: a in xs ==> a.lines == old(a.lines)
    {
      xs[k].sequence := k;
      k := k + 1;
    }
  }

  /**
   * Listing a duplicate-free list of anchors in a permuted order lists the
   * same anchors, still without repeated names.
   */
  lemma SortedRearranges(xs: seq<Anchor>, order: seq<nat>, sorted: seq<Anchor>)
    requires IsPermutationOfRange(order, |xs|) && ArraySets.NoDuplicates(NamesOf(xs))
    requires |sorted| == |order| && forall k :: 0 <= k < |order| ==> sorted[k] == xs[order[k]]
    ensures forall a :: a in xs <==> a in sorted
    ensures ArraySets.NoDuplicates(NamesOf(sorted))
    ensures forall j, k :: 0 <= j < k < |sorted| ==> sorted[j] != sorted[k]
  {
    forall a | a in xs
      ensures a in sorted
    {
      var j :| 0 <= j < |xs| && xs[j] == a;
      var q := PositionOf(order, |xs|, j);
      assert sorted[q] == a;
    }
    assert forall j, k :: 0 <= j < k < |sorted| ==> NamesOf(sorted)[j] != NamesOf(sorted)[k];
  }

  class Side {
    const id: SideId
    /** The registered anchors, in registration order (later, in sequence order). */
    var anchors: seq<Anchor>
    var margin: int

    /** Anchor names on a side are unique, and every anchor belongs to this side. */
    ghost predicate Valid()
      reads this`anchors
    {
      && ArraySets.NoDuplicates(NamesOf(anchors))
      && forall i :: 0 <= i < |anchors| ==> anchors[i].side == id
    }

    constructor (id: SideId)
      ensures this.id == id && anchors == [] && margin == 0 && Valid()
    {
      this.id := id;
      anchors := [];
      margin := 0;
    }

    /** `expects?`: whether an anchor of that name is registered; never creates one. */
    predicate Expecting(name: string)
      reads this
    {
      name in NamesOf(anchors)
    }

    /** `expects(name)`: the anchor of that name, registered now if it was not. */
    method Expects(name: string) returns (a: Anchor)
      requires Valid()
      modifies this`anchors
      ensures Valid() && a.name == name && a.side == id && a in anchors
      ensures NamesOf(anchors) == ArraySets.Added(old(NamesOf(anchors)), name)
      ensures old(Expecting(name)) ==> anchors == old(anchors)
      ensures !old(Expecting(name)) ==> fresh(a) && anchors == old(anchors) + [a] && a.sequence == 1 && a.lines == []
    {
      var i := 0;
      while i < |anchors| && anchors[i].name != name
        invariant 0 <= i <= |anchors|
        invariant forall k :: 0 <= k < i ==> anchors[k].name != name
      {
        i := i + 1;
      }
      if i < |anchors| {
        a := anchors[i];
      } else {
        a := new Anchor(id, name);
        anchors := anchors + [a];
      }
    }

    /**
     * `attach(line)`: the anchor named after the line, registered if
     * needed, with the line attached to it; no other anchor changes.
     */
    method Attach(l: LineSpec) returns (a: Anchor)
      requires Valid()
      modifies this`anchors, anchors
      ensures Valid() && a.name == l.name && a.side == id && a in anchors
      ensures NamesOf(anchors) == ArraySets.Added(old(NamesOf(anchors)), l.name)
      ensures old(Expecting(l.name)) ==> anchors == old(anchors) && a.lines == ArraySets.Added(old(a.lines), l)
      ensures !old(Expecting(l.name)) ==> fresh(a) && anchors == old(anchors) + [a] && a.lines == [l] && a.sequence == 1
      ensures forall b :: b in old(anchors) && b != a ==> b.lines == old(b.lines) && b.sequence == old(b.sequence)
    {
      a := Expects(l.name);
      a.Attach(l);
    }

    /** `each_unattached_anchor`. */
    method UnattachedAnchors() returns (r: seq<Anchor>)
      ensures r == UnattachedOf(anchors)
      ensures forall a :: a in r <==> a in anchors && !a.Attached()
    {
      r := [];
      var i := 0;
      while i < |anchors|
        invariant 0 <= i <= |anchors|
        invariant r == UnattachedOf(anchors[..i])
      {
        assert anchors[..i + 1][..i] == anchors[..i];
        if anchors[i].lines == [] {
          r := r + [anchors[i]];
        }
        i := i + 1;
      }
      assert anchors[..i] == anchors;
    }

    /**
     * `sequence_anchors`: sorts the anchors by precedence and numbers them
     * 0, 1, ... in the new order.  The first anchor whose precedence raises
     * aborts it before anything changes.
     */
    method SequenceAnchors(sq: Sequencing) returns (r: Result<seq<Anchor>>)
      requires Valid()
      modifies this`anchors, anchors
      ensures r.Err? <==> exists k :: 0 <= k < |old(anchors)| && old(anchors[k].Precedence(sq)).Err?
      ensures r.Err? ==> anchors == old(anchors) && forall a :: a in anchors ==> a.sequence == old(a.sequence)
      ensures r.Ok? ==> r.value == anchors && Valid()
      ensures r.Ok? ==> |anchors| == |old(anchors)| && forall a :: a in anchors <==> a in old(anchors)
      ensures r.Ok? ==> forall k :: 0 <= k < |anchors| ==> anchors[k].sequence == k && anchors[k].Precedence(sq).Ok?
      ensures r.Ok? ==> forall j, k :: 0 <= j < k < |anchors| ==>
        !KeyLess(anchors[k].Precedence(sq).value, anchors[j].Precedence(sq).value)
      ensures forall a :: a in old(anchors) ==> a.lines == old(a.lines)
    {
      var xs := anchors;
      var keys := PrecedenceKeys(xs, sq);
      if keys.Err? {
        return Err(keys.error);
      }
      KeyLessIsStrictOrder();
      var order := SortIndices(keys.value, KeyLess);
      var sorted := seq(|order|, k requires 0 <= k < |order| => xs[order[k]]);
      SortedRearranges(xs, order, sorted);
      Renumber(sorted);
      anchors := sorted;
      r := Ok(sorted);
    }

    /**
     * `layout(lines)`: every line that clears this side gets its lane as the
     * clearance from this side; the margin becomes 20 + 20 * (largest group).
     * Lines that do not clear the side are left alone.
     */
    method Layout(lines: seq<Line>, sq: Sequencing) returns (ghost lane: seq<int>)
      requires forall i, j :: 0 <= i < j < |lines| ==> lines[i] != lines[j]
      modifies this`margin, lines`clearance
      ensures margin == 20 + 20 * LargestGroup(SpecsOf(lines), id)
      ensures IsLanePlan(SpecsOf(lines), id, sq, lane)
      ensures forall i :: 0 <= i < |lines| ==> lines[i].clearance == Cleared(old(lines[i].clearance), lines[i].spec, id, lane[i])
    {
      var specs := SpecsOf(lines);
      var plan := PlanLanes(specs, id, sq);
      var i := 0;
      while i < |lines|
        invariant 0 <= i <= |lines|
        invariant forall k :: 0 <= k < i ==>
          lines[k].clearance == Cleared(old(lines[k].clearance), lines[k].spec, id, plan[k])
        invariant forall k :: i <= k < |lines| ==> lines[k].clearance == old(lines[k].clearance)
      {
        if Clears(specs[i], id) {
          lines[i].Clear(id, plan[i]);
        }
        i := i + 1;
      }
      margin := 20 + 20 * LargestGroup(specs, id);
      lane := plan;
    }
  }
}
