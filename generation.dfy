/**
 * Line generation (`make_line` of every kind) and binding (`attach` /
 * `connect`).
 *
 * A generation rule walks the names registered on one side and yields a
 * line for each name a side of the other box expects, provided the boxes
 * are in the order the kind demands.  The unsatisfied and unattached rules
 * instead walk a box side's unattached anchors, register each name on a
 * side of the other box, and yield a line for each.
 */
module Generation {
  import opened Wrappers
  import opened Taxonomy
  import opened Anchors
  import opened Lines
  import opened Sides
  import opened Boxes
  import ArraySets

  /** The kinds whose rule matches names between two boxes. */
  predicate IsMatching(k: Kind)
  {
    k in {ForwardInput, ForwardGuidance, ForwardMechanism, BackwardInput, BackwardGuidance, BackwardMechanism,
          ExternalInput, ExternalOutput, ExternalGuidance, ExternalMechanism}
  }

  /**
   * Whether a matching rule fires for boxes with these sequence numbers:
   * forward kinds need the source before the target, backward kinds after
   * it, a backward mechanism also fires on a box feeding itself, and the
   * external kinds always fire.
   */
  predicate Fires(k: Kind, source: BoxRef, target: BoxRef, sourceSeq: int, targetSeq: int)
  {
    match k
    case ForwardInput | ForwardGuidance | ForwardMechanism => sourceSeq < targetSeq
    case BackwardInput | BackwardGuidance => sourceSeq > targetSeq
    case BackwardMechanism => sourceSeq > targetSeq || source == target
    case _ => true
  }

  /** The direction of the side whose names a matching rule walks, on the line's source box. */
  function WalkedDir(k: Kind): Direction
  {
    match k
    case ExternalInput => Left
    case ExternalGuidance => Top
    case ExternalMechanism => Bottom
    case _ => Right
  }

  /** The direction of the side that must expect a walked name, on the line's target box. */
  function ExpectingDir(k: Kind): Direction
  {
    match k
    case ForwardInput | BackwardInput | ExternalInput => Left
    case ForwardGuidance | BackwardGuidance | ExternalGuidance => Top
    case ForwardMechanism | BackwardMechanism | ExternalMechanism => Bottom
    case _ => Right
  }

  /** The walked names the other side expects, in walking order. */
  function Matching(walked: seq<string>, expected: seq<string>): (r: seq<string>)
    ensures forall n :: n in r <==> n in walked && n in expected
    ensures |r| <= |walked|
  {
    if walked == [] then []
    else
      var rest := Matching(walked[..|walked| - 1], expected);
      var n := walked[|walked| - 1];
      assert walked == walked[..|walked| - 1] + [n];
      if n in expected then rest + [n] else rest
  }

  /** The lines a kind yields for the given names, numbered from firstId. */
  function LinesFor(k: Kind, source: BoxRef, target: BoxRef, names: seq<string>, firstId: nat): (r: seq<LineSpec>)
    ensures |r| == |names|
    ensures forall i :: 0 <= i < |r| ==> r[i] == LineSpec(firstId + i, k, source, target, names[i])
  {
    seq(|names|, i requires 0 <= i < |names| => LineSpec(firstId + i, k, source, target, names[i]))
  }

  /**
   * `make_line` of a matching kind for the line's source and target boxes
   * (ExternalOutputLine receives them as `(target, source)`; the line is
   * the same).
   */
  method MakeMatchingLines(k: Kind, source: Box, target: Box, firstId: nat) returns (r: seq<LineSpec>)
    requires IsMatching(k) && source.Valid() && target.Valid()
    ensures r == if Fires(k, source.ref, target.ref, source.sequence, target.sequence) then
      LinesFor(k, source.ref, target.ref,
        Matching(NamesOf(SideOf(source, WalkedDir(k)).anchors), NamesOf(SideOf(target, ExpectingDir(k)).anchors)), firstId)
      else []
  {
    r := [];
    if Fires(k, source.ref, target.ref, source.sequence, target.sequence) {
      var names := MatchingNames(SideOf(source, WalkedDir(k)), SideOf(target, ExpectingDir(k)));
      r := LinesFor(k, source.ref, target.ref, names, firstId);
    }
  }

  /** The walk of one rule: each name of the walked side that the expecting side expects, in order. */
  method MatchingNames(walked: Side, expecting: Side) returns (r: seq<string>)
    ensures r == Matching(NamesOf(walked.anchors), NamesOf(expecting.anchors))
  {
    var names := NamesOf(walked.anchors);
    r := [];
    var i := 0;
    while i < |names|
      invariant 0 <= i <= |names|
      invariant r == Matching(names[..i], NamesOf(expecting.anchors))
    {
      assert names[..i + 1][..i] == names[..i];
      if expecting.Expecting(names[i]) {
        r := r + [names[i]];
      }
      i := i + 1;
    }
    assert names[..i] == names;
  }

  /**
   * A matching rule yields nothing unless the boxes are in the right order,
   * and then exactly one line per walked name the other side expects, each
   * of the rule's kind, from source to target.
   */
  lemma MatchingLinesProperties(k: Kind, source: BoxRef, target: BoxRef, sourceSeq: int, targetSeq: int,
                                walked: seq<string>, expected: seq<string>, firstId: nat)
    requires ArraySets.NoDuplicates(walked)
    ensures var r := if Fires(k, source, target, sourceSeq, targetSeq) then LinesFor(k, source, target, Matching(walked, expected), firstId) else [];
      && (!Fires(k, source, target, sourceSeq, targetSeq) ==> r == [])
      && (forall l :: l in r ==> l.kind == k && l.source == source && l.target == target && l.name in walked && l.name in expected)
      && (Fires(k, source, target, sourceSeq, targetSeq) ==> forall n :: n in walked && n in expected ==> exists l :: l in r && l.name == n)
      && (forall i, j :: 0 <= i < j < |r| ==> r[i].name != r[j].name)
  {
    if Fires(k, source, target, sourceSeq, targetSeq) {
      MatchedLinesSound(k, source, target, walked, expected, firstId);
      MatchedLinesComplete(k, source, target, walked, expected, firstId);
      MatchedLinesDistinct(k, source, target, walked, expected, firstId);
    }
  }

  /** Every line yielded for the matched names is of the rule's kind and names a name both sides know. */
  lemma MatchedLinesSound(k: Kind, source: BoxRef, target: BoxRef, walked: seq<string>, expected: seq<string>, firstId: nat)
    ensures var r := LinesFor(k, source, target, Matching(walked, expected), firstId);
      forall l :: l in r ==> l.kind == k && l.source == source && l.target == target && l.name in walked && l.name in expected
  {
    var m := Matching(walked, expected);
    var r := LinesFor(k, source, target, m, firstId);
    forall l | l in r
      ensures l.kind == k && l.source == source && l.target == target && l.name in walked && l.name in expected
    {
      var i :| 0 <= i < |r| && r[i] == l;
      assert l.name == m[i] && m[i] in m;
    }
  }

  /** Every name both sides know gets a line. */
  lemma MatchedLinesComplete(k: Kind, source: BoxRef, target: BoxRef, walked: seq<string>, expected: seq<string>, firstId: nat)
    ensures var r := LinesFor(k, source, target, Matching(walked, expected), firstId);
      forall n :: n in walked && n in expected ==> exists l :: l in r && l.name == n
  {
    var m := Matching(walked, expected);
    var r := LinesFor(k, source, target, m, firstId);
    forall n | n in walked && n in expected
      ensures exists l :: l in r && l.name == n
    {
      var i :| 0 <= i < |m| && m[i] == n;
      assert r[i].name == n;
    }
  }

  /** No name gets two lines when the walked names are distinct. */
  lemma MatchedLinesDistinct(k: Kind, source: BoxRef, target: BoxRef, walked: seq<string>, expected: seq<string>, firstId: nat)
    requires ArraySets.NoDuplicates(walked)
    ensures var r := LinesFor(k, source, target, Matching(walked, expected), firstId);
      forall i, j :: 0 <= i < j < |r| ==> r[i].name != r[j].name
  {
    var m := Matching(walked, expected);
    MatchingKeepsOrder(walked, expected);
    var r := LinesFor(k, source, target, m, firstId);
    forall i, j | 0 <= i < j < |r|
      ensures r[i].name != r[j].name
    {
      assert r[i].name == m[i] && r[j].name == m[j];
    }
  }

  /** The matched names are a duplicate-free subsequence when the walked ones are. */
  lemma {:induction false} MatchingKeepsOrder(walked: seq<string>, expected: seq<string>)
    requires ArraySets.NoDuplicates(walked)
    ensures ArraySets.NoDuplicates(Matching(walked, expected))
  {
    if walked != [] {
      var prefix := walked[..|walked| - 1];
      assert ArraySets.NoDuplicates(prefix);
      MatchingKeepsOrder(prefix, expected);
      var n := walked[|walked| - 1];
      assert n !in prefix;
    }
  }

  /** The ordering rules in terms of `before?`/`after?`: only a backward mechanism may loop back to its own box. */
  lemma FiresByOrder(k: Kind, source: BoxRef, target: BoxRef, sourceSeq: int, targetSeq: int)
    ensures k in {ForwardInput, ForwardGuidance, ForwardMechanism} ==>
      (Fires(k, source, target, sourceSeq, targetSeq) <==> sourceSeq < targetSeq)
    ensures k in {BackwardInput, BackwardGuidance} ==> (Fires(k, source, target, sourceSeq, targetSeq) <==> sourceSeq > targetSeq)
    ensures k == BackwardMechanism && source == target ==> Fires(k, source, target, sourceSeq, targetSeq)
    ensures k != BackwardMechanism && !IsExternal(k) && sourceSeq == targetSeq ==> !Fires(k, source, target, sourceSeq, targetSeq)
    ensures IsExternal(k) ==> Fires(k, source, target, sourceSeq, targetSeq)
  {
  }

  function SideOf(b: Box, d: Direction): (s: Side)
    reads b
    ensures b.Valid() ==> s.id == SideId(b.ref, d)
  {
    match d
    case Top => b.top
    case Bottom => b.bottom
    case Left => b.left
    case Right => b.right
  }

  // ---------------------------------------------------------------------
  // The unsatisfied and unattached rules

  /** The kinds whose rule walks unattached anchors. */
  predicate IsUnsatisfied(k: Kind)
  {
    k in {UnsatisfiedInput, UnsatisfiedOutput, UnsatisfiedGuidance, UnsatisfiedMechanism, UnattachedGuidance}
  }

  /** Which box's side is walked for unattached anchors: the target's, except for an output, the source's. */
  function UnattachedWalkDir(k: Kind): Direction
  {
    match k
    case UnsatisfiedInput => Left
    case UnsatisfiedOutput => Right
    case UnsatisfiedMechanism => Bottom
    case _ => Top
  }

  /** `add` of each name in turn. */
  function AddedAll(s: seq<string>, xs: seq<string>): (r: seq<string>)
  {
    if xs == [] then s else ArraySets.Added(AddedAll(s, xs[..|xs| - 1]), xs[|xs| - 1])
  }

  /** Registering names keeps what was there, in place, adds each name, and adds nothing else. */
  lemma {:induction false} AddedAllProperties(s: seq<string>, xs: seq<string>)
    ensures s <= AddedAll(s, xs)
    ensures forall n :: n in AddedAll(s, xs) <==> n in s || n in xs
    ensures ArraySets.NoDuplicates(s) ==> ArraySets.NoDuplicates(AddedAll(s, xs))
  {
    if xs != [] {
      var prefix := xs[..|xs| - 1];
      AddedAllProperties(s, prefix);
      if ArraySets.NoDuplicates(s) {
        ArraySets.AddedKeepsNoDuplicates(AddedAll(s, prefix), xs[|xs| - 1]);
      }
      assert xs == prefix + [xs[|xs| - 1]];
    }
  }

  /** The side an unsatisfied rule walks: the target's, except that an output walks the source's right side. */
  function WalkSide(k: Kind, source: Box, target: Box): Side
    reads source, target
  {
    if k == UnsatisfiedOutput then source.right else SideOf(target, UnattachedWalkDir(k))
  }

  /** The side an unsatisfied rule registers names on: the same side of the other box. */
  function RegisterSide(k: Kind, source: Box, target: Box): Side
    reads source, target
  {
    if k == UnsatisfiedOutput then target.right else SideOf(source, UnattachedWalkDir(k))
  }

  /**
   * `make_line` of an unsatisfied or unattached kind: for each anchor of the
   * walked side that no line had attached to when the walk began, the name
   * is registered on the corresponding side of the other box and a line is
   * yielded.
   */
  method MakeUnattachedLines(k: Kind, source: Box, target: Box, firstId: nat) returns (r: seq<LineSpec>)
    requires IsUnsatisfied(k) && source.Valid() && target.Valid()
    modifies RegisterSide(k, source, target)`anchors
    ensures source.Valid() && target.Valid()
    ensures r == LinesFor(k, source.ref, target.ref, NamesOf(old(UnattachedOf(WalkSide(k, source, target).anchors))), firstId)
    ensures NamesOf(RegisterSide(k, source, target).anchors) ==
      AddedAll(old(NamesOf(RegisterSide(k, source, target).anchors)), NamesOf(old(UnattachedOf(WalkSide(k, source, target).anchors))))
  {
    var names := NamesOf(UnattachedOf(WalkSide(k, source, target).anchors));
    r := RegisterOnOtherSide(k, source, target, names, firstId);
  }

  /** Registers the walked names on the side an unsatisfied rule registers on; both boxes stay well formed. */
  method RegisterOnOtherSide(k: Kind, source: Box, target: Box, names: seq<string>, firstId: nat) returns (r: seq<LineSpec>)
    requires source.Valid() && target.Valid()
    modifies RegisterSide(k, source, target)`anchors
    ensures source.Valid() && target.Valid()
    ensures r == LinesFor(k, source.ref, target.ref, names, firstId)
    ensures NamesOf(RegisterSide(k, source, target).anchors) == AddedAll(old(NamesOf(RegisterSide(k, source, target).anchors)), names)
  {
    var register := RegisterSide(k, source, target);
    r := RegisterEach(k, source.ref, target.ref, register, names, firstId);
  }

  /** The loop of an unsatisfied rule: registers each name and yields a line for it. */
  method RegisterEach(k: Kind, source: BoxRef, target: BoxRef, register: Side, names: seq<string>, firstId: nat) returns (r: seq<LineSpec>)
    requires register.Valid()
    modifies register`anchors
    ensures register.Valid()
    ensures r == LinesFor(k, source, target, names, firstId)
    ensures NamesOf(register.anchors) == AddedAll(old(NamesOf(register.anchors)), names)
  {
    r := [];
    var i := 0;
    while i < |names|
      invariant 0 <= i <= |names| && register.Valid()
      invariant r == LinesFor(k, source, target, names[..i], firstId)
      invariant NamesOf(register.anchors) == AddedAll(old(NamesOf(register.anchors)), names[..i])
    {
      LinesForStep(k, source, target, names, i, firstId);
      AddedAllStep(old(NamesOf(register.anchors)), names, i);
      var a := register.Expects(names[i]);
      r := r + [LineSpec(firstId + i, k, source, target, names[i])];
      i := i + 1;
    }
    assert names[..i] == names;
  }

  /** One more name yields one more line, numbered after the others. */
  lemma LinesForStep(k: Kind, source: BoxRef, target: BoxRef, names: seq<string>, i: nat, firstId: nat)
    requires i < |names|
    ensures LinesFor(k, source, target, names[..i + 1], firstId) ==
      LinesFor(k, source, target, names[..i], firstId) + [LineSpec(firstId + i, k, source, target, names[i])]
  {
  }

  /** Registering one more name is one more `add`. */
  lemma AddedAllStep(s: seq<string>, names: seq<string>, i: nat)
    requires i < |names|
    ensures AddedAll(s, names[..i + 1]) == ArraySets.Added(AddedAll(s, names[..i]), names[i])
  {
    assert names[..i + 1][..i] == names[..i];
  }

  /**
   * An unsatisfied rule yields one line per unattached anchor of the walked
   * side, with that anchor's name, and attached anchors yield nothing; the
   * registered side then expects every such name.
   */
  lemma UnattachedLinesProperties(k: Kind, source: BoxRef, target: BoxRef, walked: seq<Anchor>, registered: seq<string>, firstId: nat)
    ensures var r := LinesFor(k, source, target, NamesOf(UnattachedOf(walked)), firstId);
      && (forall l :: l in r ==> exists a :: a in walked && !a.Attached() && a.name == l.name)
      && (forall a :: a in walked && !a.Attached() ==> exists l :: l in r && l.name == a.name)
      && (forall a :: a in walked && !a.Attached() ==> a.name in AddedAll(registered, NamesOf(UnattachedOf(walked))))
  {
    var un := UnattachedOf(walked);
    var r := LinesFor(k, source, target, NamesOf(un), firstId);
    AddedAllProperties(registered, NamesOf(un));
    forall l | l in r
      ensures exists a :: a in walked && !a.Attached() && a.name == l.name
    {
      var i :| 0 <= i < |r| && r[i] == l;
      assert un[i] in walked;
    }
    forall a | a in walked && !a.Attached()
      ensures exists l :: l in r && l.name == a.name
      ensures a.name in NamesOf(un)
    {
      var i :| 0 <= i < |walked| && walked[i] == a;
      assert a in un;
      var j :| 0 <= j < |un| && un[j] == a;
      assert r[j].name == a.name;
      assert NamesOf(un)[j] == a.name;
    }
  }

  // ---------------------------------------------------------------------
  // Binding lines to anchors

  /**
   * `attach`/`connect`: binds the line to the anchors named after it on the
   * sides its kind names, registering them if needed; a side the kind does
   * not name is left alone, and so is the corresponding anchor field.
   */
  method AttachLine(line: Line, source: Box, target: Box)
    requires source.Valid() && target.Valid()
    requires line.spec.source == source.ref && line.spec.target == target.ref
    modifies line`sourceAnchor, line`targetAnchor
    modifies source.right, source.right.anchors
    modifies target.left, target.left.anchors, target.top, target.top.anchors, target.bottom, target.bottom.anchors
    ensures SourceAnchorSide(line.spec).None? ==> line.sourceAnchor == old(line.sourceAnchor)
    ensures SourceAnchorSide(line.spec).Some? ==> BoundTo(line.sourceAnchor, line.spec, SourceAnchorSide(line.spec).value)
    ensures TargetAnchorSide(line.spec).None? ==> line.targetAnchor == old(line.targetAnchor)
    ensures TargetAnchorSide(line.spec).Some? ==> BoundTo(line.targetAnchor, line.spec, TargetAnchorSide(line.spec).value)
    ensures SourceAnchorSide(line.spec).Some? ==> line.sourceAnchor.value in source.right.anchors
    ensures TargetAnchorSide(line.spec).Some? ==> line.targetAnchor.value in SideOf(target, TargetAnchorSide(line.spec).value.dir).anchors
    ensures source.Valid() && target.Valid()
  {
    if SourceAnchorSide(line.spec).Some? {
      BindSource(line, source);
      assert target.top != source.right && target.bottom != source.right && target.left != source.right;
      assert target.right != source.right ==> target.right.Valid();
    }
    if TargetAnchorSide(line.spec).Some? {
      BindTargetKeeping(line, source, target);
    }
  }

  /** The anchor field holds an anchor of the side, named after the line, with the line attached. */
  ghost predicate BoundTo(a: Option<Anchor>, l: LineSpec, side: SideId)
    reads if a.Some? then {a.value} else {}
  {
    a.Some? && a.value.side == side && a.value.name == l.name && l in a.value.lines
  }

  method BindSource(line: Line, source: Box)
    requires source.Valid() && line.spec.source == source.ref
    modifies line`sourceAnchor, source.right, source.right.anchors
    ensures source.Valid() && source.right.Valid()
    ensures BoundTo(line.sourceAnchor, line.spec, RightOf(source.ref))
    ensures line.sourceAnchor.value in source.right.anchors
  {
    var a := source.right.Attach(line.spec);
    line.sourceAnchor := Some(a);
  }

  method BindTarget(line: Line, target: Box)
    requires target.Valid() && line.spec.target == target.ref && TargetAnchorSide(line.spec).Some?
    modifies line`targetAnchor, SideOf(target, TargetAnchorSide(line.spec).value.dir), SideOf(target, TargetAnchorSide(line.spec).value.dir).anchors
    ensures BoundTo(line.targetAnchor, line.spec, TargetAnchorSide(line.spec).value)
    ensures line.targetAnchor.value in SideOf(target, TargetAnchorSide(line.spec).value.dir).anchors
    ensures SideOf(target, TargetAnchorSide(line.spec).value.dir).Valid() && target.Valid()
  {
    var side := SideOf(target, TargetAnchorSide(line.spec).value.dir);
    var a := side.Attach(line.spec);
    line.targetAnchor := Some(a);
  }

  /** Binds the target anchor, leaving a source anchor bound before intact. */
  method BindTargetKeeping(line: Line, source: Box, target: Box)
    requires source.Valid() && target.Valid() && line.spec.target == target.ref && TargetAnchorSide(line.spec).Some?
    requires SourceAnchorSide(line.spec).Some? ==> SourceBound(line, source)
    modifies line`targetAnchor, SideOf(target, TargetAnchorSide(line.spec).value.dir), SideOf(target, TargetAnchorSide(line.spec).value.dir).anchors
    ensures BoundTo(line.targetAnchor, line.spec, TargetAnchorSide(line.spec).value)
    ensures line.targetAnchor.value in SideOf(target, TargetAnchorSide(line.spec).value.dir).anchors
    ensures target.Valid() && source.Valid()
    ensures SourceAnchorSide(line.spec).Some? ==> SourceBound(line, source)
  {
    var side := SideOf(target, TargetAnchorSide(line.spec).value.dir);
    if SourceAnchorSide(line.spec).Some? {
      assert line.sourceAnchor.value !in side.anchors;
    }
    BindTarget(line, target);
  }

  /** The source anchor is bound to the line and registered on the source's right side. */
  ghost predicate SourceBound(line: Line, source: Box)
    reads line, source, source.right, if line.sourceAnchor.Some? then {line.sourceAnchor.value} else {}
  {
    && BoundTo(line.sourceAnchor, line.spec, RightOf(source.ref))
    && line.sourceAnchor.value in source.right.anchors
  }
}
