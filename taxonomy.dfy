/**
 * The kinds of line of an IDEF0 diagram and the rules each kind fixes:
 * which sides of its boxes it must clear, the clearance group it joins on a
 * side, and the precedence tuples used to rank lines on a side (lane order)
 * and anchors on a side (anchor order).
 *
 * Ruby picks a branch with `case side when @source.right_side ...`, comparing
 * side objects by identity; here a side is the value (box, direction) and the
 * branches are tried in the source's order, so a self-loop whose source and
 * target share a side takes the first branch that names it.  A fall-through
 * to `super` where the base class defines nothing, or where the base class
 * raises, is an Err.
 */
module Taxonomy {
  import opened Wrappers

  datatype Direction = Top | Bottom | Left | Right

  /** A box of a diagram: the diagram's own frame, or a process box named uniquely within it. */
  datatype BoxRef = Frame | Process(name: string)

  datatype SideId = SideId(box: BoxRef, dir: Direction)

  datatype Kind =
    | ForwardInput | ForwardGuidance | ForwardMechanism
    | BackwardInput | BackwardGuidance | BackwardMechanism
    | ExternalInput | ExternalOutput | ExternalGuidance | ExternalMechanism
    | UnsatisfiedInput | UnsatisfiedOutput | UnsatisfiedGuidance | UnsatisfiedMechanism
    | UnattachedGuidance

  /**
   * A line: its kind, the boxes it runs between and its name.  `id` stands
   * for the object identity Ruby gives every line, so two lines built from
   * the same arguments are still different lines.
   */
  datatype LineSpec = LineSpec(id: nat, kind: Kind, source: BoxRef, target: BoxRef, name: string)

  /**
   * The sequence numbers a line's tuples read: its source and target boxes'
   * and its source and target anchors'.
   */
  datatype Ranks = Ranks(source: int, target: int, sourceAnchor: int, targetAnchor: int)

  /** The kind whose behaviour a kind inherits: the unsatisfied and unattached lines are external lines. */
  function Behaviour(k: Kind): (b: Kind)
  {
    match k
    case UnsatisfiedInput => ExternalInput
    case UnsatisfiedOutput => ExternalOutput
    case UnsatisfiedGuidance | UnattachedGuidance => ExternalGuidance
    case UnsatisfiedMechanism => ExternalMechanism
    case _ => k
  }

  predicate IsExternal(k: Kind)
  {
    Behaviour(k) in {ExternalInput, ExternalOutput, ExternalGuidance, ExternalMechanism}
  }

  lemma BehaviourIsIdempotent(k: Kind)
    ensures Behaviour(Behaviour(k)) == Behaviour(k)
    ensures Behaviour(k) == k || IsExternal(k)
  {
  }

  /** The unqualified Ruby class name of each kind. */
  function ClassName(k: Kind): string
  {
    match k
    case ForwardInput => "ForwardInputLine"
    case ForwardGuidance => "ForwardGuidanceLine"
    case ForwardMechanism => "ForwardMechanismLine"
    case BackwardInput => "BackwardInputLine"
    case BackwardGuidance => "BackwardGuidanceLine"
    case BackwardMechanism => "BackwardMechanismLine"
    case ExternalInput => "ExternalInputLine"
    case ExternalOutput => "ExternalOutputLine"
    case ExternalGuidance => "ExternalGuidanceLine"
    case ExternalMechanism => "ExternalMechanismLine"
    case UnsatisfiedInput => "UnsatisfiedInputLine"
    case UnsatisfiedOutput => "UnsatisfiedOutputLine"
    case UnsatisfiedGuidance => "UnsatisfiedGuidanceLine"
    case UnsatisfiedMechanism => "UnsatisfiedMechanismLine"
    case UnattachedGuidance => "UnattachedGuidanceLine"
  }

  /** `backward?`: the class name, inside the IDEF0 namespace, starts with "Backward". */
  predicate IsBackward(k: Kind)
  {
    "Backward" <= ClassName(k)
  }

  /** Exactly the three backward kinds are backward; inherited behaviour does not make a line backward. */
  lemma BackwardKinds(k: Kind)
    ensures IsBackward(k) <==> k in {BackwardInput, BackwardGuidance, BackwardMechanism}
  {
    match k
    case ForwardInput => assert ClassName(k)[0] != 'B';
    case ForwardGuidance => assert ClassName(k)[0] != 'B';
    case ForwardMechanism => assert ClassName(k)[0] != 'B';
    case ExternalInput => assert ClassName(k)[0] != 'B';
    case ExternalOutput => assert ClassName(k)[0] != 'B';
    case ExternalGuidance => assert ClassName(k)[0] != 'B';
    case ExternalMechanism => assert ClassName(k)[0] != 'B';
    case UnsatisfiedInput => assert ClassName(k)[0] != 'B';
    case UnsatisfiedOutput => assert ClassName(k)[0] != 'B';
    case UnsatisfiedGuidance => assert ClassName(k)[0] != 'B';
    case UnsatisfiedMechanism => assert ClassName(k)[0] != 'B';
    case UnattachedGuidance => assert ClassName(k)[0] != 'B';
    case _ =>
  }

  function RightOf(b: BoxRef): SideId { SideId(b, Right) }
  function LeftOf(b: BoxRef): SideId { SideId(b, Left) }
  function TopOf(b: BoxRef): SideId { SideId(b, Top) }
  function BottomOf(b: BoxRef): SideId { SideId(b, Bottom) }

  /** The side whose anchor `attach`/`connect` binds as the line's source anchor, if any. */
  function SourceAnchorSide(l: LineSpec): (r: Option<SideId>)
  {
    match Behaviour(l.kind)
    case ExternalInput | ExternalGuidance | ExternalMechanism => None
    case _ => Some(RightOf(l.source))
  }

  /** The side whose anchor `attach`/`connect` binds as the line's target anchor, if any. */
  function TargetAnchorSide(l: LineSpec): (r: Option<SideId>)
  {
    match Behaviour(l.kind)
    case ForwardInput | BackwardInput | ExternalInput => Some(LeftOf(l.target))
    case ForwardGuidance | BackwardGuidance | ExternalGuidance => Some(TopOf(l.target))
    case ForwardMechanism | BackwardMechanism | ExternalMechanism => Some(BottomOf(l.target))
    case _ => None
  }

  /**
   * Internal lines bind an anchor at both ends, external lines only the one
   * on the process box, which for an output is the source.
   */
  lemma AnchorSidesByKind(l: LineSpec)
    ensures !IsExternal(l.kind) ==> SourceAnchorSide(l) == Some(RightOf(l.source)) && TargetAnchorSide(l).Some?
    ensures IsExternal(l.kind) ==> SourceAnchorSide(l).Some? != TargetAnchorSide(l).Some?
    ensures Behaviour(l.kind) == ExternalOutput <==> (SourceAnchorSide(l).Some? && TargetAnchorSide(l).None?)
    ensures TargetAnchorSide(l).Some? ==> TargetAnchorSide(l).value.box == l.target && TargetAnchorSide(l).value.dir != Right
  {
  }

  /** `sides_to_clear`: the sides whose margin the line needs a lane in. */
  function SidesToClear(l: LineSpec): (r: seq<SideId>)
  {
    match l.kind
    case ForwardInput => [RightOf(l.source)]
    case ForwardMechanism => [RightOf(l.source), BottomOf(l.target)]
    case BackwardInput => [RightOf(l.source), BottomOf(l.source), LeftOf(l.target)]
    case BackwardGuidance => [TopOf(l.target), RightOf(l.source)]
    case BackwardMechanism => [RightOf(l.source), BottomOf(l.source)]
    case _ => []
  }

  /** `clear?`: whether the line needs a lane on the side. */
  predicate Clears(l: LineSpec, side: SideId)
  {
    side in SidesToClear(l)
  }

  const NoClearanceGroup: string := "undefined method clearance_group"
  const NoClearancePrecedence: string := "No clearance precedence specified"

  /** `clearance_group(side)`: the group, among the lines clearing a side, whose lanes the line shares. */
  function ClearanceGroup(l: LineSpec, side: SideId): (r: Result<int>)
  {
    var s, t := l.source, l.target;
    match Behaviour(l.kind)
    case ForwardInput =>
      if side == RightOf(s) then Ok(3) else if side == LeftOf(t) then Ok(1) else Err(NoClearanceGroup)
    case ForwardGuidance =>
      if side == RightOf(s) then Ok(2) else if side == TopOf(t) then Ok(1) else Err(NoClearanceGroup)
    case ForwardMechanism =>
      if side == RightOf(s) then Ok(3) else if side == BottomOf(t) then Ok(1) else Err(NoClearanceGroup)
    case BackwardInput =>
      if side == RightOf(s) then Ok(3)
      else if side == BottomOf(s) then Ok(1)
      else if side == LeftOf(t) then Ok(1)
      else Err(NoClearanceGroup)
    case BackwardGuidance =>
      if side == RightOf(s) then Ok(1) else if side == TopOf(t) then Ok(3) else Err(NoClearanceGroup)
    case BackwardMechanism =>
      if side == RightOf(s) then Ok(3)
      else if side == BottomOf(t) then Ok(3)
      else if side == BottomOf(s) then Ok(1)
      else Err(NoClearanceGroup)
    // `case` without a subject: the first `when` tests a side object, which is always true
    case _ => Ok(2)
  }

  /** `-tuple`: element-wise negation. */
  function Negated(t: seq<int>): (r: seq<int>)
    ensures |r| == |t| && forall i :: 0 <= i < |t| ==> r[i] == -t[i]
  {
    seq(|t|, i requires 0 <= i < |t| => -t[i])
  }

  lemma NegatedTwice(t: seq<int>)
    ensures Negated(Negated(t)) == t
  {
  }

  function NegatedResult(r: Result<seq<int>>): Result<seq<int>>
  {
    if r.Ok? then Ok(Negated(r.value)) else r
  }

  /** `clearance_precedence(side)`: the tuple that orders the lines of one clearance group on a side. */
  function ClearancePrecedence(l: LineSpec, side: SideId, q: Ranks): (r: Result<seq<int>>)
  {
    var s, t := l.source, l.target;
    match l.kind
    case ForwardInput =>
      if side == RightOf(s) then Ok([2, -q.target, 2, -q.targetAnchor]) else Err(NoClearancePrecedence)
    case ForwardMechanism =>
      if side == RightOf(s) then Ok([2, -q.target, 1, -q.targetAnchor])
      else if side == BottomOf(t) then Ok([-q.source, 1, q.targetAnchor])
      else Err(NoClearancePrecedence)
    case BackwardInput =>
      if side == RightOf(s) then Ok([-q.target, -q.targetAnchor])
      else if side == BottomOf(s) then Ok([-q.target, 2, -q.targetAnchor])
      else if side == LeftOf(t) then Ok([1])
      else Err(NoClearancePrecedence)
    case BackwardGuidance =>
      if side == RightOf(s) then Ok([1, -q.target, q.sourceAnchor])
      else if side == TopOf(t) then Ok([1, q.source, -q.targetAnchor])
      else Err(NoClearancePrecedence)
    case BackwardMechanism =>
      if side == RightOf(s) then Ok([-q.target, -q.targetAnchor])
      else if side == BottomOf(s) then Ok([-q.target, 2, -q.targetAnchor])
      else Err(NoClearancePrecedence)
    case _ => Err(NoClearancePrecedence)
  }

  /**
   * `anchor_precedence(side)`: the tuple that orders the anchors of a side.
   * The base class falls back to the clearance precedence; the external
   * lines answer the empty tuple.
   */
  function AnchorPrecedence(l: LineSpec, side: SideId, q: Ranks): (r: Result<seq<int>>)
  {
    var s, t := l.source, l.target;
    var cp := ClearancePrecedence(l, side, q);
    match Behaviour(l.kind)
    case ForwardInput => if side == LeftOf(t) then Ok([-q.source]) else NegatedResult(cp)
    case ForwardGuidance =>
      if side == TopOf(t) then Ok([-q.source]) else if side == RightOf(s) then Ok([-q.target]) else cp
    case ForwardMechanism => if side == RightOf(s) then NegatedResult(cp) else cp
    case BackwardInput => if side == LeftOf(t) then Ok([-q.source]) else NegatedResult(cp)
    case BackwardGuidance => if side == TopOf(t) then NegatedResult(cp) else cp
    case BackwardMechanism => if side == BottomOf(t) then Ok([-q.source]) else cp
    case _ => Ok([])
  }

  /**
   * Every side a line must clear has a clearance group and a clearance
   * precedence, so the lane negotiation never reaches a raising fall-back.
   */
  lemma {:induction false} ClearedSidesAreRanked(l: LineSpec, side: SideId, q: Ranks)
    requires Clears(l, side)
    ensures ClearanceGroup(l, side).Ok? && ClearancePrecedence(l, side, q).Ok?
    ensures ClearanceGroup(l, side).value in {1, 3}
  {
    match l.kind
    case ForwardInput =>
    case ForwardMechanism =>
    case BackwardInput =>
    case BackwardGuidance =>
    case BackwardMechanism =>
  }

  /** Group numbers are 1, 2 or 3; every external line is in group 2 whatever side is asked about. */
  lemma ClearanceGroupRange(l: LineSpec, side: SideId)
    ensures ClearanceGroup(l, side).Ok? ==> ClearanceGroup(l, side).value in {1, 2, 3}
    ensures IsExternal(l.kind) ==> ClearanceGroup(l, side) == Ok(2)
    ensures ClearanceGroup(l, side).Ok? <==>
      || IsExternal(l.kind)
      || side == RightOf(l.source)
      || Some(side) == TargetAnchorSide(l)
      || (side == BottomOf(l.source) && l.kind in {BackwardInput, BackwardMechanism})
  {
  }

  /**
   * A backward mechanism line whose source is its target (a self-loop) meets
   * the target-bottom branch first: group 3 on the shared bottom side, and 1
   * on the source's bottom side otherwise.
   */
  lemma BackwardMechanismSelfLoop(l: LineSpec, q: Ranks)
    requires l.kind == BackwardMechanism
    ensures ClearanceGroup(l, BottomOf(l.source)) == if l.source == l.target then Ok(3) else Ok(1)
    ensures l.source == l.target ==> AnchorPrecedence(l, BottomOf(l.source), q) == Ok([-q.source])
  {
  }

  /**
   * Where a kind negates, the anchor tuple is the clearance tuple negated;
   * on the side the line enters a box the anchor tuple ranks by the source
   * box's sequence alone.
   */
  lemma AnchorPrecedenceNegation(l: LineSpec, q: Ranks)
    ensures l.kind in {ForwardInput, BackwardInput} && l.source != l.target ==>
      AnchorPrecedence(l, RightOf(l.source), q) == NegatedResult(ClearancePrecedence(l, RightOf(l.source), q))
    ensures l.kind == ForwardMechanism ==>
      AnchorPrecedence(l, RightOf(l.source), q) == Ok(Negated([2, -q.target, 1, -q.targetAnchor]))
    ensures l.kind == BackwardGuidance && l.source != l.target ==>
      AnchorPrecedence(l, TopOf(l.target), q) == Ok([-1, -q.source, q.targetAnchor])
    ensures l.kind in {ForwardInput, BackwardInput} ==> AnchorPrecedence(l, LeftOf(l.target), q) == Ok([-q.source])
    ensures l.kind == ForwardGuidance ==> AnchorPrecedence(l, TopOf(l.target), q) == Ok([-q.source])
    ensures IsExternal(l.kind) ==> forall side :: AnchorPrecedence(l, side, q) == Ok([])
  {
    var top := [1, q.source, -q.targetAnchor];
    assert Negated(top) == [-1, -q.source, q.targetAnchor] by {
      assert Negated(top)[0] == -1 && Negated(top)[1] == -q.source && Negated(top)[2] == q.targetAnchor;
    }
  }
}
