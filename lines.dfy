/**
 * The state every line carries (Line): its kind, boxes and name, fixed at
 * construction; a per-side clearance map, read as 0 where nothing was
 * written; and the anchors `attach`/`connect` bind it to.
 */
module Lines {
  import opened Wrappers
  import opened Taxonomy
  import opened Anchors

  /** `clearance_from`: the distance written for a side, 0 if none was. */
  function ClearanceIn(m: map<SideId, int>, side: SideId): int
  {
    if side in m then m[side] else 0
  }

  /** Clearances start at 0; a write is read back; the last write wins; other sides are unaffected. */
  lemma ClearanceWrites(m: map<SideId, int>, side: SideId, other: SideId, d: int, e: int)
    ensures ClearanceIn(map[], side) == 0
    ensures ClearanceIn(m[side := d], side) == d
    ensures m[side := d][side := e] == m[side := e]
    ensures other != side ==> ClearanceIn(m[side := d], other) == ClearanceIn(m, other)
  {
  }

  /**
   * The clearances a line is built with: an external guidance line starts
   * 20 clear of its target's top side, an external mechanism line 20 clear
   * of its target's bottom side, and the unsatisfied and unattached lines
   * inherit this; every other line starts with none.
   */
  function InitialClearance(l: LineSpec): (m: map<SideId, int>)
  {
    match Behaviour(l.kind)
    case ExternalGuidance => map[TopOf(l.target) := 20]
    case ExternalMechanism => map[BottomOf(l.target) := 20]
    case _ => map[]
  }

  lemma InitialClearanceFacts(l: LineSpec, side: SideId)
    ensures Behaviour(l.kind) == ExternalGuidance ==> ClearanceIn(InitialClearance(l), TopOf(l.target)) == 20
    ensures Behaviour(l.kind) == ExternalMechanism ==> ClearanceIn(InitialClearance(l), BottomOf(l.target)) == 20
    ensures ClearanceIn(InitialClearance(l), side) in {0, 20}
    ensures !IsExternal(l.kind) ==> ClearanceIn(InitialClearance(l), side) == 0
  {
  }

  class Line {
    const spec: LineSpec
    var clearance: map<SideId, int>
    var sourceAnchor: Option<Anchor>
    var targetAnchor: Option<Anchor>

    constructor (spec: LineSpec)
      ensures this.spec == spec && clearance == InitialClearance(spec)
      ensures sourceAnchor == None && targetAnchor == None
    {
      this.spec := spec;
      clearance := InitialClearance(spec);
      sourceAnchor := None;
      targetAnchor := None;
    }

    /** `clear(side, distance)`: overwrites the side's clearance. */
    method Clear(side: SideId, distance: int)
      modifies this`clearance
      ensures clearance == old(clearance)[side := distance]
    {
      clearance := clearance[side := distance];
    }

    /** `add_clearance_from(side, delta)`: adds to the side's current clearance. */
    method AddClearanceFrom(side: SideId, delta: int)
      modifies this`clearance
      ensures clearance == old(clearance)[side := ClearanceIn(old(clearance), side) + delta]
    {
      clearance := clearance[side := ClearanceFrom(side) + delta];
    }

    function ClearanceFrom(side: SideId): int
      reads this
    {
      ClearanceIn(clearance, side)
    }
  }
}
