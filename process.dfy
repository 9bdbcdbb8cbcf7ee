/**
 * Process composition (Process): processes are numbered as they are
 * created, each with an optional parent, an ordered set of children and,
 * per dependency type, an ordered set of names.  `ancestor_of?` recurses
 * through the children; the interpreter's stack is modelled as a depth
 * bound, and running out of it is the error the interpreter raises.
 */
module Processes {
  import opened Wrappers
  import ArraySets

  const AlreadyAChild: string := "Already a child"
  const CyclicComposition: string := "Cyclic composition"
  const StackTooDeep: string := "stack level too deep"

  // ---------------------------------------------------------------------
  // The child relation

  /** Every child is a process of the registry. */
  ghost predicate Closed(children: seq<seq<nat>>)
  {
    forall p, i :: 0 <= p < |children| && 0 <= i < |children[p]| ==> children[p][i] < |children|
  }

  /** o can be reached from p by at most n steps from a process to one of its children. */
  ghost predicate DescendsWithin(children: seq<seq<nat>>, p: nat, o: nat, n: nat)
    requires Closed(children) && p < |children|
    decreases n
  {
    n > 0 && (o in children[p] || exists i :: 0 <= i < |children[p]| && DescendsWithin(children, children[p][i], o, n - 1))
  }

  /** o descends from p: the transitive closure of `parent_of?`. */
  ghost predicate Descends(children: seq<seq<nat>>, p: nat, o: nat)
    requires Closed(children) && p < |children|
  {
    exists n: nat :: DescendsWithin(children, p, o, n)
  }

  /** No process descends from itself. */
  ghost predicate Acyclic(children: seq<seq<nat>>)
    requires Closed(children)
  {
    forall p :: 0 <= p < |children| ==> !Descends(children, p, p)
  }

  /**
   * `ancestor_of?` with at most `depth` nested calls: a direct child
   * answers at once, otherwise the children are asked in order and the
   * first that answers yes ends the search.
   */
  function AncestorSearch(children: seq<seq<nat>>, p: nat, o: nat, depth: nat): Result<bool>
    requires Closed(children) && p < |children|
    decreases depth, 0
  {
    if depth == 0 then Err(StackTooDeep)
    else if o in children[p] then Ok(true)
    else AnySearch(children, children[p], o, depth - 1)
  }

  /** `children.any? { |child| child.ancestor_of?(o) }`: stops at the first yes, and at the first error. */
  function AnySearch(children: seq<seq<nat>>, cs: seq<nat>, o: nat, depth: nat): Result<bool>
    requires Closed(children) && forall i :: 0 <= i < |cs| ==> cs[i] < |children|
    decreases depth, |cs| + 1
  {
    if cs == [] then Ok(false)
    else
      match AncestorSearch(children, cs[0], o, depth)
      case Err(e) => Err(e)
      case Ok(true) => Ok(true)
      case Ok(false) => AnySearch(children, cs[1..], o, depth)
  }

  /**
   * When the search finishes its answer is the descent relation: yes means
   * o descends from p, and no means it does not, by a path of any length.
   */
  lemma {:induction false} AncestorSearchSound(children: seq<seq<nat>>, p: nat, o: nat, depth: nat)
    requires Closed(children) && p < |children|
    ensures AncestorSearch(children, p, o, depth) == Ok(true) ==> DescendsWithin(children, p, o, depth)
    ensures AncestorSearch(children, p, o, depth) == Ok(false) ==> forall n: nat :: !DescendsWithin(children, p, o, n)
    decreases depth, 0
  {
    if depth > 0 && o !in children[p] {
      AnySearchSound(children, children[p], o, depth - 1);
      if AncestorSearch(children, p, o, depth) == Ok(true) {
        var i :| 0 <= i < |children[p]| && DescendsWithin(children, children[p][i], o, depth - 1);
      }
      if AncestorSearch(children, p, o, depth) == Ok(false) {
        forall n: nat
          ensures !DescendsWithin(children, p, o, n)
        {
          if n > 0 {
            assert forall i :: 0 <= i < |children[p]| ==> !DescendsWithin(children, children[p][i], o, n - 1);
          }
        }
      }
    }
  }

  lemma {:induction false} AnySearchSound(children: seq<seq<nat>>, cs: seq<nat>, o: nat, depth: nat)
    requires Closed(children) && forall i :: 0 <= i < |cs| ==> cs[i] < |children|
    ensures AnySearch(children, cs, o, depth) == Ok(true) ==>
      exists i :: 0 <= i < |cs| && DescendsWithin(children, cs[i], o, depth)
    ensures AnySearch(children, cs, o, depth) == Ok(false) ==>
      forall i, n: nat :: 0 <= i < |cs| ==> !DescendsWithin(children, cs[i], o, n)
    decreases depth, |cs| + 1
  {
    if cs != [] {
      AncestorSearchSound(children, cs[0], o, depth);
      AnySearchSound(children, cs[1..], o, depth);
      if AnySearch(children, cs, o, depth) == Ok(true) && AncestorSearch(children, cs[0], o, depth) != Ok(true) {
        var i :| 0 <= i < |cs[1..]| && DescendsWithin(children, cs[1..][i], o, depth);
        assert cs[i + 1] == cs[1..][i];
      }
      if AnySearch(children, cs, o, depth) == Ok(false) {
        forall i, n: nat | 0 <= i < |cs|
          ensures !DescendsWithin(children, cs[i], o, n)
        {
          if i > 0 {
            assert cs[i] == cs[1..][i - 1];
          }
        }
      }
    }
  }

  /** A process reaches every child of a process it reaches, and every process a child reaches. */
  lemma StepDescends(children: seq<seq<nat>>, p: nat, q: nat, o: nat)
    requires Closed(children) && p < |children| && q in children[p]
    ensures Descends(children, p, q)
    ensures Descends(children, q, o) ==> Descends(children, p, o)
  {
    assert DescendsWithin(children, p, q, 1);
    if Descends(children, q, o) {
      var n: nat :| DescendsWithin(children, q, o, n);
      var i :| 0 <= i < |children[p]| && children[p][i] == q;
      assert DescendsWithin(children, p, o, n + 1);
    }
  }

  /** Descent is transitive. */
  lemma {:induction false} DescendsTransitive(children: seq<seq<nat>>, a: nat, b: nat, c: nat, n: nat)
    requires Closed(children) && a < |children| && b < |children|
    requires DescendsWithin(children, a, b, n) && Descends(children, b, c)
    ensures Descends(children, a, c)
    decreases n
  {
    if b in children[a] {
      StepDescends(children, a, b, c);
    } else {
      var i :| 0 <= i < |children[a]| && DescendsWithin(children, children[a][i], b, n - 1);
      DescendsTransitive(children, children[a][i], b, c, n - 1);
      StepDescends(children, a, children[a][i], c);
    }
  }

  // ---------------------------------------------------------------------
  // The cycle check of add_child

  /** The check of `add_child` as written: only whether the child is already an ancestor of the parent. */
  function CycleCheckAsWritten(children: seq<seq<nat>>, parent: nat, child: nat, depth: nat): Result<bool>
    requires Closed(children) && parent < |children| && child < |children|
  {
    AncestorSearch(children, child, parent, depth)
  }

  /**
   * A childless process passes the check as written when made its own
   * child; afterwards it descends from itself, and asking it whether it is
   * an ancestor of any other process never finishes.
   */
  lemma SelfChildAccepted(children: seq<seq<nat>>, s: nat, depth: nat, o: nat, d: nat)
    requires Closed(children) && s < |children| && children[s] == [] && depth > 0 && o != s
    ensures CycleCheckAsWritten(children, s, s, depth) == Ok(false)
    ensures var after := children[s := ArraySets.Added(children[s], s)];
      Closed(after) && Descends(after, s, s) && AncestorSearch(after, s, o, d).Err?
  {
    assert AncestorSearch(children, s, s, depth) == AnySearch(children, [], s, depth - 1);
    var after := children[s := ArraySets.Added(children[s], s)];
    assert after[s] == [s];
    assert DescendsWithin(after, s, s, 1);
    SelfLoopNeverAnswers(after, s, o, d);
  }

  /** With itself as its only child, a process never finishes the search for another process. */
  lemma {:induction false} SelfLoopNeverAnswers(children: seq<seq<nat>>, s: nat, o: nat, d: nat)
    requires Closed(children) && s < |children| && children[s] == [s] && o != s
    ensures AncestorSearch(children, s, o, d).Err?
    decreases d
  {
    if d > 0 {
      SelfLoopNeverAnswers(children, s, o, d - 1);
      assert AnySearch(children, [s], o, d - 1).Err?;
    }
  }

  /** The corrected check: a process may not become its own child either. */
  function CycleCheck(children: seq<seq<nat>>, parent: nat, child: nat, depth: nat): (r: Result<bool>)
    requires Closed(children) && parent < |children| && child < |children|
    ensures r == Ok(false) ==> child != parent && !Descends(children, child, parent)
    ensures child == parent ==> r == Ok(true)
  {
    if child == parent then Ok(true)
    else
      AncestorSearchSound(children, child, parent, depth);
      AncestorSearch(children, child, parent, depth)
  }

  /**
   * Adding a child that is not the parent and does not reach it keeps the
   * composition free of cycles.
   */
  lemma AddingChildKeepsAcyclic(children: seq<seq<nat>>, s: nat, c: nat)
    requires Closed(children) && Acyclic(children) && s < |children| && c < |children|
    requires c != s && !Descends(children, c, s)
    ensures var after := children[s := ArraySets.Added(children[s], c)];
      Closed(after) && Acyclic(after)
  {
    var after := children[s := ArraySets.Added(children[s], c)];
    assert Closed(after);
    forall p | 0 <= p < |after|
      ensures !Descends(after, p, p)
    {
      if Descends(after, p, p) {
        var n: nat :| DescendsWithin(after, p, p, n);
        PathThroughNewEdge(children, s, c, p, p, n);
        if p != c && p != s {
          var m: nat :| DescendsWithin(children, c, p, m);
          DescendsTransitive(children, c, p, s, m);
        }
      }
    }
  }

  /**
   * A path after adding the edge s to c either was a path before, or runs
   * to s, takes the new edge, and runs on from c.
   */
  lemma {:induction false} PathThroughNewEdge(children: seq<seq<nat>>, s: nat, c: nat, p: nat, o: nat, n: nat)
    requires Closed(children) && s < |children| && c < |children| && p < |children|
    requires var after := children[s := ArraySets.Added(children[s], c)];
      Closed(after) && DescendsWithin(after, p, o, n)
    ensures Descends(children, p, o) ||
      ((p == s || Descends(children, p, s)) && (o == c || Descends(children, c, o)))
    decreases n
  {
    var after := children[s := ArraySets.Added(children[s], c)];
    if o in after[p] {
      if o in children[p] {
        StepDescends(children, p, o, o);
      }
    } else {
      var i :| 0 <= i < |after[p]| && DescendsWithin(after, after[p][i], o, n - 1);
      var q := after[p][i];
      PathThroughNewEdge(children, s, c, q, o, n - 1);
      if q in children[p] {
        StepDescends(children, p, q, o);
        StepDescends(children, p, q, s);
      }
    }
  }

  // ---------------------------------------------------------------------
  // Dependencies

  /** One entry of the dependency hash: a type and its names, in insertion order. */
  datatype DependencySet = DependencySet(kind: string, names: seq<string>)

  /** Whether some entry has this type. */
  predicate HasKind(deps: seq<DependencySet>, kind: string)
  {
    deps != [] && (deps[0].kind == kind || HasKind(deps[1..], kind))
  }

  /** Whether the entry of this type holds this name. */
  predicate Has(deps: seq<DependencySet>, kind: string, name: string)
  {
    deps != [] && ((deps[0].kind == kind && name in deps[0].names) || Has(deps[1..], kind, name))
  }

  /** Types are unique and so are the names under each type. */
  ghost predicate WellFormed(deps: seq<DependencySet>)
  {
    deps == [] ||
      (ArraySets.NoDuplicates(deps[0].names) && !HasKind(deps[1..], deps[0].kind) && WellFormed(deps[1..]))
  }

  /** `add_dependency(type, name)`: the type's entry is created on first use, and the name is added to it. */
  function AddDependencyTo(deps: seq<DependencySet>, kind: string, name: string): (r: seq<DependencySet>)
    ensures |r| == |deps| || |r| == |deps| + 1
    ensures forall i :: 0 <= i < |deps| ==> r[i].kind == deps[i].kind
  {
    if deps == [] then [DependencySet(kind, [name])]
    else if deps[0].kind == kind then [DependencySet(kind, ArraySets.Added(deps[0].names, name))] + deps[1..]
    else [deps[0]] + AddDependencyTo(deps[1..], kind, name)
  }

  /** The pairs `each_dependency` yields: type by type, and in each type name by name. */
  function Yields(deps: seq<DependencySet>): (r: seq<(string, string)>)
  {
    if deps == [] then [] else Pairs(deps[0]) + Yields(deps[1..])
  }

  function Pairs(d: DependencySet): (r: seq<(string, string)>)
    ensures |r| == |d.names| && forall i :: 0 <= i < |r| ==> r[i] == (d.kind, d.names[i])
  {
    seq(|d.names|, i requires 0 <= i < |d.names| => (d.kind, d.names[i]))
  }

  /** What is yielded is exactly the pairs of the entries. */
  lemma {:induction false} YieldsMembers(deps: seq<DependencySet>, k: string, n: string)
    ensures (k, n) in Yields(deps) <==> Has(deps, k, n)
    ensures Has(deps, k, n) ==> HasKind(deps, k)
  {
    if deps != [] {
      YieldsMembers(deps[1..], k, n);
      if (k, n) in Pairs(deps[0]) {
        var j :| 0 <= j < |Pairs(deps[0])| && Pairs(deps[0])[j] == (k, n);
      }
      if deps[0].kind == k && n in deps[0].names {
        var j :| 0 <= j < |deps[0].names| && deps[0].names[j] == n;
        assert Pairs(deps[0])[j] == (k, n);
      }
    }
  }

  /** After adding, the pairs held are the earlier ones and the new one, and the types the earlier ones and the new one. */
  lemma {:induction false} AddDependencyContents(deps: seq<DependencySet>, kind: string, name: string, k: string, n: string)
    ensures Has(AddDependencyTo(deps, kind, name), k, n) <==> Has(deps, k, n) || (k, n) == (kind, name)
    ensures HasKind(AddDependencyTo(deps, kind, name), k) <==> HasKind(deps, k) || k == kind
  {
    var r := AddDependencyTo(deps, kind, name);
    if deps == [] {
      assert r[1..] == [];
    } else if deps[0].kind == kind {
      assert r[1..] == deps[1..];
    } else {
      AddDependencyContents(deps[1..], kind, name, k, n);
      assert r[1..] == AddDependencyTo(deps[1..], kind, name);
    }
  }

  /** `each_dependency` after adding yields the earlier pairs and the new one. */
  lemma AddDependencyYields(deps: seq<DependencySet>, kind: string, name: string, k: string, n: string)
    ensures (k, n) in Yields(AddDependencyTo(deps, kind, name)) <==> (k, n) in Yields(deps) || (k, n) == (kind, name)
  {
    YieldsMembers(deps, k, n);
    YieldsMembers(AddDependencyTo(deps, kind, name), k, n);
    AddDependencyContents(deps, kind, name, k, n);
  }

  /** Adding keeps types and names unique. */
  lemma {:induction false} AddDependencyWellFormed(deps: seq<DependencySet>, kind: string, name: string)
    requires WellFormed(deps)
    ensures WellFormed(AddDependencyTo(deps, kind, name))
  {
    var r := AddDependencyTo(deps, kind, name);
    if deps == [] {
      assert r[1..] == [];
    } else if deps[0].kind == kind {
      ArraySets.AddedKeepsNoDuplicates(deps[0].names, name);
      assert r[1..] == deps[1..];
    } else {
      AddDependencyWellFormed(deps[1..], kind, name);
      AddDependencyContents(deps[1..], kind, name, deps[0].kind, name);
      assert r[1..] == AddDependencyTo(deps[1..], kind, name);
    }
  }

  /** `each_dependency` yields every (type, name) pair exactly once. */
  lemma {:induction false} YieldsOnce(deps: seq<DependencySet>)
    requires WellFormed(deps)
    ensures ArraySets.NoDuplicates(Yields(deps))
  {
    if deps != [] {
      var head, tail := Pairs(deps[0]), Yields(deps[1..]);
      YieldsOnce(deps[1..]);
      var all := head + tail;
      forall i, j | 0 <= i < j < |all|
        ensures all[i] != all[j]
      {
        if j < |head| {
          assert deps[0].names[i] != deps[0].names[j];
        } else if i < |head| {
          assert all[j] == tail[j - |head|];
          YieldsMembers(deps[1..], all[j].0, all[j].1);
        } else {
          assert all[i] == tail[i - |head|] && all[j] == tail[j - |head|];
        }
      }
    }
  }

  // ---------------------------------------------------------------------
  // The registry of processes

  class Registry {
    /** Per process, by number: its name, parent, children and dependencies. */
    var names: seq<string>
    var parents: seq<Option<nat>>
    var children: seq<seq<nat>>
    var dependencies: seq<seq<DependencySet>>

    /** Every number refers to a process; children are unique, the composition has no cycle, dependencies are well formed. */
    ghost predicate Valid()
      reads this
    {
      && |parents| == |names| && |children| == |names| && |dependencies| == |names|
      && Closed(children) && Acyclic(children)
      && (forall p :: 0 <= p < |parents| && parents[p].Some? ==> parents[p].value < |names|)
      && (forall p :: 0 <= p < |children| ==> ArraySets.NoDuplicates(children[p]))
      && (forall p :: 0 <= p < |dependencies| ==> WellFormed(dependencies[p]))
    }

    constructor ()
      ensures Valid() && names == [] && parents == [] && children == [] && dependencies == []
    {
      names, parents, children, dependencies := [], [], [], [];
    }

    /** `root?`: the process has no parent. */
    predicate IsRoot(p: nat)
      requires Valid() && p < |names|
      reads this
    {
      parents[p].None?
    }

    /** `parent_of?`: o is one of p's children. */
    predicate ParentOf(p: nat, o: nat)
      requires Valid() && p < |names|
      reads this
    {
      o in children[p]
    }

    /** `decomposable?`: the process has a child. */
    predicate Decomposable(p: nat)
      requires Valid() && p < |names|
      reads this
    {
      children[p] != []
    }

    /** `ancestor_of?` within the interpreter's stack. */
    function AncestorOf(p: nat, o: nat, depth: nat): (r: Result<bool>)
      requires Valid() && p < |names|
      reads this
      ensures r == Ok(true) ==> Descends(children, p, o)
      ensures r == Ok(false) ==> !Descends(children, p, o)
    {
      AncestorSearchSound(children, p, o, depth);
      AncestorSearch(children, p, o, depth)
    }

    /** `Process.new(name)`: a new root without children or dependencies. */
    method NewProcess(name: string) returns (p: nat)
      requires Valid()
      modifies this
      ensures Valid() && p == old(|names|)
      ensures names == old(names) + [name] && parents == old(parents) + [None]
      ensures children == old(children) + [[]] && dependencies == old(dependencies) + [[]]
      ensures IsRoot(p) && !Decomposable(p)
    {
      p := |names|;
      ExtendingKeepsAcyclic(children);
      names, parents, children, dependencies := names + [name], parents + [None], children + [[]], dependencies + [[]];
    }

    /** `parent=`: only a root may be given a parent. */
    method SetParent(p: nat, other: nat) returns (r: Result<()>)
      requires Valid() && p < |names| && other < |names|
      modifies this`parents
      ensures Valid()
      ensures old(parents[p]).Some? ==> r == Err(AlreadyAChild) && parents == old(parents)
      ensures old(parents[p]).None? ==> r == Ok(()) && parents == old(parents)[p := Some(other)]
    {
      if parents[p].Some? {
        return Err(AlreadyAChild);
      }
      parents := parents[p := Some(other)];
      r := Ok(());
    }

    /**
     * `add_child` with the corrected cycle check: a child that is the
     * parent or an ancestor of it is refused with no change; otherwise it
     * is added to the children, and then refused as "Already a child" if it
     * has a parent, the addition staying.
     */
    method AddChild(s: nat, c: nat, depth: nat) returns (r: Result<()>)
      requires Valid() && s < |names| && c < |names|
      modifies this`children, this`parents
      ensures Valid()
      ensures CycleCheck(old(children), s, c, depth).Err? ==>
        r == Err(CycleCheck(old(children), s, c, depth).error) && children == old(children) && parents == old(parents)
      ensures CycleCheck(old(children), s, c, depth) == Ok(true) ==>
        r == Err(CyclicComposition) && children == old(children) && parents == old(parents)
      ensures CycleCheck(old(children), s, c, depth) == Ok(false) ==>
        children == old(children)[s := ArraySets.Added(old(children)[s], c)] &&
        (old(parents[c]).Some? ==> r == Err(AlreadyAChild) && parents == old(parents)) &&
        (old(parents[c]).None? ==> r == Ok(()) && parents == old(parents)[c := Some(s)])
    {
      var check := CycleCheck(children, s, c, depth);
      if check.Err? {
        return Err(check.error);
      }
      if check.value {
        return Err(CyclicComposition);
      }
      AddingChildKeepsAcyclic(children, s, c);
      ArraySets.AddedKeepsNoDuplicates(children[s], c);
      children := children[s := ArraySets.Added(children[s], c)];
      r := SetParent(c, s);
    }

    /** `add_dependency(type, name)`. */
    method AddDependency(p: nat, kind: string, name: string)
      requires Valid() && p < |names|
      modifies this`dependencies
      ensures Valid()
      ensures dependencies == old(dependencies)[p := AddDependencyTo(old(dependencies)[p], kind, name)]
    {
      AddDependencyWellFormed(dependencies[p], kind, name);
      dependencies := dependencies[p := AddDependencyTo(dependencies[p], kind, name)];
    }

    /** `each_dependency`: the (type, name) pairs of the process, each once. */
    function EachDependency(p: nat): (r: seq<(string, string)>)
      requires Valid() && p < |names|
      reads this
      ensures ArraySets.NoDuplicates(r)
    {
      YieldsOnce(dependencies[p]);
      Yields(dependencies[p])
    }

    /**
     * `Process.new(name, children)`: a new process that adds each given
     * child in turn; the first refusal is raised, what was added before it
     * staying.
     */
    method Compose(name: string, kids: seq<nat>, depth: nat) returns (p: nat, r: Result<()>)
      requires Valid() && forall i :: 0 <= i < |kids| ==> kids[i] < |names|
      modifies this
      ensures Valid() && p == old(|names|) && names == old(names) + [name]
      ensures dependencies == old(dependencies) + [[]]
      ensures forall q :: 0 <= q < old(|names|) ==> children[q] == old(children[q])
      ensures r.Ok? ==> forall i :: 0 <= i < |kids| ==> kids[i] in children[p]
      ensures r.Ok? ==> forall i :: 0 <= i < |kids| ==> parents[kids[i]] == Some(p)
      ensures forall c :: c in children[p] ==> c in kids
      ensures parents[p].None?
      ensures forall q :: 0 <= q < old(|names|) && q !in kids ==> parents[q] == old(parents[q])
    {
      p := NewProcess(name);
      var i := 0;
      while i < |kids|
        invariant 0 <= i <= |kids| && Valid() && p < |names| && names == old(names) + [name]
        invariant dependencies == old(dependencies) + [[]]
        invariant forall q :: 0 <= q < old(|names|) ==> children[q] == old(children[q])
        invariant forall j :: 0 <= j < i ==> kids[j] in children[p]
        invariant forall j :: 0 <= j < i ==> parents[kids[j]] == Some(p)
        invariant forall c :: c in children[p] ==> c in kids
        invariant parents[p].None?
        invariant forall q :: 0 <= q < old(|names|) && q !in kids ==> parents[q] == old(parents[q])
      {
        assert kids[i] in kids;
        ghost var before := children;
        ghost var check := CycleCheck(children, p, kids[i], depth);
        r := AddChild(p, kids[i], depth);
        match check {
          case Err(_) =>
          case Ok(true) =>
          case Ok(false) =>
            assert children[p] == ArraySets.Added(before[p], kids[i]);
        }
        if r.Err? {
          return;
        }
        i := i + 1;
      }
      r := Ok(());
    }
  }

  /** A new childless process keeps the composition closed and acyclic. */
  lemma ExtendingKeepsAcyclic(children: seq<seq<nat>>)
    requires Closed(children) && Acyclic(children)
    ensures Closed(children + [[]]) && Acyclic(children + [[]])
  {
    var after := children + [[]];
    assert Closed(after);
    forall p | 0 <= p < |after|
      ensures !Descends(after, p, p)
    {
      if Descends(after, p, p) {
        var n: nat :| DescendsWithin(after, p, p, n);
        if p < |children| {
          ExtendedPath(children, p, p, n);
          assert Descends(children, p, p);
        }
      }
    }
  }

  /** A path after adding a childless process was a path before. */
  lemma {:induction false} ExtendedPath(children: seq<seq<nat>>, p: nat, o: nat, n: nat)
    requires Closed(children) && Closed(children + [[]]) && p < |children|
    requires DescendsWithin(children + [[]], p, o, n)
    ensures DescendsWithin(children, p, o, n)
    decreases n
  {
    var after := children + [[]];
    assert after[p] == children[p];
    if o !in after[p] {
      var i :| 0 <= i < |after[p]| && DescendsWithin(after, after[p][i], o, n - 1);
      ExtendedPath(children, children[p][i], o, n - 1);
    }
  }
}
