/**
 * The lines the prototype renderer draws between its boxes (spike.rb,
 * `Diagram#connect`).
 *
 * Boxes are visited in declaration order.  Each input, guidance and
 * mechanism a box declares gets an external line from the diagram's frame
 * when the diagram itself declares the same name in the same role.  Each
 * output gets an external output line when the diagram produces it, then a
 * forward input, guidance or mechanism line to every later box that
 * receives, respects or requires it, then a backward guidance or mechanism
 * line to every earlier box that respects or requires it.  There is no
 * backward input line: an output received by an earlier box is not drawn.
 */
module SpikeConnect {
  import opened SpikeBoxes

  /** Either end of a line: the diagram's own frame, or the child box at a position of the declaration order. */
  datatype End = Frame | Child(index: nat)

  /** The line classes of the prototype. */
  datatype LineKind =
    | ExternalInput | ExternalOutput | ExternalGuidance | ExternalMechanism
    | ForwardInput | ForwardGuidance | ForwardMechanism
    | BackwardGuidance | BackwardMechanism
  {
    predicate Forward() { this == ForwardInput || this == ForwardGuidance || this == ForwardMechanism }
    predicate Backward() { this == BackwardGuidance || this == BackwardMechanism }
  }

  /** What a line is made from: its class, source, target and name. */
  datatype Connection = Connection(kind: LineKind, source: End, target: End, name: string)

  /** The lines made for each item of a list, in list order. */
  function Each<T>(xs: seq<T>, f: T -> seq<Connection>): seq<Connection>
  {
    if xs == [] then [] else Each(xs[..|xs| - 1], f) + f(xs[|xs| - 1])
  }

  /** A line made for some item is among the lines made for the list. */
  lemma {:induction false} EachIntro<T>(xs: seq<T>, f: T -> seq<Connection>, k: nat, c: Connection)
    requires k < |xs| && c in f(xs[k])
    ensures c in Each(xs, f)
  {
    if k < |xs| - 1 {
      assert xs[..|xs| - 1][k] == xs[k];
      EachIntro(xs[..|xs| - 1], f, k, c);
    }
  }

  /** Every line made for the list was made for one of its items. */
  lemma {:induction false} EachElim<T>(xs: seq<T>, f: T -> seq<Connection>, c: Connection) returns (k: nat)
    requires c in Each(xs, f)
    ensures k < |xs| && c in f(xs[k])
  {
    var n := |xs|;
    if c in f(xs[n - 1]) {
      k := n - 1;
    } else {
      k := EachElim(xs[..n - 1], f, c);
      assert xs[..n - 1][k] == xs[k];
    }
  }

  /** The positions lo, lo + 1, ..., hi - 1. */
  function Range(lo: nat, hi: nat): (r: seq<nat>)
    ensures |r| == if lo <= hi then hi - lo else 0
    ensures forall k :: 0 <= k < |r| ==> r[k] == lo + k
  {
    if lo < hi then Range(lo, hi - 1) + [hi - 1] else []
  }

  /** `@lines << line if cond`. */
  function When(cond: bool, c: Connection): seq<Connection>
  {
    if cond then [c] else []
  }

  /** The external line into box i for a name it declares in the role, if the frame declares the name in that role too. */
  function Incoming(frame: Concepts, role: Role, kind: LineKind, i: nat): string -> seq<Connection>
  {
    name => When(name in frame.Of(role), Connection(kind, Frame, Child(i), name))
  }

  /** The forward lines from box i to box j for an output name. */
  function ForwardTo(boxes: seq<Concepts>, i: nat, name: string): nat -> seq<Connection>
  {
    (j: nat) => ForwardLines(boxes, i, name, j)
  }

  function ForwardLines(boxes: seq<Concepts>, i: nat, name: string, j: nat): seq<Connection>
  {
      if j < |boxes| then
        When(name in boxes[j].inputs, Connection(ForwardInput, Child(i), Child(j), name))
        + When(name in boxes[j].guidances, Connection(ForwardGuidance, Child(i), Child(j), name))
        + When(name in boxes[j].mechanisms, Connection(ForwardMechanism, Child(i), Child(j), name))
      else []
  }

  /** The backward lines from box i to box j for an output name. */
  function BackwardTo(boxes: seq<Concepts>, i: nat, name: string): nat -> seq<Connection>
  {
    (j: nat) => BackwardLines(boxes, i, name, j)
  }

  function BackwardLines(boxes: seq<Concepts>, i: nat, name: string, j: nat): seq<Connection>
  {
      if j < |boxes| then
        When(name in boxes[j].guidances, Connection(BackwardGuidance, Child(i), Child(j), name))
        + When(name in boxes[j].mechanisms, Connection(BackwardMechanism, Child(i), Child(j), name))
      else []
  }

  /** The lines of one output of box i: external, then to each later box, then to each earlier box. */
  function Outgoing(frame: Concepts, boxes: seq<Concepts>, i: nat): string -> seq<Connection>
  {
    name => OutgoingLines(frame, boxes, i, name)
  }

  function OutgoingLines(frame: Concepts, boxes: seq<Concepts>, i: nat, name: string): seq<Connection>
  {
      When(name in frame.outputs, Connection(ExternalOutput, Child(i), Frame, name))
      + Each(Range(i + 1, |boxes|), ForwardTo(boxes, i, name))
      + Each(Range(0, i), BackwardTo(boxes, i, name))
  }

  /** The lines made while visiting box i. */
  function ProcessLines(frame: Concepts, boxes: seq<Concepts>, i: nat): seq<Connection>
    requires i < |boxes|
  {
    Each(boxes[i].inputs, Incoming(frame, Input, ExternalInput, i))
    + Each(boxes[i].guidances, Incoming(frame, Guidance, ExternalGuidance, i))
    + Each(boxes[i].mechanisms, Incoming(frame, Mechanism, ExternalMechanism, i))
    + Each(boxes[i].outputs, Outgoing(frame, boxes, i))
  }

  /** The lines made while visiting the first n boxes. */
  function ConnectUpTo(frame: Concepts, boxes: seq<Concepts>, n: nat): seq<Connection>
    requires n <= |boxes|
  {
    if n == 0 then [] else ConnectUpTo(frame, boxes, n - 1) + ProcessLines(frame, boxes, n - 1)
  }

  /** `connect`: the lines of a diagram whose frame declares `frame` and whose boxes declare `boxes`. */
  function Connect(frame: Concepts, boxes: seq<Concepts>): seq<Connection>
  {
    ConnectUpTo(frame, boxes, |boxes|)
  }

  /** Both ends are boxes of the diagram and the source produces the name. */
  predicate Internal(boxes: seq<Concepts>, c: Connection)
  {
    && c.source.Child? && c.target.Child?
    && c.source.index < |boxes| && c.target.index < |boxes|
    && c.name in boxes[c.source.index].outputs
  }

  /** The line runs from the frame into a box, and both declare the name in the role. */
  predicate FromFrame(frame: Concepts, boxes: seq<Concepts>, c: Connection, role: Role)
  {
    c.source == Frame && c.target.Child? && c.target.index < |boxes|
    && c.name in frame.Of(role) && c.name in boxes[c.target.index].Of(role)
  }

  /**
   * The rule of the prototype: which lines belong in a diagram.  External
   * lines need the frame and the box to declare the name in the same role;
   * forward lines run to a later box and backward lines to an earlier one,
   * which declares the name as an input, guidance or mechanism; backward
   * inputs do not exist.
   */
  predicate Admissible(frame: Concepts, boxes: seq<Concepts>, c: Connection)
  {
    match c.kind
    case ExternalInput => FromFrame(frame, boxes, c, Input)
    case ExternalGuidance => FromFrame(frame, boxes, c, Guidance)
    case ExternalMechanism => FromFrame(frame, boxes, c, Mechanism)
    case ExternalOutput =>
      c.target == Frame && c.source.Child? && c.source.index < |boxes|
      && c.name in frame.outputs && c.name in boxes[c.source.index].outputs
    case ForwardInput =>
      Internal(boxes, c) && c.source.index < c.target.index && c.name in boxes[c.target.index].inputs
    case ForwardGuidance =>
      Internal(boxes, c) && c.source.index < c.target.index && c.name in boxes[c.target.index].guidances
    case ForwardMechanism =>
      Internal(boxes, c) && c.source.index < c.target.index && c.name in boxes[c.target.index].mechanisms
    case BackwardGuidance =>
      Internal(boxes, c) && c.target.index < c.source.index && c.name in boxes[c.target.index].guidances
    case BackwardMechanism =>
      Internal(boxes, c) && c.target.index < c.source.index && c.name in boxes[c.target.index].mechanisms
  }

  /** The box whose declaration list the line is made from: the target of an incoming external line, else the source. */
  function Owner(c: Connection): End
  {
    if c.kind == ExternalInput || c.kind == ExternalGuidance || c.kind == ExternalMechanism then c.target else c.source
  }

  lemma ForwardToSound(frame: Concepts, boxes: seq<Concepts>, i: nat, j: nat, name: string, c: Connection)
    requires i < j < |boxes| && name in boxes[i].outputs
    requires c in ForwardTo(boxes, i, name)(j)
    ensures Admissible(frame, boxes, c) && Owner(c) == Child(i) && c.name == name
  {
    assert ForwardTo(boxes, i, name)(j) == ForwardLines(boxes, i, name, j);
  }

  lemma BackwardToSound(frame: Concepts, boxes: seq<Concepts>, i: nat, j: nat, name: string, c: Connection)
    requires j < i < |boxes| && name in boxes[i].outputs
    requires c in BackwardTo(boxes, i, name)(j)
    ensures Admissible(frame, boxes, c) && Owner(c) == Child(i) && c.name == name
  {
    assert BackwardTo(boxes, i, name)(j) == BackwardLines(boxes, i, name, j);
  }

  lemma {:induction false} OutgoingSound(frame: Concepts, boxes: seq<Concepts>, i: nat, name: string, c: Connection)
    requires i < |boxes| && name in boxes[i].outputs
    requires c in Outgoing(frame, boxes, i)(name)
    ensures Admissible(frame, boxes, c) && Owner(c) == Child(i) && c.name == name
  {
    var fwd := ForwardTo(boxes, i, name);
    var back := BackwardTo(boxes, i, name);
    var later := Range(i + 1, |boxes|);
    var earlier := Range(0, i);
    assert c in OutgoingLines(frame, boxes, i, name);
    if c in Each(later, fwd) {
      var k := EachElim(later, fwd, c);
      ForwardToSound(frame, boxes, i, later[k], name, c);
    } else if c in Each(earlier, back) {
      var k := EachElim(earlier, back, c);
      BackwardToSound(frame, boxes, i, earlier[k], name, c);
    }
  }

  /** The external line into box i made for a name it declares in a role other than output is admissible. */
  lemma IncomingSound(frame: Concepts, boxes: seq<Concepts>, role: Role, kind: LineKind, i: nat, c: Connection)
    requires i < |boxes|
    requires (role, kind) in {(Input, ExternalInput), (Guidance, ExternalGuidance), (Mechanism, ExternalMechanism)}
    requires c in Each(boxes[i].Of(role), Incoming(frame, role, kind, i))
    ensures Admissible(frame, boxes, c) && Owner(c) == Child(i)
  {
    var xs := boxes[i].Of(role);
    var k := EachElim(xs, Incoming(frame, role, kind, i), c);
    assert Incoming(frame, role, kind, i)(xs[k]) == When(xs[k] in frame.Of(role), Connection(kind, Frame, Child(i), xs[k]));
    assert c == Connection(kind, Frame, Child(i), xs[k]);
  }

  /** Every line made while visiting box i is admissible and made from box i's declarations. */
  lemma {:induction false} ProcessLinesSound(frame: Concepts, boxes: seq<Concepts>, i: nat, c: Connection)
    requires i < |boxes| && c in ProcessLines(frame, boxes, i)
    ensures Admissible(frame, boxes, c) && Owner(c) == Child(i)
  {
    var b := boxes[i];
    var ins := Each(b.inputs, Incoming(frame, Input, ExternalInput, i));
    var gds := Each(b.guidances, Incoming(frame, Guidance, ExternalGuidance, i));
    var mcs := Each(b.mechanisms, Incoming(frame, Mechanism, ExternalMechanism, i));
    var outs := Each(b.outputs, Outgoing(frame, boxes, i));
    assert ProcessLines(frame, boxes, i) == ins + gds + mcs + outs;
    if c in ins {
      IncomingSound(frame, boxes, Input, ExternalInput, i, c);
    } else if c in gds {
      IncomingSound(frame, boxes, Guidance, ExternalGuidance, i, c);
    } else if c in mcs {
      IncomingSound(frame, boxes, Mechanism, ExternalMechanism, i, c);
    } else {
      var k := EachElim(b.outputs, Outgoing(frame, boxes, i), c);
      OutgoingSound(frame, boxes, i, b.outputs[k], c);
    }
  }

  lemma {:induction false} OutgoingComplete(frame: Concepts, boxes: seq<Concepts>, i: nat, c: Connection)
    requires i < |boxes| && Admissible(frame, boxes, c) && c.source == Child(i)
    requires c.kind != ExternalInput && c.kind != ExternalGuidance && c.kind != ExternalMechanism
    ensures c in Outgoing(frame, boxes, i)(c.name)
  {
    assert Outgoing(frame, boxes, i)(c.name) == OutgoingLines(frame, boxes, i, c.name);
    if c.kind.Forward() {
      assert c in ForwardLines(boxes, i, c.name, c.target.index);
      LaterIntro(boxes, i, c.target.index, c);
    } else if c.kind.Backward() {
      assert c in BackwardLines(boxes, i, c.name, c.target.index);
      EarlierIntro(boxes, i, c.target.index, c);
    }
  }

  lemma LaterIntro(boxes: seq<Concepts>, i: nat, j: nat, c: Connection)
    requires i < j < |boxes| && c in ForwardLines(boxes, i, c.name, j)
    ensures c in Each(Range(i + 1, |boxes|), ForwardTo(boxes, i, c.name))
  {
    var later := Range(i + 1, |boxes|);
    assert later[j - i - 1] == j;
    EachIntro(later, ForwardTo(boxes, i, c.name), j - i - 1, c);
  }

  lemma EarlierIntro(boxes: seq<Concepts>, i: nat, j: nat, c: Connection)
    requires j < i < |boxes| && c in BackwardLines(boxes, i, c.name, j)
    ensures c in Each(Range(0, i), BackwardTo(boxes, i, c.name))
  {
    var earlier := Range(0, i);
    assert earlier[j] == j;
    EachIntro(earlier, BackwardTo(boxes, i, c.name), j, c);
  }

  /** Every admissible line made from box i's declarations is made while visiting box i. */
  lemma {:induction false} ProcessLinesComplete(frame: Concepts, boxes: seq<Concepts>, i: nat, c: Connection)
    requires i < |boxes| && Admissible(frame, boxes, c) && Owner(c) == Child(i)
    ensures c in ProcessLines(frame, boxes, i)
  {
    var b := boxes[i];
    match c.kind
    case ExternalInput =>
      var k := IndexIn(b.inputs, c.name).value;
      EachIntro(b.inputs, Incoming(frame, Input, ExternalInput, i), k, c);
    case ExternalGuidance =>
      var k := IndexIn(b.guidances, c.name).value;
      EachIntro(b.guidances, Incoming(frame, Guidance, ExternalGuidance, i), k, c);
    case ExternalMechanism =>
      var k := IndexIn(b.mechanisms, c.name).value;
      EachIntro(b.mechanisms, Incoming(frame, Mechanism, ExternalMechanism, i), k, c);
    case _ =>
      var k := IndexIn(b.outputs, c.name).value;
      OutgoingComplete(frame, boxes, i, c);
      EachIntro(b.outputs, Outgoing(frame, boxes, i), k, c);
  }

  /** A line made while visiting the first n boxes is admissible and made from one of them. */
  lemma {:induction false} ConnectUpToSound(frame: Concepts, boxes: seq<Concepts>, n: nat, c: Connection)
    requires n <= |boxes| && c in ConnectUpTo(frame, boxes, n)
    ensures Admissible(frame, boxes, c) && Owner(c).Child? && Owner(c).index < n
  {
    if c in ProcessLines(frame, boxes, n - 1) {
      ProcessLinesSound(frame, boxes, n - 1, c);
    } else {
      ConnectUpToSound(frame, boxes, n - 1, c);
    }
  }

  /** An admissible line made from one of the first n boxes is made while visiting them. */
  lemma {:induction false} ConnectUpToComplete(frame: Concepts, boxes: seq<Concepts>, n: nat, c: Connection)
    requires n <= |boxes| && Admissible(frame, boxes, c) && Owner(c).Child? && Owner(c).index < n
    ensures c in ConnectUpTo(frame, boxes, n)
  {
    assert ConnectUpTo(frame, boxes, n) == ConnectUpTo(frame, boxes, n - 1) + ProcessLines(frame, boxes, n - 1);
    if Owner(c).index == n - 1 {
      ProcessLinesComplete(frame, boxes, n - 1, c);
    } else {
      ConnectUpToComplete(frame, boxes, n - 1, c);
    }
  }

  /** An admissible line is made from a box of the diagram. */
  lemma AdmissibleOwner(frame: Concepts, boxes: seq<Concepts>, c: Connection)
    requires Admissible(frame, boxes, c)
    ensures Owner(c).Child? && Owner(c).index < |boxes|
  {
  }

  /**
   * `connect` draws exactly the admissible lines: a line is drawn if and
   * only if the rule allows it.
   */
  lemma ConnectExact(frame: Concepts, boxes: seq<Concepts>, c: Connection)
    ensures c in Connect(frame, boxes) <==> Admissible(frame, boxes, c)
  {
    if c in Connect(frame, boxes) {
      ConnectUpToSound(frame, boxes, |boxes|, c);
    }
    if Admissible(frame, boxes, c) {
      AdmissibleOwner(frame, boxes, c);
      ConnectUpToComplete(frame, boxes, |boxes|, c);
    }
  }

  /**
   * Forward lines only reach later boxes and backward lines only earlier
   * ones, and no line joins a box to itself.
   */
  lemma ConnectDirections(frame: Concepts, boxes: seq<Concepts>, c: Connection)
    requires c in Connect(frame, boxes)
    ensures c.kind.Forward() ==>
      c.source.Child? && c.target.Child? && c.source.index < c.target.index
    ensures c.kind.Backward() ==>
      c.source.Child? && c.target.Child? && c.target.index < c.source.index
    ensures c.source != c.target
  {
    ConnectExact(frame, boxes, c);
  }

  /**
   * There is no backward input line: a line from a box to an earlier box
   * is a backward guidance or mechanism line for a name the earlier box
   * respects or requires, so an output that an earlier box only receives
   * is not drawn to it.
   */
  lemma NoBackwardInput(frame: Concepts, boxes: seq<Concepts>, c: Connection)
    requires c in Connect(frame, boxes)
    requires c.source.Child? && c.target.Child? && c.target.index < c.source.index
    ensures c.target.index < |boxes|
    ensures || (c.kind == BackwardGuidance && c.name in boxes[c.target.index].guidances)
            || (c.kind == BackwardMechanism && c.name in boxes[c.target.index].mechanisms)
  {
    ConnectExact(frame, boxes, c);
  }

  /**
   * External lines appear only for names the diagram itself declares in
   * the same role, and always do for such a name a box declares.
   */
  lemma ExternalNeedsFrame(frame: Concepts, boxes: seq<Concepts>, i: nat, role: Role, name: string)
    requires i < |boxes| && name in boxes[i].Of(role)
    ensures External(role, i, name) in Connect(frame, boxes) <==> name in frame.Of(role)
  {
    ConnectExact(frame, boxes, External(role, i, name));
  }

  /** The external line of box i for a name in a role: out to the frame for an output, in from it otherwise. */
  function External(role: Role, i: nat, name: string): Connection
  {
    match role
    case Input => Connection(ExternalInput, Frame, Child(i), name)
    case Output => Connection(ExternalOutput, Child(i), Frame, name)
    case Guidance => Connection(ExternalGuidance, Frame, Child(i), name)
    case Mechanism => Connection(ExternalMechanism, Frame, Child(i), name)
  }
}
