/** What the derived netlist means, against the impedance equation it realizes. */
module MultiportMeaning {
  import opened Prelude
  import opened Cards
  import opened Netlists
  import opened Multiport

  // ---- The circuit of a derived netlist ------------------------------------------------------

  type View = Line -> Option<Part>

  type Law = (seq<real>, seq<real>, seq<real>) -> bool

  /** How the copied cards and the models are understood. */
  datatype Understanding = Understanding(view: View, mos: seq<string> -> Law)

  /** A native card connects native nodes and senses native elements. */
  ghost predicate NativePart(e: Part) {
    && e.name.Own?
    && (forall node :: Touches(e, node) ==> node.Native?)
    && (forall name :: Senses(e, name) ==> name.Own?)
  }

  ghost predicate Faithful(u: Understanding) {
    forall line :: u.view(line).Some? ==> NativePart(u.view(line).value)
  }

  /** A primitive with its bulk terminal on the body of its device. */
  ghost function Primitive(line: Line, i: nat, u: Understanding): (e: Part)
    requires |line.fields| >= 6
  {
    var f := line.fields;
    Device(Own(Fold(f[0])), [Native(Fold(f[1])), Native(Fold(f[2])), Native(Fold(f[3])), Body(i)], [], u.mos(f[5..]))
  }

  ghost function Meaning(c: Card, u: Understanding): (e: Option<Part>) {
    match c
    case Copied(line) => u.view(line)
    case Interface(_, _) => None
    case Moved(line, i) => if |line.fields| >= 6 then Some(Primitive(line, i, u)) else None
    case Generated(part) => Some(part)
  }

  ghost function Circuit(cs: seq<Card>, u: Understanding): (es: seq<Part>) {
    if cs == [] then [] else Circuit(cs[..|cs| - 1], u) + Parts(Meaning(cs[|cs| - 1], u))
  }

  lemma {:induction false} CircuitConcat(a: seq<Card>, b: seq<Card>, u: Understanding)
    ensures Circuit(a + b, u) == Circuit(a, u) + Circuit(b, u)
  {
    hide Meaning, Parts;
    if b == [] {
      assert a + b == a;
    } else {
      var n := |b| - 1;
      assert (a + b)[..|a + b| - 1] == a + b[..n] && (a + b)[|a + b| - 1] == b[n];
      CircuitConcat(a, b[..n], u);
    }
  }

  lemma {:induction false} GeneratedCircuit(es: seq<Part>, u: Understanding)
    ensures Circuit(AsCards(es), u) == es
  {
    if es != [] {
      var n := |es| - 1;
      assert AsCards(es)[..n] == AsCards(es[..n]);
      GeneratedCircuit(es[..n], u);
      assert es == es[..n] + [es[n]];
    }
  }

  /** The elements that come from the native netlist, one at most per line. */
  ghost function NativeOf(line: Line, m: Model, read: Reading, u: Understanding): (e: Option<Part>) {
    if IsHeader(line) then None
    else if IsBound(line) then
      (if Bindable(line, m, read) then Some(Primitive(line, DeviceOf(line, m, read).value, u)) else None)
    else u.view(line)
  }

  ghost function Core(lines: seq<Line>, m: Model, read: Reading, u: Understanding): (es: seq<Part>) {
    if lines == [] then []
    else Core(lines[..|lines| - 1], m, read, u) + Parts(NativeOf(lines[|lines| - 1], m, read, u))
  }

  function Ends(lines: seq<Line>): (n: nat) {
    if lines == [] then 0 else Ends(lines[..|lines| - 1]) + (if IsEnd(lines[|lines| - 1]) then 1 else 0)
  }

  lemma CircuitOne(c: Card, u: Understanding)
    ensures Circuit([c], u) == Parts(Meaning(c, u))
  {
    hide Meaning, Parts;
    assert [c][..0] == [];
    assert Circuit([], u) == [];
  }

  /** A line contributes its native element, and the end of the subcircuit also everything inserted. */
  lemma EmittedCircuit(line: Line, m: Model, ports: seq<string>, read: Reading, drives: Drives, u: Understanding)
    requires m.Valid() && LineAccepted(line, m, ports, read)
    ensures Circuit(Emit(line, m, ports, read, drives), u)
         == (if IsEnd(line) then Inserted(m, drives) else []) + Parts(NativeOf(line, m, read, u))
  {
    hide Inserted, Model.Valid, SameInterface, DeviceOf, Circuit, Primitive, Reordered;
    if IsEnd(line) {
      EndIsPlain(line);
      CircuitConcat(AsCards(Inserted(m, drives)), [Copied(line)], u);
      GeneratedCircuit(Inserted(m, drives), u);
      CircuitOne(Copied(line), u);
    } else if IsHeader(line) {
      CircuitOne(Emit(line, m, ports, read, drives)[0], u);
    } else if IsBound(line) {
      CircuitOne(Moved(line, DeviceOf(line, m, read).value), u);
    } else {
      CircuitOne(Copied(line), u);
    }
  }

  /** A caller connects nets of its own, at these voltages, to the ports of a header by position. */
  ghost predicate Connected(c: Card, outer: seq<real>, s: State)
    requires c.Interface?
  {
    |outer| == |c.ports| && forall k :: 0 <= k < |outer| ==> outer[k] == s.v(Native(Fold(c.ports[k])))
  }

  /**
   * In a derived netlist every header stands in the place of a native header and is connected by position to the nodes
   * of the declared ports in the declared order, whatever order the native header has.
   */
  lemma ConnectedInOrder(
    lines: seq<Line>, m: Model, ports: seq<string>, read: Reading, drives: Drives, k: nat, outer: seq<real>, s: State)
    requires m.Valid() && AllAccepted(lines, m, ports, read) && k < |lines| && IsHeader(lines[k])
    ensures
      var cs, at := Derived(lines, m, ports, read, drives), Offset(lines, m, k);
      && at < |cs| && cs[at].Interface?
      && (Connected(cs[at], outer, s) <==>
        |outer| == |ports| && forall j :: 0 <= j < |outer| ==> outer[j] == s.v(Native(Fold(ports[j]))))
  {
    hide Model.Valid, Derived, AllAccepted, Fold, AsWritten;
    DerivedLaidOut(lines, m, ports, read, drives);
    assert InPlace(lines, m, ports, read, Derived(lines, m, ports, read, drives), k);
    if IsEnd(lines[k]) {
      EndIsPlain(lines[k]);
    }
  }

  lemma EmptyTotal(s: State, node: Node)
    ensures Total([], s, node) == 0.0 && AllHold([], s)
  {
  }

  /** With one end of subcircuit, the derived circuit is the native elements and everything inserted once. */
  lemma {:induction false} DerivedSplits(
    lines: seq<Line>, m: Model, ports: seq<string>, read: Reading, drives: Drives, u: Understanding, s: State, node: Node)
    requires m.Valid() && AllAccepted(lines, m, ports, read) && Ends(lines) <= 1
    ensures
      var c, core, inserted := Circuit(Derived(lines, m, ports, read, drives), u), Core(lines, m, read, u), Inserted(m, drives);
      && (AllHold(c, s) <==> AllHold(core, s) && (Ends(lines) == 1 ==> AllHold(inserted, s)))
      && Total(c, s, node) == Total(core, s, node) + (if Ends(lines) == 1 then Total(inserted, s, node) else 0.0)
  {
    hide Inserted, Model.Valid, LineAccepted, Circuit, Total, AllHold, NativeOf, Parts, Emit, IsEnd;
    EmptyTotal(s, node);
    if lines == [] {
      assert Circuit([], u) == [] by { NothingMeans(u); }
    } else {
      var n := |lines| - 1;
      var front, last := lines[..n], lines[n];
      DerivedSplits(front, m, ports, read, drives, u, s, node);
      EmittedCircuit(last, m, ports, read, drives, u);
      var emitted := Emit(last, m, ports, read, drives);
      CircuitConcat(Derived(front, m, ports, read, drives), emitted, u);
      var before := if IsEnd(last) then Inserted(m, drives) else [];
      var own := Parts(NativeOf(last, m, read, u));
      HoldConcat(Circuit(Derived(front, m, ports, read, drives), u), before + own, s);
      TotalConcat(Circuit(Derived(front, m, ports, read, drives), u), before + own, s, node);
      HoldConcat(before, own, s);
      TotalConcat(before, own, s, node);
      HoldConcat(Core(front, m, read, u), own, s);
      TotalConcat(Core(front, m, read, u), own, s, node);
    }
  }

  lemma NothingMeans(u: Understanding)
    ensures Circuit([], u) == []
  {
  }

  /** Native elements touch native nodes and bodies only. */
  lemma {:induction false} CoreTouches(lines: seq<Line>, m: Model, read: Reading, u: Understanding, node: Node, s: State)
    requires Faithful(u) && (node.Sum? || node.Injected? || (node.Body? && node.i >= |m.devices|))
    ensures Total(Core(lines, m, read, u), s, node) == 0.0
  {
    hide Total, Draw, DeviceOf, Bindable;
    EmptyTotal(s, node);
    if lines != [] {
      var n := |lines| - 1;
      CoreTouches(lines[..n], m, read, u, node, s);
      var own := NativeOf(lines[n], m, read, u);
      TotalConcat(Core(lines[..n], m, read, u), Parts(own), s, node);
      if own.Some? {
        NativeTouches(lines[n], m, read, u, node);
        TotalAbsent(Parts(own), s, node);
      }
    }
  }

  lemma NativeTouches(line: Line, m: Model, read: Reading, u: Understanding, node: Node)
    requires Faithful(u) && (node.Sum? || node.Injected? || (node.Body? && node.i >= |m.devices|))
    requires NativeOf(line, m, read, u).Some?
    ensures !Touches(NativeOf(line, m, read, u).value, node)
  {
    hide Fold;
  }

  // ---- The impedance equation ----------------------------------------------------------------

  /** The current into port `j` of the multiport: a body current or a drive. */
  ghost function PortCurrent(m: Model, drives: Drives, s: State, j: nat): (r: real) {
    if j < |m.devices| then s.i(BodySensor(j), 0) else drives(j - |m.devices|)
  }

  /** The voltage that the first `k` ports cause at device `i`. */
  ghost function Drop(m: Model, drives: Drives, s: State, i: nat, k: nat): (r: real)
    requires m.Valid() && i < |m.devices| && k <= m.Ports()
  {
    if k == 0 then 0.0 else Drop(m, drives, s, i, k - 1) + m.Impedance(i, k - 1) * PortCurrent(m, drives, s, k - 1)
  }

  /** The body currents of the first `k` devices that return at `node`. */
  ghost function Returned(m: Model, s: State, node: Node, k: nat): (r: real)
    requires k <= |m.devices|
  {
    if k == 0 then 0.0 else Returned(m, s, node, k - 1) + At(node, m.Rail(k - 1), s.i(BodySensor(k - 1), 0))
  }

  ghost predicate BodyEquation(m: Model, drives: Drives, s: State, i: nat)
    requires m.Valid() && i < |m.devices|
  {
    s.v(Body(i)) - s.v(m.Rail(i)) == Drop(m, drives, s, i, m.Ports())
  }

  /**
   * The native elements with every bulk on its body, the bodies tied to their rails by the impedance, and each body
   * current taken from its body and returned at its rail.
   */
  ghost predicate Multiported(core: seq<Part>, m: Model, drives: Drives, s: State)
    requires m.Valid()
  {
    && s.v(GROUND) == 0.0 && AllHold(core, s)
    && (forall i :: 0 <= i < |m.devices| ==> BodyEquation(m, drives, s, i))
    && (forall i :: 0 <= i < |m.devices| ==> Total(core, s, Body(i)) + s.i(BodySensor(i), 0) == 0.0)
    && (forall node: Node :: node.Native? && node != GROUND ==>
      Total(core, s, node) == Returned(m, s, node, |m.devices|))
  }

  ghost predicate StampFilled(m: Model, drives: Drives, s: State, i: nat, j: nat)
    requires m.Valid() && i < |m.devices| && j < m.Ports()
  {
    s.v(Sum(i, j)) == s.v(Body(i)) - Drop(m, drives, s, i, j) && s.i(Stamp(i, j), 0) == s.i(BodySensor(i), 0)
  }

  ghost predicate InjectionFilled(drives: Drives, s: State, j: nat) {
    s.v(Injected(j)) == s.v(GROUND) && s.i(InjectionSensor(j), 0) == drives(j) == s.i(Injection(j), 0)
  }

  /** Every generated node and current has the value that the native ones determine. */
  ghost predicate Filled(m: Model, drives: Drives, s: State)
    requires m.Valid()
  {
    && (forall i, j :: 0 <= i < |m.devices| && 0 <= j < m.Ports() ==> StampFilled(m, drives, s, i, j))
    && (forall j :: 0 <= j < m.excitations ==> InjectionFilled(drives, s, j))
  }

  // ---- Laws of the inserted elements ---------------------------------------------------------

  ghost predicate StampHolds(m: Model, s: State, i: nat, j: nat)
    requires m.Valid() && i < |m.devices| && j < m.Ports()
  {
    s.v(Sum(i, j)) - s.v(Next(m, i, j)) == m.Impedance(i, j) * s.i(ColumnSensor(m, j), 0)
  }

  ghost predicate ChainHolds(m: Model, s: State, i: nat)
    requires m.Valid() && i < |m.devices|
  {
    s.v(Body(i)) == s.v(Sum(i, 0)) && forall j :: 0 <= j < m.Ports() ==> StampHolds(m, s, i, j)
  }

  ghost predicate PairHolds(drives: Drives, s: State, j: nat) {
    s.v(Injected(j)) == s.v(GROUND) && s.i(Injection(j), 0) == drives(j)
  }

  lemma {:induction false} StampsHold(m: Model, s: State, i: nat, k: nat)
    requires m.Valid() && i < |m.devices| && k <= m.Ports()
    ensures AllHold(Stamps(m, i, k), s) <==> forall j :: 0 <= j < k ==> StampHolds(m, s, i, j)
  {
    hide AllHold, Model.Valid, Next, ColumnSensor, Model.Impedance;
    EmptyTotal(s, GROUND);
    if k > 0 {
      StampsHold(m, s, i, k - 1);
      HoldConcat(Stamps(m, i, k - 1), [StampOf(m, i, k - 1)], s);
      OneHold(StampOf(m, i, k - 1), s, GROUND);
      assert Holds(StampOf(m, i, k - 1), s) <==> StampHolds(m, s, i, k - 1);
    }
  }

  lemma SensorLaw(s: State, i: nat)
    ensures AllHold([Sensor(i)], s) <==> s.v(Body(i)) == s.v(Sum(i, 0))
  {
    hide AllHold;
    OneHold(Sensor(i), s, GROUND);
  }

  lemma ChainLaws(m: Model, s: State, i: nat)
    requires m.Valid() && i < |m.devices|
    ensures AllHold(Chain(m, i), s) <==> ChainHolds(m, s, i)
  {
    hide AllHold, Model.Valid, StampHolds, Stamps, Sensor;
    HoldConcat([Sensor(i)], Stamps(m, i, m.Ports()), s);
    SensorLaw(s, i);
    StampsHold(m, s, i, m.Ports());
  }

  lemma {:induction false} ChainsLaws(m: Model, s: State, k: nat)
    requires m.Valid() && k <= |m.devices|
    ensures AllHold(Chains(m, k), s) <==> forall i :: 0 <= i < k ==> ChainHolds(m, s, i)
  {
    hide AllHold, Model.Valid, ChainHolds, Chain;
    EmptyTotal(s, GROUND);
    if k > 0 {
      ChainsLaws(m, s, k - 1);
      HoldConcat(Chains(m, k - 1), Chain(m, k - 1), s);
      ChainLaws(m, s, k - 1);
    }
  }

  lemma PairLaws(drives: Drives, s: State, j: nat)
    ensures AllHold(InjectionPair(drives, j), s) <==> PairHolds(drives, s, j)
  {
    hide AllHold;
    var p := InjectionPair(drives, j);
    assert p == [p[0]] + [p[1]];
    HoldConcat([p[0]], [p[1]], s);
    OneHold(p[0], s, GROUND);
    OneHold(p[1], s, GROUND);
  }

  lemma {:induction false} InjectionsLaws(drives: Drives, s: State, k: nat)
    ensures AllHold(Injections(drives, k), s) <==> forall j :: 0 <= j < k ==> PairHolds(drives, s, j)
  {
    hide AllHold, PairHolds, InjectionPair;
    EmptyTotal(s, GROUND);
    if k > 0 {
      InjectionsLaws(drives, s, k - 1);
      HoldConcat(Injections(drives, k - 1), InjectionPair(drives, k - 1), s);
      PairLaws(drives, s, k - 1);
    }
  }

  ghost predicate InsertedHolds(m: Model, drives: Drives, s: State)
    requires m.Valid()
  {
    && (forall i :: 0 <= i < |m.devices| ==> ChainHolds(m, s, i))
    && (forall j :: 0 <= j < m.excitations ==> PairHolds(drives, s, j))
  }

  lemma InsertedLaws(m: Model, drives: Drives, s: State)
    requires m.Valid()
    ensures AllHold(Inserted(m, drives), s) <==> InsertedHolds(m, drives, s)
  {
    hide AllHold, PairHolds, ChainHolds, Chains, Injections, Model.Valid;
    HoldConcat(Chains(m, |m.devices|), Injections(drives, m.excitations), s);
    ChainsLaws(m, s, |m.devices|);
    InjectionsLaws(drives, s, m.excitations);
  }

  // ---- Currents of the inserted elements -----------------------------------------------------

  ghost function StampCurrent(s: State, i: nat, j: nat): (r: real) { s.i(Stamp(i, j), 0) }

  /** The current that the stamps of row `i` up to `k` take from a node. */
  ghost function StampsFlow(m: Model, s: State, i: nat, k: nat, node: Node): (r: real)
    requires i < |m.devices| && k <= m.Ports()
  {
    match node
    case Native(_) => if k == m.Ports() then -At(node, m.Rail(i), StampCurrent(s, i, m.Ports() - 1)) else 0.0
    case Sum(a, b) =>
      if a != i then 0.0 else
        (if b < k then StampCurrent(s, i, b) else 0.0) - (if 1 <= b <= k && b < m.Ports() then StampCurrent(s, i, b - 1) else 0.0)
    case _ => 0.0
  }

  lemma StampDraw(m: Model, s: State, i: nat, j: nat, node: Node)
    requires m.Valid() && i < |m.devices| && j < m.Ports()
    ensures Draw(StampOf(m, i, j), s, node) == At(node, Sum(i, j), StampCurrent(s, i, j)) - At(node, Next(m, i, j), StampCurrent(s, i, j))
  {
  }

  lemma {:induction false} StampsTotal(m: Model, s: State, i: nat, k: nat, node: Node)
    requires m.Valid() && i < |m.devices| && k <= m.Ports()
    ensures Total(Stamps(m, i, k), s, node) == StampsFlow(m, s, i, k, node)
  {
    hide Total, Draw, Model.Valid, StampCurrent, StampOf;
    EmptyTotal(s, node);
    if k > 0 {
      StampsTotal(m, s, i, k - 1, node);
      TotalConcat(Stamps(m, i, k - 1), [StampOf(m, i, k - 1)], s, node);
      OneHold(StampOf(m, i, k - 1), s, node);
      StampDraw(m, s, i, k - 1, node);
    }
  }

  /** The current that one chain takes from a node. */
  ghost function ChainFlow(m: Model, s: State, i: nat, node: Node): (r: real)
    requires i < |m.devices|
  {
    match node
    case Native(_) => -At(node, m.Rail(i), StampCurrent(s, i, m.Ports() - 1))
    case Body(a) => if a == i then s.i(BodySensor(i), 0) else 0.0
    case Sum(a, b) =>
      if a == i && b < m.Ports() then StampCurrent(s, i, b) - (if b == 0 then s.i(BodySensor(i), 0) else StampCurrent(s, i, b - 1))
      else 0.0
    case Injected(_) => 0.0
  }

  lemma ChainTotal(m: Model, s: State, i: nat, node: Node)
    requires m.Valid() && i < |m.devices|
    ensures Total(Chain(m, i), s, node) == ChainFlow(m, s, i, node)
  {
    hide Total, Model.Valid, StampCurrent, Stamps;
    TotalConcat([Sensor(i)], Stamps(m, i, m.Ports()), s, node);
    OneHold(Sensor(i), s, node);
    StampsTotal(m, s, i, m.Ports(), node);
  }

  /** The current that the first `k` chains take from a node. */
  ghost function ChainsFlow(m: Model, s: State, k: nat, node: Node): (r: real)
    requires k <= |m.devices|
  {
    if k == 0 then 0.0 else ChainsFlow(m, s, k - 1, node) + ChainFlow(m, s, k - 1, node)
  }

  lemma {:induction false} ChainsTotal(m: Model, s: State, k: nat, node: Node)
    requires m.Valid() && k <= |m.devices|
    ensures Total(Chains(m, k), s, node) == ChainsFlow(m, s, k, node)
  {
    hide Total, Model.Valid, ChainFlow, Chain;
    EmptyTotal(s, node);
    if k > 0 {
      ChainsTotal(m, s, k - 1, node);
      TotalConcat(Chains(m, k - 1), Chain(m, k - 1), s, node);
      ChainTotal(m, s, k - 1, node);
    }
  }

  /** A node that belongs to one row sees only that row's chain. */
  lemma {:induction false} OwnChain(m: Model, s: State, k: nat, node: Node)
    requires k <= |m.devices| && (node.Body? || node.Sum? || node.Injected?)
    ensures ChainsFlow(m, s, k, node)
         == if !node.Injected? && node.i < k then ChainFlow(m, s, node.i, node) else 0.0
  {
    if k > 0 {
      OwnChain(m, s, k - 1, node);
    }
  }

  /** When every chain carries its body current, native nodes get exactly the returned currents. */
  lemma {:induction false} RailsGetReturned(m: Model, s: State, k: nat, node: Node)
    requires k <= |m.devices| && node.Native?
    requires forall i :: 0 <= i < k ==> StampCurrent(s, i, m.Ports() - 1) == s.i(BodySensor(i), 0)
    ensures ChainsFlow(m, s, k, node) == -Returned(m, s, node, k)
  {
    hide StampCurrent;
    if k > 0 {
      RailsGetReturned(m, s, k - 1, node);
    }
  }

  ghost function InjectionFlow(s: State, j: nat, node: Node): (r: real) {
    if node == Injected(j) then s.i(InjectionSensor(j), 0) - s.i(Injection(j), 0) else 0.0
  }

  lemma PairTotal(drives: Drives, s: State, j: nat, node: Node)
    requires node != GROUND
    ensures Total(InjectionPair(drives, j), s, node) == InjectionFlow(s, j, node)
  {
    hide Total;
    var p := InjectionPair(drives, j);
    assert p == [p[0]] + [p[1]];
    TotalConcat([p[0]], [p[1]], s, node);
    OneHold(p[0], s, node);
    OneHold(p[1], s, node);
  }

  lemma {:induction false} InjectionsTotal(drives: Drives, s: State, k: nat, node: Node)
    requires node != GROUND
    ensures Total(Injections(drives, k), s, node)
         == if node.Injected? && node.j < k then s.i(InjectionSensor(node.j), 0) - s.i(Injection(node.j), 0) else 0.0
  {
    hide Total, InjectionPair;
    EmptyTotal(s, node);
    if k > 0 {
      InjectionsTotal(drives, s, k - 1, node);
      TotalConcat(Injections(drives, k - 1), InjectionPair(drives, k - 1), s, node);
      PairTotal(drives, s, k - 1, node);
    }
  }

  lemma InsertedTotal(m: Model, drives: Drives, s: State, node: Node)
    requires m.Valid() && node != GROUND
    ensures Total(Inserted(m, drives), s, node) == ChainsFlow(m, s, |m.devices|, node)
      + (if node.Injected? && node.j < m.excitations then s.i(InjectionSensor(node.j), 0) - s.i(Injection(node.j), 0) else 0.0)
  {
    hide Total, Model.Valid, ChainsFlow, Chains, Injections;
    TotalConcat(Chains(m, |m.devices|), Injections(drives, m.excitations), s, node);
    ChainsTotal(m, s, |m.devices|, node);
    InjectionsTotal(drives, s, m.excitations, node);
  }

  // ---- Both directions -----------------------------------------------------------------------

  /** Kirchhoff's law at the generated nodes: one current per chain, and every sensor at an injection point carries its drive. */
  ghost predicate OneCurrent(m: Model, s: State) {
    && (forall i, j :: 0 <= i < |m.devices| && 0 <= j < m.Ports() ==> StampCurrent(s, i, j) == s.i(BodySensor(i), 0))
    && (forall j :: 0 <= j < m.excitations ==> s.i(InjectionSensor(j), 0) == s.i(Injection(j), 0))
  }

  /** Nothing is left over at the generated nodes. */
  ghost predicate GeneratedBalanced(m: Model, drives: Drives, s: State)
    requires m.Valid()
  {
    forall node: Node :: node.Sum? || node.Injected? ==> Total(Inserted(m, drives), s, node) == 0.0
  }

  lemma {:induction false} OneCurrentAt(m: Model, drives: Drives, s: State, i: nat, j: nat)
    requires m.Valid() && GeneratedBalanced(m, drives, s) && i < |m.devices| && j < m.Ports()
    ensures StampCurrent(s, i, j) == s.i(BodySensor(i), 0)
    decreases j
  {
    hide Total, Model.Valid, ChainsFlow, StampCurrent, Inserted;
    InsertedTotal(m, drives, s, Sum(i, j));
    OwnChain(m, s, |m.devices|, Sum(i, j));
    assert Total(Inserted(m, drives), s, Sum(i, j)) == 0.0;
    if j > 0 {
      OneCurrentAt(m, drives, s, i, j - 1);
    }
  }

  lemma BalanceMeansOneCurrent(m: Model, drives: Drives, s: State)
    requires m.Valid()
    ensures GeneratedBalanced(m, drives, s) <==> OneCurrent(m, s)
  {
    hide Total, Model.Valid, ChainsFlow, StampCurrent, Inserted;
    if GeneratedBalanced(m, drives, s) {
      forall i, j | 0 <= i < |m.devices| && 0 <= j < m.Ports() ensures StampCurrent(s, i, j) == s.i(BodySensor(i), 0) {
        OneCurrentAt(m, drives, s, i, j);
      }
      forall j | 0 <= j < m.excitations ensures s.i(InjectionSensor(j), 0) == s.i(Injection(j), 0) {
        InsertedTotal(m, drives, s, Injected(j));
        OwnChain(m, s, |m.devices|, Injected(j));
        assert Total(Inserted(m, drives), s, Injected(j)) == 0.0;
      }
    }
    if OneCurrent(m, s) {
      forall node: Node | node.Sum? || node.Injected? ensures Total(Inserted(m, drives), s, node) == 0.0 {
        InsertedTotal(m, drives, s, node);
        OwnChain(m, s, |m.devices|, node);
      }
    }
  }

  /** The sensors of the excitations carry their drives. */
  ghost predicate Driven(m: Model, drives: Drives, s: State) {
    forall j :: 0 <= j < m.excitations ==> s.i(InjectionSensor(j), 0) == drives(j)
  }

  lemma ColumnCurrent(m: Model, drives: Drives, s: State, j: nat)
    requires Driven(m, drives, s) && j < m.Ports()
    ensures s.i(ColumnSensor(m, j), 0) == PortCurrent(m, drives, s, j)
  {
  }

  lemma {:induction false} ChainPotential(m: Model, drives: Drives, s: State, i: nat, j: nat)
    requires m.Valid() && i < |m.devices| && j < m.Ports() && Driven(m, drives, s) && ChainHolds(m, s, i)
    ensures s.v(Sum(i, j)) == s.v(Body(i)) - Drop(m, drives, s, i, j)
    decreases j
  {
    hide Model.Valid, PortCurrent, ColumnSensor, Driven;
    if j > 0 {
      ChainPotential(m, drives, s, i, j - 1);
      assert StampHolds(m, s, i, j - 1);
      ColumnCurrent(m, drives, s, j - 1);
    }
  }

  lemma StampFromPotentials(m: Model, drives: Drives, s: State, i: nat, j: nat)
    requires m.Valid() && i < |m.devices| && j < m.Ports() && Driven(m, drives, s)
    requires s.v(Sum(i, j)) == s.v(Body(i)) - Drop(m, drives, s, i, j)
    requires s.v(Next(m, i, j)) == s.v(Body(i)) - Drop(m, drives, s, i, j + 1)
    ensures StampHolds(m, s, i, j)
  {
    hide Model.Valid, PortCurrent, ColumnSensor, Driven, Model.Impedance, Model.Rail, Next;
    ColumnCurrent(m, drives, s, j);
  }

  /** A chain's laws are the impedance equation together with the potential of every node of the chain. */
  lemma ChainMeansEquation(m: Model, drives: Drives, s: State, i: nat)
    requires m.Valid() && i < |m.devices| && Driven(m, drives, s)
    ensures ChainHolds(m, s, i) <==>
      BodyEquation(m, drives, s, i) && forall j :: 0 <= j < m.Ports() ==> s.v(Sum(i, j)) == s.v(Body(i)) - Drop(m, drives, s, i, j)
  {
    hide Model.Valid, PortCurrent, ColumnSensor, Driven, Model.Impedance, Model.Rail;
    var last := m.Ports() - 1;
    ColumnCurrent(m, drives, s, last);
    if ChainHolds(m, s, i) {
      forall j | 0 <= j < m.Ports() ensures s.v(Sum(i, j)) == s.v(Body(i)) - Drop(m, drives, s, i, j) {
        ChainPotential(m, drives, s, i, j);
      }
      assert StampHolds(m, s, i, last);
    }
    if BodyEquation(m, drives, s, i) && forall j :: 0 <= j < m.Ports() ==> s.v(Sum(i, j)) == s.v(Body(i)) - Drop(m, drives, s, i, j) {
      assert s.v(Sum(i, 0)) == s.v(Body(i)) - Drop(m, drives, s, i, 0);
      forall j | 0 <= j < m.Ports() ensures StampHolds(m, s, i, j) {
        assert s.v(Sum(i, j)) == s.v(Body(i)) - Drop(m, drives, s, i, j);
        if j < last {
          assert s.v(Sum(i, j + 1)) == s.v(Body(i)) - Drop(m, drives, s, i, j + 1);
        }
        StampFromPotentials(m, drives, s, i, j);
      }
    }
  }

  /** No native element touches a generated node. */
  ghost predicate Untouched(core: seq<Part>, m: Model, s: State) {
    forall node: Node :: node.Sum? || node.Injected? || (node.Body? && node.i >= |m.devices|) ==> Total(core, s, node) == 0.0
  }

  ghost predicate Joint(core: seq<Part>, m: Model, drives: Drives, s: State)
    requires m.Valid()
  {
    && s.v(GROUND) == 0.0 && AllHold(core, s) && InsertedHolds(m, drives, s)
    && forall node: Node :: node != GROUND ==> Total(core, s, node) + Total(Inserted(m, drives), s, node) == 0.0
  }

  lemma OutsideTotals(m: Model, drives: Drives, s: State, node: Node)
    requires m.Valid() && OneCurrent(m, s) && node != GROUND
    ensures node.Native? ==> Total(Inserted(m, drives), s, node) == -Returned(m, s, node, |m.devices|)
    ensures node.Body? ==> Total(Inserted(m, drives), s, node) == if node.i < |m.devices| then s.i(BodySensor(node.i), 0) else 0.0
  {
    hide Total, Model.Valid, ChainsFlow, StampCurrent, Inserted, Returned;
    InsertedTotal(m, drives, s, node);
    if node.Native? {
      RailsGetReturned(m, s, |m.devices|, node);
    } else {
      OwnChain(m, s, |m.devices|, node);
    }
  }

  lemma JointMeansDriven(core: seq<Part>, m: Model, drives: Drives, s: State)
    requires m.Valid() && Untouched(core, m, s) && Joint(core, m, drives, s)
    ensures OneCurrent(m, s) && Driven(m, drives, s)
  {
    hide Total, Model.Valid, StampCurrent, Inserted, AllHold, ChainHolds;
    forall node: Node | node.Sum? || node.Injected? ensures Total(Inserted(m, drives), s, node) == 0.0 {
      assert Total(core, s, node) == 0.0;
      assert Total(core, s, node) + Total(Inserted(m, drives), s, node) == 0.0;
    }
    BalanceMeansOneCurrent(m, drives, s);
    forall j | 0 <= j < m.excitations ensures s.i(InjectionSensor(j), 0) == drives(j) {
      assert PairHolds(drives, s, j);
    }
  }

  lemma JointIsMultiported(core: seq<Part>, m: Model, drives: Drives, s: State)
    requires m.Valid() && Untouched(core, m, s) && Joint(core, m, drives, s)
    ensures Multiported(core, m, drives, s) && Filled(m, drives, s)
  {
    hide Total, Model.Valid, Inserted, AllHold, ChainHolds, Returned, Drop, BodyEquation, Untouched, Joint;
    JointMeansDriven(core, m, drives, s);
    JointParts(core, m, drives, s);
    forall i | 0 <= i < |m.devices|
      ensures BodyEquation(m, drives, s, i) && Total(core, s, Body(i)) + s.i(BodySensor(i), 0) == 0.0
      ensures forall j :: 0 <= j < m.Ports() ==> StampFilled(m, drives, s, i, j)
    {
      ChainMeansEquation(m, drives, s, i);
      OutsideTotals(m, drives, s, Body(i));
      JointAt(core, m, drives, s, Body(i));
      forall j | 0 <= j < m.Ports() ensures StampFilled(m, drives, s, i, j) {
        assert StampCurrent(s, i, j) == s.i(BodySensor(i), 0);
      }
    }
    forall j | 0 <= j < m.excitations ensures InjectionFilled(drives, s, j) {
      assert PairHolds(drives, s, j);
    }
    forall node: Node | node.Native? && node != GROUND ensures Total(core, s, node) == Returned(m, s, node, |m.devices|) {
      OutsideTotals(m, drives, s, node);
      JointAt(core, m, drives, s, node);
    }
  }

  lemma JointParts(core: seq<Part>, m: Model, drives: Drives, s: State)
    requires m.Valid() && Joint(core, m, drives, s)
    ensures s.v(GROUND) == 0.0 && AllHold(core, s)
    ensures forall i :: 0 <= i < |m.devices| ==> ChainHolds(m, s, i)
    ensures forall j :: 0 <= j < m.excitations ==> PairHolds(drives, s, j)
  {
  }

  lemma JointAt(core: seq<Part>, m: Model, drives: Drives, s: State, node: Node)
    requires m.Valid() && Joint(core, m, drives, s) && node != GROUND
    ensures Total(core, s, node) + Total(Inserted(m, drives), s, node) == 0.0
  {
    hide Total, Model.Valid, Inserted, AllHold, InsertedHolds;
  }

  lemma MultiportedIsJoint(core: seq<Part>, m: Model, drives: Drives, s: State)
    requires m.Valid() && Untouched(core, m, s) && Multiported(core, m, drives, s) && Filled(m, drives, s)
    ensures Joint(core, m, drives, s)
  {
    hide Total, Model.Valid, Inserted, AllHold, ChainHolds, Returned, Drop, BodyEquation, Untouched;
    FilledFacts(m, drives, s);
    forall i | 0 <= i < |m.devices| ensures ChainHolds(m, s, i) {
      ChainMeansEquation(m, drives, s, i);
      forall j | 0 <= j < m.Ports() ensures s.v(Sum(i, j)) == s.v(Body(i)) - Drop(m, drives, s, i, j) {
        assert StampFilled(m, drives, s, i, j);
      }
    }
    forall node: Node | node != GROUND ensures Total(core, s, node) + Total(Inserted(m, drives), s, node) == 0.0 {
      BalancedAt(core, m, drives, s, node);
    }
  }

  lemma FilledFacts(m: Model, drives: Drives, s: State)
    requires m.Valid() && Filled(m, drives, s)
    ensures OneCurrent(m, s) && Driven(m, drives, s)
    ensures forall j :: 0 <= j < m.excitations ==> PairHolds(drives, s, j)
  {
    hide Model.Valid, Drop;
    forall i, j | 0 <= i < |m.devices| && 0 <= j < m.Ports() ensures StampCurrent(s, i, j) == s.i(BodySensor(i), 0) {
      assert StampFilled(m, drives, s, i, j);
    }
    forall j | 0 <= j < m.excitations ensures PairHolds(drives, s, j) && s.i(InjectionSensor(j), 0) == s.i(Injection(j), 0) == drives(j) {
      assert InjectionFilled(drives, s, j);
    }
  }

  lemma BalancedAt(core: seq<Part>, m: Model, drives: Drives, s: State, node: Node)
    requires m.Valid() && Untouched(core, m, s) && Multiported(core, m, drives, s) && OneCurrent(m, s) && node != GROUND
    ensures Total(core, s, node) + Total(Inserted(m, drives), s, node) == 0.0
  {
    hide Total, Model.Valid, Inserted, AllHold, Returned, BodyEquation, OneCurrent;
    if node.Sum? || node.Injected? {
      BalanceMeansOneCurrent(m, drives, s);
      assert Total(core, s, node) == 0.0;
    } else {
      OutsideTotals(m, drives, s, node);
    }
  }

  // ---- The theorem ---------------------------------------------------------------------------

  lemma DerivedIsJoint(lines: seq<Line>, m: Model, ports: seq<string>, read: Reading, drives: Drives, u: Understanding, s: State)
    requires m.Valid() && AllAccepted(lines, m, ports, read) && Ends(lines) == 1
    ensures Solves(Circuit(Derived(lines, m, ports, read, drives), u), GROUND, s)
       <==> Joint(Core(lines, m, read, u), m, drives, s)
  {
    hide Total, Model.Valid, Inserted, AllHold, InsertedHolds, Derived, Circuit, Core, AllAccepted, Ends;
    InsertedLaws(m, drives, s);
    forall node: Node
      ensures Total(Circuit(Derived(lines, m, ports, read, drives), u), s, node)
           == Total(Core(lines, m, read, u), s, node) + Total(Inserted(m, drives), s, node)
    {
      DerivedSplits(lines, m, ports, read, drives, u, s, node);
    }
    DerivedSplits(lines, m, ports, read, drives, u, s, GROUND);
  }

  /**
   * The solutions of the derived netlist are exactly the states in which the native elements hold with their bulks
   * on the bodies, V_body(i) - V_rail(i) is the sum of Z[i][j] * I(j) for every device, each body current returns at
   * its rail, and every generated node and current has the one value those determine.
   */
  lemma StampedExactly(lines: seq<Line>, m: Model, ports: seq<string>, read: Reading, drives: Drives, u: Understanding, s: State)
    requires m.Valid() && AllAccepted(lines, m, ports, read) && Ends(lines) == 1 && Faithful(u)
    ensures Solves(Circuit(Derived(lines, m, ports, read, drives), u), GROUND, s)
       <==> Multiported(Core(lines, m, read, u), m, drives, s) && Filled(m, drives, s)
  {
    hide Total, Model.Valid, Solves, Joint, Derived, Circuit, Core, AllAccepted, Ends, Faithful, Multiported, Filled;
    var core := Core(lines, m, read, u);
    DerivedIsJoint(lines, m, ports, read, drives, u, s);
    forall node: Node | node.Sum? || node.Injected? || (node.Body? && node.i >= |m.devices|) ensures Total(core, s, node) == 0.0 {
      CoreTouches(lines, m, read, u, node, s);
    }
    if Joint(core, m, drives, s) {
      JointIsMultiported(core, m, drives, s);
    }
    if Multiported(core, m, drives, s) && Filled(m, drives, s) {
      MultiportedIsJoint(core, m, drives, s);
    }
  }

  /** The generated nodes and currents filled in from the native ones. */
  ghost function Filling(m: Model, drives: Drives, s: State): (t: State)
    requires m.Valid()
  {
    Solution(
      (node: Node) => match node
        case Sum(i, j) => if i < |m.devices| && j < m.Ports() then s.v(Body(i)) - Drop(m, drives, s, i, j) else s.v(node)
        case Injected(j) => if j < m.excitations then s.v(GROUND) else s.v(node)
        case _ => s.v(node),
      (name: Name, k: nat) => match name
        case Stamp(i, j) => if i < |m.devices| && j < m.Ports() && k == 0 then s.i(BodySensor(i), 0) else s.i(name, k)
        case InjectionSensor(j) => if j < m.excitations && k == 0 then drives(j) else s.i(name, k)
        case Injection(j) => if j < m.excitations && k == 0 then drives(j) else s.i(name, k)
        case _ => s.i(name, k))
  }

  /** The two states agree on native nodes, bodies, native currents and body currents. */
  ghost predicate SameNative(s: State, t: State) {
    && (forall node: Node :: node.Native? || node.Body? ==> s.v(node) == t.v(node))
    && (forall name: Name, k: nat :: name.Own? || name.BodySensor? ==> s.i(name, k) == t.i(name, k))
  }

  lemma {:induction false} DropSame(m: Model, drives: Drives, s: State, t: State, i: nat, k: nat)
    requires m.Valid() && i < |m.devices| && k <= m.Ports() && SameNative(s, t)
    ensures Drop(m, drives, s, i, k) == Drop(m, drives, t, i, k)
  {
    hide Model.Valid, Model.Impedance;
    if k > 0 {
      DropSame(m, drives, s, t, i, k - 1);
    }
  }

  lemma {:induction false} ReturnedSame(m: Model, s: State, t: State, node: Node, k: nat)
    requires k <= |m.devices| && SameNative(s, t)
    ensures Returned(m, s, node, k) == Returned(m, t, node, k)
  {
    if k > 0 {
      ReturnedSame(m, s, t, node, k - 1);
    }
  }

  lemma NativeName(line: Line, m: Model, read: Reading, u: Understanding)
    requires Faithful(u) && NativeOf(line, m, read, u).Some?
    ensures
      var e := NativeOf(line, m, read, u).value;
      e.name.Own? && (forall node :: Touches(e, node) ==> node.Native? || node.Body?) && (forall name :: Senses(e, name) ==> name.Own?)
  {
    hide Fold;
  }

  lemma NativeAgrees(line: Line, m: Model, read: Reading, u: Understanding, s: State, t: State)
    requires Faithful(u) && NativeOf(line, m, read, u).Some? && SameNative(s, t)
    ensures Agree(NativeOf(line, m, read, u).value, s, t)
  {
    hide NativeOf, Faithful, Touches, Senses;
    NativeName(line, m, read, u);
  }

  lemma {:induction false} CoreSame(lines: seq<Line>, m: Model, read: Reading, u: Understanding, s: State, t: State, node: Node)
    requires Faithful(u) && SameNative(s, t)
    ensures AllHold(Core(lines, m, read, u), s) <==> AllHold(Core(lines, m, read, u), t)
    ensures Total(Core(lines, m, read, u), s, node) == Total(Core(lines, m, read, u), t, node)
  {
    hide NativeOf, Faithful, SameNative, Holds, Draw, Total, AllHold;
    EmptyTotal(s, node);
    EmptyTotal(t, node);
    if lines != [] {
      var n := |lines| - 1;
      CoreSame(lines[..n], m, read, u, s, t, node);
      var front, own := Core(lines[..n], m, read, u), NativeOf(lines[n], m, read, u);
      HoldConcat(front, Parts(own), s);
      HoldConcat(front, Parts(own), t);
      TotalConcat(front, Parts(own), s, node);
      TotalConcat(front, Parts(own), t, node);
      if own.Some? {
        NativeAgrees(lines[n], m, read, u, s, t);
        HoldsAgree(own.value, s, t);
        DrawAgree(own.value, s, t, node);
        OneHold(own.value, s, node);
        OneHold(own.value, t, node);
      }
    }
  }

  lemma MultiportedSame(lines: seq<Line>, m: Model, read: Reading, drives: Drives, u: Understanding, s: State, t: State)
    requires m.Valid() && Faithful(u) && SameNative(s, t) && Multiported(Core(lines, m, read, u), m, drives, s)
    ensures Multiported(Core(lines, m, read, u), m, drives, t)
  {
    hide Total, AllHold, Model.Valid, Core, Drop, Returned, Faithful;
    var core := Core(lines, m, read, u);
    CoreSame(lines, m, read, u, s, t, GROUND);
    forall i | 0 <= i < |m.devices|
      ensures BodyEquation(m, drives, t, i) && Total(core, t, Body(i)) + t.i(BodySensor(i), 0) == 0.0
    {
      assert BodyEquation(m, drives, s, i);
      DropSame(m, drives, s, t, i, m.Ports());
      CoreSame(lines, m, read, u, s, t, Body(i));
    }
    forall node: Node | node.Native? && node != GROUND ensures Total(core, t, node) == Returned(m, t, node, |m.devices|) {
      CoreSame(lines, m, read, u, s, t, node);
      ReturnedSame(m, s, t, node, |m.devices|);
    }
  }

  lemma FillingFills(m: Model, drives: Drives, s: State)
    requires m.Valid()
    ensures SameNative(s, Filling(m, drives, s)) && Filled(m, drives, Filling(m, drives, s))
  {
    hide Model.Valid, Drop;
    var t := Filling(m, drives, s);
    assert SameNative(s, t);
    forall i, j | 0 <= i < |m.devices| && 0 <= j < m.Ports() ensures StampFilled(m, drives, t, i, j) {
      DropSame(m, drives, s, t, i, j);
      assert t.v(Sum(i, j)) == s.v(Body(i)) - Drop(m, drives, s, i, j);
    }
    forall j | 0 <= j < m.excitations ensures InjectionFilled(drives, t, j) {
      assert t.v(Injected(j)) == s.v(GROUND) == t.v(GROUND);
    }
  }

  /** Any voltages and currents that satisfy the impedance equation extend to a solution of the derived netlist. */
  lemma EquationExtends(lines: seq<Line>, m: Model, ports: seq<string>, read: Reading, drives: Drives, u: Understanding, s: State)
    requires m.Valid() && AllAccepted(lines, m, ports, read) && Ends(lines) == 1 && Faithful(u)
    requires Multiported(Core(lines, m, read, u), m, drives, s)
    ensures SameNative(s, Filling(m, drives, s))
    ensures Solves(Circuit(Derived(lines, m, ports, read, drives), u), GROUND, Filling(m, drives, s))
  {
    hide Model.Valid, Solves, Derived, Circuit, Core, AllAccepted, Ends, Faithful, Multiported, Filled, Filling, SameNative;
    FillingFills(m, drives, s);
    MultiportedSame(lines, m, read, drives, u, s, Filling(m, drives, s));
    StampedExactly(lines, m, ports, read, drives, u, Filling(m, drives, s));
  }

  /** The extension is unique: any other solution with the same native part agrees with it at every generated node and element. */
  lemma ExtensionUnique(
    lines: seq<Line>, m: Model, ports: seq<string>, read: Reading, drives: Drives, u: Understanding, s: State, t: State)
    requires m.Valid() && AllAccepted(lines, m, ports, read) && Ends(lines) == 1 && Faithful(u)
    requires SameNative(s, t) && Solves(Circuit(Derived(lines, m, ports, read, drives), u), GROUND, t)
    ensures
      var f := Filling(m, drives, s);
      && (forall i, j :: 0 <= i < |m.devices| && 0 <= j < m.Ports() ==>
        t.v(Sum(i, j)) == f.v(Sum(i, j)) && t.i(Stamp(i, j), 0) == f.i(Stamp(i, j), 0))
      && (forall j :: 0 <= j < m.excitations ==>
        && t.v(Injected(j)) == f.v(Injected(j))
        && t.i(InjectionSensor(j), 0) == f.i(InjectionSensor(j), 0) && t.i(Injection(j), 0) == f.i(Injection(j), 0))
  {
    hide Model.Valid, Solves, Derived, Circuit, Core, AllAccepted, Ends, Faithful, Multiported, Drop, AllHold, Total;
    StampedExactly(lines, m, ports, read, drives, u, t);
    var f := Filling(m, drives, s);
    forall i, j | 0 <= i < |m.devices| && 0 <= j < m.Ports()
      ensures t.v(Sum(i, j)) == f.v(Sum(i, j)) && t.i(Stamp(i, j), 0) == f.i(Stamp(i, j), 0)
    {
      assert StampFilled(m, drives, t, i, j);
      DropSame(m, drives, s, t, i, j);
    }
    forall j | 0 <= j < m.excitations
      ensures t.v(Injected(j)) == f.v(Injected(j))
      ensures t.i(InjectionSensor(j), 0) == f.i(InjectionSensor(j), 0) && t.i(Injection(j), 0) == f.i(Injection(j), 0)
    {
      assert InjectionFilled(drives, t, j);
    }
  }
}
