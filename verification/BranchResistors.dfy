/** Rewriting resistors as a zero-volt sensor, a controlled source and a fresh node. */
module BranchResistors {
  import opened Prelude
  import opened Cards
  import opened Netlists

  // ---- Cards ---------------------------------------------------------------------------------

  datatype CardError = Unsupported | Collision

  predicate Starts(line: Line, letter: char) {
    |line.fields| > 0 && |line.fields[0]| > 0 && Lower(line.fields[0][0]) == letter
  }

  predicate IsResistor(line: Line) {
    Starts(line, 'r')
  }

  /** The reading of a number card field: none unless it is a plain constant. */
  type Reading = string -> Option<real>

  predicate Plain(line: Line, read: Reading) {
    |line.fields| == 4 && read(line.fields[3]).Some? && read(line.fields[3]).value > 0.0
  }

  /** The card at `k` is a positive constant four-field resistor that no next line continues. */
  predicate Supported(lines: seq<Line>, k: nat, read: Reading)
    requires k < |lines|
  {
    Plain(lines[k], read) && !(k + 1 < |lines| && Starts(lines[k + 1], '+'))
  }

  function Stem(name: string): (s: string) { "lb_branch_" + name }

  function SensorName(name: string): (s: string) { "V" + Stem(name) }

  function SourceName(name: string): (s: string) { "H" + Stem(name) }

  function NodeName(name: string): (s: string) { Stem(name) + "_node" }

  predicate Named(lines: seq<Line>, name: string) {
    exists k, m :: 0 <= k < |lines| && 0 <= m < |lines[k].fields| && Fold(lines[k].fields[m]) == name
  }

  /** A generated name is one of the names already in the text. */
  predicate Collides(lines: seq<Line>, name: string) {
    Named(lines, Fold(SensorName(name))) || Named(lines, Fold(SourceName(name))) || Named(lines, Fold(NodeName(name)))
  }

  function Sensor(line: Line): (l: Line)
    requires |line.fields| == 4
  {
    Line([SensorName(line.fields[0]), NodeName(line.fields[0]), line.fields[2], "0"])
  }

  function Controlling(line: Line): (l: Line)
    requires |line.fields| == 4
  {
    Line([SourceName(line.fields[0]), line.fields[1], NodeName(line.fields[0]), SensorName(line.fields[0]), line.fields[3]])
  }

  function Expand(line: Line): (r: seq<Line>) {
    if IsResistor(line) && |line.fields| == 4 then [Controlling(line), Sensor(line)] else [line]
  }

  function Rewritten(lines: seq<Line>): (r: seq<Line>) {
    if lines == [] then [] else Expand(lines[0]) + Rewritten(lines[1..])
  }

  predicate Acceptable(lines: seq<Line>, k: nat, read: Reading)
    requires k < |lines|
  {
    IsResistor(lines[k]) ==> Supported(lines, k, read) && !Collides(lines, lines[k].fields[0])
  }

  /** Every resistor card can be rewritten without reusing a name of the text. */
  predicate Rewritable(lines: seq<Line>, read: Reading) {
    forall k :: 0 <= k < |lines| ==> Acceptable(lines, k, read)
  }

  lemma {:induction false} RewrittenSnoc(lines: seq<Line>, k: nat)
    requires k < |lines|
    ensures Rewritten(lines[..k + 1]) == Rewritten(lines[..k]) + Expand(lines[k])
    decreases k
  {
    if k == 0 {
      assert lines[..1][1..] == [];
      assert Rewritten(lines[..1]) == Expand(lines[0]) + [];
    } else {
      assert lines[..k + 1][1..] == lines[1..][..k] && lines[..k][1..] == lines[1..][..k - 1];
      RewrittenSnoc(lines[1..], k - 1);
    }
  }

  /** Accepts exactly the rewritable netlists; otherwise reports the first card that is not. */
  method Rewrite(lines: seq<Line>, read: Reading) returns (r: Result<seq<Line>, CardError>)
    ensures r.Ok? <==> Rewritable(lines, read)
    ensures r.Ok? ==> r.value == Rewritten(lines)
    ensures r.Err? ==> exists k ::
      && 0 <= k < |lines| && IsResistor(lines[k]) && (forall m :: 0 <= m < k ==> Acceptable(lines, m, read))
      && (r.error == Unsupported <==> !Supported(lines, k, read))
      && (r.error == Collision ==> Collides(lines, lines[k].fields[0]))
  {
    hide Collides, Supported, Rewritten, Expand;
    var result: seq<Line> := [];
    assert Rewritten(lines[..0]) == [] by { EmptyRewritten(lines); }
    for k := 0 to |lines|
      invariant forall m :: 0 <= m < k ==> Acceptable(lines, m, read)
      invariant result == Rewritten(lines[..k])
    {
      RewrittenSnoc(lines, k);
      ExpandCases(lines[k]);
      if IsResistor(lines[k]) {
        if !Supported(lines, k, read) {
          assert !Acceptable(lines, k, read);
          return Err(Unsupported);
        }
        if Collides(lines, lines[k].fields[0]) {
          assert !Acceptable(lines, k, read);
          return Err(Collision);
        }
        SupportedShape(lines, k, read);
        result := result + [Controlling(lines[k]), Sensor(lines[k])];
      } else {
        result := result + [lines[k]];
      }
    }
    assert lines[..|lines|] == lines;
    return Ok(result);
  }

  lemma EmptyRewritten(lines: seq<Line>)
    ensures Rewritten(lines[..0]) == []
  {
  }

  lemma ExpandCases(line: Line)
    ensures !IsResistor(line) ==> Expand(line) == [line]
    ensures IsResistor(line) && |line.fields| == 4 ==> Expand(line) == [Controlling(line), Sensor(line)]
  {
  }

  lemma SupportedShape(lines: seq<Line>, k: nat, read: Reading)
    requires k < |lines| && Supported(lines, k, read)
    ensures |lines[k].fields| == 4 && read(lines[k].fields[3]).Some? && read(lines[k].fields[3]).value > 0.0
  {
  }

  // ---- Meaning -------------------------------------------------------------------------------

  type Part = Element<string, string>

  type State = Solution<string, string>

  /** How every other card is understood: as any device over its own fields, or as no element at all. */
  type View = Line -> Option<Part>

  ghost predicate InFields(line: Line, name: string) {
    exists m :: 0 <= m < |line.fields| && Fold(line.fields[m]) == name
  }

  predicate Initial(name: string, letter: char) {
    |name| > 0 && name[0] == letter
  }

  /** A card's element is named after the card, connects its own fields, and senses only voltage sources it names. */
  ghost predicate Understood(line: Line, e: Part) {
    && |line.fields| > 0 && e.name == Fold(line.fields[0])
    && (forall node :: Touches(e, node) ==> InFields(line, node))
    && (forall name :: Senses(e, name) ==> InFields(line, name) && Initial(name, 'v'))
  }

  ghost predicate Faithful(view: View) {
    forall line :: view(line).Some? ==> Understood(line, view(line).value)
  }

  predicate IsSource(line: Line, read: Reading) {
    Starts(line, 'v') && |line.fields| == 4 && read(line.fields[3]).Some?
  }

  predicate IsControlled(line: Line, read: Reading) {
    Starts(line, 'h') && |line.fields| == 5 && read(line.fields[4]).Some? && Initial(Fold(line.fields[3]), 'v')
  }

  ghost function Meaning(line: Line, read: Reading, view: View): (e: Option<Part>) {
    var f := line.fields;
    if IsResistor(line) && Plain(line, read) then Some(Resistor(Fold(f[0]), Fold(f[1]), Fold(f[2]), read(f[3]).value))
    else if IsSource(line, read) then Some(Source(Fold(f[0]), Fold(f[1]), Fold(f[2]), read(f[3]).value))
    else if IsControlled(line, read) then
      Some(Controlled(Fold(f[0]), Fold(f[1]), Fold(f[2]), Fold(f[3]), read(f[4]).value))
    else view(line)
  }

  ghost function Circuit(lines: seq<Line>, read: Reading, view: View): (es: seq<Part>) {
    if lines == [] then [] else Parts(Meaning(lines[0], read, view)) + Circuit(lines[1..], read, view)
  }

  /** The netlist has this solution. */
  ghost predicate Solved(lines: seq<Line>, read: Reading, view: View, s: State) {
    Solves(Circuit(lines, read, view), "0", s)
  }

  /** No two resistors have the same name. */
  predicate DistinctResistors(lines: seq<Line>) {
    forall a, b :: 0 <= a < b < |lines| && IsResistor(lines[a]) && IsResistor(lines[b])
      ==> Fold(lines[a].fields[0]) != Fold(lines[b].fields[0])
  }

  // ---- Generated names -----------------------------------------------------------------------

  function FoldedSensor(name: string): (s: string) { "v" + Stem(name) }

  function FoldedSource(name: string): (s: string) { "h" + Stem(name) }

  function FoldedNode(name: string): (s: string) { Stem(name) + "_node" }

  lemma GeneratedFolds(name: string)
    ensures Fold(SensorName(name)) == FoldedSensor(Fold(name))
    ensures Fold(SourceName(name)) == FoldedSource(Fold(name))
    ensures Fold(NodeName(name)) == FoldedNode(Fold(name))
  {
    FoldConcat("lb_branch_", name);
    FoldConcat("V", Stem(name));
    FoldConcat("H", Stem(name));
    FoldConcat(Stem(name), "_node");
    assert Fold("lb_branch_") == "lb_branch_" && Fold("_node") == "_node" && Fold("V") == "v" && Fold("H") == "h";
  }

  lemma NodesDiffer(a: string, b: string)
    requires FoldedNode(a) == FoldedNode(b)
    ensures a == b
  {
    assert FoldedNode(a)[10..|FoldedNode(a)| - 5] == a;
    assert FoldedNode(b)[10..|FoldedNode(b)| - 5] == b;
  }

  // ---- Circuits of cards ---------------------------------------------------------------------

  lemma {:induction false} CircuitConcat(a: seq<Line>, b: seq<Line>, read: Reading, view: View)
    ensures Circuit(a + b, read, view) == Circuit(a, read, view) + Circuit(b, read, view)
  {
    hide Meaning, Parts;
    if a == [] {
      assert a + b == b;
    } else {
      assert (a + b)[0] == a[0] && (a + b)[1..] == a[1..] + b;
      CircuitConcat(a[1..], b, read, view);
    }
  }

  lemma CircuitOne(line: Line, read: Reading, view: View)
    ensures Circuit([line], read, view) == Parts(Meaning(line, read, view))
  {
    hide Meaning, Parts;
    assert [line][1..] == [];
    assert Circuit([], read, view) == [];
  }

  /** Zero is read as zero, so that the sensor card is a zero-volt source. */
  predicate ReadsZero(read: Reading) {
    read("0") == Some(0.0)
  }

  lemma MeaningOfSensor(line: Line, read: Reading, view: View)
    requires Plain(line, read) && ReadsZero(read)
    ensures
      var f := Fold(line.fields[0]);
      Meaning(Sensor(line), read, view)
        == Some(Source(FoldedSensor(f), FoldedNode(f), Fold(line.fields[2]), 0.0))
  {
    GeneratedFolds(line.fields[0]);
    assert Starts(Sensor(line), 'v');
  }

  lemma MeaningOfControlling(line: Line, read: Reading, view: View)
    requires Plain(line, read)
    ensures
      var f := Fold(line.fields[0]);
      Meaning(Controlling(line), read, view)
        == Some(Controlled(FoldedSource(f), Fold(line.fields[1]), FoldedNode(f), FoldedSensor(f), read(line.fields[3]).value))
  {
    GeneratedFolds(line.fields[0]);
    assert Starts(Controlling(line), 'h');
  }

  lemma ExpandedCircuit(line: Line, read: Reading, view: View)
    requires IsResistor(line) && Plain(line, read) && ReadsZero(read)
    ensures
      var f, c := Fold(line.fields[0]), Circuit(Expand(line), read, view);
      && |c| == 2
      && c[0] == Controlled(FoldedSource(f), Fold(line.fields[1]), FoldedNode(f), FoldedSensor(f), read(line.fields[3]).value)
      && c[1] == Source(FoldedSensor(f), FoldedNode(f), Fold(line.fields[2]), 0.0)
  {
    hide Meaning, FoldedSensor, FoldedNode, FoldedSource, Circuit, Sensor, Controlling;
    MeaningOfSensor(line, read, view);
    MeaningOfControlling(line, read, view);
    CircuitOne(Sensor(line), read, view);
    CircuitOne(Controlling(line), read, view);
    assert Expand(line) == [Controlling(line)] + [Sensor(line)];
    CircuitConcat([Controlling(line)], [Sensor(line)], read, view);
  }

  // ---- Corresponding solutions ---------------------------------------------------------------

  /** The two solutions agree on the card's own names, the current of a resistor aside. */
  ghost predicate Shared(line: Line, s: State, t: State) {
    && (forall name :: InFields(line, name) ==> s.v(name) == t.v(name))
    && (forall name, k :: InFields(line, name) && !Initial(name, 'r') ==> s.i(name, k) == t.i(name, k))
  }

  /** The sensor and the source carry the resistor's current, and the sensor drops no voltage. */
  ghost predicate Paired(line: Line, s: State, t: State) {
    IsResistor(line) && |line.fields| == 4 ==>
      var f := Fold(line.fields[0]);
      && t.v(FoldedNode(f)) == t.v(Fold(line.fields[2]))
      && t.i(FoldedSensor(f), 0) == t.i(FoldedSource(f), 0) == s.i(f, 0)
  }

  /** `t` is `s` carried over to the rewritten netlist. */
  ghost predicate Matches(lines: seq<Line>, s: State, t: State) {
    && s.v("0") == t.v("0")
    && forall k :: 0 <= k < |lines| ==> Shared(lines[k], s, t) && Paired(lines[k], s, t)
  }

  ghost predicate SharesAll(lines: seq<Line>, s: State, t: State) {
    s.v("0") == t.v("0") && forall k :: 0 <= k < |lines| ==> Shared(lines[k], s, t)
  }

  /** Resistor cards are plain, as in every accepted netlist. */
  predicate PlainResistors(lines: seq<Line>, read: Reading) {
    forall k :: 0 <= k < |lines| && IsResistor(lines[k]) ==> Plain(lines[k], read)
  }

  lemma FieldIn(line: Line, m: nat)
    requires m < |line.fields|
    ensures InFields(line, Fold(line.fields[m]))
  {
  }

  /** An ordinary card means the same for both solutions. */
  lemma OrdinaryAgrees(line: Line, read: Reading, view: View, s: State, t: State)
    requires Faithful(view) && !IsResistor(line) && Shared(line, s, t)
    requires Meaning(line, read, view).Some?
    ensures Agree(Meaning(line, read, view).value, s, t)
  {
    hide Fold, Faithful;
    MeaningUnderstood(line, read, view);
    var e := Meaning(line, read, view).value;
    FieldIn(line, 0);
    NotResistorName(line);
  }

  lemma NotResistorName(line: Line)
    requires !IsResistor(line) && |line.fields| > 0
    ensures !Initial(Fold(line.fields[0]), 'r')
  {
  }

  lemma MeaningUnderstood(line: Line, read: Reading, view: View)
    requires Faithful(view) && !IsResistor(line) && Meaning(line, read, view).Some?
    ensures Understood(line, Meaning(line, read, view).value)
  {
    hide Fold;
    var f := line.fields;
    if IsSource(line, read) {
      FieldIn(line, 1);
      FieldIn(line, 2);
    } else if IsControlled(line, read) {
      FieldIn(line, 1);
      FieldIn(line, 2);
      FieldIn(line, 3);
    }
  }

  lemma OrdinaryKept(line: Line, read: Reading, view: View, s: State, t: State, node: string)
    requires Faithful(view) && !IsResistor(line) && Shared(line, s, t)
    ensures AllHold(Circuit([line], read, view), s) <==> AllHold(Circuit(Expand(line), read, view), t)
    ensures Total(Circuit([line], read, view), s, node) == Total(Circuit(Expand(line), read, view), t, node)
  {
    hide Meaning, Faithful, Shared, Holds, Draw, Fold, Circuit;
    CircuitOne(line, read, view);
    ExpandCases(line);
    if Meaning(line, read, view).Some? {
      OrdinaryAgrees(line, read, view, s, t);
      var e := Meaning(line, read, view).value;
      HoldsAgree(e, s, t);
      DrawAgree(e, s, t, node);
      OneHold(e, s, node);
      OneHold(e, t, node);
    }
  }

  /** Ohm's law and the two laws of its rewriting say the same, and take the same currents from every node. */
  lemma ResistorKept(line: Line, read: Reading, view: View, s: State, t: State, node: string)
    requires IsResistor(line) && Plain(line, read) && ReadsZero(read)
    requires Shared(line, s, t) && Paired(line, s, t)
    ensures AllHold(Circuit([line], read, view), s) <==> AllHold(Circuit(Expand(line), read, view), t)
    ensures Total(Circuit([line], read, view), s, node) == Total(Circuit(Expand(line), read, view), t, node)
  {
    hide Fold, FoldedNode, FoldedSensor, FoldedSource, Circuit, AllHold, Total;
    CircuitOne(line, read, view);
    ExpandedCircuit(line, read, view);
    var c := Circuit(Expand(line), read, view);
    assert c == [c[0], c[1]];
    TwoHold(c[0], c[1], t, node);
    OneHold(Meaning(line, read, view).value, s, node);
    FieldIn(line, 1);
    FieldIn(line, 2);
  }

  /** Card by card, the rewritten netlist has the same laws and the same currents at every node. */
  lemma {:induction false} Preserved(lines: seq<Line>, read: Reading, view: View, s: State, t: State, node: string)
    requires Faithful(view) && ReadsZero(read) && PlainResistors(lines, read) && Matches(lines, s, t)
    ensures AllHold(Circuit(lines, read, view), s) <==> AllHold(Circuit(Rewritten(lines), read, view), t)
    ensures Total(Circuit(lines, read, view), s, node) == Total(Circuit(Rewritten(lines), read, view), t, node)
  {
    hide Faithful, Plain, Shared, Paired, AllHold, Total, Expand, Circuit, IsResistor;
    if lines == [] {
      assert AllHold(Circuit([], read, view), s) && AllHold(Circuit([], read, view), t) by { EmptyCircuit(read, view, s, t, node); }
      EmptyCircuit(read, view, s, t, node);
    } else {
      var first, rest := lines[0], lines[1..];
      Preserved(rest, read, view, s, t, node);
      if IsResistor(first) {
        ResistorKept(first, read, view, s, t, node);
      } else {
        OrdinaryKept(first, read, view, s, t, node);
      }
      assert lines == [first] + rest;
      CircuitConcat([first], rest, read, view);
      CircuitConcat(Expand(first), Rewritten(rest), read, view);
      HoldConcat(Circuit([first], read, view), Circuit(rest, read, view), s);
      TotalConcat(Circuit([first], read, view), Circuit(rest, read, view), s, node);
      HoldConcat(Circuit(Expand(first), read, view), Circuit(Rewritten(rest), read, view), t);
      TotalConcat(Circuit(Expand(first), read, view), Circuit(Rewritten(rest), read, view), t, node);
    }
  }

  lemma EmptyCircuit(read: Reading, view: View, s: State, t: State, node: string)
    ensures AllHold(Circuit([], read, view), s) && AllHold(Circuit([], read, view), t)
    ensures Total(Circuit([], read, view), s, node) == 0.0 == Total(Circuit([], read, view), t, node)
  {
    assert Circuit([], read, view) == [];
    assert Total<string, string>([], s, node) == 0.0;
  }

  lemma RewritablePlain(lines: seq<Line>, read: Reading)
    requires Rewritable(lines, read)
    ensures PlainResistors(lines, read)
  {
    hide Collides, Plain;
    forall k | 0 <= k < |lines| && IsResistor(lines[k]) ensures Plain(lines[k], read) {
      assert Acceptable(lines, k, read);
    }
  }

  /** Corresponding states solve the one netlist exactly when they solve the other. */
  lemma MatchingSolves(lines: seq<Line>, read: Reading, view: View, s: State, t: State)
    requires Faithful(view) && ReadsZero(read) && Rewritable(lines, read) && Matches(lines, s, t)
    ensures Solved(lines, read, view, s) <==> Solved(Rewritten(lines), read, view, t)
  {
    hide Faithful, AllHold, Total, Circuit, Rewritten, Rewritable, PlainResistors, ReadsZero;
    RewritablePlain(lines, read);
    var a, b := Circuit(lines, read, view), Circuit(Rewritten(lines), read, view);
    forall node ensures Total(a, s, node) == Total(b, t, node) && (AllHold(a, s) <==> AllHold(b, t)) {
      Preserved(lines, read, view, s, t, node);
    }
    Preserved(lines, read, view, s, t, "0");
    assert s.v("0") == t.v("0");
  }

  // ---- From the original to the rewritten ----------------------------------------------------

  /** The far terminal of the resistor that owns a generated node. */
  function Owner(lines: seq<Line>, node: string): (far: Option<string>) {
    if lines == [] then None
    else if IsResistor(lines[0]) && |lines[0].fields| == 4 && FoldedNode(Fold(lines[0].fields[0])) == node then
      Some(Fold(lines[0].fields[2]))
    else Owner(lines[1..], node)
  }

  predicate HasResistor(lines: seq<Line>, name: string) {
    exists k :: 0 <= k < |lines| && IsResistor(lines[k]) && Fold(lines[k].fields[0]) == name
  }

  /** The name is that of a generated sensor or source. */
  predicate Branch(lines: seq<Line>, name: string) {
    |name| >= 11 && (name == FoldedSensor(name[11..]) || name == FoldedSource(name[11..])) && HasResistor(lines, name[11..])
  }

  /** The state of the rewritten netlist that a state of the original stands for. */
  ghost function Extended(lines: seq<Line>, s: State): (t: State) {
    Solution(
      node => var far := Owner(lines, node); if far.Some? then s.v(far.value) else s.v(node),
      (name, k) => if Branch(lines, name) then s.i(name[11..], k) else s.i(name, k))
  }

  lemma {:induction false} OwnerIsResistor(lines: seq<Line>, node: string) returns (k: nat)
    requires Owner(lines, node).Some?
    ensures k < |lines| && IsResistor(lines[k]) && |lines[k].fields| == 4 && FoldedNode(Fold(lines[k].fields[0])) == node
    ensures Owner(lines, node).value == Fold(lines[k].fields[2])
  {
    hide Fold, FoldedNode, IsResistor;
    if IsResistor(lines[0]) && |lines[0].fields| == 4 && FoldedNode(Fold(lines[0].fields[0])) == node {
      k := 0;
    } else {
      k := OwnerIsResistor(lines[1..], node);
      k := k + 1;
    }
  }

  lemma {:induction false} OwnerFound(lines: seq<Line>, k: nat)
    requires k < |lines| && IsResistor(lines[k]) && |lines[k].fields| == 4
    ensures Owner(lines, FoldedNode(Fold(lines[k].fields[0]))).Some?
    decreases k
  {
    hide Fold, FoldedNode, IsResistor;
    if k > 0 {
      assert lines[1..][k - 1] == lines[k];
      OwnerFound(lines[1..], k - 1);
    }
  }

  /** With distinct names the owner of a generated node is its resistor. */
  lemma OwnerExact(lines: seq<Line>, read: Reading, k: nat)
    requires PlainResistors(lines, read) && DistinctResistors(lines) && k < |lines| && IsResistor(lines[k])
    ensures |lines[k].fields| == 4
    ensures Owner(lines, FoldedNode(Fold(lines[k].fields[0]))) == Some(Fold(lines[k].fields[2]))
  {
    hide Fold, FoldedNode, IsResistor, Owner;
    OwnerFound(lines, k);
    var m := OwnerIsResistor(lines, FoldedNode(Fold(lines[k].fields[0])));
    NodesDiffer(Fold(lines[k].fields[0]), Fold(lines[m].fields[0]));
  }

  /** No generated name of an accepted netlist is a field of one of its cards. */
  lemma FreshNames(lines: seq<Line>, read: Reading, k: nat, m: nat, name: string)
    requires Rewritable(lines, read) && k < |lines| && m < |lines| && IsResistor(lines[k]) && InFields(lines[m], name)
    ensures
      var f := Fold(lines[k].fields[0]);
      name != FoldedNode(f) && name != FoldedSensor(f) && name != FoldedSource(f)
  {
    hide Fold, FoldedNode, FoldedSensor, FoldedSource, Supported;
    assert Acceptable(lines, k, read);
    GeneratedFolds(lines[k].fields[0]);
    assert Named(lines, name);
  }

  lemma ExtendedShared(lines: seq<Line>, read: Reading, s: State, m: nat)
    requires Rewritable(lines, read) && m < |lines|
    ensures Shared(lines[m], s, Extended(lines, s))
  {
    hide Fold, FoldedNode, FoldedSensor, FoldedSource, Rewritable, Owner, InFields;
    var t := Extended(lines, s);
    forall name | InFields(lines[m], name) ensures s.v(name) == t.v(name) {
      if Owner(lines, name).Some? {
        var k := OwnerIsResistor(lines, name);
        FreshNames(lines, read, k, m, name);
      }
    }
    forall name, k | InFields(lines[m], name) ensures s.i(name, k) == t.i(name, k) {
      if Branch(lines, name) {
        var j :| 0 <= j < |lines| && IsResistor(lines[j]) && Fold(lines[j].fields[0]) == name[11..];
        FreshNames(lines, read, j, m, name);
      }
    }
  }

  lemma BranchNames(lines: seq<Line>, k: nat)
    requires k < |lines| && IsResistor(lines[k])
    ensures
      var f := Fold(lines[k].fields[0]);
      && Branch(lines, FoldedSensor(f)) && FoldedSensor(f)[11..] == f
      && Branch(lines, FoldedSource(f)) && FoldedSource(f)[11..] == f
  {
    hide Fold;
    var f := Fold(lines[k].fields[0]);
    assert FoldedSensor(f)[11..] == f;
    assert FoldedSource(f)[11..] == f;
    assert HasResistor(lines, f);
  }

  lemma ExtendedPaired(lines: seq<Line>, read: Reading, s: State, k: nat)
    requires Rewritable(lines, read) && DistinctResistors(lines) && k < |lines|
    ensures Paired(lines[k], s, Extended(lines, s))
  {
    hide Fold, FoldedNode, FoldedSensor, FoldedSource, Rewritable, Owner, Branch, PlainResistors, DistinctResistors;
    if IsResistor(lines[k]) {
      RewritablePlain(lines, read);
      OwnerExact(lines, read, k);
      BranchNames(lines, k);
      FieldIn(lines[k], 2);
      ExtendedShared(lines, read, s, k);
    }
  }

  lemma GroundNotGenerated(name: string)
    ensures FoldedNode(name) != "0"
  {
    assert |FoldedNode(name)| > 1;
  }

  lemma ExtendedMatches(lines: seq<Line>, read: Reading, s: State)
    requires Rewritable(lines, read) && DistinctResistors(lines)
    ensures Matches(lines, s, Extended(lines, s))
  {
    hide Fold, FoldedNode, Rewritable, Owner, Branch, DistinctResistors, Shared, Paired;
    if Owner(lines, "0").Some? {
      var k := OwnerIsResistor(lines, "0");
      GroundNotGenerated(Fold(lines[k].fields[0]));
    }
    forall k | 0 <= k < |lines| ensures Shared(lines[k], s, Extended(lines, s)) && Paired(lines[k], s, Extended(lines, s)) {
      ExtendedShared(lines, read, s, k);
      ExtendedPaired(lines, read, s, k);
    }
  }

  // ---- From the rewritten to the original ----------------------------------------------------

  /** A card of an accepted netlist, rewritten, touches no generated node but its own. */
  lemma OthersAbsent(lines: seq<Line>, read: Reading, view: View, k: nat, m: nat, t: State)
    requires Faithful(view) && ReadsZero(read) && Rewritable(lines, read) && DistinctResistors(lines)
    requires k < |lines| && m < |lines| && k != m && IsResistor(lines[k])
    ensures Total(Circuit(Expand(lines[m]), read, view), t, FoldedNode(Fold(lines[k].fields[0]))) == 0.0
  {
    hide Fold, FoldedNode, FoldedSensor, FoldedSource, Rewritable, Circuit, Total, Faithful, Meaning, Expand, Touches;
    var node := FoldedNode(Fold(lines[k].fields[0]));
    var c := Circuit(Expand(lines[m]), read, view);
    forall e | e in c ensures !Touches(e, node) {
      if IsResistor(lines[m]) {
        RewritablePlain(lines, read);
        ResistorTouches(lines[m], read, view, e);
        OtherNodeAbsent(lines, read, k, m, e);
      } else {
        ExpandCases(lines[m]);
        CircuitOne(lines[m], read, view);
        MeaningUnderstood(lines[m], read, view);
        if Touches(e, node) {
          FreshNames(lines, read, k, m, node);
        }
      }
    }
    TotalAbsent(c, t, node);
  }

  lemma ResistorTouches(line: Line, read: Reading, view: View, e: Part)
    requires IsResistor(line) && Plain(line, read) && ReadsZero(read) && e in Circuit(Expand(line), read, view)
    ensures forall node :: Touches(e, node) ==>
      node == Fold(line.fields[1]) || node == Fold(line.fields[2]) || node == FoldedNode(Fold(line.fields[0]))
  {
    hide Fold, FoldedNode, FoldedSensor, FoldedSource, Circuit, Expand;
    ExpandedCircuit(line, read, view);
  }

  lemma OtherNodeAbsent(lines: seq<Line>, read: Reading, k: nat, m: nat, e: Part)
    requires Rewritable(lines, read) && DistinctResistors(lines)
    requires k < |lines| && m < |lines| && k != m && IsResistor(lines[k]) && IsResistor(lines[m]) && |lines[m].fields| == 4
    requires forall node :: Touches(e, node) ==>
      node == Fold(lines[m].fields[1]) || node == Fold(lines[m].fields[2]) || node == FoldedNode(Fold(lines[m].fields[0]))
    ensures !Touches(e, FoldedNode(Fold(lines[k].fields[0])))
  {
    hide Fold, FoldedNode, Rewritable, Touches;
    var node := FoldedNode(Fold(lines[k].fields[0]));
    if Touches(e, node) {
      FieldIn(lines[m], 1);
      FieldIn(lines[m], 2);
      if node == FoldedNode(Fold(lines[m].fields[0])) {
        NodesDiffer(Fold(lines[k].fields[0]), Fold(lines[m].fields[0]));
      } else {
        FreshNames(lines, read, k, m, node);
      }
    }
  }

  /** The balance at a generated node involves only its own two cards. */
  lemma {:induction false} NodeBalance(lines: seq<Line>, read: Reading, view: View, k: nat, from: nat, t: State)
    requires Faithful(view) && ReadsZero(read) && Rewritable(lines, read) && DistinctResistors(lines)
    requires k < |lines| && from <= |lines| && IsResistor(lines[k])
    ensures
      var node := FoldedNode(Fold(lines[k].fields[0]));
      Total(Circuit(Rewritten(lines[from..]), read, view), t, node)
        == if from <= k then Total(Circuit(Expand(lines[k]), read, view), t, node) else 0.0
    decreases |lines| - from
  {
    hide Fold, FoldedNode, FoldedSensor, FoldedSource, Rewritable, Circuit, Total, Faithful, Meaning, Plain, Expand,
      DistinctResistors;
    var node := FoldedNode(Fold(lines[k].fields[0]));
    if from == |lines| {
      assert lines[from..] == [];
      EmptyCircuit(read, view, t, t, node);
    } else {
      NodeBalance(lines, read, view, k, from + 1, t);
      assert lines[from..][1..] == lines[from + 1..];
      CircuitConcat(Expand(lines[from]), Rewritten(lines[from + 1..]), read, view);
      TotalConcat(Circuit(Expand(lines[from]), read, view), Circuit(Rewritten(lines[from + 1..]), read, view), t, node);
      if from != k {
        OthersAbsent(lines, read, view, k, from, t);
      }
    }
  }

  lemma {:induction false} LawsAt(lines: seq<Line>, read: Reading, view: View, k: nat, t: State)
    requires k < |lines| && AllHold(Circuit(Rewritten(lines), read, view), t)
    ensures AllHold(Circuit(Expand(lines[k]), read, view), t)
    decreases k
  {
    hide AllHold, Circuit, Expand;
    CircuitConcat(Expand(lines[0]), Rewritten(lines[1..]), read, view);
    HoldConcat(Circuit(Expand(lines[0]), read, view), Circuit(Rewritten(lines[1..]), read, view), t);
    if k > 0 {
      assert lines[1..][k - 1] == lines[k];
      LawsAt(lines[1..], read, view, k - 1, t);
    }
  }

  /**
   * In any solution of the rewritten netlist the sensor drops no voltage, both generated cards carry one current,
   * and that current obeys Ohm's law.
   */
  lemma BranchLaws(lines: seq<Line>, read: Reading, view: View, k: nat, t: State)
    requires Faithful(view) && ReadsZero(read) && Rewritable(lines, read) && DistinctResistors(lines)
    requires k < |lines| && IsResistor(lines[k]) && Solved(Rewritten(lines), read, view, t)
    ensures |lines[k].fields| == 4 && Plain(lines[k], read)
    ensures
      var f := Fold(lines[k].fields[0]);
      && t.v(FoldedNode(f)) == t.v(Fold(lines[k].fields[2])) && t.i(FoldedSensor(f), 0) == t.i(FoldedSource(f), 0)
      && t.v(Fold(lines[k].fields[1])) - t.v(Fold(lines[k].fields[2]))
         == read(lines[k].fields[3]).value * t.i(FoldedSensor(f), 0)
  {
    hide Fold, FoldedNode, FoldedSensor, FoldedSource, Rewritable, Circuit, Total, Faithful, Meaning, Expand, DistinctResistors, AllHold;
    RewritablePlain(lines, read);
    var f := Fold(lines[k].fields[0]);
    var node := FoldedNode(f);
    ExpandedCircuit(lines[k], read, view);
    var c := Circuit(Expand(lines[k]), read, view);
    assert c == [c[0], c[1]];
    TwoHold(c[0], c[1], t, node);
    LawsAt(lines, read, view, k, t);
    GroundNotGenerated(f);
    assert lines[0..] == lines;
    NodeBalance(lines, read, view, k, 0, t);
    FieldIn(lines[k], 1);
    FieldIn(lines[k], 2);
    FreshNames(lines, read, k, k, Fold(lines[k].fields[1]));
    FreshNames(lines, read, k, k, Fold(lines[k].fields[2]));
  }

  /** The state of the original that a state of the rewritten netlist stands for: a resistor carries its sensor's current. */
  ghost function Restricted(t: State): (s: State) {
    Solution(t.v, (name, k) => if Initial(name, 'r') then t.i(FoldedSensor(name), k) else t.i(name, k))
  }

  lemma RestrictedPaired(lines: seq<Line>, read: Reading, view: View, t: State, k: nat)
    requires Faithful(view) && ReadsZero(read) && Rewritable(lines, read) && DistinctResistors(lines)
    requires Solved(Rewritten(lines), read, view, t) && k < |lines|
    ensures Paired(lines[k], Restricted(t), t)
  {
    hide FoldedNode, FoldedSensor, FoldedSource, Rewritable, Faithful, Solved, DistinctResistors, Rewritten;
    if IsResistor(lines[k]) {
      BranchLaws(lines, read, view, k, t);
      assert Initial(Fold(lines[k].fields[0]), 'r');
    }
  }

  lemma RestrictedMatches(lines: seq<Line>, read: Reading, view: View, t: State)
    requires Faithful(view) && ReadsZero(read) && Rewritable(lines, read) && DistinctResistors(lines)
    requires Solved(Rewritten(lines), read, view, t)
    ensures Matches(lines, Restricted(t), t)
  {
    hide Rewritable, Faithful, Solved, DistinctResistors, Rewritten, Paired, FoldedSensor, InFields;
    forall k | 0 <= k < |lines| ensures Shared(lines[k], Restricted(t), t) && Paired(lines[k], Restricted(t), t) {
      RestrictedPaired(lines, read, view, t, k);
    }
  }

  // ---- The theorem ---------------------------------------------------------------------------

  /** Every solution of the original netlist extends to one of the rewritten netlist. */
  lemma SolutionExtends(lines: seq<Line>, read: Reading, view: View, s: State)
    requires Faithful(view) && ReadsZero(read) && Rewritable(lines, read) && DistinctResistors(lines)
    requires Solved(lines, read, view, s)
    ensures SharesAll(lines, s, Extended(lines, s)) && Solved(Rewritten(lines), read, view, Extended(lines, s))
  {
    hide Rewritable, Faithful, Solved, DistinctResistors, Rewritten, Extended, Shared, Paired;
    ExtendedMatches(lines, read, s);
    MatchingSolves(lines, read, view, s, Extended(lines, s));
  }

  /** Every solution of the rewritten netlist restricts to one of the original netlist. */
  lemma SolutionRestricts(lines: seq<Line>, read: Reading, view: View, t: State)
    requires Faithful(view) && ReadsZero(read) && Rewritable(lines, read) && DistinctResistors(lines)
    requires Solved(Rewritten(lines), read, view, t)
    ensures SharesAll(lines, Restricted(t), t) && Solved(lines, read, view, Restricted(t))
  {
    hide Rewritable, Faithful, Solved, DistinctResistors, Rewritten, Restricted, Shared, Paired;
    RestrictedMatches(lines, read, view, t);
    MatchingSolves(lines, read, view, Restricted(t), t);
  }

  lemma SameCurrent(r: real, a: real, b: real)
    requires r > 0.0 && r * a == r * b
    ensures a == b
  {
    assert r * (a - b) == 0.0;
  }

  lemma {:induction false} OhmAt(lines: seq<Line>, read: Reading, view: View, k: nat, s: State)
    requires k < |lines| && IsResistor(lines[k]) && Plain(lines[k], read) && AllHold(Circuit(lines, read, view), s)
    ensures s.v(Fold(lines[k].fields[1])) - s.v(Fold(lines[k].fields[2]))
         == read(lines[k].fields[3]).value * s.i(Fold(lines[k].fields[0]), 0)
    decreases k
  {
    hide AllHold, Circuit, Fold;
    CircuitConcat([lines[0]], lines[1..], read, view);
    assert lines == [lines[0]] + lines[1..];
    HoldConcat(Circuit([lines[0]], read, view), Circuit(lines[1..], read, view), s);
    if k > 0 {
      assert lines[1..][k - 1] == lines[k];
      OhmAt(lines[1..], read, view, k - 1, s);
    } else {
      CircuitOne(lines[0], read, view);
      OneHold(Meaning(lines[0], read, view).value, s, "0");
    }
  }

  /**
   * The extension is unique: a solution of the rewritten netlist that agrees with a solution of the original on the
   * original's own names has the extension's voltage at every generated node and its current in every generated card.
   */
  lemma ExtensionUnique(lines: seq<Line>, read: Reading, view: View, s: State, t: State)
    requires Faithful(view) && ReadsZero(read) && Rewritable(lines, read) && DistinctResistors(lines)
    requires Solved(lines, read, view, s) && Solved(Rewritten(lines), read, view, t) && SharesAll(lines, s, t)
    ensures forall k :: 0 <= k < |lines| ==> Paired(lines[k], s, t) && Paired(lines[k], s, Extended(lines, s))
    ensures forall k :: 0 <= k < |lines| && IsResistor(lines[k]) ==>
      var f, u := Fold(lines[k].fields[0]), Extended(lines, s);
      t.v(FoldedNode(f)) == u.v(FoldedNode(f)) && t.i(FoldedSensor(f), 0) == u.i(FoldedSensor(f), 0)
        && t.i(FoldedSource(f), 0) == u.i(FoldedSource(f), 0)
  {
    hide Fold, FoldedNode, FoldedSensor, FoldedSource, Rewritable, Faithful, Solved, DistinctResistors, Rewritten, Extended, Shared, Paired;
    forall k | 0 <= k < |lines|
      ensures Paired(lines[k], s, t) && Paired(lines[k], s, Extended(lines, s))
      ensures IsResistor(lines[k]) ==>
        var f, u := Fold(lines[k].fields[0]), Extended(lines, s);
        t.v(FoldedNode(f)) == u.v(FoldedNode(f)) && t.i(FoldedSensor(f), 0) == u.i(FoldedSensor(f), 0)
          && t.i(FoldedSource(f), 0) == u.i(FoldedSource(f), 0)
    {
      ExtensionUniqueAt(lines, read, view, s, t, k);
    }
  }

  lemma SolvedHolds(lines: seq<Line>, read: Reading, view: View, s: State)
    requires Solved(lines, read, view, s)
    ensures AllHold(Circuit(lines, read, view), s)
  {
    hide AllHold, Balanced, Circuit;
  }

  lemma SharedAt(line: Line, s: State, t: State, m: nat)
    requires Shared(line, s, t) && m < |line.fields|
    ensures s.v(Fold(line.fields[m])) == t.v(Fold(line.fields[m]))
  {
    hide Fold, InFields;
    FieldIn(line, m);
  }

  lemma ExtensionUniqueAt(lines: seq<Line>, read: Reading, view: View, s: State, t: State, k: nat)
    requires Faithful(view) && ReadsZero(read) && Rewritable(lines, read) && DistinctResistors(lines)
    requires Solved(lines, read, view, s) && Solved(Rewritten(lines), read, view, t) && SharesAll(lines, s, t)
    requires k < |lines|
    ensures Paired(lines[k], s, t) && Paired(lines[k], s, Extended(lines, s))
    ensures IsResistor(lines[k]) ==>
      var f, u := Fold(lines[k].fields[0]), Extended(lines, s);
      t.v(FoldedNode(f)) == u.v(FoldedNode(f)) && t.i(FoldedSensor(f), 0) == u.i(FoldedSensor(f), 0)
        && t.i(FoldedSource(f), 0) == u.i(FoldedSource(f), 0)
  {
    hide Fold, FoldedNode, FoldedSensor, FoldedSource, Rewritable, Faithful, DistinctResistors, Rewritten, Extended,
      IsResistor, Circuit, Meaning, Solved, Shared;
    ExtendedPaired(lines, read, s, k);
    ExtendedShared(lines, read, s, k);
    if IsResistor(lines[k]) {
      BranchLaws(lines, read, view, k, t);
      SolvedHolds(lines, read, view, s);
      OhmAt(lines, read, view, k, s);
      SharedAt(lines[k], s, t, 1);
      SharedAt(lines[k], s, t, 2);
      SharedAt(lines[k], s, Extended(lines, s), 2);
      SameCurrent(read(lines[k].fields[3]).value, s.i(Fold(lines[k].fields[0]), 0), t.i(FoldedSensor(Fold(lines[k].fields[0])), 0));
    }
  }
}
