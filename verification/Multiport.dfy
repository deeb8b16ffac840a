/** Stamping a measured body impedance into a native netlist with sensors and controlled sources. */
module Multiport {
  import opened Prelude
  import opened Cards
  import opened Netlists

  // ---- Names ---------------------------------------------------------------------------------

  /** Nodes: those of the native netlist, one body per device, its chain, and one injection point per excitation. */
  datatype Node = Native(text: string) | Body(i: nat) | Sum(i: nat, j: nat) | Injected(j: nat)

  datatype Name = Own(text: string) | BodySensor(i: nat) | Stamp(i: nat, j: nat) | InjectionSensor(j: nat) | Injection(j: nat)

  type Part = Element<Node, Name>

  type State = Solution<Node, Name>

  const GROUND := Native("0")

  // ---- The rewriting -------------------------------------------------------------------------

  datatype Bulk = Bulk(id: int, body: string, model: string)

  /** The devices with their measured impedance: one row and column per device, then one per excitation. */
  datatype Model = Model(devices: seq<Bulk>, excitations: nat, z: seq<seq<real>>) {
    predicate Valid() {
      |z| == Ports() && forall i :: 0 <= i < |z| ==> |z[i]| == Ports()
    }

    function Ports(): (n: nat) { |devices| + excitations }

    function Impedance(i: nat, j: nat): (r: real)
      requires Valid() && i < Ports() && j < Ports()
    {
      z[i][j]
    }

    function Rail(i: nat): (n: Node)
      requires i < |devices|
    {
      Native(Fold(devices[i].body))
    }
  }

  /** A line of the derived netlist: copied, with reordered ports, with its bulk terminal moved, or generated. */
  datatype Card =
    | Copied(line: Line)
    | Interface(head: seq<string>, ports: seq<string>)
    | Moved(line: Line, i: nat)
    | Generated(part: Part)

  datatype StampError = ReservedName | InterfaceDiffers | BadBinding | Incomplete

  predicate Keyword(line: Line, word: string) {
    |line.fields| > 0 && Fold(line.fields[0]) == word
  }

  predicate IsHeader(line: Line) { Keyword(line, ".subckt") }

  predicate IsEnd(line: Line) { Keyword(line, ".ends") }

  predicate IsBound(line: Line) {
    !IsHeader(line) && |line.fields| > 0 && |line.fields[0]| >= 2 && line.fields[0][..2] == "M$"
  }

  predicate Occurs(s: string, part: string, k: nat) {
    k + |part| <= |s| && s[k..k + |part|] == part
  }

  predicate Contains(s: string, part: string) {
    exists k :: 0 <= k <= |s| && Occurs(s, part, k)
  }

  const RESERVED := "lb_sheet_"

  predicate UsesReserved(lines: seq<Line>) {
    exists k, m :: 0 <= k < |lines| && 0 <= m < |lines[k].fields| && Contains(Fold(lines[k].fields[m]), RESERVED)
  }

  /** The last device with an identifier. */
  function IndexOf(devices: seq<Bulk>, id: int): (i: Option<nat>)
    ensures i.Some? ==> i.value < |devices| && devices[i.value].id == id
    ensures i.None? ==> forall k :: 0 <= k < |devices| ==> devices[k].id != id
  {
    if devices == [] then None
    else if devices[|devices| - 1].id == id then Some(|devices| - 1)
    else IndexOf(devices[..|devices| - 1], id)
  }

  /** The number in a device name: none when it is not one. */
  type Reading = string -> Option<int>

  /** The device that a primitive card belongs to. */
  function DeviceOf(line: Line, m: Model, read: Reading): (i: Option<nat>)
    requires IsBound(line)
    ensures i.Some? ==> i.value < |m.devices|
  {
    var id := read(line.fields[0][2..]);
    if id.None? then None else IndexOf(m.devices, id.value)
  }

  /** The card names a known device and agrees with its rail and its model. */
  predicate Bindable(line: Line, m: Model, read: Reading)
    requires IsBound(line)
  {
    && DeviceOf(line, m, read).Some? && |line.fields| >= 6
    && Fold(line.fields[4]) == Fold(m.devices[DeviceOf(line, m, read).value].body)
    && line.fields[5] == m.devices[DeviceOf(line, m, read).value].model
  }

  predicate Declared(names: seq<string>, name: string) {
    exists k :: 0 <= k < |names| && Fold(names[k]) == name
  }

  predicate DistinctPorts(ports: seq<string>) {
    forall a, b :: 0 <= a < b < |ports| ==> Fold(ports[a]) != Fold(ports[b])
  }

  function HeaderPorts(line: Line): (p: seq<string>) {
    if |line.fields| < 2 then [] else line.fields[2..]
  }

  /** The declared ports, each once, are the header's ports. */
  predicate SameInterface(line: Line, ports: seq<string>) {
    && DistinctPorts(ports)
    && (forall k :: 0 <= k < |ports| ==> Declared(HeaderPorts(line), Fold(ports[k])))
    && (forall k :: 0 <= k < |HeaderPorts(line)| ==> Declared(ports, Fold(HeaderPorts(line)[k])))
  }

  /** The header's last spelling of a port. */
  function Spelling(names: seq<string>, name: string): (s: string)
    requires Declared(names, name)
    ensures s in names && Fold(s) == name
  {
    if Fold(names[|names| - 1]) == name then names[|names| - 1]
    else
      assert forall k :: 0 <= k < |names| - 1 ==> names[..|names| - 1][k] == names[k];
      Spelling(names[..|names| - 1], name)
  }

  /** Where the stamp of column `j` in row `i` ends. */
  function Next(m: Model, i: nat, j: nat): (n: Node)
    requires i < |m.devices| && j < m.Ports()
  {
    if j == m.Ports() - 1 then m.Rail(i) else Sum(i, j + 1)
  }

  function ColumnSensor(m: Model, j: nat): (n: Name) {
    if j < |m.devices| then BodySensor(j) else InjectionSensor(j - |m.devices|)
  }

  function Sensor(i: nat): (e: Part) { Source(BodySensor(i), Body(i), Sum(i, 0), 0.0) }

  function StampOf(m: Model, i: nat, j: nat): (e: Part)
    requires m.Valid() && i < |m.devices| && j < m.Ports()
  {
    Controlled(Stamp(i, j), Sum(i, j), Next(m, i, j), ColumnSensor(m, j), m.Impedance(i, j))
  }

  /** The first `k` stamps of row `i`. */
  function Stamps(m: Model, i: nat, k: nat): (es: seq<Part>)
    requires m.Valid() && i < |m.devices| && k <= m.Ports()
  {
    if k == 0 then [] else Stamps(m, i, k - 1) + [StampOf(m, i, k - 1)]
  }

  function Chain(m: Model, i: nat): (es: seq<Part>)
    requires m.Valid() && i < |m.devices|
  {
    [Sensor(i)] + Stamps(m, i, m.Ports())
  }

  function Chains(m: Model, k: nat): (es: seq<Part>)
    requires m.Valid() && k <= |m.devices|
  {
    if k == 0 then [] else Chains(m, k - 1) + Chain(m, k - 1)
  }

  /** The drive of each excitation, a parameter of the derived netlist. */
  type Drives = nat -> real

  function InjectionPair(drives: Drives, j: nat): (es: seq<Part>) {
    [Source(InjectionSensor(j), Injected(j), GROUND, 0.0), Drive(Injection(j), GROUND, Injected(j), drives(j))]
  }

  function Injections(drives: Drives, k: nat): (es: seq<Part>) {
    if k == 0 then [] else Injections(drives, k - 1) + InjectionPair(drives, k - 1)
  }

  /** Everything inserted before the end of the subcircuit. */
  function Inserted(m: Model, drives: Drives): (es: seq<Part>)
    requires m.Valid()
  {
    Chains(m, |m.devices|) + Injections(drives, m.excitations)
  }

  function AsCards(es: seq<Part>): (cs: seq<Card>)
    ensures |cs| == |es| && forall k :: 0 <= k < |es| ==> cs[k] == Generated(es[k])
  {
    seq(|es|, k requires 0 <= k < |es| => Generated(es[k]))
  }

  function Reordered(line: Line, ports: seq<string>): (p: seq<string>)
    requires SameInterface(line, ports)
    ensures |p| == |ports| && forall k :: 0 <= k < |ports| ==> p[k] in HeaderPorts(line) && Fold(p[k]) == Fold(ports[k])
  {
    seq(|ports|, k requires 0 <= k < |ports| => Spelling(HeaderPorts(line), Fold(ports[k])))
  }

  predicate LineAccepted(line: Line, m: Model, ports: seq<string>, read: Reading) {
    (IsHeader(line) ==> SameInterface(line, ports)) && (IsBound(line) ==> Bindable(line, m, read))
  }

  function Emit(line: Line, m: Model, ports: seq<string>, read: Reading, drives: Drives): (cs: seq<Card>)
    requires m.Valid() && LineAccepted(line, m, ports, read)
  {
    if IsHeader(line) then [Interface(if |line.fields| < 2 then line.fields else line.fields[..2], Reordered(line, ports))]
    else if IsBound(line) then [Moved(line, DeviceOf(line, m, read).value)]
    else if IsEnd(line) then AsCards(Inserted(m, drives)) + [Copied(line)]
    else [Copied(line)]
  }

  predicate AllAccepted(lines: seq<Line>, m: Model, ports: seq<string>, read: Reading) {
    forall k :: 0 <= k < |lines| ==> LineAccepted(lines[k], m, ports, read)
  }

  function Derived(lines: seq<Line>, m: Model, ports: seq<string>, read: Reading, drives: Drives): (cs: seq<Card>)
    requires m.Valid() && AllAccepted(lines, m, ports, read)
  {
    if lines == [] then []
    else Derived(lines[..|lines| - 1], m, ports, read, drives) + Emit(lines[|lines| - 1], m, ports, read, drives)
  }

  predicate BoundTo(line: Line, i: nat, m: Model, read: Reading) {
    IsBound(line) && DeviceOf(line, m, read) == Some(i)
  }

  predicate HasCard(lines: seq<Line>, i: nat, m: Model, read: Reading) {
    exists k :: 0 <= k < |lines| && BoundTo(lines[k], i, m, read)
  }

  /** Every device has a primitive card. */
  predicate AllBound(lines: seq<Line>, m: Model, read: Reading) {
    forall i :: 0 <= i < |m.devices| ==> HasCard(lines, i, m, read)
  }

  function Indices(n: nat): (s: set<nat>)
    ensures forall i: nat :: i in s <==> i < n
  {
    if n == 0 then {} else Indices(n - 1) + {n - 1}
  }

  // ---- The card of a line --------------------------------------------------------------------

  /** The name is written as the header last writes it. */
  predicate AsWritten(names: seq<string>, name: string) {
    exists j :: 0 <= j < |names| && names[j] == name && forall i :: j < i < |names| ==> Fold(names[i]) != Fold(name)
  }

  /** The header keeps its first two fields and gets the declared ports, in the declared order and in its own writing. */
  predicate HeaderCard(line: Line, ports: seq<string>, c: Card) {
    && c.Interface? && c.head == line.fields[..if |line.fields| < 2 then |line.fields| else 2]
    && |c.ports| == |ports|
    && forall k :: 0 <= k < |ports| ==> Fold(c.ports[k]) == Fold(ports[k]) && AsWritten(HeaderPorts(line), c.ports[k])
  }

  /** A primitive goes to the last device with the number in its name, on that device's rail and of its model. */
  predicate BoundCard(line: Line, m: Model, read: Reading, c: Card) {
    && c.Moved? && c.line == line && c.i < |m.devices| && |line.fields| >= 6 && |line.fields[0]| >= 2
    && read(line.fields[0][2..]) == Some(m.devices[c.i].id)
    && (forall j :: c.i < j < |m.devices| ==> m.devices[j].id != m.devices[c.i].id)
    && Fold(line.fields[4]) == Fold(m.devices[c.i].body) && line.fields[5] == m.devices[c.i].model
  }

  predicate CardOf(line: Line, m: Model, ports: seq<string>, read: Reading, c: Card) {
    if IsHeader(line) then HeaderCard(line, ports, c) else if IsBound(line) then BoundCard(line, m, read, c) else c == Copied(line)
  }

  /** How many cards the line becomes: an end has everything inserted before it. */
  function Width(line: Line, m: Model): (n: nat)
    ensures n >= 1
  {
    if IsEnd(line) then |m.devices| * (m.Ports() + 1) + 2 * m.excitations + 1 else 1
  }

  /** The first card of line `k`. */
  function Offset(lines: seq<Line>, m: Model, k: nat): (n: nat)
    requires k <= |lines|
  {
    if k == 0 then 0 else Offset(lines, m, k - 1) + Width(lines[k - 1], m)
  }

  /** The last card of line `k` is its own, and those before it are inserted. */
  predicate InPlace(lines: seq<Line>, m: Model, ports: seq<string>, read: Reading, cs: seq<Card>, k: nat)
    requires k < |lines|
  {
    var last := Offset(lines, m, k + 1) - 1;
    && Offset(lines, m, k) <= last < |cs| && CardOf(lines[k], m, ports, read, cs[last])
    && forall j :: Offset(lines, m, k) <= j < last ==> cs[j].Generated?
  }

  /** The derived netlist has the cards of all lines in order and nothing else. */
  predicate LaidOut(lines: seq<Line>, m: Model, ports: seq<string>, read: Reading, cs: seq<Card>) {
    |cs| == Offset(lines, m, |lines|) && forall k :: 0 <= k < |lines| ==> InPlace(lines, m, ports, read, cs, k)
  }

  // ---- Counting what is inserted -------------------------------------------------------------

  lemma {:induction false} StampCount(m: Model, i: nat, k: nat)
    requires m.Valid() && i < |m.devices| && k <= m.Ports()
    ensures |Stamps(m, i, k)| == k
  {
    if k > 0 {
      StampCount(m, i, k - 1);
    }
  }

  lemma OneMore(k: nat, n: nat)
    requires k > 0
    ensures (k - 1) * n + n == k * n
  {
  }

  lemma {:induction false} ChainCount(m: Model, k: nat)
    requires m.Valid() && k <= |m.devices|
    ensures |Chains(m, k)| == k * (m.Ports() + 1)
  {
    if k > 0 {
      ChainCount(m, k - 1);
      StampCount(m, k - 1, m.Ports());
      OneMore(k, m.Ports() + 1);
    }
  }

  lemma {:induction false} InjectionCount(drives: Drives, k: nat)
    ensures |Injections(drives, k)| == 2 * k
  {
    if k > 0 {
      InjectionCount(drives, k - 1);
    }
  }

  // ---- The layout ----------------------------------------------------------------------------

  lemma {:induction false} SpelledAsWritten(names: seq<string>, name: string)
    requires Declared(names, name)
    ensures AsWritten(names, Spelling(names, name))
  {
    hide Fold, AsWritten, Declared;
    DeclaredSome(names, name);
    var n := |names| - 1;
    if Fold(names[n]) != name {
      var front := names[..n];
      DeclaredBefore(names, n, name);
      SpelledAsWritten(front, name);
      WrittenBefore(names, n, Spelling(front, name));
    } else {
      WrittenLast(names, n);
    }
  }

  lemma DeclaredSome(names: seq<string>, name: string)
    requires Declared(names, name)
    ensures names != []
  {
  }

  lemma WrittenLast(names: seq<string>, n: nat)
    requires |names| == n + 1
    ensures AsWritten(names, names[n])
  {
    hide Fold;
  }

  lemma DeclaredBefore(names: seq<string>, n: nat, name: string)
    requires |names| == n + 1 && Declared(names, name) && Fold(names[n]) != name
    ensures Declared(names[..n], name)
  {
    hide Fold;
    var k :| 0 <= k < |names| && Fold(names[k]) == name;
    assert names[..n][k] == names[k];
  }

  lemma WrittenBefore(names: seq<string>, n: nat, s: string)
    requires |names| == n + 1 && AsWritten(names[..n], s) && Fold(names[n]) != Fold(s)
    ensures AsWritten(names, s)
  {
    hide Fold;
    var front := names[..n];
    var j :| 0 <= j < n && front[j] == s && forall i :: j < i < n ==> Fold(front[i]) != Fold(s);
    forall i | j < i < |names| ensures Fold(names[i]) != Fold(s) {
      if i < n {
        assert front[i] == names[i];
      }
    }
  }

  lemma HeaderEmitted(line: Line, m: Model, ports: seq<string>, read: Reading, drives: Drives)
    requires m.Valid() && IsHeader(line) && LineAccepted(line, m, ports, read)
    ensures
      var cs := Emit(line, m, ports, read, drives);
      |cs| == 1 && HeaderCard(line, ports, cs[0])
  {
    hide Model.Valid, Fold, DeviceOf, AsWritten;
    forall k | 0 <= k < |ports| ensures AsWritten(HeaderPorts(line), Reordered(line, ports)[k]) {
      SpelledAsWritten(HeaderPorts(line), Fold(ports[k]));
    }
  }

  lemma {:induction false} LastDevice(devices: seq<Bulk>, id: int)
    ensures
      var i := IndexOf(devices, id);
      i.Some? ==> forall j :: i.value < j < |devices| ==> devices[j].id != id
  {
    if devices != [] && devices[|devices| - 1].id != id {
      LastDevice(devices[..|devices| - 1], id);
    }
  }

  lemma BoundEmitted(line: Line, m: Model, ports: seq<string>, read: Reading, drives: Drives)
    requires m.Valid() && IsBound(line) && LineAccepted(line, m, ports, read)
    ensures
      var cs := Emit(line, m, ports, read, drives);
      |cs| == 1 && BoundCard(line, m, read, cs[0])
  {
    hide Model.Valid, Fold, SameInterface;
    LastDevice(m.devices, read(line.fields[0][2..]).value);
  }

  lemma EndIsPlain(line: Line)
    requires IsEnd(line)
    ensures !IsHeader(line) && !IsBound(line)
  {
    assert Fold(line.fields[0])[0] == '.';
    assert |line.fields[0]| >= 2 ==> line.fields[0][..2][0] == line.fields[0][0];
  }

  lemma Emitted(line: Line, m: Model, ports: seq<string>, read: Reading, drives: Drives)
    requires m.Valid() && LineAccepted(line, m, ports, read)
    ensures
      var cs := Emit(line, m, ports, read, drives);
      && |cs| == Width(line, m) && CardOf(line, m, ports, read, cs[|cs| - 1])
      && forall j :: 0 <= j < |cs| - 1 ==> cs[j].Generated?
  {
    hide Model.Valid, SameInterface, DeviceOf, Reordered, HeaderCard, BoundCard, IsEnd, IsHeader, IsBound, Chains;
    if IsEnd(line) {
      EndIsPlain(line);
      ChainCount(m, |m.devices|);
      InjectionCount(drives, m.excitations);
    } else if IsHeader(line) {
      HeaderEmitted(line, m, ports, read, drives);
    } else if IsBound(line) {
      BoundEmitted(line, m, ports, read, drives);
    }
  }

  lemma {:induction false} OffsetPrefix(lines: seq<Line>, m: Model, n: nat, k: nat)
    requires k <= n <= |lines|
    ensures Offset(lines[..n], m, k) == Offset(lines, m, k)
  {
    hide Width;
    if k > 0 {
      OffsetPrefix(lines, m, n, k - 1);
    }
  }

  lemma {:induction false} OffsetsRise(lines: seq<Line>, m: Model, k: nat, n: nat)
    requires k <= n <= |lines|
    ensures Offset(lines, m, k) <= Offset(lines, m, n)
  {
    hide Width;
    if k < n {
      OffsetsRise(lines, m, k, n - 1);
    }
  }

  /** Every accepted netlist is laid out line by line. */
  lemma {:induction false} DerivedLaidOut(lines: seq<Line>, m: Model, ports: seq<string>, read: Reading, drives: Drives)
    requires m.Valid() && AllAccepted(lines, m, ports, read)
    ensures LaidOut(lines, m, ports, read, Derived(lines, m, ports, read, drives))
  {
    hide Model.Valid, LineAccepted, Emit, CardOf, Width;
    if lines != [] {
      var n := |lines| - 1;
      var front, last := lines[..n], lines[n];
      DerivedLaidOut(front, m, ports, read, drives);
      Emitted(last, m, ports, read, drives);
      OffsetPrefix(lines, m, n, n);
      var a, b := Derived(front, m, ports, read, drives), Emit(last, m, ports, read, drives);
      forall k | 0 <= k < |lines| ensures InPlace(lines, m, ports, read, a + b, k) {
        if k < n {
          OffsetPrefix(lines, m, n, k);
          OffsetPrefix(lines, m, n, k + 1);
          assert InPlace(front, m, ports, read, a, k);
        } else {
          assert Offset(lines, m, n) == |a| && |b| >= 1;
          assert (a + b)[|a| + (|b| - 1)] == b[|b| - 1];
        }
      }
    }
  }

  // ---- The transformation --------------------------------------------------------------------

  /** Every line before this one is accepted, and this one is not. */
  predicate RefusedAt(lines: seq<Line>, k: nat, m: Model, ports: seq<string>, read: Reading, e: StampError) {
    && k < |lines| && AllAccepted(lines[..k], m, ports, read) && !LineAccepted(lines[k], m, ports, read)
    && e == if IsHeader(lines[k]) then InterfaceDiffers else BadBinding
  }

  predicate FirstRefused(lines: seq<Line>, m: Model, ports: seq<string>, read: Reading, e: StampError) {
    exists k :: 0 <= k < |lines| && RefusedAt(lines, k, m, ports, read, e)
  }

  method Emission(line: Line, m: Model, ports: seq<string>, read: Reading, drives: Drives) returns (r: Result<seq<Card>, StampError>)
    requires m.Valid()
    ensures r.Ok? <==> LineAccepted(line, m, ports, read)
    ensures r.Ok? ==> r.value == Emit(line, m, ports, read, drives)
    ensures r.Err? ==> r.error == (if IsHeader(line) then InterfaceDiffers else BadBinding)
  {
    hide SameInterface, DeviceOf, Reordered, Inserted, IsHeader, Chains;
    if IsHeader(line) {
      if SameInterface(line, ports) {
        r := Ok([Interface(if |line.fields| < 2 then line.fields else line.fields[..2], Reordered(line, ports))]);
      } else {
        r := Err(InterfaceDiffers);
      }
    } else if IsBound(line) {
      if Bindable(line, m, read) {
        r := Ok([Moved(line, DeviceOf(line, m, read).value)]);
      } else {
        r := Err(BadBinding);
      }
    } else if IsEnd(line) {
      r := Ok(AsCards(Inserted(m, drives)) + [Copied(line)]);
    } else {
      r := Ok([Copied(line)]);
    }
  }

  /**
   * Accepts exactly the netlists that avoid the reserved names, match the interface and bind every device, and puts
   * every line in its place; otherwise the first line that is refused decides the error.
   */
  method SpiceMultiport(lines: seq<Line>, m: Model, ports: seq<string>, read: Reading, drives: Drives)
    returns (r: Result<seq<Card>, StampError>)
    requires m.Valid()
    ensures r.Ok? <==> !UsesReserved(lines) && AllAccepted(lines, m, ports, read) && AllBound(lines, m, read)
    ensures r.Ok? ==> r.value == Derived(lines, m, ports, read, drives) && LaidOut(lines, m, ports, read, r.value)
    ensures r == Err(ReservedName) <==> UsesReserved(lines)
    ensures r == Err(Incomplete) ==> AllAccepted(lines, m, ports, read) && !AllBound(lines, m, read)
    ensures r.Err? && r.error !in {ReservedName, Incomplete} ==> FirstRefused(lines, m, ports, read, r.error)
  {
    hide LineAccepted, Emit, UsesReserved, Model.Valid, DeviceOf, IsBound, IsHeader, HasCard, LaidOut;
    if UsesReserved(lines) {
      return Err(ReservedName);
    }
    var derived: seq<Card> := [];
    var seen: set<nat> := {};
    NoCards(lines[..0], m, read);
    for k := 0 to |lines|
      invariant AllAccepted(lines[..k], m, ports, read)
      invariant derived == Derived(lines[..k], m, ports, read, drives)
      invariant forall i :: i in seen <==> HasCard(lines[..k], i, m, read)
      invariant forall i :: i in seen ==> i < |m.devices|
    {
      var cards := Emission(lines[k], m, ports, read, drives);
      if cards.Err? {
        assert RefusedAt(lines, k, m, ports, read, cards.error);
        return Err(cards.error);
      }
      AcceptedSnoc(lines, k, m, ports, read, drives);
      derived := derived + cards.value;
      forall i ensures HasCard(lines[..k + 1], i, m, read) <==> HasCard(lines[..k], i, m, read) || BoundTo(lines[k], i, m, read) {
        HasCardSnoc(lines, k, i, m, read);
      }
      if IsBound(lines[k]) {
        BoundAccepted(lines[k], m, ports, read);
        seen := seen + {DeviceOf(lines[k], m, read).value};
      }
    }
    assert lines[..|lines|] == lines;
    if seen != Indices(|m.devices|) {
      return Err(Incomplete);
    }
    DerivedLaidOut(lines, m, ports, read, drives);
    return Ok(derived);
  }

  lemma NoCards(lines: seq<Line>, m: Model, read: Reading)
    requires lines == []
    ensures forall i: nat :: !HasCard(lines, i, m, read)
  {
  }

  lemma HasCardSnoc(lines: seq<Line>, k: nat, i: nat, m: Model, read: Reading)
    requires k < |lines|
    ensures HasCard(lines[..k + 1], i, m, read) <==> HasCard(lines[..k], i, m, read) || BoundTo(lines[k], i, m, read)
  {
    hide BoundTo;
    if HasCard(lines[..k], i, m, read) {
      var j :| 0 <= j < k && BoundTo(lines[..k][j], i, m, read);
      assert lines[..k + 1][j] == lines[j];
    }
    if BoundTo(lines[k], i, m, read) {
      assert lines[..k + 1][k] == lines[k];
    }
  }

  lemma BoundAccepted(line: Line, m: Model, ports: seq<string>, read: Reading)
    requires LineAccepted(line, m, ports, read) && IsBound(line)
    ensures DeviceOf(line, m, read).Some?
  {
  }

  lemma AcceptedSnoc(lines: seq<Line>, k: nat, m: Model, ports: seq<string>, read: Reading, drives: Drives)
    requires m.Valid() && k < |lines| && AllAccepted(lines[..k], m, ports, read) && LineAccepted(lines[k], m, ports, read)
    ensures AllAccepted(lines[..k + 1], m, ports, read)
    ensures Derived(lines[..k + 1], m, ports, read, drives)
         == Derived(lines[..k], m, ports, read, drives) + Emit(lines[k], m, ports, read, drives)
  {
    hide LineAccepted, Emit;
    assert lines[..k + 1][..k] == lines[..k];
  }
}
