/** Resistive connections between the ports of an extracted circuit, by union-find over its nets. */
module PortConnections {
  import opened Prelude
  import opened Graphs

  type Net = string

  /** A two-terminal view of an extracted device; only resistors join nets. */
  datatype Device = Device(resistor: bool, a: Net, b: Net, ohms: real)

  datatype Pin = Pin(name: string, net: Net)

  /** The devices that join nets: all resistors, or only the zero-ohm aliases. */
  predicate Joins(d: Device, aliasesOnly: bool) {
    d.resistor && (aliasesOnly ==> d.ohms == 0.0)
  }

  /** The undirected graph of the joining devices. */
  function Wires(devices: seq<Device>, aliasesOnly: bool): (e: set<(Net, Net)>) {
    (set i | 0 <= i < |devices| && Joins(devices[i], aliasesOnly) :: (devices[i].a, devices[i].b)) +
    (set i | 0 <= i < |devices| && Joins(devices[i], aliasesOnly) :: (devices[i].b, devices[i].a))
  }

  /** A wire is a resistor between the two nets, in either direction; among aliases only resistors of zero ohms count. */
  lemma WiresExactly(devices: seq<Device>, aliasesOnly: bool, x: Net, y: Net)
    ensures (x, y) in Wires(devices, aliasesOnly) <==>
      exists d :: d in devices && d.resistor && (d.ohms == 0.0 || !aliasesOnly) && ((x == d.a && y == d.b) || (x == d.b && y == d.a))
  {
    if d :| d in devices && d.resistor && (d.ohms == 0.0 || !aliasesOnly) && ((x == d.a && y == d.b) || (x == d.b && y == d.a)) {
      var i :| 0 <= i < |devices| && devices[i] == d;
    }
  }

  /** One net of the table: its chain ends in its root and the level falls along the chain. */
  ghost predicate Node(parents: map<Net, Net>, rep: map<Net, Net>, level: map<Net, nat>, n: Net) {
    && n in parents && n in rep && n in level
    && var up := parents[n];
       && up in parents && up in rep && up in level && rep[up] == rep[n]
       && rep[n] in parents && parents[rep[n]] == rep[n]
       && (if up == n then rep[n] == n else level[up] < level[n])
  }

  /** A parent table whose chains end in roots: `rep` names each net's root, `level` falls along the chains. */
  ghost predicate Forest(parents: map<Net, Net>, rep: map<Net, Net>, level: map<Net, nat>) {
    && parents.Keys == rep.Keys == level.Keys
    && forall n {:trigger Node(parents, rep, level, n)} :: n in parents ==> Node(parents, rep, level, n)
  }

  lemma NodeAt(parents: map<Net, Net>, rep: map<Net, Net>, level: map<Net, nat>, n: Net)
    requires Forest(parents, rep, level) && n in parents
    ensures Node(parents, rep, level, n)
  {
  }

  /** The class of a net; a net that was never looked up is its own class. */
  ghost function ClassOf(rep: map<Net, Net>, n: Net): (c: Net) {
    if n in rep then rep[n] else n
  }

  /** The partition after joining the classes of the roots `a` and `b`. */
  ghost function JoinedReps(rep: map<Net, Net>, a: Net, b: Net): (r: map<Net, Net>) {
    map n | n in rep :: if rep[n] == b then a else rep[n]
  }

  ghost function JoinedLevels(rep: map<Net, Net>, level: map<Net, nat>, a: Net, b: Net): (r: map<Net, nat>)
    requires a in level && rep.Keys == level.Keys
  {
    map n | n in level :: if a != b && rep[n] == b then level[n] + level[a] + 1 else level[n]
  }

  lemma Sprout(parents: map<Net, Net>, rep: map<Net, Net>, level: map<Net, nat>, n: Net)
    requires Forest(parents, rep, level) && n !in parents
    ensures Forest(parents[n := n], rep[n := n], level[n := 0])
    ensures SameClasses(rep, rep[n := n])
  {
    var p, r, l := parents[n := n], rep[n := n], level[n := 0];
    forall x | x in p ensures Node(p, r, l, x) {
      if x != n {
        assert Node(parents, rep, level, x);
      }
    }
  }

  /** Pointing a net further up its own chain keeps the partition. */
  lemma Shorten(parents: map<Net, Net>, rep: map<Net, Net>, level: map<Net, nat>, n: Net, m: Net)
    requires Forest(parents, rep, level) && n in parents && n in rep && n in level && parents[n] != n
    requires m in parents && m in rep && m in level && rep[m] == rep[n] && level[m] < level[n]
    ensures Forest(parents[n := m], rep, level)
  {
    var p := parents[n := m];
    NodeAt(parents, rep, level, n);
    forall x | x in p ensures Node(p, rep, level, x) {
      NodeAt(parents, rep, level, x);
      ShortenNode(parents, rep, level, n, m, x);
    }
  }

  lemma ShortenNode(parents: map<Net, Net>, rep: map<Net, Net>, level: map<Net, nat>, n: Net, m: Net, x: Net)
    requires Node(parents, rep, level, n) && Node(parents, rep, level, x) && parents[n] != n
    requires m in parents && m in rep && m in level && rep[m] == rep[n] && level[m] < level[n]
    ensures Node(parents[n := m], rep, level, x)
  {
  }

  lemma JoinNode(parents: map<Net, Net>, rep: map<Net, Net>, level: map<Net, nat>, a: Net, b: Net, x: Net)
    requires parents.Keys == rep.Keys == level.Keys
    requires Node(parents, rep, level, a) && parents[a] == a && Node(parents, rep, level, b) && parents[b] == b
    requires Node(parents, rep, level, x)
    ensures Node(parents[b := a], JoinedReps(rep, a, b), JoinedLevels(rep, level, a, b), x)
  {
  }

  lemma JoinForest(parents: map<Net, Net>, rep: map<Net, Net>, level: map<Net, nat>, a: Net, b: Net)
    requires Forest(parents, rep, level) && a in parents && b in parents && parents[a] == a && parents[b] == b
    ensures parents.Keys == rep.Keys == level.Keys
    ensures Forest(parents[b := a], JoinedReps(rep, a, b), JoinedLevels(rep, level, a, b))
  {
    var p, r, l := parents[b := a], JoinedReps(rep, a, b), JoinedLevels(rep, level, a, b);
    assert r.Keys == rep.Keys && l.Keys == level.Keys && p.Keys == parents.Keys;
    NodeAt(parents, rep, level, a);
    NodeAt(parents, rep, level, b);
    forall x | x in p ensures Node(p, r, l, x) {
      NodeAt(parents, rep, level, x);
      JoinNode(parents, rep, level, a, b, x);
    }
  }

  ghost predicate SameClasses(before: map<Net, Net>, after: map<Net, Net>) {
    forall x :: ClassOf(before, x) == ClassOf(after, x)
  }

  /** The grandparent of a net that is not a root lies strictly further up its chain. */
  lemma HalvingStep(parents: map<Net, Net>, rep: map<Net, Net>, level: map<Net, nat>, n: Net)
    requires Forest(parents, rep, level) && n in parents && parents[n] != n
    ensures parents[n] in parents && parents[parents[n]] in parents && parents[parents[n]] in rep && parents[parents[n]] in level
    ensures n in level && level[parents[parents[n]]] < level[n]
    ensures n in rep && rep[parents[parents[n]]] == rep[n]
    ensures Forest(parents[n := parents[parents[n]]], rep, level)
  {
    NodeAt(parents, rep, level, n);
    NodeAt(parents, rep, level, parents[n]);
    Shorten(parents, rep, level, n, parents[parents[n]]);
  }

  /** A net below its root may point directly at the root. */
  lemma CompressStep(parents: map<Net, Net>, rep: map<Net, Net>, level: map<Net, nat>, n: Net, root: Net)
    requires Forest(parents, rep, level) && n in parents && n in rep && n in level && root in level
    requires root in parents && parents[root] == root && rep[n] == root && level[root] < level[n]
    ensures parents[n] != n && Forest(parents[n := root], rep, level)
  {
    NodeAt(parents, rep, level, n);
    NodeAt(parents, rep, level, root);
    Shorten(parents, rep, level, n, root);
  }

  lemma KeptStep(before: map<Net, Net>, parents: map<Net, Net>, n: Net, m: Net)
    requires RootsKept(before, parents) && n in parents && parents[n] != n
    ensures RootsKept(before, parents[n := m])
  {
  }

  /** Roots stay roots. */
  ghost predicate RootsKept(before: map<Net, Net>, after: map<Net, Net>) {
    forall x :: x in before && before[x] == x ==> x in after && after[x] == x
  }

  /** The parent table of a union-find. */
  class Parents {
    var parents: map<Net, Net>
    ghost var rep: map<Net, Net>
    ghost var level: map<Net, nat>

    constructor ()
      ensures Valid() && rep == map[]
    {
      parents, rep, level := map[], map[], map[];
    }

    ghost predicate Valid()
      reads this
    {
      Forest(parents, rep, level)
    }

    /** A net is its own root when it is first looked up. */
    method Default(net: Net)
      requires Valid()
      modifies this
      ensures Valid() && net in parents
      ensures SameClasses(old(rep), rep) && RootsKept(old(parents), parents)
      ensures net in old(parents) ==> parents == old(parents) && rep == old(rep) && level == old(level)
      ensures net !in old(parents) ==> parents[net] == net
      ensures old(parents).Keys <= parents.Keys
    {
      if net !in parents {
        Sprout(parents, rep, level, net);
        parents, rep, level := parents[net := net], rep[net := net], level[net := 0];
      }
    }

    /** The root of a net, halving the path to it on the way. */
    method RootHalving(net: Net) returns (root: Net)
      requires Valid()
      modifies this
      ensures Valid() && root in parents && parents[root] == root
      ensures root == ClassOf(old(rep), net)
      ensures SameClasses(old(rep), rep) && RootsKept(old(parents), parents)
      ensures net in parents && old(parents).Keys <= parents.Keys
    {
      hide Forest, RootsKept;
      Default(net);
      NodeAt(parents, rep, level, net);
      root := net;
      while parents[root] != root
        invariant Valid() && root in parents && root in rep && root in level && rep[root] == ClassOf(old(rep), net)
        invariant SameClasses(old(rep), rep) && RootsKept(old(parents), parents)
        invariant net in parents && old(parents).Keys <= parents.Keys
        decreases level[root]
      {
        HalvingStep(parents, rep, level, root);
        KeptStep(old(parents), parents, root, parents[parents[root]]);
        parents := parents[root := parents[parents[root]]];
        root := parents[root];
      }
      NodeAt(parents, rep, level, root);
    }

    /** The root of a net, pointing every net on the path directly at it. */
    method RootCompressing(net: Net) returns (root: Net)
      requires Valid()
      modifies this
      ensures Valid() && root in parents && parents[root] == root
      ensures root == ClassOf(old(rep), net)
      ensures SameClasses(old(rep), rep) && RootsKept(old(parents), parents)
      ensures net in parents && parents[net] == root
      ensures net in old(parents) ==> rep == old(rep) && level == old(level)
      ensures net in level && root in level && level[root] <= level[net]
      ensures old(parents).Keys <= parents.Keys
      decreases if net in level then level[net] else 0
    {
      hide Forest, RootsKept;
      Default(net);
      NodeAt(parents, rep, level, net);
      if parents[net] != net {
        var top := RootCompressing(parents[net]);
        CompressStep(parents, rep, level, net, top);
        KeptStep(old(parents), parents, net, top);
        parents := parents[net := top];
      }
      root := parents[net];
    }

    /** The alias check compresses its paths, the connection check halves them. */
    method Root(net: Net, compressing: bool) returns (root: Net)
      requires Valid()
      modifies this
      ensures Valid() && root in parents && parents[root] == root
      ensures root == ClassOf(old(rep), net)
      ensures SameClasses(old(rep), rep) && RootsKept(old(parents), parents)
      ensures net in parents && old(parents).Keys <= parents.Keys
    {
      if compressing {
        root := RootCompressing(net);
      } else {
        root := RootHalving(net);
      }
    }

    /** Joins the classes of two roots. */
    method Join(a: Net, b: Net)
      requires Valid() && a in parents && b in parents && parents[a] == a && parents[b] == b
      modifies this
      ensures Valid() && rep == JoinedReps(old(rep), a, b)
    {
      JoinForest(parents, rep, level, a, b);
      parents, rep, level := parents[b := a], JoinedReps(rep, a, b), JoinedLevels(rep, level, a, b);
    }
  }

  /** The partition is exactly reachability along the wires. */
  ghost predicate Tracks(rep: map<Net, Net>, e: set<(Net, Net)>) {
    forall x, y :: ClassOf(rep, x) == ClassOf(rep, y) <==> Reaches(e, x, y)
  }

  lemma TracksNothing()
    ensures Tracks(map[], {})
  {
    forall x, y ensures ClassOf(map[], x) == ClassOf(map[], y) <==> Reaches({}, x, y) {
      ReachesUnfold({}, x, y);
    }
  }

  lemma TracksSame(before: map<Net, Net>, after: map<Net, Net>, e: set<(Net, Net)>)
    requires Tracks(before, e) && SameClasses(before, after)
    ensures Tracks(after, e)
  {
    forall x, y ensures ClassOf(after, x) == ClassOf(after, y) <==> Reaches(e, x, y) {
      assert ClassOf(before, x) == ClassOf(after, x) && ClassOf(before, y) == ClassOf(after, y);
    }
  }

  lemma JoinedClass(rep: map<Net, Net>, a: Net, b: Net, x: Net)
    requires forall n :: n in rep ==> rep[n] in rep
    requires b in rep
    ensures ClassOf(JoinedReps(rep, a, b), x) == if ClassOf(rep, x) == b then a else ClassOf(rep, x)
  {
  }

  /** Joining the classes of the two ends of a wire adds exactly that wire to the partition. */
  lemma TracksJoin(rep: map<Net, Net>, e: set<(Net, Net)>, u: Net, v: Net)
    requires Tracks(rep, e) && forall n :: n in rep ==> rep[n] in rep
    requires u in rep && v in rep
    ensures Tracks(JoinedReps(rep, rep[u], rep[v]), e + {(u, v), (v, u)})
  {
    var a, b, f := rep[u], rep[v], e + {(u, v), (v, u)};
    var joined := JoinedReps(rep, a, b);
    forall x, y ensures ClassOf(joined, x) == ClassOf(joined, y) <==> Reaches(f, x, y) {
      JoinedClass(rep, a, b, x);
      JoinedClass(rep, a, b, y);
      if ClassOf(joined, x) == ClassOf(joined, y) {
        JoinedReaches(rep, e, u, v, x, y);
      }
      if Reaches(f, x, y) {
        JoinedKeeps(rep, e, u, v, x, y);
      }
    }
  }

  lemma JoinedReaches(rep: map<Net, Net>, e: set<(Net, Net)>, u: Net, v: Net, x: Net, y: Net)
    requires Tracks(rep, e) && u in rep && v in rep
    requires
      || ClassOf(rep, x) == ClassOf(rep, y)
      || (ClassOf(rep, x) == rep[u] && ClassOf(rep, y) == rep[v])
      || (ClassOf(rep, x) == rep[v] && ClassOf(rep, y) == rep[u])
    ensures Reaches(e + {(u, v), (v, u)}, x, y)
  {
    var f := e + {(u, v), (v, u)};
    if ClassOf(rep, x) == ClassOf(rep, y) {
      assert Reaches(e, x, y);
      ReachesMonotone(e, f, x, y);
    } else if ClassOf(rep, x) == rep[u] {
      Detour(e, f, x, u, v, y) by {
        assert ClassOf(rep, x) == ClassOf(rep, u) && ClassOf(rep, v) == ClassOf(rep, y);
      }
    } else {
      Detour(e, f, x, v, u, y) by {
        assert ClassOf(rep, x) == ClassOf(rep, v) && ClassOf(rep, u) == ClassOf(rep, y);
      }
    }
  }

  lemma Detour(e: set<(Net, Net)>, f: set<(Net, Net)>, x: Net, u: Net, v: Net, y: Net)
    requires e <= f && (u, v) in f && Reaches(e, x, u) && Reaches(e, v, y)
    ensures Reaches(f, x, y)
  {
    ReachesMonotone(e, f, x, u);
    ReachesMonotone(e, f, v, y);
    ReachesEdge(f, u, v);
    ReachesTransitive(f, x, u, v);
    ReachesTransitive(f, x, v, y);
  }

  lemma JoinedKeeps(rep: map<Net, Net>, e: set<(Net, Net)>, u: Net, v: Net, x: Net, y: Net)
    requires Tracks(rep, e) && (forall n :: n in rep ==> rep[n] in rep) && u in rep && v in rep
    requires Reaches(e + {(u, v), (v, u)}, x, y)
    ensures ClassOf(JoinedReps(rep, rep[u], rep[v]), x) == ClassOf(JoinedReps(rep, rep[u], rep[v]), y)
  {
    var f, joined := e + {(u, v), (v, u)}, JoinedReps(rep, rep[u], rep[v]);
    var c := (n: Net) => ClassOf(joined, n);
    forall p, q | (p, q) in f ensures c(p) == c(q) {
      JoinedClass(rep, rep[u], rep[v], p);
      JoinedClass(rep, rep[u], rep[v], q);
      if (p, q) in e {
        ReachesEdge(e, p, q);
      }
    }
    ReachesKeeps(f, c, x, y);
  }

  lemma WiresAppend(devices: seq<Device>, k: nat, aliasesOnly: bool)
    requires k < |devices|
    ensures Wires(devices[..k + 1], aliasesOnly) ==
      if Joins(devices[k], aliasesOnly) then
        Wires(devices[..k], aliasesOnly) + {(devices[k].a, devices[k].b), (devices[k].b, devices[k].a)}
      else Wires(devices[..k], aliasesOnly)
  {
    var s, t := devices[..k], devices[..k + 1];
    forall x, y ensures (x, y) in Wires(t, aliasesOnly)
      <==> (x, y) in Wires(s, aliasesOnly) || (Joins(devices[k], aliasesOnly) && ((x, y) == (devices[k].a, devices[k].b) || (x, y) == (devices[k].b, devices[k].a)))
    {
      if (x, y) in Wires(s, aliasesOnly) {
        var i :| 0 <= i < k && Joins(s[i], aliasesOnly) && ((x, y) == (s[i].a, s[i].b) || (x, y) == (s[i].b, s[i].a));
        assert t[i] == s[i];
      }
      if (x, y) in Wires(t, aliasesOnly) {
        var i :| 0 <= i <= k && Joins(t[i], aliasesOnly) && ((x, y) == (t[i].a, t[i].b) || (x, y) == (t[i].b, t[i].a));
        if i < k {
          assert s[i] == t[i];
        }
      }
      if Joins(devices[k], aliasesOnly) {
        assert t[k] == devices[k];
      }
    }
  }

  /** A table whose partition is reachability along the wires. */
  ghost predicate Represents(p: Parents, e: set<(Net, Net)>)
    reads p
  {
    p.Valid() && Tracks(p.rep, e)
  }

  lemma RepsClosed(parents: map<Net, Net>, rep: map<Net, Net>, level: map<Net, nat>)
    requires Forest(parents, rep, level)
    ensures parents.Keys == rep.Keys
    ensures forall n :: n in rep ==> rep[n] in rep
  {
    forall n | n in rep ensures rep[n] in rep {
      NodeAt(parents, rep, level, n);
    }
  }

  /** Joins the nets of one device. */
  method JoinDevice(p: Parents, d: Device, compressing: bool, ghost e: set<(Net, Net)>)
    requires Represents(p, e)
    modifies p
    ensures Represents(p, e + {(d.a, d.b), (d.b, d.a)})
  {
    hide Forest, Tracks, SameClasses;
    label start:
    var a := p.Root(d.a, compressing);
    TracksSame(old(p.rep), p.rep, e);
    label middle:
    var b := p.Root(d.b, compressing);
    TracksSame(old@middle(p.rep), p.rep, e);
    RepsClosed(p.parents, p.rep, p.level);
    assert a == p.rep[d.a] && b == p.rep[d.b] by {
      SameClassAt(old(p.rep), old@middle(p.rep), d.a);
      SameClassAt(old@middle(p.rep), p.rep, d.a);
      SameClassAt(old@middle(p.rep), p.rep, d.b);
    }
    TracksJoin(p.rep, e, d.a, d.b);
    p.Join(a, b);
  }

  lemma SameClassAt(before: map<Net, Net>, after: map<Net, Net>, n: Net)
    requires SameClasses(before, after)
    ensures ClassOf(before, n) == ClassOf(after, n)
  {
  }

  /** Joins the nets of all devices of the kind. */
  method JoinDevices(devices: seq<Device>, aliasesOnly: bool) returns (p: Parents)
    ensures fresh(p) && Represents(p, Wires(devices, aliasesOnly))
  {
    hide Forest, Tracks, Wires, SameClasses;
    p := new Parents();
    TracksNothing();
    NoWires(devices, aliasesOnly);
    for k := 0 to |devices|
      invariant fresh(p) && Represents(p, Wires(devices[..k], aliasesOnly))
    {
      WiresAppend(devices, k, aliasesOnly);
      if Joins(devices[k], aliasesOnly) {
        JoinDevice(p, devices[k], aliasesOnly, Wires(devices[..k], aliasesOnly));
      }
    }
    assert devices[..|devices|] == devices;
  }

  lemma NoWires(devices: seq<Device>, aliasesOnly: bool)
    ensures Wires(devices[..0], aliasesOnly) == {}
  {
  }

  /** The roots of the nets of the pins; equal roots mean connected nets. */
  method PinRoots(devices: seq<Device>, pins: seq<Pin>, aliasesOnly: bool) returns (roots: seq<Net>)
    ensures |roots| == |pins|
    ensures forall i, j :: 0 <= i < |pins| && 0 <= j < |pins| ==>
      (roots[i] == roots[j] <==> Reaches(Wires(devices, aliasesOnly), pins[i].net, pins[j].net))
  {
    hide Forest, Wires, SameClasses, RootsKept;
    ghost var e := Wires(devices, aliasesOnly);
    var p := JoinDevices(devices, aliasesOnly);
    ghost var rep := p.rep;
    SameItself(rep);
    roots := [];
    for k := 0 to |pins|
      invariant fresh(p) && p.Valid() && |roots| == k && Tracks(rep, e)
      invariant SameClasses(rep, p.rep)
      invariant forall i :: 0 <= i < k ==> roots[i] == ClassOf(rep, pins[i].net)
    {
      label before:
      var root := p.Root(pins[k].net, aliasesOnly);
      SameClassAt(rep, old@before(p.rep), pins[k].net);
      SameThrough(rep, old@before(p.rep), p.rep);
      roots := roots + [root];
    }
  }

  lemma SameItself(a: map<Net, Net>)
    ensures SameClasses(a, a)
  {
  }

  lemma SameThrough(a: map<Net, Net>, b: map<Net, Net>, c: map<Net, Net>)
    requires SameClasses(a, b) && SameClasses(b, c)
    ensures SameClasses(a, c)
  {
    forall x ensures ClassOf(a, x) == ClassOf(c, x) {
      SameClassAt(a, b, x);
      SameClassAt(b, c, x);
    }
  }

  /** The unordered pairs of pin names whose nets a path of resistors joins. */
  ghost function ConnectedPairs(devices: seq<Device>, pins: seq<Pin>): (pairs: set<multiset<string>>) {
    set i, j | 0 <= i < j < |pins| && Reaches(Wires(devices, false), pins[i].net, pins[j].net) ::
      multiset{pins[i].name, pins[j].name}
  }

  /** Port pairs joined by resistor devices, for any devices in any order. */
  method ResistivePortConnections(devices: seq<Device>, pins: seq<Pin>) returns (pairs: set<multiset<string>>)
    ensures pairs == ConnectedPairs(devices, pins)
  {
    hide Wires, Reaches;
    var roots := PinRoots(devices, pins, false);
    pairs := set i, j | 0 <= i < j < |pins| && roots[i] == roots[j] :: multiset{pins[i].name, pins[j].name};
  }

  function Members(s: seq<Net>): (all: set<Net>)
    ensures |all| <= |s|
    ensures |all| == |s| <==> Distinct(s)
    ensures forall n :: n in all <==> n in s
  {
    if s == [] then {} else
      var rest := Members(s[1..]);
      assert s == [s[0]] + s[1..];
      MembersDistinct(s);
      if s[0] in s[1..] then (assert {s[0]} + rest == rest; {s[0]} + rest) else {s[0]} + rest
  }

  lemma MembersDistinct(s: seq<Net>)
    requires s != []
    ensures Distinct(s) <==> s[0] !in s[1..] && Distinct(s[1..])
  {
    if s[0] !in s[1..] && Distinct(s[1..]) {
      forall i, j | 0 <= i < j < |s| ensures s[i] != s[j] {
        assert s[j] == s[1..][j - 1];
        if i > 0 {
          assert s[i] == s[1..][i - 1];
        }
      }
    }
  }

  /** Two ports label the same conductor: a path of zero-ohm resistors joins their nets. */
  ghost predicate Aliased(devices: seq<Device>, pins: seq<Pin>) {
    exists i, j :: 0 <= i < j < |pins| && Reaches(Wires(devices, true), pins[i].net, pins[j].net)
  }

  method HasAliasedPorts(devices: seq<Device>, pins: seq<Pin>) returns (aliased: bool)
    ensures aliased <==> Aliased(devices, pins)
  {
    hide Wires, Reaches;
    var roots := PinRoots(devices, pins, true);
    aliased := |Members(roots)| != |roots|;
  }

  /** A circuit as it is read back: its devices, its pins in order, and how many subcircuits it calls. */
  datatype Circuit = Circuit(devices: seq<Device>, pins: seq<Pin>, subcircuits: nat)

  datatype Rejection = NoTopology | AliasedPorts | NoCircuit | PortsDiffer | EmptyCircuit | IntroducedConnection

  function UpperChar(c: char): (u: char) {
    if 'a' <= c <= 'z' then (c as int - 32) as char else c
  }

  function Upper(s: string): (u: string) {
    seq(|s|, k requires 0 <= k < |s| => UpperChar(s[k]))
  }

  /** The pins are the declared ports, in order, in upper case. */
  predicate SamePorts(pins: seq<Pin>, declared: seq<string>) {
    |pins| == |declared| && forall k :: 0 <= k < |pins| ==> pins[k].name == Upper(declared[k])
  }

  /** Every resistively connected port pair was already connected in the topology. */
  ghost predicate NothingIntroduced(topology: Circuit, extracted: Circuit) {
    ConnectedPairs(extracted.devices, extracted.pins) <= ConnectedPairs(topology.devices, topology.pins)
  }

  /** The extracted circuit exists, has the declared ports and is not empty. */
  predicate Presented(extracted: Option<Circuit>, declared: seq<string>) {
    && extracted.Some? && SamePorts(extracted.value.pins, declared)
    && (extracted.value.devices != [] || extracted.value.subcircuits > 0)
  }

  ghost predicate PortsAliased(topology: Option<Circuit>) {
    topology.Some? && Aliased(topology.value.devices, topology.value.pins)
  }

  /** The topology exists and no two of its ports label one conductor. */
  ghost predicate Unaliased(topology: Option<Circuit>) {
    topology.Some? && !Aliased(topology.value.devices, topology.value.pins)
  }

  /** The topology keeps its ports apart, and the extraction connects no further ports. */
  ghost predicate KeepsApart(topology: Option<Circuit>, extracted: Option<Circuit>) {
    Unaliased(topology) && extracted.Some? && NothingIntroduced(topology.value, extracted.value)
  }

  /**
   * The interface check of an extraction. It accepts exactly the nonempty circuits with the declared ports in order
   * that, when aliases are to be rejected, have a topology without aliased ports and introduce no resistive connection.
   */
  method AcceptInterface(topology: Option<Circuit>, extracted: Option<Circuit>, declared: seq<string>, rejectAliases: bool)
    returns (r: Result<(), Rejection>)
    ensures r.Ok? <==> Presented(extracted, declared) && (!rejectAliases || KeepsApart(topology, extracted))
    ensures r == Err(AliasedPorts) <==> rejectAliases && PortsAliased(topology)
    ensures r == Err(IntroducedConnection) <==>
      rejectAliases && Unaliased(topology) && Presented(extracted, declared) && !KeepsApart(topology, extracted)
  {
    hide ConnectedPairs, Aliased, Upper;
    if rejectAliases {
      if topology.None? {
        return Err(NoTopology);
      }
      var aliased := HasAliasedPorts(topology.value.devices, topology.value.pins);
      if aliased {
        return Err(AliasedPorts);
      }
    }
    if extracted.None? {
      return Err(NoCircuit);
    }
    if !SamePorts(extracted.value.pins, declared) {
      return Err(PortsDiffer);
    }
    if extracted.value.devices == [] && extracted.value.subcircuits == 0 {
      return Err(EmptyCircuit);
    }
    if rejectAliases {
      var introduced := Introduced(topology.value, extracted.value);
      if introduced != {} {
        return Err(IntroducedConnection);
      }
    }
    return Ok(());
  }

  /** The connected port pairs that the topology does not have. */
  method Introduced(topology: Circuit, extracted: Circuit) returns (pairs: set<multiset<string>>)
    ensures pairs == ConnectedPairs(extracted.devices, extracted.pins) - ConnectedPairs(topology.devices, topology.pins)
    ensures pairs == {} <==> NothingIntroduced(topology, extracted)
  {
    hide ConnectedPairs;
    var after := ResistivePortConnections(extracted.devices, extracted.pins);
    var before := ResistivePortConnections(topology.devices, topology.pins);
    pairs := after - before;
    assert after <= before + pairs;
    assert pairs !! before;
  }
}
