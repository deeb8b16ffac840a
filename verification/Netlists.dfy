/**
 * What a netlist means: element laws over node voltages and branch currents, and Kirchhoff's current law at every
 * node but ground.
 */
module Netlists {
  import opened Prelude

  /**
   * Two-terminal elements carry one current, from `p` through the element to `n`. A device has one current per
   * terminal, flowing into it, and any law relating its terminal voltages, its terminal currents and the currents
   * of the sensors it reads.
   */
  datatype Element<N(!new), E(!new)> =
    | Resistor(name: E, p: N, n: N, ohms: real)
    | Source(name: E, p: N, n: N, volts: real)
    | Controlled(name: E, p: N, n: N, sensor: E, gain: real)
    | Drive(name: E, p: N, n: N, amps: real)
    | Device(name: E, nodes: seq<N>, controls: seq<E>, law: (seq<real>, seq<real>, seq<real>) -> bool)

  datatype Solution<!N, !E> = Solution(v: N -> real, i: (E, nat) -> real)

  ghost function Voltages<N(!new), E(!new)>(nodes: seq<N>, s: Solution<N, E>): (r: seq<real>) {
    seq(|nodes|, k requires 0 <= k < |nodes| => s.v(nodes[k]))
  }

  ghost function Currents<N(!new), E(!new)>(name: E, count: nat, s: Solution<N, E>): (r: seq<real>) {
    seq(count, k requires 0 <= k < count => s.i(name, k))
  }

  ghost function SensorCurrents<N(!new), E(!new)>(controls: seq<E>, s: Solution<N, E>): (r: seq<real>) {
    seq(|controls|, k requires 0 <= k < |controls| => s.i(controls[k], 0))
  }

  ghost predicate Holds<N(!new), E(!new)>(e: Element<N, E>, s: Solution<N, E>) {
    match e
    case Resistor(name, p, n, ohms) => s.v(p) - s.v(n) == ohms * s.i(name, 0)
    case Source(name, p, n, volts) => s.v(p) - s.v(n) == volts
    case Controlled(name, p, n, sensor, gain) => s.v(p) - s.v(n) == gain * s.i(sensor, 0)
    case Drive(name, p, n, amps) => s.i(name, 0) == amps
    case Device(name, nodes, controls, law) =>
      law(Voltages(nodes, s), Currents(name, |nodes|, s), SensorCurrents(controls, s))
  }

  ghost function At<N(!new)>(node: N, place: N, current: real): (r: real) {
    if node == place then current else 0.0
  }

  /** The current that the first `k` terminals take from `node`. */
  ghost function Taken<N(!new), E(!new)>(name: E, nodes: seq<N>, s: Solution<N, E>, node: N, k: nat): (r: real)
    requires k <= |nodes|
  {
    if k == 0 then 0.0 else Taken(name, nodes, s, node, k - 1) + At(node, nodes[k - 1], s.i(name, k - 1))
  }

  /** The current that an element takes from `node`. */
  ghost function Draw<N(!new), E(!new)>(e: Element<N, E>, s: Solution<N, E>, node: N): (r: real) {
    if e.Device? then Taken(e.name, e.nodes, s, node, |e.nodes|)
    else At(node, e.p, s.i(e.name, 0)) - At(node, e.n, s.i(e.name, 0))
  }

  ghost function Total<N(!new), E(!new)>(es: seq<Element<N, E>>, s: Solution<N, E>, node: N): (r: real) {
    if es == [] then 0.0 else Draw(es[0], s, node) + Total(es[1..], s, node)
  }

  ghost predicate AllHold<N(!new), E(!new)>(es: seq<Element<N, E>>, s: Solution<N, E>) {
    forall k :: 0 <= k < |es| ==> Holds(es[k], s)
  }

  /** The circuit of one card, which may mean no element. */
  ghost function Parts<T>(e: Option<T>): (es: seq<T>) {
    if e.Some? then [e.value] else []
  }

  ghost predicate Balanced<N(!new), E(!new)>(es: seq<Element<N, E>>, ground: N, s: Solution<N, E>) {
    forall node :: node != ground ==> Total(es, s, node) == 0.0
  }

  /** `s` is a solution of the circuit. */
  ghost predicate Solves<N(!new), E(!new)>(es: seq<Element<N, E>>, ground: N, s: Solution<N, E>) {
    s.v(ground) == 0.0 && AllHold(es, s) && Balanced(es, ground, s)
  }

  ghost predicate Touches<N(!new), E(!new)>(e: Element<N, E>, node: N) {
    if e.Device? then node in e.nodes else node == e.p || node == e.n
  }

  ghost predicate Senses<N(!new), E(!new)>(e: Element<N, E>, name: E) {
    match e
    case Controlled(_, _, _, sensor, _) => name == sensor
    case Device(_, _, controls, _) => name in controls
    case _ => false
  }

  /** The two solutions agree on all that an element sees of them. */
  ghost predicate Agree<N(!new), E(!new)>(e: Element<N, E>, s: Solution<N, E>, t: Solution<N, E>) {
    && (forall node :: Touches(e, node) ==> s.v(node) == t.v(node))
    && (forall k :: s.i(e.name, k) == t.i(e.name, k))
    && (forall name :: Senses(e, name) ==> s.i(name, 0) == t.i(name, 0))
  }

  lemma {:induction false} TotalConcat<N(!new), E(!new)>(a: seq<Element<N, E>>, b: seq<Element<N, E>>, s: Solution<N, E>, node: N)
    ensures Total(a + b, s, node) == Total(a, s, node) + Total(b, s, node)
  {
    hide Draw;
    if a == [] {
      assert a + b == b;
    } else {
      assert (a + b)[0] == a[0] && (a + b)[1..] == a[1..] + b;
      TotalConcat(a[1..], b, s, node);
    }
  }

  lemma HoldConcat<N(!new), E(!new)>(a: seq<Element<N, E>>, b: seq<Element<N, E>>, s: Solution<N, E>)
    ensures AllHold(a + b, s) <==> AllHold(a, s) && AllHold(b, s)
  {
    hide Holds;
    if AllHold(a + b, s) {
      forall k | 0 <= k < |a| ensures Holds(a[k], s) {
        assert (a + b)[k] == a[k];
      }
      forall k | 0 <= k < |b| ensures Holds(b[k], s) {
        assert (a + b)[|a| + k] == b[k];
      }
    }
  }

  lemma OneHold<N(!new), E(!new)>(e: Element<N, E>, s: Solution<N, E>, node: N)
    ensures AllHold([e], s) <==> Holds(e, s)
    ensures Total([e], s, node) == Draw(e, s, node)
  {
    hide Holds, Draw;
    assert AllHold([e], s) ==> Holds([e][0], s);
    assert [e][1..] == [];
    assert Total([], s, node) == 0.0;
  }

  lemma TwoHold<N(!new), E(!new)>(a: Element<N, E>, b: Element<N, E>, s: Solution<N, E>, node: N)
    ensures AllHold([a, b], s) <==> Holds(a, s) && Holds(b, s)
    ensures Total([a, b], s, node) == Draw(a, s, node) + Draw(b, s, node)
  {
    hide Holds, Draw, AllHold, Total;
    assert [a, b] == [a] + [b];
    HoldConcat([a], [b], s);
    TotalConcat([a], [b], s, node);
    OneHold(a, s, node);
    OneHold(b, s, node);
  }

  lemma {:induction false} TakenAgree<N(!new), E(!new)>(
    name: E, nodes: seq<N>, s: Solution<N, E>, t: Solution<N, E>, node: N, k: nat)
    requires k <= |nodes| && forall m: nat :: s.i(name, m) == t.i(name, m)
    ensures Taken(name, nodes, s, node, k) == Taken(name, nodes, t, node, k)
  {
    if k > 0 {
      TakenAgree(name, nodes, s, t, node, k - 1);
    }
  }

  lemma {:induction false} TakenAbsent<N(!new), E(!new)>(name: E, nodes: seq<N>, s: Solution<N, E>, node: N, k: nat)
    requires k <= |nodes| && node !in nodes
    ensures Taken(name, nodes, s, node, k) == 0.0
  {
    if k > 0 {
      TakenAbsent(name, nodes, s, node, k - 1);
    }
  }

  lemma DrawAgree<N(!new), E(!new)>(e: Element<N, E>, s: Solution<N, E>, t: Solution<N, E>, node: N)
    requires forall k: nat :: s.i(e.name, k) == t.i(e.name, k)
    ensures Draw(e, s, node) == Draw(e, t, node)
  {
    if e.Device? {
      TakenAgree(e.name, e.nodes, s, t, node, |e.nodes|);
    }
  }

  lemma DrawAbsent<N(!new), E(!new)>(e: Element<N, E>, s: Solution<N, E>, node: N)
    requires !Touches(e, node)
    ensures Draw(e, s, node) == 0.0
  {
    if e.Device? {
      TakenAbsent(e.name, e.nodes, s, node, |e.nodes|);
    }
  }

  /** An element's law depends only on what it sees. */
  lemma HoldsAgree<N(!new), E(!new)>(e: Element<N, E>, s: Solution<N, E>, t: Solution<N, E>)
    requires Agree(e, s, t)
    ensures Holds(e, s) <==> Holds(e, t)
  {
    match e
    case Device(name, nodes, controls, law) =>
      forall k | 0 <= k < |nodes| ensures s.v(nodes[k]) == t.v(nodes[k]) {
        assert Touches(e, nodes[k]);
      }
      forall k | 0 <= k < |controls| ensures s.i(controls[k], 0) == t.i(controls[k], 0) {
        assert Senses(e, controls[k]);
      }
      assert Voltages(nodes, s) == Voltages(nodes, t);
      assert Currents(name, |nodes|, s) == Currents(name, |nodes|, t);
      assert SensorCurrents(controls, s) == SensorCurrents(controls, t);
    case Controlled(_, p, n, sensor, _) =>
      assert Touches(e, p) && Touches(e, n) && Senses(e, sensor);
    case Resistor(_, p, n, _) =>
      assert Touches(e, p) && Touches(e, n);
    case Source(_, p, n, _) =>
      assert Touches(e, p) && Touches(e, n);
    case Drive(_, _, _, _) =>
  }

  lemma {:induction false} TotalAgree<N(!new), E(!new)>(es: seq<Element<N, E>>, s: Solution<N, E>, t: Solution<N, E>, node: N)
    requires forall e, k: nat :: e in es ==> s.i(e.name, k) == t.i(e.name, k)
    ensures Total(es, s, node) == Total(es, t, node)
  {
    hide Draw;
    if es != [] {
      assert es[0] in es;
      DrawAgree(es[0], s, t, node);
      TotalAgree(es[1..], s, t, node);
    }
  }

  lemma {:induction false} TotalAbsent<N(!new), E(!new)>(es: seq<Element<N, E>>, s: Solution<N, E>, node: N)
    requires forall e :: e in es ==> !Touches(e, node)
    ensures Total(es, s, node) == 0.0
  {
    hide Draw, Touches;
    if es != [] {
      assert es[0] in es;
      DrawAbsent(es[0], s, node);
      TotalAbsent(es[1..], s, node);
    }
  }
}
