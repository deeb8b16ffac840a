/** The text of generated names: the reserved-prefix check keeps every name of the derived netlist apart. */
module MultiportNames {
  import opened Multiport

  function Digit(n: nat): (c: char)
    requires n < 10
    ensures '0' <= c <= '9'
  {
    (n + 48) as char
  }

  function Decimal(n: nat): (s: string)
    ensures |s| > 0 && forall k :: 0 <= k < |s| ==> '0' <= s[k] <= '9'
  {
    if n < 10 then [Digit(n)] else Decimal(n / 10) + [Digit(n % 10)]
  }

  function Value(s: string): (n: nat)
    requires forall k :: 0 <= k < |s| ==> '0' <= s[k] <= '9'
  {
    if s == "" then 0 else Value(s[..|s| - 1]) * 10 + (s[|s| - 1] as int - 48)
  }

  lemma {:induction false} ValueOfDecimal(n: nat)
    ensures Value(Decimal(n)) == n
  {
    var s := Decimal(n);
    if n < 10 {
      assert s[..|s| - 1] == "";
    } else {
      assert s[..|s| - 1] == Decimal(n / 10);
      ValueOfDecimal(n / 10);
    }
  }

  lemma DecimalInjective(a: nat, b: nat)
    requires Decimal(a) == Decimal(b)
    ensures a == b
  {
    ValueOfDecimal(a);
    ValueOfDecimal(b);
  }

  predicate Numeric(s: string) {
    forall k :: 0 <= k < |s| ==> '0' <= s[k] <= '9'
  }

  lemma Inside(p: string, rest: string, k: nat)
    requires k < |p| && Numeric(p)
    ensures (p + rest)[k] != '_'
  {
    assert (p + rest)[k] == p[k];
  }

  lemma Mark(p: string, rest: string)
    ensures (p + ("_" + rest))[|p|] == '_' && (p + ("_" + rest))[|p| + 1..] == rest && (p + ("_" + rest))[..|p|] == p
  {
  }

  /** The text before the first underscore and the text after it. */
  lemma SplitInjective(p: string, b: string, q: string, d: string)
    requires Numeric(p) && Numeric(q) && p + ("_" + b) == q + ("_" + d)
    ensures p == q && b == d
  {
    hide Numeric;
    Mark(p, b);
    Mark(q, d);
    if |p| < |q| {
      Inside(q, "_" + d, |p|);
    } else if |q| < |p| {
      Inside(p, "_" + b, |q|);
    }
  }

  lemma PairInjective(a: nat, b: nat, c: nat, d: nat)
    requires Decimal(a) + ("_" + Decimal(b)) == Decimal(c) + ("_" + Decimal(d))
    ensures a == c && b == d
  {
    SplitInjective(Decimal(a), Decimal(b), Decimal(c), Decimal(d));
    DecimalInjective(a, c);
    DecimalInjective(b, d);
  }

  function NodeText(n: Node): (s: string) {
    match n
    case Native(text) => text
    case Body(i) => "lb_sheet_body_" + Decimal(i)
    case Sum(i, j) => "lb_sheet_sum_" + (Decimal(i) + ("_" + Decimal(j)))
    case Injected(j) => "lb_sheet_source_" + Decimal(j)
  }

  function NameText(n: Name): (s: string) {
    match n
    case Own(text) => text
    case BodySensor(i) => "Vlb_sheet_body_" + Decimal(i)
    case Stamp(i, j) => "Hlb_sheet_" + (Decimal(i) + ("_" + Decimal(j)))
    case InjectionSensor(j) => "Vlb_sheet_inj_" + Decimal(j)
    case Injection(j) => "Ilb_sheet_inj_" + Decimal(j)
  }

  lemma ReservedAt(prefix: string, rest: string, k: nat)
    requires Occurs(prefix, RESERVED, k)
    ensures Contains(prefix + rest, RESERVED)
  {
    assert (prefix + rest)[k..k + |RESERVED|] == prefix[k..k + |RESERVED|];
    assert Occurs(prefix + rest, RESERVED, k);
  }

  lemma GeneratedNodesReserved(n: Node)
    requires !n.Native?
    ensures Contains(NodeText(n), RESERVED)
  {
    hide Contains, Decimal;
    match n
    case Body(i) => ReservedAt("lb_sheet_body_", Decimal(i), 0);
    case Sum(i, j) => ReservedAt("lb_sheet_sum_", Decimal(i) + ("_" + Decimal(j)), 0);
    case Injected(j) => ReservedAt("lb_sheet_source_", Decimal(j), 0);
  }

  lemma GeneratedNamesReserved(n: Name)
    requires !n.Own?
    ensures Contains(NameText(n), RESERVED)
  {
    hide Contains, Decimal;
    match n
    case BodySensor(i) => ReservedAt("Vlb_sheet_body_", Decimal(i), 1);
    case Stamp(i, j) => ReservedAt("Hlb_sheet_", Decimal(i) + ("_" + Decimal(j)), 1);
    case InjectionSensor(j) => ReservedAt("Vlb_sheet_inj_", Decimal(j), 1);
    case Injection(j) => ReservedAt("Ilb_sheet_inj_", Decimal(j), 1);
  }

  /** A native name free of the reserved text. */
  predicate CleanNode(n: Node) { n.Native? ==> !Contains(n.text, RESERVED) }

  predicate CleanName(n: Name) { n.Own? ==> !Contains(n.text, RESERVED) }

  /** Distinct nodes have distinct texts. */
  lemma NodesApart(a: Node, b: Node)
    requires CleanNode(a) && CleanNode(b) && NodeText(a) == NodeText(b)
    ensures a == b
  {
    hide Contains, Decimal;
    if a.Native? || b.Native? {
      if !a.Native? {
        GeneratedNodesReserved(a);
      } else if !b.Native? {
        GeneratedNodesReserved(b);
      }
    } else {
      var s := NodeText(a);
      assert s[9] == NodeText(b)[9] && s[10] == NodeText(b)[10];
      match a
      case Body(i) =>
        assert s[14..] == Decimal(i) && NodeText(b)[14..] == Decimal(b.i);
        DecimalInjective(i, b.i);
      case Sum(i, j) =>
        assert s[13..] == Decimal(i) + ("_" + Decimal(j)) && NodeText(b)[13..] == Decimal(b.i) + ("_" + Decimal(b.j));
        PairInjective(i, j, b.i, b.j);
      case Injected(j) =>
        assert s[16..] == Decimal(j) && NodeText(b)[16..] == Decimal(b.j);
        DecimalInjective(j, b.j);
    }
  }

  /** Distinct elements have distinct texts. */
  lemma NamesApart(a: Name, b: Name)
    requires CleanName(a) && CleanName(b) && NameText(a) == NameText(b)
    ensures a == b
  {
    hide Contains, Decimal;
    if a.Own? || b.Own? {
      if !a.Own? {
        GeneratedNamesReserved(a);
      } else if !b.Own? {
        GeneratedNamesReserved(b);
      }
    } else {
      var s := NameText(a);
      assert s[0] == NameText(b)[0] && s[10] == NameText(b)[10];
      match a
      case BodySensor(i) =>
        assert s[15..] == Decimal(i) && NameText(b)[15..] == Decimal(b.i);
        DecimalInjective(i, b.i);
      case Stamp(i, j) =>
        assert s[10..] == Decimal(i) + ("_" + Decimal(j)) && NameText(b)[10..] == Decimal(b.i) + ("_" + Decimal(b.j));
        PairInjective(i, j, b.i, b.j);
      case InjectionSensor(j) =>
        assert s[14..] == Decimal(j) && NameText(b)[14..] == Decimal(b.j);
        DecimalInjective(j, b.j);
      case Injection(j) =>
        assert s[14..] == Decimal(j) && NameText(b)[14..] == Decimal(b.j);
        DecimalInjective(j, b.j);
    }
  }
}
