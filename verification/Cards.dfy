/** Netlist cards as text fields. */
module Cards {

  /** One line as its whitespace-separated fields. */
  datatype Line = Line(fields: seq<string>)

  function Lower(c: char): (l: char) {
    if 'A' <= c <= 'Z' then (c as int + 32) as char else c
  }

  /** Names are compared without regard to case. */
  function Fold(s: string): (f: string)
    ensures |f| == |s| && forall k :: 0 <= k < |s| ==> f[k] == Lower(s[k])
  {
    seq(|s|, k requires 0 <= k < |s| => Lower(s[k]))
  }

  lemma FoldConcat(a: string, b: string)
    ensures Fold(a + b) == Fold(a) + Fold(b)
  {
  }
}
