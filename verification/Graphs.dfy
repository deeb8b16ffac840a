/** Finite directed graphs given by their edge set: paths, reachability and cycles. */
module Graphs {

  ghost predicate IsPath<T(!new)>(e: set<(T, T)>, p: seq<T>) {
    && |p| >= 1
    && forall i, j :: 0 <= i && j == i + 1 && j < |p| ==> (p[i], p[j]) in e
  }

  /** `y` is `x` or can be reached from `x` along edges. */
  ghost predicate Reaches<T(!new)>(e: set<(T, T)>, x: T, y: T) {
    exists p :: IsPath(e, p) && p[0] == x && p[|p| - 1] == y
  }

  /** `y` can be reached from `x` along at least one edge. */
  ghost predicate Follows<T(!new)>(e: set<(T, T)>, x: T, y: T) {
    exists z :: (x, z) in e && Reaches(e, z, y)
  }

  ghost predicate Cyclic<T(!new)>(e: set<(T, T)>) {
    exists x :: Follows(e, x, x)
  }

  lemma ReachesSelf<T(!new)>(e: set<(T, T)>, x: T)
    ensures Reaches(e, x, x)
  {
    assert IsPath(e, [x]);
  }

  lemma ReachesTransitive<T(!new)>(e: set<(T, T)>, x: T, y: T, z: T)
    requires Reaches(e, x, y) && Reaches(e, y, z)
    ensures Reaches(e, x, z)
  {
    var p :| IsPath(e, p) && p[0] == x && p[|p| - 1] == y;
    var q :| IsPath(e, q) && q[0] == y && q[|q| - 1] == z;
    var r := p + q[1..];
    assert IsPath(e, r) by {
      forall i, j | 0 <= i && j == i + 1 && j < |r| ensures (r[i], r[j]) in e {
        if i >= |p| - 1 {
          assert r[i] == q[i - (|p| - 1)] && r[j] == q[j - (|p| - 1)];
        }
      }
    }
    assert r[|r| - 1] == z;
  }

  lemma PathAppend<T(!new)>(e: set<(T, T)>, p: seq<T>, y: T)
    requires p != [] ==> IsPath(e, p) && (p[|p| - 1], y) in e
    ensures IsPath(e, p + [y])
  {
  }

  /** An edge from the end of a path back to one of its nodes closes a cycle. */
  lemma PathCloses<T(!new)>(e: set<(T, T)>, p: seq<T>, k: nat)
    requires IsPath(e, p) && k < |p| && (p[|p| - 1], p[k]) in e
    ensures Cyclic(e)
  {
    assert IsPath(e, p[k..]);
    assert Reaches(e, p[k], p[|p| - 1]);
    assert Follows(e, p[|p| - 1], p[|p| - 1]);
  }

  lemma ReachesEdge<T(!new)>(e: set<(T, T)>, x: T, y: T)
    requires (x, y) in e
    ensures Reaches(e, x, y)
  {
    assert IsPath(e, [x, y]);
  }

  lemma ReachesMonotone<T(!new)>(e: set<(T, T)>, f: set<(T, T)>, x: T, y: T)
    requires e <= f && Reaches(e, x, y)
    ensures Reaches(f, x, y)
  {
    var p :| IsPath(e, p) && p[0] == x && p[|p| - 1] == y;
    assert IsPath(f, p);
  }

  /** Reachability splits off its first edge. */
  lemma ReachesUnfold<T(!new)>(e: set<(T, T)>, x: T, y: T)
    ensures Reaches(e, x, y) <==> x == y || Follows(e, x, y)
  {
    if Reaches(e, x, y) {
      var p :| IsPath(e, p) && p[0] == x && p[|p| - 1] == y;
      if |p| > 1 {
        assert IsPath(e, p[1..]);
        assert Reaches(e, p[1], y);
        assert (x, p[1]) in e;
      }
    }
    if x == y {
      ReachesSelf(e, x);
    }
    if Follows(e, x, y) {
      var z :| (x, z) in e && Reaches(e, z, y);
      ReachesEdge(e, x, z);
      ReachesTransitive(e, x, z, y);
    }
  }

  /** What every edge keeps, reachability keeps. */
  lemma {:induction false} ReachesKeeps<T(!new), C(!new)>(e: set<(T, T)>, tag: T -> C, x: T, y: T)
    requires forall a, b :: (a, b) in e ==> tag(a) == tag(b)
    requires Reaches(e, x, y)
    ensures tag(x) == tag(y)
  {
    var p :| IsPath(e, p) && p[0] == x && p[|p| - 1] == y;
    PathKeeps(e, tag, p);
  }

  lemma {:induction false} PathKeeps<T(!new), C(!new)>(e: set<(T, T)>, tag: T -> C, p: seq<T>)
    requires forall a, b :: (a, b) in e ==> tag(a) == tag(b)
    requires IsPath(e, p)
    ensures tag(p[0]) == tag(p[|p| - 1])
  {
    if |p| > 1 {
      assert (p[0], p[1]) in e;
      PathKeeps(e, tag, p[1..]);
    }
  }

  /** A rank that falls along every edge falls along every path. */
  lemma {:induction false} RankFalls<T(!new)>(e: set<(T, T)>, rank: T -> int, p: seq<T>)
    requires forall a, b :: (a, b) in e ==> rank(b) < rank(a)
    requires IsPath(e, p)
    ensures rank(p[|p| - 1]) <= rank(p[0])
  {
    if |p| > 1 {
      assert (p[0], p[1]) in e;
      RankFalls(e, rank, p[1..]);
    }
  }

  lemma RankedIsAcyclic<T(!new)>(e: set<(T, T)>, rank: T -> int)
    requires forall a, b :: (a, b) in e ==> rank(b) < rank(a)
    ensures !Cyclic(e)
  {
    if Cyclic(e) {
      var x :| Follows(e, x, x);
      var z :| (x, z) in e && Reaches(e, z, x);
      var p :| IsPath(e, p) && p[0] == z && p[|p| - 1] == x;
      RankFalls(e, rank, p);
      assert false;
    }
  }

  /** `a` has a successor inside `s`. */
  ghost predicate StaysIn<T(!new)>(e: set<(T, T)>, s: set<T>, a: T) {
    exists b :: b in s && (a, b) in e
  }

  /** From any member, a set that every member can leave only into itself holds arbitrarily long paths. */
  lemma {:induction false} LongPath<T(!new)>(e: set<(T, T)>, s: set<T>, x: T, n: nat) returns (p: seq<T>)
    requires x in s
    requires forall a {:trigger StaysIn(e, s, a)} :: a in s ==> StaysIn(e, s, a)
    ensures IsPath(e, p) && |p| == n + 1 && p[0] == x
    ensures forall i :: 0 <= i < |p| ==> p[i] in s
  {
    if n == 0 {
      p := [x];
    } else {
      assert StaysIn(e, s, x);
      var y :| y in s && (x, y) in e;
      var q := LongPath(e, s, y, n - 1);
      p := [x] + q;
    }
  }

  /** A sequence longer than the set it draws from repeats a value. */
  lemma {:induction false} Pigeonhole<T(!new)>(p: seq<T>, s: set<T>) returns (i: int, j: int)
    requires forall k :: 0 <= k < |p| ==> p[k] in s
    requires |p| > |s|
    ensures 0 <= i < j < |p| && p[i] == p[j]
  {
    var last := p[|p| - 1];
    if k :| 0 <= k < |p| - 1 && p[k] == last {
      i, j := k, |p| - 1;
    } else {
      i, j := Pigeonhole(p[..|p| - 1], s - {last});
    }
  }

  /** A nonempty set whose members all have a successor inside it contains a cycle. */
  lemma NoSinkMeansCycle<T(!new)>(e: set<(T, T)>, s: set<T>)
    requires s != {}
    requires forall a {:trigger StaysIn(e, s, a)} :: a in s ==> StaysIn(e, s, a)
    ensures Cyclic(e)
  {
    var x :| x in s;
    var p := LongPath(e, s, x, |s|);
    var i, j := Pigeonhole(p, s);
    assert IsPath(e, p[i + 1..j + 1]);
    assert Reaches(e, p[i + 1], p[j]);
    assert Follows(e, p[i], p[i]);
  }
}
