/** Last entry of a transient response into its tolerance band, for every real time point. */
module Settling {
  import opened Prelude
  import opened Waveforms

  // ---- The evaluation grid -----------------------------------------------------------------

  /** The samples strictly between two times, in order. */
  function Between(t: seq<real>, lo: real, hi: real): (s: seq<real>)
    ensures forall v :: v in s <==> v in t && lo < v < hi
  {
    if t == [] then [] else
      assert t == [t[0]] + t[1..];
      if lo < t[0] < hi then [t[0]] + Between(t[1..], lo, hi) else Between(t[1..], lo, hi)
  }

  lemma {:induction false} BetweenIncreasing(t: seq<real>, lo: real, hi: real)
    requires Increasing(t)
    ensures Increasing(Between(t, lo, hi))
  {
    if t != [] {
      BetweenIncreasing(t[1..], lo, hi);
      var rest := Between(t[1..], lo, hi);
      forall j | 0 <= j < |rest| ensures t[0] < rest[j] {
        assert rest[j] in t[1..];
      }
    }
  }

  /** A window with the samples inside it. */
  function Grid(t: seq<real>, lo: real, hi: real): (g: seq<real>) {
    [lo] + Between(t, lo, hi) + [hi]
  }

  lemma GridIncreasing(t: seq<real>, lo: real, hi: real)
    requires Increasing(t) && lo < hi
    ensures Increasing(Grid(t, lo, hi))
    ensures forall v :: v in t && lo < v < hi ==> v in Grid(t, lo, hi)
  {
    BetweenIncreasing(t, lo, hi);
    var m, g := Between(t, lo, hi), Grid(t, lo, hi);
    forall i, j | 0 <= i < j < |g| ensures g[i] < g[j] {
      assert 0 < i < |m| + 1 ==> g[i] == m[i - 1] && g[i] in m;
      assert 0 < j < |m| + 1 ==> g[j] == m[j - 1] && g[j] in m;
    }
    forall v | v in t && lo < v < hi ensures v in g {
      var k :| 0 <= k < |m| && m[k] == v;
      assert g[k + 1] == v;
    }
  }

  /** Neighbouring grid times lie in one sample interval. */
  lemma GridSegment(t: seq<real>, lo: real, hi: real, k: nat) returns (i: nat)
    requires |t| >= 2 && Increasing(t) && InSpan(t, lo) && InSpan(t, hi) && lo < hi
    requires k + 1 < |Grid(t, lo, hi)|
    ensures Segment(t, i, Grid(t, lo, hi)[k], Grid(t, lo, hi)[k + 1])
    ensures Grid(t, lo, hi)[k] < Grid(t, lo, hi)[k + 1]
    ensures lo <= Grid(t, lo, hi)[k] && Grid(t, lo, hi)[k + 1] <= hi
  {
    GridIncreasing(t, lo, hi);
    var g := Grid(t, lo, hi);
    assert g[0] == lo && g[|g| - 1] == hi;
    assert k > 0 ==> g[0] < g[k];
    assert k + 1 < |g| - 1 ==> g[k + 1] < g[|g| - 1];
    i := SegmentBelow(t, g[k + 1]);
    if t[i - 1] > g[k] {
      assert t[i - 1] in t;
      NothingBetween(g, k, t[i - 1]);
    }
  }

  lemma NothingBetween(g: seq<real>, k: nat, v: real)
    requires Increasing(g) && v in g && k + 1 < |g|
    ensures !(g[k] < v < g[k + 1])
  {
    var m :| 0 <= m < |g| && g[m] == v;
  }

  // ---- The final value ---------------------------------------------------------------------

  predicate InWindow(t: seq<real>, times: seq<real>) {
    forall k :: 0 <= k < |times| ==> InSpan(t, times[k])
  }

  /** The trapezoid sum over the first `k` steps of a grid. */
  function TrapezoidSum(t: seq<real>, y: seq<real>, times: seq<real>, k: nat): (s: real)
    requires Sampled(t, y) && InWindow(t, times) && k < |times|
  {
    if k == 0 then 0.0 else
      var a, b := times[k - 1], times[k];
      TrapezoidSum(t, y, times, k - 1) + Trapezoid(a, Interp(t, y, a), b, Interp(t, y, b))
  }

  lemma GridInWindow(t: seq<real>, lo: real, hi: real)
    requires |t| >= 2 && Increasing(t) && InSpan(t, lo) && InSpan(t, hi) && lo < hi
    ensures InWindow(t, Grid(t, lo, hi))
  {
    var g := Grid(t, lo, hi);
    forall k | 0 <= k < |g| ensures InSpan(t, g[k]) {
      if 0 < k < |g| - 1 {
        assert g[k] == Between(t, lo, hi)[k - 1] && g[k] in Between(t, lo, hi);
      }
    }
  }

  lemma {:induction false} SumIsArea(t: seq<real>, y: seq<real>, lo: real, hi: real, k: nat)
    requires Sampled(t, y) && InSpan(t, lo) && InSpan(t, hi) && lo < hi && k < |Grid(t, lo, hi)|
    requires InWindow(t, Grid(t, lo, hi))
    ensures TrapezoidSum(t, y, Grid(t, lo, hi), k) == AreaTo(t, y, Grid(t, lo, hi)[k]) - AreaTo(t, y, lo)
  {
    hide AreaTo, Interp, Between, Trapezoid;
    if k > 0 {
      SumIsArea(t, y, lo, hi, k - 1);
      var i := GridSegment(t, lo, hi, k - 1);
      AreaStep(t, y, i, Grid(t, lo, hi)[k - 1], Grid(t, lo, hi)[k]);
    }
  }

  /** The mean over a window as the source sums it. */
  function Mean(t: seq<real>, y: seq<real>, start: real, stop: real): (m: real)
    requires Sampled(t, y) && InSpan(t, start) && InSpan(t, stop) && start < stop
  {
    GridInWindow(t, start, stop);
    var g := Grid(t, start, stop);
    TrapezoidSum(t, y, g, |g| - 1) / (stop - start)
  }

  lemma MeanIsArea(t: seq<real>, y: seq<real>, start: real, stop: real)
    requires Sampled(t, y) && InSpan(t, start) && InSpan(t, stop) && start < stop
    ensures Mean(t, y, start, stop) * (stop - start) == AreaTo(t, y, stop) - AreaTo(t, y, start)
  {
    hide AreaTo, Interp, TrapezoidSum, Between;
    var g := Grid(t, start, stop);
    GridInWindow(t, start, stop);
    SumIsArea(t, y, start, stop, |g| - 1);
    Quotient(TrapezoidSum(t, y, g, |g| - 1), stop - start);
  }

  /** The Darboux sum of one bound per step over the first `k` steps of a partition. */
  function BoundSum(p: seq<real>, bounds: seq<real>, k: nat): (s: real)
    requires |p| == |bounds| + 1 && k <= |bounds|
  {
    if k == 0 then 0.0 else BoundSum(p, bounds, k - 1) + bounds[k - 1] * (p[k] - p[k - 1])
  }

  /** The `k`-th step of the partition with its two bounds on the interpolant. */
  ghost predicate StepBounded(t: seq<real>, y: seq<real>, p: seq<real>, low: seq<real>, high: seq<real>, k: nat)
    requires Sampled(t, y) && |p| == |low| + 1 == |high| + 1 && InWindow(t, p) && 1 <= k < |p|
  {
    p[k - 1] <= p[k] && BoundedOn(t, y, p[k - 1], p[k], low[k - 1], high[k - 1])
  }

  /** `low` and `high` bound the interpolant on every step of the partition. */
  ghost predicate PartitionBounds(t: seq<real>, y: seq<real>, p: seq<real>, low: seq<real>, high: seq<real>)
    requires Sampled(t, y)
  {
    && |p| == |low| + 1 == |high| + 1
    && InWindow(t, p)
    && forall k :: 1 <= k < |p| ==> StepBounded(t, y, p, low, high, k)
  }

  lemma {:induction false} AreaBetweenDarbouxSums(
    t: seq<real>, y: seq<real>, p: seq<real>, low: seq<real>, high: seq<real>, k: nat)
    requires Sampled(t, y) && PartitionBounds(t, y, p, low, high) && k <= |low|
    ensures InSpan(t, p[0]) && InSpan(t, p[k])
    ensures BoundSum(p, low, k) <= AreaTo(t, y, p[k]) - AreaTo(t, y, p[0]) <= BoundSum(p, high, k)
  {
    hide AreaTo, Interp, BoundedOn;
    if k > 0 {
      AreaBetweenDarbouxSums(t, y, p, low, high, k - 1);
      assert StepBounded(t, y, p, low, high, k);
      AreaBounded(t, y, p[k - 1], p[k], low[k - 1], high[k - 1]);
    }
  }

  /**
   * The final value times the window is the integral of the interpolant: it lies between the lower and the
   * upper sum of every partition of the window.
   */
  lemma MeanIsExact(t: seq<real>, y: seq<real>, start: real, stop: real, p: seq<real>, low: seq<real>, high: seq<real>)
    requires Sampled(t, y) && InSpan(t, start) && InSpan(t, stop) && start < stop
    requires PartitionBounds(t, y, p, low, high) && p[0] == start && p[|p| - 1] == stop
    ensures BoundSum(p, low, |low|) <= Mean(t, y, start, stop) * (stop - start) <= BoundSum(p, high, |high|)
  {
    hide AreaTo, Interp, Mean, BoundSum, StepBounded;
    MeanIsArea(t, y, start, stop);
    AreaBetweenDarbouxSums(t, y, p, low, high, |low|);
  }

  // ---- The integral --------------------------------------------------------------------------

  /** A partition of a window with bounds on the interpolant in every step. */
  ghost predicate Bracket(t: seq<real>, y: seq<real>, a: real, b: real, p: seq<real>, low: seq<real>, high: seq<real>)
    requires Sampled(t, y)
  {
    PartitionBounds(t, y, p, low, high) && p[0] == a && p[|p| - 1] == b
  }

  /** Some partition has lower and upper sums at most `eps` apart. */
  ghost predicate Squeezed(t: seq<real>, y: seq<real>, a: real, b: real, eps: real)
    requires Sampled(t, y)
  {
    exists p, low, high :: Bracket(t, y, a, b, p, low, high) && Gap(p, low, high) <= eps
  }

  function Gap(p: seq<real>, low: seq<real>, high: seq<real>): (g: real)
    requires |p| == |low| + 1 == |high| + 1
  {
    BoundSum(p, high, |high|) - BoundSum(p, low, |low|)
  }

  /** Two partitions that meet, one after the other. */
  function Joined(p: seq<real>, q: seq<real>): (r: seq<real>)
    requires q != []
  {
    p + q[1..]
  }

  lemma {:induction false} SumFirst(p: seq<real>, q: seq<real>, a: seq<real>, b: seq<real>, k: nat)
    requires |p| == |a| + 1 && |q| == |b| + 1 && k <= |a|
    ensures BoundSum(Joined(p, q), a + b, k) == BoundSum(p, a, k)
  {
    if k > 0 {
      SumFirst(p, q, a, b, k - 1);
    }
  }

  lemma {:induction false} SumSecond(p: seq<real>, q: seq<real>, a: seq<real>, b: seq<real>, k: nat)
    requires |p| == |a| + 1 && |q| == |b| + 1 && k <= |b| && p[|p| - 1] == q[0]
    ensures BoundSum(Joined(p, q), a + b, |a| + k) == BoundSum(p, a, |a|) + BoundSum(q, b, k)
  {
    if k == 0 {
      SumFirst(p, q, a, b, |a|);
    } else {
      SumSecond(p, q, a, b, k - 1);
      JoinedAt(p, q, k - 1);
      JoinedAt(p, q, k);
      assert (a + b)[|a| + k - 1] == b[k - 1];
    }
  }

  lemma JoinedAt(p: seq<real>, q: seq<real>, k: nat)
    requires p != [] && q != [] && p[|p| - 1] == q[0] && k < |q|
    ensures |Joined(p, q)| == |p| + |q| - 1 && Joined(p, q)[|p| - 1 + k] == q[k]
  {
  }

  lemma JoinedBounds(
    t: seq<real>, y: seq<real>, p: seq<real>, pl: seq<real>, ph: seq<real>, q: seq<real>, ql: seq<real>, qh: seq<real>)
    requires Sampled(t, y) && PartitionBounds(t, y, p, pl, ph) && PartitionBounds(t, y, q, ql, qh) && p[|p| - 1] == q[0]
    ensures PartitionBounds(t, y, Joined(p, q), pl + ql, ph + qh)
  {
    hide BoundedOn, Interp, InSpan;
    var r, low, high := Joined(p, q), pl + ql, ph + qh;
    forall k | 0 <= k < |r| ensures InSpan(t, r[k]) {
      if k >= |p| {
        assert r[k] == q[k - |p| + 1];
      }
    }
    forall k | 1 <= k < |r| ensures StepBounded(t, y, r, low, high, k) {
      if k < |p| {
        assert StepBounded(t, y, p, pl, ph, k);
      } else {
        var m := k - |p| + 1;
        JoinedAt(p, q, m);
        JoinedAt(p, q, m - 1);
        assert StepBounded(t, y, q, ql, qh, m);
      }
    }
  }

  lemma SqueezedJoins(t: seq<real>, y: seq<real>, a: real, b: real, c: real, first: real, second: real)
    requires Sampled(t, y) && Squeezed(t, y, a, b, first) && Squeezed(t, y, b, c, second)
    ensures Squeezed(t, y, a, c, first + second)
  {
    hide StepBounded, InWindow, BoundSum;
    var p, pl, ph :| Bracket(t, y, a, b, p, pl, ph) && Gap(p, pl, ph) <= first;
    var q, ql, qh :| Bracket(t, y, b, c, q, ql, qh) && Gap(q, ql, qh) <= second;
    JoinedBounds(t, y, p, pl, ph, q, ql, qh);
    SumSecond(p, q, pl, ql, |ql|);
    SumSecond(p, q, ph, qh, |qh|);
    JoinedAt(p, q, 0);
    JoinedAt(p, q, |q| - 1);
    assert Joined(p, q)[0] == p[0];
    assert Bracket(t, y, a, c, Joined(p, q), pl + ql, ph + qh);
  }

  /** One step over part of a sample interval. */
  lemma SegmentOnce(t: seq<real>, y: seq<real>, i: nat, a: real, b: real, eps: real)
    requires Sampled(t, y) && Segment(t, i, a, b) && a < b && InSpan(t, a) && InSpan(t, b)
    requires Abs(Interp(t, y, b) - Interp(t, y, a)) * (b - a) <= eps
    ensures Squeezed(t, y, a, b, eps)
  {
    hide Interp, Line, BoundSum, Gap;
    var va, vb := Interp(t, y, a), Interp(t, y, b);
    var lo, hi := Min(va, vb), Max(va, vb);
    var p, low, high := [a, b], [lo], [hi];
    forall x | a <= x <= b ensures InSpan(t, x) && lo <= Interp(t, y, x) <= hi {
      InterpAffine(t, y, i, a, b, x);
      LineEnds(a, va, b, vb);
      LineOrder(a, va, b, vb, a, x);
      LineOrder(a, va, b, vb, x, b);
    }
    assert BoundedOn(t, y, a, b, lo, hi);
    assert StepBounded(t, y, p, low, high, 1);
    assert Bracket(t, y, a, b, p, low, high);
    OneStep(p, low, high);
    Spread(va, vb, b - a);
    assert Gap(p, low, high) <= eps;
  }

  lemma Spread(va: real, vb: real, w: real)
    ensures Max(va, vb) * w - Min(va, vb) * w == Abs(vb - va) * w
  {
    Distributed(Max(va, vb), Min(va, vb), w);
    assert Max(va, vb) - Min(va, vb) == Abs(vb - va);
  }

  lemma OneStep(p: seq<real>, low: seq<real>, high: seq<real>)
    requires |p| == 2 && |low| == 1 == |high|
    ensures Gap(p, low, high) == high[0] * (p[1] - p[0]) - low[0] * (p[1] - p[0])
  {
    assert BoundSum(p, high, 0) == 0.0 == BoundSum(p, low, 0);
  }

  lemma Distributed(u: real, v: real, w: real)
    ensures u * w - v * w == (u - v) * w
  {
  }

  lemma MidValue(a: real, va: real, b: real, vb: real)
    requires a < b
    ensures Line(a, va, b, vb, (a + b) / 2.0) == (va + vb) / 2.0
  {
    hide Scaled;
    var d, w := vb - va, b - a;
    var m := (a + b) / 2.0;
    assert m - a == w / 2.0;
    ScaledIs(d, w / 2.0, w);
    HalfProduct(d, w);
    ProductCancels(w, Scaled(d, w / 2.0, w), d / 2.0);
  }

  lemma HalfProduct(d: real, w: real)
    ensures d * (w / 2.0) == w * (d / 2.0)
  {
  }

  /** Halving a step quarters the product of its width and its change in value. */
  lemma Quarter(d: real, w: real, n: nat, eps: real)
    requires Abs(d) * w <= (n as real) * eps && eps > 0.0 && n >= 2
    ensures Abs(d / 2.0) * (w / 2.0) <= (((n + 1) / 2) as real) * (eps / 2.0)
  {
    var m := (n + 1) / 2;
    assert 2.0 * (m as real) >= n as real;
    ProductOrder(eps, n as real, 2.0 * (m as real));
    assert Abs(d / 2.0) == Abs(d) / 2.0;
    QuarterProduct(Abs(d), w);
    ScaleHalf(m as real, eps);
  }

  lemma QuarterProduct(d: real, w: real)
    ensures d / 2.0 * (w / 2.0) == d * w / 4.0
  {
  }

  lemma ScaleHalf(m: real, eps: real)
    ensures m * (eps / 2.0) == eps * (2.0 * m) / 4.0
  {
  }

  /** Within a sample interval the sums can be brought as close as wanted. */
  lemma {:induction false} SegmentSqueezed(t: seq<real>, y: seq<real>, i: nat, a: real, b: real, eps: real, n: nat)
    requires Sampled(t, y) && Segment(t, i, a, b) && a < b && InSpan(t, a) && InSpan(t, b) && eps > 0.0
    requires Abs(Interp(t, y, b) - Interp(t, y, a)) * (b - a) <= (n as real) * eps
    ensures Squeezed(t, y, a, b, eps)
    decreases n
  {
    hide Interp, Line, Squeezed;
    if n <= 1 {
      AtMostOne(n, eps);
      SegmentOnce(t, y, i, a, b, eps);
    } else {
      var m := (a + b) / 2.0;
      var va, vb := Interp(t, y, a), Interp(t, y, b);
      InterpAffine(t, y, i, a, b, m);
      MidValue(a, va, b, vb);
      var vm := Interp(t, y, m);
      assert vm - va == (vb - va) / 2.0 && vb - vm == (vb - va) / 2.0;
      assert m - a == (b - a) / 2.0 && b - m == (b - a) / 2.0;
      Quarter(vb - va, b - a, n, eps);
      SegmentSqueezed(t, y, i, a, m, eps / 2.0, (n + 1) / 2);
      SegmentSqueezed(t, y, i, m, b, eps / 2.0, (n + 1) / 2);
      SqueezedJoins(t, y, a, m, b, eps / 2.0, eps / 2.0);
    }
  }

  lemma AtMostOne(n: nat, eps: real)
    requires n <= 1 && eps > 0.0
    ensures (n as real) * eps <= eps
  {
  }

  lemma Enough(g: real, eps: real) returns (n: nat)
    requires g >= 0.0 && eps > 0.0
    ensures g <= (n as real) * eps
  {
    var q := g / eps;
    Quotient(g, eps);
    if q < 0.0 {
      ProductStrict(eps, q, 0.0);
    }
    n := if q < 0.0 then 0 else q.Floor + 1;
    ProductOrder(eps, q, n as real);
  }

  lemma NonnegativeProduct(u: real, w: real)
    requires u >= 0.0 && w >= 0.0
    ensures u * w >= 0.0
  {
  }

  /** Lower and upper sums come as close as wanted over any window. */
  lemma {:induction false} AlwaysSqueezed(t: seq<real>, y: seq<real>, a: real, b: real, eps: real)
    requires Sampled(t, y) && InSpan(t, a) && InSpan(t, b) && a <= b && eps > 0.0
    ensures Squeezed(t, y, a, b, eps)
    decreases Bisect(t, b)
  {
    hide Interp, Squeezed;
    if a == b {
      NothingToSqueeze(t, y, a, eps);
    } else {
      var i := SegmentBelow(t, b);
      var left := t[i - 1];
      var from := if left <= a then a else left;
      var rest := if left <= a then eps else eps / 2.0;
      var g := Abs(Interp(t, y, b) - Interp(t, y, from)) * (b - from);
      NonnegativeProduct(Abs(Interp(t, y, b) - Interp(t, y, from)), b - from);
      var n := Enough(g, rest);
      SegmentSqueezed(t, y, i, from, b, rest, n);
      if left > a {
        AlwaysSqueezed(t, y, a, left, eps / 2.0);
        SqueezedJoins(t, y, a, left, b, eps / 2.0, eps / 2.0);
      }
    }
  }

  lemma NothingToSqueeze(t: seq<real>, y: seq<real>, a: real, eps: real)
    requires Sampled(t, y) && InSpan(t, a) && eps > 0.0
    ensures Squeezed(t, y, a, a, eps)
  {
    assert Bracket(t, y, a, a, [a], [], []);
    assert Gap([a], [], []) == 0.0;
  }

  /** The number between the lower and the upper sum of every partition of the window. */
  ghost predicate IsIntegral(t: seq<real>, y: seq<real>, a: real, b: real, v: real)
    requires Sampled(t, y)
  {
    forall p, low, high :: Bracket(t, y, a, b, p, low, high) ==> BoundSum(p, low, |low|) <= v <= BoundSum(p, high, |high|)
  }

  lemma CloseToMean(t: seq<real>, y: seq<real>, start: real, stop: real, v: real, eps: real)
    requires Sampled(t, y) && InSpan(t, start) && InSpan(t, stop) && start < stop && eps > 0.0
    requires IsIntegral(t, y, start, stop, v)
    ensures Abs(v - Mean(t, y, start, stop) * (stop - start)) <= eps
  {
    hide Mean, StepBounded, InWindow;
    AlwaysSqueezed(t, y, start, stop, eps);
    var p, low, high :| Bracket(t, y, start, stop, p, low, high) && Gap(p, low, high) <= eps;
    MeanIsExact(t, y, start, stop, p, low, high);
  }

  /** The final value times the window is the integral of the interpolant over it: that number and no other. */
  lemma MeanIsIntegral(t: seq<real>, y: seq<real>, start: real, stop: real, v: real)
    requires Sampled(t, y) && InSpan(t, start) && InSpan(t, stop) && start < stop
    ensures IsIntegral(t, y, start, stop, v) <==> v == Mean(t, y, start, stop) * (stop - start)
  {
    hide Mean, StepBounded, InWindow, BoundSum;
    var m := Mean(t, y, start, stop) * (stop - start);
    forall p, low, high | Bracket(t, y, start, stop, p, low, high)
      ensures BoundSum(p, low, |low|) <= m <= BoundSum(p, high, |high|)
    {
      MeanIsExact(t, y, start, stop, p, low, high);
    }
    if IsIntegral(t, y, start, stop, v) && v != m {
      CloseToMean(t, y, start, stop, v, Abs(v - m) / 2.0);
    }
  }

  // ---- The settling point ------------------------------------------------------------------

  /** The distance of the waveform from the final value. */
  function Deviation(t: seq<real>, y: seq<real>, final: real, x: real): (d: real)
    requires Sampled(t, y) && InSpan(t, x)
  {
    Abs(Interp(t, y, x) - final)
  }

  /** Some time after `s` and up to `stop` is out of the tolerance band. */
  ghost predicate LeavesAfter(t: seq<real>, y: seq<real>, final: real, tolerance: real, s: real, stop: real)
    requires Sampled(t, y)
  {
    exists x :: s < x <= stop && InSpan(t, x) && Deviation(t, y, final, x) > tolerance
  }

  /**
   * `last` is the exact last entry into the band: all later times up to `stop` are inside, no earlier time
   * has that property, and at `last` the waveform is at or beyond the edge of the band unless it never left.
   */
  ghost predicate LastEntry(t: seq<real>, y: seq<real>, final: real, tolerance: real, edge: real, stop: real, last: real)
    requires Sampled(t, y) && InSpan(t, edge) && InSpan(t, stop)
  {
    && edge <= last <= stop
    && !LeavesAfter(t, y, final, tolerance, last, stop)
    && (if last == edge then Deviation(t, y, final, edge) <= tolerance else Deviation(t, y, final, last) >= tolerance)
    && forall s :: edge <= s < last ==> LeavesAfter(t, y, final, tolerance, s, stop)
  }

  /** There is only one last entry. */
  lemma LastEntryUnique(
    t: seq<real>, y: seq<real>, final: real, tolerance: real, edge: real, stop: real, a: real, b: real)
    requires Sampled(t, y) && InSpan(t, edge) && InSpan(t, stop)
    requires LastEntry(t, y, final, tolerance, edge, stop, a) && LastEntry(t, y, final, tolerance, edge, stop, b)
    ensures a == b
  {
    hide LeavesAfter;
  }

  /** The edge of the band on the side of `va`. */
  function Boundary(va: real, final: real, tolerance: real): (v: real) {
    if va - final >= 0.0 then final + tolerance else final - tolerance
  }

  /** Where the line from `(a, va)` to `(b, vb)` crosses the edge of the band on the side of `va`. */
  function Crossing(a: real, va: real, b: real, vb: real, final: real, tolerance: real): (x: real)
    requires va != vb
  {
    a + Scaled(b - a, Boundary(va, final, tolerance) - va, vb - va)
  }

  /** The last-entry candidate after one more step. */
  function NextLast(last: real, a: real, va: real, b: real, vb: real, final: real, tolerance: real): (n: real)
    requires tolerance > 0.0
  {
    if Abs(vb - final) > tolerance then b
    else if Abs(va - final) > tolerance then Crossing(a, va, b, vb, final, tolerance)
    else last
  }

  /** A line that enters the band on a step crosses its edge once: before the crossing it is outside, after it inside. */
  lemma CrossingFacts(a: real, va: real, b: real, vb: real, final: real, tolerance: real, x: real)
    requires a < b && tolerance > 0.0 && Abs(va - final) > tolerance >= Abs(vb - final) && a <= x <= b
    ensures va != vb && a < Crossing(a, va, b, vb, final, tolerance) <= b
    ensures x < Crossing(a, va, b, vb, final, tolerance) <==> Abs(Line(a, va, b, vb, x) - final) > tolerance
    ensures x == Crossing(a, va, b, vb, final, tolerance) ==> Abs(Line(a, va, b, vb, x) - final) == tolerance
  {
    hide Line, Scaled;
    var c, edge := Crossing(a, va, b, vb, final, tolerance), Boundary(va, final, tolerance);
    LinePoint(a, va, b, vb, edge - va);
    LineEnds(a, va, b, vb);
    CrossingOrder(a, va, b, vb, c, edge, final, tolerance, x);
  }

  lemma CrossingOrder(a: real, va: real, b: real, vb: real, c: real, edge: real, final: real, tolerance: real, x: real)
    requires a < b && tolerance > 0.0 && Abs(va - final) > tolerance >= Abs(vb - final) && a <= x <= b && a < c <= b
    requires edge == Boundary(va, final, tolerance) == Line(a, va, b, vb, c) && Line(a, va, b, vb, b) == vb
    ensures x < c <==> Abs(Line(a, va, b, vb, x) - final) > tolerance
    ensures x == c ==> Abs(Line(a, va, b, vb, x) - final) == tolerance
  {
    hide Line;
    if x < c {
      LineStrict(a, va, b, vb, x, c);
    } else {
      LineOrder(a, va, b, vb, c, x);
      LineOrder(a, va, b, vb, x, b);
    }
  }

  lemma Leaves(t: seq<real>, y: seq<real>, final: real, tolerance: real, s: real, x: real, stop: real)
    requires Sampled(t, y) && s < x <= stop && InSpan(t, x) && Deviation(t, y, final, x) > tolerance
    ensures LeavesAfter(t, y, final, tolerance, s, stop)
  {
  }

  lemma StepOutside(t: seq<real>, y: seq<real>, final: real, tolerance: real, edge: real, b: real)
    requires Sampled(t, y) && InSpan(t, edge) && InSpan(t, b) && edge < b
    requires Deviation(t, y, final, b) > tolerance
    ensures LastEntry(t, y, final, tolerance, edge, b, b)
  {
    hide Interp;
    forall s | edge <= s < b ensures LeavesAfter(t, y, final, tolerance, s, b) {
      Leaves(t, y, final, tolerance, s, b, b);
    }
  }

  lemma StepCrossing(t: seq<real>, y: seq<real>, i: nat, final: real, tolerance: real, edge: real, a: real, b: real)
    requires Sampled(t, y) && Segment(t, i, a, b) && a < b && edge <= a && InSpan(t, edge) && InSpan(t, a) && InSpan(t, b)
    requires tolerance > 0.0 && Deviation(t, y, final, a) > tolerance >= Deviation(t, y, final, b)
    ensures Interp(t, y, a) != Interp(t, y, b)
    ensures LastEntry(t, y, final, tolerance, edge, b, Crossing(a, Interp(t, y, a), b, Interp(t, y, b), final, tolerance))
  {
    hide Interp, Line, Crossing, Scaled;
    var va, vb := Interp(t, y, a), Interp(t, y, b);
    CrossingFacts(a, va, b, vb, final, tolerance, a);
    var c := Crossing(a, va, b, vb, final, tolerance);
    forall x | a <= x <= b
      ensures InSpan(t, x)
      ensures x < c <==> Deviation(t, y, final, x) > tolerance
      ensures x == c ==> Deviation(t, y, final, x) == tolerance
    {
      InterpAffine(t, y, i, a, b, x);
      CrossingFacts(a, va, b, vb, final, tolerance, x);
    }
    forall s | edge <= s < c ensures LeavesAfter(t, y, final, tolerance, s, b) {
      var x := (Max(s, a) + c) / 2.0;
      Leaves(t, y, final, tolerance, s, x, b);
    }
    assert a <= c <= b;
  }

  lemma StepInside(t: seq<real>, y: seq<real>, i: nat, final: real, tolerance: real, edge: real, a: real, b: real, last: real)
    requires Sampled(t, y) && Segment(t, i, a, b) && a < b && edge <= a && InSpan(t, edge) && InSpan(t, a) && InSpan(t, b)
    requires Deviation(t, y, final, a) <= tolerance && Deviation(t, y, final, b) <= tolerance
    requires (a == edge && last == edge) || LastEntry(t, y, final, tolerance, edge, a, last)
    ensures LastEntry(t, y, final, tolerance, edge, b, last)
  {
    hide Interp, Line, Scaled;
    forall x | a <= x <= b ensures InSpan(t, x) && Deviation(t, y, final, x) <= tolerance {
      InterpAffine(t, y, i, a, b, x);
      LineBand(a, Interp(t, y, a), b, Interp(t, y, b), final, tolerance, x);
    }
    forall x | last < x <= b && InSpan(t, x) ensures Deviation(t, y, final, x) <= tolerance {
      if x < a && Deviation(t, y, final, x) > tolerance {
        Leaves(t, y, final, tolerance, last, x, a);
      }
    }
    forall s | edge <= s < last ensures LeavesAfter(t, y, final, tolerance, s, b) {
      assert LeavesAfter(t, y, final, tolerance, s, a);
      var x :| s < x <= a && InSpan(t, x) && Deviation(t, y, final, x) > tolerance;
      Leaves(t, y, final, tolerance, s, x, b);
    }
  }

  /** A line whose ends are inside the band stays inside. */
  lemma LineBand(a: real, va: real, b: real, vb: real, final: real, tolerance: real, x: real)
    requires a < b && a <= x <= b && Abs(va - final) <= tolerance && Abs(vb - final) <= tolerance
    ensures Abs(Line(a, va, b, vb, x) - final) <= tolerance
  {
    hide Line;
    LineEnds(a, va, b, vb);
    LineOrder(a, va, b, vb, a, x);
    LineOrder(a, va, b, vb, x, b);
  }

  /** One step of the loop keeps the exact last entry. */
  lemma SettleStep(t: seq<real>, y: seq<real>, i: nat, final: real, tolerance: real, edge: real, a: real, b: real, last: real)
    requires Sampled(t, y) && Segment(t, i, a, b) && a < b && edge <= a && InSpan(t, edge) && InSpan(t, a) && InSpan(t, b)
    requires tolerance > 0.0
    requires (a == edge && last == edge) || LastEntry(t, y, final, tolerance, edge, a, last)
    ensures LastEntry(t, y, final, tolerance, edge, b, NextLast(last, a, Interp(t, y, a), b, Interp(t, y, b), final, tolerance))
  {
    hide Interp, LastEntry, Crossing, Scaled;
    if Deviation(t, y, final, b) > tolerance {
      StepOutside(t, y, final, tolerance, edge, b);
    } else if Deviation(t, y, final, a) > tolerance {
      StepCrossing(t, y, i, final, tolerance, edge, a, b);
    } else {
      StepInside(t, y, i, final, tolerance, edge, a, b, last);
    }
  }

  /** The loop over the grid from the trigger edge to the end of the window. */
  method LastBandEntry(t: seq<real>, y: seq<real>, edge: real, stop: real, final: real, tolerance: real) returns (last: real)
    requires Sampled(t, y) && InSpan(t, edge) && InSpan(t, stop) && edge < stop && tolerance > 0.0
    ensures LastEntry(t, y, final, tolerance, edge, stop, last)
  {
    hide Interp, LastEntry, Between, NextLast;
    var times := Grid(t, edge, stop);
    GridInWindow(t, edge, stop);
    last := edge;
    for k := 0 to |times| - 1
      invariant InSpan(t, times[k])
      invariant k == 0 ==> last == edge
      invariant k > 0 ==> LastEntry(t, y, final, tolerance, edge, times[k], last)
    {
      ghost var i := GridSegment(t, edge, stop, k);
      SettleStep(t, y, i, final, tolerance, edge, times[k], times[k + 1], last);
      last := NextLast(last, times[k], Interp(t, y, times[k]), times[k + 1], Interp(t, y, times[k + 1]), final, tolerance);
    }
  }

  /** A waveform that ends outside the band is reported as settling at the very end of the window. */
  lemma UnsettledEndsAtStop(t: seq<real>, y: seq<real>, final: real, tolerance: real, edge: real, stop: real, last: real)
    requires Sampled(t, y) && InSpan(t, edge) && InSpan(t, stop) && edge < stop
    requires LastEntry(t, y, final, tolerance, edge, stop, last)
    ensures Deviation(t, y, final, stop) > tolerance ==> last == stop
    ensures last == stop ==> Deviation(t, y, final, stop) >= tolerance
  {
    hide Interp;
    if last < stop && Deviation(t, y, final, stop) > tolerance {
      Leaves(t, y, final, tolerance, last, stop, stop);
    }
  }

  /** The crossing is at the end of the step exactly when the line ends on the edge of the band it comes from. */
  lemma CrossingAtEnd(a: real, va: real, b: real, vb: real, final: real, tolerance: real)
    requires a < b && tolerance > 0.0 && Abs(va - final) > tolerance >= Abs(vb - final) && va != vb
    ensures Crossing(a, va, b, vb, final, tolerance) == b <==> vb == Boundary(va, final, tolerance)
  {
    hide Scaled, Boundary;
    var h := Boundary(va, final, tolerance) - va;
    if h == vb - va {
      ScaledEnds(b - a, vb - va);
    }
    if Crossing(a, va, b, vb, final, tolerance) == b {
      ScaledIs(b - a, h, vb - va);
      ProductCancels(b - a, h, vb - va);
    }
  }

  /** A waveform inside the band over the last step has entered it before. */
  lemma InsideBefore(
    t: seq<real>, y: seq<real>, i: nat, final: real, tolerance: real, edge: real, a: real, stop: real, last: real)
    requires Sampled(t, y) && Segment(t, i, a, stop) && a < stop && edge <= a && InSpan(t, edge) && InSpan(t, a) && InSpan(t, stop)
    requires Deviation(t, y, final, a) <= tolerance && Deviation(t, y, final, stop) <= tolerance
    requires LastEntry(t, y, final, tolerance, edge, stop, last)
    ensures last <= a
  {
    hide Interp, Line;
    forall x | a < x <= stop ensures InSpan(t, x) && Deviation(t, y, final, x) <= tolerance {
      InterpAffine(t, y, i, a, stop, x);
      LineBand(a, Interp(t, y, a), stop, Interp(t, y, stop), final, tolerance, x);
    }
    assert !LeavesAfter(t, y, final, tolerance, a, stop);
  }

  /**
   * The end of the window is reported as the settling point if and only if the waveform is outside the band there, or
   * it comes from outside and meets, at the very end, the edge of the band that it comes from. Any time `a` in the
   * last sample interval decides from where it comes.
   */
  lemma SettlesAtStopExactly(
    t: seq<real>, y: seq<real>, i: nat, final: real, tolerance: real, edge: real, a: real, stop: real, last: real)
    requires Sampled(t, y) && Segment(t, i, a, stop) && a < stop && edge <= a && InSpan(t, edge) && InSpan(t, a) && InSpan(t, stop)
    requires tolerance > 0.0 && LastEntry(t, y, final, tolerance, edge, stop, last)
    ensures last == stop <==>
      || Deviation(t, y, final, stop) > tolerance
      || (Deviation(t, y, final, a) > tolerance && Interp(t, y, stop) == Boundary(Interp(t, y, a), final, tolerance))
  {
    hide Interp, LastEntry, Crossing, Boundary, LeavesAfter;
    if Deviation(t, y, final, stop) > tolerance {
      UnsettledEndsAtStop(t, y, final, tolerance, edge, stop, last);
    } else if Deviation(t, y, final, a) > tolerance {
      StepCrossing(t, y, i, final, tolerance, edge, a, stop);
      CrossingAtEnd(a, Interp(t, y, a), stop, Interp(t, y, stop), final, tolerance);
      LastEntryUnique(t, y, final, tolerance, edge, stop, last,
        Crossing(a, Interp(t, y, a), stop, Interp(t, y, stop), final, tolerance));
    } else {
      InsideBefore(t, y, i, final, tolerance, edge, a, stop, last);
    }
  }

  // ---- The measurement ---------------------------------------------------------------------

  datatype Settings = Settings(
    threshold: real, edgeIndex: int, start: real, stop: real, tolerance: real, maxStep: real)

  datatype Response = Response(settling: real, final: real)

  datatype SettlingError = IncompleteSamples | BadTimeGrid | BadWindow | MissingEdge | WindowBeforeTrigger

  predicate GridStep(t: seq<real>, maxStep: real, i: nat)
    requires 1 <= i < |t|
  {
    t[i - 1] < t[i] && t[i] - t[i - 1] <= maxStep * 1.000001
  }

  predicate RegularGrid(t: seq<real>, maxStep: real) {
    forall i :: 1 <= i < |t| ==> GridStep(t, maxStep, i)
  }

  lemma {:induction false} RegularIncreasing(t: seq<real>, maxStep: real, i: nat, j: nat)
    requires RegularGrid(t, maxStep) && i < j < |t|
    ensures t[i] < t[j]
  {
    assert GridStep(t, maxStep, j);
    if i < j - 1 {
      RegularIncreasing(t, maxStep, i, j - 1);
    }
  }

  predicate Rises(clock: seq<real>, threshold: real, i: nat)
    requires 1 <= i < |clock|
  {
    clock[i - 1] < threshold <= clock[i]
  }

  /** Where the clock reaches the threshold in a rising interval. */
  function EdgeTime(t: seq<real>, clock: seq<real>, threshold: real, i: nat): (x: real)
    requires |t| == |clock| && 1 <= i < |t| && Rises(clock, threshold, i)
  {
    t[i - 1] + Scaled(t[i] - t[i - 1], threshold - clock[i - 1], clock[i] - clock[i - 1])
  }

  /** The rising edges of the first `k` intervals. */
  function Edges(t: seq<real>, clock: seq<real>, threshold: real, k: nat): (e: seq<real>)
    requires |t| == |clock| && k < |t|
  {
    if k == 0 then []
    else if Rises(clock, threshold, k) then Edges(t, clock, threshold, k - 1) + [EdgeTime(t, clock, threshold, k)]
    else Edges(t, clock, threshold, k - 1)
  }

  /** `x` is the moment of a rising edge: the interpolated clock meets the threshold there for the first time in its interval. */
  ghost predicate RisingEdge(t: seq<real>, clock: seq<real>, threshold: real, i: nat, x: real)
    requires Sampled(t, clock)
  {
    && 1 <= i < |t| && t[i - 1] < x <= t[i]
    && InSpan(t, x) && Interp(t, clock, x) == threshold
    && forall z :: t[i - 1] <= z < x ==> InSpan(t, z) && Interp(t, clock, z) < threshold
  }

  lemma EdgeIsRising(t: seq<real>, clock: seq<real>, threshold: real, i: nat)
    requires Sampled(t, clock) && 1 <= i < |t| && Rises(clock, threshold, i)
    ensures RisingEdge(t, clock, threshold, i, EdgeTime(t, clock, threshold, i))
  {
    hide Interp, EdgeTime, Line, Scaled;
    var a, b, va, vb := t[i - 1], t[i], clock[i - 1], clock[i];
    var x := EdgeTime(t, clock, threshold, i);
    EdgeTimeIs(t, clock, threshold, i);
    LinePoint(a, va, b, vb, threshold - va);
    InterpIsLine(t, clock, i, x);
    forall z | a <= z < x ensures InSpan(t, z) && Interp(t, clock, z) < threshold {
      InterpIsLine(t, clock, i, z);
      LineStrict(a, va, b, vb, z, x);
    }
  }

  lemma EdgeTimeIs(t: seq<real>, clock: seq<real>, threshold: real, i: nat)
    requires |t| == |clock| && 1 <= i < |t| && Rises(clock, threshold, i)
    ensures EdgeTime(t, clock, threshold, i)
         == t[i - 1] + Scaled(t[i] - t[i - 1], threshold - clock[i - 1], clock[i] - clock[i - 1])
  {
  }

  /** Every listed edge is a rising edge of the clock. */
  lemma {:induction false} EdgesRise(t: seq<real>, clock: seq<real>, threshold: real, k: nat, n: nat) returns (i: nat)
    requires Sampled(t, clock) && k < |t| && n < |Edges(t, clock, threshold, k)|
    ensures RisingEdge(t, clock, threshold, i, Edges(t, clock, threshold, k)[n]) && i <= k
  {
    hide Interp, EdgeTime, RisingEdge;
    if Rises(clock, threshold, k) && n == |Edges(t, clock, threshold, k)| - 1 {
      i := k;
      EdgeIsRising(t, clock, threshold, k);
    } else {
      i := EdgesRise(t, clock, threshold, k - 1, n);
    }
  }

  /** How many intervals up to `k` rise. */
  function Rising(clock: seq<real>, threshold: real, k: nat): (n: nat)
    requires k < |clock| || k == 0
  {
    if k == 0 then 0 else Rising(clock, threshold, k - 1) + (if Rises(clock, threshold, k) then 1 else 0)
  }

  /** The edge with a given index is the edge of the interval that many rising intervals precede. */
  lemma {:induction false} EdgeIndexed(t: seq<real>, clock: seq<real>, threshold: real, k: nat, i: nat)
    requires |t| == |clock| && 1 <= i <= k < |t| && Rises(clock, threshold, i)
    ensures Rising(clock, threshold, i - 1) < |Edges(t, clock, threshold, k)|
    ensures Edges(t, clock, threshold, k)[Rising(clock, threshold, i - 1)] == EdgeTime(t, clock, threshold, i)
  {
    hide EdgeTime;
    if i < k {
      EdgeIndexed(t, clock, threshold, k - 1, i);
    } else {
      EdgesCounted(t, clock, threshold, k - 1);
    }
  }

  lemma {:induction false} EdgesCounted(t: seq<real>, clock: seq<real>, threshold: real, k: nat)
    requires |t| == |clock| && k < |t|
    ensures |Edges(t, clock, threshold, k)| == Rising(clock, threshold, k)
  {
    if k > 0 {
      EdgesCounted(t, clock, threshold, k - 1);
    }
  }

  /** The differential output. */
  function Difference(positive: seq<real>, negative: seq<real>): (y: seq<real>)
    requires |positive| == |negative|
    ensures |y| == |positive| && forall i :: 0 <= i < |y| ==> y[i] == positive[i] - negative[i]
  {
    seq(|positive|, i requires 0 <= i < |positive| => positive[i] - negative[i])
  }

  predicate WindowValid(t: seq<real>, s: Settings) {
    |t| >= 3 && t[0] < s.start < s.stop <= t[|t| - 1] && s.tolerance > 0.0
  }

  predicate EdgeSelected(t: seq<real>, clock: seq<real>, s: Settings)
    requires |t| == |clock| >= 1
  {
    1 <= s.edgeIndex <= |Edges(t, clock, s.threshold, |t| - 1)|
  }

  /** The samples and settings that the measurement accepts. */
  predicate Measurable(t: seq<real>, positive: seq<real>, negative: seq<real>, clock: seq<real>, s: Settings) {
    && |t| >= 3 && |positive| == |t| && |negative| == |t| && |clock| == |t|
    && RegularGrid(t, s.maxStep) && WindowValid(t, s)
    && EdgeSelected(t, clock, s) && Edges(t, clock, s.threshold, |t| - 1)[s.edgeIndex - 1] < s.start
  }

  lemma MeasurableSampled(t: seq<real>, y: seq<real>, s: Settings)
    requires |t| == |y| && RegularGrid(t, s.maxStep) && WindowValid(t, s)
    ensures Sampled(t, y) && InSpan(t, s.start) && InSpan(t, s.stop)
  {
    forall i, j | 0 <= i < j < |t| ensures t[i] < t[j] {
      RegularIncreasing(t, s.maxStep, i, j);
    }
  }

  /** Settling time after a chosen trigger edge and final value over a reference window. */
  method TransientMeasurements(t: seq<real>, positive: seq<real>, negative: seq<real>, clock: seq<real>, s: Settings)
    returns (r: Result<Response, SettlingError>)
    ensures r.Ok? <==> Measurable(t, positive, negative, clock, s)
    ensures r.Ok? ==>
      var y, edge := Difference(positive, negative), Edges(t, clock, s.threshold, |t| - 1)[s.edgeIndex - 1];
      && |y| == |t| && (forall i :: 0 <= i < |t| ==> y[i] == positive[i] - negative[i])
      && Sampled(t, y) && InSpan(t, s.start) && InSpan(t, s.stop) && InSpan(t, edge)
      && r.value.final == Mean(t, y, s.start, s.stop)
      && LastEntry(t, y, r.value.final, s.tolerance, edge, s.stop, edge + r.value.settling)
  {
    hide RegularGrid, LastEntry, Mean, Edges, Sampled;
    if |t| < 3 || |positive| != |t| || |negative| != |t| || |clock| != |t| {
      return Err(IncompleteSamples);
    }
    if !RegularGrid(t, s.maxStep) {
      return Err(BadTimeGrid);
    }
    if !WindowValid(t, s) {
      return Err(BadWindow);
    }
    var y := Difference(positive, negative);
    var edges := Edges(t, clock, s.threshold, |t| - 1);
    if !(1 <= s.edgeIndex <= |edges|) {
      return Err(MissingEdge);
    }
    var edge := edges[s.edgeIndex - 1];
    if edge >= s.start {
      return Err(WindowBeforeTrigger);
    }
    MeasurableSampled(t, y, s);
    MeasurableSampled(t, clock, s);
    ghost var i := EdgesRise(t, clock, s.threshold, |t| - 1, s.edgeIndex - 1);
    var final := Mean(t, y, s.start, s.stop);
    var last := LastBandEntry(t, y, edge, s.stop, final, s.tolerance);
    return Ok(Response(last - edge, final));
  }
}
