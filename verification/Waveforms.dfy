/** Sampled waveforms read as piecewise-linear functions of real time. */
module Waveforms {
  import opened Prelude

  predicate Increasing(t: seq<real>) {
    forall i, j :: 0 <= i < j < |t| ==> t[i] < t[j]
  }

  /** The first index whose sample time is not before `x`. */
  function Bisect(t: seq<real>, x: real): (i: nat)
    ensures i <= |t|
    ensures forall k :: 0 <= k < i ==> t[k] < x
    ensures i < |t| ==> x <= t[i]
  {
    if t == [] || x <= t[0] then 0 else 1 + Bisect(t[1..], x)
  }

  /** The part of `d` that `u` is of `w`. */
  function Scaled(d: real, u: real, w: real): (q: real)
    requires w != 0.0
  {
    d * u / w
  }

  /** The line through two points. */
  function Line(a: real, va: real, b: real, vb: real, x: real): (v: real)
    requires a != b
  {
    va + Scaled(vb - va, x - a, b - a)
  }

  predicate Sampled(t: seq<real>, y: seq<real>) {
    |t| == |y| && |t| >= 2 && Increasing(t)
  }

  predicate InSpan(t: seq<real>, x: real) {
    |t| >= 2 && t[0] <= x <= t[|t| - 1]
  }

  /** Linear interpolation between the samples around `x`. */
  function Interp(t: seq<real>, y: seq<real>, x: real): (v: real)
    requires Sampled(t, y) && InSpan(t, x)
  {
    var i := Bisect(t, x);
    if i == 0 then y[0] else Line(t[i - 1], y[i - 1], t[i], y[i], x)
  }

  /** `[a, b]` lies between two neighbouring samples. */
  predicate Segment(t: seq<real>, i: nat, a: real, b: real) {
    1 <= i < |t| && t[i - 1] <= a <= b <= t[i]
  }

  // ---- Proportions -------------------------------------------------------------------------

  lemma Quotient(p: real, q: real)
    requires q != 0.0
    ensures p / q * q == p
  {
  }

  lemma ProductOrder(d: real, u: real, v: real)
    requires u <= v
    ensures d >= 0.0 ==> d * u <= d * v
    ensures d <= 0.0 ==> d * v <= d * u
  {
  }

  lemma ProductStrict(d: real, u: real, v: real)
    requires u < v
    ensures d > 0.0 ==> d * u < d * v
    ensures d < 0.0 ==> d * v < d * u
  {
  }

  lemma ProductCancels(w: real, p: real, q: real)
    requires w != 0.0 && w * p == w * q
    ensures p == q
  {
    if p < q {
      ProductStrict(w, p, q);
    } else if q < p {
      ProductStrict(w, q, p);
    }
  }

  lemma ScaledIs(d: real, u: real, w: real)
    requires w != 0.0
    ensures w * Scaled(d, u, w) == d * u
  {
    var p := d * u;
    Quotient(p, w);
  }

  lemma ScaledEnds(d: real, w: real)
    requires w != 0.0
    ensures Scaled(d, 0.0, w) == 0.0 && Scaled(d, w, w) == d
  {
    hide Scaled;
    ScaledIs(d, 0.0, w);
    ScaledIs(d, w, w);
    ProductCancels(w, Scaled(d, 0.0, w), 0.0);
    ProductCancels(w, Scaled(d, w, w), d);
  }

  lemma ScaledOrder(d: real, u: real, v: real, w: real)
    requires w > 0.0 && u <= v
    ensures d >= 0.0 ==> Scaled(d, u, w) <= Scaled(d, v, w)
    ensures d <= 0.0 ==> Scaled(d, v, w) <= Scaled(d, u, w)
  {
    hide Scaled;
    var p, q := Scaled(d, u, w), Scaled(d, v, w);
    ScaledIs(d, u, w);
    ScaledIs(d, v, w);
    ProductOrder(d, u, v);
    if p < q {
      ProductStrict(w, p, q);
    } else if q < p {
      ProductStrict(w, q, p);
    }
  }

  lemma ScaledStrict(d: real, u: real, v: real, w: real)
    requires w > 0.0 && u < v
    ensures d > 0.0 ==> Scaled(d, u, w) < Scaled(d, v, w)
    ensures d < 0.0 ==> Scaled(d, v, w) < Scaled(d, u, w)
  {
    hide Scaled;
    var p, q := Scaled(d, u, w), Scaled(d, v, w);
    ScaledIs(d, u, w);
    ScaledIs(d, v, w);
    ProductStrict(d, u, v);
    if p < q {
      ProductStrict(w, p, q);
    } else if q < p {
      ProductStrict(w, q, p);
    }
  }


  /** A share of the whole is a share of `w`. */
  lemma ScaledShare(w: real, h: real, r: real)
    requires w > 0.0 && ((r > 0.0 && 0.0 < h <= r) || (r < 0.0 && r <= h < 0.0))
    ensures 0.0 < Scaled(w, h, r) <= w
  {
    hide Scaled;
    var q := Scaled(w, h, r);
    ScaledIs(w, h, r);
    ProductStrict(w, if r > 0.0 then 0.0 else h, if r > 0.0 then h else 0.0);
    ProductOrder(w, if r > 0.0 then h else r, if r > 0.0 then r else h);
    if q <= 0.0 {
      ProductOrder(r, q, 0.0);
    } else if q > w {
      ProductStrict(r, w, q);
    }
  }

  lemma ScaledBack(w: real, h: real, r: real)
    requires w != 0.0 && r != 0.0
    ensures Scaled(r, Scaled(w, h, r), w) == h
  {
    hide Scaled;
    var q := Scaled(w, h, r);
    ScaledIs(w, h, r);
    ScaledIs(r, q, w);
    ProductCancels(w, Scaled(r, q, w), h);
  }

  lemma ScaledSlope(d: real, u: real, w: real)
    requires w != 0.0
    ensures Scaled(d, u, w) == d / w * u
  {
    hide Scaled;
    ScaledIs(d, u, w);
    Quotient(d, w);
    var s := d / w;
    Triple(w, s, u);
    ProductCancels(w, Scaled(d, u, w), s * u);
  }

  lemma Triple(w: real, s: real, u: real)
    ensures w * (s * u) == s * w * u
  {
  }

  // ---- Lines -------------------------------------------------------------------------------

  lemma LineEnds(a: real, va: real, b: real, vb: real)
    requires a < b
    ensures Line(a, va, b, vb, a) == va && Line(a, va, b, vb, b) == vb
  {
    hide Scaled;
    ScaledEnds(vb - va, b - a);
  }

  /** Values along a line are ordered as the times are, or the other way round. */
  lemma LineOrder(a: real, va: real, b: real, vb: real, x: real, z: real)
    requires a < b && x <= z
    ensures va <= vb ==> Line(a, va, b, vb, x) <= Line(a, va, b, vb, z)
    ensures vb <= va ==> Line(a, va, b, vb, z) <= Line(a, va, b, vb, x)
  {
    hide Scaled;
    ScaledOrder(vb - va, x - a, z - a, b - a);
  }

  lemma LineStrict(a: real, va: real, b: real, vb: real, x: real, z: real)
    requires a < b && x < z
    ensures va < vb ==> Line(a, va, b, vb, x) < Line(a, va, b, vb, z)
    ensures vb < va ==> Line(a, va, b, vb, z) < Line(a, va, b, vb, x)
  {
    hide Scaled;
    ScaledStrict(vb - va, x - a, z - a, b - a);
  }

  /** The point of a line where its value has changed by `h`, a share of the whole change. */
  lemma LinePoint(a: real, va: real, b: real, vb: real, h: real)
    requires a < b
    requires (vb > va && 0.0 < h <= vb - va) || (vb < va && vb - va <= h < 0.0)
    ensures
      var x := a + Scaled(b - a, h, vb - va);
      a < x <= b && Line(a, va, b, vb, x) == va + h
  {
    hide Scaled;
    ScaledShare(b - a, h, vb - va);
    ScaledBack(b - a, h, vb - va);
    var u := Scaled(b - a, h, vb - va);
    assert a + u - a == u;
  }

  lemma LineSlope(a: real, va: real, b: real, vb: real, x: real)
    requires a != b
    ensures Line(a, va, b, vb, x) == va + (vb - va) / (b - a) * (x - a)
  {
    hide Scaled;
    ScaledSlope(vb - va, x - a, b - a);
  }

  lemma SlopeSplit(s: real, a: real, c: real, d: real)
    ensures s * (d - a) - s * (c - a) == s * (d - c)
  {
  }

  lemma SlopeBack(s: real, w: real)
    requires w != 0.0
    ensures s * w / w == s
  {
  }

  /** A line is determined by any two of its points. */
  lemma LineThrough(a: real, va: real, b: real, vb: real, c: real, d: real, x: real)
    requires a < b && c < d
    ensures Line(a, va, b, vb, x) == Line(c, Line(a, va, b, vb, c), d, Line(a, va, b, vb, d), x)
  {
    hide Line;
    LineSlope(a, va, b, vb, x);
    LineSlope(a, va, b, vb, c);
    LineSlope(a, va, b, vb, d);
    var vc, vd := Line(a, va, b, vb, c), Line(a, va, b, vb, d);
    LineSlope(c, vc, d, vd, x);
    SameSlope((vb - va) / (b - a), va, a, c, vc, d, vd, x);
  }

  lemma SameSlope(s: real, va: real, a: real, c: real, vc: real, d: real, vd: real, x: real)
    requires c < d && vc == va + s * (c - a) && vd == va + s * (d - a)
    ensures va + s * (x - a) == vc + (vd - vc) / (d - c) * (x - c)
  {
    SlopeSplit(s, a, c, d);
    SlopeSplit(s, a, c, x);
    SlopeBack(s, d - c);
  }

  // ---- The interpolant ---------------------------------------------------------------------

  /** Within a segment the interpolant is the line through its two samples. */
  lemma InterpIsLine(t: seq<real>, y: seq<real>, i: nat, x: real)
    requires Sampled(t, y) && Segment(t, i, x, x)
    ensures InSpan(t, x) && Interp(t, y, x) == Line(t[i - 1], y[i - 1], t[i], y[i], x)
  {
    hide Line;
    assert t[0] <= t[i - 1] && t[i] <= t[|t| - 1];
    var k := Bisect(t, x);
    LineEnds(t[i - 1], y[i - 1], t[i], y[i]);
    if x == t[i - 1] {
      assert k == i - 1;
      if k > 0 {
        LineEnds(t[k - 1], y[k - 1], t[k], y[k]);
      }
    } else {
      assert k == i;
    }
  }

  /** Within a segment, the interpolant between two times is the line between its values there. */
  lemma InterpAffine(t: seq<real>, y: seq<real>, i: nat, a: real, b: real, x: real)
    requires Sampled(t, y) && Segment(t, i, a, b) && a < b && a <= x <= b
    ensures InSpan(t, a) && InSpan(t, b) && InSpan(t, x)
    ensures Interp(t, y, x) == Line(a, Interp(t, y, a), b, Interp(t, y, b), x)
  {
    hide Line, Interp;
    InterpIsLine(t, y, i, a);
    InterpIsLine(t, y, i, b);
    InterpIsLine(t, y, i, x);
    assert t[i - 1] < t[i];
    LineThrough(t[i - 1], y[i - 1], t[i], y[i], a, b, x);
  }

  // ---- Area under the waveform ---------------------------------------------------------------

  function Trapezoid(a: real, va: real, b: real, vb: real): (area: real) {
    (b - a) * (va + vb) / 2.0
  }

  /** The area of the first `k` whole sample intervals. */
  function Whole(t: seq<real>, y: seq<real>, k: nat): (area: real)
    requires |t| == |y| && k < |t|
  {
    if k == 0 then 0.0 else Whole(t, y, k - 1) + Trapezoid(t[k - 1], y[k - 1], t[k], y[k])
  }

  /** The area under the interpolant from the first sample to `x`. */
  function AreaTo(t: seq<real>, y: seq<real>, x: real): (area: real)
    requires Sampled(t, y) && InSpan(t, x)
  {
    var i := Bisect(t, x);
    if i == 0 then 0.0 else Whole(t, y, i - 1) + Trapezoid(t[i - 1], y[i - 1], x, Interp(t, y, x))
  }

  lemma AreaInSegment(t: seq<real>, y: seq<real>, i: nat, x: real)
    requires Sampled(t, y) && Segment(t, i, x, x)
    ensures InSpan(t, x)
    ensures AreaTo(t, y, x) == Whole(t, y, i - 1) + Trapezoid(t[i - 1], y[i - 1], x, Interp(t, y, x))
  {
    hide Line, Interp, Trapezoid;
    InterpIsLine(t, y, i, x);
    var k := Bisect(t, x);
    if x == t[i - 1] {
      assert k == i - 1;
      LineEnds(t[i - 1], y[i - 1], t[i], y[i]);
      NoWidth(x, y[i - 1], y[i - 1]);
    } else {
      assert k == i;
    }
  }

  lemma NoWidth(x: real, v: real, w: real)
    ensures Trapezoid(x, v, x, w) == 0.0
  {
    assert (x - x) * (v + w) == 0.0;
  }

  /** The trapezoids of a line add up. */
  lemma TrapezoidSplit(c: real, vc: real, slope: real, a: real, va: real, b: real, vb: real)
    requires va == vc + slope * (a - c) && vb == vc + slope * (b - c)
    ensures Trapezoid(c, vc, b, vb) == Trapezoid(c, vc, a, va) + Trapezoid(a, va, b, vb)
  {
    var u, w := a - c, b - c;
    assert w * (vc + vb) == 2.0 * vc * w + slope * w * w;
    assert u * (vc + va) == 2.0 * vc * u + slope * u * u;
    assert (w - u) * (va + vb) == 2.0 * vc * (w - u) + slope * (w * w - u * u);
  }

  /** Within a segment the area between two times is one trapezoid. */
  lemma AreaStep(t: seq<real>, y: seq<real>, i: nat, a: real, b: real)
    requires Sampled(t, y) && Segment(t, i, a, b)
    ensures InSpan(t, a) && InSpan(t, b)
    ensures AreaTo(t, y, b) - AreaTo(t, y, a) == Trapezoid(a, Interp(t, y, a), b, Interp(t, y, b))
  {
    hide AreaTo, Interp, Whole, Line, Trapezoid;
    AreaInSegment(t, y, i, a);
    AreaInSegment(t, y, i, b);
    InterpIsLine(t, y, i, a);
    InterpIsLine(t, y, i, b);
    LineSlope(t[i - 1], y[i - 1], t[i], y[i], a);
    LineSlope(t[i - 1], y[i - 1], t[i], y[i], b);
    TrapezoidSplit(t[i - 1], y[i - 1], (y[i] - y[i - 1]) / (t[i] - t[i - 1]),
      a, Interp(t, y, a), b, Interp(t, y, b));
  }

  /** `low` and `high` bound the interpolant on `[a, b]`. */
  ghost predicate BoundedOn(t: seq<real>, y: seq<real>, a: real, b: real, low: real, high: real)
    requires Sampled(t, y) && InSpan(t, a) && InSpan(t, b)
  {
    forall x :: a <= x <= b ==> low <= Interp(t, y, x) <= high
  }

  lemma TrapezoidBounded(a: real, va: real, b: real, vb: real, low: real, high: real)
    requires a <= b && low <= va <= high && low <= vb <= high
    ensures low * (b - a) <= Trapezoid(a, va, b, vb) <= high * (b - a)
  {
    var w := b - a;
    assert 2.0 * low * w <= w * (va + vb) <= 2.0 * high * w;
  }

  lemma SegmentBelow(t: seq<real>, x: real) returns (i: nat)
    requires |t| >= 2 && Increasing(t) && InSpan(t, x) && x > t[0]
    ensures Segment(t, i, x, x) && t[i - 1] < x
  {
    i := Bisect(t, x);
  }

  /** The area between two times lies between the bounds of the interpolant times the width. */
  lemma {:induction false} AreaBounded(t: seq<real>, y: seq<real>, a: real, b: real, low: real, high: real)
    requires Sampled(t, y) && InSpan(t, a) && InSpan(t, b) && a <= b
    requires BoundedOn(t, y, a, b, low, high)
    ensures low * (b - a) <= AreaTo(t, y, b) - AreaTo(t, y, a) <= high * (b - a)
    decreases Bisect(t, b)
  {
    hide AreaTo, Interp;
    if a < b {
      var i := SegmentBelow(t, b);
      var left := t[i - 1];
      if left <= a {
        AreaStep(t, y, i, a, b);
        TrapezoidBounded(a, Interp(t, y, a), b, Interp(t, y, b), low, high);
      } else {
        AreaBounded(t, y, a, left, low, high);
        AreaStep(t, y, i, left, b);
        TrapezoidBounded(left, Interp(t, y, left), b, Interp(t, y, b), low, high);
      }
    }
  }
}
