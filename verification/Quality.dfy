/** Normalization of one paired observation against its quality anchor, over the reals. */
module Quality {
  import opened Prelude
  import opened Metrics

  /** The transcendental functions the score uses. */
  datatype Logs = Logs(ln: real -> real, exp: real -> real, exp10: real -> real)

  /** All that is assumed about them. */
  ghost predicate Laws(l: Logs) {
    && (forall x :: l.exp(x) > 0.0)
    && (forall x, y :: x <= y ==> l.exp(x) <= l.exp(y))
    && l.exp(0.0) == 1.0
    && (forall x :: l.exp10(x) > 0.0)
    && (forall x, y :: x <= y ==> l.exp10(x) <= l.exp10(y))
    && l.exp10(0.0) == 1.0
    && (forall x, y :: 0.0 < x <= y ==> l.ln(x) <= l.ln(y))
    && l.ln(1.0) == 0.0
  }

  /** What parsing has established about a metric with baselines. */
  predicate Declared(metric: Metric) {
    && |metric.baseline| == |metric.observations| > 0
    && metric.normalization.Some?
    && (metric.scale.Some? ==> metric.scale.value > 0.0)
    && (metric.normalization.value in {Degradation, SaturatingRatio, TargetDistance} ==> metric.scale.Some?)
    && (metric.normalization == Some(SaturatingRatio) ==> metric.direction == Minimize)
    && (metric.normalization == Some(TargetDistance) <==> metric.direction == Target)
  }

  function ScaleOf(metric: Metric): (s: real) {
    if metric.scale.Some? then metric.scale.value else 0.0
  }

  /** The value that earns quality 1. */
  function Anchor(metric: Metric, baseline: real): (a: real) {
    if metric.qualityTarget.Some? then metric.qualityTarget.value else baseline
  }

  /** The share of the budget in budget plus loss, computed in units that cannot overflow. */
  function DegradationShare(scale: real, loss: real): (q: real)
    requires scale > 0.0 && loss > 0.0
    ensures q == scale / (scale + loss)
  {
    var size := Max(loss, scale);
    ScaledQuotient(scale, loss, size);
    var scaledBudget, scaledLoss := scale / size, loss / size;
    scaledBudget / (scaledBudget + scaledLoss)
  }

  /** The bounded ratio of anchor and value, computed in units that cannot overflow. */
  function SaturatingShare(anchor: real, value: real, scale: real): (q: real)
    requires scale > 0.0 && anchor >= 0.0 && value >= 0.0
    ensures q == 2.0 * (anchor + scale) / (anchor + scale + (value + scale))
  {
    var size := Max(Max(value, anchor), scale);
    SaturatingForm(anchor, value, scale, size);
    var numerator, denominator := anchor / size + scale / size, value / size + scale / size;
    2.0 * numerator / (numerator + denominator)
  }

  /** The quality of one observation, or `None` where the source raises. */
  function RelativeQuality(l: Logs, metric: Metric, value: real, baseline: real): (q: Option<real>)
    requires Declared(metric)
  {
    if (metric.normalization == Some(Ratio) || metric.normalization == Some(SaturatingRatio)) && Min(value, baseline) < 0.0 then
      None
    else
      var anchor, scale := Anchor(metric, baseline), ScaleOf(metric);
      match metric.normalization.value
      case Degradation =>
        var loss := if metric.direction == Maximize then anchor - value else value - anchor;
        if loss <= 0.0 then Some(1.0)
        else
          Some(DegradationShare(scale, loss))
      case TargetDistance => Some(1.0 / (1.0 + Abs(value - anchor) / scale))
      case Db20 =>
        var delta := (value - anchor) / 20.0;
        Some(l.exp10(if metric.direction == Maximize then delta else -delta))
      case SaturatingRatio =>
        if Min(value, anchor) < 0.0 then None
        else
          Some(SaturatingShare(anchor, value, scale))
      case Ratio =>
        if Min(value, anchor) < 0.0 then None
        else
          var numerator := if metric.direction == Maximize then value + scale else anchor + scale;
          var denominator := if metric.direction == Maximize then anchor + scale else value + scale;
          if denominator <= 0.0 then None else Some(numerator / denominator)
  }

  /** The move from `old` to `new` goes in the metric's improving direction. */
  predicate Improves(metric: Metric, baseline: real, before: real, after: real) {
    match metric.direction
    case Minimize => after <= before
    case Maximize => after >= before
    case Target => Abs(after - Anchor(metric, baseline)) <= Abs(before - Anchor(metric, baseline))
  }

  lemma Cancel(x: real, y: real, c: real)
    requires c > 0.0 && x * c <= y * c
    ensures x <= y
  {
  }

  lemma QuotientOrder(a: real, b: real, c: real, d: real)
    requires b > 0.0 && d > 0.0 && a * d <= c * b
    ensures a / b <= c / d
  {
    var x, y := a / b, c / d;
    assert a == x * b && c == y * d;
    assert x * b * d == x * (b * d) && y * d * b == y * (b * d);
    Cancel(x, y, b * d);
  }

  lemma QuotientIs(q: real, a: real, b: real)
    requires b != 0.0 && q * b == a
    ensures a / b == q
  {
  }

  lemma SumQuotient(a: real, b: real, size: real)
    requires size != 0.0
    ensures a / size + b / size == (a + b) / size
  {
    QuotientIs(a / size + b / size, a + b, size);
  }

  lemma ScaledQuotient(a: real, b: real, size: real)
    requires size > 0.0 && a + b > 0.0
    ensures a / size + b / size > 0.0
    ensures (a / size) / (a / size + b / size) == a / (a + b)
  {
    var x, y := a / size, b / size;
    SumQuotient(a, b, size);
    assert (x + y) * size == a + b;
    var q := a / (a + b);
    assert q * (x + y) * size == q * (a + b) == x * size;
    assert q * (x + y) == x;
    QuotientIs(q, x, x + y);
  }

  /** The scaled degradation form equals the plain budget rule. */
  lemma DegradationPlain(l: Logs, metric: Metric, value: real, baseline: real)
    requires Declared(metric) && metric.normalization == Some(Degradation)
    ensures
      var loss := if metric.direction == Maximize then Anchor(metric, baseline) - value else value - Anchor(metric, baseline);
      RelativeQuality(l, metric, value, baseline) ==
        Some(if loss <= 0.0 then 1.0 else ScaleOf(metric) / (ScaleOf(metric) + loss))
  {
  }

  lemma SaturatingForm(anchor: real, value: real, scale: real, size: real)
    requires size > 0.0 && anchor + scale + (value + scale) > 0.0
    ensures
      var n, d := anchor / size + scale / size, value / size + scale / size;
      n + d > 0.0 && 2.0 * n / (n + d) == 2.0 * (anchor + scale) / (anchor + scale + (value + scale))
  {
    var n, d := anchor / size + scale / size, value / size + scale / size;
    var a, s := anchor + scale, value + scale;
    SumQuotient(anchor, scale, size);
    SumQuotient(value, scale, size);
    ScaledQuotient(a, s, size);
    Doubled(n, n + d);
    Doubled(a, a + s);
  }

  /** The scaled saturating form equals the plain bounded ratio, and fails exactly on a negative observation or anchor. */
  lemma SaturatingPlain(l: Logs, metric: Metric, value: real, baseline: real)
    requires Declared(metric) && metric.normalization == Some(SaturatingRatio)
    ensures RelativeQuality(l, metric, value, baseline).None? <==> value < 0.0 || baseline < 0.0 || Anchor(metric, baseline) < 0.0
    ensures RelativeQuality(l, metric, value, baseline).Some? ==>
      var a, s := Anchor(metric, baseline) + ScaleOf(metric), value + ScaleOf(metric);
      RelativeQuality(l, metric, value, baseline) == Some(2.0 * a / (a + s))
  {
  }

  lemma Doubled(a: real, b: real)
    requires b != 0.0
    ensures 2.0 * a / b == 2.0 * (a / b)
  {
    var q := a / b;
    assert q * b == a;
    assert (2.0 * q) * b == 2.0 * a;
  }

  /** The observation in the denominator of the ratio. */
  function Denominator(metric: Metric, value: real, baseline: real): (d: real) {
    if metric.direction == Maximize then Anchor(metric, baseline) else value
  }

  /**
   * The ratio rule fails if and only if an observation or the anchor is negative, or the denominator observation is
   * zero and no scale is declared; otherwise it is the quotient of the offset observations.
   */
  lemma RatioPlain(l: Logs, metric: Metric, value: real, baseline: real)
    requires Declared(metric) && metric.normalization == Some(Ratio)
    ensures RelativeQuality(l, metric, value, baseline).None? <==>
      || value < 0.0 || baseline < 0.0 || Anchor(metric, baseline) < 0.0
      || (Denominator(metric, value, baseline) == 0.0 && metric.scale.None?)
    ensures RelativeQuality(l, metric, value, baseline).Some? ==>
      var a, v := Anchor(metric, baseline) + ScaleOf(metric), value + ScaleOf(metric);
      && a >= 0.0 && v >= 0.0
      && (if metric.direction == Maximize then
            a > 0.0 && RelativeQuality(l, metric, value, baseline) == Some(v / a)
          else
            v > 0.0 && RelativeQuality(l, metric, value, baseline) == Some(a / v))
  {
  }

  /** The distance rule halves the quality at a distance of one scale: quality times scale plus distance is the scale. */
  lemma TargetPlain(l: Logs, metric: Metric, value: real, baseline: real)
    requires Declared(metric) && metric.normalization == Some(TargetDistance)
    ensures RelativeQuality(l, metric, value, baseline).Some?
    ensures
      var distance := Abs(value - Anchor(metric, baseline));
      RelativeQuality(l, metric, value, baseline).value * (ScaleOf(metric) + distance) == ScaleOf(metric)
  {
    InverseShare(Abs(value - Anchor(metric, baseline)), ScaleOf(metric));
  }

  lemma InverseShare(d: real, s: real)
    requires d >= 0.0 && s > 0.0
    ensures d / s >= 0.0 && (1.0 / (1.0 + d / s)) * (s + d) == s
  {
    var r := d / s;
    assert r * s == d;
    NonnegativeQuotient(d, s);
    var q := 1.0 / (1.0 + r);
    assert q * (1.0 + r) == 1.0;
    assert q * (s + d) == q * (1.0 + r) * s;
  }

  /** The power of ten grows tenfold with every unit. */
  ghost predicate Decade(l: Logs, x: real) { l.exp10(x + 1.0) == 10.0 * l.exp10(x) }

  /** In decibels, a value that is better by twenty has ten times the quality. */
  lemma Db20Decade(l: Logs, metric: Metric, value: real, baseline: real)
    requires Declared(metric) && metric.normalization == Some(Db20) && forall x :: Decade(l, x)
    ensures
      var better := if metric.direction == Maximize then value + 20.0 else value - 20.0;
      var q, r := RelativeQuality(l, metric, value, baseline), RelativeQuality(l, metric, better, baseline);
      q.Some? && r.Some? && r.value == 10.0 * q.value
  {
    var anchor := Anchor(metric, baseline);
    if metric.direction == Maximize {
      assert (value + 20.0 - anchor) / 20.0 == (value - anchor) / 20.0 + 1.0;
      assert Decade(l, (value - anchor) / 20.0);
    } else {
      assert -((value - 20.0 - anchor) / 20.0) == -((value - anchor) / 20.0) + 1.0;
      assert Decade(l, -((value - anchor) / 20.0));
    }
  }

  lemma NonnegativeQuotient(a: real, b: real)
    requires a >= 0.0 && b > 0.0
    ensures a / b >= 0.0
  {
    QuotientOrder(0.0, 1.0, a, b);
  }

  /** Every quality is nonnegative. */
  lemma QualityNonnegative(l: Logs, metric: Metric, value: real, baseline: real)
    requires Laws(l) && Declared(metric)
    requires RelativeQuality(l, metric, value, baseline).Some?
    ensures RelativeQuality(l, metric, value, baseline).value >= 0.0
  {
    var anchor, scale := Anchor(metric, baseline), ScaleOf(metric);
    match metric.normalization.value
    case Degradation =>
      var loss := if metric.direction == Maximize then anchor - value else value - anchor;
      if loss > 0.0 {
        NonnegativeQuotient(scale, scale + loss);
      }
    case TargetDistance => TargetDenominator(metric, value, baseline);
    case Db20 =>
    case SaturatingRatio => NonnegativeQuotient(2.0 * (anchor + scale), anchor + scale + (value + scale));
    case Ratio => RatioNonnegative(l, metric, value, baseline);
  }

  lemma RatioNonnegative(l: Logs, metric: Metric, value: real, baseline: real)
    requires Declared(metric) && metric.normalization == Some(Ratio)
    requires RelativeQuality(l, metric, value, baseline).Some?
    ensures RelativeQuality(l, metric, value, baseline).value >= 0.0
  {
    hide RelativeQuality;
    RatioPlain(l, metric, value, baseline);
    var a, v := Anchor(metric, baseline) + ScaleOf(metric), value + ScaleOf(metric);
    if metric.direction == Maximize {
      NonnegativeQuotient(v, a);
    } else {
      NonnegativeQuotient(a, v);
    }
  }

  lemma TargetDenominator(metric: Metric, value: real, baseline: real)
    requires Declared(metric) && metric.normalization == Some(TargetDistance)
    ensures 1.0 + Abs(value - Anchor(metric, baseline)) / ScaleOf(metric) >= 1.0
  {
    QuotientOrder(0.0, 1.0, Abs(value - Anchor(metric, baseline)), ScaleOf(metric));
  }

  /** An observation at the declared target, or at the baseline when no target is declared, has quality exactly 1. */
  lemma QualityAtAnchor(l: Logs, metric: Metric, baseline: real)
    requires Laws(l) && Declared(metric)
    requires RelativeQuality(l, metric, Anchor(metric, baseline), baseline).Some?
    ensures RelativeQuality(l, metric, Anchor(metric, baseline), baseline) == Some(1.0)
    ensures RelativeQuality(l, metric, if metric.qualityTarget.Some? then metric.qualityTarget.value else baseline, baseline) == Some(1.0)
  {
    var anchor := Anchor(metric, baseline);
    match metric.normalization.value
    case Degradation =>
    case TargetDistance =>
    case Db20 =>
    case SaturatingRatio =>
      SaturatingPlain(l, metric, anchor, baseline);
      var a := anchor + ScaleOf(metric);
      QuotientIs(1.0, 2.0 * a, a + a);
    case Ratio => QuotientIs(1.0, anchor + ScaleOf(metric), anchor + ScaleOf(metric));
  }

  /** Moving an observation in its improving direction never lowers its quality. */
  lemma QualityMonotone(l: Logs, metric: Metric, baseline: real, before: real, after: real)
    requires Laws(l) && Declared(metric) && Improves(metric, baseline, before, after)
    requires RelativeQuality(l, metric, before, baseline).Some? && RelativeQuality(l, metric, after, baseline).Some?
    ensures RelativeQuality(l, metric, before, baseline).value <= RelativeQuality(l, metric, after, baseline).value
  {
    match metric.normalization.value
    case Degradation => DegradationMonotone(l, metric, baseline, before, after);
    case TargetDistance => TargetMonotone(l, metric, baseline, before, after);
    case Db20 =>
      var anchor := Anchor(metric, baseline);
      assert metric.direction == Maximize ==> (before - anchor) / 20.0 <= (after - anchor) / 20.0;
      assert metric.direction == Minimize ==> (after - anchor) / 20.0 <= (before - anchor) / 20.0;
    case SaturatingRatio =>
      SaturatingPlain(l, metric, before, baseline);
      SaturatingPlain(l, metric, after, baseline);
      var a := Anchor(metric, baseline) + ScaleOf(metric);
      FractionOrder(2.0 * a, a + before + ScaleOf(metric), a + after + ScaleOf(metric));
    case Ratio => RatioMonotone(l, metric, baseline, before, after);
  }

  /** A smaller positive denominator under a nonnegative numerator gives a larger quotient. */
  lemma FractionOrder(n: real, large: real, small: real)
    requires n >= 0.0 && 0.0 < small <= large
    ensures n / large <= n / small
  {
    assert n * small <= n * large;
    QuotientOrder(n, large, n, small);
  }

  lemma DegradationMonotone(l: Logs, metric: Metric, baseline: real, before: real, after: real)
    requires Declared(metric) && metric.normalization == Some(Degradation) && Improves(metric, baseline, before, after)
    ensures RelativeQuality(l, metric, before, baseline).value <= RelativeQuality(l, metric, after, baseline).value
  {
    var anchor, scale := Anchor(metric, baseline), ScaleOf(metric);
    DegradationPlain(l, metric, before, baseline);
    DegradationPlain(l, metric, after, baseline);
    var more := if metric.direction == Maximize then anchor - before else before - anchor;
    var less := if metric.direction == Maximize then anchor - after else after - anchor;
    if less > 0.0 {
      FractionOrder(scale, scale + more, scale + less);
    } else if more > 0.0 {
      QuotientOrder(scale, scale + more, 1.0, 1.0);
    }
  }

  lemma TargetMonotone(l: Logs, metric: Metric, baseline: real, before: real, after: real)
    requires Declared(metric) && metric.normalization == Some(TargetDistance) && Improves(metric, baseline, before, after)
    ensures RelativeQuality(l, metric, before, baseline).value <= RelativeQuality(l, metric, after, baseline).value
  {
    var anchor, scale := Anchor(metric, baseline), ScaleOf(metric);
    TargetDenominator(metric, before, baseline);
    TargetDenominator(metric, after, baseline);
    assert Abs(after - anchor) * scale <= Abs(before - anchor) * scale;
    QuotientOrder(Abs(after - anchor), scale, Abs(before - anchor), scale);
    FractionOrder(1.0, 1.0 + Abs(before - anchor) / scale, 1.0 + Abs(after - anchor) / scale);
  }

  lemma RatioMonotone(l: Logs, metric: Metric, baseline: real, before: real, after: real)
    requires Declared(metric) && metric.normalization == Some(Ratio) && Improves(metric, baseline, before, after)
    requires RelativeQuality(l, metric, before, baseline).Some? && RelativeQuality(l, metric, after, baseline).Some?
    ensures RelativeQuality(l, metric, before, baseline).value <= RelativeQuality(l, metric, after, baseline).value
  {
    hide RelativeQuality;
    var a, scale := Anchor(metric, baseline) + ScaleOf(metric), ScaleOf(metric);
    RatioPlain(l, metric, before, baseline);
    RatioPlain(l, metric, after, baseline);
    if metric.direction == Maximize {
      assert (before + scale) * a <= (after + scale) * a;
      QuotientOrder(before + scale, a, after + scale, a);
    } else {
      FractionOrder(a, before + scale, after + scale);
    }
  }
}
