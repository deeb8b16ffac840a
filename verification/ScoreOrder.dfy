/** Bounds and monotonicity of the layout score. */
module ScoreOrder {
  import opened Prelude
  import opened Plans
  import opened Runner
  import opened Metrics
  import opened Quality
  import opened Scoring
  import opened Verdicts

  /** Values between 0 and 1 with nonnegative weights. */
  predicate Unit(values: Weighted) {
    forall i :: 0 <= i < |values| ==> 0.0 <= values[i].0 <= 1.0 && values[i].1 >= 0.0
  }

  /** The same weights, and values of `a` nowhere above those of `b`. */
  predicate Below(a: Weighted, b: Weighted) {
    && |a| == |b|
    && forall i :: 0 <= i < |a| ==> a[i].1 == b[i].1 && 0.0 <= a[i].0 <= b[i].0
  }

  lemma NonpositiveProduct(x: real, w: real)
    requires x <= 0.0 && w >= 0.0
    ensures x * w <= 0.0
  {
  }

  lemma ShareNonnegative(w: real, total: real)
    requires w >= 0.0 && total > 0.0
    ensures w / total >= 0.0
  {
    NonnegativeQuotient(w, total);
  }

  lemma {:induction false} LogSumNonpositive(l: Logs, values: Weighted, total: real)
    requires Laws(l) && Unit(values) && !SomeZero(values) && total > 0.0
    ensures LogSum(l, values, total) <= 0.0
  {
    if values != [] {
      var rest, last := values[..|values| - 1], values[|values| - 1];
      LogSumNonpositive(l, rest, total);
      ShareNonnegative(last.1, total);
      NonpositiveProduct(l.ln(last.0), last.1 / total);
    }
  }

  /** The weighted mean of values between 0 and 1 lies between 0 and 1. */
  lemma MeanBounded(l: Logs, values: Weighted)
    requires Laws(l) && Unit(values) && WeightedGeometric(l, values).Some?
    ensures 0.0 <= WeightedGeometric(l, values).value <= 1.0
  {
    hide Active, Total, LogSum;
    var active := Active(values);
    ActivePositive(values);
    TotalPositive(active);
    if !SomeZero(active) {
      LogSumNonpositive(l, active, Total(active));
    }
  }

  /** The mean of ones is one. */
  lemma MeanOfOnes(l: Logs, values: Weighted)
    requires Laws(l) && (forall i :: 0 <= i < |values| ==> values[i].0 == 1.0)
    requires WeightedGeometric(l, values).Some?
    ensures WeightedGeometric(l, values) == Some(1.0)
  {
    hide Active, Total, LogSum;
    ActivePositive(values);
    TotalPositive(Active(values));
    LogSumOfOnes(l, Active(values), Total(Active(values)));
  }

  lemma {:induction false} LogSumOfOnes(l: Logs, values: Weighted, total: real)
    requires Laws(l) && total != 0.0 && forall i :: 0 <= i < |values| ==> values[i].0 == 1.0
    ensures LogSum(l, values, total) == 0.0
  {
    if values != [] {
      LogSumOfOnes(l, values[..|values| - 1], total);
    }
  }

  lemma {:induction false} ActiveBelow(a: Weighted, b: Weighted)
    requires Below(a, b)
    ensures Below(Active(a), Active(b))
  {
    if a != [] {
      ActiveBelow(a[..|a| - 1], b[..|b| - 1]);
    }
  }

  lemma {:induction false} TotalSame(a: Weighted, b: Weighted)
    requires Below(a, b)
    ensures Total(a) == Total(b)
  {
    if a != [] {
      TotalSame(a[..|a| - 1], b[..|b| - 1]);
    }
  }

  lemma ProductMonotone(x: real, y: real, w: real)
    requires x <= y && w >= 0.0
    ensures x * w <= y * w
  {
  }

  lemma LnMonotone(l: Logs, x: real, y: real)
    requires Laws(l) && 0.0 < x <= y
    ensures l.ln(x) <= l.ln(y)
  {
  }

  /** Positive weights, positive values, and values of `a` nowhere above those of `b`. */
  predicate PositiveBelow(a: Weighted, b: Weighted) {
    && |a| == |b|
    && forall i :: 0 <= i < |a| ==> a[i].1 == b[i].1 && a[i].1 > 0.0 && 0.0 < a[i].0 <= b[i].0
  }

  lemma {:induction false} LogSumBelow(l: Logs, a: Weighted, b: Weighted, total: real)
    requires Laws(l) && PositiveBelow(a, b) && total > 0.0
    ensures LogSum(l, a, total) <= LogSum(l, b, total)
  {
    if a != [] {
      hide Laws;
      var x, y := a[|a| - 1], b[|b| - 1];
      LogSumBelow(l, a[..|a| - 1], b[..|b| - 1], total);
      LnMonotone(l, x.0, y.0);
      ShareNonnegative(x.1, total);
      ProductMonotone(l.ln(x.0), l.ln(y.0), x.1 / total);
    }
  }

  /** The weighted mean is monotone in every value. */
  lemma MeanMonotone(l: Logs, a: Weighted, b: Weighted)
    requires Laws(l) && Below(a, b)
    requires WeightedGeometric(l, a).Some? && WeightedGeometric(l, b).Some?
    ensures WeightedGeometric(l, a).value <= WeightedGeometric(l, b).value
  {
    hide Active, Total, LogSum;
    var x, y := Active(a), Active(b);
    ActiveBelow(a, b);
    TotalSame(x, y);
    ActivePositive(a);
    ActivePositive(b);
    TotalPositive(x);
    if !SomeZero(x) {
      LogSumBelow(l, x, y, Total(x));
    } else {
      MeanNonnegative(l, b);
    }
  }

  lemma MeanNonnegative(l: Logs, values: Weighted)
    requires Laws(l) && WeightedGeometric(l, values).Some?
    ensures WeightedGeometric(l, values).value >= 0.0
  {
  }

  // ---- Collected factors -------------------------------------------------------------------

  predicate UnitFactors(f: Factors) {
    Unit(f.electrical) && (f.area.Some? ==> 0.0 <= f.area.value <= 1.0)
  }

  lemma {:induction false} AttainmentNonnegative(l: Logs, plan: ScoredPlan, results: Results, metric: Metric, k: nat)
    requires Laws(l) && Declared(metric) && 1 <= k <= |metric.baseline|
    requires Attainment(l, plan, results, metric, k).Some?
    ensures Attainment(l, plan, results, metric, k).value >= 0.0
  {
    hide RawObservation, FrozenResults, RelativeQuality, Laws, Declared;
    PairNonnegative(l, plan, results, metric, k - 1);
    if k > 1 {
      AttainmentNonnegative(l, plan, results, metric, k - 1);
    }
  }

  lemma PairNonnegative(l: Logs, plan: ScoredPlan, results: Results, metric: Metric, i: nat)
    requires Laws(l) && Declared(metric) && i < |metric.baseline|
    ensures PairQuality(l, plan, results, metric, i).Some? ==> PairQuality(l, plan, results, metric, i).value >= 0.0
  {
    hide RawObservation, FrozenResults, RelativeQuality, Laws, Declared;
    DeclaredHas(metric);
    FrozenPassed(plan, metric, i);
    if PairQuality(l, plan, results, metric, i).Some? {
      var value := RawObservation(metric, results, metric.observations[i]).1;
      var baseline := RawObservation(metric, FrozenResults(plan), metric.baseline[i]).1;
      QualityNonnegative(l, metric, value.value, baseline.value);
    }
  }

  lemma AddedUnit(l: Logs, plan: ScoredPlan, results: Results, f: Factors, metric: Metric)
    requires Laws(l) && DeclaredPlan(plan) && metric in plan.metrics && UnitFactors(f)
    requires AddMetric(l, plan, results, f, metric).Some?
    ensures UnitFactors(AddMetric(l, plan, results, f, metric).value)
  {
    hide Attainment, RawObservation, BaselineJobs, Ids, Laws, Declared;
    if metric.id == plan.areaMetric {
      var area := RawObservation(metric, results, metric.observations[0]).1;
      NonnegativeQuotient(plan.areaTarget, area.value);
    } else if metric.baseline != [] {
      DeclaredHas(metric);
      AttainmentNonnegative(l, plan, results, metric, |metric.baseline|);
    }
  }

  lemma DeclaredHas(metric: Metric)
    requires Declared(metric)
    ensures |metric.baseline| == |metric.observations| > 0
  {
  }

  lemma {:induction false} CollectedUnit(l: Logs, plan: ScoredPlan, results: Results, k: nat)
    requires Laws(l) && DeclaredPlan(plan) && k <= |plan.metrics| && Collect(l, plan, results, k).Some?
    ensures UnitFactors(Collect(l, plan, results, k).value)
  {
    hide DeclaredPlan, AddMetric, Laws, Unit;
    if k == 0 {
      EmptyUnit();
    } else {
      CollectedUnit(l, plan, results, k - 1);
      AddedUnit(l, plan, results, Collect(l, plan, results, k - 1).value, plan.metrics[k - 1]);
    }
  }

  lemma EmptyUnit()
    ensures Unit([])
  {
  }

  lemma CombineBounded(l: Logs, plan: ScoredPlan, f: Factors)
    requires Laws(l) && DeclaredPlan(plan) && UnitFactors(f)
    requires plan.areaMetric in plan.weights && Combine(l, plan, f).value.Some?
    ensures 0.0 <= Combine(l, plan, f).value.value <= 100.0
  {
    hide WeightedGeometric, BaselineJobs, Ids, Declared, Laws;
    MeanBounded(l, f.electrical + [(f.area.value, plan.weights[plan.areaMetric])]);
  }

  /** Every score lies between 0 and 100. */
  lemma ScoreBounded(l: Logs, plan: ScoredPlan, results: Results)
    requires Laws(l) && DeclaredPlan(plan) && LayoutScore(l, plan, results).value.Some?
    ensures 0.0 <= LayoutScore(l, plan, results).value.value <= 100.0
  {
    hide DeclaredPlan, Laws, Collect, Combine, JobState, RawStatus, AllObservationsPassed, UnitFactors;
    AreaWeightedOf(plan);
    var f := Collect(l, plan, results, |plan.metrics|);
    if f.Some? {
      CollectedUnit(l, plan, results, |plan.metrics|);
      if Combine(l, plan, f.value).value.Some? {
        CombineBounded(l, plan, f.value);
      }
    }
  }

  /** A report that ends as passed carries a score between 0 and 100. */
  lemma PassedIsScored(l: Logs, plan: ScoredPlan, results: Results)
    requires Laws(l) && DeclaredPlan(plan) && Ran(plan, results)
    requires FinalOutcome(l, plan, results) == OutcomePassed
    ensures LayoutScore(l, plan, results).value.Some?
    ensures 0.0 <= LayoutScore(l, plan, results).value.value <= 100.0
  {
    hide DeclaredPlan, Laws, Ran, LayoutScore, RunOutcome;
    ScoreBounded(l, plan, results);
  }

  // ---- Monotonicity ------------------------------------------------------------------------

  /** The `i`-th observation of the metric is no worse in `after` than in `before`. */
  predicate PairImproves(plan: ScoredPlan, before: Results, after: Results, m: Metric, i: nat)
    requires i < |m.baseline| == |m.observations|
  {
    var x := RawObservation(m, before, m.observations[i]).1;
    var y := RawObservation(m, after, m.observations[i]).1;
    var base := RawObservation(m, FrozenResults(plan), m.baseline[i]).1;
    x.Some? && y.Some? && base.Some? ==> Improves(m, base.value, x.value, y.value)
  }

  predicate AreaImproves(before: Results, after: Results, m: Metric)
    requires m.observations != []
  {
    var x := RawObservation(m, before, m.observations[0]).1;
    var y := RawObservation(m, after, m.observations[0]).1;
    x.Some? && y.Some? ==> y.value <= x.value
  }

  predicate MetricImproves(plan: ScoredPlan, before: Results, after: Results, m: Metric) {
    && (m.baseline != [] && |m.baseline| == |m.observations| ==>
          forall i :: 0 <= i < |m.baseline| ==> PairImproves(plan, before, after, m, i))
    && (m.id == plan.areaMetric && m.observations != [] ==> AreaImproves(before, after, m))
  }

  /** Every scored observation stays the same or moves in its improving direction. */
  predicate ResultsImprove(plan: ScoredPlan, before: Results, after: Results) {
    forall m :: m in plan.metrics ==> MetricImproves(plan, before, after, m)
  }

  lemma PairMonotone(l: Logs, plan: ScoredPlan, before: Results, after: Results, m: Metric, i: nat)
    requires Laws(l) && Declared(m) && i < |m.baseline| && PairImproves(plan, before, after, m, i)
    requires PairQuality(l, plan, before, m, i).Some? && PairQuality(l, plan, after, m, i).Some?
    ensures PairQuality(l, plan, before, m, i).value <= PairQuality(l, plan, after, m, i).value
  {
    hide RawObservation, FrozenResults, RelativeQuality, Laws, Declared, Improves;
    DeclaredHas(m);
    var x := RawObservation(m, before, m.observations[i]).1;
    var y := RawObservation(m, after, m.observations[i]).1;
    FrozenPassed(plan, m, i);
    var base := RawObservation(m, FrozenResults(plan), m.baseline[i]).1;
    QualityMonotone(l, m, base.value, x.value, y.value);
  }

  lemma FrozenPassed(plan: ScoredPlan, m: Metric, i: nat)
    requires i < |m.baseline|
    ensures RawObservation(m, FrozenResults(plan), m.baseline[i]).0 == Passed
        ==> RawObservation(m, FrozenResults(plan), m.baseline[i]).1.Some?
  {
    hide FrozenResults;
  }

  lemma {:induction false} AttainmentMonotone(l: Logs, plan: ScoredPlan, before: Results, after: Results, m: Metric, k: nat)
    requires Laws(l) && Declared(m) && 1 <= k <= |m.baseline|
    requires forall i :: 0 <= i < |m.baseline| ==> PairImproves(plan, before, after, m, i)
    requires Attainment(l, plan, before, m, k).Some? && Attainment(l, plan, after, m, k).Some?
    ensures Attainment(l, plan, before, m, k).value <= Attainment(l, plan, after, m, k).value
  {
    hide PairQuality, PairImproves, Laws;
    PairMonotone(l, plan, before, after, m, k - 1);
    if k > 1 {
      AttainmentMonotone(l, plan, before, after, m, k - 1);
    }
  }

  predicate FactorsBelow(a: Factors, b: Factors) {
    && Below(a.electrical, b.electrical)
    && (a.area.Some? <==> b.area.Some?)
    && (a.area.Some? ==> 0.0 <= a.area.value <= b.area.value)
  }

  lemma AreaMonotone(target: real, large: real, small: real)
    requires target > 0.0 && 0.0 < small <= large
    ensures 0.0 <= Min(1.0, target / large) <= Min(1.0, target / small)
  {
    NonnegativeQuotient(target, large);
    FractionOrder(target, large, small);
  }

  lemma AddedBelow(l: Logs, plan: ScoredPlan, before: Results, after: Results, a: Factors, b: Factors, m: Metric)
    requires Laws(l) && DeclaredPlan(plan) && m in plan.metrics && MetricImproves(plan, before, after, m)
    requires FactorsBelow(a, b)
    requires AddMetric(l, plan, before, a, m).Some? && AddMetric(l, plan, after, b, m).Some?
    ensures FactorsBelow(AddMetric(l, plan, before, a, m).value, AddMetric(l, plan, after, b, m).value)
  {
    hide Attainment, RawObservation, BaselineJobs, Ids, Laws, Declared, PairImproves;
    if m.id == plan.areaMetric {
      var x := RawObservation(m, before, m.observations[0]).1;
      var y := RawObservation(m, after, m.observations[0]).1;
      AreaMonotone(plan.areaTarget, x.value, y.value);
    } else if m.baseline != [] {
      DeclaredHas(m);
      AttainmentMonotone(l, plan, before, after, m, |m.baseline|);
      AttainmentNonnegative(l, plan, before, m, |m.baseline|);
    }
  }

  lemma {:induction false} CollectedBelow(l: Logs, plan: ScoredPlan, before: Results, after: Results, k: nat)
    requires Laws(l) && DeclaredPlan(plan) && ResultsImprove(plan, before, after) && k <= |plan.metrics|
    requires Collect(l, plan, before, k).Some? && Collect(l, plan, after, k).Some?
    ensures FactorsBelow(Collect(l, plan, before, k).value, Collect(l, plan, after, k).value)
  {
    hide DeclaredPlan, AddMetric, Laws, MetricImproves;
    if k > 0 {
      CollectedBelow(l, plan, before, after, k - 1);
      assert plan.metrics[k - 1] in plan.metrics;
      AddedBelow(l, plan, before, after, Collect(l, plan, before, k - 1).value, Collect(l, plan, after, k - 1).value, plan.metrics[k - 1]);
    }
  }

  lemma CombineMonotone(l: Logs, plan: ScoredPlan, a: Factors, b: Factors)
    requires Laws(l) && FactorsBelow(a, b) && plan.areaMetric in plan.weights
    requires Combine(l, plan, a).value.Some? && Combine(l, plan, b).value.Some?
    ensures Combine(l, plan, a).value.value <= Combine(l, plan, b).value.value
  {
    hide WeightedGeometric, Laws;
    var w := plan.weights[plan.areaMetric];
    MeanMonotone(l, a.electrical + [(a.area.value, w)], b.electrical + [(b.area.value, w)]);
  }

  /** Between two fully scored reports, moving observations in their improving directions never lowers the score. */
  lemma ScoreMonotone(l: Logs, plan: ScoredPlan, before: Results, after: Results)
    requires Laws(l) && DeclaredPlan(plan) && ResultsImprove(plan, before, after)
    requires LayoutScore(l, plan, before).value.Some? && LayoutScore(l, plan, before).gate == Some(1.0)
    requires LayoutScore(l, plan, after).value.Some? && LayoutScore(l, plan, after).gate == Some(1.0)
    ensures LayoutScore(l, plan, before).value.value <= LayoutScore(l, plan, after).value.value
  {
    hide DeclaredPlan, Laws, Collect, Combine, JobState, RawStatus, AllObservationsPassed, ResultsImprove, FactorsBelow;
    AreaWeightedOf(plan);
    CollectedBelow(l, plan, before, after, |plan.metrics|);
    CombineMonotone(l, plan, Collect(l, plan, before, |plan.metrics|).value, Collect(l, plan, after, |plan.metrics|).value);
  }

  // ---- The score at its reference points ---------------------------------------------------

  predicate PairAtAnchor(plan: ScoredPlan, results: Results, m: Metric, i: nat)
    requires i < |m.baseline| == |m.observations|
  {
    var x := RawObservation(m, results, m.observations[i]).1;
    var base := RawObservation(m, FrozenResults(plan), m.baseline[i]).1;
    x.Some? && base.Some? ==> x.value == Anchor(m, base.value)
  }

  /** Every scored observation sits at its quality anchor and the area at its target. */
  predicate AtReference(plan: ScoredPlan, results: Results) {
    forall m :: m in plan.metrics ==> MetricAtReference(plan, results, m)
  }

  predicate MetricAtReference(plan: ScoredPlan, results: Results, m: Metric) {
    && (m.baseline != [] && |m.baseline| == |m.observations| ==>
          forall i :: 0 <= i < |m.baseline| ==> PairAtAnchor(plan, results, m, i))
    && (m.id == plan.areaMetric && m.observations != [] ==>
          RawObservation(m, results, m.observations[0]).1 in {None, Some(plan.areaTarget)})
  }

  lemma PairOne(l: Logs, plan: ScoredPlan, results: Results, m: Metric, i: nat)
    requires Laws(l) && Declared(m) && i < |m.baseline| && PairAtAnchor(plan, results, m, i)
    requires PairQuality(l, plan, results, m, i).Some?
    ensures PairQuality(l, plan, results, m, i) == Some(1.0)
  {
    hide RawObservation, FrozenResults, RelativeQuality, Laws, Declared, Anchor;
    DeclaredHas(m);
    FrozenPassed(plan, m, i);
    QualityAtAnchor(l, m, RawObservation(m, FrozenResults(plan), m.baseline[i]).1.value);
  }

  lemma {:induction false} AttainmentOne(l: Logs, plan: ScoredPlan, results: Results, m: Metric, k: nat)
    requires Laws(l) && Declared(m) && 1 <= k <= |m.baseline|
    requires forall i :: 0 <= i < |m.baseline| ==> PairAtAnchor(plan, results, m, i)
    requires Attainment(l, plan, results, m, k).Some?
    ensures Attainment(l, plan, results, m, k) == Some(1.0)
  {
    hide PairQuality, PairAtAnchor, Laws;
    PairOne(l, plan, results, m, k - 1);
    if k > 1 {
      AttainmentOne(l, plan, results, m, k - 1);
    }
  }

  predicate Ones(values: Weighted) {
    forall i :: 0 <= i < |values| ==> values[i].0 == 1.0
  }

  predicate OneFactors(f: Factors) {
    Ones(f.electrical) && (f.area.Some? ==> f.area.value == 1.0)
  }

  lemma AddedOne(l: Logs, plan: ScoredPlan, results: Results, f: Factors, m: Metric)
    requires Laws(l) && DeclaredPlan(plan) && m in plan.metrics && MetricAtReference(plan, results, m)
    requires OneFactors(f) && AddMetric(l, plan, results, f, m).Some?
    ensures OneFactors(AddMetric(l, plan, results, f, m).value)
  {
    hide Attainment, RawObservation, BaselineJobs, Ids, Laws, Declared, PairAtAnchor;
    if m.id == plan.areaMetric {
      QuotientIs(1.0, plan.areaTarget, plan.areaTarget);
    } else if m.baseline != [] {
      DeclaredHas(m);
      AttainmentOne(l, plan, results, m, |m.baseline|);
    }
  }

  lemma {:induction false} CollectedOnes(l: Logs, plan: ScoredPlan, results: Results, k: nat)
    requires Laws(l) && DeclaredPlan(plan) && AtReference(plan, results) && k <= |plan.metrics|
    requires Collect(l, plan, results, k).Some?
    ensures OneFactors(Collect(l, plan, results, k).value)
  {
    hide DeclaredPlan, AddMetric, Laws, MetricAtReference;
    if k > 0 {
      CollectedOnes(l, plan, results, k - 1);
      assert plan.metrics[k - 1] in plan.metrics;
      AddedOne(l, plan, results, Collect(l, plan, results, k - 1).value, plan.metrics[k - 1]);
    }
  }

  lemma CombineOnes(l: Logs, plan: ScoredPlan, f: Factors)
    requires Laws(l) && OneFactors(f) && plan.areaMetric in plan.weights && Combine(l, plan, f).value.Some?
    ensures Combine(l, plan, f).value == Some(100.0)
  {
    hide WeightedGeometric, Laws;
    MeanOfOnes(l, f.electrical + [(f.area.value, plan.weights[plan.areaMetric])]);
  }

  /** A fully scored report at the reference points scores exactly 100. */
  lemma ReferenceScoresFull(l: Logs, plan: ScoredPlan, results: Results)
    requires Laws(l) && DeclaredPlan(plan) && AtReference(plan, results)
    requires LayoutScore(l, plan, results).value.Some? && LayoutScore(l, plan, results).gate == Some(1.0)
    ensures LayoutScore(l, plan, results).value == Some(100.0)
  {
    hide DeclaredPlan, Laws, Collect, Combine, JobState, RawStatus, AllObservationsPassed, AtReference, OneFactors;
    AreaWeightedOf(plan);
    CollectedOnes(l, plan, results, |plan.metrics|);
    CombineOnes(l, plan, Collect(l, plan, results, |plan.metrics|).value);
  }
}
