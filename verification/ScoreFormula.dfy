/** The layout score in closed form, from the measurements themselves. */
module ScoreFormula {
  import opened Prelude
  import opened Plans
  import opened Runner
  import opened Metrics
  import opened Quality
  import opened Scoring
  import opened Verdicts

  // ---- What has to be there ------------------------------------------------------------------

  /** The observation was measured in the metric's unit, and the value is within the metric's bounds. */
  predicate IsMeasured(metric: Metric, measurements: map<Id, Measurement>, name: Id) {
    name in measurements && measurements[name].unit == metric.unit && InBounds(metric, measurements[name].value)
  }

  predicate InBounds(metric: Metric, value: real) {
    (metric.lower.None? || metric.lower.value <= value) && (metric.upper.None? || value <= metric.upper.value)
  }

  predicate CandidateMeasured(metric: Metric, results: Results) {
    forall o :: o in metric.observations ==>
      o.job in results && results[o.job].status == Passed && IsMeasured(metric, results[o.job].measurements, o.name)
  }

  predicate BaselineMeasured(plan: ScoredPlan, metric: Metric) {
    forall i :: 0 <= i < |metric.baseline| ==>
      metric.baseline[i].job in plan.frozen && IsMeasured(metric, plan.frozen[metric.baseline[i].job], metric.baseline[i].name)
  }

  /** The value of a measured observation. */
  function ValueAt(results: Results, o: Observation): (v: real)
    requires o.job in results && o.name in results[o.job].measurements
  {
    results[o.job].measurements[o.name].value
  }

  /** The quality of the `i`-th observation of the candidate against the `i`-th of the baseline. */
  function PairedQuality(l: Logs, plan: ScoredPlan, results: Results, metric: Metric, i: nat): (q: Option<real>)
    requires Declared(metric) && CandidateMeasured(metric, results) && BaselineMeasured(plan, metric) && i < |metric.baseline|
  {
    assert metric.observations[i] in metric.observations;
    RelativeQuality(l, metric, ValueAt(results, metric.observations[i]),
      plan.frozen[metric.baseline[i].job][metric.baseline[i].name].value)
  }

  predicate MetricScored(l: Logs, plan: ScoredPlan, results: Results, metric: Metric)
    requires DeclaredPlan(plan) && metric in plan.metrics
  {
    && CandidateMeasured(metric, results)
    && (metric.id == plan.areaMetric ==> AreaOf(results, metric) > 0.0)
    && (metric.baseline != [] ==>
          BaselineMeasured(plan, metric)
          && forall i :: 0 <= i < |metric.baseline| ==> PairedQuality(l, plan, results, metric, i).Some?)
  }

  function AreaOf(results: Results, metric: Metric): (a: real)
    requires metric.observations != [] && CandidateMeasured(metric, results)
  {
    assert metric.observations[0] in metric.observations;
    ValueAt(results, metric.observations[0])
  }

  /** Every job passed, and every metric was measured and has its qualities. */
  predicate FullyScored(l: Logs, plan: ScoredPlan, results: Results)
    requires DeclaredPlan(plan)
  {
    && (forall job :: job in plan.jobs ==> job.id in results && results[job.id].status == Passed)
    && forall m :: m in plan.metrics ==> MetricScored(l, plan, results, m)
  }

  // ---- The formula ---------------------------------------------------------------------------

  /** The least of the paired qualities. */
  predicate IsLeast(l: Logs, plan: ScoredPlan, results: Results, metric: Metric, q: real)
    requires DeclaredPlan(plan) && metric in plan.metrics && metric.baseline != [] && MetricScored(l, plan, results, metric)
  {
    && (forall i :: 0 <= i < |metric.baseline| ==> q <= PairedQuality(l, plan, results, metric, i).value)
    && exists i :: 0 <= i < |metric.baseline| && q == PairedQuality(l, plan, results, metric, i).value
  }

  /** One quality for every metric: the least of its paired qualities when it has a baseline. */
  predicate Qualities(l: Logs, plan: ScoredPlan, results: Results, qs: seq<real>)
    requires DeclaredPlan(plan) && FullyScored(l, plan, results)
  {
    && |qs| == |plan.metrics|
    && forall k :: 0 <= k < |qs| && plan.metrics[k].baseline != [] ==> IsLeast(l, plan, results, plan.metrics[k], qs[k])
  }

  /** The metric's weight, if it is an electrical one. */
  function WeightOf(plan: ScoredPlan, metric: Metric): (w: real) {
    if metric.baseline != [] && metric.id in plan.weights then plan.weights[metric.id] else 0.0
  }

  function WeightSum(plan: ScoredPlan, k: nat): (w: real)
    requires k <= |plan.metrics|
  {
    if k == 0 then 0.0 else WeightSum(plan, k - 1) + WeightOf(plan, plan.metrics[k - 1])
  }

  /** The weighted logarithms of the credited qualities of the first `k` metrics. */
  function CreditSum(l: Logs, plan: ScoredPlan, qs: seq<real>, total: real, k: nat): (s: real)
    requires k <= |plan.metrics| == |qs| && total != 0.0
  {
    if k == 0 then 0.0
    else Credited(l, CreditSum(l, plan, qs, total, k - 1), Min(1.0, qs[k - 1]), WeightOf(plan, plan.metrics[k - 1]) / total)
  }

  /** The weight of all electrical metrics. */
  function Weight(plan: ScoredPlan): (w: real) { WeightSum(plan, |plan.metrics|) }

  /** The weighted logarithms of all credited qualities. */
  function Credit(l: Logs, plan: ScoredPlan, qs: seq<real>, total: real): (s: real)
    requires |plan.metrics| == |qs| && total != 0.0
  {
    CreditSum(l, plan, qs, total, |plan.metrics|)
  }

  /** One more weighted logarithm. */
  function Credited(l: Logs, credit: real, value: real, share: real): (sum: real) {
    credit + l.ln(value) * share
  }

  /** Some metric that counts has no quality at all. */
  predicate NoQuality(plan: ScoredPlan, qs: seq<real>)
    requires |qs| == |plan.metrics|
  {
    exists k :: 0 <= k < |qs| && WeightOf(plan, plan.metrics[k]) > 0.0 && qs[k] == 0.0
  }

  /** The area metric, which is the only one of its name. */
  predicate IsArea(plan: ScoredPlan, a: Metric) {
    a in plan.metrics && a.id == plan.areaMetric && forall m :: m in plan.metrics && m.id == plan.areaMetric ==> m == a
  }

  // ---- Readings and qualities ----------------------------------------------------------------

  lemma RawIsMeasured(metric: Metric, results: Results, o: Observation)
    requires metric.unit != ""
    ensures RawObservation(metric, results, o).0 == Passed <==>
      o.job in results && results[o.job].status == Passed && IsMeasured(metric, results[o.job].measurements, o.name)
    ensures RawObservation(metric, results, o).0 == Passed ==> RawObservation(metric, results, o).1 == Some(ValueAt(results, o))
  {
  }

  lemma PairIsPaired(l: Logs, plan: ScoredPlan, results: Results, metric: Metric, i: nat)
    requires Declared(metric) && metric.unit != "" && CandidateMeasured(metric, results) && i < |metric.baseline|
    ensures PairQuality(l, plan, results, metric, i).Some? ==>
      var b := metric.baseline[i];
      b.job in plan.frozen && IsMeasured(metric, plan.frozen[b.job], b.name)
    ensures BaselineMeasured(plan, metric) ==> PairQuality(l, plan, results, metric, i) == PairedQuality(l, plan, results, metric, i)
  {
    hide RelativeQuality, Declared;
    DeclaredLengths(metric);
    assert metric.observations[i] in metric.observations;
    RawIsMeasured(metric, results, metric.observations[i]);
    RawIsMeasured(metric, FrozenResults(plan), metric.baseline[i]);
  }

  lemma DeclaredLengths(metric: Metric)
    requires Declared(metric)
    ensures |metric.baseline| == |metric.observations| > 0
  {
  }

  /** The first `k` pairs have qualities exactly when the attainment exists, which is then the least of them. */
  lemma {:induction false} AttainmentIsLeast(l: Logs, plan: ScoredPlan, results: Results, metric: Metric, k: nat)
    requires Declared(metric) && 1 <= k <= |metric.baseline|
    ensures
      var q := Attainment(l, plan, results, metric, k);
      && (q.Some? <==> forall i :: 0 <= i < k ==> PairQuality(l, plan, results, metric, i).Some?)
      && (q.Some? ==>
        && (forall i :: 0 <= i < k ==> q.value <= PairQuality(l, plan, results, metric, i).value)
        && exists i :: 0 <= i < k && q.value == PairQuality(l, plan, results, metric, i).value)
  {
    hide PairQuality, Declared;
    if k > 1 {
      AttainmentIsLeast(l, plan, results, metric, k - 1);
    }
    assert PairQuality(l, plan, results, metric, k - 1) == PairQuality(l, plan, results, metric, k - 1);
  }

  lemma DeclaredFacts(plan: ScoredPlan, metric: Metric)
    requires DeclaredPlan(plan) && metric in plan.metrics
    ensures metric.observations != [] && metric.unit != "" && plan.areaTarget > 0.0 && plan.areaMetric in plan.weights
    ensures metric.baseline != [] ==> Declared(metric) && metric.id in plan.weights && metric.id != plan.areaMetric
    ensures forall id :: id in plan.weights ==> plan.weights[id] >= 0.0
  {
    hide Declared;
  }

  /** One metric contributes, whatever has been collected before, exactly when it is scored. */
  lemma MetricAdds(l: Logs, plan: ScoredPlan, results: Results, f: Factors, metric: Metric)
    requires DeclaredPlan(plan) && metric in plan.metrics && CandidateMeasured(metric, results)
    ensures AddMetric(l, plan, results, f, metric).Some? <==> MetricScored(l, plan, results, metric)
  {
    hide DeclaredPlan, Declared, RelativeQuality, Attainment, PairQuality;
    DeclaredFacts(plan, metric);
    if metric.id == plan.areaMetric {
      assert metric.observations[0] in metric.observations;
      RawIsMeasured(metric, results, metric.observations[0]);
    } else if metric.baseline != [] {
      AttainmentIsLeast(l, plan, results, metric, |metric.baseline|);
      forall i | 0 <= i < |metric.baseline|
        ensures PairQuality(l, plan, results, metric, i).Some? ==>
          var b := metric.baseline[i];
          b.job in plan.frozen && IsMeasured(metric, plan.frozen[b.job], b.name)
        ensures BaselineMeasured(plan, metric) ==> PairQuality(l, plan, results, metric, i) == PairedQuality(l, plan, results, metric, i)
      {
        PairIsPaired(l, plan, results, metric, i);
      }
    }
  }

  /** What a scored metric contributes. */
  lemma MetricContributes(l: Logs, plan: ScoredPlan, results: Results, f: Factors, metric: Metric, q: real)
    requires DeclaredPlan(plan) && metric in plan.metrics && MetricScored(l, plan, results, metric)
    requires metric.baseline != [] ==> IsLeast(l, plan, results, metric, q)
    ensures AddMetric(l, plan, results, f, metric) == Some(
      if metric.id == plan.areaMetric then f.(area := Some(Min(1.0, plan.areaTarget / AreaOf(results, metric))))
      else if metric.baseline == [] then f
      else f.(electrical := f.electrical + [(Min(1.0, q), plan.weights[metric.id])]))
  {
    hide DeclaredPlan, Declared, RelativeQuality, Attainment, PairQuality;
    DeclaredFacts(plan, metric);
    if metric.id == plan.areaMetric {
      assert metric.observations[0] in metric.observations;
      RawIsMeasured(metric, results, metric.observations[0]);
    } else if metric.baseline != [] {
      AttainmentIsLeast(l, plan, results, metric, |metric.baseline|);
      forall i | 0 <= i < |metric.baseline|
        ensures PairQuality(l, plan, results, metric, i) == PairedQuality(l, plan, results, metric, i)
      {
        PairIsPaired(l, plan, results, metric, i);
      }
    }
  }

  // ---- What the loop collects ----------------------------------------------------------------

  function Electrical(plan: ScoredPlan, qs: seq<real>, k: nat): (v: Weighted)
    requires k <= |plan.metrics| == |qs|
  {
    if k == 0 then []
    else
      Electrical(plan, qs, k - 1)
      + (if plan.metrics[k - 1].baseline == [] then [] else [(Min(1.0, qs[k - 1]), WeightOf(plan, plan.metrics[k - 1]))])
  }

  function AreaSeen(plan: ScoredPlan, a: Metric, q: real, k: nat): (area: Option<real>)
    requires k <= |plan.metrics|
  {
    if a in plan.metrics[..k] then Some(q) else None
  }

  lemma AreaSeenNext(plan: ScoredPlan, a: Metric, q: real, k: nat)
    requires k < |plan.metrics|
    ensures AreaSeen(plan, a, q, k + 1) == if plan.metrics[k] == a then Some(q) else AreaSeen(plan, a, q, k)
  {
    assert plan.metrics[..k + 1] == plan.metrics[..k] + [plan.metrics[k]];
  }

  lemma {:induction false} Collected(l: Logs, plan: ScoredPlan, results: Results, qs: seq<real>, a: Metric, k: nat)
    requires DeclaredPlan(plan) && FullyScored(l, plan, results) && Qualities(l, plan, results, qs) && IsArea(plan, a)
    requires k <= |plan.metrics|
    ensures
      var q := Min(1.0, plan.areaTarget / AreaOf(results, a));
      Collect(l, plan, results, k) == Some(Factors(Electrical(plan, qs, k), AreaSeen(plan, a, q, k)))
  {
    hide DeclaredPlan, AddMetric, AreaSeen, AreaOf, MetricScored, IsLeast;
    AreaScored(l, plan, results, a);
    var q := Min(1.0, plan.areaTarget / AreaOf(results, a));
    if k == 0 {
      assert AreaSeen(plan, a, q, 0) == None by { NothingSeen(plan, a, q); }
    } else {
      Collected(l, plan, results, qs, a, k - 1);
      var metric := plan.metrics[k - 1];
      DeclaredFacts(plan, metric);
      MetricContributes(l, plan, results, Factors(Electrical(plan, qs, k - 1), AreaSeen(plan, a, q, k - 1)), metric, qs[k - 1]);
      AreaSeenNext(plan, a, q, k - 1);
      assert metric.id == plan.areaMetric <==> metric == a;
      assert Electrical(plan, qs, k - 1) + [] == Electrical(plan, qs, k - 1);
      assert metric.baseline != [] ==> WeightOf(plan, metric) == plan.weights[metric.id];
    }
  }

  lemma NothingSeen(plan: ScoredPlan, a: Metric, q: real)
    ensures AreaSeen(plan, a, q, 0) == None
  {
  }

  lemma AreaScored(l: Logs, plan: ScoredPlan, results: Results, a: Metric)
    requires DeclaredPlan(plan) && FullyScored(l, plan, results) && IsArea(plan, a)
    ensures a.observations != [] && CandidateMeasured(a, results) && AreaOf(results, a) > 0.0 && a.baseline == []
    ensures plan.areaTarget / AreaOf(results, a) > 0.0
  {
    hide DeclaredPlan;
    DeclaredFacts(plan, a);
    assert MetricScored(l, plan, results, a);
    PositiveQuotient(plan.areaTarget, AreaOf(results, a));
  }

  lemma PositiveQuotient(x: real, y: real)
    requires x > 0.0 && y > 0.0
    ensures x / y > 0.0
  {
    QuotientIs(x / y, x, y);
  }

  // ---- Sums ----------------------------------------------------------------------------------

  predicate Weighs(values: Weighted) { forall i :: 0 <= i < |values| ==> values[i].1 >= 0.0 }

  /** A value of zero that counts. */
  predicate CountsZero(values: Weighted) { exists i :: 0 <= i < |values| && values[i].1 > 0.0 && values[i].0 == 0.0 }

  lemma CountsZeroSnoc(values: Weighted, last: (real, real))
    ensures CountsZero(values + [last]) <==> CountsZero(values) || (last.1 > 0.0 && last.0 == 0.0)
  {
    var all := values + [last];
    if CountsZero(values) {
      var i :| 0 <= i < |values| && values[i].1 > 0.0 && values[i].0 == 0.0;
      assert all[i] == values[i];
    }
    assert all[|values|] == last;
  }

  lemma SomeZeroSnoc(values: Weighted, last: (real, real))
    ensures SomeZero(values + [last]) <==> SomeZero(values) || last.0 == 0.0
  {
    var all := values + [last];
    if SomeZero(values) {
      var i :| 0 <= i < |values| && values[i].0 == 0.0;
      assert all[i] == values[i];
    }
    assert all[|values|] == last;
  }

  lemma WeightlessTerm(x: real, w: real, total: real)
    requires w == 0.0 && total != 0.0
    ensures x * (w / total) == 0.0
  {
  }

  /** Values without weight add nothing. */
  lemma {:induction false} ActiveSums(l: Logs, values: Weighted, total: real)
    requires Weighs(values) && total != 0.0
    ensures Total(Active(values)) == Total(values) >= 0.0
    ensures LogSum(l, Active(values), total) == LogSum(l, values, total)
    ensures SomeZero(Active(values)) <==> CountsZero(values)
  {
    hide SomeZero, CountsZero;
    if values == [] {
      assert !SomeZero([]) && !CountsZero([]) by { NoZeros(); }
    } else {
      var front, last := values[..|values| - 1], values[|values| - 1];
      assert values == front + [last];
      ActiveSums(l, front, total);
      CountsZeroSnoc(front, last);
      if last.1 > 0.0 {
        SomeZeroSnoc(Active(front), last);
      } else {
        WeightlessTerm(l.ln(last.0), last.1, total);
      }
    }
  }

  lemma NoZeros()
    ensures !SomeZero([]) && !CountsZero([])
  {
  }

  /** The mean of weighted values with a positive total weight. */
  lemma MeanIs(l: Logs, values: Weighted)
    requires Weighs(values) && Total(values) > 0.0
    ensures WeightedGeometric(l, values)
         == Some(if CountsZero(values) then 0.0 else l.exp(LogSum(l, values, Total(values))))
  {
    hide Active, Total, LogSum, SomeZero, CountsZero, Weighs;
    ActiveSums(l, values, Total(values));
    if Active(values) == [] {
      assert Total([]) == 0.0 by { NoTotal(); }
    }
  }

  lemma NoTotal()
    ensures Total([]) == 0.0
  {
  }

  predicate CreditZero(plan: ScoredPlan, qs: seq<real>, k: nat)
    requires k <= |qs| == |plan.metrics|
  {
    exists j :: 0 <= j < k && WeightOf(plan, plan.metrics[j]) > 0.0 && qs[j] == 0.0
  }

  lemma {:induction false} ElectricalSums(l: Logs, plan: ScoredPlan, qs: seq<real>, total: real, k: nat)
    requires k <= |plan.metrics| == |qs| && total != 0.0 && forall id :: id in plan.weights ==> plan.weights[id] >= 0.0
    ensures Weighs(Electrical(plan, qs, k)) && Total(Electrical(plan, qs, k)) == WeightSum(plan, k)
    ensures LogSum(l, Electrical(plan, qs, k), total) == CreditSum(l, plan, qs, total, k)
    ensures CountsZero(Electrical(plan, qs, k)) <==> CreditZero(plan, qs, k)
  {
    hide CountsZero, CreditZero, Weighs, WeightOf, Total, LogSum, Min;
    if k == 0 {
      NothingCounts(l, plan, qs, total);
    } else {
      ElectricalSums(l, plan, qs, total, k - 1);
      var front, metric := Electrical(plan, qs, k - 1), plan.metrics[k - 1];
      CreditZeroNext(plan, qs, k - 1);
      WeightKnown(plan, metric);
      if metric.baseline == [] {
        WeightlessTerm(l.ln(Min(1.0, qs[k - 1])), WeightOf(plan, metric), total);
        assert front + [] == front;
      } else {
        ValueAppended(l, front, Min(1.0, qs[k - 1]), WeightOf(plan, metric), total);
        CreditedZero(qs[k - 1]);
      }
    }
  }

  lemma NothingCounts(l: Logs, plan: ScoredPlan, qs: seq<real>, total: real)
    requires |qs| == |plan.metrics| && total != 0.0
    ensures !CountsZero([]) && !CreditZero(plan, qs, 0) && Weighs([]) && Total([]) == 0.0 && LogSum(l, [], total) == 0.0
  {
  }

  lemma CreditZeroNext(plan: ScoredPlan, qs: seq<real>, k: nat)
    requires k < |qs| == |plan.metrics|
    ensures CreditZero(plan, qs, k + 1) <==> CreditZero(plan, qs, k) || (WeightOf(plan, plan.metrics[k]) > 0.0 && qs[k] == 0.0)
  {
    hide WeightOf;
  }

  lemma CreditedZero(q: real)
    ensures Min(1.0, q) == 0.0 <==> q == 0.0
  {
  }

  lemma WeightKnown(plan: ScoredPlan, metric: Metric)
    requires forall id :: id in plan.weights ==> plan.weights[id] >= 0.0
    ensures WeightOf(plan, metric) >= 0.0 && (metric.baseline == [] ==> WeightOf(plan, metric) == 0.0)
  {
  }

  /** One more weighted value. */
  lemma ValueAppended(l: Logs, values: Weighted, value: real, weight: real, total: real)
    requires Weighs(values) && weight >= 0.0 && total != 0.0
    ensures
      var all := values + [(value, weight)];
      && Weighs(all) && Total(all) == Total(values) + weight
      && LogSum(l, all, total) == LogSum(l, values, total) + l.ln(value) * (weight / total)
      && (CountsZero(all) <==> CountsZero(values) || (weight > 0.0 && value == 0.0))
  {
    hide CountsZero;
    var all := values + [(value, weight)];
    assert all[..|values|] == values;
    CountsZeroSnoc(values, (value, weight));
  }

  lemma {:induction false} WeightSumPositive(plan: ScoredPlan, k: nat)
    requires DeclaredPlan(plan) && k <= |plan.metrics|
    ensures WeightSum(plan, k) >= 0.0
    ensures (exists j :: 0 <= j < k && WeightOf(plan, plan.metrics[j]) > 0.0) ==> WeightSum(plan, k) > 0.0
  {
    hide DeclaredPlan;
    if k > 0 {
      WeightSumPositive(plan, k - 1);
      DeclaredFacts(plan, plan.metrics[k - 1]);
    }
  }

  lemma SomeWeight(plan: ScoredPlan)
    requires DeclaredPlan(plan)
    ensures Weight(plan) > 0.0
  {
    hide Declared;
    var m :| m in plan.metrics && m.baseline != [] && plan.weights[m.id] > 0.0;
    var j :| 0 <= j < |plan.metrics| && plan.metrics[j] == m;
    assert WeightOf(plan, plan.metrics[j]) > 0.0;
    WeightSumPositive(plan, |plan.metrics|);
  }

  // ---- The score -----------------------------------------------------------------------------

  /** The observation was measured in the metric's unit, and the value is outside the metric's bounds. */
  predicate IsRejected(metric: Metric, results: Results, o: Observation) {
    && o.job in results && results[o.job].status == Passed && o.name in results[o.job].measurements
    && results[o.job].measurements[o.name].unit == metric.unit && !InBounds(metric, results[o.job].measurements[o.name].value)
  }

  /** The score is that of a rejection exactly if a job failed or a measured value is outside its bounds. */
  lemma RejectedExactly(l: Logs, plan: ScoredPlan, results: Results)
    requires DeclaredPlan(plan) && Ran(plan, results)
    ensures LayoutScore(l, plan, results).gate == Some(0.0) <==>
      || (exists id :: id in results && results[id].status == Failed)
      || exists m, o :: m in plan.metrics && o in m.observations && IsRejected(m, results, o)
  {
    hide DeclaredPlan, Ran, LayoutScore;
    ZeroGateExactly(l, plan, results);
    forall m, o | m in plan.metrics && o in m.observations
      ensures RawObservation(m, results, o).0 == Failed <==> IsRejected(m, results, o)
    {
      DeclaredFacts(plan, m);
    }
  }

  lemma GateOpen(l: Logs, plan: ScoredPlan, results: Results)
    requires DeclaredPlan(plan)
    ensures (JobState(plan, results) == Some(1.0) && !RawStatus(plan, results, Failed) && AllObservationsPassed(plan, results)) <==>
      && (forall job :: job in plan.jobs ==> job.id in results && results[job.id].status == Passed)
      && forall m :: m in plan.metrics ==> CandidateMeasured(m, results)
  {
    hide DeclaredPlan, BaselineJobs;
    forall m, o | m in plan.metrics && o in m.observations
      ensures RawObservation(m, results, o).0 == Passed <==>
        o.job in results && results[o.job].status == Passed && IsMeasured(m, results[o.job].measurements, o.name)
    {
      DeclaredFacts(plan, m);
      RawIsMeasured(m, results, o);
    }
  }

  lemma {:induction false} CollectsAll(l: Logs, plan: ScoredPlan, results: Results, k: nat)
    requires DeclaredPlan(plan) && k <= |plan.metrics| && forall m :: m in plan.metrics ==> CandidateMeasured(m, results)
    ensures Collect(l, plan, results, k).Some? <==>
      forall j :: 0 <= j < k ==> MetricScored(l, plan, results, plan.metrics[j])
  {
    hide DeclaredPlan, AddMetric, MetricScored, CandidateMeasured;
    if k > 0 {
      CollectsAll(l, plan, results, k - 1);
      if Collect(l, plan, results, k - 1).Some? {
        MetricAdds(l, plan, results, Collect(l, plan, results, k - 1).value, plan.metrics[k - 1]);
      }
    }
  }

  function TotalOf(values: Weighted): (t: real) { Total(values) }

  function LogsOf(l: Logs, values: Weighted, total: real): (s: real)
    requires total != 0.0
  {
    LogSum(l, values, total)
  }

  lemma MeanOf(l: Logs, values: Weighted)
    requires Weighs(values) && TotalOf(values) > 0.0
    ensures CountsZero(values) ==> WeightedGeometric(l, values) == Some(0.0)
    ensures !CountsZero(values) ==> WeightedGeometric(l, values) == Some(l.exp(LogsOf(l, values, TotalOf(values))))
  {
    hide Weighs, CountsZero, WeightedGeometric;
    MeanIs(l, values);
  }

  lemma AppendedOf(l: Logs, values: Weighted, value: real, weight: real, total: real)
    requires Weighs(values) && weight >= 0.0 && total != 0.0
    ensures
      var all := values + [(value, weight)];
      && Weighs(all) && TotalOf(all) == TotalOf(values) + weight
      && LogsOf(l, all, total) == Credited(l, LogsOf(l, values, total), value, weight / total)
      && (CountsZero(all) <==> CountsZero(values) || (weight > 0.0 && value == 0.0))
  {
    hide Weighs, CountsZero;
    ValueAppended(l, values, value, weight, total);
  }

  lemma ElectricalOf(l: Logs, plan: ScoredPlan, qs: seq<real>, total: real)
    requires |plan.metrics| == |qs| && total != 0.0 && forall id :: id in plan.weights ==> plan.weights[id] >= 0.0
    ensures
      var values := Electrical(plan, qs, |plan.metrics|);
      && Weighs(values) && TotalOf(values) == Weight(plan) && LogsOf(l, values, total) == Credit(l, plan, qs, total)
      && (CountsZero(values) <==> NoQuality(plan, qs))
  {
    hide Weighs, CountsZero, Electrical, WeightOf;
    ElectricalSums(l, plan, qs, total, |plan.metrics|);
  }

  /** The score in closed form: what it is worth, its electrical and its area component. */
  ghost predicate ScoreIs(l: Logs, plan: ScoredPlan, results: Results, qs: seq<real>, a: Metric, s: Score)
    requires DeclaredPlan(plan) && FullyScored(l, plan, results) && Qualities(l, plan, results, qs) && IsArea(plan, a)
  {
    AreaScored(l, plan, results, a);
    SomeWeight(plan);
    DeclaredFacts(plan, a);
    var area := Min(1.0, plan.areaTarget / AreaOf(results, a));
    var weight := plan.weights[plan.areaMetric];
    var total := Weight(plan) + weight;
    && s.gate == Some(1.0) && s.area == Some(area)
    && (NoQuality(plan, qs) ==> s.electrical == Some(0.0) && s.value == Some(0.0))
    && (!NoQuality(plan, qs) ==>
          && s.electrical == Some(l.exp(Credit(l, plan, qs, Weight(plan))))
          && s.value == Some(100.0 * l.exp(Credited(l, Credit(l, plan, qs, total), area, weight / total))))
  }

  /**
   * A fully scored report is worth a hundred times the weighted geometric mean of the credited qualities, each with the
   * weight of its own metric: the least paired quality of every metric with a baseline, and target over area. A quality
   * of zero that counts makes it zero.
   */
  lemma ScoreInClosedForm(l: Logs, plan: ScoredPlan, results: Results, qs: seq<real>, a: Metric)
    requires DeclaredPlan(plan) && FullyScored(l, plan, results) && Qualities(l, plan, results, qs) && IsArea(plan, a)
    ensures ScoreIs(l, plan, results, qs, a, LayoutScore(l, plan, results))
  {
    hide DeclaredPlan, FullyScored, IsLeast, Electrical, Weighs, CountsZero, Credit, Weight, TotalOf, LogsOf, AreaOf, LayoutScore,
      Combine, NoQuality, Credited;
    AreaScored(l, plan, results, a);
    DeclaredFacts(plan, a);
    SomeWeight(plan);
    ScoreCombined(l, plan, results, qs, a);
    var values, area := Electrical(plan, qs, |plan.metrics|), Min(1.0, plan.areaTarget / AreaOf(results, a));
    var weight := plan.weights[plan.areaMetric];
    var total := Weight(plan) + weight;
    ElectricalOf(l, plan, qs, Weight(plan));
    ElectricalOf(l, plan, qs, total);
    CombinesTo(l, plan, values, area, total);
  }

  /** The score is that of the electrical values and the area. */
  lemma ScoreCombined(l: Logs, plan: ScoredPlan, results: Results, qs: seq<real>, a: Metric)
    requires DeclaredPlan(plan) && FullyScored(l, plan, results) && Qualities(l, plan, results, qs) && IsArea(plan, a)
    requires a.observations != [] && CandidateMeasured(a, results) && AreaOf(results, a) > 0.0 && plan.areaMetric in plan.weights
    ensures
      var area := Min(1.0, plan.areaTarget / AreaOf(results, a));
      LayoutScore(l, plan, results) == Combine(l, plan, Factors(Electrical(plan, qs, |plan.metrics|), Some(area)))
  {
    hide DeclaredPlan, FullyScored, Qualities, Combine, AreaOf, JobState, RawStatus, AllObservationsPassed, AreaSeen;
    AllMeasured(l, plan, results);
    GateOpen(l, plan, results);
    Collected(l, plan, results, qs, a, |plan.metrics|);
    AllSeen(plan, a, Min(1.0, plan.areaTarget / AreaOf(results, a)));
  }

  lemma CombinesTo(l: Logs, plan: ScoredPlan, values: Weighted, area: real, total: real)
    requires plan.areaMetric in plan.weights && plan.weights[plan.areaMetric] >= 0.0
    requires Weighs(values) && TotalOf(values) > 0.0 && area > 0.0 && total == TotalOf(values) + plan.weights[plan.areaMetric]
    ensures
      var s := Combine(l, plan, Factors(values, Some(area)));
      && s.gate == Some(1.0) && s.area == Some(area)
      && (CountsZero(values) ==> s.electrical == Some(0.0) && s.value == Some(0.0))
      && (!CountsZero(values) ==>
            && s.electrical == Some(l.exp(LogsOf(l, values, TotalOf(values))))
            && s.value == Some(100.0 * l.exp(Credited(l, LogsOf(l, values, total), area, plan.weights[plan.areaMetric] / total))))
  {
    hide WeightedGeometric, Weighs, CountsZero, TotalOf, LogsOf, Credited;
    var weight := plan.weights[plan.areaMetric];
    var all := values + [(area, weight)];
    MeanOf(l, values);
    AppendedOf(l, values, area, weight, total);
    MeanOf(l, all);
  }

  lemma AllMeasured(l: Logs, plan: ScoredPlan, results: Results)
    requires DeclaredPlan(plan) && FullyScored(l, plan, results)
    ensures forall job :: job in plan.jobs ==> job.id in results && results[job.id].status == Passed
    ensures forall m :: m in plan.metrics ==> CandidateMeasured(m, results)
  {
    hide DeclaredPlan, CandidateMeasured;
    forall m | m in plan.metrics ensures CandidateMeasured(m, results) {
      assert MetricScored(l, plan, results, m);
    }
  }

  lemma AllSeen(plan: ScoredPlan, a: Metric, q: real)
    requires a in plan.metrics
    ensures AreaSeen(plan, a, q, |plan.metrics|) == Some(q)
  {
    assert plan.metrics[..|plan.metrics|] == plan.metrics;
  }

  /** A report has a score other than that of a rejection exactly when every job passed and every metric is scored. */
  lemma ScoredExactly(l: Logs, plan: ScoredPlan, results: Results, a: Metric)
    requires DeclaredPlan(plan) && IsArea(plan, a)
    ensures FullyScored(l, plan, results) <==>
      LayoutScore(l, plan, results).gate == Some(1.0) && LayoutScore(l, plan, results).value.Some?
  {
    hide DeclaredPlan, MetricScored, Combine, GateFailed, CandidateJobFailed, AllJobsPassed, RawStatus, AllObservationsPassed, Collect,
      CandidateMeasured;
    GateOpen(l, plan, results);
    if FullyScored(l, plan, results) {
      var chosen := LeastQualities(l, plan, results, |plan.metrics|);
      ScoreInClosedForm(l, plan, results, chosen, a);
    } else if forall m :: m in plan.metrics ==> CandidateMeasured(m, results) {
      CollectsAll(l, plan, results, |plan.metrics|);
      if Collect(l, plan, results, |plan.metrics|).Some? {
        forall m | m in plan.metrics ensures MetricScored(l, plan, results, m) {
          var j :| 0 <= j < |plan.metrics| && plan.metrics[j] == m;
        }
      }
    }
  }

  lemma {:induction false} LeastQualities(l: Logs, plan: ScoredPlan, results: Results, k: nat) returns (qs: seq<real>)
    requires DeclaredPlan(plan) && FullyScored(l, plan, results) && k <= |plan.metrics|
    ensures |qs| == k && forall j :: 0 <= j < k && plan.metrics[j].baseline != [] ==> IsLeast(l, plan, results, plan.metrics[j], qs[j])
  {
    hide DeclaredPlan, MetricScored, IsLeast;
    if k == 0 {
      qs := [];
    } else {
      qs := LeastQualities(l, plan, results, k - 1);
      var metric := plan.metrics[k - 1];
      var q := 0.0;
      if metric.baseline != [] {
        q := LeastOf(l, plan, results, metric);
      }
      qs := qs + [q];
    }
  }

  lemma LeastOf(l: Logs, plan: ScoredPlan, results: Results, metric: Metric) returns (q: real)
    requires DeclaredPlan(plan) && metric in plan.metrics && metric.baseline != [] && MetricScored(l, plan, results, metric)
    ensures IsLeast(l, plan, results, metric, q)
  {
    hide DeclaredPlan, Declared, PairQuality, PairedQuality;
    DeclaredFacts(plan, metric);
    AttainmentIsLeast(l, plan, results, metric, |metric.baseline|);
    forall i | 0 <= i < |metric.baseline|
      ensures PairQuality(l, plan, results, metric, i) == PairedQuality(l, plan, results, metric, i)
    {
      PairIsPaired(l, plan, results, metric, i);
    }
    q := Attainment(l, plan, results, metric, |metric.baseline|).value;
  }
}
