/** The runner's verdict and the independently computed layout score. */
module Scoring {
  import opened Prelude
  import opened Plans
  import opened Runner
  import opened Metrics
  import opened Quality

  /** The parts of a scored post-layout plan that verdict and score depend on. */
  datatype ScoredPlan = ScoredPlan(
    jobs: seq<Job>, metrics: seq<Metric>, areaMetric: Id, areaTarget: real, weights: map<Id, real>,
    frozen: map<Id, map<Id, Measurement>>)

  type Results = map<Id, JobResult>

  datatype Outcome = OutcomeFailed | OutcomeError | OutcomeIncomplete | OutcomePassed

  // ---- The runner's side -------------------------------------------------------------------

  /** One observation as the runner reports it. */
  function Observe(metric: Metric, results: Results, o: Observation): (s: (Status, Option<real>))
    requires o.job in results
  {
    var r := results[o.job];
    if r.status != Passed then (Blocked, None)
    else if o.name !in r.measurements then (Error, None)
    else if r.measurements[o.name].unit != metric.unit then (Error, None)
    else
      var value := r.measurements[o.name].value;
      (if Within(metric, value) then Passed else Failed, Some(value))
  }

  predicate Observed(metric: Metric, results: Results) {
    forall o :: o in metric.observations ==> o.job in results
  }

  predicate SomeObservation(metric: Metric, results: Results, status: Status)
    requires Observed(metric, results)
  {
    exists o :: o in metric.observations && Observe(metric, results, o).0 == status
  }

  function MetricStatus(metric: Metric, results: Results): (s: Status)
    requires Observed(metric, results)
  {
    if SomeObservation(metric, results, Error) then Error
    else if SomeObservation(metric, results, Blocked) then Blocked
    else if SomeObservation(metric, results, Failed) then Failed
    else Passed
  }

  /** Every declared job has a result and every observed job is declared, as after any run of the plan. */
  predicate Ran(plan: ScoredPlan, results: Results) {
    && results.Keys == Ids(plan.jobs)
    && forall m :: m in plan.metrics ==> Observed(m, results)
  }

  predicate SomeJob(results: Results, status: Status) {
    exists id :: id in results && results[id].status == status
  }

  predicate SomeMetric(plan: ScoredPlan, results: Results, status: Status)
    requires Ran(plan, results)
  {
    exists m :: m in plan.metrics && MetricStatus(m, results) == status
  }

  /** The outcome before scoring: a known rejection wins over tool errors. */
  function RunOutcome(plan: ScoredPlan, results: Results): (o: Outcome)
    requires Ran(plan, results)
  {
    if SomeJob(results, Failed) || SomeMetric(plan, results, Failed) then OutcomeFailed
    else if SomeJob(results, Error) || SomeMetric(plan, results, Error) then OutcomeError
    else if SomeJob(results, Blocked) || SomeMetric(plan, results, Blocked) then OutcomeIncomplete
    else OutcomePassed
  }

  // ---- The score's side --------------------------------------------------------------------

  /** One observation as the score reads it from raw job evidence. */
  function RawObservation(metric: Metric, results: Results, o: Observation): (s: (Status, Option<real>)) {
    if o.job !in results || results[o.job].status != Passed then (Blocked, None)
    else if o.name !in results[o.job].measurements then (Error, None)
    else
      var m := results[o.job].measurements[o.name];
      if m.unit == "" || m.unit != metric.unit then (Error, None)
      else (if Within(metric, m.value) then Passed else Failed, Some(m.value))
  }

  function StatusOf(results: Results, id: Id): (s: Option<Status>) {
    if id in results then Some(results[id].status) else None
  }

  /** The frozen jobs that serve as baselines. */
  function BaselineJobs(plan: ScoredPlan): (ids: set<Id>) {
    set m, o | m in plan.metrics && o in m.baseline :: o.job
  }

  predicate GateFailed(plan: ScoredPlan, results: Results) {
    exists job :: job in plan.jobs && job.gate.Some? && StatusOf(results, job.id) == Some(Failed)
  }

  predicate CandidateJobFailed(plan: ScoredPlan, results: Results) {
    exists job :: job in plan.jobs && job.id !in BaselineJobs(plan) && StatusOf(results, job.id) == Some(Failed)
  }

  predicate AllJobsPassed(plan: ScoredPlan, results: Results) {
    forall job :: job in plan.jobs ==> StatusOf(results, job.id) == Some(Passed)
  }

  /** The gate component: 0 for a known rejection, 1 when every job passed, unknown otherwise. */
  function JobState(plan: ScoredPlan, results: Results): (g: Option<real>) {
    if GateFailed(plan, results) then Some(0.0)
    else if CandidateJobFailed(plan, results) then Some(0.0)
    else if AllJobsPassed(plan, results) then Some(1.0)
    else None
  }

  predicate RawStatus(plan: ScoredPlan, results: Results, status: Status) {
    exists m, o :: m in plan.metrics && o in m.observations && RawObservation(m, results, o).0 == status
  }

  predicate AllObservationsPassed(plan: ScoredPlan, results: Results) {
    forall m, o :: m in plan.metrics && o in m.observations ==> RawObservation(m, results, o).0 == Passed
  }

  function FrozenResults(plan: ScoredPlan): (r: Results) {
    map name | name in plan.frozen :: JobResult(Passed, "", plan.frozen[name], map[], map[])
  }

  /** The quality of the `i`-th candidate observation against its paired frozen observation. */
  function PairQuality(l: Logs, plan: ScoredPlan, results: Results, metric: Metric, i: nat): (q: Option<real>)
    requires Declared(metric) && i < |metric.baseline|
  {
    var value := RawObservation(metric, results, metric.observations[i]).1;
    var (status, baseline) := RawObservation(metric, FrozenResults(plan), metric.baseline[i]);
    if status != Passed || value.None? then None
    else RelativeQuality(l, metric, value.value, baseline.value)
  }

  /** The least quality among the first `k` pairs. */
  function Attainment(l: Logs, plan: ScoredPlan, results: Results, metric: Metric, k: nat): (q: Option<real>)
    requires Declared(metric) && 1 <= k <= |metric.baseline|
  {
    var q := PairQuality(l, plan, results, metric, k - 1);
    if k == 1 then q
    else
      var before := Attainment(l, plan, results, metric, k - 1);
      if before.None? || q.None? then None else Some(Min(before.value, q.value))
  }

  /** Values with their weights. */
  type Weighted = seq<(real, real)>

  function Active(values: Weighted): (w: Weighted) {
    if values == [] then [] else
      var rest := Active(values[..|values| - 1]);
      if values[|values| - 1].1 > 0.0 then rest + [values[|values| - 1]] else rest
  }

  function Total(values: Weighted): (t: real) {
    if values == [] then 0.0 else Total(values[..|values| - 1]) + values[|values| - 1].1
  }

  function LogSum(l: Logs, values: Weighted, total: real): (s: real)
    requires total != 0.0
  {
    if values == [] then 0.0
    else LogSum(l, values[..|values| - 1], total) + l.ln(values[|values| - 1].0) * (values[|values| - 1].1 / total)
  }

  lemma {:induction false} ActivePositive(values: Weighted)
    ensures forall i :: 0 <= i < |Active(values)| ==> Active(values)[i].1 > 0.0 && Active(values)[i] in values
    ensures (exists i :: 0 <= i < |values| && values[i].1 > 0.0) ==> Active(values) != []
  {
    if values != [] {
      ActivePositive(values[..|values| - 1]);
    }
  }

  lemma {:induction false} TotalPositive(values: Weighted)
    requires forall i :: 0 <= i < |values| ==> values[i].1 > 0.0
    ensures Total(values) >= 0.0 && (values != [] ==> Total(values) > 0.0)
  {
    if values != [] {
      TotalPositive(values[..|values| - 1]);
    }
  }

  predicate SomeZero(values: Weighted) {
    exists i :: 0 <= i < |values| && values[i].0 == 0.0
  }

  /** The weighted geometric mean; zero weights contribute nothing, a zero value makes it zero. */
  function WeightedGeometric(l: Logs, values: Weighted): (g: Option<real>) {
    var active := Active(values);
    if active == [] then None
    else if SomeZero(active) then Some(0.0)
    else
      ActivePositive(values);
      TotalPositive(active);
      Some(l.exp(LogSum(l, active, Total(active))))
  }

  /** What parsing guarantees about a scored plan. */
  predicate DeclaredPlan(plan: ScoredPlan) {
    && plan.areaTarget > 0.0
    && (forall m :: m in plan.metrics ==> m.observations != [] && m.unit != "")
    && (forall m :: m in plan.metrics && m.baseline != [] ==> Declared(m) && m.id in plan.weights && m.id != plan.areaMetric)
    && (forall m :: m in plan.metrics && m.id == plan.areaMetric ==> m.direction == Minimize && |m.observations| == 1)
    && (exists m :: m in plan.metrics && m.id == plan.areaMetric)
    && (exists m :: m in plan.metrics && m.baseline != [] && plan.weights[m.id] > 0.0)
    && plan.areaMetric in plan.weights
    && (forall id :: id in plan.weights ==> 0.0 <= plan.weights[id] <= 1.0)
    && BaselineJobs(plan) !! Ids(plan.jobs)
  }

  /** What the metric loop has collected: the electrical values with weights and the area quality. */
  datatype Factors = Factors(electrical: Weighted, area: Option<real>)

  function AreaQuality(plan: ScoredPlan, results: Results, metric: Metric): (q: Option<real>)
    requires metric.observations != []
  {
    var area := RawObservation(metric, results, metric.observations[0]).1;
    if area.None? || area.value <= 0.0 then None else Some(Min(1.0, plan.areaTarget / area.value))
  }

  /** The contribution of one metric, `None` when no finite quality can be established. */
  function AddMetric(l: Logs, plan: ScoredPlan, results: Results, f: Factors, metric: Metric): (n: Option<Factors>)
    requires DeclaredPlan(plan) && metric in plan.metrics
  {
    if metric.id == plan.areaMetric then
      var q := AreaQuality(plan, results, metric);
      if q.None? then None else Some(f.(area := q))
    else if metric.baseline == [] then Some(f)
    else
      var q := Attainment(l, plan, results, metric, |metric.baseline|);
      if q.None? then None
      else Some(f.(electrical := f.electrical + [(Min(1.0, q.value), plan.weights[metric.id])]))
  }

  function Collect(l: Logs, plan: ScoredPlan, results: Results, k: nat): (f: Option<Factors>)
    requires DeclaredPlan(plan) && k <= |plan.metrics|
  {
    if k == 0 then Some(Factors([], None))
    else
      var f := Collect(l, plan, results, k - 1);
      if f.None? then None else AddMetric(l, plan, results, f.value, plan.metrics[k - 1])
  }

  /** What the loop has collected when it ends, and whether it went through all of the first `k` metrics. */
  function Gather(l: Logs, plan: ScoredPlan, results: Results, k: nat): (g: (Factors, bool))
    requires DeclaredPlan(plan) && k <= |plan.metrics|
  {
    if k == 0 then (Factors([], None), true)
    else
      var g := Gather(l, plan, results, k - 1);
      if !g.1 then g
      else
        var n := AddMetric(l, plan, results, g.0, plan.metrics[k - 1]);
        if n.None? then (g.0, false) else (n.value, true)
  }

  datatype Score = Score(value: Option<real>, gate: Option<real>, electrical: Option<real>, area: Option<real>)

  function Unknown(gate: Option<real>): (s: Score) {
    Score(None, gate, None, None)
  }

  /** The score of collected factors. */
  function Combine(l: Logs, plan: ScoredPlan, f: Factors): (s: Score)
    requires plan.areaMetric in plan.weights
  {
    if f.area.None? then Unknown(Some(1.0))
    else
      var mean := WeightedGeometric(l, f.electrical + [(f.area.value, plan.weights[plan.areaMetric])]);
      if mean.None? then Score(None, Some(1.0), None, f.area)
      else Score(Some(100.0 * mean.value), Some(1.0), WeightedGeometric(l, f.electrical), f.area)
  }

  /**
   * The layout score as a function of the plan and the raw results. When a metric has no finite quality the area
   * component stays as far as the loop has come.
   */
  function LayoutScore(l: Logs, plan: ScoredPlan, results: Results): (s: Score)
    requires DeclaredPlan(plan)
  {
    var gate := JobState(plan, results);
    if gate == Some(0.0) then Score(Some(0.0), gate, None, None)
    else if RawStatus(plan, results, Failed) then Score(Some(0.0), Some(0.0), None, None)
    else if gate.None? || !AllObservationsPassed(plan, results) then Unknown(gate)
    else
      var f := Collect(l, plan, results, |plan.metrics|);
      if f.None? then Score(None, gate, None, Gather(l, plan, results, |plan.metrics|).0.area) else Combine(l, plan, f.value)
  }

  /** The loop over the metrics that fills the score. */
  method ScoreLayout(l: Logs, plan: ScoredPlan, results: Results) returns (s: Score)
    requires DeclaredPlan(plan)
    ensures s == LayoutScore(l, plan, results)
  {
    hide DeclaredPlan, AddMetric, Combine, JobState, AllObservationsPassed, RawStatus, Gather, Collect;
    var gate := JobState(plan, results);
    if gate == Some(0.0) {
      return Score(Some(0.0), gate, None, None);
    }
    if RawStatus(plan, results, Failed) {
      return Score(Some(0.0), Some(0.0), None, None);
    }
    if gate.None? || !AllObservationsPassed(plan, results) {
      return Unknown(gate);
    }
    var f := Factors([], None);
    NothingGathered(l, plan, results);
    for k := 0 to |plan.metrics|
      invariant Gather(l, plan, results, k) == (f, true)
    {
      assert plan.metrics[k] in plan.metrics;
      var next := AddMetric(l, plan, results, f, plan.metrics[k]);
      GatherStep(l, plan, results, k);
      if next.None? {
        GatherStops(l, plan, results, k + 1);
        GatherCollects(l, plan, results, |plan.metrics|);
        return Score(None, gate, None, f.area);
      }
      f := next.value;
    }
    GatherCollects(l, plan, results, |plan.metrics|);
    AreaWeighted(plan);
    s := Combine(l, plan, f);
  }

  lemma AreaWeighted(plan: ScoredPlan)
    requires DeclaredPlan(plan)
    ensures plan.areaMetric in plan.weights
  {
  }

  lemma NothingGathered(l: Logs, plan: ScoredPlan, results: Results)
    requires DeclaredPlan(plan)
    ensures Gather(l, plan, results, 0) == (Factors([], None), true)
  {
    hide DeclaredPlan, AddMetric;
  }

  lemma GatherStep(l: Logs, plan: ScoredPlan, results: Results, k: nat)
    requires DeclaredPlan(plan) && k < |plan.metrics| && Gather(l, plan, results, k).1
    ensures
      var n := AddMetric(l, plan, results, Gather(l, plan, results, k).0, plan.metrics[k]);
      Gather(l, plan, results, k + 1) == if n.None? then (Gather(l, plan, results, k).0, false) else (n.value, true)
  {
    hide DeclaredPlan, AddMetric;
  }

  /** The first metric without a finite quality ends the loop with what was collected before it. */
  lemma {:induction false} GatherStops(l: Logs, plan: ScoredPlan, results: Results, k: nat)
    requires DeclaredPlan(plan) && k <= |plan.metrics| && !Gather(l, plan, results, k).1
    ensures Gather(l, plan, results, |plan.metrics|) == Gather(l, plan, results, k)
    decreases |plan.metrics| - k
  {
    hide DeclaredPlan, AddMetric;
    if k < |plan.metrics| {
      GatherStops(l, plan, results, k + 1);
    }
  }

  /** The factors exist exactly when the loop went through all metrics. */
  lemma {:induction false} GatherCollects(l: Logs, plan: ScoredPlan, results: Results, k: nat)
    requires DeclaredPlan(plan) && k <= |plan.metrics|
    ensures Collect(l, plan, results, k)
         == if Gather(l, plan, results, k).1 then Some(Gather(l, plan, results, k).0) else None
  {
    hide DeclaredPlan, AddMetric;
    if k > 0 {
      GatherCollects(l, plan, results, k - 1);
    }
  }
}
