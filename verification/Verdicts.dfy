/** How the runner's verdict and the independently computed score agree. */
module Verdicts {
  import opened Prelude
  import opened Plans
  import opened Runner
  import opened Metrics
  import opened Quality
  import opened Scoring

  /** The two readings of one observation are the same. */
  lemma ObservationsAgree(plan: ScoredPlan, results: Results, m: Metric, o: Observation)
    requires DeclaredPlan(plan) && Ran(plan, results) && m in plan.metrics && o in m.observations
    ensures RawObservation(m, results, o) == Observe(m, results, o)
  {
  }

  lemma FailedJobFound(plan: ScoredPlan, results: Results)
    requires Ran(plan, results) && DeclaredPlan(plan)
    ensures GateFailed(plan, results) || CandidateJobFailed(plan, results) <==> SomeJob(results, Failed)
  {
    if id :| id in results && results[id].status == Failed {
      var job := Find(plan.jobs, id);
      assert job.id !in BaselineJobs(plan);
    }
    if job :| job in plan.jobs && StatusOf(results, job.id) == Some(Failed) {
      assert results[job.id].status == Failed;
    }
  }

  /** The score's gate is zero exactly for a failed job or a failed observation; the value is zero then. */
  lemma ZeroGateExactly(l: Logs, plan: ScoredPlan, results: Results)
    requires DeclaredPlan(plan) && Ran(plan, results)
    ensures LayoutScore(l, plan, results).gate == Some(0.0)
       <==> SomeJob(results, Failed) || RawStatus(plan, results, Failed)
    ensures LayoutScore(l, plan, results).gate == Some(0.0) ==> LayoutScore(l, plan, results).value == Some(0.0)
  {
    hide DeclaredPlan, Ran, Collect, WeightedGeometric, SomeJob, RawStatus, GateFailed, CandidateJobFailed, AllJobsPassed, AllObservationsPassed;
    FailedJobFound(plan, results);
    AreaWeightedOf(plan);
  }

  lemma AreaWeightedOf(plan: ScoredPlan)
    requires DeclaredPlan(plan)
    ensures plan.areaMetric in plan.weights
  {
  }

  /** A metric that fails has a failing observation. */
  lemma MetricFailure(plan: ScoredPlan, results: Results)
    requires DeclaredPlan(plan) && Ran(plan, results) && SomeMetric(plan, results, Failed)
    ensures RawStatus(plan, results, Failed)
  {
    var m :| m in plan.metrics && MetricStatus(m, results) == Failed;
    var o :| o in m.observations && Observe(m, results, o).0 == Failed;
    ObservationsAgree(plan, results, m, o);
  }

  /** A failed outcome forces the score to zero with a zero gate. */
  lemma FailedOutcomeScoresZero(l: Logs, plan: ScoredPlan, results: Results)
    requires DeclaredPlan(plan) && Ran(plan, results)
    requires RunOutcome(plan, results) == OutcomeFailed
    ensures LayoutScore(l, plan, results).value == Some(0.0) && LayoutScore(l, plan, results).gate == Some(0.0)
  {
    hide DeclaredPlan, Ran, LayoutScore, SomeJob, SomeMetric;
    ZeroGateExactly(l, plan, results);
    if SomeMetric(plan, results, Failed) {
      MetricFailure(plan, results);
    }
  }

  /** The metric has a rejected observation next to one without a value. */
  predicate Mixed(m: Metric, results: Results)
    requires Observed(m, results)
  {
    SomeObservation(m, results, Failed) && (SomeObservation(m, results, Blocked) || SomeObservation(m, results, Error))
  }

  /**
   * No job failed, and every metric with a rejected observation also lacks a value: the runner then
   * reports the metric as blocked or erroneous while the score already counts the rejection.
   */
  predicate HiddenRejection(plan: ScoredPlan, results: Results)
    requires Ran(plan, results)
  {
    && !SomeJob(results, Failed)
    && (exists m :: m in plan.metrics && Mixed(m, results))
    && forall m :: m in plan.metrics && SomeObservation(m, results, Failed) ==> Mixed(m, results)
  }

  lemma RawFailureSeen(plan: ScoredPlan, results: Results) returns (m: Metric)
    requires DeclaredPlan(plan) && Ran(plan, results) && RawStatus(plan, results, Failed)
    ensures m in plan.metrics && SomeObservation(m, results, Failed)
  {
    var n, o :| n in plan.metrics && o in n.observations && RawObservation(n, results, o).0 == Failed;
    ObservationsAgree(plan, results, n, o);
    m := n;
  }

  lemma SeenFailureRaw(plan: ScoredPlan, results: Results, m: Metric)
    requires DeclaredPlan(plan) && Ran(plan, results) && m in plan.metrics && SomeObservation(m, results, Failed)
    ensures RawStatus(plan, results, Failed)
  {
    var o :| o in m.observations && Observe(m, results, o).0 == Failed;
    ObservationsAgree(plan, results, m, o);
  }

  /** Score and outcome agree on rejection exactly when no rejection is hidden behind a missing value. */
  lemma RejectionAgreesExactly(l: Logs, plan: ScoredPlan, results: Results)
    requires DeclaredPlan(plan) && Ran(plan, results)
    ensures (LayoutScore(l, plan, results).gate == Some(0.0) <==> RunOutcome(plan, results) == OutcomeFailed)
       <==> !HiddenRejection(plan, results)
  {
    hide DeclaredPlan, LayoutScore, SomeJob, SomeObservation, RawStatus;
    ZeroGateExactly(l, plan, results);
    if SomeMetric(plan, results, Failed) {
      MetricFailure(plan, results);
    }
    if RawStatus(plan, results, Failed) {
      var m := RawFailureSeen(plan, results);
    }
    if m :| m in plan.metrics && SomeObservation(m, results, Failed) {
      SeenFailureRaw(plan, results, m);
    }
  }

  lemma PassedMetric(plan: ScoredPlan, results: Results, m: Metric)
    requires DeclaredPlan(plan) && Ran(plan, results) && m in plan.metrics && AllObservationsPassed(plan, results)
    ensures MetricStatus(m, results) == Passed
  {
    forall o | o in m.observations ensures Observe(m, results, o).0 == Passed {
      ObservationsAgree(plan, results, m, o);
    }
  }

  lemma AllPassedOutcome(plan: ScoredPlan, results: Results)
    requires DeclaredPlan(plan) && Ran(plan, results)
    requires AllJobsPassed(plan, results) && AllObservationsPassed(plan, results)
    ensures RunOutcome(plan, results) == OutcomePassed
  {
    forall m | m in plan.metrics ensures MetricStatus(m, results) == Passed {
      PassedMetric(plan, results, m);
    }
    forall id | id in results ensures results[id].status == Passed {
      var job := Find(plan.jobs, id);
      assert StatusOf(results, job.id) == Some(Passed);
    }
  }

  lemma OutcomePassedMeans(plan: ScoredPlan, results: Results)
    requires DeclaredPlan(plan) && Ran(plan, results) && RunOutcome(plan, results) == OutcomePassed
    ensures forall id :: id in results ==> results[id].status == Passed
    ensures forall m :: m in plan.metrics ==> MetricStatus(m, results) == Passed
  {
    forall id | id in results ensures results[id].status == Passed {
      assert results[id].status == Failed || results[id].status == Error || results[id].status == Blocked || results[id].status == Passed;
    }
  }

  /** A positive score implies that every job and every metric passed. */
  lemma PositiveScoreMeansPassed(l: Logs, plan: ScoredPlan, results: Results)
    requires DeclaredPlan(plan) && Ran(plan, results)
    requires LayoutScore(l, plan, results).value.Some? && LayoutScore(l, plan, results).value.value > 0.0
    ensures RunOutcome(plan, results) == OutcomePassed
    ensures forall id :: id in results ==> results[id].status == Passed
    ensures forall m :: m in plan.metrics ==> MetricStatus(m, results) == Passed
  {
    hide DeclaredPlan, Ran, Collect, Combine, RawStatus, GateFailed, CandidateJobFailed, AllJobsPassed, RunOutcome, MetricStatus, AllObservationsPassed;
    AreaWeightedOf(plan);
    AllPassedOutcome(plan, results);
    OutcomePassedMeans(plan, results);
  }

  /** The outcome written to the report: an unscorable candidate becomes an evaluator error. */
  function FinalOutcome(l: Logs, plan: ScoredPlan, results: Results): (o: Outcome)
    requires DeclaredPlan(plan) && Ran(plan, results)
  {
    if LayoutScore(l, plan, results).value.None? then OutcomeError else RunOutcome(plan, results)
  }

  // ---- The outcome on the observations -------------------------------------------------------

  /** The observed job passed, but has no measurement of this name in the metric's unit. */
  predicate Unmeasured(m: Metric, results: Results, o: Observation)
    requires o.job in results
  {
    results[o.job].status == Passed
    && !(o.name in results[o.job].measurements && results[o.job].measurements[o.name].unit == m.unit)
  }

  /** Every observation has a value, and one of them is outside the bounds. */
  predicate MetricRejects(m: Metric, results: Results)
    requires Observed(m, results)
  {
    && (forall o :: o in m.observations ==> results[o.job].status == Passed && !Unmeasured(m, results, o))
    && exists o :: o in m.observations && !Within(m, results[o.job].measurements[o.name].value)
  }

  /**
   * The outcome on jobs and observations: failed for a failed job or a metric that rejects, otherwise an error for a job
   * that errored or an unmeasured observation, otherwise incomplete for a blocked job, otherwise passed.
   */
  lemma OutcomeExactly(plan: ScoredPlan, results: Results)
    requires DeclaredPlan(plan) && Ran(plan, results)
    ensures RunOutcome(plan, results) == OutcomeFailed <==>
      SomeJob(results, Failed) || exists m :: m in plan.metrics && MetricRejects(m, results)
    ensures RunOutcome(plan, results) == OutcomeError <==>
      && RunOutcome(plan, results) != OutcomeFailed
      && (SomeJob(results, Error) || exists m, o :: m in plan.metrics && o in m.observations && Unmeasured(m, results, o))
    ensures RunOutcome(plan, results) == OutcomePassed <==>
      && (forall id :: id in results ==> results[id].status == Passed)
      && forall m, o :: m in plan.metrics && o in m.observations ==>
           !Unmeasured(m, results, o) && Within(m, results[o.job].measurements[o.name].value)
  {
    hide DeclaredPlan;
    forall m | m in plan.metrics
      ensures MetricStatus(m, results) == Failed <==> MetricRejects(m, results)
      ensures MetricStatus(m, results) == Error <==> exists o :: o in m.observations && Unmeasured(m, results, o)
    {
      StatusExactly(m, results);
    }
  }

  lemma StatusExactly(m: Metric, results: Results)
    requires Observed(m, results)
    ensures MetricStatus(m, results) == Failed <==> MetricRejects(m, results)
    ensures MetricStatus(m, results) == Error <==> exists o :: o in m.observations && Unmeasured(m, results, o)
    ensures MetricStatus(m, results) == Blocked ==> exists o :: o in m.observations && results[o.job].status != Passed
    ensures MetricStatus(m, results) == Passed <==>
      forall o :: o in m.observations ==>
        results[o.job].status == Passed && !Unmeasured(m, results, o) && Within(m, results[o.job].measurements[o.name].value)
  {
  }

  // ---- Validity summaries ------------------------------------------------------------------

  /** `Some(false)` when a gate rejected the candidate, `Some(true)` when all gates passed. */
  function PhysicalValid(plan: ScoredPlan, results: Results): (v: Option<bool>)
    requires Ran(plan, results)
  {
    if exists job :: job in plan.jobs && job.gate.Some? && StatusOf(results, job.id) == Some(Failed) then Some(false)
    else if forall job :: job in plan.jobs && job.gate.Some? ==> StatusOf(results, job.id) == Some(Passed) then Some(true)
    else None
  }

  /** Task success before scoring. */
  function TaskSuccess(plan: ScoredPlan, results: Results): (s: Option<bool>)
    requires Ran(plan, results)
  {
    if PhysicalValid(plan, results) == Some(false) || RunOutcome(plan, results) == OutcomeFailed then Some(false)
    else if RunOutcome(plan, results) == OutcomePassed then Some(true)
    else None
  }

  /** Task success as it is reported: unknown again when the candidate cannot be scored. */
  function ReportedSuccess(l: Logs, plan: ScoredPlan, results: Results): (s: Option<bool>)
    requires DeclaredPlan(plan) && Ran(plan, results)
  {
    if LayoutScore(l, plan, results).value.None? then None else TaskSuccess(plan, results)
  }

  lemma TaskSuccessBeforeScoring(plan: ScoredPlan, results: Results)
    requires DeclaredPlan(plan) && Ran(plan, results)
    ensures TaskSuccess(plan, results) == Some(false) <==> RunOutcome(plan, results) == OutcomeFailed
    ensures TaskSuccess(plan, results) == Some(true) <==> RunOutcome(plan, results) == OutcomePassed
    ensures TaskSuccess(plan, results) == Some(true) ==> PhysicalValid(plan, results) == Some(true)
  {
    if PhysicalValid(plan, results) == Some(false) {
      var job :| job in plan.jobs && job.gate.Some? && StatusOf(results, job.id) == Some(Failed);
      assert results[job.id].status == Failed;
    }
    if RunOutcome(plan, results) == OutcomePassed {
      OutcomePassedMeans(plan, results);
      forall job | job in plan.jobs ensures StatusOf(results, job.id) == Some(Passed) {
        JobHasResult(plan, results, job);
      }
    }
  }

  /**
   * Reported task success is decided by the final outcome alone: false for a failed outcome, true for a passed one,
   * unknown otherwise. Success implies physical validity and a score; failure implies the score zero.
   */
  lemma TaskSuccessFollowsOutcome(l: Logs, plan: ScoredPlan, results: Results)
    requires DeclaredPlan(plan) && Ran(plan, results)
    ensures ReportedSuccess(l, plan, results) == Some(false) <==> FinalOutcome(l, plan, results) == OutcomeFailed
    ensures ReportedSuccess(l, plan, results) == Some(true) <==> FinalOutcome(l, plan, results) == OutcomePassed
    ensures ReportedSuccess(l, plan, results) == Some(true) ==>
      PhysicalValid(plan, results) == Some(true) && LayoutScore(l, plan, results).value.Some?
    ensures ReportedSuccess(l, plan, results) == Some(false) ==> LayoutScore(l, plan, results).value == Some(0.0)
  {
    hide DeclaredPlan, Ran, LayoutScore, RunOutcome, TaskSuccess, PhysicalValid;
    TaskSuccessBeforeScoring(plan, results);
    if RunOutcome(plan, results) == OutcomeFailed {
      FailedOutcomeScoresZero(l, plan, results);
    }
  }

  lemma JobHasResult(plan: ScoredPlan, results: Results, job: Job)
    requires Ran(plan, results) && job in plan.jobs
    ensures job.id in results
  {
    var i :| 0 <= i < |plan.jobs| && plan.jobs[i] == job;
    assert plan.jobs[i].id in Ids(plan.jobs);
  }
}
