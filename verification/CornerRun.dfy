/** A run of an accepted scored plan in which score and outcome disagree about a rejection. */
module CornerRun {
  import opened Prelude
  import opened Graphs
  import opened Plans
  import opened JobOrder
  import opened SourceGraph
  import opened Runner
  import opened Metrics
  import opened GateSafety
  import opened Quality
  import opened Scoring
  import opened Verdicts

  // ---- The plan ------------------------------------------------------------------------------

  const LAYOUT := [("layout", Candidate)]
  const NETLIST := [("netlist", Output("extract", "netlist"))]

  const ARTIFACT := Job("artifact", Check, "artifact", LAYOUT, map[], {}, Some(Gate.Artifact), "")
  const DRC := Job("drc", Check, "drc", LAYOUT, map[], {}, Some(Drc), "")
  const LVS := Job("lvs", Check, "lvs", LAYOUT, map[], {}, Some(Lvs), "")
  const AREA_CHECK := Job("check", Check, "area", LAYOUT, map[], {}, Some(Constraint), "")
  const EXTRACT := Job("extract", Extract, "pex", LAYOUT, map["netlist" := "spice"], {"artifact", "drc", "lvs"}, None, "")
  const FAST := Job("fast", Simulate, "sim", NETLIST, map[], {}, None, "fast")
  const SLOW := Job("slow", Simulate, "sim", NETLIST, map[], {}, None, "slow")

  /** Three physical gates, a constraint check of the area, an extraction and a simulation at two corners. */
  function Jobs(): (jobs: seq<Job>) { [ARTIFACT, DRC, LVS, AREA_CHECK, EXTRACT, FAST, SLOW] }

  /** The jobs with their dependencies made explicit. */
  function Ordered(): (jobs: seq<Job>) {
    [ARTIFACT, DRC, LVS, AREA_CHECK, EXTRACT, FAST.(needs := {"extract"}), SLOW.(needs := {"extract"})]
  }

  const AREA := Metric("area", Physical, [Observation("check", "area")], "um2", Minimize, Greatest, None, None, None, [], None, None, None)
  const DELAY := Metric("delay", Performance, [Observation("fast", "delay"), Observation("slow", "delay")], "s",
                        Minimize, Greatest, None, Some(1.0), Some("response"),
                        [Observation("prefast", "delay"), Observation("preslow", "delay")], Some(Ratio), None, None)

  function Frozen(): (f: map<Id, map<Id, Measurement>>) {
    map["prefast" := map["delay" := Measurement(1.0, "s")], "preslow" := map["delay" := Measurement(1.0, "s")]]
  }

  function Plan(): (plan: ScoredPlan) {
    ScoredPlan(Ordered(), [AREA, DELAY], "area", 1.0, map["area" := 0.5, "delay" := 0.5], Frozen())
  }

  // ---- The plan is accepted ------------------------------------------------------------------

  /** What scoring requires of the jobs and the metrics. */
  predicate ScoringValid(plan: ScoredPlan) {
    && (exists m :: m in plan.metrics && AreaValid(plan, m))
    && OneConstraint(plan.jobs)
    && (exists m :: m in plan.metrics && m.baseline != [])
    && (forall m :: m in plan.metrics && m.dimension.Some? ==> m.baseline != [])
  }

  /** The area metric minimizes one physical observation of the constraint check. */
  predicate AreaValid(plan: ScoredPlan, m: Metric) {
    m.id == plan.areaMetric && m.category == Physical && m.direction == Minimize && |m.observations| == 1
    && IsConstraintCheck(plan.jobs, m.observations[0].job)
  }

  predicate OneConstraint(jobs: seq<Job>) {
    forall a, b :: 0 <= a < b < |jobs| ==> !(jobs[a].gate == Some(Constraint) && jobs[b].gate == Some(Constraint))
  }

  predicate IsConstraintCheck(jobs: seq<Job>, id: Id) {
    exists job :: job in jobs && job.id == id && job.stage == Check && job.gate == Some(Constraint) && ConsumesCandidate(job)
  }

  /** The exact transitive ancestors of every job. */
  ghost function Above(jobs: seq<Job>, e: set<(Id, Id)>): (above: map<Id, set<Id>>) {
    map id | id in Ids(jobs) :: set d | d in Ids(jobs) && Follows(e, id, d)
  }

  lemma AboveIsClosure(jobs: seq<Job>, e: set<(Id, Id)>)
    requires forall a, b :: (a, b) in e ==> b in Ids(jobs)
    ensures Closures(e, Above(jobs, e)) && Above(jobs, e).Keys == Ids(jobs)
  {
    hide Ids, Follows;
    forall id, d | id in Ids(jobs) && Follows(e, id, d) ensures d in Ids(jobs) {
      FollowsInto(e, id, d);
    }
  }

  lemma FollowsInto(e: set<(Id, Id)>, x: Id, y: Id)
    requires Follows(e, x, y)
    ensures exists a :: (a, y) in e
  {
    var z :| (x, z) in e && Reaches(e, z, y);
    var p :| IsPath(e, p) && p[0] == z && p[|p| - 1] == y;
    if |p| > 1 {
      assert (p[|p| - 2], p[|p| - 1]) in e;
    }
  }

  ghost function Order(): (o: Ordering) {
    Ordering(Ordered(), Above(Jobs(), Edges(Jobs())), Above(Jobs(), DataEdges(Jobs())))
  }

  const NAMES := ["artifact", "drc", "lvs", "check", "extract", "fast", "slow"]

  lemma JobNamed(k: nat)
    requires k < 7
    ensures |Jobs()| == 7 == |Ordered()| && Jobs()[k].id == NAMES[k] == Ordered()[k].id
  {
  }

  lemma NamesDiffer()
    ensures |NAMES| == 7 && forall i, j :: 0 <= i < j < 7 ==> NAMES[i] != NAMES[j]
  {
  }

  lemma NamedDistinct(jobs: seq<Job>)
    requires |jobs| == 7 && forall k :: 0 <= k < 7 ==> jobs[k].id == NAMES[k]
    ensures DistinctIds(jobs) && Ids(jobs) == {"artifact", "drc", "lvs", "check", "extract", "fast", "slow"}
  {
    NamesDiffer();
    assert jobs[0].id == "artifact" && jobs[1].id == "drc" && jobs[2].id == "lvs" && jobs[3].id == "check"
      && jobs[4].id == "extract" && jobs[5].id == "fast" && jobs[6].id == "slow";
  }

  lemma JobNames()
    ensures Ids(Jobs()) == {"artifact", "drc", "lvs", "check", "extract", "fast", "slow"} == Ids(Ordered())
    ensures DistinctIds(Jobs()) && DistinctIds(Ordered())
    ensures |Jobs()| == 7 == |Ordered()|
  {
    hide Ids, Jobs, Ordered;
    forall k | 0 <= k < 7 ensures |Jobs()| == 7 == |Ordered()| && Jobs()[k].id == NAMES[k] == Ordered()[k].id {
      JobNamed(k);
    }
    JobNamed(0);
    NamedDistinct(Jobs());
    NamedDistinct(Ordered());
  }

  lemma JobsWellFormed()
    ensures WellFormed(Jobs())
  {
    hide Ids, Find;
    JobNames();
    assert Jobs()[4] == EXTRACT && EXTRACT in Jobs();
    FindUnique(Jobs(), EXTRACT);
    forall job | job in Jobs() ensures Resolves(Jobs(), job) {
      forall i | 0 <= i < |job.inputs| ensures KnownRef(Jobs(), job.inputs[i].1) {
      }
    }
  }

  lemma ProducersOf()
    ensures Producers(FAST) == {"extract"} == Producers(SLOW)
    ensures Producers(ARTIFACT) == Producers(DRC) == Producers(LVS) == Producers(AREA_CHECK) == Producers(EXTRACT) == {}
  {
    assert NETLIST[0].1.job == "extract";
    assert FAST.inputs[0].1.job == "extract" && SLOW.inputs[0].1.job == "extract";
    assert "extract" in Producers(FAST) && "extract" in Producers(SLOW);
  }

  lemma Rearranged()
    ensures Rearranges(Ordered(), Jobs())
  {
    hide Ids, Producers;
    JobNames();
    ProducersOf();
    var jobs, ordered := Jobs(), Ordered();
    forall k | 0 <= k < 7 ensures ordered[k] == Placed(jobs[k]) {
      PlacedAt(k);
    }
    forall job | job in jobs ensures Placed(job) in ordered {
      var k :| 0 <= k < 7 && jobs[k] == job;
      assert ordered[k] == Placed(job);
    }
    forall job | job in ordered ensures exists source :: source in jobs && job == Placed(source) {
      var k :| 0 <= k < 7 && ordered[k] == job;
      assert jobs[k] in jobs;
    }
  }

  lemma PlacedAt(k: nat)
    requires k < 7
    ensures |Jobs()| == 7 == |Ordered()| && Ordered()[k] == Placed(Jobs()[k])
  {
    hide Producers;
    ProducersOf();
  }

  lemma TopologicalOrder()
    ensures Topological(Ordered())
  {
    var ordered := Ordered();
    assert ordered[..4][0].id == "artifact" && ordered[..4][1].id == "drc" && ordered[..4][2].id == "lvs";
    assert {"artifact", "drc", "lvs"} <= Ids(ordered[..4]);
    assert ordered[..5][4].id == "extract" && ordered[..6][4].id == "extract";
    forall k | 0 <= k < |ordered| ensures ordered[k].needs <= Ids(ordered[..k]) {
    }
  }

  lemma Links()
    ensures Follows(Edges(Jobs()), "extract", "artifact") && Follows(Edges(Jobs()), "extract", "drc")
    ensures Follows(Edges(Jobs()), "extract", "lvs")
    ensures Follows(DataEdges(Jobs()), "fast", "extract") && Follows(DataEdges(Jobs()), "slow", "extract")
  {
    hide Edges, DataEdges, Ids, Producers, Jobs, Reaches;
    JobNames();
    ProducersOf();
    JobsListed();
    EdgesOf(Jobs(), EXTRACT, "artifact");
    EdgesOf(Jobs(), EXTRACT, "drc");
    EdgesOf(Jobs(), EXTRACT, "lvs");
    EdgesOf(Jobs(), FAST, "extract");
    EdgesOf(Jobs(), SLOW, "extract");
    ReachesSelf(Edges(Jobs()), "artifact");
    ReachesSelf(Edges(Jobs()), "drc");
    ReachesSelf(Edges(Jobs()), "lvs");
    ReachesSelf(DataEdges(Jobs()), "extract");
  }

  lemma JobsListed()
    ensures EXTRACT in Jobs() && FAST in Jobs() && SLOW in Jobs()
  {
    assert Jobs()[4] == EXTRACT && Jobs()[5] == FAST && Jobs()[6] == SLOW;
  }

  lemma Gates()
    ensures OneGate(Ordered(), Gate.Artifact) && OneGate(Ordered(), Drc) && OneGate(Ordered(), Lvs)
  {
    var ordered := Ordered();
    assert LAYOUT[0].1 == Candidate;
    assert ConsumesCandidate(ordered[0]) && ConsumesCandidate(ordered[1]) && ConsumesCandidate(ordered[2]);
  }

  lemma JobsAllowed(o: Ordering)
    requires o == Order() && o.ancestors.Keys == Ids(Ordered())
    ensures forall i :: 0 <= i < |Ordered()| ==> Ordered()[i].id in o.ancestors && JobAllowed(Ordered(), Ordered()[i], o.ancestors)
  {
    hide Ids, Edges, DataEdges, Follows;
    JobNames();
    Links();
    var ordered := Ordered();
    assert NETLIST[0].1.Output?;
    assert ConsumesJob(ordered[5]) && ConsumesJob(ordered[6]);
    assert {"artifact", "drc", "lvs"} <= o.ancestors["extract"];
    forall i | 0 <= i < |ordered| ensures JobAllowed(ordered, ordered[i], o.ancestors) {
    }
  }

  lemma SimulationsFed(o: Ordering)
    requires o == Order() && o.dataAncestors.Keys == Ids(Ordered())
    ensures forall s :: s in Ordered() && s.stage == Simulate ==>
      s.id in o.dataAncestors && FedByExtraction(Ordered(), s, o.dataAncestors)
  {
    hide Ids, Edges, DataEdges, Follows;
    JobNames();
    Links();
    assert LAYOUT[0].1 == Candidate;
    assert Ordered()[4] == EXTRACT && EXTRACT in Ordered() && ConsumesCandidate(EXTRACT);
    assert "extract" in o.dataAncestors["fast"] && "extract" in o.dataAncestors["slow"];
  }

  lemma MetricsTraced(o: Ordering)
    requires o == Order() && o.dataAncestors.Keys == Ids(Ordered())
    ensures forall m :: m in [AREA, DELAY] ==> MetricTraced(Ordered(), m, o.dataAncestors)
  {
    hide Ids, Edges, DataEdges, Follows, FedByExtraction, Order;
    JobNames();
    SimulationsFed(o);
    assert Ordered()[5] in Ordered() && Ordered()[6] in Ordered();
    assert InLineage(Ordered()[5], "fast", o.dataAncestors) && InLineage(Ordered()[6], "slow", o.dataAncestors);
    forall ref | ref in DELAY.observations ensures ObservationTraced(Ordered(), ref, o.dataAncestors) {
      assert ref.job == "fast" || ref.job == "slow";
    }
  }

  /** The plan is one that mode validation accepts. */
  lemma PlanAccepted()
    ensures Accepted(Jobs(), PostLayout, Order(), [AREA, DELAY])
  {
    hide Ids, Edges, DataEdges, Topological, Rearranges, WellFormed, Closures, OneGate, JobAllowed, MetricTraced, Above, Jobs, Ordered;
    JobNames();
    JobsWellFormed();
    Rearranged();
    TopologicalOrder();
    forall a, b | (a, b) in Edges(Jobs()) ensures b in Ids(Jobs()) {
      EdgeEnds(Jobs(), a, b);
    }
    DataEdgesWithin(Jobs());
    AboveIsClosure(Jobs(), Edges(Jobs()));
    AboveIsClosure(Jobs(), DataEdges(Jobs()));
    Gates();
    JobsAllowed(Order());
    MetricsTraced(Order());
    assert [AREA, DELAY][1].category == Performance;
    assert DELAY in [AREA, DELAY];
  }

  lemma PlanScored()
    ensures ScoringValid(Plan())
  {
    hide OneConstraint, IsConstraintCheck, Ordered;
    var plan := Plan();
    ConstraintChecked();
    assert plan.metrics[0] == AREA && plan.metrics[1] == DELAY;
    assert AreaValid(plan, AREA);
    assert AREA in plan.metrics && DELAY in plan.metrics;
  }

  lemma ConstraintChecked()
    ensures OneConstraint(Ordered()) && IsConstraintCheck(Ordered(), "check")
  {
    var jobs := Ordered();
    assert LAYOUT[0].1 == Candidate;
    assert jobs[3] == AREA_CHECK && AREA_CHECK in jobs && ConsumesCandidate(AREA_CHECK);
  }

  lemma PlanDeclared()
    ensures DeclaredPlan(Plan())
  {
    hide Ids, Ordered;
    var plan := Plan();
    JobNames();
    assert plan.metrics[0] == AREA && plan.metrics[1] == DELAY;
    assert Declared(DELAY);
    assert AREA in plan.metrics && DELAY in plan.metrics && plan.weights["delay"] > 0.0;
    assert BaselineJobs(plan) <= {"prefast", "preslow"};
  }

  // ---- The frozen baselines match ------------------------------------------------------------

  function Digest64(): (d: string) {
    "0000000000000000000000000000000000000000000000000000000000000000"
  }

  function Presource(corner: string): (s: Source) {
    Source("sim", [("netlist", Input("netlist"))], map["netlist" := Digest64()], map[], map[], corner)
  }

  function Sources(): (s: map<Id, Source>) { map["prefast" := Presource("fast"), "preslow" := Presource("slow")] }

  ghost function Rank(): (r: map<Id, nat>) { map["prefast" := 0, "preslow" := 0] }

  lemma SourcesAccepted()
    ensures AllParsed(Sources()) && AllBound(Sources()) && Ranked(Sources(), Sources().Keys, Rank())
  {
    forall name | name in Sources() ensures Bound(Sources(), Sources()[name]) {
      assert IsCircuit(Sources()[name].inputs[0].1);
    }
  }

  lemma TableOf(job: Job)
    requires job in Jobs()
    ensures job.id in Table(Jobs()) && Table(Jobs())[job.id] == job
  {
    hide Jobs, Ids, Find;
    JobNames();
    FindUnique(Jobs(), job);
  }

  /** Each simulation is paired with a frozen one that differs only in the extracted netlist. */
  lemma BaselinesMatch(corner: Job, name: Id)
    requires (corner == FAST && name == "prefast") || (corner == SLOW && name == "preslow")
    ensures AllParsed(Sources()) && AllBound(Sources()) && Ranked(Sources(), Sources().Keys, Rank()) && JobsResolved(Table(Jobs()))
    ensures corner.id in Table(Jobs()) && PairMatches(name, corner.id, Sources(), Table(Jobs()), Rank())
  {
    hide Jobs, Table, Ranked, AllBound, JobsResolved;
    SourcesAccepted();
    JobsWellFormed();
    OrderedJobsResolve(Jobs());
    JobsListed();
    TableOf(corner);
    TableOf(EXTRACT);
    var source := Sources()[name];
    assert source.inputs[0] == ("netlist", Input("netlist")) && corner.inputs[0] == NETLIST[0];
    assert Roles(source.inputs) == {"netlist"} == Roles(corner.inputs);
    assert InputOf(corner.inputs, "netlist") == Output("extract", "netlist");
  }

  // ---- The run -------------------------------------------------------------------------------

  const LOG: map<Id, Asset> := map["log" := Asset("finished", "text")]

  function PassedCheck(): (r: JobResult) { JobResult(Passed, "", map[], map[], LOG) }

  function Measured(name: Id, value: real, unit: string): (r: JobResult) {
    JobResult(Passed, "", map[name := Measurement(value, unit)], map[], LOG)
  }

  function Extracted(): (r: JobResult) {
    JobResult(Passed, "", map[], map["netlist" := Asset(".subckt top", "spice")], LOG)
  }

  function Crashed(): (r: JobResult) { JobResult(Error, "The simulator crashed", map[], map[], LOG) }

  /** What the tools report: one corner is too slow, the other corner's simulation errors. */
  function Reported(job: Job): (r: JobResult) {
    if job.id == "check" then Measured("area", 1.0, "um2")
    else if job.id == "extract" then Extracted()
    else if job.id == "fast" then Measured("delay", 2.0, "s")
    else if job.id == "slow" then Crashed()
    else PassedCheck()
  }

  /** One backend for everything, four calls at a time. */
  function Tools(): (b: Bench) {
    Bench({"artifact", "drc", "lvs", "area", "pex", "sim"}, (op: string) => 0, (backend: nat) => 4,
      (backend: nat, job: Job, inputs: map<Id, Asset>) => Some(Reported(job)))
  }

  function Provided(): (external: Assets) { map[Candidate := Asset("layout", "gds")] }

  function Outcomes(): (results: Results) { Final(Tools(), Ordered(), Provided()) }

  /** Every reported result is one that the runner accepts. */
  lemma ReportsValid(job: Job)
    requires job in Ordered()
    ensures ValidResult(job, Reported(job))
  {
    assert "log" in LOG;
  }

  lemma PlanRuns()
    ensures OrderedPlan(Ordered()) && InputsDeclared(Ordered(), Provided())
    ensures forall job :: job in Ordered() ==> job.operation in Tools().bound
    ensures CapacitiesValid(Tools())
  {
    hide Accepted, OrderedPlan;
    PlanAccepted();
    AcceptedIsOrdered(Jobs(), PostLayout, Order(), [AREA, DELAY]);
    forall m, n | 0 <= m < |Ordered()| && 0 <= n < |Ordered()[m].inputs| && !Ordered()[m].inputs[n].1.Output?
      ensures Ordered()[m].inputs[n].1 in Provided()
    {
    }
    AcceptedInputsDeclared(Jobs(), PostLayout, Order(), [AREA, DELAY], Provided());
  }

  /** A job whose dependencies passed gets what its tool reports. */
  lemma JobReports(i: nat)
    requires i < |Ordered()| && AllPassed(Outcomes(), Ordered()[i].needs)
    ensures Ordered()[i].id in Outcomes() && Outcomes()[Ordered()[i].id] == Reported(Ordered()[i])
  {
    hide OrderedPlan, InputsDeclared, Sequential, Satisfied, HasInputs, ValidResult, Reported, Ordered, Provided, Final;
    PlanRuns();
    FinalResult(Tools(), Ordered(), Provided(), i);
    InputsAlwaysFound(Tools(), Ordered(), Provided(), i);
    assert Ordered()[i] in Ordered();
    ReportsValid(Ordered()[i]);
  }

  lemma RunResults()
    ensures Outcomes().Keys == {"artifact", "drc", "lvs", "check", "extract", "fast", "slow"}
    ensures Outcomes()["artifact"] == Outcomes()["drc"] == Outcomes()["lvs"] == PassedCheck()
    ensures Outcomes()["check"] == Measured("area", 1.0, "um2") && Outcomes()["extract"] == Extracted()
    ensures Outcomes()["fast"] == Measured("delay", 2.0, "s") && Outcomes()["slow"] == Crashed()
  {
    hide Final, Outcomes, OrderedPlan, InputsDeclared;
    JobReports(0);
    JobReports(1);
    JobReports(2);
    JobReports(3);
    JobReports(4);
    JobReports(5);
    JobReports(6);
    OutcomeKeys();
  }

  lemma OutcomeKeys()
    ensures Outcomes().Keys == {"artifact", "drc", "lvs", "check", "extract", "fast", "slow"}
  {
    hide Ordered, Ids, Sequential;
    JobNames();
    SequentialKeys(Tools(), Ordered(), Provided(), |Ordered()|);
    assert Ordered()[..|Ordered()|] == Ordered();
  }

  // ---- The disagreement ----------------------------------------------------------------------

  lemma Observations(results: Results)
    requires results == Outcomes()
    ensures Observed(DELAY, results) && Observed(AREA, results)
    ensures Mixed(DELAY, results) && !SomeObservation(AREA, results, Failed)
    ensures MetricStatus(DELAY, results) == Blocked && MetricStatus(AREA, results) == Passed
    ensures !SomeJob(results, Failed) && SomeJob(results, Error)
  {
    hide Outcomes;
    RunResults();
    assert DELAY.observations[0] == Observation("fast", "delay") && DELAY.observations[1] == Observation("slow", "delay");
    assert Observe(DELAY, results, DELAY.observations[0]).0 == Failed;
    assert Observe(DELAY, results, DELAY.observations[1]).0 == Blocked;
    assert results["slow"].status == Error;
  }

  lemma RunComplete()
    ensures Ran(Plan(), Outcomes()) && HiddenRejection(Plan(), Outcomes()) && RunOutcome(Plan(), Outcomes()) == OutcomeError
  {
    hide Outcomes, SomeJob, SomeObservation, MetricStatus, Ordered, Ids;
    JobNames();
    OutcomeKeys();
    Observations(Outcomes());
    assert DELAY in Plan().metrics;
  }

  /**
   * A complete run of an accepted, scored post-layout plan with matching baselines, whose every result is valid: it is
   * scored zero although its outcome is an evaluator error.
   */
  lemma HiddenRejectionExample(l: Logs)
    ensures Accepted(Jobs(), PostLayout, Order(), Plan().metrics) && ScoringValid(Plan()) && DeclaredPlan(Plan())
    ensures Plan().jobs == Order().ordered && Outcomes() == Final(Tools(), Plan().jobs, Provided())
    ensures forall job :: job in Plan().jobs ==> job.id in Outcomes() && ValidResult(job, Outcomes()[job.id])
    ensures Ran(Plan(), Outcomes()) && HiddenRejection(Plan(), Outcomes())
    ensures RunOutcome(Plan(), Outcomes()) == OutcomeError && FinalOutcome(l, Plan(), Outcomes()) == OutcomeError
    ensures LayoutScore(l, Plan(), Outcomes()).value == Some(0.0)
  {
    hide Accepted, ScoringValid, DeclaredPlan, Ran, LayoutScore, HiddenRejection, RunOutcome, Jobs, Final, ValidResult, Ids, Ordered;
    PlanAccepted();
    PlanScored();
    PlanDeclared();
    RunComplete();
    AllValid();
    RejectionAgreesExactly(l, Plan(), Outcomes());
    ZeroGateExactly(l, Plan(), Outcomes());
  }

  lemma AllValid()
    ensures forall job :: job in Ordered() ==> job.id in Outcomes() && ValidResult(job, Outcomes()[job.id])
  {
    hide Outcomes;
    RunResults();
    forall job | job in Ordered() ensures job.id in Outcomes() && ValidResult(job, Outcomes()[job.id]) {
      ReportsValid(job);
    }
  }
}
