/** What mode validation of a plan guarantees about every run of that plan. */
module GateSafety {
  import opened Prelude
  import opened Graphs
  import opened Plans
  import opened JobOrder
  import opened Runner
  import opened Metrics

  datatype Mode = PhysicalOnly | PostLayout | Characterization

  predicate ConsumesCandidate(job: Job) {
    exists i :: 0 <= i < |job.inputs| && job.inputs[i].1 == Candidate
  }

  predicate ConsumesJob(job: Job) {
    exists i :: 0 <= i < |job.inputs| && job.inputs[i].1.Output?
  }

  predicate IsPhysicalGate(job: Job) {
    job.gate == Some(Artifact) || job.gate == Some(Drc) || job.gate == Some(Lvs)
  }

  /** Exactly one job carries the gate, and it checks the candidate. */
  predicate OneGate(ordered: seq<Job>, gate: Gate) {
    exists i :: 0 <= i < |ordered| && ordered[i].gate == Some(gate) && ConsumesCandidate(ordered[i])
      && forall j :: 0 <= j < |ordered| && ordered[j].gate == Some(gate) ==> j == i
  }

  predicate JobAllowed(ordered: seq<Job>, job: Job, ancestors: map<Id, set<Id>>)
    requires job.id in ancestors
  {
    && (job.stage == Simulate ==> ConsumesJob(job))
    && (job.stage == Extract ==> forall g :: g in ordered && IsPhysicalGate(g) ==> g.id in ancestors[job.id])
  }

  /** `job` is a simulation that some extraction of the candidate feeds. */
  predicate FedByExtraction(ordered: seq<Job>, job: Job, dataAncestors: map<Id, set<Id>>)
    requires job.id in dataAncestors
  {
    exists e :: e in ordered && e.id in dataAncestors[job.id] && e.stage == Extract && ConsumesCandidate(e)
  }

  predicate InLineage(job: Job, id: Id, dataAncestors: map<Id, set<Id>>)
    requires id in dataAncestors
  {
    job.stage == Simulate && (job.id == id || job.id in dataAncestors[id])
  }

  /** The observation comes from simulations, each fed by an extraction of the candidate. */
  predicate ObservationTraced(ordered: seq<Job>, o: Observation, dataAncestors: map<Id, set<Id>>)
    requires Ids(ordered) <= dataAncestors.Keys
  {
    && o.job in Ids(ordered)
    && (exists s :: s in ordered && InLineage(s, o.job, dataAncestors))
    && forall s :: s in ordered && InLineage(s, o.job, dataAncestors) ==>
         (assert s.id in Ids(ordered) by { InIds(ordered, s.id); } FedByExtraction(ordered, s, dataAncestors))
  }

  predicate MetricTraced(ordered: seq<Job>, metric: Metric, dataAncestors: map<Id, set<Id>>)
    requires Ids(ordered) <= dataAncestors.Keys
  {
    metric.category == Performance ==>
      forall o :: o in metric.observations ==> ObservationTraced(ordered, o, dataAncestors)
  }

  predicate ValidMode(mode: Mode, o: Ordering, metrics: seq<Metric>)
    requires Ids(o.ordered) <= o.ancestors.Keys && Ids(o.ordered) <= o.dataAncestors.Keys
  {
    && (mode != Characterization ==> OneGate(o.ordered, Artifact) && OneGate(o.ordered, Drc) && OneGate(o.ordered, Lvs))
    && (mode == PostLayout ==>
          && (forall i :: 0 <= i < |o.ordered| ==> JobAllowed(o.ordered, o.ordered[i], o.ancestors))
          && (exists m :: m in metrics && m.category == Performance)
          && (forall m :: m in metrics ==> MetricTraced(o.ordered, m, o.dataAncestors)))
  }

  /** A plan as parsing accepts it: ordered jobs with exact ancestor tables in a valid mode. */
  ghost predicate Accepted(jobs: seq<Job>, mode: Mode, o: Ordering, metrics: seq<Metric>) {
    && DistinctIds(jobs) && WellFormed(jobs)
    && Topological(o.ordered) && Rearranges(o.ordered, jobs)
    && o.ancestors.Keys == Ids(o.ordered) == o.dataAncestors.Keys
    && Closures(Edges(jobs), o.ancestors) && Closures(DataEdges(jobs), o.dataAncestors)
    && ValidMode(mode, o, metrics)
  }

  // ---- The mode, told on the dependency graph ------------------------------------------------

  /** Every extraction waits for every physical check, and every simulation consumes some job's output. */
  ghost predicate ExtractionsGated(jobs: seq<Job>, ordered: seq<Job>) {
    && (forall job :: job in ordered && job.stage == Simulate ==> ConsumesJob(job))
    && forall job, g :: job in ordered && g in ordered && job.stage == Extract && IsPhysicalGate(g) ==>
         Follows(Edges(jobs), job.id, g.id)
  }

  /** A simulation that the job is or consumes, however indirectly. */
  ghost predicate SimulationBehind(jobs: seq<Job>, ordered: seq<Job>, id: Id, s: Job) {
    s in ordered && s.stage == Simulate && (s.id == id || Follows(DataEdges(jobs), id, s.id))
  }

  ghost predicate ExtractionBehind(jobs: seq<Job>, ordered: seq<Job>, s: Job) {
    exists e :: e in ordered && e.stage == Extract && ConsumesCandidate(e) && Follows(DataEdges(jobs), s.id, e.id)
  }

  /** The observation has simulations behind it, and each of them an extraction of the candidate. */
  ghost predicate SimulatedFromExtraction(jobs: seq<Job>, ordered: seq<Job>, o: Observation) {
    && o.job in Ids(ordered)
    && (exists s :: SimulationBehind(jobs, ordered, o.job, s))
    && forall s :: SimulationBehind(jobs, ordered, o.job, s) ==> ExtractionBehind(jobs, ordered, s)
  }

  /** What a mode demands of a plan. */
  ghost predicate ModeDemands(mode: Mode, jobs: seq<Job>, ordered: seq<Job>, metrics: seq<Metric>) {
    && (mode != Characterization ==> forall gate :: gate in [Artifact, Drc, Lvs] ==> OneGate(ordered, gate))
    && (mode == PostLayout ==>
          && ExtractionsGated(jobs, ordered)
          && (exists m :: m in metrics && m.category == Performance)
          && forall m, o :: m in metrics && m.category == Performance && o in m.observations ==>
               SimulatedFromExtraction(jobs, ordered, o))
  }

  lemma ObservationExactly(jobs: seq<Job>, o: Ordering, ref: Observation)
    requires o.ancestors.Keys == Ids(o.ordered) == o.dataAncestors.Keys && Closures(DataEdges(jobs), o.dataAncestors)
    ensures ObservationTraced(o.ordered, ref, o.dataAncestors) <==> SimulatedFromExtraction(jobs, o.ordered, ref)
  {
    hide DataEdges, Follows, Ids, ConsumesCandidate;
    if ref.job in Ids(o.ordered) {
      assert IsClosure(DataEdges(jobs), ref.job, o.dataAncestors[ref.job]);
      forall s ensures s in o.ordered && InLineage(s, ref.job, o.dataAncestors) <==> SimulationBehind(jobs, o.ordered, ref.job, s) {
      }
      forall s | s in o.ordered
        ensures s.id in o.dataAncestors && (FedByExtraction(o.ordered, s, o.dataAncestors) <==> ExtractionBehind(jobs, o.ordered, s))
      {
        InIds(o.ordered, s.id);
        assert IsClosure(DataEdges(jobs), s.id, o.dataAncestors[s.id]);
      }
    }
  }

  lemma JobsExactly(jobs: seq<Job>, o: Ordering)
    requires o.ancestors.Keys == Ids(o.ordered) && Closures(Edges(jobs), o.ancestors)
    ensures (forall i :: 0 <= i < |o.ordered| ==> o.ordered[i].id in o.ancestors && JobAllowed(o.ordered, o.ordered[i], o.ancestors))
       <==> ExtractionsGated(jobs, o.ordered)
  {
    hide Edges, Follows, Ids, ConsumesJob;
    forall job | job in o.ordered
      ensures job.id in o.ancestors && IsClosure(Edges(jobs), job.id, o.ancestors[job.id])
    {
      InIds(o.ordered, job.id);
    }
    if forall i :: 0 <= i < |o.ordered| ==> JobAllowed(o.ordered, o.ordered[i], o.ancestors) {
      forall job | job in o.ordered ensures JobAllowed(o.ordered, job, o.ancestors) {
        var i :| 0 <= i < |o.ordered| && o.ordered[i] == job;
      }
    }
  }

  /** With exact ancestor tables, validation accepts a mode exactly if the dependency graph meets what the mode demands. */
  lemma ModeExactly(mode: Mode, jobs: seq<Job>, o: Ordering, metrics: seq<Metric>)
    requires o.ancestors.Keys == Ids(o.ordered) == o.dataAncestors.Keys
    requires Closures(Edges(jobs), o.ancestors) && Closures(DataEdges(jobs), o.dataAncestors)
    ensures ValidMode(mode, o, metrics) <==> ModeDemands(mode, jobs, o.ordered, metrics)
  {
    hide Closures, JobAllowed, ExtractionsGated, ObservationTraced, SimulatedFromExtraction, OneGate, Ids;
    JobsExactly(jobs, o);
    forall ref ensures ObservationTraced(o.ordered, ref, o.dataAncestors) <==> SimulatedFromExtraction(jobs, o.ordered, ref) {
      ObservationExactly(jobs, o, ref);
    }
    forall m | m in metrics
      ensures MetricTraced(o.ordered, m, o.dataAncestors) <==>
        (m.category == Performance ==> forall ref :: ref in m.observations ==> SimulatedFromExtraction(jobs, o.ordered, ref))
    {
    }
    assert [Artifact, Drc, Lvs][0] == Artifact && [Artifact, Drc, Lvs][1] == Drc && [Artifact, Drc, Lvs][2] == Lvs;
    OrderedIds(o);
  }

  lemma OrderedIds(o: Ordering)
    ensures forall i :: 0 <= i < |o.ordered| ==> o.ordered[i].id in Ids(o.ordered)
  {
  }

  lemma AcceptedIsOrdered(jobs: seq<Job>, mode: Mode, o: Ordering, metrics: seq<Metric>)
    requires Accepted(jobs, mode, o, metrics)
    ensures OrderedPlan(o.ordered)
  {
    hide ValidMode, Closures, Topological, WellFormed;
    forall job | job in o.ordered ensures Producers(job) <= job.needs {
      var source :| source in jobs && job == Placed(source);
    }
  }

  /** Making dependencies explicit and reordering the jobs keeps the dependency graph. */
  lemma EdgesPlaced(jobs: seq<Job>, ordered: seq<Job>)
    requires DistinctIds(jobs) && Rearranges(ordered, jobs)
    ensures Edges(ordered) == Edges(jobs)
  {
    forall a, b ensures (a, b) in Edges(ordered) <==> (a, b) in Edges(jobs) {
      if (a, b) in Edges(ordered) {
        var i, d :| 0 <= i < |ordered| && d in Dependencies(ordered[i]) && (a, b) == (ordered[i].id, d);
        assert ordered[i] in ordered;
        var source :| source in jobs && ordered[i] == Placed(source);
        EdgesOf(jobs, source, b);
      }
      if (a, b) in Edges(jobs) {
        var i, d :| 0 <= i < |jobs| && d in Dependencies(jobs[i]) && (a, b) == (jobs[i].id, d);
        EdgesOf(ordered, Placed(jobs[i]), b);
      }
    }
  }

  lemma DataEdgesWithin(jobs: seq<Job>)
    ensures DataEdges(jobs) <= Edges(jobs)
  {
  }

  lemma DataFollows(jobs: seq<Job>, x: Id, y: Id)
    requires Follows(DataEdges(jobs), x, y)
    ensures Follows(Edges(jobs), x, y)
  {
    hide Edges, DataEdges;
    var z :| (x, z) in DataEdges(jobs) && Reaches(DataEdges(jobs), z, y);
    DataEdgesWithin(jobs);
    ReachesMonotone(DataEdges(jobs), Edges(jobs), z, y);
  }

  /** What a job that was not blocked depends on has passed. */
  lemma AncestorPassed(
    jobs: seq<Job>, mode: Mode, o: Ordering, metrics: seq<Metric>, bench: Bench, external: Assets, i: nat, a: Id)
    requires Accepted(jobs, mode, o, metrics) && i < |o.ordered| && Follows(Edges(jobs), o.ordered[i].id, a)
    requires OrderedPlan(o.ordered)
    requires o.ordered[i].id in Final(bench, o.ordered, external)
    requires Final(bench, o.ordered, external)[o.ordered[i].id].status != Blocked
    ensures a in Final(bench, o.ordered, external) && Final(bench, o.ordered, external)[a].status == Passed
  {
    hide Final, Edges, Follows, OrderedPlan, ValidMode, Closures, Topological, WellFormed;
    EdgesPlaced(jobs, o.ordered);
    PassedAncestors(bench, o.ordered, external, i, a);
  }

  /** In every run, an extraction is attempted only after the artifact, DRC and LVS checks have passed. */
  lemma ExtractionAfterGates(
    jobs: seq<Job>, o: Ordering, metrics: seq<Metric>, bench: Bench, external: Assets, i: nat, g: nat)
    requires Accepted(jobs, PostLayout, o, metrics)
    requires i < |o.ordered| && o.ordered[i].stage == Extract
    requires g < |o.ordered| && IsPhysicalGate(o.ordered[g])
    ensures OrderedPlan(o.ordered) && o.ordered[i].id in Final(bench, o.ordered, external)
    ensures Final(bench, o.ordered, external)[o.ordered[i].id].status != Blocked ==>
      && o.ordered[g].id in Final(bench, o.ordered, external)
      && Final(bench, o.ordered, external)[o.ordered[g].id].status == Passed
  {
    hide Final, Edges, OrderedPlan, Topological, WellFormed, OneGate, MetricTraced, Rearranges, Follows;
    AcceptedIsOrdered(jobs, PostLayout, o, metrics);
    BlockedByDependency(bench, o.ordered, external, i);
    InIds(o.ordered, o.ordered[i].id);
    assert JobAllowed(o.ordered, o.ordered[i], o.ancestors);
    assert IsClosure(Edges(jobs), o.ordered[i].id, o.ancestors[o.ordered[i].id]);
    if Final(bench, o.ordered, external)[o.ordered[i].id].status != Blocked {
      AncestorPassed(jobs, PostLayout, o, metrics, bench, external, i, o.ordered[g].id);
    }
  }

  /** In every run, a performance observation with a value descends from a passed extraction of the candidate. */
  lemma PerformanceFromExtraction(
    jobs: seq<Job>, o: Ordering, metrics: seq<Metric>, bench: Bench, external: Assets, metric: Metric, ref: Observation)
    returns (e: Job)
    requires Accepted(jobs, PostLayout, o, metrics)
    requires metric in metrics && metric.category == Performance && ref in metric.observations
    requires ref.job in Final(bench, o.ordered, external) && Final(bench, o.ordered, external)[ref.job].status == Passed
    ensures e in o.ordered && e.stage == Extract && ConsumesCandidate(e)
    ensures Follows(DataEdges(jobs), ref.job, e.id)
    ensures e.id in Final(bench, o.ordered, external) && Final(bench, o.ordered, external)[e.id].status == Passed
  {
    hide Final, Edges, DataEdges, OrderedPlan, Topological, WellFormed, OneGate, JobAllowed, Rearranges, Follows;
    AcceptedIsOrdered(jobs, PostLayout, o, metrics);
    assert MetricTraced(o.ordered, metric, o.dataAncestors);
    assert ObservationTraced(o.ordered, ref, o.dataAncestors);
    var s :| s in o.ordered && InLineage(s, ref.job, o.dataAncestors);
    InIds(o.ordered, s.id);
    assert FedByExtraction(o.ordered, s, o.dataAncestors);
    e :| e in o.ordered && e.id in o.dataAncestors[s.id] && e.stage == Extract && ConsumesCandidate(e);
    assert IsClosure(DataEdges(jobs), s.id, o.dataAncestors[s.id]);
    assert IsClosure(DataEdges(jobs), ref.job, o.dataAncestors[ref.job]);
    if s.id != ref.job {
      FollowsTransitive(DataEdges(jobs), ref.job, s.id, e.id);
    }
    DataFollows(jobs, ref.job, e.id);
    var i :| 0 <= i < |o.ordered| && o.ordered[i].id == ref.job;
    AncestorPassed(jobs, PostLayout, o, metrics, bench, external, i, e.id);
  }

  lemma FollowsTransitive(e: set<(Id, Id)>, x: Id, y: Id, z: Id)
    requires Follows(e, x, y) && Follows(e, y, z)
    ensures Follows(e, x, z)
  {
    var m :| (x, m) in e && Reaches(e, m, y);
    ReachesUnfold(e, y, z);
    ReachesTransitive(e, m, y, z);
  }

  /** The references that the caller must provide before a run. */
  predicate ExternalsProvided(jobs: seq<Job>, external: Assets) {
    forall m, n :: 0 <= m < |jobs| && 0 <= n < |jobs[m].inputs| && !jobs[m].inputs[n].1.Output? ==>
      jobs[m].inputs[n].1 in external
  }

  /** In an accepted plan all declared inputs of every job are provided or produced. */
  lemma AcceptedInputsDeclared(jobs: seq<Job>, mode: Mode, o: Ordering, metrics: seq<Metric>, external: Assets)
    requires Accepted(jobs, mode, o, metrics) && ExternalsProvided(o.ordered, external)
    ensures InputsDeclared(o.ordered, external)
  {
    hide ValidMode, Closures, Topological;
    forall m, n, q | 0 <= m < |o.ordered| && 0 <= n < |o.ordered[m].inputs| && o.ordered[m].inputs[n].1.Output?
      && 0 <= q < |o.ordered| && o.ordered[q].id == o.ordered[m].inputs[n].1.job
      ensures o.ordered[m].inputs[n].1.name in o.ordered[q].outputs
    {
      assert o.ordered[m] in o.ordered && o.ordered[q] in o.ordered;
      var a :| a in jobs && o.ordered[m] == Placed(a);
      var b :| b in jobs && o.ordered[q] == Placed(b);
      DeclaredOutput(jobs, a, n, b);
    }
  }

  lemma DeclaredOutput(jobs: seq<Job>, a: Job, n: nat, b: Job)
    requires DistinctIds(jobs) && WellFormed(jobs) && a in jobs && b in jobs
    requires n < |a.inputs| && a.inputs[n].1.Output? && a.inputs[n].1.job == b.id
    ensures a.inputs[n].1.name in b.outputs
  {
    assert Resolves(jobs, a);
    assert KnownRef(jobs, a.inputs[n].1);
    FindUnique(jobs, b);
  }
}
