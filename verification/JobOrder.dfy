/** Dependency ordering of evaluation jobs with their transitive ancestors. */
module JobOrder {
  import opened Prelude
  import opened Graphs
  import opened Plans

  datatype Ordering = Ordering(
    ordered: seq<Job>, ancestors: map<Id, set<Id>>, dataAncestors: map<Id, set<Id>>)

  /** A job as it is listed in the ordered plan: all direct dependencies explicit. */
  function Placed(job: Job): (r: Job) {
    job.(needs := Dependencies(job))
  }

  /** `s` is exactly the set of nodes that can be reached from `id` in one or more steps. */
  ghost predicate IsClosure(e: set<(Id, Id)>, id: Id, s: set<Id>) {
    forall d :: d in s <==> Follows(e, id, d)
  }

  ghost predicate Closures(e: set<(Id, Id)>, above: map<Id, set<Id>>) {
    forall id :: id in above ==> IsClosure(e, id, above[id])
  }

  /** The members of the sets that `above` gives to `ids`. */
  function Union(above: map<Id, set<Id>>, ids: set<Id>): (all: set<Id>)
    requires ids <= above.Keys
  {
    set x, y | x in ids && y in above[x] :: y
  }

  /** Direct dependencies and what is above them make up the transitive closure. */
  lemma ClosureStep(e: set<(Id, Id)>, id: Id, deps: set<Id>, above: map<Id, set<Id>>)
    requires forall d :: (id, d) in e <==> d in deps
    requires deps <= above.Keys && Closures(e, above)
    ensures IsClosure(e, id, deps + Union(above, deps))
  {
    forall d ensures d in deps + Union(above, deps) <==> Follows(e, id, d) {
      if d in deps {
        ReachesSelf(e, d);
        assert (id, d) in e;
      } else if d in Union(above, deps) {
        var x :| x in deps && d in above[x];
        assert IsClosure(e, x, above[x]);
        ReachesUnfold(e, x, d);
        assert (id, x) in e;
      } else if Follows(e, id, d) {
        var z :| (id, z) in e && Reaches(e, z, d);
        ReachesUnfold(e, z, d);
      }
    }
  }

  /** Every job comes after all jobs it depends on. */
  ghost predicate Topological(ordered: seq<Job>) {
    forall k :: 0 <= k < |ordered| ==> ordered[k].needs <= Ids(ordered[..k])
  }

  /** The same jobs, each once, with their dependencies made explicit. */
  ghost predicate Rearranges(ordered: seq<Job>, jobs: seq<Job>) {
    && DistinctIds(ordered)
    && (forall job :: job in jobs ==> Placed(job) in ordered)
    && (forall job :: job in ordered ==> exists source :: source in jobs && job == Placed(source))
  }

  predicate Ready(job: Job, known: set<Id>) {
    Dependencies(job) <= known
  }

  /** Checks the references of every job, in the order of declaration. */
  method CheckReferences(jobs: seq<Job>) returns (r: Result<(), PlanError>)
    requires DistinctIds(jobs)
    ensures r.Ok? <==> WellFormed(jobs)
    ensures r.Err? ==> r.error != DependencyCycle
  {
    for k := 0 to |jobs|
      invariant forall j :: 0 <= j < k ==> Resolves(jobs, jobs[j])
    {
      var job := jobs[k];
      for i := 0 to |job.inputs|
        invariant forall j :: 0 <= j < i ==> KnownRef(jobs, job.inputs[j].1)
      {
        var ref := job.inputs[i].1;
        match ref {
          case Candidate =>
          case Task =>
          case Input(role) =>
            if !IsIdentifier(role) {
              assert !KnownRef(jobs, ref) && !Resolves(jobs, job);
              return Err(BadIdentifier);
            }
          case Output(producer, name) =>
            if producer !in Ids(jobs) {
              assert !KnownRef(jobs, ref) && !Resolves(jobs, job);
              return Err(UnknownReference);
            }
            if name !in Find(jobs, producer).outputs {
              assert !KnownRef(jobs, ref) && !Resolves(jobs, job);
              return Err(UnknownOutput);
            }
          case Other(_) =>
            assert !KnownRef(jobs, ref) && !Resolves(jobs, job);
            return Err(UnknownReference);
        }
      }
      if !(job.needs <= Ids(jobs)) {
        assert !Resolves(jobs, job);
        return Err(UnknownDependency);
      }
    }
    return Ok(());
  }

  /** The waiting jobs whose dependencies are all known (or, with `ready` false, the others), in their order. */
  function Select(pending: seq<Job>, known: set<Id>, ready: bool): (s: seq<Job>)
    ensures forall job :: job in s <==> job in pending && Ready(job, known) == ready
    ensures |s| <= |pending|
  {
    if pending == [] then []
    else if Ready(pending[0], known) == ready then [pending[0]] + Select(pending[1..], known, ready)
    else Select(pending[1..], known, ready)
  }

  lemma {:induction false} SelectDistinct(pending: seq<Job>, known: set<Id>, ready: bool)
    requires DistinctIds(pending)
    ensures DistinctIds(Select(pending, known, ready))
  {
    if pending != [] {
      var rest := Select(pending[1..], known, ready);
      SelectDistinct(pending[1..], known, ready);
      forall k | 0 <= k < |rest| ensures rest[k].id != pending[0].id {
        assert rest[k] in pending[1..];
      }
    }
  }

  lemma {:induction false} SelectPartitions(pending: seq<Job>, known: set<Id>)
    ensures |Select(pending, known, true)| + |Select(pending, known, false)| == |pending|
  {
    if pending != [] {
      SelectPartitions(pending[1..], known);
    }
  }

  /** Jobs of one table with the same name are the same job. */
  lemma SameId(jobs: seq<Job>, a: Job, b: Job)
    requires DistinctIds(jobs) && a in jobs && b in jobs && a.id == b.id
    ensures a == b
  {
  }

  lemma InIds(jobs: seq<Job>, id: Id)
    ensures id in Ids(jobs) <==> exists job :: job in jobs && job.id == id
  {
    if job :| job in jobs && job.id == id {
      var i :| 0 <= i < |jobs| && jobs[i] == job;
      assert jobs[i].id in Ids(jobs);
    }
  }

  /** What is known once some jobs have been placed: their names and exact ancestor sets. */
  ghost predicate Progress(jobs: seq<Job>, o: Ordering) {
    && o.ancestors.Keys == Ids(o.ordered) == o.dataAncestors.Keys
    && Closures(Edges(jobs), o.ancestors)
    && Closures(DataEdges(jobs), o.dataAncestors)
    && Topological(o.ordered)
    && DistinctIds(o.ordered)
    && (forall job :: job in o.ordered ==> exists source :: source in jobs && job == Placed(source))
  }

  /** Places one job whose dependencies have all been placed. */
  function Place(o: Ordering, job: Job): (r: Ordering)
    requires Dependencies(job) <= o.ancestors.Keys && Producers(job) <= o.dataAncestors.Keys
  {
    Ordering(
      o.ordered + [Placed(job)],
      o.ancestors[job.id := Dependencies(job) + Union(o.ancestors, Dependencies(job))],
      o.dataAncestors[job.id := Producers(job) + Union(o.dataAncestors, Producers(job))])
  }

  lemma IdsAppend(jobs: seq<Job>, job: Job)
    ensures Ids(jobs + [job]) == Ids(jobs) + {job.id}
  {
    var s := jobs + [job];
    forall id ensures id in Ids(s) <==> id in Ids(jobs) + {job.id} {
      if id in Ids(jobs) {
        var i :| 0 <= i < |jobs| && jobs[i].id == id;
        assert s[i].id == id;
      }
      if id == job.id {
        assert s[|jobs|].id == id;
      }
    }
  }

  /** One more exact closure extends a table of exact closures. */
  lemma ClosuresExtend(e: set<(Id, Id)>, id: Id, deps: set<Id>, above: map<Id, set<Id>>)
    requires forall d :: (id, d) in e <==> d in deps
    requires deps <= above.Keys && Closures(e, above)
    ensures Closures(e, above[id := deps + Union(above, deps)])
  {
    ClosureStep(e, id, deps, above);
  }

  lemma PlaceKeepsProgress(jobs: seq<Job>, o: Ordering, job: Job)
    requires DistinctIds(jobs) && job in jobs
    requires Progress(jobs, o) && job.id !in o.ancestors
    requires Dependencies(job) <= o.ancestors.Keys
    ensures Progress(jobs, Place(o, job))
  {
    var r := Place(o, job);
    assert Closures(Edges(jobs), r.ancestors) by {
      forall d ensures (job.id, d) in Edges(jobs) <==> d in Dependencies(job) {
        EdgesOf(jobs, job, d);
      }
      ClosuresExtend(Edges(jobs), job.id, Dependencies(job), o.ancestors);
    }
    assert Closures(DataEdges(jobs), r.dataAncestors) by {
      forall d ensures (job.id, d) in DataEdges(jobs) <==> d in Producers(job) {
        EdgesOf(jobs, job, d);
      }
      ClosuresExtend(DataEdges(jobs), job.id, Producers(job), o.dataAncestors);
    }
    IdsAppend(o.ordered, Placed(job));
    PlaceTopological(o.ordered, Placed(job));
    assert DistinctIds(r.ordered) by {
      forall i | 0 <= i < |o.ordered| ensures o.ordered[i].id != job.id {
        assert o.ordered[i].id in Ids(o.ordered);
      }
    }
  }

  lemma PlaceTopological(ordered: seq<Job>, job: Job)
    requires Topological(ordered) && job.needs <= Ids(ordered)
    ensures Topological(ordered + [job])
  {
    var s := ordered + [job];
    forall k | 0 <= k < |s| ensures s[k].needs <= Ids(s[..k]) {
      if k < |ordered| {
        assert s[..k] == ordered[..k];
      } else {
        assert s[..k] == ordered;
      }
    }
  }

  function Position(ordered: seq<Job>, id: Id): (k: int)
    ensures 0 <= k <= |ordered|
    ensures k < |ordered| ==> ordered[k].id == id
    ensures forall i :: 0 <= i < k ==> ordered[i].id != id
  {
    if ordered == [] || ordered[0].id == id then 0 else 1 + Position(ordered[1..], id)
  }

  /** A topological listing of all jobs excludes dependency cycles. */
  lemma TopologicalIsAcyclic(jobs: seq<Job>, ordered: seq<Job>)
    requires DistinctIds(jobs) && Topological(ordered) && Rearranges(ordered, jobs)
    ensures !Cyclic(Edges(jobs))
  {
    var rank := (id: Id) => Position(ordered, id);
    forall a, b | (a, b) in Edges(jobs) ensures rank(b) < rank(a) {
      var i, d :| 0 <= i < |jobs| && d in Dependencies(jobs[i]) && (a, b) == (jobs[i].id, d);
      var placed := Placed(jobs[i]);
      assert placed in ordered;
      var k :| 0 <= k < |ordered| && ordered[k] == placed;
      assert b in Ids(ordered[..k]);
      var m :| 0 <= m < k && ordered[..k][m].id == b;
      assert ordered[m].id == b;
      assert rank(a) == k;
    }
    RankedIsAcyclic(Edges(jobs), rank);
  }

  /** When no waiting job is ready, the waiting jobs contain a cycle. */
  lemma StuckMeansCycle(jobs: seq<Job>, pending: seq<Job>, known: set<Id>)
    requires DistinctIds(jobs) && WellFormed(jobs) && pending != []
    requires forall job :: job in pending ==> job in jobs && !Ready(job, known)
    requires forall job :: job in jobs ==> job in pending || job.id in known
    ensures Cyclic(Edges(jobs))
  {
    var e, s := Edges(jobs), Ids(pending);
    assert pending[0].id in s;
    forall a | a in s ensures StaysIn(e, s, a) {
      var job := Find(pending, a);
      var d :| d in Dependencies(job) && d !in known;
      EdgesOf(jobs, job, d);
      EdgeEnds(jobs, a, d);
      assert Find(jobs, d) in pending;
      InIds(pending, d);
    }
    NoSinkMeansCycle(e, s);
  }

  /** Everything the loop needs to know between two rounds. */
  ghost predicate BetweenRounds(jobs: seq<Job>, pending: seq<Job>, o: Ordering) {
    && Progress(jobs, o)
    && DistinctIds(pending)
    && (forall job :: job in pending ==> job in jobs && job.id !in o.ancestors)
    && (forall job :: job in jobs ==> job in pending || job.id in o.ancestors)
  }

  lemma AllPlaced(jobs: seq<Job>, o: Ordering)
    requires DistinctIds(jobs) && BetweenRounds(jobs, [], o)
    ensures Rearranges(o.ordered, jobs)
  {
    forall job | job in jobs ensures Placed(job) in o.ordered {
      var placed := Find(o.ordered, job.id);
      var source :| source in jobs && placed == Placed(source);
      SameId(jobs, source, job);
    }
  }

  lemma PrefixIds(jobs: seq<Job>, k: nat)
    requires DistinctIds(jobs) && k < |jobs|
    ensures jobs[k].id !in Ids(jobs[..k])
    ensures Ids(jobs[..k + 1]) == Ids(jobs[..k]) + {jobs[k].id}
  {
    IdsAppend(jobs[..k], jobs[k]);
    assert jobs[..k + 1] == jobs[..k] + [jobs[k]];
  }

  /** Places all jobs of one round. */
  method PlaceRound(jobs: seq<Job>, ready: seq<Job>, start: Ordering) returns (o: Ordering)
    requires DistinctIds(jobs) && DistinctIds(ready) && Progress(jobs, start)
    requires forall job :: job in ready ==> job in jobs && Ready(job, start.ancestors.Keys) && job.id !in start.ancestors
    ensures Progress(jobs, o)
    ensures o.ancestors.Keys == start.ancestors.Keys + Ids(ready)
  {
    o := start;
    for k := 0 to |ready|
      invariant Progress(jobs, o)
      invariant o.ancestors.Keys == start.ancestors.Keys + Ids(ready[..k])
    {
      var job := ready[k];
      assert job in ready && Ready(job, start.ancestors.Keys);
      PrefixIds(ready, k);
      PlaceKeepsProgress(jobs, o, job);
      o := Place(o, job);
    }
    assert ready[..|ready|] == ready;
  }

  lemma RoundDone(jobs: seq<Job>, pending: seq<Job>, before: Ordering, after: Ordering)
    requires BetweenRounds(jobs, pending, before) && Progress(jobs, after)
    requires after.ancestors.Keys == before.ancestors.Keys + Ids(Select(pending, before.ancestors.Keys, true))
    ensures BetweenRounds(jobs, Select(pending, before.ancestors.Keys, false), after)
  {
    var known := before.ancestors.Keys;
    SelectDistinct(pending, known, false);
    forall job | job in Select(pending, known, false) ensures job.id !in after.ancestors {
      if job.id in Ids(Select(pending, known, true)) {
        var other := Find(Select(pending, known, true), job.id);
        SameId(pending, job, other);
        assert false;
      }
    }
    forall job | job in jobs ensures job in Select(pending, known, false) || job.id in after.ancestors {
      if job in pending && Ready(job, known) {
        InIds(Select(pending, known, true), job.id);
      }
    }
  }

  /**
   * Orders the declared jobs. It succeeds exactly when every reference resolves and no job depends on
   * itself; the ancestor tables are then the exact transitive closures.
   */
  method OrderJobs(jobs: seq<Job>) returns (r: Result<Ordering, PlanError>)
    requires DistinctIds(jobs)
    ensures r.Ok? <==> WellFormed(jobs) && !Cyclic(Edges(jobs))
    ensures r.Ok? ==> Topological(r.value.ordered) && Rearranges(r.value.ordered, jobs)
    ensures r.Ok? ==> r.value.ancestors.Keys == Ids(jobs) && Closures(Edges(jobs), r.value.ancestors)
    ensures r.Ok? ==> r.value.dataAncestors.Keys == Ids(jobs) && Closures(DataEdges(jobs), r.value.dataAncestors)
    ensures r.Err? ==> (r.error == DependencyCycle <==> WellFormed(jobs))
  {
    var checked := CheckReferences(jobs);
    if checked.Err? {
      return Err(checked.error);
    }
    var pending, o := jobs, Ordering([], map[], map[]);
    while pending != []
      invariant BetweenRounds(jobs, pending, o)
      decreases |pending|
    {
      var known := o.ancestors.Keys;
      var ready := Select(pending, known, true);
      if ready == [] {
        StuckMeansCycle(jobs, pending, known) by {
          forall job | job in pending ensures !Ready(job, known) {
            assert job !in ready;
          }
        }
        return Err(DependencyCycle);
      }
      SelectDistinct(pending, known, true);
      SelectPartitions(pending, known);
      var next := PlaceRound(jobs, ready, o);
      RoundDone(jobs, pending, o, next);
      o, pending := next, Select(pending, known, false);
    }
    AllPlaced(jobs, o);
    TopologicalIsAcyclic(jobs, o.ordered);
    RearrangedIds(o.ordered, jobs);
    return Ok(o);
  }

  lemma RearrangedIds(ordered: seq<Job>, jobs: seq<Job>)
    requires Rearranges(ordered, jobs)
    ensures Ids(ordered) == Ids(jobs)
  {
    forall id ensures id in Ids(ordered) <==> id in Ids(jobs) {
      InIds(ordered, id);
      InIds(jobs, id);
      if job :| job in jobs && job.id == id {
        assert Placed(job) in ordered;
      }
    }
  }
}
