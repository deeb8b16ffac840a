/** Execution of an ordered plan: blocked propagation and batching over concurrent backends. */
module Runner {
  import opened Prelude
  import opened Graphs
  import opened Plans
  import opened JobOrder

  datatype Status = Passed | Failed | Error | Blocked

  datatype Asset = Asset(content: string, format: string)

  datatype Measurement = Measurement(value: real, unit: string)

  datatype JobResult = JobResult(
    status: Status, reason: string, measurements: map<Id, Measurement>, outputs: map<Id, Asset>, evidence: map<Id, Asset>)

  type Assets = map<Ref, Asset>

  /**
   * The caller's tool backends: the bound operations, which backend serves each of them, how many calls a
   * backend accepts at once and what a call returns, `None` when it raises.
   */
  datatype Bench = Bench(
    bound: set<string>, backendOf: string -> nat, capacity: nat -> int, run: (nat, Job, map<Id, Asset>) -> Option<JobResult>)

  predicate ValidResult(job: Job, r: JobResult) {
    && r.status != Blocked
    && (r.status != Passed ==> r.reason != "")
    && (forall name :: name in r.measurements ==> r.measurements[name].unit != "")
    && (if r.status == Passed then
          && r.outputs.Keys == job.outputs.Keys
          && forall name :: name in r.outputs ==> r.outputs[name].format == job.outputs[name] && r.outputs[name].content != ""
        else
          r.measurements == map[] && r.outputs == map[])
    && r.evidence != map[]
    && (forall name :: name in r.outputs ==> r.outputs[name].format != "")
    && (forall name :: name in r.evidence ==> r.evidence[name].format != "")
  }

  function Failure(reason: string): (r: JobResult) {
    JobResult(Error, reason, map[], map[], map[])
  }

  predicate HasInputs(job: Job, assets: Assets) {
    forall i :: 0 <= i < |job.inputs| ==> job.inputs[i].1 in assets
  }

  function InputsOf(inputs: seq<(Id, Ref)>, assets: Assets): (m: map<Id, Asset>)
    requires forall i :: 0 <= i < |inputs| ==> inputs[i].1 in assets
  {
    if inputs == [] then map[] else InputsOf(inputs[..|inputs| - 1], assets)[inputs[|inputs| - 1].0 := assets[inputs[|inputs| - 1].1]]
  }

  /** One backend call; a missing input, a raised exception and a malformed result all become tool errors. */
  function Execute(bench: Bench, job: Job, assets: Assets): (r: JobResult)
    ensures r.status != Blocked
    ensures r.status == Passed ==> r.outputs.Keys == job.outputs.Keys
    ensures r.status != Passed ==> r.outputs == map[] && r.measurements == map[]
  {
    if !HasInputs(job, assets) then Failure("KeyError")
    else
      match bench.run(bench.backendOf(job.operation), job, InputsOf(job.inputs, assets))
      case None => Failure("raised")
      case Some(r) => if ValidResult(job, r) then r else Failure("ValueError")
  }

  /** What has been observed so far: the results by job and all available inputs. */
  datatype World = World(results: map<Id, JobResult>, assets: Assets)

  predicate Satisfied(w: World, needs: set<Id>) {
    forall d :: d in needs ==> d in w.results && w.results[d].status == Passed
  }

  const BLOCKED := JobResult(Blocked, "Prerequisites did not pass", map[], map[], map[])

  function Outcome(bench: Bench, w: World, job: Job): (r: JobResult)
  {
    if Satisfied(w, job.needs) then Execute(bench, job, w.assets)
    else BLOCKED
  }

  /** Makes the outputs of a job available as inputs of later jobs. */
  function Publish(assets: Assets, job: Job, r: JobResult): (a: Assets) {
    assets + (map name | name in r.outputs :: Output(job.id, name) := r.outputs[name])
  }

  /** Archives one result and publishes its outputs. */
  function Record(w: World, job: Job, r: JobResult): (n: World) {
    World(w.results[job.id := r], Publish(w.assets, job, r))
  }

  /** One job at a time, in plan order: the reference for the batching scheduler. */
  function Sequential(bench: Bench, jobs: seq<Job>, external: Assets, k: nat): (w: World)
    requires k <= |jobs|
  {
    if k == 0 then World(map[], external)
    else
      var w := Sequential(bench, jobs, external, k - 1);
      Record(w, jobs[k - 1], Outcome(bench, w, jobs[k - 1]))
  }

  /** A plan as ordering leaves it. */
  ghost predicate OrderedPlan(jobs: seq<Job>) {
    && DistinctIds(jobs)
    && Topological(jobs)
    && forall job :: job in jobs ==> Producers(job) <= job.needs
  }

  predicate ExternalOnly(external: Assets) {
    forall ref :: ref in external ==> !ref.Output?
  }

  lemma {:induction false} SequentialKeys(bench: Bench, jobs: seq<Job>, external: Assets, k: nat)
    requires k <= |jobs|
    ensures Sequential(bench, jobs, external, k).results.Keys == Ids(jobs[..k])
  {
    hide Outcome, Publish;
    if k > 0 {
      SequentialKeys(bench, jobs, external, k - 1);
      IdsAppend(jobs[..k - 1], jobs[k - 1]);
      assert jobs[..k] == jobs[..k - 1] + [jobs[k - 1]];
    }
  }

  /** A result never changes once it is recorded. */
  lemma {:induction false} SequentialStable(bench: Bench, jobs: seq<Job>, external: Assets, i: nat, k: nat)
    requires i < k <= |jobs| && DistinctIds(jobs)
    ensures
      var w, final := Sequential(bench, jobs, external, i), Sequential(bench, jobs, external, k);
      jobs[i].id in final.results && final.results[jobs[i].id] == Outcome(bench, w, jobs[i])
  {
    hide Outcome, Publish;
    if i < k - 1 {
      SequentialStable(bench, jobs, external, i, k - 1);
    }
  }

  lemma PublishElsewhere(assets: Assets, job: Job, r: JobResult, ref: Ref)
    requires ref.Output? ==> ref.job != job.id
    ensures ref in Publish(assets, job, r) <==> ref in assets
    ensures ref in assets ==> Publish(assets, job, r)[ref] == assets[ref]
  {
  }

  lemma PublishOutputs(assets: Assets, job: Job, r: JobResult, name: Id)
    requires name in r.outputs
    ensures Output(job.id, name) in Publish(assets, job, r)
  {
  }

  lemma PublishGrows(assets: Assets, job: Job, r: JobResult, ref: Ref)
    requires ref in assets
    ensures ref in Publish(assets, job, r)
  {
  }

  /** Between two steps, only the outputs of the jobs executed in between appear or change. */
  lemma {:induction false} AssetsStable(bench: Bench, jobs: seq<Job>, external: Assets, i: nat, k: nat, ref: Ref)
    requires i <= k <= |jobs|
    requires ref.Output? ==> forall m :: i <= m < k ==> ref.job != jobs[m].id
    ensures
      var a, b := Sequential(bench, jobs, external, i).assets, Sequential(bench, jobs, external, k).assets;
      (ref in a <==> ref in b) && (ref in a ==> a[ref] == b[ref])
  {
    hide Outcome, Publish;
    if i < k {
      AssetsStable(bench, jobs, external, i, k - 1, ref);
      var w := Sequential(bench, jobs, external, k - 1);
      PublishElsewhere(w.assets, jobs[k - 1], Outcome(bench, w, jobs[k - 1]), ref);
    }
  }

  lemma {:induction false} ResultsStable(bench: Bench, jobs: seq<Job>, external: Assets, i: nat, k: nat, id: Id)
    requires i <= k <= |jobs|
    requires forall m :: i <= m < k ==> id != jobs[m].id
    ensures
      var a, b := Sequential(bench, jobs, external, i).results, Sequential(bench, jobs, external, k).results;
      (id in a <==> id in b) && (id in a ==> a[id] == b[id])
  {
    hide Outcome, Publish;
    if i < k {
      ResultsStable(bench, jobs, external, i, k - 1, id);
    }
  }

  lemma EarlierIdsDiffer(jobs: seq<Job>, i: nat, k: nat, id: Id)
    requires DistinctIds(jobs) && i <= k <= |jobs| && id in Ids(jobs[..i])
    ensures forall m :: i <= m < k ==> id != jobs[m].id
  {
    var n :| 0 <= n < i && jobs[..i][n].id == id;
    assert jobs[n].id == id;
  }

  lemma {:induction false} InputsOfSame(inputs: seq<(Id, Ref)>, a: Assets, b: Assets)
    requires forall i :: 0 <= i < |inputs| ==> inputs[i].1 in a && inputs[i].1 in b && a[inputs[i].1] == b[inputs[i].1]
    ensures InputsOf(inputs, a) == InputsOf(inputs, b)
  {
    if inputs != [] {
      InputsOfSame(inputs[..|inputs| - 1], a, b);
    }
  }

  lemma NeedsProducer(jobs: seq<Job>, m: nat, n: nat)
    requires OrderedPlan(jobs) && m < |jobs| && n < |jobs[m].inputs| && jobs[m].inputs[n].1.Output?
    ensures jobs[m].inputs[n].1.job in jobs[m].needs
  {
    hide Topological, DistinctIds;
    assert jobs[m].inputs[n].1.job in Producers(jobs[m]);
  }

  /**
   * A job whose dependencies had all passed at step `i` gets the same result later as it would get at
   * step `i`: executing it early, together with the job at step `i`, changes nothing.
   */
  lemma EarlyExecution(bench: Bench, jobs: seq<Job>, external: Assets, i: nat, m: nat)
    requires OrderedPlan(jobs) && i <= m < |jobs|
    requires Satisfied(Sequential(bench, jobs, external, i), jobs[m].needs)
    ensures Satisfied(Sequential(bench, jobs, external, m), jobs[m].needs)
    ensures Outcome(bench, Sequential(bench, jobs, external, m), jobs[m])
         == Execute(bench, jobs[m], Sequential(bench, jobs, external, i).assets)
  {
    hide Execute, Publish, Sequential, OrderedPlan;
    var a, b := Sequential(bench, jobs, external, i), Sequential(bench, jobs, external, m);
    var job := jobs[m];
    SequentialKeys(bench, jobs, external, i);
    forall d | d in job.needs ensures d in b.results && b.results[d] == a.results[d] {
      PlanDistinct(jobs);
      EarlierIdsDiffer(jobs, i, m, d);
      ResultsStable(bench, jobs, external, i, m, d);
    }
    forall n | 0 <= n < |job.inputs|
      ensures
        var ref := job.inputs[n].1;
        (ref in a.assets <==> ref in b.assets) && (ref in a.assets ==> a.assets[ref] == b.assets[ref])
    {
      var ref := job.inputs[n].1;
      if ref.Output? {
        NeedsProducer(jobs, m, n);
        PlanDistinct(jobs);
        EarlierIdsDiffer(jobs, i, m, ref.job);
      }
      AssetsStable(bench, jobs, external, i, m, ref);
    }
    ExecuteSame(bench, job, a.assets, b.assets);
  }

  lemma PlanDistinct(jobs: seq<Job>)
    requires OrderedPlan(jobs)
    ensures DistinctIds(jobs)
  {
  }

  lemma ExecuteSame(bench: Bench, job: Job, a: Assets, b: Assets)
    requires forall n :: 0 <= n < |job.inputs| ==>
      var ref := job.inputs[n].1;
      (ref in a <==> ref in b) && (ref in a ==> a[ref] == b[ref])
    ensures Execute(bench, job, a) == Execute(bench, job, b)
  {
    hide ValidResult;
    if HasInputs(job, a) {
      assert HasInputs(job, b);
      InputsOfSame(job.inputs, a, b);
    } else {
      assert !HasInputs(job, b);
    }
  }

  /** The jobs a backend is called for, among the first `k`, in plan order. */
  function Called(bench: Bench, jobs: seq<Job>, external: Assets, k: nat): (called: seq<Job>)
    requires k <= |jobs|
  {
    if k == 0 then []
    else if Satisfied(Sequential(bench, jobs, external, k - 1), jobs[k - 1].needs) then
      Called(bench, jobs, external, k - 1) + [jobs[k - 1]]
    else
      Called(bench, jobs, external, k - 1)
  }

  function Flatten(batches: seq<seq<Job>>): (jobs: seq<Job>) {
    if batches == [] then [] else Flatten(batches[..|batches| - 1]) + batches[|batches| - 1]
  }

  /** A batch stays within one backend and its capacity. */
  predicate BatchFits(bench: Bench, batch: seq<Job>) {
    && batch != []
    && |batch| <= bench.capacity(bench.backendOf(batch[0].operation))
    && forall i :: 0 <= i < |batch| ==> bench.backendOf(batch[i].operation) == bench.backendOf(batch[0].operation)
  }

  lemma {:induction false} CalledBatch(bench: Bench, jobs: seq<Job>, external: Assets, i: nat, k: nat)
    requires i <= k <= |jobs|
    requires forall m :: i <= m < k ==> Satisfied(Sequential(bench, jobs, external, m), jobs[m].needs)
    ensures Called(bench, jobs, external, k) == Called(bench, jobs, external, i) + jobs[i..k]
  {
    hide Satisfied, Sequential;
    if i < k {
      CalledBatch(bench, jobs, external, i, k - 1);
      assert jobs[i..k] == jobs[i..k - 1] + [jobs[k - 1]];
    }
  }

  lemma SequentialStep(bench: Bench, jobs: seq<Job>, external: Assets, k: nat)
    requires k < |jobs|
    ensures
      var w := Sequential(bench, jobs, external, k);
      Sequential(bench, jobs, external, k + 1) == Record(w, jobs[k], Outcome(bench, w, jobs[k]))
  {
  }

  lemma BlockedStep(bench: Bench, jobs: seq<Job>, external: Assets, k: nat)
    requires k < |jobs| && !Satisfied(Sequential(bench, jobs, external, k), jobs[k].needs)
    ensures Sequential(bench, jobs, external, k + 1) == Record(Sequential(bench, jobs, external, k), jobs[k], BLOCKED)
    ensures Called(bench, jobs, external, k + 1) == Called(bench, jobs, external, k)
  {
    hide Execute, Satisfied, Record;
  }

  lemma FlattenAppend(batches: seq<seq<Job>>, batch: seq<Job>)
    ensures Flatten(batches + [batch]) == Flatten(batches) + batch
  {
    assert (batches + [batch])[..|batches|] == batches;
  }

  /** Collects the longest batch that may start at `index`. */
  method CollectBatch(bench: Bench, jobs: seq<Job>, index: nat, w: World) returns (n: nat)
    requires index < |jobs| && Satisfied(w, jobs[index].needs)
    requires bench.capacity(bench.backendOf(jobs[index].operation)) >= 1
    ensures 1 <= n <= |jobs| - index && BatchFits(bench, jobs[index..index + n])
    ensures forall m :: index <= m < index + n ==> Satisfied(w, jobs[m].needs)
    ensures
      var backend := bench.backendOf(jobs[index].operation);
      n == bench.capacity(backend) || index + n == |jobs| || bench.backendOf(jobs[index + n].operation) != backend
      || !Satisfied(w, jobs[index + n].needs)
  {
    var backend := bench.backendOf(jobs[index].operation);
    n := 1;
    while n < bench.capacity(backend) && index + n < |jobs|
      invariant 1 <= n <= |jobs| - index && n <= bench.capacity(backend)
      invariant forall m :: index <= m < index + n ==>
        Satisfied(w, jobs[m].needs) && bench.backendOf(jobs[m].operation) == backend
    {
      if bench.backendOf(jobs[index + n].operation) != backend || !Satisfied(w, jobs[index + n].needs) {
        break;
      }
      n := n + 1;
    }
  }

  /** Executes a batch on the inputs known at its start, then archives the results in plan order. */
  method RunBatch(bench: Bench, jobs: seq<Job>, external: Assets, index: nat, n: nat, start: World) returns (w: World)
    requires OrderedPlan(jobs) && index + n <= |jobs|
    requires start == Sequential(bench, jobs, external, index)
    requires forall m :: index <= m < index + n ==> Satisfied(start, jobs[m].needs)
    ensures w == Sequential(bench, jobs, external, index + n)
    ensures forall m :: index <= m < index + n ==> Satisfied(Sequential(bench, jobs, external, m), jobs[m].needs)
  {
    hide Execute, Outcome, Record, Sequential, Satisfied, OrderedPlan;
    var completed: seq<JobResult> := [];
    for k := 0 to n
      invariant |completed| == k
      invariant forall m :: 0 <= m < k ==> completed[m] == Execute(bench, jobs[index + m], start.assets)
    {
      completed := completed + [Execute(bench, jobs[index + k], start.assets)];
    }
    w := start;
    for k := 0 to n
      invariant w == Sequential(bench, jobs, external, index + k)
      invariant forall m :: index <= m < index + k ==> Satisfied(Sequential(bench, jobs, external, m), jobs[m].needs)
    {
      EarlyExecution(bench, jobs, external, index, index + k);
      SequentialStep(bench, jobs, external, index + k);
      w := Record(w, jobs[index + k], completed[k]);
    }
  }

  predicate CapacitiesValid(bench: Bench) {
    forall op :: op in bench.bound ==> bench.capacity(bench.backendOf(op)) >= 1
  }

  /**
   * The batching scheduler. Whatever the capacities, it observes exactly what executing one job at a time
   * observes, calls a backend once for every unblocked job and never for a blocked one, in plan order.
   */
  method ExecuteJobs(bench: Bench, jobs: seq<Job>, external: Assets)
    returns (r: Result<World, string>, batches: seq<seq<Job>>)
    requires OrderedPlan(jobs)
    requires forall job :: job in jobs ==> job.operation in bench.bound
    ensures r.Ok? <==> CapacitiesValid(bench)
    ensures r.Ok? ==> r.value == Sequential(bench, jobs, external, |jobs|)
    ensures r.Ok? ==> Flatten(batches) == Called(bench, jobs, external, |jobs|)
    ensures forall b :: b in batches ==> BatchFits(bench, b)
    ensures r.Ok? ==> Flatten(batches) == Unblocked(jobs, r.value.results)
    ensures r.Ok? && ExternalOnly(external) ==>
      RunExplained(bench, jobs, external, r.value.results) && AssetsExplained(external, r.value.results, r.value.assets)
  {
    hide Execute, Record, Satisfied, OrderedPlan, BatchFits, Called, Flatten, RunExplained, AssetsExplained, Unblocked, ExternalOnly;
    batches := [];
    if !CapacitiesValid(bench) {
      return Err("Backend concurrency must be a positive integer"), batches;
    }
    var index, w := 0, World(map[], external);
    CalledNone(bench, jobs, external);
    while index < |jobs|
      invariant 0 <= index <= |jobs|
      invariant w == Sequential(bench, jobs, external, index)
      invariant Flatten(batches) == Called(bench, jobs, external, index)
      invariant forall b :: b in batches ==> BatchFits(bench, b)
    {
      hide Sequential;
      var job := jobs[index];
      if !Satisfied(w, job.needs) {
        BlockedStep(bench, jobs, external, index);
        w := Record(w, job, BLOCKED);
        index := index + 1;
      } else {
        assert job in jobs;
        var n := CollectBatch(bench, jobs, index, w);
        w := RunBatch(bench, jobs, external, index, n, w);
        CalledBatch(bench, jobs, external, index, index + n);
        FlattenAppend(batches, jobs[index..index + n]);
        batches := batches + [jobs[index..index + n]];
        index := index + n;
      }
    }
    UnblockedCalled(bench, jobs, external, |jobs|);
    assert jobs[..|jobs|] == jobs;
    if ExternalOnly(external) {
      RunIsExplained(bench, jobs, external);
      AssetsMeant(bench, jobs, external, |jobs|);
    }
    return Ok(w), batches;
  }

  lemma CalledNone(bench: Bench, jobs: seq<Job>, external: Assets)
    ensures Called(bench, jobs, external, 0) == [] == Flatten([])
  {
  }

  /** The results of a whole run. */
  function Final(bench: Bench, jobs: seq<Job>, external: Assets): (results: map<Id, JobResult>) {
    Sequential(bench, jobs, external, |jobs|).results
  }

  lemma FinalResult(bench: Bench, jobs: seq<Job>, external: Assets, i: nat)
    requires OrderedPlan(jobs) && i < |jobs|
    ensures
      var w := Sequential(bench, jobs, external, i);
      && jobs[i].id in Final(bench, jobs, external)
      && Final(bench, jobs, external)[jobs[i].id] == Outcome(bench, w, jobs[i])
      && (Satisfied(w, jobs[i].needs) <==> AllPassed(Final(bench, jobs, external), jobs[i].needs))
  {
    hide Outcome, Sequential, OrderedPlan, Ids;
    PlanDistinct(jobs);
    SequentialStable(bench, jobs, external, i, |jobs|);
    SequentialKeys(bench, jobs, external, i);
    NeedsEarlier(jobs, i);
    forall d | d in jobs[i].needs
      ensures d in Sequential(bench, jobs, external, i).results && d in Final(bench, jobs, external)
      ensures Sequential(bench, jobs, external, i).results[d] == Final(bench, jobs, external)[d]
    {
      EarlierIdsDiffer(jobs, i, |jobs|, d);
      ResultsStable(bench, jobs, external, i, |jobs|, d);
    }
  }

  predicate AllPassed(results: map<Id, JobResult>, ids: set<Id>) {
    forall d :: d in ids ==> d in results && results[d].status == Passed
  }

  lemma NeedsEarlier(jobs: seq<Job>, i: nat)
    requires OrderedPlan(jobs) && i < |jobs|
    ensures jobs[i].needs <= Ids(jobs[..i])
  {
  }

  /** A job is blocked exactly when one of its direct dependencies did not pass. */
  lemma BlockedByDependency(bench: Bench, jobs: seq<Job>, external: Assets, i: nat)
    requires OrderedPlan(jobs) && i < |jobs|
    ensures jobs[i].id in Final(bench, jobs, external)
    ensures Final(bench, jobs, external)[jobs[i].id].status == Blocked
       <==> !AllPassed(Final(bench, jobs, external), jobs[i].needs)
  {
    hide Execute, Final, OrderedPlan, Satisfied, AllPassed;
    FinalResult(bench, jobs, external, i);
  }

  /** In an ordered plan the dependency edges are the listed needs. */
  lemma NeedEdge(jobs: seq<Job>, i: nat, d: Id)
    requires OrderedPlan(jobs) && i < |jobs|
    ensures (jobs[i].id, d) in Edges(jobs) <==> d in jobs[i].needs
  {
    hide Topological;
    EdgesOf(jobs, jobs[i], d);
  }

  lemma IndexBefore(jobs: seq<Job>, i: nat, d: Id) returns (k: nat)
    requires OrderedPlan(jobs) && i < |jobs| && d in jobs[i].needs
    ensures k < i && jobs[k].id == d
  {
    NeedsEarlier(jobs, i);
    k :| 0 <= k < i && jobs[..i][k].id == d;
  }

  predicate Broken(r: JobResult) {
    r.status == Failed || r.status == Error
  }

  /** A job is blocked exactly when some job it depends on, however indirectly, failed or errored. */
  lemma {:induction false} BlockedExactly(bench: Bench, jobs: seq<Job>, external: Assets, i: nat)
    requires OrderedPlan(jobs) && i < |jobs|
    ensures jobs[i].id in Final(bench, jobs, external)
    ensures Final(bench, jobs, external)[jobs[i].id].status == Blocked
       <==> exists a :: Follows(Edges(jobs), jobs[i].id, a)
                     && a in Final(bench, jobs, external) && Broken(Final(bench, jobs, external)[a])
  {
    hide Final, OrderedPlan, Edges, Follows, Reaches;
    var results, e, id := Final(bench, jobs, external), Edges(jobs), jobs[i].id;
    BlockedByDependency(bench, jobs, external, i);
    if !AllPassed(results, jobs[i].needs) {
      var d :| d in jobs[i].needs && !(d in results && results[d].status == Passed);
      NeedEdge(jobs, i, d);
      var k := IndexBefore(jobs, i, d);
      BlockedExactly(bench, jobs, external, k);
      if Broken(results[d]) {
        EdgeFollows(e, id, d);
      } else {
        var a :| Follows(e, d, a) && a in results && Broken(results[a]);
        EdgeThenFollows(e, id, d, a);
      }
    }
    if a :| Follows(e, id, a) && a in results && Broken(results[a]) {
      var d := FirstStep(e, id, a);
      NeedEdge(jobs, i, d);
      var k := IndexBefore(jobs, i, d);
      BlockedExactly(bench, jobs, external, k);
    }
  }

  lemma EdgeFollows(e: set<(Id, Id)>, x: Id, y: Id)
    requires (x, y) in e
    ensures Follows(e, x, y)
  {
    ReachesSelf(e, y);
  }

  lemma EdgeThenFollows(e: set<(Id, Id)>, x: Id, y: Id, z: Id)
    requires (x, y) in e && Follows(e, y, z)
    ensures Follows(e, x, z)
  {
    ReachesUnfold(e, y, z);
  }

  lemma FirstStep(e: set<(Id, Id)>, x: Id, z: Id) returns (y: Id)
    requires Follows(e, x, z)
    ensures (x, y) in e && (y == z || Follows(e, y, z))
  {
    y :| (x, y) in e && Reaches(e, y, z);
    ReachesUnfold(e, y, z);
  }

  /** What a passed job depends on has passed. */
  lemma PassedAncestors(bench: Bench, jobs: seq<Job>, external: Assets, i: nat, a: Id)
    requires OrderedPlan(jobs) && i < |jobs|
    requires jobs[i].id in Final(bench, jobs, external)
    requires Final(bench, jobs, external)[jobs[i].id].status != Blocked
    requires Follows(Edges(jobs), jobs[i].id, a)
    ensures a in Final(bench, jobs, external) && Final(bench, jobs, external)[a].status == Passed
    decreases i
  {
    hide Final, OrderedPlan, Edges, Follows;
    var results, e, id := Final(bench, jobs, external), Edges(jobs), jobs[i].id;
    BlockedByDependency(bench, jobs, external, i);
    var d := FirstStep(e, id, a);
    NeedEdge(jobs, i, d);
    var k := IndexBefore(jobs, i, d);
    assert results[d].status == Passed;
    if d != a {
      PassedAncestors(bench, jobs, external, k, a);
    }
  }

  /** Every input reference of the plan is an external input at hand or a declared output of a plan job. */
  predicate InputsDeclared(jobs: seq<Job>, external: Assets) {
    forall m, n :: 0 <= m < |jobs| && 0 <= n < |jobs[m].inputs| ==>
      var ref := jobs[m].inputs[n].1;
      if ref.Output? then forall q :: 0 <= q < |jobs| && jobs[q].id == ref.job ==> ref.name in jobs[q].outputs
      else ref in external
  }

  /** A published output stays available. */
  lemma {:induction false} AssetsGrow(bench: Bench, jobs: seq<Job>, external: Assets, i: nat, k: nat, ref: Ref)
    requires i <= k <= |jobs| && ref in Sequential(bench, jobs, external, i).assets
    ensures ref in Sequential(bench, jobs, external, k).assets
  {
    hide Outcome, Publish;
    if i < k {
      AssetsGrow(bench, jobs, external, i, k - 1, ref);
      var w := Sequential(bench, jobs, external, k - 1);
      PublishGrows(w.assets, jobs[k - 1], Outcome(bench, w, jobs[k - 1]), ref);
    }
  }

  /** No executed job ever misses a declared input. */
  lemma InputsAlwaysFound(bench: Bench, jobs: seq<Job>, external: Assets, m: nat)
    requires OrderedPlan(jobs) && InputsDeclared(jobs, external) && m < |jobs|
    requires Satisfied(Sequential(bench, jobs, external, m), jobs[m].needs)
    ensures HasInputs(jobs[m], Sequential(bench, jobs, external, m).assets)
  {
    hide OrderedPlan, Execute, Publish;
    forall n | 0 <= n < |jobs[m].inputs|
      ensures jobs[m].inputs[n].1 in Sequential(bench, jobs, external, m).assets
    {
      var ref := jobs[m].inputs[n].1;
      if ref.Output? {
        NeedsProducer(jobs, m, n);
        var q := IndexBefore(jobs, m, ref.job);
        OutputPublished(bench, jobs, external, q, m, ref.name);
      } else {
        AssetsGrow(bench, jobs, external, 0, m, ref);
      }
    }
  }

  lemma OutputPublished(bench: Bench, jobs: seq<Job>, external: Assets, q: nat, m: nat, name: Id)
    requires OrderedPlan(jobs) && q < m < |jobs| && name in jobs[q].outputs
    requires
      var w := Sequential(bench, jobs, external, m);
      jobs[q].id in w.results && w.results[jobs[q].id].status == Passed
    ensures Output(jobs[q].id, name) in Sequential(bench, jobs, external, m).assets
  {
    hide OrderedPlan, Execute, Publish, Sequential, Satisfied;
    PlanDistinct(jobs);
    var w := Sequential(bench, jobs, external, q);
    SequentialStable(bench, jobs, external, q, m);
    SequentialStep(bench, jobs, external, q);
    PublishOutputs(w.assets, jobs[q], Outcome(bench, w, jobs[q]), name);
    AssetsGrow(bench, jobs, external, q + 1, m, Output(jobs[q].id, name));
  }

  // ---- What a run means ----------------------------------------------------------------------

  /** The asset behind a reference: the external one, or the output that its job has in the end. */
  function Supplied(ref: Ref, external: Assets, results: map<Id, JobResult>): (a: Option<Asset>) {
    if ref.Output? then
      (if ref.job in results && ref.name in results[ref.job].outputs then Some(results[ref.job].outputs[ref.name]) else None)
    else if ref in external then Some(external[ref])
    else None
  }

  function RolesOf(inputs: seq<(Id, Ref)>): (roles: set<Id>) {
    set i | 0 <= i < |inputs| :: inputs[i].0
  }

  predicate LastOfRole(inputs: seq<(Id, Ref)>, i: nat) {
    i < |inputs| && forall j :: i < j < |inputs| ==> inputs[j].0 != inputs[i].0
  }

  /** `m` gives every role of the job, and no other, the asset behind the role's reference. */
  predicate SuppliedTo(job: Job, external: Assets, results: map<Id, JobResult>, m: map<Id, Asset>) {
    && m.Keys == RolesOf(job.inputs)
    && forall i :: 0 <= i < |job.inputs| && LastOfRole(job.inputs, i) ==>
         Supplied(job.inputs[i].1, external, results) == Some(m[job.inputs[i].0])
  }

  predicate AllSupplied(job: Job, external: Assets, results: map<Id, JobResult>) {
    forall i :: 0 <= i < |job.inputs| ==> Supplied(job.inputs[i].1, external, results).Some?
  }

  /** What a call returned is the result if it is valid, and otherwise the result is an error without outputs. */
  predicate CallGives(job: Job, returned: Option<JobResult>, r: JobResult) {
    if returned.Some? && ValidResult(job, returned.value) then r == returned.value
    else r == JobResult(Error, if returned.None? then "raised" else "ValueError", map[], map[], map[])
  }

  /** The result is that of one call of the job's backend on exactly the supplied inputs. */
  ghost predicate ResultOfCall(bench: Bench, job: Job, external: Assets, results: map<Id, JobResult>, r: JobResult) {
    exists m :: SuppliedTo(job, external, results, m) && CallGives(job, bench.run(bench.backendOf(job.operation), job, m), r)
  }

  /** A job with an unmet need is blocked, one with a missing input is an error, and any other is called once. */
  ghost predicate ResultExplained(bench: Bench, job: Job, external: Assets, results: map<Id, JobResult>, r: JobResult) {
    if !AllPassed(results, job.needs) then r == BLOCKED
    else if !AllSupplied(job, external, results) then r == Failure("KeyError")
    else ResultOfCall(bench, job, external, results, r)
  }

  /** The results of a run, each explained by the others. */
  ghost predicate RunExplained(bench: Bench, jobs: seq<Job>, external: Assets, results: map<Id, JobResult>) {
    && results.Keys == Ids(jobs)
    && forall k :: 0 <= k < |jobs| ==>
         jobs[k].id in results && ResultExplained(bench, jobs[k], external, results, results[jobs[k].id])
  }

  /** The available inputs are the external ones and the outputs of the results. */
  ghost predicate AssetsExplained(external: Assets, results: map<Id, JobResult>, assets: Assets) {
    forall ref :: Supplied(ref, external, results) == if ref in assets then Some(assets[ref]) else None
  }

  /** The jobs that were not blocked, in plan order. */
  function Unblocked(jobs: seq<Job>, results: map<Id, JobResult>): (called: seq<Job>) {
    if jobs == [] then []
    else
      var last := jobs[|jobs| - 1];
      Unblocked(jobs[..|jobs| - 1], results)
      + (if last.id in results && results[last.id].status != Blocked then [last] else [])
  }

  lemma {:induction false} UnblockedCalled(bench: Bench, jobs: seq<Job>, external: Assets, k: nat)
    requires OrderedPlan(jobs) && k <= |jobs|
    ensures Called(bench, jobs, external, k) == Unblocked(jobs[..k], Final(bench, jobs, external))
  {
    hide Execute, Final, OrderedPlan, Satisfied, AllPassed, Sequential;
    if k > 0 {
      UnblockedCalled(bench, jobs, external, k - 1);
      assert jobs[..k][..k - 1] == jobs[..k - 1] && jobs[..k][k - 1] == jobs[k - 1];
      FinalResult(bench, jobs, external, k - 1);
      BlockedByDependency(bench, jobs, external, k - 1);
    }
  }

  /** At every point of a run the available inputs are the external ones and the outputs so far. */
  lemma {:induction false} AssetsMeant(bench: Bench, jobs: seq<Job>, external: Assets, k: nat)
    requires OrderedPlan(jobs) && ExternalOnly(external) && k <= |jobs|
    ensures
      var w := Sequential(bench, jobs, external, k);
      AssetsExplained(external, w.results, w.assets)
  {
    hide OrderedPlan, Outcome, Publish;
    if k > 0 {
      AssetsMeant(bench, jobs, external, k - 1);
      SequentialKeys(bench, jobs, external, k - 1);
      PlanDistinct(jobs);
      NotYet(jobs, k - 1);
      var w := Sequential(bench, jobs, external, k - 1);
      hide Sequential, Record, AssetsExplained;
      SequentialStep(bench, jobs, external, k - 1);
      RecordMeant(external, w, jobs[k - 1], Outcome(bench, w, jobs[k - 1]));
    }
  }

  lemma NotYet(jobs: seq<Job>, k: nat)
    requires DistinctIds(jobs) && k < |jobs|
    ensures jobs[k].id !in Ids(jobs[..k])
  {
  }

  lemma RecordMeant(external: Assets, w: World, job: Job, r: JobResult)
    requires AssetsExplained(external, w.results, w.assets) && job.id !in w.results
    ensures AssetsExplained(external, Record(w, job, r).results, Record(w, job, r).assets)
  {
    var n := Record(w, job, r);
    forall ref ensures Supplied(ref, external, n.results) == if ref in n.assets then Some(n.assets[ref]) else None {
      assert Supplied(ref, external, w.results) == if ref in w.assets then Some(w.assets[ref]) else None;
      if !(ref.Output? && ref.job == job.id) {
        PublishElsewhere(w.assets, job, r, ref);
      }
    }
  }

  lemma RolesSnoc(inputs: seq<(Id, Ref)>, n: nat)
    requires |inputs| == n + 1
    ensures RolesOf(inputs) == RolesOf(inputs[..n]) + {inputs[n].0}
    ensures forall i :: 0 <= i < n && LastOfRole(inputs, i) ==> LastOfRole(inputs[..n], i) && inputs[i].0 != inputs[n].0
  {
    forall role ensures role in RolesOf(inputs) <==> role in RolesOf(inputs[..n]) || role == inputs[n].0 {
      if role in RolesOf(inputs[..n]) {
        var i :| 0 <= i < n && inputs[..n][i].0 == role;
        assert inputs[i].0 == role;
      }
      if role in RolesOf(inputs) && role != inputs[n].0 {
        var i :| 0 <= i < |inputs| && inputs[i].0 == role;
        assert inputs[..n][i].0 == role;
      }
    }
  }

  lemma {:induction false} InputsByRole(inputs: seq<(Id, Ref)>, assets: Assets)
    requires forall i :: 0 <= i < |inputs| ==> inputs[i].1 in assets
    ensures InputsOf(inputs, assets).Keys == RolesOf(inputs)
    ensures forall i :: 0 <= i < |inputs| && LastOfRole(inputs, i) ==>
      inputs[i].0 in InputsOf(inputs, assets) && InputsOf(inputs, assets)[inputs[i].0] == assets[inputs[i].1]
  {
    hide RolesOf, LastOfRole;
    if inputs == [] {
      NoRoles();
    } else {
      var n := |inputs| - 1;
      var front := inputs[..n];
      InputsByRole(front, assets);
      RolesSnoc(inputs, n);
      forall i | 0 <= i < |inputs| && LastOfRole(inputs, i)
        ensures inputs[i].0 in InputsOf(inputs, assets) && InputsOf(inputs, assets)[inputs[i].0] == assets[inputs[i].1]
      {
        if i < n {
          assert front[i] == inputs[i];
        }
      }
    }
  }

  lemma NoRoles()
    ensures RolesOf([]) == {}
  {
  }

  /** What a producer has in the end is what it had when its consumer was executed. */
  lemma SuppliedEarly(bench: Bench, jobs: seq<Job>, external: Assets, m: nat, n: nat)
    requires OrderedPlan(jobs) && ExternalOnly(external) && m < |jobs| && n < |jobs[m].inputs|
    ensures
      var assets, ref := Sequential(bench, jobs, external, m).assets, jobs[m].inputs[n].1;
      Supplied(ref, external, Final(bench, jobs, external)) == if ref in assets then Some(assets[ref]) else None
  {
    hide OrderedPlan, Sequential;
    var w, ref := Sequential(bench, jobs, external, m), jobs[m].inputs[n].1;
    AssetsMeant(bench, jobs, external, m);
    assert Supplied(ref, external, w.results) == if ref in w.assets then Some(w.assets[ref]) else None;
    if ref.Output? {
      NeedsProducer(jobs, m, n);
      NeedsEarlier(jobs, m);
      PlanDistinct(jobs);
      EarlierIdsDiffer(jobs, m, |jobs|, ref.job);
      ResultsStable(bench, jobs, external, m, |jobs|, ref.job);
    }
  }

  lemma ExecutedOn(bench: Bench, job: Job, external: Assets, results: map<Id, JobResult>, assets: Assets)
    requires forall n :: 0 <= n < |job.inputs| ==>
      var ref := job.inputs[n].1;
      Supplied(ref, external, results) == if ref in assets then Some(assets[ref]) else None
    requires AllPassed(results, job.needs)
    ensures ResultExplained(bench, job, external, results, Execute(bench, job, assets))
  {
    hide ValidResult, Supplied, AllPassed;
    if HasInputs(job, assets) {
      InputsByRole(job.inputs, assets);
      assert SuppliedTo(job, external, results, InputsOf(job.inputs, assets));
    } else {
      assert !AllSupplied(job, external, results);
    }
  }

  /**
   * In every run each result is explained by the final results alone: a job with an unmet need is blocked, and any other
   * is called on a map that gives each of its roles the external asset or the final output that its reference names.
   */
  lemma RunIsExplained(bench: Bench, jobs: seq<Job>, external: Assets)
    requires OrderedPlan(jobs) && ExternalOnly(external)
    ensures RunExplained(bench, jobs, external, Final(bench, jobs, external))
  {
    hide OrderedPlan, Sequential, Execute, Satisfied, AllPassed, ResultExplained, Supplied;
    var results := Final(bench, jobs, external);
    SequentialKeys(bench, jobs, external, |jobs|);
    assert jobs[..|jobs|] == jobs;
    forall k | 0 <= k < |jobs|
      ensures jobs[k].id in results && ResultExplained(bench, jobs[k], external, results, results[jobs[k].id])
    {
      FinalResult(bench, jobs, external, k);
      if AllPassed(results, jobs[k].needs) {
        forall n | 0 <= n < |jobs[k].inputs|
          ensures
            var assets, ref := Sequential(bench, jobs, external, k).assets, jobs[k].inputs[n].1;
            Supplied(ref, external, results) == if ref in assets then Some(assets[ref]) else None
        {
          SuppliedEarly(bench, jobs, external, k, n);
        }
        ExecutedOn(bench, jobs[k], external, results, Sequential(bench, jobs, external, k).assets);
      } else {
        UnmetIsBlocked(bench, jobs[k], external, results);
      }
    }
  }

  lemma UnmetIsBlocked(bench: Bench, job: Job, external: Assets, results: map<Id, JobResult>)
    requires !AllPassed(results, job.needs)
    ensures ResultExplained(bench, job, external, results, BLOCKED)
  {
  }

  /** Only one map of inputs is supplied to a job. */
  lemma SuppliedOnce(job: Job, external: Assets, results: map<Id, JobResult>, m: map<Id, Asset>, n: map<Id, Asset>)
    requires SuppliedTo(job, external, results, m) && SuppliedTo(job, external, results, n)
    ensures m == n
  {
    hide Supplied;
    forall role | role in m ensures m[role] == n[role] {
      var i := LastIndex(job.inputs, role);
      assert LastOfRole(job.inputs, i);
    }
  }

  lemma {:induction false} LastIndex(inputs: seq<(Id, Ref)>, role: Id) returns (i: nat)
    requires role in RolesOf(inputs)
    ensures LastOfRole(inputs, i) && inputs[i].0 == role
  {
    var n := |inputs| - 1;
    if inputs[n].0 == role {
      i := n;
    } else {
      var k :| 0 <= k < |inputs| && inputs[k].0 == role;
      assert inputs[..n][k].0 == role;
      i := LastIndex(inputs[..n], role);
      assert forall j :: i < j < n ==> inputs[..n][j] == inputs[j];
    }
  }

  lemma CalledSame(bench: Bench, job: Job, external: Assets, results: map<Id, JobResult>, r: JobResult, s: JobResult)
    requires ResultOfCall(bench, job, external, results, r) && ResultOfCall(bench, job, external, results, s)
    ensures r == s
  {
    hide ValidResult, SuppliedTo;
    var m :| SuppliedTo(job, external, results, m) && CallGives(job, bench.run(bench.backendOf(job.operation), job, m), r);
    var n :| SuppliedTo(job, external, results, n) && CallGives(job, bench.run(bench.backendOf(job.operation), job, n), s);
    SuppliedOnce(job, external, results, m, n);
  }

  lemma SuppliedSame(job: Job, external: Assets, a: map<Id, JobResult>, b: map<Id, JobResult>, m: map<Id, Asset>)
    requires forall d :: d in Producers(job) ==> d in a && d in b && a[d] == b[d]
    ensures AllSupplied(job, external, a) == AllSupplied(job, external, b)
    ensures SuppliedTo(job, external, a, m) == SuppliedTo(job, external, b, m)
  {
    hide RolesOf, LastOfRole;
    forall i | 0 <= i < |job.inputs|
      ensures Supplied(job.inputs[i].1, external, a) == Supplied(job.inputs[i].1, external, b)
    {
      if job.inputs[i].1.Output? {
        assert job.inputs[i].1.job in Producers(job);
      }
    }
  }

  lemma ExplainedSame(
    bench: Bench, job: Job, external: Assets, a: map<Id, JobResult>, b: map<Id, JobResult>, r: JobResult, s: JobResult)
    requires ResultExplained(bench, job, external, a, r) && ResultExplained(bench, job, external, b, s)
    requires forall d :: d in job.needs ==> d in a && d in b && a[d] == b[d]
    requires Producers(job) <= job.needs
    ensures r == s
  {
    hide CallGives, SuppliedTo, AllSupplied;
    assert AllPassed(a, job.needs) == AllPassed(b, job.needs);
    forall m
      ensures AllSupplied(job, external, a) == AllSupplied(job, external, b)
      ensures SuppliedTo(job, external, a, m) == SuppliedTo(job, external, b, m)
    {
      SuppliedSame(job, external, a, b, m);
    }
    SuppliedSame(job, external, a, b, map[]);
    if AllPassed(a, job.needs) && AllSupplied(job, external, a) {
      assert ResultOfCall(bench, job, external, a, s);
      CalledSame(bench, job, external, a, r, s);
    }
  }

  /** A plan has only one explained run. */
  lemma ExplainedOnce(bench: Bench, jobs: seq<Job>, external: Assets, a: map<Id, JobResult>, b: map<Id, JobResult>)
    requires OrderedPlan(jobs) && RunExplained(bench, jobs, external, a) && RunExplained(bench, jobs, external, b)
    ensures a == b
  {
    hide OrderedPlan, ResultExplained;
    ExplainedUpTo(bench, jobs, external, a, b, |jobs|);
    forall id | id in a ensures a[id] == b[id] {
      var k :| 0 <= k < |jobs| && jobs[k].id == id;
    }
  }

  /** The order of a plan is immaterial: the same jobs in any order that respects their needs have the same results. */
  lemma OrderImmaterial(bench: Bench, jobs: seq<Job>, others: seq<Job>, external: Assets)
    requires OrderedPlan(jobs) && OrderedPlan(others) && ExternalOnly(external)
    requires forall job :: job in jobs <==> job in others
    ensures Final(bench, jobs, external) == Final(bench, others, external)
  {
    hide OrderedPlan, Final, ResultExplained;
    RunIsExplained(bench, jobs, external);
    RunIsExplained(bench, others, external);
    var results := Final(bench, others, external);
    forall k | 0 <= k < |jobs|
      ensures jobs[k].id in results && ResultExplained(bench, jobs[k], external, results, results[jobs[k].id])
    {
      assert jobs[k] in others;
      var i :| 0 <= i < |others| && others[i] == jobs[k];
    }
    SameIds(jobs, others);
    ExplainedOnce(bench, jobs, external, Final(bench, jobs, external), results);
  }

  lemma SameIds(jobs: seq<Job>, others: seq<Job>)
    requires forall job :: job in jobs <==> job in others
    ensures Ids(jobs) == Ids(others)
  {
    forall id ensures id in Ids(jobs) <==> id in Ids(others) {
      InIds(jobs, id);
      InIds(others, id);
    }
  }

  lemma {:induction false} ExplainedUpTo(
    bench: Bench, jobs: seq<Job>, external: Assets, a: map<Id, JobResult>, b: map<Id, JobResult>, k: nat)
    requires OrderedPlan(jobs) && RunExplained(bench, jobs, external, a) && RunExplained(bench, jobs, external, b) && k <= |jobs|
    ensures forall i :: 0 <= i < k ==> jobs[i].id in a && jobs[i].id in b && a[jobs[i].id] == b[jobs[i].id]
  {
    hide OrderedPlan, ResultExplained;
    if k > 0 {
      ExplainedUpTo(bench, jobs, external, a, b, k - 1);
      var job := jobs[k - 1];
      forall d | d in job.needs ensures d in a && d in b && a[d] == b[d] {
        var i := IndexBefore(jobs, k - 1, d);
      }
      ProducersNeeded(jobs, k - 1);
      ExplainedSame(bench, job, external, a, b, a[job.id], b[job.id]);
    }
  }

  lemma ProducersNeeded(jobs: seq<Job>, k: nat)
    requires OrderedPlan(jobs) && k < |jobs|
    ensures Producers(jobs[k]) <= jobs[k].needs
  {
    assert jobs[k] in jobs;
  }
}
