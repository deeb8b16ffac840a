/** Evaluation declarations: jobs, references and their dependency graph. */
module Plans {
  import opened Prelude
  import opened Graphs

  type Id = string

  /** A parsed input reference; `Other` is any text the declaration language does not know. */
  datatype Ref =
    | Candidate
    | Task
    | Input(role: Id)
    | Output(job: Id, name: Id)
    | Other(text: string)

  datatype Stage = Check | Extract | Simulate | Measure

  datatype Gate = Artifact | Drc | Lvs | Constraint

  /** `needs` is the set of explicitly required jobs; after ordering, of all direct dependencies. */
  datatype Job = Job(
    id: Id, stage: Stage, operation: string, inputs: seq<(Id, Ref)>, outputs: map<Id, string>,
    needs: set<Id>, gate: Option<Gate>, parameters: string)

  datatype PlanError = BadIdentifier | UnknownReference | UnknownOutput | UnknownDependency | DependencyCycle

  predicate Letter(c: char) {
    'A' <= c <= 'Z' || 'a' <= c <= 'z'
  }

  predicate IsIdentifier(s: string) {
    && |s| > 0
    && Letter(s[0])
    && forall c :: c in s ==> Letter(c) || '0' <= c <= '9' || c == '_' || c == '-'
  }

  function Ids(jobs: seq<Job>): (ids: set<Id>) {
    set i | 0 <= i < |jobs| :: jobs[i].id
  }

  /** Declared jobs have distinct names, as the keys of one table. */
  predicate DistinctIds(jobs: seq<Job>) {
    forall i, j :: 0 <= i < j < |jobs| ==> jobs[i].id != jobs[j].id
  }

  function Find(jobs: seq<Job>, id: Id): (job: Job)
    requires id in Ids(jobs)
    ensures job in jobs && job.id == id
  {
    if jobs[0].id == id then jobs[0] else
      assert jobs == [jobs[0]] + jobs[1..];
      Find(jobs[1..], id)
  }

  lemma FindUnique(jobs: seq<Job>, job: Job)
    requires DistinctIds(jobs) && job in jobs
    ensures job.id in Ids(jobs) && Find(jobs, job.id) == job
  {
    var i :| 0 <= i < |jobs| && jobs[i] == job;
    assert jobs[i].id in Ids(jobs);
  }

  /** The jobs whose outputs a job consumes. */
  function Producers(job: Job): (ids: set<Id>) {
    set i | 0 <= i < |job.inputs| && job.inputs[i].1.Output? :: job.inputs[i].1.job
  }

  function Dependencies(job: Job): (ids: set<Id>) {
    job.needs + Producers(job)
  }

  predicate KnownRef(jobs: seq<Job>, ref: Ref) {
    match ref
    case Candidate => true
    case Task => true
    case Input(role) => IsIdentifier(role)
    case Output(job, name) => job in Ids(jobs) && name in Find(jobs, job).outputs
    case Other(_) => false
  }

  /** Every reference resolves and every required job is declared. */
  predicate WellFormed(jobs: seq<Job>) {
    forall job :: job in jobs ==> Resolves(jobs, job)
  }

  predicate Resolves(jobs: seq<Job>, job: Job) {
    && (forall i :: 0 <= i < |job.inputs| ==> KnownRef(jobs, job.inputs[i].1))
    && job.needs <= Ids(jobs)
  }

  /** All dependencies: `(a, b)` when job `a` must wait for job `b`. */
  function Edges(jobs: seq<Job>): (e: set<(Id, Id)>) {
    set i, d | 0 <= i < |jobs| && d in Dependencies(jobs[i]) :: (jobs[i].id, d)
  }

  /** Data dependencies only. */
  function DataEdges(jobs: seq<Job>): (e: set<(Id, Id)>) {
    set i, d | 0 <= i < |jobs| && d in Producers(jobs[i]) :: (jobs[i].id, d)
  }

  lemma EdgesOf(jobs: seq<Job>, job: Job, d: Id)
    requires DistinctIds(jobs) && job in jobs
    ensures (job.id, d) in Edges(jobs) <==> d in Dependencies(job)
    ensures (job.id, d) in DataEdges(jobs) <==> d in Producers(job)
  {
    var i :| 0 <= i < |jobs| && jobs[i] == job;
  }

  lemma EdgeEnds(jobs: seq<Job>, a: Id, b: Id)
    requires WellFormed(jobs)
    requires (a, b) in Edges(jobs)
    ensures a in Ids(jobs) && b in Ids(jobs)
  {
    var i, d :| 0 <= i < |jobs| && d in Dependencies(jobs[i]) && (a, b) == (jobs[i].id, d);
    assert Resolves(jobs, jobs[i]);
  }
}
