/** The frozen pre-layout graph: its validation and its correspondence with the candidate jobs. */
module SourceGraph {
  import opened Prelude
  import opened Graphs
  import opened Plans

  type Digest = string

  /** A frozen pre-layout observation; digests are the recorded identities of its inputs and outputs. */
  datatype Source = Source(
    operation: string, inputs: seq<(Id, Ref)>, inputDigests: map<Id, Digest>,
    outputs: map<Id, string>, outputDigests: map<Id, Digest>, parameters: string)

  datatype SourceError = Cycle | BadOutputIdentity | BadOutputDigest | CandidateDependent | DigestMismatch | NoCircuit

  predicate IsDigest(s: Digest) {
    |s| == 64 && forall c :: c in s ==> '0' <= c <= '9' || 'a' <= c <= 'f'
  }

  /** The references that stand for the declared source circuit. */
  predicate IsCircuit(ref: Ref) {
    ref == Input("netlist") || ref == Input("simulation")
  }

  /** What parsing has already established: named inputs with identities, and no other kind of reference. */
  predicate Parsed(source: Source) {
    && (forall i, j :: 0 <= i < j < |source.inputs| ==> source.inputs[i].0 != source.inputs[j].0)
    && (forall i :: 0 <= i < |source.inputs| ==>
          && source.inputs[i].0 in source.inputDigests
          && (source.inputs[i].1.Input? || source.inputs[i].1.Output?))
  }

  predicate AllParsed(sources: map<Id, Source>) {
    forall name :: name in sources ==> Parsed(sources[name])
  }

  predicate OutputsIdentified(source: Source) {
    && source.outputDigests.Keys <= source.outputs.Keys
    && forall role :: role in source.outputDigests ==> IsIdentifier(role) && IsDigest(source.outputDigests[role])
  }

  /** The input names an output of another source that exists. */
  predicate ProducerExists(sources: map<Id, Source>, ref: Ref) {
    ref.Output? ==> ref.job in sources && ref.name in sources[ref.job].outputs
  }

  /** The input's recorded identity is the producer's recorded output identity. */
  predicate SameIdentity(sources: map<Id, Source>, ref: Ref, digest: Digest)
    requires ProducerExists(sources, ref)
  {
    ref.Output? ==>
      ref.name in sources[ref.job].outputDigests && sources[ref.job].outputDigests[ref.name] == digest
  }

  predicate InputBound(sources: map<Id, Source>, source: Source, i: nat)
    requires Parsed(source) && i < |source.inputs|
  {
    && ProducerExists(sources, source.inputs[i].1)
    && SameIdentity(sources, source.inputs[i].1, source.inputDigests[source.inputs[i].0])
  }

  predicate ConsumesCircuit(source: Source) {
    exists i :: 0 <= i < |source.inputs| && IsCircuit(source.inputs[i].1)
  }

  predicate ConsumesOutput(source: Source) {
    exists i :: 0 <= i < |source.inputs| && source.inputs[i].1.Output?
  }

  /** The conditions that concern one source and its direct producers. */
  predicate Bound(sources: map<Id, Source>, source: Source)
    requires Parsed(source)
  {
    && OutputsIdentified(source)
    && (forall i :: 0 <= i < |source.inputs| ==> InputBound(sources, source, i))
    && (ConsumesCircuit(source) || ConsumesOutput(source))
  }

  predicate AllBound(sources: map<Id, Source>)
    requires AllParsed(sources)
  {
    forall name :: name in sources ==> Bound(sources, sources[name])
  }

  /** `(a, b)` when source `a` consumes an output of source `b`. */
  ghost function SourceEdges(sources: map<Id, Source>): (e: set<(Id, Id)>) {
    set a, i | a in sources && 0 <= i < |sources[a].inputs| && sources[a].inputs[i].1.Output? ::
      (a, sources[a].inputs[i].1.job)
  }

  /** A rank that falls from every source to its producers. */
  ghost predicate Ranked(sources: map<Id, Source>, names: set<Id>, rank: map<Id, nat>) {
    && names <= rank.Keys
    && forall a, i :: a in names && a in sources && 0 <= i < |sources[a].inputs| && sources[a].inputs[i].1.Output? ==>
      var b := sources[a].inputs[i].1.job;
      b in names && rank[b] < rank[a]
  }

  /** Finished names satisfy all conditions and rank above their producers, which are finished too. */
  ghost predicate Finished(sources: map<Id, Source>, visited: set<Id>, rank: map<Id, nat>) {
    && visited <= sources.Keys
    && AllParsed(sources)
    && (forall name :: name in visited ==> Bound(sources, sources[name]) && name in rank && rank[name] < |visited|)
    && Ranked(sources, visited, rank)
  }

  /** The open names form one path, each consuming an output of the next. */
  ghost predicate Open(sources: map<Id, Source>, active: set<Id>, stack: seq<Id>) {
    && active <= sources.Keys
    && (forall name :: name in active <==> name in stack)
    && (stack != [] ==> IsPath(SourceEdges(sources), stack))
  }

  /** The whole graph must be refused. */
  ghost predicate Refused(sources: map<Id, Source>) {
    AllParsed(sources) ==> !AllBound(sources) || Cyclic(SourceEdges(sources))
  }

  /** The depth-first search of the validation, with its sets of finished and open names. */
  class Visitor {
    const sources: map<Id, Source>
    var visited: set<Id>
    var active: set<Id>
    ghost var stack: seq<Id>
    ghost var rank: map<Id, nat>

    constructor (sources: map<Id, Source>)
      requires AllParsed(sources)
      ensures this.sources == sources && Valid() && visited == {} && stack == []
    {
      this.sources := sources;
      visited, active, stack, rank := {}, {}, [], map[];
    }

    ghost predicate Valid()
      reads this
    {
      && Finished(sources, visited, rank)
      && Open(sources, active, stack)
      && visited !! active
    }

    /** Visits one source after its producers; a failure means that the whole graph is refused. */
    method Visit(name: Id) returns (r: Result<(), SourceError>)
      requires Valid() && name in sources
      requires stack != [] ==> (stack[|stack| - 1], name) in SourceEdges(sources)
      modifies this
      ensures r.Ok? ==> Valid() && active == old(active) && stack == old(stack)
      ensures r.Ok? ==> old(visited) + {name} <= visited
      ensures r.Err? ==> Refused(sources)
      decreases |sources.Keys - active|, 1
    {
      hide Finished, Open, Refused, SourceEdges;
      if name in active {
        Reentered(sources, active, stack, name);
        r := Err(Cycle);
      } else if name in visited {
        r := Ok(());
      } else {
        r := VisitFresh(name);
      }
    }

    /** Opens a source that is neither open nor finished, visits its producers and finishes it. */
    method VisitFresh(name: Id) returns (r: Result<(), SourceError>)
      requires Valid() && name in sources && name !in active && name !in visited
      requires stack != [] ==> (stack[|stack| - 1], name) in SourceEdges(sources)
      modifies this
      ensures r.Ok? ==> Valid() && active == old(active) && stack == old(stack)
      ensures r.Ok? ==> old(visited) + {name} <= visited
      ensures r.Err? ==> Refused(sources)
      decreases |sources.Keys - active|, 0
    {
      hide Finished, Open, Refused, SourceEdges, Bound, ProducersIn, OutputsIdentified, Parsed;
      var source := sources[name];
      if !(source.outputDigests.Keys <= source.outputs.Keys) {
        UnidentifiedRefuses(sources, name);
        r := Err(BadOutputIdentity);
      } else if !OutputsIdentified(source) {
        UnidentifiedRefuses(sources, name);
        r := Err(BadOutputDigest);
      } else {
        Entered(sources, active, stack, name);
        active, stack := active + {name}, stack + [name];
        r := VisitInputs(name);
        if r.Ok? {
          Leave(old(active), old(stack), name);
        }
      }
    }

    /** Moves the source on top of the path from the open to the finished names. */
    method Leave(ghost below: set<Id>, ghost path: seq<Id>, name: Id)
      requires Valid() && name in sources && active == below + {name} && stack == path + [name]
      requires Open(sources, below, path) && name !in below
      requires Parsed(sources[name]) && Bound(sources, sources[name]) && ProducersIn(sources[name], visited)
      modifies this
      ensures Valid() && active == below && stack == path && visited == old(visited) + {name}
    {
      hide Finished, Open, Bound, ProducersIn, Parsed;
      Left(sources, visited, rank, name);
      rank := rank[name := |visited|];
      active, visited := active - {name}, visited + {name};
      stack := stack[..|stack| - 1];
    }

    /** Visits the producers of an open source in the order of its inputs and checks each input. */
    method VisitInputs(name: Id) returns (r: Result<(), SourceError>)
      requires Valid() && name in sources && OutputsIdentified(sources[name])
      requires stack != [] && stack[|stack| - 1] == name
      modifies this
      ensures r.Ok? ==> Valid() && active == old(active) && stack == old(stack) && old(visited) <= visited
      ensures r.Ok? ==> Parsed(sources[name]) && Bound(sources, sources[name]) && ProducersIn(sources[name], visited)
      ensures r.Err? ==> Refused(sources)
      decreases |sources.Keys - active|, 2
    {
      hide Finished, Open, Refused, SourceEdges;
      var source := sources[name];
      var inputs := source.inputs;
      var hasCircuit := ConsumesCircuit(source);
      FinishedParsed(sources, visited, rank, name);
      for i := 0 to |inputs|
        invariant Valid() && active == old(active) && stack == old(stack) && old(visited) <= visited
        invariant InputsBound(sources, source, i) && ProducersBefore(source, i, visited)
        invariant hasCircuit <==> ConsumesCircuit(source) || OutputBefore(source, i)
      {
        var (role, ref) := inputs[i];
        if ref.Output? {
          if !ProducerExists(sources, ref) {
            UnboundInputRefuses(sources, name, i);
            return Err(CandidateDependent);
          }
          ProducerEdge(sources, name, i);
          r := Visit(ref.job);
          if r.Err? {
            return;
          }
          if !SameIdentity(sources, ref, source.inputDigests[role]) {
            UnboundInputRefuses(sources, name, i);
            return Err(DigestMismatch);
          }
          hasCircuit := true;
        }
      }
      if !hasCircuit {
        UnboundRefuses(sources, name);
        return Err(NoCircuit);
      }
      return Ok(());
    }
  }

  ghost predicate InputsBound(sources: map<Id, Source>, source: Source, n: nat)
    requires n <= |source.inputs|
  {
    Parsed(source) && forall k :: 0 <= k < n ==> InputBound(sources, source, k)
  }

  ghost predicate ProducersBefore(source: Source, n: nat, names: set<Id>)
    requires n <= |source.inputs|
  {
    forall k :: 0 <= k < n && source.inputs[k].1.Output? ==> source.inputs[k].1.job in names
  }

  ghost predicate OutputBefore(source: Source, n: nat)
    requires n <= |source.inputs|
  {
    exists k :: 0 <= k < n && source.inputs[k].1.Output?
  }

  lemma FinishedParsed(sources: map<Id, Source>, visited: set<Id>, rank: map<Id, nat>, name: Id)
    requires Finished(sources, visited, rank) && name in sources
    ensures Parsed(sources[name])
  {
  }

  lemma UnidentifiedRefuses(sources: map<Id, Source>, name: Id)
    requires name in sources
    requires sources[name].outputDigests.Keys <= sources[name].outputs.Keys ==> !OutputsIdentified(sources[name])
    ensures Refused(sources)
  {
    if Parsed(sources[name]) {
      assert !Bound(sources, sources[name]);
    }
  }

  lemma UnboundRefuses(sources: map<Id, Source>, name: Id)
    requires name in sources && (Parsed(sources[name]) ==> !Bound(sources, sources[name]))
    ensures Refused(sources)
  {
  }

  lemma UnboundInputRefuses(sources: map<Id, Source>, name: Id, i: nat)
    requires name in sources && i < |sources[name].inputs|
    requires Parsed(sources[name]) ==> !InputBound(sources, sources[name], i)
    ensures Refused(sources)
  {
    if Parsed(sources[name]) {
      assert !Bound(sources, sources[name]);
    }
  }

  lemma ProducerEdge(sources: map<Id, Source>, name: Id, i: nat)
    requires name in sources && i < |sources[name].inputs| && sources[name].inputs[i].1.Output?
    ensures (name, sources[name].inputs[i].1.job) in SourceEdges(sources)
  {
  }

  /** Reaching an open name again closes a cycle. */
  lemma Reentered(sources: map<Id, Source>, active: set<Id>, stack: seq<Id>, name: Id)
    requires Open(sources, active, stack) && name in active
    requires stack != [] ==> (stack[|stack| - 1], name) in SourceEdges(sources)
    ensures Refused(sources)
  {
    var k :| 0 <= k < |stack| && stack[k] == name;
    PathCloses(SourceEdges(sources), stack, k);
  }

  lemma Entered(sources: map<Id, Source>, active: set<Id>, stack: seq<Id>, name: Id)
    requires Open(sources, active, stack) && name in sources && name !in active
    requires stack != [] ==> (stack[|stack| - 1], name) in SourceEdges(sources)
    ensures Open(sources, active + {name}, stack + [name])
    ensures |sources.Keys - (active + {name})| < |sources.Keys - active|
  {
    PathAppend(SourceEdges(sources), stack, name);
    assert sources.Keys - active == (sources.Keys - (active + {name})) + {name};
  }

  /** A source finished after all its producers ranks above them. */
  lemma Left(sources: map<Id, Source>, visited: set<Id>, rank: map<Id, nat>, name: Id)
    requires Finished(sources, visited, rank) && name in sources && name !in visited
    requires Bound(sources, sources[name]) && ProducersIn(sources[name], visited)
    ensures Finished(sources, visited + {name}, rank[name := |visited|])
  {
    var all := visited + {name};
    assert |all| == |visited| + 1;
    assert Ranked(sources, all, rank[name := |visited|]);
  }

  predicate ProducersIn(source: Source, names: set<Id>) {
    forall i :: 0 <= i < |source.inputs| && source.inputs[i].1.Output? ==> source.inputs[i].1.job in names
  }

  lemma RankedSourcesAcyclic(sources: map<Id, Source>, rank: map<Id, nat>)
    requires Ranked(sources, sources.Keys, rank)
    ensures !Cyclic(SourceEdges(sources))
  {
    RankedIsAcyclic(SourceEdges(sources), (a: Id) => if a in rank then rank[a] else 0);
  }

  /**
   * Validates the frozen graph, visiting its sources in the order of their declaration. It is accepted
   * exactly when every source is bound and none consumes its own output, however indirectly.
   */
  method ValidateSourceGraph(sources: map<Id, Source>, order: seq<Id>)
    returns (r: Result<(), SourceError>, ghost rank: map<Id, nat>)
    requires AllParsed(sources) && forall name :: name in order <==> name in sources
    ensures r.Ok? <==> AllBound(sources) && !Cyclic(SourceEdges(sources))
    ensures r.Ok? ==> Ranked(sources, sources.Keys, rank)
  {
    var visitor := new Visitor(sources);
    for k := 0 to |order|
      invariant visitor.Valid() && visitor.sources == sources && visitor.stack == []
      invariant forall i :: 0 <= i < k ==> order[i] in visitor.visited
    {
      assert order[k] in order;
      r := visitor.Visit(order[k]);
      if r.Err? {
        return r, map[];
      }
    }
    rank := visitor.rank;
    assert visitor.visited == sources.Keys;
    RankedSourcesAcyclic(sources, rank);
    return Ok(()), rank;
  }

  /** In an accepted graph every source consumes the declared circuit, directly or through producers. */
  lemma {:induction false} ConsumesCircuitEventually(sources: map<Id, Source>, rank: map<Id, nat>, name: Id) returns (origin: Id)
    requires AllParsed(sources) && AllBound(sources) && Ranked(sources, sources.Keys, rank)
    requires name in sources
    ensures origin in sources && Reaches(SourceEdges(sources), name, origin) && ConsumesCircuit(sources[origin])
    decreases rank[name]
  {
    var source := sources[name];
    assert Bound(sources, source);
    if ConsumesCircuit(source) {
      origin := name;
      ReachesSelf(SourceEdges(sources), name);
    } else {
      var i :| 0 <= i < |source.inputs| && source.inputs[i].1.Output?;
      assert InputBound(sources, source, i);
      ProducerEdge(sources, name, i);
      origin := ConsumesCircuitEventually(sources, rank, source.inputs[i].1.job);
      ReachesEdge(SourceEdges(sources), name, source.inputs[i].1.job);
      ReachesTransitive(SourceEdges(sources), name, source.inputs[i].1.job, origin);
    }
  }

  function Roles(inputs: seq<(Id, Ref)>): (roles: set<Id>) {
    set i | 0 <= i < |inputs| :: inputs[i].0
  }

  /** The reference bound to a role. */
  function InputOf(inputs: seq<(Id, Ref)>, role: Id): (ref: Ref)
    requires role in Roles(inputs)
    ensures (role, ref) in inputs
  {
    if inputs[0].0 == role then inputs[0].1 else
      assert inputs == [inputs[0]] + inputs[1..];
      InputOf(inputs[1..], role)
  }

  /** The table of candidate jobs as the plan has already checked it. */
  predicate JobsResolved(jobs: map<Id, Job>) {
    forall id, i :: id in jobs && 0 <= i < |jobs[id].inputs| && jobs[id].inputs[i].1.Output? ==>
      var ref := jobs[id].inputs[i].1;
      ref.job in jobs && ref.name in jobs[ref.job].outputs
  }

  function Table(jobs: seq<Job>): (table: map<Id, Job>) {
    map id | id in Ids(jobs) :: Find(jobs, id)
  }

  /** Jobs that ordering has accepted form a resolved table. */
  lemma OrderedJobsResolve(jobs: seq<Job>)
    requires WellFormed(jobs)
    ensures JobsResolved(Table(jobs))
  {
    var table := Table(jobs);
    forall id, i | id in table && 0 <= i < |table[id].inputs| && table[id].inputs[i].1.Output?
      ensures
        var ref := table[id].inputs[i].1;
        ref.job in table && ref.name in table[ref.job].outputs
    {
      assert Resolves(jobs, table[id]);
      assert KnownRef(jobs, table[id].inputs[i].1);
    }
  }

  /** A declared source circuit may be replaced by an extraction of the candidate. */
  predicate IsSubstitution(ref: Ref, paired: Ref) {
    IsCircuit(ref) && paired.Output?
  }

  /** The two jobs apply the same operation with the same parameters to corresponding inputs. */
  predicate PairMatches(sourceName: Id, candidateName: Id, sources: map<Id, Source>, jobs: map<Id, Job>, ghost rank: map<Id, nat>)
    requires AllParsed(sources) && AllBound(sources) && Ranked(sources, sources.Keys, rank) && JobsResolved(jobs)
    requires sourceName in sources && candidateName in jobs
    decreases rank[sourceName], 1
  {
    var source, candidate := sources[sourceName], jobs[candidateName];
    && source.operation == candidate.operation && source.parameters == candidate.parameters
    && Roles(source.inputs) == Roles(candidate.inputs)
    && forall i :: 0 <= i < |source.inputs| ==> InputMatches(sourceName, i, candidateName, sources, jobs, rank)
  }

  predicate InputMatches(sourceName: Id, i: nat, candidateName: Id, sources: map<Id, Source>, jobs: map<Id, Job>, ghost rank: map<Id, nat>)
    requires AllParsed(sources) && AllBound(sources) && Ranked(sources, sources.Keys, rank) && JobsResolved(jobs)
    requires sourceName in sources && candidateName in jobs && i < |sources[sourceName].inputs|
    requires sources[sourceName].inputs[i].0 in Roles(jobs[candidateName].inputs)
    decreases rank[sourceName], 0
  {
    var (role, ref) := sources[sourceName].inputs[i];
    var paired := InputOf(jobs[candidateName].inputs, role);
    assert Bound(sources, sources[sourceName]) && InputBound(sources, sources[sourceName], i);
    if IsSubstitution(ref, paired) then
      jobs[paired.job].stage == Extract && jobs[paired.job].outputs[paired.name] == "spice"
    else if ref.Output? && paired.Output? then
      && ref.name == paired.name
      && PairMatches(ref.job, paired.job, sources, jobs, rank)
      && sources[ref.job].outputs[ref.name] == jobs[paired.job].outputs[paired.name]
    else
      ref == paired
  }

  type Content = string

  /** What a tool computes from an operation, its parameters and its named inputs: one content per output. */
  type Tool = (string, string, map<Id, Content>, Id) -> Content

  /** The content behind a reference, given the external inputs and the outputs of the jobs. */
  function Fetch(ref: Ref, external: Ref -> Content, output: (Id, Id) -> Content): (c: Content) {
    if ref.Output? then output(ref.job, ref.name) else external(ref)
  }

  function Fetched(inputs: seq<(Id, Ref)>, external: Ref -> Content, output: (Id, Id) -> Content): (m: map<Id, Content>) {
    map role | role in Roles(inputs) :: Fetch(InputOf(inputs, role), external, output)
  }

  /** Every source output is what the tools compute from the source's inputs. */
  ghost predicate SourcesComputed(sources: map<Id, Source>, tool: Tool, external: Ref -> Content, output: (Id, Id) -> Content) {
    forall id, name :: id in sources ==>
      output(id, name) == tool(sources[id].operation, sources[id].parameters, Fetched(sources[id].inputs, external, output), name)
  }

  ghost predicate JobsComputed(jobs: map<Id, Job>, tool: Tool, external: Ref -> Content, output: (Id, Id) -> Content) {
    forall id, name :: id in jobs ==>
      output(id, name) == tool(jobs[id].operation, jobs[id].parameters, Fetched(jobs[id].inputs, external, output), name)
  }

  /** Every extraction that stands in for the source circuit, here or further up, reproduced that circuit. */
  ghost predicate ExtractionsFaithful(
    sourceName: Id, candidateName: Id, sources: map<Id, Source>, jobs: map<Id, Job>, rank: map<Id, nat>,
    external: Ref -> Content, output: (Id, Id) -> Content)
    requires AllParsed(sources) && AllBound(sources) && Ranked(sources, sources.Keys, rank) && JobsResolved(jobs)
    requires sourceName in sources && candidateName in jobs
    decreases rank[sourceName]
  {
    forall i {:trigger sources[sourceName].inputs[i]} :: 0 <= i < |sources[sourceName].inputs| ==>
      var (role, ref) := sources[sourceName].inputs[i];
      role in Roles(jobs[candidateName].inputs) ==>
        var paired := InputOf(jobs[candidateName].inputs, role);
        assert Bound(sources, sources[sourceName]) && InputBound(sources, sources[sourceName], i);
        && (IsSubstitution(ref, paired) ==> external(ref) == output(paired.job, paired.name))
        && (ref.Output? && paired.Output? ==> ExtractionsFaithful(ref.job, paired.job, sources, jobs, rank, external, output))
  }

  /**
   * A matched pair computes the same outputs from the same external inputs, whatever the tools do, as long
   * as every extraction that replaced the source circuit reproduced it.
   */
  lemma {:induction false} MatchedPairsAgree(
    sourceName: Id, candidateName: Id, sources: map<Id, Source>, jobs: map<Id, Job>, rank: map<Id, nat>,
    tool: Tool, external: Ref -> Content, frozen: (Id, Id) -> Content, live: (Id, Id) -> Content, name: Id)
    requires AllParsed(sources) && AllBound(sources) && Ranked(sources, sources.Keys, rank) && JobsResolved(jobs)
    requires sourceName in sources && candidateName in jobs
    requires PairMatches(sourceName, candidateName, sources, jobs, rank)
    requires SourcesComputed(sources, tool, external, frozen) && JobsComputed(jobs, tool, external, live)
    requires ExtractionsFaithful(sourceName, candidateName, sources, jobs, rank, external, live)
    ensures frozen(sourceName, name) == live(candidateName, name)
    decreases rank[sourceName], 1
  {
    var source, candidate := sources[sourceName], jobs[candidateName];
    var a, b := Fetched(source.inputs, external, frozen), Fetched(candidate.inputs, external, live);
    forall role | role in Roles(source.inputs) ensures a[role] == b[role] {
      var i :| 0 <= i < |source.inputs| && source.inputs[i] == (role, InputOf(source.inputs, role));
      MatchedInputAgrees(sourceName, i, candidateName, sources, jobs, rank, tool, external, frozen, live);
    }
    assert a == b;
  }

  lemma {:induction false} MatchedInputAgrees(
    sourceName: Id, i: nat, candidateName: Id, sources: map<Id, Source>, jobs: map<Id, Job>, rank: map<Id, nat>,
    tool: Tool, external: Ref -> Content, frozen: (Id, Id) -> Content, live: (Id, Id) -> Content)
    requires AllParsed(sources) && AllBound(sources) && Ranked(sources, sources.Keys, rank) && JobsResolved(jobs)
    requires sourceName in sources && candidateName in jobs && i < |sources[sourceName].inputs|
    requires sources[sourceName].inputs[i].0 in Roles(jobs[candidateName].inputs)
    requires InputMatches(sourceName, i, candidateName, sources, jobs, rank)
    requires SourcesComputed(sources, tool, external, frozen) && JobsComputed(jobs, tool, external, live)
    requires ExtractionsFaithful(sourceName, candidateName, sources, jobs, rank, external, live)
    ensures
      var (role, ref) := sources[sourceName].inputs[i];
      Fetch(ref, external, frozen) == Fetch(InputOf(jobs[candidateName].inputs, role), external, live)
    decreases rank[sourceName], 0
  {
    var (role, ref) := sources[sourceName].inputs[i];
    var paired := InputOf(jobs[candidateName].inputs, role);
    assert Bound(sources, sources[sourceName]) && InputBound(sources, sources[sourceName], i);
    if !IsSubstitution(ref, paired) && ref.Output? && paired.Output? {
      MatchedPairsAgree(ref.job, paired.job, sources, jobs, rank, tool, external, frozen, live, ref.name);
    }
  }
}
