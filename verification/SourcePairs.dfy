/** When a frozen source and a candidate job correspond, told without following the recursion that decides it. */
module SourcePairs {
  import opened Prelude
  import opened Graphs
  import opened Plans
  import opened SourceGraph

  type Pairs = set<(Id, Id)>

  /** An extraction of the candidate's circuit. */
  predicate IsExtracted(jobs: map<Id, Job>, ref: Ref) {
    && ref.Output? && ref.job in jobs && jobs[ref.job].stage == Extract
    && ref.name in jobs[ref.job].outputs && jobs[ref.job].outputs[ref.name] == "spice"
  }

  /** Outputs of one name and format, of producers that are paired. */
  predicate SameOutput(sources: map<Id, Source>, jobs: map<Id, Job>, pairs: Pairs, ref: Ref, paired: Ref) {
    && ref.Output? && paired.Output? && ref.name == paired.name && (ref.job, paired.job) in pairs
    && ref.job in sources && ref.name in sources[ref.job].outputs
    && paired.job in jobs && paired.name in jobs[paired.job].outputs
    && sources[ref.job].outputs[ref.name] == jobs[paired.job].outputs[paired.name]
  }

  /** The circuit is extracted again, outputs come from paired producers, and everything else is the same. */
  predicate Corresponds(sources: map<Id, Source>, jobs: map<Id, Job>, pairs: Pairs, ref: Ref, paired: Ref) {
    || (IsCircuit(ref) && IsExtracted(jobs, paired))
    || SameOutput(sources, jobs, pairs, ref, paired)
    || (ref == paired && !ref.Output?)
  }

  predicate PairAgrees(sources: map<Id, Source>, jobs: map<Id, Job>, pairs: Pairs, a: Id, b: Id)
    requires a in sources && b in jobs
  {
    && sources[a].operation == jobs[b].operation && sources[a].parameters == jobs[b].parameters
    && Roles(sources[a].inputs) == Roles(jobs[b].inputs)
    && forall i :: 0 <= i < |sources[a].inputs| ==>
         var (role, ref) := sources[a].inputs[i];
         role in Roles(jobs[b].inputs) && Corresponds(sources, jobs, pairs, ref, InputOf(jobs[b].inputs, role))
  }

  /** Every pair agrees, given the others. */
  ghost predicate Closed(sources: map<Id, Source>, jobs: map<Id, Job>, pairs: Pairs) {
    forall a, b :: (a, b) in pairs ==> a in sources && b in jobs && PairAgrees(sources, jobs, pairs, a, b)
  }

  /** All pairs that match. */
  ghost function Matched(sources: map<Id, Source>, jobs: map<Id, Job>, rank: map<Id, nat>): (pairs: Pairs)
    requires AllParsed(sources) && AllBound(sources) && Ranked(sources, sources.Keys, rank) && JobsResolved(jobs)
  {
    set a, b | a in sources && b in jobs && PairMatches(a, b, sources, jobs, rank) :: (a, b)
  }

  lemma MatchedAgree(sources: map<Id, Source>, jobs: map<Id, Job>, rank: map<Id, nat>, a: Id, b: Id)
    requires AllParsed(sources) && AllBound(sources) && Ranked(sources, sources.Keys, rank) && JobsResolved(jobs)
    requires a in sources && b in jobs && PairMatches(a, b, sources, jobs, rank)
    ensures PairAgrees(sources, jobs, Matched(sources, jobs, rank), a, b)
  {
    hide Ranked, Parsed, Roles;
    forall i | 0 <= i < |sources[a].inputs|
      ensures
        var (role, ref) := sources[a].inputs[i];
        role in Roles(jobs[b].inputs)
        && Corresponds(sources, jobs, Matched(sources, jobs, rank), ref, InputOf(jobs[b].inputs, role))
    {
      InRoles(sources[a].inputs, i);
      assert InputMatches(a, i, b, sources, jobs, rank);
      var (role, ref) := sources[a].inputs[i];
      var paired := InputOf(jobs[b].inputs, role);
      PairedResolved(jobs, b, role);
      assert Bound(sources, sources[a]) && InputBound(sources, sources[a], i);
      CircuitIsInput(ref);
    }
  }

  lemma InRoles(inputs: seq<(Id, Ref)>, i: nat)
    requires i < |inputs|
    ensures inputs[i].0 in Roles(inputs)
  {
  }

  lemma CircuitIsInput(ref: Ref)
    ensures IsCircuit(ref) ==> !ref.Output?
  {
  }

  lemma PairedResolved(jobs: map<Id, Job>, b: Id, role: Id)
    requires JobsResolved(jobs) && b in jobs && role in Roles(jobs[b].inputs)
    ensures
      var paired := InputOf(jobs[b].inputs, role);
      paired.Output? ==> paired.job in jobs && paired.name in jobs[paired.job].outputs
  {
    var paired := InputOf(jobs[b].inputs, role);
    var i :| 0 <= i < |jobs[b].inputs| && jobs[b].inputs[i] == (role, paired);
  }

  /** Whatever is in a closed set of pairs matches. */
  lemma {:induction false} ClosedMatches(
    sources: map<Id, Source>, jobs: map<Id, Job>, rank: map<Id, nat>, pairs: Pairs, a: Id, b: Id)
    requires AllParsed(sources) && AllBound(sources) && Ranked(sources, sources.Keys, rank) && JobsResolved(jobs)
    requires Closed(sources, jobs, pairs) && (a, b) in pairs && a in sources && b in jobs
    ensures PairMatches(a, b, sources, jobs, rank)
    decreases rank[a]
  {
    hide Parsed, Roles;
    assert PairAgrees(sources, jobs, pairs, a, b);
    forall i | 0 <= i < |sources[a].inputs| ensures InputMatches(a, i, b, sources, jobs, rank) {
      var (role, ref) := sources[a].inputs[i];
      var paired := InputOf(jobs[b].inputs, role);
      assert Bound(sources, sources[a]) && InputBound(sources, sources[a], i);
      CircuitIsInput(ref);
      if ref.Output? && paired.Output? {
        ClosedMatches(sources, jobs, rank, pairs, ref.job, paired.job);
      }
    }
  }

  /**
   * A source matches a candidate exactly if some closed set of pairs has both: pairs of equal operation, parameters and
   * roles, whose inputs are a circuit and its extraction, outputs of one name and format of paired producers, or equal.
   */
  lemma MatchesExactly(sources: map<Id, Source>, jobs: map<Id, Job>, rank: map<Id, nat>, a: Id, b: Id)
    requires AllParsed(sources) && AllBound(sources) && Ranked(sources, sources.Keys, rank) && JobsResolved(jobs)
    requires a in sources && b in jobs
    ensures PairMatches(a, b, sources, jobs, rank) <==> exists pairs :: (a, b) in pairs && Closed(sources, jobs, pairs)
  {
    hide PairMatches, PairAgrees, Ranked, Parsed;
    if PairMatches(a, b, sources, jobs, rank) {
      var pairs := Matched(sources, jobs, rank);
      assert (a, b) in pairs;
      forall x, y | (x, y) in pairs ensures x in sources && y in jobs && PairAgrees(sources, jobs, pairs, x, y) {
        MatchedAgree(sources, jobs, rank, x, y);
      }
      assert Closed(sources, jobs, pairs);
    }
    if pairs :| (a, b) in pairs && Closed(sources, jobs, pairs) {
      ClosedMatches(sources, jobs, rank, pairs, a, b);
    }
  }
}
