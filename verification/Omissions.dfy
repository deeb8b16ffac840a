/** Which attachments of a process check a retained archive may leave out. */
module Omissions {
  import opened Prelude
  import opened Contents

  /** A relative path as its components; empty when the record has none. */
  type Name = seq<string>

  datatype Ref = Ref(path: Name, identity: Identity)

  datatype Attachment = Attachment(name: string, ref: Ref)

  datatype Job = Job(status: string, outputs: seq<Attachment>, evidence: seq<Attachment>)

  datatype Report = Report(
    taskSuccess: Option<bool>, physicalValid: Option<bool>, specsPass: Option<bool>,
    jobs: seq<Job>, metrics: seq<string>, plan: Ref, inputs: seq<Ref>)

  predicate PlainPart(part: string) {
    part != "" && part != "." && part != ".." && '\\' !in part && '\0' !in part
  }

  predicate Relative(name: Name) {
    |name| > 0 && forall k :: 0 <= k < |name| ==> PlainPart(name[k])
  }

  function Suffixes(): (s: seq<string>) { [".raw", ".tran", ".ac", ".dc", ".log", ".db", ".lvsdb"] }

  predicate EndsWith(name: string, suffix: string) {
    |suffix| <= |name| && name[|name| - |suffix|..] == suffix
  }

  /** Output that a rerun of the check would produce again. */
  predicate Temporary(name: string) {
    || (|name| >= 8 && name[..8] == "results/")
    || (exists k :: 0 <= k < |Suffixes()| && EndsWith(name, Suffixes()[k]))
    || name in ["console", "stdout", "stderr"]
  }

  /** Every verdict of the check is a pass; absent specifications do not count against it. */
  predicate FullyPassed(r: Report) {
    && r.taskSuccess == Some(true) && r.physicalValid == Some(true) && r.specsPass != Some(false)
    && (forall k :: 0 <= k < |r.jobs| ==> r.jobs[k].status == "passed")
    && (forall k :: 0 <= k < |r.metrics| ==> r.metrics[k] == "passed")
  }

  /** The attachments in the order in which they are listed. */
  function Attachments(r: Report, k: nat): (a: seq<Attachment>)
    requires k <= |r.jobs|
  {
    if k == 0 then [] else Attachments(r, k - 1) + r.jobs[k - 1].outputs + r.jobs[k - 1].evidence
  }

  function AllAttachments(r: Report): (a: seq<Attachment>) { Attachments(r, |r.jobs|) }

  function Paths(refs: seq<Ref>): (paths: seq<Name>) {
    seq(|refs|, k requires 0 <= k < |refs| => refs[k].path)
  }

  /** The path is that of the plan, of an input, or of evidence that has to stay. */
  predicate Protected(r: Report, path: Name) {
    || path == r.plan.path || path in Paths(r.inputs)
    || Named(AllAttachments(r), path, false)
  }

  /** Some attachment of the wanted kind has this path. */
  predicate Named(a: seq<Attachment>, path: Name, temporary: bool) {
    exists k :: 0 <= k < |a| && AtPath(a[k], path, temporary)
  }

  predicate AtPath(a: Attachment, path: Name, temporary: bool) {
    a.ref.path == path && Temporary(a.name) == temporary
  }

  /** The path may be left out. */
  predicate Omittable(r: Report, path: Name) {
    FullyPassed(r) && path != [] && Named(AllAttachments(r), path, true) && !Protected(r, path)
  }

  predicate WellFormed(a: seq<Attachment>) {
    forall k :: 0 <= k < |a| && a[k].ref.path != [] ==> Relative(a[k].ref.path)
  }

  /** The identity recorded last for a temporary path. */
  function Recorded(a: seq<Attachment>, path: Name): (i: Identity)
    requires Named(a, path, true)
  {
    var last := a[|a| - 1];
    if AtPath(last, path, true) then last.ref.identity
    else
      assert forall k :: 0 <= k < |a| - 1 ==> a[..|a| - 1][k] == a[k];
      Recorded(a[..|a| - 1], path)
  }

  /** What the loop has collected from the attachments seen so far. */
  ghost predicate Collected(a: seq<Attachment>, removable: map<Name, Identity>, kept: set<Name>) {
    && (forall path :: path in removable <==> path != [] && Named(a, path, true))
    && (forall path :: path in removable ==> removable[path] == Recorded(a, path))
    && (forall path :: path in kept <==> path != [] && Named(a, path, false))
  }

  lemma NamedSnoc(a: seq<Attachment>, last: Attachment, path: Name, temporary: bool)
    ensures Named(a + [last], path, temporary) <==> Named(a, path, temporary) || AtPath(last, path, temporary)
  {
    hide AtPath;
    var b := a + [last];
    if Named(a, path, temporary) {
      var k :| 0 <= k < |a| && AtPath(a[k], path, temporary);
      assert b[k] == a[k];
    }
    assert b[|a|] == last;
  }

  lemma CollectOne(a: seq<Attachment>, last: Attachment, removable: map<Name, Identity>, kept: set<Name>)
    requires Collected(a, removable, kept)
    ensures
      var path := last.ref.path;
      if path == [] then Collected(a + [last], removable, kept)
      else if Temporary(last.name) then Collected(a + [last], removable[path := last.ref.identity], kept)
      else Collected(a + [last], removable, kept + {path})
  {
    hide Named, Temporary;
    forall path, temporary
      ensures Named(a + [last], path, temporary) <==> Named(a, path, temporary) || AtPath(last, path, temporary)
    {
      NamedSnoc(a, last, path, temporary);
    }
    assert (a + [last])[..|a|] == a;
  }

  function Visited(r: Report, done: nat, part: seq<Attachment>): (a: seq<Attachment>)
    requires done <= |r.jobs|
  {
    Attachments(r, done) + part
  }

  /** Adds one group of attachments; stops at a path that is not a plain relative one. */
  method CollectGroup(seen: seq<Attachment>, group: seq<Attachment>, removable: map<Name, Identity>, kept: set<Name>)
    returns (ok: bool, newRemovable: map<Name, Identity>, newKept: set<Name>)
    requires Collected(seen, removable, kept)
    ensures ok <==> WellFormed(group)
    ensures ok ==> Collected(seen + group, newRemovable, newKept)
  {
    hide Collected, Relative, Temporary;
    newRemovable, newKept, ok := removable, kept, true;
    assert seen + group[..0] == seen;
    for k := 0 to |group|
      invariant Collected(seen + group[..k], newRemovable, newKept)
      invariant WellFormed(group[..k])
    {
      var a := group[k];
      assert group[..k + 1] == group[..k] + [a];
      assert seen + group[..k + 1] == seen + group[..k] + [a];
      CollectOne(seen + group[..k], a, newRemovable, newKept);
      if a.ref.path != [] {
        if !Relative(a.ref.path) {
          ok := false;
          return;
        }
        if Temporary(a.name) {
          newRemovable := newRemovable[a.ref.path := a.ref.identity];
        } else {
          newKept := newKept + {a.ref.path};
        }
      }
    }
    assert group[..|group|] == group;
  }

  /** Exactly the omittable paths with their recorded identities; an error if the report has an unusable path. */
  method ProcessOmissions(r: Report) returns (o: Option<map<Name, Identity>>)
    ensures o.None? <==> FullyPassed(r) && !WellFormed(AllAttachments(r))
    ensures o.Some? ==> forall path :: path in o.value <==> Omittable(r, path)
    ensures o.Some? ==> forall path :: path in o.value ==>
      Named(AllAttachments(r), path, true) && o.value[path] == Recorded(AllAttachments(r), path)
  {
    hide Named, Relative, Temporary, WellFormed, Paths;
    if !FullyPassed(r) {
      return Some(map[]);
    }
    var removable: map<Name, Identity>, kept: set<Name>, ok := map[], {}, true;
    NothingCollected();
    for j := 0 to |r.jobs|
      invariant Collected(Attachments(r, j), removable, kept)
      invariant WellFormed(Attachments(r, j))
    {
      var seen := Attachments(r, j);
      WellFormedConcat(seen, r.jobs[j].outputs);
      WellFormedConcat(seen + r.jobs[j].outputs, r.jobs[j].evidence);
      ok, removable, kept := CollectGroup(seen, r.jobs[j].outputs, removable, kept);
      if ok {
        ok, removable, kept := CollectGroup(seen + r.jobs[j].outputs, r.jobs[j].evidence, removable, kept);
      }
      if !ok {
        StaysMalformed(r, j + 1);
        return None;
      }
    }
    var result := map path | path in removable && path != r.plan.path && path !in Paths(r.inputs) && path !in kept :: removable[path];
    return Some(result);
  }

  lemma NothingCollected()
    ensures Collected([], map[], {}) && WellFormed([])
  {
  }

  lemma WellFormedConcat(a: seq<Attachment>, b: seq<Attachment>)
    ensures WellFormed(a + b) <==> WellFormed(a) && WellFormed(b)
  {
    hide Relative;
    assert forall k :: 0 <= k < |a| ==> (a + b)[k] == a[k];
    assert forall k :: 0 <= k < |b| ==> (a + b)[|a| + k] == b[k];
  }

  lemma {:induction false} StaysMalformed(r: Report, k: nat)
    requires k <= |r.jobs| && !WellFormed(Attachments(r, k))
    ensures !WellFormed(AllAttachments(r))
    decreases |r.jobs| - k
  {
    hide WellFormed;
    if k < |r.jobs| {
      WellFormedConcat(Attachments(r, k), r.jobs[k].outputs);
      WellFormedConcat(Attachments(r, k) + r.jobs[k].outputs, r.jobs[k].evidence);
      StaysMalformed(r, k + 1);
    }
  }
}
