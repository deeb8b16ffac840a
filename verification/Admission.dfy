/** What a retention transaction demands before it starts: everything that the archive's records refer to can be read. */
module Admission {
  import opened Prelude
  import opened Contents
  import opened Omissions
  import opened Retention

  /** The files that each archive's result lists, and the report of each check and evaluation by its directory. */
  datatype Records = Records(results: map<Path, seq<Name>>, reports: map<Path, Report>)

  /** The directory of a check of the archive that is not kept. */
  predicate IsCheck(root: Path, keep: set<string>, check: Path) {
    && |check| == |root| + 2 && check[..|root|] == root && check[|root|] == "feedback"
    && check[|root| + 1] !in keep && |check[|root| + 1]| >= 6 && check[|root| + 1][..6] == "check-"
  }

  function References(r: Report): (refs: seq<Ref>) {
    var a := AllAttachments(r);
    [r.plan] + r.inputs + seq(|a|, k requires 0 <= k < |a| => a[k].ref)
  }

  /** The check's own report allows leaving the path out. */
  predicate Excused(source: Path, r: Report, path: Name) {
    |source| >= 2 && source[|source| - 2] == "feedback" && Omittable(r, path)
  }

  const PREVIEW: Name := ["layout.png"]

  predicate ListedThere(sha: Digest, d: Disk, root: Path, name: Name) {
    Relative(name) && (name == PREVIEW || Read(sha, d, root + name).Content?)
  }

  /** A file of the recorded size, or retained bytes, or an excused omission. */
  predicate ReferenceThere(sha: Digest, d: Disk, source: Path, r: Report, ref: Ref) {
    ref.path != [] ==> Relative(ref.path) && SourceThere(sha, d, source, r, ref)
  }

  predicate SourceThere(sha: Digest, d: Disk, source: Path, r: Report, ref: Ref) {
    var p := source + ref.path;
    if p in d.files then |d.files[p]| == ref.identity.bytes
    else Read(sha, d, p).Content? || (Read(sha, d, p).Unavailable? && Excused(source, r, ref.path))
  }

  /** The reports that are looked at: every check's, and that of the evaluation of a run. */
  predicate Validated(d: Disk, root: Path, source: Path) {
    IsCheck(root, {}, source) || (source == root + ["evaluation"] && root + ["run.json"] in d.files)
  }

  /** The names that the archive's result lists. */
  function Listing(records: Records, d: Disk, root: Path): (names: seq<Name>) {
    if root + ["result.json"] in d.files && root in records.results then records.results[root] else []
  }

  predicate ListingThere(sha: Digest, d: Disk, root: Path, names: seq<Name>) {
    forall k :: 0 <= k < |names| ==> ListedThere(sha, d, root, names[k])
  }

  predicate ReportThere(sha: Digest, d: Disk, source: Path, r: Report) {
    forall k :: 0 <= k < |References(r)| ==> ReferenceThere(sha, d, source, r, References(r)[k])
  }

  predicate ReportsThere(sha: Digest, records: Records, d: Disk, root: Path) {
    forall source :: source in records.reports && Validated(d, root, source) ==>
      ReportThere(sha, d, source, records.reports[source])
  }

  /** Everything that the records refer to can be read, or was left out with its own report's leave. */
  predicate Admitted(sha: Digest, records: Records, d: Disk, root: Path) {
    ListingThere(sha, d, root, Listing(records, d, root)) && ReportsThere(sha, records, d, root)
  }

  // ---- The check -----------------------------------------------------------------------------

  method ValidateListing(sha: Digest, d: Disk, root: Path, names: seq<Name>) returns (ok: bool)
    ensures ok <==> ListingThere(sha, d, root, names)
  {
    hide Relative, Lookup;
    ok := true;
    var k := 0;
    while k < |names| && ok
      invariant k <= |names|
      invariant ok <==> forall j :: 0 <= j < k ==> ListedThere(sha, d, root, names[j])
    {
      ok := Relative(names[k]);
      if ok && names[k] != PREVIEW {
        var content := ReadFile(sha, d, root + names[k]);
        ok := content.Content?;
      }
      k := k + 1;
    }
  }

  lemma MalformedReport(sha: Digest, d: Disk, source: Path, r: Report)
    requires !WellFormed(AllAttachments(r))
    ensures !ReportThere(sha, d, source, r)
  {
    hide Relative, SourceThere;
    var a := AllAttachments(r);
    var k :| 0 <= k < |a| && a[k].ref.path != [] && !Relative(a[k].ref.path);
    assert References(r)[1 + |r.inputs| + k] == a[k].ref;
  }

  method ValidateReport(sha: Digest, d: Disk, source: Path, r: Report) returns (ok: bool)
    ensures ok <==> ReportThere(sha, d, source, r)
  {
    hide Relative, Omittable, References, WellFormed, Lookup;
    var allowed: map<Name, Identity> := map[];
    if |source| >= 2 && source[|source| - 2] == "feedback" {
      var o := ProcessOmissions(r);
      if o.None? {
        MalformedReport(sha, d, source, r);
        return false;
      }
      allowed := o.value;
    }
    assert forall path :: path in allowed <==> Excused(source, r, path);
    var refs := References(r);
    ok := true;
    var k := 0;
    while k < |refs| && ok
      invariant k <= |refs|
      invariant ok <==> forall j :: 0 <= j < k ==> ReferenceThere(sha, d, source, r, refs[j])
    {
      var ref := refs[k];
      if ref.path != [] {
        ok := Relative(ref.path);
        if ok {
          ok := ValidateSource(sha, d, source, r, ref, allowed);
        }
      }
      k := k + 1;
    }
  }

  method ValidateSource(sha: Digest, d: Disk, source: Path, r: Report, ref: Ref, allowed: map<Name, Identity>) returns (ok: bool)
    requires forall path :: path in allowed <==> Excused(source, r, path)
    ensures ok <==> SourceThere(sha, d, source, r, ref)
  {
    hide Excused, Lookup;
    var p := source + ref.path;
    if p in d.files {
      ok := |d.files[p]| == ref.identity.bytes;
    } else {
      var content := ReadFile(sha, d, p);
      ok := content.Content? || (content.Unavailable? && ref.path in allowed);
    }
  }

  /** The check before any cleanup: the result's files first, then the reports. */
  method ValidateSources(sha: Digest, records: Records, d: Disk, root: Path) returns (ok: bool)
    ensures ok <==> Admitted(sha, records, d, root)
  {
    hide ListingThere, ReportThere, Validated;
    ok := ValidateListing(sha, d, root, Listing(records, d, root));
    if ok {
      var todo := records.reports.Keys;
      while todo != {} && ok
        invariant todo <= records.reports.Keys
        invariant ok <==> forall source :: source in records.reports && source !in todo && Validated(d, root, source) ==>
          ReportThere(sha, d, source, records.reports[source])
        decreases |todo|
      {
        var source :| source in todo;
        todo := todo - {source};
        if Validated(d, root, source) {
          ok := ValidateReport(sha, d, source, records.reports[source]);
        }
      }
    }
  }

  // ---- The check again, later ----------------------------------------------------------------

  /** Reading says that the path was left out. */
  predicate LeftOut(sha: Digest, d: Disk, p: Path) { Read(sha, d, p) == Unavailable }

  predicate ListingSpared(sha: Digest, d: Disk, root: Path, names: seq<Name>) {
    forall k :: 0 <= k < |names| ==> names[k] == PREVIEW || !LeftOut(sha, d, root + names[k])
  }

  predicate ReportSpared(sha: Digest, d: Disk, source: Path, r: Report) {
    forall k :: 0 <= k < |References(r)| ==> ReferenceSpared(sha, d, source, r, References(r)[k])
  }

  predicate ReferenceSpared(sha: Digest, d: Disk, source: Path, r: Report, ref: Ref) {
    ref.path != [] && LeftOut(sha, d, source + ref.path) ==> Excused(source, r, ref.path)
  }

  /** The result lists nothing that was left out, and a report refers to nothing left out without its own leave. */
  predicate Spared(sha: Digest, records: Records, d: Disk, root: Path) {
    && ListingSpared(sha, d, root, Listing(records, d, root))
    && forall source :: source in records.reports && Validated(d, root, source) ==>
      ReportSpared(sha, d, source, records.reports[source])
  }

  /** In an intact state whatever can be read, or was left out, was there before. */
  lemma ReadWasThere(sha: Digest, past: Past, d: Disk, p: Path)
    requires Intact(sha, past, d) && (Read(sha, d, p).Content? || Read(sha, d, p).Unavailable?)
    ensures p in past.original
  {
    hide Genuine, Complete;
    if p !in d.files {
      LookupWasThere(sha, past, d, p, |p| - 1);
    }
  }

  lemma {:induction false} LookupWasThere(sha: Digest, past: Past, d: Disk, p: Path, k: nat)
    requires ManifestsTruthful(sha, past, d) && k < |p| && !Lookup(sha, d, p, k).Missing?
    ensures p in past.original
  {
    hide Allowed, FromManifest;
    if Covers(d, p, k) {
      assert Truthful(sha, past, d, p[..k], d.manifests[p[..k]]);
      assert p[..k] + p[k..] == p;
    } else if k > 0 {
      LookupWasThere(sha, past, d, p, k - 1);
    }
  }

  /** A path that could be read is, in a later intact state with no new files, there, retained or left out. */
  lemma ReadLater(sha: Digest, past: Past, d: Disk, e: Disk, p: Path)
    requires Identifying(sha) && Intact(sha, past, d) && Intact(sha, past, e) && e.files.Keys <= d.files.Keys
    requires Read(sha, d, p).Content? || Read(sha, d, p).Unavailable?
    ensures Read(sha, e, p).Content? || LeftOut(sha, e, p)
    ensures p in e.files ==> d.files[p] == e.files[p]
  {
    hide Identifying, Genuine, Complete, ManifestsTruthful, Lookup, Omitted, Allowed;
    ReadWasThere(sha, past, d, p);
    assert Safe(sha, past, e, p) by {
      IntactIsSafe(sha, past, e, p);
    }
  }

  lemma ListingLater(sha: Digest, past: Past, d: Disk, e: Disk, root: Path, names: seq<Name>)
    requires Identifying(sha) && Intact(sha, past, d) && Intact(sha, past, e) && e.files.Keys <= d.files.Keys
    requires ListingThere(sha, d, root, names)
    ensures ListingThere(sha, e, root, names) <==> ListingSpared(sha, e, root, names)
  {
    hide Identifying, Intact, Relative, Read;
    forall k | 0 <= k < |names|
      ensures ListedThere(sha, e, root, names[k]) <==> names[k] == PREVIEW || !LeftOut(sha, e, root + names[k])
    {
      assert ListedThere(sha, d, root, names[k]);
      if names[k] != PREVIEW {
        ReadLater(sha, past, d, e, root + names[k]);
      }
    }
  }

  lemma ReportLater(sha: Digest, past: Past, d: Disk, e: Disk, source: Path, r: Report)
    requires Identifying(sha) && Intact(sha, past, d) && Intact(sha, past, e) && e.files.Keys <= d.files.Keys
    requires ReportThere(sha, d, source, r)
    ensures ReportThere(sha, e, source, r) <==> ReportSpared(sha, e, source, r)
  {
    hide Identifying, Intact, Relative, References, Excused, Lookup;
    var refs := References(r);
    forall k | 0 <= k < |refs|
      ensures ReferenceThere(sha, e, source, r, refs[k]) <==> ReferenceSpared(sha, e, source, r, refs[k])
    {
      assert ReferenceThere(sha, d, source, r, refs[k]);
      if refs[k].path != [] {
        ReadLater(sha, past, d, e, source + refs[k].path);
      }
    }
  }

  /**
   * An archive that was admitted once is admitted again, after any removals that keep it intact, exactly if nothing
   * that its result lists and nothing that a report refers to was left out without that report's leave.
   */
  lemma AdmittedAgain(sha: Digest, records: Records, past: Past, d: Disk, e: Disk, root: Path)
    requires Identifying(sha) && Intact(sha, past, d) && Intact(sha, past, e) && e.files.Keys <= d.files.Keys
    requires Admitted(sha, records, d, root)
    ensures Admitted(sha, records, e, root) <==> Spared(sha, records, e, root)
  {
    hide Identifying, Intact, ListingThere, ListingSpared, ReportThere, ReportSpared;
    assert ListingThere(sha, e, root, Listing(records, e, root)) <==> ListingSpared(sha, e, root, Listing(records, e, root)) by {
      if Listing(records, e, root) == Listing(records, d, root) {
        ListingLater(sha, past, d, e, root, Listing(records, d, root));
      } else {
        assert Listing(records, e, root) == [];
        EmptyListing(sha, e, root);
      }
    }
    forall source | source in records.reports && Validated(e, root, source)
      ensures ReportThere(sha, e, source, records.reports[source]) <==> ReportSpared(sha, e, source, records.reports[source])
    {
      assert Validated(d, root, source);
      ReportLater(sha, past, d, e, source, records.reports[source]);
    }
  }

  lemma EmptyListing(sha: Digest, d: Disk, root: Path)
    ensures ListingThere(sha, d, root, []) && ListingSpared(sha, d, root, [])
  {
  }
}
