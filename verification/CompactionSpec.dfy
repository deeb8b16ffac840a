/** What a retention transaction lists, demands and promises, over the state of the disk. */
module CompactionSpec {
  import opened Prelude
  import opened Contents
  import opened Omissions
  import opened Retention
  import opened Admission

  datatype Action = Omit | Compress | Keep

  datatype Item = Item(name: Name, action: Action)

  datatype CompactError = Interrupted | NotTerminal | NotAdmitted | PinnedOmission | AttachmentChanged | AddressedChanged | BadReport

  /** One run: which archive, which checks are pinned, whether its record is terminal, and how many disk operations it gets. */
  datatype Request = Request(root: Path, keep: set<string>, terminal: bool, steps: nat)

  // ---- Classification ------------------------------------------------------------------------

  const MIN_BYTES := 65536
  const MAX_JSON := 16777216

  predicate Suffixed(part: string, suffix: string) { EndsWith(part, suffix) && |part| > |suffix| }

  /** Large files, but not terminal records, layouts, images or moderate JSON. */
  predicate Compressible(name: Name, size: nat)
    requires name != []
  {
    var part := name[|name| - 1];
    && size >= MIN_BYTES && name != ["run.json"] && name != ["result.json"]
    && !Suffixed(part, ".gds") && !Suffixed(part, ".png")
    && !(Suffixed(part, ".json") && size < MAX_JSON)
  }

  function ActionFor(name: Name, size: nat, prunable: bool): (a: Action)
    requires name != []
  {
    if prunable then Omit else if Compressible(name, size) then Compress else Keep
  }

  predicate Skipped(part: string) { part in [".retained", ".runtime", ".private", "__pycache__", ".objects"] }

  /** The walk reports a file unless it is hidden, a lock, or below a skipped directory. */
  predicate Visible(name: Name) {
    && name != []
    && (forall k :: 0 <= k < |name| - 1 ==> !Skipped(name[k]))
    && !(|name[|name| - 1]| > 0 && name[|name| - 1][0] == '.') && !EndsWith(name[|name| - 1], ".lock")
  }

  /** A file name that is itself a digest. */
  predicate Addressed(name: Name)
    requires name != []
  {
    IsDigest(name[|name| - 1])
  }

  /** The file may be left out: an unpinned check's report allows it. */
  predicate Candidate(reports: map<Path, Report>, root: Path, keep: set<string>, name: Name) {
    && |name| >= 2 && name[0] == "feedback" && name[1] !in keep && |name[1]| >= 6 && name[1][..6] == "check-"
    && root + name[..2] in reports && Omittable(reports[root + name[..2]], name[2..])
  }

  lemma CandidateAllowed(reports: map<Path, Report>, root: Path, keep: set<string>, name: Name)
    requires Candidate(reports, root, keep, name)
    ensures Allowed(reports, root + name)
  {
    hide Omittable;
    var p, k := root + name, |root| + 2;
    assert p[..k] == root + name[..2] && p[k..] == name[2..] && p[k - 2] == name[0];
    assert AllowedAt(reports, p, k);
  }

  function Recording(reports: map<Path, Report>, root: Path, name: Name): (i: Option<Identity>) {
    if |name| >= 2 && root + name[..2] in reports && Named(AllAttachments(reports[root + name[..2]]), name[2..], true) then
      Some(Recorded(AllAttachments(reports[root + name[..2]]), name[2..]))
    else None
  }

  function Record(m: Manifest, name: Name): (i: Identity)
    requires Lists(m, name)
  {
    if name in m.files then m.files[name] else m.omitted[name]
  }

  predicate Grown(m: Manifest, n: Manifest) {
    (forall name :: name in m.files ==> name in n.files) && forall name :: name in m.omitted ==> name in n.omitted
  }

  lemma GrownSelf(m: Manifest)
    ensures Grown(m, m)
  {
  }

  lemma GrownThrough(a: Manifest, b: Manifest, c: Manifest)
    requires Grown(a, b) && Grown(b, c)
    ensures Grown(a, c)
  {
  }

  lemma GrownSets(m: Manifest, n: Manifest)
    requires Grown(m, n)
    ensures forall name :: name in m.omitted ==> name in n.omitted
  {
  }

  lemma GrownLists(m: Manifest, n: Manifest)
    requires Grown(m, n)
    ensures forall name :: Lists(m, name) ==> Lists(n, name)
  {
  }

  /** The manifest that a transaction starts from. */
  function Existing(manifests: map<Path, Manifest>, root: Path): (m: Manifest) {
    if root in manifests then manifests[root] else Manifest(map[], map[])
  }

  /** The name, relative to the directory at length `k`, of something below `root`. */
  predicate Below(root: Path, k: nat, name: Name)
    requires k <= |root|
  {
    |name| > |root| - k && name[..|root| - k] == root[k..]
  }

  function Local(root: Path, k: nat, name: Name): (n: Name)
    requires k <= |root| && Below(root, k, name)
  {
    name[|root| - k..]
  }

  /** Listed by the archive, or by a directory of length `k` or more above it. */
  ghost predicate ListedDownTo(manifests: map<Path, Manifest>, root: Path, k: nat, name: Name)
    requires k <= |root|
    decreases |root| - k
  {
    if k == |root| then Lists(Existing(manifests, root), name)
    else
      || ListedDownTo(manifests, root, k + 1, name)
      || (root[..k] in manifests && Lists(manifests[root[..k]], root[k..] + name))
  }

  /** Omitted by the archive, or else by the nearest directory above it that lists the name, which has no object for it. */
  ghost predicate OmittedDownTo(manifests: map<Path, Manifest>, root: Path, k: nat, name: Name)
    requires k <= |root|
    decreases |root| - k
  {
    if k == |root| then name in Existing(manifests, root).omitted
    else
      || OmittedDownTo(manifests, root, k + 1, name)
      || (!ListedDownTo(manifests, root, k + 1, name) && OmitsOnly(manifests, root[..k], root[k..] + name))
  }

  predicate OmitsOnly(manifests: map<Path, Manifest>, root: Path, name: Name) {
    root in manifests && name in manifests[root].omitted && name !in manifests[root].files
  }

  /** What has been taken over from the directories of length `k` and more. */
  ghost predicate TakenDownTo(manifests: map<Path, Manifest>, root: Path, k: nat, n: Manifest)
    requires k <= |root|
  {
    forall name :: name != [] ==>
      && (Lists(n, name) <==> ListedDownTo(manifests, root, k, name))
      && (name in n.omitted <==> OmittedDownTo(manifests, root, k, name))
  }

  /** `n` is `m` with the named records, below `suffix`, that `m` does not list. */
  ghost predicate Taken(done: set<Name>, suffix: Name, isFiles: bool, m: Manifest, n: Manifest) {
    forall name :: name != [] ==>
      && (Lists(n, name) <==> Lists(m, name) || suffix + name in done)
      && (name in n.omitted <==> name in m.omitted || (!isFiles && !Lists(m, name) && suffix + name in done))
  }

  /** The new manifest has one more name in one of its groups. */
  predicate Gains(m: Manifest, n: Manifest, name: Name, isFiles: bool) {
    && n.files.Keys == m.files.Keys + (if isFiles then {name} else {})
    && n.omitted.Keys == m.omitted.Keys + (if isFiles then {} else {name})
  }

  lemma TakenNothing(suffix: Name, isFiles: bool, m: Manifest)
    ensures Taken({}, suffix, isFiles, m, m)
  {
  }

  lemma TakenOne(root: Path, k: nat, done: set<Name>, name: Name, isFiles: bool, m: Manifest, n: Manifest, next: Manifest)
    requires k <= |root| && Taken(done, root[k..], isFiles, m, n)
    requires
      if Below(root, k, name) && !Lists(n, Local(root, k, name)) then Gains(n, next, Local(root, k, name), isFiles)
      else next == n
    ensures Taken(done + {name}, root[k..], isFiles, m, next)
  {
    forall x | x != [] ensures root[k..] + x == name <==> Below(root, k, name) && Local(root, k, name) == x {
      assert (root[k..] + x)[|root| - k..] == x;
    }
  }

  lemma TakenFromSelf(manifests: map<Path, Manifest>, root: Path)
    ensures TakenDownTo(manifests, root, |root|, Existing(manifests, root))
  {
  }

  lemma LevelTaken(manifests: map<Path, Manifest>, root: Path, k: nat, m: Manifest, half: Manifest, n: Manifest)
    requires k < |root| && TakenDownTo(manifests, root, k + 1, m) && root[..k] in manifests
    requires Taken(manifests[root[..k]].files.Keys, root[k..], true, m, half)
    requires Taken(manifests[root[..k]].omitted.Keys, root[k..], false, half, n)
    ensures TakenDownTo(manifests, root, k, n)
  {
  }

  lemma LevelSkipped(manifests: map<Path, Manifest>, root: Path, k: nat, m: Manifest)
    requires k < |root| && TakenDownTo(manifests, root, k + 1, m) && root[..k] !in manifests
    ensures TakenDownTo(manifests, root, k, m)
  {
  }

  /** How many records the directories of length less than `k` hold. */
  function Above(manifests: map<Path, Manifest>, root: Path, k: nat): (n: nat)
    requires k <= |root|
  {
    if k == 0 then 0
    else
      Above(manifests, root, k - 1)
      + (if root[..k - 1] in manifests then |manifests[root[..k - 1]].files| + |manifests[root[..k - 1]].omitted| else 0)
  }

  /** Disk operations that are certainly enough for one run. */
  function Enough(d: Disk, root: Path): (n: nat) { Above(d.manifests, root, |root|) + 2 * |d.files| + 1 }

  /** Everything that the directory at length `k` lists below `root` is listed. */
  ghost predicate Inherited(d: Disk, root: Path, k: nat, n: Manifest)
    requires k <= |root|
  {
    root[..k] in d.manifests ==>
      forall name :: Lists(d.manifests[root[..k]], name) && Below(root, k, name) ==> Lists(n, Local(root, k, name))
  }

  lemma BothGroups(d: Disk, root: Path, k: nat, half: Manifest, n: Manifest)
    requires k <= |root| && root[..k] in d.manifests && Grown(half, n)
    requires forall name :: name in d.manifests[root[..k]].files && Below(root, k, name) ==> Lists(half, Local(root, k, name))
    requires forall name :: name in d.manifests[root[..k]].omitted && Below(root, k, name) ==> Lists(n, Local(root, k, name))
    ensures Inherited(d, root, k, n)
  {
    hide Below, Local, Grown;
    GrownLists(half, n);
  }

  lemma StaysInherited(d: Disk, root: Path, from: nat, m: Manifest, n: Manifest)
    requires from <= |root| && Grown(m, n) && forall j :: from <= j < |root| ==> Inherited(d, root, j, m)
    ensures forall j :: from <= j < |root| ==> Inherited(d, root, j, n)
  {
    hide Below, Local, Grown, Lists;
    GrownLists(m, n);
    forall j | from <= j < |root| ensures Inherited(d, root, j, n) {
      assert Inherited(d, root, j, m);
    }
  }

  lemma InheritedElsewhere(d: Disk, e: Disk, root: Path, n: Manifest)
    requires d.manifests == e.manifests && forall j :: 0 <= j < |root| ==> Inherited(d, root, j, n)
    ensures forall j :: 0 <= j < |root| ==> Inherited(e, root, j, n)
  {
    hide Lists, Below, Local;
    forall j | 0 <= j < |root| ensures Inherited(e, root, j, n) {
      assert Inherited(d, root, j, n);
    }
  }

  /** A parent's record of something below `root` says the same about the same path seen from `root`. */
  lemma ParentRecord(sha: Digest, past: Past, d: Disk, root: Path, k: nat, name: Name)
    requires Intact(sha, past, d) && k <= |root| && root[..k] in d.manifests && Below(root, k, name)
    ensures
      var m, local := d.manifests[root[..k]], Local(root, k, name);
      && (name in m.files ==>
        && Key(root[..k], m.files[name].sha256) in d.objects
        && sha(d.objects[Key(root[..k], m.files[name].sha256)]) == m.files[name].sha256
        && local != [] && root + local in past.original && m.files[name] == IdentityOf(sha, past.original[root + local]))
      && (name in m.omitted ==> OmissionRecord(sha, past, root, local, m.omitted[name]))
  {
    hide Allowed, Complete, Unchanged;
    assert Truthful(sha, past, d, root[..k], d.manifests[root[..k]]);
    var local := Local(root, k, name);
    assert root + local == root[..k] + name;
  }

  lemma AddFile(sha: Digest, past: Past, d: Disk, root: Path, m: Manifest, name: Name, id: Identity)
    requires Truthful(sha, past, d, root, m)
    requires name != [] && root + name in past.original && id == IdentityOf(sha, past.original[root + name])
    requires Key(root, id.sha256) in d.objects
    ensures
      var n := m.(files := m.files[name := id]);
      Truthful(sha, past, d, root, n) && Grown(m, n) && Lists(n, name)
  {
    hide Allowed, OmissionRecord;
  }

  lemma AddOmission(sha: Digest, past: Past, d: Disk, root: Path, m: Manifest, name: Name, id: Identity)
    requires Truthful(sha, past, d, root, m) && OmissionRecord(sha, past, root, name, id)
    ensures
      var n := m.(omitted := m.omitted[name := id]);
      Truthful(sha, past, d, root, n) && Grown(m, n) && Lists(n, name)
  {
    hide Allowed, FileRecord, OmissionRecord;
  }

  /** A kept or compressed file that is named by a digest has that digest. */
  predicate AddressHolds(sha: Digest, name: Name, content: Bytes)
    requires name != []
  {
    Addressed(name) ==> sha(content) == name[|name| - 1]
  }

  /** The omission belongs to a pinned check, or to no check at all. */
  predicate Pinned(keep: set<string>, name: Name) { |name| < 2 || name[1] in keep }

  predicate NonePinned(keep: set<string>, names: set<Name>) { forall name :: name in names ==> !Pinned(keep, name) }

  // ---- What a run demands --------------------------------------------------------------------

  /** The report does not fail to be read for its omissions. */
  predicate Usable(r: Report) { FullyPassed(r) ==> WellFormed(AllAttachments(r)) }

  predicate UsableReports(reports: map<Path, Report>, root: Path, keep: set<string>) {
    forall check :: check in reports && IsCheck(root, keep, check) ==> Usable(reports[check])
  }

  /** A candidate has the identity its report records, and any other file that is named by a digest has that digest. */
  predicate Sound(sha: Digest, reports: map<Path, Report>, root: Path, keep: set<string>, name: Name, content: Bytes)
    requires name != []
  {
    if Candidate(reports, root, keep, name) then Recording(reports, root, name) == Some(IdentityOf(sha, content))
    else AddressHolds(sha, name, content)
  }

  ghost predicate SoundFiles(sha: Digest, reports: map<Path, Report>, d: Disk, root: Path, keep: set<string>) {
    forall name :: Visible(name) && root + name in d.files ==> Sound(sha, reports, root, keep, name, d.files[root + name])
  }

  /** No check that is pinned now was left out before, by the archive or by a directory that it takes over from. */
  ghost predicate PinnedAvailable(manifests: map<Path, Manifest>, root: Path, keep: set<string>) {
    forall name :: name != [] && OmittedDownTo(manifests, root, 0, name) ==> !Pinned(keep, name)
  }

  /** A run that gets enough disk operations completes. */
  ghost predicate Acceptable(sha: Digest, records: Records, d: Disk, root: Path, keep: set<string>) {
    && UsableReports(records.reports, root, keep)
    && Admitted(sha, records, d, root)
    && PinnedAvailable(d.manifests, root, keep)
    && SoundFiles(sha, records.reports, d, root, keep)
  }

  /** The result lists nothing, and a report refers to nothing without its own leave, that is or will be left out. */
  ghost predicate Undisturbed(records: Records, d: Disk, root: Path, keep: set<string>) {
    && ListingKept(records.reports, d, root, keep, Listing(records, d, root))
    && forall source :: source in records.reports && Validated(d, root, source) ==> ReportKept(d, source, records.reports[source])
  }

  ghost predicate ListingKept(reports: map<Path, Report>, d: Disk, root: Path, keep: set<string>, names: seq<Name>) {
    forall k :: 0 <= k < |names| ==>
      names[k] == PREVIEW || (!Omitted(d, root + names[k]) && !Candidate(reports, root, keep, names[k]))
  }

  ghost predicate ReportKept(d: Disk, source: Path, r: Report) {
    forall k :: 0 <= k < |References(r)| ==> ReferenceKept(d, source, r, References(r)[k].path)
  }

  ghost predicate ReferenceKept(d: Disk, source: Path, r: Report, path: Name) {
    path != [] && Omitted(d, source + path) ==> Excused(source, r, path)
  }

  // ---- What a run achieves -------------------------------------------------------------------

  /** The manifest leaves out every candidate and compresses every other large file. */
  predicate Retained(reports: map<Path, Report>, root: Path, keep: set<string>, name: Name, size: nat, m: Manifest)
    requires name != []
  {
    if Candidate(reports, root, keep, name) then name in m.omitted
    else Compressible(name, size) ==> name in m.files
  }

  ghost predicate RetainedFiles(
    reports: map<Path, Report>, root: Path, keep: set<string>, files: map<Path, Bytes>, m: Manifest)
  {
    forall name :: Visible(name) && root + name in files ==> Retained(reports, root, keep, name, |files[root + name]|, m)
  }

  /** The manifest has objects only for what was listed already and for large files. */
  ghost predicate CompressesOnly(manifests: map<Path, Manifest>, root: Path, files: map<Path, Bytes>, m: Manifest) {
    forall name :: name in m.files ==>
      name != [] && (ListedDownTo(manifests, root, 0, name) || (root + name in files && Compressible(name, |files[root + name]|)))
  }

  /** The manifest omits only what it omitted, or took over as omitted, and candidates. */
  ghost predicate OmitsOnlyThese(
    reports: map<Path, Report>, manifests: map<Path, Manifest>, root: Path, keep: set<string>, m: Manifest)
  {
    forall name :: name in m.omitted ==> name != [] && (OmittedDownTo(manifests, root, 0, name) || Candidate(reports, root, keep, name))
  }

  function Prefixed(prefix: Name, found: map<Name, Identity>): (r: map<Name, Identity>) {
    map name | name in set n | n in found :: prefix + n :: found[name[|prefix|..]]
  }

  /** Every listed object verifies, and every remaining original is the recorded one. */
  predicate RecordVerifies(sha: Digest, d: Disk, root: Path, name: Name, id: Identity) {
    Verified(sha, d, root, id).Content? && (root + name in d.files ==> IdentityOf(sha, d.files[root + name]) == id)
  }

  predicate Verifies(sha: Digest, d: Disk, root: Path)
    requires root in d.manifests
  {
    forall name :: name in d.manifests[root].files ==> RecordVerifies(sha, d, root, name, d.manifests[root].files[name])
  }

  lemma PrefixedMeans(prefix: Name, found: map<Name, Identity>, name: Name)
    ensures name in Prefixed(prefix, found) <==> |prefix| <= |name| && name[..|prefix|] == prefix && name[|prefix|..] in found
    ensures name in Prefixed(prefix, found) ==> Prefixed(prefix, found)[name] == found[name[|prefix|..]]
  {
    if |prefix| <= |name| && name[..|prefix|] == prefix && name[|prefix|..] in found {
      assert prefix + name[|prefix|..] == name;
    }
    if name in Prefixed(prefix, found) {
      var n :| n in found && prefix + n == name;
      assert name[|prefix|..] == n;
    }
  }

  lemma CheckOfCandidate(root: Path, keep: set<string>, check: Path, name: Name)
    requires |name| >= 2
    ensures root + name[..2] == check <==> |check| == |root| + 2 && check[..|root|] == root && name[..2] == check[|root|..]
  {
    if |check| == |root| + 2 && check[..|root|] == root && name[..2] == check[|root|..] {
      assert check == check[..|root|] + check[|root|..];
    }
  }

  lemma PrefixedCandidates(
    reports: map<Path, Report>, root: Path, keep: set<string>, check: Path, before: map<Name, Identity>,
    found: map<Name, Identity>, after: map<Name, Identity>, todo: set<Path>)
    requires check in reports && check !in todo && IsCheck(root, keep, check)
    requires after == before + Prefixed(check[|root|..], found)
    requires forall n :: n in found <==> Omittable(reports[check], n)
    requires forall n :: n in found ==>
      Named(AllAttachments(reports[check]), n, true) && found[n] == Recorded(AllAttachments(reports[check]), n)
    requires forall name :: name in before <==> Candidate(reports, root, keep, name) && root + name[..2] !in todo + {check}
    requires forall name :: name in before ==> Some(before[name]) == Recording(reports, root, name)
    ensures forall name :: name in after <==> Candidate(reports, root, keep, name) && root + name[..2] !in todo
    ensures forall name :: name in after ==> Some(after[name]) == Recording(reports, root, name)
  {
    hide Omittable, Recorded, Named, Prefixed, AllAttachments;
    var prefix := check[|root|..];
    forall name
      ensures name in after <==> Candidate(reports, root, keep, name) && root + name[..2] !in todo
      ensures name in after ==> Some(after[name]) == Recording(reports, root, name)
    {
      PrefixedMeans(prefix, found, name);
      if |name| >= 2 {
        CheckOfCandidate(root, keep, check, name);
      }
    }
  }

  lemma NotACheck(reports: map<Path, Report>, root: Path, keep: set<string>, check: Path)
    requires !IsCheck(root, keep, check)
    ensures forall name :: Candidate(reports, root, keep, name) ==> root + name[..2] != check
  {
    hide Omittable;
    forall name | Candidate(reports, root, keep, name) ensures root + name[..2] != check {
      CheckOfCandidate(root, keep, check, name);
    }
  }

  lemma RemainingOriginal(sha: Digest, past: Past, d: Disk, p: Path)
    requires Intact(sha, past, d) && p in d.files
    ensures p in past.original && d.files[p] == past.original[p]
  {
    hide Genuine, ManifestsTruthful, Complete;
  }

  lemma ExistingTruthful(sha: Digest, past: Past, d: Disk, root: Path)
    requires Intact(sha, past, d)
    ensures Truthful(sha, past, d, root, Existing(d.manifests, root))
  {
    hide Genuine, Unchanged, Complete;
  }

  lemma GrownExtends(d: Disk, root: Path, m: Manifest, n: Manifest)
    requires Grown(m, n) && (root in d.manifests ==> m == d.manifests[root])
    ensures Extends(d, root, n)
  {
  }

  lemma UnpinnedCandidates(reports: map<Path, Report>, root: Path, keep: set<string>, m: Manifest, n: Manifest)
    requires NonePinned(keep, m.omitted.Keys)
    requires forall name :: name in n.omitted && name !in m.omitted ==> Candidate(reports, root, keep, name)
    ensures NonePinned(keep, n.omitted.Keys)
  {
    hide Omittable;
  }

  /** The new files of the manifest are items to compress. */
  ghost predicate NewObjects(items: seq<Item>, m: Manifest, n: Manifest) {
    forall name :: name in n.files && name !in m.files ==> exists k :: 0 <= k < |items| && items[k] == Item(name, Compress)
  }

  lemma CompressesTaken(
    manifests: map<Path, Manifest>, root: Path, files: map<Path, Bytes>, m: Manifest, n: Manifest)
    requires TakenDownTo(manifests, root, 0, m) && forall name :: name in n.files ==> name != []
    requires forall name :: name in n.files && name !in m.files ==>
      name != [] && root + name in files && Compressible(name, |files[root + name]|)
    ensures CompressesOnly(manifests, root, files, n)
  {
    hide Compressible, OmittedDownTo, ListedDownTo;
  }

  lemma OmitsTaken(
    reports: map<Path, Report>, manifests: map<Path, Manifest>, root: Path, keep: set<string>, m: Manifest, n: Manifest)
    requires TakenDownTo(manifests, root, 0, m) && forall name :: name in n.omitted ==> name != []
    requires forall name :: name in n.omitted && name !in m.omitted ==> Candidate(reports, root, keep, name)
    ensures OmitsOnlyThese(reports, manifests, root, keep, n)
  {
    hide Candidate, OmittedDownTo, ListedDownTo;
  }

  lemma PinnedExactly(manifests: map<Path, Manifest>, root: Path, keep: set<string>, m: Manifest)
    requires TakenDownTo(manifests, root, 0, m) && forall name :: name in m.omitted ==> name != []
    ensures PinnedAvailable(manifests, root, keep) <==> NonePinned(keep, m.omitted.Keys)
  {
    hide OmittedDownTo, ListedDownTo;
  }

  lemma TruthfulNames(sha: Digest, past: Past, d: Disk, root: Path, m: Manifest)
    requires Truthful(sha, past, d, root, m)
    ensures forall name :: name in m.omitted ==> name != []
    ensures forall name :: name in m.files ==> name != []
  {
    hide Allowed;
  }

  lemma SoundElsewhere(sha: Digest, reports: map<Path, Report>, d: Disk, e: Disk, root: Path, keep: set<string>)
    requires d.files == e.files
    ensures SoundFiles(sha, reports, d, root, keep) <==> SoundFiles(sha, reports, e, root, keep)
  {
    hide Visible, Sound;
  }

  lemma ListedKeys(m: Manifest)
    ensures forall name :: Lists(m, name) <==> name in m.files.Keys + m.omitted.Keys
  {
  }

  lemma ListedNames(sha: Digest, past: Past, d: Disk, root: Path, name: Name)
    requires Intact(sha, past, d) && root in d.manifests && Lists(d.manifests[root], name)
    ensures name != []
    ensures root + name in d.files ==> IdentityOf(sha, d.files[root + name]) == Record(d.manifests[root], name)
  {
    hide Genuine, Complete, Allowed;
    assert Truthful(sha, past, d, root, d.manifests[root]);
  }

  lemma SplitAt(root: Path, name: Name)
    ensures (root + name)[..|root|] == root && (root + name)[|root|..] == name
  {
  }

  lemma BelowOnly(root: Path, p: Path)
    ensures Under(root, p) ==> root + p[|root|..] == p && p[|root|..] != []
    ensures forall name :: name != [] && root + name == p ==> Under(root, p) && p[|root|..] == name
    ensures root != p ==> forall name :: root + name == p ==> name != []
    ensures forall name :: Visible(name) ==> name != []
  {
    hide Skipped, EndsWith;
    forall name | name != [] && root + name == p ensures Under(root, p) && p[|root|..] == name {
      SplitAt(root, name);
    }
  }

  /** In an intact state verification cannot fail. */
  lemma IntactVerifies(sha: Digest, past: Past, d: Disk, root: Path)
    requires Identifying(sha) && Intact(sha, past, d) && root in d.manifests
    ensures Verifies(sha, d, root)
  {
    hide Complete, Allowed, OmissionRecord;
    assert Truthful(sha, past, d, root, d.manifests[root]);
    forall name | name in d.manifests[root].files
      ensures RecordVerifies(sha, d, root, name, d.manifests[root].files[name])
    {
      assert FileRecord(sha, past, d, root, name, d.manifests[root].files[name]);
    }
  }

  /** With everything inherited, the committed manifest lists every removed file below its root. */
  lemma CommittedIndependent(sha: Digest, past: Past, d: Disk, e: Disk, root: Path, m: Manifest)
    requires Intact(sha, past, d) && e == d.(manifests := d.manifests[root := m]) && Extends(d, root, m)
    requires forall k :: 0 <= k < |root| ==> Inherited(d, root, k, m)
    ensures Independent(past, e, root)
  {
    hide Genuine, ManifestsTruthful, Unchanged, Inherited;
    forall p | p in past.original && Under(root, p) && p !in e.files ensures ListedFrom(e, p, |root|) {
      var k :| 0 <= k < |p| && Covers(d, p, k);
      if k < |root| {
        InheritedCovers(d, root, k, m, p);
        assert p[..|root|] == root;
        assert Covers(e, p, |root|);
      } else {
        assert Covers(e, p, k);
      }
    }
  }

  lemma InheritedCovers(d: Disk, root: Path, k: nat, m: Manifest, p: Path)
    requires k < |root| && Inherited(d, root, k, m) && Under(root, p) && Covers(d, p, k)
    ensures Lists(m, p[|root|..])
  {
    var name := p[k..];
    assert p[..k] == root[..k];
    assert name[..|root| - k] == root[k..];
    assert Below(root, k, name) && Local(root, k, name) == p[|root|..];
  }

  /** Removing only what the root's manifest lists keeps the archive independent. */
  lemma RemovalIndependent(sha: Digest, past: Past, d: Disk, e: Disk, root: Path)
    requires Independent(past, d, root) && e.manifests == d.manifests && e.files.Keys <= d.files.Keys
    requires forall p :: p in d.files && p !in e.files ==> Under(root, p) ==> Covers(d, p, |root|)
    ensures Independent(past, e, root)
  {
    forall p | p in past.original && Under(root, p) && p !in e.files ensures ListedFrom(e, p, |root|) {
      if p in d.files {
        assert Covers(e, p, |root|);
      } else {
        var k :| |root| <= k < |p| && Covers(d, p, k);
        assert Covers(e, p, k);
      }
    }
  }

  // ---- Running again -------------------------------------------------------------------------

  /** The archive's manifest is as it was, or is one that leaves out nothing pinned and takes over everything. */
  ghost predicate Advanced(reports: map<Path, Report>, d: Disk, e: Disk, root: Path, keep: set<string>) {
    e.files.Keys <= d.files.Keys && (e.manifests == d.manifests || exists m :: Replaced(reports, d, e, root, keep, m))
  }

  ghost predicate Replaced(reports: map<Path, Report>, d: Disk, e: Disk, root: Path, keep: set<string>, m: Manifest) {
    && e.manifests == d.manifests[root := m] && NonePinned(keep, m.omitted.Keys)
    && (forall k :: 0 <= k < |root| ==> Inherited(d, root, k, m))
    && OmitsOnlyThese(reports, d.manifests, root, keep, m)
  }

  /** A manifest that took over everything takes over nothing more. */
  lemma {:induction false} TakesNoMore(
    reports: map<Path, Report>, d: Disk, e: Disk, root: Path, keep: set<string>, m: Manifest, k: nat, name: Name)
    requires Replaced(reports, d, e, root, keep, m) && k <= |root| && name != []
    ensures Lists(m, name) <==> ListedDownTo(e.manifests, root, k, name)
    ensures name in m.omitted <==> OmittedDownTo(e.manifests, root, k, name)
    decreases |root| - k
  {
    hide OmitsOnlyThese, NonePinned;
    if k < |root| {
      TakesNoMore(reports, d, e, root, keep, m, k + 1, name);
      var x := root[k..] + name;
      assert Inherited(d, root, k, m);
      assert x[|root| - k..] == name && x[..|root| - k] == root[k..];
      assert Below(root, k, x) && Local(root, k, x) == name;
    }
  }

  lemma SoundLater(sha: Digest, reports: map<Path, Report>, past: Past, d: Disk, e: Disk, root: Path, keep: set<string>)
    requires Intact(sha, past, d) && Intact(sha, past, e) && e.files.Keys <= d.files.Keys
    requires SoundFiles(sha, reports, d, root, keep)
    ensures SoundFiles(sha, reports, e, root, keep)
  {
    hide Genuine, Complete, ManifestsTruthful, Visible, Sound;
    BelowOnly(root, root);
    forall name | Visible(name) && root + name in e.files ensures Sound(sha, reports, root, keep, name, e.files[root + name]) {
      assert root + name in d.files && d.files[root + name] == e.files[root + name];
    }
  }

  /**
   * After a run that was stopped anywhere, an acceptable archive is acceptable again exactly if nothing that its records
   * refer to was left out without leave.
   */
  lemma AcceptableAgain(sha: Digest, records: Records, past: Past, d: Disk, e: Disk, root: Path, keep: set<string>)
    requires Identifying(sha) && Intact(sha, past, d) && Intact(sha, past, e) && Acceptable(sha, records, d, root, keep)
    requires Advanced(records.reports, d, e, root, keep)
    ensures Acceptable(sha, records, e, root, keep) <==> Spared(sha, records, e, root)
  {
    hide Identifying, Intact, Admitted, Spared, SoundFiles, UsableReports, Replaced, Pinned, OmittedDownTo;
    AdmittedAgain(sha, records, past, d, e, root);
    SoundLater(sha, records.reports, past, d, e, root, keep);
    if e.manifests != d.manifests {
      var m :| Replaced(records.reports, d, e, root, keep, m);
      forall name | name != [] && OmittedDownTo(e.manifests, root, 0, name) ensures !Pinned(keep, name) {
        TakesNoMore(records.reports, d, e, root, keep, m, 0, name);
        ReplacedPins(records.reports, d, e, root, keep, m, name);
      }
    }
  }

  lemma ReplacedPins(reports: map<Path, Report>, d: Disk, e: Disk, root: Path, keep: set<string>, m: Manifest, name: Name)
    requires Replaced(reports, d, e, root, keep, m) && name in m.omitted
    ensures !Pinned(keep, name)
  {
    hide Pinned, Inherited, OmitsOnlyThese;
  }

  lemma {:induction false} TakenWasOmitted(d: Disk, root: Path, k: nat, name: Name)
    requires k <= |root| && name != [] && OmittedDownTo(d.manifests, root, k, name)
    ensures Omitted(d, root + name)
    decreases |root| - k
  {
    var p := root + name;
    assert p[..k] == root[..k] && p[k..] == root[k..] + name;
    if k == |root| {
      assert OmittedAt(d, p, k);
    } else if OmittedDownTo(d.manifests, root, k + 1, name) {
      TakenWasOmitted(d, root, k + 1, name);
    } else {
      assert OmittedAt(d, p, k);
    }
  }

  /** What a run leaves out below its archive was left out before, or is a candidate. */
  lemma OmittedLater(reports: map<Path, Report>, d: Disk, e: Disk, root: Path, keep: set<string>, name: Name)
    requires Advanced(reports, d, e, root, keep) && name != [] && Omitted(e, root + name)
    ensures Omitted(d, root + name) || Candidate(reports, root, keep, name)
  {
    hide Candidate, OmittedDownTo, Inherited, NonePinned;
    var p := root + name;
    var k :| 0 <= k < |p| && OmittedAt(e, p, k);
    if OmittedAt(d, p, k) {
    } else {
      assert p[..k] == root;
      assert k == |root| && p[k..] == name;
      var m :| Replaced(reports, d, e, root, keep, m);
      if !Candidate(reports, root, keep, name) {
        TakenWasOmitted(d, root, 0, name);
      }
    }
  }

  lemma CandidateExcused(records: Records, d: Disk, root: Path, keep: set<string>, source: Path, path: Name)
    requires source in records.reports && Validated(d, root, source) && path != []
    requires |source| > |root| && Candidate(records.reports, root, keep, source[|root|..] + path)
    ensures Excused(source, records.reports[source], path)
  {
    hide Omittable;
    var name := source[|root|..] + path;
    assert name[0] == source[|root|];
    if IsCheck(root, {}, source) {
      assert name[..2] == source[|root|..] && name[2..] == path;
      assert root + name[..2] == source;
    }
  }

  lemma UndisturbedReport(
    records: Records, d: Disk, e: Disk, root: Path, keep: set<string>, source: Path)
    requires Advanced(records.reports, d, e, root, keep) && source in records.reports && Validated(d, root, source)
    requires ReportKept(d, source, records.reports[source])
    ensures ReportKept(e, source, records.reports[source])
  {
    hide Advanced, Omitted, Excused, Candidate, References;
    var r := records.reports[source];
    forall k | 0 <= k < |References(r)| ensures ReferenceKept(e, source, r, References(r)[k].path) {
      var path := References(r)[k].path;
      assert ReferenceKept(d, source, r, path);
      if path != [] && Omitted(e, source + path) {
        var name := source[|root|..] + path;
        assert source == root + source[|root|..];
        assert root + name == source + path;
        OmittedLater(records.reports, d, e, root, keep, name);
        if Candidate(records.reports, root, keep, name) {
          CandidateExcused(records, d, root, keep, source, path);
        }
      }
    }
  }

  lemma UndisturbedListing(reports: map<Path, Report>, d: Disk, e: Disk, root: Path, keep: set<string>, names: seq<Name>)
    requires Advanced(reports, d, e, root, keep) && ListingKept(reports, d, root, keep, names)
    requires forall k :: 0 <= k < |names| ==> names[k] != []
    ensures ListingKept(reports, e, root, keep, names)
  {
    hide Advanced, Omitted, Candidate;
    forall k | 0 <= k < |names|
      ensures names[k] == PREVIEW || (!Omitted(e, root + names[k]) && !Candidate(reports, root, keep, names[k]))
    {
      if names[k] != PREVIEW && Omitted(e, root + names[k]) {
        OmittedLater(reports, d, e, root, keep, names[k]);
      }
    }
  }

  lemma ListedNonempty(sha: Digest, records: Records, d: Disk, root: Path)
    requires Admitted(sha, records, d, root)
    ensures var names := Listing(records, d, root); forall k :: 0 <= k < |names| ==> names[k] != []
  {
    hide Read;
    var names := Listing(records, d, root);
    forall k | 0 <= k < |names| ensures names[k] != [] {
      assert ListedThere(sha, d, root, names[k]);
    }
  }

  /** A run disturbs nothing that was undisturbed. */
  lemma UndisturbedAgain(sha: Digest, records: Records, d: Disk, e: Disk, root: Path, keep: set<string>)
    requires Admitted(sha, records, d, root) && Undisturbed(records, d, root, keep)
    requires Advanced(records.reports, d, e, root, keep)
    ensures Undisturbed(records, e, root, keep)
  {
    hide Advanced, ListingKept, ReportKept, Admitted, Replaced;
    ListedNonempty(sha, records, d, root);
    FewerFiles(records.reports, d, e, root, keep);
    UndisturbedListing(records.reports, d, e, root, keep, Listing(records, d, root));
    if Listing(records, e, root) != Listing(records, d, root) {
      KeptNothing(records.reports, e, root, keep);
    }
    forall source | source in records.reports && Validated(e, root, source)
      ensures ReportKept(e, source, records.reports[source])
    {
      assert Validated(d, root, source);
      UndisturbedReport(records, d, e, root, keep, source);
    }
  }

  lemma FewerFiles(reports: map<Path, Report>, d: Disk, e: Disk, root: Path, keep: set<string>)
    requires Advanced(reports, d, e, root, keep)
    ensures e.files.Keys <= d.files.Keys
  {
    hide Replaced;
  }

  lemma KeptNothing(reports: map<Path, Report>, d: Disk, root: Path, keep: set<string>)
    ensures ListingKept(reports, d, root, keep, [])
  {
  }

  lemma LeftOutWasOmitted(sha: Digest, past: Past, d: Disk, p: Path)
    requires Identifying(sha) && Intact(sha, past, d) && LeftOut(sha, d, p)
    ensures Omitted(d, p)
  {
    hide Identifying, Intact, Omitted, Allowed, Read;
    ReadWasThere(sha, past, d, p);
    assert Safe(sha, past, d, p) by {
      IntactIsSafe(sha, past, d, p);
    }
  }

  lemma UndisturbedIsSpared(sha: Digest, records: Records, past: Past, d: Disk, root: Path, keep: set<string>)
    requires Identifying(sha) && Intact(sha, past, d) && Undisturbed(records, d, root, keep)
    ensures Spared(sha, records, d, root)
  {
    hide Identifying, Intact, Omitted, LeftOut, Candidate, References, Excused;
    forall p | LeftOut(sha, d, p) ensures Omitted(d, p) {
      LeftOutWasOmitted(sha, past, d, p);
    }
  }

  lemma AdvancesNowhere(reports: map<Path, Report>, d: Disk, root: Path, keep: set<string>)
    ensures Advanced(reports, d, d, root, keep)
  {
  }

  lemma ReplacedTwice(
    reports: map<Path, Report>, d: Disk, e: Disk, f: Disk, root: Path, keep: set<string>, m: Manifest, n: Manifest)
    requires Replaced(reports, d, e, root, keep, m) && Replaced(reports, e, f, root, keep, n)
    ensures Replaced(reports, d, f, root, keep, n)
  {
    hide NonePinned, Candidate, Below, Local, Lists, OmittedDownTo;
    forall k | 0 <= k < |root| ensures Inherited(d, root, k, n) {
      assert Inherited(e, root, k, n);
    }
    forall name | name in n.omitted
      ensures name != [] && (OmittedDownTo(d.manifests, root, 0, name) || Candidate(reports, root, keep, name))
    {
      TakesNoMore(reports, d, e, root, keep, m, 0, name);
    }
  }

  lemma AdvancesTwice(reports: map<Path, Report>, d: Disk, e: Disk, f: Disk, root: Path, keep: set<string>)
    requires Advanced(reports, d, e, root, keep) && Advanced(reports, e, f, root, keep)
    ensures Advanced(reports, d, f, root, keep)
  {
    hide Replaced;
    if e.manifests == d.manifests && f.manifests != e.manifests {
      var n :| Replaced(reports, e, f, root, keep, n);
      ReplacedFrom(reports, d, e, f, root, keep, n);
    } else if e.manifests != d.manifests {
      var m :| Replaced(reports, d, e, root, keep, m);
      if f.manifests == e.manifests {
        ReplacedTo(reports, d, e, f, root, keep, m);
      } else {
        var n :| Replaced(reports, e, f, root, keep, n);
        ReplacedTwice(reports, d, e, f, root, keep, m, n);
      }
    }
  }

  lemma ReplacedFrom(reports: map<Path, Report>, d: Disk, e: Disk, f: Disk, root: Path, keep: set<string>, m: Manifest)
    requires e.manifests == d.manifests && Replaced(reports, e, f, root, keep, m)
    ensures Replaced(reports, d, f, root, keep, m)
  {
    hide NonePinned, OmitsOnlyThese;
    InheritedElsewhere(e, d, root, m);
  }

  lemma ReplacedTo(reports: map<Path, Report>, d: Disk, e: Disk, f: Disk, root: Path, keep: set<string>, m: Manifest)
    requires Replaced(reports, d, e, root, keep, m) && f.manifests == e.manifests
    ensures Replaced(reports, d, f, root, keep, m)
  {
    hide NonePinned, OmitsOnlyThese, Inherited;
  }

  /** When the transaction can be run to its end after it was stopped anywhere, any number of times. */
  lemma RunsAgain(sha: Digest, records: Records, past: Past, d: Disk, e: Disk, root: Path, keep: set<string>)
    requires Identifying(sha) && Intact(sha, past, d) && Intact(sha, past, e) && Acceptable(sha, records, d, root, keep)
    requires Advanced(records.reports, d, e, root, keep)
    ensures Acceptable(sha, records, e, root, keep) <==> Spared(sha, records, e, root)
    ensures Undisturbed(records, d, root, keep) ==> Acceptable(sha, records, e, root, keep)
  {
    hide Identifying, Intact, Spared, Undisturbed, Advanced, Admitted, SoundFiles, UsableReports, PinnedAvailable;
    AcceptableAgain(sha, records, past, d, e, root, keep);
    if Undisturbed(records, d, root, keep) {
      UndisturbedAgain(sha, records, d, e, root, keep);
      UndisturbedIsSpared(sha, records, past, e, root, keep);
    }
  }
}
