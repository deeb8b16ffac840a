/** Retained archives: reading a file that was compressed or left out, and what keeps every file readable. */
module Retention {
  import opened Prelude
  import opened Contents
  import opened Omissions

  /** An absolute path as its components. */
  type Path = seq<string>

  /** Names are relative to the archive root. */
  datatype Manifest = Manifest(files: map<Name, Identity>, omitted: map<Name, Identity>)

  /** An object of an archive, by its root and digest; the value is what it decompresses to. */
  datatype Key = Key(root: Path, sha256: string)

  datatype Disk = Disk(files: map<Path, Bytes>, manifests: map<Path, Manifest>, objects: map<Key, Bytes>)

  datatype Reading = Content(bytes: Bytes) | Unavailable | Corrupt | Missing

  // ---- Reading -------------------------------------------------------------------------------

  /** The bytes of an object, if it is there and has the recorded identity. */
  function Verified(sha: Digest, d: Disk, root: Path, id: Identity): (r: Reading) {
    if Key(root, id.sha256) !in d.objects then Corrupt
    else
      var content := d.objects[Key(root, id.sha256)];
      if IdentityOf(sha, content) == id then Content(content) else Corrupt
  }

  predicate Lists(m: Manifest, name: Name) { name in m.omitted || name in m.files }

  /** What one manifest says about a name it lists: an omission goes before a file. */
  function FromManifest(sha: Digest, d: Disk, root: Path, name: Name): (r: Reading)
    requires root in d.manifests && Lists(d.manifests[root], name)
  {
    if name in d.manifests[root].omitted then Unavailable else Verified(sha, d, root, d.manifests[root].files[name])
  }

  predicate Covers(d: Disk, p: Path, k: nat)
    requires k <= |p|
  {
    p[..k] in d.manifests && Lists(d.manifests[p[..k]], p[k..])
  }

  /** Directories from length `k` up to the file system's root, the nearest that lists the path first. */
  function Lookup(sha: Digest, d: Disk, p: Path, k: nat): (r: Reading)
    requires k <= |p|
  {
    if Covers(d, p, k) then FromManifest(sha, d, p[..k], p[k..])
    else if k == 0 then Missing
    else Lookup(sha, d, p, k - 1)
  }

  function Read(sha: Digest, d: Disk, p: Path): (r: Reading) {
    if p in d.files then Content(d.files[p])
    else if p == [] then Missing
    else Lookup(sha, d, p, |p| - 1)
  }

  method ReadFile(sha: Digest, d: Disk, p: Path) returns (r: Reading)
    ensures r == Read(sha, d, p)
  {
    hide FromManifest, Lists;
    if p in d.files {
      return Content(d.files[p]);
    }
    r := Missing;
    if p != [] {
      var k := |p| - 1;
      while k > 0 && !Covers(d, p, k)
        invariant 0 <= k < |p|
        invariant Lookup(sha, d, p, |p| - 1) == Lookup(sha, d, p, k)
      {
        k := k - 1;
      }
      if Covers(d, p, k) {
        r := FromManifest(sha, d, p[..k], p[k..]);
      }
    }
  }

  // ---- What keeps every file readable --------------------------------------------------------

  /** The path belongs to a check whose report allows leaving it out. */
  predicate AllowedAt(reports: map<Path, Report>, p: Path, k: nat) {
    2 <= k <= |p| && p[k - 2] == "feedback" && p[..k] in reports && Omittable(reports[p[..k]], p[k..])
  }

  ghost predicate Allowed(reports: map<Path, Report>, p: Path) {
    exists k :: 0 <= k <= |p| && AllowedAt(reports, p, k)
  }

  /** What every file held before anything was compacted, and the reports of all checks. */
  datatype Past = Past(original: map<Path, Bytes>, reports: map<Path, Report>)

  predicate FileRecord(sha: Digest, past: Past, d: Disk, root: Path, name: Name, id: Identity) {
    name != [] && root + name in past.original && id == IdentityOf(sha, past.original[root + name])
    && Key(root, id.sha256) in d.objects
  }

  ghost predicate OmissionRecord(sha: Digest, past: Past, root: Path, name: Name, id: Identity) {
    name != [] && root + name in past.original && id == IdentityOf(sha, past.original[root + name])
    && Allowed(past.reports, root + name)
  }

  ghost predicate Truthful(sha: Digest, past: Past, d: Disk, root: Path, m: Manifest) {
    && (forall name :: name in m.files ==> FileRecord(sha, past, d, root, name, m.files[name]))
    && (forall name :: name in m.omitted ==> OmissionRecord(sha, past, root, name, m.omitted[name]))
  }

  ghost predicate ManifestsTruthful(sha: Digest, past: Past, d: Disk) {
    forall root :: root in d.manifests ==> Truthful(sha, past, d, root, d.manifests[root])
  }

  /** Remaining files are unchanged. */
  predicate Unchanged(past: Past, d: Disk) {
    forall p :: p in d.files ==> p in past.original && d.files[p] == past.original[p]
  }

  /** Objects hold what their digests say. */
  predicate Genuine(sha: Digest, d: Disk) {
    forall key :: key in d.objects ==> sha(d.objects[key]) == key.sha256
  }

  ghost predicate Listed(d: Disk, p: Path) {
    exists k :: 0 <= k < |p| && Covers(d, p, k)
  }

  /** A removed file is listed by some manifest above it. */
  ghost predicate Complete(past: Past, d: Disk) {
    forall p :: p in past.original ==> p in d.files || Listed(d, p)
  }

  ghost predicate Intact(sha: Digest, past: Past, d: Disk) {
    && Unchanged(past, d) && Genuine(sha, d) && ManifestsTruthful(sha, past, d) && Complete(past, d)
  }

  /** Some manifest above the path lists it as omitted. */
  ghost predicate Omitted(d: Disk, p: Path) {
    exists k :: 0 <= k < |p| && OmittedAt(d, p, k)
  }

  predicate OmittedAt(d: Disk, p: Path, k: nat)
    requires k <= |p|
  {
    p[..k] in d.manifests && p[k..] in d.manifests[p[..k]].omitted
  }

  /** Reading gives the original bytes, or says that the path was omitted, and then a manifest lists it and its check allowed it. */
  ghost predicate Safe(sha: Digest, past: Past, d: Disk, p: Path)
    requires p in past.original
  {
    || Read(sha, d, p) == Content(past.original[p])
    || (Read(sha, d, p) == Unavailable && Omitted(d, p) && Allowed(past.reports, p))
  }

  lemma ManifestReads(sha: Digest, past: Past, d: Disk, p: Path, k: nat)
    requires Identifying(sha) && Genuine(sha, d) && ManifestsTruthful(sha, past, d)
    requires p in past.original && k < |p| && Covers(d, p, k)
    ensures
      var r := FromManifest(sha, d, p[..k], p[k..]);
      r == Content(past.original[p]) || (r == Unavailable && OmittedAt(d, p, k) && Allowed(past.reports, p))
  {
    hide Allowed;
    var root, name := p[..k], p[k..];
    assert root + name == p;
    assert Truthful(sha, past, d, root, d.manifests[root]);
  }

  lemma {:induction false} LookupSafe(sha: Digest, past: Past, d: Disk, p: Path, from: nat, k: nat)
    requires Identifying(sha) && Genuine(sha, d) && ManifestsTruthful(sha, past, d)
    requires p in past.original && k <= from < |p| && Covers(d, p, k)
    ensures
      var r := Lookup(sha, d, p, from);
      r == Content(past.original[p]) || (r == Unavailable && Omitted(d, p) && Allowed(past.reports, p))
    decreases from
  {
    hide Identifying, Genuine, ManifestsTruthful, Allowed, FromManifest, Covers, OmittedAt;
    if Covers(d, p, from) {
      ManifestReads(sha, past, d, p, from);
    } else {
      LookupSafe(sha, past, d, p, from - 1, k);
    }
  }

  /** In an intact state every original file is safe. */
  lemma IntactIsSafe(sha: Digest, past: Past, d: Disk, p: Path)
    requires Identifying(sha) && Intact(sha, past, d) && p in past.original
    ensures Safe(sha, past, d, p)
  {
    hide Identifying, Genuine, ManifestsTruthful, Allowed, Lookup, Covers, OmittedAt;
    if p !in d.files {
      var k :| 0 <= k < |p| && Covers(d, p, k);
      LookupSafe(sha, past, d, p, |p| - 1, k);
    }
  }

  // ---- The steps of a transaction ------------------------------------------------------------

  /** Adding an object that holds what its digest says changes nothing else. */
  lemma LinkKeeps(sha: Digest, past: Past, d: Disk, key: Key, content: Bytes)
    requires Intact(sha, past, d) && sha(content) == key.sha256
    ensures Intact(sha, past, d.(objects := d.objects[key := content]))
  {
    hide Allowed, Omittable;
    var e := d.(objects := d.objects[key := content]);
    forall root | root in e.manifests ensures Truthful(sha, past, e, root, e.manifests[root]) {
      assert Truthful(sha, past, d, root, d.manifests[root]);
    }
    forall p | p in past.original ensures p in e.files || Listed(e, p) {
      if p !in d.files {
        var k :| 0 <= k < |p| && Covers(d, p, k);
        assert Covers(e, p, k);
      }
    }
  }

  /** The manifest lists everything that the one it replaces lists. */
  predicate Extends(d: Disk, root: Path, m: Manifest) {
    root in d.manifests ==>
      (forall name :: name in d.manifests[root].files ==> name in m.files)
      && forall name :: name in d.manifests[root].omitted ==> name in m.omitted
  }

  /** Committing a truthful manifest that lists all that the old one did loses nothing. */
  lemma CommitKeeps(sha: Digest, past: Past, d: Disk, root: Path, m: Manifest)
    requires Intact(sha, past, d) && Truthful(sha, past, d, root, m) && Extends(d, root, m)
    ensures Intact(sha, past, d.(manifests := d.manifests[root := m]))
  {
    hide Allowed, Omittable, FileRecord, OmissionRecord;
    var e := d.(manifests := d.manifests[root := m]);
    forall r | r in e.manifests ensures Truthful(sha, past, e, r, e.manifests[r]) {
      if r == root {
        TruthfulElsewhere(sha, past, d, e, r, m);
      } else {
        assert Truthful(sha, past, d, r, d.manifests[r]);
        TruthfulElsewhere(sha, past, d, e, r, d.manifests[r]);
      }
    }
    forall p | p in past.original ensures p in e.files || Listed(e, p) {
      if p !in d.files {
        var k :| 0 <= k < |p| && Covers(d, p, k);
        assert Covers(e, p, k);
      }
    }
  }

  /** Whether a manifest is truthful depends only on the objects. */
  lemma TruthfulElsewhere(sha: Digest, past: Past, d: Disk, e: Disk, root: Path, m: Manifest)
    requires Truthful(sha, past, d, root, m) && forall key :: key in d.objects ==> key in e.objects
    ensures Truthful(sha, past, e, root, m)
  {
    hide Allowed, Omittable, OmissionRecord;
  }

  /** Removing a file that a manifest above it lists loses nothing. */
  lemma UnlinkKeeps(sha: Digest, past: Past, d: Disk, root: Path, name: Name)
    requires Intact(sha, past, d) && root in d.manifests && Lists(d.manifests[root], name) && name != []
    ensures Intact(sha, past, d.(files := d.files - {root + name}))
  {
    hide Allowed, Omittable, FileRecord, OmissionRecord;
    var e := d.(files := d.files - {root + name});
    forall r | r in e.manifests ensures Truthful(sha, past, e, r, e.manifests[r]) {
      assert Truthful(sha, past, d, r, d.manifests[r]);
      TruthfulElsewhere(sha, past, d, e, r, d.manifests[r]);
    }
    forall p | p in past.original ensures p in e.files || Listed(e, p) {
      if p == root + name {
        assert p[..|root|] == root && p[|root|..] == name;
        assert Covers(e, p, |root|);
      } else if p !in d.files {
        var k :| 0 <= k < |p| && Covers(d, p, k);
        assert Covers(e, p, k);
      }
    }
  }

  // ---- Independence of parents ---------------------------------------------------------------

  /** Every removed file under `root` is listed by `root`'s manifest or a deeper one. */
  ghost predicate Independent(past: Past, d: Disk, root: Path) {
    forall p :: p in past.original && Under(root, p) && p !in d.files ==> ListedFrom(d, p, |root|)
  }

  predicate Under(root: Path, p: Path) { |root| < |p| && p[..|root|] == root }

  ghost predicate ListedFrom(d: Disk, p: Path, low: nat) {
    exists k :: low <= k < |p| && Covers(d, p, k)
  }

  /** The archive moved elsewhere: nothing above its root is left. */
  function Detached(d: Disk, root: Path): (e: Disk) {
    Disk(d.files, map r | r in d.manifests && (r == root || Under(root, r)) :: d.manifests[r],
      map key | key in d.objects && (key.root == root || Under(root, key.root)) :: d.objects[key])
  }

  lemma DetachedCovers(d: Disk, root: Path, p: Path, k: nat)
    requires Under(root, p) && |root| <= k <= |p|
    ensures Covers(Detached(d, root), p, k) <==> Covers(d, p, k)
  {
    assert p[..k][..|root|] == p[..|root|];
    if k > |root| {
      assert Under(root, p[..k]);
    } else {
      assert p[..k] == root;
    }
  }

  lemma DetachedManifest(sha: Digest, d: Disk, root: Path, p: Path, k: nat)
    requires Under(root, p) && |root| <= k <= |p| && Covers(d, p, k) && Covers(Detached(d, root), p, k)
    ensures FromManifest(sha, Detached(d, root), p[..k], p[k..]) == FromManifest(sha, d, p[..k], p[k..])
  {
    assert p[..k][..|root|] == p[..|root|];
    if k > |root| {
      assert Under(root, p[..k]);
    } else {
      assert p[..k] == root;
    }
  }

  lemma {:induction false} LookupDetached(sha: Digest, d: Disk, root: Path, p: Path, from: nat, k: nat)
    requires Under(root, p) && |root| <= k <= from < |p| && Covers(d, p, k)
    ensures Lookup(sha, Detached(d, root), p, from) == Lookup(sha, d, p, from)
    decreases from
  {
    hide Covers, FromManifest, Detached;
    DetachedCovers(d, root, p, from);
    if Covers(d, p, from) {
      DetachedManifest(sha, d, root, p, from);
    } else {
      LookupDetached(sha, d, root, p, from - 1, k);
    }
  }

  /** An independent archive reads the same without any of its parents' manifests and objects. */
  lemma ReadsWithoutParents(sha: Digest, past: Past, d: Disk, root: Path, p: Path)
    requires Independent(past, d, root) && p in past.original && Under(root, p)
    ensures Read(sha, Detached(d, root), p) == Read(sha, d, p)
  {
    hide Covers, Lookup;
    if p !in d.files {
      var k :| |root| <= k < |p| && Covers(d, p, k);
      LookupDetached(sha, d, root, p, |p| - 1, k);
    }
  }
}
