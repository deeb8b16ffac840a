/** The retention transaction: stage, verify, commit, and only then remove; it may stop before any disk operation. */
module Compaction {
  import opened Prelude
  import opened Contents
  import opened Omissions
  import opened Retention
  import opened Admission
  import opened CompactionSpec

  // ---- The archives --------------------------------------------------------------------------

  class Archives {
    const sha: Digest
    const results: map<Path, seq<Name>>
    const reports: map<Path, Report>
    ghost const original: map<Path, Bytes>
    var files: map<Path, Bytes>
    var manifests: map<Path, Manifest>
    var objects: map<Key, Bytes>
    /** How many more disk operations take place before the process is stopped. */
    var steps: nat

    function Current(): (d: Disk)
      reads this
    {
      Disk(files, manifests, objects)
    }

    function AllRecords(): (r: Records) { Records(results, reports) }

    ghost function Before(): (p: Past) { Past(original, reports) }

    ghost predicate Valid()
      reads this
    {
      Identifying(sha) && Intact(sha, Before(), Current())
    }

    constructor (sha: Digest, records: Records, files: map<Path, Bytes>, steps: nat)
      requires Identifying(sha)
      ensures Valid() && this.sha == sha && AllRecords() == records
      ensures original == files && this.files == files && this.steps == steps
      ensures manifests == map[] && objects == map[]
    {
      this.sha, this.results, this.reports, this.original, this.files := sha, records.results, records.reports, files, files;
      this.steps := steps;
      manifests, objects := map[], map[];
    }

    /** Links an object into the archive at `root` unless it is there. */
    method Link(root: Path, content: Bytes) returns (ok: bool)
      requires Valid()
      modifies this`objects, this`steps
      ensures Valid()
      ensures forall key :: key in old(objects) ==> key in objects
      ensures ok ==> Key(root, sha(content)) in objects
      ensures !ok ==> old(steps) == 0
      ensures old(steps) <= steps + 1 && (!ok ==> steps == 0)
    {
      hide Identifying, Intact;
      var key := Key(root, sha(content));
      ok := true;
      if key !in objects {
        if steps == 0 {
          ok := false;
        } else {
          LinkKeeps(sha, Before(), Current(), key, content);
          objects, steps := objects[key := content], steps - 1;
        }
      }
    }

    /** Replaces the manifest of `root`, all at once. */
    method Commit(root: Path, m: Manifest) returns (ok: bool)
      requires Valid() && Truthful(sha, Before(), Current(), root, m) && Extends(Current(), root, m)
      modifies this`manifests, this`steps
      ensures Valid()
      ensures ok ==> manifests == old(manifests)[root := m]
      ensures !ok ==> old(steps) == 0 && manifests == old(manifests)
      ensures old(steps) <= steps + 1 && (!ok ==> steps == 0)
    {
      hide Identifying, Intact, Truthful;
      ok := steps > 0;
      if ok {
        CommitKeeps(sha, Before(), Current(), root, m);
        manifests, steps := manifests[root := m], steps - 1;
      }
    }

    /** Removes an original that a manifest lists. */
    method Unlink(root: Path, name: Name) returns (ok: bool)
      requires Valid() && root in manifests && Lists(manifests[root], name) && name != []
      modifies this`files, this`steps
      ensures Valid()
      ensures ok ==> files == old(files) - {root + name}
      ensures !ok ==> old(steps) == 0 && files == old(files)
      ensures old(steps) <= steps + 1 && (!ok ==> steps == 0)
    {
      hide Identifying, Intact, Lists;
      ok := steps > 0;
      if ok {
        UnlinkKeeps(sha, Before(), Current(), root, name);
        files, steps := files - {root + name}, steps - 1;
      }
    }

    /**
     * Takes over one group of a parent's records: every record below `root` that is not listed yet, with its object
     * when it is a file.
     */
    method InheritGroup(root: Path, k: nat, group: map<Name, Identity>, isFiles: bool, m: Manifest)
      returns (ok: bool, n: Manifest)
      requires Valid() && k < |root| && root[..k] in manifests && Truthful(sha, Before(), Current(), root, m)
      requires group == if isFiles then manifests[root[..k]].files else manifests[root[..k]].omitted
      modifies this`objects, this`steps
      ensures Valid() && forall key :: key in old(objects) ==> key in objects
      ensures old(steps) <= steps + |group| && (!ok ==> steps == 0 && old(steps) < |group|)
      ensures ok ==> Truthful(sha, Before(), Current(), root, n) && Grown(m, n)
      ensures ok ==> forall name :: name in group && Below(root, k, name) ==> Lists(n, Local(root, k, name))
      ensures ok ==> Taken(group.Keys, root[k..], isFiles, m, n)
    {
      hide Identifying, Intact, Truthful, Lists, Grown, Below, Local, Taken, Gains;
      n, ok := m, true;
      GrownSelf(m);
      TakenNothing(root[k..], isFiles, m);
      assert group.Keys - group.Keys == {};
      var todo := group.Keys;
      while todo != {} && ok
        invariant Valid() && todo <= group.Keys
        invariant forall key :: key in old(objects) ==> key in objects
        invariant old(steps) + |todo| <= steps + |group|
        invariant !ok ==> steps == 0 && old(steps) < |group|
        invariant ok ==> Truthful(sha, Before(), Current(), root, n) && Grown(m, n)
        invariant ok ==> forall name :: name in group && name !in todo && Below(root, k, name) ==> Lists(n, Local(root, k, name))
        invariant ok ==> Taken(group.Keys - todo, root[k..], isFiles, m, n)
        decreases |todo|
      {
        var name :| name in todo;
        ghost var before, done := n, group.Keys - todo;
        todo := todo - {name};
        assert group.Keys - todo == done + {name};
        if Below(root, k, name) && !Lists(n, Local(root, k, name)) {
          ok, n := InheritRecord(root, k, name, isFiles, n);
          if ok {
            GrownLists(before, n);
            GrownThrough(m, before, n);
          }
        }
        if ok {
          TakenOne(root, k, done, name, isFiles, m, before, n);
        }
      }
      if ok {
        assert group.Keys - todo == group.Keys;
      }
    }

    method InheritRecord(root: Path, k: nat, name: Name, isFiles: bool, m: Manifest) returns (ok: bool, n: Manifest)
      requires Valid() && k < |root| && root[..k] in manifests && Truthful(sha, Before(), Current(), root, m)
      requires name in if isFiles then manifests[root[..k]].files else manifests[root[..k]].omitted
      requires Below(root, k, name)
      modifies this`objects, this`steps
      ensures Valid() && forall key :: key in old(objects) ==> key in objects
      ensures old(steps) <= steps + 1 && (!ok ==> steps == 0 && old(steps) == 0)
      ensures ok ==> Truthful(sha, Before(), Current(), root, n) && Grown(m, n) && Lists(n, Local(root, k, name))
      ensures ok ==> Gains(m, n, Local(root, k, name), isFiles)
    {
      hide Identifying, Truthful, Below, Local, FileRecord, OmissionRecord, Complete, Unchanged;
      var local, parent := Local(root, k, name), root[..k];
      ParentRecord(sha, Before(), Current(), root, k, name);
      ok := true;
      if isFiles {
        var id := manifests[parent].files[name];
        ok := Link(root, objects[Key(parent, id.sha256)]);
        n := m.(files := m.files[local := id]);
        if ok {
          TruthfulElsewhere(sha, Before(), old(Current()), Current(), root, m);
          AddFile(sha, Before(), Current(), root, m, local, id);
        }
      } else {
        n := m.(omitted := m.omitted[local := manifests[parent].omitted[name]]);
        AddOmission(sha, Before(), Current(), root, m, local, manifests[parent].omitted[name]);
      }
    }

    /** Takes over everything that the manifests above `root` list below it, the nearest first. */
    method Inherit(root: Path) returns (ok: bool, n: Manifest)
      requires Valid()
      modifies this`objects, this`steps
      ensures Valid() && forall key :: key in old(objects) ==> key in objects
      ensures
        var records := Above(manifests, root, |root|);
        old(steps) <= steps + records && (!ok ==> steps == 0 && old(steps) < records)
      ensures ok ==> Truthful(sha, Before(), Current(), root, n) && Grown(Existing(manifests, root), n)
      ensures ok ==> forall k :: 0 <= k < |root| ==> Inherited(Current(), root, k, n)
      ensures ok ==> TakenDownTo(manifests, root, 0, n)
    {
      hide Identifying, Intact, Truthful, Lists, Grown, Below, Local, Taken, TakenDownTo;
      var m := Existing(manifests, root);
      ExistingTruthful(sha, Before(), Current(), root);
      n, ok := m, true;
      GrownSelf(m);
      var k := |root|;
      TakenFromSelf(manifests, root);
      while k > 0 && ok
        invariant 0 <= k <= |root| && Valid()
        invariant forall key :: key in old(objects) ==> key in objects
        invariant old(steps) + Above(manifests, root, k) <= steps + Above(manifests, root, |root|)
        invariant !ok ==> steps == 0 && old(steps) < Above(manifests, root, |root|)
        invariant ok ==> Truthful(sha, Before(), Current(), root, n) && Grown(m, n)
        invariant ok ==> forall j :: k <= j < |root| ==> Inherited(Current(), root, j, n)
        invariant ok ==> TakenDownTo(manifests, root, k, n)
        decreases k, ok
      {
        k := k - 1;
        if root[..k] in manifests {
          ghost var start := n;
          ok, n := InheritGroup(root, k, manifests[root[..k]].files, true, n);
          if ok {
            ghost var half := n;
            ok, n := InheritGroup(root, k, manifests[root[..k]].omitted, false, n);
            if ok {
              GrownThrough(m, start, half);
              GrownThrough(m, half, n);
              GrownThrough(start, half, n);
              BothGroups(Current(), root, k, half, n);
              StaysInherited(Current(), root, k + 1, start, n);
              LevelTaken(manifests, root, k, start, half, n);
            }
          }
        } else {
          LevelSkipped(manifests, root, k, n);
        }
      }
    }

    // ---- Staging -----------------------------------------------------------------------------

    /** The unpinned checks' omittable attachments. */
    method Prunable(root: Path, keep: set<string>) returns (r: Option<map<Name, Identity>>)
      ensures r.Some? <==> UsableReports(reports, root, keep)
      ensures r.Some? ==> forall name :: name in r.value <==> Candidate(reports, root, keep, name)
      ensures r.Some? ==> forall name :: name in r.value ==> Some(r.value[name]) == Recording(reports, root, name)
    {
      hide Omittable, Recorded, Named, WellFormed, FullyPassed;
      var found: map<Name, Identity> := map[];
      var todo := reports.Keys;
      while todo != {}
        invariant todo <= reports.Keys
        invariant forall check :: check in reports && check !in todo && IsCheck(root, keep, check) ==> Usable(reports[check])
        invariant forall name :: name in found <==> Candidate(reports, root, keep, name) && root + name[..2] !in todo
        invariant forall name :: name in found ==> Some(found[name]) == Recording(reports, root, name)
        decreases |todo|
      {
        var check :| check in todo;
        todo := todo - {check};
        if IsCheck(root, keep, check) {
          var o := ProcessOmissions(reports[check]);
          if o.None? {
            return None;
          }
          ghost var before := found;
          found := found + Prefixed(check[|root|..], o.value);
          PrefixedCandidates(reports, root, keep, check, before, o.value, found, todo);
        } else {
          NotACheck(reports, root, keep, check);
        }
      }
      return Some(found);
    }

    /** The visible files below `root`. */
    method Walk(root: Path) returns (names: seq<Name>)
      ensures |names| <= |files|
      ensures forall k :: 0 <= k < |names| ==> names[k] != [] && Visible(names[k]) && root + names[k] in files
      ensures forall name :: Visible(name) && root + name in files ==> name in names
    {
      hide Visible;
      names := [];
      var todo := files.Keys;
      while todo != {}
        invariant todo <= files.Keys && |names| + |todo| <= |files.Keys|
        invariant forall k :: 0 <= k < |names| ==> names[k] != [] && Visible(names[k]) && root + names[k] in files
        invariant forall name :: Visible(name) && root + name in files && root + name !in todo ==> name in names
        decreases |todo|
      {
        var p :| p in todo;
        todo := todo - {p};
        BelowOnly(root, p);
        if Under(root, p) && Visible(p[|root|..]) {
          names := names + [p[|root|..]];
        }
      }
    }

    /** The item is for a visible file, and says what the run will do with it. */
    ghost predicate ItemRight(item: Item, root: Path, keep: set<string>)
      reads this`files
    {
      && Visible(item.name) && item.name != [] && root + item.name in files
      && item.action == ActionFor(item.name, |files[root + item.name]|, Candidate(reports, root, keep, item.name))
    }

    /** Every visible file has its item. */
    ghost predicate Inventoried(items: seq<Item>, root: Path, keep: set<string>)
      reads this`files
    {
      && (forall k :: 0 <= k < |items| ==> ItemRight(items[k], root, keep))
      && (forall name :: Visible(name) && root + name in files ==> exists k :: 0 <= k < |items| && items[k].name == name)
    }

    /** What to do with every file that the walk reports. */
    method Inventory(root: Path, keep: set<string>, prunable: map<Name, Identity>) returns (items: seq<Item>)
      requires forall name :: name in prunable <==> Candidate(reports, root, keep, name)
      ensures |items| <= |files| && Inventoried(items, root, keep)
    {
      hide Compressible, Candidate, Visible;
      var names := Walk(root);
      items := [];
      for k := 0 to |names|
        invariant |items| == k
        invariant forall j :: 0 <= j < k ==> items[j].name == names[j] && ItemRight(items[j], root, keep)
      {
        items := items + [Item(names[k], ActionFor(names[k], |files[root + names[k]]|, names[k] in prunable))];
      }
      forall name | Visible(name) && root + name in files ensures exists k :: 0 <= k < |items| && items[k].name == name {
        var k :| 0 <= k < |names| && names[k] == name;
        assert items[k].name == name;
      }
    }

    /** The files with this action that are named by a digest have it. */
    ghost predicate Addresses(items: seq<Item>, action: Action, root: Path)
      requires forall k :: 0 <= k < |items| ==> items[k].name != [] && root + items[k].name in files
      reads this`files
    {
      forall k :: 0 <= k < |items| && items[k].action == action ==> AddressHolds(sha, items[k].name, files[root + items[k].name])
    }

    /** Kept files that are named by a digest still have it. */
    method CheckKept(root: Path, items: seq<Item>) returns (ok: bool)
      requires forall k :: 0 <= k < |items| ==> items[k].name != [] && root + items[k].name in files
      ensures ok <==> Addresses(items, Keep, root)
    {
      hide AddressHolds;
      ok := true;
      var k := 0;
      while k < |items| && ok
        invariant k <= |items|
        invariant ok <==> forall j :: 0 <= j < k && items[j].action == Keep ==> AddressHolds(sha, items[j].name, files[root + items[j].name])
      {
        ok := items[k].action == Keep ==> AddressHolds(sha, items[k].name, files[root + items[k].name]);
        k := k + 1;
      }
    }

    /** The files to leave out have the identities that their reports record. */
    ghost predicate Matching(items: seq<Item>, prunable: map<Name, Identity>, root: Path)
      requires forall k :: 0 <= k < |items| ==> items[k].name != [] && root + items[k].name in files
      requires forall k :: 0 <= k < |items| && items[k].action == Omit ==> items[k].name in prunable
      reads this`files
    {
      forall k :: 0 <= k < |items| && items[k].action == Omit ==>
        IdentityOf(sha, files[root + items[k].name]) == prunable[items[k].name]
    }

    /** Lists the files to leave out, each with the identity that both the file and its report have. */
    method StageOmissions(root: Path, keep: set<string>, items: seq<Item>, prunable: map<Name, Identity>, m: Manifest)
      returns (ok: bool, n: Manifest)
      requires Valid() && Truthful(sha, Before(), Current(), root, m)
      requires forall name :: name in prunable ==> Candidate(reports, root, keep, name)
      requires forall k :: 0 <= k < |items| ==> items[k].name != [] && root + items[k].name in files
      requires forall k :: 0 <= k < |items| && items[k].action == Omit ==> items[k].name in prunable
      ensures ok ==> Truthful(sha, Before(), Current(), root, n) && Grown(m, n) && n.files == m.files
      ensures ok ==> forall k :: 0 <= k < |items| && items[k].action == Omit ==> items[k].name in n.omitted
      ensures ok ==> forall name :: name in n.omitted && name !in m.omitted ==> name in prunable
      ensures ok <==> Matching(items, prunable, root)
    {
      hide Identifying, Truthful, Lists, Genuine, Complete, Candidate, ManifestsTruthful;
      n, ok := m, true;
      var k := 0;
      while k < |items| && ok
        invariant k <= |items|
        invariant ok ==> Truthful(sha, Before(), Current(), root, n) && Grown(m, n) && n.files == m.files
        invariant ok ==> forall j :: 0 <= j < k && items[j].action == Omit ==> items[j].name in n.omitted
        invariant ok ==> forall name :: name in n.omitted && name !in m.omitted ==> name in prunable
        invariant ok <==> forall j :: 0 <= j < k && items[j].action == Omit ==>
          IdentityOf(sha, files[root + items[j].name]) == prunable[items[j].name]
      {
        var item := items[k];
        k := k + 1;
        if item.action == Omit {
          var id := IdentityOf(sha, files[root + item.name]);
          if id != prunable[item.name] {
            ok := false;
          } else {
            CandidateAllowed(reports, root, keep, item.name);
            AddOmission(sha, Before(), Current(), root, n, item.name, id);
            n := n.(omitted := n.omitted[item.name := id]);
          }
        }
      }
    }

    /** Compresses and lists the large files. */
    method StageObjects(root: Path, items: seq<Item>, m: Manifest) returns (r: Result<Manifest, CompactError>)
      requires Valid() && Truthful(sha, Before(), Current(), root, m)
      requires forall k :: 0 <= k < |items| ==> items[k].name != [] && root + items[k].name in files
      modifies this`objects, this`steps
      ensures Valid()
      ensures old(steps) <= steps + |items|
      ensures r.Err? ==> r.error == AddressedChanged || (r.error == Interrupted && steps == 0 && old(steps) < |items|)
      ensures r.Ok? ==> Truthful(sha, Before(), Current(), root, r.value) && Grown(m, r.value) && r.value.omitted == m.omitted
      ensures r.Ok? ==> forall k :: 0 <= k < |items| && items[k].action == Compress ==> items[k].name in r.value.files
      ensures r.Ok? ==> NewObjects(items, m, r.value)
      ensures r.Ok? ==> Addresses(items, Compress, root)
      ensures r == Err(AddressedChanged) ==> !Addresses(items, Compress, root)
    {
      hide Identifying, Truthful, Lists, Genuine, Complete, ManifestsTruthful, AddressHolds, Unchanged;
      var n := m;
      for k := 0 to |items|
        invariant Valid() && old(steps) <= steps + k && NewObjects(items, m, n)
        invariant Truthful(sha, Before(), Current(), root, n) && Grown(m, n) && n.omitted == m.omitted
        invariant forall j :: 0 <= j < k && items[j].action == Compress ==> items[j].name in n.files
        invariant forall j :: 0 <= j < k && items[j].action == Compress ==> AddressHolds(sha, items[j].name, files[root + items[j].name])
      {
        var item := items[k];
        if item.action == Compress {
          var content := files[root + item.name];
          if !AddressHolds(sha, item.name, content) {
            return Err(AddressedChanged);
          }
          ghost var before := Current();
          var linked := Link(root, content);
          if !linked {
            return Err(Interrupted);
          }
          TruthfulElsewhere(sha, Before(), before, Current(), root, n);
          RemainingOriginal(sha, Before(), Current(), root + item.name);
          AddFile(sha, Before(), Current(), root, n, item.name, IdentityOf(sha, content));
          n := n.(files := n.files[item.name := IdentityOf(sha, content)]);
        }
      }
      return Ok(n);
    }

    // ---- Verifying and removing --------------------------------------------------------------

    /** Every listed object verifies, and every original that is still there is the recorded one. */
    method VerifyArchive(root: Path) returns (ok: bool)
      requires root in manifests
      ensures ok <==> Verifies(sha, Current(), root)
    {
      hide Verified;
      ok := true;
      var m := manifests[root];
      var todo := m.files.Keys;
      while todo != {} && ok
        invariant todo <= m.files.Keys
        invariant ok <==> forall name :: name in m.files && name !in todo ==> RecordVerifies(sha, Current(), root, name, m.files[name])
        decreases |todo|
      {
        var name :| name in todo;
        todo := todo - {name};
        ok := RecordVerifies(sha, Current(), root, name, m.files[name]);
      }
    }

    /** Removes every original that the manifest lists. */
    method RemoveListed(root: Path) returns (ok: bool)
      requires Valid() && root in manifests
      modifies this`files, this`steps
      ensures Valid() && files.Keys <= old(files.Keys)
      ensures !ok ==> steps == 0 && old(steps) < |old(files)|
      ensures ok ==> forall name :: Lists(manifests[root], name) ==> root + name !in files
      ensures forall p :: p in old(files) && p !in files ==> Under(root, p) && Covers(Current(), p, |root|)
    {
      hide Identifying, Intact, Lists;
      var m := manifests[root];
      ListedKeys(m);
      var todo := m.files.Keys + m.omitted.Keys;
      ok := true;
      while todo != {} && ok
        invariant Valid() && files.Keys <= old(files.Keys)
        invariant todo <= m.files.Keys + m.omitted.Keys
        invariant old(steps) + |files.Keys| <= steps + |old(files).Keys|
        invariant !ok ==> steps == 0 && old(steps) < |old(files).Keys|
        invariant ok ==> forall name :: Lists(m, name) && name !in todo ==> root + name !in files
        invariant forall p :: p in old(files) && p !in files ==> Under(root, p) && Covers(Current(), p, |root|)
        decreases |todo|
      {
        var name :| name in todo;
        todo := todo - {name};
        if root + name in files {
          ListedNames(sha, Before(), Current(), root, name);
          assert IdentityOf(sha, files[root + name]) == Record(m, name);
          SplitAt(root, name);
          ghost var left := files.Keys;
          ok := Unlink(root, name);
          if ok {
            assert files.Keys == left - {root + name};
          }
        }
      }
    }

    // ---- The transaction ---------------------------------------------------------------------

    /** The three checks of the items are together the check of all visible files. */
    lemma SoundItems(items: seq<Item>, prunable: map<Name, Identity>, root: Path, keep: set<string>)
      requires Inventoried(items, root, keep)
      requires forall name :: name in prunable <==> Candidate(reports, root, keep, name)
      requires forall name :: name in prunable ==> Some(prunable[name]) == Recording(reports, root, name)
      ensures SoundFiles(sha, reports, Current(), root, keep)
         <==> Addresses(items, Keep, root) && Addresses(items, Compress, root) && Matching(items, prunable, root)
    {
      hide Candidate, Recording, Visible, AddressHolds, Compressible;
      if SoundFiles(sha, reports, Current(), root, keep) {
        forall k | 0 <= k < |items|
          ensures Sound(sha, reports, root, keep, items[k].name, files[root + items[k].name])
        {
          assert ItemRight(items[k], root, keep);
        }
      }
      if Addresses(items, Keep, root) && Addresses(items, Compress, root) && Matching(items, prunable, root) {
        forall name | Visible(name) && root + name in files
          ensures Sound(sha, reports, root, keep, name, files[root + name])
        {
          var k :| 0 <= k < |items| && items[k].name == name;
          assert ItemRight(items[k], root, keep);
        }
      }
    }

    lemma CompressedItems(items: seq<Item>, root: Path, keep: set<string>, m: Manifest, n: Manifest)
      requires Inventoried(items, root, keep) && NewObjects(items, m, n)
      ensures forall name :: name in n.files && name !in m.files ==>
        name != [] && root + name in files && Compressible(name, |files[root + name]|)
    {
      hide Candidate, Visible, Compressible;
      forall name | name in n.files && name !in m.files
        ensures name != [] && root + name in files && Compressible(name, |files[root + name]|)
      {
        var k :| 0 <= k < |items| && items[k] == Item(name, Compress);
        assert ItemRight(items[k], root, keep);
      }
    }

    lemma RetainedItems(items: seq<Item>, root: Path, keep: set<string>, m: Manifest)
      requires Inventoried(items, root, keep)
      requires forall k :: 0 <= k < |items| && items[k].action == Omit ==> items[k].name in m.omitted
      requires forall k :: 0 <= k < |items| && items[k].action == Compress ==> items[k].name in m.files
      ensures RetainedFiles(reports, root, keep, files, m)
    {
      hide Candidate, Visible, Compressible;
      forall name | Visible(name) && root + name in files
        ensures Retained(reports, root, keep, name, |files[root + name]|, m)
      {
        var k :| 0 <= k < |items| && items[k].name == name;
        assert ItemRight(items[k], root, keep);
      }
    }

    lemma ItemsRight(items: seq<Item>, root: Path, keep: set<string>)
      requires Inventoried(items, root, keep)
      ensures forall k :: 0 <= k < |items| ==> items[k].name != [] && root + items[k].name in files
      ensures forall k :: 0 <= k < |items| && items[k].action == Omit ==> Candidate(reports, root, keep, items[k].name)
    {
      hide Visible, Candidate, Compressible;
      forall k | 0 <= k < |items| ensures ItemRight(items[k], root, keep) {
      }
    }

    /** Checks the items and stages those that are to be left out or compressed. */
    method StageItems(root: Path, keep: set<string>, items: seq<Item>, prunable: map<Name, Identity>, m: Manifest)
      returns (r: Result<Manifest, CompactError>)
      requires Valid() && Truthful(sha, Before(), Current(), root, m) && Inventoried(items, root, keep)
      requires forall name :: name in prunable <==> Candidate(reports, root, keep, name)
      requires forall name :: name in prunable ==> Some(prunable[name]) == Recording(reports, root, name)
      modifies this`objects, this`steps
      ensures Valid()
      ensures old(steps) <= steps + |items| && (r == Err(Interrupted) ==> steps == 0 && old(steps) < |items|)
      ensures r.Ok? ==> SoundFiles(sha, reports, Current(), root, keep)
      ensures r.Err? && r.error != Interrupted ==> !SoundFiles(sha, reports, Current(), root, keep)
      ensures r.Ok? ==> Truthful(sha, Before(), Current(), root, r.value) && Grown(m, r.value)
      ensures r.Ok? ==> forall name :: name in r.value.omitted && name !in m.omitted ==> Candidate(reports, root, keep, name)
      ensures r.Ok? ==> forall name :: name in r.value.files && name !in m.files ==>
        name != [] && root + name in files && Compressible(name, |files[root + name]|)
      ensures r.Ok? ==> RetainedFiles(reports, root, keep, files, r.value)
    {
      hide Identifying, Intact, Truthful, Grown, Candidate, Compressible, NewObjects, Inventoried, Recording, Addresses, Matching, SoundFiles, RetainedFiles;
      ItemsRight(items, root, keep);
      SoundItems(items, prunable, root, keep);
      ghost var start := Current();
      var ok := CheckKept(root, items);
      if !ok {
        return Err(AddressedChanged);
      }
      var n;
      ok, n := StageOmissions(root, keep, items, prunable, m);
      if !ok {
        return Err(AttachmentChanged);
      }
      r := StageObjects(root, items, n);
      SoundElsewhere(sha, reports, start, Current(), root, keep);
      if r.Ok? {
        GrownThrough(m, n, r.value);
        GrownSets(n, r.value);
        RetainedItems(items, root, keep, r.value);
        CompressedItems(items, root, keep, n, r.value);
      }
    }

    /**
     * Stages everything that the new manifest lists; nothing is removed and no manifest changes. With enough disk
     * operations it succeeds exactly if the archive is acceptable.
     */
    method Stage(root: Path, keep: set<string>) returns (r: Result<Manifest, CompactError>)
      requires Valid()
      modifies this`objects, this`steps
      ensures Valid()
      ensures
        var needed := Above(manifests, root, |root|) + |files|;
        old(steps) <= steps + needed && (r == Err(Interrupted) ==> steps == 0 && old(steps) < needed)
      ensures r.Ok? ==> old(Acceptable(sha, AllRecords(), Current(), root, keep))
      ensures r.Err? && r.error != Interrupted ==> !old(Acceptable(sha, AllRecords(), Current(), root, keep))
      ensures r.Ok? ==> Truthful(sha, Before(), Current(), root, r.value) && Extends(Current(), root, r.value)
      ensures r.Ok? ==> forall k :: 0 <= k < |root| ==> Inherited(Current(), root, k, r.value)
      ensures r.Ok? ==> NonePinned(keep, r.value.omitted.Keys)
      ensures r.Ok? ==> OmitsOnlyThese(reports, manifests, root, keep, r.value)
      ensures r.Ok? ==> CompressesOnly(manifests, root, files, r.value)
      ensures r.Ok? ==> RetainedFiles(reports, root, keep, files, r.value)
    {
      hide Identifying, Intact, Truthful, Inherited, Grown, AddressHolds, CompressesOnly, Candidate, Compressible, Admitted,
        SoundFiles, RetainedFiles, TakenDownTo, Inventoried, UsableReports, OmitsOnlyThese, Pinned, Above;
      ghost var start := Current();
      var prunable := Prunable(root, keep);
      if prunable.None? {
        return Err(BadReport);
      }
      var items := Inventory(root, keep, prunable.value);
      ItemsRight(items, root, keep);
      SoundItems(items, prunable.value, root, keep);
      var admitted := ValidateSources(sha, AllRecords(), Current(), root);
      if !admitted {
        return Err(NotAdmitted);
      }
      var ok, m := Inherit(root);
      if !ok {
        return Err(Interrupted);
      }
      ghost var inherited := Current();
      TruthfulNames(sha, Before(), inherited, root, m);
      PinnedExactly(manifests, root, keep, m);
      if exists name :: name in m.omitted && Pinned(keep, name) {
        return Err(PinnedOmission);
      }
      r := StageItems(root, keep, items, prunable.value, m);
      SoundElsewhere(sha, reports, start, Current(), root, keep);
      if r.Ok? {
        TruthfulNames(sha, Before(), Current(), root, r.value);
        GrownThrough(Existing(manifests, root), m, r.value);
        GrownExtends(Current(), root, Existing(manifests, root), r.value);
        StaysInherited(inherited, root, 0, m, r.value);
        InheritedElsewhere(inherited, Current(), root, r.value);
        UnpinnedCandidates(reports, root, keep, m, r.value);
        OmitsTaken(reports, manifests, root, keep, m, r.value);
        CompressesTaken(manifests, root, files, m, r.value);
      }
    }

    /**
     * One run of the transaction. Whatever stops it, every original file stays safe, and nothing changes but the stored
     * objects unless the archive is acceptable. When it completes, nothing that the manifest lists is left as a file,
     * no pinned check has an omission, and the archive needs no parent. With enough disk operations it completes exactly
     * if the archive is acceptable.
     */
    method Compact(root: Path, keep: set<string>, terminal: bool) returns (r: Result<(), CompactError>)
      requires Valid()
      modifies this
      ensures Valid() && files.Keys <= old(files.Keys)
      ensures r == Err(Interrupted) ==> steps == 0 && old(steps) < old(Enough(Current(), root))
      ensures r.Ok? ==> terminal && old(Acceptable(sha, AllRecords(), Current(), root, keep))
      ensures r.Err? && r.error != Interrupted ==>
        files == old(files) && manifests == old(manifests) && !(terminal && old(Acceptable(sha, AllRecords(), Current(), root, keep)))
      ensures Advanced(reports, old(Current()), Current(), root, keep)
      ensures r.Ok? ==> Done(root, keep) && RetainedFiles(reports, root, keep, old(files), manifests[root])
      ensures r.Ok? ==> CompressesOnly(old(manifests), root, old(files), manifests[root])
      ensures r.Ok? ==> forall p :: p in old(files) && p !in files ==> Under(root, p) && Covers(Current(), p, |root|)
    {
      hide Identifying, Intact, Truthful, Inherited, Lists, Pinned, Independent, Retained, Acceptable, Undisturbed, Spared,
        RetainedFiles, CompressesOnly, Above, OmitsOnlyThese;
      ghost var start := Current();
      if !terminal {
        return Err(NotTerminal);
      }
      var staged := Stage(root, keep);
      if staged.Err? {
        return Err(staged.error);
      }
      ghost var before := Current();
      var ok := Commit(root, staged.value);
      if !ok {
        return Err(Interrupted);
      }
      IntactVerifies(sha, Before(), Current(), root);
      ok := VerifyArchive(root);
      assert ok;
      CommittedIndependent(sha, Before(), before, Current(), root, staged.value);
      ghost var committed := Current();
      ok := RemoveListed(root);
      assert Replaced(reports, start, Current(), root, keep, staged.value) by {
        InheritedElsewhere(before, start, root, staged.value);
      }
      if !ok {
        return Err(Interrupted);
      }
      RemovalIndependent(sha, Before(), committed, Current(), root);
      ok := VerifyArchive(root);
      return Ok(());
    }

    /** What holds of an archive when a run has completed. */
    ghost predicate Done(root: Path, keep: set<string>)
      reads this
    {
      && root in manifests && Independent(Before(), Current(), root)
      && (forall name :: Lists(manifests[root], name) ==> root + name !in files)
      && NonePinned(keep, manifests[root].omitted.Keys)
    }

    /** Any sequence of runs, each stopped after some number of disk operations or complete: every file stays safe. */
    method CompactAll(requests: seq<Request>)
      requires Valid()
      modifies this
      ensures Valid() && files.Keys <= old(files.Keys)
      ensures forall p :: p in original ==> Safe(sha, Before(), Current(), p)
    {
      hide Identifying, Intact, Safe, Acceptable, Advanced, Done, RetainedFiles, CompressesOnly, Covers;
      for k := 0 to |requests|
        invariant Valid() && files.Keys <= old(files.Keys)
      {
        steps := requests[k].steps;
        var r := Compact(requests[k].root, requests[k].keep, requests[k].terminal);
      }
      forall p | p in original ensures Safe(sha, Before(), Current(), p) {
        IntactIsSafe(sha, Before(), Current(), p);
      }
    }

    /**
     * The same transaction, interrupted any number of times and then left to run. If the archive was acceptable, the
     * last run completes exactly if nothing that the records refer to had been left out without leave by then, and it
     * always completes if nothing of that kind was to be left out.
     */
    method Finish(root: Path, keep: set<string>, cuts: seq<nat>) returns (ghost last: Disk, r: Result<(), CompactError>)
      requires Valid()
      modifies this
      ensures Valid() && files.Keys <= old(files.Keys)
      ensures r.Ok? <==> Acceptable(sha, AllRecords(), last, root, keep)
      ensures old(Acceptable(sha, AllRecords(), Current(), root, keep)) ==> (r.Ok? <==> Spared(sha, AllRecords(), last, root))
      ensures old(Acceptable(sha, AllRecords(), Current(), root, keep) && Undisturbed(AllRecords(), Current(), root, keep)) ==> r.Ok?
      ensures r.Ok? ==> Done(root, keep)
    {
      hide Identifying, Intact, Spared, Undisturbed, Advanced, Acceptable, Done, RetainedFiles, CompressesOnly, Enough;
      ghost var start := Current();
      AdvancesNowhere(reports, start, root, keep);
      for k := 0 to |cuts|
        invariant Valid() && files.Keys <= old(files.Keys) && Advanced(reports, start, Current(), root, keep)
      {
        ghost var before := Current();
        steps := cuts[k];
        var stopped := Compact(root, keep, true);
        AdvancesTwice(reports, start, before, Current(), root, keep);
      }
      last := Current();
      if Acceptable(sha, AllRecords(), start, root, keep) {
        RunsAgain(sha, AllRecords(), Before(), start, last, root, keep);
      }
      steps := Enough(Current(), root);
      r := Compact(root, keep, true);
    }
  }

  // ---- A transaction that cannot be run again ------------------------------------------------

  const CHECK: Path := ["feedback", "check-1"]
  const LOG: Name := ["feedback", "check-1", "log"]

  /** A passed check with one console log. */
  function PassedCheck(sha: Digest): (r: Report) {
    var log := Ref(["log"], IdentityOf(sha, "x"));
    Report(Some(true), Some(true), None, [Job("passed", [Attachment("console", log)], [])], [], Ref([], log.identity), [])
  }

  /** An archive whose result lists that log. */
  function LoggedRecords(sha: Digest): (r: Records) {
    Records(map[[] := [LOG]], map[CHECK := PassedCheck(sha)])
  }

  const LOGGED: map<Path, Bytes> := map[["result.json"] := "{}", LOG := "x"]

  lemma LoggedCheck(sha: Digest)
    ensures AllAttachments(PassedCheck(sha)) == [Attachment("console", Ref(["log"], IdentityOf(sha, "x")))]
    ensures Omittable(PassedCheck(sha), ["log"]) && Usable(PassedCheck(sha))
    ensures Candidate(LoggedRecords(sha).reports, [], {}, LOG)
    ensures Recording(LoggedRecords(sha).reports, [], LOG) == Some(IdentityOf(sha, "x"))
    ensures !Candidate(LoggedRecords(sha).reports, [], {}, ["result.json"])
  {
    var r := PassedCheck(sha);
    var a := AllAttachments(r);
    assert Attachments(r, 0) == [];
    assert AtPath(a[0], ["log"], true);
    assert Relative(["log"]);
    assert LOG[..2] == CHECK && LOG[2..] == ["log"] && LOG[1][..6] == "check-";
    assert [] + LOG[..2] == CHECK;
  }

  lemma LoggedIsAdmitted(sha: Digest)
    ensures Admitted(sha, LoggedRecords(sha), Disk(LOGGED, map[], map[]), [])
  {
    hide Excused, Lookup;
    LoggedCheck(sha);
    var d, records := Disk(LOGGED, map[], map[]), LoggedRecords(sha);
    assert CHECK + ["log"] == LOG && [] + LOG == LOG;
    assert Relative(LOG) && Relative(["log"]);
    assert ReportThere(sha, d, CHECK, PassedCheck(sha));
    assert ListingThere(sha, d, [], [LOG]);
  }

  lemma LoggedIsSound(sha: Digest)
    ensures SoundFiles(sha, LoggedRecords(sha).reports, Disk(LOGGED, map[], map[]), [], {})
  {
    hide Candidate, Recording, Visible, LoggedRecords;
    LoggedCheck(sha);
    forall name | Visible(name) && [] + name in LOGGED
      ensures name != [] && Sound(sha, LoggedRecords(sha).reports, [], {}, name, LOGGED[[] + name])
    {
      assert [] + name == name;
      assert name == LOG || name == ["result.json"];
    }
  }

  lemma LoggedIsAcceptable(sha: Digest)
    ensures Acceptable(sha, LoggedRecords(sha), Disk(LOGGED, map[], map[]), [], {})
  {
    hide Usable, Admitted, SoundFiles;
    LoggedCheck(sha);
    LoggedIsAdmitted(sha);
    LoggedIsSound(sha);
  }

  /**
   * Re-running does not always finish a transaction. This result lists a log that its passed check allows leaving out:
   * the first run removes the log, and the next one refuses the archive because the listed file cannot be read.
   */
  method RefusedExample(sha: Digest) returns (first: Result<(), CompactError>, second: Result<(), CompactError>)
    requires Identifying(sha)
    ensures first.Ok? && second.Err? && second.error != Interrupted
  {
    hide Identifying, Intact, Acceptable, Advanced, RetainedFiles, CompressesOnly, Enough, Omittable, Spared, Candidate;
    var start := Disk(LOGGED, map[], map[]);
    var a := new Archives(sha, LoggedRecords(sha), LOGGED, Enough(start, []));
    LoggedIsAcceptable(sha);
    first := a.Compact([], {}, true);
    assert [] + LOG == LOG;
    LogIsListed(sha, start, a.Current());
    LogIsGone(sha, a.Current());
    RunsAgain(sha, LoggedRecords(sha), a.Before(), start, a.Current(), [], {});
    a.steps := Enough(a.Current(), []);
    second := a.Compact([], {}, true);
  }

  /** What the first run does with the two files of that archive. */
  lemma LogIsListed(sha: Digest, d: Disk, e: Disk)
    requires d == Disk(LOGGED, map[], map[]) && Advanced(LoggedRecords(sha).reports, d, e, [], {}) && [] in e.manifests
    requires RetainedFiles(LoggedRecords(sha).reports, [], {}, LOGGED, e.manifests[[]])
    requires CompressesOnly(map[], [], LOGGED, e.manifests[[]])
    ensures LOG in e.manifests[[]].omitted && !Lists(e.manifests[[]], ["result.json"])
    ensures e.manifests.Keys == {[]}
  {
    hide Candidate, Inherited;
    LoggedCheck(sha);
    var m :| Replaced(LoggedRecords(sha).reports, d, e, [], {}, m);
    assert [] + LOG == LOG && Visible(LOG);
    assert Retained(LoggedRecords(sha).reports, [], {}, LOG, 1, m);
    assert !OmittedDownTo(map[], [], 0, ["result.json"]);
  }

  /** Its log is left out, although the result lists it. */
  lemma LogIsGone(sha: Digest, e: Disk)
    requires e.manifests.Keys == {[]} && LOG in e.manifests[[]].omitted
    requires LOG !in e.files && ["result.json"] in e.files
    ensures !Spared(sha, LoggedRecords(sha), e, [])
  {
    hide Validated, ReportSpared;
    var root: Path := [];
    assert root + LOG == LOG && root + ["result.json"] == ["result.json"];
    assert LOG[..2] != root && LOG[..1] != root && LOG[..0] == root && LOG[0..] == LOG;
    assert Lists(e.manifests[root], LOG);
    assert Lookup(sha, e, LOG, 2) == Lookup(sha, e, LOG, 1) == Lookup(sha, e, LOG, 0) == Unavailable;
    assert LeftOut(sha, e, LOG);
    assert Listing(LoggedRecords(sha), e, root) == [LOG] && [LOG][0] == LOG != PREVIEW;
    assert !ListingSpared(sha, e, root, [LOG]);
  }
}
