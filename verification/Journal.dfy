/** A run recorder whose process and machine may stop at any moment, and recovery from what is left. */
module Journal {
  import opened Prelude
  import opened Contents
  import opened JournalText

  /** The run directory: the journal's bytes, how many of them are known to be durable, the artifacts, the final report. */
  datatype Disk = Disk(raw: Bytes, synced: nat, artifacts: map<string, Bytes>, report: Option<Identity>)

  /** The recorder of a running process. */
  datatype Recorder = Recorder(sequence: nat, failed: bool, closed: bool)

  datatype World = World(disk: Disk, open: Option<Recorder>)

  /** An append is complete and durable, or stops after some bytes with an error. */
  datatype Append = Whole | Torn(bytes: nat)

  /** A replacement of a file takes place, does not, or takes place and still reports an error. */
  datatype Replace = Done | Kept | Landed

  datatype Op =
    | Note(kind: string, text: string, write: Append)
    | Submit(content: Bytes, number: nat, key: Option<string>, accepted: bool, store: Replace, write: Append)
    | Finish(text: string, write: Append, save: Replace)
    | Crash(keep: nat)
    | Resume(discard: bool, store: Replace, truncate: Replace, write: Append)

  /** The new world, and the event that was acknowledged, if any. */
  datatype Outcome = Outcome(world: World, ack: Option<Entry>)

  const SUBMISSION := "submission"
  const RECOVERED := "journal.recovered"
  const FINISHED := "run.finished"

  function ArtifactPath(name: string): (p: string) { "artifacts/" + name }

  function RefOf(sha: Digest, content: Bytes): (r: Ref) { Ref(ArtifactPath(sha(content)), IdentityOf(sha, content)) }

  predicate Usable(w: World) { w.open.Some? && !w.open.value.closed && !w.open.value.failed }

  function Failing(w: World): (n: World)
    requires w.open.Some?
  {
    w.(open := Some(w.open.value.(failed := true)))
  }

  /** Appending one event. */
  function Appended(c: Codec, w: World, kind: string, data: Data, write: Append): (o: Outcome) {
    if !Usable(w) then Outcome(w, None)
    else
      var e := Entry(w.open.value.sequence + 1, kind, data);
      var line := Line(c, e);
      if write.Whole? then
        var raw := w.disk.raw + line;
        Outcome(World(w.disk.(raw := raw, synced := |raw|), Some(w.open.value.(sequence := e.sequence))), Some(e))
      else
        var part := if write.bytes <= |line| then line[..write.bytes] else line;
        Outcome(Failing(w.(disk := w.disk.(raw := w.disk.raw + part))), None)
  }

  datatype Stored = Stored(world: World, ok: bool)

  /** Storing an artifact under its digest; one that is already there is left alone. */
  function Archived(sha: Digest, w: World, content: Bytes, store: Replace): (s: Stored) {
    if sha(content) in w.disk.artifacts then Stored(w, w.open.Some?)
    else if !Usable(w) then Stored(w, false)
    else
      var landed := w.(disk := w.disk.(artifacts := w.disk.artifacts[sha(content) := content]));
      match store
      case Done => Stored(landed, true)
      case Kept => Stored(Failing(w), false)
      case Landed => Stored(Failing(landed), false)
  }

  /** Storing the candidate and then recording its submission. */
  function Submitted(c: Codec, sha: Digest, w: World, op: Op): (o: Outcome)
    requires op.Submit?
  {
    var stored := Archived(sha, w, op.content, op.store);
    if !stored.ok then Outcome(stored.world, None)
    else
      Appended(c, stored.world, SUBMISSION,
        Submission(Receipt(op.accepted, op.number, op.key, IdentityOf(sha, op.content)), RefOf(sha, op.content)), op.write)
  }

  /** Recording the end, then saving the report with the identity of the journal, then closing. */
  function Finished(c: Codec, sha: Digest, w: World, op: Op): (o: Outcome)
    requires op.Finish?
  {
    var noted := Appended(c, w, FINISHED, Other(op.text), op.write);
    if noted.ack.None? then noted
    else
      var saved := noted.world.(disk := noted.world.disk.(report := Some(IdentityOf(sha, noted.world.disk.raw))));
      match op.save
      case Done => Outcome(saved.(open := Some(saved.open.value.(closed := true))), noted.ack)
      case Kept => Outcome(Failing(noted.world), noted.ack)
      case Landed => Outcome(Failing(saved), noted.ack)
  }

  /** The machine stops: bytes that were not durable may be lost. */
  function Crashed(w: World, keep: nat): (n: World) {
    var k := if keep < w.disk.synced then w.disk.synced else keep;
    World(w.disk.(raw := if k < |w.disk.raw| then w.disk.raw[..k] else w.disk.raw), None)
  }

  function Stopped(w: World): (n: World) { w.(open := None) }

  /** Reopening the journal: an unfinished tail is stored as an artifact, cut off, and its recovery recorded. */
  function Resumed(c: Codec, sha: Digest, w: World, op: Op): (o: Outcome)
    requires op.Resume?
  {
    var journal := Read(c, w.disk.raw, op.discard);
    if w.open.Some? || journal.Err? then Outcome(w, None)
    else
      var reopened := w.(open := Some(Recorder(|journal.value.events|, false, false)));
      if !journal.value.incomplete then Outcome(reopened, None)
      else
        var tail := Tail(w.disk.raw);
        var stored := Archived(sha, reopened, tail, op.store);
        var cut := w.disk.raw[..|w.disk.raw| - |tail|];
        var truncated := stored.world.(disk := stored.world.disk.(raw := cut, synced := |cut|));
        if !stored.ok || op.truncate.Kept? then Outcome(Stopped(stored.world), None)
        else if op.truncate.Landed? then Outcome(Stopped(truncated), None)
        else
          var noted := Appended(c, truncated, RECOVERED, Recovered(RefOf(sha, tail)), op.write);
          if noted.ack.None? then Outcome(Stopped(noted.world), None) else noted
  }

  function Step(c: Codec, sha: Digest, w: World, op: Op): (o: Outcome) {
    match op
    case Note(kind, text, write) => Appended(c, w, kind, Other(text), write)
    case Submit(_, _, _, _, _, _) => Submitted(c, sha, w, op)
    case Finish(_, _, _) => Finished(c, sha, w, op)
    case Crash(keep) => Outcome(Crashed(w, keep), None)
    case Resume(_, _, _, _) => Resumed(c, sha, w, op)
  }

  /** Submissions are recorded by submitting, events have kinds, and the digests of candidates are digests. */
  predicate Proper(sha: Digest, op: Op) {
    && (op.Note? ==> op.kind != "" && op.kind != SUBMISSION)
    && (op.Submit? ==> IsDigest(sha(op.content)))
  }

  function Fresh(): (w: World) { World(Disk("", 0, map[], None), Some(Recorder(0, false, false))) }

  function Run(c: Codec, sha: Digest, w: World, ops: seq<Op>): (n: World)
    decreases |ops|
  {
    if ops == [] then w else Run(c, sha, Step(c, sha, w, ops[0]).world, ops[1..])
  }

  function AckOf(o: Outcome): (a: seq<Entry>) { if o.ack.Some? then [o.ack.value] else [] }

  /** The acknowledged events of a run, in order. */
  function Acks(c: Codec, sha: Digest, w: World, ops: seq<Op>): (a: seq<Entry>)
    decreases |ops|
  {
    if ops == [] then []
    else
      var o := Step(c, sha, w, ops[0]);
      AckOf(o) + Acks(c, sha, o.world, ops[1..])
  }

  // ---- The invariant -------------------------------------------------------------------------

  /** An event that is in the journal, in bytes that are durable. */
  ghost predicate Lasting(c: Codec, synced: nat, es: seq<Entry>, a: Entry) {
    1 <= a.sequence <= |es| && es[a.sequence - 1] == a && |Text(c, es[..a.sequence])| <= synced
  }

  ghost predicate Durable(c: Codec, synced: nat, es: seq<Entry>, acks: seq<Entry>) {
    forall k :: 0 <= k < |acks| ==> Lasting(c, synced, es, acks[k])
  }

  predicate Rising(acks: seq<Entry>) {
    forall a, b :: 0 <= a < b < |acks| ==> acks[a].sequence < acks[b].sequence
  }

  predicate Addressed(sha: Digest, artifacts: map<string, Bytes>) {
    forall name :: name in artifacts ==> sha(artifacts[name]) == name
  }

  /** A recorded submission is of an artifact that is there. */
  predicate Backed(artifacts: map<string, Bytes>, e: Entry) {
    && (e.kind == SUBMISSION <==> e.data.Submission?)
    && (e.data.Submission? ==>
      var ref := e.data.candidate;
      && e.data.receipt.identity == ref.identity && ref.path == ArtifactPath(ref.identity.sha256) && IsDigest(ref.identity.sha256)
      && ref.identity.sha256 in artifacts && |artifacts[ref.identity.sha256]| == ref.identity.bytes)
  }

  predicate AllBacked(artifacts: map<string, Bytes>, es: seq<Entry>) {
    forall k :: 0 <= k < |es| ==> Backed(artifacts, es[k])
  }

  /** While the recorder works, the journal ends with its last event; a closed one is bound by the report. */
  predicate InStep(sha: Digest, w: World, es: seq<Entry>, tail: Bytes) {
    && (Usable(w) ==> tail == "" && w.open.value.sequence == |es|)
    && (w.open.Some? && w.open.value.closed ==> w.disk.report == Some(IdentityOf(sha, w.disk.raw)))
  }

  ghost predicate Sound(c: Codec, sha: Digest, w: World, es: seq<Entry>, tail: Bytes, acks: seq<Entry>) {
    && Framed(c, w.disk.raw, es, tail) && w.disk.synced <= |w.disk.raw|
    && Durable(c, w.disk.synced, es, acks) && Rising(acks)
    && Addressed(sha, w.disk.artifacts) && AllBacked(w.disk.artifacts, es)
    && InStep(sha, w, es, tail)
  }

  // ---- Every operation keeps it --------------------------------------------------------------

  lemma KeptSnoc(c: Codec, synced: nat, es: seq<Entry>, e: Entry, more: nat, a: Entry)
    requires Lasting(c, synced, es, a) && synced <= more
    ensures Lasting(c, more, es + [e], a)
  {
    assert (es + [e])[..a.sequence] == es[..a.sequence];
  }

  lemma NumberedSnoc(es: seq<Entry>, e: Entry)
    requires Numbered(es) && e.sequence == |es| + 1 && e.kind != ""
    ensures Numbered(es + [e])
  {
  }

  lemma RisingSnoc(c: Codec, synced: nat, es: seq<Entry>, acks: seq<Entry>, e: Entry)
    requires Rising(acks) && Durable(c, synced, es, acks) && e.sequence == |es| + 1
    ensures Rising(acks + [e])
  {
    forall a | 0 <= a < |acks| ensures acks[a].sequence < e.sequence {
      assert Lasting(c, synced, es, acks[a]);
    }
  }

  lemma WholeFramed(c: Codec, raw: Bytes, es: seq<Entry>, e: Entry)
    requires Framed(c, raw, es, "") && e.sequence == |es| + 1 && e.kind != ""
    ensures Framed(c, raw + Line(c, e), es + [e], "") && |Text(c, es + [e])| == |raw + Line(c, e)|
  {
    hide Line, Text, Numbered;
    TextSnoc(c, es, e);
    NumberedSnoc(es, e);
    assert raw == Text(c, es);
    assert Text(c, es + [e]) + "" == Text(c, es + [e]);
  }

  lemma TornFramed(c: Codec, raw: Bytes, es: seq<Entry>, e: Entry, k: nat)
    requires Faithful(c) && Framed(c, raw, es, "") && e.sequence == |es| + 1 && e.kind != "" && k < |Line(c, e)|
    ensures Framed(c, raw + Line(c, e)[..k], es, Line(c, e)[..k])
  {
    hide Text, Numbered;
    assert Written(c, e);
    assert Line(c, e)[..k] == c.enc(e)[..k];
    OneLinePrefix(c.enc(e), k);
    assert raw == Text(c, es);
  }

  lemma BackedSnoc(artifacts: map<string, Bytes>, es: seq<Entry>, e: Entry)
    requires AllBacked(artifacts, es) && Backed(artifacts, e)
    ensures AllBacked(artifacts, es + [e])
  {
    hide Backed;
  }

  lemma AppendWhole(c: Codec, sha: Digest, w: World, es: seq<Entry>, acks: seq<Entry>, kind: string, data: Data)
    requires Sound(c, sha, w, es, "", acks) && Usable(w) && kind != ""
    requires Backed(w.disk.artifacts, Entry(|es| + 1, kind, data))
    ensures
      var o, e := Appended(c, w, kind, data, Whole), Entry(|es| + 1, kind, data);
      o.ack == Some(e) && Usable(o.world) && Sound(c, sha, o.world, es + [e], "", acks + [e])
  {
    hide Line, Text, Framed, Backed, Numbered, Addressed, Rising, AllBacked;
    var e := Entry(|es| + 1, kind, data);
    var o := Appended(c, w, kind, data, Whole);
    WholeFramed(c, w.disk.raw, es, e);
    RisingSnoc(c, w.disk.synced, es, acks, e);
    BackedSnoc(w.disk.artifacts, es, e);
    forall k | 0 <= k < |acks + [e]| ensures Lasting(c, o.world.disk.synced, es + [e], (acks + [e])[k]) {
      if k < |acks| {
        FramedLength(c, w.disk.raw, es);
        KeptSnoc(c, w.disk.synced, es, e, o.world.disk.synced, acks[k]);
      } else {
        assert (es + [e])[..e.sequence] == es + [e];
      }
    }
  }

  lemma FramedLength(c: Codec, raw: Bytes, es: seq<Entry>)
    requires Framed(c, raw, es, "")
    ensures raw == Text(c, es)
  {
    hide Text;
  }

  lemma AppendTorn(
    c: Codec, sha: Digest, w: World, es: seq<Entry>, acks: seq<Entry>, kind: string, data: Data, bytes: nat)
    returns (ds: seq<Entry>, tail: Bytes)
    requires Faithful(c) && Sound(c, sha, w, es, "", acks) && Usable(w) && kind != ""
    requires Backed(w.disk.artifacts, Entry(|es| + 1, kind, data))
    ensures
      var o := Appended(c, w, kind, data, Torn(bytes));
      o.ack.None? && !Usable(o.world) && Sound(c, sha, o.world, ds, tail, acks)
  {
    hide Faithful, Line, Text, Framed, Backed, Numbered, Addressed, Rising, AllBacked;
    var e := Entry(|es| + 1, kind, data);
    var line := Line(c, e);
    if bytes < |line| {
      ds, tail := es, line[..bytes];
      TornFramed(c, w.disk.raw, es, e, bytes);
    } else {
      ds, tail := es + [e], "";
      assert line[..|line|] == line;
      WholeFramed(c, w.disk.raw, es, e);
      BackedSnoc(w.disk.artifacts, es, e);
      forall k | 0 <= k < |acks| ensures Lasting(c, w.disk.synced, es + [e], acks[k]) {
        KeptSnoc(c, w.disk.synced, es, e, w.disk.synced, acks[k]);
      }
    }
  }

  lemma AppendKeeps(
    c: Codec, sha: Digest, w: World, es: seq<Entry>, tail: Bytes, acks: seq<Entry>, kind: string, data: Data, write: Append)
    returns (ds: seq<Entry>, rest: Bytes)
    requires Faithful(c) && Sound(c, sha, w, es, tail, acks) && kind != ""
    requires Backed(w.disk.artifacts, Entry(|es| + 1, kind, data))
    ensures
      var o := Appended(c, w, kind, data, write);
      Sound(c, sha, o.world, ds, rest, acks + AckOf(o))
  {
    hide Faithful, Line, Framed, Backed, Addressed, Durable, Rising, AllBacked;
    assert acks + [] == acks;
    if !Usable(w) {
      ds, rest := es, tail;
    } else if write.Whole? {
      ds, rest := es + [Entry(|es| + 1, kind, data)], "";
      AppendWhole(c, sha, w, es, acks, kind, data);
    } else {
      ds, rest := AppendTorn(c, sha, w, es, acks, kind, data, write.bytes);
    }
  }

  lemma ArchiveOnlyArtifacts(sha: Digest, w: World, content: Bytes, store: Replace)
    ensures
      var s := Archived(sha, w, content, store);
      && s.world.disk == w.disk.(artifacts := s.world.disk.artifacts)
      && (s.ok ==> s.world.open == w.open)
  {
  }

  /** The content is stored under its digest. */
  predicate Holds(disk: Disk, sha: Digest, content: Bytes) {
    sha(content) in disk.artifacts && disk.artifacts[sha(content)] == content
  }

  /** Storing an artifact changes nothing but artifacts, and afterwards the artifact is there if it succeeded. */
  lemma ArchiveFacts(sha: Digest, w: World, content: Bytes, store: Replace)
    requires Identifying(sha) && Addressed(sha, w.disk.artifacts)
    ensures
      var s := Archived(sha, w, content, store);
      && s.world.disk == w.disk.(artifacts := s.world.disk.artifacts)
      && Addressed(sha, s.world.disk.artifacts)
      && (forall name :: name in w.disk.artifacts ==>
        name in s.world.disk.artifacts && s.world.disk.artifacts[name] == w.disk.artifacts[name])
      && (s.ok ==> s.world.open == w.open && w.open.Some? && Holds(s.world.disk, sha, content))
      && (!s.ok ==> !Usable(s.world) && (s.world.open.Some? <==> w.open.Some?))
      && (s.world.open.Some? ==> s.world.open.value.closed == w.open.value.closed)
      && (Usable(s.world) ==> s.world.open == w.open)
  {
  }

  lemma BackedGrows(before: map<string, Bytes>, after: map<string, Bytes>, es: seq<Entry>)
    requires AllBacked(before, es)
    requires forall name :: name in before ==> name in after && after[name] == before[name]
    ensures AllBacked(after, es)
  {
    forall k | 0 <= k < |es| ensures Backed(after, es[k]) {
      assert Backed(before, es[k]);
    }
  }

  lemma ArchiveKeeps(c: Codec, sha: Digest, w: World, es: seq<Entry>, tail: Bytes, acks: seq<Entry>, content: Bytes, store: Replace)
    requires Identifying(sha) && Sound(c, sha, w, es, tail, acks)
    ensures Sound(c, sha, Archived(sha, w, content, store).world, es, tail, acks)
  {
    hide Archived, Framed, Durable, Rising, Addressed, AllBacked, Identifying;
    SoundArtifacts(c, sha, w, es, tail, acks);
    ArchiveFacts(sha, w, content, store);
    BackedGrows(w.disk.artifacts, Archived(sha, w, content, store).world.disk.artifacts, es);
  }

  lemma SoundArtifacts(c: Codec, sha: Digest, w: World, es: seq<Entry>, tail: Bytes, acks: seq<Entry>)
    requires Sound(c, sha, w, es, tail, acks)
    ensures Addressed(sha, w.disk.artifacts) && AllBacked(w.disk.artifacts, es)
  {
  }

  lemma SubmitKeeps(c: Codec, sha: Digest, w: World, es: seq<Entry>, tail: Bytes, acks: seq<Entry>, op: Op)
    returns (ds: seq<Entry>, rest: Bytes)
    requires Faithful(c) && Identifying(sha) && Sound(c, sha, w, es, tail, acks) && op.Submit? && Proper(sha, op)
    ensures
      var o := Submitted(c, sha, w, op);
      Sound(c, sha, o.world, ds, rest, acks + AckOf(o))
  {
    hide Archived, Appended, Sound, Faithful, Identifying, Addressed, AllBacked, IsDigest;
    SoundArtifacts(c, sha, w, es, tail, acks);
    ArchiveFacts(sha, w, op.content, op.store);
    ArchiveKeeps(c, sha, w, es, tail, acks, op.content, op.store);
    var stored := Archived(sha, w, op.content, op.store);
    assert acks + [] == acks;
    if !stored.ok {
      ds, rest := es, tail;
    } else {
      var data := Submission(Receipt(op.accepted, op.number, op.key, IdentityOf(sha, op.content)), RefOf(sha, op.content));
      ds, rest := AppendKeeps(c, sha, stored.world, es, tail, acks, SUBMISSION, data, op.write);
    }
  }

  /** The event says of the submission what the operation says. */
  predicate RecordsSubmission(sha: Digest, op: Op, e: Entry)
    requires op.Submit?
  {
    && e.kind == SUBMISSION && e.data.Submission?
    && e.data.receipt.accepted == op.accepted && e.data.receipt.number == op.number && e.data.receipt.key == op.key
    && e.data.receipt.identity.sha256 == sha(op.content) && e.data.receipt.identity.bytes == |op.content|
    && e.data.candidate.path == ArtifactPath(sha(op.content))
    && e.data.candidate.identity.sha256 == sha(op.content) && e.data.candidate.identity.bytes == |op.content|
  }

  /** An acknowledged submission is the next event, says what was submitted, and its candidate is stored. */
  lemma SubmissionRecorded(c: Codec, sha: Digest, w: World, op: Op)
    requires op.Submit?
    ensures
      var o := Submitted(c, sha, w, op);
      o.ack.Some? ==>
        && w.open.Some? && o.ack.value.sequence == w.open.value.sequence + 1
        && RecordsSubmission(sha, op, o.ack.value)
        && (Identifying(sha) && Addressed(sha, w.disk.artifacts) ==> Holds(o.world.disk, sha, op.content))
  {
    hide Line, Identifying, Addressed;
    if Identifying(sha) && Addressed(sha, w.disk.artifacts) {
      ArchiveFacts(sha, w, op.content, op.store);
    }
  }

  lemma FinishKeeps(c: Codec, sha: Digest, w: World, es: seq<Entry>, tail: Bytes, acks: seq<Entry>, op: Op)
    returns (ds: seq<Entry>, rest: Bytes)
    requires Faithful(c) && Sound(c, sha, w, es, tail, acks) && op.Finish?
    ensures
      var o := Finished(c, sha, w, op);
      Sound(c, sha, o.world, ds, rest, acks + AckOf(o))
  {
    hide Faithful, Framed, Durable, Rising, Addressed, AllBacked, Line;
    ds, rest := AppendKeeps(c, sha, w, es, tail, acks, FINISHED, Other(op.text), op.write);
  }

  lemma PrefixBacked(artifacts: map<string, Bytes>, es: seq<Entry>, m: nat)
    requires AllBacked(artifacts, es) && m <= |es|
    ensures AllBacked(artifacts, es[..m])
  {
    hide Backed;
  }

  lemma CrashKeeps(c: Codec, sha: Digest, w: World, es: seq<Entry>, tail: Bytes, acks: seq<Entry>, keep: nat)
    returns (ds: seq<Entry>, rest: Bytes)
    requires Faithful(c) && Sound(c, sha, w, es, tail, acks)
    ensures Sound(c, sha, Crashed(w, keep), ds, rest, acks)
  {
    hide Faithful, Rising, Addressed, AllBacked, Text;
    var k := if keep < w.disk.synced then w.disk.synced else keep;
    if k < |w.disk.raw| {
      var m;
      m, rest := CutFramed(c, es, tail, k);
      ds := es[..m];
      PrefixBacked(w.disk.artifacts, es, m);
      forall j | 0 <= j < |acks| ensures Lasting(c, w.disk.synced, ds, acks[j]) {
        assert Lasting(c, w.disk.synced, es, acks[j]);
        assert es[..m][..acks[j].sequence] == es[..acks[j].sequence];
      }
    } else {
      ds, rest := es, tail;
    }
  }

  lemma TruncateKeeps(c: Codec, sha: Digest, w: World, es: seq<Entry>, tail: Bytes, acks: seq<Entry>)
    requires Framed(c, w.disk.raw, es, tail) && Durable(c, w.disk.synced, es, acks) && w.disk.synced <= |w.disk.raw|
    ensures
      var cut := w.disk.raw[..|w.disk.raw| - |tail|];
      Framed(c, cut, es, "") && Durable(c, |cut|, es, acks)
  {
    hide Numbered;
    var cut := w.disk.raw[..|w.disk.raw| - |tail|];
    assert cut == Text(c, es) == Text(c, es) + "";
    forall k | 0 <= k < |acks| ensures Lasting(c, |cut|, es, acks[k]) {
      assert Lasting(c, w.disk.synced, es, acks[k]);
      TextGrows(c, es, acks[k].sequence);
    }
  }

  lemma ResumeKeeps(c: Codec, sha: Digest, w: World, es: seq<Entry>, tail: Bytes, acks: seq<Entry>, op: Op)
    returns (ds: seq<Entry>, rest: Bytes)
    requires Faithful(c) && Identifying(sha) && Sound(c, sha, w, es, tail, acks) && op.Resume?
    ensures
      var o := Resumed(c, sha, w, op);
      Sound(c, sha, o.world, ds, rest, acks + AckOf(o))
  {
    hide Faithful, Identifying, Read, Tail, Archived, Appended, Framed, Durable, Rising, Addressed, AllBacked, Backed;
    ReadsWritten(c, w.disk.raw, es, tail);
    var journal := Read(c, w.disk.raw, op.discard);
    assert acks + [] == acks;
    ds, rest := es, tail;
    if w.open.None? && journal.Ok? && journal.value.incomplete {
      var reopened := w.(open := Some(Recorder(|es|, false, false)));
      ArchiveFacts(sha, reopened, tail, op.store);
      var stored := Archived(sha, reopened, tail, op.store);
      BackedGrows(w.disk.artifacts, stored.world.disk.artifacts, es);
      TruncateKeeps(c, sha, w, es, tail, acks);
      if stored.ok && !op.truncate.Kept? {
        rest := "";
        if op.truncate.Done? {
          ds, rest := ResumeNotes(c, sha, w, es, tail, acks, op, stored.world);
        }
      }
    }
  }

  lemma ResumeNotes(
    c: Codec, sha: Digest, w: World, es: seq<Entry>, tail: Bytes, acks: seq<Entry>, op: Op, stored: World)
    returns (ds: seq<Entry>, rest: Bytes)
    requires Faithful(c) && op.Resume? && Rising(acks) && |tail| <= |w.disk.raw|
    requires stored.open == Some(Recorder(|es|, false, false))
    requires stored.disk == w.disk.(artifacts := stored.disk.artifacts)
    requires Addressed(sha, stored.disk.artifacts) && AllBacked(stored.disk.artifacts, es)
    requires
      var cut := w.disk.raw[..|w.disk.raw| - |tail|];
      Framed(c, cut, es, "") && Durable(c, |cut|, es, acks)
    ensures
      var cut := w.disk.raw[..|w.disk.raw| - |tail|];
      var truncated := stored.(disk := stored.disk.(raw := cut, synced := |cut|));
      var noted := Appended(c, truncated, RECOVERED, Recovered(RefOf(sha, tail)), op.write);
      var world := if noted.ack.None? then Stopped(noted.world) else noted.world;
      Sound(c, sha, world, ds, rest, acks + AckOf(noted))
  {
    hide Faithful, Framed, Durable, Rising, Addressed, AllBacked, Appended;
    var cut := w.disk.raw[..|w.disk.raw| - |tail|];
    var truncated := stored.(disk := stored.disk.(raw := cut, synced := |cut|));
    ds, rest := AppendKeeps(c, sha, truncated, es, "", acks, RECOVERED, Recovered(RefOf(sha, tail)), op.write);
  }

  lemma StepKeeps(c: Codec, sha: Digest, w: World, es: seq<Entry>, tail: Bytes, acks: seq<Entry>, op: Op)
    returns (ds: seq<Entry>, rest: Bytes)
    requires Faithful(c) && Identifying(sha) && Sound(c, sha, w, es, tail, acks) && Proper(sha, op)
    ensures
      var o := Step(c, sha, w, op);
      Sound(c, sha, o.world, ds, rest, acks + AckOf(o))
  {
    hide Faithful, Identifying, Sound, Appended, Submitted, Finished, Resumed, Crashed;
    match op
    case Note(kind, text, write) => ds, rest := AppendKeeps(c, sha, w, es, tail, acks, kind, Other(text), write);
    case Submit(_, _, _, _, _, _) => ds, rest := SubmitKeeps(c, sha, w, es, tail, acks, op);
    case Finish(_, _, _) => ds, rest := FinishKeeps(c, sha, w, es, tail, acks, op);
    case Crash(keep) =>
      ds, rest := CrashKeeps(c, sha, w, es, tail, acks, keep);
      assert acks + [] == acks;
    case Resume(_, _, _, _) => ds, rest := ResumeKeeps(c, sha, w, es, tail, acks, op);
  }

  lemma {:induction false} RunKeeps(c: Codec, sha: Digest, w: World, es: seq<Entry>, tail: Bytes, acks: seq<Entry>, ops: seq<Op>)
    returns (ds: seq<Entry>, rest: Bytes)
    requires Faithful(c) && Identifying(sha) && Sound(c, sha, w, es, tail, acks)
    requires forall k :: 0 <= k < |ops| ==> Proper(sha, ops[k])
    ensures Sound(c, sha, Run(c, sha, w, ops), ds, rest, acks + Acks(c, sha, w, ops))
    decreases |ops|
  {
    hide Faithful, Identifying, Sound, Step;
    if ops == [] {
      ds, rest := es, tail;
      assert acks + [] == acks;
    } else {
      var o := Step(c, sha, w, ops[0]);
      ds, rest := StepKeeps(c, sha, w, es, tail, acks, ops[0]);
      ds, rest := RunKeeps(c, sha, o.world, ds, rest, acks + AckOf(o), ops[1..]);
      assert acks + AckOf(o) + Acks(c, sha, o.world, ops[1..]) == acks + (AckOf(o) + Acks(c, sha, o.world, ops[1..]));
    }
  }

  lemma FreshSound(c: Codec, sha: Digest)
    ensures Sound(c, sha, Fresh(), [], "", [])
  {
    assert Text(c, []) == "";
  }

  /**
   * After any run of appends, torn lines, crashes and resumes, the journal reads back: its events are numbered from
   * one, they contain every acknowledged event at its own number and in order, and none comes from an unfinished line.
   */
  lemma JournalReadsBack(c: Codec, sha: Digest, ops: seq<Op>) returns (es: seq<Entry>, tail: Bytes)
    requires Faithful(c) && Identifying(sha) && forall k :: 0 <= k < |ops| ==> Proper(sha, ops[k])
    ensures
      var raw, acks := Run(c, sha, Fresh(), ops).disk.raw, Acks(c, sha, Fresh(), ops);
      && Read(c, raw, true) == Ok(Journal(es, tail != "")) && (Read(c, raw, false).Ok? <==> tail == "")
      && Framed(c, raw, es, tail)
      && Rising(acks) && forall k :: 0 <= k < |acks| ==> 1 <= acks[k].sequence <= |es| && es[acks[k].sequence - 1] == acks[k]
  {
    hide Faithful, Identifying, Read, Framed, Rising, Addressed, AllBacked, Run, Acks, InStep;
    FreshSound(c, sha);
    es, tail := RunKeeps(c, sha, Fresh(), [], "", [], ops);
    var w, acks := Run(c, sha, Fresh(), ops), Acks(c, sha, Fresh(), ops);
    assert [] + acks == acks;
    ReadsWritten(c, w.disk.raw, es, tail);
    forall k | 0 <= k < |acks| ensures 1 <= acks[k].sequence <= |es| && es[acks[k].sequence - 1] == acks[k] {
      assert Lasting(c, w.disk.synced, es, acks[k]);
    }
  }

  /** Once the recorder is closed, the saved report identifies the journal's exact bytes. */
  lemma ClosedJournalIsBound(c: Codec, sha: Digest, ops: seq<Op>)
    requires Faithful(c) && Identifying(sha) && forall k :: 0 <= k < |ops| ==> Proper(sha, ops[k])
    ensures
      var w := Run(c, sha, Fresh(), ops);
      w.open.Some? && w.open.value.closed ==> w.disk.report == Some(IdentityOf(sha, w.disk.raw))
  {
    hide Faithful, Identifying, Framed, Rising, Addressed, AllBacked, Run, Acks;
    FreshSound(c, sha);
    var es, tail := RunKeeps(c, sha, Fresh(), [], "", [], ops);
  }

  // ---- The unfinished tail -------------------------------------------------------------------

  /** The unfinished bytes are still at the end of the journal, or they are an artifact. */
  predicate TailPreserved(sha: Digest, n: World, tail: Bytes) {
    Holds(n.disk, sha, tail) || (|tail| <= |n.disk.raw| && n.disk.raw[|n.disk.raw| - |tail|..] == tail)
  }

  /**
   * Whatever fails while reopening, the unfinished bytes are not lost. When it succeeds they are stored verbatim, the
   * journal is cut back to its events, and the recovery is the next event.
   */
  lemma TailIsArchived(c: Codec, sha: Digest, w: World, es: seq<Entry>, tail: Bytes, op: Op)
    requires Faithful(c) && Identifying(sha) && Addressed(sha, w.disk.artifacts) && Framed(c, w.disk.raw, es, tail)
    requires op.Resume? && w.open.None? && tail != ""
    ensures
      var o := Resumed(c, sha, w, op);
      && TailPreserved(sha, o.world, tail)
      && (!op.discard ==> o == Outcome(w, None))
      && (o.world.open.Some? ==>
        var e := Entry(|es| + 1, RECOVERED, Recovered(RefOf(sha, tail)));
        && Holds(o.world.disk, sha, tail) && o.ack == Some(e)
        && o.world.disk.raw == Text(c, es + [e]) && o.world.open == Some(Recorder(|es| + 1, false, false)))
  {
    hide Faithful, Identifying, Read, Tail, Archived, Framed, Addressed, Line, Text, Numbered;
    ReadsWritten(c, w.disk.raw, es, tail);
    FramedParts(c, w.disk.raw, es, tail);
    if op.discard {
      var reopened := w.(open := Some(Recorder(|es|, false, false)));
      ArchiveFacts(sha, reopened, tail, op.store);
      TextSnoc(c, es, Entry(|es| + 1, RECOVERED, Recovered(RefOf(sha, tail))));
    }
  }

  lemma FramedParts(c: Codec, raw: Bytes, es: seq<Entry>, tail: Bytes)
    requires Framed(c, raw, es, tail)
    ensures |tail| <= |raw| && raw[..|raw| - |tail|] == Text(c, es) && raw[|raw| - |tail|..] == tail
  {
    hide Text, Numbered;
  }

  // ---- Recovering submissions ----------------------------------------------------------------

  datatype Recovery = Recovery(submissions: seq<Receipt>, candidate: Option<Ref>, events: nat, incomplete: bool)

  datatype RecoverError = Unreadable | BadEntry | BadArtifact | Mismatch

  /** A recorded acceptance names an artifact that is there, with the identity of its content. */
  function CheckAccepted(sha: Digest, disk: Disk, receipt: Receipt, ref: Ref): (e: Option<RecoverError>) {
    if ref.path != ArtifactPath(ref.identity.sha256) || !IsDigest(ref.identity.sha256) then Some(BadArtifact)
    else if ref.identity.sha256 !in disk.artifacts then Some(BadArtifact)
    else
      var actual := IdentityOf(sha, disk.artifacts[ref.identity.sha256]);
      if ref.identity != actual || receipt.identity != actual then Some(Mismatch) else None
  }

  function CheckEntry(sha: Digest, disk: Disk, e: Entry): (r: Option<RecoverError>) {
    if e.kind != SUBMISSION then None
    else if !e.data.Submission? then Some(BadEntry)
    else if e.data.receipt.accepted then CheckAccepted(sha, disk, e.data.receipt, e.data.candidate)
    else None
  }

  predicate IsSubmission(e: Entry) { e.kind == SUBMISSION && e.data.Submission? }

  predicate IsAccepted(e: Entry) { IsSubmission(e) && e.data.receipt.accepted }

  /** The receipts of the submissions among the first `k` events, in order. */
  function Receipts(es: seq<Entry>, k: nat): (rs: seq<Receipt>)
    requires k <= |es|
  {
    if k == 0 then [] else Receipts(es, k - 1) + (if IsSubmission(es[k - 1]) then [es[k - 1].data.receipt] else [])
  }

  /** `ref` is the candidate of the last accepted submission, absent when there is none. */
  predicate LastAccepted(es: seq<Entry>, k: nat, ref: Option<Ref>)
    requires k <= |es|
  {
    match ref
    case None => forall m :: 0 <= m < k ==> !IsAccepted(es[m])
    case Some(r) => exists n :: 0 <= n < k && AcceptedAt(es, n, r) && forall m :: n < m < k ==> !IsAccepted(es[m])
  }

  predicate AcceptedAt(es: seq<Entry>, n: nat, r: Ref)
    requires n < |es|
  {
    IsAccepted(es[n]) && es[n].data.candidate == r
  }

  predicate AllChecked(sha: Digest, disk: Disk, es: seq<Entry>, k: nat)
    requires k <= |es|
  {
    forall m :: 0 <= m < k ==> CheckEntry(sha, disk, es[m]) == None
  }

  predicate Recoverable(sha: Digest, disk: Disk, es: seq<Entry>) {
    AllChecked(sha, disk, es, |es|)
  }

  /** Reads the committed submissions; succeeds exactly when the journal reads and every submission in it checks. */
  method RecoverSubmissions(c: Codec, sha: Digest, disk: Disk) returns (r: Result<Recovery, RecoverError>)
    ensures r.Ok? <==> (Read(c, disk.raw, true).Ok? && Recoverable(sha, disk, Read(c, disk.raw, true).value.events))
    ensures r.Ok? ==>
      var j := Read(c, disk.raw, true).value;
      && r.value.submissions == Receipts(j.events, |j.events|) && LastAccepted(j.events, |j.events|, r.value.candidate)
      && r.value.events == |j.events| && r.value.incomplete == j.incomplete
  {
    hide Read, CheckAccepted, AreEvents, Lines, Tail;
    var journal := ReadJournal(c, disk.raw, true);
    if journal.Err? {
      return Err(Unreadable);
    }
    var es := journal.value.events;
    var submissions: seq<Receipt>, candidate: Option<Ref> := [], None;
    for k := 0 to |es|
      invariant AllChecked(sha, disk, es, k)
      invariant submissions == Receipts(es, k) && LastAccepted(es, k, candidate)
    {
      var error := CheckEntry(sha, disk, es[k]);
      if error.Some? {
        return Err(error.value);
      }
      if es[k].kind == SUBMISSION {
        if es[k].data.receipt.accepted {
          candidate := Some(es[k].data.candidate);
          assert AcceptedAt(es, k, candidate.value);
        }
        submissions := submissions + [es[k].data.receipt];
      }
    }
    return Ok(Recovery(submissions, candidate, |es|, journal.value.incomplete));
  }

  lemma BackedChecks(sha: Digest, disk: Disk, e: Entry)
    requires Addressed(sha, disk.artifacts) && Backed(disk.artifacts, e)
    ensures CheckEntry(sha, disk, e) == None
  {
  }

  /**
   * After any run, recovery succeeds on the journal that is left, and an acknowledged accepted submission is never
   * forgotten: the candidate is that of the last accepted submission, at or after every acknowledged one.
   */
  lemma RecoveryFindsLast(c: Codec, sha: Digest, ops: seq<Op>, a: Entry) returns (es: seq<Entry>, tail: Bytes)
    requires Faithful(c) && Identifying(sha) && forall k :: 0 <= k < |ops| ==> Proper(sha, ops[k])
    ensures
      var disk := Run(c, sha, Fresh(), ops).disk;
      && Read(c, disk.raw, true) == Ok(Journal(es, tail != "")) && Recoverable(sha, disk, es)
      && (a in Acks(c, sha, Fresh(), ops) && IsAccepted(a) ==>
        && 1 <= a.sequence <= |es| && es[a.sequence - 1] == a
        && forall ref :: LastAccepted(es, |es|, ref) ==> exists n :: a.sequence - 1 <= n < |es| && ref.Some? && AcceptedAt(es, n, ref.value))
  {
    hide Faithful, Identifying, Read, Framed, Rising, Run, Acks, InStep, Backed, Addressed, CheckEntry;
    FreshSound(c, sha);
    es, tail := RunKeeps(c, sha, Fresh(), [], "", [], ops);
    var w, acks := Run(c, sha, Fresh(), ops), Acks(c, sha, Fresh(), ops);
    assert [] + acks == acks;
    ReadsWritten(c, w.disk.raw, es, tail);
    forall m | 0 <= m < |es| ensures CheckEntry(sha, w.disk, es[m]) == None {
      BackedChecks(sha, w.disk, es[m]);
    }
    if a in acks && IsAccepted(a) {
      var k :| 0 <= k < |acks| && acks[k] == a;
      assert Lasting(c, w.disk.synced, es, acks[k]);
    }
  }

  // ---- The recorder --------------------------------------------------------------------------

  /** The recorder as its users call it; every method takes the step that its operation stands for. */
  class RunRecorder {
    const codec: Codec
    const sha: Digest
    var disk: Disk
    var sequence: nat
    var failed: bool
    var closed: bool

    function Current(): (w: World)
      reads this
    {
      World(disk, Some(Recorder(sequence, failed, closed)))
    }

    constructor (codec: Codec, sha: Digest)
      ensures Current() == Fresh() && this.codec == codec && this.sha == sha
    {
      this.codec, this.sha := codec, sha;
      disk := Disk("", 0, map[], None);
      sequence, failed, closed := 0, false, false;
    }

    method Event(kind: string, data: Data, write: Append) returns (e: Option<Entry>)
      modifies this
      ensures Outcome(Current(), e) == Appended(codec, old(Current()), kind, data, write)
      ensures e.Some? ==> e.value == Entry(old(sequence) + 1, kind, data) && disk.synced == |disk.raw|
    {
      e := None;
      if !closed && !failed {
        var entry := Entry(sequence + 1, kind, data);
        var line := Line(codec, entry);
        if write.Whole? {
          disk := disk.(raw := disk.raw + line, synced := |disk.raw + line|);
          sequence := sequence + 1;
          e := Some(entry);
        } else {
          disk := disk.(raw := disk.raw + (if write.bytes <= |line| then line[..write.bytes] else line));
          failed := true;
        }
      }
    }

    method Archive(content: Bytes, store: Replace) returns (ok: bool)
      modifies this
      ensures Stored(Current(), ok) == Archived(sha, old(Current()), content, store)
    {
      if sha(content) in disk.artifacts {
        ok := true;
      } else if closed || failed {
        ok := false;
      } else {
        if store != Kept {
          disk := disk.(artifacts := disk.artifacts[sha(content) := content]);
        }
        ok := store == Done;
        failed := !ok;
      }
    }

    method Submit(op: Op) returns (e: Option<Entry>)
      requires op.Submit?
      modifies this
      ensures Outcome(Current(), e) == Submitted(codec, sha, old(Current()), op)
      ensures e.Some? ==> RecordsSubmission(sha, op, e.value) && e.value.sequence == old(sequence) + 1
      ensures e.Some? && Identifying(sha) && old(Addressed(sha, disk.artifacts)) ==> Holds(disk, sha, op.content)
    {
      hide Archived, Appended, RecordsSubmission, Identifying, Addressed;
      SubmissionRecorded(codec, sha, Current(), op);
      var ok := Archive(op.content, op.store);
      e := None;
      if ok {
        e := Event(SUBMISSION,
          Submission(Receipt(op.accepted, op.number, op.key, IdentityOf(sha, op.content)), RefOf(sha, op.content)), op.write);
      }
    }

    method Finish(op: Op) returns (e: Option<Entry>)
      requires op.Finish?
      modifies this
      ensures Outcome(Current(), e) == Finished(codec, sha, old(Current()), op)
      ensures e.Some? ==> e.value == Entry(old(sequence) + 1, FINISHED, Other(op.text))
      ensures closed && !old(closed) ==> e.Some? && disk.report == Some(IdentityOf(sha, disk.raw))
    {
      hide Line;
      e := Event(FINISHED, Other(op.text), op.write);
      if e.Some? {
        if op.save != Kept {
          disk := disk.(report := Some(IdentityOf(sha, disk.raw)));
        }
        if op.save == Done {
          closed := true;
        } else {
          failed := true;
        }
      }
    }

    /** Reopening after the process stopped: the fields start afresh from what is on disk. */
    method Reopen(op: Op) returns (ok: bool, e: Option<Entry>)
      requires op.Resume?
      modifies this
      ensures
        var o := Resumed(codec, sha, World(old(disk), None), op);
        disk == o.world.disk && e == o.ack && ok == o.world.open.Some? && (ok ==> Current() == o.world)
      ensures e.Some? ==> e.value.kind == RECOVERED && e.value.data == Recovered(RefOf(sha, Tail(old(disk.raw))))
    {
      hide Appended, Archived, Read, Tail;
      ok, e := false, None;
      var journal := ReadJournal(codec, disk.raw, op.discard);
      if journal.Ok? {
        sequence, failed, closed := |journal.value.events|, false, false;
        ok := true;
        if journal.value.incomplete {
          var tail := Tail(disk.raw);
          ArchiveOnlyArtifacts(sha, Current(), tail, op.store);
          var stored := Archive(tail, op.store);
          if !stored || op.truncate == Kept {
            ok := false;
          } else {
            disk := disk.(raw := disk.raw[..|disk.raw| - |tail|], synced := |disk.raw| - |tail|);
            if op.truncate == Landed {
              ok := false;
            } else {
              e := Event(RECOVERED, Recovered(RefOf(sha, tail)), op.write);
              ok := e.Some?;
            }
          }
        }
      }
    }
  }
}
