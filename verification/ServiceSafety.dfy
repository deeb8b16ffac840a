/** What holds in every reachable state of a session, through any interleaving, crash and restart. */
module ServiceSafety {
  import opened Prelude
  import opened Contents
  import opened Service

  // ---- Receipts and effects ------------------------------------------------------------------

  predicate WroteAt(h: History, k: nat, key: string, r: Receipt)
    requires k < |h|
  {
    h[k].Wrote? && h[k].key == key && r == WriteReceipt(h[k].path, h[k].content)
  }

  /** The write took effect in this history. */
  ghost predicate HasWrite(h: History, key: string, r: Receipt) {
    exists k :: 0 <= k < |h| && WroteAt(h, k, key, r)
  }

  /** Exactly the receipted writes took effect, each once. */
  ghost predicate WritesMatch(h: History, requests: map<Request, Receipt>) {
    && (forall r :: r in requests && r.route == Files ==> HasWrite(h, r.key, requests[r]))
    && (forall k :: 0 <= k < |h| && h[k].Wrote? ==> Request(Files, h[k].key) in requests)
    && (forall a, b :: 0 <= a < b < |h| && h[a].Wrote? && h[b].Wrote? ==> h[a].key != h[b].key)
  }

  predicate OfCommand(e: Effect, id: nat) { (e.Ran? || e.Exited?) && e.id == id }

  ghost predicate HasExit(h: History, id: nat, e: Execution) {
    exists k :: 0 <= k < |h| && ExitAt(h, k, id, e)
  }

  predicate ExitAt(h: History, k: nat, id: nat, e: Execution)
    requires k < |h|
  {
    h[k].Exited? && h[k].id == id && e == Ending(h[k].code)
  }

  /** No effect of the command is in this history. */
  predicate Absent(h: History, id: nat) {
    forall k :: 0 <= k < |h| ==> !OfCommand(h[k], id)
  }

  /** A command either ended here, with all its effects, or it was rolled back and has none. */
  ghost predicate CommandMatch(h: History, id: nat, e: Execution) {
    if e.rolledBack then e == Execution(Error, None, true) && Absent(h, id) else HasExit(h, id, e)
  }

  predicate Owned(e: Effect, executions: map<nat, Execution>) {
    e.Wrote? || (e.id in executions && !executions[e.id].rolledBack)
  }

  /** After its end a command has no further effect. */
  predicate Ends(h: History) {
    forall a, b :: 0 <= a < b < |h| && h[a].Exited? ==> !OfCommand(h[b], h[a].id)
  }

  ghost predicate CommandsMatch(h: History, executions: map<nat, Execution>) {
    && (forall id :: id in executions ==> CommandMatch(h, id, executions[id]))
    && (forall k :: 0 <= k < |h| ==> Owned(h[k], executions))
    && Ends(h)
  }

  /** The record's receipts and commands are exactly those whose effects the workspace has. */
  ghost predicate Matching(h: History, d: Data) {
    WritesMatch(h, d.requests) && CommandsMatch(h, d.executions)
  }

  // ---- The journal ---------------------------------------------------------------------------

  predicate JournalOk(journal: seq<Submission>) {
    && (forall k :: 0 <= k < |journal| ==> journal[k].number == k + 1)
    && (forall a, b :: 0 <= a < b < |journal| && journal[a].key.Some? ==> journal[a].key != journal[b].key)
  }

  predicate FromJournal(journal: seq<Submission>, key: string, r: Receipt) {
    exists k :: 0 <= k < |journal| && EventAt(journal, k, key, r)
  }

  predicate EventAt(journal: seq<Submission>, k: nat, key: string, r: Receipt)
    requires k < |journal|
  {
    journal[k].key == Some(key) && r == ReceiptOf(journal[k])
  }

  /** Submission receipts are those of the journal. */
  predicate SubmissionsTrue(d: Data, journal: seq<Submission>) {
    forall r :: r in d.requests && r.route == Submissions ==> FromJournal(journal, r.key, d.requests[r])
  }

  /** Every journalled key has its receipt. */
  predicate JournalCached(d: Data, journal: seq<Submission>) {
    forall k :: 0 <= k < |journal| ==> Cached(d, journal[k])
  }

  predicate Cached(d: Data, s: Submission) {
    s.key.Some? ==> Request(Submissions, s.key.value) in d.requests
  }

  // ---- The disk ------------------------------------------------------------------------------

  /** Write receipts are those of the checkpoint. */
  predicate WritesCommitted(d: Data, c: Option<Checkpoint>) {
    forall r :: r in d.requests && r.route == Files ==>
      c.Some? && r in c.value.state.requests && c.value.state.requests[r] == d.requests[r]
  }

  /** Command receipts name known commands. */
  predicate CommandsKnown(d: Data) {
    forall r :: r in d.requests && r.route == Executions ==>
      d.requests[r].response.Started? && d.requests[r].response.id in d.executions
  }

  /** The checkpoint's command receipts are those of the HTTP record. */
  predicate CommandsSaved(d: Data, state: Data) {
    && (forall r :: r in state.requests && r.route == Executions ==> r in d.requests && d.requests[r] == state.requests[r])
  }

  predicate Numbers(executions: map<nat, Execution>, ids: nat) {
    forall id :: id in executions ==> id < ids
  }

  predicate NoneRunning(d: Data) {
    forall id :: id in d.executions ==> d.executions[id].state != Running
  }

  ghost predicate CheckpointOk(disk: Disk, ids: nat) {
    disk.checkpoint.Some? ==>
      var c := disk.checkpoint.value;
      && Matching(c.history, c.state) && Numbers(c.state.executions, ids) && !c.state.broken && NoneRunning(c.state)
      && SubmissionsTrue(c.state, disk.journal) && CommandsSaved(disk.http, c.state)
  }

  predicate HttpOk(disk: Disk, ids: nat) {
    && SubmissionsTrue(disk.http, disk.journal) && WritesCommitted(disk.http, disk.checkpoint)
    && CommandsKnown(disk.http) && Numbers(disk.http.executions, ids) && (disk.http.broken ==> disk.http.interrupted)
  }

  ghost predicate DiskOk(disk: Disk, ids: nat) {
    JournalOk(disk.journal) && CheckpointOk(disk, ids) && HttpOk(disk, ids)
  }

  // ---- The running service -------------------------------------------------------------------

  /** The finished commands of a record. */
  function Finished(executions: map<nat, Execution>): (m: map<nat, Execution>) {
    map id | id in executions && executions[id].state != Running :: executions[id]
  }

  /** The record and the checkpoint agree on writes and on finished commands. */
  ghost predicate Agree(d: Data, state: Data) {
    && (forall r: Request :: r.route == Files ==> (r in d.requests <==> r in state.requests))
    && Finished(d.executions) == state.executions
  }

  /** `frozen` is the record with the commit already in it. */
  predicate FrozenOf(frozen: Data, d: Data, c: Commit) {
    && frozen.requests == Committed(d, c).requests && frozen.executions == Committed(d, c).executions
    && !frozen.broken
  }

  /** Only the current command and commands that have not reported yet are running. */
  predicate OnlyCommand(l: Live) {
    forall id :: id in l.data.executions && l.data.executions[id].state == Running ==> l.command == Some(id) || id in l.settling
  }

  predicate ByCommand(suffix: History, command: Option<nat>) {
    forall k :: 0 <= k < |suffix| ==> command.Some? && suffix[k].Ran? && suffix[k].id == command.value
  }

  /** With no snapshot under way, the workspace has gone beyond the checkpoint only by the command that runs. */
  ghost predicate Ahead(l: Live, c: Checkpoint)
    requires l.workspace.Some?
  {
    var h := l.workspace.value;
    && |c.history| <= |h| && h[..|c.history|] == c.history
    && ByCommand(h[|c.history|..], l.command)
    && Agree(l.data, c.state)
  }

  ghost predicate JobOk(l: Live, c: Checkpoint, job: Job)
    requires l.workspace.Some?
  {
    var h := l.workspace.value;
    match job.stage
    case Taking =>
      && Matching(h, job.frozen) && FrozenOf(job.frozen, l.data, job.commit) && NoneRunning(job.frozen) && Agree(l.data, c.state)
    case Durable => c == Checkpoint(h, job.frozen) && FrozenOf(job.frozen, l.data, job.commit) && NoneRunning(job.frozen)
    case Applied => c.history == h && Agree(l.data, c.state)
    case Failed => true
  }

  /** The current command is running, and no snapshot is taken meanwhile. */
  predicate CommandOk(l: Live) {
    && (l.command.Some? ==>
      && l.command.value in l.data.executions && l.data.executions[l.command.value] == Execution(Running, None, false)
      && l.command.value !in l.settling && l.job.None? && !l.data.broken)
    && (forall id :: id in l.settling ==> id in l.data.executions && (l.data.executions[id].state == Running ==> SettlesLater(l, id)))
  }

  /** A command that ended is still shown as running only while its own snapshot is pending or after a failure. */
  predicate SettlesLater(l: Live, id: nat) {
    l.data.broken || (AwaitsOwnJob(l, id) && (l.job.value.stage.Taking? || l.job.value.stage.Durable?))
  }

  predicate JobCommits(l: Live) {
    l.job.Some? ==>
      match l.job.value.commit
      case WriteCommit(key, receipt) =>
        && receipt.body.WriteBody? && receipt == WriteReceipt(receipt.body.path, receipt.body.content)
        && (l.job.value.stage.Taking? || l.job.value.stage.Durable? ==> Request(Files, key) !in l.data.requests)
        && (l.job.value.stage.Applied? ==>
          Request(Files, key) in l.data.requests && l.data.requests[Request(Files, key)] == receipt)
      case ExitCommit(id, code) => id in l.settling
  }

  predicate RecordOk(l: Live, disk: Disk, ids: nat) {
    && SubmissionsTrue(l.data, disk.journal) && JournalCached(l.data, disk.journal)
    && WritesCommitted(l.data, disk.checkpoint) && CommandsKnown(l.data) && Numbers(l.data.executions, ids)
    && (l.data == disk.http || (l.job.Some? && l.job.value.stage.Failed? && CommandRequests(l.data.requests) == CommandRequests(disk.http.requests)))
  }

  ghost predicate WorkspaceOk(l: Live, c: Option<Checkpoint>) {
    && (l.data.broken ==> l.data.interrupted)
    && (l.job.Some? ==> (l.job.value.stage.Failed? <==> l.data.broken) && l.workspace.Some?)
    && (l.workspace.Some? && !l.data.broken ==>
      && c.Some?
      && (if l.job.None? then Ahead(l, c.value) else JobOk(l, c.value, l.job.value)))
  }

  ghost predicate LiveOk(w: World) {
    w.live.Some? ==>
      var l := w.live.value;
      RecordOk(l, w.disk, w.ids) && (l.workspace.Some? ==> OnlyCommand(l)) && CommandOk(l) && JobCommits(l) && WorkspaceOk(l, w.disk.checkpoint)
  }

  ghost predicate Safe(w: World) {
    DiskOk(w.disk, w.ids) && LiveOk(w)
  }

  // ---- Steps that change flags ---------------------------------------------------------------

  lemma CloseKeeps(w: World, l: Live)
    requires Safe(w) && w.live == Some(l)
    ensures Safe(Saved(w, l.(data := l.data.(closing := true))))
  {
    hide Matching, JournalOk, SubmissionsTrue, JournalCached, Finished, CommandRequests;
    SaveKeeps(w, l, l.data.(closing := true));
  }

  /** Saving a record with the same requests and executions. */
  lemma SaveKeeps(w: World, l: Live, d: Data)
    requires Safe(w) && w.live == Some(l)
    requires SameRecord(l.data, d)
    ensures Safe(Saved(w, l.(data := d)))
  {
    hide Matching, JournalOk, Finished, CommandRequests, FromJournal, NoneRunning;
    SaveHttp(w, l, d);
    SaveLive(w, l, d);
  }

  lemma SaveHttp(w: World, l: Live, d: Data)
    requires Safe(w) && w.live == Some(l)
    requires SameRecord(l.data, d)
    ensures DiskOk(w.disk.(http := d), w.ids)
  {
    hide Matching, JournalOk, Finished, FromJournal, CommandOk, JobCommits, JobOk, Ahead, NoneRunning, CommandsSaved, OnlyCommand;
    CommandsStay(w, l, d);
  }

  /** The checkpoint's command receipts are in the record of the running service. */
  lemma CommandsStay(w: World, l: Live, d: Data)
    requires Safe(w) && w.live == Some(l) && CommandRequests(d.requests) == CommandRequests(l.data.requests)
    ensures w.disk.checkpoint.Some? ==> CommandsSaved(d, w.disk.checkpoint.value.state)
  {
    hide Matching, JournalOk, Finished, FromJournal, WorkspaceOk, CommandOk, JobCommits, OnlyCommand, CommandRequests;
    SameCommands(w.disk.http, l.data);
    if w.disk.checkpoint.Some? {
      CommandsThrough(l.data, d, w.disk.checkpoint.value.state);
      if l.data != w.disk.http {
        CommandsThrough(w.disk.http, l.data, w.disk.checkpoint.value.state);
        CommandsThrough(l.data, d, w.disk.checkpoint.value.state);
      }
    }
  }

  lemma SameCommands(a: Data, b: Data)
    ensures a == b ==> CommandRequests(a.requests) == CommandRequests(b.requests)
  {
  }

  lemma CommandsThrough(a: Data, b: Data, state: Data)
    requires CommandRequests(a.requests) == CommandRequests(b.requests)
    ensures CommandsSaved(a, state) <==> CommandsSaved(b, state)
  {
    forall r: Request | r.route == Executions
      ensures r in a.requests <==> r in b.requests
      ensures r in a.requests ==> a.requests[r] == b.requests[r]
    {
      assert r in CommandRequests(a.requests) <==> r in a.requests;
      assert r in CommandRequests(b.requests) <==> r in b.requests;
    }
  }

  predicate SameRecord(d: Data, e: Data) {
    d.requests == e.requests && d.executions == e.executions && d.broken == e.broken && (d.interrupted ==> e.interrupted)
  }

  lemma AgreeSame(d: Data, e: Data, state: Data)
    requires Agree(d, state) && d.requests == e.requests && d.executions == e.executions
    ensures Agree(e, state)
  {
    hide Finished;
  }

  lemma FrozenSame(frozen: Data, d: Data, e: Data, c: Commit)
    requires FrozenOf(frozen, d, c) && d.requests == e.requests && d.executions == e.executions
    ensures FrozenOf(frozen, e, c)
  {
  }

  lemma JobSame(l: Live, d: Data, c: Checkpoint, job: Job)
    requires l.workspace.Some? && JobOk(l, c, job) && SameRecord(l.data, d)
    ensures JobOk(l.(data := d), c, job)
  {
    hide Matching, NoneRunning, Agree, FrozenOf;
    if job.stage.Taking? || job.stage.Applied? {
      AgreeSame(l.data, d, c.state);
    }
    if job.stage.Taking? || job.stage.Durable? {
      FrozenSame(job.frozen, l.data, d, job.commit);
    }
  }

  lemma WorkspaceSame(l: Live, d: Data, c: Option<Checkpoint>)
    requires WorkspaceOk(l, c) && SameRecord(l.data, d)
    ensures WorkspaceOk(l.(data := d), c)
  {
    hide JobOk, Agree, ByCommand;
    if l.workspace.Some? && !l.data.broken {
      if l.job.None? {
        AgreeSame(l.data, d, c.value.state);
      } else {
        JobSame(l, d, c.value, l.job.value);
      }
    }
  }

  lemma CommandSame(l: Live, d: Data)
    requires SameRecord(l.data, d)
    ensures CommandOk(l) ==> CommandOk(l.(data := d))
    ensures JobCommits(l) ==> JobCommits(l.(data := d))
    ensures OnlyCommand(l) ==> OnlyCommand(l.(data := d))
  {
    if CommandOk(l) {
      var n := l.(data := d);
      forall id | id in n.settling ensures id in n.data.executions && (n.data.executions[id].state == Running ==> SettlesLater(n, id)) {
        assert id in l.data.executions && (l.data.executions[id].state == Running ==> SettlesLater(l, id));
      }
    }
  }

  lemma RecordSame(l: Live, d: Data, disk: Disk, ids: nat)
    requires RecordOk(l, disk, ids) && SameRecord(l.data, d)
    ensures RecordOk(l.(data := d), disk.(http := d), ids)
  {
    hide FromJournal, CommandRequests;
  }

  lemma LiveParts(w: World, l: Live)
    requires Safe(w) && w.live == Some(l)
    ensures DiskOk(w.disk, w.ids) && RecordOk(l, w.disk, w.ids) && (l.workspace.Some? ==> OnlyCommand(l))
    ensures CommandOk(l) && JobCommits(l) && WorkspaceOk(l, w.disk.checkpoint)
  {
    hide DiskOk, RecordOk, OnlyCommand, CommandOk, JobCommits, WorkspaceOk;
  }

  lemma SaveLive(w: World, l: Live, d: Data)
    requires Safe(w) && w.live == Some(l) && SameRecord(l.data, d)
    ensures LiveOk(Saved(w, l.(data := d)))
  {
    hide DiskOk, RecordOk, OnlyCommand, CommandOk, JobCommits, WorkspaceOk, SameRecord, Safe;
    LiveParts(w, l);
    WorkspaceSame(l, d, w.disk.checkpoint);
    CommandSame(l, d);
    RecordSame(l, d, w.disk, w.ids);
  }

  lemma OkParts(w: World, l: Live)
    requires DiskOk(w.disk, w.ids) && RecordOk(l, w.disk, w.ids) && (l.workspace.Some? ==> OnlyCommand(l))
    requires CommandOk(l) && JobCommits(l) && WorkspaceOk(l, w.disk.checkpoint)
    requires w.live == Some(l)
    ensures Safe(w)
  {
    hide DiskOk, RecordOk, OnlyCommand, CommandOk, JobCommits, WorkspaceOk;
  }

  lemma EndKeeps(w: World, l: Live)
    requires Safe(w) && w.live == Some(l)
    ensures Safe(w.(live := Some(l.(active := false))))
  {
    hide DiskOk, RecordOk, OnlyCommand, CommandOk, JobCommits, WorkspaceOk, Safe;
    LiveParts(w, l);
    var n := l.(active := false);
    assert RecordOk(n, w.disk, w.ids) by { InactiveParts(w, l); }
    InactiveParts(w, l);
    OkParts(w.(live := Some(n)), n);
  }

  lemma InactiveParts(w: World, l: Live)
    ensures
      var n := l.(active := false);
      && (RecordOk(l, w.disk, w.ids) <==> RecordOk(n, w.disk, w.ids)) && (OnlyCommand(l) <==> OnlyCommand(n))
      && (CommandOk(l) ==> CommandOk(n)) && (JobCommits(l) <==> JobCommits(n))
      && (WorkspaceOk(l, w.disk.checkpoint) ==> WorkspaceOk(n, w.disk.checkpoint))
  {
    hide Matching, Agree, FrozenOf, SubmissionsTrue, JournalCached, WritesCommitted, CommandsKnown, NoneRunning, CommandRequests;
    var n := l.(active := false);
    if CommandOk(l) {
      forall id | id in n.settling ensures id in n.data.executions && (n.data.executions[id].state == Running ==> SettlesLater(n, id)) {
        assert id in l.data.executions && (l.data.executions[id].state == Running ==> SettlesLater(l, id));
      }
    }
  }

  // ---- Projecting the journal ----------------------------------------------------------------

  lemma {:induction false} AcceptsNothingNew(d: Data, journal: seq<Submission>)
    requires JournalCached(d, journal)
    ensures SameRecord(d, AcceptEvents(d, journal)) && AcceptEvents(d, journal).interrupted == d.interrupted
  {
    if journal != [] {
      var n := |journal| - 1;
      AcceptsNothingNew(d, journal[..n]);
      assert Cached(d, journal[n]);
    }
  }

  lemma CompleteKeeps(w: World, l: Live)
    requires Safe(w) && w.live == Some(l)
    ensures Safe(Saved(w, l.(data := AcceptEvents(l.data.(reported := true), w.disk.journal))))
  {
    hide DiskOk, OnlyCommand, CommandOk, JobCommits, WorkspaceOk, AcceptEvents, SubmissionsTrue, WritesCommitted, CommandsKnown, CommandRequests;
    LiveParts(w, l);
    var d := l.data.(reported := true);
    assert JournalCached(d, w.disk.journal);
    AcceptsNothingNew(d, w.disk.journal);
    SaveKeeps(w, l, AcceptEvents(d, w.disk.journal));
  }

  // ---- Effects and receipts ------------------------------------------------------------------

  /** The records have the same write receipts. */
  predicate SameWrites(a: map<Request, Receipt>, b: map<Request, Receipt>) {
    && (forall r :: r in a && r.route == Files ==> r in b && b[r] == a[r])
    && (forall r :: r in b && r.route == Files ==> r in a)
  }

  lemma WritesCarry(h: History, a: map<Request, Receipt>, b: map<Request, Receipt>)
    requires WritesMatch(h, a) && SameWrites(a, b)
    ensures WritesMatch(h, b)
  {
    hide HasWrite;
  }

  lemma HasWriteGrows(h: History, g: History, key: string, r: Receipt)
    requires HasWrite(h, key, r)
    ensures HasWrite(h + g, key, r)
  {
    var k :| 0 <= k < |h| && WroteAt(h, k, key, r);
    assert WroteAt(h + g, k, key, r);
  }

  lemma HasExitGrows(h: History, g: History, id: nat, e: Execution)
    requires HasExit(h, id, e)
    ensures HasExit(h + g, id, e)
  {
    var k :| 0 <= k < |h| && ExitAt(h, k, id, e);
    assert ExitAt(h + g, k, id, e);
  }

  lemma WriteAdded(h: History, requests: map<Request, Receipt>, key: string, path: string, content: Bytes)
    requires WritesMatch(h, requests) && Request(Files, key) !in requests
    ensures WritesMatch(h + [Wrote(key, path, content)], requests[Request(Files, key) := WriteReceipt(path, content)])
  {
    hide HasWrite;
    var g := h + [Wrote(key, path, content)];
    var after := requests[Request(Files, key) := WriteReceipt(path, content)];
    assert WroteAt(g, |h|, key, WriteReceipt(path, content));
    LastWrite(h, key, path, content);
    forall r | r in after && r.route == Files ensures HasWrite(g, r.key, after[r]) {
      if r != Request(Files, key) {
        HasWriteGrows(h, [Wrote(key, path, content)], r.key, after[r]);
      }
    }
  }

  lemma LastWrite(h: History, key: string, path: string, content: Bytes)
    ensures HasWrite(h + [Wrote(key, path, content)], key, WriteReceipt(path, content))
  {
    assert WroteAt(h + [Wrote(key, path, content)], |h|, key, WriteReceipt(path, content));
  }

  /** Effects that are no writes leave the writes matched. */
  lemma NoWritesAdded(h: History, g: History, requests: map<Request, Receipt>)
    requires WritesMatch(h, requests) && forall k :: 0 <= k < |g| ==> !g[k].Wrote?
    ensures WritesMatch(h + g, requests)
  {
    hide HasWrite;
    forall r | r in requests && r.route == Files ensures HasWrite(h + g, r.key, requests[r]) {
      HasWriteGrows(h, g, r.key, requests[r]);
    }
  }

  lemma CommandsAfterWrite(h: History, executions: map<nat, Execution>, e: Effect)
    requires CommandsMatch(h, executions) && e.Wrote?
    ensures CommandsMatch(h + [e], executions)
  {
    hide HasExit;
    forall id | id in executions ensures CommandMatch(h + [e], id, executions[id]) {
      assert CommandMatch(h, id, executions[id]);
      if !executions[id].rolledBack {
        HasExitGrows(h, [e], id, executions[id]);
      }
    }
  }

  /** A command's changes and its end, added to a history that has none of them yet. */
  lemma CommandAdded(h: History, executions: map<nat, Execution>, g: History, id: nat, code: int)
    requires CommandsMatch(h, executions) && id !in executions
    requires forall k :: 0 <= k < |g| ==> g[k].Ran? && g[k].id == id
    ensures CommandsMatch(h + g + [Exited(id, code)], executions[id := Ending(code)])
  {
    hide HasExit;
    var all, after := h + g + [Exited(id, code)], executions[id := Ending(code)];
    assert all == h + (g + [Exited(id, code)]);
    assert forall k :: 0 <= k < |h| ==> all[k] == h[k] && Owned(h[k], executions);
    forall other | other in after ensures CommandMatch(all, other, after[other]) {
      if other == id {
        LastExit(h + g, id, code);
      } else {
        assert CommandMatch(h, other, executions[other]);
        if !executions[other].rolledBack {
          HasExitGrows(h, g + [Exited(id, code)], other, executions[other]);
        }
      }
    }
    forall a, b | 0 <= a < b < |all| && all[a].Exited? ensures !OfCommand(all[b], all[a].id) {
      if a < |h| {
        assert Owned(h[a], executions);
      }
    }
  }

  lemma LastExit(h: History, id: nat, code: int)
    ensures HasExit(h + [Exited(id, code)], id, Ending(code))
  {
    assert ExitAt(h + [Exited(id, code)], |h|, id, Ending(code));
  }
}
