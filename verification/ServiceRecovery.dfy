/** Restarting a session from what is durable, and what holds over whole runs. */
module ServiceRecovery {
  import opened Prelude
  import opened Contents
  import opened Service
  import opened ServiceSafety
  import opened ServiceSteps

  // ---- Projecting the journal on restart -----------------------------------------------------

  /** The records differ at most in submissions and their receipts, and no receipt is replaced. */
  predicate Extends(d: Data, e: Data) {
    && e.executions == d.executions && e.closing == d.closing && e.interrupted == d.interrupted && e.broken == d.broken
    && e.reported == d.reported && e.recovered == d.recovered
    && (forall r :: r in d.requests ==> r in e.requests && e.requests[r] == d.requests[r])
    && (forall r :: r in e.requests && r !in d.requests ==> r.route == Submissions)
  }

  lemma {:induction false} AcceptsExtend(d: Data, journal: seq<Submission>)
    ensures Extends(d, AcceptEvents(d, journal)) && JournalCached(AcceptEvents(d, journal), journal)
  {
    if journal != [] {
      var n := |journal| - 1;
      var before := AcceptEvents(d, journal[..n]);
      AcceptsExtend(d, journal[..n]);
      AcceptOne(d, before, journal[n]);
      CachedSnoc(before, AcceptEvents(d, journal), journal);
    }
  }

  lemma AcceptOne(d: Data, before: Data, s: Submission)
    requires Extends(d, before)
    ensures Extends(d, AcceptEvent(before, s)) && Extends(before, AcceptEvent(before, s)) && Cached(AcceptEvent(before, s), s)
  {
  }

  lemma CachedSnoc(before: Data, after: Data, journal: seq<Submission>)
    requires journal != [] && JournalCached(before, journal[..|journal| - 1]) && Extends(before, after)
    requires Cached(after, journal[|journal| - 1])
    ensures JournalCached(after, journal)
  {
    var n := |journal| - 1;
    forall k | 0 <= k < |journal| ensures Cached(after, journal[k]) {
      if k < n {
        assert Cached(before, journal[..n][k]);
      }
    }
  }

  /** Receipts rebuilt from the journal are the journal's. */
  lemma {:induction false} AcceptsTrue(d: Data, journal: seq<Submission>, whole: seq<Submission>)
    requires SubmissionsTrue(d, whole) && |journal| <= |whole| && whole[..|journal|] == journal
    ensures SubmissionsTrue(AcceptEvents(d, journal), whole)
  {
    hide FromJournal;
    if journal != [] {
      var n := |journal| - 1;
      AcceptsTrue(d, journal[..n], whole);
      EventIsTrue(whole, n);
      assert journal[n] == whole[n];
    }
  }

  lemma EventIsTrue(journal: seq<Submission>, k: nat)
    requires k < |journal|
    ensures journal[k].key.Some? ==> FromJournal(journal, journal[k].key.value, ReceiptOf(journal[k]))
  {
    if journal[k].key.Some? {
      assert EventAt(journal, k, journal[k].key.value, ReceiptOf(journal[k]));
    }
  }

  /** What the projection leaves alone. */
  lemma ExtendsKeeps(d: Data, e: Data, c: Option<Checkpoint>, ids: nat)
    requires Extends(d, e) && WritesCommitted(d, c) && CommandsKnown(d) && Numbers(d.executions, ids)
    ensures WritesCommitted(e, c) && CommandsKnown(e) && Numbers(e.executions, ids)
    ensures CommandRequests(e.requests) == CommandRequests(d.requests)
  {
  }

  // ---- The restored record -------------------------------------------------------------------

  lemma RestoredMatches(disk: Disk, ids: nat)
    requires DiskOk(disk, ids) && disk.checkpoint.Some?
    ensures
      var c, d := disk.checkpoint.value, Restored(disk.http, disk.checkpoint.value.state);
      Matching(c.history, d) && NoneRunning(d)
  {
    hide WritesMatch, HttpOk, JournalOk, SubmissionsTrue, CommandsSaved, HasExit;
    var c := disk.checkpoint.value;
    var d := Restored(disk.http, c.state);
    RestoredRequests(disk.http, c.state);
    WritesCarry(c.history, c.state.requests, d.requests);
    LostAreNew(disk.http, c.state);
    forall id | id in d.executions ensures CommandMatch(c.history, id, d.executions[id]) {
      if id in Lost(disk.http, c.state) {
        forall k | 0 <= k < |c.history| ensures !OfCommand(c.history[k], id) {
          assert Owned(c.history[k], c.state.executions);
        }
      } else {
        assert CommandMatch(c.history, id, c.state.executions[id]);
      }
    }
    forall k | 0 <= k < |c.history| ensures Owned(c.history[k], d.executions) {
      assert Owned(c.history[k], c.state.executions);
    }
  }

  lemma LostAreNew(http: Data, state: Data)
    requires NoneRunning(state)
    ensures forall id :: id in Lost(http, state) ==> id !in state.executions
  {
  }

  lemma RestoredRequests(http: Data, state: Data)
    ensures SameWrites(state.requests, Restored(http, state).requests)
  {
  }

  lemma NothingToSettle(d: Data)
    requires NoneRunning(d)
    ensures SettleRunning(d) == d
  {
    assert SettleRunning(d).executions == d.executions;
  }

  lemma RestoredRecord(disk: Disk, ids: nat)
    requires DiskOk(disk, ids) && disk.checkpoint.Some?
    ensures
      var d := Restored(disk.http, disk.checkpoint.value.state);
      && SubmissionsTrue(d, disk.journal) && WritesCommitted(d, disk.checkpoint) && CommandsKnown(d) && Numbers(d.executions, ids)
      && CommandRequests(d.requests) == CommandRequests(disk.http.requests) && !d.broken && !d.interrupted
  {
    hide Matching, JournalOk, FromJournal, NoneRunning;
    RestoredCommands(disk.http, disk.checkpoint.value.state);
  }

  lemma RestoredCommands(http: Data, state: Data)
    requires CommandsSaved(http, state) && CommandsKnown(http)
    ensures CommandRequests(Restored(http, state).requests) == CommandRequests(http.requests)
    ensures CommandsKnown(Restored(http, state))
  {
    var d := Restored(http, state);
    forall r | r in d.requests && r.route == Executions ensures r in http.requests && d.requests[r] == http.requests[r] {
    }
    forall r | r in http.requests && r.route == Executions ensures r in d.requests {
      assert r in CommandRequests(http.requests);
    }
    assert CommandRequests(d.requests) == CommandRequests(http.requests);
  }

  // ---- Reconciling ---------------------------------------------------------------------------

  /** The record that reconciling starts from is sound. */
  lemma ReconciledRecord(disk: Disk, ids: nat)
    requires DiskOk(disk, ids)
    ensures
      var d := ReconciledData(disk);
      && SubmissionsTrue(d, disk.journal) && WritesCommitted(d, disk.checkpoint) && CommandsKnown(d) && Numbers(d.executions, ids)
      && CommandRequests(d.requests) == CommandRequests(disk.http.requests) && (d.broken ==> d.interrupted)
      && (Resumes(disk) ==> !d.broken && !d.interrupted && NoneRunning(d) && Matching(disk.checkpoint.value.history, d))
  {
    hide DiskOk, Matching, SubmissionsTrue, WritesCommitted, CommandsKnown, CommandRequests, NoneRunning, Restored;
    HttpFacts(disk, ids);
    var http := disk.http.(reported := disk.http.reported || disk.reported);
    SameButFlags(disk.http, http, disk, ids);
    if !http.reported {
      if Resumes(disk) {
        RestoredMatches(disk, ids);
        RestoredRecord(disk, ids);
        assert http == disk.http;
        NothingToSettle(Restored(http, disk.checkpoint.value.state));
      } else {
        SameButFlags(disk.http, http.(interrupted := true), disk, ids);
        SettledRecord(http.(interrupted := true), disk, ids);
      }
    }
  }

  lemma HttpFacts(disk: Disk, ids: nat)
    requires DiskOk(disk, ids)
    ensures SubmissionsTrue(disk.http, disk.journal) && WritesCommitted(disk.http, disk.checkpoint) && CommandsKnown(disk.http)
    ensures Numbers(disk.http.executions, ids) && (disk.http.broken ==> disk.http.interrupted) && JournalOk(disk.journal)
  {
    hide Matching, SubmissionsTrue, WritesCommitted, CommandsKnown, JournalOk, Numbers, CheckpointOk;
  }

  lemma SameButFlags(d: Data, e: Data, disk: Disk, ids: nat)
    requires d.requests == e.requests && d.executions == e.executions
    requires SubmissionsTrue(d, disk.journal) && WritesCommitted(d, disk.checkpoint) && CommandsKnown(d) && Numbers(d.executions, ids)
    ensures SubmissionsTrue(e, disk.journal) && WritesCommitted(e, disk.checkpoint) && CommandsKnown(e) && Numbers(e.executions, ids)
    ensures CommandRequests(d.requests) == CommandRequests(e.requests)
  {
    hide FromJournal;
  }

  lemma SettledRecord(d: Data, disk: Disk, ids: nat)
    requires SubmissionsTrue(d, disk.journal) && WritesCommitted(d, disk.checkpoint) && CommandsKnown(d) && Numbers(d.executions, ids)
    ensures
      var e := SettleRunning(d);
      && SubmissionsTrue(e, disk.journal) && WritesCommitted(e, disk.checkpoint) && CommandsKnown(e) && Numbers(e.executions, ids)
      && CommandRequests(e.requests) == CommandRequests(d.requests) && NoneRunning(e)
  {
    hide FromJournal;
  }

  lemma ReconciledDisk(disk: Disk, ids: nat)
    requires DiskOk(disk, ids)
    ensures DiskOk(Reconcile(disk), ids) && JournalCached(Reconcile(disk).http, disk.journal)
    ensures Resumes(disk) ==> Matching(disk.checkpoint.value.history, Reconcile(disk).http) && NoneRunning(Reconcile(disk).http)
    ensures Resumes(disk) ==> !Reconcile(disk).http.broken && !Reconcile(disk).http.interrupted
  {
    hide DiskOk, Matching, SubmissionsTrue, WritesCommitted, CommandsKnown, CommandRequests, NoneRunning, ReconciledData, JournalCached, AcceptEvents;
    var d := ReconciledData(disk);
    var e := AcceptEvents(d, disk.journal);
    ReconciledRecord(disk, ids);
    AcceptsExtend(d, disk.journal);
    assert disk.journal[..|disk.journal|] == disk.journal;
    AcceptsTrue(d, disk.journal, disk.journal);
    ExtendsKeeps(d, e, disk.checkpoint, ids);
    ReplaceHttp(disk, ids, e);
    if Resumes(disk) {
      ExtendsMatching(disk.checkpoint.value.history, d, e);
    }
  }

  lemma ExtendsMatching(h: History, d: Data, e: Data)
    requires Extends(d, e) && Matching(h, d) && NoneRunning(d)
    ensures Matching(h, e) && NoneRunning(e)
  {
    hide WritesMatch, CommandsMatch;
    WritesCarry(h, d.requests, e.requests);
  }

  lemma ReplaceHttp(disk: Disk, ids: nat, d: Data)
    requires DiskOk(disk, ids) && CommandRequests(d.requests) == CommandRequests(disk.http.requests)
    requires SubmissionsTrue(d, disk.journal) && WritesCommitted(d, disk.checkpoint) && CommandsKnown(d) && Numbers(d.executions, ids)
    requires d.broken ==> d.interrupted
    ensures DiskOk(disk.(http := d), ids)
  {
    hide Matching, JournalOk, SubmissionsTrue, WritesCommitted, CommandsKnown, NoneRunning, Numbers, CommandRequests, CommandsSaved;
    if disk.checkpoint.Some? {
      CommandsThrough(disk.http, d, disk.checkpoint.value.state);
    }
  }

  // ---- Restarting ----------------------------------------------------------------------------

  lemma RebasedDisk(disk: Disk, ids: nat, h: History)
    requires DiskOk(disk, ids) && Matching(h, disk.http) && NoneRunning(disk.http) && !disk.http.broken
    ensures DiskOk(disk.(checkpoint := Some(Checkpoint(h, disk.http))), ids) && WritesCommitted(disk.http, Some(Checkpoint(h, disk.http)))
    ensures Agree(disk.http, disk.http)
  {
    hide Matching, JournalOk, FromJournal, NoneRunning;
    AllFinished(disk.http);
  }

  lemma QuietLive(w: World, l: Live)
    requires w.live == Some(l) && l.job.None? && l.command.None? && l.settling == {} && l.data == w.disk.http
    requires DiskOk(w.disk, w.ids) && JournalCached(l.data, w.disk.journal)
    requires l.workspace.Some? ==>
      && NoneRunning(l.data) && !l.data.broken && w.disk.checkpoint == Some(Checkpoint(l.workspace.value, l.data)) && Agree(l.data, l.data)
    ensures Safe(w)
  {
    hide DiskOk, SubmissionsTrue, JournalCached, WritesCommitted, CommandsKnown, CommandRequests, Agree;
    HttpFacts(w.disk, w.ids);
    QuietParts(l);
    if l.workspace.Some? {
      assert Ahead(l, w.disk.checkpoint.value);
    }
    OkParts(w, l);
  }

  lemma QuietParts(l: Live)
    requires l.job.None? && l.command.None? && l.settling == {}
    ensures CommandOk(l) && JobCommits(l) && (NoneRunning(l.data) ==> OnlyCommand(l))
  {
  }

  lemma RestartKeeps(w: World, attached: bool)
    requires Safe(w) && w.live.None?
    ensures Safe(Restarted(w, attached))
  {
    hide DiskOk, Reconcile, Matching, NoneRunning, Agree, LiveOk, JournalCached;
    ReconciledDisk(w.disk, w.ids);
    var disk := Reconcile(w.disk);
    assert disk.checkpoint == w.disk.checkpoint && disk.journal == w.disk.journal by { ReconcileFields(w.disk); }
    var n := Restarted(w, attached);
    if !Resumes(w.disk) {
      QuietLive(n, n.live.value);
    } else if !attached {
      StoppedSafe(n);
    } else {
      RebasedDisk(disk, w.ids, disk.checkpoint.value.history);
      QuietLive(n, n.live.value);
    }
  }

  lemma ReconcileFields(disk: Disk)
    ensures Reconcile(disk).checkpoint == disk.checkpoint && Reconcile(disk).journal == disk.journal && Reconcile(disk).reported == disk.reported
  {
  }

  // ---- Whole runs ----------------------------------------------------------------------------

  lemma ReportKeeps(w: World)
    requires Safe(w)
    ensures Safe(w.(disk := w.disk.(reported := true)))
  {
    hide Matching, JournalOk, SubmissionsTrue, WritesCommitted, CommandsKnown, NoneRunning, OnlyCommand, CommandOk, JobCommits, WorkspaceOk,
      CommandRequests, CommandsSaved, JournalCached;
  }

  lemma RunFailsKeeps(w: World, l: Live)
    requires Safe(w) && w.live == Some(l)
    ensures Safe(Saved(w, l.(data := l.data.(interrupted := true))))
  {
    hide Safe;
    SaveKeeps(w, l, l.data.(interrupted := true));
  }

  lemma StopKeeps(w: World)
    requires Safe(w)
    ensures Safe(Stop(w))
  {
    hide DiskOk;
  }

  lemma LiveStepKeeps(w: World, l: Live, step: Step)
    requires Safe(w) && w.live == Some(l)
    ensures Safe(NextLive(w, l, step))
  {
    hide Safe, Writing, Starting, Submitting, SubmittingDirect, NextCommand, NextJob, Admission, AcceptEvents, Saved;
    match step
    case WriteFile(key, path, content) =>
      if Admission(l, Request(Files, key), WriteBody(path, content)).Proceed? {
        WriteKeeps(w, l, key, path, content);
      }
    case RunCommand(key, command) =>
      if Admission(l, Request(Executions, key), CommandBody(command)).Proceed? {
        StartKeeps(w, l, key, command);
      }
    case Submit(key, time, stopped) =>
      if Admission(l, Request(Submissions, key), SubmitBody).Proceed? {
        SubmitKeeps(w, l, key, time, stopped);
      }
    case SubmitDirect(time) => DirectKeeps(w, l, time);
    case CloseSession => CloseKeeps(w, l);
    case EndWorkspace => EndKeeps(w, l);
    case CompleteRun => CompleteKeeps(w, l);
    case RunFails => RunFailsKeeps(w, l);
    case Change(_) => CommandStepKeeps(w, l, step);
    case Exit(_) => CommandStepKeeps(w, l, step);
    case SettleCommand(_) => CommandStepKeeps(w, l, step);
    case Snapshot => SnapshotKeeps(w, l);
    case SnapshotFails(saved) => ErrorKeeps(w, l, step);
    case CleanupFails(saved) => ErrorKeeps(w, l, step);
    case Apply => ApplyKeeps(w, l);
    case ApplyFails(saved) => ApplyFailsKeeps(w, l, saved);
    case FinishJob => FinishKeeps(w, l);
    case _ => OtherSteps(w, l, step);
  }

  lemma OtherSteps(w: World, l: Live, step: Step)
    requires w.live == Some(l) && (step.WriteReport? || step.Crash? || step.Restart?)
    ensures NextJob(w, l, step) == w
  {
  }

  lemma ErrorKeeps(w: World, l: Live, step: Step)
    requires Safe(w) && w.live == Some(l) && (step.SnapshotFails? || step.CleanupFails?)
    ensures Safe(NextJob(w, l, step))
  {
    hide Safe, Failing;
    if l.job.Some? && l.workspace.Some? && l.job.value.stage == (if step.SnapshotFails? then Taking else Durable) {
      FailKeeps(w, l, step.saved);
    }
  }

  lemma CommandStepKeeps(w: World, l: Live, step: Step)
    requires Safe(w) && w.live == Some(l) && (step.Change? || step.Exit? || step.SettleCommand?)
    ensures Safe(NextCommand(w, l, step))
  {
    hide Safe;
    match step
    case Change(after) =>
      if l.command.Some? && l.workspace.Some? {
        ChangeKeeps(w, l, after);
      }
    case Exit(code) =>
      if l.command.Some? && l.workspace.Some? {
        ExitKeeps(w, l, code);
      }
    case SettleCommand(id) => SettleKeeps(w, l, id);
  }

  /** Every step keeps the state safe. */
  lemma StepKeeps(w: World, step: Step)
    requires Safe(w)
    ensures Safe(Next(w, step))
  {
    hide Safe, NextLive, Restarted;
    if step.Crash? {
      StopKeeps(w);
    } else if step.WriteReport? {
      ReportKeeps(w);
    } else if step.Restart? {
      if w.live.None? {
        RestartKeeps(w, step.attached);
      }
    } else if w.live.Some? {
      LiveStepKeeps(w, w.live.value, step);
    }
  }

  lemma FreshSafe(started: bool)
    ensures Safe(Fresh(started))
  {
    var d := Blank();
    assert Finished(d.executions) == d.executions;
  }

  /** Every state of every run is safe. */
  lemma {:induction false} AlwaysSafe(started: bool, steps: seq<Step>)
    ensures Safe(Run(Fresh(started), steps))
  {
    hide Safe, Next;
    if steps == [] {
      FreshSafe(started);
    } else {
      AlwaysSafe(started, steps[..|steps| - 1]);
      StepKeeps(Run(Fresh(started), steps[..|steps| - 1]), steps[|steps| - 1]);
    }
  }
}
