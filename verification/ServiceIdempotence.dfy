/** Reconciling a session twice is reconciling it once. */
module ServiceIdempotence {
  import opened Prelude
  import opened Contents
  import opened Service
  import opened ServiceSafety
  import opened ServiceSteps
  import opened ServiceRecovery
  import opened ServiceGuarantees

  // ---- Flags ---------------------------------------------------------------------------------

  /** What a record says about closing and completion, the HTTP record or the run archive says too. */
  predicate Told(d: Data, disk: Disk) {
    (d.closing ==> disk.http.closing) && (d.reported ==> disk.reported)
  }

  predicate LiveTold(l: Live, disk: Disk) {
    && Told(l.data, disk) && (disk.http.closing ==> l.data.closing)
    && (l.job.Some? ==> Told(l.job.value.frozen, disk))
  }

  predicate Flagged(w: World) {
    && (w.disk.checkpoint.Some? ==> Told(w.disk.checkpoint.value.state, w.disk))
    && Told(w.disk.http, w.disk)
    && (w.live.Some? ==> LiveTold(w.live.value, w.disk))
  }

  lemma ReconciledFlags(disk: Disk)
    requires Told(disk.http, disk) && (disk.checkpoint.Some? ==> Told(disk.checkpoint.value.state, disk))
    ensures Reconcile(disk).http.closing == disk.http.closing
    ensures Reconcile(disk).http.reported ==> disk.reported
  {
    hide AcceptEvents;
    AcceptsExtend(ReconciledData(disk), disk.journal);
  }

  lemma RestartFlagged(w: World, attached: bool)
    requires Flagged(w) && w.live.None?
    ensures Flagged(Restarted(w, attached))
  {
    hide Reconcile;
    ReconciledFlags(w.disk);
    ReconcileFields(w.disk);
  }

  lemma CommandFlagged(w: World, l: Live, step: Step)
    requires Flagged(w) && w.live == Some(l)
    ensures Flagged(NextCommand(w, l, step))
  {
  }

  lemma CommitFlags(d: Data, c: Commit)
    ensures Committed(d, c).closing == d.closing && Committed(d, c).reported == d.reported
  {
  }

  lemma FailingFlagged(w: World, l: Live, saved: bool)
    requires Flagged(w) && w.live == Some(l) && l.job.Some?
    ensures Flagged(Failing(w, l, saved))
  {
  }

  lemma JobFlagged(w: World, l: Live, step: Step)
    requires Flagged(w) && w.live == Some(l)
    ensures Flagged(NextJob(w, l, step))
  {
    hide Committed, Failing;
    if l.job.Some? {
      CommitFlags(l.data, l.job.value.commit);
      if step.SnapshotFails? || step.CleanupFails? {
        FailingFlagged(w, l, step.saved);
      }
    }
  }

  lemma SubmitFlagged(w: World, l: Live, key: string, time: int, stopped: bool)
    requires Flagged(w) && w.live == Some(l) && l.workspace.Some?
    ensures Flagged(Submitting(w, l, key, time, stopped))
  {
    hide Workspace, Find;
  }

  lemma LiveStepFlagged(w: World, l: Live, step: Step)
    requires Flagged(w) && w.live == Some(l)
    ensures Flagged(NextLive(w, l, step))
  {
    hide Admission, Workspace, AcceptEvents, NextCommand, NextJob, Submitting;
    match step
    case Submit(key, time, stopped) =>
      if Admission(l, Request(Submissions, key), SubmitBody).Proceed? {
        Admitted(l, Request(Submissions, key), SubmitBody);
        SubmitFlagged(w, l, key, time, stopped);
      }
    case CompleteRun => AcceptsExtend(l.data.(reported := true), w.disk.journal);
    case Change(_) => CommandFlagged(w, l, step);
    case Exit(_) => CommandFlagged(w, l, step);
    case SettleCommand(_) => CommandFlagged(w, l, step);
    case WriteFile(_, _, _) =>
    case RunCommand(_, _) =>
    case SubmitDirect(_) =>
    case CloseSession =>
    case EndWorkspace =>
    case RunFails =>
    case _ => JobFlagged(w, l, step);
  }

  lemma StepFlagged(w: World, step: Step)
    requires Flagged(w)
    ensures Flagged(Next(w, step))
  {
    hide NextLive, Restarted;
    if step.Restart? && w.live.None? {
      RestartFlagged(w, step.attached);
    } else if w.live.Some? && !step.Crash? && !step.WriteReport? && !step.Restart? {
      LiveStepFlagged(w, w.live.value, step);
    }
  }

  lemma {:induction false} AlwaysFlagged(started: bool, steps: seq<Step>)
    ensures Flagged(Run(Fresh(started), steps))
  {
    hide Next;
    if steps != [] {
      AlwaysFlagged(started, steps[..|steps| - 1]);
      StepFlagged(Run(Fresh(started), steps[..|steps| - 1]), steps[|steps| - 1]);
    }
  }

  // ---- Projecting twice ----------------------------------------------------------------------

  predicate Projected(d: Data, s: Submission) {
    s.number in d.submissions && d.submissions[s.number] == s && Cached(d, s)
  }

  predicate AllProjected(d: Data, journal: seq<Submission>) {
    forall k :: 0 <= k < |journal| ==> Projected(d, journal[k])
  }

  lemma {:induction false} AcceptsProject(d: Data, journal: seq<Submission>)
    requires JournalOk(journal)
    ensures AllProjected(AcceptEvents(d, journal), journal)
  {
    if journal != [] {
      var n := |journal| - 1;
      AcceptsProject(d, journal[..n]);
      var before := AcceptEvents(d, journal[..n]);
      forall k | 0 <= k < |journal| ensures Projected(AcceptEvents(d, journal), journal[k]) {
        if k < n {
          assert Projected(before, journal[..n][k]);
        }
      }
    }
  }

  lemma {:induction false} ProjectedStay(d: Data, journal: seq<Submission>)
    requires AllProjected(d, journal)
    ensures AcceptEvents(d, journal) == d
  {
    if journal != [] {
      var n := |journal| - 1;
      forall k | 0 <= k < n ensures Projected(d, journal[..n][k]) {
        assert Projected(d, journal[k]);
      }
      ProjectedStay(d, journal[..n]);
      assert Projected(d, journal[n]);
      assert d.submissions[journal[n].number := journal[n]] == d.submissions;
    }
  }

  // ---- Reconciling twice ---------------------------------------------------------------------

  /** Nothing is left to change in a record that reconciling produced without a checkpoint. */
  lemma QuietData(disk: Disk)
    requires !Resumes(disk)
    ensures
      var d := ReconciledData(disk);
      d.reported || (d.interrupted && NoneRunning(d))
  {
  }

  lemma QuietAgain(disk: Disk, d: Data)
    requires !Resumes(disk.(http := d)) && (d.reported || (!disk.reported && d.interrupted && NoneRunning(d)))
    ensures ReconciledData(disk.(http := d)) == d
  {
    if !d.reported {
      NothingToSettle(d);
    }
  }

  lemma RestoredAgain(http: Data, state: Data, e: Data)
    requires NoneRunning(state) && CommandsSaved(http, state) && CommandsKnown(http)
    requires Extends(Restored(http, state), e)
    ensures Restored(e, state) == Restored(http, state)
  {
    RestoredCommands(http, state);
    LostAgain(http, state, e);
    var d := Restored(http, state);
    assert CommandRequests(e.requests) == CommandRequests(d.requests);
  }

  lemma LostAgain(http: Data, state: Data, e: Data)
    requires NoneRunning(state) && e.executions == Restored(http, state).executions
    ensures Lost(e, state) == Lost(http, state)
  {
  }

  lemma ReconcileTwice(disk: Disk, ids: nat)
    requires DiskOk(disk, ids) && Told(disk.http, disk) && (disk.checkpoint.Some? ==> Told(disk.checkpoint.value.state, disk))
    ensures Reconcile(Reconcile(disk)) == Reconcile(disk)
  {
    hide Matching, JournalOk, SubmissionsTrue, WritesCommitted, CommandsKnown, NoneRunning, Numbers, CommandsSaved, AcceptEvents, Restored,
      Lost, CommandRequests;
    var d := ReconciledData(disk);
    var e := AcceptEvents(d, disk.journal);
    ReconcileFields(disk);
    ReconciledFlags(disk);
    AcceptsExtend(d, disk.journal);
    if Resumes(disk) {
      var state := disk.checkpoint.value.state;
      RestoredMatches(disk, ids);
      NothingToSettle(Restored(disk.http, state));
      assert disk.http.(reported := disk.http.reported || disk.reported) == disk.http;
      RestoredReported(disk.http, state);
      assert !e.reported && !e.closing;
      RestoredAgain(disk.http, state, e);
      assert e.(reported := e.reported || disk.reported) == e;
      assert ReconciledData(Reconcile(disk)) == d;
    } else {
      QuietData(disk);
      AcceptsProject(d, disk.journal);
      ProjectedStay(e, disk.journal);
      ExtendsQuiet(d, e);
      ReportedStays(disk);
      QuietAgain(disk, e);
    }
  }

  lemma RestoredReported(http: Data, state: Data)
    ensures Restored(http, state).reported == state.reported && Restored(http, state).closing == state.closing
  {
  }

  lemma ReportedStays(disk: Disk)
    requires Told(disk.http, disk)
    ensures disk.reported ==> ReconciledData(disk).reported
  {
  }

  lemma ExtendsQuiet(d: Data, e: Data)
    requires Extends(d, e)
    ensures NoneRunning(d) ==> NoneRunning(e)
  {
  }

  /** In every reachable state, reconciling what is on disk and then reconciling again changes nothing more. */
  lemma ReconcileIsIdempotent(started: bool, steps: seq<Step>)
    ensures
      var disk := Run(Fresh(started), steps).disk;
      Reconcile(Reconcile(disk)) == Reconcile(disk)
  {
    hide Safe, Next, Reconcile, DiskOk;
    AlwaysSafe(started, steps);
    AlwaysFlagged(started, steps);
    var w := Run(Fresh(started), steps);
    DiskOfSafe(w);
    ReconcileTwice(w.disk, w.ids);
  }
}
