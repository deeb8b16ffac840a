/** What is answered, refused and shown: replies that must come, sessions that are shut, and what a restart shows. */
module ServiceReplies {
  import opened Prelude
  import opened Contents
  import opened Service
  import opened ServiceSafety
  import opened ServiceSteps
  import opened ServiceRecovery
  import opened ServiceGuarantees
  import opened ServiceFiles

  // ---- Replies that must come ----------------------------------------------------------------

  /**
   * A request that was once answered with success is answered again with the same success, by every later service that
   * runs and has no failed snapshot.
   */
  lemma ReplayAnswered(started: bool, steps: seq<Step>, i: nat, j: nat)
    requires i < j < |steps| && Asked(steps[i]).Some? && Asked(steps[j]) == Asked(steps[i])
    requires Served(Run(Fresh(started), steps[..i]), steps[i]).Some?
    requires
      var w := Run(Fresh(started), steps[..j]);
      w.live.Some? && !w.live.value.data.broken
    ensures Served(Run(Fresh(started), steps[..j]), steps[j]) == Served(Run(Fresh(started), steps[..i]), steps[i])
  {
    hide Next, Run, Idle, Starting, Submitting, Writing;
    var front := steps[..j];
    assert front[..i] == steps[..i] && front[i] == steps[i];
    ServedStays(started, front, i);
    AlwaysRemembers(started, front);
    Remembered(Run(Fresh(started), front), Asked(steps[i]).value.0);
  }

  lemma Remembered(w: World, r: Request)
    requires Remembers(w) && w.live.Some? && r in w.disk.http.requests
    ensures r in w.live.value.data.requests && w.live.value.data.requests[r] == w.disk.http.requests[r]
  {
  }

  predicate Usable(l: Live) {
    l.workspace.Some? && l.active && !l.data.reported && !l.data.interrupted && !l.data.closing && !l.data.broken
  }

  /** A new request is carried out exactly when the session is usable and no snapshot or command is under way. */
  lemma ProceedsExactly(l: Live, r: Request, body: Body)
    requires r !in l.data.requests
    ensures Admission(l, r, body).Proceed? <==>
      Usable(l) && l.job.None? && forall id :: id in l.data.executions ==> l.data.executions[id].state != Running
    ensures Admission(l, r, body).Final? ==> false
    ensures Admission(l, r, body).Pending? <==>
      !l.data.broken && l.job.Some? && r.route == Files && l.job.value.commit.WriteCommit?
      && l.job.value.commit.key == r.key && l.job.value.commit.receipt.body == body
  {
  }

  /** A request whose key has another body is refused, whatever the state of the session. */
  lemma ConflictRefused(l: Live, r: Request, body: Body)
    requires r in l.data.requests && l.data.requests[r].body != body
    ensures Admission(l, r, body) == Refused
  {
  }

  /** Every request with a new key goes ahead. */
  ghost predicate TakesRequests(w: World) {
    w.live.Some? && forall r, body :: r !in w.live.value.data.requests ==> Admission(w.live.value, r, body).Proceed?
  }

  /** A snapshot has been applied, and nothing is running. */
  predicate Snapshotted(w: World) {
    && w.live.Some? && Usable(w.live.value) && NoneRunning(w.live.value.data)
    && w.live.value.job.Some? && w.live.value.job.value.stage == Applied
  }

  /** When the snapshot thread is done the session takes new requests, and so it does after the command has reported. */
  lemma TakesRequestsAgain(w: World, id: nat)
    requires Snapshotted(w)
    ensures TakesRequests(Next(w, FinishJob)) && TakesRequests(Next(Next(w, FinishJob), SettleCommand(id)))
  {
    hide Workspace;
  }

  lemma ProceedsUsable(w: World, r: Request, body: Body)
    requires Proceeds(w, r, body)
    ensures Usable(w.live.value) && w.live.value.job.None? && NoneRunning(w.live.value.data)
  {
  }

  /** A write that goes ahead is pending until its snapshot is applied, and then answered with its path and bytes. */
  lemma WriteCompletes(w: World, key: string, path: string, content: Bytes)
    requires Proceeds(w, Request(Files, key), WriteBody(path, content))
    ensures
      var step := WriteFile(key, path, content);
      var a := Next(w, step);
      var b := Next(a, Snapshot);
      var c := Next(b, Apply);
      && Replied(w, w.live.value, step) == Pending
      && a.live.Some? && Replied(a, a.live.value, step) == Pending && b.live.Some? && Replied(b, b.live.value, step) == Pending
      && c.live.Some? && Served(c, step) == Some(Written(path, content))
      && Held(c).Some? && Kept(c) == Held(c) == Held(a)
      && Snapshotted(c)
  {
    hide Workspace, Idle;
    ProceedsUsable(w, Request(Files, key), WriteBody(path, content));
  }

  /** How the end of a command is shown, by its exit code. */
  predicate ShownAs(e: Execution, code: int) {
    && e.code == Some(code) && !e.rolledBack
    && (e.state == TimedOut <==> code == 124) && (e.state == Cancelled <==> code == 125)
    && (e.state == Error <==> code == 126 || code == 137)
    && (e.state == Complete <==> code !in {124, 125, 126, 137})
  }

  /** A command that goes ahead is running at once; when it ends and its snapshot is applied it is shown by its exit code. */
  lemma CommandCompletes(w: World, key: string, command: string, after: map<string, Bytes>, code: int)
    requires Proceeds(w, Request(Executions, key), CommandBody(command))
    ensures
      var a := Next(w, RunCommand(key, command));
      var b := Next(a, Change(after));
      var c := Next(b, Exit(code));
      var d := Next(Next(c, Snapshot), Apply);
      && Served(w, RunCommand(key, command)) == Some(Started(w.ids))
      && a.live.Some? && w.ids in a.live.value.data.executions && a.live.value.data.executions[w.ids].state == Running
      && d.live.Some? && w.ids in d.live.value.data.executions && ShownAs(d.live.value.data.executions[w.ids], code)
      && d.disk.http == d.live.value.data && Held(d) == Some(after) && Kept(d) == Some(after)
      && Snapshotted(d)
  {
    hide Idle, Workspace;
    ProceedsUsable(w, Request(Executions, key), CommandBody(command));
    var h := w.live.value.workspace.value;
    EntryAdded(h, Ran(w.ids, after));
    EntryAdded(h + [Ran(w.ids, after)], Exited(w.ids, code));
  }

  // ---- Sessions that are shut ----------------------------------------------------------------

  /** Closed or reported, durably. */
  predicate Shut(d: Data) { d.closing || d.reported }

  predicate ShutWorld(w: World) { Shut(w.disk.http) && (w.live.Some? ==> Shut(w.live.value.data)) }

  lemma {:induction false} ShutAccepts(d: Data, journal: seq<Submission>)
    ensures AcceptEvents(d, journal).closing == d.closing && AcceptEvents(d, journal).reported == d.reported
  {
    if journal != [] {
      ShutAccepts(d, journal[..|journal| - 1]);
    }
  }

  lemma ShutReconcile(disk: Disk)
    requires Shut(disk.http)
    ensures Shut(Reconcile(disk).http) && !Resumes(disk)
  {
    hide SettleRunning, AcceptEvents;
    ShutAccepts(ReconciledData(disk), disk.journal);
    ShutSettles(disk.http.(reported := disk.http.reported || disk.reported));
    ShutSettles(disk.http.(reported := disk.http.reported || disk.reported, interrupted := true));
  }

  lemma ShutSettles(d: Data)
    ensures SettleRunning(d).closing == d.closing && SettleRunning(d).reported == d.reported
  {
  }

  lemma ShutLiveStep(w: World, l: Live, step: Step)
    requires ShutWorld(w) && w.live == Some(l) && !step.Crash? && !step.WriteReport? && !step.Restart?
    ensures ShutWorld(NextLive(w, l, step))
  {
    hide Workspace, AcceptEvents, Find, Admission, NextJob, NextCommand, Submitting;
    ShutAccepts(l.data.(reported := true), w.disk.journal);
    ShutThreads(w, l, step);
    if step.Submit? && l.workspace.Some? {
      ShutSubmit(w, l, step.key, step.time, step.stopped);
    }
    WorkspaceThere(l);
  }

  lemma ShutThreads(w: World, l: Live, step: Step)
    requires ShutWorld(w) && w.live == Some(l)
    ensures ShutWorld(NextJob(w, l, step)) && ShutWorld(NextCommand(w, l, step))
  {
  }

  lemma ShutSubmit(w: World, l: Live, key: string, time: int, stopped: bool)
    requires ShutWorld(w) && w.live == Some(l) && l.workspace.Some?
    ensures ShutWorld(Submitting(w, l, key, time, stopped))
  {
    hide Workspace, Find;
  }

  lemma ShutStep(w: World, step: Step)
    requires ShutWorld(w)
    ensures ShutWorld(Next(w, step))
  {
    hide NextLive, Reconcile;
    if step.Restart? {
      ShutReconcile(w.disk);
    } else if w.live.Some? && !step.Crash? && !step.WriteReport? {
      ShutLiveStep(w, w.live.value, step);
    }
  }

  /** Once a session has been closed, or its report is in its record, nothing new is ever carried out, across crashes. */
  lemma {:induction false} ShutForGood(started: bool, steps: seq<Step>, k: nat, r: Request, body: Body)
    requires k <= |steps| && ShutWorld(Run(Fresh(started), steps[..k]))
    ensures ShutWorld(Run(Fresh(started), steps)) && !Proceeds(Run(Fresh(started), steps), r, body)
    decreases |steps|
  {
    hide Next, ShutWorld;
    if k < |steps| {
      var front := steps[..|steps| - 1];
      assert front[..k] == steps[..k];
      ShutForGood(started, front, k, r, body);
      ShutStep(Run(Fresh(started), front), steps[|steps| - 1]);
    } else {
      assert steps[..k] == steps;
    }
    ShutRefuses(Run(Fresh(started), steps), r, body);
  }

  lemma ShutRefuses(w: World, r: Request, body: Body)
    requires ShutWorld(w)
    ensures !Proceeds(w, r, body)
  {
    hide Idle;
  }

  /** Closing a running session, or completing it after its report was written, shuts it. */
  lemma ClosingShuts(w: World)
    requires w.live.Some?
    ensures ShutWorld(Next(w, CloseSession)) && Next(w, CloseSession).live.value.data.closing
    ensures w.disk.reported ==> ShutWorld(Next(w, CompleteRun)) && Next(w, CompleteRun).live.value.data.reported
  {
    hide AcceptEvents;
    ShutAccepts(w.live.value.data.(reported := true), w.disk.journal);
  }

  // ---- Failed snapshots ----------------------------------------------------------------------

  predicate SnapshotBreaks(w: World, step: Step) {
    w.live.Some? && w.live.value.workspace.Some? && w.live.value.job.Some?
    && (if step.SnapshotFails? then w.live.value.job.value.stage == Taking
        else (step.CleanupFails? || step.ApplyFails?) && w.live.value.job.value.stage == Durable)
  }

  predicate BrokenWorld(w: World) { w.live.Some? ==> w.live.value.data.broken && w.live.value.data.interrupted }

  /** A snapshot that fails marks the session; only what was durable before stays. */
  lemma FailureMarks(w: World, step: Step)
    requires SnapshotBreaks(w, step)
    ensures BrokenWorld(Next(w, step)) && Next(w, step).live.Some? && Next(w, step).disk.checkpoint == w.disk.checkpoint
  {
    hide Workspace;
  }

  lemma {:induction false} BrokenAccepts(d: Data, journal: seq<Submission>)
    ensures AcceptEvents(d, journal).broken == d.broken && AcceptEvents(d, journal).interrupted == d.interrupted
  {
    if journal != [] {
      BrokenAccepts(d, journal[..|journal| - 1]);
    }
  }

  lemma BrokenStep(w: World, step: Step)
    requires BrokenWorld(w) && !step.Restart?
    ensures BrokenWorld(Next(w, step))
  {
    hide Workspace, Idle, AcceptEvents, Find, SettleRunning;
    if w.live.Some? {
      BrokenAccepts(w.live.value.data.(reported := true), w.disk.journal);
    }
  }

  /** After a failed snapshot every request is refused until the service is started again. */
  lemma {:induction false} BrokenUntilRestart(w: World, steps: seq<Step>, r: Request, body: Body)
    requires BrokenWorld(w) && forall k :: 0 <= k < |steps| ==> !steps[k].Restart?
    ensures BrokenWorld(Run(w, steps)) && (Run(w, steps).live.Some? ==> Admission(Run(w, steps).live.value, r, body) == Refused)
  {
    hide Next;
    if steps != [] {
      BrokenUntilRestart(w, steps[..|steps| - 1], r, body);
      BrokenStep(Run(w, steps[..|steps| - 1]), steps[|steps| - 1]);
    }
  }

  predicate EndedWorld(w: World) { w.live.Some? ==> !w.live.value.active }

  lemma EndedStep(w: World, step: Step)
    requires EndedWorld(w) && !step.Restart?
    ensures EndedWorld(Next(w, step)) && Next(w, step).disk.checkpoint == w.disk.checkpoint
  {
    hide Workspace, Idle, AcceptEvents, Find;
  }

  /** After the workspace has ended nothing is carried out and no snapshot is taken until the service is started again. */
  lemma {:induction false} EndedUntilRestart(w: World, steps: seq<Step>, r: Request, body: Body)
    requires forall k :: 0 <= k < |steps| ==> !steps[k].Restart?
    ensures
      var ended := Next(w, EndWorkspace);
      var n := Run(ended, steps);
      EndedWorld(n) && !Proceeds(n, r, body) && n.disk.checkpoint == w.disk.checkpoint
  {
    hide Idle;
    if steps != [] {
      hide Next;
      EndedUntilRestart(w, steps[..|steps| - 1], r, body);
      EndedStep(Run(Next(w, EndWorkspace), steps[..|steps| - 1]), steps[|steps| - 1]);
    }
  }

  // ---- What a restart shows ------------------------------------------------------------------

  /** The record lists, by number, submissions of the journal. */
  predicate Listed(d: Data, journal: seq<Submission>) {
    forall n :: n in d.submissions ==> 1 <= n <= |journal| && d.submissions[n] == journal[n - 1]
  }

  lemma {:induction false} AcceptsList(d: Data, journal: seq<Submission>, k: nat)
    requires k <= |journal| && Listed(d, journal) && forall i :: 0 <= i < |journal| ==> journal[i].number == i + 1
    ensures Listed(AcceptEvents(d, journal[..k]), journal)
    ensures forall n :: 1 <= n <= k ==> n in AcceptEvents(d, journal[..k]).submissions
  {
    if k > 0 {
      AcceptsList(d, journal, k - 1);
      assert journal[..k][..k - 1] == journal[..k - 1];
    }
  }

  predicate ListsOnly(w: World) {
    && Listed(w.disk.http, w.disk.journal)
    && (w.disk.checkpoint.Some? ==> Listed(w.disk.checkpoint.value.state, w.disk.journal))
    && (w.live.Some? ==> Listed(w.live.value.data, w.disk.journal))
    && (w.live.Some? && w.live.value.job.Some? ==> Listed(w.live.value.job.value.frozen, w.disk.journal))
  }

  lemma ListedGrows(d: Data, journal: seq<Submission>, s: Submission)
    requires Listed(d, journal)
    ensures Listed(d, journal + [s])
  {
  }

  lemma FindNumbered(journal: seq<Submission>, key: string)
    requires JournalOk(journal)
    ensures Find(journal, key) < |journal| ==> journal[Find(journal, key)].number == Find(journal, key) + 1
  {
  }

  lemma NumberedJournal(journal: seq<Submission>)
    requires JournalOk(journal)
    ensures forall i :: 0 <= i < |journal| ==> journal[i].number == i + 1
  {
  }

  lemma ListsLiveStep(w: World, l: Live, step: Step)
    requires ListsOnly(w) && JournalOk(w.disk.journal) && w.live == Some(l)
    requires !step.Crash? && !step.WriteReport? && !step.Restart? && !step.Submit? && !step.SubmitDirect? && !step.CompleteRun?
    ensures ListsOnly(NextLive(w, l, step))
  {
    hide Workspace, Idle, AcceptEvents, Find, JournalOk, SettleRunning;
  }

  lemma ListsSubmit(w: World, l: Live, step: Step)
    requires ListsOnly(w) && JournalOk(w.disk.journal) && w.live == Some(l) && (step.Submit? || step.SubmitDirect?)
    ensures ListsOnly(NextLive(w, l, step))
  {
    hide Workspace, Idle, AcceptEvents, Find, JournalOk, Listed;
    var n := NextLive(w, l, step);
    if step.Submit? {
      FindNumbered(w.disk.journal, step.key);
    }
    forall d, s | Listed(d, w.disk.journal) ensures Listed(d, w.disk.journal + [s]) {
      ListedGrows(d, w.disk.journal, s);
    }
    if n != w && n.live.Some? && step.Submit? {
      var found := Find(w.disk.journal, step.key);
      var s := if found < |w.disk.journal| then w.disk.journal[found] else n.disk.journal[|w.disk.journal|];
      ListedPut(l.data, n.disk.journal, s);
      ListedRequests(AcceptEvent(l.data, s), n.live.value.data, n.disk.journal);
    }
  }

  lemma ListedPut(d: Data, journal: seq<Submission>, s: Submission)
    requires Listed(d, journal) && 1 <= s.number <= |journal| && journal[s.number - 1] == s
    ensures Listed(AcceptEvent(d, s), journal)
  {
  }

  lemma ListedRequests(d: Data, e: Data, journal: seq<Submission>)
    requires Listed(d, journal) && e.submissions == d.submissions
    ensures Listed(e, journal)
  {
  }

  lemma ReconciledLists(disk: Disk)
    requires Listed(disk.http, disk.journal) && (disk.checkpoint.Some? ==> Listed(disk.checkpoint.value.state, disk.journal))
    requires JournalOk(disk.journal)
    ensures Listed(Reconcile(disk).http, disk.journal)
    ensures forall n :: 1 <= n <= |disk.journal| ==> n in Reconcile(disk).http.submissions
  {
    hide AcceptEvents, JournalOk;
    NumberedJournal(disk.journal);
    AcceptsList(ReconciledData(disk), disk.journal, |disk.journal|);
    assert disk.journal[..|disk.journal|] == disk.journal;
  }

  lemma ListsStep(w: World, step: Step)
    requires ListsOnly(w) && JournalOk(w.disk.journal)
    ensures ListsOnly(Next(w, step))
  {
    hide NextLive, Reconcile, AcceptEvents, JournalOk, Listed;
    if step.Restart? {
      ReconciledLists(w.disk);
      SameCheckpoint(w.disk);
      SameJournal(w.disk);
    } else if w.live.Some? && !step.Crash? && !step.WriteReport? {
      if step.Submit? || step.SubmitDirect? {
        ListsSubmit(w, w.live.value, step);
      } else if step.CompleteRun? {
        ListsComplete(w, w.live.value);
      } else {
        ListsLiveStep(w, w.live.value, step);
      }
    }
  }

  lemma SameJournal(disk: Disk)
    ensures Reconcile(disk).journal == disk.journal
  {
  }

  lemma ListsComplete(w: World, l: Live)
    requires ListsOnly(w) && JournalOk(w.disk.journal) && w.live == Some(l)
    ensures ListsOnly(NextLive(w, l, CompleteRun))
  {
    hide AcceptEvents, JournalOk, Workspace;
    NumberedJournal(w.disk.journal);
    AcceptsList(l.data.(reported := true), w.disk.journal, |w.disk.journal|);
    assert w.disk.journal[..|w.disk.journal|] == w.disk.journal;
  }

  /** In every run the record lists only submissions of the journal, each at its number. */
  lemma {:induction false} AlwaysListed(started: bool, steps: seq<Step>)
    ensures ListsOnly(Run(Fresh(started), steps)) && JournalOk(Run(Fresh(started), steps).disk.journal)
  {
    hide Next, JournalOk, Safe;
    AlwaysSafe(started, steps);
    JournalOfSafe(Run(Fresh(started), steps));
    if steps != [] {
      AlwaysListed(started, steps[..|steps| - 1]);
      ListsStep(Run(Fresh(started), steps[..|steps| - 1]), steps[|steps| - 1]);
    }
  }

  lemma JournalOfSafe(w: World)
    requires Safe(w)
    ensures JournalOk(w.disk.journal)
  {
    hide LiveOk, CheckpointOk, HttpOk;
  }

  /** A restart lists exactly the journal: every submission at its number, whoever made it. */
  lemma RestartListsAll(started: bool, steps: seq<Step>)
    ensures
      var disk := Run(Fresh(started), steps).disk;
      var d := Reconcile(disk).http;
      && (forall n :: n in d.submissions <==> 1 <= n <= |disk.journal|)
      && forall n :: n in d.submissions ==> d.submissions[n] == disk.journal[n - 1]
  {
    hide Run, Reconcile, JournalOk;
    AlwaysListed(started, steps);
    ReconciledLists(Run(Fresh(started), steps).disk);
  }

  lemma {:induction false} AcceptsKeep(d: Data, journal: seq<Submission>)
    ensures AcceptEvents(d, journal).executions == d.executions && AcceptEvents(d, journal).recovered == d.recovered
  {
    if journal != [] {
      AcceptsKeep(d, journal[..|journal| - 1]);
    }
  }

  /** The saved record is closed and reported whenever any other copy of the record is, and the running service agrees. */
  predicate FlagsSaved(w: World) {
    && (w.disk.checkpoint.Some? ==> Covered(w.disk.checkpoint.value.state, w.disk.http))
    && (w.live.Some? ==> Covered(w.live.value.data, w.disk.http) && Covered(w.disk.http, w.live.value.data))
    && (w.live.Some? && w.live.value.job.Some? ==> Covered(w.live.value.job.value.frozen, w.disk.http))
  }

  predicate Covered(d: Data, saved: Data) { (d.closing ==> saved.closing) && (d.reported ==> saved.reported) }

  lemma FlagsJob(w: World, l: Live, step: Step)
    requires FlagsSaved(w) && w.live == Some(l)
    ensures FlagsSaved(NextJob(w, l, step))
  {
  }

  lemma FlagsCommand(w: World, l: Live, step: Step)
    requires FlagsSaved(w) && w.live == Some(l)
    ensures FlagsSaved(NextCommand(w, l, step))
  {
  }

  lemma FlagsSubmit(w: World, l: Live, key: string, time: int, stopped: bool)
    requires FlagsSaved(w) && w.live == Some(l) && l.workspace.Some?
    ensures FlagsSaved(Submitting(w, l, key, time, stopped))
  {
    hide Workspace, Find;
  }

  lemma FlagsLiveStep(w: World, l: Live, step: Step)
    requires FlagsSaved(w) && w.live == Some(l) && !step.Crash? && !step.WriteReport? && !step.Restart?
    ensures FlagsSaved(NextLive(w, l, step))
  {
    hide Workspace, AcceptEvents, Find, Admission, NextJob, NextCommand, Submitting;
    ShutAccepts(l.data.(reported := true), w.disk.journal);
    FlagsJob(w, l, step);
    FlagsCommand(w, l, step);
    if step.Submit? && l.workspace.Some? {
      FlagsSubmit(w, l, step.key, step.time, step.stopped);
    }
    WorkspaceThere(l);
  }

  lemma WorkspaceThere(l: Live)
    ensures forall r, body :: Admission(l, r, body).Proceed? ==> l.workspace.Some?
  {
    hide Idle;
  }

  lemma FlagsReconciled(disk: Disk)
    requires disk.checkpoint.Some? ==> Covered(disk.checkpoint.value.state, disk.http)
    ensures disk.checkpoint.Some? ==> Covered(disk.checkpoint.value.state, Reconcile(disk).http)
  {
    hide AcceptEvents;
    ShutAccepts(ReconciledData(disk), disk.journal);
  }

  lemma {:induction false} AlwaysFlagged(started: bool, steps: seq<Step>)
    ensures FlagsSaved(Run(Fresh(started), steps))
  {
    hide NextLive, Reconcile;
    if steps != [] {
      var w, step := Run(Fresh(started), steps[..|steps| - 1]), steps[|steps| - 1];
      AlwaysFlagged(started, steps[..|steps| - 1]);
      if step.Restart? {
        SameCheckpoint(w.disk);
        FlagsReconciled(w.disk);
      } else if w.live.Some? && !step.Crash? && !step.WriteReport? {
        FlagsLiveStep(w, w.live.value, step);
      }
    }
  }

  /** The commands that the record says were lost are those that the checkpoint does not know; the others are as it knows them. */
  ghost predicate ShowsLost(d: Data, disk: Disk)
    requires disk.checkpoint.Some?
  {
    var known := disk.checkpoint.value.state.executions;
    && d.recovered.Some?
    && (forall id :: id in d.recovered.value <==> id in disk.http.executions && id !in known)
    && d.executions.Keys == known.Keys + d.recovered.value
    && (forall id :: id in d.executions ==>
          if id in d.recovered.value then d.executions[id] == Execution(Error, None, true)
          else id in known && d.executions[id] == known[id])
  }

  /**
   * A session resumes exactly when it is neither reported nor closed and has a checkpoint. It is then usable at once, and
   * says which commands were lost: those that the checkpoint does not know as ended. Any other session that was not
   * reported is marked interrupted.
   */
  lemma RestartShows(started: bool, steps: seq<Step>)
    requires Run(Fresh(started), steps).live.None?
    ensures
      var w := Run(Fresh(started), steps);
      var n := Next(w, Restart(true));
      && n.live.Some?
      && (n.live.value.workspace.Some? <==> !w.disk.http.reported && !w.disk.reported && !w.disk.http.closing && w.disk.checkpoint.Some?)
      && (n.live.value.workspace.Some? ==> Usable(n.live.value) && ShowsLost(n.live.value.data, w.disk))
      && (n.live.value.workspace.None? ==>
        n.live.value.data.reported || (n.live.value.data.interrupted && ShowsInterrupted(n.live.value.data, w.disk)))
  {
    hide Run, AcceptEvents, Safe, ShowsLost;
    AlwaysSafe(started, steps);
    AlwaysFlagged(started, steps);
    var w := Run(Fresh(started), steps);
    DiskOfSafe(w);
    AcceptsKeep(ReconciledData(w.disk), w.disk.journal);
    ShutAccepts(ReconciledData(w.disk), w.disk.journal);
    BrokenAccepts(ReconciledData(w.disk), w.disk.journal);
    RestoredShows(w.disk, w.ids);
    if Resumes(w.disk) {
      LostAccepts(ReconciledData(w.disk), Reconcile(w.disk).http, w.disk);
    }
  }

  /** Commands that were running are errors without an exit code, and the others are as they were. */
  predicate ShowsInterrupted(d: Data, disk: Disk) {
    && d.executions.Keys == disk.http.executions.Keys
    && forall id :: id in d.executions ==>
         var e := disk.http.executions[id];
         d.executions[id] == if e.state == Running then Execution(Error, None, e.rolledBack) else e
  }

  lemma LostAccepts(d: Data, e: Data, disk: Disk)
    requires disk.checkpoint.Some? && ShowsLost(d, disk) && e.executions == d.executions && e.recovered == d.recovered
    ensures ShowsLost(e, disk)
  {
  }

  lemma RestoredShows(disk: Disk, ids: nat)
    requires DiskOk(disk, ids) && (disk.checkpoint.Some? ==> Covered(disk.checkpoint.value.state, disk.http))
    ensures
      var d := ReconciledData(disk);
      if Resumes(disk) then !d.reported && !d.closing && !d.interrupted && !d.broken && ShowsLost(d, disk)
      else d.reported || (d.interrupted && ShowsInterrupted(d, disk))
  {
    hide Matching, SubmissionsTrue, CommandRequests, JournalOk, HttpOk, CommandsSaved;
  }
}
