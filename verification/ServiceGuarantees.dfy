/** What a client may rely on, over every run of a session with crashes and restarts anywhere. */
module ServiceGuarantees {
  import opened Prelude
  import opened Contents
  import opened Service
  import opened ServiceSafety
  import opened ServiceSteps
  import opened ServiceRecovery

  // ---- Restored sessions ---------------------------------------------------------------------

  /** The command ended in this history, or it was rolled back and left nothing. */
  ghost predicate EndedOrRolledBack(h: History, d: Data, id: nat) {
    && id in d.executions && d.executions[id].state != Running
    && CommandMatch(h, id, d.executions[id])
  }

  /**
   * A resumed session has exactly the writes it has receipts for, no running command, every command receipt that was
   * ever given, and each of those commands either with its effects or rolled back without any.
   */
  lemma RestoredExactly(started: bool, steps: seq<Step>)
    ensures
      var w := Run(Fresh(started), steps);
      w.live.None? && Resumes(w.disk) ==>
        var l := Restarted(w, true).live.value;
        && l.workspace.Some? && WritesMatch(l.workspace.value, l.data.requests) && NoneRunning(l.data)
        && CommandRequests(l.data.requests) == CommandRequests(w.disk.http.requests)
        && forall r :: r in l.data.requests && r.route == Executions ==>
          l.data.requests[r].response.Started? && EndedOrRolledBack(l.workspace.value, l.data, l.data.requests[r].response.id)
  {
    hide DiskOk, Reconcile, WritesMatch, CommandMatch, CommandRequests, Safe;
    AlwaysSafe(started, steps);
    var w := Run(Fresh(started), steps);
    if w.live.None? && Resumes(w.disk) {
      DiskOfSafe(w);
      ReconciledDisk(w.disk, w.ids);
      ReconcileFields(w.disk);
      var d, h := Reconcile(w.disk).http, w.disk.checkpoint.value.history;
      HttpFacts(Reconcile(w.disk), w.ids);
      ReconciledRequests(w.disk, w.ids);
      forall r | r in d.requests && r.route == Executions
        ensures d.requests[r].response.Started? && EndedOrRolledBack(h, d, d.requests[r].response.id)
      {
        assert CommandMatch(h, d.requests[r].response.id, d.executions[d.requests[r].response.id]);
      }
    }
  }

  lemma DiskOfSafe(w: World)
    requires Safe(w)
    ensures DiskOk(w.disk, w.ids)
  {
    hide DiskOk, LiveOk;
  }

  lemma ReconciledRequests(disk: Disk, ids: nat)
    requires DiskOk(disk, ids)
    ensures CommandRequests(Reconcile(disk).http.requests) == CommandRequests(disk.http.requests)
  {
    hide DiskOk, CommandRequests, ReconciledData, AcceptEvents, Matching, SubmissionsTrue, WritesCommitted, CommandsKnown;
    ReconciledRecord(disk, ids);
    AcceptsExtend(ReconciledData(disk), disk.journal);
    ExtendsKeeps(ReconciledData(disk), AcceptEvents(ReconciledData(disk), disk.journal), disk.checkpoint, ids);
  }

  /** What survives has every write and every command end at most once, and the journal has every key at most once. */
  lemma AtMostOnce(started: bool, steps: seq<Step>)
    ensures
      var w := Run(Fresh(started), steps);
      && JournalOk(w.disk.journal)
      && (w.disk.checkpoint.Some? ==>
        var h := w.disk.checkpoint.value.history;
        && Ends(h) && forall a, b :: 0 <= a < b < |h| && h[a].Wrote? && h[b].Wrote? ==> h[a].key != h[b].key)
  {
    hide JournalOk, Ends, HttpOk, CommandMatch;
    AlwaysSafe(started, steps);
  }

  // ---- Answers -------------------------------------------------------------------------------

  /** The final success that a request gets without doing anything: the replay of an earlier one. */
  function Answer(w: World, r: Request, body: Body): (a: Option<Response>) {
    if w.live.None? then None
    else
      var v := Admission(w.live.value, r, body);
      if v.Final? then Some(v.response) else None
  }

  predicate Grows(d: Data, e: Data) {
    forall r :: r in d.requests ==> r in e.requests && e.requests[r] == d.requests[r]
  }

  /** The running service has every receipt that is saved. */
  predicate Remembers(w: World) {
    w.live.Some? ==> Grows(w.disk.http, w.live.value.data)
  }

  lemma GrowsThrough(a: Data, b: Data, c: Data)
    requires Grows(a, b) && Grows(b, c)
    ensures Grows(a, c)
  {
  }

  lemma GrowsSelf(a: Data)
    ensures Grows(a, a)
  {
  }

  lemma CommitGrows(l: Live)
    requires JobCommits(l) && l.job.Some? && l.job.value.stage.Durable?
    ensures Grows(l.data, Committed(l.data, l.job.value.commit)) && Grows(l.data, Broken(Committed(l.data, l.job.value.commit)))
  {
  }

  lemma SubmitGrows(l: Live, s: Submission, key: string)
    requires Request(Submissions, key) !in l.data.requests && (s.key.Some? ==> s.key == Some(key))
    ensures
      var d := AcceptEvent(l.data, s);
      Grows(l.data, d.(requests := d.requests[Request(Submissions, key) := ReceiptOf(s)]))
  {
  }

  /** A step of the running service saves its own record or saves nothing, and drops no receipt. */
  predicate StepGrows(w: World, l: Live, n: World) {
    && (n.disk.http == w.disk.http || (n.live.Some? && n.disk.http == n.live.value.data))
    && (n.live.Some? ==> Grows(l.data, n.live.value.data))
  }

  lemma JobStepGrows(w: World, l: Live, step: Step)
    requires Safe(w) && w.live == Some(l)
    ensures StepGrows(w, l, NextJob(w, l, step))
  {
    hide Safe, JobCommits, Grows, Committed, Broken;
    LiveParts(w, l);
    GrowsSelf(l.data);
    BrokenGrows(l.data);
    if l.job.Some? && l.job.value.stage.Durable? {
      CommitGrows(l);
    }
  }

  lemma BrokenGrows(d: Data)
    ensures Grows(d, Broken(d))
  {
  }

  lemma SameRequestsGrow(d: Data, e: Data)
    requires d.requests == e.requests
    ensures Grows(d, e)
  {
  }

  lemma CommandStepGrows(w: World, l: Live, step: Step)
    requires w.live == Some(l)
    ensures StepGrows(w, l, NextCommand(w, l, step))
  {
  }

  lemma SubmitStepGrows(w: World, l: Live, key: string, time: int, stopped: bool)
    requires Safe(w) && w.live == Some(l) && Admission(l, Request(Submissions, key), SubmitBody).Proceed?
    ensures StepGrows(w, l, Submitting(w, l, key, time, stopped))
  {
    hide Safe, Grows, Workspace, AcceptEvent, JournalCached, Admission;
    Admitted(l, Request(Submissions, key), SubmitBody);
    GrowsSelf(l.data);
    var found := Find(w.disk.journal, key);
    var files := Workspace(l.workspace.value);
    if found < |w.disk.journal| || OUTPUT in files {
      SubmitGrows(l, if found < |w.disk.journal| then w.disk.journal[found]
        else Submission(|w.disk.journal| + 1, Some(key), files[OUTPUT], time), key);
    }
  }

  lemma AcceptEventsGrow(d: Data, e: Data, journal: seq<Submission>)
    requires d.requests == e.requests
    ensures Grows(d, AcceptEvents(e, journal))
  {
    hide AcceptEvents;
    AcceptsExtend(e, journal);
  }

  lemma StartGrows(w: World, l: Live, key: string, command: string)
    requires Request(Executions, key) !in l.data.requests
    ensures StepGrows(w, l, Starting(w, l, key, command))
  {
  }

  lemma LiveStepGrows(w: World, l: Live, step: Step)
    requires Safe(w) && w.live == Some(l)
    ensures StepGrows(w, l, NextLive(w, l, step))
  {
    hide Safe, Grows, Starting, Submitting, NextCommand, NextJob, Admission, AcceptEvents;
    GrowsSelf(l.data);
    match step
    case WriteFile(key, path, content) =>
      if Admission(l, Request(Files, key), WriteBody(path, content)).Proceed? {
        Admitted(l, Request(Files, key), WriteBody(path, content));
      }
    case RunCommand(key, command) =>
      if Admission(l, Request(Executions, key), CommandBody(command)).Proceed? {
        Admitted(l, Request(Executions, key), CommandBody(command));
        StartGrows(w, l, key, command);
      }
    case Submit(key, time, stopped) =>
      if Admission(l, Request(Submissions, key), SubmitBody).Proceed? {
        SubmitStepGrows(w, l, key, time, stopped);
      }
    case SubmitDirect(_) =>
    case CloseSession => SameRequestsGrow(l.data, l.data.(closing := true));
    case EndWorkspace =>
    case CompleteRun => AcceptEventsGrow(l.data, l.data.(reported := true), w.disk.journal);
    case RunFails => SameRequestsGrow(l.data, l.data.(interrupted := true));
    case Change(_) => CommandStepGrows(w, l, step);
    case Exit(_) => CommandStepGrows(w, l, step);
    case SettleCommand(_) => CommandStepGrows(w, l, step);
    case _ => JobStepGrows(w, l, step);
  }

  // ---- Receipts across restarts --------------------------------------------------------------

  lemma SameKeySameReceipt(journal: seq<Submission>, key: string, a: Receipt, b: Receipt)
    requires JournalOk(journal) && FromJournal(journal, key, a) && FromJournal(journal, key, b)
    ensures a == b
  {
    var i :| 0 <= i < |journal| && EventAt(journal, i, key, a);
    var j :| 0 <= j < |journal| && EventAt(journal, j, key, b);
  }

  lemma CachedKey(d: Data, journal: seq<Submission>, key: string, r: Receipt)
    requires JournalCached(d, journal) && FromJournal(journal, key, r)
    ensures Request(Submissions, key) in d.requests
  {
    var k :| 0 <= k < |journal| && EventAt(journal, k, key, r);
    assert Cached(d, journal[k]);
  }

  /** Restarting keeps every saved receipt, on every route. */
  lemma ReconcileGrows(disk: Disk, ids: nat)
    requires DiskOk(disk, ids)
    ensures Grows(disk.http, Reconcile(disk).http)
  {
    hide DiskOk, Matching, SubmissionsTrue, JournalCached, AcceptEvents, CommandRequests, FromJournal, JournalOk;
    ReconciledDisk(disk, ids);
    ReconcileFields(disk);
    HttpFacts(disk, ids);
    HttpFacts(Reconcile(disk), ids);
    ReconciledRequests(disk, ids);
    var e := Reconcile(disk).http;
    forall r | r in disk.http.requests ensures r in e.requests && e.requests[r] == disk.http.requests[r] {
      match r.route
      case Files => WriteStays(disk, ids, r);
      case Executions => CommandStays(disk.http.requests, e.requests, r);
      case Submissions => SubmissionStays(disk.http, e, disk.journal, r);
    }
  }

  lemma CommandStays(a: map<Request, Receipt>, b: map<Request, Receipt>, r: Request)
    requires CommandRequests(a) == CommandRequests(b) && r.route == Executions && r in a
    ensures r in b && b[r] == a[r]
  {
    assert r in CommandRequests(a);
    assert r in CommandRequests(b);
  }

  lemma SubmissionStays(d: Data, e: Data, journal: seq<Submission>, r: Request)
    requires JournalOk(journal) && SubmissionsTrue(d, journal) && SubmissionsTrue(e, journal) && JournalCached(e, journal)
    requires r.route == Submissions && r in d.requests
    ensures r in e.requests && e.requests[r] == d.requests[r]
  {
    hide JournalOk, JournalCached, FromJournal;
    assert FromJournal(journal, r.key, d.requests[r]);
    CachedKey(e, journal, r.key, d.requests[r]);
    assert r == Request(Submissions, r.key);
    SameKeySameReceipt(journal, r.key, d.requests[r], e.requests[r]);
  }

  lemma WriteStays(disk: Disk, ids: nat, r: Request)
    requires DiskOk(disk, ids) && r.route == Files && r in disk.http.requests
    ensures r in Reconcile(disk).http.requests && Reconcile(disk).http.requests[r] == disk.http.requests[r]
  {
    hide DiskOk, Matching, SubmissionsTrue, JournalCached, AcceptEvents, FromJournal, JournalOk, Lost;
    HttpFacts(disk, ids);
    AcceptsExtend(ReconciledData(disk), disk.journal);
    if Resumes(disk) {
      assert r in disk.checkpoint.value.state.requests;
    }
  }

  // ---- Replays -------------------------------------------------------------------------------

  lemma RestartRemembers(w: World, attached: bool)
    requires Safe(w) && w.live.None?
    ensures Grows(w.disk.http, Restarted(w, attached).disk.http) && Remembers(Restarted(w, attached))
  {
    hide Safe, Reconcile, Grows;
    DiskOfSafe(w);
    ReconcileGrows(w.disk, w.ids);
    GrowsSelf(Reconcile(w.disk).http);
  }

  lemma StepRemembers(w: World, step: Step)
    requires Safe(w) && Remembers(w)
    ensures Remembers(Next(w, step)) && Grows(w.disk.http, Next(w, step).disk.http)
  {
    hide Safe, NextLive, Restarted, Grows;
    GrowsSelf(w.disk.http);
    if step.Restart? && w.live.None? {
      RestartRemembers(w, step.attached);
    } else if w.live.Some? && !step.Crash? && !step.WriteReport? && !step.Restart? {
      var l := w.live.value;
      LiveStepGrows(w, l, step);
      var n := NextLive(w, l, step);
      if n.live.Some? {
        GrowsThrough(w.disk.http, l.data, n.live.value.data);
        GrowsSelf(n.live.value.data);
      }
    }
  }

  lemma {:induction false} AlwaysRemembers(started: bool, steps: seq<Step>)
    ensures Remembers(Run(Fresh(started), steps)) && Safe(Run(Fresh(started), steps))
  {
    hide Safe, Next;
    AlwaysSafe(started, steps);
    if steps != [] {
      AlwaysRemembers(started, steps[..|steps| - 1]);
      StepRemembers(Run(Fresh(started), steps[..|steps| - 1]), steps[|steps| - 1]);
    }
  }

  lemma {:induction false} SavedReceiptsStay(started: bool, steps: seq<Step>, k: nat)
    requires k <= |steps|
    ensures Grows(Run(Fresh(started), steps[..k]).disk.http, Run(Fresh(started), steps).disk.http)
    decreases |steps|
  {
    hide Safe, Next, Grows;
    if k == |steps| {
      assert steps[..k] == steps;
      GrowsSelf(Run(Fresh(started), steps).disk.http);
    } else {
      var front := steps[..|steps| - 1];
      assert front[..k] == steps[..k];
      SavedReceiptsStay(started, front, k);
      AlwaysRemembers(started, front);
      StepRemembers(Run(Fresh(started), front), steps[|steps| - 1]);
      GrowsThrough(Run(Fresh(started), steps[..k]).disk.http, Run(Fresh(started), front).disk.http, Run(Fresh(started), steps).disk.http);
    }
  }

  /** A final success is given only from a saved receipt for the same body. */
  lemma AnswersAreSaved(w: World, r: Request, body: Body)
    requires Safe(w) && Answer(w, r, body).Some?
    ensures r in w.disk.http.requests && w.disk.http.requests[r] == Receipt(body, Answer(w, r, body).value)
  {
    hide DiskOk, OnlyCommand, CommandOk, JobCommits, JobOk, Ahead, SubmissionsTrue, JournalCached, WritesCommitted, CommandsKnown,
      CommandRequests;
    var l := w.live.value;
    LiveParts(w, l);
    BrokenOrSaved(l, w.disk, w.ids);
  }

  lemma BrokenOrSaved(l: Live, disk: Disk, ids: nat)
    requires RecordOk(l, disk, ids) && WorkspaceOk(l, disk.checkpoint)
    ensures l.data.broken || l.data == disk.http
  {
    hide JobOk, Ahead, SubmissionsTrue, JournalCached, WritesCommitted, CommandsKnown, CommandRequests;
  }

  /**
   * Two final successes for the same request, however far apart and whatever crashed between them, have the same body
   * and the same response.
   */
  lemma ReplaysAgree(started: bool, steps: seq<Step>, k: nat, r: Request, earlier: Body, later: Body)
    requires k <= |steps|
    requires Answer(Run(Fresh(started), steps[..k]), r, earlier).Some? && Answer(Run(Fresh(started), steps), r, later).Some?
    ensures earlier == later
    ensures Answer(Run(Fresh(started), steps[..k]), r, earlier) == Answer(Run(Fresh(started), steps), r, later)
  {
    hide Safe, Next, Answer;
    AlwaysSafe(started, steps[..k]);
    AlwaysSafe(started, steps);
    SavedReceiptsStay(started, steps, k);
    AnswersAreSaved(Run(Fresh(started), steps[..k]), r, earlier);
    AnswersAreSaved(Run(Fresh(started), steps), r, later);
  }

  /** After a final success the operation is never carried out again: the receipt stays, and admission finds it. */
  lemma NeverTwice(started: bool, steps: seq<Step>, k: nat, r: Request, body: Body, other: Body)
    requires k <= |steps| && Answer(Run(Fresh(started), steps[..k]), r, body).Some?
    ensures
      var w := Run(Fresh(started), steps);
      w.live.Some? ==> !Admission(w.live.value, r, other).Proceed?
  {
    hide Safe, Next, Answer;
    AlwaysSafe(started, steps[..k]);
    SavedReceiptsStay(started, steps, k);
    AnswersAreSaved(Run(Fresh(started), steps[..k]), r, body);
    AlwaysRemembers(started, steps);
  }

  // ---- The request that is carried out and its replays ---------------------------------------

  /** The request that a step makes, with its body. */
  function Asked(step: Step): (r: Option<(Request, Body)>) {
    match step
    case WriteFile(key, path, content) => Some((Request(Files, key), WriteBody(path, content)))
    case RunCommand(key, command) => Some((Request(Executions, key), CommandBody(command)))
    case Submit(key, _, _) => Some((Request(Submissions, key), SubmitBody))
    case _ => None
  }

  /** The final success that the caller of a step gets, from carrying it out or from a replay. */
  function Served(w: World, step: Step): (a: Option<Response>) {
    if w.live.None? || Asked(step).None? then None
    else
      var v := Replied(w, w.live.value, step);
      if v.Final? then Some(v.response) else None
  }

  /** The step is carried out and answered, not replayed. */
  predicate CarriedOut(w: World, step: Step) {
    && Served(w, step).Some?
    && Admission(w.live.value, Asked(step).value.0, Asked(step).value.1).Proceed?
  }

  lemma ServedAsked(w: World, step: Step)
    requires Served(w, step).Some?
    ensures w.live.Some? && Asked(step).Some?
  {
  }

  /** Whoever gets a final success finds its receipt saved, at once. */
  lemma ServedIsSaved(w: World, step: Step)
    requires Safe(w) && Remembers(w) && Served(w, step).Some?
    ensures
      var n, (r, body) := Next(w, step), Asked(step).value;
      r in n.disk.http.requests && n.disk.http.requests[r] == Receipt(body, Served(w, step).value)
  {
    hide Safe, Remembers, Workspace, Admission, AcceptEvent, Grows;
    var (r, body) := Asked(step).value;
    var l := w.live.value;
    if Admission(l, r, body).Proceed? {
      Admitted(l, r, body);
      CarriedOutSaves(w, l, step);
    } else {
      AnswersAreSaved(w, r, body);
      StepRemembers(w, step);
      GrowsAt(w.disk.http, Next(w, step).disk.http, r);
    }
  }

  lemma GrowsAt(d: Data, e: Data, r: Request)
    requires Grows(d, e) && r in d.requests
    ensures r in e.requests && e.requests[r] == d.requests[r]
  {
  }

  lemma CarriedOutSaves(w: World, l: Live, step: Step)
    requires w.live == Some(l) && Served(w, step).Some? && l.workspace.Some?
    requires Admission(l, Asked(step).value.0, Asked(step).value.1).Proceed?
    ensures
      var n, (r, body) := Next(w, step), Asked(step).value;
      r in n.disk.http.requests && n.disk.http.requests[r] == Receipt(body, Served(w, step).value)
  {
    hide Workspace, Admission, AcceptEvent;
  }

  /** What was saved by a step of a run is still saved at the end of the run. */
  lemma ServedStays(started: bool, steps: seq<Step>, k: nat)
    requires k < |steps| && Served(Run(Fresh(started), steps[..k]), steps[k]).Some?
    ensures
      var (r, body) := Asked(steps[k]).value;
      var http := Run(Fresh(started), steps).disk.http;
      r in http.requests && http.requests[r] == Receipt(body, Served(Run(Fresh(started), steps[..k]), steps[k]).value)
  {
    hide Safe, Next, Served, Remembers, Grows;
    var w := Run(Fresh(started), steps[..k]);
    AlwaysRemembers(started, steps[..k]);
    ServedAsked(w, steps[k]);
    ServedIsSaved(w, steps[k]);
    assert steps[..k + 1][..k] == steps[..k];
    assert Run(Fresh(started), steps[..k + 1]) == Next(w, steps[k]);
    SavedReceiptsStay(started, steps, k + 1);
    GrowsAt(Next(w, steps[k]).disk.http, Run(Fresh(started), steps).disk.http, Asked(steps[k]).value.0);
  }

  /**
   * Two final successes that callers get for the same request anywhere in a run, whether it was carried out or
   * replayed and whatever crashed between them, have the same body and the same response.
   */
  lemma ResponsesAgree(started: bool, steps: seq<Step>, i: nat, j: nat)
    requires i < j < |steps| && Asked(steps[i]).Some? && Asked(steps[j]).Some?
    requires Asked(steps[i]).value.0 == Asked(steps[j]).value.0
    requires Served(Run(Fresh(started), steps[..i]), steps[i]).Some? && Served(Run(Fresh(started), steps[..j]), steps[j]).Some?
    ensures Asked(steps[i]).value.1 == Asked(steps[j]).value.1
    ensures Served(Run(Fresh(started), steps[..i]), steps[i]) == Served(Run(Fresh(started), steps[..j]), steps[j])
  {
    hide Safe, Next, Served, Run;
    var upTo := steps[..j + 1];
    assert upTo[..i] == steps[..i] && upTo[i] == steps[i];
    assert upTo[..j] == steps[..j] && upTo[j] == steps[j];
    ServedStays(started, upTo, i);
    ServedStays(started, upTo, j);
  }

  /**
   * A key starts at most one command and makes at most one submission: once a request has been carried out and
   * answered, no later request with its key is carried out.
   */
  lemma CarriedOutOnce(started: bool, steps: seq<Step>, i: nat, j: nat)
    requires i < j < |steps| && Asked(steps[i]).Some? && Asked(steps[j]).Some?
    requires Asked(steps[i]).value.0 == Asked(steps[j]).value.0 && CarriedOut(Run(Fresh(started), steps[..i]), steps[i])
    ensures !CarriedOut(Run(Fresh(started), steps[..j]), steps[j])
  {
    hide Safe, Next, Served, Run, Replied;
    var front := steps[..j];
    assert front[..i] == steps[..i] && front[i] == steps[i];
    ServedStays(started, front, i);
    AlwaysRemembers(started, front);
    if Served(Run(Fresh(started), front), steps[j]).Some? {
      ServedAsked(Run(Fresh(started), front), steps[j]);
      NotAgain(Run(Fresh(started), front), Asked(steps[j]).value.0, Asked(steps[j]).value.1);
    }
  }

  lemma NotAgain(w: World, r: Request, body: Body)
    requires Remembers(w) && w.live.Some? && r in w.disk.http.requests
    ensures !Admission(w.live.value, r, body).Proceed?
  {
  }

  /** The command that a key started is the one that every later success for that key names. */
  lemma OneCommandPerKey(started: bool, steps: seq<Step>, i: nat, j: nat)
    requires i < j < |steps| && steps[i].RunCommand? && steps[j].RunCommand? && steps[i].key == steps[j].key
    requires CarriedOut(Run(Fresh(started), steps[..i]), steps[i])
    ensures Served(Run(Fresh(started), steps[..j]), steps[j]) in {None, Some(Started(Run(Fresh(started), steps[..i]).ids))}
    ensures !CarriedOut(Run(Fresh(started), steps[..j]), steps[j])
  {
    hide Safe, Next, Run, Admission;
    CarriedOutOnce(started, steps, i, j);
    if Served(Run(Fresh(started), steps[..j]), steps[j]).Some? {
      ResponsesAgree(started, steps, i, j);
    }
  }

  /** A write that was answered as done is in every later checkpoint, with its bytes. */
  lemma AnsweredWritesSurvive(started: bool, steps: seq<Step>, k: nat, key: string, body: Body)
    requires k <= |steps| && Answer(Run(Fresh(started), steps[..k]), Request(Files, key), body).Some?
    ensures
      var w := Run(Fresh(started), steps);
      && body.WriteBody? && w.disk.checkpoint.Some?
      && HasWrite(w.disk.checkpoint.value.history, key, WriteReceipt(body.path, body.content))
  {
    hide Safe, Next, Answer, DiskOk;
    var r := Request(Files, key);
    AlwaysSafe(started, steps[..k]);
    AlwaysSafe(started, steps);
    SavedReceiptsStay(started, steps, k);
    AnswersAreSaved(Run(Fresh(started), steps[..k]), r, body);
    var w := Run(Fresh(started), steps);
    DiskOfSafe(w);
    WriteIsThere(w.disk, w.ids, r);
  }

  lemma WriteIsThere(disk: Disk, ids: nat, r: Request)
    requires DiskOk(disk, ids) && r.route == Files && r in disk.http.requests
    ensures disk.checkpoint.Some? && HasWrite(disk.checkpoint.value.history, r.key, disk.http.requests[r])
    ensures disk.http.requests[r].body.WriteBody?
    ensures disk.http.requests[r] == WriteReceipt(disk.http.requests[r].body.path, disk.http.requests[r].body.content)
  {
    hide CommandsMatch, JournalOk, SubmissionsTrue, CommandsKnown, NoneRunning, CommandsSaved, Numbers;
    var c := disk.checkpoint.value;
    assert HasWrite(c.history, r.key, c.state.requests[r]);
    var k :| 0 <= k < |c.history| && WroteAt(c.history, k, r.key, c.state.requests[r]);
  }

  /** The submission receipt that a restart builds from the journal is the one that was cached online. */
  lemma RebuiltReceiptsAreCached(started: bool, steps: seq<Step>, r: Request)
    ensures
      var w := Run(Fresh(started), steps);
      w.live.Some? && r.route == Submissions && r in w.live.value.data.requests ==>
        && r in Reconcile(w.disk).http.requests && Reconcile(w.disk).http.requests[r] == w.live.value.data.requests[r]
  {
    hide Safe, Next, DiskOk, Reconcile, SubmissionsTrue, JournalCached, JournalOk;
    AlwaysSafe(started, steps);
    var w := Run(Fresh(started), steps);
    if w.live.Some? && r.route == Submissions && r in w.live.value.data.requests {
      DiskOfSafe(w);
      LiveParts(w, w.live.value);
      RecordFacts(w.live.value, w.disk, w.ids);
      ReconciledDisk(w.disk, w.ids);
      ReconcileFields(w.disk);
      HttpFacts(Reconcile(w.disk), w.ids);
      SubmissionStays(w.live.value.data, Reconcile(w.disk).http, w.disk.journal, r);
    }
  }

  /** While a command runs no snapshot is under way, so ending it never meets one in progress. */
  lemma SnapshotNeverInProgress(started: bool, steps: seq<Step>)
    ensures
      var w := Run(Fresh(started), steps);
      w.live.Some? && w.live.value.command.Some? ==> w.live.value.job.None?
  {
    hide Safe, Next;
    AlwaysSafe(started, steps);
    var w := Run(Fresh(started), steps);
    if w.live.Some? {
      LiveParts(w, w.live.value);
    }
  }
}
