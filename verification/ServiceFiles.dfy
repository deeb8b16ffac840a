/** Which files a session and its checkpoints hold, and which bytes a submission carries, told without histories. */
module ServiceFiles {
  import opened Prelude
  import opened Contents
  import opened Service
  import opened ServiceSafety
  import opened ServiceGuarantees

  type Files = map<string, Bytes>

  /** The files of the running session, and those of the last checkpoint. */
  datatype Shown = Shown(held: Option<Files>, kept: Option<Files>)

  function Held(w: World): (files: Option<Files>) {
    if w.live.Some? && w.live.value.workspace.Some? then Some(Workspace(w.live.value.workspace.value)) else None
  }

  function Kept(w: World): (files: Option<Files>) {
    if w.disk.checkpoint.Some? then Some(Workspace(w.disk.checkpoint.value.history)) else None
  }

  // ---- Step by step --------------------------------------------------------------------------

  predicate Proceeds(w: World, r: Request, body: Body) {
    w.live.Some? && Admission(w.live.value, r, body).Proceed?
  }

  predicate CommandRuns(w: World) { w.live.Some? && w.live.value.command.Some? }

  predicate SnapshotDue(w: World) {
    w.live.Some? && w.live.value.active && w.live.value.job.Some? && w.live.value.job.value.stage.Taking?
  }

  /** What one step does to the files: a map is updated, replaced, copied or lost. */
  function After(w: World, step: Step, s: Shown): (n: Shown) {
    if step.Restart? then
      (if w.live.None? && (!Resumes(w.disk) || step.attached) then s.(held := if Resumes(w.disk) then s.kept else None) else s)
    else if Next(w, step).live.None? then s.(held := None)
    else if s.held.None? then s
    else
      match step
      case WriteFile(key, path, content) =>
        if Proceeds(w, Request(Files, key), WriteBody(path, content)) then s.(held := Some(s.held.value[path := content])) else s
      case Change(after) => if CommandRuns(w) then s.(held := Some(after)) else s
      case Snapshot => if SnapshotDue(w) then s.(kept := s.held) else s
      case _ => s
  }

  /** The files after a run, followed step by step from an empty workspace. */
  function Followed(started: bool, steps: seq<Step>): (s: Shown) {
    if steps == [] then (if started then Shown(Some(map[]), Some(map[])) else Shown(None, None))
    else
      var front := steps[..|steps| - 1];
      After(Run(Fresh(started), front), steps[|steps| - 1], Followed(started, front))
  }

  lemma EntryAdded(h: History, e: Effect)
    ensures Workspace(h + [e]) ==
      match e
      case Wrote(_, path, content) => Workspace(h)[path := content]
      case Ran(_, after) => after
      case Exited(_, _) => Workspace(h)
  {
    assert (h + [e])[..|h|] == h;
  }

  lemma LiveStepFiles(w: World, l: Live, step: Step)
    requires w.live == Some(l) && !step.Crash? && !step.WriteReport? && !step.Restart?
    ensures Shown(Held(NextLive(w, l, step)), Kept(NextLive(w, l, step))) == After(w, step, Shown(Held(w), Kept(w)))
  {
    hide Workspace, Idle, AcceptEvent, AcceptEvents, Find;
    if l.workspace.Some? {
      match step
      case WriteFile(key, path, content) => EntryAdded(l.workspace.value, Wrote(key, path, content));
      case Change(after) =>
        if l.command.Some? {
          EntryAdded(l.workspace.value, Ran(l.command.value, after));
        }
      case Exit(code) =>
        if l.command.Some? {
          EntryAdded(l.workspace.value, Exited(l.command.value, code));
        }
      case _ =>
    }
  }

  /** Every step changes the files of the session and of the checkpoint just as told. */
  lemma StepFiles(w: World, step: Step)
    ensures Shown(Held(Next(w, step)), Kept(Next(w, step))) == After(w, step, Shown(Held(w), Kept(w)))
  {
    hide Workspace, NextLive, Reconcile;
    if w.live.Some? && !step.Crash? && !step.WriteReport? && !step.Restart? {
      LiveStepFiles(w, w.live.value, step);
    } else if step.Restart? {
      SameCheckpoint(w.disk);
    }
  }

  lemma SameCheckpoint(disk: Disk)
    ensures Reconcile(disk).checkpoint == disk.checkpoint
  {
  }

  /** In every run the workspace and the checkpoint hold exactly the files that following the steps gives. */
  lemma {:induction false} FilesFollowed(started: bool, steps: seq<Step>)
    ensures
      var w := Run(Fresh(started), steps);
      Shown(Held(w), Kept(w)) == Followed(started, steps)
  {
    hide Next, After;
    if steps == [] {
      assert Workspace([]) == map[];
    } else {
      var front := steps[..|steps| - 1];
      FilesFollowed(started, front);
      StepFiles(Run(Fresh(started), front), steps[|steps| - 1]);
    }
  }

  /** A file write that goes ahead puts its bytes at its path and leaves every other path alone. */
  lemma WriteLands(w: World, key: string, path: string, content: Bytes)
    requires Proceeds(w, Request(Files, key), WriteBody(path, content))
    ensures
      var n := Next(w, WriteFile(key, path, content));
      && Held(w).Some? && Held(n).Some? && path in Held(n).value && Held(n).value[path] == content
      && forall other :: other != path ==>
        (other in Held(n).value <==> other in Held(w).value)
        && (other in Held(w).value ==> Held(n).value[other] == Held(w).value[other])
  {
    hide Workspace, Idle;
    StepFiles(w, WriteFile(key, path, content));
  }

  // ---- Submissions ---------------------------------------------------------------------------

  predicate Keyed(journal: seq<Submission>, key: string) {
    exists k :: 0 <= k < |journal| && journal[k].key == Some(key)
  }

  /** The submission of the current output as the next one. */
  function NewSubmission(w: World, s: Shown, key: Option<string>, time: int): (r: Option<Submission>) {
    if s.held.Some? && OUTPUT in s.held.value then Some(Submission(|w.disk.journal| + 1, key, s.held.value[OUTPUT], time)) else None
  }

  /** What one step appends to the journal. */
  function Appended(w: World, step: Step, s: Shown): (r: Option<Submission>) {
    match step
    case Submit(key, time, _) =>
      if Proceeds(w, Request(Submissions, key), SubmitBody) && !Keyed(w.disk.journal, key) then NewSubmission(w, s, Some(key), time)
      else None
    case SubmitDirect(time) => if w.live.Some? && w.live.value.active then NewSubmission(w, s, None, time) else None
    case _ => None
  }

  lemma FindKeyed(journal: seq<Submission>, key: string)
    ensures Find(journal, key) < |journal| <==> Keyed(journal, key)
  {
  }

  lemma StepJournal(w: World, step: Step)
    ensures
      var a := Appended(w, step, Shown(Held(w), Kept(w)));
      Next(w, step).disk.journal == w.disk.journal + (if a.Some? then [a.value] else [])
  {
    hide Workspace, Idle, AcceptEvent, AcceptEvents, Find;
    if step.Submit? {
      FindKeyed(w.disk.journal, step.key);
    }
  }

  /**
   * In every run the journal grows by exactly the accepted new submissions, and each carries the bytes that are at the
   * output path when the steps are followed: those that were last put there and not lost since.
   */
  lemma JournalFollowed(started: bool, steps: seq<Step>)
    requires steps != []
    ensures
      var front, step := steps[..|steps| - 1], steps[|steps| - 1];
      var w := Run(Fresh(started), front);
      var a := Appended(w, step, Followed(started, front));
      Run(Fresh(started), steps).disk.journal == w.disk.journal + (if a.Some? then [a.value] else [])
  {
    hide Next, Followed, Appended;
    FilesFollowed(started, steps[..|steps| - 1]);
    StepJournal(Run(Fresh(started), steps[..|steps| - 1]), steps[|steps| - 1]);
  }

  /**
   * A submission that goes ahead and is answered is answered with the journalled submission of its key: an earlier one,
   * or the one of the current output; without either it is refused.
   */
  lemma SubmissionAnswered(started: bool, steps: seq<Step>, key: string, time: int)
    requires Proceeds(Run(Fresh(started), steps), Request(Submissions, key), SubmitBody)
    ensures
      var w, s := Run(Fresh(started), steps), Followed(started, steps);
      match Served(w, Submit(key, time, false))
      case Some(response) =>
        response.Accepted? && response.submission.key == Some(key)
        && (if Keyed(w.disk.journal, key) then response.submission in w.disk.journal
            else Some(response.submission) == NewSubmission(w, s, Some(key), time))
      case None => !Keyed(w.disk.journal, key) && (s.held.None? || OUTPUT !in s.held.value)
  {
    hide Run, Followed, Admission, Workspace, Find;
    FilesFollowed(started, steps);
    ProceedHolds(Run(Fresh(started), steps), Request(Submissions, key), SubmitBody);
    FindKeyed(Run(Fresh(started), steps).disk.journal, key);
  }

  lemma ProceedHolds(w: World, r: Request, body: Body)
    requires Proceeds(w, r, body)
    ensures Held(w).Some?
  {
    hide Workspace, Idle;
  }

  // ---- Which effect put a file there ---------------------------------------------------------

  predicate Touches(e: Effect, path: string) { e.Ran? || (e.Wrote? && e.path == path) }

  /** What an effect leaves at a path that it touches. */
  function Left(e: Effect, path: string): (content: Option<Bytes>) {
    match e
    case Wrote(_, _, content) => Some(content)
    case Ran(_, after) => if path in after then Some(after[path]) else None
    case Exited(_, _) => None
  }

  predicate LastTouch(h: History, path: string, i: nat) {
    i < |h| && Touches(h[i], path) && forall j :: i < j < |h| ==> !Touches(h[j], path)
  }

  function At(files: Files, path: string): (content: Option<Bytes>) { if path in files then Some(files[path]) else None }

  /** A path holds what the last effect that touches it left there. */
  lemma {:induction false} LastTouchDecides(h: History, path: string, i: nat)
    requires LastTouch(h, path, i)
    ensures At(Workspace(h), path) == Left(h[i], path)
  {
    if i < |h| - 1 {
      assert h[|h| - 1] == h[|h| - 1..][0];
      LastTouchDecides(h[..|h| - 1], path, i);
    }
  }

  /** A path that no effect touches holds nothing. */
  lemma {:induction false} UntouchedIsEmpty(h: History, path: string)
    requires forall i :: 0 <= i < |h| ==> !Touches(h[i], path)
    ensures path !in Workspace(h)
  {
    if h != [] {
      UntouchedIsEmpty(h[..|h| - 1], path);
    }
  }

  /** The receipted write took effect, and unless a later effect touches its path its bytes are in the files. */
  ghost predicate BytesKept(h: History, key: string, r: Receipt) {
    exists i :: 0 <= i < |h| && WroteAt(h, i, key, r)
      && (LastTouch(h, h[i].path, i) ==> At(Workspace(h), h[i].path) == Some(h[i].content))
  }

  lemma WriteKept(h: History, key: string, r: Receipt)
    requires HasWrite(h, key, r)
    ensures BytesKept(h, key, r)
  {
    hide Workspace, LastTouch;
    var i :| 0 <= i < |h| && WroteAt(h, i, key, r);
    if LastTouch(h, h[i].path, i) {
      LastTouchDecides(h, h[i].path, i);
    }
  }

  /** A resumed session holds the checkpoint's files, and in them the bytes of every write that it has a receipt for. */
  lemma RestoredFiles(started: bool, steps: seq<Step>)
    ensures
      var w := Run(Fresh(started), steps);
      w.live.None? && Resumes(w.disk) ==>
        && Held(Restarted(w, true)) == Followed(started, steps).kept
        && var l := Restarted(w, true).live.value;
        l.workspace.Some? && forall r :: r in l.data.requests && r.route == Files ==>
          BytesKept(l.workspace.value, r.key, l.data.requests[r])
  {
    hide Workspace, Run, Followed, BytesKept, HasWrite, Reconcile;
    var w := Run(Fresh(started), steps);
    FilesFollowed(started, steps);
    if w.live.None? && Resumes(w.disk) {
      RestoredExactly(started, steps);
      SameCheckpoint(w.disk);
      var l := Restarted(w, true).live.value;
      forall r | r in l.data.requests && r.route == Files ensures BytesKept(l.workspace.value, r.key, l.data.requests[r]) {
        WriteKept(l.workspace.value, r.key, l.data.requests[r]);
      }
    }
  }

  /** The bytes of a write that was answered as done are in the files of every later checkpoint until they are overwritten. */
  lemma AnsweredBytesKept(started: bool, steps: seq<Step>, k: nat, key: string, body: Body)
    requires k <= |steps| && Answer(Run(Fresh(started), steps[..k]), Request(Files, key), body).Some?
    ensures
      var w := Run(Fresh(started), steps);
      && body.WriteBody? && w.disk.checkpoint.Some? && Kept(w) == Followed(started, steps).kept
      && BytesKept(w.disk.checkpoint.value.history, key, WriteReceipt(body.path, body.content))
  {
    hide Workspace, Run, Followed, BytesKept, HasWrite, Answer;
    AnsweredWritesSurvive(started, steps, k, key, body);
    FilesFollowed(started, steps);
    WriteKept(Run(Fresh(started), steps).disk.checkpoint.value.history, key, WriteReceipt(body.path, body.content));
  }
}
