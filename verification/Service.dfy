/** One session of the service: what is durable, what is lost in a crash, and every locked step between them. */
module Service {
  import opened Prelude
  import opened Contents

  // ---- Records -------------------------------------------------------------------------------

  datatype Route = Files | Executions | Submissions

  datatype Request = Request(route: Route, key: string)

  datatype Body = WriteBody(path: string, content: Bytes) | CommandBody(command: string) | SubmitBody

  /** A journalled submission: its number, the key of the request, the candidate, and when it was accepted. */
  datatype Submission = Submission(number: nat, key: Option<string>, content: Bytes, time: int)

  datatype Response = Written(path: string, content: Bytes) | Started(id: nat) | Accepted(submission: Submission)

  datatype Receipt = Receipt(body: Body, response: Response)

  datatype Progress = Running | Complete | TimedOut | Cancelled | Error

  datatype Execution = Execution(state: Progress, code: Option<int>, rolledBack: bool)

  /** The HTTP record of a session. */
  datatype Data = Data(
    requests: map<Request, Receipt>, submissions: map<nat, Submission>, executions: map<nat, Execution>,
    closing: bool, interrupted: bool, broken: bool, reported: bool, recovered: Option<set<nat>>)

  /** What was done to a workspace: a write, a change by a command with its outcome, the end of a command. */
  datatype Effect = Wrote(key: string, path: string, content: Bytes) | Ran(id: nat, after: map<string, Bytes>) | Exited(id: nat, code: int)

  type History = seq<Effect>

  /** The files of a workspace with this history. */
  function Workspace(h: History): (files: map<string, Bytes>) {
    if h == [] then map[]
    else
      var before := Workspace(h[..|h| - 1]);
      match h[|h| - 1]
      case Wrote(_, path, content) => before[path := content]
      case Ran(_, after) => after
      case Exited(_, _) => before
  }

  datatype Checkpoint = Checkpoint(history: History, state: Data)

  datatype Disk = Disk(http: Data, checkpoint: Option<Checkpoint>, journal: seq<Submission>, reported: bool)

  /** A background snapshot and what it commits. */
  datatype Commit = WriteCommit(key: string, receipt: Receipt) | ExitCommit(id: nat, code: int)

  datatype Stage = Taking | Durable | Applied | Failed

  datatype Job = Job(commit: Commit, frozen: Data, stage: Stage)

  /**
   * What the running service holds. `workspace` is absent when the session was not resumed; `command` is the command
   * that runs, and `settling` are the commands that ended but whose threads have not reported yet.
   */
  datatype Live = Live(
    data: Data, workspace: Option<History>, active: bool, job: Option<Job>, command: Option<nat>, settling: set<nat>)

  /** `ids` counts the execution identifiers handed out, which are never reused. */
  datatype World = World(disk: Disk, live: Option<Live>, ids: nat)

  // ---- Commits -------------------------------------------------------------------------------

  function StateOf(code: int): (s: Progress) {
    if code == 124 then TimedOut else if code == 125 then Cancelled else if code == 126 || code == 137 then Error else Complete
  }

  function Ending(code: int): (e: Execution) { Execution(StateOf(code), Some(code), false) }

  function Committed(d: Data, c: Commit): (n: Data) {
    match c
    case WriteCommit(key, receipt) => d.(requests := d.requests[Request(Files, key) := receipt])
    case ExitCommit(id, code) => d.(executions := d.executions[id := Ending(code)])
  }

  function ReceiptOf(s: Submission): (r: Receipt) { Receipt(SubmitBody, Accepted(s)) }

  /** Projecting one journalled submission; an existing receipt is left alone. */
  function AcceptEvent(d: Data, s: Submission): (n: Data) {
    var e := d.(submissions := d.submissions[s.number := s]);
    if s.key.None? || Request(Submissions, s.key.value) in d.requests then e
    else e.(requests := d.requests[Request(Submissions, s.key.value) := ReceiptOf(s)])
  }

  function AcceptEvents(d: Data, journal: seq<Submission>): (n: Data) {
    if journal == [] then d else AcceptEvent(AcceptEvents(d, journal[..|journal| - 1]), journal[|journal| - 1])
  }

  // ---- Steps ---------------------------------------------------------------------------------

  datatype Step =
    | WriteFile(key: string, path: string, content: Bytes)
    | RunCommand(key: string, command: string)
    | Submit(key: string, time: int, stopped: bool)
    | SubmitDirect(time: int)
    | CloseSession
    | Change(after: map<string, Bytes>)
    | Exit(code: int)
    | Snapshot
    | SnapshotFails(saved: bool)
    | CleanupFails(saved: bool)
    | Apply
    | ApplyFails(saved: bool)
    | FinishJob
    | SettleCommand(id: nat)
    | EndWorkspace
    | WriteReport
    | CompleteRun
    | RunFails
    | Crash
    | Restart(attached: bool)

  const OUTPUT := "output"

  function Idle(d: Data): (b: bool) {
    forall id :: id in d.executions ==> d.executions[id].state != Running
  }

  predicate Active(l: Live) {
    l.workspace.Some? && l.active && !l.data.reported && !l.data.interrupted && !l.data.closing
  }

  /** `Silent` is no reply at all, because the process stopped. */
  datatype Reply = Final(response: Response) | Pending | Refused | Proceed | Silent

  /** Everything before the operation itself: failed checkpoints, replays, pending writes, running jobs, closed sessions. */
  function Admission(l: Live, r: Request, body: Body): (v: Reply) {
    if l.data.broken then Refused
    else if r in l.data.requests then
      (if l.data.requests[r].body == body then Final(l.data.requests[r].response) else Refused)
    else if l.job.Some? then
      (if r.route == Files && l.job.value.commit.WriteCommit? && l.job.value.commit.key == r.key
        && l.job.value.commit.receipt.body == body then Pending else Refused)
    else if !Active(l) || !Idle(l.data) then Refused
    else Proceed
  }

  function Saved(w: World, l: Live): (n: World) { w.(disk := w.disk.(http := l.data), live := Some(l)) }

  function Stop(w: World): (n: World) { w.(live := None) }

  function WriteReceipt(path: string, content: Bytes): (r: Receipt) { Receipt(WriteBody(path, content), Written(path, content)) }

  /** The workspace is written, and a snapshot with the receipt already in it is started. */
  function Writing(w: World, l: Live, key: string, path: string, content: Bytes): (n: World)
    requires l.workspace.Some?
  {
    var c := WriteCommit(key, WriteReceipt(path, content));
    w.(live := Some(l.(
      workspace := Some(l.workspace.value + [Wrote(key, path, content)]), job := Some(Job(c, Committed(l.data, c), Taking)))))
  }

  function Starting(w: World, l: Live, key: string, command: string): (n: World) {
    var d := l.data.(
      executions := l.data.executions[w.ids := Execution(Running, None, false)],
      requests := l.data.requests[Request(Executions, key) := Receipt(CommandBody(command), Started(w.ids))]);
    Saved(w, l.(data := d, command := Some(w.ids))).(ids := w.ids + 1)
  }

  /** The position of the submission with a key. */
  function Find(journal: seq<Submission>, key: string): (i: nat)
    ensures i <= |journal| && (i < |journal| ==> journal[i].key == Some(key))
    ensures forall k :: 0 <= k < i ==> journal[k].key != Some(key)
  {
    if journal == [] then 0 else if journal[0].key == Some(key) then 0 else 1 + Find(journal[1..], key)
  }

  /** The journal is appended to first; the process may stop before the HTTP record follows. */
  function Submitting(w: World, l: Live, key: string, time: int, stopped: bool): (n: World)
    requires l.workspace.Some?
  {
    var found := Find(w.disk.journal, key);
    var files := Workspace(l.workspace.value);
    if found == |w.disk.journal| && OUTPUT !in files then w
    else
      var s := if found < |w.disk.journal| then w.disk.journal[found]
        else Submission(|w.disk.journal| + 1, Some(key), files[OUTPUT], time);
      var journal := if found < |w.disk.journal| then w.disk.journal else w.disk.journal + [s];
      var appended := w.(disk := w.disk.(journal := journal));
      if stopped then Stop(appended)
      else
        var d := AcceptEvent(l.data, s);
        Saved(appended, l.(data := d.(requests := d.requests[Request(Submissions, key) := ReceiptOf(s)])))
  }

  /** The submission that a request with this key ends in: the journalled one, or a new one of the current output. */
  function SubmissionFor(w: World, l: Live, key: string, time: int): (s: Option<Submission>)
    requires l.workspace.Some?
  {
    var found := Find(w.disk.journal, key);
    var files := Workspace(l.workspace.value);
    if found < |w.disk.journal| then Some(w.disk.journal[found])
    else if OUTPUT in files then Some(Submission(|w.disk.journal| + 1, Some(key), files[OUTPUT], time))
    else None
  }

  /** What the caller of a mutation is told. */
  function Replied(w: World, l: Live, step: Step): (v: Reply) {
    match step
    case WriteFile(key, path, content) =>
      var a := Admission(l, Request(Files, key), WriteBody(path, content));
      if a.Proceed? then Pending else a
    case RunCommand(key, command) =>
      var a := Admission(l, Request(Executions, key), CommandBody(command));
      if a.Proceed? then Final(Started(w.ids)) else a
    case Submit(key, time, stopped) =>
      var a := Admission(l, Request(Submissions, key), SubmitBody);
      if !a.Proceed? then a
      else
        var s := SubmissionFor(w, l, key, time);
        if s.None? then Refused else if stopped then Silent else Final(Accepted(s.value))
    case _ => Refused
  }

  /** A submission from inside the workspace has no key, and only the journal hears of it. */
  function SubmittingDirect(w: World, l: Live, time: int): (n: World) {
    if l.workspace.None? || !l.active then w
    else
      var files := Workspace(l.workspace.value);
      if OUTPUT !in files then w
      else w.(disk := w.disk.(journal := w.disk.journal + [Submission(|w.disk.journal| + 1, None, files[OUTPUT], time)]))
  }

  function Broken(d: Data): (n: Data) { d.(interrupted := true, broken := true) }

  // ---- Restart -------------------------------------------------------------------------------

  /** The commands whose effects the checkpoint does not have. */
  function Lost(http: Data, state: Data): (ids: set<nat>) {
    set id | id in http.executions && (id !in state.executions || state.executions[id].state == Running)
  }

  function RolledBack(ids: set<nat>): (m: map<nat, Execution>) { map id | id in ids :: Execution(Error, None, true) }

  function CommandRequests(requests: map<Request, Receipt>): (m: map<Request, Receipt>) {
    map r | r in requests && r.route == Executions :: requests[r]
  }

  /** The checkpoint's record with what the HTTP record knows beyond it. */
  function Restored(http: Data, state: Data): (d: Data) {
    state.(executions := state.executions + RolledBack(Lost(http, state)),
      requests := state.requests + CommandRequests(http.requests),
      interrupted := false, recovered := Some(Lost(http, state)))
  }

  function Settled(e: Execution): (n: Execution) { if e.state == Running then e.(state := Error, code := None) else e }

  function SettleRunning(d: Data): (n: Data) {
    d.(executions := map id | id in d.executions :: Settled(d.executions[id]))
  }

  predicate Resumes(disk: Disk) {
    !disk.http.reported && !disk.reported && !disk.http.closing && disk.checkpoint.Some?
  }

  function ReconciledData(disk: Disk): (d: Data) {
    var http := disk.http.(reported := disk.http.reported || disk.reported);
    if http.reported then http
    else if Resumes(disk) then SettleRunning(Restored(http, disk.checkpoint.value.state))
    else SettleRunning(http.(interrupted := true))
  }

  function Reconcile(disk: Disk): (n: Disk) {
    disk.(http := AcceptEvents(ReconciledData(disk), disk.journal))
  }

  /** A resumed session starts from the checkpoint's workspace and commits a new checkpoint before it is used. */
  function Restarted(w: World, attached: bool): (n: World) {
    var disk := Reconcile(w.disk);
    if !Resumes(w.disk) then World(disk, Some(Live(disk.http, None, false, None, None, {})), w.ids)
    else if !attached then World(disk, None, w.ids)
    else
      var h := disk.checkpoint.value.history;
      World(disk.(checkpoint := Some(Checkpoint(h, disk.http))), Some(Live(disk.http, Some(h), true, None, None, {})), w.ids)
  }

  function Next(w: World, step: Step): (n: World) {
    if step.Crash? then Stop(w)
    else if step.WriteReport? then w.(disk := w.disk.(reported := true))
    else if step.Restart? then (if w.live.None? then Restarted(w, step.attached) else w)
    else if w.live.None? then w
    else NextLive(w, w.live.value, step)
  }

  function NextLive(w: World, l: Live, step: Step): (n: World)
    requires w.live == Some(l)
  {
    match step
    case WriteFile(key, path, content) =>
      if Admission(l, Request(Files, key), WriteBody(path, content)).Proceed? then Writing(w, l, key, path, content) else w
    case RunCommand(key, command) =>
      if Admission(l, Request(Executions, key), CommandBody(command)).Proceed? then Starting(w, l, key, command) else w
    case Submit(key, time, stopped) =>
      if Admission(l, Request(Submissions, key), SubmitBody).Proceed? then Submitting(w, l, key, time, stopped) else w
    case SubmitDirect(time) => SubmittingDirect(w, l, time)
    case CloseSession => Saved(w, l.(data := l.data.(closing := true)))
    case EndWorkspace => w.(live := Some(l.(active := false)))
    case CompleteRun =>
      if w.disk.reported then Saved(w, l.(data := AcceptEvents(l.data.(reported := true), w.disk.journal))) else w
    case RunFails => Saved(w, l.(data := l.data.(interrupted := true)))
    case Change(_) => NextCommand(w, l, step)
    case Exit(_) => NextCommand(w, l, step)
    case SettleCommand(_) => NextCommand(w, l, step)
    case _ => NextJob(w, l, step)
  }

  predicate AwaitsOwnJob(l: Live, id: nat) {
    l.job.Some? && l.job.value.commit.ExitCommit? && l.job.value.commit.id == id
  }

  /** Steps of the thread that runs a command. */
  function NextCommand(w: World, l: Live, step: Step): (n: World)
    requires w.live == Some(l)
  {
    match step
    case Change(after) =>
      if l.command.None? || l.workspace.None? then w
      else w.(live := Some(l.(workspace := Some(l.workspace.value + [Ran(l.command.value, after)]))))
    case Exit(code) =>
      if l.command.None? || l.workspace.None? || l.job.Some? then w
      else
        var id := l.command.value;
        var c := ExitCommit(id, code);
        w.(live := Some(l.(command := None, settling := l.settling + {id}, workspace := Some(l.workspace.value + [Exited(id, code)]),
          job := Some(Job(c, Committed(l.data, c), Taking)))))
    case SettleCommand(id) =>
      if id !in l.settling || AwaitsOwnJob(l, id) then w
      else
        var d := if l.data.broken then l.data.(executions := l.data.executions[id := Execution(Error, None, false)]) else l.data;
        Saved(w, l.(data := d, settling := l.settling - {id}))
    case _ => w
  }

  /** The snapshot thread has met an error: the record is marked, and that is saved if it can be. */
  function Failing(w: World, l: Live, saved: bool): (n: World)
    requires l.job.Some?
  {
    var m := l.(data := Broken(l.data), job := Some(l.job.value.(stage := Failed)));
    if saved then Saved(w, m) else w.(live := Some(m))
  }

  /**
   * Steps of the snapshot thread. An error may come before the manifest is durable, after it while an old archive is
   * removed, or while the commit is saved.
   */
  function NextJob(w: World, l: Live, step: Step): (n: World)
    requires w.live == Some(l)
  {
    if l.job.None? || l.workspace.None? then w
    else
      var job := l.job.value;
      match step
      case Snapshot =>
        if job.stage != Taking || !l.active then w
        else
          World(w.disk.(checkpoint := Some(Checkpoint(l.workspace.value, job.frozen))), Some(l.(job := Some(job.(stage := Durable)))), w.ids)
      case SnapshotFails(saved) => if job.stage != Taking then w else Failing(w, l, saved)
      case CleanupFails(saved) => if job.stage != Durable then w else Failing(w, l, saved)
      case Apply =>
        if job.stage != Durable then w else Saved(w, l.(data := Committed(l.data, job.commit), job := Some(job.(stage := Applied))))
      case ApplyFails(saved) =>
        if job.stage != Durable then w
        else
          var n := l.(data := Broken(Committed(l.data, job.commit)), job := Some(job.(stage := Failed)));
          if saved then Saved(w, n) else w.(live := Some(n))
      case FinishJob =>
        if job.stage == Taking || job.stage == Durable then w else Saved(w, l.(job := None))
      case _ => w
  }

  function Run(w: World, steps: seq<Step>): (n: World) {
    if steps == [] then w else Next(Run(w, steps[..|steps| - 1]), steps[|steps| - 1])
  }

  function Blank(): (d: Data) { Data(map[], map[], map[], false, false, false, false, None) }

  /** A registered session, before and after its first checkpoint. */
  function Fresh(started: bool): (w: World) {
    if started then World(Disk(Blank(), Some(Checkpoint([], Blank())), [], false), Some(Live(Blank(), Some([]), true, None, None, {})), 0)
    else World(Disk(Blank(), None, [], false), None, 0)
  }
}
