/** Closing a session while commands and snapshots are under way, and attaching or abandoning one that starts. */
module Lifecycle {
  import opened Prelude

  // ---- The close protocol --------------------------------------------------------------------

  /** What the thread of a command does next. */
  datatype Phase = Working | Waiting | Popping | Deferring

  /** A snapshot, for a command that ended or for a write, and whether its outcome is known. */
  datatype Job = Job(owner: Option<nat>, ended: bool)

  /**
   * `shown` are the commands that the record shows as running, `live` those with a process handle. `sent` is the
   * flag under the supervisor's lock; `sending` counts close requests on their way, `delivered` successful ones and
   * `failed` says that the last close request failed.
   */
  datatype State = State(
    closing: bool, active: bool, sent: bool, sending: nat, delivered: nat, failed: bool,
    job: Option<Job>, shown: set<nat>, live: set<nat>, threads: map<nat, Phase>)

  /** Every locked block of every thread. */
  datatype Step =
    | StartCommand(id: nat)
    | StartWrite
    | Exit(id: nat)
    | EndJob(applied: bool)
    | FinishJob
    | Settle(id: nat)
    | Pop(id: nat)
    | FinishDeferredClose(id: nat)
    | Close
    | Shutdown
    | Deliver(ok: bool)
    | EndWorkspace

  predicate Idle(s: State) { s.job.None? && s.shown == {} && !s.closing && s.active }

  /** The flag is tested and set in one block; who sets it sends the request. */
  function Claim(s: State): (n: State) {
    if s.sent then s else s.(sent := true, sending := s.sending + 1, failed := false)
  }

  /** A running command is cancelled instead; closing then waits for it. */
  function CloseSession(s: State): (n: State) {
    if s.shown != {} then s else Claim(s)
  }

  predicate At(s: State, id: nat, p: Phase) { id in s.threads && s.threads[id] == p }

  /** Starting a snapshot for an ended command is an error while another is in progress. */
  predicate InProgress(s: State, step: Step, recoverable: bool) {
    step.Exit? && At(s, step.id, Working) && recoverable && s.job.Some?
  }

  function Next(s: State, step: Step, recoverable: bool): (n: State) {
    match step
    case StartCommand(id) =>
      if !Idle(s) || id in s.threads then s
      else s.(shown := s.shown + {id}, live := s.live + {id}, threads := s.threads[id := Working])
    case StartWrite => if !Idle(s) || !recoverable then s else s.(job := Some(Job(None, false)))
    case Exit(id) =>
      if !At(s, id, Working) then s
      else if !recoverable then s.(shown := s.shown - {id}, threads := s.threads[id := Waiting])
      else if s.job.Some? then s.(threads := s.threads[id := Popping])
      else s.(job := Some(Job(Some(id), false)), threads := s.threads[id := Waiting])
    case EndJob(applied) =>
      if s.job.None? || s.job.value.ended then s
      else
        s.(job := Some(s.job.value.(ended := true)),
          shown := if applied && s.job.value.owner.Some? then s.shown - {s.job.value.owner.value} else s.shown)
    case FinishJob =>
      if s.job.None? || !s.job.value.ended then s
      else
        var n := s.(job := None);
        if s.closing then CloseSession(n) else n
    case Settle(id) =>
      if !At(s, id, Waiting) || (s.job.Some? && s.job.value.owner == Some(id)) then s
      else s.(shown := s.shown - {id}, threads := s.threads[id := Popping])
    case Pop(id) => if !At(s, id, Popping) then s else s.(live := s.live - {id}, threads := s.threads[id := Deferring])
    case FinishDeferredClose(id) =>
      if !At(s, id, Deferring) then s
      else
        var n := s.(threads := s.threads - {id});
        if s.closing && s.active && s.live == {} then Claim(n) else n
    case Close =>
      var n := s.(closing := true);
      if s.job.None? then CloseSession(n) else n
    case Shutdown => CloseSession(s.(closing := true))
    case Deliver(ok) =>
      if s.sending == 0 then s
      else if ok then s.(sending := s.sending - 1, delivered := s.delivered + 1)
      else s.(sending := s.sending - 1, sent := false, failed := true)
    case EndWorkspace => s.(active := false)
  }

  function Fresh(): (s: State) { State(false, true, false, 0, 0, false, None, {}, {}, map[]) }

  function Run(steps: seq<Step>, recoverable: bool): (s: State) {
    if steps == [] then Fresh() else Next(Run(steps[..|steps| - 1], recoverable), steps[|steps| - 1], recoverable)
  }

  // ---- What every block keeps ----------------------------------------------------------------

  /** The flag is set exactly while a request is on its way or has succeeded, and there is only one; a failure clears it. */
  predicate OneRequest(s: State) {
    s.sending + s.delivered == (if s.sent then 1 else 0) && (s.failed ==> !s.sent)
  }

  predicate Busy(p: Phase) { p.Working? || p.Waiting? }

  /** Whatever is shown as running has a thread that has yet to report. */
  predicate ShownHaveThreads(s: State) {
    && (forall id :: id in s.shown ==> id in s.threads && Busy(s.threads[id]))
    && (forall a, b :: a in s.shown && b in s.shown ==> a == b)
  }

  /** A handle is live until its thread has popped it. */
  predicate LiveHaveThreads(s: State) {
    forall id :: id in s.live ==> id in s.threads && !s.threads[id].Deferring?
  }

  predicate WorkingAreShown(s: State) {
    forall id :: id in s.threads && s.threads[id].Working? ==> id in s.shown && s.job.None?
  }

  predicate OwnerWaits(s: State) {
    s.job.Some? && s.job.value.owner.Some? ==> At(s, s.job.value.owner.value, Waiting)
  }

  /** A close that nobody has sent yet still has somebody to send it. */
  predicate SomebodySends(s: State) {
    s.closing && s.active && !s.sent && !s.failed ==> s.job.Some? || s.threads != map[]
  }

  predicate Kept(s: State) {
    && OneRequest(s) && ShownHaveThreads(s) && LiveHaveThreads(s) && WorkingAreShown(s) && OwnerWaits(s) && SomebodySends(s)
  }

  lemma SomeThread(s: State, id: nat)
    requires id in s.threads
    ensures s.threads != map[]
  {
  }

  lemma CloseSessionKeeps(s: State)
    requires OneRequest(s) && ShownHaveThreads(s) && LiveHaveThreads(s) && WorkingAreShown(s) && OwnerWaits(s)
    ensures Kept(CloseSession(s))
  {
    if s.shown != {} {
      var id :| id in s.shown;
      SomeThread(s, id);
    }
  }

  lemma ThreadsKeep(s: State, step: Step, recoverable: bool)
    requires Kept(s) && (step.Exit? || step.Settle? || step.Pop? || step.StartCommand?)
    ensures Kept(Next(s, step, recoverable))
  {
    var n := Next(s, step, recoverable);
    if n != s {
      SomeThread(n, step.id);
    }
  }

  lemma DeferredKeeps(s: State, id: nat, recoverable: bool)
    requires Kept(s)
    ensures Kept(Next(s, FinishDeferredClose(id), recoverable))
  {
    if At(s, id, Deferring) {
      var n := Next(s, FinishDeferredClose(id), recoverable);
      if s.live != {} {
        var other :| other in s.live;
        assert other in n.threads;
        SomeThread(n, other);
      }
    }
  }

  lemma JobKeeps(s: State, step: Step, recoverable: bool)
    requires Kept(s) && (step.EndJob? || step.StartWrite?)
    ensures Kept(Next(s, step, recoverable))
  {
  }

  lemma FinishKeeps(s: State, recoverable: bool)
    requires Kept(s)
    ensures Kept(Next(s, FinishJob, recoverable))
  {
    if s.job.Some? && s.job.value.ended && s.closing {
      CloseSessionKeeps(s.(job := None));
    }
  }

  lemma CloseKeeps(s: State, step: Step, recoverable: bool)
    requires Kept(s) && (step.Close? || step.Shutdown?)
    ensures Kept(Next(s, step, recoverable))
  {
    CloseSessionKeeps(s.(closing := true));
  }

  lemma StepKeeps(s: State, step: Step, recoverable: bool)
    requires Kept(s)
    ensures Kept(Next(s, step, recoverable))
  {
    match step
    case FinishDeferredClose(id) => DeferredKeeps(s, id, recoverable);
    case FinishJob => FinishKeeps(s, recoverable);
    case Close => CloseKeeps(s, step, recoverable);
    case Shutdown => CloseKeeps(s, step, recoverable);
    case EndJob(_) => JobKeeps(s, step, recoverable);
    case StartWrite => JobKeeps(s, step, recoverable);
    case Deliver(_) =>
    case EndWorkspace =>
    case _ => ThreadsKeep(s, step, recoverable);
  }

  lemma {:induction false} AlwaysKept(steps: seq<Step>, recoverable: bool)
    ensures Kept(Run(steps, recoverable))
  {
    hide Kept, Next;
    if steps == [] {
      assert Kept(Fresh()) by { FreshKept(); }
    } else {
      AlwaysKept(steps[..|steps| - 1], recoverable);
      StepKeeps(Run(steps[..|steps| - 1], recoverable), steps[|steps| - 1], recoverable);
    }
  }

  lemma FreshKept()
    ensures Kept(Fresh())
  {
  }

  /** Over all interleavings at most one close request succeeds. */
  lemma AtMostOneClose(steps: seq<Step>, recoverable: bool)
    ensures Run(steps, recoverable).delivered <= 1
  {
    hide Run;
    AlwaysKept(steps, recoverable);
  }

  /** No thread is in the middle of anything. */
  predicate Quiescent(s: State) { s.job.None? && s.threads == map[] && s.sending == 0 }

  /**
   * A session at rest that is closing with its workspace still active has been told to close, once, if and only if
   * the last close request that was sent did not fail; earlier failures that were retried do not matter.
   */
  lemma CloseIsSentExactly(steps: seq<Step>, recoverable: bool)
    ensures
      var s := Run(steps, recoverable);
      Quiescent(s) && s.closing && s.active ==> (s.delivered == 1 <==> !s.failed)
  {
    hide Run;
    AlwaysKept(steps, recoverable);
  }

  /** Once a session is closing or its workspace has ended, that stays, and no command and no write starts any more. */
  lemma {:induction false} ClosingStays(steps: seq<Step>, k: nat, recoverable: bool, id: nat)
    requires k < |steps| && (steps[k].Close? || steps[k].Shutdown? || steps[k].EndWorkspace?)
    ensures
      var s := Run(steps, recoverable);
      && (if steps[k].EndWorkspace? then !s.active else s.closing)
      && Next(s, StartCommand(id), recoverable) == s && Next(s, StartWrite, recoverable) == s
    decreases |steps|
  {
    hide Next, Run;
    var front, last := steps[..|steps| - 1], steps[|steps| - 1];
    RunLast(steps, recoverable);
    ClosedStep(Run(front, recoverable), last, recoverable);
    if k < |steps| - 1 {
      ClosingStays(front, k, recoverable, id);
    }
    NothingStarts(Run(steps, recoverable), id, recoverable);
  }

  lemma RunLast(steps: seq<Step>, recoverable: bool)
    requires steps != []
    ensures Run(steps, recoverable) == Next(Run(steps[..|steps| - 1], recoverable), steps[|steps| - 1], recoverable)
  {
  }

  lemma NothingStarts(s: State, id: nat, recoverable: bool)
    requires s.closing || !s.active
    ensures Next(s, StartCommand(id), recoverable) == s && Next(s, StartWrite, recoverable) == s
  {
  }

  lemma ClosedStep(s: State, step: Step, recoverable: bool)
    ensures
      var n := Next(s, step, recoverable);
      && (s.closing || step.Close? || step.Shutdown? ==> n.closing) && (!s.active || step.EndWorkspace? ==> !n.active)
  {
    hide Idle;
  }

  /** A thread that has not popped its handle yet has it. */
  predicate BusyAreLive(s: State) {
    forall id :: id in s.threads && !s.threads[id].Deferring? ==> id in s.live
  }

  lemma ClaimsKeepThreads(s: State)
    ensures Claim(s).threads == s.threads && Claim(s).live == s.live
    ensures CloseSession(s).threads == s.threads && CloseSession(s).live == s.live
  {
  }

  predicate OfThread(step: Step) {
    step.StartCommand? || step.Exit? || step.Settle? || step.Pop? || step.FinishDeferredClose?
  }

  lemma ThreadStepKeepsLive(s: State, step: Step, recoverable: bool)
    requires BusyAreLive(s) && OfThread(step)
    ensures BusyAreLive(Next(s, step, recoverable))
  {
    hide Claim, CloseSession, Idle;
    if step.FinishDeferredClose? {
      ClaimsKeepThreads(s.(threads := s.threads - {step.id}));
    }
  }

  lemma OtherStepKeepsThreads(s: State, step: Step, recoverable: bool)
    requires !OfThread(step)
    ensures Next(s, step, recoverable).threads == s.threads && Next(s, step, recoverable).live == s.live
  {
    hide Claim, CloseSession, Idle;
    ClaimsKeepThreads(s.(job := None));
    ClaimsKeepThreads(s.(closing := true));
  }

  lemma StepKeepsLive(s: State, step: Step, recoverable: bool)
    requires BusyAreLive(s)
    ensures BusyAreLive(Next(s, step, recoverable))
  {
    hide Next, OfThread;
    if OfThread(step) {
      ThreadStepKeepsLive(s, step, recoverable);
    } else {
      OtherStepKeepsThreads(s, step, recoverable);
    }
  }

  lemma {:induction false} AlwaysLive(steps: seq<Step>, recoverable: bool)
    ensures BusyAreLive(Run(steps, recoverable))
  {
    hide Next, BusyAreLive;
    if steps != [] {
      AlwaysLive(steps[..|steps| - 1], recoverable);
      StepKeepsLive(Run(steps[..|steps| - 1], recoverable), steps[|steps| - 1], recoverable);
    } else {
      FreshLive();
    }
  }

  lemma FreshLive()
    ensures BusyAreLive(Fresh())
  {
  }

  /** A close request is started only by a closing session that shows no running command: closing waits for the command. */
  lemma CloseWaits(steps: seq<Step>, step: Step, recoverable: bool)
    ensures
      var s := Run(steps, recoverable);
      var n := Next(s, step, recoverable);
      n.sending > s.sending ==> n.closing && n.shown == {}
  {
    hide Run;
    AlwaysKept(steps, recoverable);
    AlwaysLive(steps, recoverable);
    var s := Run(steps, recoverable);
    if s.shown != {} {
      var id :| id in s.shown;
      SomeThread(s, id);
    }
  }

  /** A command never ends into a snapshot that is already in progress. */
  lemma NeverInProgress(steps: seq<Step>, step: Step, recoverable: bool)
    ensures !InProgress(Run(steps, recoverable), step, recoverable)
  {
    hide Run;
    AlwaysKept(steps, recoverable);
  }

  /** A failed close request leaves the session at rest and unclosed. */
  lemma FailureForgets() returns (steps: seq<Step>)
    ensures
      var s := Run(steps, true);
      Quiescent(s) && s.closing && s.active && s.delivered == 0 && s.failed
  {
    steps := [Close, Deliver(false)];
    assert steps[..1] == [Close] && steps[..1][..0] == [];
    assert Run([Close], true) == Next(Fresh(), Close, true);
  }

  /** Closing again after a failed request sends it again, from any reachable state at rest. */
  lemma RetryCloses(steps: seq<Step>, recoverable: bool)
    ensures
      var s := Run(steps, recoverable);
      Quiescent(s) && s.failed ==>
        var n := Next(Next(s, Close, recoverable), Deliver(true), recoverable);
        Quiescent(n) && n.closing && n.delivered == 1
  {
    hide Run;
    AlwaysKept(steps, recoverable);
    NoThreadsNoneShown(Run(steps, recoverable));
  }

  lemma NoThreadsNoneShown(s: State)
    requires ShownHaveThreads(s)
    ensures s.threads == map[] ==> s.shown == {}
  {
    if s.shown != {} {
      var id :| id in s.shown;
      SomeThread(s, id);
    }
  }

  // ---- The supervisor's handle ---------------------------------------------------------------

  class SessionControl {
    var state: State

    constructor ()
      ensures state == Fresh()
    {
      state := Fresh();
    }

    /** Sets the flag unless it is set; says whether this caller has to send the request. */
    method ClaimClose() returns (mine: bool)
      modifies this
      ensures state == Claim(old(state)) && mine == !old(state.sent)
    {
      mine := !state.sent;
      if mine {
        state := state.(sent := true, sending := state.sending + 1, failed := false);
      }
    }

    method RequestClose(ok: bool)
      requires state.sending > 0
      modifies this
      ensures state == Next(old(state), Deliver(ok), true)
    {
      if ok {
        state := state.(sending := state.sending - 1, delivered := state.delivered + 1);
      } else {
        state := state.(sending := state.sending - 1, sent := false, failed := true);
      }
    }

    /** Closing while nothing is shown as running and no snapshot is under way sends the request at once. */
    method CloseNow(ok: bool)
      requires Kept(state)
      modifies this
      ensures Kept(state) && state.closing
      ensures old(state.job).None? && old(state.shown) == {} && !old(state.sent) && ok ==> state.delivered == old(state.delivered) + 1
    {
      CloseKeeps(state, Close, true);
      state := state.(closing := true);
      if state.job.None? && state.shown == {} {
        var mine := ClaimClose();
        if mine {
          StepKeeps(state, Deliver(ok), true);
          RequestClose(ok);
        }
      }
    }

    /** The last block of a command's thread. */
    method FinishDeferred(id: nat, ok: bool)
      requires Kept(state) && At(state, id, Deferring)
      modifies this
      ensures Kept(state) && id !in state.threads
      ensures old(state.closing) && old(state.active) && old(state.live) == {} && ok ==> state.delivered + state.sending == 1
    {
      DeferredKeeps(state, id, true);
      var send := state.closing && state.active && state.live == {};
      state := state.(threads := state.threads - {id});
      if send {
        var mine := ClaimClose();
        if mine {
          StepKeeps(state, Deliver(ok), true);
          RequestClose(ok);
        }
      }
    }
  }

  // ---- Starting ------------------------------------------------------------------------------

  /** A starting session: the handle's workspace, the two events, and whether the waiting caller has returned. */
  datatype Startup = Startup(attached: bool, abandoned: bool, ready: bool, returned: bool)

  /** Attaching succeeds or its callback fails; the runner ends; the caller's wait ends with or without a signal. */
  datatype StartStep = Attach(ok: bool) | RunnerEnds | Await

  function NextStart(s: Startup, step: StartStep): (n: Startup) {
    match step
    case Attach(ok) => if s.abandoned || !ok then s else s.(attached := true, ready := true)
    case RunnerEnds => s.(ready := true)
    case Await => if s.returned then s else s.(abandoned := !s.attached, returned := true)
  }

  function RunStart(steps: seq<StartStep>): (s: Startup) {
    if steps == [] then Startup(false, false, false, false) else NextStart(RunStart(steps[..|steps| - 1]), steps[|steps| - 1])
  }

  /** Startup ends with the workspace attached or the session abandoned, never both, and before it ends not abandoned. */
  lemma {:induction false} AttachedOrAbandoned(steps: seq<StartStep>)
    ensures
      var s := RunStart(steps);
      !(s.attached && s.abandoned) && (if s.returned then s.attached || s.abandoned else !s.abandoned)
  {
    if steps != [] {
      AttachedOrAbandoned(steps[..|steps| - 1]);
    }
  }

  /** Attaching succeeds at this point, and the caller has not stopped waiting before. */
  predicate AttachesInTime(steps: seq<StartStep>, k: nat) {
    k < |steps| && steps[k] == Attach(true) && Await !in steps[..k]
  }

  /** The workspace is attached exactly if attaching succeeds before the caller stops waiting, and the caller returns exactly if it waits. */
  lemma {:induction false} AttachedExactly(steps: seq<StartStep>)
    ensures RunStart(steps).attached <==> exists k :: 0 <= k < |steps| && AttachesInTime(steps, k)
    ensures RunStart(steps).returned <==> Await in steps
    ensures RunStart(steps).ready <==> RunnerEnds in steps || RunStart(steps).attached
  {
    hide AttachesInTime;
    if steps != [] {
      var n := |steps| - 1;
      var front, last := steps[..n], steps[n];
      AttachedExactly(front);
      AttachedOrAbandoned(front);
      assert steps == front + [last];
      forall k | 0 <= k < n ensures AttachesInTime(front, k) <==> AttachesInTime(steps, k) {
        AttachesBefore(steps, n, k);
      }
      AttachesNow(steps, n);
      assert AttachesInTime(steps, n) <==> last == Attach(true) && Await !in front;
    }
  }

  lemma AttachesBefore(steps: seq<StartStep>, n: nat, k: nat)
    requires k < n <= |steps|
    ensures AttachesInTime(steps[..n], k) <==> AttachesInTime(steps, k)
  {
    assert steps[..n][..k] == steps[..k];
  }

  lemma AttachesNow(steps: seq<StartStep>, n: nat)
    requires |steps| == n + 1
    ensures AttachesInTime(steps, n) <==> steps[n] == Attach(true) && Await !in steps[..n]
  {
  }

  /** Whatever the caller was told stays true. */
  lemma {:induction false} VerdictStays(steps: seq<StartStep>, k: nat)
    requires k <= |steps| && RunStart(steps[..k]).returned
    ensures
      var s, t := RunStart(steps[..k]), RunStart(steps);
      t.returned && t.attached == s.attached && t.abandoned == s.abandoned
    decreases |steps|
  {
    if k == |steps| {
      assert steps[..k] == steps;
    } else {
      var front := steps[..|steps| - 1];
      assert front[..k] == steps[..k];
      VerdictStays(front, k);
      AttachedOrAbandoned(steps[..k]);
    }
  }
}
