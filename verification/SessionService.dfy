/** The session service as it runs: locked operations, the snapshot thread, the command thread and the restart. */
module SessionService {
  import opened Prelude
  import opened Contents
  import opened Service
  import ServiceFiles

  // ---- Loops of the reconciler ---------------------------------------------------------------

  /** Puts into the checkpoint's record what the HTTP record knows beyond it. */
  method RestoreCheckpoint(http: Data, state: Data) returns (d: Data)
    ensures d == Restored(http, state)
  {
    hide CommandRequests;
    var executions := RestoreExecutions(http, state);
    var requests := RestoreRequests(http, state);
    d := state.(executions := executions.0, requests := requests, interrupted := false, recovered := Some(executions.1));
  }

  /** The commands looked at so far are restored. */
  predicate Half(http: Data, state: Data, todo: set<nat>, executions: map<nat, Execution>, interrupted: set<nat>) {
    interrupted == Lost(http, state) - todo && executions == state.executions + RolledBack(interrupted)
  }

  lemma HalfStart(http: Data, state: Data)
    ensures Half(http, state, http.executions.Keys, state.executions, {})
  {
    assert Lost(http, state) - http.executions.Keys == {};
    assert state.executions + RolledBack({}) == state.executions;
  }

  lemma HalfStep(http: Data, state: Data, todo: set<nat>, executions: map<nat, Execution>, interrupted: set<nat>, id: nat)
    requires Half(http, state, todo, executions, interrupted) && id in todo && id in http.executions
    ensures
      if id !in state.executions || state.executions[id].state == Running then
        Half(http, state, todo - {id}, executions[id := Execution(Error, None, true)], interrupted + {id})
      else Half(http, state, todo - {id}, executions, interrupted)
  {
    hide RolledBack;
    RolledBackStep(interrupted, id);
    LostStep(http, state, todo, id);
  }

  lemma LostStep(http: Data, state: Data, todo: set<nat>, id: nat)
    requires id in todo && id in http.executions
    ensures
      var lost := id !in state.executions || state.executions[id].state == Running;
      Lost(http, state) - (todo - {id}) == Lost(http, state) - todo + (if lost then {id} else {})
  {
  }

  lemma RolledBackStep(ids: set<nat>, id: nat)
    ensures RolledBack(ids + {id}) == RolledBack(ids)[id := Execution(Error, None, true)]
  {
  }

  lemma HalfEnd(http: Data, state: Data, executions: map<nat, Execution>, interrupted: set<nat>)
    requires Half(http, state, {}, executions, interrupted)
    ensures executions == state.executions + RolledBack(Lost(http, state)) && interrupted == Lost(http, state)
  {
    hide Lost, RolledBack;
    assert Lost(http, state) - {} == Lost(http, state);
  }

  method RestoreExecutions(http: Data, state: Data) returns (r: (map<nat, Execution>, set<nat>))
    ensures r == (state.executions + RolledBack(Lost(http, state)), Lost(http, state))
  {
    hide Half, Lost, RolledBack;
    var executions, interrupted := state.executions, {};
    var todo := http.executions.Keys;
    HalfStart(http, state);
    while todo != {}
      invariant todo <= http.executions.Keys
      invariant Half(http, state, todo, executions, interrupted)
      decreases |todo|
    {
      var id :| id in todo;
      HalfStep(http, state, todo, executions, interrupted, id);
      todo := todo - {id};
      if id !in state.executions || state.executions[id].state == Running {
        executions := executions[id := Execution(Error, None, true)];
        interrupted := interrupted + {id};
      }
    }
    HalfEnd(http, state, executions, interrupted);
    r := (executions, interrupted);
  }

  method RestoreRequests(http: Data, state: Data) returns (requests: map<Request, Receipt>)
    ensures requests == state.requests + CommandRequests(http.requests)
  {
    requests := state.requests;
    var todo, done: map<Request, Receipt> := http.requests.Keys, map[];
    while todo != {}
      invariant todo <= http.requests.Keys
      invariant done == map r | r in http.requests && r !in todo && r.route == Executions :: http.requests[r]
      invariant requests == state.requests + done
      decreases |todo|
    {
      var r :| r in todo;
      todo := todo - {r};
      if r.route == Executions {
        requests := requests[r := http.requests[r]];
        done := done[r := http.requests[r]];
      }
    }
    assert done == CommandRequests(http.requests);
  }

  method SettleExecutions(d: Data) returns (n: Data)
    ensures n == SettleRunning(d)
  {
    var executions := d.executions;
    var todo := d.executions.Keys;
    while todo != {}
      invariant todo <= d.executions.Keys == executions.Keys
      invariant forall id :: id in executions ==> executions[id] == if id in todo then d.executions[id] else Settled(d.executions[id])
      decreases |todo|
    {
      var id :| id in todo;
      todo := todo - {id};
      if executions[id].state == Running {
        executions := executions[id := executions[id].(state := Error, code := None)];
      }
    }
    n := d.(executions := executions);
    assert n.executions == SettleRunning(d).executions;
  }

  method ProjectJournal(d: Data, journal: seq<Submission>) returns (n: Data)
    ensures n == AcceptEvents(d, journal)
  {
    n := d;
    for k := 0 to |journal|
      invariant n == AcceptEvents(d, journal[..k])
    {
      assert journal[..k + 1][..k] == journal[..k];
      n := n.(submissions := n.submissions[journal[k].number := journal[k]]);
      if journal[k].key.Some? && Request(Submissions, journal[k].key.value) !in n.requests {
        n := n.(requests := n.requests[Request(Submissions, journal[k].key.value) := ReceiptOf(journal[k])]);
      }
    }
    assert journal[..|journal|] == journal;
  }

  class Controller {
    // What is on disk.
    var http: Data
    var checkpoint: Option<Checkpoint>
    var journal: seq<Submission>
    var reported: bool
    // What the process holds while it is running.
    var running: bool
    var data: Data
    var workspace: Option<History>
    var active: bool
    var job: Option<Job>
    var command: Option<nat>
    var settling: set<nat>
    var ids: nat

    function Current(): (w: World)
      reads this
    {
      World(Disk(http, checkpoint, journal, reported), if running then Some(Session()) else None, ids)
    }

    function Session(): (l: Live)
      reads this
    {
      Live(data, workspace, active, job, command, settling)
    }

    /** A new session after its first checkpoint. */
    constructor ()
      ensures Current() == Fresh(true)
    {
      http, checkpoint, journal, reported := Blank(), Some(Checkpoint([], Blank())), [], false;
      running, data, workspace, active, job, command, settling, ids := true, Blank(), Some([]), true, None, None, {}, 0;
    }

    /** Replay, conflict or go on, as one decision. */
    method Admit(r: Request, body: Body) returns (v: Reply)
      ensures v == Admission(Session(), r, body)
    {
      hide Idle;
      if data.broken {
        v := Refused;
      } else if r in data.requests {
        v := if data.requests[r].body == body then Final(data.requests[r].response) else Refused;
      } else if job.Some? {
        v := if r.route == Files && job.value.commit.WriteCommit? && job.value.commit.key == r.key
          && job.value.commit.receipt.body == body then Pending else Refused;
      } else if !Active(Session()) || !Idle(data) {
        v := Refused;
      } else {
        v := Proceed;
      }
    }

    method Save()
      modifies this`http
      ensures http == data
    {
      http := data;
    }

    /** Writes the bytes to their path in the workspace, and to no other, and leaves the receipt to the snapshot. */
    method Write(key: string, path: string, content: Bytes) returns (v: Reply)
      requires running
      modifies this`workspace, this`job
      ensures Current() == Next(old(Current()), WriteFile(key, path, content))
      ensures v == Replied(old(Current()), old(Session()), WriteFile(key, path, content))
      ensures old(Admission(Session(), Request(Files, key), WriteBody(path, content))).Proceed? ==>
        && old(workspace).Some? && workspace.Some? && v == Pending
        && Workspace(workspace.value) == Workspace(old(workspace).value)[path := content]
    {
      hide Admission, Workspace;
      AdmitFacts(Session(), Request(Files, key), WriteBody(path, content));
      v := Admit(Request(Files, key), WriteBody(path, content));
      if v.Proceed? {
        ServiceFiles.EntryAdded(workspace.value, Wrote(key, path, content));
        workspace := Some(workspace.value + [Wrote(key, path, content)]);
        var c := WriteCommit(key, WriteReceipt(path, content));
        job := Some(Job(c, Committed(data, c), Taking));
        v := Pending;
      }
    }

    /** Starts a command, remembers the response and saves. */
    method Execute(key: string, text: string) returns (v: Reply)
      requires running
      modifies this
      ensures Current() == Next(old(Current()), RunCommand(key, text))
      ensures v == Replied(old(Current()), old(Session()), RunCommand(key, text))
    {
      hide Admission;
      v := Admit(Request(Executions, key), CommandBody(text));
      if v.Proceed? {
        var id := ids;
        ids := ids + 1;
        command := Some(id);
        data := data.(executions := data.executions[id := Execution(Running, None, false)]);
        data := data.(requests := data.requests[Request(Executions, key) := Receipt(CommandBody(text), Started(id))]);
        Save();
        v := Final(Started(id));
      }
    }

    /** Journals the submission unless its key is known, then projects and remembers it and answers with it. */
    method SubmitCandidate(key: string, time: int, stopped: bool) returns (v: Reply)
      requires running
      modifies this
      ensures Current() == Next(old(Current()), Submit(key, time, stopped))
      ensures v == Replied(old(Current()), old(Session()), Submit(key, time, stopped))
    {
      hide Admission, Workspace;
      AdmitFacts(Session(), Request(Submissions, key), SubmitBody);
      v := Admit(Request(Submissions, key), SubmitBody);
      if v.Proceed? {
        var found := Find(journal, key);
        var files := Workspace(workspace.value);
        if found < |journal| || OUTPUT in files {
          var s;
          if found < |journal| {
            s := journal[found];
          } else {
            s := Submission(|journal| + 1, Some(key), files[OUTPUT], time);
            journal := journal + [s];
          }
          if stopped {
            running := false;
            v := Silent;
          } else {
            data := AcceptEvent(data, s);
            data := data.(requests := data.requests[Request(Submissions, key) := ReceiptOf(s)]);
            Save();
            v := Final(Accepted(s));
          }
        } else {
          v := Refused;
        }
      }
    }

    /** The command's process has ended: its result is committed by a snapshot. */
    method Completed(code: int)
      requires running && command.Some? && workspace.Some? && job.None?
      modifies this
      ensures Current() == Next(old(Current()), Exit(code))
    {
      var c := ExitCommit(command.value, code);
      workspace := Some(workspace.value + [Exited(command.value, code)]);
      settling := settling + {command.value};
      command := None;
      job := Some(Job(c, Committed(data, c), Taking));
    }

    /** The command's thread reports once its snapshot is done. */
    method Report(id: nat)
      requires running && id in settling && !AwaitsOwnJob(Session(), id)
      modifies this
      ensures Current() == Next(old(Current()), SettleCommand(id))
    {
      if data.broken {
        data := data.(executions := data.executions[id := Execution(Error, None, false)]);
      }
      settling := settling - {id};
      Save();
    }

    /** The snapshot thread: the checkpoint with the frozen record becomes durable, or it does not. */
    method TakeSnapshot(succeeds: bool, saved: bool)
      requires running && job.Some? && workspace.Some? && job.value.stage == Taking && (succeeds ==> active)
      modifies this
      ensures Current() == Next(old(Current()), if succeeds then Snapshot else SnapshotFails(saved))
    {
      if succeeds {
        checkpoint := Some(Checkpoint(workspace.value, job.value.frozen));
        job := Some(job.value.(stage := Durable));
      } else {
        Fail(saved);
      }
    }

    /** An error of the snapshot thread marks the record; saving that may fail too. */
    method Fail(saved: bool)
      requires running && job.Some?
      modifies this`data, this`job, this`http
      ensures Current() == Failing(old(Current()), old(Session()), saved)
    {
      data := data.(interrupted := true, broken := true);
      job := Some(job.value.(stage := Failed));
      if saved {
        Save();
      }
    }

    /** The manifest is durable, but removing the archive that it replaces raises. */
    method CleanUp(saved: bool)
      requires running && job.Some? && workspace.Some? && job.value.stage == Durable
      modifies this
      ensures Current() == Next(old(Current()), CleanupFails(saved))
    {
      Fail(saved);
    }

    /** The commit is applied to the current record and saved. */
    method ApplyCommit()
      requires running && job.Some? && workspace.Some? && job.value.stage == Durable
      modifies this
      ensures Current() == Next(old(Current()), Apply)
    {
      data := Committed(data, job.value.commit);
      job := Some(job.value.(stage := Applied));
      Save();
    }

    method CheckpointFinished()
      requires running && job.Some? && workspace.Some? && (job.value.stage == Applied || job.value.stage == Failed)
      modifies this
      ensures Current() == Next(old(Current()), FinishJob)
    {
      job := None;
      Save();
    }

    method Close()
      requires running
      modifies this
      ensures Current() == Next(old(Current()), CloseSession)
    {
      data := data.(closing := true);
      Save();
    }

    method CompleteSession()
      requires running && reported
      modifies this
      ensures Current() == Next(old(Current()), CompleteRun)
    {
      hide AcceptEvents;
      data := ProjectJournal(data.(reported := true), journal);
      Save();
    }

    /** Starting again from what is on disk. */
    method Recover(attached: bool)
      requires !running
      modifies this
      ensures Current() == Next(old(Current()), Restart(attached))
    {
      hide AcceptEvents, SettleRunning, Restored;
      var resumes := !http.reported && !reported && !http.closing && checkpoint.Some?;
      var d := http.(reported := http.reported || reported);
      if !d.reported {
        if resumes {
          d := RestoreCheckpoint(d, checkpoint.value.state);
        } else {
          d := d.(interrupted := true);
        }
        d := SettleExecutions(d);
      }
      http := ProjectJournal(d, journal);
      if !resumes {
        Hold(None, false);
      } else if attached {
        Hold(Some(checkpoint.value.history), true);
        checkpoint := Some(Checkpoint(checkpoint.value.history, http));
      }
    }

    method Hold(history: Option<History>, alive: bool)
      modifies this`running, this`data, this`workspace, this`active, this`job, this`command, this`settling
      ensures running && data == http && workspace == history && active == alive
      ensures job == None && command == None && settling == {}
    {
      running, data, workspace, active, job, command, settling := true, http, history, alive, None, None, {};
    }
  }

  lemma AdmitFacts(l: Live, r: Request, body: Body)
    ensures Admission(l, r, body).Proceed? ==> l.workspace.Some? && l.job.None?
  {
  }
}
