/** Every step of a session keeps what is durable and what is acknowledged in line. */
module ServiceSteps {
  import opened Prelude
  import opened Contents
  import opened Service
  import opened ServiceSafety

  // ---- Facts of an accepted operation --------------------------------------------------------

  lemma Admitted(l: Live, r: Request, body: Body)
    requires Admission(l, r, body).Proceed?
    ensures !l.data.broken && r !in l.data.requests && l.job.None? && Active(l) && NoneRunning(l.data)
  {
  }

  /** With nothing running the workspace is the checkpoint's, and the record matches it. */
  lemma IdleMatches(w: World, l: Live)
    requires Safe(w) && w.live == Some(l) && l.workspace.Some? && !l.data.broken && l.job.None? && NoneRunning(l.data)
    ensures l.command.None? && w.disk.checkpoint.Some? && l.workspace.value == w.disk.checkpoint.value.history
    ensures Agree(l.data, w.disk.checkpoint.value.state) && Matching(l.workspace.value, l.data) && l.data == w.disk.http
  {
    hide DiskOk, OnlyCommand, JobCommits, Matching, Agree, SubmissionsTrue, JournalCached, CommandsKnown, WritesCommitted;
    LiveParts(w, l);
    var c := w.disk.checkpoint.value;
    assert l.command.None?;
    NothingBeyond(l.workspace.value, c.history);
    CheckpointMatches(w);
    DataMatches(w, l, c);
  }

  lemma SomethingBy(suffix: History)
    requires suffix != []
    ensures !ByCommand(suffix, None)
  {
    assert suffix[0] == suffix[0];
  }

  lemma NothingBeyond(h: History, before: History)
    requires |before| <= |h| && h[..|before|] == before && ByCommand(h[|before|..], None)
    ensures h == before
  {
    var suffix := h[|before|..];
    if suffix != [] {
      SomethingBy(suffix);
    }
    assert h == h[..|before|] + suffix;
  }

  lemma CheckpointMatches(w: World)
    requires Safe(w) && w.disk.checkpoint.Some?
    ensures Matching(w.disk.checkpoint.value.history, w.disk.checkpoint.value.state) && NoneRunning(w.disk.checkpoint.value.state)
  {
    hide JournalOk, HttpOk, LiveOk, Matching, NoneRunning, SubmissionsTrue, CommandsSaved;
  }

  lemma DataMatches(w: World, l: Live, c: Checkpoint)
    requires w.disk.checkpoint == Some(c) && Matching(c.history, c.state) && Agree(l.data, c.state) && NoneRunning(l.data)
    requires WritesCommitted(l.data, w.disk.checkpoint)
    ensures Matching(c.history, l.data)
  {
    hide WritesMatch, CommandsMatch;
    assert SameWrites(c.state.requests, l.data.requests);
    WritesCarry(c.history, c.state.requests, l.data.requests);
    AllFinished(l.data);
  }

  lemma AllFinished(d: Data)
    requires NoneRunning(d)
    ensures Finished(d.executions) == d.executions
  {
  }

  // ---- Writing a file ------------------------------------------------------------------------

  lemma WriteKeeps(w: World, l: Live, key: string, path: string, content: Bytes)
    requires Safe(w) && w.live == Some(l) && Admission(l, Request(Files, key), WriteBody(path, content)).Proceed?
    ensures Safe(Writing(w, l, key, path, content))
  {
    hide DiskOk, Matching, Agree, OnlyCommand, Admission, RecordOk, JobCommits, NoneRunning, Safe;
    Admitted(l, Request(Files, key), WriteBody(path, content));
    LiveParts(w, l);
    IdleMatches(w, l);
    var c := WriteCommit(key, WriteReceipt(path, content));
    var n := Writing(w, l, key, path, content).live.value;
    WriteMatches(l, key, path, content);
    JobFieldsOnly(w, l, n);
    assert NoneRunning(n.job.value.frozen) by { CommitRuns(l.data, c); }
    assert FrozenOf(n.job.value.frozen, n.data, c);
    assert JobOk(n, w.disk.checkpoint.value, n.job.value);
    assert WorkspaceOk(n, w.disk.checkpoint);
    assert JobCommits(n) by { WriteJobCommits(n, key, path, content); }
    assert CommandOk(n) by { NotSettling(l, n); }
    OkParts(Writing(w, l, key, path, content), n);
  }

  lemma WriteJobCommits(l: Live, key: string, path: string, content: Bytes)
    requires l.job.Some? && l.job.value.commit == WriteCommit(key, WriteReceipt(path, content)) && l.job.value.stage.Taking?
    requires Request(Files, key) !in l.data.requests
    ensures JobCommits(l)
  {
  }

  lemma CommitRuns(d: Data, c: Commit)
    requires NoneRunning(d) || (c.ExitCommit? && forall id :: id in d.executions && d.executions[id].state == Running ==> id == c.id)
    ensures NoneRunning(Committed(d, c))
  {
  }

  lemma NotSettling(l: Live, n: Live)
    requires CommandOk(l) && l.command.None? && NoneRunning(l.data)
    requires n.data == l.data && n.settling == l.settling && n.command.None?
    ensures CommandOk(n)
  {
  }

  lemma JobFieldsOnly(w: World, l: Live, n: Live)
    requires RecordOk(l, w.disk, w.ids) && n.data == l.data && l.job.None?
    ensures RecordOk(n, w.disk, w.ids)
    ensures n.command == l.command && n.settling == l.settling && OnlyCommand(l) ==> OnlyCommand(n)
  {
    hide SubmissionsTrue, JournalCached, CommandsKnown, WritesCommitted, CommandRequests;
  }

  lemma WriteMatches(l: Live, key: string, path: string, content: Bytes)
    requires l.workspace.Some? && Matching(l.workspace.value, l.data) && Request(Files, key) !in l.data.requests
    ensures Matching(l.workspace.value + [Wrote(key, path, content)], Committed(l.data, WriteCommit(key, WriteReceipt(path, content))))
  {
    hide WritesMatch, CommandsMatch;
    WriteAdded(l.workspace.value, l.data.requests, key, path, content);
    CommandsAfterWrite(l.workspace.value, l.data.executions, Wrote(key, path, content));
  }

  // ---- Starting a command --------------------------------------------------------------------

  lemma StartedRecord(w: World, l: Live, d: Data, r: Request, command: string)
    requires RecordOk(l, w.disk, w.ids) && l.data == w.disk.http && r.route == Executions
    requires d == l.data.(executions := l.data.executions[w.ids := Execution(Running, None, false)],
      requests := l.data.requests[r := Receipt(CommandBody(command), Started(w.ids))])
    ensures
      && SubmissionsTrue(d, w.disk.journal) && JournalCached(d, w.disk.journal) && WritesCommitted(d, w.disk.checkpoint)
      && CommandsKnown(d) && Numbers(d.executions, w.ids + 1)
  {
    hide FromJournal;
    forall k | 0 <= k < |w.disk.journal| ensures Cached(d, w.disk.journal[k]) {
      assert Cached(l.data, w.disk.journal[k]);
    }
  }

  lemma StartedDisk(w: World, l: Live, d: Data, r: Request, command: string)
    requires Safe(w) && w.live == Some(l) && l.data == w.disk.http && r.route == Executions && r !in l.data.requests
    requires l.data.broken ==> l.data.interrupted
    requires d == l.data.(executions := l.data.executions[w.ids := Execution(Running, None, false)],
      requests := l.data.requests[r := Receipt(CommandBody(command), Started(w.ids))])
    ensures DiskOk(w.disk.(http := d), w.ids + 1)
  {
    hide Matching, JournalOk, OnlyCommand, CommandOk, JobCommits, WorkspaceOk, SubmissionsTrue, JournalCached, WritesCommitted,
      CommandsKnown, NoneRunning;
    LiveParts(w, l);
    StartedRecord(w, l, d, r, command);
  }

  lemma StartKeeps(w: World, l: Live, key: string, command: string)
    requires Safe(w) && w.live == Some(l) && Admission(l, Request(Executions, key), CommandBody(command)).Proceed?
    ensures Safe(Starting(w, l, key, command))
  {
    hide DiskOk, Matching, Finished, Admission, Safe, SubmissionsTrue, JournalCached, WritesCommitted, CommandsKnown, CommandRequests, JobOk;
    var r := Request(Executions, key);
    Admitted(l, r, CommandBody(command));
    LiveParts(w, l);
    IdleMatches(w, l);
    var s := Starting(w, l, key, command);
    var n := s.live.value;
    StartedRecord(w, l, n.data, r, command);
    StartedDisk(w, l, n.data, r, command);
    FreshFinished(l.data.executions, w.ids);
    StartedCommand(w, l, n);
    OkParts(s, n);
  }

  lemma FreshFinished(executions: map<nat, Execution>, id: nat)
    requires Numbers(executions, id)
    ensures Finished(executions[id := Execution(Running, None, false)]) == Finished(executions)
  {
  }

  lemma StartedCommand(w: World, l: Live, n: Live)
    requires CommandOk(l) && NoneRunning(l.data) && Numbers(l.data.executions, w.ids)
    requires n == l.(data := n.data, command := Some(w.ids)) && l.job.None? && !n.data.broken
    requires n.data.executions == l.data.executions[w.ids := Execution(Running, None, false)]
    ensures CommandOk(n) && OnlyCommand(n)
  {
  }

  // ---- Submitting ----------------------------------------------------------------------------

  lemma AppendJournal(journal: seq<Submission>, key: string, content: Bytes, time: int)
    requires JournalOk(journal) && Find(journal, key) == |journal|
    ensures JournalOk(journal + [Submission(|journal| + 1, Some(key), content, time)])
  {
  }

  lemma TrueGrows(d: Data, journal: seq<Submission>, s: Submission)
    requires SubmissionsTrue(d, journal)
    ensures SubmissionsTrue(d, journal + [s])
  {
    forall r | r in d.requests && r.route == Submissions ensures FromJournal(journal + [s], r.key, d.requests[r]) {
      var k :| 0 <= k < |journal| && EventAt(journal, k, r.key, d.requests[r]);
      assert EventAt(journal + [s], k, r.key, d.requests[r]);
    }
  }

  /** A key without a receipt has not been journalled. */
  lemma NotJournalled(d: Data, journal: seq<Submission>, key: string)
    requires JournalCached(d, journal) && Request(Submissions, key) !in d.requests
    ensures Find(journal, key) == |journal|
  {
    forall k | 0 <= k < |journal| ensures journal[k].key != Some(key) {
      assert Cached(d, journal[k]);
    }
  }

  lemma JournalGrows(disk: Disk, ids: nat, s: Submission)
    requires DiskOk(disk, ids) && JournalOk(disk.journal + [s])
    ensures DiskOk(disk.(journal := disk.journal + [s]), ids)
  {
    hide Matching, JournalOk, SubmissionsTrue, WritesCommitted, CommandsKnown, CommandsSaved, NoneRunning;
    TrueGrows(disk.http, disk.journal, s);
    if disk.checkpoint.Some? {
      TrueGrows(disk.checkpoint.value.state, disk.journal, s);
    }
  }

  lemma SubmittedRecord(d: Data, journal: seq<Submission>, s: Submission, key: string, n: Data)
    requires SubmissionsTrue(d, journal) && JournalCached(d, journal) && s.key == Some(key)
    requires n.requests == d.requests[Request(Submissions, key) := ReceiptOf(s)]
    ensures SubmissionsTrue(n, journal + [s]) && JournalCached(n, journal + [s])
  {
    TrueGrows(d, journal, s);
    assert EventAt(journal + [s], |journal|, key, ReceiptOf(s));
    forall k | 0 <= k < |journal + [s]| ensures Cached(n, (journal + [s])[k]) {
      if k < |journal| {
        assert Cached(d, journal[k]);
      }
    }
  }

  lemma SubmittedOthers(l: Live, n: Data, key: string, r: Receipt, c: Option<Checkpoint>, ids: nat)
    requires n.requests == l.data.requests[Request(Submissions, key) := r] && n.executions == l.data.executions
    requires WritesCommitted(l.data, c) && CommandsKnown(l.data) && Numbers(l.data.executions, ids)
    ensures WritesCommitted(n, c) && CommandsKnown(n) && Numbers(n.executions, ids)
    ensures CommandRequests(n.requests) == CommandRequests(l.data.requests)
    ensures c.Some? && Agree(l.data, c.value.state) ==> Agree(n, c.value.state)
  {
    hide Finished;
  }

  lemma SubmitKeeps(w: World, l: Live, key: string, time: int, stopped: bool)
    requires Safe(w) && w.live == Some(l) && Admission(l, Request(Submissions, key), SubmitBody).Proceed?
    ensures Safe(Submitting(w, l, key, time, stopped))
  {
    hide Workspace, DiskOk, RecordOk, OnlyCommand, CommandOk, JobCommits, WorkspaceOk, Safe, JournalOk, Admission;
    Admitted(l, Request(Submissions, key), SubmitBody);
    LiveParts(w, l);
    RecordFacts(l, w.disk, w.ids);
    NotJournalled(l.data, w.disk.journal, key);
    var files := Workspace(l.workspace.value);
    if OUTPUT in files {
      var s := Submission(|w.disk.journal| + 1, Some(key), files[OUTPUT], time);
      JournalOkOf(w.disk, w.ids);
      AppendJournal(w.disk.journal, key, files[OUTPUT], time);
      JournalGrows(w.disk, w.ids, s);
      if stopped {
        assert Safe(Submitting(w, l, key, time, stopped)) by { StoppedSafe(Submitting(w, l, key, time, stopped)); }
      } else {
        SubmitSaves(w, l, key, s, Submitting(w, l, key, time, stopped).live.value.data);
      }
    }
  }

  lemma JournalOkOf(disk: Disk, ids: nat)
    requires DiskOk(disk, ids)
    ensures JournalOk(disk.journal)
  {
    hide JournalOk, CheckpointOk, HttpOk;
  }

  lemma StoppedSafe(w: World)
    requires DiskOk(w.disk, w.ids) && w.live.None?
    ensures Safe(w)
  {
    hide DiskOk;
  }

  lemma RecordFacts(l: Live, disk: Disk, ids: nat)
    requires RecordOk(l, disk, ids)
    ensures SubmissionsTrue(l.data, disk.journal) && JournalCached(l.data, disk.journal)
    ensures WritesCommitted(l.data, disk.checkpoint) && CommandsKnown(l.data) && Numbers(l.data.executions, ids)
  {
    hide SubmissionsTrue, JournalCached, WritesCommitted, CommandsKnown, CommandRequests, Numbers;
  }

  lemma SubmitSaves(w: World, l: Live, key: string, s: Submission, d: Data)
    requires Safe(w) && w.live == Some(l) && l.job.None? && !l.data.broken && l.workspace.Some? && NoneRunning(l.data)
    requires s.key == Some(key) && DiskOk(w.disk.(journal := w.disk.journal + [s]), w.ids)
    requires d == l.data.(submissions := d.submissions, requests := l.data.requests[Request(Submissions, key) := ReceiptOf(s)])
    ensures Safe(Saved(w.(disk := w.disk.(journal := w.disk.journal + [s])), l.(data := d)))
  {
    hide Safe, DiskOk, Matching, OnlyCommand, CommandOk, JobCommits, SubmissionsTrue, JournalCached, WritesCommitted, CommandsKnown,
      Numbers, JobOk, NoneRunning, Agree;
    LiveParts(w, l);
    IdleMatches(w, l);
    RecordFacts(l, w.disk, w.ids);
    var n := l.(data := d);
    var grown := w.disk.(journal := w.disk.journal + [s]);
    SubmittedRecord(l.data, w.disk.journal, s, key, d);
    SubmittedOthers(l, d, key, ReceiptOf(s), w.disk.checkpoint, w.ids);
    HttpReplaced(w, l, grown, d);
    CommandUnchanged(l, d);
    OkParts(Saved(w.(disk := grown), n), n);
  }

  lemma CommandUnchanged(l: Live, d: Data)
    requires l.job.None? && CommandOk(l) && OnlyCommand(l) && d.executions == l.data.executions && d.broken == l.data.broken
    ensures CommandOk(l.(data := d)) && OnlyCommand(l.(data := d)) && JobCommits(l.(data := d))
  {
    var n := l.(data := d);
    forall id | id in n.settling ensures id in n.data.executions && (n.data.executions[id].state == Running ==> SettlesLater(n, id)) {
      assert id in l.data.executions && (l.data.executions[id].state == Running ==> SettlesLater(l, id));
    }
  }

  /** The HTTP record may be replaced by one that is as good. */
  lemma HttpReplaced(w: World, l: Live, disk: Disk, d: Data)
    requires DiskOk(disk, w.ids) && l.data == disk.http && CommandRequests(d.requests) == CommandRequests(l.data.requests)
    requires SubmissionsTrue(d, disk.journal) && WritesCommitted(d, disk.checkpoint) && CommandsKnown(d) && Numbers(d.executions, w.ids)
    requires d.broken ==> d.interrupted
    ensures DiskOk(disk.(http := d), w.ids)
  {
    hide Matching, JournalOk, SubmissionsTrue, WritesCommitted, CommandsKnown, NoneRunning, Numbers, CommandRequests, CommandsSaved;
    if disk.checkpoint.Some? {
      CommandsThrough(l.data, d, disk.checkpoint.value.state);
    }
  }

  lemma DirectJournal(journal: seq<Submission>, content: Bytes, time: int)
    requires JournalOk(journal)
    ensures JournalOk(journal + [Submission(|journal| + 1, None, content, time)])
  {
  }

  /** A submission without a key adds an event and changes no receipt. */
  lemma DirectKeeps(w: World, l: Live, time: int)
    requires Safe(w) && w.live == Some(l)
    ensures Safe(SubmittingDirect(w, l, time))
  {
    hide Safe, Workspace, DiskOk, OnlyCommand, CommandOk, JobCommits, WorkspaceOk, JournalOk, SubmissionsTrue, WritesCommitted,
      CommandsKnown, CommandRequests;
    LiveParts(w, l);
    var n := SubmittingDirect(w, l, time);
    if n != w {
      var s := Submission(|w.disk.journal| + 1, None, Workspace(l.workspace.value)[OUTPUT], time);
      JournalOkOf(w.disk, w.ids);
      DirectJournal(w.disk.journal, s.content, time);
      JournalGrows(w.disk, w.ids, s);
      TrueGrows(l.data, w.disk.journal, s);
      forall k | 0 <= k < |n.disk.journal| ensures Cached(l.data, n.disk.journal[k]) {
        if k < |w.disk.journal| {
          assert Cached(l.data, w.disk.journal[k]);
        }
      }
      OkParts(n, l);
    }
  }

  // ---- The command's thread ------------------------------------------------------------------

  lemma ChangeKeeps(w: World, l: Live, after: map<string, Bytes>)
    requires Safe(w) && w.live == Some(l) && l.command.Some? && l.workspace.Some?
    ensures Safe(w.(live := Some(l.(workspace := Some(l.workspace.value + [Ran(l.command.value, after)])))))
  {
    hide Safe, DiskOk, RecordOk, OnlyCommand, JobCommits, JobOk, Agree;
    LiveParts(w, l);
    var e := Ran(l.command.value, after);
    var n := l.(workspace := Some(l.workspace.value + [e]));
    WorkspaceFieldOnly(w, l, n);
    AheadGrows(l, n, w.disk.checkpoint.value, e);
    OkParts(w.(live := Some(n)), n);
  }

  lemma WorkspaceFieldOnly(w: World, l: Live, n: Live)
    requires n == l.(workspace := n.workspace)
    ensures RecordOk(l, w.disk, w.ids) ==> RecordOk(n, w.disk, w.ids)
    ensures OnlyCommand(l) ==> OnlyCommand(n)
    ensures CommandOk(l) ==> CommandOk(n)
    ensures JobCommits(l) ==> JobCommits(n)
  {
    hide SubmissionsTrue, JournalCached, WritesCommitted, CommandsKnown, CommandRequests;
    if CommandOk(l) {
      forall id | id in n.settling ensures id in n.data.executions && (n.data.executions[id].state == Running ==> SettlesLater(n, id)) {
        assert id in l.data.executions && (l.data.executions[id].state == Running ==> SettlesLater(l, id));
      }
    }
  }

  lemma AheadGrows(l: Live, n: Live, c: Checkpoint, e: Effect)
    requires l.workspace.Some? && Ahead(l, c) && l.command.Some? && e.Ran? && e.id == l.command.value
    requires n == l.(workspace := Some(l.workspace.value + [e]))
    ensures Ahead(n, c)
  {
    hide Agree;
    var h := l.workspace.value;
    assert (h + [e])[..|c.history|] == h[..|c.history|];
    assert (h + [e])[|c.history|..] == h[|c.history|..] + [e];
  }

  lemma ExitMatches(w: World, l: Live, c: Checkpoint, code: int)
    requires w.disk.checkpoint == Some(c) && l.workspace.Some? && l.command.Some?
    requires Matching(c.history, c.state) && Ahead(l, c) && WritesCommitted(l.data, w.disk.checkpoint)
    requires OnlyCommandRuns(l)
    ensures Matching(l.workspace.value + [Exited(l.command.value, code)], Committed(l.data, ExitCommit(l.command.value, code)))
  {
    hide WritesMatch, CommandsMatch;
    var id, h := l.command.value, l.workspace.value;
    var g := h[|c.history|..];
    assert h == c.history + g;
    ExitExecutions(l, c, code);
    CommandAdded(c.history, c.state.executions, g, id, code);
    assert SameWrites(c.state.requests, l.data.requests);
    WritesCarry(c.history, c.state.requests, l.data.requests);
    assert h + [Exited(id, code)] == c.history + (g + [Exited(id, code)]);
    NoWritesAdded(c.history, g + [Exited(id, code)], l.data.requests);
    assert c.history + g + [Exited(id, code)] == h + [Exited(id, code)];
  }

  /** The current command is the only running one. */
  predicate OnlyCommandRuns(l: Live) {
    && l.command.Some? && l.command.value in l.data.executions && l.data.executions[l.command.value].state == Running
    && forall id :: id in l.data.executions && l.data.executions[id].state == Running ==> id == l.command.value
  }

  lemma ExitExecutions(l: Live, c: Checkpoint, code: int)
    requires OnlyCommandRuns(l) && Agree(l.data, c.state)
    ensures l.command.value !in c.state.executions
    ensures l.data.executions[l.command.value := Ending(code)] == c.state.executions[l.command.value := Ending(code)]
  {
  }

  lemma CommandRunsAlone(l: Live)
    requires CommandOk(l) && OnlyCommand(l) && l.command.Some?
    ensures OnlyCommandRuns(l)
  {
  }

  lemma ExitKeeps(w: World, l: Live, code: int)
    requires Safe(w) && w.live == Some(l) && l.command.Some? && l.workspace.Some?
    ensures l.job.None? && Safe(NextCommand(w, l, Exit(code)))
  {
    hide Safe, DiskOk, RecordOk, OnlyCommand, Matching, Agree, NoneRunning, CommandOk, JobCommits, Ahead, OnlyCommandRuns;
    LiveParts(w, l);
    CommandFacts(l);
    CommandRunsAlone(l);
    RecordFacts(l, w.disk, w.ids);
    CheckpointMatches(w);
    ExitMatches(w, l, w.disk.checkpoint.value, code);
    var id := l.command.value;
    var c := ExitCommit(id, code);
    assert NoneRunning(Committed(l.data, c)) by { AloneEnds(l, code); }
    var n := NextCommand(w, l, Exit(code)).live.value;
    AheadAgrees(l, w.disk.checkpoint.value);
    assert FrozenOf(n.job.value.frozen, n.data, c);
    assert JobOk(n, w.disk.checkpoint.value, n.job.value);
    ExitCommand(w, l, n, c);
    OkParts(NextCommand(w, l, Exit(code)), n);
  }

  lemma AheadAgrees(l: Live, c: Checkpoint)
    requires l.workspace.Some? && Ahead(l, c)
    ensures Agree(l.data, c.state)
  {
    hide Agree;
  }

  lemma AloneEnds(l: Live, code: int)
    requires OnlyCommandRuns(l)
    ensures NoneRunning(Committed(l.data, ExitCommit(l.command.value, code)))
  {
  }

  lemma CommandFacts(l: Live)
    requires CommandOk(l) && l.command.Some?
    ensures l.job.None? && !l.data.broken && l.command.value in l.data.executions
  {
  }

  lemma ExitCommand(w: World, l: Live, n: Live, c: Commit)
    requires CommandOk(l) && OnlyCommand(l) && RecordOk(l, w.disk, w.ids) && OnlyCommandRuns(l) && l.job.None?
    requires c.ExitCommit? && c.id == l.command.value
    requires n.job.Some? && n == l.(command := None, settling := l.settling + {c.id}, workspace := n.workspace, job := Some(Job(c, n.job.value.frozen, Taking)))
    ensures CommandOk(n) && OnlyCommand(n) && JobCommits(n) && RecordOk(n, w.disk, w.ids)
  {
    hide SubmissionsTrue, JournalCached, WritesCommitted, CommandsKnown, CommandRequests;
  }

  lemma SettleKeeps(w: World, l: Live, id: nat)
    requires Safe(w) && w.live == Some(l)
    ensures Safe(NextCommand(w, l, SettleCommand(id)))
  {
    hide Safe, DiskOk, RecordOk, OnlyCommand, CommandOk, JobCommits, WorkspaceOk;
    LiveParts(w, l);
    if id in l.settling && !AwaitsOwnJob(l, id) {
      if l.data.broken {
        SettleBroken(w, l, id);
      } else {
        SettleQuiet(w, l, id);
      }
    }
  }

  lemma SettleQuiet(w: World, l: Live, id: nat)
    requires Safe(w) && w.live == Some(l) && id in l.settling && !AwaitsOwnJob(l, id) && !l.data.broken
    ensures Safe(Saved(w, l.(settling := l.settling - {id})))
  {
    hide Safe, DiskOk, RecordOk, OnlyCommand, CommandOk, JobCommits, WorkspaceOk, SameRecord;
    SameAsItself(l.data);
    SaveKeeps(w, l, l.data);
    assert l.(data := l.data) == l;
    var saved := Saved(w, l);
    LiveParts(saved, l);
    SettlingShrinks(saved, l, id);
    OkParts(Saved(w, l.(settling := l.settling - {id})), l.(settling := l.settling - {id}));
  }

  lemma SameAsItself(d: Data)
    ensures SameRecord(d, d)
  {
  }

  lemma SettlingShrinks(w: World, l: Live, id: nat)
    requires RecordOk(l, w.disk, w.ids) && CommandOk(l) && JobCommits(l) && WorkspaceOk(l, w.disk.checkpoint)
    requires (l.workspace.Some? ==> OnlyCommand(l)) && id in l.settling && !AwaitsOwnJob(l, id) && !l.data.broken
    ensures
      var n := l.(settling := l.settling - {id});
      && RecordOk(n, w.disk, w.ids) && CommandOk(n) && JobCommits(n) && WorkspaceOk(n, w.disk.checkpoint)
      && (n.workspace.Some? ==> OnlyCommand(n))
  {
    hide SubmissionsTrue, JournalCached, WritesCommitted, CommandsKnown, CommandRequests, Agree, Matching, NoneRunning, FrozenOf;
    var n := l.(settling := l.settling - {id});
    forall other | other in n.settling
      ensures other in n.data.executions && (n.data.executions[other].state == Running ==> SettlesLater(n, other))
    {
      assert other in l.data.executions && (l.data.executions[other].state == Running ==> SettlesLater(l, other));
    }
    assert l.data.executions[id].state == Running ==> SettlesLater(l, id);
  }

  lemma FailedRecord(l: Live, id: nat, disk: Disk, ids: nat, d: Data)
    requires RecordOk(l, disk, ids) && id in l.data.executions
    requires d == l.data.(executions := l.data.executions[id := Execution(Error, None, false)])
    ensures SubmissionsTrue(d, disk.journal) && JournalCached(d, disk.journal) && WritesCommitted(d, disk.checkpoint)
    ensures CommandsKnown(d) && Numbers(d.executions, ids)
  {
    hide FromJournal, CommandRequests;
    forall k | 0 <= k < |disk.journal| ensures Cached(d, disk.journal[k]) {
      assert Cached(l.data, disk.journal[k]);
    }
  }

  lemma SettleBroken(w: World, l: Live, id: nat)
    requires Safe(w) && w.live == Some(l) && id in l.settling && !AwaitsOwnJob(l, id) && l.data.broken
    ensures
      var d := l.data.(executions := l.data.executions[id := Execution(Error, None, false)]);
      Safe(Saved(w, l.(data := d, settling := l.settling - {id})))
  {
    hide Safe, DiskOk, SubmissionsTrue, JournalCached, WritesCommitted, CommandsKnown, Numbers, CommandRequests, JobOk, Ahead;
    LiveParts(w, l);
    var d := l.data.(executions := l.data.executions[id := Execution(Error, None, false)]);
    var n := l.(data := d, settling := l.settling - {id});
    FailedRecord(l, id, w.disk, w.ids, d);
    BrokenHttp(w, l, d);
    forall other | other in n.settling
      ensures other in n.data.executions && (n.data.executions[other].state == Running ==> SettlesLater(n, other))
    {
      assert other in l.data.executions;
    }
    OkParts(Saved(w, n), n);
  }

  /** Any record with the same command receipts may be saved. */
  lemma BrokenHttp(w: World, l: Live, d: Data)
    requires Safe(w) && w.live == Some(l) && CommandRequests(d.requests) == CommandRequests(l.data.requests)
    requires SubmissionsTrue(d, w.disk.journal) && WritesCommitted(d, w.disk.checkpoint) && CommandsKnown(d) && Numbers(d.executions, w.ids)
    requires d.broken ==> d.interrupted
    ensures DiskOk(w.disk.(http := d), w.ids)
  {
    hide Matching, JournalOk, LiveOk, SubmissionsTrue, WritesCommitted, CommandsKnown, NoneRunning, Numbers, CommandRequests, CommandsSaved;
    CommandsStay(w, l, d);
  }

  // ---- The snapshot's thread -----------------------------------------------------------------

  /** What a commit leaves alone. */
  lemma CommittedOthers(d: Data, c: Commit)
    ensures CommandRequests(Committed(d, c).requests) == CommandRequests(d.requests)
    ensures forall r: Request :: r.route == Submissions ==> (r in Committed(d, c).requests <==> r in d.requests)
    ensures forall r: Request :: r in d.requests && r.route == Submissions ==> Committed(d, c).requests[r] == d.requests[r]
    ensures forall journal :: SubmissionsTrue(d, journal) ==> SubmissionsTrue(Committed(d, c), journal)
    ensures forall journal :: JournalCached(d, journal) ==> JournalCached(Committed(d, c), journal)
  {
    hide FromJournal;
    forall journal | JournalCached(d, journal) ensures JournalCached(Committed(d, c), journal) {
      forall k | 0 <= k < |journal| ensures Cached(Committed(d, c), journal[k]) {
        assert Cached(d, journal[k]);
      }
    }
  }

  lemma CommittedKnown(d: Data, c: Commit, ids: nat)
    requires CommandsKnown(d) && Numbers(d.executions, ids) && (c.ExitCommit? ==> c.id in d.executions)
    ensures CommandsKnown(Committed(d, c)) && Numbers(Committed(d, c).executions, ids)
  {
  }

  /** The frozen record is as good as the current one with the commit in it. */
  lemma FrozenGood(frozen: Data, d: Data, c: Commit, journal: seq<Submission>, ids: nat)
    requires FrozenOf(frozen, d, c) && CommandsKnown(d) && Numbers(d.executions, ids) && (c.ExitCommit? ==> c.id in d.executions)
    requires SubmissionsTrue(d, journal)
    ensures Numbers(frozen.executions, ids) && SubmissionsTrue(frozen, journal)
    ensures CommandRequests(frozen.requests) == CommandRequests(d.requests)
    ensures CommandsSaved(d, frozen)
  {
    hide FromJournal;
    CommittedOthers(d, c);
    CommittedKnown(d, c, ids);
    SameSaved(d, frozen);
  }

  lemma SameSaved(d: Data, frozen: Data)
    requires CommandRequests(frozen.requests) == CommandRequests(d.requests)
    ensures CommandsSaved(d, frozen)
  {
    forall r | r in frozen.requests && r.route == Executions ensures r in d.requests && d.requests[r] == frozen.requests[r] {
      assert r in CommandRequests(frozen.requests);
      assert r in CommandRequests(d.requests);
    }
  }

  /** The frozen record has the write receipts of the current one. */
  lemma FrozenWrites(frozen: Data, d: Data, c: Commit, h: History, state: Data, before: Option<Checkpoint>)
    requires FrozenOf(frozen, d, c) && WritesCommitted(d, before) && before.Some? && Agree(d, state) && before.value.state == state
    requires c.WriteCommit? ==> Request(Files, c.key) !in d.requests
    ensures WritesCommitted(d, Some(Checkpoint(h, frozen)))
  {
    hide Finished;
  }

  lemma JobFacts(l: Live, c: Option<Checkpoint>)
    requires WorkspaceOk(l, c) && l.job.Some? && !l.data.broken
    ensures l.workspace.Some? && c.Some? && JobOk(l, c.value, l.job.value) && !l.job.value.stage.Failed?
  {
    hide JobOk;
  }

  lemma CommitKnown(l: Live)
    requires CommandOk(l) && JobCommits(l) && l.job.Some?
    ensures l.job.value.commit.ExitCommit? ==> l.job.value.commit.id in l.settling && l.job.value.commit.id in l.data.executions
    ensures l.command.None?
    ensures l.job.value.commit.WriteCommit? && (l.job.value.stage.Taking? || l.job.value.stage.Durable?) ==>
      Request(Files, l.job.value.commit.key) !in l.data.requests
  {
  }

  lemma SnapshotDisk(w: World, l: Live, h: History, frozen: Data)
    requires DiskOk(w.disk, w.ids) && l.data == w.disk.http
    requires Matching(h, frozen) && !frozen.broken && NoneRunning(frozen) && Numbers(frozen.executions, w.ids)
    requires SubmissionsTrue(frozen, w.disk.journal) && CommandsSaved(l.data, frozen)
    requires WritesCommitted(l.data, Some(Checkpoint(h, frozen)))
    ensures DiskOk(w.disk.(checkpoint := Some(Checkpoint(h, frozen))), w.ids)
  {
    hide Matching, JournalOk, SubmissionsTrue, WritesCommitted, CommandsKnown, NoneRunning, Numbers, CommandsSaved;
  }

  lemma SnapshotKeeps(w: World, l: Live)
    requires Safe(w) && w.live == Some(l)
    ensures Safe(NextJob(w, l, Snapshot))
  {
    hide Safe, DiskOk, RecordOk, OnlyCommand, CommandOk, JobCommits, WorkspaceOk, Matching, Agree, NoneRunning, FrozenOf;
    LiveParts(w, l);
    if l.job.Some? && l.workspace.Some? && l.job.value.stage == Taking && l.active {
      TakingSound(w, l);
      var job, h := l.job.value, l.workspace.value;
      JobFacts(l, w.disk.checkpoint);
      CommitKnown(l);
      RecordFacts(l, w.disk, w.ids);
      FrozenGood(job.frozen, l.data, job.commit, w.disk.journal, w.ids);
      FrozenWrites(job.frozen, l.data, job.commit, h, w.disk.checkpoint.value.state, w.disk.checkpoint);
      FrozenSound(job.frozen, l.data, job.commit);
      SnapshotDisk(w, l, h, job.frozen);
      var n := NextJob(w, l, Snapshot);
      SnapshotLive(w, l, n);
      OkParts(n, n.live.value);
    }
  }

  lemma TakingSound(w: World, l: Live)
    requires Safe(w) && w.live == Some(l) && l.job.Some? && (l.job.value.stage.Taking? || l.job.value.stage.Durable?)
    ensures !l.data.broken && l.data == w.disk.http
  {
    hide DiskOk, OnlyCommand, CommandOk, JobCommits, Matching, JobOk, Ahead, SubmissionsTrue, JournalCached, WritesCommitted, CommandsKnown,
      CommandRequests;
  }

  lemma FrozenSound(frozen: Data, d: Data, c: Commit)
    requires FrozenOf(frozen, d, c)
    ensures !frozen.broken
  {
  }

  lemma SnapshotLive(w: World, l: Live, n: World)
    requires RecordOk(l, w.disk, w.ids) && CommandOk(l) && JobCommits(l) && (l.workspace.Some? ==> OnlyCommand(l))
    requires WorkspaceOk(l, w.disk.checkpoint) && !l.data.broken && l.data == w.disk.http
    requires l.job.Some? && l.workspace.Some? && l.job.value.stage == Taking && l.active && w.live == Some(l)
    requires n == NextJob(w, l, Snapshot) && WritesCommitted(l.data, n.disk.checkpoint)
    ensures n.live.Some?
    ensures
      var m := n.live.value;
      RecordOk(m, n.disk, n.ids) && CommandOk(m) && JobCommits(m) && OnlyCommand(m) && WorkspaceOk(m, n.disk.checkpoint)
  {
    hide SubmissionsTrue, JournalCached, WritesCommitted, CommandsKnown, CommandRequests, Agree, Matching, NoneRunning, FrozenOf;
    var m := n.live.value;
    forall id | id in m.settling ensures id in m.data.executions && (m.data.executions[id].state == Running ==> SettlesLater(m, id)) {
      assert id in l.data.executions && (l.data.executions[id].state == Running ==> SettlesLater(l, id));
    }
  }

  /** An error before the commit leaves the durable state as it was and marks the record, saved or not. */
  lemma FailKeeps(w: World, l: Live, saved: bool)
    requires Safe(w) && w.live == Some(l) && l.job.Some? && l.workspace.Some?
    requires l.job.value.stage.Taking? || l.job.value.stage.Durable?
    ensures Safe(Failing(w, l, saved))
  {
    hide Safe, DiskOk, SubmissionsTrue, JournalCached, WritesCommitted, CommandsKnown, Numbers, CommandRequests, JobOk, Ahead;
    LiveParts(w, l);
    TakingSound(w, l);
    BrokenRecord(l, w.disk, w.ids);
    var n := Failing(w, l, saved);
    if saved {
      BrokenHttp(w, l, Broken(l.data));
    }
    SameCommands(Broken(l.data), l.data);
    BrokenLive(l, n.live.value);
    OkParts(n, n.live.value);
  }

  lemma BrokenRecord(l: Live, disk: Disk, ids: nat)
    requires RecordOk(l, disk, ids)
    ensures
      var d := Broken(l.data);
      && SubmissionsTrue(d, disk.journal) && JournalCached(d, disk.journal) && WritesCommitted(d, disk.checkpoint)
      && CommandsKnown(d) && Numbers(d.executions, ids)
  {
    hide FromJournal, CommandRequests;
  }

  lemma BrokenLive(l: Live, n: Live)
    requires CommandOk(l) && JobCommits(l) && l.job.Some? && (l.workspace.Some? ==> OnlyCommand(l))
    requires n == l.(data := Broken(l.data), job := Some(l.job.value.(stage := Failed)))
    ensures CommandOk(n) && JobCommits(n) && (n.workspace.Some? ==> OnlyCommand(n))
  {
  }

  // ---- Applying the commit -------------------------------------------------------------------

  lemma AppliedRecord(l: Live, disk: Disk, ids: nat, d: Data)
    requires RecordOk(l, disk, ids) && l.job.Some? && CommandOk(l) && JobCommits(l)
    requires disk.checkpoint.Some? && FrozenOf(disk.checkpoint.value.state, l.data, l.job.value.commit)
    requires d == Committed(l.data, l.job.value.commit) || d == Broken(Committed(l.data, l.job.value.commit))
    ensures SubmissionsTrue(d, disk.journal) && JournalCached(d, disk.journal) && WritesCommitted(d, disk.checkpoint)
    ensures CommandsKnown(d) && Numbers(d.executions, ids) && CommandRequests(d.requests) == CommandRequests(l.data.requests)
  {
    hide SubmissionsTrue, JournalCached, CommandsKnown, CommandRequests, Numbers, WritesCommitted;
    var c := Committed(l.data, l.job.value.commit);
    RecordFacts(l, disk, ids);
    CommitKnown(l);
    CommittedOthers(l.data, l.job.value.commit);
    CommittedKnown(l.data, l.job.value.commit, ids);
    CommittedWrites(c, disk.checkpoint.value);
    if d == Broken(c) {
      SameButBroken(c, disk, ids);
    }
  }

  lemma CommittedWrites(d: Data, c: Checkpoint)
    requires c.state.requests == d.requests
    ensures WritesCommitted(d, Some(c))
  {
  }

  lemma SameButBroken(d: Data, disk: Disk, ids: nat)
    requires SubmissionsTrue(d, disk.journal) && JournalCached(d, disk.journal) && WritesCommitted(d, disk.checkpoint)
    requires CommandsKnown(d) && Numbers(d.executions, ids)
    ensures SubmissionsTrue(Broken(d), disk.journal) && JournalCached(Broken(d), disk.journal) && WritesCommitted(Broken(d), disk.checkpoint)
    ensures CommandsKnown(Broken(d)) && Numbers(Broken(d).executions, ids)
  {
    hide FromJournal;
  }

  lemma AppliedLive(l: Live, c: Checkpoint, n: Live)
    requires l.workspace.Some? && l.job.Some? && l.job.value.stage.Durable? && JobOk(l, c, l.job.value) && !l.data.broken
    requires CommandOk(l) && JobCommits(l) && OnlyCommand(l)
    requires n == l.(data := Committed(l.data, l.job.value.commit), job := Some(l.job.value.(stage := Applied)))
    ensures WorkspaceOk(n, Some(c)) && CommandOk(n) && JobCommits(n) && OnlyCommand(n)
  {
    hide Matching;
    AllFinished(n.data);
    CommandAfterCommit(l, n);
  }

  lemma CommandAfterCommit(l: Live, n: Live)
    requires CommandOk(l) && JobCommits(l) && OnlyCommand(l) && l.job.Some? && NoneRunning(n.data)
    requires n == l.(data := Committed(l.data, l.job.value.commit), job := Some(l.job.value.(stage := Applied)))
    ensures CommandOk(n) && JobCommits(n) && OnlyCommand(n)
  {
    forall id | id in n.settling ensures id in n.data.executions {
      assert id in l.data.executions;
    }
  }

  lemma DurableFacts(w: World, l: Live)
    requires Safe(w) && w.live == Some(l) && l.job.Some? && l.job.value.stage.Durable? && l.workspace.Some?
    ensures w.disk.checkpoint == Some(Checkpoint(l.workspace.value, l.job.value.frozen))
    ensures FrozenOf(l.job.value.frozen, l.data, l.job.value.commit) && NoneRunning(l.job.value.frozen) && !l.data.broken
    ensures JobOk(l, w.disk.checkpoint.value, l.job.value)
  {
    hide Safe, DiskOk, RecordOk, OnlyCommand, CommandOk, JobCommits, Matching, Agree, NoneRunning, FrozenOf;
    LiveParts(w, l);
    TakingSound(w, l);
    JobFacts(l, w.disk.checkpoint);
  }

  lemma ApplyKeeps(w: World, l: Live)
    requires Safe(w) && w.live == Some(l)
    ensures Safe(NextJob(w, l, Apply))
  {
    hide Safe, DiskOk, OnlyCommand, CommandOk, JobCommits, WorkspaceOk, SubmissionsTrue, JournalCached, WritesCommitted, CommandsKnown,
      CommandRequests, JobOk, FrozenOf, NoneRunning, Numbers;
    LiveParts(w, l);
    if l.job.Some? && l.workspace.Some? && l.job.value.stage == Durable {
      DurableFacts(w, l);
      var n := NextJob(w, l, Apply);
      AppliedRecord(l, w.disk, w.ids, n.live.value.data);
      BrokenHttp(w, l, n.live.value.data);
      AppliedLive(l, w.disk.checkpoint.value, n.live.value);
      OkParts(n, n.live.value);
    }
  }

  lemma ApplyFailsLive(l: Live, n: Live, c: Option<Checkpoint>)
    requires CommandOk(l) && JobCommits(l) && l.job.Some? && OnlyCommand(l)
    requires n == l.(data := Broken(Committed(l.data, l.job.value.commit)), job := Some(l.job.value.(stage := Failed))) && l.workspace.Some?
    ensures CommandOk(n) && JobCommits(n) && OnlyCommand(n) && WorkspaceOk(n, c)
  {
    hide JobOk, Ahead;
    forall id | id in n.settling ensures id in n.data.executions {
      assert id in l.data.executions;
    }
  }

  lemma ApplyFailsKeeps(w: World, l: Live, saved: bool)
    requires Safe(w) && w.live == Some(l)
    ensures Safe(NextJob(w, l, ApplyFails(saved)))
  {
    hide Safe, DiskOk, OnlyCommand, CommandOk, JobCommits, WorkspaceOk, SubmissionsTrue, JournalCached, WritesCommitted, CommandsKnown,
      CommandRequests, JobOk, FrozenOf, NoneRunning, Numbers;
    LiveParts(w, l);
    if l.job.Some? && l.workspace.Some? && l.job.value.stage == Durable {
      DurableFacts(w, l);
      TakingSound(w, l);
      var n := NextJob(w, l, ApplyFails(saved));
      AppliedRecord(l, w.disk, w.ids, n.live.value.data);
      if saved {
        BrokenHttp(w, l, n.live.value.data);
      }
      ApplyFailsLive(l, n.live.value, w.disk.checkpoint);
      OkParts(n, n.live.value);
    }
  }

  lemma FinishKeeps(w: World, l: Live)
    requires Safe(w) && w.live == Some(l)
    ensures Safe(NextJob(w, l, FinishJob))
  {
    hide Safe, DiskOk, RecordOk, OnlyCommand, CommandOk, JobCommits, WorkspaceOk, SameRecord;
    LiveParts(w, l);
    if l.job.Some? && l.workspace.Some? && !(l.job.value.stage == Taking || l.job.value.stage == Durable) {
      SameAsItself(l.data);
      SaveKeeps(w, l, l.data);
      assert l.(data := l.data) == l;
      LiveParts(Saved(w, l), l);
      FinishedLive(Saved(w, l), l);
      OkParts(Saved(w, l.(job := None)), l.(job := None));
    }
  }

  lemma FinishedLive(w: World, l: Live)
    requires RecordOk(l, w.disk, w.ids) && CommandOk(l) && JobCommits(l) && WorkspaceOk(l, w.disk.checkpoint) && OnlyCommand(l)
    requires l.job.Some? && l.workspace.Some? && !(l.job.value.stage == Taking || l.job.value.stage == Durable) && l.data == w.disk.http
    ensures
      var n := l.(job := None);
      RecordOk(n, w.disk, w.ids) && CommandOk(n) && JobCommits(n) && WorkspaceOk(n, w.disk.checkpoint) && OnlyCommand(n)
  {
    hide SubmissionsTrue, JournalCached, WritesCommitted, CommandsKnown, CommandRequests, Agree, Matching, NoneRunning, FrozenOf;
    var n := l.(job := None);
    forall id | id in n.settling ensures id in n.data.executions && (n.data.executions[id].state == Running ==> SettlesLater(n, id)) {
      assert id in l.data.executions && (l.data.executions[id].state == Running ==> SettlesLater(l, id));
    }
  }
}
