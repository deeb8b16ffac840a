/** Solve, command and settlement budgets of one session. */
module Budget {
  import opened Prelude

  /** `command` is absent when operations without an allowance of their own have no deadline. */
  datatype Limits = Limits(command: Option<real>, settlement: real)

  predicate Allowed(limits: Limits) {
    (limits.command.Some? ==> limits.command.value > 0.0) && limits.settlement >= 0.0
  }

  datatype State = State(limits: Limits, solve: real, deadline: Option<real>, ended: Option<real>, active: bool)

  datatype Phase = Solving | Draining | Settling | Expired

  datatype BudgetError = SolveExhausted | AlreadyActive | BadTimeout

  function Rank(p: Phase): (r: nat) {
    match p
    case Solving => 0
    case Draining => 1
    case Settling => 2
    case Expired => 3
  }

  /** Only a running operation has a deadline. */
  predicate Valid(s: State) {
    Allowed(s.limits) && (s.deadline.Some? ==> s.active)
  }

  /** The smaller of the allowances that are given, none when none is. */
  function CommandTimeout(requested: Option<real>, maximum: Option<real>): (r: Result<Option<real>, BudgetError>)
    ensures r.Err? <==> (requested.Some? && requested.value <= 0.0) || (maximum.Some? && maximum.value <= 0.0)
    ensures r.Ok? ==> (r.value.None? <==> requested.None? && maximum.None?)
    ensures r.Ok? && r.value.Some? ==>
      && r.value.value > 0.0 && (r.value == requested || r.value == maximum)
      && (requested.Some? ==> r.value.value <= requested.value)
      && (maximum.Some? ==> r.value.value <= maximum.value)
  {
    if (requested.Some? && requested.value <= 0.0) || (maximum.Some? && maximum.value <= 0.0) then Err(BadTimeout)
    else if requested.None? then Ok(maximum)
    else if maximum.None? then Ok(requested)
    else Ok(Some(Min(requested.value, maximum.value)))
  }

  /** The end of the last operation; a time of zero counts as absent, as in the original. */
  function EndOr(end: Option<real>, fallback: real): (e: real) {
    if end.None? || end.value == 0.0 then fallback else end.value
  }

  function SettlementDeadline(s: State): (d: Option<real>)
    ensures d.None? <==> s.active && s.deadline.None?
  {
    if s.active && s.deadline.None? then None
    else Some(Max(s.solve, EndOr(if s.deadline.Some? then s.deadline else s.ended, s.solve)) + s.limits.settlement)
  }

  /** An unbounded operation drains for as long as it runs, so the missing settlement deadline is never compared. */
  function PhaseAt(s: State, now: real): (p: Phase) {
    if now < s.solve then Solving
    else if s.active && (s.deadline.None? || now < s.deadline.value) then Draining
    else if now < SettlementDeadline(s).value then Settling
    else Expired
  }

  /** One call, with the clock readings it takes: beginning an operation reads the phase first and the start time later. */
  datatype Event =
    | Begin(requested: Option<real>, now: real, later: real)
    | End(now: real)
    | Poll(now: real)

  function Start(e: Event): (t: real) { e.now }

  function Finish(e: Event): (t: real) { if e.Begin? then e.later else e.now }

  function Begun(s: State, requested: Option<real>, now: real, later: real): (r: Result<State, BudgetError>) {
    if PhaseAt(s, now) != Solving then Err(SolveExhausted)
    else if s.active then Err(AlreadyActive)
    else
      var seconds := CommandTimeout(requested, s.limits.command);
      if seconds.Err? then Err(seconds.error)
      else
        var deadline := if seconds.value.Some? then Some(later + seconds.value.value) else None;
        Ok(s.(deadline := deadline, ended := None, active := true))
  }

  function EndTime(s: State, now: real): (t: real) {
    if s.deadline.Some? then Min(now, s.deadline.value) else now
  }

  function Ended(s: State, now: real): (n: State) {
    if s.active then s.(deadline := None, ended := Some(EndTime(s, now)), active := false) else s
  }

  function Step(s: State, e: Event): (n: State) {
    match e
    case Begin(requested, now, later) =>
      var r := Begun(s, requested, now, later);
      if r.Ok? then r.value else s
    case End(now) => Ended(s, now)
    case Poll(_) => s
  }

  class SessionBudget {
    const limits: Limits
    const solveDeadline: real
    var operationDeadline: Option<real>
    var operationEnded: Option<real>
    var operationActive: bool

    function Current(): (s: State)
      reads this
    {
      State(limits, solveDeadline, operationDeadline, operationEnded, operationActive)
    }

    constructor (limits: Limits, solveDeadline: real)
      requires Allowed(limits)
      ensures Current() == State(limits, solveDeadline, None, None, false) && Valid(Current())
    {
      this.limits, this.solveDeadline := limits, solveDeadline;
      operationDeadline, operationEnded, operationActive := None, None, false;
    }

    /**
     * The reported phase. Settling and expired are reported only when there is a settlement deadline, an operation
     * without a deadline keeps draining, and the session has expired exactly when its settlement deadline has passed.
     */
    method ReadPhase(now: real) returns (p: Phase)
      requires Valid(Current())
      ensures p == PhaseAt(Current(), now)
      ensures p.Solving? <==> now < solveDeadline
      ensures p.Draining? <==>
        solveDeadline <= now && operationActive && (operationDeadline.None? || now < operationDeadline.value)
      ensures p.Settling? || p.Expired? ==> SettlementDeadline(Current()).Some? && solveDeadline <= now
      ensures SettlementDeadline(Current()).None? ==> p == if now < solveDeadline then Solving else Draining
      ensures solveDeadline >= 0.0 ==>
        (p.Expired? <==> SettlementDeadline(Current()).Some? && SettlementDeadline(Current()).value <= now)
    {
      if now < solveDeadline {
        p := Solving;
      } else if operationActive && (operationDeadline.None? || now < operationDeadline.value) {
        p := Draining;
      } else {
        p := if now < SettlementDeadline(Current()).value then Settling else Expired;
      }
    }

    method BeginOperation(requested: Option<real>, now: real, later: real) returns (r: Result<Option<real>, BudgetError>)
      requires Valid(Current())
      modifies this
      ensures Current() == Step(old(Current()), Begin(requested, now, later)) && Valid(Current())
      ensures r.Ok? <==> Begun(old(Current()), requested, now, later).Ok?
      ensures r.Err? ==> r.error == Begun(old(Current()), requested, now, later).error
      ensures r.Ok? ==> operationActive && operationDeadline == (if r.value.Some? then Some(later + r.value.value) else None)
    {
      var p := ReadPhase(now);
      if p != Solving {
        return Err(SolveExhausted);
      }
      if operationActive {
        return Err(AlreadyActive);
      }
      r := CommandTimeout(requested, limits.command);
      if r.Ok? {
        operationDeadline := if r.value.Some? then Some(later + r.value.value) else None;
        operationEnded := None;
        operationActive := true;
      }
    }

    method EndOperation(now: real)
      requires Valid(Current())
      modifies this
      ensures Current() == Step(old(Current()), End(now)) && Valid(Current())
      ensures !old(operationActive) ==> Current() == old(Current())
      ensures old(operationActive) ==>
        && !operationActive && operationDeadline.None? && operationEnded.Some? && operationEnded.value <= now
        && (operationEnded.value == now || Some(operationEnded.value) == old(operationDeadline))
        && (old(operationDeadline).Some? ==> operationEnded.value <= old(operationDeadline).value)
    {
      if operationActive {
        operationEnded := Some(if operationDeadline.Some? then Min(now, operationDeadline.value) else now);
        operationDeadline := None;
        operationActive := false;
      }
    }
  }

  // ---- Whole runs ----------------------------------------------------------------------------

  function Run(s: State, events: seq<Event>): (n: State)
    decreases |events|
  {
    if events == [] then s else Run(Step(s, events[0]), events[1..])
  }

  /** The clock readings of the events never decrease and lie between `t` and `u`. */
  predicate Clocked(events: seq<Event>, t: real, u: real) {
    if events == [] then t <= u
    else t <= Start(events[0]) <= Finish(events[0]) && Clocked(events[1..], Finish(events[0]), u)
  }

  /** No operation has ended later than `now`. */
  predicate Past(s: State, now: real) {
    s.ended.Some? ==> s.ended.value <= now
  }

  lemma StepKeeps(s: State, e: Event, t: real)
    requires Valid(s) && Past(s, t) && t <= Start(e) <= Finish(e)
    ensures Valid(Step(s, e)) && Past(Step(s, e), Finish(e)) && Step(s, e).limits == s.limits && Step(s, e).solve == s.solve
  {
  }

  /** In one state the phase only moves forward with time. */
  lemma WaitingForward(s: State, t: real, u: real)
    requires Valid(s) && t <= u
    ensures Rank(PhaseAt(s, t)) <= Rank(PhaseAt(s, u))
  {
  }

  /** No single call moves the phase back. */
  lemma StepForward(s: State, e: Event, t: real)
    requires Valid(s) && t <= Start(e) <= Finish(e) && s.solve >= 0.0
    ensures Rank(PhaseAt(s, t)) <= Rank(PhaseAt(Step(s, e), Finish(e)))
  {
    hide CommandTimeout;
    WaitingForward(s, t, Start(e));
    if e.End? && s.active && s.deadline.Some? && s.deadline.value <= e.now && s.solve <= e.now {
      assert EndTime(s, e.now) == s.deadline.value;
    }
  }

  /** Over any run with a clock that never goes back, the phase never goes back. */
  lemma {:induction false} PhaseNeverGoesBack(s: State, events: seq<Event>, t: real, u: real)
    requires Valid(s) && Past(s, t) && s.solve >= 0.0 && Clocked(events, t, u)
    ensures Rank(PhaseAt(s, t)) <= Rank(PhaseAt(Run(s, events), u))
    decreases |events|
  {
    hide PhaseAt, Step;
    if events == [] {
      WaitingForward(s, t, u);
    } else {
      StepKeeps(s, events[0], t);
      StepForward(s, events[0], t);
      PhaseNeverGoesBack(Step(s, events[0]), events[1..], Finish(events[0]), u);
    }
  }

  /** The settlement deadline of `n` is not later than that of `s`, and still finite. */
  predicate NotLater(s: State, n: State) {
    SettlementDeadline(s).Some? ==> SettlementDeadline(n).Some? && SettlementDeadline(n).value <= SettlementDeadline(s).value
  }

  /**
   * Ending an operation moves a finite settlement deadline later exactly when the operation's deadline is zero,
   * which counts as absent, and the clock and the solve deadline are before zero.
   */
  lemma EndMovesLaterExactly(s: State, now: real)
    requires Valid(s)
    ensures !NotLater(s, Ended(s, now)) <==> s.deadline == Some(0.0) && s.solve < now < 0.0
  {
  }

  lemma StepNotLater(s: State, e: Event)
    requires Valid(s) && s.solve >= 0.0 && s.solve <= Start(e)
    ensures NotLater(s, Step(s, e))
  {
    if e.End? {
      EndMovesLaterExactly(s, e.now);
    }
  }

  /** Once the solve deadline has passed, nothing that can be called moves a finite settlement deadline later. */
  lemma {:induction false} SettlementNeverMovesLater(s: State, events: seq<Event>, t: real, u: real)
    requires Valid(s) && Past(s, t) && 0.0 <= s.solve <= t && Clocked(events, t, u)
    ensures NotLater(s, Run(s, events))
    decreases |events|
  {
    hide PhaseAt, Step, SettlementDeadline;
    if events != [] {
      StepKeeps(s, events[0], t);
      StepNotLater(s, events[0]);
      SettlementNeverMovesLater(Step(s, events[0]), events[1..], Finish(events[0]), u);
    }
  }

  /** The two clock readings of every begin are at most `gap` apart. */
  predicate Gaps(events: seq<Event>, gap: real) {
    forall e :: e in events && e.Begin? ==> e.later - e.now <= gap
  }

  /** With a command limit every operation has a deadline, and it is bounded. */
  predicate Bounded(s: State, gap: real) {
    && s.limits.command.Some? && Valid(s)
    && (s.active ==> s.deadline.Some?)
    && (s.deadline.Some? ==> s.deadline.value <= s.solve + gap + s.limits.command.value)
    && (s.ended.Some? ==> s.ended.value <= s.solve + gap + s.limits.command.value)
  }

  lemma StepBounded(s: State, e: Event, gap: real)
    requires Bounded(s, gap) && gap >= 0.0 && (e.Begin? ==> e.later - e.now <= gap)
    ensures Bounded(Step(s, e), gap) && Step(s, e).solve == s.solve && Step(s, e).limits == s.limits
  {
  }

  /**
   * With a command limit the settlement deadline always exists and never exceeds the solve deadline plus both
   * allowances plus the largest gap between the two clock readings of a begin; a clock read once leaves no gap.
   */
  lemma {:induction false} SettlementBounded(s: State, events: seq<Event>, gap: real)
    requires Bounded(s, gap) && gap >= 0.0 && Gaps(events, gap)
    ensures SettlementDeadline(Run(s, events)).Some?
    ensures SettlementDeadline(Run(s, events)).value <= s.solve + gap + s.limits.command.value + s.limits.settlement
    decreases |events|
  {
    hide Step;
    if events != [] {
      assert events[0] in events;
      StepBounded(s, events[0], gap);
      SettlementBounded(Step(s, events[0]), events[1..], gap);
    }
  }

  /** The bound that the three allowances suggest. */
  predicate WithinAllowances(s: State)
    requires s.limits.command.Some?
  {
    SettlementDeadline(s).Some? &&
    SettlementDeadline(s).value <= s.solve + s.limits.command.value + s.limits.settlement
  }

  /** The allowance that is left when the operation starts fits before the solve deadline plus the command limit. */
  predicate Fits(s: State, requested: Option<real>, later: real)
    requires s.limits.command.Some? && CommandTimeout(requested, s.limits.command).Ok?
  {
    later + CommandTimeout(requested, s.limits.command).value.value <= s.solve + s.limits.command.value
  }

  /** A started operation keeps the bound if and only if its allowance fits; without a request, if it starts in time. */
  lemma BoundExactly(s: State, requested: Option<real>, now: real, later: real)
    requires s.limits.command.Some? && Valid(s) && s.solve >= 0.0 && 0.0 <= now <= later
    requires Begun(s, requested, now, later).Ok?
    ensures WithinAllowances(Begun(s, requested, now, later).value) <==> Fits(s, requested, later)
    ensures requested.None? ==> (Fits(s, requested, later) <==> later <= s.solve)
  {
  }

  /** Every begin of the run that is carried out fits. */
  predicate AllFit(s: State, events: seq<Event>)
    requires s.limits.command.Some?
    decreases |events|
  {
    events == [] ||
    (var e := events[0];
     && (e.Begin? && Begun(s, e.requested, e.now, e.later).Ok? ==> Fits(s, e.requested, e.later))
     && Step(s, e).limits.command.Some? && AllFit(Step(s, e), events[1..]))
  }

  /** The bound holds at every point of the run. */
  predicate AlwaysWithin(s: State, events: seq<Event>)
    requires s.limits.command.Some?
    decreases |events|
  {
    WithinAllowances(s) &&
    (events == [] || (Step(s, events[0]).limits.command.Some? && AlwaysWithin(Step(s, events[0]), events[1..])))
  }

  lemma FittingStep(s: State, e: Event, t: real)
    requires Bounded(s, 0.0) && s.solve >= 0.0 && 0.0 <= t <= Start(e) <= Finish(e)
    ensures Step(s, e).limits == s.limits && Step(s, e).solve == s.solve && WithinAllowances(s)
    ensures e.Begin? && Begun(s, e.requested, e.now, e.later).Ok? ==>
      (WithinAllowances(Step(s, e)) <==> Fits(s, e.requested, e.later)) && (Fits(s, e.requested, e.later) ==> Bounded(Step(s, e), 0.0))
    ensures !(e.Begin? && Begun(s, e.requested, e.now, e.later).Ok?) ==> Bounded(Step(s, e), 0.0)
  {
    if e.Begin? && Begun(s, e.requested, e.now, e.later).Ok? {
      BoundExactly(s, e.requested, e.now, e.later);
    }
  }

  /**
   * Over a whole run the settlement deadline stays within solve deadline, command and settlement together if and only
   * if every operation, at the moment it starts, has an allowance that fits.
   */
  lemma {:induction false} SettlementWithinExactly(s: State, events: seq<Event>, t: real, u: real)
    requires Bounded(s, 0.0) && s.solve >= 0.0 && 0.0 <= t && Clocked(events, t, u)
    ensures AlwaysWithin(s, events) <==> AllFit(s, events)
    decreases |events|
  {
    hide Step, Bounded, WithinAllowances, Fits, Begun;
    if events == [] {
      BoundedWithin(s);
    } else {
      FittingStep(s, events[0], t);
      BoundedCommand(s);
      if Bounded(Step(s, events[0]), 0.0) {
        SettlementWithinExactly(Step(s, events[0]), events[1..], Finish(events[0]), u);
      } else {
        assert !WithinAllowances(Step(s, events[0]));
      }
    }
  }

  lemma BoundedCommand(s: State)
    requires Bounded(s, 0.0)
    ensures s.limits.command.Some?
  {
  }

  lemma BoundedWithin(s: State)
    requires Bounded(s, 0.0)
    ensures s.limits.command.Some? && WithinAllowances(s)
  {
  }

  /** A begin that starts after the solve deadline it was checked against, and so breaks the bound. */
  lemma GapMatters() returns (s: State, e: Event)
    ensures Bounded(s, 0.0) && s.solve >= 0.0 && Clocked([e], 0.0, Finish(e))
    ensures !AllFit(s, [e]) && SettlementDeadline(Step(s, e)).value > s.solve + s.limits.command.value + s.limits.settlement
  {
    s := State(Limits(Some(5.0), 60.0), 10.0, None, None, false);
    e := Begin(None, 9.0, 12.0);
    assert Clocked([], 12.0, 12.0);
  }
}
