# Verification of the benchmarking service and evaluator

This project models the parts of the benchmarking repository whose correctness depends on whole runs, on graph
arguments or on real arithmetic, and proves what those parts are for. It checks with `dafny verify dfyconfig.toml`.

The model has six areas.

1. **Session service.** `Service` is one session as a state machine: every block that the service runs under its lock,
   every step of the snapshot and command threads, a crash at any point and a restart. `ServiceSafety`, `ServiceSteps`
   and `ServiceRecovery` carry the invariant through every step, `ServiceGuarantees` and `ServiceIdempotence` draw the
   conclusions, `ServiceFiles` and `ServiceReplies` say which files, submissions, replies and records every run leads to,
   and `SessionService` is the service's own imperative form, proved against the state machine.
   `Lifecycle` is the close and startup protocol between threads; `Budget` is the clock-driven phase machine.
2. **Evaluation pipeline.** `Plans`, `JobOrder`, `SourceGraph`, `SourcePairs` and `GateSafety` are planning, `Runner` is
   the batching scheduler and what its runs mean, `Metrics`, `Quality`, `Scoring`, `Verdicts`, `ScoreFormula` and
   `ScoreOrder` are measurement, score and verdict, and
   `CornerRun` is one complete run of an accepted plan.
3. **Circuit transformations.** `Netlists` gives a netlist a meaning: element laws and Kirchhoff's current law over
   real voltages and currents. `BranchResistors` and `Multiport` (with `MultiportMeaning` and `MultiportNames`) are the
   two rewritings and the proofs that they keep exactly the solutions they should.
4. **Evidence.** `JournalText` and `Journal` are the append-only run journal with torn writes, crashes and resumption;
   `Omissions`, `Retention`, `Admission`, `CompactionSpec` and `Compaction` are the retention transaction, which may
   stop before any disk operation and be run again.
5. **Settling measurement.** `Waveforms` and `Settling` treat a sampled waveform as a function of real time.
6. **Port connections.** `PortConnections` is the union-find over extracted resistors with both forms of `root`.

`Prelude`, `Contents`, `Graphs` and `Cards` hold shared definitions.

Where the code does not do what one would expect, the code is kept and the exact condition is proved:

- The score can be zero while the runner reports an evaluator error: a rejected observation next to one without a value
  makes the metric "error" or "blocked" for the runner, but the score counts the rejection. `Verdicts.RejectionAgreesExactly`
  says when score and outcome agree; `CornerRun.HiddenRejectionExample` is a run of an accepted plan where they do not.
- A waveform that is still outside its tolerance band at the end of the window is reported as settling exactly there, like
  one that reaches the edge of the band only there; `Settling.SettlesAtStopExactly` says when the end is reported.
- The settlement deadline can exceed the solve deadline plus the command and settlement allowances, because beginning an
  operation reads the clock twice (`Budget.GapMatters`). A begin keeps that bound if and only if its allowance, counted
  from the second reading, ends within the solve deadline plus the command limit; for a begin without a request, if and
  only if the second reading is not after the solve deadline (`Budget.BoundExactly`). A run keeps the bound at every point
  if and only if all its begins do (`Budget.SettlementWithinExactly`). An operation deadline of exactly zero counts as
  absent, which matters only before time zero (`Budget.EndMovesLaterExactly`).
- A closing session can come to rest without having been told to close (`Lifecycle.FailureForgets`). It does if and only
  if the last close request that was sent failed (`Lifecycle.CloseIsSentExactly`), and closing again then suffices
  (`Lifecycle.RetryCloses`).
- Running the retention transaction again does not always finish it: an archive whose result lists a file that the first
  run leaves out is refused from then on (`Compaction.RefusedExample`). Once an archive has been accepted, a later run
  with enough disk operations completes if and only if nothing that its result lists was left out, and nothing that a
  report refers to was left out without that report's own leave (`Compaction.Archives.Finish`).

## Model

| member | source | states |
|---|---|---|
| JobOrder.OrderJobs | benchmarking/evaluation/plans.py:21-61 | ordering succeeds exactly for resolvable references without a cycle; the result is a permutation with dependencies first, and both ancestor maps are the exact transitive closures |
| JobOrder.TopologicalIsAcyclic | benchmarking/evaluation/plans.py:44-61 | a graph whose jobs can be placed after their dependencies has no cycle |
| JobOrder.StuckMeansCycle | benchmarking/evaluation/plans.py:44-50 | when no pending job is ready, some job depends on itself |
| JobOrder.ClosureStep | benchmarking/evaluation/plans.py:51-60 | a job's dependencies together with their ancestors are exactly its transitive ancestors |
| JobOrder.PlaceRound | benchmarking/evaluation/plans.py:51-60 | placing one round of ready jobs keeps the order and both closures exact |
| SourceGraph.ValidateSourceGraph | benchmarking/evaluation/plans.py:64-99 | accepts exactly the frozen graphs that are fully identified, bound to each other and acyclic; the recursion terminates |
| SourceGraph.Visitor.Visit | benchmarking/evaluation/plans.py:68-96 | the recursive visit keeps finished nodes bound and ranked below their consumers, and refuses only what the specification refuses |
| SourceGraph.Visitor.VisitInputs | benchmarking/evaluation/plans.py:82-92 | every job input visited is produced by a finished source with the recorded digest |
| SourceGraph.ConsumesCircuitEventually | benchmarking/evaluation/plans.py:81-94 | every accepted source transitively consumes a declared circuit input |
| SourceGraph.OrderedJobsResolve | benchmarking/evaluation/plans.py:21-43 | candidate jobs that ordering accepts give every job input an existing producer and output, as pairing expects |
| SourceGraph.MatchedPairsAgree | benchmarking/evaluation/plans.py:102-128 | a matched source and candidate compute the same outputs for arbitrary deterministic operations when each substituted extraction equals the circuit it replaces |
| SourceGraph.MatchedInputAgrees | benchmarking/evaluation/plans.py:109-127 | corresponding inputs of a matched pair carry the same content |
| SourcePairs.MatchesExactly | benchmarking/evaluation/plans.py:102-128 | a source matches a candidate if and only if some closed set of pairs has both: pairs of equal operation, parameters and roles whose inputs are a circuit and its extraction, outputs of one name and format of paired producers, or the same reference |
| SourcePairs.ClosedMatches | benchmarking/evaluation/plans.py:102-128 | every pair in a closed set is accepted, through chains of producers of any length |
| GateSafety.EdgesPlaced | benchmarking/evaluation/plans.py:52-60 | making dependencies explicit and reordering keeps the dependency graph |
| GateSafety.ModeExactly | benchmarking/evaluation/plans.py:395-422 | validation accepts a mode if and only if the dependency graph has one gate of each kind on the candidate, every extraction behind all gates, and an extraction behind every simulation of every performance observation |
| GateSafety.ExtractionAfterGates | benchmarking/evaluation/plans.py:395-422 | in every run of an accepted post-layout plan an extraction is attempted only after the artifact, DRC and LVS gates passed |
| GateSafety.PerformanceFromExtraction | benchmarking/evaluation/plans.py:395-422 | a performance observation with a value descends from a passed extraction of the candidate |
| GateSafety.AcceptedInputsDeclared | benchmarking/evaluation/plans.py:313-349 | in an accepted plan every declared input is provided or produced by an ordered job |
| Runner.ExecuteJobs | benchmarking/evaluation/runner.py:66-126 | for any positive capacities, batched execution has the results of one-at-a-time execution, calls each unblocked job once in plan order and no blocked one, in batches of one backend within its capacity; every result and every available input is explained by the final results alone |
| Runner.RunIsExplained | benchmarking/evaluation/runner.py:86-126 | a job with an unmet need is blocked, one with a missing input is an error, and any other has the judged result of one call on the map that gives each of its roles, and nothing else, the external asset or the final output that its reference names |
| Runner.ExplainedOnce | benchmarking/evaluation/runner.py:66-126 | a plan has only one run that is explained in this way |
| Runner.OrderImmaterial | benchmarking/evaluation/runner.py:66-126 | the same jobs in any order that respects their needs have the same results |
| Runner.AssetsMeant | benchmarking/evaluation/runner.py:93-104 | at every point of a run the available inputs are the external ones and the outputs recorded so far |
| Runner.CollectBatch | benchmarking/evaluation/runner.py:113-119 | the batch is of one backend, within its capacity, all its jobs are ready, and it could not be longer |
| Runner.RunBatch | benchmarking/evaluation/runner.py:120-126 | running a batch on the inputs known at its start equals running its jobs one after another |
| Runner.EarlyExecution | benchmarking/evaluation/runner.py:113-126 | a job whose dependencies passed computes the same result before as after the jobs that precede it in the batch |
| Runner.Execute | benchmarking/evaluation/runner.py:39-63 | whatever a backend returns, the recorded result is valid or an error |
| Runner.FinalResult | benchmarking/evaluation/runner.py:184-201 | the final result of a job is its execution on the final assets, or blocked |
| Runner.BlockedExactly | benchmarking/evaluation/runner.py:104-112 | a job is blocked exactly when some ancestor failed or errored |
| Runner.PassedAncestors | benchmarking/evaluation/runner.py:104-112 | every ancestor of a job that was not blocked has passed |
| Runner.InputsAlwaysFound | benchmarking/evaluation/runner.py:93-93 | a job that is executed finds every declared input among the assets |
| Quality.DegradationPlain | benchmarking/evaluation/scoring.py:88-101 | the overflow-safe degradation form equals budget over budget plus loss |
| Quality.SaturatingPlain | benchmarking/evaluation/scoring.py:113-117 | the overflow-safe saturating form equals the plain bounded ratio, and fails exactly on a negative observation or anchor |
| Quality.TargetPlain | benchmarking/evaluation/scoring.py:102-103 | the distance rule: quality times scale plus distance is the scale |
| Quality.Db20Decade | benchmarking/evaluation/scoring.py:104-106 | in decibels, a value that is better by twenty has ten times the quality |
| Quality.RatioPlain | benchmarking/evaluation/scoring.py:118-124 | the ratio rule fails exactly on a negative observation or anchor, or when the denominator's observation is zero and there is no scale; otherwise it is the quotient of offset observations in the improving direction |
| Quality.QualityAtAnchor | benchmarking/evaluation/scoring.py:82-127 | every normalization is 1 at the declared target, or at the baseline when none is declared |
| Quality.QualityMonotone | benchmarking/evaluation/scoring.py:82-127 | moving an observation in its improving direction never lowers its quality |
| Quality.QualityNonnegative | benchmarking/evaluation/scoring.py:125-127 | every quality is nonnegative |
| Scoring.ScoreLayout | benchmarking/evaluation/scoring.py:220-295 | the loop that fills the score computes the score specification, including every early return and the area that is shown then |
| Scoring.GatherStops | benchmarking/evaluation/scoring.py:254-276 | the first metric without a finite quality ends the loop, and what was collected before it is what is shown |
| Scoring.GatherCollects | benchmarking/evaluation/scoring.py:254-276 | the score has a value's factors exactly when the loop went through all metrics |
| ScoreFormula.ScoreInClosedForm | benchmarking/evaluation/scoring.py:253-306 | a fully scored report is worth 100 times the weighted geometric mean of the credited qualities, each with its own metric's weight: the least paired quality of every metric with a baseline, and target over area; the electrical part likewise; a zero quality with positive weight makes both zero |
| ScoreFormula.ScoredExactly | benchmarking/evaluation/scoring.py:220-295 | a report has a score that is not a rejection's if and only if every job passed, every observation is measured within its bounds, the area is positive and every paired quality exists |
| ScoreFormula.RejectedExactly | benchmarking/evaluation/scoring.py:34-59 | the gate is zero if and only if a job failed or a measured value is outside its metric's bounds |
| Verdicts.ObservationsAgree | benchmarking/evaluation/runner.py:203-219 | the runner and the score read every observation of a finished run alike |
| Verdicts.OutcomeExactly | benchmarking/evaluation/runner.py:203-256 | the outcome is failed for a failed job or a metric with values only and one out of bounds, otherwise an error for a job in error or an unmeasured observation, and passed if and only if every job passed and every observation is measured within bounds |
| Verdicts.ZeroGateExactly | benchmarking/evaluation/scoring.py:34-59 | the gate is zero exactly for a failed job or a failed observation, and the score is zero then |
| Verdicts.FailedOutcomeScoresZero | benchmarking/evaluation/scoring.py:220-253 | a failed outcome forces score 0 with gate 0 |
| Verdicts.RejectionAgreesExactly | benchmarking/evaluation/runner.py:220-223 | score and outcome agree on rejection if and only if no rejected observation stands next to one without a value |
| CornerRun.HiddenRejectionExample | benchmarking/evaluation/runner.py:220-223 | a complete run of an accepted plan with valid results that scores zero although its outcome is an evaluator error |
| CornerRun.PlanAccepted | benchmarking/evaluation/plans.py:395-422 | that run's plan has the three gates, one extraction and metrics traced to it, and is accepted |
| CornerRun.PlanScored | benchmarking/evaluation/plans.py:286-308 | its area metric comes from the one candidate constraint check, and its scored metrics have baselines |
| CornerRun.BaselinesMatch | benchmarking/evaluation/plans.py:102-128 | its frozen baselines are matched sources of its simulations |
| Verdicts.PositiveScoreMeansPassed | benchmarking/evaluation/scoring.py:220-295 | a positive score implies that every job and every metric passed |
| Verdicts.TaskSuccessFollowsOutcome | benchmarking/evaluation/runner.py:240-265 | the reported task success is false, true or unknown exactly as the final outcome, after scoring, is failed, passed or neither; true implies physical validity and a score, false implies score zero |
| ScoreOrder.MeanBounded | benchmarking/evaluation/scoring.py:298-306 | the weighted geometric mean of values in 0..1 is in 0..1 |
| ScoreOrder.MeanMonotone | benchmarking/evaluation/scoring.py:298-306 | the weighted geometric mean is monotone in every value |
| ScoreOrder.ScoreBounded | benchmarking/evaluation/scoring.py:220-295 | every score lies between 0 and 100 |
| ScoreOrder.PassedIsScored | benchmarking/evaluation/runner.py:260-265 | a final outcome of passed carries a score in 0..100 |
| ScoreOrder.ScoreMonotone | benchmarking/evaluation/scoring.py:253-306 | between two fully scored reports, moving measurements in their improving direction never lowers the score |
| ScoreOrder.ReferenceScoresFull | benchmarking/evaluation/scoring.py:220-295 | a fully scored report at the reference points scores exactly 100 |
| PortConnections.Parents.RootHalving | benchmarking/eda/_scripts/magic_netlist.py:19-24 | path halving terminates, returns the class's root and keeps the partition |
| PortConnections.Parents.RootCompressing | benchmarking/eda/_scripts/magic_netlist.py:53-57 | recursive path compression terminates, returns the class's root and keeps the partition |
| PortConnections.Parents.Join | benchmarking/eda/_scripts/magic_netlist.py:31-31 | linking two roots joins exactly their two classes |
| PortConnections.TracksJoin | benchmarking/eda/_scripts/magic_netlist.py:26-31 | joining the ends of a resistor adds exactly that wire to reachability |
| PortConnections.JoinDevices | benchmarking/eda/_scripts/magic_netlist.py:26-31 | after all devices the partition is reachability along the resistors, for any devices in any order |
| PortConnections.ResistivePortConnections | benchmarking/eda/_scripts/magic_netlist.py:15-35 | returns exactly the port pairs joined by a path of resistors |
| PortConnections.HasAliasedPorts | benchmarking/eda/_scripts/magic_netlist.py:51-69 | two ports share a root exactly when a path of zero-ohm resistors joins them |
| PortConnections.AcceptInterface | benchmarking/eda/_scripts/magic_netlist.py:47-87 | accepts exactly the nonempty circuits with the declared ports in order that, when aliases are to be rejected, have a topology without aliased ports and introduce no resistive connection |
| Waveforms.InterpIsLine | benchmarking/eda/backends/spectre.py:114-118 | between two samples the interpolant is the line through them, also at the samples |
| Waveforms.InterpAffine | benchmarking/eda/backends/spectre.py:114-118 | within one interval the interpolant between two times is the line between its values there |
| Waveforms.AreaBounded | benchmarking/eda/backends/spectre.py:120-121 | the trapezoid area lies between the bounds of the interpolant times the width |
| Settling.MeanIsExact | benchmarking/eda/backends/spectre.py:120-121 | the final value times the window lies between the lower and upper sum of every partition of the window |
| Settling.AlwaysSqueezed | benchmarking/eda/backends/spectre.py:114-121 | the interpolant has partitions whose upper and lower sums are arbitrarily close |
| Settling.MeanIsIntegral | benchmarking/eda/backends/spectre.py:120-121 | a number lies between all lower and upper sums if and only if it is the final value times the window: that is the integral of the interpolant |
| Settling.LastBandEntry | benchmarking/eda/backends/spectre.py:122-131 | the loop finds the exact last band entry over all real times up to the end of the window |
| Settling.LastEntryUnique | benchmarking/eda/backends/spectre.py:122-131 | there is only one last entry |
| Settling.CrossingFacts | benchmarking/eda/backends/spectre.py:129-131 | the interpolated crossing separates the times outside the band from those inside |
| Settling.SettleStep | benchmarking/eda/backends/spectre.py:126-131 | one step of the loop keeps the exact last entry |
| Settling.UnsettledEndsAtStop | benchmarking/eda/backends/spectre.py:127-128 | a waveform that ends outside the band is reported at the end of the window, and one that is reported there is not inside the band |
| Settling.SettlesAtStopExactly | benchmarking/eda/backends/spectre.py:126-131 | the end of the window is reported if and only if the waveform is outside the band there, or its last step comes from outside and ends on the edge of the band that it comes from |
| Settling.EdgeIsRising | benchmarking/eda/backends/spectre.py:104-106 | a listed edge time is where the interpolated clock first meets the threshold in its interval |
| Settling.EdgesRise | benchmarking/eda/backends/spectre.py:104-106 | every listed edge is a rising edge |
| Settling.EdgeIndexed | benchmarking/eda/backends/spectre.py:104-110 | the edge with an index is the edge of the interval that many rising intervals precede |
| Settling.TransientMeasurements | benchmarking/eda/backends/spectre.py:84-133 | succeeds exactly on measurable input, and then reports the mean and the exact last entry after the chosen edge |
| Netlists.HoldsAgree | benchmarking/eda/backends/ngspice.py:20-26 | an element's law depends only on the voltages and currents it sees |
| BranchResistors.Rewrite | benchmarking/eda/backends/ngspice.py:27-51 | accepts exactly the netlists whose resistor cards are supported and collide with no name, and reports the first card that is not |
| BranchResistors.Preserved | benchmarking/eda/backends/ngspice.py:47-48 | card by card the rewritten netlist has the same laws and takes the same current from every node |
| BranchResistors.BranchLaws | benchmarking/eda/backends/ngspice.py:43-48 | in any solution of the rewritten netlist sensor and source carry one current that obeys Ohm's law |
| BranchResistors.SolutionExtends | benchmarking/eda/backends/ngspice.py:20-51 | every solution of the original netlist extends to one of the rewritten netlist |
| BranchResistors.ExtensionUnique | benchmarking/eda/backends/ngspice.py:20-51 | that extension is unique on the generated nodes and elements |
| BranchResistors.SolutionRestricts | benchmarking/eda/backends/ngspice.py:20-51 | every solution of the rewritten netlist restricts to one of the original |
| BranchResistors.FreshNames | benchmarking/eda/backends/ngspice.py:43-46 | the collision check keeps generated names apart from every name in the text |
| Multiport.SpiceMultiport | benchmarking/eda/_scripts/substrate.py:296-335 | accepts exactly the netlists that avoid the reserved namespace, match the interface and bind every device, and puts every line in its place; otherwise the first refused line decides the error |
| Multiport.DerivedLaidOut | benchmarking/eda/_scripts/substrate.py:308-333 | the derived netlist has, in order and nothing else, one card for every line with everything inserted before an end: a header keeps its first two fields and gets the declared ports in declared order in its own last spelling, a primitive goes to the last device of its number on that rail and model, any other line is copied |
| MultiportMeaning.ConnectedInOrder | benchmarking/eda/_scripts/substrate.py:310-314 | a caller that connects to a derived header by position is connected to the nodes of the declared ports in the declared order |
| Multiport.Emission | benchmarking/eda/_scripts/substrate.py:308-332 | a line is accepted exactly when its header matches or its primitive binds, and the error names which of the two failed |
| MultiportMeaning.StampedExactly | benchmarking/eda/_scripts/substrate.py:321-331 | the solutions of the derived netlist are exactly the states with V_body(i) - V_rail(i) equal to the sum of Z[i][j] I(j), body currents returned at the rails, and all generated nodes and currents determined |
| MultiportMeaning.EquationExtends | benchmarking/eda/_scripts/substrate.py:296-335 | any voltages and currents satisfying the impedance equation extend to the generated nodes |
| MultiportMeaning.ExtensionUnique | benchmarking/eda/_scripts/substrate.py:296-335 | that extension is the only one |
| MultiportMeaning.BalanceMeansOneCurrent | benchmarking/eda/_scripts/substrate.py:322-331 | current balance at the generated nodes is the same as one common current per chain and driven injection sensors |
| MultiportMeaning.ChainMeansEquation | benchmarking/eda/_scripts/substrate.py:322-327 | the laws of a chain are the impedance equation together with the potential of every chain node |
| MultiportNames.NodesApart | benchmarking/eda/_scripts/substrate.py:302-303 | with the reserved text excluded, distinct nodes have distinct names |
| MultiportNames.NamesApart | benchmarking/eda/_scripts/substrate.py:302-303 | with the reserved text excluded, distinct elements have distinct names |
| Budget.CommandTimeout | benchmarking/execution/budgets.py:41-47 | the least given allowance, none when none is given, an error for a nonpositive one |
| Budget.SessionBudget.BeginOperation | benchmarking/execution/budgets.py:59-68 | starts an operation only while solving and with none active, and leaves the state alone otherwise |
| Budget.SessionBudget.EndOperation | benchmarking/execution/budgets.py:70-75 | records the end, the earlier of the clock and the operation's deadline, and does nothing without an operation |
| Budget.SessionBudget.ReadPhase | benchmarking/execution/budgets.py:84-91 | solving exactly before the solve deadline, draining exactly while an operation runs past it whose deadline is absent or ahead; settling and expired only with a settlement deadline, and expired exactly when an existing one has passed |
| Budget.PhaseNeverGoesBack | benchmarking/execution/budgets.py:50-91 | over any run with a nondecreasing clock the phase never goes back through solving, draining, settling, expired |
| Budget.SettlementNeverMovesLater | benchmarking/execution/budgets.py:77-82 | after the solve deadline no call moves a finite settlement deadline later |
| Budget.EndMovesLaterExactly | benchmarking/execution/budgets.py:70-82 | ending moves the settlement deadline later if and only if the operation's deadline is zero and clock and solve deadline are before zero |
| Budget.SettlementBounded | benchmarking/execution/budgets.py:59-82 | with a command limit the settlement deadline exists and is at most solve deadline, command, settlement and the largest gap between two clock readings together |
| Budget.BoundExactly | benchmarking/execution/budgets.py:59-68 | a begin keeps the bound of the three allowances if and only if its allowance fits from the second clock reading; without a request, if and only if that reading is not after the solve deadline |
| Budget.SettlementWithinExactly | benchmarking/execution/budgets.py:59-82 | the bound of the three allowances holds at every point of a run if and only if every begin that is carried out fits |
| Budget.GapMatters | benchmarking/execution/budgets.py:60-65 | a begin past the solve deadline that it was checked against does not fit and breaks the bound |
| JournalText.ReadJournal | benchmarking/evidence/journal.py:33-59 | reading succeeds exactly if the finished lines are events numbered from one and nothing unfinished follows unless allowed, and gives those events |
| JournalText.ReadsWritten | benchmarking/evidence/journal.py:42-59 | reading gives exactly the events on finished lines and nothing from an unfinished one |
| JournalText.CutFramed | benchmarking/evidence/journal.py:137-141 | cutting the bytes anywhere leaves whole events and the rest of one line |
| Journal.RunRecorder.Event | benchmarking/evidence/journal.py:129-145 | an acknowledged event is the next number with the given kind and data, on a whole durable line; an error stops later writes |
| Journal.RunRecorder.Archive | benchmarking/evidence/journal.py:115-120 | an artifact is stored under its digest once, and a failed store stops later writes |
| Journal.RunRecorder.Submit | benchmarking/execution/workspace/protocol.py:163-181 | the candidate is stored before its submission is recorded, and the event says what was submitted |
| Journal.SubmissionRecorded | benchmarking/execution/workspace/protocol.py:163-181 | an acknowledged submission is the next event, with the operation's number, key, accepted flag and the candidate's identity and path, and the candidate is stored |
| Journal.RunRecorder.Finish | benchmarking/evidence/journal.py:148-155 | the end is recorded, the report is saved with the identity of the journal's exact bytes, then the recorder closes |
| Journal.RunRecorder.Reopen | benchmarking/evidence/journal.py:75-102 | resuming archives, truncates and records in that order, and gives no recorder if any of it fails |
| Journal.StepKeeps | benchmarking/evidence/journal.py:104-145 | every operation, error and crash keeps acknowledged events durable at their numbers |
| Journal.JournalReadsBack | benchmarking/evidence/journal.py:33-145 | after any run the journal reads back as events 1..n containing every acknowledged event in order |
| Journal.TailIsArchived | benchmarking/evidence/journal.py:94-102 | resuming stores the discarded tail verbatim, and whatever fails the tail is not lost |
| Journal.ClosedJournalIsBound | benchmarking/evidence/journal.py:148-155 | a closed recorder's report identifies the journal's exact bytes |
| Journal.RecoverSubmissions | benchmarking/evidence/journal.py:158-182 | succeeds exactly when the journal reads and every accepted submission names, by a well-formed digest, an artifact with its identity; returns the last accepted candidate |
| Journal.RecoveryFindsLast | benchmarking/evidence/journal.py:158-182 | after any run recovery succeeds and its candidate is at or after every acknowledged accepted submission |
| Omissions.ProcessOmissions | benchmarking/results/retention.py:101-130 | returns exactly the temporary attachments of a fully passed check that are never also plan, input or other evidence |
| Retention.ReadFile | benchmarking/results/retention.py:61-79 | the walk over parent directories reads the nearest manifest that lists the path, omissions first |
| Retention.IntactIsSafe | benchmarking/results/retention.py:61-79 | in an intact state every original path gives its bytes, or is unavailable and then listed as omitted and allowed by its check |
| Retention.LinkKeeps | benchmarking/results/retention.py:318-327 | linking a verified object keeps every file readable |
| Retention.CommitKeeps | benchmarking/results/retention.py:334-334 | replacing a manifest by a truthful one that lists all the old one did keeps every file readable |
| Retention.UnlinkKeeps | benchmarking/results/retention.py:337-341 | removing a listed original keeps every file readable |
| Retention.ReadsWithoutParents | benchmarking/results/retention.py:241-267 | an independent archive reads the same with all its parents' manifests and objects gone |
| Compaction.Archives.Prunable | benchmarking/results/retention.py:133-144 | fails exactly on an unusable report of an unpinned check; otherwise exactly the omittable attachments of unpinned checks, with the recorded identities |
| Compaction.Archives.Inventory | benchmarking/results/retention.py:147-179 | every visible file and no other, each left out, compressed or kept as its name, size and report say |
| Compaction.Archives.Inherit | benchmarking/results/retention.py:241-267 | everything that a parent lists below the archive is listed by it with its object, and what is omitted is decided by the nearest that lists it |
| Admission.ValidateSources | benchmarking/results/retention.py:182-218 | succeeds exactly when everything that the result lists can be read, and every report's references are files of the recorded size, retained, or left out with that report's own leave |
| Admission.AdmittedAgain | benchmarking/results/retention.py:182-218 | an archive admitted once is admitted after later removals if and only if nothing referred to was left out without leave |
| Compaction.Archives.VerifyArchive | benchmarking/results/retention.py:221-238 | true exactly when every listed object verifies and every remaining original is the recorded one |
| CompactionSpec.IntactVerifies | benchmarking/results/retention.py:221-238 | in an intact state verification cannot fail |
| CompactionSpec.CommittedIndependent | benchmarking/results/retention.py:241-267 | with everything inherited the committed manifest needs no parent |
| CompactionSpec.TakesNoMore | benchmarking/results/retention.py:241-267 | after a commit, taking over from the parents again changes neither what is listed nor what is omitted |
| CompactionSpec.RunsAgain | benchmarking/results/retention.py:270-276 | after runs stopped anywhere, an acceptable archive is acceptable again if and only if nothing referred to was left out without leave, and always if nothing of that kind was to be left out |
| Compaction.Archives.Stage | benchmarking/results/retention.py:276-327 | staging removes nothing and commits nothing; with enough disk operations it succeeds exactly for acceptable archives, and the staged manifest lists every candidate and large file and no pinned check |
| Compaction.Archives.RemoveListed | benchmarking/results/retention.py:335-342 | removes only what the manifest lists, all of it unless it is stopped, which needs fewer disk operations than there are files |
| Compaction.Archives.Compact | benchmarking/results/retention.py:270-342 | at whatever disk operation a run stops every file stays safe; with enough disk operations it completes exactly for acceptable archives and changes nothing but objects otherwise; a completed run leaves nothing listed behind and an independent archive |
| Compaction.Archives.CompactAll | benchmarking/results/retention.py:270-276 | any sequence of interrupted and repeated runs over any archives keeps every original file safe |
| Compaction.Archives.Finish | benchmarking/results/retention.py:270-276 | a transaction that is interrupted any number of times and run again completes if and only if nothing that the records refer to had been left out without leave |
| Compaction.RefusedExample | benchmarking/results/retention.py:182-191 | an archive whose first run completes and whose next run is refused, because its result lists the log that was left out |
| SessionService.Controller.Write | benchmarking/service/controller.py:107-141 | a file write is replayed, pending, refused, or puts its bytes at its path and nowhere else and starts a snapshot with the receipt in it |
| SessionService.Controller.Execute | benchmarking/service/controller.py:446-490 | a command is replayed, refused, or started with its receipt saved |
| SessionService.Controller.SubmitCandidate | benchmarking/service/controller.py:434-444 | a submission is journalled once per key, then projected, remembered and saved, and the caller gets the receipt that was saved or is replayed |
| SessionService.Controller.Completed | benchmarking/service/controller.py:464-476 | the end of a command starts a snapshot with the result in it |
| SessionService.Controller.Report | benchmarking/service/controller.py:479-482 | a command whose snapshot failed is shown as an error |
| SessionService.Controller.TakeSnapshot | benchmarking/service/checkpoints.py:38-53 | the snapshot becomes durable with the frozen record, or the session is marked |
| SessionService.Controller.CleanUp | benchmarking/service/state.py:48-53 | an error after the manifest is durable marks the record without its commit, saved or not |
| SessionService.Controller.ApplyCommit | benchmarking/service/checkpoints.py:41-44 | the commit reaches the current record only after the checkpoint is durable |
| SessionService.Controller.Recover | benchmarking/service/state.py:128-186 | the reconciler with its loops computes the restart step |
| SessionService.RestoreCheckpoint | benchmarking/service/state.py:152-170 | commands beyond the checkpoint become rolled-back errors and their receipts are kept |
| SessionService.ProjectJournal | benchmarking/service/state.py:98-117 | journalled submissions are projected in order and no receipt is replaced |
| ServiceSteps.WriteKeeps | benchmarking/service/controller.py:137-141 | a started write keeps workspace, frozen record and receipts matched |
| ServiceSteps.ExitKeeps | benchmarking/service/controller.py:464-474 | a command's end meets no snapshot in progress, and its snapshot matches its effects |
| ServiceSteps.SnapshotKeeps | benchmarking/service/state.py:29-53 | a committed checkpoint has exactly the receipts of the effects in it |
| ServiceSteps.ApplyFailsKeeps | benchmarking/service/checkpoints.py:41-53 | a failure to save after the checkpoint is durable loses and duplicates nothing |
| ServiceSteps.FailKeeps | benchmarking/service/checkpoints.py:45-53 | an error before the commit, whether or not the marked record can be saved, loses and duplicates nothing |
| ServiceSteps.DirectKeeps | benchmarking/execution/workspace/protocol.py:157-181 | a submission from the container without a key adds its event and changes no receipt |
| ServiceRecovery.ReconciledDisk | benchmarking/service/state.py:128-186 | reconciling keeps everything durable in line |
| ServiceRecovery.StepKeeps | benchmarking/service/controller.py:107-148 | every locked step, crash and restart keeps the invariant |
| ServiceRecovery.AlwaysSafe | benchmarking/service/controller.py:107-148 | every state of every run satisfies the invariant |
| ServiceGuarantees.RestoredExactly | benchmarking/service/state.py:149-186 | the effects in a resumed session are exactly the writes it has receipts for, no command is running, and every receipted command has its effects or was rolled back without any |
| ServiceGuarantees.AtMostOnce | benchmarking/service/controller.py:107-148 | in the surviving history every write and command end occurs at most once, and the journal has every key once |
| ServiceGuarantees.ReplaysAgree | benchmarking/service/controller.py:114-118 | two replays for one request agree in body and response, across crashes |
| ServiceGuarantees.ServedIsSaved | benchmarking/service/controller.py:107-148 | whoever gets a final success, carried out or replayed, finds its receipt saved at once |
| ServiceGuarantees.ResponsesAgree | benchmarking/service/controller.py:107-148 | any two final successes that callers get for one request, carried out or replayed and across crashes, agree in body and response |
| ServiceGuarantees.CarriedOutOnce | benchmarking/service/controller.py:107-148 | once a request has been carried out and answered, no later request with its key is carried out |
| ServiceGuarantees.OneCommandPerKey | benchmarking/service/controller.py:446-490 | a key starts at most one command, and every later success for the key names that one |
| ServiceGuarantees.NeverTwice | benchmarking/service/controller.py:114-136 | after a final success the operation is never carried out again |
| ServiceGuarantees.AnsweredWritesSurvive | benchmarking/service/checkpoints.py:29-45 | an answered write took effect in every later checkpoint |
| ServiceGuarantees.RebuiltReceiptsAreCached | benchmarking/service/state.py:98-117 | the submission receipt rebuilt from the journal is the one cached online |
| ServiceGuarantees.ReconcileGrows | benchmarking/service/state.py:149-186 | a restart keeps every saved receipt on every route |
| ServiceGuarantees.SnapshotNeverInProgress | benchmarking/service/checkpoints.py:31-32 | while a command runs no snapshot is under way |
| ServiceFiles.WriteLands | benchmarking/service/controller.py:427-432 | a file write that goes ahead leaves its bytes at its path and every other path as it was |
| ServiceFiles.FilesFollowed | benchmarking/service/controller.py:107-148 | in every run, with crashes and restarts, the workspace and the checkpoint hold exactly the files that following the steps gives, each a map that is updated, replaced, copied or lost |
| ServiceFiles.JournalFollowed | benchmarking/service/controller.py:434-444 | in every run the journal grows by exactly the accepted new submissions, each with the next number, its key and the bytes that are at the output path when the steps are followed |
| ServiceFiles.SubmissionAnswered | benchmarking/service/controller.py:434-444 | a submission that goes ahead is answered with the journalled one of its key or the one of the current output, and refused if and only if there is neither |
| ServiceFiles.LastTouchDecides | benchmarking/service/controller.py:427-432 | a path holds what the last effect that touches it left there |
| ServiceFiles.RestoredFiles | benchmarking/service/state.py:149-186 | a resumed session holds the checkpoint's files, with exactly the bytes of every receipted write whose path no later effect touches |
| ServiceFiles.AnsweredBytesKept | benchmarking/service/checkpoints.py:29-45 | the bytes of an answered write are in the files of every later checkpoint until a later effect touches their path |
| ServiceReplies.ReplayAnswered | benchmarking/service/controller.py:107-118 | a request once answered with success is answered so again by every later service that runs and has no failed snapshot |
| ServiceReplies.ProceedsExactly | benchmarking/service/controller.py:107-136 | a request with a new key is carried out if and only if the session is usable and no snapshot or command is under way, and is pending exactly if its own write is being committed |
| ServiceReplies.ConflictRefused | benchmarking/service/controller.py:107-118 | a key that was used with another body is refused in every state |
| ServiceReplies.WriteCompletes | benchmarking/service/controller.py:107-148 | a write that goes ahead is pending until its snapshot is applied, and then answered with its path and bytes |
| ServiceReplies.CommandCompletes | benchmarking/service/controller.py:446-490 | a command that goes ahead is shown running, and after its end and snapshot by its exit code, with its files in the checkpoint |
| ServiceReplies.TakesRequestsAgain | benchmarking/service/checkpoints.py:41-53 | when the snapshot thread is done every request with a new key goes ahead |
| ServiceReplies.ShutForGood | benchmarking/service/controller.py:119-136 | once a session is closed or its record is reported, nothing new is ever carried out, across crashes and restarts |
| ServiceReplies.BrokenUntilRestart | benchmarking/service/checkpoints.py:45-53 | after a failed snapshot every request is refused until the service is started again |
| ServiceReplies.EndedUntilRestart | benchmarking/service/controller.py:119-136 | after the workspace has ended nothing is carried out and no checkpoint is taken until the service is started again |
| ServiceReplies.RestartListsAll | benchmarking/service/state.py:98-117 | a restart lists exactly the journalled submissions, each at its number |
| ServiceReplies.RestartShows | benchmarking/service/state.py:128-186 | a session resumes if and only if it is neither reported nor closed and has a checkpoint; it is then usable and names exactly the lost commands, and any other unreported session is marked interrupted with its running commands in error |
| ServiceIdempotence.ReconcileIsIdempotent | benchmarking/service/state.py:128-186 | in every reachable state reconciling twice is reconciling once |
| Lifecycle.AtMostOneClose | benchmarking/service/supervisor.py:191-219 | over all interleavings at most one close request succeeds |
| Lifecycle.CloseIsSentExactly | benchmarking/service/supervisor.py:181-219 | a session at rest that is closing with its workspace active has been told to close, once, if and only if the last close request that was sent did not fail |
| Lifecycle.NeverInProgress | benchmarking/service/checkpoints.py:29-32 | the error for a snapshot already in progress is unreachable |
| Lifecycle.FailureForgets | benchmarking/service/supervisor.py:208-219 | a failed close request can leave a session at rest and unclosed |
| Lifecycle.RetryCloses | benchmarking/service/supervisor.py:208-219 | from any reachable state at rest after a failed request, closing again tells the session once |
| Lifecycle.CloseWaits | benchmarking/service/supervisor.py:181-206 | a close request is started only by a closing session that shows no running command |
| Lifecycle.ClosingStays | benchmarking/service/controller.py:410-419 | once a session is closing or its workspace has ended, no command and no write starts any more |
| Lifecycle.StepKeeps | benchmarking/service/controller.py:155-166 | every locked block keeps somebody responsible for an unsent close |
| Lifecycle.SessionControl.CloseNow | benchmarking/service/controller.py:414-419 | an idle session is told to close at once |
| Lifecycle.SessionControl.FinishDeferred | benchmarking/service/supervisor.py:191-206 | the last block of a command's thread sends the close that waited for it |
| Lifecycle.AttachedOrAbandoned | benchmarking/service/supervisor.py:82-121 | startup ends with the workspace attached or abandoned, never both |
| Lifecycle.AttachedExactly | benchmarking/service/supervisor.py:82-121 | the workspace is attached if and only if attaching succeeds before the caller stops waiting |
| Lifecycle.VerdictStays | benchmarking/service/supervisor.py:113-121 | what the waiting caller was told stays true |

## Left out

- Multiport.SpiceMultiport: every way in which a primitive card cannot be bound is one error value, because the original
  raises different exceptions without different consequences; the meaning is proved for netlists with one `.ends`.
- Runner.ExecuteJobs: backends do not see deadlines or cancellation, because both come from the caller's clock.
- Time, time zones and elapsed seconds in events, reports and receipts; a submission carries one opaque time stamp.
- HTTP framing, tokens, audit logs, deadlines of requests and the client's retry and polling loops: they only repeat a
  request with its key and body, which `ServiceGuarantees.CarriedOutOnce` and `ServiceGuarantees.ResponsesAgree` cover.
- Close and cancel receipts: a restart does not restore cancel receipts, and closing only sets a flag in the model.
- Errors while saving `http.json` outside the snapshot thread, and the failure of the container while a command starts.
- A renamed file is durable once the rename is visible; the separate directory synchronization is not a step.
- Fields of the session record that never change after creation (limits, token, identities), and their comparison on restart.
- Background processes that outlive their command: between two operations only the running command changes the workspace.
- Compaction.Archives.Compact: whether the archive's record is terminal is a parameter, because the record's text is not
  modelled; check and evaluation reports are always there to be read, because the model does not compress them.
- The retention walk's symbolic-link checks, terminal record identities, the shared object pool and its Zstandard
  encoding: an object is the content it decompresses to.
- Retired HTTP records, service-wide and tree-wide compaction: they call the modelled transaction once per archive.
- Digests are functions that tell contents apart; that they have 64 hexadecimal digits is required of the candidates that
  are submitted, where recovery checks it.
- Card text is already split into fields and numbers already read; names fold ASCII letters only. Resistance suffixes are
  part of the reading.
- Subcircuit hierarchy, directives and expressions that name nodes inside one field: a card sees only the fields it names.
- Dynamic elements appear through their law at one instant; noise is outside the model, as the original says.
- The numerical impedance, its mesh convergence and its text form; entries are reals.
- Floating-point rounding everywhere; logarithm, exponential and the power of ten are functions with the usual laws.
- The aggregate value shown for a metric, the attainments shown with a score, score dimensions, legacy scoring methods and
  statistics: the score uses none of them.
- Thread scheduling inside the evaluation pool, phase deadlines and cancellation, and native failure classification:
  backends are deterministic functions of a job and its inputs.
- Field validation of plans, metrics and scoring tables beyond what ordering, gates and scores rely on.
- Port pairs are unordered pairs of names rather than sorted tuples; layout reading and process calls are outside the model.
- Resistors with a bulk terminal join their first two nets only in the connection report; in the alias check the original
  would fail on them, and the model treats every resistor as two-terminal.
- `ac_measurements` and every other backend parser.
