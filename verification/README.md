# A verified model of runpod-jobrunner

`runpod-jobrunner` runs one paid job on a rented machine and promises to leave
nothing running and nothing unpaid for, whatever dies on the way. Three parties
keep durable journals: a local controller, a provider whose calls may have
unknown outcomes, and a remote runner. This project models them in Dafny and
proves what they promise over all runs, with process death between any two
durable writes.

`dafny verify dfyconfig.toml` checks the whole project.

## How it is built

- `Prelude`, `MapSums`: two result types, and sums over finite maps.
- `Journal`: the append-only text journal that controller and runner share, its
  repair of a torn tail, and exactly when a cut append is read back. `RunStore`
  is the store class over it, one character, one truncation or one file
  replacement at a time. `EventText` is the JSON line of an event and the codec
  made of it, which meets everything the store assumes.
- `LifecycleState` holds the seven-state machine as functions from a durable
  state and the provider's replies to a script of commits and provider calls.
  `LifecycleController` is the class that updates its state record step by step
  and commits it; every method is proved to perform a prefix of its script, and
  all of it when it returns. `ControllerRuns` shows that whatever such a call
  leaves behind is a reachable world of `LifecycleRuns`, and an honest run of
  `ClosedMeansGone` when the provider kept its contract in the turns it took.
- `LifecycleRuns`, `LifecycleSafety`, `LifecycleProgress`: worlds reached by
  any interleaving of calls, replies, provider drift and process death; what
  every reachable world satisfies; why deletion ends.
- `LifecycleAnswers`, `LifecycleEvidence`: for every answer the provider can
  give at a stage, what is durable afterwards and which calls were made; and,
  over whole runs, who said each thing that a durable state claims.
- `ClosedMeansGone`, `ClockLead`: the provider contract under which a closed
  run has no pod, and that the contract's clock clause cannot be relaxed.
- `Supervisor` is the drive loop as a machine of small steps, with operator
  stops, provider drift and restarts between any two; `SupervisorEngine` is the
  loop as written, proved to move along that machine, to take every turn it can
  and to stop early only for a stated reason.
- `RunnerTrace`, `RemoteRunner`: all effects of the remote runner over all its
  incarnations as one trace with rules, and the runner class proved to obey
  them. `LaunchBarrier` puts the controller's two publications beside it.
- `Glob`, `IncrementalManifest`, `IncrementalMirror`: discovery patterns,
  completion manifests, and the local mirror of remote checkpoints.
- `PlannedLifetime`, `Budget`, `MoneyBound`: the division that plans a run's
  lifetime, the ledger and admission, and what a scope can cost.
- `JsonNumbers`, `DecimalRounding`, `JsonStrings`, `CanonicalJson`,
  `CanonicalText`, `CanonicalTheorems`: the canonical encoder and what equal
  texts mean. `JsonReader` is a JSON reader that knows nothing of the encoder,
  and `CanonicalReading` proves what it reads in the encoder's texts.

Process death is a number of elementary steps that the process still lives to
complete (`fuse`, `lifetime`); a statement for every such number is a statement
for death at every point. Times are whole microseconds, money is a whole number
of units small enough to hold every amount exactly. SHA-256 is a function that
never collides.

## Where the code does less than it seems to

- A journal record holding U+0085, U+2028 or U+2029 is written raw
  (`ensure_ascii=False`) and then split by `str.splitlines`, so the journal can
  no longer be read. It fails closed. `EventText.StoreReadsBackIff` gives the
  exact condition on the events, and `EventText.StopReasonUnreadable` a run: an
  operator's stop whose reason holds U+2028.
- `closed` means gone only if, at the one observation that completes the absence
  window of an uncertain create, the controller's clock leads the provider's by
  no more than the five seconds of the window. `ClockLead.LeadIsExact` proves
  that the bound is exact.
- The canonical encoder rounds decimals to the 28 digits of the decimal
  context before printing, so two different amounts can share a hash.
  `CanonicalTheorems.RoundingCollides` says exactly which.
- A terminal record may be followed by a status with an earlier elapsed time,
  when the process dies between the record and its event.
  `RunnerTrace.TerminalElapsedKeptIff` and `TerminalElapsedSafeIff` say exactly
  when, and `RemoteRunner.RecordOutlivesItsTime` has two incarnations do it.
- A runner that is restarted once every phase is settled checks identity, stop,
  token and storage again before it concludes, so a run whose phases all
  succeeded can be recorded as failed. `RemoteRunner.SettledYetRefused` has it
  happen, and `RemoteRunner.SettledSucceeds` shows that a refusal is the only
  way, apart from artifacts that do not verify.
- The planned lifetime divides the cap by the rate in the 28-digit context, so
  a cap one digit longer than the context can be planned for a second it does
  not cover (`PlannedLifetime.RoundingOverspends`). `PlannedFits` shows that a
  cap of up to 23 digits, counted in the smallest unit of cap and rate, cannot,
  and `PlannedNearlyFits` bounds the excess of any cap by what two roundings
  can add.

## Model

| member | source | states |
|---|---|---|
| Journal.ReadBack | src/runpod_jobrunner/run_store.py:335-372 | reading the text of a record list plus an unterminated tail gives exactly the list, or refuses; it succeeds exactly when no record prints a raw line boundary and the tail is absent or recognised as torn |
| Journal.TornAppend | src/runpod_jobrunner/run_store.py:273-285 | what a partly written line leaves: the longer list, or the old one with a newline-free fragment of the document |
| Journal.AppendCutAnywhere | src/runpod_jobrunner/run_store.py:335-349 | an append cut after any character reads back as the new list, the old list, or not at all, with the exact condition for each; a whole document without its newline fails closed |
| Journal.RepairedText | src/runpod_jobrunner/run_store.py:343-350 | repair cuts back to the last newline when the fragment is torn and refuses otherwise |
| EventText.EventLineUnambiguous | src/runpod_jobrunner/run_store.py:239-249 | the line of an event determines the event and where the line ends |
| EventText.EventCodecValid | src/runpod_jobrunner/run_store.py:239-249 | the codec of real events meets every assumption the store makes about its codec, so stores, controllers and engines exist |
| EventText.StoreReadsBackIff | src/runpod_jobrunner/run_store.py:335-372 | the journal of a list of events reads back as the list exactly when no text in them holds a raw line boundary, and is refused otherwise |
| EventText.StopReasonUnreadable | src/runpod_jobrunner/run_store.py:351-356 | a stop whose reason holds U+2028 is a journal of two complete events that is refused on reading |
| RunStore.DecodeLines | src/runpod_jobrunner/run_store.py:351-372 | the decoding loop computes the recursive parse: every line decodes and is numbered in order, or nothing is returned |
| RunStore.RunStore.RepairTail | src/runpod_jobrunner/run_store.py:335-350 | a torn tail is cut off, a complete record without newline is refused, and the committed list is untouched, for death at the truncation too |
| RunStore.RunStore.ReadEvents | src/runpod_jobrunner/run_store.py:335-372 | returns exactly the committed list, or refuses exactly when the file is not legible |
| RunStore.RunStore.AppendLine | src/runpod_jobrunner/run_store.py:273-285 | the list grows by the event exactly when every character was written |
| RunStore.RunStore.CommitState | src/runpod_jobrunner/run_store.py:187-216 | journal, then projection, then receipt; death anywhere leaves the old list or the old list plus this state, and the snapshot is never ahead |
| RunStore.RunStore.Project | src/runpod_jobrunner/run_store.py:187-216 | the snapshot is the projection just appended, and a closed one gets its receipt, as far as the process lives |
| RunStore.RunStore.CurrentState | src/runpod_jobrunner/run_store.py:417-431 | the effective state is the last committed projection; a snapshot ahead of the journal cannot occur |
| RunStore.RunStore.ReadState | src/runpod_jobrunner/run_store.py:116-124 | a closed run's missing receipt is rebuilt equal to its projection apart from the protocol tag |
| RunStore.RunStore.CreateRun | src/runpod_jobrunner/run_store.py:87-108 | a run is created once; the same request resumes an interrupted creation, another request is refused without a trace |
| LifecycleController.LifecycleController.Commit | src/runpod_jobrunner/run_store.py:187-216 | a commit performs its one-action script, or dies before or after it |
| LifecycleController.LifecycleController.IntendProvision | src/runpod_jobrunner/lifecycle.py:217-228 | the planned step commits the provision intent and nothing else |
| LifecycleController.LifecycleController.ReconcileProvision | src/runpod_jobrunner/lifecycle.py:230-308 | lookup, adoption, quarantine, visibility or dispatch: the calls and commits are a prefix of the provisioning script, all of it when the call ends |
| LifecycleController.LifecycleController.DispatchCreate | src/runpod_jobrunner/lifecycle.py:270-308 | the dispatched record is committed before the create call, and its outcome after |
| LifecycleController.LifecycleController.ObserveVisibility | src/runpod_jobrunner/lifecycle.py:310-340 | a dispatched create is only observed within the visibility grace, never issued again |
| LifecycleController.LifecycleController.ExhaustVisibility | src/runpod_jobrunner/lifecycle.py:341-362 | an invisible create ends in recovery, cancelled and unresolved |
| LifecycleController.LifecycleController.RecordProvisioned | src/runpod_jobrunner/lifecycle.py:364-385 | only a resource of this run and operation is adopted |
| LifecycleController.LifecycleController.RecordRejection | src/runpod_jobrunner/lifecycle.py:786-817 | a rejection cancels the run into deletion and keeps every named pod |
| LifecycleController.LifecycleController.RecordUnknown | src/runpod_jobrunner/lifecycle.py:289-306 | an unknown outcome is journaled before it is raised |
| LifecycleController.LifecycleController.RecordFailure | src/runpod_jobrunner/lifecycle.py:769-784 | a definite failure is journaled before it is raised |
| LifecycleController.LifecycleController.ReconcileStart | src/runpod_jobrunner/lifecycle.py:387-446 | absent, rejected, running or to be started: commits and calls are a prefix of the start script |
| LifecycleController.LifecycleController.CallStartNow | src/runpod_jobrunner/lifecycle.py:417-446 | the start call precedes the record of its outcome |
| LifecycleController.LifecycleController.ResolveAbsence | src/runpod_jobrunner/lifecycle.py:456-565 | a lost create is looked up again: adopted, quarantined, or taken through the absence window |
| LifecycleController.LifecycleController.AbsenceStep | src/runpod_jobrunner/lifecycle.py:506-565 | first observation after the deadline, then five seconds, with every reset on a clock that went back |
| LifecycleController.LifecycleController.DeleteNext | src/runpod_jobrunner/lifecycle.py:566-606 | the first id without an acknowledgement is deleted; with none left deletion is acknowledged |
| LifecycleController.LifecycleController.RecordReceipt | src/runpod_jobrunner/lifecycle.py:725-767 | an acknowledgement is recorded per id, and deletion is complete only when all ids are covered |
| LifecycleController.LifecycleController.ConfirmAbsent | src/runpod_jobrunner/lifecycle.py:607-630 | not-found is confirmed by a lookup of everything quarantined or of the resource |
| LifecycleController.LifecycleController.CloseOut | src/runpod_jobrunner/lifecycle.py:631-663 | the spend observation, its frozen scope, and the closing commit; `LifecycleAnswers.SpendAnswered` says what they are for every amount |
| LifecycleController.LifecycleController.ReconcileDelete | src/runpod_jobrunner/lifecycle.py:448-663 | the stages of deletion in their order |
| LifecycleController.LifecycleController.Reconcile | src/runpod_jobrunner/lifecycle.py:118-143 | exactly one lifecycle step on the last committed state, or a prefix of it |
| LifecycleController.LifecycleController.RecordWorkloadResult | src/runpod_jobrunner/lifecycle.py:145-166 | idempotent for the same result, refused for another, otherwise recovery |
| LifecycleController.LifecycleController.RecordArtifactDisposition | src/runpod_jobrunner/lifecycle.py:168-195 | idempotent for the same disposition, refused for another, otherwise deletion, without asking for a result |
| LifecycleController.LifecycleController.RequestStop | src/runpod_jobrunner/lifecycle.py:197-215 | any open run goes to deletion with an explicit disposition |
| ControllerRuns.CallIsRun | src/runpod_jobrunner/lifecycle.py:118-143 | the class refines the run model: whatever a call leaves, cut anywhere, is a reachable world, with at most one create |
| ControllerRuns.CallIsHonestRun | src/runpod_jobrunner/lifecycle.py:118-143 | when the provider kept its contract in the turns the call took, what the call leaves is an honest run that ends with the provider's own pods |
| ControllerRuns.ReconcileAtProvider | src/runpod_jobrunner/lifecycle.py:118-143 | one reconcile of the controller object at a provider that keeps its contract: if its store then says closed, no pod of the run is left and none can come |
| LifecycleRuns.RunOk | src/runpod_jobrunner/lifecycle.py:118-663 | the invariant of durable states, in-flight actions and acknowledgements holds in every run |
| LifecycleRuns.ReconcileOk | src/runpod_jobrunner/lifecycle.py:118-143 | every action a reconcile step may still perform keeps the invariant |
| LifecycleRuns.AbsenceOk | src/runpod_jobrunner/lifecycle.py:506-565 | the absence stages keep it, with a clock that may jump backward |
| LifecycleRuns.SpendOk | src/runpod_jobrunner/lifecycle.py:631-663 | the spend and closing stage keep it |
| LifecycleSafety.AtMostOneCreate | src/runpod_jobrunner/lifecycle.py:230-308 | over every interleaving and death, create is called at most once, and only when the last durable record says that this operation is dispatched |
| LifecycleSafety.OutcomesWrittenOnce | src/runpod_jobrunner/lifecycle.py:145-215 | result and disposition are unset before recovery and never change once set; the quarantine list never changes; closed is last |
| LifecycleSafety.JournalKeeps | src/runpod_jobrunner/lifecycle.py:118-215 | what an earlier committed state fixes, every later one still has |
| LifecycleSafety.ClosedIsAbsorbing | src/runpod_jobrunner/lifecycle.py:118-143 | after closed no call, reply or death adds a record or touches the provider |
| LifecycleSafety.ZeroSpendCloses | src/runpod_jobrunner/lifecycle.py:639-663 | when deletion reaches a zero spend observation, the scope check and the all-at-once closeout proof cannot fail |
| LifecycleSafety.ClosedEvidence | src/runpod_jobrunner/lifecycle.py:819-876 | a closed state carries the whole bundle, and for an uncertain create the deadline absence proof |
| LifecycleSafety.CompleteDeletionCoversAll | src/runpod_jobrunner/lifecycle.py:566-606 | deletion is called complete only when the deletion of every adopted or quarantined id was acknowledged, for any provider |
| LifecycleAnswers.LookupAnswered | src/runpod_jobrunner/lifecycle.py:230-308 | a lookup that finds pods creates nothing: several are all to be deleted, one is adopted exactly when it is this run's and operation's |
| LifecycleAnswers.CreateAnswered | src/runpod_jobrunner/lifecycle.py:270-308 | for every answer to the create call: one call, and the adoption, rejection, unknown or failed outcome it made durable |
| LifecycleAnswers.InvisibleAnswered | src/runpod_jobrunner/lifecycle.py:310-362 | a dispatched create that is not found is kept waiting within the grace and given up after it, never called again |
| LifecycleAnswers.StartAnswered | src/runpod_jobrunner/lifecycle.py:387-446 | for every answer to the lookup and the start call: the start is called exactly when the pod is there and does not run; the run is running exactly when the provider said so, and in deletion exactly when the pod is refused or lost |
| LifecycleAnswers.AbsenceAnswered | src/runpod_jobrunner/lifecycle.py:456-505 | a create without a recorded pod is looked up again, and whatever turns up is to be deleted |
| LifecycleAnswers.WindowAnswered | src/runpod_jobrunner/lifecycle.py:506-565 | the absence is confirmed exactly when the first observation is past the deadline and five seconds old; the proof holds the two readings; every other observation opens, keeps or resets the window |
| LifecycleAnswers.DeleteAnswered | src/runpod_jobrunner/lifecycle.py:566-606 | the first id without an acknowledgement is deleted and no other; only the provider's own acknowledgement of this call counts |
| LifecycleAnswers.NotFoundAnswered | src/runpod_jobrunner/lifecycle.py:607-630 | not-found is recorded exactly when the provider knows none of the ids |
| LifecycleAnswers.SpendAnswered | src/runpod_jobrunner/lifecycle.py:631-663 | a positive spend is recorded as it was given and keeps the run open, zero closes it, anything else changes nothing |
| LifecycleAnswers.NothingToMeterCloses | src/runpod_jobrunner/lifecycle.py:631-663 | a run with no resource and no way to have one closes without asking for the spend |
| LifecycleAnswers.ResultAnswered | src/runpod_jobrunner/lifecycle.py:145-166 | a result is recorded as given, once, and starts recovery |
| LifecycleAnswers.DispositionAnswered | src/runpod_jobrunner/lifecycle.py:168-195 | a disposition is recorded as given, once, and starts deletion |
| LifecycleAnswers.StopAnswered | src/runpod_jobrunner/lifecycle.py:197-215 | a stop ends an open run as cancelled and unavailable, unless it already has a result or a disposition |
| LifecycleEvidence.ReconcileBacked | src/runpod_jobrunner/lifecycle.py:118-143 | every new claim in whatever a reconcile commits was told in the replies of that very call |
| LifecycleEvidence.ClaimsAreTold | src/runpod_jobrunner/lifecycle.py:118-215 | a claim that every call either finds or is told, and that no run starts with, was told at some step of every run that makes it |
| LifecycleEvidence.ClosedWasUnspent | src/runpod_jobrunner/lifecycle.py:631-663 | every closed run was told that nothing is charged any more, or had nothing that could be charged |
| LifecycleEvidence.SpendWasSaid | src/runpod_jobrunner/lifecycle.py:639-663 | an amount of spend other than zero is durable only as the provider gave it |
| LifecycleEvidence.RunningWasSeen | src/runpod_jobrunner/lifecycle.py:387-446 | a run is running only after the provider said that its pod runs |
| LifecycleEvidence.NotFoundWasSeen | src/runpod_jobrunner/lifecycle.py:607-630 | not-found is durable only after the provider knew none of the ids to be deleted |
| LifecycleEvidence.PodWasNamed | src/runpod_jobrunner/lifecycle.py:364-385 | every id that is to be deleted was named by the provider |
| LifecycleEvidence.RecoveryHadReason | src/runpod_jobrunner/lifecycle.py:310-362 | a recovery that the controller began on its own has the provider's answer that made it do so |
| LifecycleEvidence.ResultWasReported | src/runpod_jobrunner/lifecycle.py:145-166 | a result other than cancelled was reported by the workload; no stop and no provider answer can make one |
| LifecycleEvidence.DispositionWasReported | src/runpod_jobrunner/lifecycle.py:168-195 | a disposition other than unavailable was reported by the workload |
| ClosedMeansGone.ClosedIsGone | src/runpod_jobrunner/lifecycle.py:448-663 | under the provider contract closed implies that no pod exists or can appear, and every id any record named has an acknowledged delete |
| ClosedMeansGone.RunContract | src/runpod_jobrunner/provider.py:12-46 | the link between durable state and the provider's pods holds in every run that keeps the contract |
| ClosedMeansGone.FlightStable | src/runpod_jobrunner/provider.py:105-120 | whatever the provider does on its own, the actions in flight stay justified |
| ClosedMeansGone.AbsenceJustified | src/runpod_jobrunner/lifecycle.py:506-565 | a completed absence window proves that the deadline has passed on the provider's clock |
| ClockLead.LeadBeyondGraceBreaks | src/runpod_jobrunner/lifecycle.py:526-551 | a controller clock ahead by more than five seconds can close a run whose pod is alive: a concrete run |
| ClockLead.LeadIsExact | src/runpod_jobrunner/lifecycle.py:526-551 | closed means gone for every run if and only if the lead is at most the absence grace |
| LifecycleProgress.ReconcileProgress | src/runpod_jobrunner/lifecycle.py:448-663 | with cooperative replies one reconcile strictly decreases the measure of what deletion still needs |
| LifecycleProgress.DeletionCloses | src/runpod_jobrunner/lifecycle.py:448-663 | past the deadline, calls at least five seconds apart and as many as the measure close the run |
| LifecycleProgress.RemainingBound | src/runpod_jobrunner/lifecycle.py:566-663 | the measure is at most the number of ids plus five |
| Supervisor.LifecycleNeverGoesBack | src/runpod_jobrunner/application.py:235-289 | under the drive loop, operator stops and restarts the lifecycle rank never decreases |
| Supervisor.FailClosedDispatch | src/runpod_jobrunner/application.py:235-289 | the workload is executed only when the journal already holds a running state, never once any process of the supervisor has read deleting, restarts included, and the loop returns only on closed |
| Supervisor.RecoveryDispatchesIff | src/runpod_jobrunner/application.py:275-289 | a run in recovery may be executed again exactly when it has been running before, over all stops and restarts |
| SupervisorEngine.LaunchRun | src/runpod_jobrunner/run_store.py:87-108 | after `create_run` on a store that holds nothing of the run, or what a creation that died had written, the engine stands at the machine's first state; another request for the run gets no engine |
| SupervisorEngine.CallDrives | src/runpod_jobrunner/application.py:246-272 | whatever a controller call of the loop leaves, complete or cut anywhere, is a state the machine reaches |
| SupervisorEngine.SupervisorEngine.ReadStatus | src/runpod_jobrunner/application.py:238-241 | a turn starts from the last committed state |
| SupervisorEngine.SupervisorEngine.ReconcileStep | src/runpod_jobrunner/application.py:242-251 | one reconcile of an unfinished or deleting run, never an execution |
| SupervisorEngine.SupervisorEngine.Execute | src/runpod_jobrunner/application.py:252-254 | the executor is called once, and only from a reading that is running, or recovering without a reason against it |
| SupervisorEngine.SupervisorEngine.RecordObserved | src/runpod_jobrunner/application.py:255-272 | what was observed is recorded as result or as disposition, by the state it was read in |
| SupervisorEngine.SupervisorEngine.StopRecovery | src/runpod_jobrunner/application.py:259-263 | a recovery that cannot have started work is stopped and not executed |
| SupervisorEngine.SupervisorEngine.Turn | src/runpod_jobrunner/application.py:242-272 | the dispatch by lifecycle moves the machine, makes exactly the controller call of that state, and executes exactly when the state asks for it |
| SupervisorEngine.SupervisorEngine.Drive | src/runpod_jobrunner/application.py:235-273 | returns normally only with the run closed; every execution follows a running record, and none follows a reading of deleting by this process or an earlier one; every turn before the end is a whole turn, and the loop ends early only when a call raised, the process died, or the store could not be read |
| SupervisorEngine.TurnAnswered | src/runpod_jobrunner/application.py:252-272 | after a whole turn the store holds the result or the disposition that was observed, or the stop of a recovery that must not be executed |
| SupervisorEngine.WorkingTurnsBounded | src/runpod_jobrunner/application.py:235-273 | with a provider that works, no process takes more whole turns over a deletion than the measure of what it still needs, and after as many the run is closed |
| RunnerTrace.SpawnsRiseInOrder | src/runpod_jobrunner/runner.py:205-226 | over all incarnations phase commands are spawned in strictly rising phase order, each at most once |
| RunnerTrace.SpawnNeedsAllBefore | src/runpod_jobrunner/runner.py:175-226 | a spawn follows an authorised launch and durable exit-0 completions of every earlier enabled phase |
| RunnerTrace.SpawnFollowsStart | src/runpod_jobrunner/runner.py:273-298 | the start of a phase is durable before its command is spawned |
| RunnerTrace.ReplaysInOrder | src/runpod_jobrunner/runner.py:386-409 | every journal replays to a position in the phase order with exactly the enabled phases before it completed |
| RunnerTrace.ReplayReads | src/runpod_jobrunner/runner.py:386-409 | a replay reads a phase as settled or completed exactly when the history says so, as active only after a start, and the run as not failed only without a failure |
| RunnerTrace.ReplayMoves | src/runpod_jobrunner/runner.py:386-409 | a start makes its phase active, an end makes none active, a failure is the failure of its phase with its reason, and the exit code is the one given |
| RunnerTrace.ActiveSettles | src/runpod_jobrunner/runner.py:386-409 | a phase once started stays active until it settles or the run has failed for good |
| RunnerTrace.TerminalIsFinal | src/runpod_jobrunner/runner.py:669-696 | after the terminal record only its event and statuses that repeat it follow |
| RunnerTrace.TerminalTruth | src/runpod_jobrunner/runner.py:522-548 | the terminal record lists the journal's completions in order, a prefix of the enabled phases; success means all of them after an authorised launch |
| RunnerTrace.ElapsedNeverFalls | src/runpod_jobrunner/runner.py:661-667 | recorded elapsed time and estimated cost are nondecreasing over all events, statuses and incarnations |
| RunnerTrace.TerminalElapsedKeptIff | src/runpod_jobrunner/runner.py:522-534 | no later event or status shows an earlier time than the terminal record exactly when the very next effect does not |
| RunnerTrace.TerminalEventSeals | src/runpod_jobrunner/runner.py:522-534 | it is kept whenever the writer of the record lived to append its event |
| RunnerTrace.TerminalElapsedSafeIff | src/runpod_jobrunner/runner.py:522-534 | it is kept in every possible future exactly when it has been kept so far and the journal or status already shows a time that late |
| RunnerTrace.AuthorizedSawToken | src/runpod_jobrunner/runner.py:228-261 | a launch in the journal means that a runner saw the genuine token before |
| RunnerTrace.CapStopsPhases | src/runpod_jobrunner/runner.py:411-418 | once a recorded elapsed time reaches the time or cost cap, no later phase is started or spawned |
| RunnerTrace.ResumedElapsed | src/runpod_jobrunner/runner.py:1044-1063 | the last event and the status together hold the highest elapsed time ever recorded |
| RemoteRunner.StatusDir.ReadHistory | src/runpod_jobrunner/runner.py:953-1011 | a torn tail is cut off, any other unterminated tail refuses the history |
| RemoteRunner.RemoteRunner.constructor | src/runpod_jobrunner/runner.py:98-150 | a restarted runner holds exactly what its journal replays to and starts its clock past everything recorded |
| RemoteRunner.RemoteRunner.RecoverHistory | src/runpod_jobrunner/runner.py:386-409 | the replay loop computes the replay of the history |
| RemoteRunner.RemoteRunner.AppendEvent | src/runpod_jobrunner/runner.py:641-659 | the next numbered event is durable, or the process died and the list is as before |
| RemoteRunner.RemoteRunner.PublishStatus | src/runpod_jobrunner/runner.py:613-639 | the status replaces the old one and repeats the terminal record if there is one |
| RemoteRunner.RemoteRunner.WriteTerminalOnce | src/runpod_jobrunner/runner.py:675-696 | an existing terminal record is kept and returned |
| RemoteRunner.RemoteRunner.Finish | src/runpod_jobrunner/runner.py:522-534 | exactly the first steps of record, event no earlier than the record, status that repeats it, as many as the process lives for; the record is explained by journal and host |
| RemoteRunner.RecordOutlivesItsTime | src/runpod_jobrunner/runner.py:522-534 | two concrete incarnations of the class, the first dying after the record, publish the record under an earlier elapsed time |
| RemoteRunner.RemoteRunner.WaitForLaunchAuthorization | src/runpod_jobrunner/runner.py:228-261 | success means that this incarnation was shown the genuine token and the launch is durable; a failure has its cause in the host, and only death ends it otherwise |
| RemoteRunner.RemoteRunner.AuthorizeLaunch | src/runpod_jobrunner/runner.py:228-261 | the launch is recorded once, right after the genuine token was seen |
| RemoteRunner.RemoteRunner.LimitReason | src/runpod_jobrunner/runner.py:411-418 | the elapsed cap first, then the cost cap, and a reason exactly when one is reached |
| RemoteRunner.RemoteRunner.StartPhase | src/runpod_jobrunner/runner.py:273-304 | below the caps the start becomes durable and then the command is spawned, or the failure to spawn is recorded |
| RemoteRunner.RemoteRunner.EndingOf | src/runpod_jobrunner/runner.py:322-333 | a running child is ended exactly on a stop, its timeout or a cap, in this order, with the outcome and the reason of each |
| RemoteRunner.RemoteRunner.RunPhase | src/runpod_jobrunner/runner.py:273-333 | a phase ends durably completed, in a lawful unsuccessful terminal record, or with the process |
| RemoteRunner.RemoteRunner.RunPhases | src/runpod_jobrunner/runner.py:205-217 | unsettled phases run in order; without a terminal result all five are settled |
| RemoteRunner.RemoteRunner.Run | src/runpod_jobrunner/runner.py:175-226 | an existing terminal record is returned unchanged; an interrupted or failed phase ends the run; a wrong identity finishes it at once; every record it writes has its outcome and reason explained by the journal or by what the host showed; nothing is returned only when the process died |
| RemoteRunner.SettledSucceeds | src/runpod_jobrunner/runner.py:221-226 | an explained record of a journal with every phase settled and no refusal says succeeded exactly when the artifacts verify, with the reason |
| RemoteRunner.RemoteRunner.Conclude | src/runpod_jobrunner/runner.py:221-226 | with every phase settled the record says succeeded exactly when the artifacts verify |
| RemoteRunner.SettledYetRefused | src/runpod_jobrunner/runner.py:175-226 | an incarnation that finds every phase settled and is refused records a failure |
| RemoteRunner.RunIncarnations | src/runpod_jobrunner/runner.py:98-226 | any number of incarnations, each dying anywhere, produce one lawful trace, all that return give the same terminal record, a token in the trace was shown to one of them, and the record is explained by the journal and what one of them met |
| LaunchBarrier.PhaseMeansLaunched | src/runpod_jobrunner/remote_executor.py:203-238 | a spawned phase means the token was on the remote disk, exactly the allow-listed inputs were there, and a ready runner of the pinned identity was attested |
| LaunchBarrier.TokenComesLast | src/runpod_jobrunner/remote_executor.py:299-376 | when the token arrives the inputs are already complete and the runner attested |
| LaunchBarrier.AuthorizedAfterToken | src/runpod_jobrunner/runner.py:228-261 | a launch in the runner's journal means that the runner saw the token and the token had arrived; the reading is the runner's own effect, derived from its trace |
| LaunchBarrier.LaunchOnlyAdvances | src/runpod_jobrunner/remote_executor.py:299-376 | restarts never undo an input, the token, a receipt or an effect |
| Glob.MatchesByComponents | src/runpod_jobrunner/transfer.py:520-539 | a pattern matches a path exactly when the components match one by one and are as many |
| Glob.MatchShape | src/runpod_jobrunner/transfer.py:520-539 | every match has the pattern's component count and its file name |
| Glob.SplitEquivalence | src/runpod_jobrunner/transfer.py:65-77 | a valid pattern matches a path exactly when it is the fixed prefix followed by a match of the relative pattern |
| Glob.ListingBelowPrefix | src/runpod_jobrunner/remote_executor.py:423-439 | listing below the prefix and putting it back finds what listing from the root finds |
| Glob.DisjointSubtrees | src/runpod_jobrunner/remote_executor.py:454-585 | no path lies below the directories of two different manifests of one pattern |
| IncrementalManifest.ReadEntries | src/runpod_jobrunner/remote_executor.py:902-945 | the loop accepts exactly the manifests whose entries are safe, well-formed, distinct and not the manifest |
| IncrementalManifest.NormalisedEntries | src/runpod_jobrunner/remote_executor.py:902-945 | accepted entries are as many as declared, distinct, safe, and none is the manifest |
| IncrementalManifest.VerifyFiles | src/runpod_jobrunner/remote_executor.py:1027-1063 | succeeds exactly when every declared file is present with its size and hash |
| IncrementalManifest.EnforceLimits | src/runpod_jobrunner/remote_executor.py:955-1016 | succeeds exactly when the manifest agrees with its receipt and the totals, counting it once, are within the limits |
| IncrementalManifest.Measure | src/runpod_jobrunner/remote_executor.py:1005-1016 | the loops sum files and bytes over all manifests |
| IncrementalManifest.OthersUndisturbed | src/runpod_jobrunner/remote_executor.py:1066-1089 | writing below one manifest's directory leaves every other manifest's files as they were |
| IncrementalManifest.ManifestApart | src/runpod_jobrunner/remote_executor.py:565-566 | the final manifest overwrites none of the files it declares |
| IncrementalMirror.IncrementalMirror.VerifyCache | src/runpod_jobrunner/remote_executor.py:1126-1148 | rechecking a receipt succeeds exactly when manifest and files are on disk as it says, so it never fails on an undisturbed disk |
| IncrementalMirror.IncrementalMirror.PublishAck | src/runpod_jobrunner/remote_executor.py:587-715 | an acknowledgement is signed once, of a verified receipt, and a receipt changed since fails closed; success exactly when it fits and is delivered |
| IncrementalMirror.IncrementalMirror.PublishFiles | src/runpod_jobrunner/remote_executor.py:1066-1089 | verified files move into place one by one, death between any two keeping every receipt sound |
| IncrementalMirror.IncrementalMirror.FillFiles | src/runpod_jobrunner/remote_executor.py:532-563 | success exactly when the files are already in place, or there is room and the download has them all; files already in place are not fetched again |
| IncrementalMirror.IncrementalMirror.Seal | src/runpod_jobrunner/remote_executor.py:565-570 | manifest, then verified receipt, sound at every point between |
| IncrementalMirror.IncrementalMirror.Admit | src/runpod_jobrunner/remote_executor.py:486-524 | a pending receipt is written before any file, exactly when the manifest can be read, does not conflict and keeps the quotas |
| IncrementalMirror.IncrementalMirror.MirrorManifest | src/runpod_jobrunner/remote_executor.py:454-585 | one manifest is mirrored, current and acknowledged exactly when nothing stands in the way; receipts stay sound, hashes and file lists unchanged, other receipts and all files outside its directory untouched |
| IncrementalMirror.IncrementalMirror.Poll | src/runpod_jobrunner/remote_executor.py:393-452 | success means that every manifest listed below the fixed prefix is small enough, mirrored, current and acknowledged; failure means that one in the list, after its predecessors were mirrored, stood in the way; only a first part of the list is touched |
| IncrementalMirror.IncrementalMirror.MirrorFound | src/runpod_jobrunner/remote_executor.py:431-452 | the prefix is put back, a manifest that is too large is refused, and only the receipt of this path changes |
| IncrementalMirror.MirroredReceipted | src/runpod_jobrunner/remote_executor.py:431-452 | after a successful poll every path found has a receipt, and an acknowledgement if they are on, also when it was listed twice |
| IncrementalMirror.RunPolls | src/runpod_jobrunner/remote_executor.py:393-452 | over any sequence of polls, restarts and deaths verified means on disk, the quotas hold, receipts' content and acknowledgements never change, and whatever a successful poll found keeps its receipt |
| Budget.BudgetLedger.Reserve | src/runpod_jobrunner/budget.py:32-81 | grants exactly when the scope total allows it, is idempotent for the same cap, and never lets reservations exceed the fixed total |
| Budget.SumReservations | src/runpod_jobrunner/budget.py:66-69 | the sum over the reservations |
| PlannedLifetime.PlannedNearlyFits | src/runpod_jobrunner/application.py:525-528 | for every cap, rate and precision, the planned seconds at the rate exceed the cap by no more than two correctly rounded results can add |
| PlannedLifetime.PlannedFits | src/runpod_jobrunner/application.py:525-528 | for a cap small enough for the precision they do not exceed it at all, whatever was rounded |
| PlannedLifetime.PlannedNearlyUses | src/runpod_jobrunner/application.py:525-528 | nor do they stay below it without need: one second more exceeds the cap but for what two rounded results can take away |
| PlannedLifetime.ShortIsWithin | src/runpod_jobrunner/application.py:525-528 | a cap of five digits less than the precision is small enough |
| PlannedLifetime.RoundingOverspends | src/runpod_jobrunner/application.py:525-528 | at every precision of four digits or more, a cap of 0.99...9 one digit too long at a rate of one is planned for a whole hour, which it does not cover |
| Budget.JobRunner.Run | src/runpod_jobrunner/application.py:105-152 | approval, one active run, reservation, plan, in this order; every planned run has its cap reserved, and is affordable if its cap is small enough for the precision; it ends within the elapsed cap of the bundle, on a whole second, and not earlier than one of the two caps demands |
| Budget.TerminationFits | src/runpod_jobrunner/application.py:525-529 | the planned end is within the elapsed cap, and a second or two later would reach one of the two caps |
| Budget.PlanAffordable | src/runpod_jobrunner/application.py:523-530 | the planned lifetime, divided in the decimal context and cut to whole seconds, costs at most the cap at the planned rate |
| MoneyBound.HistoryOk | src/runpod_jobrunner/provider.py:12-46 | over a whole honest run there is at most one pod, and none past the deadline |
| MoneyBound.MeterBounded | src/runpod_jobrunner/lifecycle.py:665-684 | a run is metered for no longer than from planning to its deadline |
| MoneyBound.ChargedWithin | src/runpod_jobrunner/runpod_provider.py:782-792 | billed at its own pod's rate, a run is charged at most the planned rate for the metered time |
| MoneyBound.RunCostsAtMostCap | src/runpod_jobrunner/runpod_provider.py:782-792 | every interleaving of a run makes at most one create and costs at most its cap, which is at most the approval |
| MoneyBound.ScopeCostsAtMostTotal | src/runpod_jobrunner/budget.py:43-81 | all runs that the job runner object ever planned under a scope together cost at most the scope's fixed total |
| JsonNumbers.SameFixedIffSameNumber | src/runpod_jobrunner/protocol.py:43-51 | two numbers have the same minimal plain form exactly when they are equal |
| JsonNumbers.FixedTextInjective | src/runpod_jobrunner/protocol.py:43-51 | the plain text determines sign, point and digits |
| JsonNumbers.RoundingIsExactIff | src/runpod_jobrunner/protocol.py:43-51 | rounding to the context precision keeps the number exactly when the dropped digits are zeros |
| JsonNumbers.RoundedIsWithin | src/runpod_jobrunner/protocol.py:43-51 | a rounded decimal fits the precision, so rounding is idempotent |
| DecimalRounding.RoundsCorrectly | src/runpod_jobrunner/protocol.py:43-51 | no decimal of as many digits as the precision is nearer than the rounded one, and where another is as near the last kept digit is even |
| DecimalRounding.CountKeepsNumber | src/runpod_jobrunner/protocol.py:43-51 | counting a decimal in units of a lower place keeps the number |
| JsonStrings.QuotedUnambiguous | src/runpod_jobrunner/protocol.py:75-79 | a string literal determines its string and where it ends |
| CanonicalJson.CanonIff | src/runpod_jobrunner/protocol.py:80-110 | two values have the same canonical form exactly when they are the same JSON value, numbers by value and objects without order |
| CanonicalJson.SortedAlikeIff | src/runpod_jobrunner/protocol.py:93-97 | two member lists sort alike exactly when they list the same members |
| CanonicalText.EncodePrints | src/runpod_jobrunner/protocol.py:54-115 | the encoder raises exactly on floats, non-finite decimals, non-string keys and unsupported values, and otherwise prints the canonical form of the rounded value; `CanonicalReading.EncodingReads` says what that text means |
| CanonicalText.Unambiguous | src/runpod_jobrunner/protocol.py:64-111 | which value a text starts with, and where it ends, can be read off its front |
| CanonicalTheorems.EncodingUnambiguous | src/runpod_jobrunner/protocol.py:54-115 | two values encode alike exactly when, rounded to the precision, they are the same JSON value |
| CanonicalTheorems.ExactUnambiguous | src/runpod_jobrunner/protocol.py:54-115 | for values whose decimals fit the precision, equal texts are exactly equal JSON values |
| CanonicalTheorems.RoundingCollides | src/runpod_jobrunner/protocol.py:43-51 | every value shares its text with its rounding, which is another JSON value exactly when a nonzero digit was dropped |
| CanonicalTheorems.OneDigitTooMany | src/runpod_jobrunner/protocol.py:43-51 | a number one digit too long that shares its text with a different number |
| CanonicalReading.EncodingReads | src/runpod_jobrunner/protocol.py:54-115 | a JSON reader that does not know the encoder reads the text back as the value rounded to the precision, with the keys of every object ascending by code points and without trailing zeros in a fraction |
| CanonicalReading.PrintReads | src/runpod_jobrunner/protocol.py:64-111 | it reads every printed value at the front of a text and leaves what follows |
| CanonicalReading.StringReads | src/runpod_jobrunner/protocol.py:75-79 | every escaped string reads as the string |
| CanonicalReading.FixedReads | src/runpod_jobrunner/protocol.py:43-51 | every plain number reads as its number |
| CanonicalReading.LessIffAscends | src/runpod_jobrunner/protocol.py:93-97 | the order of keys is decided by the first difference: the shorter key, or the smaller code point |

## Left out

- Journal text is modelled as characters. A cut inside a UTF-8 sequence is one more unterminated fragment, and which fragments count as torn is an arbitrary predicate.
- The remote runner's events file is a list with a clean, torn or unrecognised end; the character level is the one of `Journal`, whose records there are printed in ASCII.
- JSON Schema validation, the descriptive payload of an event beside its projection, and timestamps without a time zone.
- Provider lookups that delete a rejected pod as a side effect appear as provider drift.
- HTTP, GraphQL, SFTP, SSH and systemd calls are their outcome classes only: acknowledged, rejected, definite failure, unknown, absent.
- Symbolic links, file modes, inode checks and directory syncing; a file replacement is one atomic durable write.
- Two processes at once in one status directory or one ledger; locks are taken as held.
- The sleeps between turns of the drive loop. Operator stops that arrive during a turn are in the machine of `Supervisor` only; `SupervisorEngine` is one process without them.
- The rounding of elapsed seconds to six places in binary floating point is whole microseconds; the cost text of a terminal record is not modelled, its comparison with the cap is exact.
- Failure manifests, phase logs, process-group signals to a recorded child, heartbeat age and the status server.
- The exit codes of killed children enter the terminal record in memory only, as in the code; no property is stated of them.
- MoneyBound.RunCostsAtMostCap: assumes that every pod the provider created has at most the planned rate, and bills from planning on; a pod above that rate is rejected and deleted, and its cost until then is not bounded by the code.
- MoneyBound.ScopeCostsAtMostTotal: assumes a total of few enough digits for the decimal context, since the code overspends beyond (`PlannedLifetime.RoundingOverspends`).
- Absent and null fields of a projection are one, in `EventText` too.
- Which protocol majors a runner supports is one Boolean of its host.
- Corrupt ledger files and receipts edited by others.
- IncrementalMirror.IncrementalMirror.PublishAck: does not model the signature, the discovery of an earlier remote copy, or the publication receipt; only when an acknowledgement may be signed and that it never changes.
- The UTF-8 encoding of the canonical text, lone surrogates, cyclic containers, the length limit of integer texts, and exponents beyond the limits of the decimal context.
- JsonReader reads no insignificant whitespace and no exponents, which the encoder never prints.
- Bundle checks, YAML loading, the final artifact recovery and the local executor: they would only add simple members.
