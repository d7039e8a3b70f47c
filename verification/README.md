# Verified model of the reconciliation service

The reconciliation service checks that money recorded in several places agrees. Rules are planned
into jobs, workers claim jobs under leases and evaluate them, an evaluation reads balances and comes
to a verdict per asset, and verdicts drive alerts whose notifications go out after the commit. This
project is a Dafny model of that machinery with proofs of what it guarantees. `dafny verify
dfyconfig.toml` checks all of it.

## How the files hang together

**The durable job protocol.**
`Schedules` states what is known of a cron schedule (its successor function gives the least
occurrence after an instant, or nothing when the bounded search of the cron library ends) and holds
the planner's catch-up loop over its fixed-size buffer. `JobTables` has one function for each SQL
statement on the rule and job tables. `JobStore` is the storage object: each of its methods updates
the tables in place and is proved equal to the function of `JobTables`. `Protocol` lets any number of
planners, executors, manual evaluators and API clients take atomic steps in any order, with crashes,
dying connections, lost replies, arbitrary clock readings and advisory keys that may collide; a step
whose guard fails changes nothing, so every sequence of steps is a run. `ProtocolInvariants`,
`ProtocolSafety`, `ProtocolHistory` and `ProtocolOnce` hold the inductive invariants, one small lemma
a step; `ProtocolTheorems` states the results for all reachable states, `ProtocolEffects` what steps and
runs do to the columns of rules and jobs, `ProtocolProgress` that no job and no occurrence is lost, and `ProtocolWitnesses` what is *not* promised, with the exact condition
and a run each. `Worker` is the drain loop of the planner and the retry delay, `DrainTheorems` says
when that loop ends over the tables the protocol can reach, and `Settlement` is the worker's decision
once an evaluation returned.

**Alerts and notifications.**
`Alerts` defines one alert's row, its append-only log and every transition; `AlertTheorems` proves
over all runs that the row is a fold of the log, that suppression keeps no consumer behind, and what
shape the published stream has. `AlertStore` is the storage object with the same transitions written
as updates of shared tables. `Sweep` is the part of an evaluation's final transaction that touches
alerts, and `AlertsFollowReads` joins it to the protocol: alerts show the evaluation that read last. `Publication` interprets callbacks with nested transactions and savepoints against the event
collector.

**Verdicts.**
`Kernel` is a checked signed 64-bit expression evaluator with a cost budget for a batch. `Templates`
computes the verdicts of the four templates over unbounded balances and proves that the kernel, which
has the last word, never disagrees. `Sources` assigns source keys, resolves instants and treats
replays. `Runner` puts sources, template, kernel and alerts together. `Legacy` is the older policy
check and its relation to the drift template. `Explanations` is the explanation stored with a rule
under concurrent two-phase patches.

## Where the code and its documentation differ

- `docs/technical/scheduler.md` says failures are retried five times. What is bounded is the number
  of failures charged to a job (`ProtocolTheorems.FailuresAreBounded`). Its attempts have no bound
  exactly as long as it is not terminal, since an executor that dies after starting an attempt uses
  one up without charging it (`ProtocolWitnesses.AttemptsUnboundedIffOpen`, with
  `ProtocolWitnesses.CrashesAreNotCounted` as an instance).
- A patch cancels the pending jobs of earlier revisions, yet one may be pending afterwards: exactly if
  a job of the rule was running when the patch committed (`ProtocolWitnesses.OldRevisionPendingIffRunning`,
  with `ProtocolWitnesses.ReleasedJobsOutliveTheirRevision` as an instance). It can be claimed; it
  cannot commit.
- The planner's pass is meant to drain all due rules. It ends exactly when fewer rules than a batch
  have a schedule that never fires (`DrainTheorems.DrainEndsIff`), and tables with any number of such
  rules can be reached (`DrainTheorems.NeverFiringIsReachable`, `DrainTheorems.DrainCanRunForever`).
- The collector publishes what committed only because every caller lets the failure of a nested unit
  through (`Publication.PublishedIsCommitted`, `Publication.SwallowingPublishesTheRolledBack`).
- The watch that keeps large amounts out of the kernel is exact for the invariant, parity and
  threshold templates; for drift it fires for one balance it need not fire for
  (`Templates.DriftGuardIsExactButForOneBalance`). No verdict depends on it.
- The older policy check is not quite the drift template: it also rejects an amount missing on one
  side only (`Legacy.LegacyIsDriftCheck`, `Legacy.OneSidedNilDisagrees`).

## Model

| member | source | states |
|---|---|---|
| `Schedules.SuccessorIsLeastOccurrence` | internal/models/rule.go:202-218 | the next run of a schedule is its least occurrence strictly after the instant; none means none within the search horizon |
| `Schedules.Push` | internal/storage/scheduling.go:93-101 | the buffer keeps the latest entries in order; one entry is dropped exactly when it was full |
| `Schedules.CatchUp` | internal/storage/scheduling.go:82-107 | the shifting-buffer loop ends and yields the last occurrences of the window, the number it skipped and the next cursor |
| `Schedules.DueIsTheWindow` | internal/storage/scheduling.go:82-107 | the instants the loop walks are exactly the occurrences from the cursor, or the cutoff if that is later, up to now, each once and in order |
| `Schedules.NextCursorIsPastNow` | internal/storage/scheduling.go:94-133 | the cursor left behind is NULL or the first occurrence strictly after now |
| `Schedules.NextCursorIsNullOnlyInSilence` | internal/storage/scheduling.go:94-133 | whenever there is an occurrence after now within the search horizon of the window, the cursor left is the first one; NULL means there is none |
| `Schedules.CatchUpKeepsTheLatest` | internal/storage/scheduling.go:82-107 | of n due occurrences the last min(n, maximum) are kept, strictly increasing, and the next cursor is past now |
| `JobStore.Storage.CreateRule` | internal/storage/rule.go:20-49 | the whole new row: revision 1, the columns as given, and a cursor at the first occurrence exactly when it is enabled with a cron schedule; a schedule that does not parse leaves the table alone |
| `JobStore.Storage.AssertRuleRevision` | internal/storage/rule.go:66-78 | obsolete unless the rule is enabled and of the expected revision |
| `JobStore.Storage.PatchRule` | internal/storage/rule.go:127-227 | every column after an effective patch: the named ones have the new value, all others their own, the revision is one higher, the cursor restarts or is NULL, and pending jobs of superseded revisions are cancelled; an empty, conflicting or unparsable patch changes nothing |
| `JobStore.Storage.DeleteRule` | internal/storage/rule.go:80-92 | deletion takes the jobs of the rule along, and is an error when there is no such rule |
| `JobStore.Storage.SelectDue` | internal/storage/scheduling.go:44-58 | the batch is the first due rules nobody holds, NULL cursors first, and leaves none out unless it is full |
| `JobStore.Storage.PlanScheduledJobs` | internal/storage/scheduling.go:25-138 | one transaction over the batch: all rules planned and counted, or nothing changed when a schedule does not parse; zero limits mean the defaults; where it leaves the cursor is `ProtocolEffects.PlanningAdvancesTheCursor` |
| `JobStore.PlanBatchIsARun` | internal/storage/scheduling.go:25-138 | a planner transaction is a run of planning steps of the protocol |
| `JobStore.Storage.ClaimEvaluationJob` | internal/storage/scheduling.go:152-195 | claims the claimable job scheduled first, gives it a fresh token and a lease, and reports a reclaim; none only when all claimable ones are held |
| `JobStore.Storage.StartEvaluationJob` | internal/storage/scheduling.go:197-212 | persists one more attempt for the holder of a live lease, and is a stale claim for anyone else |
| `JobStore.Storage.HeartbeatEvaluationJob` | internal/storage/scheduling.go:214-226 | extends a lease that is still live and belongs to the token |
| `JobStore.Storage.ReleaseEvaluationJob` | internal/storage/scheduling.go:228-242 | puts the job of the token back to PENDING after a delay, without charging it |
| `JobStore.Storage.FailEvaluationJob` | internal/storage/scheduling.go:244-269 | the whole row after a charge by the holder of the token: below five charges PENDING, available after the delay, from five on FAILED; claim gone, attempts the larger of both, the cause stored; a stale claim for anyone else |
| `JobStore.Storage.AssertEvaluationJobClaim` | internal/storage/scheduling.go:273-299 | the fence of the final transaction: token, live lease, rule enabled at the revision of the job |
| `JobStore.Storage.CompleteEvaluationJob` | internal/storage/scheduling.go:301-314 | the job of the token is SUCCEEDED and gives its token and lease up |
| `JobStore.Storage.CancelEvaluationJob` | internal/storage/scheduling.go:316-323 | cancels the job of the token; matching no row is not an error |
| `JobStore.Storage.DeleteTerminalEvaluationJobs` | internal/storage/scheduling.go:325-333 | deletes exactly the terminal rows older than the retention, and counts them |
| `ProtocolSafety.CommitAllOrNothing` | internal/reconciliation/runner.go:236-274 | the final transaction appends one evaluation and, for a scheduled one, completes its job, or changes nothing |
| `ProtocolSafety.StepKeepsLocks` | internal/storage/rule_lock.go:41-70 | every step keeps: a worker whose connection is up holds the lock of its rule, and no two workers share a connection |
| `ProtocolSafety.StepKeepsSerial` | internal/storage/rule_lock.go:30-70 | every step keeps the windows from source read to commit of one lock key apart |
| `ProtocolInvariants.StepKeepsJobs` | internal/storage/migrations/migrations.go:443-455 | every step keeps: RUNNING exactly with token and lease, tokens already issued, cursors that are occurrences of the current schedule, and materialised occurrences behind the cursor |
| `ProtocolTheorems.ExactlyOnce` | internal/reconciliation/runner.go:236-274 | in every reachable state an occurrence has at most one evaluation, and has one exactly when its job succeeded, stored or cleaned up |
| `ProtocolProgress.SchedulerGuarantee` | docs/technical/scheduler.md:18-23 | a job has at most one evaluation, has one exactly when it succeeded, and until it is terminal can still succeed exactly as long as its rule is enabled at its revision |
| `ProtocolProgress.OpenJobSucceedsIffWanted` | internal/reconciliation/runner.go:96-136 | however often it was claimed, crashed or released, an open job can be brought to its commit exactly as long as its rule is enabled at its revision |
| `ProtocolProgress.JobsAreNeverLost` | internal/storage/scheduling.go:152-333 | a job stays until it is terminal and cleaned up or its rule is deleted, and an open one can be claimed at some instant |
| `ProtocolProgress.NothingIsSilentlyMissed` | internal/storage/scheduling.go:63-133 | whatever occurrence the cursor of a revision passes in a run was materialised or passed over by a planning step, as older than the window, beyond the maximum, or before the cursor was initialised |
| `ProtocolProgress.OnlyLimitsMiss` | internal/storage/scheduling.go:63-133 | in a run within the search horizon, an occurrence ahead of the cursor is materialised before the cursor passes it, unless a planning step drops it for the window or the maximum |
| `ProtocolProgress.DroppedIsOldOrTooMuch` | internal/storage/scheduling.go:82-107 | what a planning step drops is older than the window, or the maximum many due occurrences are later |
| `ProtocolTheorems.FencedCommitSucceeds` | internal/storage/migrations/migrations.go:478-480 | once the fence of the final transaction holds, the unique index on scheduled evaluations never rejects it |
| `ProtocolTheorems.ReadsAreSerial` | internal/storage/rule_lock.go:30-70 | of two committed evaluations of a rule, manual or scheduled, the later one began to read after the earlier one had committed, although connections may die |
| `ProtocolTheorems.NoSharedInstant` | internal/storage/scheduling.go:152-226 | when a job can be reclaimed, and already at lease equality, its holder can neither start, nor extend the lease, nor pass the fence; at equality the job cannot be reclaimed either |
| `ProtocolTheorems.LeaseProtects` | internal/storage/scheduling.go:152-226 | a claim and a heartbeat keep the job from being reclaimed until the end of the lease they set, and let the holder act until then |
| `ProtocolTheorems.RetiredTokenIsPowerless` | internal/storage/scheduling.go:197-323 | a token its job no longer carries can start, extend, release, fail, complete, cancel or pass the fence in no later state |
| `ProtocolTheorems.ReclaimRetires` | internal/storage/scheduling.go:152-195 | reclaiming a job makes the previous token powerless for good |
| `ProtocolTheorems.RevisionFence` | internal/storage/scheduling.go:288-297 | whatever commits later was computed from the revision its rule has now or a later one, and nothing commits for a deleted rule |
| `ProtocolTheorems.PatchShutsOut` | internal/storage/rule.go:183-226 | after an effective patch, disabling included, no evaluation of the replaced revision commits through either trigger |
| `ProtocolTheorems.PatchLeavesNothingPending` | internal/storage/rule.go:219-225 | an effective patch cancels every pending job of the rule and changes no other job |
| `ProtocolTheorems.CommittedDefinitionIsCurrent` | internal/reconciliation/runner.go:138-157 | what a step commits was computed from the definition that is current at that step, of a rule that is enabled |
| `ProtocolTheorems.TerminalIsForever` | internal/storage/scheduling.go:244-333 | SUCCEEDED, FAILED and CANCELLED rows never change and never come back after cleanup; attempts never decrease |
| `ProtocolTheorems.FailuresAreBounded` | internal/worker/worker.go:238-251 | at most five failures are charged to a job in any run, and fewer as long as it is not FAILED |
| `ProtocolTheorems.TablesAreSound` | internal/storage/migrations/migrations.go:447-455 | claim columns agree with the status, a cursor is an occurrence of the current schedule of an enabled rule, and everything materialised lies behind it |
| `ProtocolTheorems.PlanningNeverRepeats` | internal/storage/scheduling.go:44-133 | planning a due rule succeeds, moves its cursor past now or to NULL and creates only jobs that never existed, cleaned up or not |
| `ProtocolTheorems.PlanningMaterialisesTheWindow` | internal/storage/scheduling.go:82-127 | the jobs a planning step adds are exactly the latest occurrences of the window, each claimable at once |
| `ProtocolEffects.PlanningAdvancesTheCursor` | internal/storage/scheduling.go:63-133 | the cursor a planning step leaves on any due rule is the first occurrence after the clock, or NULL when nothing occurs within the horizon |
| `ProtocolEffects.CreationColumns` | internal/storage/rule.go:20-49 | column by column, the row of a new rule |
| `ProtocolEffects.PatchColumns` | internal/storage/rule.go:127-227 | column by column, the row of a patched rule; all other rules are as they were |
| `ProtocolEffects.DisabledRulesRest` | internal/storage/rule.go:194-226 | over any run without a patch that enables it, a disabled or deleted rule gets no further job and no further evaluation, through either trigger |
| `ProtocolEffects.DisablingRests` | internal/storage/rule.go:146-149 | a patch that disables a rule leaves it so |
| `ProtocolEffects.OnDemandIffEnabled` | internal/reconciliation/runner.go:138-157 | from every reachable state a rule can be evaluated on demand, without being enabled first, exactly if it is enabled |
| `ProtocolEffects.JobsEndOnlyFourWays` | internal/storage/scheduling.go:244-323 | over any run an open job becomes terminal only by the commit of its evaluation, by a charge that reaches the maximum, by a cancellation with its token, or by an effective patch while pending, and has the status that goes with it |
| `ProtocolEffects.FailedNeedsFiveTries` | internal/worker/worker.go:238-251 | over any run attempts rise by one for each try, started or charged, at most, and a job is FAILED no sooner than at its fifth |
| `ProtocolWitnesses.AttemptsUnboundedIffOpen` | docs/technical/scheduler.md:31-33 | for every reachable state and job: its attempts can reach any number without a failure being charged exactly as long as it is not terminal |
| `ProtocolWitnesses.CrashesAreNotCounted` | internal/storage/scheduling.go:197-212 | an instance: for every n a run leaves a job with n attempts and no failure charged |
| `ProtocolWitnesses.OldRevisionPendingIffRunning` | internal/storage/rule.go:219-225 | for every reachable state and effective patch: a job of the replaced revisions can be pending afterwards exactly if one of the rule was running when the patch committed |
| `ProtocolWitnesses.ReleasedJobsOutliveTheirRevision` | internal/storage/scheduling.go:228-242 | an instance: a run leaves a claimable PENDING job whose revision its rule no longer has |
| `Worker.PlanAll` | internal/worker/worker.go:120-157 | the drain loop ends when fewer rules than a batch never fire; it plans full batches and then one that is not, adds their counts up, and leaves no rule with a cursor due but those whose rows others held |
| `Worker.DrainEnds` | internal/worker/worker.go:120-140 | under a frozen clock the number of full passes is bounded, if fewer rules than a batch never fire |
| `Worker.DrainNeverEnds` | internal/worker/worker.go:120-140 | otherwise every pass is full, whatever went before |
| `DrainTheorems.ReachableIsPlanable` | internal/storage/rule.go:20-49 | in every reachable table the schedules of enabled rules parse, so only the count decides whether a planner pass ends |
| `DrainTheorems.DrainEndsIff` | internal/worker/worker.go:120-140 | for every reachable table and a frozen clock the number of full passes is bounded exactly when fewer rules than a batch never fire |
| `DrainTheorems.NeverFiringIsReachable` | internal/models/rule.go:202-218 | for every n a table can be reached with n due rules whose schedule never fires |
| `DrainTheorems.DrainCanRunForever` | internal/worker/worker.go:120-140 | so there is a reachable table on which the worker's pass has no bound |
| `Worker.RetryDelay` | internal/worker/worker.go:319-328 | five seconds doubled with each attempt, five minutes at most |
| `Settlement.Process` | internal/worker/worker.go:187-252 | the settlement of a job by what the heartbeat returned, or else the evaluation, and by a shutdown |
| `Settlement.LateTroubleIsHarmless` | internal/worker/worker.go:196-251 | settling changes nothing for a worker without the claim, so a heartbeat error after the commit cannot undo it |
| `Settlement.OnlyFailuresAreCharged` | internal/worker/worker.go:216-251 | a busy rule and a shutdown charge nothing and requeue the job after five seconds or at once; a charged failure requeues it after the retry delay, and makes it FAILED exactly when it reaches the maximum; `Settlement.EverySettlement` gives the rows |
| `Settlement.EverySettlement` | internal/worker/worker.go:187-252 | the whole row of the job after each settlement by the holder of its claim, and that nothing else changes |
| `Settlement.RetrySchedule` | internal/worker/worker.go:319-328 | the delays: five, ten, twenty, forty seconds and on, each twice the one before, until five minutes |
| `Settlement.SettlementIsAStep` | internal/worker/worker.go:187-252 | each settlement is a step of the protocol |
| `AlertStore.Storage.OpenOrUpdateAlert` | internal/storage/alert.go:65-225 | the whole row and event of a first failure and of a repeated one, with the notify decision; all other alerts are as they were |
| `AlertStore.Storage.ListActiveAlertFingerprints` | internal/storage/alert.go:235-251 | lists the fingerprint of each active alert of the period once, and no other |
| `AlertStore.Storage.AutoResolveAlert` | internal/storage/alert.go:256-314 | closes the active alert of the key with a pass event; without one nothing changes |
| `AlertStore.Storage.AckAlert` | internal/storage/alert.go:321-365 | acknowledges an open alert; acknowledging again changes nothing, and a resolved one is not found |
| `AlertStore.Storage.ResolveAlertManual` | internal/storage/alert.go:370-375 | closes an active alert by hand, for the kinds it accepts |
| `AlertStore.Storage.AcceptAlert` | internal/storage/alert.go:380-442 | closes an active alert by acceptance; needs a note, and freezes the evidence of the row unless the caller brings its own |
| `AlertStore.Storage.SnoozeAlert` | internal/storage/alert.go:451-494 | the row as before with a mute until the instant asked for, by whom, when and why, replacing any earlier one, and its event; an instant that is not in the future or an alert that is not active is refused and changes nothing |
| `AlertStore.Storage.UnsnoozeAlert` | internal/storage/alert.go:499-541 | lifts a mute and says so; without a mute nothing changes |
| `AlertTheorems.RowIsFoldOfLog` | internal/storage/alert.go:90-541 | in every run the row is what its log replays to, counts the failures in it and is shaped as its status asks; statuses chain from event to event |
| `AlertTheorems.OriginIsKept` | internal/storage/alert.go:152-171 | the log only grows, and severity, labels and first sight are those of the first failure |
| `AlertTheorems.SuppressionIsFaithful` | docs/technical/notification-suppression.md:22-40 | while no snooze is on, what was published last has the status of the row and materially its evidence |
| `AlertTheorems.QuietExactlyWhenNothingNew` | internal/storage/alert.go:187-212 | an event is kept quiet exactly for a failure under a live snooze, or for one of an open, unmuted alert with materially the same evidence |
| `AlertTheorems.MutedExactlyUntil` | internal/storage/alert.go:144-212 | from an accepted snooze on, through any failures at instants before its end and any acknowledgements, every failure is logged and none published; the first failure from its end on is published and lifts the mute |
| `AlertTheorems.AnnouncedAs` | internal/events/alert.go:74-98 | the type under which the event of each operation is published, by what the alert was before it |
| `AlertTheorems.SameEvidenceTransitive` | internal/storage/alert.go:561-575 | evidence that agrees with what is the same as a third agrees with the third, in both directions |
| `AlertTheorems.PublishedStreamShape` | internal/events/alert.go:74-98 | the published types of an alert begin with the only OPENED_ALERT, openings and closings strictly alternate, and the stream ends in an opening exactly when the alert is active |
| `AlertTheorems.AcceptanceFreezesLatestFailure` | internal/storage/alert.go:411-417 | an acceptance that brings no snapshot freezes the evidence of the latest failure in the log |
| `Alerts.PublishedNotify` | internal/storage/store.go:155-175 | the published entries are those that notify, each as often as it was logged and in that order |
| `Sweep.DriveAlerts` | internal/reconciliation/runner.go:311-346 | every alert of the period gets its verdicts in order, or a pass if there is none for it; no other alert changes |
| `Sweep.Conclude` | internal/reconciliation/runner.go:217-266 | the result is FAIL exactly when an outcome fails; alerts are driven and the engine error is resolved |
| `Sweep.ConcludeError` | internal/reconciliation/runner.go:348-371 | a template error opens or refreshes the rule's one engine-error alert and touches nothing else |
| `Sweep.RoundDecidesActivity` | internal/reconciliation/runner.go:311-346 | whatever an alert was, it is active after the round exactly when the last outcome on its fingerprint failed |
| `Sweep.VerdictsReachTheirAlerts` | internal/reconciliation/runner.go:311-346 | a failing verdict leaves its alert open with its evidence, evaluation and instant, and the first one with the severity and labels of the rule; a passing or missing one closes an active alert and changes no other |
| `Sweep.SuccessClosesEngineError` | internal/reconciliation/runner.go:253-266 | a successful round closes the engine error of its rule in the same way |
| `Sweep.SweepIsExact` | internal/reconciliation/runner.go:217-266 | with distinct fingerprints the active alerts of (rule, period) are exactly the failing ones, PASS means none, and besides only the engine error may gain one pass event |
| `Sweep.EngineErrorLastsUntilSuccess` | internal/reconciliation/runner.go:253-266 | repeated engine errors leave one active alert, which the next successful round of any period closes with one event |
| `AlertsFollowReads.AlertsShowTheLastRead` | internal/storage/rule_lock.go:30-38 | in every reachable state the active alerts of (rule, period), left to the evaluations, are the failing set of the last evaluation committed for them, which read after every other had committed; the engine error is active exactly when the rule's last evaluation failed |
| `Publication.Session.RecordAlertEvent` | internal/storage/store.go:155-175 | a notifying event is buffered inside a transaction and published outside one; any other is neither |
| `Publication.Session.CallMethod` | internal/storage/alert.go:73-87 | succeeds exactly when the first attempt does, or failed for a duplicate key and the second does; the event of that attempt alone is left, and handed on if it notifies |
| `Publication.Session.RunInTx` | internal/storage/store.go:89-108 | a rolled-back unit leaves nothing in the log; only the outermost unit publishes, once, after its commit |
| `Publication.NothingAfterFailure` | internal/storage/store.go:89-108 | statements run in order up to the first whose failure is not tolerated, and none after it |
| `Publication.PublishedIsCommitted` | internal/storage/store.go:77-190 | the published sequence is the notifying events of the committed units in order exactly when no committed request carried on after a nested unit was rolled back with notifications |
| `Publication.PropagatingPublishesCommitted` | internal/storage/store.go:77-190 | as long as failures of nested units propagate, exactly the committed notifications are published |
| `Publication.SwallowingPublishesTheRolledBack` | internal/storage/store.go:96-107 | a caller that swallows such a failure publishes an event that no log holds |
| `Publication.RetryContributesOnce` | internal/storage/alert.go:73-87 | a duplicate-key race leaves only the event of the second attempt |
| `Publication.ConsumersFollowEachAlert` | internal/storage/store.go:136-190 | what is sent about one alert is what its own log publishes, so stream shape and faithfulness hold of what consumers receive |
| `Kernel.CheckedArithmeticIsExact` | internal/engine/builtins.go:150-171 | a compiled expression overflows or means what it means over unbounded integers, and does the latter when all its numbers fit |
| `Kernel.ChainEvaluates` | internal/templates/ledger_invariant.go:184-190 | a sum of literals compiles exactly when all of them fit, and evaluates exactly when all running totals fit |
| `Kernel.SumList` | internal/engine/builtins.go:297-329 | the sum of a list, or an overflow exactly when a running total leaves the 64 bits |
| `Kernel.EvaluateBatch` | internal/engine/engine.go:138-168 | succeeds exactly when no program overflows, the total cost is within the limit and some budget is left when the last one starts |
| `Kernel.BudgetLeft` | internal/engine/engine.go:138-168 | a batch is within the budget exactly when some of it is left as each program starts and the total does not exceed it |
| `Templates.ApplyKernelVerdicts` | internal/templates/helpers.go:139-163 | verdicts are overwritten by the kernel's and costs added up; the error cases are a count mismatch, an expression that does not compile, an overflow and the budget |
| `Templates.InvariantGuardIsExact` | internal/templates/ledger_invariant.go:144-190 | the watched values all fit exactly when the invariant expression compiles and does not overflow |
| `Templates.InvariantSnapshotAgrees` | internal/templates/ledger_invariant.go:144-190 | for all terms and tolerances the kernel accepts the snapshot expression and agrees with the unbounded predicate |
| `Templates.InvariantOutcome` | internal/templates/ledger_invariant.go:135-189 | verdict, snapshot expression and green proof of one asset; the two sides of the proof add up to the signed sum and differ by the gross amount |
| `Templates.EvaluateInvariant` | internal/templates/ledger_invariant.go:101-196 | one outcome per asset of the tolerance, which passes exactly when the signed sum is within the tolerance of the asset, with the two sides as proof; fails only for its cost, or for a spec without terms |
| `Templates.DriftGuardIsExactButForOneBalance` | internal/templates/ledger_vs_pool_drift.go:194-240 | the watch is exact but for a ledger balance of 2^63 with a negative sign |
| `Templates.DriftSnapshotAgrees` | internal/templates/ledger_vs_pool_drift.go:194-240 | for all balances, signs and tolerances the kernel agrees with the unbounded drift predicate |
| `Templates.EvaluateDrift` | internal/templates/ledger_vs_pool_drift.go:147-249 | one outcome per asset of either side, which passes exactly when the drift is within the tolerance the spec gives the asset, or zero where it gives none; both observed balances and that tolerance are the proof; fails only for its cost |
| `Templates.ParityGuardIsExact` | internal/templates/source_parity.go:150-187 | the watched values all fit exactly when the parity expression compiles and does not overflow |
| `Templates.ParitySnapshotAgrees` | internal/templates/source_parity.go:150-187 | for all balances and tolerances the kernel agrees with the unbounded parity predicate |
| `Templates.EvaluateParity` | internal/templates/source_parity.go:110-193 | one outcome per asset of either side, which passes exactly when the difference is within the tolerance the spec gives the asset, or zero where it gives none; both balances and that tolerance are the proof; fails only for its cost |
| `Templates.ThresholdPassed` | internal/templates/account_threshold.go:252-260 | a value passes exactly when it is within the bounds that are set |
| `Templates.ThresholdSnapshotAgrees` | internal/templates/account_threshold.go:252-284 | the kernel agrees with the bounds; only bounds that bound nothing make an expression that does not compile |
| `Templates.ThresholdProof` | internal/templates/account_threshold.go:262-271 | the proof holds the balance and the bounds there are, and the verdict can be told from it alone |
| `Templates.EvaluateThreshold` | internal/templates/account_threshold.go:118-188 | one outcome per asset of the bounds, which passes exactly within them, with the balance and the bounds as proof; fails only for its cost when every asset has a bound |
| `Templates.NegatedDriftIsParity` | internal/templates/ledger_vs_pool_drift.go:194-213 | drift with ledger sign -1 gives the verdict of parity of ledger against pool |
| `Templates.SignsAreRelative` | internal/templates/ledger_invariant.go:144-166 | turning all signs of an invariant around negates its sum and changes no verdict |
| `Sources.SourceKeyer.Key` | internal/templates/helpers.go:95-111 | each key is the label numbered among the equal labels handed out before |
| `Sources.KeysAreReadable` | internal/templates/helpers.go:95-111 | label and number can be read off a key, even when labels contain the separator |
| `Sources.KeysAreNumbered` | internal/templates/helpers.go:95-111 | a key is its label, the separator and the decimal number of sources with that label before it |
| `Sources.KeysAreDistinct` | internal/templates/helpers.go:95-111 | the keys of any list of labels are pairwise distinct |
| `Sources.SourceKeys` | internal/templates/ledger_invariant.go:75-86 | the source keys of a template, in the order of its sources |
| `Sources.ReadAt` | internal/templates/helpers.go:124-133 | a source is read at the instant given for its key, or else at that of the input less the margin; a pool without an instant is read at its latest state |
| `Sources.ReadSources` | internal/templates/ledger_invariant.go:118-133 | reads each source at its own instant under its own key and stops at the first that fails, having recorded those before it |
| `Sources.RecordedKeysAreSourceKeys` | internal/templates/source_parity.go:77-92 | a complete evaluation records exactly the source keys, one for each source |
| `Sources.ValidateSourcePITs` | internal/reconciliation/runner.go:291-309 | overrides are accepted exactly when all of them name source keys |
| `Sources.ReplayReproduces` | internal/templates/helpers.go:113-133 | replaying a historical evaluation from its recorded instants reads the same balances, records the same map and falls into the same period |
| `Sources.ReplayIsFaithfulIffHistorical` | internal/templates/source.go:128-160 | replays can be relied on exactly when no pool is read at its latest state |
| `Runner.TemplatesAreSweepable` | internal/templates/helpers.go:65-81 | the fingerprints of a template are distinct, and none is that of the engine error |
| `Runner.Evaluate` | internal/templates/template.go:64-91 | a valid template reports each asset of its universe once with the truth of its property, within the budget or not at all |
| `Runner.Run` | internal/reconciliation/runner.go:176-279 | after a round the active alerts of the rule in the period of the instant less the margin are those of the assets whose property does not hold of the balances read, each showing this evaluation, and PASS means there are none; after an error only the engine error moved |
| `Legacy.HarmonizeBalances` | internal/api/service/reconciliation.go:146-166 | both maps get the same keys; what was there is kept and what was missing is zero |
| `Legacy.ComputeDrift` | internal/api/service/reconciliation.go:108-144 | the error and the absolute drift of one asset in each of the four cases |
| `Legacy.Reconcile` | internal/api/service/reconciliation.go:68-98 | in any order of the assets the status is OK exactly when all are in balance, drifts are the same, and each asset out of balance is reported once |
| `Legacy.LegacyIsDriftCheck` | internal/api/service/reconciliation.go:87-144 | OK exactly when the drift template with sign +1 and no tolerance passes every asset and no amount is missing on one side only |
| `Legacy.LegacyDriftIsTemplateDrift` | internal/api/service/reconciliation.go:108-144 | the drift reported is the template's absolute drift, so it decides the template's verdict for any tolerance |
| `Legacy.OneSidedNilDisagrees` | internal/api/service/reconciliation.go:118-125 | an amount missing on one side passes the template and fails the policy check |
| `Explanations.PreparePatch` | internal/api/service/rule.go:247-298 | a patch of the template gets the explanation of the merged kind and spec and the revision it read; others stay as they are |
| `Explanations.StoredColumns` | internal/storage/rule.go:173-210 | column by column and setting by setting, a rule after a patch took effect; no other rule changes |
| `Explanations.CreatedColumns` | internal/api/service/rule.go:172-305 | a rule is created as asked for with revision 1 and its derived explanation, or nothing changes |
| `Explanations.ExplanationsStayTruthful` | internal/api/service/rule.go:172-305 | in every interleaving of creations, deletions and two-phase patches the stored explanation is that of the stored kind and spec, which are valid |
| `Explanations.RevisionsIncrease` | internal/storage/rule.go:173-210 | a rule that differs from what it was has a later revision |
| `Explanations.PatchesAgree` | internal/storage/rule.go:127-227 | the two views of a patch, with templates and with job tables, are refused together with the same error or lead to the same rule |
| `Explanations.ConflictIffRevised` | internal/storage/rule.go:176-178 | a patch of the template takes effect exactly when no other patch of the rule did since it was read, and then leaves a truthful explanation |

## Left out

- The history of a step is not split further: a `RunInTx` body is one atomic step, as PostgreSQL's isolation and row locks make it; isolation itself is not modelled.
- Database time: planning and cursor resets read the clock of the model; a transaction's `now()` may lag behind it in PostgreSQL. All other statements read an arbitrary time.
- Fresh identifiers: ids of rules, alerts and jobs and fencing tokens are never used twice; an alert is named by its unique key.
- The effects a final transaction commits are one entry in the history of the protocol; what an entry does to alerts is in `Sweep` and `AlertsFollowReads`.
- Deleting a rule deletes its alerts and their events; the alert model has no deletion, and `AlertsFollowReads` speaks of rules that are still there. It leaves operators out: their actions can close an alert that still fails.
- Alert evidence is a byte string with a partial canonical form. JSON syntax, and what `jsonb` does to a payload or a spec that is stored and read back, are not modelled.
- The race of two first failures of one alert is modelled where it matters for publication; the alert tables themselves change one transition at a time.
- Broker delivery, a crash between commit and publication, the order in which concurrent units publish, and a storage without publisher.
- The cron parser and time zones: a schedule is its successor function, or a text that does not parse.
- Period ids: a period is an arbitrary function of an instant; calendar and ISO week formatting belong to the Go time package.
- The expression language beyond literals, addition, subtraction, abs, comparison and conjunction: parsing, balances read by expressions, and how costs come about. A cost is an arbitrary number per expression.
- `sortedKeys` yields the keys once each in some order; that the order is lexicographic is not used.
- `Worker.PlanAll` takes from other planners only the rows they hold; what they change meanwhile is in the protocol. The lag is a metric.
- `Publication.Session.RunInTx` runs one session; concurrent sessions have collectors of their own.
- A manual evaluation that names source instants but no instant of its own is refused before anything is read.
- Wall-clock limits and cancellation of an evaluation by its caller.
- Ledger and payments clients: a source answers with any balances or not at all. A nil map, on which the policy check would panic, is not a value of the model.
- Per-account fan-out, which validation rejects in this version.
- HTTP handlers, pagination, queries, metrics, logging, policies other than their check, and the deprecated cadence key: they would only add easy members.
