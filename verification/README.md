# Dafny model of the Postgres restore operator

This project models the operator that keeps a Postgres replica fresh by restoring
snapshots into new instances, switching a Service over to the newest one and deleting the
old one afterwards, and proves what that protocol keeps. Two controllers share the work.
The replica controller lists snapshots, creates restores, runs the gates in front of the
switchover, moves the Service and sweeps what is left over. The restore controller takes
one restore from Pending to Switching or Failed. Every write is a step of its own, and
between any two of them the other controller, a Job, the clock, a person or a stop of the
operator may come in.

Check everything with `dafny verify dfyconfig.toml`.

## How it is laid out

| module | what it holds |
|---|---|
| `Protocol` | the state of one replica, both controllers' decisions, every write, events and runs |
| `PassPlans` | what a pass of the replica controller can plan, and running one to its end |
| `Decisions` | what a pass of the replica controller owes and leaves, told from the objects it read |
| `Handlers` | what a step of the restore controller does, told from what it found |
| `RunRules` | what several properties say of a state or ask of a run |
| `Switchover`, `CurrentHeld`, `TornSwitchover` | what the Service and the status name, and the one stop that breaks it |
| `SweepTiming` | which restores a sweep can meet Switching |
| `RedactionSafety`, `RedactionGap` | what the redaction gate guarantees, and where `redactionPhase` lets a restore past it |
| `Lifecycle`, `RestoreBounds`, `EphemeralOnce` | phases, numbers of restores, one verification per snapshot |
| `FailureSpacing`, `FailureGap` | what the failure backoff keeps apart, and exactly when its delay is lost |
| `CanopyOffers` | a canopy replica follows what it is offered |
| `Scenarios` | concrete runs, used to show that a hypothesis is needed |
| `ReplicaReconciler`, `RestoreReconciler` | the two reconciles as they update their objects in place, proved to be steps of the protocol |
| `SchemaBuild`, `SchemaDelivery`, `SchemaSettles`, `SchemaReconciler` | the reporting-schema build: its protocol, what becomes of a delivered schema, that every build settles, and its reconcile |
| `SchemaOutcomes` | what one reconcile of a build comes to, case by case |
| `SchemaLeftover` | a build Job that an earlier restore left behind |
| `CallbackStores` | the store of what Jobs post back |
| `RestoreQueues` | the queue that limits concurrent restores |
| `ReindexWatch` | the stall watch over locale reindexes |
| `CachePvc`, `Sizing` | the cache volume's ratchet and the sizes derived from a snapshot |
| `RedactionApply`, `LogTail`, `Slug` | the redaction run's account, the bounded log tail, DNS-safe names |

A protocol is a `State`, a `Step` and a `Run` over a list of events; `Along` says that
every event of a run meets a rule. Code that updates objects is a class, and each of its
methods is proved equal to a function of the old state; the properties are proved of that
function and of the runs it takes part in. Where the code does not meet a property the
model keeps the code: a run shows the failure and a lemma says exactly when it happens.

## What does not hold

- **A stop between the Active patch and the status patch loses the served restore.**
  `currentRestore` then still names the outgoing restore, so the next sweep takes the
  restore the Service selects for a stale one (`TornSwitchover`). The condition is exact:
  a sweep that may run, and a status that does not name what the Service names.
- **`redactionPhase` is not cleared before the next cycle.** Only a sweep that found a
  stale restore clears it, so a second restore that becomes Switching before that goes out
  unredacted, with nothing failing or stopping (`RedactionGap`).
- **A sweep can go on while a restore is Switching.** A pass decides to sweep only when it
  finds none, but a restore may become Switching between that decision and the deletes. On
  every run the restores a sweep meets Switching are exactly those (`SweepTiming`).
- **A schema delivered as its Job ends can be recorded as never produced.** A delivery is
  answered 204 and its build settles as empty with attempts left exactly when the answer
  comes after the reconcile saw no receipt and found no schema to take, or when the age
  sweep takes the schema between that reading and the taking (`SchemaDelivery`).
- **A Job left by an earlier restore is taken for this restore's own.** If it ended well
  without a receipt, this restore is recorded as having produced no schema without a Job of
  its own (`SchemaLeftover`).
- **The failure backoff can be lost**: when the patch of the replica's counter fails, and
  when a pass that had already decided on an earlier time writes it over the delay
  (`FailureGap`).
- **The queue does not guard itself**: a replica that holds a slot can be enqueued for a
  second one, and marking active does not look at the limit (`RestoreQueues`).

Where comments in the code say otherwise, the code is modelled: a status field is said to
stop scheduling after three failures (src/types/replica.rs:494-497), where the code backs
off and goes on; shared buffers are said to be at least 16 MB (src/quantity.rs:210-211),
where the least is 11; and the size after cache pressure is said never to shrink
(src/controllers/restore/builders.rs:498-502), where it answers the cap for a volume
already past it, and the caller is what keeps the request up.

## Model

| member | source | states |
|---|---|---|
| `Switchover.ServiceNamesLiveRestore` | src/controllers/replica.rs:334-381 | On every run of a non-ephemeral replica without deletions by hand and without a stop between the Active and status patches, the Service names only restores that exist, are not being deleted and are Active or Switching; `currentRestore` is Active; outside a switchover the two agree |
| `Switchover.ServiceNamesCurrent` | src/controllers/replica.rs:350-381 | With the switchover's writes unbroken, the Service, once it has a selector, names `currentRestore`, which exists and is Active |
| `Switchover.DeletedAfterGrace` | src/controllers/replica.rs:527-641 | An Active restore that a pass deletes is neither served nor current, stopped being selected longer ago than the grace period, and goes while no schema migration and no redaction is under way |
| `SweepTiming.SweepMeetsOnlyLate` | src/controllers/replica.rs:527-641 | On every run without deletions by hand and without a stop between the Active and status patches: while a pass has stale restores left to delete, a restore is Switching if and only if it became so after that pass decided to sweep |
| `SweepTiming.NoSweepWhileSwitching` | src/controllers/replica.rs:335-459 | So where no restore becomes Switching during a sweep, no sweep goes on while any restore is Switching |
| `SweepTiming.SweepMeetsSwitching` | src/controllers/replica.rs:592-606 | From a fresh idle kopia-secret replica without redaction, schemas or minimum TTL, a run with no stop, failure or deletion by hand in which a third restore is Switching as the sweep deletes the first |
| `CurrentHeld.CurrentAlwaysActive` | src/controllers/replica.rs:350-381 | On every run without deletions by hand, torn or not and ephemeral or not, `currentRestore` names an Active restore that is not being deleted |
| `TornSwitchover.ServedRestoreLostExactly` | src/controllers/replica.rs:527-641 | A pass left alone deletes the restore the Service names if and only if the sweep may run and the status does not name that restore |
| `TornSwitchover.PlannedExactly` | src/controllers/replica.rs:560-620 | A pass plans to delete an Active restore if and only if the sweep may run and the status does not name it |
| `TornSwitchover.OneStopLosesServedRestore` | src/controllers/replica.rs:350-381 | From every fresh kopia-secret replica that is not ephemeral, has no redaction, persistent schemas or minimum TTL, nothing recorded as verified and is due for a restore, one stop after the Active patch of the second switchover leads to a Service that names a deleted restore |
| `Decisions.SwitchesExactly` | src/controllers/replica.rs:282-381 | A pass left alone with a restore waiting switches over if and only if redaction passes (not asked for, settled, or its run returned Ok), the schema migration passes (none to make, already Complete, Job succeeded, Job past its budget, or no Job and nothing to migrate) and the schema build lets it; otherwise nothing moves; and what redaction phase, migration phase and migration Job it leaves in each case |
| `Decisions.NeverSwitchedUnmigrated` | src/controllers/replica.rs:1911-1951 | With persistent schemas and an Active restore, a pass that makes the waiting restore Active ends with the migration Complete, Partial or TimeoutSkipped: never Failed or Active |
| `Decisions.TailExactly` | src/controllers/replica.rs:462-1241 | Outside a switchover a pass plans a write if and only if it owes it: which restores it sweeps, cleans up after 300 seconds or tears down, when it takes and drops the listing, which restore it makes, when it sets which schedule and when it lists, each on the restores, status, Jobs and clock it read |
| `Decisions.ListJobStartsExactly` | src/controllers/replica.rs:1017-1203 | With no listing under way a pass starts one if and only if it is not switching or tearing down, no restore is on its way, a slot is free and a restore is called for: never restored and no backoff holding, current restore gone, canopy offering another snapshot than is carried outside the minimum TTL, or the schedule missing or due outside the TTL |
| `Decisions.PhasesClearedExactly` | src/controllers/replica.rs:527-641 | A resting pass clears migration phase, redaction phase and previous restore if and only if a sweep is due, something is left over and all of it is deleted; otherwise it leaves all three |
| `Decisions.TearDownExactly` | src/controllers/replica.rs:470-517 | An ephemeral tear-down leaves the snapshot verified, no current or previous restore, and the restore only where its delete failed or lingers |
| `Decisions.CreatedBlank` | src/controllers/replica/resources.rs:407-445 | A restore that is made is of the snapshot picked, with the target chosen, blank otherwise, and changes no other restore |
| `CanopyOffers.OfferComesToRestore` | src/controllers/replica.rs:1092-1130 | A served canopy replica offered another snapshot outside its minimum TTL comes to a restore of that snapshot in the same second, whenever its schedule is due |
| `CanopyOffers.OfferIsServed` | src/controllers/replica.rs:1092-1130 | From a fresh canopy replica without redaction, schemas or minimum TTL: the first snapshot is served, another is offered, and that one is served before the schedule is due |
| `RedactionSafety.ServedOnlyMasked` | src/controllers/replica/redaction.rs:49-128 | Where restores switch one at a time, none finds redaction already settled, none is deleted by hand and no new one takes the served name, the Service only ever selects restores whose own redaction run returned Ok, over any failed runs, retries, stops and restarts |
| `RedactionSafety.ServedOnlyMaskedThroughDeletions` | src/controllers/replica/redaction.rs:49-128 | The same with deletions by hand, where a restore becomes Switching only while no pass is part way through its gates |
| `RedactionSafety.RedactionGateMasks` | src/controllers/replica/redaction.rs:49-128 | The gate records redaction as settled only after the restore was masked, and lets no restore through unmasked unless redaction was settled before |
| `RedactionGap.ServedUnmaskedExactly` | src/controllers/replica.rs:285-293 | An unmasked restore that a pass lets through is served unmasked if and only if `redactionPhase` was already Complete or Partial |
| `RedactionGap.ClearsExactly` | src/controllers/replica.rs:592-632 | A pass clears the phases if and only if its sweep ran, found a stale restore and deleted every one it found |
| `RedactionGap.LoneRestoreNeverClears` | src/controllers/replica.rs:592-632 | While no Active restore but the current one exists, no pass clears the phases |
| `RedactionGap.SecondRestoreServedUnmasked` | src/controllers/replica.rs:592-632 | From every fresh redacted kopia-secret replica that is not ephemeral, has no persistent schemas or minimum TTL, nothing recorded as verified and is due for a restore, a run with no failure, stop or deletion serves its second restore unmasked: the clearing code alone does not establish the hypothesis between cycles |
| `Lifecycle.StepForward` | src/controllers/restore.rs:349-368 | Every step of either controller moves each restore strictly down a rank on phase, migration target and result, or leaves its phase alone |
| `Lifecycle.ChangesBounded` | src/controllers/restore/migration.rs:152-288 | Over any run the phase changes of a restore are at most the rank it started with |
| `Lifecycle.PhasesMoveForward` | src/controllers/restore.rs:979-1034 | On every run without exception a restore changes phase at most seven times, Active and Failed are never left, and Switching or Active with a migration target means the result is recorded |
| `Handlers.HandledExactly` | src/controllers/restore.rs:349-1086 | For each phase exactly which findings fail a restore (Job failed, version undetectable, out of time, no database to migrate), which phase the others lead to, when its migration counts as run, its version as known and its creation as stamped; nothing else of it changes |
| `Handlers.MigratedOverRun` | src/controllers/restore/migration.rs:152-288 | On every run a restore that stays counts as migrated if and only if it did before or, while Migrating with a target and a database, its migration Job finished |
| `Handlers.FailureCountedExactly` | src/controllers/restore.rs:230-284 | The replica's failure count rises by one and its next attempt is put off by the backoff if and only if a finding failed the restore and the patch was saved |
| `RestoreBounds.AtMostThreeLive` | src/controllers/replica/resources.rs:407-445 | In every reachable state at most one non-failed restore per snapshot and at most three non-failed restores in all |
| `EphemeralOnce.VerifiedOnce` | src/controllers/replica.rs:470-517 | For an ephemeral canopy replica offered one snapshot, at most one restore of it ever becomes Active, through stops between marker and delete, failing deletes and lingering ones; once it is gone nothing but failed restores is left |
| `FailureSpacing.BackoffTable` | src/controllers/replica/scheduling.rs:34-46 | The delays are 120, 240, 480, 960, 1920 and then 3600 seconds |
| `FailureSpacing.BackoffBounded` | src/controllers/replica/scheduling.rs:34-46 | The delay is monotone, within 120 and 3600 seconds, and its product stays below 2^64 for every count |
| `FailureSpacing.FailuresSpacedOut` | src/controllers/restore.rs:251-266 | For a kopia-secret replica consecutive failures are at least the backoff apart on every run where each is recorded with no earlier time left for the pass in hand to set, and a new restore gets its phase before the next pass; so T seconds of failing hold at most 6 + T/3600 failures |
| `FailureGap.DelaySurvivesExactly` | src/controllers/restore.rs:251-275 | After any failure, once the pass in hand has ended, the next attempt waits out the delay if and only if the last time that pass still sets is no earlier, or where it sets none the failure was recorded or the replica had such a time already |
| `FailureGap.LastSetIs` | src/controllers/replica.rs:1043-1071 | For a pass that has made what it makes, that time is the last among its schedule writes |
| `FailureGap.UnrecordedFailuresAtOnce` | src/controllers/restore.rs:267-275 | A run from a fresh idle kopia-secret replica in which the patch is lost and two restores fail in the same second |
| `FailureGap.PendingScheduleLosesDelay` | src/controllers/replica.rs:1043-1071 | A run from such a replica, with every failure recorded, in which the pass that made the restore writes an earlier time over the delay and two failures come a second apart |
| `ReplicaReconciler.Reconciler.Reconcile` | src/controllers/replica.rs:275-1240 | The reconcile, working in place, leaves exactly what the protocol's pass leaves when nothing comes between its writes |
| `ReplicaReconciler.ReconcileIsRun` | src/controllers/replica.rs:275-1240 | What it leaves is what a run of the protocol leads to, so all that holds on every run holds of it |
| `ReplicaReconciler.Reconciler.Switchover` | src/controllers/replica.rs:350-381 | Service selector, Active, activatedAt and status, in that order, ending where a restore has vanished |
| `ReplicaReconciler.Reconciler.Sweep` | src/controllers/replica.rs:527-641 | Deletes the stale restores and clears the phases only when every delete went through |
| `ReplicaReconciler.Reconciler.RedactionStep` | src/controllers/replica/redaction.rs:49-128 | The gate's patches around the run, and whether the switchover may go on |
| `ReplicaReconciler.Reconciler.MigrationStep` | src/controllers/replica.rs:1773-2205 | The schema-migration gate's patches and Job, and whether the switchover may go on |
| `ReplicaReconciler.Reconciler.Create` | src/controllers/replica/resources.rs:407-445 | No restore beyond three live ones; a name already taken ends the pass |
| `RestoreReconciler.Reconciler.Reconcile` | src/controllers/restore.rs:331-369 | The reconcile of a restore is the protocol's step, and takes or gives up the replica's slot |
| `RestoreReconciler.Reconciler.Fail` | src/controllers/restore.rs:230-284 | The restore is Failed, its slot goes to the next in line, and the failure count and schedule change only if the patch is saved |
| `RestoreReconciler.SlotGivenUp` | src/context.rs:229-236 | After a failure or a move to Switching the replica neither holds a slot nor waits for one |
| `RestoreReconciler.SlotTaken` | src/controllers/restore.rs:482-486 | A restore that starts holds a slot and waits for none; the others keep theirs |
| `SchemaDelivery.DeliveredNeverRecordedEmpty` | src/controllers/replica/schema_build.rs:526-611 | A Job whose delivery was answered 204 is recorded as having produced no schema only with the attempts spent, through restarts, age sweeps, expiries, lost writes and failed registrations, on every run all of whose events are timely: no answer after its Job was read without a receipt with no schema held to take, or settled as empty, and no age sweep of a delivered schema between that reading and the taking |
| `SchemaDelivery.AwaitedDeliveryHonoured` | src/bin/operator.rs:851-883 | A build that is answered before its Job ends meets that proviso, so its delivery is honoured |
| `SchemaDelivery.PromiseBrokenExactly` | src/bin/operator.rs:851-883 | On a run timely so far with attempts left, the next event leads to a delivered Job recorded as empty, once the pass in hand has ended with its write saved, if and only if that event is not timely |
| `SchemaDelivery.AnswerAfterRead` | src/controllers/replica/schema_build.rs:531-552 | An answer of 204 after the reconcile read the Job ends in a record of no schema if and only if the reconcile saw no receipt and finds nothing held |
| `SchemaDelivery.AnswerBeforeRecord` | src/controllers/replica/schema_build.rs:813-830 | An answer as a result is about to be recorded ends so if and only if that is the result |
| `SchemaDelivery.LateDeliveryRecordedEmpty` | src/controllers/replica/schema_build.rs:786-830 | A run in which a delivery answered 204 with every attempt left is recorded as no schema |
| `SchemaDelivery.BuiltMeansTakenIn` | src/controllers/replica/schema_build.rs:1004-1020 | A result recorded as built was made from one payload that canopy accepted, and states that payload's length and no error; canopy is only sent bytes that came in with a build's token |
| `SchemaOutcomes.BuiltOrError` | src/controllers/replica/schema_build.rs:1004-1020 | On every run a recorded result is built if and only if it states no error |
| `SchemaOutcomes.TakenIn` | src/controllers/replica/schema_build.rs:554-610 | A Job that ended well, its schema held and taken in by canopy: recorded as built, with no error, the schema's length and what canopy answered, the Job dropped; held again where the record is not saved |
| `SchemaOutcomes.NotTaken` | src/controllers/replica/schema_build.rs:558-594 | Not taken in: held for another attempt, recorded as not taken in on the fifth, at once with no canopy client, each with the schema's length |
| `SchemaOutcomes.NothingHeld` | src/controllers/replica/schema_build.rs:531-552 | Nothing held: the Job is dropped for another attempt if and only if its receipt says it delivered and the fifth is not reached; otherwise no schema is recorded |
| `SchemaOutcomes.JobFails` | src/controllers/replica/schema_build.rs:612-639 | A failed Job is recorded with the length it had delivered, what is held is let go and the Job dropped |
| `SchemaOutcomes.DeliveredThenFailed` | src/controllers/replica/schema_build.rs:84-109 | A delivery answered 204 whose Job then fails leaves its length on record |
| `SchemaOutcomes.SetUpFails` | src/controllers/replica/schema_build.rs:744-771 | A failed set-up costs an attempt, the fifth records the failure |
| `SchemaOutcomes.Started` | src/controllers/replica/schema_build.rs:475-524 | With no Job one is made with a token never given before, after what was held is let go |
| `SchemaOutcomes.CannotBeBuilt` | src/controllers/replica/schema_build.rs:451-463 | Unmigrated, no group, no environment, in that order: recorded as failed with no Job named |
| `SchemaOutcomes.SettledStays` | src/controllers/replica/schema_build.rs:464-469 | A settled build keeps its result and lets go of a schema posted since |
| `SchemaOutcomes.LetInExactly` | src/bin/operator.rs:816-843 | A post is let in if and only if it bears the token of the Job that stands |
| `SchemaOutcomes.AnsweredExactly` | src/bin/operator.rs:851-883 | A delivery is answered 204 if and only if its body was stored and its receipt, stating its length, went on a Job that stands |
| `SchemaOutcomes.LostThenRebuilt` | src/controllers/replica/schema_build.rs:773-810 | A delivery answered 204 and lost to a restart is built again at the cost of an attempt, while one is left |
| `SchemaOutcomes.SweptExactly` | src/controllers/replica/schema_build.rs:61-64 | What is held is let go by the age sweep if and only if it is an hour old |
| `SchemaSettles.RecordedOnce` | src/controllers/replica/schema_build.rs:709-771 | On every run recorded attempts only grow and never pass four, and a recorded result never changes |
| `SchemaSettles.RankNeverRises` | src/controllers/replica/schema_build.rs:432-641 | Without Job expiry no step, restart or failure sets a build back |
| `SchemaSettles.FullPassLowers` | src/controllers/replica/schema_build.rs:432-641 | A pass whose own writes go through, not waiting on its Job, brings the build strictly nearer its result |
| `SchemaSettles.EveryBuildSettles` | src/controllers/replica/schema_build.rs:432-641 | Twenty such passes give every build its result, whatever fails between and within them |
| `SchemaSettles.AtMostFiveJobs` | src/controllers/replica/schema_build.rs:709-810 | One build runs at most five Jobs, each beyond the first paid for from the budget that set-up and registration share |
| `SchemaSettles.AnswersOnlyRecorded` | src/controllers/replica/schema_build.rs:935-980 | With an image and a target the gate answers true if and only if the restore carried its result when the pass read it: the pass that records it does not answer, the next one does and changes nothing |
| `SchemaReconciler.Reconciler.Reconcile` | src/controllers/replica/schema_build.rs:432-641 | The reconcile, working on store, Job and status in place, is the protocol's whole pass, and answers from what it read before it wrote |
| `SchemaBuild.FullPassIsRun` | src/controllers/replica/schema_build.rs:432-641 | The whole pass is a run of the protocol's steps |
| `SchemaLeftover.OwnResultExactly` | src/controllers/replica/schema_build.rs:333-355 | A restore's result can come to be that of a Job made for an earlier restore if and only if such a Job stands, not being deleted, when a build begins that is to be done; otherwise every result that names a Job names one of its own |
| `SchemaLeftover.LeftoverSettlesEmpty` | src/controllers/replica/schema_build.rs:345-349 | One that ended well without a receipt settles the restore as no schema in one pass, with no Job made |
| `CallbackStores.CallbackStore.Store` | src/controllers/jobs.rs:61-70 | A result replaces what was held under its key and touches nothing else |
| `CallbackStores.CallbackStore.Take` | src/controllers/jobs.rs:72-75 | What is held is answered once and no longer held |
| `CallbackStores.CallbackStore.Sweep` | src/controllers/jobs.rs:82-87 | Exactly the entries younger than the limit stay, and the answer counts the others |
| `CallbackStores.KeysApart` | src/controllers/jobs.rs:61-62 | Two replicas never share an entry |
| `RestoreQueues.WaitInArrivalOrder` | src/context.rs:280-326 | After any operations from the empty queue no replica waits twice, and of two that wait the one whose enqueue came first is ahead, whatever the clock reads |
| `RestoreQueues.PositionNeverGrows` | src/context.rs:273-278 | A waiting replica's position never grows |
| `RestoreQueues.PromotedInTurn` | src/context.rs:317-325 | Of two that wait until promoted, the one that came first is promoted first |
| `RestoreQueues.NoStarvation` | src/context.rs:317-325 | A replica is promoted once more slots were given out than replicas were ahead of it |
| `RestoreQueues.LimitKeptExactly` | src/context.rs:286-291 | A step takes the active slots past the limit if and only if it marks a replica without a slot while all are taken, or promotes under a larger limit |
| `RestoreQueues.LimitHolds` | src/context.rs:267-270 | So a run whose marks respect the limit never passes it; promotion never does |
| `RestoreQueues.OnceEachKeptExactly` | src/context.rs:280-284 | Active and waiting replicas stay distinct and apart if and only if no replica with a slot is enqueued |
| `RestoreQueues.OnceEachHolds` | src/context.rs:267-326 | On every run that enqueues only replicas without a slot, each is in the queue once |
| `RestoreQueues.TwoSlotsForOne` | src/context.rs:280-325 | A replica enqueued while active comes to hold two slots |
| `RestoreQueues.MarkedPastLimit` | src/context.rs:286-291 | Marking any number of replicas gives all of them slots, whatever the limit |
| `RestoreQueues.SlotPassesOn` | src/context.rs:229-236 | A slot given up goes to the head of the line |
| `RestoreQueues.RestoreQueue.Position` | src/context.rs:273-278 | The one-based place of the first entry for the key, none if it does not wait |
| `RestoreQueues.RestoreQueue.RetainActive` | src/context.rs:307-313 | Kept and dropped slots together are the slots there were; the kept are all live and none of the dropped is |
| `RestoreQueues.RestoreQueue.MarkActive` | src/context.rs:286-291 | The key holds a slot, once more only if it held none, and no longer waits; the others wait as before |
| `RestoreQueues.OthersOrder` | src/context.rs:286-296 | Taking one replica out of the line swaps no two of the others |
| `RestoreQueues.RestoreQueue.ReleaseSlot` | src/context.rs:229-236 | Removal and promotion, and which replica was promoted |
| `ReindexWatch.FoldIsHistory` | src/controllers/restore/reindex_watch.rs:34-57 | After any history the watch holds what the last successful look saw and when the latest run of equal looks began |
| `ReindexWatch.StalledExactly` | src/controllers/restore/reindex_watch.rs:67-75 | Stalled if and only if some look more than thirty minutes ago saw progress that every successful look since has seen too |
| `ReindexWatch.HeldExactly` | src/controllers/restore/reindex_watch.rs:82-100 | A restore past its budget is kept waiting exactly while a reindex is there and what it shows began within thirty minutes; not ready is the reason exactly where none is there |
| `ReindexWatch.FailedLooksChangeNothing` | src/controllers/restore/reindex_watch.rs:49-57 | Failed looks neither start nor reset the clock |
| `ReindexWatch.WatchesStayApart` | src/controllers/restore.rs:1104-1142 | Clearing abandoned watches on each look never disturbs a restore asked about at least every nine minutes |
| `ReindexWatch.SharedVerdictExactly` | src/controllers/restore.rs:1104-1142 | So the verdict over the shared map is Stalled, or not reindexing, exactly when that restore's own looks say so |
| `ReindexWatch.LooksExactly` | src/controllers/restore.rs:1117-1122 | An ask looks at the database if and only if nothing is known yet or the last look is a minute old |
| `ReindexWatch.ClearedExactly` | src/controllers/restore.rs:1135-1140 | A look clears the watches of other restores last looked at more than ten minutes ago, and no others |
| `ReindexWatch.ReindexWatches.ReindexVerdict` | src/controllers/restore.rs:1104-1142 | One look at most a minute, the new map of watches, and the verdict |
| `CachePvc.RatchetBounded` | src/controllers/restore.rs:89-150 | Under any interleaving of snapshots, pressure and failed writes the request never shrinks and never passes the larger of its start and twice the largest default |
| `CachePvc.FivePressuresReachCap` | src/controllers/restore/builders.rs:482-515 | From the default five pressure events reach twice the default exactly, four do not, later ones change nothing |
| `CachePvc.FirstRequest` | src/controllers/restore/builders.rs:417-433 | The first request is the larger of 10 GiB and a fifth of the snapshot |
| `CachePvc.PressureExactly` | src/controllers/restore/builders.rs:482-515 | Each pressure event adds fifteen per cent, up to twice that, and takes nothing away |
| `CachePvc.AnswersBelowExactly` | src/controllers/restore/builders.rs:498-515 | The size function alone answers below the current size if and only if that is past the cap, and the request then stays |
| `CachePvc.FloorNeverDecides` | src/controllers/restore/builders.rs:422-475 | The content-cache floor and the fixed reserve never decide |
| `CachePvc.CachesLeaveRoom` | src/controllers/restore/builders.rs:463-475 | Once the ratchet has run for a restore, both caches at their caps leave 2560 MB, whatever comes later |
| `CachePvc.CacheVolume.GrowAfterPressure` | src/controllers/restore.rs:158-228 | The pressure callback's whole effect on the volume claim |
| `CachePvc.CacheVolume.Ensure` | src/controllers/restore.rs:89-150 | The ratchet's whole effect on the volume claim |
| `Sizing.StorageExactly` | src/controllers/replica/resources.rs:68-116 | In numbers: the need is 1.1 times the snapshot, or where the restore is written into the snapshot plus 5 GiB plus the larger of a tenth and the measured delta; an error if and only if that passes the maximum (2 TiB unless set); otherwise exactly that with no floor, and raised to the floor within the maximum with one |
| `Sizing.StorageGrows` | src/controllers/replica/resources.rs:68-116 | Monotone in the snapshot, and a larger one never fits where a smaller did not |
| `Sizing.CeilToLeast` | src/quantity.rs:62-73 | Rounding up gives the least whole number of units that holds the bytes |
| `Sizing.MemoryBounds` | src/quantity.rs:102-128 | Derived memory has request equal to limit, covers a tenth of the snapshot up to the cap, and lies between the lesser of floor and cap and the cap rounded up to MiB |
| `Sizing.MemoryExactly` | src/quantity.rs:102-128 | In numbers: the least whole MiB that hold a tenth of the snapshot, within the cap (64 GiB unless set) and above the floor; CPU is the floor's |
| `Sizing.NotDerived` | src/controllers/restore/builders.rs:1454-1478 | Pinned resources are taken as they are, none without a floor, and the floor where a quantity does not parse |
| `Sizing.MemoryGrows` | src/controllers/restore/builders.rs:1450-1498 | Derived memory is monotone in the snapshot |
| `Sizing.SharedBuffersFit` | src/controllers/restore/builders.rs:1504-1527 | Shared buffers are strictly smaller than shared memory with or without the floor, and a floor is met |
| `Sizing.FloorExactly` | src/controllers/restore/builders.rs:1504-1527 | A larger floor is taken and shared buffers grow in proportion, to no less than 16 |
| `Sizing.ShmWithinHalfLimit` | src/quantity.rs:177-204 | Shared memory stays within half the memory limit, to the MiB, short of its own minimum |
| `Sizing.ShmExactly` | src/quantity.rs:177-217 | In numbers: the least MiB, and at least 16, that hold the least of half the request, 36 per cent of the larger of request and limit, and half the limit; shared buffers are seven tenths of it rounded down |
| `Sizing.ShmGrows` | src/quantity.rs:177-217 | Along the whole chain a larger snapshot never means less shared memory or fewer shared buffers |
| `RedactionApply.Apply` | src/controllers/replica/redaction/apply.rs:42-126 | Which failures refuse the run, with no column set; otherwise, for every pattern of failures, columns set plus columns failed is the manifest's column count, tables likewise, nothing is set that was not asked for, and each statement stays in its own table; with no failures all that can be masked is |
| `RedactionApply.NotPartialExactly` | src/controllers/replica/redaction/apply.rs:25-29 | Not partial if and only if every column was set, as often as it is named, and every table truncated |
| `RedactionApply.GroupByTable` | src/controllers/replica/redaction/apply.rs:85-119 | One group per table; none of the columns is lost or repeated, and the rest is counted |
| `RedactionApply.ApplyTableMasks` | src/controllers/replica/redaction/apply.rs:134-179 | One statement for all of a table's columns, and if it fails one for each; exactly those whose own statement failed are answered as failed, and set and failed make up the table |
| `LogTail.TailBounded` | src/controllers/jobs.rs:186-218 | At most 2000 bytes, ending with an end of the last forty lines cut between characters |
| `LogTail.TailLongest` | src/controllers/jobs.rs:201-212 | No longer end of those lines would have fitted: in 2000 bytes where no error is named, in 1495 beside a headline |
| `LogTail.ShortLogWhole` | src/controllers/jobs.rs:195-218 | A log of at most forty lines and 2000 bytes is kept whole |
| `LogTail.NamesErrorExactly` | src/controllers/jobs.rs:220-236 | A line names an error if and only if one of the ten markers begins it after white space or follows a space in it |
| `LogTail.TrimExactly` | src/controllers/jobs.rs:199-199 | Trimming takes off all the white space at both ends and nothing else |
| `LogTail.FirstErrorKept` | src/controllers/jobs.rs:195-199 | If any line names an error, the first one is contained, trimmed and cut to 500 bytes |
| `LogTail.HeadlineOnlyWhereMissing` | src/controllers/jobs.rs:214-217 | The error is put ahead of the tail if and only if the tail does not hold it |
| `LogTail.TruncateLongest` | src/controllers/jobs.rs:238-247 | The longest beginning in whole characters that fits |
| `LogTail.LinesJoined` | src/controllers/jobs.rs:191-193 | Taking any log apart into lines loses nothing but the carriage return before a newline and the newline at its end, and no line holds a newline |
| `Slug.MakeSlug` | src/util.rs:57-92 | The loops compute the slug |
| `Slug.SlugIsSlug` | src/util.rs:57-92 | For every input: non-empty, at most 50 characters, lower-case letters, digits and single inner dashes |
| `Slug.SlugFixedExactly` | src/util.rs:54-92 | A text is its own slug if and only if it is one, so the function is idempotent |
| `Slug.SlugSpellsText` | src/util.rs:60-84 | A slug spells its input's letters and digits from the start, all of them unless cut; the fallback is only for an input with none |
| `Slug.MappedExactly` | src/util.rs:61-65 | A capital becomes its small letter, small letters and digits stay, all else is a dash |
| `Slug.NamespaceNameIsLabel` | src/controllers/canopy.rs:78-88 | The namespace name is a label by section 2.1 of RFC 1123 within the 63 octets of section 2.3.4 of RFC 1035 |
| `Slug.NamespaceNamesApart` | src/controllers/canopy.rs:78-113 | Two entries share a name only with the same slug and the same four digest bytes |

## Left out

- Kubernetes, HTTP, canopy and Postgres calls: each is a choice of how it turned out; a pass reads the replica and its restores once, at its start, as the controllers' cached objects give them, without staleness.
- Clock readings: a pass of the replica controller reads the clock where the protocol's state has it; readings taken a moment apart within one write are one reading.
- The restore controller's handler is one step of the protocol, its two status writes apart in `HandlePending` only; `fail_restore`'s patch of the restore, release of the slot and patch of the replica follow each other without another event in between.
- Names of restores are numbers, and the order of a list is any order; a new restore's name may be taken, which ends the pass.
- Only writes and reads that the properties turn on are in the protocol: grants, pod labels, conditions, events, metrics, notifications, reports and the notice to the outgoing database are not.
- The reporting-schema build appears in the replica's protocol as a gate with an answer; its own protocol is modelled beside it, for one restore and one Job name.
- `RedactionSafety.ServedOnlyMasked`: asks that each restore becomes Switching while no other is and redaction is not settled, because `SecondRestoreServedUnmasked` shows it fails otherwise; and that a new restore does not take the name the Service selects, since the names the operator makes carry the time.
- `FailureSpacing.FailuresSpacedOut`: asks that each failure is recorded and that no earlier time is left to be set, because `FailureGap` shows runs that lose the delay otherwise; the canopy trigger does not consult the backoff and is excluded.
- `SweepTiming.SweepMeetsSwitching`: the grace period is not negative, as durations are not.
- `ReindexWatch.WatchesStayApart`: asks for looks at least every nine minutes, because a watch older than ten is cleared by any other restore's look.
- `RedactionApply.GroupByTable`: keeps tables in order of first mention where the code sorts them by name; the order decides nothing here, and counters are unbounded.
- `Sizing.MemoryGrows`: CPU is one value carried over from the floor, where the code carries its request and its limit apart.
- Floating point: sizes and ratios are exact, so rounding in the last bit, saturation at 64 bits and negative quantities are not modelled.
- Cron, jitter, time zones and the deployment readiness timeout: the next fire time and being out of time are inputs.
- Building Jobs, Deployments, claims and Services, shell scripts and generated SQL: they run in other tools.
- Masking of secrets in logs, tokens, mTLS and proxies; the mask expressions themselves, which are any function that may fail; hashing, which yields any four bytes.
- The gate that remembers each replica's generation, so that a watch reacts to changes of its spec alone: one map kept up to date.
- Intent descriptors, parameter merging, placement, snapshot and manifest parsing: long but flat.
