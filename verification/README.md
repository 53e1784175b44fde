# AgentShift: ownership protocol, scheduling decisions and measurement code

A Dafny model of the parts of AgentShift whose correctness does not depend on what an engine or GPU does, with proofs of
the guarantees they are written for.

**Durable ownership** (`StateStore`, `World`, `OwnershipProtocol`, `TurnProtocol`, `EffectProtocol`, `EffectExecution`,
`EngineLocks`, `CoordinatorProtocol`, `Coordinator`).  An agent is owned by one engine at an epoch.  `StateStore` has the
SQL tables as maps, one function per transaction, and the store class whose methods are proved to run exactly those
transactions.  `World` lets any number of coordinators, executors and effect proxies interleave over one set of tables:
every transaction and every bare read is one step, so the gap between a check and the write that relies on it stays open,
and a crash is a process that never acts again.  The protocol modules prove what every reachable state of every such run
keeps.  `EngineLocks` is the locking around the serial migrations of one coordinator.  `CoordinatorProtocol` runs any
number of migration drivers, recoveries, acknowledgements and restarts as processes; every engine call that they await,
every row that a listing reads and the agent that a recovery reads back for its caller lies between two steps.
`Coordinator` is the coordinator class, whose methods start from any reachable tables and take those steps undisturbed.

**Decisions** (`AdmissibleOrder`, `Placement`, `Retention`, `ListScheduling`, `Autoscaler`).  The Moore-Hodgson order, the
greedy engine-disjoint selection, the TTL calibration, earliest-finish list scheduling, and the hysteretic autoscaler, each
proved optimal (or half optimal), or safe over every run.

**Indexes, sweeps and accounts** (`SnapshotDirectory`, `DirectoryRecency`, `Intervals`, `RelocationCensus`,
`PlacementCensus`, `Sampler`, `Production`).  Incremental or bounded code against a plain specification: the unbounded set
of confirmed prefixes, sets of instants, a direct recount, the first and last readings of each process, and token
prefixes.

`Wrappers` and `Sorting` (a stable sort by a total preorder) are shared.

Where the code falls short of a plain reading of its promise, the exact condition is a theorem and a run shows that it
matters.

- An executor that crashes after its claim, or whose agent is handed off between generation and commit, leaves a step that
  no executor can finish; a handoff during generation does not, as long as the engine call then fails.  Executors can
  advance an agent if and only if it is not stuck in this way (`TurnProtocol.AdvancesIffNotStuck`).
- A SOURCE_RELEASED record can be recovered exactly while its epoch is still the agent's
  (`OwnershipProtocol.ReleasedIsRecoverableIff`); for a COMMITTED one recovery always succeeds.
- list_migrations selects the ids of the live records first and reads their rows one by one.  A row that is read after its
  record became SOURCE_RELEASED or RECOVERED is marked ABORTED although ownership moved.  Over every run, ABORTED means that
  ownership never moved if and only if no reconciliation clears such a row (`CoordinatorProtocol.AbortsAreCleanIff`); the
  epoch accounting then holds too, and otherwise it is off by exactly the moves of those records
  (`OwnershipProtocol.EpochAccounting`).
- A recovery awaits the rebind of the source shadow between its read and its transaction, and reads the agent again after
  the transaction.  The lease that it returns is the one it rebound to if and only if the recovery was its own, or another
  one to the same engine, and nobody had handed the agent on by that read (`CoordinatorProtocol.RecoveryReportsIff`).
- A serial migration reads the owner once more after the check under its locks.  Over every run, all serial migrations copy
  between the engines they locked if and only if none of them reads an agent that was moved since that check
  (`EngineLocks.AlwaysUsesLocksIff`); then those in flight use disjoint engines, and otherwise two can share one.
- An external call whose proxy crashes, raises or loses its lease has no recorded outcome.  A SUBMITTED effect can still be
  settled if and only if its proxy is not gone and either has passed its last lease check or still holds the agent's epoch
  (`EffectProtocol.SettlesIffNotDoomed`).
- The sampler's account equals the measured use if and only if no counter runs backwards (`Sampler.ChargedIsUsed`).

Conventions: floats are exact reals, except interval endpoints, which are integers (an instant stands for one unit of time).
Engine, agent and migration names are numbers, JSON is a string.  A raised exception is an `Err`, a `None` or a `false`.
Verify with `dafny verify dfyconfig.toml`.

## Model

| member | source | states |
|---|---|---|
| StateStore.SQLiteStateStore.RegisterAgent | agentshift/state/store.py:133-152 | registers a new agent; a known id fails and changes nothing |
| StateStore.SQLiteStateStore.AssertLease | agentshift/state/store.py:172-178 | reports exactly a missing agent or a lease that is not (engine, epoch) |
| StateStore.SQLiteStateStore.CommitStep | agentshift/state/store.py:180-205 | stores the continuation of a later step at the expected epoch, else the right error and no change |
| StateStore.SQLiteStateStore.ClaimStep | agentshift/state/store.py:207-262 | the lease holder claims the next step unless a claim that has not FAILED exists |
| StateStore.SQLiteStateStore.CommitClaimedStep | agentshift/state/store.py:264-307 | commits the continuation and completes the claim together, or neither |
| StateStore.SQLiteStateStore.FailClaimedStep | agentshift/state/store.py:309-327 | only the rid's own CLAIMED row becomes FAILED or UNKNOWN |
| StateStore.SQLiteStateStore.StartMigration | agentshift/state/store.py:329-352 | lease check, then the insert under primary key, foreign key and one-live-migration index |
| StateStore.SQLiteStateStore.TransitionMigration | agentshift/state/store.py:354-388 | compare-and-swap of the state, with the progress fields that were given |
| StateStore.SQLiteStateStore.CommitMigration | agentshift/state/store.py:390-421 | a DEST_READY record and its source lease move to the destination at the next epoch together, or nothing changes |
| StateStore.SQLiteStateStore.RecoverCommittedMigration | agentshift/state/store.py:458-499 | a committed or released record moves its lease on to source epoch + 2, once |
| StateStore.SQLiteStateStore.InsertEffect | agentshift/state/store.py:524-541 | insert-or-ignore of a PREPARED effect |
| StateStore.SQLiteStateStore.CasEffect | agentshift/state/store.py:543-574 | compare-and-swap of the effect status with epoch and result |
| OwnershipProtocol.OwnInvReachable | agentshift/state/store.py:329-499 | leases, records, pending starts and moves stay consistent in every interleaving, with the lease read of start_migration before its insert |
| OwnershipProtocol.EpochAccounting | agentshift/state/store.py:390-421 | owner epoch = registered epoch + committed and released migrations + twice the recovered ones + as much for each of those that was cleared late |
| OwnershipProtocol.EpochAccountingIff | agentshift/state/store.py:390-456 | the states of the records alone account for an agent's epoch if and only if none of its records was cleared late |
| OwnershipProtocol.CommittedIsRecoverable | agentshift/state/store.py:458-499 | a COMMITTED record's agent is at its destination at source epoch + 1, so its recovery never meets a stale lease and grants source epoch + 2 |
| OwnershipProtocol.ReleasedIsRecoverableIff | agentshift/state/store.py:458-499 | recovering a SOURCE_RELEASED record succeeds if and only if the agent's epoch is still the one that record granted |
| OwnershipProtocol.RefusedRecoveryIsReachable | agentshift/state/store.py:458-499 | for any agent and engines: once its source let go and the agent was handed on, a reachable record's recovery is refused |
| OwnershipProtocol.MovesMatchState | agentshift/state/store.py:354-421 | ownership moved through a record 0, 1 or 2 times exactly according to its state, or, if it was cleared late, to the state it was cleared from |
| OwnershipProtocol.AbortedNeverMovedIff | agentshift/state/store.py:354-456 | ownership never moved through an ABORTED record if and only if the record was not cleared late |
| OwnershipProtocol.OneLiveMigration | agentshift/state/store.py:124-127 | at most one live record per agent |
| OwnershipProtocol.EpochHasOneOwner | agentshift/state/store.py:390-499 | over any run equal epochs of an agent mean equal owning engines, and epochs never fall |
| TurnProtocol.TurnInvReachable | agentshift/runtime/executor.py:20-63 | turns, claims, commit log and leases stay consistent in every interleaving |
| TurnProtocol.OneExecutorPerStep | agentshift/runtime/executor.py:20-63 | at most one executor is between claim and fail or commit of a step, even when rids repeat |
| TurnProtocol.FailNeverConflicts | agentshift/runtime/executor.py:20-63 | the executor of a turn always finds its own claim to fail |
| TurnProtocol.CommitOutcome | agentshift/runtime/executor.py:20-63 | its commit succeeds if and only if its epoch is current and its step is next; then it builds on the stored continuation, so no write is lost |
| TurnProtocol.CommitLogIsFenced | agentshift/state/store.py:180-307 | commits of an agent rise in step and never fall in epoch, each under the engine that owned its epoch |
| TurnProtocol.OneResultPerStep | agentshift/state/store.py:264-307 | at most one result is committed per step |
| TurnProtocol.CompletedStepsAreAnInterval | agentshift/state/store.py:207-307 | without direct commits the COMPLETED steps are exactly those after registration up to the committed one |
| TurnProtocol.LostExecutorIsStuck | agentshift/runtime/executor.py:20-63 | a crash, or a lease that moves between generation and commit, leaves the agent stuck: its next step claimed, and every executor on it past generation under an old epoch |
| TurnProtocol.StuckForever | agentshift/state/store.py:207-327 | nothing but a direct commit_step ever advances a stuck agent, whoever owns it and whatever sequence of actions follows |
| TurnProtocol.AdvancesIffNotStuck | agentshift/runtime/executor.py:20-63 | some sequence of claims, reads, failures and commits takes an agent past its committed step if and only if it is not stuck |
| TurnProtocol.StuckIsReachable | agentshift/runtime/executor.py:20-63 | any agent can be brought to that state from empty tables |
| EffectProtocol.EffectInvReachable | agentshift/runtime/effects.py:16-69 | rows, holders, calls and replies stay consistent although the lease is read outside the transaction |
| EffectProtocol.SettleInvReachable | agentshift/state/store.py:524-574 | besides, every SUBMITTED effect has a holder that is on its way to record an outcome or is over, and no proxy past a lease check is ahead of its agent |
| EffectProtocol.AtMostOnce | agentshift/runtime/effects.py:16-69 | at most one external call per key; none while PREPARED; exactly one, with the stored answer, once COMPLETED |
| EffectExecution.ExecuteOutcome | agentshift/runtime/effects.py:20-69 | an execute that nobody disturbs, from any reachable tables: stale epoch raises, COMPLETED returns the stored result, SUBMITTED or UNKNOWN raises, each changing nothing; a new or PREPARED key is called exactly once, and its answer recorded and returned, or recorded as UNKNOWN and raised |
| EffectProtocol.ReturnsAgree | agentshift/runtime/effects.py:16-69 | all executes that return for a key return the answer of its one call |
| EffectProtocol.SettlesIffNotDoomed | agentshift/runtime/effects.py:16-69 | a SUBMITTED effect can still be settled by some sequence of proxy steps if and only if its holder is not over and is at its last write or holds the current epoch |
| EffectProtocol.DoomedForever | agentshift/runtime/effects.py:16-69 | otherwise it stays SUBMITTED over every run, whatever anybody does |
| EffectProtocol.LostLeaseOrphans | agentshift/runtime/effects.py:40-69 | a lease that moved during the external call leaves the effect so: the proxy raises before it records the outcome |
| EffectProtocol.OrphanIsNeverReplayed | agentshift/runtime/effects.py:16-69 | a SUBMITTED effect whose proxy crashed or raised is never called again or completed |
| EngineLocks.InvAlways | agentshift/controller/migration.py:165-238 | locks and calls agree after every sequence of events, while leases move underneath |
| EngineLocks.CheckedReadIff | agentshift/controller/migration.py:182-243 | at its own read a serial migration finds the source that it locked if and only if the agent is still there, which it is as long as its epoch has not risen since the check |
| EngineLocks.AlwaysUsesLocksIff | agentshift/controller/migration.py:165-243 | over a run all serial migrations always copy between the engines they locked if and only if none of them reads an agent that was moved since its check |
| EngineLocks.MovedLeaseSharesAnEngine | agentshift/controller/migration.py:182-243 | whenever a checked call's agent has been moved to an unlocked engine, the run goes on to two serial migrations in flight that copy from that engine |
| EngineLocks.CheckedCallIsMoved | agentshift/controller/migration.py:182-243 | a run from two registered agents to that point |
| EngineLocks.SerialsUseDisjointEngines | agentshift/controller/migration.py:165-243 | in a run in which no serial migration reads a moved agent, those in flight use pairwise disjoint engines |
| EngineLocks.UnmovedSerialsAreDisjoint | agentshift/controller/migration.py:165-243 | so do those of a run in which no lease is moved between a call's check and its own read |
| EngineLocks.NoWaitCycle | agentshift/controller/migration.py:165-238 | sorted two-lock acquisition never closes a wait cycle |
| EngineLocks.WaitersHaveARunner | agentshift/controller/migration.py:165-238 | behind every waiting call there is one that can proceed |
| EngineLocks.MovedCallStartsOver | agentshift/controller/migration.py:165-238 | a call whose agent was moved by the time it holds both locks gives them back, starts over and copies from where the agent is |
| EngineLocks.RetriesAreBounded | agentshift/controller/migration.py:165-238 | a call retries at most as often as its agent's epoch rose since it began |
| EngineLocks.PortBlocksAreDisjoint | agentshift/controller/migration.py:90-125 | different ordered engine pairs never share a transfer port |
| Coordinator.MigrationCoordinator.AbortUnlessReady | agentshift/controller/migration.py:458-467 | the except clause aborts only a record that is not yet DEST_READY |
| Coordinator.MigrationCoordinator.MigrateSerial | agentshift/controller/migration.py:240-467 | fault by fault the state left behind; ownership moved exactly when that state is COMMITTED |
| Coordinator.MigrationCoordinator.ReconcileAfterRestart | agentshift/controller/migration.py:539-602 | from any reachable tables a running copy and everything past the copying is left alone, every other live record is ABORTED with the restart note, no lease moves; it raises exactly when one of those has an unknown engine or a release that raises |
| Coordinator.MigrationCoordinator.CrashThenReconcile | agentshift/controller/migration.py:240-602 | from any reachable tables, fault by fault the state after the reconciliation: COMMITTED, still COPYING if reported so, or ABORTED; COMMITTED means ownership moved exactly once, and ABORTED never for every record that was not cleared late before |
| Coordinator.MigrationCoordinator.AcknowledgeDestination | agentshift/controller/migration.py:469-485 | undisturbed: a release is issued exactly for a COMMITTED record, and a failed one can be retried |
| Coordinator.MigrationCoordinator.BeginRelease | agentshift/controller/migration.py:470-479 | its read and release are the first steps of the acknowledgement process |
| Coordinator.MigrationCoordinator.FinishRelease | agentshift/controller/migration.py:480-485 | its compare-and-swap is the last one, on whatever the tables are by then |
| Coordinator.MigrationCoordinator.RecoverDestinationFailure | agentshift/controller/migration.py:506-537 | undisturbed: it succeeds exactly for a RECOVERED or COMMITTED record and a SOURCE_RELEASED one whose epoch is current; a rebind is tried exactly for a COMMITTED record going back to its source, and the lease returned is the one it was rebound to |
| Coordinator.MigrationCoordinator.PlanRecovery | agentshift/controller/migration.py:509-533 | its read and rebind are the first steps of the recovery process |
| Coordinator.MigrationCoordinator.CommitRecovery | agentshift/controller/migration.py:534-535 | its transaction is the next one, on whatever the tables are by then |
| Coordinator.MigrationCoordinator.ReadBack | agentshift/state/store.py:499-499 | its read of the agent for the caller is the last one, on whatever the tables are by then |
| CoordinatorProtocol.ExecIsReachable | agentshift/controller/migration.py:240-602 | drivers, recoveries, acknowledgements and restarts in any number and interleaving, with every awaited engine call, every row of a listing and the read-back of a recovery between two steps, only reach states of World and find what they rely on |
| CoordinatorProtocol.DriverEnds | agentshift/controller/migration.py:240-467 | a driver that returns moved ownership through its record; one whose except clause ran (any Exception; a cancelled call counts as crashed) leaves it ABORTED, DEST_READY or moved, never half copied |
| CoordinatorProtocol.FaultAborts | agentshift/controller/migration.py:458-467 | from any system: a driver whose engine call or commit raises, undisturbed, aborts a record that is not yet DEST_READY and leaves every other one, and every lease, alone |
| CoordinatorProtocol.RestartSettles | agentshift/controller/migration.py:539-602 | when a reconciliation returns, every record that it found and was not told is still copying is live only as COMMITTED; it is ABORTED exactly when ownership never moved through it, the latter if and only if nobody has cleared it late |
| CoordinatorProtocol.VisitOutcome | agentshift/controller/migration.py:548-577 | a visit changes no table: COMMITTED is passed by, a running copy is waited for, anything else is cleared next unless an engine raises |
| CoordinatorProtocol.AbortsOnlySettled | agentshift/controller/migration.py:548-602 | over every run a reconciliation writes nothing but one record marked ABORTED, in the state it was read in, not COMMITTED, and a COPYING one only after the engines were asked and neither reported a running copy |
| CoordinatorProtocol.AbortsAreCleanIff | agentshift/state/store.py:442-456 | over every run: after every event every ABORTED record never moved ownership, if and only if no reconciliation cleared a row that it read after the record left the live states |
| CoordinatorProtocol.CleanRunsAccount | agentshift/state/store.py:390-456 | in such a run the states of the records account for every move and every epoch |
| CoordinatorProtocol.LateReadAbortsAMove | agentshift/state/store.py:442-456 | for any agent, a run from empty tables in which a released record is listed as COMMITTED, read later and marked ABORTED, and the accounting fails |
| CoordinatorProtocol.ReleasesAreAfterTheMove | agentshift/controller/migration.py:469-485 | a source release is issued only after ownership moved |
| CoordinatorProtocol.AcknowledgeOutcome | agentshift/controller/migration.py:469-485 | after the release the compare-and-swap succeeds if and only if nobody has recovered or released the record meanwhile |
| CoordinatorProtocol.RecoveryGrantsIff | agentshift/controller/migration.py:506-537 | a planned recovery's transaction succeeds unless the record was cleared late, or is SOURCE_RELEASED and its agent moved on; right after it the agent holds the lease the shadow was rebound to if and only if the record was not yet RECOVERED, or was recovered to that engine and the agent is still there |
| CoordinatorProtocol.RecoveryReportsIff | agentshift/state/store.py:458-499 | what is then read for the caller is that lease if and only if the recovery was its own, or one to the same engine, and nobody has handed the agent on by the time of the read |
| CoordinatorProtocol.RecoveredMatchesIff | agentshift/controller/migration.py:506-537 | the same for whatever a recovery has returned, at any later time |
| CoordinatorProtocol.HandedOnBeforeReadBack | agentshift/state/store.py:458-499 | whenever a recovery awaits on a COMMITTED record, the agent can be handed on between its transaction and its read: it returns an engine and an epoch that are not those it reports the shadow rebound to |
| CoordinatorProtocol.RivalRecoveryWins | agentshift/controller/migration.py:506-537 | whenever a recovery awaits on a COMMITTED record, another to a different engine can come first, and the first reports the source shadow reused with the other's lease |
| CoordinatorProtocol.ReusedShadowWithoutLease | agentshift/controller/migration.py:506-537 | two runs from empty tables that end so, one by a rival and one by a handoff before the read |
| CoordinatorProtocol.ReleasedShadowIsReported | agentshift/controller/migration.py:469-537 | a run in which a recovery reports a shadow reused whose release had been issued and had returned |
| Sorting.SortSorts | agentshift/controller/placement.py:20-41 | the sort orders by any total preorder |
| Sorting.SortKeepsElements | agentshift/controller/placement.py:20-41 | and keeps every element as often as it occurs |
| Sorting.SortIsStable | agentshift/controller/placement.py:20-41 | and keeps those of equal keys in order |
| AdmissibleOrder.OrderAdmissibleFirst | agentshift/controller/placement.py:10-41 | the result follows the policy rule by rule: taken by deadline, an overrun defers the longest admitted item, the largest of those, the first of equals; then the admitted ones, and the deferred ones by deadline and duration, equals in order |
| AdmissibleOrder.ResultIsPermutation | agentshift/controller/placement.py:10-41 | the result is a permutation of the items |
| AdmissibleOrder.ResultShape | agentshift/controller/placement.py:20-41 | a first part is on time and rises in deadline, the rest rises in deadline and then in duration |
| AdmissibleOrder.AdmittedAreOnTime | agentshift/controller/placement.py:10-41 | every admitted item finishes by its deadline |
| AdmissibleOrder.AdmissibleFirstIsOptimal | agentshift/controller/placement.py:10-41 | no order of the same items has fewer late ones |
| AdmissibleOrder.KeepDominates | agentshift/controller/placement.py:20-41 | the exchange argument: any feasible subset has a counterpart of equal size and no more work inside the kept set |
| AdmissibleOrder.ProjectedCost | scripts/benchmark_migration_policy.py:39-45 | late count, total and worst exposure of an order |
| AdmissibleOrder.MatchesOracle | scripts/benchmark_migration_policy.py:67-77 | its late count equals that of the cheapest of all permutations |
| Placement.Select | agentshift/controller/placement.py:220-272 | the loops with their sets, totals and reservations compute the specified selection, or report the missing source load |
| Placement.ScoredPays | agentshift/controller/placement.py:151-218 | a move scores positively exactly when it pays: other engine, no unknown effect, room, exposure accepted, relief of queue or pressure, each figure by its formula and the weighted sum positive |
| Placement.ShorterQueuePays | agentshift/controller/placement.py:151-218 | with a shorter queue at the destination a move that pays still does, at least as well |
| Placement.SelectedAreOffered | agentshift/controller/placement.py:220-272 | every selected move pays, from a candidate to a permitted load, even where ids repeat |
| Placement.RaisesIffSourceMissing | agentshift/controller/placement.py:176-179 | select raises if and only if some candidate could go to some permitted load and its source has no load |
| Placement.RankedAreOffered | agentshift/controller/placement.py:220-246 | exactly the paying moves of candidates to permitted engines are ranked |
| Placement.ReservationsNeverReject | agentshift/controller/placement.py:247-272 | the token reservation test never rejects what score accepted: the selection is plain greedy matching |
| Placement.GreedyIsHalf | agentshift/controller/placement.py:247-272 | greedy matching reaches half of any engine-disjoint set of up to twice as many moves |
| Placement.SelectionIsBounded | agentshift/controller/placement.py:220-272 | at most the cap of pairwise engine-disjoint offered moves |
| Placement.SelectionIsHalfOptimal | agentshift/controller/placement.py:152-272 | total score at least half that of any engine-disjoint set of offered moves, even with twice the cap |
| Retention.CandidateIsNoWorse | agentshift/controller/baselines.py:29-51 | every real TTL is matched by a tried one that is no longer |
| Retention.CostsAdd | agentshift/controller/baselines.py:33-44 | the cost of samples is the sum of the costs of each |
| Retention.CalibrateTtl | agentshift/controller/baselines.py:16-59 | the least minimiser of the empirical cost over all real TTLs >= 0, with its cost |
| ListScheduling.BalancedIsOptimal | scripts/benchmark_hotspot.py:120-136 | a split in which each engine's last job would finish no earlier on the other has the least makespan |
| ListScheduling.AgentixAssignment | scripts/benchmark_hotspot.py:120-136 | no assignment of the agents to the two engines has a smaller makespan |
| Autoscaler.WarmPoolAutoscaler.Create | agentshift/controller/autoscaling.py:37-73 | accepts exactly the configurations that the constructor accepts |
| Autoscaler.WarmPoolAutoscaler.Step | agentshift/controller/autoscaling.py:89-176 | one tick updates states, streaks and clock together and returns its actions; missing observations change nothing |
| Autoscaler.Lightest | agentshift/controller/autoscaling.py:157-164 | the drained engine has the fewest owners, then the fewest requests, and of equals is the last configured |
| Autoscaler.PoolAlwaysOk | agentshift/controller/autoscaling.py:89-176 | over every run at least min_active engines are ACTIVE and at most one is DRAINING |
| Autoscaler.ConsecutiveCooldown | agentshift/controller/autoscaling.py:122-176 | consecutive scaling ticks are a cooldown apart, whatever the clock does |
| Autoscaler.CooldownHolds | agentshift/controller/autoscaling.py:122-176 | with a non-negative cooldown any two scaling ticks are |
| Autoscaler.StreakIsUnbroken | agentshift/controller/autoscaling.py:108-121 | a streak counts the complete ticks of an unbroken stretch of demand ending now, none of which scaled |
| Autoscaler.ScalingFollowsUnbrokenDemand | agentshift/controller/autoscaling.py:108-176 | a drain start (or scale-out) follows at least its number of windows of quiet (or busy) ticks, none of the earlier ones scaling |
| Autoscaler.ScalesIff | agentshift/controller/autoscaling.py:89-176 | exactly when a tick of a run adds an engine or starts a drain: complete observations, cooldown, a long unbroken stretch of demand, and a spare engine, or more than the minimum active with none left draining |
| Autoscaler.DemandSpelledOut | agentshift/controller/autoscaling.py:105-118 | demand in whole requests: the waiting total, and the request total against the limit times the active engines |
| Autoscaler.AddsFirstSpare | agentshift/controller/autoscaling.py:125-150 | the engine added is the first spare one in configuration order |
| Autoscaler.LeavesServiceEmpty | agentshift/controller/autoscaling.py:97-103 | an engine goes from ACTIVE to STANDBY only by being chosen, draining without interruption and being observed empty |
| SnapshotDirectory.ConfirmedPrefixes | agentshift/controller/snapshot_directory.py:62-72 | boundaries are accepted exactly when positive, strictly increasing and within the matched part |
| SnapshotDirectory.Parse | agentshift/controller/snapshot_directory.py:42-72 | exactly the well-formed inspections are believed, and each confirms exactly the listed prefixes |
| SnapshotDirectory.BestReusablePrefix | agentshift/controller/snapshot_directory.py:88-97 | the longest observed prefix of the tokens within the limit, or 0 |
| SnapshotDirectory.TrimIsLongestSuffix | agentshift/controller/snapshot_directory.py:164-167 | evicting the oldest keeps the longest suffix that fits both limits |
| SnapshotDirectory.TrimStep | agentshift/controller/snapshot_directory.py:157-167 | confirming after each eviction forgets the same entries as evicting once at the end |
| SnapshotDirectory.EngineObservations.Observe | agentshift/controller/snapshot_directory.py:148-168 | the delete and insert loops leave the off-path entries in order, then the confirmed ones, less the oldest that do not fit; token_count is exact |
| SnapshotDirectory.SnapshotDirectory.Create | agentshift/controller/snapshot_directory.py:122-132 | three positive limits, or ValueError |
| SnapshotDirectory.SnapshotDirectory.Update | agentshift/controller/snapshot_directory.py:141-172 | all of it or nothing when the inspection is malformed; the engine becomes the most recent, a new one displaces the least recent only when the directory is full, and every other engine stays as it was |
| SnapshotDirectory.SnapshotDirectory.LookUp | agentshift/controller/snapshot_directory.py:182-192 | the longest retained prefix, shorter than the prompt if a suffix is required; that prefix and its engine become the most recent and nothing else changes |
| SnapshotDirectory.SnapshotDirectory.DiscardEngine | agentshift/controller/snapshot_directory.py:194-195 | forgets one engine |
| SnapshotDirectory.RetainedAreConfirmed | agentshift/controller/snapshot_directory.py:141-198 | over every run the three limits hold, counts are exact, and only entries of the unbounded reference are retained |
| SnapshotDirectory.LookupWithinReference | agentshift/controller/snapshot_directory.py:182-192 | a lookup never answers more than the reference would, and only confirmed prefixes |
| SnapshotDirectory.ConfirmedIsFound | agentshift/controller/snapshot_directory.py:157-192 | after any believed inspection its longest boundary within the token limit is retained, and every prompt that continues it, the inspected one or a branch, is answered at least that much |
| SnapshotDirectory.ForgetsOnlyForSpace | agentshift/controller/snapshot_directory.py:148-167 | an update retains exactly the off-path and the confirmed entries if and only if together they fit |
| DirectoryRecency.KnownIffRecent | agentshift/controller/snapshot_directory.py:141-198 | after any run an engine is known if and only if it was used and not discarded since, and at every moment since its last use fewer than max_engines others were used after it and not discarded |
| Intervals.Merged | experiments/agentic_profile/analyze_engine_traces.py:11-20 | sorted, strictly separated intervals covering exactly the input's instants |
| Intervals.SeparatedIsCanonical | experiments/agentic_profile/analyze_engine_traces.py:11-20 | there is only one such list |
| Intervals.Union | experiments/agentic_profile/analyze_engine_traces.py:23-24 | the measure of the covered instants; also union_duration of analyze_workflow_overlap.py |
| Intervals.ClippedPoints | experiments/agentic_profile/analyze_engine_traces.py:27-28 | clipping covers exactly the instants inside the window |
| Intervals.Intersection | experiments/agentic_profile/analyze_workflow_capture.py:11-22 | the two-pointer sweep covers exactly the common instants, separated |
| Intervals.MeasureBoth | experiments/agentic_profile/analyze_workflow_capture.py:61-75 | the outputs of union and intersection satisfy union(A) + union(B) = union(A ++ B) + union(intersection(A, B)), and union(A) minus the shared measure is what A covers alone |
| Intervals.OverlapSeconds | experiments/agentic_profile/profile_state_work.py:30-41 | the all-pairs overlap is the measure of the common instants; also union_overlap of report_state_work.py |
| Intervals.WindowIntersection | experiments/agentic_profile/analyze_workflow_overlap.py:20-22 | one window against many intervals |
| RelocationCensus.Scatter | experiments/fluidkv/analyze_native_relocation_space.py:122-127 | all blocks are compared before any is written, and of repeated blocks the last write wins |
| RelocationCensus.CheckPredecessors | experiments/fluidkv/analyze_native_relocation_space.py:119-127 | passes if and only if each later request's block follows what its last occurrence in each earlier request follows |
| RelocationCensus.UniquePredecessorsPass | experiments/fluidkv/analyze_native_relocation_space.py:119-127 | it raises no false alarm |
| RelocationCensus.BlockIdentifiesPrefix | experiments/fluidkv/analyze_native_relocation_space.py:119-127 | after it passes, requests agreeing on a block at an index agree on everything before it, even with repeated blocks |
| RelocationCensus.Replay | experiments/fluidkv/analyze_native_relocation_space.py:128-216 | active sets, prefix counters, last completions with common prefix and gap, and the peak equal a direct recount |
| RelocationCensus.SharingIsWholePrefix | experiments/fluidkv/analyze_native_relocation_space.py:198-203 | the counter counts exactly the in-flight same-model requests sharing the whole prefix |
| PlacementCensus.PrefixCount | experiments/fluidkv/analyze_native_relocation_space.py:33-35 | the number of leading entries that hold |
| PlacementCensus.LeastLoadedWorker | experiments/fluidkv/analyze_native_relocation_space.py:62-62 | the first of the least loaded workers |
| PlacementCensus.Census | experiments/fluidkv/analyze_native_relocation_space.py:38-96 | loads, target and the hits on source and target equal a direct recount, and the warm, mismatch, missing-token and idle counters count exactly those arrivals |
| Sampler.Sampler.Sample | experiments/agentic_profile/telemetry.py:150-186 | one sample charges each readable process against its last reading or its baseline |
| Sampler.ChargedIsUsed | experiments/agentic_profile/telemetry.py:150-186 | the account is never below the sum of last reading less baseline, and equals it if and only if no counter ran backwards |
| Production.SurrogateTokens | agentshift/workloads/production.py:47-51 | defined exactly for matching lengths, with exactly the input length |
| Production.Matched | agentshift/workloads/production.py:83-87 | the number of leading blocks shared |
| Production.OverlapIsShared | agentshift/workloads/production.py:82-89 | both prompts start with the same tokens up to the verified overlap |
| Production.FullOverlapIff | agentshift/workloads/production.py:88-96 | the overlap fills a block-aligned parent if and only if its blocks begin those of a child that is long enough |
| Production.OverlapCountsShared | agentshift/workloads/production.py:82-89 | the overlap is the number of token positions up to which all blocks agree |
| Production.InspectRows | agentshift/workloads/production.py:54-126 | rejects exactly the invalid inputs; link counts, request types, largest family, token sums, span and the sorted pairs are those of the rows |
| Production.TallyIsAPartition | agentshift/workloads/production.py:69-96 | every row is a root, an orphan or linked; every link is exact, ends in a partial block or is not fully matched |
| Production.TallyNext | agentshift/workloads/production.py:69-106 | what one more row adds to each count |
| Production.PairsAreExactPrefixes | agentshift/workloads/production.py:54-126 | an admitted pair's parent prompt is a proper prefix of the child's, earlier and within the limit |
| Production.ReportedPairs | agentshift/workloads/production.py:54-126 | the reported pairs are exactly the qualifying ones, by arrival and id of the child |
| Production.SelectExactParentCohort | agentshift/workloads/production.py:129-151 | rows are looked at by arrival and a pair is taken when it is exact and both fit; the loop with its early exit selects just these, and returns their rows by arrival |
| Production.CohortIsExact | agentshift/workloads/production.py:129-151 | the cohort stays within max_requests, every row in it has an exact-prefix partner in it, and no candidate that still fits is left out |

## Left out

- HTTP clients, engines, NCCL and GPU transfer: an engine call is a nondeterministic success, failure or status.
- SQLite itself: a transaction is atomic, with primary keys, the foreign key and the partial unique index; timestamps, WAL and JSON encoding are not modelled.
- uuid generation: a new migration id is required to be fresh.
- Clocks, polling loops, timeouts and float rounding.
- The mailbox tables, `agentix_style_route`, `choose_destination`, `should_move`, materialization, global mobility and the percentile helpers: short choices or wrappers without state of their own.
- StateStore.SQLiteStateStore.StartMigration: is the sequential call; the gap between its lease read and its insert is kept in `World`.
- Coordinator.MigrationCoordinator.MigrateSerial: keeps the store writes, the fault points and the except clause of `_migrate_serial` and of the hybrid driver, not their engine calls, and nobody writes between its own writes; drivers among other processes are those of `CoordinatorProtocol`.
- `_handoff_serial` of tiered.py is not one of those drivers: its except clause awaits a release and clean-ups before it reads the record, so it can raise and leave the record COPYING, like a driver that crashes, until a reconciliation clears it.
- Coordinator.MigrationCoordinator.ReconcileAfterRestart: nobody writes while it runs; reconciliation among other processes is `CoordinatorProtocol.RestartSettles`.
- Coordinator.MigrationCoordinator.CrashThenReconcile: the same, from tables that other processes may have left in any reachable state.
- Coordinator.MigrationCoordinator.AcknowledgeDestination: nobody writes between its two halves; `CoordinatorProtocol.AcknowledgeOutcome` is the general case.
- Coordinator.MigrationCoordinator.RecoverDestinationFailure: nobody writes between its parts; `CoordinatorProtocol.RecoveryGrantsIff` and `RecoveryReportsIff` are the general case.
- Release locks between acknowledgements of one process are not needed for `CoordinatorProtocol` and not kept.
- `migrate_async` and `acknowledge_async_migration` issue the same store transitions, which `World` allows in any interleaving; their polling is not modelled.
- What the engines make of a rebind or a release is not modelled, only when they are issued and what they came back with.
- Retention.CalibrateTtl: prices and gaps are exact reals; the reported fields other than TTL and cost are not kept.
- ListScheduling.AgentixAssignment: the calibrated seconds are parameters.
- Autoscaler.PoolAlwaysOk: is stated for distinct engine ids; reasons in the action records are not kept.
- SnapshotDirectory.Parse: a value is a non-negative integer, absent or malformed; Python's concrete types are not told apart.
- RelocationCensus.Replay: takes requests in the time order that flatten in experiments/weka_gravity/audit.py returns; the totals and percentiles that the report forms from the arrivals are not kept.
- PlacementCensus.Census: homes are a parameter instead of hashes; the context-fit counters and the samples are not kept.
- Sampler.Sampler.Sample: the discovered processes are an input, so process discovery and its refusal of a replaced root are not modelled; context switches follow the same rule as CPU seconds and are not repeated.
- Production.SurrogateTokens: which 16 tokens stand for a block is left open.
