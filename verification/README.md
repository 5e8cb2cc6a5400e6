# Verified model of the UPS and Wake-on-LAN agent

This project models the crash-tolerant core of the agent in Dafny 4.11 and proves what it promises. `dafny verify
dfyconfig.toml` checks all of it.

The model follows the program's own structure.

* **The power transaction.** `Policy.dfy` gives the ten-state outage and recovery machine as a function of its memory,
  the clock and one observation; `Engine.dfy` is the object that updates itself in place and is proved to compute that
  function. `Coordinator.dfy` couples the engine to durable writes, `Controller.dfy` and `RecoveryExecutor.dfy` turn
  decisions into ordered shutdowns, forced shutdown and wakes, `Agent.dfy` is process start-up and the control loop.
  `World.dfy` stands for everything outside: probes, commands, wakes and writes are answered arbitrarily and recorded,
  with the answers that decide anything and with whatever else goes wrong. A method that reports an error proves that
  something did.
* **Histories.** `History.dfy` defines what the outside world sees of the agent: a history of writes, process starts,
  observations and side effects, replayed to the disk and memory they leave. Each event has a guard over the history
  before it. The world only accepts events whose guard holds, so every method of the controller proves the guards of
  the effects it causes, and `Agent.Live` shows that any run, with errors and with power cuts that throw history back
  to any point of the lifetime they end, stays legal. The theorems in `Invariants.dfy`, `OutageTheorems.dfy`,
  `EffectTheorems.dfy` and `ShutdownTheorems.dfy` are inductions over all legal histories. `PolicyLaws.dfy` says in
  terms of configuration and observations alone when each power state is left, step by step and over whole histories.
  `Exclusions.dfy` adds what the configuration revision fixes. `CompleteRun.dfy` and `HeldUpRun.dfy` exhibit whole
  legal runs.
* **Shutdown passes.** `Settling.dfy` gives what one pass makes of a directly managed host as a function of what the
  surroundings answer, and says when a pass can get past a host.
* **Renewed outages.** `Snapshot.dfy` gives the records an outage begins with; `Renewal.dfy` says which readings renew
  an outage, what a power cut can leave of it and why the next process can finish it. `RunTheorems.dfy` follows whole
  runs of the control loop, over restarts, and `RecoveryRuns.dfy` bounds how long a recovery takes.
* **The recovery scheduler.** `CycleCheck.dfy` is the three-colour depth-first search, `Kahn.dfy` the plan with its
  priority queue, `Plan.dfy` the specification both refer to, `Recovery.dfy` the selection of the next host, the
  failure cascade and the measure that makes recovery end.
* **The two-generation store.** `Store.dfy` rotates two checksummed files by rename; a crash may bring back any
  directory image not yet overwritten durably. `StoreRefinement.dfy` shows that histories may speak of one durable
  generation instead.
* **Configuration revisions.** `Revisions.dfy` is the history on disk, `Manager.dfy` the operations on it and
  `Startup.dfy` start-up recovery. Every write is one atomic file replacement that may fail with or without taking
  effect; every state the disk passes through is kept in a log, and crashes may end the log anywhere.

Instants and durations of the power transaction are unbounded integers counted in nanoseconds; Go's zero times are
options. Maps and slices are values that the modelled objects reassign.

Some promises hold only under a condition. The inputs on which they fail and the exact conditions are among the results.

* **A renewed outage leaves nobody marked as shut down.** After a restart on a committed disk inside a renewal, the
  first ON_BATTERY reading renews the outage exactly if the engine, just before it, is still in BOOT_RECONCILE, in
  RECOVERY_STARTED or RESTORE_HOSTS, or in NORMAL without FSD; in every other state (RECOVERY_WAIT, WAITING_FOR_AC,
  FAILED_SAFE, or a shutdown) all Completed markers stay, unless an earlier reading has already renewed it
  (`RunTheorems.FirstOnBattery`, `Renewal.OnBatteryRenews`). The engine is in BOOT_RECONCILE exactly as long as all
  readings are unknown, and reaches the recovery states and NORMAL only after ONLINE readings a whole stability window
  apart. So, with recovery enabled, no alarms and no such window, the promise holds exactly if every earlier reading
  was unknown: one ONLINE reading is enough to lose it (`CompleteRun.StaleMarkerSurvives`). An uncommitted disk inside
  a renewal has no Completed marker to begin with.
* **Recovery ends.** A recovery step makes progress unless recovery is stalled: every waiting host is held up, through
  waiting dependencies, by one whose record says that it need not be recovered (`Recovery.UnsettledHasCandidate`,
  `Recovery.StallHappens`). That takes a process with other hosts than the one that took the snapshot, such as one in
  which a host excluded for a missing SSH key is back (`Exclusions.ExclusionLeavesRecord`, `CompleteRun.RecoveryStalls`);
  it never happens while all processes run with the same hosts (`Renewal.RecoveryNeverStalls`). Otherwise, while it is
  safe to go on and no write fails, recovery ends within a time fixed by the work left, the longest wake delay and the
  longest gap between readings (`RecoveryRuns.RecoveryEnds`).
* **A committed shutdown ends.** A pass can get past a directly managed host exactly if it needs nothing more, or has
  not been asked and has attempts left, or was asked and can be observed (`DirectShutdowns.SomeAnswersGetPast`). A host
  that cannot be observed is therefore settled only in the tick that asks it; if anything else keeps that tick from
  ending the phase, the shutdown waits for ever or fails safe (`RunTheorems.HeldUpForEver`, `HeldUpRun.ShutdownIsHeldUp`).
* **Start-up settles the configuration history.** With damaged pointers it does not exactly when there is no active
  pointer, or the active file matches an active revision that is rolled back, or known-good with its own copy spoilt
  (`Startup.Stuck`, `Startup.RolledBackRevisionStaysActive`). Damage to the pointers alone never leads there
  (`Startup.DamagedPointersAreNotStuck`).
* **A revision is recorded as failed before it is rolled back.** It is not exactly when the write of that very record
  is lost and everything after it succeeds (`ConfigManager.Manager.RollbackLocked`, `Revisions.FailedCanBeSkipped`).

## Model

| member | source | states |
|---|---|---|
| `CycleCheck.ValidateHostDependencyCycles` | agent/internal/config/config.go:419-466 | For every iteration order a problem is reported if and only if the dependency graph has a cycle (self-loops count, unknown identifiers do not), and each reported sequence is a real closed walk |
| `CycleCheck.Checker.Visit` | agent/internal/config/config.go:433-459 | One depth-first visit leaves the stack as it was, marks the host, and either reports a problem or finishes it after all its dependencies |
| `CycleCheck.Checker.ReportCycle` | agent/internal/config/config.go:436-446 | What is cut out of the stack is a closed walk of the graph |
| `Kahn.BuildRecoveryPlan` | agent/internal/host/plan.go:85-138 | Fails exactly when the restore-eligible subgraph has a cycle; otherwise the result is the greedy plan of that subgraph |
| `Kahn.DrainQueue` | agent/internal/host/plan.go:121-137 | Draining the ready queue yields a greedy plan, which falls short only on a cyclic graph |
| `Kahn.Emit` | agent/internal/host/plan.go:127-132 | Taking one host out and lowering its dependants' counters keeps counters and frontier exact |
| `Kahn.CountDependencies` | agent/internal/host/plan.go:93-106 | Counters count the unplanned eligible dependencies; the child lists are the inverted edges |
| `Kahn.StuckIsCyclic` | agent/internal/host/plan.go:134-136 | An empty frontier with hosts left over proves a cycle |
| `Kahn.PlannedIsAcyclic` | agent/internal/host/plan.go:134-137 | A complete plan proves the absence of cycles |
| `Plan.PlanIsTopologicalPermutation` | agent/internal/host/plan.go:85-138 | A recovery plan lists every eligible identifier once, each after its eligible dependencies |
| `Plan.PlanIsUnique` | agent/internal/host/plan.go:114-133 | At every place stands the least (priority, id) ready host, so the plan does not depend on map iteration order |
| `Plan.LowestPriorityFirst` | agent/internal/host/plan.go:114-133 | At every place no other host that could stand there has a lower wake priority, or the same and a smaller id |
| `Plan.EligibleHosts` | agent/internal/host/plan.go:69-83 | A recorded host takes part if and only if waking is enabled and its restore policy is always, or previous-state (or unset) and it was running before the outage |
| `Plan.AcceptedConfigurationPlans` | agent/internal/config/config.go:419-466 | A configuration without reported cycle has an acyclic eligible subgraph for every host-state map |
| `Plan.BuildShutdownPlan` | agent/internal/host/plan.go:39-67 | The plan is the stable sort of the direct hosts by (priority, id) and of the NUT group by id |
| `Plan.ShutdownPlanPartitions` | agent/internal/host/plan.go:39-67 | With unique ids the plan partitions the hosts by shutdown method: those other than nut, none and empty in strictly increasing (shutdown priority, id), the nut ones by id |
| `Sorting.StableSortSorts` | agent/internal/host/plan.go:52-58 | The library sort puts nobody before a host of lower rank |
| `Basics.LessIsLexicographic` | agent/internal/host/plan.go:52-58 | Ties are broken as Go compares strings: by the first differing character, or by which ends first |
| `Recovery.NextRecoveryHost` | agent/internal/host/recovery.go:30-61 | Chooses the first unfinished host of the recovery plan whose restorable dependencies are online, nobody if there is none, and fails on a cycle |
| `Recovery.NextIsDetermined` | agent/internal/host/recovery.go:30-61 | Two selections on the same records agree |
| `Recovery.CandidateIsEligible` | agent/internal/host/recovery.go:39-58 | The chosen host is configured, recorded, restore-eligible, unfinished and waits for no dependency |
| `Recovery.MarkBlockedRecovery` | agent/internal/orchestrator/controller.go:697-724 | One pass fails every unfinished host that has a failed dependency when it starts, and beyond those only hosts that depend on one failed by the pass; it changes something exactly if somebody was blocked, and then the remaining work shrinks |
| `Recovery.WorkAfterUpdate` | agent/internal/orchestrator/controller.go:681-725 | Replacing one host's record changes the remaining work by that host's share alone |
| `Recovery.UnsettledHasCandidate` | agent/internal/orchestrator/controller.go:558-568 | While recovery is unsettled and nobody is blocked, a host is selected if and only if recovery is not stalled, that is, unless every waiting host is held up through waiting ones by a record that says recovery is not required; whatever records exist and whatever order hosts are listed in |
| `Recovery.TrackedNeverStalls` | agent/internal/orchestrator/controller.go:156-192 | With every host's record as a snapshot of this configuration leaves it, recovery cannot stall |
| `Recovery.StallHappens` | agent/internal/host/recovery.go:39-58 | The input on which it does: a dependency that was left out at the snapshot and is back in the configuration holds up its dependant for ever |
| `Exclusions.ExclusionLeavesRecord` | agent/internal/host/armed_runtime_validation.go:88-102 | That record is what the snapshot takes of a host excluded by a failed SSH prerequisite |
| `Restoration.RecoveryExecutor.RunNext` | agent/internal/host/recovery.go:65-121 | Works on the selected host alone: it is looked at, and then recorded online exactly if this look saw it so, failed exactly if it did not and its attempts are used up, and woken once more otherwise; its remaining work shrinks, and only a failed write leaves the records as they were |
| `Restoration.RecoveryExecutor.CountAndWake` | agent/internal/host/recovery.go:96-120 | The incremented attempt is durable before the wake is sent |
| `Restoration.RecoveryExecutor.DispatchWake` | agent/internal/host/recovery.go:110-110 | A wake is only sent with memory and disk in step, right after the attempt was recorded, once a tick and not before its spacing |
| `EngineObject.Engine.Step` | agent/internal/policy/engine.go:77-189 | The in-place transition computes the transition function on everything the engine holds, and nothing else |
| `EngineObject.Engine.ReconcileBoot` | agent/internal/policy/engine.go:217-293 | As for Step, from BOOT_RECONCILE |
| `EngineObject.Engine.StepOnBattery` | agent/internal/policy/engine.go:295-349 | As for Step, during an outage |
| `EngineObject.Engine.CheckpointOutage` | agent/internal/policy/engine.go:351-366 | As for Step: the durable clock moves at most every checkpoint interval |
| `EngineObject.Engine.StepRecoveryWait` | agent/internal/policy/engine.go:381-425 | As for Step, behind the recovery gates, which PolicyLaws.RecoveryCommits spells out |
| `EngineObject.Engine.MarkShutdownPhaseComplete` | agent/internal/policy/engine.go:191-197 | Leaves the shutdown phase for WAITING_FOR_AC, and does nothing elsewhere |
| `EngineObject.Engine.MarkRecoveryComplete` | agent/internal/policy/engine.go:199-215 | Returns to NORMAL with both flags, the clock and every timer cleared, and does nothing outside RESTORE_HOSTS |
| `EngineObject.Engine.constructor` | agent/internal/policy/engine.go:63-73 | Every process starts in BOOT_RECONCILE, remembering the persisted power state |
| `PolicyLaws.NormalStep` | agent/internal/policy/engine.go:86-99 | From NORMAL, FSD commits and nothing else does; ON_BATTERY without FSD opens an outage with a clock at zero; any other reading changes nothing |
| `PolicyLaws.OutageCommits` | agent/internal/policy/engine.go:295-345 | An uncommitted outage commits if and only if there is FSD, low battery while not ONLINE, an unknown run past its grace, or, ON_BATTERY past the grace period, runtime or charge at or below its limit or the maximum time reached |
| `PolicyLaws.OutageEnds` | agent/internal/policy/engine.go:296-308 | It ends if and only if the reading is ONLINE without FSD and so was the one before, leaving no elapsed time |
| `PolicyLaws.DurableClockAdvances` | agent/internal/policy/engine.go:351-373 | While it goes on, the durable clock takes the elapsed whole seconds every thirty seconds and is otherwise left alone |
| `PolicyLaws.CommitCommits` | agent/internal/policy/engine.go:368-379 | A commit sets flag and state in one change and, on a crossed threshold, the elapsed time |
| `PolicyLaws.WaitingForPower` | agent/internal/policy/engine.go:117-128 | WAITING_FOR_AC is left exactly for an ONLINE reading with recovery enabled, which starts the stability window |
| `PolicyLaws.RecoveryCommits` | agent/internal/policy/engine.go:381-463 | Recovery is committed if and only if it is enabled, the reading is ONLINE without low battery or FSD and closes the stability window, network and health are fine, and the reported charge has reached its minimum, or else the runtime, or else the recharge time has passed |
| `PolicyLaws.RecoveryWaitEnds` | agent/internal/policy/engine.go:381-431 | RECOVERY_WAIT is left for WAITING_FOR_AC exactly on an unsafe reading or with recovery disabled, and for FAILED_SAFE exactly when only the network has been missing for the configured time; both timers run exactly while what they time lasts |
| `PolicyLaws.CommittedRecoveryStep` | agent/internal/policy/engine.go:133-184 | A committed recovery goes to RESTORE_HOSTS, ON_BATTERY, WAITING_FOR_AC or FAILED_SAFE each under an exact condition on configuration and reading |
| `PolicyLaws.BootStep` | agent/internal/policy/engine.go:217-293 | Where a restarted process goes, for every generation on disk and every reading |
| `PolicyLaws.BootCarriesOutage` | agent/internal/policy/engine.go:271-285 | An uncommitted outage goes on with the recorded time, and at least the grace period if it had begun |
| `PolicyLaws.ShutdownStep` | agent/internal/policy/engine.go:77-80 | A committed shutdown goes on at once; from SHUTDOWN_IN_PROGRESS and FAILED_SAFE no reading moves the engine |
| `PolicyLaws.PhasesEnd` | agent/internal/policy/engine.go:191-215 | The end of the shutdown phase moves the power state alone; the end of recovery clears both flags, the elapsed time and every timer |
| `PolicyLaws.WindowIsConfigured` | agent/internal/policy/engine.go:63-66 | An unset stability window is two minutes |
| `PolicyLaws.CommittedRecoveryIsCharged` | agent/internal/policy/engine.go:397-463 | Over legal histories, every recovery commit found network and health fine and, at the end of an unbroken run of calm readings, the battery charged far enough |
| `PolicyLaws.StableRecoveryCommits` | agent/internal/policy/engine.go:397-424 | Conversely, after a window of calm readings in RECOVERY_WAIT, the next calm one commits recovery if it is enabled and finds network, health and battery so |
| `PolicyLaws.ConfirmedPowerEndsOutage` | agent/internal/policy/engine.go:296-308 | Two ONLINE readings in a row end an uncommitted outage |
| `PolicyLaws.LostCommunicationCommits` | agent/internal/policy/engine.go:318-328 | A run of unknown readings during an outage that outlasts its grace commits the shutdown |
| `Invariants.StepIsAccepted` | agent/internal/policy/engine.go:77-293 | From coherent memory the error returns are unreachable, and a changed decision is one coherent transition of the durable record |
| `Invariants.LegalIsSound` | agent/internal/policy/coordinator.go:39-94 | In every run memory equals the last generation but for the boot mask and host records whose write failed; every generation passes the semantic rules and its flags fit its power state |
| `Invariants.WriteKeepsSound` | agent/internal/state/store.go:163-183 | Every permitted write is a semantically valid generation |
| `EffectTheorems.MemoryMirrorsDisk` | agent/internal/policy/coordinator.go:39-94 | With no write pending or failed, memory is the disk's generation, apart from the boot mask |
| `EffectTheorems.FailedSafeIsInert` | agent/internal/policy/engine.go:78-80 | FAILED_SAFE is absorbing within one process: nothing is written, sent or woken any more |
| `OutageTheorems.TimerIsUnbroken` | agent/internal/policy/engine.go:381-404 | The stability timer always stands for an unbroken run of ONLINE readings without low battery or FSD in this process |
| `OutageTheorems.RecoveryCommitIsEarned` | agent/internal/policy/engine.go:397-424 | Every recovery commit closes such a run of at least the configured stability window |
| `OutageTheorems.ShutdownCommitIsJustified` | agent/internal/policy/engine.go:295-379 | Every commit of an outage entered from NORMAL or boot follows an observed FSD, low battery while not ONLINE, an unbroken unknown run as long as the communication grace, or an outage clock past grace with a crossed threshold |
| `OutageTheorems.OutageClockRuns` | agent/internal/policy/engine.go:271-345 | The volatile outage clock is the time since this process first saw the outage plus what the disk had proved |
| `OutageTheorems.CancellationIsConfirmed` | agent/internal/policy/engine.go:296-308 | An outage is cancelled only by two consecutive ONLINE readings, never once committed |
| `OutageTheorems.ResumedOutageSkipsGrace` | agent/internal/policy/engine.go:271-285 | After a restart into an uncommitted outage an on-battery step commits if and only if a threshold is crossed: grace is never waited for again, and the maximum time on battery counts the durable elapsed time |
| `OutageTheorems.DurableChange` | agent/internal/policy/engine.go:86-98 | Between two generations the elapsed time decreases only when the outage ends or a new one starts from NORMAL, and the commit flag is withdrawn only by completed recovery or a new outage |
| `EffectTheorems.WakeIsSafe` | agent/internal/policy/engine.go:128-184 | Every wake falls on a tick with recovery enabled, utility ONLINE, no low battery, no FSD, network ready and health safe, under a recovery this process committed and has not stopped, on a RESTORE_HOSTS generation with both flags and the attempt on disk, and is the first of its tick |
| `EffectTheorems.WakeFollowsLook` | agent/internal/host/recovery.go:39-110 | A host is only woken after a probe on that very tick that did not find it running, if it is configured to be woken and its policy and snapshot call for it, and once every dependency to be restored is online |
| `EffectTheorems.FailureIsEarned` | agent/internal/host/recovery.go:82-90 | Recovery of a host fails only after its configured attempts, five if unset, and a look on that tick that did not find it running, or because a dependency that was to be restored has failed |
| `EffectTheorems.RecoveryIsFinished` | agent/internal/orchestrator/controller.go:558-568 | Recovery is over only with every host to be restored online, failed or set aside |
| `EffectTheorems.AttemptsBackEffects` | agent/internal/orchestrator/controller.go:317-325 | Over all processes of a transaction, requests sent to a host never outnumber the attempts recorded for it, in memory or on disk |
| `EffectTheorems.DirectShutdownsAreBounded` | agent/internal/orchestrator/controller.go:317-330 | At most three direct shutdowns reach a host under one transaction, through any number of restarts |
| `EffectTheorems.WakesAreBounded` | agent/internal/host/recovery.go:82-110 | Wakes of a host under one transaction stay within its configured attempts, five if unset |
| `EffectTheorems.MarkersRestOnObservations` | agent/internal/orchestrator/controller.go:296-310 | No host is ever marked Completed or Online, in memory or on disk, unless a probe under the same transaction saw it offline or online |
| `EffectTheorems.SnapshotsRestOnObservations` | agent/internal/orchestrator/controller.go:151-198 | No record says that a host was running, or was not, when the outage began, unless a probe under the same transaction said so |
| `ShutdownTheorems.ShutdownProgresses` | agent/internal/orchestrator/controller.go:271-330 | Within a committed shutdown a host's record shows every request made to it |
| `ShutdownTheorems.FsdRequestsAreBounded` | agent/internal/orchestrator/controller.go:411-437 | At most six FSD requests count against a NUT-managed host while it is not Completed |
| `ShutdownTheorems.FsdWhileOutstandingIsBounded` | agent/internal/orchestrator/controller.go:229-247 | As for Exclusions.FsdIsBounded, for a host that every process since the commit was configured with as NUT-managed |
| `Exclusions.FsdIsBounded` | agent/internal/orchestrator/controller.go:229-247 | An FSD request made while some NUT-managed host is outstanding is at most the sixth of this shutdown, through restarts and whatever hosts each process excludes |
| `Exclusions.ExclusionsKeepNut` | agent/internal/host/armed_runtime_validation.go:17-27 | Exclusions for want of an SSH key never change the NUT group |
| `Exclusions.RevisionFixesNut` | agent/internal/app/armed.go:65-78 | A committed shutdown stays with its configuration revision, and with it the NUT group of every process since the commit |
| `ShutdownTheorems.RepeatedShutdownFollowsProbe` | agent/internal/orchestrator/controller.go:288-313 | A second direct shutdown follows a probe that found the host online just before: the guard of a legal history, which Orchestrator.AttemptIsAllowed proves of the controller |
| `ShutdownTheorems.ShutdownOrderIsRespected` | agent/internal/orchestrator/controller.go:209-219 | When a direct shutdown is sent, every direct host earlier in (shutdown priority, id) needs nothing more on disk: Completed or NotRequired, or acknowledged and impossible to observe |
| `ShutdownTheorems.FsdComesLast` | agent/internal/orchestrator/controller.go:220-268 | When FSD is requested or the phase completed, every direct host is Completed or NotRequired, or acknowledged and impossible to observe |
| `ShutdownTheorems.PhaseEndIsForced` | agent/internal/orchestrator/controller.go:220-268 | With a host left to the UPS, the phase is completed only after FSD was requested in SHUTDOWN_IN_PROGRESS and accepted, on the same tick |
| `ShutdownTheorems.ShutdownEndsProperly` | agent/internal/app/armed.go:83-90 | Once a shutdown is committed, every generation on disk stays committed, in the same transaction and in one of the two shutdown states, until a pass has been completed on that tick or the shutdown is given up; no process steps past it behind the boot mask |
| `ShutdownTheorems.WakesAreSpaced` | agent/internal/orchestrator/controller.go:580-596 | Whatever was woken or retried in between, a wake comes at least its host's delay after every earlier wake of another host in this process's recovery |
| `ShutdownTheorems.ResumedRecoveryWaits` | agent/internal/orchestrator/controller.go:570-579 | In a process that first selected a host when another had been woken or found online before, no host with a delay is the first to be woken before that delay has passed |
| `EffectTheorems.LastWakeIsPast` | agent/internal/orchestrator/controller.go:591-596 | The remembered wake never lies in the future of the tick that asks about it |
| `CompleteRun.RecoveryWakes` | agent/internal/orchestrator/controller.go:59-114 | A complete legal run in which a host is asked to shut down, then seen offline, and in the end woken; so the guards of all these effects can be met together |
| `Coordination.Coordinator.Write` | agent/internal/policy/coordinator.go:39-46 | Memory follows the written generation; after an error it is unchanged |
| `Coordination.Coordinator.Step` | agent/internal/policy/coordinator.go:48-64 | A changed decision reaches its caller only after its generation is durable; otherwise the old state is put back and the process learns of it |
| `Coordination.Coordinator.MarkShutdownPhaseComplete` | agent/internal/policy/coordinator.go:66-79 | From either shutdown state the end of the phase is durable, or undone; elsewhere nothing happens |
| `Coordination.Coordinator.MarkRecoveryComplete` | agent/internal/policy/coordinator.go:81-94 | The end of recovery is durable, or undone |
| `Orchestrator.Controller.PersistHost` | agent/internal/orchestrator/controller.go:627-632 | Exactly one record changes; it may only say what was just requested or observed |
| `Orchestrator.Controller.SettleDirect` | agent/internal/orchestrator/controller.go:271-377 | The outcome and the one record that changes are those of DirectShutdowns.SettlePass for the readings and the reply that were given |
| `DirectShutdowns.PassSettles` | agent/internal/orchestrator/controller.go:271-377 | A pass leaves the host settled, to be verified, or failed for good after three attempts, adds at most one attempt, and touches nobody else |
| `DirectShutdowns.SomeAnswersGetPast` | agent/internal/orchestrator/controller.go:284-316 | Some answers let a pass get past a host if and only if it needs nothing more, has not been asked and has attempts left, or was asked and can be observed |
| `DirectShutdowns.HeldUpStays` | agent/internal/orchestrator/controller.go:284-295 | Whatever the answers, a host that was asked before and cannot be observed stays to be verified and holds the shutdown up |
| `Coordination.Coordinator.WriteHosts` | agent/internal/policy/coordinator.go:39-46 | Host records become durable and nothing else moves, or the write fails and the process carries on with what it knew |
| `Orchestrator.Controller.Reconcile` | agent/internal/orchestrator/controller.go:284-310 | An earlier request is settled exactly if the host can be observed and is seen offline, repeated exactly if it is seen online, and waits for another pass otherwise: always, if it cannot be observed |
| `Orchestrator.Controller.Request` | agent/internal/orchestrator/controller.go:317-325 | The attempt is durable before the shutdown command; the command respects order, bound and the probe-before-repeat rule |
| `Orchestrator.Controller.FollowUp` | agent/internal/orchestrator/controller.go:348-377 | An accepted request ends acknowledged and settled where the host cannot be observed, completed and settled if it was seen to go down, and unverified, to be retried, otherwise |
| `Orchestrator.Controller.PrepareNutGroup` | agent/internal/orchestrator/controller.go:390-409 | Every member that can be observed and is not Completed is looked at; exactly those seen offline become Completed, and nobody outside the group changes |
| `Orchestrator.Controller.MarkNutRequested` | agent/internal/orchestrator/controller.go:411-427 | Each member that is not Completed has exactly one more attempt on disk |
| `Orchestrator.Controller.MarkNutAcknowledged` | agent/internal/orchestrator/controller.go:483-497 | Exactly the requested members become acknowledged |
| `Orchestrator.Controller.MarkNutError` | agent/internal/orchestrator/controller.go:499-513 | Exactly the members that are not Completed become unverified |
| `Orchestrator.Controller.VerifyNutGroup` | agent/internal/orchestrator/controller.go:515-544 | Observable members become Completed if they were seen to go down and unverified otherwise; the others stay |
| `Orchestrator.Controller.MaxNutAttempts` | agent/internal/orchestrator/controller.go:429-437 | The largest attempt count in the group |
| `Orchestrator.Controller.ScheduleNutFsdRetry` | agent/internal/orchestrator/controller.go:447-459 | The retry waits five seconds doubled per attempt, at most a minute |
| `Orchestrator.RetryDelayDoubles` | agent/internal/orchestrator/controller.go:447-459 | That is 5, 10, 20, 40, and from the fifth request on 60 seconds |
| `Orchestrator.Controller.EnterNutGroupFailedSafe` | agent/internal/orchestrator/controller.go:466-481 | Every member is Completed or failed, and the transaction is FAILED_SAFE |
| `Orchestrator.Controller.RequestGroupFsd` | agent/internal/orchestrator/controller.go:241-247 | FSD is requested once, with every outstanding member looked at and its attempt on disk and all direct hosts settled, and its answer is reported |
| `Orchestrator.Controller.ExecuteShutdown` | agent/internal/orchestrator/controller.go:200-269 | Without an error, a pass stops at the first direct host that is not settled, as the answers given leave it, with all before it settled, nobody after it touched and no FSD; or settles all of them and then fails safe over spent attempts, waits until the next FSD is due, or requests FSD exactly once, ending the phase if and only if it is accepted |
| `Orchestrator.CompletedPassIsForced` | agent/internal/orchestrator/controller.go:220-268 | With a NUT-managed host configured, a pass that ends the phase has requested exactly one FSD, which was accepted |
| `Orchestrator.PendingPassHasCause` | agent/internal/orchestrator/controller.go:200-269 | A pass that stays in SHUTDOWN_IN_PROGRESS left a direct host unverified, or the next FSD is not yet due, or it was just refused |
| `Orchestrator.FailedPassHasCause` | agent/internal/orchestrator/controller.go:229-240 | A pass fails safe only over a direct host that had failed or been asked three times, or a NUT-managed one asked six times, and requests no FSD |
| `Orchestrator.OneHostPassed` | agent/internal/orchestrator/controller.go:209-219 | The order is kept host by host: whoever was passed could be got past, those to come are untouched, those held up stay so |
| `RunTheorems.HeldUpForEver` | agent/internal/orchestrator/controller.go:284-295 | While such a host stands in the way, no run of readings whatever makes the process request FSD or leave the phase, except for FAILED_SAFE |
| `Orchestrator.MarkedGroupMayRequest` | agent/internal/orchestrator/controller.go:411-437 | Six attempts bound the FSD requests of one committed shutdown |
| `Orchestrator.AttemptIsAllowed` | agent/internal/orchestrator/controller.go:317-325 | Recording the attempt first keeps the order, the bound and the probe-before-repeat rule |
| `Orchestrator.Controller.SnapshotHosts` | agent/internal/orchestrator/controller.go:151-198 | Hosts whose earlier state is unknown get a snapshot record that keeps their attempts and says what a probe on this tick said of them, not running only where that can be trusted; all others are left alone, in one write |
| `Orchestrator.Controller.BeginFreshOutage` | agent/internal/orchestrator/controller.go:128-149 | A new transaction linked to the old one, uncommitted, every host afresh and recorded as it was just seen; a power cut anywhere inside leaves a disk that can finish it |
| `Orchestrator.Controller.DueForWake` | agent/internal/orchestrator/controller.go:569-583 | A host is held back exactly when the spacing between wakes, or after a restart the full delay, has not passed |
| `Orchestrator.Controller.ExecuteRecoveryStep` | agent/internal/orchestrator/controller.go:546-610 | Unless a write fails, a step of a recovery that is not stalled completes it, strictly decreases the remaining attempts, or is withheld by the wake delay with nothing changed; a stalled one changes nothing; for any probe and wake answers and any records |
| `RecoveryRuns.TickAdvances` | agent/internal/orchestrator/controller.go:546-610 | A safe tick that neither fails nor ends nor finds a stall leaves less to do, or comes within the longest wake delay of the last wake or first selection |
| `RecoveryRuns.RecoveryEnds` | agent/internal/orchestrator/controller.go:546-610 | While it is safe to go on and no write fails, restoring hosts is over after (work + 1) x (delay + gap) + delay, for the work left when it begins, the longest wake delay and the longest gap between readings, or has stalled, which takes a process with other hosts |
| `Orchestrator.Controller.Tick` | agent/internal/orchestrator/controller.go:59-114 | A fresh linked transaction begins on exactly the readings that renew an outage, and on no other but the one that resumes one does any snapshot; a cut inside leaves a disk that can finish the renewal; an unknown reading after restart waits, and a committed transaction waits until a recovery is committed; a tick whose step leads into or stays in a shutdown ends as ExecuteShutdown says, one that leads into RESTORE_HOSTS advances recovery unless it is stalled, and every error has a fault on record |
| `Orchestrator.StepShape` | agent/internal/policy/engine.go:77-293 | What each action says about the power state it leaves, which readings renew or resume an outage, and that no step touches host records or the transaction |
| `Orchestrator.StepRenewal` | agent/internal/policy/engine.go:134-140 | Every generation the step can leave on disk belongs to the renewal |
| `Renewal.RenewedStartsOver` | agent/internal/orchestrator/controller.go:91-101 | After a renewed outage no host counts as shut down and every record can be finished by recovery |
| `Renewal.CutInsideRenewal` | agent/internal/policy/engine.go:247-254 | A power cut inside a renewal leaves a disk that can finish it |
| `Renewal.SnapshotIsAllowed` | agent/internal/orchestrator/controller.go:156-192 | A snapshot completes nobody's shutdown and forgets no attempt and no host |
| `Renewal.OnBatteryRenews` | agent/internal/policy/engine.go:247-269 | For an ON_BATTERY reading on a disk inside a committed renewal: it renews if and only if the engine is still at boot, restoring hosts, or in NORMAL without FSD |
| `Renewal.MarkersStay` | agent/internal/orchestrator/controller.go:91-101 | While no process, transaction or outage snapshot begins, the transaction and every Completed marker stay, in memory and on disk |
| `Renewal.RecordsStayTracked` | agent/internal/orchestrator/controller.go:151-198 | Fresh and boot snapshots, shutdowns, wakes, failed writes and restarts leave every record fit for recovery while all processes run with the same hosts |
| `Renewal.SnapshotTracks` | agent/internal/orchestrator/controller.go:151-198 | A snapshot, fresh or at boot, makes every record fit for recovery unless one that already knew the host's state was not |
| `Renewal.RecoveryNeverStalls` | agent/internal/orchestrator/controller.go:546-610 | In every run whose processes all have the same hosts recovery is never stalled |
| `Agent.Reconcile` | agent/internal/app/armed.go:51-78 | A generation of the running revision is used exactly as it is; one of another revision is refused inside a power transaction, leaving the disk alone, and outside it replaced by a linked new transaction without hosts; without any, a new one is written; it fails otherwise only with a fault |
| `Agent.Start` | agent/internal/app/armed.go:80-90 | On a committed generation in SHUTDOWN_COMMITTED or SHUTDOWN_IN_PROGRESS, the process starts with SHUTDOWN_IN_PROGRESS and the same hosts on disk, and on every other one with memory that is this generation behind the boot mask; it does start unless another revision is refused or a fault is on record |
| `Agent.Run` | agent/internal/app/armed.go:161-189 | Each reading is put to the engine, in order, until a tick fails, which takes a fault |
| `Agent.Live` | agent/internal/app/armed.go:161-189 | Any number of lifetimes, each starting at most one process, with its own configuration, where the last one was cut, and itself ended by an error or cut anywhere: every one of their histories is legal, and each goes through all its readings unless it is refused or meets a fault |
| `RunTheorems.RenewedOutageSurvivesPowerCuts` | agent/internal/orchestrator/controller.go:91-101 | Power lost during recovery, a cut anywhere inside that tick, any number of restarts each cut anywhere again, then a restart, unknown readings and ON_BATTERY: an uncommitted outage with nobody marked as shut down, unless that last start meets a fault or is refused |
| `RunTheorems.FirstOnBattery` | agent/internal/policy/engine.go:217-293 | The exact limit, for every run of readings up to an ON_BATTERY one after a restart on a committed disk inside a renewal: afterwards the transaction is fresh if and only if it was in the memory that reading found, or this memory renews on it; if not, every Completed marker is still there. The boot state lasts exactly as long as readings say nothing, and short of a renewal is left only for waiting until ONLINE readings span a stability window; so with recovery enabled, no alarm and no such window, the reading renews if and only if all earlier ones were unknown |
| `RunTheorems.Watch` | agent/internal/orchestrator/controller.go:59-114 | Tick by tick, the transaction is renewed exactly on the readings that renew |
| `RunTheorems.BehindTheMask` | agent/internal/policy/engine.go:217-222 | A process that has left the boot state does not come back to it |
| `CompleteRun.StaleMarkerSurvives` | agent/internal/policy/engine.go:256-269 | A legal run from the first outage to an ON_BATTERY reading, after a cut inside a renewal and one ONLINE reading, that leaves a host marked as shut down |
| `CompleteRun.RecoveryStalls` | agent/internal/host/recovery.go:39-58 | A legal run of two processes of one revision, the second with a host back that the first had excluded, after which recovery is stalled |
| `HeldUpRun.ShutdownIsHeldUp` | agent/internal/orchestrator/controller.go:241-268 | A legal run after which a host that cannot be observed and accepted its request holds the shutdown up, because the UPS refused the forced one |
| `Store.StateDir.Write` | agent/internal/state/store.go:48-131 | A completed write is the only thing that can load, numbered one after what loaded before; an interrupted one adds itself to what can load, in every image a crash may bring back; a valid fallback exists afterwards exactly if a generation was readable in either file |
| `Store.NumberingCounts` | agent/internal/state/store.go:48-75 | A generation is numbered one up from the one that would load, and a missing version filled in |
| `Store.StateDir.Load` | agent/internal/state/store.go:38-46 | Loads the last completed write or one in flight since |
| `Store.StateDir.Crash` | agent/internal/state/store.go:113-129 | A rename not yet synced may or may not survive, but what came back is certain from then on; a valid fallback always survives |
| `Store.StateDir.Damage` | agent/internal/state/store.go:105-120 | With a fallback, spoiling current.json never leaves nothing to load |
| `Store.WriteTwice` | agent/internal/state/store.go:105-120 | Two completed writes in a row give a fallback |
| `Store.Endure` | agent/internal/state/store.go:38-131 | Through any run of writes, crashes and damage, what loads is possible and a fallback is never lost |
| `StoreRefinement.OneProcess` | agent/internal/state/store.go:48-131 | Any writes of a process and the crash that ends it look to the next process like a single durable generation on which every write was done, lost, or kept without its writer knowing: what histories assume |
| `ConfigManager.Manager.BeginLocked` | agent/internal/config/revision.go:90-113 | A new identifier that no revision has, as a candidate with these bytes; nothing else changes, whatever write fails |
| `ConfigManager.Manager.UniqueRevisionId` | agent/internal/config/revision.go:475-494 | The first of the hundred candidate identifiers that is free; none only if all are taken |
| `ConfigManager.RevisionIdsDiffer` | agent/internal/config/revision.go:475-494 | The candidates are the base and the base with 1, 2, 3 and so on appended in decimal, all different |
| `ConfigManager.Manager.ActivateAndValidate` | agent/internal/config/revision.go:114-178 | A candidate with matching, parsing bytes is promoted if no write is lost, a runtime is there, every answer is yes and no wait is interrupted, and otherwise ends failed or rolled back; it never becomes known-good without a whole probation of yes; unsound bytes are recorded as failed, and what is no candidate is left alone |
| `ConfigManager.Manager.Probation` | agent/internal/config/revision.go:152-173 | Passes exactly if every answer was yes and no wait was interrupted, then after at least the probation, with a health check per wait; always ends |
| `ConfigManager.Manager.PromoteLocked` | agent/internal/config/revision.go:179-203 | After the commit point active and last-known-good name the revision and previous-known-good the one before, whatever pruning does; without errors at most keep + 3 known-good revisions are left |
| `ConfigManager.Manager.RollbackLocked` | agent/internal/config/revision.go:204-233 | The revision ends rolled-back exactly if the steps after the failed mark succeed, with the last known-good bytes in force; it skips failed if and only if, besides, the write of that mark was lost |
| `ConfigManager.Manager.FailLocked` | agent/internal/config/revision.go:205-208 | The failed status is on record, or the manifest is as it was and the lost mark remembered |
| `ConfigManager.Manager.Rollback` | agent/internal/config/revision.go:293-339 | If no write fails it succeeds exactly for a known-good, digest-checked, parsing target that the runtime, if there is one, was asked about and accepted; pointers and bytes are then the target's, and otherwise what was settled before is back |
| `ConfigManager.Manager.RestoreAfterManualRollbackFailure` | agent/internal/config/revision.go:340-362 | Bytes and both pointers are back where they were |
| `ConfigManager.Manager.BootstrapKnownGood` | agent/internal/config/bootstrap.go:13-54 | Succeeds only with this content as the verified last-known-good revision, and never touches an existing archive |
| `ConfigManager.Manager.KnownGoodRevisions` | agent/internal/config/status.go:12-35 | Exactly the known-good revisions, each once, newest first |
| `ConfigManager.Manager.PruneRevisionsLocked` | agent/internal/config/revision_maintenance.go:32-82 | Only known-good revisions outside the newest `keep` and named by no pointer lose anything; if it completes they are all gone |
| `ConfigManager.Manager.PruneRevisions` | agent/internal/config/revision_maintenance.go:20-30 | A completed pruning leaves at most keep + 3 known-good revisions, and never touches one that a pointer names |
| `ConfigManager.PruningLeavesFew` | agent/internal/config/revision_maintenance.go:36-72 | At most the newest `keep` and three pointer targets survive |
| `ConfigManager.StatusIsPermitted` | agent/internal/config/revision.go:372-382 | A status change along the life cycle keeps the pointers reliable |
| `Revisions.RevisionsOnlyMoveForward` | agent/internal/config/revision.go:90-233 | While a revision stays on record its bytes and manifest never change and its status only moves forward; known-good and rolled-back are final |
| `Revisions.RolledBackAfterFailed` | agent/internal/config/revision.go:204-233 | A revision that becomes rolled-back was recorded as failed, or was on trial and its own failed mark was lost; other failed writes make no difference |
| `Revisions.MarkWasLost` | agent/internal/config/revision.go:207-207 | A lost mark goes back to one write, of that revision on trial, that failed and changed no manifest |
| `Revisions.FailedCanBeSkipped` | agent/internal/config/revision.go:204-233 | A run in which a validating revision is rolled back without ever being recorded as failed |
| `Revisions.Disk.Commit` | agent/internal/config/revision.go:432-467 | One file is replaced completely or not at all, and may be reported as failed either way |
| `Startup.RecoverForStartup` | agent/internal/config/startup.go:21-65 | From any state the operations and their crashes can leave, a start-up whose writes succeed ends with active, last-known-good and file agreeing on a verified revision that is the old last-known-good or an active one already known-good, and writes no manifest; with damaged pointers it does so if and only if the state was not stuck; a busy lock or a settled history changes nothing; it reports success if besides the runtime said yes, and never for a changed file the runtime was not asked about |
| `Startup.RecoverInterruptedLocked` | agent/internal/config/startup.go:69-110 | Computes the concluded state of an interrupted transaction whenever its writes succeed |
| `Startup.RepairKnownGoodLocked` | agent/internal/config/startup.go:115-127 | Puts the fallback in force and makes it the last-known-good one |
| `Startup.KnownGoodForRepair` | agent/internal/config/startup.go:133-153 | The last-known-good revision if its bytes still match, else the newest known-good revision whose bytes do, else none |
| `Startup.SafeConcludes` | agent/internal/config/startup.go:69-110 | Every crash point of an undamaged history is concluded on the last-known-good revision or on an active known-good one |
| `Startup.SafeSettles` | agent/internal/config/startup.go:37-65 | After that the active file is made to match |
| `Startup.DisturbedSettles` | agent/internal/config/startup.go:69-153 | With damaged pointers and a sound known-good revision left, recovery settles if and only if the state was not stuck |
| `Startup.DamagedPointersAreNotStuck` | agent/internal/config/startup.go:69-153 | Damage to the pointers alone, of a history the manager left, is never stuck |
| `Startup.RolledBackRevisionStaysActive` | agent/internal/config/startup.go:106-109 | A concrete stuck state: an active rolled-back revision whose bytes are in force is accepted although last-known-good is another |
| `Startup.SurviveCrashes` | agent/internal/config/startup.go:21-65 | After any such run, a start-up that gets the lock and reports success, or whose writes succeed, ends settled on the last known-good revision it found or on an active known-good one; it reports success if its writes succeed and the runtime says yes |
| `Startup.Endure` | agent/internal/config/startup.go:21-65 | Any sequence of begin, activate, roll back, bootstrap, prune and start-up, each failing or cut at any write, leaves a history whose pointers can be read and relied on |

## Left out

- Diagnostic text (last error, last action, last verification, reasons, the last UPS observation, the checksum field): no branch reads it.
- Integer and duration overflow, negative stored elapsed seconds and NaN charge: quantities are mathematical integers and reals.
- Nil host maps and the map shared between engine and controller: records are values, and the one in-place change through the shared map (failure cascade) is written at once or ends the process.
- Transaction identifiers are random in the program; the model takes a non-empty new one to be unused.
- Digests and checksums are taken to be free of collisions, and decoding to invert encoding.
- A host whose identifier is `__resume__` could be mistaken for the resume marker; the spacing theorem excludes it.
- FAILED_SAFE does not survive a restart, since every process starts in BOOT_RECONCILE; the theorem is about one process.
- Grace and debounce after an outage renewed within one process: its volatile timers may be left from before, so those theorems are about outages entered from NORMAL or boot.
- Booting into ON_BATTERY after a completed recovery keeps the records of hosts whose earlier state is known.
- FSD requests are not counted once every NUT-managed host is Completed.
- The agent's own forced shutdown when no host is NUT-managed (agent/internal/app/armed.go:254-268).
- The health supervisor, the test that decides which hosts are excluded, the Unix-socket server, watchdog and logging.
- Probe, SSH, ping, NUT and UDP traffic: oracles whose answers are arbitrary.
- Store.StateDir.Write: temporary files, permissions and the store's own lock are not modelled; directory updates are taken to become durable in order.
- Environment.World.WriteState: files spoilt between writes are not part of histories. Falling back to the previous generation could forget a recorded attempt, so the bounds on attempts and effects are about an undamaged disk.
- RunTheorems.HeldUpForEver: stated for one process; the next one resumes the shutdown on the same records.
- RecoverInterrupted: the variant of interrupted-transaction recovery that waits for the lock (agent/internal/config/revision.go:234-268) is not modelled; start-up does not call it.
- History locking is a flag: the lock was acquired or not. Errors other than a missing or damaged file when reading pointers, manifests and bytes are not modelled.
- Startup.RecoverForStartup: manifests are taken to sit in the directory they name, also when pointers are damaged.
- Startup.RecoverForStartup: without an active pointer it leaves the active file as it is, so the settled result is stated for installed histories.
- Configuration parsing is an arbitrary predicate; identifiers are formed by an arbitrary function of time and digest, and every directory in the archive is taken to have a valid revision identifier.
- YAML, JSON, field validation, reports, the command-line tools, the Cockpit page and packaging.
