# fdir, verified

A Dafny model of `fdir`, a fault detection, isolation and recovery library in C. Workers report
faults into a bounded ring queue. A supervisor drains the queue, latches each fault, picks an action
(the entity's hook, then its restart budget, then its subsystem's hook), applies it, escalates one
global mode, and scans heartbeats for watchdog misses.

## How the project is laid out

- **Values.** `Types` has ids, enumerations, reports, events and descriptors. `Model` has the shared
  state as one value and, for every critical section of the library, the function it performs
  (`Do`); `Run` is any sequence of critical sections. Since every write after initialisation happens
  inside such a section, a theorem about all runs is a theorem about all interleavings.
- **Objects.** `Ports`, `FailureQueues`, `HealthTables`, `SubsystemTables` and `Libraries` are the
  library as it runs: arrays, counters and flags changed in place. Every method's contract equates the
  new abstract value with the model's function of the old one. The port's lock is a ghost flag:
  taking it requires it free, every method that writes shared state requires it held, and every entry
  point requires and leaves it free. That is the discipline a non-recursive lock needs.
- **Theorems.** `Effects` and `Frames` factor recovery into an effect computed from one entity and
  joined into the rest; the others build on that: `Confluence`, `Supervision`, `Partition`,
  `Capacity`, `Escalation`, `Budget`, `Replay`, `Latching`, `Isolation`, `Watchdog`, `AnomalyKeys`.
  `Policies`, `DualPath`, `Reporting`, `Announcements`, `Ledger` and `Gates` say what calls do in terms of
  what integrator, workers and ground supply and see: descriptors, hooks, marks, reports and events.
  `Interleaving`, `NoLoss` and `Histories` put any number of threads between critical sections;
  `Sequential` shows that a thread left alone performs the sequential tick. `Races`, `Bypass` and
  `Limits` prove where guarantees end.

Conventions. The `restart` callback is given by the outcome of its k-th call on that entity. In any one
run this covers whatever the callback answers; the results on order (`Confluence`,
`Supervision.TickIgnoresArrivalOrder`) compare two runs, and there it is a hypothesis that an outcome
depends only on the entity's own call number. `decide` and `on_entity_exhausted` are functions of their
arguments. The clock is a parameter: every report of a drain, every recovery of a scan, the scan's early
sample and every other critical section has a reading of its own, in no assumed order in time. A single
reading is assumed only where a theorem is about a clock that stands still.
Capacities are parameters: at most 128 entities, and at most 255 subsystems and 1 to 255 queue slots,
so that the 8-bit counters do not wrap. Fields that only record history (events, reboot requests,
restart calls, accepted and handled reports) are part of the state.

Where code and documentation disagree, the model follows the code, and a theorem says exactly when the
documented property holds:

- `docs/integration.md:104` says both gates always allow work while supervision is off. The worker
  gate still refuses in SAFE (`Isolation.GatesAgree`).
- `docs/safety/seooC.md:30` promises a latch per entity and reason. There is one latch per entity. It
  deduplicates as promised if and only if no two different reasons have been raised on the entity since
  its last restart (`Latching.DeduplicatesByReasonExactly`); A, B, A is handled three times
  (`Latching.RepeatIsHandledAgain`).
- `docs/api.md:104` limits the restart attempts of an entity. They go beyond the limit if and only if a
  report is handled with the budget spent while a hook answers RESTART (`Budget.BudgetExceededExactly`).
- The scan samples its clock before it takes the lock, so a heartbeat in between raises a watchdog
  fault (`Races.BeatInWindowIsRaised`).
- The scan drops the lock before it recovers an entity. With one supervisor and orderly callers, this
  is the only thing that breaks the partition: a worker's fault accepted on the entity whose watchdog
  fault is in hand (`Races.RaceIsExact`).
- `docs/api.md:126` and `include/recovery.h:86` say that while supervision is off nothing is queued and
  tick and scan do nothing. That holds if and only if no thread was caught between its look at the
  switch and its next section (`Bypass.BypassIsExact`); such a thread still queues or handles its
  report, and a second switch-off does not clear the queue (`Bypass.LateSubmission`).
- Switching supervision off abandons exactly the failed, unlatched entities whose report no thread has
  admitted for handling, whether queued or in a thread's hand (`Bypass.BypassAbandons`). While it is off,
  submitted and directly handled reports are dropped and only a change of health frees such an entity;
  once it is on again, a submitted or directly handled report does too. Workers' faults, heartbeats and
  ticks never do (`Limits.StrandedForever`, `Limits.SubmittedReportFrees`, `Bypass.AbandonedForever`).

## Main results

- **Order.** Handling reports on distinct entities commutes, and a whole tick does not depend on the
  order of arrival: `Confluence.OrderIsIrrelevant`, `Supervision.TickIgnoresArrivalOrder`.
- **No loss.** Under every interleaving each failed entity's fault is latched, queued or in a thread's
  hand: `NoLoss.NoFaultLost`. In sequential runs everything is handled exactly once:
  `Partition.PartitionOverRuns`, `Partition.EverythingHandledOnce`.
- **Capacity.** The queue never overflows if and only if it has a slot per entity:
  `Capacity.CapacityIsExact`.
- **Replay.** The event log determines latches, flags and mode, decides which reports are suppressed,
  and its keys are shared in exactly known cases: `Replay.LogDeterminesState`,
  `Latching.SuppressedExactly`, `Latching.DeduplicatesByReasonExactly`, `AnomalyKeys.SharedKeysOverRuns`.
- **Policies.** What a report leads to follows from the descriptor, the hooks, the callback's answer and
  the calls made so far: `Policies.VerdictIsCarriedOut`, with its cases `Policies.BudgetIsUsed`,
  `Policies.SuccessfulRestartRevives`, `Policies.FailedRestartFallsBack`, `Policies.ExhaustedActionFollows`.
- **Budgets.** Counters are exact after every run, exceeded exactly where a hook says so, and otherwise
  there is one call for each fault raised, up to the budget: `Budget.BudgetsOverRuns`,
  `Budget.BudgetExceededExactly`, `Ledger.RestartsAreAccounted`.
- **Reports.** A worker's report is queued word for word, told to ground word for word, and decides what
  is on record about its entity: `Reporting.FaultReachesGround`, `Announcements.HandlingTells`.
- **Modes.** Escalation is a join, and dual-path safety holds in all states of a run exactly when no
  section breaks it; losses off the critical path never escalate to SAFE: `Escalation.ModeIsJoin`,
  `Escalation.DualPathSafety`, `Escalation.AlwaysSafeExactly`, `DualPath.OnlyCriticalLossesEscalate`.
- **Isolation and watchdog.** Gates stay shut until the entity's own restart, are open after orderly runs
  exactly for idle entities, and staleness measures true silence: `Isolation.IsolationPersists`,
  `Gates.GatesAreExact`, `Watchdog.SilenceIsMeasured`.
- **Races and bypass.** Over histories, the partition breaks exactly by one race, the bypass inhibits
  exactly when no thread is armed, and abandoned faults stay so exactly until a move saves them:
  `Races.RaceIsExact`, `Bypass.BypassIsExact`, `Bypass.AbandonedForever`.
- **Threads.** A history of threads is a run of its sections, so the above hold for histories:
  `Interleaving.HistoryIsRun`, `Histories.DualPathInHistories`, `Histories.IsolationInHistories`. A tick
  left alone is the sequential tick, at whatever readings: `Sequential.TickAlone`.
- **Code.** The loops that drop and retake the lock refine all this: `Libraries.Library.SupervisorTick`,
  `Libraries.Library.CheckWatchdogs`.

## Model

| member | source | states |
|---|---|---|
| Confluence.OrderIsIrrelevant | src/recovery.c:575-629 | A batch of reports on distinct entities, each handled at its own clock reading, ends in the same slots, health, latches, subsystems, mode, reboot requests and handled reports in every order; only the event log may differ |
| Confluence.HandlesCommute | src/recovery.c:575-629 | Two reports on different entities commute at any two clock readings, even when they share a subsystem or one is a duplicate or unregistered |
| Confluence.AbsorbsCommute | src/recovery.c:126-160 | Effects on different entities join in either order, because marks only take subsystems away and the dual-path floor only rises |
| Confluence.FloorRises | src/recovery.c:126-133 | Recovery marks never lower the level that the dual-path rule asks for |
| Confluence.MarksCommute | src/subsystem.c:119-136 | Unavailable and degraded marks commute, on the same subsystem too |
| Confluence.EffectIsLocal | src/recovery.c:588-626 | Handling one entity's report changes neither suppression nor effect of another entity's report |
| Confluence.BubbleToFront | src/recovery.c:575-629 | Any report of a batch may be handled first |
| Confluence.EachIsAll | src/recovery.c:568-570 | The fold with readings that go with the entities is the drain's fold with readings place by place |
| Effects.HandleJoins | src/recovery.c:575-629 | Handling equals a stutter, a bare escalation to DEGRADED, or the join of an effect computed from the entity's own data and its subsystem's answer |
| Effects.ActionJoins | src/recovery.c:248-307 | Applying an action and reassessing equals joining that action's entity change, mark, mode floor and reboot request |
| Effects.TerminalJoins | src/recovery.c:267-302 | The same for every action but a restart |
| Effects.RestartJoins | src/recovery.c:199-222 | A restart without callback changes nothing; otherwise it bumps one counter, and on success also leaves fresh health and no latch |
| Effects.ModeJoins | src/recovery.c:148-168 | Entering DEGRADED, SAFE or REBOOT_PENDING is the maximum of the mode and that level, and only the last records a request |
| Effects.DualPathJoins | src/recovery.c:126-133 | The dual-path evaluation is the maximum of the mode and SAFE where the threshold is met, and nothing otherwise |
| Frames.HandleIsBounded | src/recovery.c:588-628 | One report makes at most one restart call and one reboot request, touches its own entity and at most its linked subsystem, never the queue, never lowers the mode; a report equal to the latch is a complete stutter |
| Frames.EffectBounds | src/recovery.c:248-307 | The effect of one report makes at most one restart call, asks for at most one reboot, never marks a subsystem available and keeps the descriptor |
| Frames.StepFrame | src/recovery.c:188-197 | No section but the processing of a report moves a restart counter; descriptors and registrations stay |
| Supervision.TickIgnoresArrivalOrder | src/recovery.c:560-573 | A whole tick, drain and scan, does not depend on the order in which the reports of distinct entities arrived, the log aside, where each report is handled at the same reading either way |
| Supervision.TickIsIdempotent | src/recovery.c:560-573 | A tick empties the queue, and if the clock stood still during its scan, a second tick that samples the same reading changes nothing and emits nothing |
| Supervision.WatchdogScan | src/recovery.c:631-678 | The scan equals handling, once each, in order and each at its own reading, exactly the entities overdue when it started; each ends fresh or failed with the watchdog latched, and all others are untouched |
| Supervision.ScanIsFold | src/recovery.c:643-675 | The scan's loop is the left fold of failure handling over the entities overdue at its start |
| Supervision.ScanKeepsContract | src/recovery.c:643-675 | After any number of turns of the loop, visited entities meet the scan's contract and later ones are untouched |
| Supervision.ScanHandlesMisses | src/recovery.c:643-675 | The scan suppresses nothing: the handled reports grow by one for each entity overdue at its start |
| Supervision.NobodyOverdue | src/recovery.c:631-662 | After a scan at a fixed clock nobody is overdue at that clock |
| Supervision.HandlingOutcome | src/recovery.c:609-625 | A report that is not suppressed leaves its entity fresh, or failed with that report's reason, code and detail latched |
| Supervision.DrainStep | src/recovery.c:568-570 | Taking out and handling the next report, at a reading of its own, is one more step of the fold over the queue |
| Supervision.HandleIgnoresQueue | src/recovery.c:575-629 | Handling neither reads nor writes the queue, events included |
| Partition.PartitionOverRuns | src/report.c:39-81 | In orderly sequential runs every entity is exactly one of idle, pending with one queued report, or failed and latched, and handled plus queued reports equal accepted plus raised ones |
| Partition.EverythingHandledOnce | src/recovery.c:560-610 | After such a run and a tick, the handled reports are exactly the accepted ones and the scan's own: none lost, suppressed or handled twice |
| Partition.FaultKeeps | src/report.c:46-80 | A worker's report moves an idle entity to pending and nothing else |
| Partition.DrainOneKeeps | src/recovery.c:568-610 | The oldest report is never suppressed, and moves its entity from pending to idle or latched |
| Partition.ScanOneKeeps | src/recovery.c:643-675 | A watchdog fault moves an idle entity to idle or latched |
| Partition.StepKeeps | src/recovery.c:329-364 | Registration, heartbeats, marks and ground commands keep the partition |
| Partition.CallKeeps | src/recovery.c:560-573 | Every orderly public call keeps the partition and the ledger |
| Capacity.CapacityIsExact | src/failure_queue.c:21-36 | Orderly runs never set the full latch if and only if the queue has a slot for every entity that may be registered |
| Capacity.QueueNeverFills | src/report.c:58-76 | Runs that registered no more entities than the queue has slots never set the full latch |
| Capacity.FaultIsAccepted | src/report.c:64-76 | In such states a report on a registered entity is never answered BUSY or STATE |
| Capacity.QueueLeavesRoom | src/report.c:58-62 | As long as some entity has no queued report, fewer reports than entities are queued |
| Capacity.SomeRunOverflows | src/failure_queue.c:27-30 | With fewer slots than entities, some orderly run ends in BUSY, sets the full latch and changes nothing else |
| NoLoss.NoFaultLost | src/report.c:46-80 | Under every interleaving of any number of threads, while supervision is on and nobody sets health to FAILED, each failed entity's fault is latched, queued or in the hand of a thread |
| NoLoss.ProcessAccounts | src/recovery.c:588-628 | Handling a report in hand leaves its entity latched or no longer failed, and loses no other fault |
| NoLoss.DequeueAccounts | src/failure_queue.c:54-66 | Taking a report out moves it from the queue to the thread's hand |
| NoLoss.FaultAccounts | src/report.c:46-80 | A worker's report marks its entity failed only together with a queued report |
| NoLoss.AtomicAccounts | src/health.c:71-120 | Heartbeats, resets, registrations, marks and ground commands lose no fault |
| Interleaving.HistoryIsRun | src/port.c:28-40 | However threads interleave, the shared state passes through the run of exactly those critical sections that the moves perform, in the order of the lock |
| Interleaving.SectionsSatisfy | src/port.c:28-40 | A history's run consists of its atomic calls and of the threads' enqueue, dequeue, process and notice sections, so what holds of these holds of every section |
| Histories.DualPathInHistories | src/recovery.c:126-133 | In every interleaving, once every disturbing call was followed by a reassessment, as many unavailable critical subsystems as the threshold mean SAFE or above |
| Histories.IsolationInHistories | src/recovery.c:430-456 | In every interleaving both gates stay shut for a failed entity until the log tells of its own restart, unless its health is set or supervision bypassed |
| Histories.ModeInHistories | src/recovery.c:135-168 | No interleaving without ground commands lowers the mode or leaves REBOOT_PENDING |
| Histories.RebootInHistories | src/recovery.c:162-168 | No interleaving reaches REBOOT_PENDING without a reboot request |
| Histories.SilenceInHistories | src/recovery.c:631-662 | In every interleaving without a sign of life, stale means exactly that the true silence exceeds the limit, up to one wrap |
| Histories.InterleavedInvariants | src/port.c:28-40 | Restart budgets and the replayed view hold at the end of every history |
| Interleaving.NextOverdue | src/recovery.c:643-662 | The scan under one holding of the lock stops at an overdue entity at or after where it resumed, or at the end |
| Interleaving.AdvanceIs | src/recovery.c:560-678 | Between two holdings of the lock a thread takes the oldest report, handles or queues the one in its hand, raises the next miss, or only reads |
| Sequential.TickAlone | src/recovery.c:560-573 | The critical sections of an undisturbed tick, with the lock dropped and retaken and the clock read anew at each, compose to the sequential tick in three sections per queued report, three per miss and five more |
| Sequential.TickInHistories | src/recovery.c:560-573 | A history in which only one thread moves, from the start of a tick on, ends in the sequential tick |
| Sequential.GosAreAlone | src/port.c:28-40 | In such a history the thread is where it would be if it were alone |
| Sequential.TickIsRun | src/recovery.c:560-573 | Every tick, at any clock, is a run of dequeue, process and notice sections only |
| Sequential.IsolationAcrossTick | src/recovery.c:560-573 | A failed entity leaves a whole tick failed and shut out, or the log tells of its restart |
| Sequential.DrainAlone | src/recovery.c:568-570 | After three sections per report the thread has drained so many reports, each handled at its own reading |
| Sequential.ScanAlone | src/recovery.c:641-677 | A thread scanning from any entity on ends with the sequential scan, after three sections per remaining miss |
| Replay.LogDeterminesState | src/recovery.c:27-108 | After any run, the events since each registration reconstruct every latch, every subsystem's flags and the mode; every event tells the mode in force, has the fields and the severity of its kind and carries its owner's key; every cleared event names the reason last raised, every mode event a new mode |
| Replay.HandleFaithful | src/recovery.c:588-628 | Handling announces each change of latch, flags and mode as it makes it |
| Replay.ReviveFaithful | src/recovery.c:213-220 | A successful restart reports the latched reason as cleared, then the restart |
| Replay.TerminalFaithful | src/recovery.c:267-302 | Degrade, unavailable, safe and reboot actions announce every mark and mode change |
| Replay.SetModeFaithful | src/recovery.c:135-146 | A mode change is announced, and only when the mode is new |
| Replay.MarkByHandFaithful | src/subsystem.c:138-169 | Manual marks are announced with the flags they set |
| Replay.MarkLinkedFaithful | src/recovery.c:267-299 | Recovery marks are announced with the flags they set |
| Replay.StepFaithful | src/recovery.c:77-146 | Every critical section keeps the log and the state in step |
| Announcements.HandlingTells | src/recovery.c:53-108 | Handling first tells the report with its own entity, reason, code, text and kind, then the subsystem's say if and only if it has one, and then only what follows: marks, mode changes, clearing and restart with their own data |
| Announcements.UnknownTells | src/recovery.c:595-607 | A report on an unknown entity is told in the same way, followed by at most the escalation |
| Announcements.SectionTells | src/recovery.c:407-534 | Every other section emits exactly one event with its own data, or none, and exactly when it should |
| Latching.SuppressedExactly | src/recovery.c:588-593 | After any run, a report is suppressed if and only if its entity is registered and the log since then says that the last fault raised on it and not cleared has the same reason |
| Latching.DeduplicatesByReasonExactly | docs/safety/seooC.md:30 | The one latch suppresses exactly what a latch per entity and reason would, if and only if no two different reasons were raised on the entity since its last restart |
| Latching.RepeatIsHandledAgain | src/health.c:33-44 | After A and then B on one entity, a repeated A is handled and announced again |
| Latching.LatchSurvives | src/health.c:33-44 | Handling a report leaves a latched fault latched if and only if it is not another reason of the same entity |
| Latching.LatchIsExact | src/recovery.c:588-625 | After handling, the latch is empty exactly when the entity was restarted, and holds the report's reason otherwise |
| Latching.LastFaultOfAnEntityWins | src/health.c:33-44 | Of two faults of one entity the later reason stays latched unless its handling restarts the entity; the two orders agree on the latch if and only if both second handlings do |
| Budget.BudgetsOverRuns | src/recovery.c:170-222 | After any run each 8-bit counter is the number of restart calls of its class cut off at 255, and where no hook answers RESTART the calls stay within both budgets |
| Budget.BudgetExceededExactly | docs/api.md:100-106 | After any run, the calls of a class exceed its budget if and only if some section handled a report of that class, not suppressed, with the budget spent and a hook answering RESTART |
| Budget.CallIsExact | src/recovery.c:612-625 | Handling makes one restart call, counted in the report's class, if and only if the report is not suppressed, there is a callback, and the policy or the subsystem that overrides it asks for a restart |
| Budget.SpentNeedsHook | src/recovery.c:170-246 | With the budget of the class spent, a restart is asked for if and only if the entity's hook answers RESTART or its subsystem's hook is asked and answers so |
| Budget.StepExceeds | src/recovery.c:188-222 | A section takes an entity beyond its budget exactly under that condition |
| Budget.SomeRunOverspends | src/recovery.c:614-621 | Some run does exceed the budget, in either class |
| Budget.HandleKeepsBudgets | src/recovery.c:612-625 | Handling keeps that for every entity |
| Budget.BumpIsExact | src/recovery.c:188-197 | One more call keeps the saturated counter exact, and within budget where the default policy chose it |
| Budget.RestartIsBudgeted | src/recovery.c:612-625 | Without RESTART from a hook, a restart is chosen only while the budget lasts |
| Policies.VerdictIsCarriedOut | src/recovery.c:575-629 | A report that is not suppressed restarts its entity if the hook, or else the budget, or else the subsystem says so and the callback succeeds; otherwise its entity is failed with the report on record and the remaining action is carried out: marks, requests, mode and the dual-path rule |
| Policies.BudgetIsUsed | src/recovery.c:170-197 | With a silent hook, a report makes one restart call, counted in its own class only, if and only if the budget of that class is not spent or the subsystem replaces the exhausted action by RESTART |
| Policies.SuccessfulRestartRevives | src/recovery.c:199-222 | A restart that is due and succeeds leaves a healthy, fresh, unlatched entity, with no mark, no request and no escalation of its own |
| Policies.FailedRestartFallsBack | src/recovery.c:257-265 | A restart that is due without a callback, or fails, is followed by the exhausted action, without asking the subsystem |
| Policies.ExhaustedActionFollows | src/recovery.c:224-246 | A spent budget makes no call and leads to the exhausted action or, unless that is none, to what the subsystem answers given its number, the entity and the report |
| Ledger.RestartsAreAccounted | docs/api.md:100-106 | After any run, where the budgets alone decide, an entity has had exactly as many restart calls of each class as faults of that class were raised on it since its registration, up to the budget |
| Ledger.HandlingRaisesOnce | src/recovery.c:588-628 | Handling raises its own report once, if it is not suppressed, and nothing else on any entity |
| Escalation.ModeIsJoin | src/recovery.c:135-168 | Every section but a ground command moves the mode to the maximum of itself and a target level |
| Escalation.ModeNeverDecreases | src/recovery.c:135-168 | Without ground commands the mode never decreases over a run, and REBOOT_PENDING is absorbing |
| Escalation.DualPathSafety | src/recovery.c:126-133 | With a threshold of at least 1, under any interleaving: once every manual unavailable mark and every lowering ground command was followed by a reassessment, as many unavailable critical subsystems as the threshold mean SAFE or above |
| Escalation.StepKeepsSafe | src/recovery.c:276-302 | Every other section keeps that by itself |
| Escalation.AlwaysSafeExactly | src/recovery.c:126-133 | All states of a run are dual-path safe if and only if the threshold is not zero and no ground command or manual mark goes against the rule |
| Escalation.BreaksExactly | src/recovery.c:470-506 | From a safe state, the next state is safe if and only if the section is none of those |
| DualPath.OnlyCriticalLossesEscalate | src/recovery.c:126-133 | Over any run with a threshold of at least 1, faults and marks off the critical path, whose hooks and actions do not ask for SAFE or a reboot, never bring the system to SAFE |
| DualPath.OffPathStaysBelowSafe | src/recovery.c:276-285 | The same for the handling of one report |
| DualPath.MarkMovesCount | src/subsystem.c:31-42 | A mark moves the count of the dual-path rule by one, if it takes away an available or brings back an unavailable subsystem of the critical path, and not at all otherwise |
| DualPath.FreshTableCountsNothing | src/subsystem.c:44-73 | An empty table counts nothing, and registration does not move the count |
| Escalation.RebootIsRequested | src/recovery.c:162-168 | A section requests exactly one reboot when it aims at REBOOT_PENDING, and none otherwise |
| Escalation.RebootPendingWasRequested | src/recovery.c:162-168 | No run reaches REBOOT_PENDING without a reboot request |
| Escalation.GroundIsObeyed | src/recovery.c:470-506 | Ground moves the mode where it says or one level down, cannot order REBOOT_PENDING, and changes nothing else |
| Isolation.IsolationPersists | src/recovery.c:430-456 | Once an entity is failed, both gates stay shut over any run by any threads until the log tells of its own restart, unless its health is set or supervision bypassed |
| Isolation.AcceptedFaultIsolates | src/report.c:72-80 | An accepted report on a registered entity shuts both gates at once |
| Isolation.GatesAgree | src/worker.c:5-15 | The two gates agree if and only if supervision is on or the mode is below SAFE |
| Gates.GatesAreExact | src/recovery.c:430-456 | After any orderly run, with the mode below SAFE, both gates are open exactly for the idle entities |
| Gates.NewEntityIsLetThrough | src/recovery.c:329-364 | Registration answers FULL before it looks at the descriptor and PARAM for RESTART as exhausted action; otherwise the entity gets the next number, a clean record and open gates below SAFE |
| Gates.NewSubsystemIsAvailable | src/subsystem.c:44-73 | A new subsystem gets the next number, available and not degraded, unless the table is full |
| Gates.RestartOpensGates | src/recovery.c:199-222 | A restart that is due and succeeds opens both gates of the entity, below SAFE |
| Gates.BeatOpensOthers | src/health.c:71-89 | A heartbeat leaves a failed entity shut out and lets any other one through below SAFE, fresh at that time |
| Gates.ResetKeepsHistory | docs/integration.md:86 | A reset opens the gates but keeps the latch, so the latched reason stays deduplicated and every other one can be reported |
| Gates.HealthByHandDecides | src/health.c:91-104 | Health set by hand shuts the gates exactly if it is FAILED |
| Gates.WorkerGateKeepsAlive | src/worker.c:5-15 | In SAFE and above the worker gate refuses but stamps a heartbeat, so no miss is raised at that time; below SAFE it changes nothing |
| Gates.SwitchForgets | src/recovery.c:407-428 | Switching off empties the queue and clears its latch; switching on brings nothing back; while off the entity gate lets everyone through |
| Gates.CallsWhileOffAreNothing | include/recovery.h:84-89 | While supervision is off, a call that is not interrupted changes nothing, be it a fault, a submission, direct handling, a scan or a tick |
| Isolation.HandleFailsOrTells | src/recovery.c:609-626 | A handled entity is failed, or the log tells of its restart |
| Isolation.EntitySectionSpares | src/health.c:71-89 | Reports, heartbeats and registrations neither heal a failed entity nor touch its latch |
| Isolation.StepGrowsLog | src/recovery.c:53-75 | Events are only ever appended |
| Watchdog.SilenceIsMeasured | src/recovery.c:631-662 | After a sign of life, over any run without another one and up to one wrap of the clock, stale means exactly that the true silence exceeds tolerance times period |
| Watchdog.StalenessIsExact | src/health.c:143-152 | The wrapped 32-bit test agrees with unbounded time for gaps below 2^32 ms |
| Watchdog.LongSilence | src/health.c:143-152 | Beyond one wrap the test is right exactly when the wrapped remainder is still too long |
| Watchdog.LateBeat | src/health.c:143-152 | A beat later than the sample looks stale exactly when it is less than the range minus the limit ahead |
| Watchdog.BeatDuringScanRaisesFault | src/recovery.c:633-641 | An entity that beats one millisecond after the scan sampled its clock is raised as overdue, for every limit below 2^32-1 |
| Races.BeatInWindowIsRaised | src/recovery.c:633-674 | In the history where an entity beats one millisecond after a thread sampled the clock and before it took the lock, the scan handles one watchdog fault of it, exactly for every limit below 2^32-1, and otherwise none |
| Watchdog.LimitIsExact | src/recovery.c:463-468 | The 32-bit product is the true limit if and only if that is below 2^32 |
| Watchdog.PeriodBoundIsTight | src/recovery.c:463-468 | The product fits for every 8-bit tolerance if and only if the period is at most 16843009 |
| AnomalyKeys.KeysOverRuns | include/types.h:109-115 | After any run, two logged events about registered owners carry the same key if and only if owner and reason are the same, with at most 128 subsystems |
| AnomalyKeys.SharedKeysOverRuns | src/recovery.c:53-108 | After any run, two logged events share a key exactly if both are without an owner or about a failed initialisation of entity 0, or agree in reason and in entity, in subsystem modulo 128, or in entity 128 plus subsystem modulo 128 |
| AnomalyKeys.KeysAreExact | include/types.h:109-115 | The same for any two well-keyed events |
| AnomalyKeys.CrossCollisions | include/types.h:33-36 | An entity key meets a subsystem key exactly for entity 128 plus the subsystem and the same reason |
| AnomalyKeys.SubsystemKeysDiffer | include/types.h:113-115 | Subsystem keys determine reason and owner up to multiples of 128 |
| AnomalyKeys.EntityKeysDiffer | include/types.h:109-111 | Entity keys determine entity and reason, with bit 15 clear exactly below 128 |
| AnomalyKeys.MacrosAreSums | include/types.h:109-115 | The 16-bit shifts and ors of the key macros are the sums used in the model |
| Limits.FaultDuringScanEscapesPartition | src/recovery.c:643-674 | In the history where a worker reports on the entity for which the scan has dropped the lock, the partition breaks, with the entity handled and still queued, if and only if the queue had room |
| Reporting.FaultReachesGround | src/report.c:39-81 | A worker's fault accepted in an orderly state is told by the next drain with the worker's entity, reason, code and text, and leaves the entity restarted or failed with that very reason, code and text on record |
| Reporting.FaultIsQueuedVerbatim | src/report.c:39-81 | A fault is queued word for word with its entity marked failed, or refused by urgency with the full latch set, or answered OK without any effect, each exactly when it should be |
| Reporting.SubmissionIsQueuedVerbatim | src/report.c:22-37 | A ready-made report is queued as it is, refused by urgency, or dropped while supervision is off |
| Reporting.MissIsTold | src/recovery.c:643-674 | An overdue entity's miss is told and recorded as a critical heartbeat timeout with code 0 at the time sampled |
| Races.RaceIsExact | src/recovery.c:643-674 | Over every history of one supervisor and orderly calls, in every system each entity is idle, pending, in hand or settled and every report is handled once, queued once or in hand, if and only if no worker's fault was accepted on the entity whose watchdog fault is in hand |
| Races.MoveEscapes | src/recovery.c:643-674 | The same for one move |
| Races.CallSeats | src/report.c:46-80 | An orderly call keeps that unless it is such a fault and the queue has room |
| Races.HandSeats | src/recovery.c:588-628 | A report in hand is never suppressed, and leaves its entity idle or latched |
| Races.RestIsHandledOnce | src/recovery.c:560-573 | Where the supervisor is away and the queue empty, the handled reports are exactly those accepted and raised |
| Races.SomeFaultEscapes | src/recovery.c:672-674 | Such a race exists for every configuration with an entity and a limit below 2^32-1 |
| Limits.BypassStrands | src/recovery.c:418-421 | Switching supervision off leaves exactly the pending entities failed, unlatched and unqueued |
| Limits.StrandedForever | src/report.c:22-62 | Over any public calls a stranded entity stays stranded if and only if none of them, with supervision on, submits a report on it with room in the queue or handles one directly, or sets its health to other than FAILED |
| Limits.CallFrees | src/report.c:22-62 | The same for one call; with supervision off submitting and handling are dropped |
| Limits.SubmittedReportFrees | src/report.c:22-37 | With supervision on, a report submitted on a stranded entity is dealt with by the next tick, which leaves it restarted or latched |
| Bypass.BypassIsExact | include/recovery.h:84-89 | With supervision off, no history that leaves it off queues or handles anything, if and only if no thread is between its look at the switch and its section |
| Bypass.OffInHistories | include/recovery.h:84-89 | In such histories handled and accepted reports, latches and restart counters stay as they are and the queue only shrinks |
| Bypass.OffIsStill | src/recovery.c:560-586 | Threads that find supervision off at their first look leave queue, accepted, raised and handled reports exactly as they are, in every interleaving |
| Bypass.LateSubmission | src/report.c:27-30 | A report found admissible before the switch-off is queued after it, and a second switch-off leaves it there |
| Bypass.LateHandling | src/recovery.c:584-590 | A report found admissible before the switch-off is handled after it, unless its fault is latched |
| Bypass.SomeSubmissionIsLate | src/report.c:27-30 | Such a history exists for every configuration and report |
| Bypass.BypassAbandons | src/recovery.c:418-421 | Under any interleaving the switch-off abandons exactly the failed, unlatched entities that no thread has admitted for handling, with reports queued or in hand |
| Bypass.AbandonedForever | src/recovery.c:407-428 | In every history an abandoned entity stays abandoned if and only if no move queues an accepted report on it, enters or re-enables handling of one, or changes its health |
| Bypass.MoveSaves | src/recovery.c:407-428 | The same for one move |
| FailureQueues.FailureQueue.constructor | src/failure_queue.c:12-19 | A new ring is empty with a clear latch |
| FailureQueues.FailureQueue.Init | src/failure_queue.c:12-19 | Initialisation empties the ring and clears the latch, under the lock |
| FailureQueues.FailureQueue.PutUnsafe | src/failure_queue.c:21-36 | Appends unless full; a refusal changes only the latch, which is set exactly when some report was refused since initialisation; a missing report changes nothing |
| FailureQueues.FailureQueue.GetUnsafe | src/failure_queue.c:48-67 | Takes the oldest report; reports taken are a prefix of reports accepted, and the tail stays (head + count) mod capacity |
| FailureQueues.WrapShift | src/failure_queue.c:32-34 | Stepping head or tail modulo the capacity shifts every ring position by one |
| FailureQueues.WrapInjective | src/failure_queue.c:32-34 | Different places of the ring are different slots |
| HealthTables.HealthTable.constructor | src/health.c:12-18 | A new table supervises nobody and latches nothing |
| HealthTables.HealthTable.IsLatched | src/health.c:25-31 | Whether exactly that reason is latched; never for an unknown entity |
| HealthTables.HealthTable.Latch | src/health.c:33-44 | Latches the reason over any other and answers whether it was latched already |
| HealthTables.HealthTable.ClearLatch | src/health.c:46-59 | Clears the latch and answers the reason it held |
| HealthTables.HealthTable.SetUnsafe | src/health.c:154-163 | Sets health, code and detail of a known entity, keeping latch and heartbeat |
| HealthTables.HealthTable.ResetUnsafe | src/health.c:165-175 | Makes a known entity healthy with a fresh heartbeat, keeping its latch |
| HealthTables.HealthTable.BeatUnsafe | src/health.c:71-89 | Stamps the heartbeat; heals a degraded entity but never a failed one |
| HealthTables.HealthTable.RaiseLimit | src/recovery.c:358-359 | One more entity, healthy, fresh and not latched |
| HealthTables.HealthTable.IsStale | src/health.c:143-152 | Wrapped age above the limit, for a known entity that has not failed |
| HealthTables.HealthTable.IsRunnable | src/recovery.c:447-451 | Whether the entity is known and has not failed |
| SubsystemTables.SubsystemTable.constructor | src/subsystem.c:17-21 | A new table has no subsystems |
| SubsystemTables.SubsystemTable.CountCriticalDown | src/subsystem.c:31-42 | The counting loop returns the cardinality of the set of unavailable critical subsystems, within 8 bits |
| SubsystemTables.SubsystemTable.Register | src/subsystem.c:44-73 | Appends an available, not degraded subsystem under the next number, or refuses when full |
| SubsystemTables.SubsystemTable.MarkUnsafe | src/subsystem.c:109-136 | Sets the flags of one known subsystem and no other |
| SubsystemTables.SubsystemTable.OnEntityExhausted | src/subsystem.c:171-180 | The hook's answer, or no action without a known subsystem or hook |
| Ports.Port.Enter | src/port.c:28-33 | Takes the lock, which must be free |
| Ports.Port.Exit | src/port.c:35-40 | Frees the lock, which must be held |
| Ports.Port.EmitEvent | src/port.c:50-56 | Appends the event, under the lock |
| Ports.Port.RequestReboot | src/port.c:58-64 | Records one more reboot request, under the lock |
| Libraries.Library.constructor | src/recovery.c:309-327 | Initialisation reaches the initial state with the lock free |
| Libraries.Library.SupervisorTick | src/recovery.c:560-573 | Terminates, and equals the left fold of failure handling over the queue in order of arrival, each report at its own clock reading, followed by one watchdog scan |
| Libraries.Library.CheckWatchdogs | src/recovery.c:631-678 | The loop that drops and retakes the lock around each recovery, which reads the clock anew, equals the model's scan |
| Libraries.Library.CheckOne | src/recovery.c:647-674 | One turn of the loop, from lock held to lock held |
| Libraries.Library.QueryOverdue | src/recovery.c:651-662 | The scan's three tests together say whether the entity is overdue |
| Libraries.Library.HandleFailure | src/recovery.c:575-629 | From lock free to lock free: handles the report, or nothing without a report or supervision |
| Libraries.Library.HandleLocked | src/recovery.c:588-628 | The locked part equals the model's handling |
| Libraries.Library.Announce | src/recovery.c:595-601 | Emits the raising event of a report that is not suppressed |
| Libraries.Library.Strike | src/recovery.c:609-610 | Latches the reason and marks the entity failed |
| Libraries.Library.Recover | src/recovery.c:612-626 | Entity hook, budget, subsystem hook, action and reassessment, in this order |
| Libraries.Library.ApplyAction | src/recovery.c:248-307 | The self-recursive action terminates after at most one fallback and equals the model's action |
| Libraries.Library.ResolveExhausted | src/recovery.c:224-246 | The action after the subsystem's say, and the event that tells of an override |
| Libraries.Library.TryRestart | src/recovery.c:199-222 | Answers success exactly when the callback exists and succeeds |
| Libraries.Library.Revive | src/recovery.c:213-220 | Latch cleared, health reset, events in order |
| Libraries.Library.Refresh | src/recovery.c:213-214 | Clears latch and health and answers the latched reason |
| Libraries.Library.MarkLinked | src/recovery.c:267-272 | Marks the linked subsystem, if any, and tells so |
| Libraries.Library.EvaluateDualPath | src/recovery.c:126-133 | Counts, compares with the threshold and enters SAFE |
| Libraries.Library.SetMode | src/recovery.c:135-146 | Sets and announces a mode that is new |
| Libraries.Library.EnterDegraded | src/recovery.c:148-153 | Enters DEGRADED from NOMINAL only |
| Libraries.Library.EnterSafe | src/recovery.c:155-160 | Enters SAFE unless a reboot is pending |
| Libraries.Library.TryReboot | src/recovery.c:162-168 | Enters REBOOT_PENDING and requests the reboot, every time |
| Libraries.Library.ReportFault | src/report.c:39-81 | Check, queue and failure mark in one critical section, with the status the caller gets |
| Libraries.Library.QueryAdmitted | src/report.c:48-62 | Whether the report passes supervision, latch and health |
| Libraries.Library.EnqueueLocked | src/report.c:11-20 | Queues, or answers BUSY for a critical and STATE for another report |
| Libraries.Library.SubmitFailure | src/report.c:22-37 | Queues without touching health, with every error status |
| Libraries.Library.QueueGet | src/failure_queue.c:48-67 | Takes the oldest report in a critical section of its own |
| Libraries.Library.QueryLatched | src/health.c:61-69 | Whether the reason is latched |
| Libraries.Library.QueryFailed | src/report.c:58-62 | Whether the entity is known and failed |
| Libraries.Library.HealthSet | src/health.c:91-104 | Sets health by hand |
| Libraries.Library.HealthReset | src/health.c:106-120 | Resets health by hand, keeping latch and budgets |
| Libraries.Library.HeartbeatNotify | src/health.c:71-89 | Stamps a heartbeat |
| Libraries.Library.EntityMayRun | src/recovery.c:430-456 | The read-only gate, without side effects |
| Libraries.Library.WorkerMayRun | src/worker.c:5-15 | The worker gate, which stands for a heartbeat in SAFE and above |
| Libraries.Library.RegisterEntity | src/recovery.c:329-364 | Registers under the next id, or PARAM or FULL in the order of the checks; RESTART as exhausted action is refused |
| Libraries.Library.RegisterSubsystem | src/subsystem.c:44-73 | Registers under the next number, or PARAM or FULL |
| Libraries.Library.MarkSubsystem | src/subsystem.c:138-169 | Marks a known subsystem and tells so |
| Libraries.Library.SetSupervisionEnabled | src/recovery.c:407-428 | Switches supervision, discards the queue when switched off, notes the change and answers the old setting |
| Libraries.Library.SupervisionEnabled | src/recovery.c:392-400 | Reads the switch in a critical section |
| Libraries.Library.SystemMode | src/recovery.c:382-390 | Reads the mode in a critical section |
| Libraries.Library.SetSystemMode | src/recovery.c:470-486 | Ground's mode, or PARAM out of range and STATE for REBOOT_PENDING |
| Libraries.Library.DeescalateSystemMode | src/recovery.c:488-506 | One level down from SAFE or DEGRADED, STATE otherwise |
| Libraries.Library.EnterDegradedMode | src/recovery.c:508-513 | The locked entry to DEGRADED |
| Libraries.Library.EnterSafeMode | src/recovery.c:515-520 | The locked entry to SAFE |
| Libraries.Library.ReassessSystemMode | src/recovery.c:522-527 | The locked dual-path evaluation |
| Libraries.Library.AskReboot | src/recovery.c:529-534 | The locked reboot request, with a default reason |

## Left out

- The escalation handler `on_system_escalation`, called once after each mode event with the same mode: it returns nothing to the library.
- Abort on an unbound port and port validation; the model starts from a bound port.
- Text handling: details and names are opaque values, so truncation to the buffer size is not modelled; the library's own texts are constructors.
- Reasons outside the enumeration, in particular one equal to the 0xFF sentinel of the latch clearing routine.
- Values of the supervision switch other than 0 and 1, which the library compares as numbers.
- The `used` flag of entity and subsystem slots, which is set for every registered id and never cleared.
- Clock readings that differ within one critical section; every section has a free reading of its own.
- Hooks whose answers depend on more than their arguments.
- Note and overflow logging as methods: their critical sections are part of every run, their only effect is one event.
- Unlocked reads: the live health pointer, subsystem queries and names; they change nothing.
- Capacities for which the 8-bit counters wrap: more than 255 subsystems or queue slots, which the build does not reject.
- The demonstration programs and their ports.
