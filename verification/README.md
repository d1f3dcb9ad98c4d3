# Verification of the payment recovery engine

This project models the protocols of the case-driven payment recovery engine and proves what
they promise over every run. Each part has a pure specification (tables as values, one function
per SQL statement or transaction) with the hard properties proved about it, and, where the engine
works by changing tables or fields, classes whose methods are proved equal to that specification.

| file | what it models |
|---|---|
| StateMachine, CaseEvents | the case states, the event reducer, and what a whole log says |
| SortedIds, CaseFabric, FabricInvariant, ScheduleRuns, Database | the event store, the caches derived from the log, and the durable scheduler |
| ObligationLease | the obligation lease, with any number of processes and an advancing clock |
| Execution, ExecutionSafety, Executor | admission, lease, nonce, write-ahead row, provider call, crash and boot reconciliation |
| Incident, IncidentRuns, IncidentRamp, IncidentManager | parking, staged release and the circuit breaker, as uninterrupted operations |
| IncidentSteps, IncidentSafety, IncidentCuts, IncidentAccidents | the same loops cut at every statement: what every interleaving keeps, and what a crash or an opt-out in between does |
| Settlement, SettlementRuns, StrandedCases, SettlementOrder, Verifier | matching money, closing cases, opening them once |
| Statistics, Detector | Benjamini-Hochberg, hysteresis and child suppression |
| Claims, Blackboard | incremental invalidation of specialist claims |
| ContactBudget, QuietHours, PolicyEngine | contact caps, quiet hours and the policy decision |
| Runner | stepping a recovery plan through the scheduler |
| Mulberry, Rounding, Estimator, EstimateLaws | the seeded generator, the attribution estimate and what its figures mean |

A run is a sequence of atomic steps, in any order, by any number of workers: one step per SQL
statement or per `withTransaction` block. A worker may vanish between any two of its steps. This is
so for the case fabric, the lease, the executor, the settlement handlers, the incident loops and the
routing of evidence. Results about an operation that runs uninterrupted say so; for the executor, the
settlement handlers and the incident loops a lemma shows that it is one run of those steps. A step
that cannot run leaves the state as it is, so theorems about all step sequences are theorems about
all interleavings. Row locks and unique indexes are guards on these steps. Clocks, random draws of
the provider, and network outcomes are parameters of the steps. Identifiers that the database
orders are natural numbers.

Where code and comments differ the model follows the code:

- `approval_expired` makes a case terminal without a reason, so `closed_at` stays null. Attaching,
  releasing, re-parking and closing such a case are refused by the state machine; uninterrupted, each
  of those operations is proved to fail exactly on such a case.
- `closed_at` follows the terminal reason and moves with every later event on a closed case.
- Parking writes the member, appends the event and cancels the schedule in three statements,
  although its comment speaks of one transaction. A worker lost in between leaves a parked case that
  still acts, which no later attach repairs: `LostBeforeTheAppend`, `LostBeforeTheCancel`. Apart
  from such members the promise holds: `ParkedIsSuppressedIff`.
- Releasing reads which cases are live before it marks the slice, so a case that closes in between
  has its append refused, although the comment says such a case is skipped; the rest of the slice is
  then suppressed for good: `ResumeRefusedIff`, `ReleaseStoppedHalfway`, `AbandonedForGood`.
- A lease is reentrant for its holder name, so at-most-once is proved from the unique keys alone.
- A case opened over money that has already come, and a case whose last handler is lost after
  recording the money, stay open until the next delivery. `RecoveredIffPaid` is exact about them, and
  `OpenedOverTheMoney` and `LostHandlerStrands` are runs that end so.
- A claim written by a run that evidence has overtaken stays live when the route comes first:
  `OvertakenClaimSurvives`; `RoutedClaimsAgreeIff` is exact about it.
- Suppression of detector segments is pairwise and can suppress every one of three nested segments.

## Model

| member | source | states |
|---|---|---|
| StateMachine.ComesFrom | packages/core/src/state-machine.ts:42-75 | the machine read backwards: from exactly which states a case can come to each one, stopping being possible from every open state |
| CaseEvents.ReducesIff | packages/core/src/events.ts:118-156 | a log reduces exactly when its events are numbered 0, 1, 2, … and each is a legal move from the state the log before it reached |
| CaseEvents.ReduceRefuses | packages/core/src/events.ts:118-125 | one step: refused exactly out of turn, with the expected and the given number, or in turn for an illegal move, with its two states |
| CaseEvents.PrefixReduces | packages/core/src/events.ts:154-156 | every prefix of a log that reduces reduces, so a replay can stop anywhere |
| CaseEvents.Counters | packages/core/src/events.ts:118-156 | revision, last sequence number and case id of a reduced log are its length, its length less one, and the id it was reduced for |
| CaseEvents.RevisionIsAQuery | packages/core/src/events.ts:75-151 | state, reason, incident, attempts and evidence kinds of the reduced revision are queries over the log that do not mention the fold; a case is terminal when some event stops it, and has a reason only when some event is terminal_reached |
| CaseEvents.KindsQuery | packages/core/src/events.ts:124-150 | the listed evidence kinds are exactly those that arrived, each once |
| CaseEvents.StateIsAQuery | packages/core/src/events.ts:75-113 | the state of a log is a query over it: DETECTED until an event moves the case, then what the last such event says; after approval_granted EXECUTING until an outcome is observed and OBSERVING from then on |
| CaseEvents.MemoriesAreQueries | packages/core/src/events.ts:131-150 | tier, plan version and holdout are those of the last diagnosis, plan and opening; the changed kinds are the last event's |
| CaseEvents.TerminalAbsorbsOverLog | packages/core/src/state-machine.ts:70-75 | once a prefix of a log is terminal, every longer log that reduces is in that same state |
| CaseFabric.Pick | packages/engine/src/scheduler.ts:58-102 | the rows a tick selects are, in (fire_at, case_id, id) order, the first `limit` due rows nobody has locked |
| CaseFabric.PickMeans | packages/engine/src/scheduler.ts:62-75 | a selection in the scheduler's own terms: due, pending, unlocked, by fire_at, case and id; a row is passed over only once the limit is reached and only if it comes after all those taken |
| FabricInvariant.AppendSucceedsIff | packages/db/src/case-events.ts:23-74 | with the caches right, an append is accepted exactly when the case exists and the transition from the row's own state is legal |
| FabricInvariant.AppendEffect | packages/db/src/case-events.ts:28-70 | what an accepted append does to every column of the case row and to the schedule, without mentioning the log; closed_at follows the reason, cancellation follows the state |
| FabricInvariant.AppendReduces | packages/db/src/case-events.ts:28-45 | re-reading and re-reducing the whole log equals one reduction step from the cached row |
| FabricInvariant.AppendStores | packages/db/src/case-events.ts:37-51 | a successful append stores the event as given under the next number, and the revision it leads to, for that case alone |
| FabricInvariant.AppendKeepsInv | packages/db/src/case-events.ts:23-74 | an append keeps log, revisions and case row in agreement and leaves no outstanding row on a terminal case |
| FabricInvariant.ApplyStepsRows | packages/engine/src/scheduler.ts:42-148 | no operation changes a done or cancelled row, or any row's case, firing time or action |
| FabricInvariant.ScheduleFrame | packages/engine/src/scheduler.ts:42-148 | the scheduler's own operations leave cases, log and revisions alone and add at most the scheduled row |
| FabricInvariant.RunKeepsInv | packages/db/src/case-events.ts:23-74 | every interleaving of opens, appends, schedules, ticks, completes, releases, reclaims and cancels keeps the caches, the rows and the locks valid |
| FabricInvariant.ReachableInv | packages/db/src/case-events.ts:23-74 | and so does every database reachable from the empty one |
| ScheduleRuns.StoredRevisionsAreReplays | packages/db/src/case-events.ts:95-103 | in every reachable database each case has events 0 to next_seq-1, and stored revision k is the replay of the first k events |
| ScheduleRuns.ClosedAtFollowsReason | packages/db/src/case-events.ts:52-58 | closed_at is set exactly when the log holds a terminal_reached, which is not the same as the state being terminal |
| ScheduleRuns.LateEvidenceMovesClosedAt | packages/db/src/case-events.ts:52-58 | evidence appended to a closed case is accepted and moves closed_at |
| ScheduleRuns.SecondTerminal | packages/core/src/state-machine.ts:70-75 | a second terminal event is accepted exactly when it names the same state, and then replaces the reason |
| ScheduleRuns.ClosedForGood | packages/db/src/case-events.ts:60-70 | after a case turns terminal, over every later run it keeps its state, has nothing pending or leased, and no tick hands out a row of it |
| ScheduleRuns.RunStepsRows | packages/engine/src/scheduler.ts:104-148 | done and cancelled rows absorb over whole runs: no late complete, release or reclaim revives one |
| ScheduleRuns.AttemptsCountLeases | packages/engine/src/scheduler.ts:58-138 | `attempts` is the number of times the row was leased, over every run |
| ScheduleRuns.NoSecondLease | packages/engine/src/scheduler.ts:58-138 | a leased row is not handed out again along any run without a release of it or a reclaim at or past its expiry |
| ScheduleRuns.PendingAgainIff | packages/engine/src/scheduler.ts:114-138 | a leased row becomes pending by its release, by a reclaim at or past its expiry, and by nothing else |
| ScheduleRuns.CompletedIsNeverHandedOut | packages/engine/src/scheduler.ts:104-112 | a leased row that is completed is done at that time and is handed out by no tick of any later run, releases and reclaims included |
| ScheduleRuns.ScheduledCaseActs | packages/sim/src/runner.ts:984-1042 | from any sound database a SCHEDULED case takes approval_granted, action_executed and action_scheduled, none refused, and is SCHEDULED again |
| ScheduleRuns.ConcurrentTicksSplit | packages/engine/src/scheduler.ts:58-102 | two overlapping ticks, each with its own clock and limit, take disjoint rows, the second the first due rows that the first has not locked |
| ScheduleRuns.WholeTickTakesLimit | packages/engine/src/scheduler.ts:58-102 | one tick leases exactly its pick and takes min(limit, due) rows out of the due set |
| ScheduleRuns.TicksDrain | packages/engine/src/scheduler.ts:58-102 | with no new rows, n ticks leave max(0, due - n·limit) due rows |
| ScheduleRuns.ScheduleIsSoundIff | packages/engine/src/scheduler.ts:42-56 | `schedule` looks at no case: what it inserts keeps a sound database sound exactly when the case is not terminal |
| ScheduleRuns.UnguardedScheduleIsHandedOut | packages/engine/src/scheduler.ts:42-56 | a row inserted for any case, closed or not, is handed out by exactly the ticks that pick it, and every tick with room for all due rows picks it once it is due |
| ScheduleRuns.DuplicateBranchStrandsARow | packages/sim/src/runner.ts:1038-1042 | the duplicate-attempt branch schedules a row and has its event refused, because SCHEDULED is illegal from EXECUTING |
| Databases.Database.Append | packages/db/src/case-events.ts:23-74 | the statements of the append, run in place, give the specified tables; a refused reduction rolls everything back |
| Databases.Database.Replay | packages/db/src/case-events.ts:100-103 | replaying reproduces the last stored revision of a valid database |
| Databases.Database.Tick | packages/engine/src/scheduler.ts:58-102 | leases a specified pick, and returns exactly those rows as leased and due |
| Databases.Database.Complete | packages/engine/src/scheduler.ts:104-112 | a leased row becomes done at that time with no owner and no expiry, whoever asks; its other fields, every other row and a row in any other state stay |
| Databases.Database.Release | packages/engine/src/scheduler.ts:114-124 | a leased row becomes pending with no owner and no expiry, whoever asks; its other fields, every other row and a row in any other state stay |
| Databases.Database.ReclaimExpiredLeases | packages/engine/src/scheduler.ts:126-138 | exactly the expired leases become pending with no owner, every row keeps its attempts, no other row changes, and the result is how many there were |
| Databases.Database.CancelForCase | packages/engine/src/scheduler.ts:140-148 | nothing is left pending or leased for the case, no other row changes, and the result is how many rows were cancelled |
| ObligationLeases.OverlapOnlyAfterExpiry | packages/engine/src/obligation-lease.ts:28-67 | with distinct holders, two processes are inside on one obligation only if one outlived its lease before the other entered, and whoever has time left still holds the row, so a late release never frees another's lease |
| ObligationLeases.MutualExclusion | packages/engine/src/obligation-lease.ts:60-67 | with distinct holders and work shorter than the ttl, guarded sections of one obligation never overlap |
| ObligationLeases.LateReleaseFreesNothing | packages/engine/src/obligation-lease.ts:52-57 | a release by a holder whose lease has run out never frees the lease of whoever is inside after it |
| ObligationLeases.SameHolderBreaksExclusion | packages/engine/src/obligation-lease.ts:37-38 | under one holder name the first release drops the lease and a stranger enters beside the second worker |
| ObligationLeases.OutlivedLeaseIsTaken | packages/engine/src/obligation-lease.ts:28-41 | another holder gets in beside work still going on exactly when the lease has run its whole time |
| ObligationLeases.LeavingFrees | packages/engine/src/obligation-lease.ts:52-67 | leaving frees the obligation at once, and a crash leaves the lease to run out |
| ObligationLeases.DropTakesOwn | packages/engine/src/obligation-lease.ts:52-57 | a release takes away the holder's own row and no other |
| ObligationLeases.ObligationLease.TryAcquire | packages/engine/src/obligation-lease.ts:28-41 | the upsert takes a free, expired or own lease and nothing else |
| ObligationLeases.ObligationLease.Release | packages/engine/src/obligation-lease.ts:52-57 | deletes the row only for its holder |
| ObligationLeases.ObligationLease.WithLease | packages/engine/src/obligation-lease.ts:60-67 | runs the work exactly when the lease can be taken; whatever happened to the lock table meanwhile, on return and on throw the holder has no lease left and nobody else has lost one |
| ExecutionSafety.AtMostOnce | packages/engine/src/executor.ts:107-149 | over every interleaving, crash, expiry and reconcile pass, no two adapter calls share an idempotency key or a nonce, and each has its row and its burned nonce |
| ExecutionSafety.WriteAhead | packages/engine/src/executor.ts:114-141 | any step that calls the adapter runs with that key's row stored in flight and that token's nonce burned, and adds exactly that call |
| ExecutionSafety.CallsAreAuthorised | packages/core/src/capability.ts:78-108 | over every run each adapter call was begun by a step of it, for a supported action, under a token that was signed, in time by that step's clock, made out for that action and those parameters, and good for the amount, with the lease free, expired or its own |
| ExecutionSafety.RunAccumulates | packages/engine/src/executor.ts:152-182 | the clock, burns, rows, settled rows and the provider's memory only grow: no row returns to in_flight |
| ExecutionSafety.RunKeepsInv | packages/engine/src/token-burn.ts:21-31 | every run keeps the call log distinct, covered by rows and burns, and the provider's memory within the calls |
| ExecutionSafety.BootReconcileIsExact | packages/engine/src/executor.ts:164-184 | with no live executor, a pass settles exactly the keys the provider received and leaves in flight exactly the rows never received |
| ExecutionSafety.ReconcileKeysEffect | packages/engine/src/executor.ts:168-182 | a pass changes the rows the provider knows and no others, in any order |
| ExecutionSafety.CrashAndReconcile | packages/engine/src/executor.ts:164-184 | the same of the step system: after any run everyone is lost, one worker reconciles, no call is made, and the settled rows equal the provider's keys |
| ExecutionSafety.LeaseKeepsOthersOut | packages/engine/src/obligation-lease.ts:28-57 | a lease one case takes keeps another out for its whole time and no longer, and not at all once dropped |
| Executors.ExecuteIsARun | packages/engine/src/executor.ts:90-150 | an uninterrupted execute is one run of the step system, so the safety results are about it |
| Executors.AdmittedIff | packages/core/src/capability.ts:78-108 | a request passes admission exactly if the action is executable and supported and the token is signed, unexpired, for that action and those parameters, and not below the amount |
| Executors.AfterExecuteEffect | packages/engine/src/executor.ts:112-158 | what an execute leaves: reaching the adapter burns the nonce and writes the row, settled by the answer and in flight without one; no other row changes; every way out past the lease frees it |
| Executors.Executor.Execute | packages/engine/src/executor.ts:90-150 | the adapter is reached exactly by a supported action under a token that is signed, unexpired, matching and within its cap, with a free lease, an unburned nonce and no row; each refusal comes back exactly on its own condition when no earlier one holds |
| Executors.Executor.BurnToken | packages/engine/src/token-burn.ts:21-31 | the unique insert burns a nonce once and reports a replay |
| Executors.Executor.InvokeAdapter | packages/connectors/src/simulated-psp.ts:121-140 | one call is one entry in the call log; the provider remembers the key unless the call was lost on the way |
| Executors.Executor.Reconcile | packages/engine/src/executor.ts:164-184 | goes through exactly the in-flight rows, calls nothing, and its two counts add up |
| Executors.RepeatNeverCalls | packages/engine/src/executor.ts:103-128 | after one request reached the adapter, no later one with its key or its nonce does, whatever runs in between and whatever capability it is asked under |
| SortedIds.Sorted | packages/engine/src/incident.ts:120-126 | lists exactly the ids of a set, each once, ascending |
| Incidents.SliceSize | packages/engine/src/release-controller.ts:101-107 | a slice is never larger than the parked set, and never empty while it is not |
| IncidentRuns.AttachAllKeeps | packages/engine/src/incident.ts:78-108 | uninterrupted, attaching cases that no other incident holds now keeps the incident invariant, and stops with an error exactly when it meets a case that approval_expired stopped without closing |
| IncidentRuns.AttachAllParks | packages/engine/src/incident.ts:80-101 | a completed attach adds exactly the live cases that were not members yet, all parked, and changes no other membership |
| IncidentRuns.ForeignParkBreaks | packages/engine/src/incident.ts:78-108 | parking an open case keeps the invariant exactly when no other incident holds it; one that has it parked is left with a parked case suppressed by another |
| IncidentRuns.ReleaseKeeps | packages/engine/src/incident.ts:136-160 | uninterrupted, releasing keeps the invariant, takes exactly the slice out of the parked set, and is refused exactly when such a case is in the slice |
| IncidentRuns.ReparkKeeps | packages/engine/src/incident.ts:162-180 | uninterrupted, re-parking puts exactly the still live cases back, with the same condition |
| IncidentRamp.AdvanceKeeps | packages/engine/src/release-controller.ts:87-113 | a healthy step releases exactly its slice, moves one stage on, and remembers the slice for the breaker |
| IncidentRamp.BreakKeeps | packages/engine/src/release-controller.ts:71-86 | the breaker re-parks exactly the live cases of the last slice and restarts the ramp at stage 0 |
| IncidentRamp.BetterNeverTrips | packages/engine/src/release-controller.ts:66-68 | a higher observed rate against the same baseline never trips the breaker where a lower one does not |
| IncidentRamp.NineTenthsIsHealthy | packages/engine/src/release-controller.ts:28-31 | as configured nine tenths of the baseline advances and anything less trips; without a baseline nothing does |
| IncidentRamp.SliceBounds | packages/engine/src/release-controller.ts:101-107 | before the last stage the slice lies between max(1, round((1-j)·f·n)) and max(1, round((1+j)·f·n)), capped at n |
| IncidentRamp.DefaultSliceBounds | packages/engine/src/release-controller.ts:28-31 | with the default configuration the factors are 0.8 and 1.2 |
| IncidentRamp.DefaultSlices | packages/engine/src/release-controller.ts:6 | stage by stage: between 4 and 6, 12 and 18, 32 and 48 percent of the parked cases, rounded and at least one, then all |
| IncidentRamp.JitterRange | packages/engine/src/release-controller.ts:104-105 | the jitter factor stays within its fraction of one |
| IncidentRamp.HealthyStepEffect | packages/engine/src/release-controller.ts:87-123 | a healthy step closes an incident with nothing parked and otherwise strictly shrinks the parked set; from stage 3 on it empties it |
| IncidentRamp.ClosesWithinFive | packages/engine/src/release-controller.ts:62-123 | from stage 0, five healthy steps close the incident, however many cases were parked and whatever the draws |
| IncidentRamp.BreakerRestores | packages/engine/src/release-controller.ts:71-113 | a release followed by an unhealthy reading restores the parked set exactly, less slice members that closed in between |
| IncidentSafety.ActAllKeeps | packages/engine/src/incident.ts:78-180 | every run of attach loops and ramp steps cut at each statement, crashes anywhere and case traffic keeps the invariant of the statement-level system |
| IncidentSafety.ParkedIsSuppressedIff | packages/engine/src/incident.ts:78-108 | in every reachable state a parked case with no park of it under way is closed, or suppressed by its own incident with nothing pending or leased, exactly when no park of it died between its statements |
| IncidentSafety.SuppressedBeforeQuiet | packages/engine/src/incident.ts:97-100 | from the append on, before the cancel has run, a parked case is suppressed by its own incident or closed |
| IncidentSafety.ResumeRefusedIff | packages/engine/src/incident.ts:139-154 | the append that resumes a case of a slice is refused exactly when the case is terminal at that append, whatever the earlier live select said |
| IncidentSafety.ParkRefusedIff | packages/engine/src/incident.ts:87-99 | the append that parks a case, in the attach and in the breaker, is refused exactly when the case is terminal at that append |
| IncidentSafety.RefusedReleaseLeaves | packages/engine/src/incident.ts:145-154 | a refused release leaves the rest of its slice out of the parked set, still suppressed, and the slice unrecorded |
| IncidentSafety.RestIsSound | packages/engine/src/release-controller.ts:62-123 | whenever nobody is at work and nothing was cut short, the tables satisfy the invariant the uninterrupted results start from |
| IncidentCuts.AttachIsARun | packages/engine/src/incident.ts:78-108 | an attach nobody interrupts is one run of the statement-level system |
| IncidentCuts.AdvanceIsARun | packages/engine/src/release-controller.ts:87-113 | a healthy step nobody interrupts is one run of it, refused or not |
| IncidentCuts.BreakIsARun | packages/engine/src/release-controller.ts:71-86 | and so is the circuit breaker |
| IncidentAccidents.LostBeforeTheAppend | packages/engine/src/incident.ts:93-99 | a run from the empty database: lost after the insert, the case counts as parked, was never suppressed, its action is due, and every later attach passes it over |
| IncidentAccidents.LostBeforeTheCancel | packages/engine/src/incident.ts:99-100 | a run from the empty database: lost after the append, the case is suppressed and its action is still due |
| IncidentAccidents.OptOutStopsRelease | packages/engine/src/incident.ts:139-154 | whatever slice a healthy step reads, its first case stops the release by opting out after the live select, and the stage and the slice on record stay as they were |
| IncidentAccidents.ReleaseStoppedHalfway | packages/engine/src/incident.ts:139-154 | a run from the empty database that ends with an open case suppressed, out of the parked set, in no slice and in nobody's hands |
| IncidentAccidents.AbandonedForGood | packages/engine/src/incident.ts:78-180 | over every later run in which no other incident attaches it, such a case stays suppressed until it closes: no attach, ramp step or breaker of its incident takes it up again |
| IncidentAccidents.CrashForgetsTheSlice | packages/engine/src/release-controller.ts:44-45 | a ramp step that dies takes its memory of the slice with it: the next unhealthy reading pulls back nothing |
| IncidentManagers.IncidentManager.AttachAndSuppress | packages/engine/src/incident.ts:78-108 | the loop in place leaves the specified book, error or not, and counts the members it added |
| IncidentManagers.IncidentManager.Release | packages/engine/src/incident.ts:136-160 | the update and the loop in place leave the specified book, error or not |
| IncidentManagers.IncidentManager.Repark | packages/engine/src/incident.ts:162-180 | the loop in place leaves the specified book, error or not |
| IncidentManagers.IncidentManager.Parked | packages/engine/src/incident.ts:120-126 | the parked cases, ascending, each once |
| IncidentManagers.IncidentManager.SetState | packages/engine/src/incident.ts:182-189 | writes that incident's state, its stage if one is given, and closed_at exactly on closing; no other row, and nothing if there is no such incident |
| IncidentManagers.AdvanceAgrees | packages/engine/src/release-controller.ts:87-123 | the step reported after a release agrees with the tables: its stage, how many were released, how many are still parked |
| IncidentManagers.ReleaseController.Step | packages/engine/src/release-controller.ts:62-123 | for a known incident the breaker runs exactly when the baseline is not zero and the observed rate is below threshold times baseline, and otherwise the ramp advances; the step reported agrees with the tables, and the generator moves exactly when a slice is cut |
| SettlementOrder.KeyAndReferenceMatchIsFixed | packages/engine/src/reconciler.ts:53-87 | a settlement matched by key, by reference or not at all has one match, whatever has been settled in the meantime |
| SettlementOrder.NamesAreUnique | packages/engine/src/case-manager.ts:38-48 | in every reachable state a merchant and reference name one obligation |
| Settlements.MatchMeans | packages/engine/src/reconciler.ts:53-87 | where a settlement goes, field by field: its key's obligation, else its account's earliest unpaid one of that merchant, else the one its reference names, else none |
| Settlements.InsertMeans | packages/engine/src/reconciler.ts:38-51 | refused exactly without a positive amount or for a known key under a new id, nothing for a known id, and else one row more |
| SettlementOrder.RowsStayUnique | packages/engine/src/reconciler.ts:38-51 | however deliveries race, each id and each idem_key is on file once |
| SettlementOrder.AccountMatchMovesOn | packages/engine/src/reconciler.ts:64-74 | once an account's earliest obligation is settled the same money no longer matches it: account matches depend on the order |
| SettlementOrder.OneDelivery | packages/engine/src/verifier.ts:38-80 | one delivery adds its row under that match unless it is on file, and recovers exactly the open case it pays for in full |
| SettlementOrder.TotalOfSet | packages/engine/src/reconciler.ts:90-96 | the settled amount depends on which rows there are, not on their order |
| SettlementOrder.BatchRows | packages/engine/src/reconciler.ts:38-51 | after any deliveries each valid settlement is on file once, under the match it had first, however often it came |
| SettlementOrder.BatchRecoversIff | packages/engine/src/verifier.ts:38-80 | a batch recovers exactly the open cases whose obligation one of its deliveries matches and the money on file at the end covers; every other case keeps its state |
| SettlementOrder.DeliveryOrderDoesNotMatter | packages/engine/src/verifier.ts:38-80 | settlements that no account decides, each matched and handled when it comes, in any order and any number of times: every obligation and the unmatched pile get the same money, and every case ends in the same state |
| SettlementOrder.AccountOrderMatters | packages/engine/src/reconciler.ts:64-74 | where an account decides, order matters: two transfers whose order decides what the second obligation is credited with |
| SettlementOrder.MoneyIsConserved | packages/engine/src/reconciler.ts:90-104 | matched money over all obligations plus unmatched money is all the money on file |
| SettlementRuns.InsertGrows | packages/engine/src/reconciler.ts:38-51 | recording credits the matched obligation and no other, and nothing credited is ever taken back |
| SettlementRuns.ActAllKeepsInv | packages/engine/src/verifier.ts:38-80 | every run of settlement handlers cut at each statement, crashes, openOrAttach and case traffic keeps the money invariant |
| SettlementRuns.RecoveredMeansPaid | packages/engine/src/verifier.ts:55-72 | in every reachable state a RECOVERED case's obligation has been credited with at least what it owes |
| SettlementRuns.AtMostOneLiveCase | packages/engine/src/case-manager.ts:37-61 | in every reachable state an obligation has at most one case with a null closed_at |
| SettlementRuns.RecoveredIffPaid | packages/engine/src/verifier.ts:38-80 | when an obligation's handlers have finished, a case no other signal has stopped is RECOVERED exactly when the credited money covers what is owed and the case is not stranded; with nothing owed, exactly the same once anything has been credited |
| SettlementRuns.LeftBehindIsStranded | packages/engine/src/verifier.ts:38-80 | only the death of the last handler answering for its obligation, or opening over money already there, leaves a case open, paid for and unattended |
| StrandedCases.LostHandlerStrands | packages/engine/src/verifier.ts:38-50 | a run from the empty desk: a handler lost between its insert and its lookup leaves the case open over the full payment |
| StrandedCases.OpenedOverTheMoney | packages/engine/src/case-manager.ts:38-61 | a run from the empty desk with nobody lost: the case is stopped, the money comes, and the next trigger opens a case that nobody will close |
| SettlementRuns.RecoveryEffect | packages/engine/src/verifier.ts:66-72 | the closing append is accepted exactly when the case is open or already RECOVERED, and keeps the fabric sound |
| SettlementRuns.FindKeeps | packages/engine/src/verifier.ts:42-50 | looking up the open case loses no covered case: the one found is the one to close |
| SettlementRuns.OpenKeeps | packages/engine/src/case-manager.ts:38-61 | opening or attaching keeps one live case per obligation |
| Verifiers.HandleIsARun | packages/engine/src/verifier.ts:38-80 | an uninterrupted onSettlement is one run of the step system |
| Verifiers.WhenADeliveryRecovers | packages/engine/src/verifier.ts:38-80 | on a sound desk a delivery recovers the case exactly when the money covers it, fails exactly when approval_expired had stopped that case, marks the obligation settled in both, and otherwise answers unmatched, no open case, or partial with both sums |
| Verifiers.NothingOwedNeedsNoCredit | packages/engine/src/verifier.ts:52-72 | where nothing is owed, a matched redelivery recovers a case whose obligation was never credited |
| Settlements.RecoveryReasons | packages/engine/src/verifier.ts:66-72 | the reason names how the money was matched |
| Verifiers.OutcomeEvents | packages/engine/src/verifier.ts:87-113 | what each signal appends, by the connectors' names |
| Verifiers.OutcomesAreNotMoney | packages/engine/src/verifier.ts:87-113 | a connector's success or failure never recovers or closes a case and concludes an execution; an open case is opted out exactly by an opt-out and disputed exactly by a dispute |
| Verifiers.Reconciler.FindMatch | packages/engine/src/reconciler.ts:53-87 | finds a match the strategy order allows: key, then the account's earliest unsettled obligation, then reference |
| Verifiers.Reconciler.Record | packages/engine/src/reconciler.ts:38-51 | matches afresh and inserts once; a known key under a new id and a non-positive amount are errors that write nothing |
| Verifiers.FindOpenCase | packages/engine/src/verifier.ts:42-50 | the oldest case of the obligation with a null closed_at, or none |
| Verifiers.Verifier.OnSettlement | packages/engine/src/verifier.ts:38-80 | the call in place ends as the specification of one handled settlement says, from some allowed match and open case |
| Verifiers.Verifier.OnOutcome | packages/engine/src/verifier.ts:87-113 | appends the outcome's event, or fails and changes nothing |
| Verifiers.Verifier.Exhaust | packages/engine/src/verifier.ts:116-123 | closes an open case as UNRECOVERABLE with that reason, and is refused exactly when the case is missing or closed in another state |
| Verifiers.CaseManager.Open | packages/engine/src/case-manager.ts:38-61 | the transaction: the obligation on file or a new row, its live case or a new one; a taken id rolls back |
| Verifiers.CaseManager.OpenOrAttach | packages/engine/src/case-manager.ts:37-72 | afterwards the returned case is the only live one of the obligation the request names, on file before or filed now as owed; it attached exactly when one was live before; a new case's log starts with case_opened |
| Statistics.NegativeIsADrop | packages/core/src/stats.ts:33-50 | a negative z means the observed rate is below the baseline |
| Statistics.ZScore | packages/core/src/stats.ts:33-50 | the score by its law: its square times the pooled variance is the square of the difference in rates, with the sign of that difference; without variance z is 0 and p is 1 |
| Statistics.NoAttemptsNoEvidence | packages/core/src/stats.ts:41-43 | without attempts on either side z is 0 and p is 1 |
| Statistics.SortByPermutes | packages/core/src/stats.ts:61 | sorting keeps the items |
| Statistics.BenjaminiHochberg | packages/core/src/stats.ts:56-68 | returns the longest sorted prefix whose last p-value meets its bound, which is the set of items the order-free step-up rule rejects |
| Statistics.PrefixIsRejected | packages/core/src/stats.ts:61-67 | an item is in the prefix exactly when some threshold at or above its p-value is at most alpha times the share of items under it |
| Statistics.OrderDoesNotMatter | packages/core/src/stats.ts:56-68 | the rejected set does not depend on the order of the items |
| Statistics.TiesFallTogether | packages/core/src/stats.ts:56-68 | an item with a p-value no larger than a rejected one's is rejected |
| Statistics.RejectionGrows | packages/core/src/stats.ts:56-68 | a larger alpha and smaller p-values reject everything rejected before |
| Statistics.AtLeastBonferroni | packages/core/src/stats.ts:56-68 | every item with p at most alpha/m is rejected |
| Detection.AncestorIsRestriction | packages/engine/src/detector.ts:17-22 | ancestry, decided by counting dimensions, is strict restriction of one segment by another |
| Detection.AncestryIsAStrictOrder | packages/engine/src/detector.ts:17-22 | ancestry is irreflexive, asymmetric and transitive |
| Detection.LabelsTellApart | packages/engine/src/detector.ts:13-14 | different segments have different labels, so no two share a counter, as long as no value contains the separator |
| Detection.LabelOfAll | packages/engine/src/detector.ts:11-14 | the label of a segment with every dimension, in order |
| Detection.ReportedIff | packages/engine/src/detector.ts:139-159 | reported are the dwelled segments that no wider one explains at nine tenths of the drop and that no narrower one has clearly outdone, in rates and dimensions |
| Detection.ReportIsAnAntichain | packages/engine/src/detector.ts:139-159 | however deep the nesting, no reported segment contains another |
| Detection.SilentOnlyIfIntransitive | packages/engine/src/detector.ts:139-159 | segments past dwell are all suppressed only if among three nested ones explaining fails to carry through |
| Detection.TwoLevelsAlwaysReport | packages/engine/src/detector.ts:139-159 | with at most two levels of nesting something past dwell is reported |
| Detection.ThreeLevelsSilentIff | packages/engine/src/detector.ts:139-159 | on three nested segments the report is empty exactly when the top explains the middle, the middle the bottom, and the top not the bottom |
| Detection.ThreeLevelsCanGoSilent | packages/sim/src/runner.ts:202-206 | drops of 0.340, 0.368 and 0.400 on gateway, issuer and method suppress all three |
| Detection.AnomalyDetector.SilenceHasACause | packages/engine/src/detector.ts:94-159 | the same from raw observations: corrected candidates are drops, so silence past dwell has such a triple |
| Detection.CountersAreTrailingRuns | packages/engine/src/detector.ts:112-127 | for every label and every run, the two counters are the lengths of the trailing runs of failing and of healthy tested windows since the last reset |
| Detection.NeverBothPositive | packages/engine/src/detector.ts:112-127 | a label is never counting failures and recoveries at once |
| Detection.ShouldCloseIff | packages/engine/src/detector.ts:163-165 | closing is due exactly when the last closeWindows tested windows were all healthy |
| Detection.AnomalyDetector.TestedAtTheFloor | packages/engine/src/detector.ts:95-102 | the observations at or above the volume floor are tested, all of them and no others, each once and in order, with their own segment, label, attempts and rates |
| Detection.DropsAreNegative | packages/engine/src/detector.ts:104-105 | the corrected drops are the tested segments with a negative z, all and no others, each once and in order |
| Detection.AnomalyDetector.OneGained | packages/engine/src/detector.ts:112-127 | a label observed at or above the floor gains exactly one verdict: failing if corrected, healthy if not and its rate is close enough to the baseline |
| Detection.AnomalyDetector.NothingGained | packages/engine/src/detector.ts:95-127 | a label not observed, or only below the floor, gains none |
| Detection.SignificantAreDrops | packages/engine/src/detector.ts:105-110 | the corrected segments are among the drops |
| Detection.DwelledAreSignificant | packages/engine/src/detector.ts:129-131 | the candidates for a report are the significant segments whose dwell count has reached the limit |
| Detection.AnomalyDetector.Count | packages/engine/src/detector.ts:112-127 | the loop counts every tested segment once, in order |
| Detection.AnomalyDetector.Evaluate | packages/engine/src/detector.ts:94-160 | one window corrects the drops and reports what suppression leaves of the dwelled ones, none below the floor; with distinct labels each one observed at or above the floor gains exactly its own verdict and every other none |
| Detection.AnomalyDetector.ShouldClose | packages/engine/src/detector.ts:163-165 | answers by the label's history of verdicts |
| Detection.AnomalyDetector.ResetLabel | packages/engine/src/detector.ts:175-178 | forgets the label's history and no other |
| Claims.PlanSplitsRoles | packages/engine/src/work-router.ts:25-35 | every role is rerun or reused, never both; reused exactly if it has a live claim and none of its kinds changed |
| Claims.PlanListsOnce | packages/engine/src/work-router.ts:25-35 | and listed once |
| Claims.RerunsOf | packages/core/src/roles.ts:32-85 | which roles each kind of evidence puts up for a rerun, kind by kind |
| Claims.LiveClaimsAgree | packages/engine/src/work-router.ts:37-43 | over any evidence, failures, overlapping runs and routes cut between their read and their write: once everything is routed, a live claim says what rerunning its role from scratch would, unless evidence overtook its writer |
| Claims.RoutedClaimsAgreeIff | packages/engine/src/work-router.ts:37-43 | for roles that report what they saw that condition is exact: a routed live claim is right if and only if its writer was not overtaken |
| Claims.OvertakenClaimSurvives | packages/engine/src/blackboard.ts:75-98 | a run from the empty board in which evidence is routed while its role is at work, and the stale claim then stays live |
| Claims.UndisturbedClaimsAgree | packages/engine/src/work-router.ts:37-43 | where no evidence comes while a role that depends on it is at work, every routed live claim is right |
| Claims.AtMostOneLiveClaim | packages/engine/src/blackboard.ts:75-98 | in every reachable board a role has at most one live claim |
| Claims.CopiesAgreeIff | packages/core/src/roles.ts:80-85 | for a role that reports what it saw, a claim is right exactly while no evidence of its kinds has come since it read |
| Claims.SkippedRoute | packages/engine/src/work-router.ts:37-43 | evidence added without a route leaves every claim live; one stays right exactly if it was and its role does not depend on the kind |
| Claims.RouteClearsAffected | packages/engine/src/work-router.ts:37-43 | a route leaves live exactly the live claims whose role does not depend on a changed kind |
| Claims.FailedRoleIsRerun | packages/engine/src/work-router.ts:29-32 | along any run in which no run of the role finishes, a role without a live claim stays without one and every plan reruns it |
| Claims.FinishWrites | packages/engine/src/blackboard.ts:75-98 | in every reachable board a run that finishes leaves its role one live claim, of what it made of the evidence it had read |
| Claims.LostRouteWritesNothing | packages/engine/src/work-router.ts:37-43 | a route lost between its read and its write invalidates nothing, then or later |
| Claims.StepAllKeeps | packages/engine/src/blackboard.ts:75-136 | every run of evidence, cut routes, starts, finishes and failures keeps the board invariant |
| Blackboards.Blackboard.AddEvidence | packages/engine/src/blackboard.ts:44-50 | the roles of that case that depend on the kind see one more piece, last; every other role's view and every other case stay |
| Blackboards.Blackboard.EvidenceFor | packages/engine/src/blackboard.ts:52-68 | the case's evidence of the kinds named, in order, and all of it when none is named; for a role's kinds, its view |
| Blackboards.Blackboard.InvalidateRoles | packages/engine/src/blackboard.ts:128-136 | marks exactly the live claims of the named roles of that case and returns how many fell |
| Blackboards.Blackboard.WriteClaim | packages/engine/src/blackboard.ts:75-98 | supersedes the role's live claim and leaves one, for that case only |
| Blackboards.Mark | packages/engine/src/blackboard.ts:128-136 | the row-by-row update marks what the specification marks, and its count is the number of live named roles |
| Blackboards.WorkRouter.Route | packages/engine/src/work-router.ts:37-43 | reruns the roles without a live claim or with a changed kind, reuses the others, and marks exactly the live claims of roles with a changed kind |
| ContactBudgets.WindowsNeverExceed | packages/engine/src/policy-engine.ts:146-190 | over every sequence of authorise-then-consume, no fixed window of a channel or of the shared budget exceeds its max, even when the window turns in between |
| ContactBudgets.SlidingIntervalHoldsTwice | packages/engine/src/policy-engine.ts:159-162 | any interval as long as the window holds at most 2·max contacts |
| ContactBudgets.TwiceIsReached | packages/engine/src/policy-engine.ts:159-162 | and 2·max is reached for every max and every window length: spent before the window turns, and again after |
| ContactBudgets.TwoWindows | packages/engine/src/policy-engine.ts:159-162 | such an interval meets two fixed windows at most |
| ContactBudgets.ConsumeAdds | packages/engine/src/policy-engine.ts:177-190 | one consume adds one to the counters that count the contact and leaves every other counter alone |
| ContactBudgets.WindowHolds | packages/engine/src/policy-engine.ts:159-162 | a window starts at a multiple of its length in days and holds the instant |
| ContactBudgets.CapForIsFirst | packages/core/src/policy.ts:72-78 | the cap that counts is the first listed for the channel, and there is none only if none is listed |
| ContactBudgets.FirstIsInForce | packages/core/src/policy.ts:72-78 | each channel's first cap is in force |
| ContactBudgets.AuthorisedTogether | packages/engine/src/policy-engine.ts:112-123 | two contacts both authorised before either is consumed keep a budget exactly if two were left |
| ContactBudgets.SharedChannelCountsTwice | packages/engine/src/policy-engine.ts:147-148 | a contact on channel "*" is counted twice, and overruns the cap exactly when one was left |
| ContactBudgets.Budgets.BudgetExhausted | packages/engine/src/policy-engine.ts:146-157 | true exactly when the counter of the channel's or of the shared cap, in the window of the moment, has reached its max |
| ContactBudgets.Budgets.ConsumeContactBudget | packages/engine/src/policy-engine.ts:177-190 | bumps the channel's counter and then the shared one, each if there is such a cap |
| PolicyEngines.PolicyEngine.Evaluate | packages/engine/src/policy-engine.ts:72-144 | allows exactly when no rule objects, and otherwise cites the first that does |
| PolicyEngines.DecisionIs | packages/engine/src/policy-engine.ts:72-144 | each rule in the engine's own terms and order: which decision comes back exactly when, down to allow when nothing objects |
| QuietHours.PermittedIsARun | packages/core/src/policy.ts:63-70 | permitted minutes are one run of the clock starting where quiet hours end, wrapping or not |
| QuietHours.LocalClock | packages/core/src/policy.ts:46-55 | local time advances by a minute every 60000 ms and comes round every day |
| QuietHours.MsUntilContactAllowed | packages/sim/src/runner.ts:1066-1076 | the first of the next 24 whole hours that is permitted; it answers a quiet instant exactly when there is none |
| QuietHours.AnHourIsEnough | packages/sim/src/runner.ts:1066-1076 | with at least 60 permitted minutes a day some whole hour is permitted from every instant |
| QuietHours.LessIsNotEnough | packages/sim/src/runner.ts:1066-1076 | with fewer, the search fails from the minute just past the permitted run |
| QuietHours.DeferralWorksIff | packages/sim/src/runner.ts:1066-1076 | the search succeeds from every instant exactly when at least 60 minutes a day are permitted |
| Runners.NextIsFirstCapability | packages/sim/src/runner.ts:869-876 | shifting waits off a plan loses no step to execute and stops at the first one |
| Runners.WaitIs | packages/sim/src/runner.ts:874 | a wait lasts its delay, else the hours it expects, else a day |
| Runners.LeadIs | packages/sim/src/runner.ts:869-876 | after any number of waits the next step is the one behind them, after all of their hours |
| Runners.NothingLostOrReordered | packages/sim/src/runner.ts:865-894 | under any firings and deferrals, executed, scheduled and remaining steps are together the plan's capability steps, each once and in order |
| Runners.DeferralDelaysOnlyItself | packages/sim/src/runner.ts:940-955 | a deferred step is scheduled again at the permitted instant, without serving earlier waits again |
| Runners.NextFiresAfterItsWaits | packages/sim/src/runner.ts:865-894 | after an execution the next step fires once the waits before it have passed, counted from the execution |
| Runners.RecordedMeans | packages/sim/src/runner.ts:878-893 | one pending row more for the step and the event that records it, or on a refusal the row and no event |
| Runners.PlanEnds | packages/sim/src/runner.ts:865-894 | when every firing executes, the plan ends after exactly its capability steps |
| Runners.ShiftWaits | packages/sim/src/runner.ts:869-876 | the loop stops at the first step to execute, having added up the waits before it |
| Runners.Runner.AdvancePlan | packages/sim/src/runner.ts:865-894 | schedules the first capability step after the waits before it, then records it; a refused record leaves the row behind |
| Runners.Runner.StartPlan | packages/sim/src/runner.ts:842-863 | plans exactly when the case may be diagnosed; then none of its events is refused, and the case ends scheduled, or planned if the plan only waits |
| Mulberry.StateClosedForm | packages/attribution/src/rng.ts:3-5 | the state after k draws is seed + k·0x6d2b79f5 modulo 2^32 |
| Mulberry.EveryStateIsVisited | packages/attribution/src/rng.ts:3-5 | every 32-bit state is reached within 2^32 draws |
| Mulberry.PeriodIsFull | packages/attribution/src/rng.ts:3-5 | two states along a stream are equal exactly when their places agree modulo 2^32 |
| Mulberry.Output | packages/attribution/src/rng.ts:6-8 | a draw lies in [0, 1) |
| Mulberry.KnownWords | packages/attribution/src/rng.ts:6-8 | the mixing rounds on known words |
| Mulberry.KnownDraws | packages/attribution/src/rng.ts:3-8 | the first draws from seed 0 and from the default seed |
| Mulberry.Generator.Draw | packages/attribution/src/rng.ts:4-9 | one draw moves the state one stride and returns the mix of the new state |
| Estimators.ExcludedMovesNothing | packages/attribution/src/estimator.ts:109-137 | an excluded outcome in either arm, anywhere in the input, leaves both arms and so every figure unchanged, and is counted in its own arm |
| Estimators.ArmsAddUp | packages/attribution/src/estimator.ts:130-135 | treated, held out and the two excluded counts add up to the input |
| Estimators.StrataAddUp | packages/attribution/src/estimator.ts:70-106 | the strata's counts add up to the treated and to the holdout arm |
| EstimateLaws.ArmIff | packages/attribution/src/estimator.ts:109-137 | an arm has exactly its own outcomes, as often as reported, less those collected by the merchant's dunning or within the natural window, which are counted as excluded whichever arm they are in |
| EstimateLaws.BandsAre | packages/attribution/src/holdout.ts:10-18 | the bands' bounds, each included below |
| EstimateLaws.Headline | packages/attribution/src/estimator.ts:135-201 | the lift is the difference of the recovery rates, and the headline is the lift times what the treated cases were worth altogether, to the nearest paisa; gross recovery is what the recovered ones were worth |
| EstimateLaws.ValueAtRisk | packages/attribution/src/estimator.ts:141-142 | the reported value at risk is the treated average, to the nearest paisa |
| EstimateLaws.EmptyArms | packages/attribution/src/estimator.ts:137-142 | an empty arm's rate counts as none, and without treated cases nothing is claimed |
| EstimateLaws.NoDifferenceNoClaim | packages/attribution/src/estimator.ts:137-142 | with equal arms the lift and the headline are zero |
| EstimateLaws.LiftInterval | packages/attribution/src/estimator.ts:144-148 | the interval lies 1.96 standard errors either side of the lift, the square of the standard error being the sum of the variances of the two rates |
| EstimateLaws.StratumLift | packages/attribution/src/estimator.ts:80-87 | a band with fewer than twenty held-out cases borrows the pooled lift and says so; any other takes its own |
| EstimateLaws.StratumPrice | packages/attribution/src/estimator.ts:89-105 | a band is priced at the average of the cases that recovered in it, or of all of them if none did |
| EstimateLaws.StrataReported | packages/attribution/src/estimator.ts:70-106 | the strata reported are those of the bands that hold a case of either arm, with the pooled lift to fall back on |
| EstimateLaws.StratifiedSplit | packages/attribution/src/estimator.ts:178-181 | the stratified figure is additive over the strata |
| Estimators.IndexAt | packages/attribution/src/estimator.ts:221 | a draw scaled to an arm is an index of it |
| Estimators.CiIsOrderedAndBounded | packages/attribution/src/estimator.ts:205-248 | for every seed and sample count the interval is ordered and within ± treatedN times the largest treated amount |
| Estimators.StatisticBound | packages/attribution/src/estimator.ts:228-241 | one resample's statistic is at most what its picks are worth, either way |
| Estimators.PickArm | packages/attribution/src/estimator.ts:216-227 | the inner loop consumes one draw a pick and adds up the specified resample |
| Estimators.BootstrapIncremental | packages/attribution/src/estimator.ts:205-248 | the nested loops compute the specified interval from the specified stream of draws |
| EstimateLaws.PicksAre | packages/attribution/src/estimator.ts:205-227 | each pick is the one its own draw of the seeded stream points at: one draw a pick, none skipped and none used twice |
| EstimateLaws.StatisticIs | packages/attribution/src/estimator.ts:228-240 | one resample's figure: the difference of its rates times what its treated picks were worth |
| EstimateLaws.SampleIs | packages/attribution/src/estimator.ts:211-241 | the i-th sample resamples the treated and then the held-out arm from the draws left by the samples before it |
| EstimateLaws.SamplesAre | packages/attribution/src/estimator.ts:209-247 | one sample per round, in order, and the interval over all of them |
| EstimateLaws.NoArmNoInterval | packages/attribution/src/estimator.ts:206-210 | without one of the arms the interval is zero |
| EstimateLaws.IntervalEnds | packages/attribution/src/estimator.ts:243-247 | the ends are the samples at one fortieth and thirty-nine fortieths of the sorted list, rounded |

## Left out

- Databases.Database.Tick: runs as one transaction; the interleaving of a select and its update is in the steps `BeginTick` and `CommitTick`.
- Executors.Executor.Reconcile: visits the in-flight rows in an arbitrary order, not by `sent_at`; the result does not depend on the order.
- Executors.Executor.Execute: the key is the four hashed fields themselves, so SHA-256 collisions are not modelled.
- IncidentSafety.ParkedIsSuppressedIff: assumes that a case joins only an incident that no other holds it for (`ForeignParkBreaks` shows why), that an incident is ramped by one step at a time, and that the rest of the engine neither schedules a suppressed case nor moves it anywhere but to a terminal state; the state machine alone would let it be diagnosed.
- IncidentSafety.ResumeRefusedIff: is about cases whose own park was over when the slice was marked.
- IncidentRuns.AttachAllKeeps: assumes no tick holds row locks while the cancel runs, because the cancel would wait for it; in the steps it waits.
- SettlementRuns.RecoveredIffPaid: is an equivalence for obligations that owe more than zero; with nothing owed a case can be recovered without credit (`NothingOwedNeedsNoCredit`).
- SettlementOrder.DeliveryOrderDoesNotMatter: assumes that an id and an idem_key each name one settlement; handlers of one batch run one after another. The reason recorded on a recovered case can depend on the order.
- Blackboards.Blackboard.EvidenceFor: returns evidence in the order it was added, which is the order of (observed_at, id) when the clock does not go back.
- ContactBudgets.WindowsNeverExceed: assumes contacts are authorised and consumed one after another on a channel other than "*"; `AuthorisedTogether` and `SharedChannelCountsTwice` show what happens otherwise.
- Detection.AnomalyDetector.Evaluate: takes rates as reals, and the square root and the normal distribution as functions.
- Estimators.CiIsOrderedAndBounded: uses exact reals in place of floating point, keeping the explicit rounding.
- QuietHours.DeferralWorksIff: local time is a fixed offset; daylight saving changes are not modelled.
- Runners.NothingLostOrReordered: covers executions and quiet-hours deferrals; the substitution of an action by the optimizer is not modelled.
- Payloads the protocols do not read: ledger rows, request and response bodies, surfaces, domains and root-cause records.
- Foreign keys to merchants and customers, and the merchant's own rows.
- HMAC signatures, webhooks, HTTP routes and provider clients; a token's signature is a boolean.
- The simulator's world model, customers, cohorts and the rest of the batch loop.
- Optimizer ranking, deliberation, mandate sequencing, promises to pay, holdout assignment and reports: single-branch facts.
- The Wilson interval and the accuracy of the normal approximation.
