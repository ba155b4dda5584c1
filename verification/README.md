# Factory hire, fence and stop protocol

A Dafny model of how the factory hires AI workers onto workplaces, fences and
stops them, and repairs what a crash leaves behind, with proofs over every run
of that protocol; and of four self-contained algorithms beside it: the
dispatch drain with its launch budget, the artifact forest triggers, the
canonical forms of JSON values and tool catalogs, and the rendered tool error.

`dafny verify dfyconfig.toml` checks the whole project.

## How it is modelled

A database table is a map from its primary key (`FactoryTables`). The open
database is the class `FactoryDb`, whose tables are updated in place by the
methods; what one transaction does is also a function from tables to tables,
each method is proved equal to its function, and the properties are proved
about the functions. A transaction commits a new state, or is refused and
changes nothing. Timestamps, process probes, the answers of the operating
system, and the rows of tables outside the protocol are parameters, so every
property holds for whatever they answer.

| files | part of the system |
|---|---|
| `Workplaces`, `ConveyorRuntime` | the workplace reducer; reserve, release, reject, requeue and pause as one compare-and-set each |
| `WorkAssignment`, `ShiftOutcomes`, `CardOutcomes`, `ToolOutcomes` | claim, process marks, atomic release, the worker's completion, question, merge and edit tools, and what each leaves on the card |
| `SoftStop`, `StopProtocol`, `FenceOutcomes`, `UnparkOutcomes` | the operator's stop: plan, fence and rewind, kill, checkpoint; the boot reaper, holds and unparking; and what each leaves |
| `Invariants`, `Protocol`, `ProtocolSafety`, `LateWrites` | the whole system as one transition system and what holds over all its runs |
| `EngineStartAdoption`, `RunReferences`, `LifecycleBurial`, `Supervision`, `SupervisionVerdicts`, `OperatorRecovery`, `BootRevision`, `BootOutcomes` | adoption of terminal executions, burial of dead lifecycles, the supervision sweep, the operator's recovery verbs, and the boot that composes them |
| `DispatchDrain`, `LaunchBudget` | the dispatch loop with its bounded waits; the first-in-first-out semaphore |
| `ArtifactForest` | the parent triggers and their recursive ancestor query |
| `CanonicalJson`, `CanonicalText`, `CanonicalReading`, `ErrorText`, `ErrorReading`, `ToolCatalog` | key-sorted JSON and its printed text (objects as in section 4 of RFC 8259), escaped error text, the tool catalog |

`Protocol.Step` lists the transactions of every participant: claims, process
starts and ends, worker tools, card edits, conveyor use cases, gate events, supervision,
holds, unparking, burial, and the single transactions of any number of
operator stops and boot reapers, each of which may crash between any two of
its transactions. `Invariants.Inv` is what they all keep: valid workplaces;
one active execution per card and per worker; an execution voided exactly when
its stop fence was bumped once from 0, and then terminated; a stop row in a
done phase only for an execution that can no longer write; a fence's hold only
for a voided execution; fenced cards fenced by an execution of their own; a
live hire only for an execution that has not completed. `Invariants.Grows` is
what none of them undoes: terminal execution rows are frozen, workplaces change
only with their revision, holds are only ever released, receipts stay.

## What the proofs say

- **Race closure.** In every interleaving, no completion, question, merge,
  artifact, trace or product call presenting an execution commits after its
  void, its row never changes, and a stop aims its kill only at an execution
  already terminal. `verification_record` is the exception: it checks and
  inserts in separate statements, and exactly when its row can still follow the
  void is proved too.
- **Hold safety.** From a fence until its hold is released, the workplace stays
  out of hire exactly as long as no step claims an unbound card into it while
  its desk is open.
- **Crash convergence.** Whatever any run left, wherever its stops died, one
  reaper pass leaves every stop row done with a terminal execution, and the
  next changes nothing. The orchestrator's loop body is proved to be exactly
  its six transactions, so the crash points are exactly their prefixes.
- **What each transaction leaves.** Beside what every step keeps, each
  transaction's whole effect is stated on the rows it started from, without the
  function that models it: the reducer by the state it arrives at, use cases,
  claims, completions, questions, releases, fences, kills and recoveries. A
  swept execution ends lost, as a failed spawn or terminated exactly when some
  sweep of the run sees it so.
- **Boot.** Adoption, burial, reaping and sweeping together keep all of this
  and leave no dead run with open obligations or workplaces.
- **Contention, supervision, recovery, dispatch, budget, forest, normal forms,
  escaping and catalog**: see the table.

## Where the code and its comments or tests disagree, or a promise has an exact limit

Each is a proved lemma; the code was followed.

- A comment promises that a stop releases the card even for kernel-owned
  workplaces; the code releases it exactly for the others
  (`SoftStop.FenceReleasesTheCardIff`).
- A question is meant to end the shift and free the card; asked while the card
  already waits for a human it ends the execution but leaves the card with it
  (`ToolOutcomes.AskLeaves`).
- An operator hold is looked up through the card's bound workplace, but a claim
  of an unbound card leases the workplace its metadata derives: a held
  workplace can be hired that way, and in no other
  (`ProtocolSafety.UnboundCardBypassesTheHold`, `ProtocolSafety.HeldClaimHiresIff`,
  `ProtocolSafety.HeldWorkplaceStaysFreeIff`).
- A call without an execution identity passes the void fence. It never completes
  a card; on an unfenced card it commits exactly as the merge lock of a finished
  card, as the lock's release by its holder whatever the card's status has
  become, or as a question of the assignee
  (`ProtocolSafety.UnidentifiedCommitsIff`).
- A completion's receipt is kept under execution and verdict, so one execution
  may complete twice under different verdicts; with a workplace the completion
  is the execution's first (`ShiftOutcomes.DoneCommitsIff`,
  `ShiftOutcomes.DoneSealsTheShift`).
- `verification_record` has no void fence and no transaction around its reads and
  its insert. Under a voided
  execution's name its checks pass exactly on an unfenced card assigned to the
  recorder; apart from that, a row can follow the void exactly when a call of
  the execution had passed its checks before and not yet inserted it
  (`LateWrites.VoidEvidenceIff`, `LateWrites.LateMaterialIff`).
- At boot the reaper runs after the burial, and its fence returns a card the
  burial had cancelled to the queue, exactly when it releases the card
  (`BootRevision.ReaperReopensACancelledCard`, `BootRevision.FenceReopensIff`).
- A claim at a workplace that still counts as hired commits without taking over
  the reservation, and the completion of that shift is then refused
  (`ShiftOutcomes.ClaimReservesIff`, `ShiftOutcomes.CompletionNeedsTheReservation`).
- Releasing one execution twice is not always a no-op
  (`ShiftOutcomes.SecondReleaseWritesIff`).
- An obligation's subject names at most one process run, but its source is
  searched anywhere. A candidate set's key names its own run alone exactly when
  what follows that run in the key holds no directory of another one, that is,
  no segment ending in `workplace` or `candidate-set`, then a number, then a
  further segment; a work key may hold one (`RunReferences.SubjectNamesOneRun`,
  `RunReferences.KeyNamesOneRunIff`, `RunReferences.MarkedIffPair`,
  `RunReferences.SourceMayNameTwoRuns`).
- Re-issuing a recovery replays it when its authorization is strictly the
  newest; the stored time counts seconds, so on a tie the same call may recover
  again (`OperatorRecovery.ReissueChangesNothing`,
  `OperatorRecovery.IssueIsIdleIff`, `OperatorRecovery.TiedReissueMayRecoverAgain`).
- Key sorting loses a member named `__proto__`, so normal forms are complete
  exactly on values without one (`CanonicalJson.ProtoMemberIsLost`,
  `CanonicalJson.NormalFormKeepsIff`).
- Moving a root artifact leaves its children in the old project
  (`ArtifactForest.MovedRootBreaksScope`, `ArtifactForest.UpdateKeepsScopeIff`).
- The catalog is independent of input order exactly when equal keys mean equal
  entries (`ToolCatalog.OrderIndependentIff`).
- The call line of a rendered error determines its call exactly when the call
  names neither tool nor execution and its id has no inner ` tool=` or ` exec=`
  (`ErrorText.CallIsUnambiguousIff`); two calls read alike exactly when their
  unescaped lines agree (`ErrorText.SegmentDecides`).

## Model

| member | source | states |
|---|---|---|
| `Workplaces.Reduce` | src/process-modules/domain/workplace/production-cell-reducer.ts:130-331 | an accepted event always yields a state that passes the boundary check, at the next revision |
| `Workplaces.ValidIsShape` | src/process-modules/domain/workplace/workplace-state.ts:165-385 | the boundary check admits exactly these combinations of phase, role and terminal reason in each loop state |
| `Workplaces.ReduceIsArrival` | src/process-modules/domain/workplace/production-cell-reducer.ts:130-331 | from every valid state the reducer takes exactly the edges listed by the state they arrive at |
| `Workplaces.DefenceFiresOnlyOnPausingTerminal` | src/process-modules/domain/workplace/production-cell-reducer.ts:130-331 | from a valid state the boundary check rejects what the table produced exactly when a finished workplace is paused |
| `Workplaces.TerminalIsAbsorbing` | src/process-modules/domain/workplace/production-cell-reducer.ts:142-331 | a finished workplace accepts exactly a failure or cancellation verdict and stays finished |
| `Workplaces.RunKeepsTheCard` | src/process-modules/domain/workplace/production-cell-reducer.ts:142-331 | over every run: validity kept, revision counts events, no return to todo, technical events never move the kanban column |
| `Workplaces.AcceptanceStaysReachable` | src/process-modules/domain/workplace/production-cell-reducer.ts:142-331 | from every valid unfinished state some run of legal events reaches done |
| `ConveyorRuntimes.ConveyorRuntime.ApplyTransitionInTx` | src/infrastructure/workplace/sqlite-workplace-repository.ts:240-292 | revision compare-and-set, +1 on a hit, nothing on a miss or an invalid target |
| `ConveyorRuntimes.ConveyorRuntime.Atomically` | src/application/conveyor-runtime.ts:285-357 | one use case as one transaction: whole new tables when it commits, unchanged tables when it throws |
| `ConveyorRuntimes.CompareAndSetNeverMisses` | src/application/conveyor-runtime.ts:285-357 | a planned move always applies, touches one workplace by one revision, and projects that workplace's column onto the task |
| `ConveyorRuntimes.UseCaseIff` | src/application/conveyor-runtime.ts:99-360 | each use case commits exactly on the desks that permit it, and this row and this card status are all it writes |
| `ConveyorRuntimes.StatusShows` | src/infrastructure/projections/workplace-projector.ts:53-78 | which phases each card status stands for: every ended desk shows done |
| `ConveyorRuntimes.CoordinateIff` | src/process-modules/application/production-cell-coordinator.ts:290-420 | a coordinator step commits exactly along a reducer edge and keeps an actor only with a candidate carried forward |
| `ConveyorRuntimes.RevisionCountsAppliedTransitions` | src/application/conveyor-runtime.ts:285-357 | over every run of calls a workplace's revision grows by exactly the number of applied transitions on it, and no applied transition means no change |
| `ConveyorRuntimes.ReserveWins` | src/application/conveyor-runtime.ts:99-130 | a reserve of a claimable workplace applies and leaves it running under that reservation |
| `ConveyorRuntimes.ExactlyOneRacingReserveWins` | src/application/conveyor-runtime.ts:99-130 | of any number of racing reserves exactly the first applies and its reservation stands |
| `ConveyorRuntimes.LateReservesLose` | src/application/conveyor-runtime.ts:99-130 | on a running workplace no reserve ever applies |
| `ConveyorRuntimes.SupersededReleaseIsRefused` | src/application/conveyor-runtime.ts:145-183 | after any run that does not reserve it again, a release carrying a superseded reservation is refused and changes nothing |
| `WorkAssignment.ReleaseExecutionAtomically` | src/lifecycle/atomic-release.ts:39-172 | only an active execution is made terminal, and its card handed back only while that execution still fences it |
| `Invariants.AnswerKeeps` | src/tools/dispatcher.ts:1177-1271 | answering a human request keeps the invariant and undoes nothing final |
| `WorkAssignment.MarkExecutionRunning` | src/worker-executions.ts:214-247 | only a reserved execution starts, and a process without a birth identity is refused |
| `WorkAssignment.MarkExecutionSpawnFailed` | src/worker-executions.ts:269-282 | only a reserved or running execution is marked, all else unchanged |
| `ShiftOutcomes.ClaimFences` | src/lifecycle/work-assignment-core.ts:372-632 | a committed claim takes a card nobody held, for a new execution that is its card's and its worker's only active one |
| `CardOutcomes.ClaimLeaves` | src/lifecycle/work-assignment-core.ts:343-632 | everything a committed claim writes: the reservation row, the card's fence, binding and status, the desk created, synced and reserved |
| `CardOutcomes.ReleaseLeaves` | src/lifecycle/atomic-release.ts:39-290 | everything a release writes: the terminal state, and the card kept, blocked or queued again by its completion, its budget and its status |
| `ShiftOutcomes.ClaimReservesIff` | src/tools/conveyor-runtime-helper.ts:24-48 | a committed claim takes the workplace's reservation exactly when the workplace was not hired |
| `ShiftOutcomes.CompletionNeedsTheReservation` | src/tools/conveyor-runtime-helper.ts:50-85 | no completion commits for an execution that does not hold the workplace's reservation, and one that is no replay is refused |
| `ShiftOutcomes.DoneCommitsIff` | src/tools/dispatcher.ts:502-925 | a worker_done commits exactly for a presented, unvoided execution whose command key is new, on a working card assigned to the caller that it fences if anyone does, and whose workplace runs under its reservation |
| `ToolOutcomes.DoneRepliesIff` | src/tools/dispatcher.ts:535-595 | a completion is answered from its stored reply exactly after a kernel close of its presentation or for the same command with the same payload, and only a new command reaches the card |
| `ShiftOutcomes.DoneSealsTheShift` | src/tools/dispatcher.ts:502-957 | a committed completion settles its card by the verdict, sets the presenter's phase, leaves a receipt of the fencing execution, moves the workplace from running to verifying by one revision with the presenter as reservation, and with a workplace is the execution's first |
| `ShiftOutcomes.DoneSettlesTheCard` | src/tools/dispatcher.ts:620-870 | the card ends done, in review, blocked or queued exactly as its status and the verdict say, or shows its workplace; its tag and integration are settled exactly by a finishing verdict; no other card or execution changes |
| `ShiftOutcomes.AskEndsTheShift` | src/tools/dispatcher.ts:1041-1175 | a committed question ends a fencing execution, or else only clears the assignee, and keeps the card from being claimed while the request is open |
| `ToolOutcomes.AskCommitsIff` | src/tools/dispatcher.ts:1041-1110 | a question commits exactly for the card's own worker, identity and unrecalled execution |
| `ToolOutcomes.AskLeaves` | src/tools/dispatcher.ts:1041-1170 | everything a question writes: the request and tag, the ended execution, and the card handed back unless it was already waiting |
| `ToolOutcomes.AcquireIff` | src/tools/dispatcher.ts:1326-1420 | the merge lock is refused to all but a finished card's caller, denied while it is taken, and free exactly when absent or stale with a dead holder |
| `ToolOutcomes.LockExcludes` | src/tools/dispatcher.ts:1326-1420 | for ten minutes after an acquire no other acquire of the same lock commits, in whatever state the tables are by then |
| `ToolOutcomes.MergeReleaseLeaves` | src/tools/dispatcher.ts:1427-1545 | a release commits exactly for the lock holder and records the outcome on that card |
| `ToolOutcomes.ActivateLeaves` | src/lifecycle/work-assignment-core.ts:719-756 | the published card is opened for its role and every other card of the desk is closed |
| `ToolOutcomes.EditLeaves` | src/tools/tasks.ts:761-1000 | an edit is refused exactly when it would reassign a fenced card without the operator's switch, and writes exactly these columns |
| `ShiftOutcomes.AnswerReopensIff` | src/tools/dispatcher.ts:1177-1271 | answering the newest request leaves no request open exactly when no older one is, and clears the tag exactly when the newest was open |
| `ShiftOutcomes.SecondReleaseWritesIff` | src/lifecycle/atomic-release.ts:39-172 | a second release changes the tables exactly when the card waits for a human, is still fenced, and the completion was accepted |
| `SoftStop.FenceCommits` | src/app/operator-soft-stop.ts:373-556 | a fence of a known execution never fails |
| `FenceOutcomes.FenceFreesObligations` | src/app/operator-soft-stop.ts:373-556 | a fence that voids takes the lease of exactly the obligations about its workplace and puts leased work in progress back to pending; any other fence changes none |
| `FenceOutcomes.FenceEffect` | src/app/operator-soft-stop.ts:373-556 | everything a voiding fence writes to executions, stop rows, holds, workplaces and cards |
| `FenceOutcomes.DeadFence` | src/app/operator-soft-stop.ts:373-435 | a fence of a void or finished execution writes its stop row only |
| `SoftStop.RewindShape` | src/app/operator-soft-stop.ts:458-501 | the rewind queues exactly a leased or running workplace, clears its actors, and touches no other |
| `SoftStop.FenceReleasesTheCardIff` | src/app/operator-soft-stop.ts:513-533 | the card is released exactly when the workplace is not kernel-owned and the fenced execution still fences it |
| `SoftStop.RewindHire` | src/app/operator-soft-stop.ts:458-501 | the retry loop around the compare-and-set equals one rewind; an error changes nothing |
| `SoftStop.FenceAndRewindHire` | src/app/operator-soft-stop.ts:373-556 | the fence transaction: its outcome and its whole new state, or an error and the old state |
| `SoftStop.DetachHire` | src/app/operator-soft-stop.ts:502-556 | the tail of the fence: leases cleared, card released, hold inserted, phase detached |
| `SoftStop.ReapStopRow` | src/app/operator-soft-stop.ts:840-901 | one reaper row: fence, then kill verdict, as one step function of the tables |
| `SoftStop.SelectInterruptedStops` | src/app/operator-soft-stop.ts:840-862 | the selection lists each stop row short of a done phase exactly once |
| `SoftStop.ReapInterruptedWorkerStops` | src/app/operator-soft-stop.ts:840-901 | the pass equals reaping its own selection row by row, and reports each fence it had to complete and how each kill ended |
| `SoftStop.ReleaseOperatorHolds` | src/app/operator-soft-stop.ts:928-972 | exactly the active holds in scope are stamped and reported, and none is left |
| `UnparkOutcomes.ReleasedHolds` | src/app/operator-soft-stop.ts:928-972 | exactly the holds the operator names end released, by hold, workplace or project, and the active ones among them are reported |
| `UnparkOutcomes.UnparkLeaves` | src/app/operator-soft-stop.ts:995-1043 | exactly the blocked and paused desks named are queued again for the role they were parked with |
| `SoftStop.UnparkIsTheReducersRequeue` | src/app/operator-soft-stop.ts:995-1043 | the direct update is the reducer's requeue edge, differing only in the actor columns it keeps |
| `SoftStop.UnparkWorkplaces` | src/app/operator-soft-stop.ts:995-1043 | exactly the parked workplaces in scope are queued and reported |
| `Invariants.OnlyReserveHires` | src/application/conveyor-runtime.ts:99-254 | an applied use case leaves its workplace hired only when it is a reserve, and then for that reservation |
| `Invariants.UseCaseKeeps` | src/application/conveyor-runtime.ts:99-254 | every use case keeps the invariant and undoes nothing final |
| `Invariants.ClaimKeeps` | src/lifecycle/work-assignment-core.ts:372-632 | a claim keeps the invariant and undoes nothing final |
| `Invariants.ActivateKeeps` | src/lifecycle/work-assignment-core.ts:719-755 | activating a role task keeps the invariant and undoes nothing final |
| `Invariants.ReleaseKeeps` | src/lifecycle/atomic-release.ts:39-172 | every release keeps the invariant and undoes nothing final |
| `Invariants.MarkRunningKeeps` | src/worker-executions.ts:214-247 | a process start keeps the invariant and undoes nothing final |
| `Invariants.MarkSpawnFailedKeeps` | src/worker-executions.ts:269-282 | a failed spawn keeps the invariant and undoes nothing final |
| `Invariants.WorkerDoneKeeps` | src/tools/dispatcher.ts:502-925 | a completion keeps the invariant and undoes nothing final |
| `Invariants.CompletedIsNotHired` | src/tools/dispatcher.ts:502-925 | completing takes the one workplace the execution could hold out of hire |
| `Invariants.AskNeedKeeps` | src/tools/dispatcher.ts:1041-1175 | a question keeps the invariant and undoes nothing final |
| `Invariants.FenceInsertsHold` | src/app/operator-soft-stop.ts:535-556 | a fresh fence adds exactly one unreleased hold, on its workplace or else on its execution |
| `Invariants.FenceKeeps` | src/app/operator-soft-stop.ts:380-556 | a fence keeps the invariant, leaves its execution terminal, and voids exactly the live ones |
| `StopProtocol.FenceFrame` | src/app/operator-soft-stop.ts:380-556 | a fence writes no other execution, no other workplace and no other stop row |
| `StopProtocol.ReapOneConverges` | src/app/operator-soft-stop.ts:840-901 | one reaped row ends done with a terminal execution, no other row or execution changes, and it is reported exactly when it was live |
| `StopProtocol.ReapAllConverges` | src/app/operator-soft-stop.ts:840-901 | a pass finishes exactly the rows it lists |
| `StopProtocol.ReapAllReports` | src/app/operator-soft-stop.ts:840-901 | a pass reports a completed fence exactly for the listed executions that were live, and a kill outcome exactly for the rows whose probe gave one |
| `StopProtocol.OneReaperPassConverges` | src/app/operator-soft-stop.ts:840-901 | one pass over its selection leaves nothing pending, every stop row done and terminal, finished rows untouched, and reports exactly the fences and kills of the pending rows |
| `StopProtocol.SecondReaperPassChangesNothing` | src/app/operator-soft-stop.ts:840-901 | with nothing pending a pass selects and changes nothing |
| `StopProtocol.PlanCoversTheScope` | src/app/operator-soft-stop.ts:115-183 | an execution has a plan row exactly when it is active in scope, reserved workplace or not |
| `StopProtocol.PlanWorkerStops` | src/app/operator-soft-stop.ts:115-183 | the plan lists every joined row once and no other |
| `UnparkOutcomes.PlanIff` | src/app/operator-soft-stop.ts:115-183 | which rows the plan holds: active unrecalled executions in scope, with each reserved workplace and whether the kernel owns it |
| `StopProtocol.KillNeedsNoFence` | src/app/operator-soft-stop.ts:583-630 | on a voided execution the kill can only fail as unverified |
| `StopProtocol.StopOneConverges` | src/app/operator-soft-stop.ts:707-801 | one planned stop, returning or throwing, ends with its row done and its execution terminal |
| `StopProtocol.StopAllConverges` | src/app/operator-soft-stop.ts:683-822 | over any plan: reached rows converge, no other row moves, only an unverified kill is thrown |
| `StopProtocol.StopScopeConverges` | src/app/operator-soft-stop.ts:683-822 | the whole stop of a scope recalls every active execution in it, and even when it throws makes nothing pending |
| `FenceOutcomes.StopOneVerdict` | src/app/operator-soft-stop.ts:575-801 | a stop ends killed exactly when it recalled a worker whose process is gone, abandoned otherwise, and throws exactly when that process lingers on this host |
| `FenceOutcomes.StopAllVerdicts` | src/app/operator-soft-stop.ts:707-801 | over any plan every row reached ends with its verdict, the others as they were, and the run throws exactly when some worker lingers |
| `FenceOutcomes.StopScopeVerdicts` | src/app/operator-soft-stop.ts:683-822 | the same for the plan of a scope, with the checkpoint mark where the stop was captured |
| `FenceOutcomes.ReaperPassVerdicts` | src/app/operator-soft-stop.ts:836-921 | the phase and the kill entry one reaper pass leaves for each interrupted stop, from its execution row and probe |
| `StopProtocol.KillHire` | src/app/operator-soft-stop.ts:758-801 | the hook, kill and mark steps of one stop, with the error they throw |
| `StopProtocol.StopHire` | src/app/operator-soft-stop.ts:707-801 | the loop body of the orchestrator, with the error it throws |
| `StopProtocol.ExecuteWorkerStops` | src/app/operator-soft-stop.ts:683-822 | a dry run and a failed brake change nothing; otherwise the plan of the scope is stopped row by row |
| `StopProtocol.CheckpointStops` | src/app/operator-soft-stop.ts:803-822 | exactly the finished rows are marked checkpointed |
| `Protocol.TransactKeeps` | src/app/operator-soft-stop.ts:683-901 | every transaction outside a stop or reaper keeps the invariant and undoes nothing final |
| `Protocol.DriveKeeps` | src/app/operator-soft-stop.ts:683-901 | every single transaction of a stop or a reaper keeps the invariant and undoes nothing final, with the fence behind it whenever a kill lies ahead |
| `Protocol.NextKeeps` | src/app/operator-soft-stop.ts:683-901 | every step of every participant, crashes included, keeps the invariant of the system |
| `Protocol.RunKeeps` | src/app/operator-soft-stop.ts:683-901 | every run keeps the invariant and undoes nothing final |
| `Protocol.ReachableKeeps` | src/app/operator-soft-stop.ts:683-901 | the invariant holds in every state reached from a factory nobody was hired in |
| `Invariants.MergeReleaseKeeps` | src/tools/dispatcher.ts:1427-1549 | recording a merge outcome keeps the invariant and undoes nothing final |
| `Invariants.EditKeeps` | src/tools/tasks.ts:761-960 | editing a card keeps the invariant and undoes nothing final |
| `ProtocolSafety.VoidIsRefused` | src/worker-executions.ts:197-212 | no completion, question, merge, artifact, trace or product call presenting a voided execution commits |
| `ProtocolSafety.UnidentifiedCommitsIff` | src/tools/dispatcher.ts:1041-1549 | a tool call without identity commits exactly on its own guards: acquiring a free merge lock for a done unfenced card, releasing an unfenced card's lock as its holder, asking on an assigned unfenced card, or an accepted unmanaged artifact write; a completion never |
| `ProtocolSafety.RaceClosure` | src/worker-executions.ts:166-212 | in every interleaving no completion, question, merge, artifact, trace or product write of an execution follows its void, and its row never changes again |
| `LateWrites.VoidEvidenceIff` | src/tools/lifecycle.ts:34-56 | the checks of verification_record pass under a voided execution's name exactly on an unfenced active card assigned to the recorder |
| `ToolOutcomes.EvidenceIff` | src/tools/lifecycle.ts:34-56 | whose evidence the two checks let in when they see one state |
| `LateWrites.NextMaterial` | src/tools/lifecycle.ts:53-93 | without such a call, and with no call past its checks, no step adds a row under a voided execution's name or lets a call past its checks |
| `LateWrites.LateMaterialIff` | src/tools/lifecycle.ts:53-93 | in some run without such calls rows under a voided execution's name can still grow exactly when one of its calls had passed the checks and not yet inserted a new row |
| `ProtocolSafety.LifecycleHolds` | src/schema.ts:581-586 | over every run: one active execution per card and per worker, terminal rows final, void exactly when fenced once |
| `ProtocolSafety.KillsOnlyTheFenced` | src/app/operator-soft-stop.ts:583-630 | after any run, a stop about to kill aims at an execution already terminal |
| `ProtocolSafety.OnlyClaimsHire` | src/lifecycle/work-assignment-core.ts:372-632 | in the whole system a workplace becomes hired only through a claim of a card that derives it |
| `ProtocolSafety.HeldClaimIsUnbound` | src/schema.ts:1231-1246 | under a hold a claim reaches the held workplace only through a card never bound to it |
| `ProtocolSafety.ClaimCommitsIff` | src/lifecycle/work-assignment-core.ts:372-632 | a claim commits exactly when nobody has the card, its bound desk is vacant, no question and no hold is on it, the execution id is new and the worker has no active execution |
| `ProtocolSafety.HeldClaimHiresIff` | src/schema.ts:1231-1246 | under a hold, a claim hires the held workplace exactly when those guards hold, the card is unbound and derives the workplace, and the desk is open |
| `ProtocolSafety.HeldWorkplaceStaysFreeIff` | src/app/operator-soft-stop.ts:928-972 | over every run until its hold is released, a held workplace stays unhired throughout exactly when no step claims an unbound card into its open desk |
| `ProtocolSafety.HeldWorkplaceStaysFree` | src/app/operator-soft-stop.ts:928-972 | over every run without such a claim, a held workplace is unhired at the end |
| `ProtocolSafety.FencedWorkplaceStaysFree` | src/app/operator-soft-stop.ts:535-541 | from the fence of its execution until the release of that fence's hold, a workplace stays unhired, whatever runs in between, short of a claim of an unbound card |
| `ProtocolSafety.UnboundCardBypassesTheHold` | src/schema.ts:1231-1246 | a state that keeps the invariant, with an unhired held workplace, in which such a claim commits and hires it |
| `ProtocolSafety.CrashConvergence` | src/app/operator-soft-stop.ts:840-901 | from whatever any run left, one reaper pass finishes every interrupted stop and the next does nothing |
| `ProtocolSafety.StopOneIsSixTransactions` | src/app/operator-soft-stop.ts:707-801 | the orchestrator's loop body is exactly six transactions, so its crash points are their prefixes |
| `EngineStartAdoption.RepairEdges` | src/app/engine-start-adoption.ts:154-173 | which reducer edges the repairs use, and that a pending effect has none |
| `EngineStartAdoption.AdoptOneEffect` | src/app/engine-start-adoption.ts:72-152 | one selected workplace is adopted exactly when its execution has a receipt, repaired exactly when its row changes |
| `EngineStartAdoption.RepairResidueEffect` | src/app/engine-start-adoption.ts:174-235 | one spawn-failed residue is repaired exactly when a card is bound to it |
| `EngineStartAdoption.MendAllReports` | src/app/engine-start-adoption.ts:72-235 | every selected row is reported once, under the verdict its starting row has |
| `EngineStartAdoption.AdoptionEffect` | src/app/engine-start-adoption.ts:72-235 | whatever the order of rows, every workplace is mended as its own starting row says |
| `BootOutcomes.AdoptionLeaves` | src/app/engine-start-adoption.ts:72-235 | which workplaces adoption repairs, parks or leaves, from each one's own row, holder, receipt and card |
| `EngineStartAdoption.AdoptionIsIdempotent` | src/app/engine-start-adoption.ts:72-235 | a second pass over whatever it selects changes nothing |
| `EngineStartAdoption.AdoptionIsConservative` | src/app/engine-start-adoption.ts:72-235 | reservations of completed or voided executions are left alone, and every change is one legal reducer edge |
| `EngineStartAdoption.SelectRows` | src/app/engine-start-adoption.ts:72-184 | the selection lists each matching workplace once, with the row it had |
| `EngineStartAdoption.MendRows` | src/app/engine-start-adoption.ts:136-235 | the loop: tables and the three report lists |
| `EngineStartAdoption.AdoptTerminalExecutionsAtEngineStart` | src/app/engine-start-adoption.ts:72-235 | both loops over their own selections, with everything they report |
| `RunReferences.AlikeIff` | src/app/engine-start-lifecycle-burial.ts:128-141 | the text search tells characters apart except the two cases of an ASCII letter |
| `RunReferences.SubjectNamesOneRun` | src/app/engine-start-lifecycle-burial.ts:128-141 | a subject reference names at most one process run; 4 never answers for 40 |
| `RunReferences.DeskNamesItsRun` | src/process-modules/domain/workplace/workplace-ref.ts:149-158 | a serialised workplace reference, as a subject, names exactly its own run |
| `RunReferences.KeyNames` | src/app/engine-start-lifecycle-burial.ts:128-141 | a key that opens with a run's candidate-set directory names that run and exactly those whose directory stands in its tail |
| `RunReferences.KeyNamesOneRunIff` | src/process-modules/domain/workplace/candidate-set.ts:152-195 | a candidate set's key, as a source, names exactly its own run if and only if its tail holds no directory of another |
| `RunReferences.MarkedIffPair` | src/app/engine-start-lifecycle-burial.ts:128-141 | a directory stands in a text exactly when two adjacent segments read its word and its run and a third follows |
| `RunReferences.SlashlessNamesOnlyItsRun` | src/process-modules/application/transition-obligation-integrator.ts:26-107 | sources without a slash name nothing but a process run spelled out |
| `RunReferences.SourceMayNameTwoRuns` | src/process-modules/domain/workplace/workplace-ref.ts:94-124 | a valid workplace whose work key holds another run's directory gives a source naming both |
| `LifecycleBurial.GateObligationMatchesOneRunIff` | src/process-modules/application/transition-obligation-integrator.ts:41-54 | a sealed set's obligation answers for its own run alone exactly when its key's tail holds no other run's directory |
| `LifecycleBurial.BurialCloses` | src/app/engine-start-lifecycle-burial.ts:128-224 | no matched obligation, workplace or card of a dead run stays open |
| `LifecycleBurial.BurialIsolates` | src/app/engine-start-lifecycle-burial.ts:128-224 | what no dead run names keeps its value, and no other table is written |
| `BootOutcomes.BurialLeaves` | src/app/engine-start-lifecycle-burial.ts:128-224 | exactly which obligations fail, workplaces fail and cards are cancelled, and everything else as it was |
| `LifecycleBurial.BurialIsIdempotent` | src/app/engine-start-lifecycle-burial.ts:128-224 | a second burial changes nothing |
| `LifecycleBurial.BuryKeeps` | src/app/engine-start-lifecycle-burial.ts:128-224 | burial keeps the protocol's invariant and undoes nothing final |
| `LifecycleBurial.Abandon` | src/process-modules/persistence/sqlite-transition-obligation-ledger.ts:454-472 | compare-and-set from open to failed, reporting whether it did |
| `LifecycleBurial.AbandonObligations` | src/app/engine-start-lifecycle-burial.ts:128-188 | exactly the condemned obligations are abandoned, each reported once however many references match |
| `LifecycleBurial.BuryDeadLifecycleObligations` | src/app/engine-start-lifecycle-burial.ts:80-224 | the whole burial with its report: obligations with an owning lifecycle and prior state, released workplaces with their loop state, cancelled cards with prior status and lifecycle, each exactly |
| `Supervision.ClassifyWorkerProcessIdentity` | src/worker-executions.ts:525-548 | with both birth tokens known the answer is ours exactly when they agree, and never unknown |
| `Supervision.EveryRowGetsOneResult` | src/worker-executions.ts:573-826 | every selected row gets exactly one result, in order, whatever the probes answer |
| `Supervision.ForeignIsNeverKilled` | src/worker-executions.ts:637-696 | a running local row whose process is foreign is kept and withheld while fresh, lost once stale, never killed |
| `Supervision.KillsAreLocalAndVerified` | src/worker-executions.ts:573-826 | a kill is aimed only at a live local process with a recorded birth identity, never at a foreign one |
| `Supervision.SuspicionIsStampedOnce` | src/worker-executions.ts:883-895 | whatever the policy answers, a repeated suspicion keeps its first stamp |
| `Supervision.ForeignIsLostOnceStale` | src/worker-executions.ts:637-696 | over any run of sweeps a foreign row stays untouched until the first sweep that finds it stale, which loses it |
| `Supervision.OwnedIsKilledOnlyAfterTheGraces` | src/lifecycle/stuck-policy.ts:242-470 | over any run of sweeps a worker that keeps its card and lease is not killed before the silence, suspicion and cancellation windows have all passed |
| `Supervision.SweepRowKeeps` | src/worker-executions.ts:615-826 | sweeping a row, however stale its capture, keeps the invariant and undoes nothing final |
| `Supervision.ReconcileKeeps` | src/worker-executions.ts:573-826 | a whole sweep, whatever it selected, keeps the invariant and undoes nothing final |
| `Supervision.RenewKeeps` | src/infrastructure/persistence/sqlite-factory-runtime-repositories.ts:371-414 | renewing leases keeps the invariant and undoes nothing final |
| `Supervision.SelectSwept` | src/worker-executions.ts:573-615 | the sweep selects each active row of the project once |
| `Supervision.MarkExecutionProgress` | src/worker-executions.ts:255-267 | only an active execution's progress time moves |
| `Supervision.StampStuck` | src/worker-executions.ts:861-895 | only an active row is stamped, and a suspected one not again |
| `Supervision.DispatchAction` | src/worker-executions.ts:700-826 | what each policy action does to the tables, its result and whether a kill is issued |
| `Supervision.ReconcileRow` | src/worker-executions.ts:615-826 | one row of the sweep: identity guard, decision, action |
| `Supervision.ReconcileWorkerExecutions` | src/worker-executions.ts:573-826 | the whole sweep over its own selection, one result per row |
| `SupervisionVerdicts.IdentityIff` | src/worker-executions.ts:525-548 | whose process a pid is, from the recorded birth or the command line |
| `SupervisionVerdicts.SelectionIff` | src/worker-executions.ts:573-614 | the sweep selects every active execution of its project once, with its card and whether a completion was accepted |
| `SupervisionVerdicts.PolicyDecides` | src/lifecycle/stuck-policy.ts:230-470 | the exact condition of every action of the stuck policy on the row, its card and the probe |
| `SupervisionVerdicts.SweepRowVerdict` | src/worker-executions.ts:615-826 | what one sweep makes of a row, how it reports it and whether it sends a kill, from the row and the probe |
| `SupervisionVerdicts.EndedRowsAreReleased` | src/worker-executions.ts:615-826 | a row that ends is released as the atomic release does it; any other sweep of a row writes executions only |
| `SupervisionVerdicts.PassVerdicts` | src/worker-executions.ts:573-826 | in a whole pass every selected row gets its own verdict and report, whatever the other rows got |
| `SupervisionVerdicts.EndsWhenSeenGone` | src/worker-executions.ts:573-826 | over every run of sweeps an execution ends lost, as a failed spawn or terminated exactly when some sweep sees its row so |
| `SupervisionVerdicts.DeadWorkerIsLostAtOnce` | src/lifecycle/stuck-policy.ts:235-300 | a dead local worker, or a remote one past its lease, is lost in the first sweep that sees it |
| `OperatorRecovery.DriveRequeues` | src/application/conveyor-runtime.ts:191-227 | from a found candidate every use case applies and the workplace ends queued for an author, no other touched |
| `OperatorRecovery.FindIff` | src/app/factory-start.ts:1214-1390 | each verb accepts exactly the one desk, card and incident it may recover, from the tables and the facts alone |
| `OperatorRecovery.RecoverCommitsIff` | src/app/factory-start.ts:462-720 | a recovery that is not a replay commits exactly when there is an incident the verb may recover and no second launch, queueing that desk and adding one authorization and one consumption |
| `OperatorRecovery.RecoverKeepsLedger` | src/schema.ts:2493-2564 | rows stay one-to-one and the revision intervals of one workplace pairwise disjoint |
| `OperatorRecovery.OthersKeepLedger` | src/schema.ts:2493-2564 | rows and intervals stay so whatever else the factory commits |
| `OperatorRecovery.RecoveriesAreOneShot` | src/app/factory-start.ts:995-1193 | rows stay one-to-one and intervals disjoint over every run of recoveries interleaved with the rest of the factory |
| `OperatorRecovery.ReissueChangesNothing` | src/app/factory-start.ts:1005-1034 | re-issuing a directive while its workplace is still queued writes nothing and reports the same revision, when its grant is strictly the newest |
| `OperatorRecovery.IssueIsIdleIff` | src/app/factory-start.ts:1214-1394 | issuing changes nothing exactly when it replays, there is nothing the verb may recover, or a second launch is active |
| `OperatorRecovery.TiedReissueMayRecoverAgain` | src/app/factory-start.ts:1005-1034 | with two grants of one second the same call may replay or recover again, depending on the row returned |
| `OperatorRecovery.SelectPrior` | src/app/factory-start.ts:1005-1034 | some newest consumed authorization of the same directive, or none when there is none |
| `OperatorRecovery.DriveUseCases` | src/app/factory-start.ts:651-674 | the use cases in order, stopping with an error at the first that does not apply |
| `OperatorRecovery.GrantRecovery` | src/app/factory-start.ts:1130-1193 | authorization, use cases and consumption in one transaction; a throw leaves every table as it was |
| `OperatorRecovery.RecoverWorkplace` | src/app/factory-start.ts:462-720 | one verb: replay of the newest grant, or candidate and grant; a throw leaves every table as it was |
| `BootRevision.BootConverges` | src/app/factory-boot-revision.ts:72-192 | a boot over any state that keeps the invariant succeeds, leaves no stop pending and no dead run with open obligations or workplaces |
| `BootRevision.ReaperReopensACancelledCard` | src/app/factory-boot-revision.ts:72-192 | a well-formed state in which the reaper's fence reopens a card the burial cancelled |
| `BootRevision.FenceReopensIff` | src/app/operator-soft-stop.ts:513-533 | a fence reopens a closed card of a dead run exactly when it releases it |
| `BootRevision.CrashReleaseSwept` | src/app/factory-boot-revision.ts:150-192 | the crash release after a sweep touches neither finished workplaces nor any stop |
| `BootOutcomes.SweptDeskLeaves` | src/app/factory-boot-revision.ts:150-192 | the desk of a swept worker goes to repair exactly when it still runs under it without an accepted completion |
| `BootRevision.SweepScopesKeep` | src/app/factory-boot-revision.ts:130-192 | the sweeps of all projects revive nothing and reopen nothing |
| `BootRevision.SelectBindings` | src/app/factory-boot-revision.ts:130-192 | the bindings captured before a sweep are those of the project's active executions |
| `BootOutcomes.BindingsIff` | src/app/factory-boot-revision.ts:130-192 | the bindings name exactly the executions that hire a workplace of the project, each with a card bound there |
| `BootRevision.SweepProject` | src/app/factory-boot-revision.ts:105-189 | one project's sweep over exactly its active rows, followed by the crash releases of what it reaped |
| `BootRevision.SweepProjects` | src/app/factory-boot-revision.ts:93-189 | one sweep for each project with an active execution, each over its own selections |
| `BootRevision.RunFactoryBootRevision` | src/app/factory-boot-revision.ts:72-192 | adoption, burial, reaping and one sweep for every project with an active execution, in this order, each over its own selection |
| `LaunchBudget.ConcurrentLaunchBudget.AcquireSlot` | src/application/concurrent-launch-budget.ts:87-98 | a free slot is granted at once, otherwise the caller joins the end of the queue |
| `LaunchBudget.ConcurrentLaunchBudget.ReleaseSlot` | src/application/concurrent-launch-budget.ts:106-127 | the slot passes to the oldest waiter or is freed; an unowed release throws and changes nothing |
| `LaunchBudget.NewBudget` | src/application/concurrent-launch-budget.ts:59-85 | a capacity below one is refused |
| `LaunchBudget.RefinesCountingSemaphore` | src/application/concurrent-launch-budget.ts:59-141 | over every run: active is the demand up to the capacity, the rest wait, grants follow the order of requests, a release throws exactly when nothing is held |
| `LaunchBudget.KthReleaseWakesKthWaiter` | src/application/concurrent-launch-budget.ts:87-127 | whatever is asked meanwhile, k releases grant exactly the k oldest waiters, in order |
| `DispatchDrain.WaitForAssignedWorker` | src/app/dispatch-loop.ts:447-559 | the wait ends at the first poll that settles or reaches a bound, settles first on a tie, disposes all but deferred workers, within the poll bound |
| `DispatchDrain.SettlesIff` | src/app/dispatch-loop.ts:447-559 | what each ending of a poll means and how many cards it counts |
| `DispatchDrain.WaitEndsOnce` | src/app/dispatch-loop.ts:251-255 | where and how a wait ends is determined by its polls |
| `DispatchDrain.FillSlots` | src/app/dispatch-loop.ts:375-428 | assigns until the last look found kernel work, a full budget, an exhausted queue or a fatal error, and says truly which |
| `DispatchDrain.AwaitAny` | src/app/dispatch-loop.ts:430-445 | settles some active wait, or throws because one of them did |
| `DispatchDrain.DistributeQueuedTasks` | src/app/dispatch-loop.ts:269-445 | terminates for a finite supply of claims and any error pattern; returns only with nothing awaited and a true reason to stop, throws only for a fatal attempt, bad admission or failed wait |
| `DispatchDrain.EveryClaimHasItsFate` | src/app/dispatch-loop.ts:269-445 | on return each claim was released after a failed start, disposed at its end or left to supervision, exactly one of these, and the result is the sum of the completions |
| `DispatchDrain.PoisonedIsNeverAssigned` | src/app/dispatch-loop.ts:375-415 | a card that failed once is never tried again in that drain |
| `DispatchDrain.ExcludesTheBroken` | src/app/dispatch-loop.ts:375-415 | each call excludes exactly the cards that broke recoverably in an earlier one |
| `DispatchDrain.AdmissionOkIff` | src/app/dispatch-loop.ts:269-445 | the admission a drain accepts: limits between one and ten, the effective one the smaller |
| `DispatchDrain.RisesEndUnderTheCap` | src/app/dispatch-loop.ts:282-300 | over the whole drain, if nobody else assigns, wherever the durable count rose between two looks it is at or below the cap in force at some claim in between |
| `DispatchDrain.DrainStaysUnderTheCap` | src/app/dispatch-loop.ts:282-300 | so the drain never lifts the count above a bound every cap it claims under respects, even as the cap shrinks |
| `ArtifactForest.AncestorQuery` | src/schema.ts:538-546 | the deduplicated recursion terminates on any parent graph and yields exactly the ancestors of the new parent |
| `ArtifactForest.ArtifactTable.InsertRow` | src/schema.ts:513-525 | accepted exactly for a new id whose parent, if any, is an existing row of the same project and epic |
| `ArtifactForest.ArtifactTable.UpdateRow` | src/schema.ts:527-547 | accepted exactly when the guard passes, deciding it by the recursive query |
| `ArtifactForest.ArtifactTable.DeleteRows` | src/schema.ts:513-547 | deleted rows are gone and their children become roots |
| `ArtifactForest.ReparentIsAcyclicIff` | src/schema.ts:527-547 | a new parent keeps the graph acyclic exactly when the row is not above that parent |
| `ArtifactForest.ForestOverEveryRun` | src/schema.ts:513-547 | over every sequence of inserts, updates and deletes the parent graph stays an acyclic forest |
| `ArtifactForest.ForestFromEmpty` | src/schema.ts:513-547 | so every catalogue grown from an empty one is a forest |
| `ArtifactForest.UpdateGuardIsExact` | src/schema.ts:527-547 | on a forest the guard refuses nothing but a parent out of scope or a cycle |
| `ArtifactForest.InsertIsExact` | src/schema.ts:513-525 | an insert is accepted exactly under a new id, as a root or under a parent of its own project and epic |
| `ArtifactForest.InsertAndDeleteKeepScope` | src/schema.ts:509-547 | inserts and deletes keep every child in its parent's project and epic |
| `ArtifactForest.UpdateKeepsScopeIff` | src/schema.ts:527-547 | an accepted update keeps children in scope exactly when the row's children already live in its new scope |
| `ArtifactForest.MovedRootBreaksScope` | src/schema.ts:527-530 | moving a root with a child passes the guard and breaks the rule |
| `CanonicalJson.TextLessIff` | src/checkpoints/canonical-json.ts:15-26 | texts are ordered by their first difference, a prefix first |
| `CanonicalJson.IndexOfIff` | src/checkpoints/canonical-json.ts:19-22 | the keys an object enumerates first are exactly the numerals of the array indices |
| `CanonicalJson.NormalFormDecides` | src/checkpoints/canonical-json.ts:15-26 | two values have equal normal forms exactly when they agree up to member order at any depth and `__proto__` members |
| `CanonicalJson.SortValueIsIdempotent` | src/checkpoints/canonical-json.ts:15-26 | sorting twice is sorting once |
| `CanonicalJson.NormalFormKeepsIff` | src/checkpoints/canonical-json.ts:15-26 | a value survives, up to member order, exactly when it has no `__proto__` member |
| `CanonicalJson.NormalFormIsComplete` | src/checkpoints/canonical-json.ts:15-26 | on values without such members equal normal forms mean equal up to member order |
| `CanonicalJson.ProtoMemberIsLost` | src/checkpoints/canonical-json.ts:15-26 | a parsed object with only that member normalises to the empty object |
| `CanonicalJson.FillRecord` | src/checkpoints/canonical-json.ts:19-22 | the loop over sorted keys, with integer keys enumerated first and `__proto__` swallowed |
| `CanonicalJson.Normalize` | src/checkpoints/canonical-json.ts:15-26 | the recursive walk equals the normal form function |
| `CanonicalText.QuoteDecodes` | src/checkpoints/canonical-json.ts:3-5 | a quoted string followed by anything decodes in one way |
| `CanonicalReading.QuoteReadsBack` | src/checkpoints/canonical-json.ts:3-5 | a reader written from section 7 of RFC 8259 recovers every string from its quoted form, lone surrogates included |
| `CanonicalReading.TokenShape` | src/checkpoints/canonical-json.ts:3-5 | which units print as themselves, as a two-character escape or as a unicode escape |
| `CanonicalText.PrintDecodes` | src/checkpoints/canonical-json.ts:3-5 | printed values are prefix-free: a text determines its value |
| `CanonicalText.CanonicalTextDecides` | src/checkpoints/canonical-json.ts:3-5 | equal canonical texts exactly when equal up to member order and `__proto__` members |
| `ErrorText.EscapeErrorValue` | src/application/actionable-tool-error.ts:446-459 | the index loop equals escaping unit by unit |
| `ErrorText.EscapeRoundTrip` | src/application/actionable-tool-error.ts:446-459 | a decoder recovers every string, and no output unit is below 0x20 |
| `ErrorText.RenderActionableToolError` | src/application/actionable-tool-error.ts:473-507 | the pushed lines joined, or the validation error |
| `ErrorText.RenderedLines` | src/application/actionable-tool-error.ts:473-507 | splitting the text at newlines gives back exactly the header, one line per present field and the retry line |
| `ErrorReading.PlaceReadsBack` | src/application/actionable-tool-error.ts:473-507 | the field path and the source are read back exactly under their labels, present or absent |
| `ErrorReading.MismatchReadsBack` | src/application/actionable-tool-error.ts:473-507 | so are the expected and the actual value |
| `ErrorReading.RemedyReadsBack` | src/application/actionable-tool-error.ts:473-507 | so are the checklist and the resume hint |
| `ErrorReading.TrackerReadsBack` | src/application/actionable-tool-error.ts:473-507 | so is the tracker |
| `ErrorReading.AdviceReadsBack` | src/application/actionable-tool-error.ts:473-507 | the retry line is always there and names the advice in words |
| `ErrorReading.HeaderReadsBack` | src/application/actionable-tool-error.ts:473-507 | the first line is the bracketed code and the escaped message |
| `ErrorReading.RendersIff` | src/application/actionable-tool-error.ts:167-300 | an error is rendered exactly when its code and path have their shape and no text it gives is empty |
| `ErrorText.RenderDecides` | src/application/actionable-tool-error.ts:473-507 | two accepted errors render alike exactly when they agree on every field and on their call's unescaped line |
| `ErrorText.SegmentDecides` | src/application/actionable-tool-error.ts:473-507 | two calls read alike exactly when their unescaped lines agree |
| `ErrorText.CallIsUnambiguousIff` | src/application/actionable-tool-error.ts:473-507 | an accepted call is the only one reading as it does exactly when it names neither tool nor execution and its id has no inner label |
| `ErrorText.CallSegmentIsAmbiguous` | src/application/actionable-tool-error.ts:473-507 | a call with a tool name reads like one whose id ends in it |
| `ErrorText.UnspacedCallIsRecoverable` | src/application/actionable-tool-error.ts:473-507 | of calls without spaces in id and tool name no two different ones read alike |
| `ToolCatalog.BeforeTotal` | src/application/execution-tool-catalog.ts:404-413 | the comparator is a strict total order on keys, equal exactly for equal keys |
| `ToolCatalog.BeforeIff` | src/application/execution-tool-catalog.ts:404-413 | the first of id, version and side in which two entries differ orders them, platform first |
| `ToolCatalog.StableSortSorts` | src/application/execution-tool-catalog.ts:488-500 | the sort orders a permutation of its input |
| `ToolCatalog.SortIsStable` | src/application/execution-tool-catalog.ts:488-500 | entries of one key keep their input order |
| `ToolCatalog.OrderIndependentIff` | src/application/execution-tool-catalog.ts:404-500 | the result is the same for every permutation exactly when equal keys mean equal entries |
| `ToolCatalog.TiesFollowInput` | src/application/execution-tool-catalog.ts:404-500 | two different entries of one key make some permutation sort differently |
| `ToolCatalog.AssembleExecutionToolCatalog` | src/application/execution-tool-catalog.ts:449-502 | the sorted union of both halves, and collisions exactly the ids on both sides in sorted order |
| `ToolCatalog.ModuleEntriesExact` | src/application/execution-tool-catalog.ts:465-486 | module entries are exactly the contributions whose id no platform package owns |
| `ToolCatalog.PlatformWins` | src/application/execution-tool-catalog.ts:449-502 | no id comes from both sides, and no platform tool is dropped |

## Left out

- SQLite, the file system, git, process spawning, PowerShell and `/proc` reads, and signals: tables are maps, a transaction is one atomic step, probes are arbitrary answers.
- Hashing: a digest stands for the fields it is taken over, so equal references mean equal fields.
- Clocks and generated ids: parameters.
- Braking the engine (src/app/operator-soft-stop.ts:252-315) and lifecycle execution controls: only the error a brake may throw is a parameter of the stop.
- A tool call presenting the empty text as its identity, which the completion refuses like none; a call presents an identity or none.
- `task_update` of a card's metadata, task kind or dependencies: the workplace a card derives and its retry budget are fixed. Unblocking of downstream cards after a completion or merge is left out with them.
- `worker_next` without an execution identity (src/tools/dispatcher.ts:355-395), which assigns an unfenced card and reserves its workplace under the worker's id, and its refusal of an identity that already holds a card or is voided: every claim here is made for a new execution.
- The texts of human requests, answers and comments; a request is open or answered.
- Epic scope: stops, sweeps, holds and burial are scoped by project only.
- Dispatcher eligibility unrelated to the protocol (priority order, routes, authority scopes, dependencies): a claim may pick any card the protocol's own clauses admit.
- `isRecoverableDispatchError` and `resolvePositiveIntEnv`: whether an error is recoverable is an arbitrary answer, and bounds are given.
- DispatchDrain.DistributeQueuedTasks: termination assumes a finite supply of claims over finitely many cards, given as ghost parameters; a wait that rejects while another one wins the race is modelled as rejecting the drain.
- DispatchDrain.RisesEndUnderTheCap: assumes nobody else assigns, look by look; the loop itself cannot promise more.
- `INSERT OR REPLACE` and updates of an artifact's own id, neither of which the parent triggers are written for.
- CanonicalJson.NormalFormDecides: covers parsed JSON values with distinct member names; `undefined`, functions and `toJSON` are left out, and a number is its printed text, so -0 and 0 are one value.
- `renderActual` repeats the same key-sorting walk (src/application/actionable-tool-error.ts:409-430) and adds only the `undefined` token and a fallback.
- Tool descriptions and contract references of a catalog entry: one opaque payload that the comparator never reads.
- `recoverFailedGateRun`, `abandonLifecycleRun`, `recoverOrphanedFactoryLaunch` and command decoding in src/app/factory-start.ts: they act on launches, gate runs and lifecycle rows outside the protocol.
- OperatorRecovery.RecoverWorkplace: failing the one active launch and pausing its order are writes outside these tables; only the refusal of a second active launch is modelled. Checks on digests and foreign rows are facts given to the verb.
- Other writers of task rows (`transitionTaskToInRepair`, `promoteTaskToDone`, `completeProductionCellTaskProjections`, `prepareFactoryProjectedTaskForExecution`).
- Recovery of assignments from before execution fencing, and the pause of workplaces whose retry budget a sweep exhausted.
- Result order of multi-row selections: any order is allowed, and the results are proved for all of them.
- Liveness: the proofs say what every run keeps and what a pass of the reaper, the boot or the drain reaches, not that someone starts one.
