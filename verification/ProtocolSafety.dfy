/** What the protocol guarantees over every run: the race with the fence, the holds, the kills, the recovery after a crash. */
module ProtocolSafety {
  import opened Results
  import opened Workplaces
  import opened FactoryTables
  import opened ConveyorRuntimes
  import opened WorkAssignment
  import opened SoftStop
  import opened Invariants
  import opened StopProtocol
  import opened Supervision
  import opened LifecycleBurial
  import opened Protocol

  // ---- race closure --------------------------------------------------------------------------

  /** A tool call carrying the execution's identity. */
  predicate Presents(step: Step, claimed: Option<ExecutionId>) {
    (step.ToolDone? || step.ToolAsk? || step.ToolAcquire? || step.ToolRelease? || step.ToolProduce?) && step.claimed == claimed
  }

  predicate Commits(w: World, step: Step) {
    Reply(w, step).Committed?
  }

  lemma VoidIsRefused(w: World, step: Step, e: ExecutionId)
    requires Void(w.db, e) && Presents(step, Some(e))
    ensures !Commits(w, step)
  {
  }

  predicate Unfenced(t: Tables, id: TaskId) {
    id in t.tasks && t.tasks[id].current.None?
  }

  predicate AssignedUnfenced(t: Tables, id: TaskId, worker: WorkerId) {
    Unfenced(t, id) && t.tasks[id].assignedTo == Some(worker)
  }

  /** The guards a call without an identity has to meet, tool by tool. */
  predicate UnidentifiedGuard(w: World, step: Step) {
    var t := w.db;
    match step
    case ToolAcquire(id, _, _, now, alive) =>
      Unfenced(t, id) && t.tasks[id].status == TaskDone && LockFree(t, w.locks, ScopeOf(t.tasks[id]), now, alive)
    case ToolRelease(id, worker, _, _) => Unfenced(t, id) && HoldsLock(t, w.locks, id, worker)
    case ToolAsk(id, worker, _) => AssignedUnfenced(t, id, worker)
    case ToolProduce(_, _, accepted) => accepted
    case _ => false
  }

  /**
   * A call without an identity never completes a card. It commits exactly on an
   * unfenced one: the merge lock of a finished card, its release by the holder
   * whatever the status has become, a question of the assignee; or as an
   * artifact, trace or product write outside any managed execution.
   */
  lemma UnidentifiedCommitsIff(w: World, step: Step)
    requires Presents(step, None)
    ensures Commits(w, step) <==> UnidentifiedGuard(w, step)
  {
    hide Complete, Replays, ReleaseExecution, LockFree;
  }

  /** In no later transaction of the run does a call presenting `e` commit once `e` is void. */
  predicate NoWriteAfterVoid(w: World, steps: seq<Step>, e: ExecutionId)
    decreases |steps|
  {
    steps == [] ||
    (&& (Void(w.db, e) && Presents(steps[0], Some(e)) ==> !Commits(w, steps[0]))
     && NoWriteAfterVoid(Next(w, steps[0]), steps[1..], e))
  }

  /**
   * Race closure, for every interleaving: a void execution stays void with its
   * row frozen, and all its committed writes precede the fence.
   */
  lemma {:induction false} RaceClosure(w: World, steps: seq<Step>, e: ExecutionId)
    requires WorldInv(w)
    ensures NoWriteAfterVoid(w, steps, e)
    ensures Void(w.db, e) ==> e in Run(w, steps).db.executions && Run(w, steps).db.executions[e] == w.db.executions[e]
    decreases |steps|
  {
    hide Next, WorldInv, Commits, Void;
    if steps != [] {
      NextKeeps(w, steps[0]);
      VoidIsFrozen(w, Next(w, steps[0]), e);
      if Void(w.db, e) && Presents(steps[0], Some(e)) {
        VoidIsRefused(w, steps[0], e);
      }
      RaceClosure(Next(w, steps[0]), steps[1..], e);
    } else {
      NextKeeps(w, Crash(0));
      VoidIsFrozen(w, Next(w, Crash(0)), e);
    }
  }

  lemma VoidIsFrozen(w: World, n: World, e: ExecutionId)
    requires WorldInv(w) && Grows(w.db, n.db)
    ensures Void(w.db, e) ==> Void(n.db, e) && e in n.db.executions && e in w.db.executions && n.db.executions[e] == w.db.executions[e]
  {
  }

  // ---- execution lifecycle ----------------------------------------------------------------------

  /** Over every run: one active execution per card and per worker, terminal rows final, void exactly when fenced once. */
  lemma LifecycleHolds(w: World, steps: seq<Step>)
    requires WorldInv(w)
    ensures
      var n := Run(w, steps).db;
      && (forall a, b | Live(n, a) && Live(n, b) && a != b ::
            n.executions[a].task != n.executions[b].task && n.executions[a].worker != n.executions[b].worker)
      && (forall e | Dead(w.db, e) :: e in n.executions && n.executions[e] == w.db.executions[e])
      && (forall e <- n.executions ::
            var row := n.executions[e];
            row.stopFence <= 1 && (row.voided <==> row.stopFence == 1) && (row.voided ==> row.state == ExecTerminated))
  {
    RunKeeps(w, steps);
    hide WorkplacesValid, StopsOk, HoldsOk, CardsOk, HiresOk, DriverOk, Run;
  }

  // ---- guarded kills ---------------------------------------------------------------------------------

  /** This step makes a soft-stop or the boot reaper aim its verified kill at a live local process. */
  predicate AimsKill(w: World, step: Step) {
    step.Drive? && step.driver in w.drivers && w.drivers[step.driver].stage == ToKill &&
    match w.drivers[step.driver]
    case StopDriver(plan, _) => IssuesKill(w.db, plan.execution, step.answers.probe, step.host)
    case ReapDriver(row, _) =>
      && row.pid.Some? && step.answers.probe.alive && row.machine == step.host
      && row.execution in w.db.executions && w.db.executions[row.execution].birthToken.Some?
  }

  /** Whatever ran before, and however late the kill comes, its execution is already terminal. */
  lemma KillsOnlyTheFenced(w: World, steps: seq<Step>, step: Step)
    requires WorldInv(w) && AimsKill(Run(w, steps), step)
    ensures Dead(Run(w, steps).db, Target(Run(w, steps).drivers[step.driver]))
  {
    RunKeeps(w, steps);
    var n := Run(w, steps);
    var driver := n.drivers[step.driver];
    assert DriverOk(n.db, driver);
    if Void(n.db, Target(driver)) {
      VoidIsDead(n.db, Target(driver));
    }
    hide WorldInv, Run, Grows, Inv;
  }

  // ---- holds ------------------------------------------------------------------------------------------

  predicate Hired(t: Tables, ref: WorkplaceRef) {
    ref in t.workplaces && Hirable(t.workplaces[ref].state.loop)
  }

  predicate HoldsWorkplace(t: Tables, h: HoldRef, ref: WorkplaceRef) {
    h in t.holds && !t.holds[h].released && t.holds[h].subject == OnWorkplace(ref)
  }

  /** Every workplace hired now was hired before. */
  predicate NoNewHires(a: Tables, b: Tables) {
    forall ref <- b.workplaces :: Hired(b, ref) ==> Hired(a, ref)
  }

  lemma UseCaseHires(t: Tables, ref: WorkplaceRef, task: TaskId, command: Command)
    requires UseCase(t, ref, task, command).Ok? && !command.Reserve?
    ensures NoNewHires(t, UseCase(t, ref, task, command).value.tables)
  {
    CompareAndSetNeverMisses(t, ref, task, command);
    if UseCase(t, ref, task, command).value.applied {
      OnlyReserveHires(t, ref, task, command);
    }
    hide UseCase, PlanFor;
  }

  lemma ReleaseHires(t: Tables, e: ExecutionId, terminal: ExecutionState, preserve: Option<bool>)
    ensures ReleaseExecution(t, e, terminal, preserve).tables.workplaces == t.workplaces
  {
    WriteTerminalFrame(t, e, terminal);
    hide RetryExhausted, RestoredStatus, WriteTerminal;
  }

  lemma WriteTerminalFrame(t: Tables, e: ExecutionId, terminal: ExecutionState)
    ensures WriteTerminal(t, e, terminal) == t.(executions := WriteTerminal(t, e, terminal).executions)
  {
  }

  lemma ApplyHires(t: Tables, row: SweptRow, action: Action, probe: PidProbe, host: MachineId, now: Millis)
    ensures ApplyAction(t, row, action, probe, host, now).tables.workplaces == t.workplaces
  {
    ReleaseHires(t, row.id, ExecTerminated, None);
    if action.ReleaseAs? {
      ReleaseHires(t, row.id, action.terminal, None);
    }
    hide ReleaseExecution;
  }

  lemma SweepRowHires(t: Tables, row: SweptRow, probe: PidProbe, host: MachineId, now: Millis)
    ensures SweepRow(t, row, probe, host, now).tables.workplaces == t.workplaces
  {
    ReleaseHires(t, row.id, ExecLost, None);
    ApplyHires(t, row, DecideStuckAction(row.execution, FactsOf(row, probe, host, now), now), probe, host, now);
    hide ReleaseExecution, ApplyAction, DecideStuckAction, FactsOf, ClassifyWorkerProcessIdentity, Guarded, HeartbeatStale;
  }

  lemma DoneHires(t: Tables, id: TaskId, worker: WorkerId, e: ExecutionId, facts: DoneFacts)
    requires Complete(t, id, worker, e, facts).Committed?
    ensures NoNewHires(t, Complete(t, id, worker, e, facts).tables)
  {
    hide UseCase, DoneStatus, FinishTask, PassesTaskFence, NoNewHires;
    var task := t.tasks[id];
    var moved := t.(tasks := t.tasks[id := task.(status := DoneStatus(task, facts).value, assignedTo := None)]);
    if task.derived.Some? {
      UseCaseHires(moved, task.derived.value, id, ReleaseShift(e, Completed));
      var released := UseCase(moved, task.derived.value, id, ReleaseShift(e, Completed)).value.tables;
      SameHiring(moved, t, released, Complete(t, id, worker, e, facts).tables);
    } else {
      SameWorkplaces(t, Complete(t, id, worker, e, facts).tables);
    }
  }

  lemma SameHiring(a: Tables, a': Tables, b: Tables, b': Tables)
    requires NoNewHires(a, b) && a'.workplaces == a.workplaces && b'.workplaces == b.workplaces
    ensures NoNewHires(a', b')
  {
  }

  lemma AskHires(t: Tables, id: TaskId, worker: WorkerId, claimed: Option<ExecutionId>)
    requires AskNeed(t, id, worker, claimed).Committed?
    ensures AskNeed(t, id, worker, claimed).tables.workplaces == t.workplaces
  {
    if t.tasks[id].current.Some? {
      ReleaseHires(AskedCard(t, id), t.tasks[id].current.value, ExecExited, None);
    }
    hide ReleaseExecution;
  }

  lemma UnparkHires(t: Tables, scope: HoldScope)
    ensures NoNewHires(t, Unpark(t, scope))
  {
    hide Parked;
  }

  lemma BuryHires(t: Tables, dead: map<nat, nat>)
    ensures NoNewHires(t, Bury(t, dead))
  {
    hide Condemned, Phantom;
  }

  lemma GateHires(t: Tables, ref: WorkplaceRef, event: Event, presenter: ExecutionId)
    requires Inv(t) && KernelEvent(event) && Coordinate(t, ref, event, presenter).Ok?
    ensures NoNewHires(t, Coordinate(t, ref, event, presenter).value)
  {
    CoordinateKeeps(t, ref, event, presenter);
    hide Coordinate, Inv, Grows;
  }

  lemma ClocksFrame(t: Tables, e: ExecutionId, now: Millis)
    ensures MarkProgress(t, e, now).workplaces == t.workplaces
  {
  }

  lemma LeasesFrame(t: Tables, project: nat, host: MachineId, now: Millis, ttl: Millis, excluded: set<ExecutionId>)
    ensures RenewLeases(t, project, host, now, ttl, excluded).workplaces == t.workplaces
  {
  }

  lemma HoldsFrame(t: Tables, scope: HoldScope)
    ensures ReleaseHolds(t, scope).workplaces == t.workplaces
  {
  }

  /** No transaction but the claim hires. */
  /** The transactions that write workplaces, other than a claim. */
  predicate WritesDesks(step: Step) {
    step.ProcessEnded? || step.ToolAsk? || step.Conveyor? || step.Gate? || step.Supervise? || step.Resume? || step.BuryRuns?
  }

  lemma TransactHires(t: Tables, step: Step)
    requires Inv(t) && !step.ClaimCard?
    ensures NoNewHires(t, Transact(t, step))
  {
    if WritesDesks(step) {
      DeskWritersHire(t, step);
    } else {
      OthersHire(t, step);
    }
    hide Inv, Transact, NoNewHires;
  }

  lemma DeskWritersHire(t: Tables, step: Step)
    requires Inv(t) && WritesDesks(step)
    ensures NoNewHires(t, Transact(t, step))
  {
    hide Inv, Claim, ReleaseExecution, AskNeed, UseCase, Coordinate, SweepRow, Unpark, Bury, NoNewHires;
    if Transact(t, step).workplaces == t.workplaces {
      SameWorkplaces(t, Transact(t, step));
    }
    match step
    case ProcessEnded(e, terminal, preserve) => ReleaseHires(t, e, terminal, preserve);
    case ToolAsk(task, worker, claimed) =>
      if AskNeed(t, task, worker, claimed).Committed? { AskHires(t, task, worker, claimed); }
    case Conveyor(ref, task, command) =>
      if !command.Reserve? && UseCase(t, ref, task, command).Ok? { UseCaseHires(t, ref, task, command); }
    case Gate(ref, event, presenter) =>
      if KernelEvent(event) && Coordinate(t, ref, event, presenter).Ok? { GateHires(t, ref, event, presenter); }
    case Supervise(row, probe, host, now) => SweepRowHires(t, row, probe, host, now);
    case Resume(scope) => UnparkHires(t, scope);
    case BuryRuns(dead) => BuryHires(t, dead);
    case _ =>
  }

  lemma OthersHire(t: Tables, step: Step)
    requires !WritesDesks(step) && !step.ClaimCard?
    ensures NoNewHires(t, Transact(t, step))
  {
    OthersFrame(t, step);
    hide Transact, NoNewHires;
    SameWorkplaces(t, Transact(t, step));
  }

  lemma OthersFrame(t: Tables, step: Step)
    requires !WritesDesks(step) && !step.ClaimCard?
    ensures Transact(t, step).workplaces == t.workplaces
  {
    hide AnsweredCard, EditedCard, RenewLeases, ReleaseHolds, MarkProgress;
    match step {
      case Progress(e, now) => ClocksFrame(t, e, now);
      case Renew(project, host, now, ttl, excluded) => LeasesFrame(t, project, host, now, ttl, excluded);
      case Unhold(scope) => HoldsFrame(t, scope);
      case _ =>
    }
  }

  lemma SameWorkplaces(a: Tables, b: Tables)
    requires a.workplaces == b.workplaces
    ensures NoNewHires(a, b)
  {
  }

  lemma FinishFenceWorkplaces(t: Tables, e: ExecutionId, id: TaskId, ref: Option<WorkplaceRef>, rewound: bool, kernelSkipped: bool)
    ensures FinishFence(t, e, id, ref, rewound, kernelSkipped).tables.workplaces == t.workplaces
  {
  }

  lemma VoidAndRewindHires(t: Tables, e: ExecutionId, ref: Option<WorkplaceRef>)
    requires WorkplacesValid(t.workplaces) && e in t.executions
    ensures VoidAndRewind(t, e, ref).Ok?
    ensures NoNewHires(t, VoidAndRewind(t, e, ref).value.tables)
    ensures ref.Some? ==> !Hired(VoidAndRewind(t, e, ref).value.tables, ref.value)
  {
    if ref.Some? {
      RewindShape(VoidExecution(t, e), ref.value);
      hide RewindWorkplace, WorkplacesValid;
    }
  }

  /** A fence hires nothing, and a fence that voids leaves the workplace it was given out of hire. */
  lemma FenceHires(t: Tables, e: ExecutionId, ref: Option<WorkplaceRef>, project: nat)
    requires Inv(t) && e in t.executions
    ensures Fence(t, e, ref, project).Ok?
    ensures NoNewHires(t, Fence(t, e, ref, project).value.tables)
    ensures Live(t, e) && ref.Some? ==> !Hired(Fence(t, e, ref, project).value.tables, ref.value)
  {
    LiveIsNotVoid(t, e);
    FenceKeeps(t, e, ref, project);
    if Live(t, e) {
      MarksFrame(t, e, ref, project, Fenced);
      hide Inv, Grows, Fence, FinishFence, VoidAndRewind, WorkplacesValid, UpsertStop;
      var marked := UpsertStop(t, e, ref, project, Fenced);
      VoidAndRewindHires(marked, e, ref);
      LiveFence(t, e, ref, project);
      var r := VoidAndRewind(marked, e, ref).value;
      FinishFenceWorkplaces(r.tables, e, t.executions[e].task, ref, r.rewound, r.kernelSkipped);
    } else {
      DeadFenceWorkplaces(t, e, ref, project);
      hide Inv, Grows, Fence;
    }
  }

  lemma DeadFenceWorkplaces(t: Tables, e: ExecutionId, ref: Option<WorkplaceRef>, project: nat)
    requires Dead(t, e)
    ensures Fence(t, e, ref, project).Ok?
    ensures Fence(t, e, ref, project).value.tables.workplaces == t.workplaces
  {
    MarksFrame(t, e, ref, project, Fenced);
    MarksFrame(UpsertStop(t, e, ref, project, Fenced), e, ref, project, Abandoned);
    hide FinishFence, VoidAndRewind, UpsertStop, AdvancePhase;
  }

  lemma MarksFrame(t: Tables, e: ExecutionId, ref: Option<WorkplaceRef>, project: nat, phase: StopPhase)
    ensures UpsertStop(t, e, ref, project, phase).workplaces == t.workplaces
    ensures AdvancePhase(t, e, phase).workplaces == t.workplaces
    ensures UpsertStop(t, e, ref, project, phase).executions == t.executions
  {
    MarkedRows(t, e, ref, project, phase);
    AdvancedRows(t, e, phase);
    hide UpsertStop, AdvancePhase;
  }

  lemma DriveHires(t: Tables, driver: Driver, answers: StopAnswers, host: MachineId)
    requires Inv(t) && Target(driver) in t.executions
    ensures NoNewHires(t, DriveOne(t, driver, answers, host).tables)
  {
    hide Inv, Fence, KillWorkerTree, ReapVerdict, UpsertStop, AdvancePhase, NoNewHires;
    SameWorkplaces(t, t);
    match driver
    case StopDriver(plan, stage) =>
      FenceHires(t, plan.execution, plan.ref, plan.project);
      MarksHire(t, plan.execution, plan.ref, plan.project, match stage
        case ToRecord => Planned
        case ToBrake => EngineBraked
        case ToMark(phase) => phase
        case _ => HookSent);
    case ReapDriver(row, stage) =>
      FenceHires(t, row.execution, row.ref, row.project);
      MarksHire(t, row.execution, row.ref, row.project, if stage.ToMark? then stage.phase else Fenced);
  }

  lemma MarksHire(t: Tables, e: ExecutionId, ref: Option<WorkplaceRef>, project: nat, phase: StopPhase)
    ensures NoNewHires(t, UpsertStop(t, e, ref, project, phase)) && NoNewHires(t, AdvancePhase(t, e, phase))
  {
    MarksFrame(t, e, ref, project, phase);
    hide UpsertStop, AdvancePhase;
  }

  /** The tools whose replies read rows outside the tables hire nothing. */
  lemma OutsideToolsHire(w: World, step: Step)
    requires WorldInv(w)
    requires step.ToolDone? || step.ToolRelease? || step.ToolAcquire? || step.ToolProduce?
             || step.BeginRecord? || step.CheckRecord? || step.EndRecord?
    ensures NoNewHires(w.db, Next(w, step).db)
  {
    hide Inv, MergeRelease, MergeAcquire, Complete, Replays, CardAllows, ActiveFor, NoNewHires;
    SameWorkplaces(w.db, w.db);
    if step.ToolDone? && Reply(w, step).Committed? {
      DoneHires(w.db, step.task, step.worker, step.claimed.value, step.facts);
    } else if step.ToolRelease? && Reply(w, step).Committed? {
      MergeReleaseKeeps(w.db, w.locks, step.task, step.worker, step.claimed, step.merged);
      SameWorkplaces(w.db, Next(w, step).db);
    }
  }

  /** No step of the system but a claim hires. */
  lemma NextHires(w: World, step: Step)
    requires WorldInv(w) && !step.ClaimCard?
    ensures NoNewHires(w.db, Next(w, step).db)
  {
    hide Inv, DriveOne, Transact, Reply, NoNewHires, CardAllows, ActiveFor, Recallable, Joins, Pending;
    SameWorkplaces(w.db, w.db);
    if step.Drive? {
      if step.driver in w.drivers {
        DriveHires(w.db, w.drivers[step.driver], step.answers, step.host);
      }
    } else if step.ToolDone? || step.ToolRelease? || step.ToolAcquire? || step.ToolProduce?
              || step.BeginRecord? || step.CheckRecord? || step.EndRecord? {
      OutsideToolsHire(w, step);
    } else if !step.BeginStop? && !step.BeginReap? && !step.Crash? {
      TransactHires(w.db, step);
    }
  }

  /** In the whole system only a claim hires, and it hires only the workplace its card derives. */
  lemma OnlyClaimsHire(w: World, step: Step, ref: WorkplaceRef)
    requires WorldInv(w) && !Hired(w.db, ref) && Hired(Next(w, step).db, ref)
    ensures step.ClaimCard? && Claim(w.db, step.task, step.execution, step.worker, step.machine, step.now).Ok?
    ensures step.task in w.db.tasks && w.db.tasks[step.task].derived == Some(ref)
  {
    if step.ClaimCard? {
      ClaimStep(w, step);
      if Claim(w.db, step.task, step.execution, step.worker, step.machine, step.now).Ok? {
        ClaimHiresDerived(w.db, step.task, step.execution, step.worker, step.machine, step.now, ref);
      }
    } else {
      NextHires(w, step);
    }
    hide Inv, Claim, Next;
  }

  lemma ClaimStep(w: World, step: Step)
    requires step.ClaimCard?
    ensures Next(w, step).db == Applied(w.db, Claim(w.db, step.task, step.execution, step.worker, step.machine, step.now))
  {
    hide Claim;
  }

  lemma SyncReviewFrame(t: Tables, ref: WorkplaceRef, review: bool, other: WorkplaceRef)
    requires ref in t.workplaces && SyncReview(t, ref, review).Ok? && other != ref
    ensures Hired(SyncReview(t, ref, review).value.tables, other) == Hired(t, other)
  {
  }

  lemma BindWorkplaces(t: Tables, id: TaskId, review: bool, ref: WorkplaceRef)
    requires id in t.tasks && BindTask(t, id, review).Ok? && BindTask(t, id, review).value.Some?
    requires t.tasks[id].derived != Some(ref)
    ensures Hired(BindTask(t, id, review).value.value, ref) == Hired(t, ref)
  {
    var derived := t.tasks[id].derived.value;
    var m := Materialize(t, derived, t.tasks[id].processRun);
    assert Hired(m, ref) == Hired(t, ref);
    hide SyncReview, Materialize;
    SyncReviewFrame(m, derived, review, ref);
    BindCardFrame(SyncReview(m, derived, review).value.tables, id, derived);
    hide BindCard, Hired;
    assert BindTask(t, id, review).value.value == BindCard(SyncReview(m, derived, review).value.tables, id, derived);
    SameHires(SyncReview(m, derived, review).value.tables, BindTask(t, id, review).value.value, ref);
  }

  lemma SameHires(a: Tables, b: Tables, ref: WorkplaceRef)
    requires a.workplaces == b.workplaces
    ensures Hired(a, ref) == Hired(b, ref)
  {
  }

  lemma BindCardFrame(t: Tables, id: TaskId, ref: WorkplaceRef)
    ensures BindCard(t, id, ref).workplaces == t.workplaces
  {
  }

  lemma ClaimHiresDerived(t: Tables, id: TaskId, e: ExecutionId, worker: WorkerId, machine: MachineId, now: Millis, ref: WorkplaceRef)
    requires Claim(t, id, e, worker, machine, now).Ok?
    ensures id in t.tasks
    ensures t.tasks[id].derived != Some(ref) ==> Hired(Claim(t, id, e, worker, machine, now).value, ref) == Hired(t, ref)
  {
    var status := ClaimedStatus(t, t.tasks[id]);
    var fenced := HireCard(t, id, e, worker, machine, now);
    if t.tasks[id].derived.Some? && t.tasks[id].derived != Some(ref) {
      BindWorkplaces(fenced, id, status == TaskReviewInProgress, ref);
      var bound := BindTask(fenced, id, status == TaskReviewInProgress).value.value;
      CompareAndSetNeverMisses(bound, t.tasks[id].derived.value, id, Reserve(e));
    }
    hide BindTask, UseCase, Eligible, InsertAllowed, ClaimedStatus, NewExecution;
  }

  /** A claim under a hold on a workplace gets there only through a card that was never bound to it. */
  lemma HeldClaimIsUnbound(t: Tables, id: TaskId, e: ExecutionId, worker: WorkerId, machine: MachineId, now: Millis,
                           h: HoldRef, ref: WorkplaceRef)
    requires Inv(t) && HoldsWorkplace(t, h, ref)
    requires Claim(t, id, e, worker, machine, now).Ok? && t.tasks[id].derived == Some(ref)
    ensures t.tasks[id].workplace.None?
  {
    assert !Blocks(t.holds[h], t.tasks[id]);
    hide BindTask, UseCase, InsertAllowed, ClaimedStatus, DeskFree, WorkplacesValid, ExecutionsOk, OneActive, StopsOk, HoldsOk, HiresOk;
  }

  /** The execution can no longer write, or was never recorded. */
  predicate Over(t: Tables, e: ExecutionId) {
    e in t.executions ==>
      !t.executions[e].state.ExecReserved? && !t.executions[e].state.ExecRunning? && !t.executions[e].state.ExecCancelRequested?
  }

  /** The desk waits for a worker, or the worker it was given to is gone. */
  predicate Vacant(t: Tables, ref: WorkplaceRef) {
    && ref in t.workplaces
    && var row := t.workplaces[ref];
       match row.state.loop
       case Queued => true
       case Leased | Running | Verifying => row.reservation.Some? ==> Over(t, row.reservation.value)
       case _ => false
  }

  /** An unreleased hold on the card's bound workplace, or on its project. */
  predicate HeldBack(hold: Hold, task: Task) {
    && !hold.released
    && ((task.workplace.Some? && hold.subject == OnWorkplace(task.workplace.value)) || hold.subject == OnProject(task.project))
  }

  /** A card waits to be claimed: nobody has it, its desk is vacant, no question is open, no hold is on it. */
  predicate Waits(t: Tables, id: TaskId) {
    && id in t.tasks
    && var task := t.tasks[id];
       && task.assignedTo.None? && task.current.None? && (task.status.TaskTodo? || task.status.TaskReview?)
       && (task.workplace.Some? ==> Vacant(t, task.workplace.value))
       && (forall e <- t.executions :: t.executions[e].task == id ==> Over(t, e))
       && (forall i | 0 <= i < |task.requests| :: !task.requests[i])
       && (forall h <- t.holds :: !HeldBack(t.holds[h], task))
  }

  lemma WaitsIff(t: Tables, id: TaskId)
    ensures Eligible(t, id) <==> Waits(t, id)
  {
    if id in t.tasks {
      var task := t.tasks[id];
      forall h <- t.holds ensures Blocks(t.holds[h], task) <==> HeldBack(t.holds[h], task) {}
      forall e <- t.executions ensures Active(t.executions[e].state) <==> !Over(t, e) {}
      if task.workplace.Some? {
        assert DeskFree(t, task.workplace.value) <==> Vacant(t, task.workplace.value);
      }
      hide Blocks, HeldBack, Active, Over, DeskFree, Vacant;
    }
  }

  /** The card waits, and the new execution row fits: its key is new and its worker has no other shift. */
  predicate MayClaim(t: Tables, id: TaskId, e: ExecutionId, worker: WorkerId) {
    && Waits(t, id) && e !in t.executions
    && forall x <- t.executions :: Active(t.executions[x].state) ==> t.executions[x].worker != worker
  }

  /** Nothing after the insert can fail: binding and reserving always go through on valid workplaces. */
  lemma ClaimCommitsIff(t: Tables, id: TaskId, e: ExecutionId, worker: WorkerId, machine: MachineId, now: Millis)
    requires WorkplacesValid(t.workplaces)
    ensures Claim(t, id, e, worker, machine, now).Ok? <==> MayClaim(t, id, e, worker)
  {
    WaitsIff(t, id);
    if id in t.tasks {
      ClaimedIsNew(t, id, e, worker, machine, now);
    }
    if MayClaim(t, id, e, worker) && t.tasks[id].derived.Some? {
      var fenced := HireCard(t, id, e, worker, machine, now);
      var review := ClaimedStatus(t, t.tasks[id]) == TaskReviewInProgress;
      var ref := t.tasks[id].derived.value;
      BindSucceeds(fenced, id, review);
      BoundDesk(fenced, id, review, ref);
      ReserveSucceeds(BindTask(fenced, id, review).value.value, ref, id, e);
    }
    hide BindTask, UseCase, Eligible, Waits, ClaimedStatus, WorkplacesValid, InsertAllowed;
  }

  /** No active row of the card is in the way of the insert. */
  lemma ClaimedIsNew(t: Tables, id: TaskId, e: ExecutionId, worker: WorkerId, machine: MachineId, now: Millis)
    requires id in t.tasks
    ensures Eligible(t, id) ==>
      (InsertAllowed(t, e, NewExecution(id, t.tasks[id].project, worker, machine, ClaimedStatus(t, t.tasks[id]), now)) <==>
        e !in t.executions && forall x <- t.executions :: Active(t.executions[x].state) ==> t.executions[x].worker != worker)
  {
    hide ClaimedStatus, DeskFree, Blocks;
  }

  lemma BindSucceeds(t: Tables, id: TaskId, review: bool)
    requires WorkplacesValid(t.workplaces) && id in t.tasks
    ensures BindTask(t, id, review).Ok?
  {
  }

  lemma ReserveSucceeds(t: Tables, ref: WorkplaceRef, id: TaskId, e: ExecutionId)
    requires ref in t.workplaces && Valid(t.workplaces[ref].state)
    ensures UseCase(t, ref, id, Reserve(e)).Ok?
  {
    hide StatusFor;
  }

  /** This step may claim a card that derives `ref` but carries no binding for the hold to look at. */
  predicate ClaimsUnbound(t: Tables, step: Step, ref: WorkplaceRef) {
    && step.ClaimCard? && MayClaim(t, step.task, step.execution, step.worker)
    && t.tasks[step.task].workplace.None? && t.tasks[step.task].derived == Some(ref)
  }

  predicate DeskOpen(t: Tables, ref: WorkplaceRef) {
    ref in t.workplaces ==> t.workplaces[ref].state.loop.Idle? || t.workplaces[ref].state.loop.Queued?
  }

  /** Under a hold, a claim hires the held workplace exactly when it takes an unbound card to an open desk. */
  lemma HeldClaimHiresIff(t: Tables, step: Step, h: HoldRef, ref: WorkplaceRef)
    requires Inv(t) && HoldsWorkplace(t, h, ref) && !Hired(t, ref) && step.ClaimCard?
    ensures Hired(Transact(t, step), ref) <==> ClaimsUnbound(t, step, ref) && DeskOpen(t, ref)
  {
    var claim := Claim(t, step.task, step.execution, step.worker, step.machine, step.now);
    ClaimCommitsIff(t, step.task, step.execution, step.worker, step.machine, step.now) by { assert WorkplacesValid(t.workplaces); }
    if claim.Ok? {
      ClaimHiresDerived(t, step.task, step.execution, step.worker, step.machine, step.now, ref);
      if t.tasks[step.task].derived == Some(ref) {
        HeldClaimIsUnbound(t, step.task, step.execution, step.worker, step.machine, step.now, h, ref);
        ClaimHiresOpenDesk(t, step.task, step.execution, step.worker, step.machine, step.now, ref);
      }
    }
    hide Inv, Claim, HoldsWorkplace, Eligible;
  }

  lemma ClaimHiresOpenDesk(t: Tables, id: TaskId, e: ExecutionId, worker: WorkerId, machine: MachineId, now: Millis, ref: WorkplaceRef)
    requires WorkplacesValid(t.workplaces) && !Hired(t, ref)
    requires Claim(t, id, e, worker, machine, now).Ok? && t.tasks[id].derived == Some(ref)
    ensures Hired(Claim(t, id, e, worker, machine, now).value, ref) <==> DeskOpen(t, ref)
  {
    var status := ClaimedStatus(t, t.tasks[id]);
    var fenced := HireCard(t, id, e, worker, machine, now);
    var review := status == TaskReviewInProgress;
    BoundDesk(fenced, id, review, ref);
    var bound := BindTask(fenced, id, review).value.value;
    assert DeskOpen(fenced, ref) == DeskOpen(t, ref) && Hired(fenced, ref) == Hired(t, ref);
    hide BindTask, Eligible, InsertAllowed, ClaimedStatus, WorkplacesValid, NewExecution, HireCard;
    assert Claim(t, id, e, worker, machine, now).value == UseCase(bound, ref, id, Reserve(e)).value.tables;
    hide UseCase, Claim;
    ReserveHiresIff(bound, ref, id, e);
  }

  lemma ReserveHiresIff(t: Tables, ref: WorkplaceRef, task: TaskId, e: ExecutionId)
    requires ref in t.workplaces && Valid(t.workplaces[ref].state) && !Hired(t, ref)
    requires UseCase(t, ref, task, Reserve(e)).Ok?
    ensures Hired(UseCase(t, ref, task, Reserve(e)).value.tables, ref) <==> DeskOpen(t, ref)
  {
    if DeskOpen(t, ref) {
      ReserveWins(t, ref, task, e);
    } else {
      ReserveElsewhere(t, ref, task, e);
    }
    hide UseCase, Valid;
  }

  /** After the binding the desk exists, valid, and is as open as it was. */
  lemma BoundDesk(t: Tables, id: TaskId, review: bool, ref: WorkplaceRef)
    requires WorkplacesValid(t.workplaces) && id in t.tasks && t.tasks[id].derived == Some(ref)
    requires BindTask(t, id, review).Ok?
    ensures BindTask(t, id, review).value.Some?
    ensures
      var n := BindTask(t, id, review).value.value;
      && ref in n.workplaces && Valid(n.workplaces[ref].state)
      && (DeskOpen(n, ref) <==> DeskOpen(t, ref)) && Hired(n, ref) == Hired(t, ref)
  {
    var m := Materialize(t, ref, t.tasks[id].processRun);
    assert Valid(m.workplaces[ref].state) && DeskOpen(m, ref) == DeskOpen(t, ref) && Hired(m, ref) == Hired(t, ref);
    hide WorkplacesValid, Materialize;
    BindCardFrame(SyncReview(m, ref, review).value.tables, id, ref);
    SyncedDesk(m, ref, review);
    hide SyncReview, BindCard, Valid;
  }

  lemma SyncedDesk(t: Tables, ref: WorkplaceRef, review: bool)
    requires ref in t.workplaces && Valid(t.workplaces[ref].state) && SyncReview(t, ref, review).Ok?
    ensures
      var n := SyncReview(t, ref, review).value.tables;
      && ref in n.workplaces && Valid(n.workplaces[ref].state)
      && (DeskOpen(n, ref) <==> DeskOpen(t, ref)) && Hired(n, ref) == Hired(t, ref)
  {
  }

  lemma ReserveElsewhere(t: Tables, ref: WorkplaceRef, task: TaskId, e: ExecutionId)
    requires ref in t.workplaces && Valid(t.workplaces[ref].state) && !DeskOpen(t, ref) && !Hired(t, ref)
    requires UseCase(t, ref, task, Reserve(e)).Ok?
    ensures !Hired(UseCase(t, ref, task, Reserve(e)).value.tables, ref)
  {
    hide Reduce, StatusFor;
  }

  predicate NeverBypassed(w: World, steps: seq<Step>, ref: WorkplaceRef)
    decreases |steps|
  {
    steps == [] || (!(ClaimsUnbound(w.db, steps[0], ref) && DeskOpen(w.db, ref)) && NeverBypassed(Next(w, steps[0]), steps[1..], ref))
  }

  lemma HoldsOnlyLapse(a: Tables, b: Tables, h: HoldRef, ref: WorkplaceRef)
    requires HoldsGrow(a.holds, b.holds) && HoldsWorkplace(b, h, ref) && h in a.holds
    ensures HoldsWorkplace(a, h, ref)
  {
  }

  /** The workplace is out of hire now and after every step of the run. */
  predicate FreeThroughout(w: World, steps: seq<Step>, ref: WorkplaceRef)
    decreases |steps|
  {
    !Hired(w.db, ref) && (steps == [] || FreeThroughout(Next(w, steps[0]), steps[1..], ref))
  }

  /**
   * Hold safety over runs: as long as the hold is not released, no requeue,
   * unpark, adoption, sweep, reaper or bound claim hires the workplace again; it
   * stays free throughout exactly when no step takes an unbound card to it while
   * its desk is open.
   */
  lemma {:induction false} HeldWorkplaceStaysFreeIff(w: World, steps: seq<Step>, h: HoldRef, ref: WorkplaceRef)
    requires WorldInv(w) && h in w.db.holds && !Hired(w.db, ref)
    requires HoldsWorkplace(Run(w, steps).db, h, ref)
    ensures FreeThroughout(w, steps, ref) <==> NeverBypassed(w, steps, ref)
    decreases |steps|
  {
    if steps != [] {
      var n := Next(w, steps[0]);
      RunKeeps(w, steps);
      HoldsOnlyLapse(w.db, Run(w, steps).db, h, ref);
      NextKeeps(w, steps[0]);
      NextHiresIff(w, steps[0], h, ref);
      hide Next, Inv, DriverOk, ClaimsUnbound, ExecutionsGrow, WorkplacesGrow, CardsStay, Hired;
      if !Hired(n.db, ref) {
        HeldWorkplaceStaysFreeIff(n, steps[1..], h, ref);
      }
    }
  }

  /** One step of the system, under a hold. */
  lemma NextHiresIff(w: World, step: Step, h: HoldRef, ref: WorkplaceRef)
    requires WorldInv(w) && HoldsWorkplace(w.db, h, ref) && !Hired(w.db, ref)
    ensures Hired(Next(w, step).db, ref) <==> ClaimsUnbound(w.db, step, ref) && DeskOpen(w.db, ref)
  {
    if step.ClaimCard? {
      HeldClaimHiresIff(w.db, step, h, ref);
      assert Next(w, step).db == Transact(w.db, step) by { hide Transact; }
    } else if Hired(Next(w, step).db, ref) {
      OnlyClaimsHire(w, step, ref);
    }
    hide Next, Transact, Inv, HoldsWorkplace, MayClaim, Hired, DriverOk;
  }

  /** So without such a claim it is free at the end. */
  lemma {:induction false} HeldWorkplaceStaysFree(w: World, steps: seq<Step>, h: HoldRef, ref: WorkplaceRef)
    requires WorldInv(w) && h in w.db.holds && !Hired(w.db, ref)
    requires HoldsWorkplace(Run(w, steps).db, h, ref)
    requires NeverBypassed(w, steps, ref)
    ensures !Hired(Run(w, steps).db, ref)
  {
    HeldWorkplaceStaysFreeIff(w, steps, h, ref);
    FreeAtTheEnd(w, steps, ref);
    hide FreeThroughout, NeverBypassed, Run;
  }

  lemma {:induction false} FreeAtTheEnd(w: World, steps: seq<Step>, ref: WorkplaceRef)
    requires FreeThroughout(w, steps, ref)
    ensures !Hired(Run(w, steps).db, ref)
    decreases |steps|
  {
    hide Next, Hired;
    if steps != [] {
      FreeAtTheEnd(Next(w, steps[0]), steps[1..], ref);
    }
  }

  /**
   * From the fence on: once a stop's fence voids an execution hired at `ref`,
   * the workplace is out of hire and stays so until its hold is released,
   * whatever runs in between, unless an unbound card is claimed into it.
   */
  lemma FencedWorkplaceStaysFree(w: World, fence: Step, steps: seq<Step>, ref: WorkplaceRef)
    requires WorldInv(w) && fence.Drive? && fence.driver in w.drivers
    requires w.drivers[fence.driver].StopDriver? && w.drivers[fence.driver].stage == ToFence
    requires w.drivers[fence.driver].plan.ref == Some(ref) && Live(w.db, w.drivers[fence.driver].plan.execution)
    requires
      var h := FenceHold(w.drivers[fence.driver].plan.execution);
      var n := Run(Next(w, fence), steps);
      h in n.db.holds ==> !n.db.holds[h].released
    requires NeverBypassed(Next(w, fence), steps, ref)
    ensures !Hired(Run(Next(w, fence), steps).db, ref)
  {
    var plan := w.drivers[fence.driver].plan;
    var e := plan.execution;
    var h := FenceHold(e);
    NextKeeps(w, fence);
    var n := Next(w, fence);
    FenceHires(w.db, e, plan.ref, plan.project);
    LiveIsNotVoid(w.db, e);
    FenceInsertsHold(w.db, e, plan.ref, plan.project);
    FenceStep(w, fence);
    hide Fence, Next, Inv, Hired, NeverBypassed, Run, Grows;
    RunKeeps(n, steps);
    HoldStays(n.db, Run(n, steps).db, h, ref);
    HeldWorkplaceStaysFree(n, steps, h, ref);
  }

  /** The fence transaction of a stop is one step of the system. */
  lemma FenceStep(w: World, fence: Step)
    requires fence.Drive? && fence.driver in w.drivers
    requires w.drivers[fence.driver].StopDriver? && w.drivers[fence.driver].stage == ToFence
    requires
      var plan := w.drivers[fence.driver].plan;
      Fence(w.db, plan.execution, plan.ref, plan.project).Ok?
    ensures
      var plan := w.drivers[fence.driver].plan;
      Next(w, fence).db == Fence(w.db, plan.execution, plan.ref, plan.project).value.tables
  {
    hide Fence, Transact, Reply;
  }

  lemma HoldStays(a: Tables, b: Tables, h: HoldRef, ref: WorkplaceRef)
    requires Grows(a, b) && h in a.holds && a.holds[h].subject == OnWorkplace(ref)
    requires h in b.holds ==> !b.holds[h].released
    ensures HoldsWorkplace(b, h, ref)
  {
  }

  // ---- the exception, concretely ------------------------------------------------------------------------

  const DESK: WorkplaceRef := "workplace/1/cell"

  /** A desk queued again after a fence, its unreleased hold, and a todo card that derives the desk but is not bound to it. */
  function HeldDesk(): Tables {
    var voided := Execution(1, 0, 7, 0, ExecTerminated, Executing, None, None, false, true, 1, Some(StuckActive), Clocks(0, 0, 0, 0, 0, 0, 0));
    var unbound := Task(TaskTodo, None, None, None, Some(DESK), 1, 0, false, [], false, false, NotRequired, None, None);
    Tables(map[DESK := WorkplaceRow(WorkplaceState(InProgress, Queued, Author, 3, None), None, None, None, 1)],
           map[1 := voided],
           map[2 := unbound],
           map[],
           map[FenceHold(1) := Hold(OnWorkplace(DESK), false)],
           map[], map[], {})
  }

  lemma HeldDeskKeepsTheInvariant()
    ensures Inv(HeldDesk()) && WorkplacesValid(HeldDesk().workplaces)
  {
  }

  lemma HeldDeskIsClaimable()
    ensures MayClaim(HeldDesk(), 2, 5, 9) && !Hired(HeldDesk(), DESK)
  {
  }

  /** The held desk is hired all the same: the hold looks at the card's binding, the lease at its derived workplace. */
  lemma UnboundCardBypassesTheHold()
    ensures Inv(HeldDesk()) && !Hired(HeldDesk(), DESK)
    ensures Claim(HeldDesk(), 2, 5, 9, 0, 0).Ok?
    ensures Hired(Claim(HeldDesk(), 2, 5, 9, 0, 0).value, DESK)
    ensures HoldsWorkplace(HeldDesk(), FenceHold(1), DESK)
  {
    HeldDeskKeepsTheInvariant();
    HeldDeskIsClaimable();
    ClaimCommitsIff(HeldDesk(), 2, 5, 9, 0, 0);
    ClaimHiresOpenDesk(HeldDesk(), 2, 5, 9, 0, 0, DESK);
    hide Inv, Claim, MayClaim, Hired, WorkplacesValid;
  }

  // ---- crash and convergence ------------------------------------------------------------------------------

  /**
   * Crash convergence: from whatever any run left, wherever its drivers died,
   * one reaper pass over its own selection finishes every interrupted stop, and
   * the next pass finds nothing to do.
   */
  lemma CrashConvergence(w: World, steps: seq<Step>, rows: seq<ReapRow>, probes: ExecutionId -> Probe, host: MachineId)
    requires WorldInv(w) && Captured(Run(w, steps).db, rows)
    ensures ReapAll(Run(w, steps).db, rows, probes, host).Ok?
    ensures
      var n := ReapAll(Run(w, steps).db, rows, probes, host).value.tables;
      && Pending(n) == {}
      && (forall e <- n.stops :: DonePhase(n.stops[e].phase) && Dead(n, e))
      && (forall again: seq<ReapRow>, probes': ExecutionId -> Probe, host' |
            Captured(n, again) :: ReapAll(n, again, probes', host') == Ok(Reaping(n, [])))
  {
    RunKeeps(w, steps);
    hide Inv, DriverOk, Run, ReapAll, Captured, Grows;
    OneReaperPassConverges(Run(w, steps).db, rows, probes, host);
    var n := ReapAll(Run(w, steps).db, rows, probes, host).value.tables;
    forall again: seq<ReapRow>, probes': ExecutionId -> Probe, host' | Captured(n, again)
      ensures ReapAll(n, again, probes', host') == Ok(Reaping(n, []))
    {
      SecondReaperPassChangesNothing(n, again, probes', host');
    }
  }

  function Drives(drive: Step, n: nat): seq<Step> {
    seq(n, i => drive)
  }

  lemma RunDrives(w: World, drive: Step, n: nat)
    requires n > 0
    ensures Run(w, Drives(drive, n)) == Run(Next(w, drive), Drives(drive, n - 1))
  {
    assert Drives(drive, n)[1..] == Drives(drive, n - 1);
  }

  lemma {:induction false} DrivesWithoutDriver(w: World, drive: Step, n: nat)
    requires drive.Drive? && drive.driver !in w.drivers
    ensures Run(w, Drives(drive, n)) == w
    decreases n
  {
    if n > 0 {
      RunDrives(w, drive, n);
      DrivesWithoutDriver(w, drive, n - 1);
    }
  }

  lemma DriveStep(w: World, drive: Step)
    requires drive.Drive? && drive.driver in w.drivers
    ensures
      var driven := DriveOne(w.db, w.drivers[drive.driver], drive.answers, drive.host);
      Next(w, drive) == w.(db := driven.tables,
                           drivers := if driven.next.Some? then w.drivers[drive.driver := driven.next.value] else w.drivers - {drive.driver})
  {
    hide DriveOne, Transact, Reply;
  }

  /**
   * The orchestrator's loop body is exactly its six transactions run without
   * interruption, so the proper prefixes of those six are its crash points.
   */
  lemma StopOneIsSixTransactions(w: World, d: nat, plan: PlannedStop, answers: StopAnswers, host: MachineId)
    requires d in w.drivers && w.drivers[d] == StopDriver(plan, ToRecord)
    ensures Run(w, Drives(Drive(d, answers, host), 6)).db == StopOne(w.db, plan, answers, host).tables
    ensures d !in Run(w, Drives(Drive(d, answers, host), 6)).drivers
  {
    hide Fence, KillWorkerTree, UpsertStop, AdvancePhase, Run, Next;
    var drive := Drive(d, answers, host);
    DriveStep(w, drive);
    DriveStep(Next(w, drive), drive);
    var w2 := Next(Next(w, drive), drive);
    RunDrives(w, drive, 6);
    RunDrives(Next(w, drive), drive, 5);
    assert w2.db == MarkBraked(w.db, plan) && d in w2.drivers && w2.drivers[d] == StopDriver(plan, ToFence);
    var w3 := Next(w2, drive);
    DriveStep(w2, drive);
    RunDrives(w2, drive, 4);
    if d !in w3.drivers {
      DrivesWithoutDriver(w3, drive, 3);
    } else {
      hide MarkBraked, StopOne;
      KillStepIsThreeTransactions(w3, d, plan, answers, host);
    }
  }

  lemma KillStepIsThreeTransactions(w: World, d: nat, plan: PlannedStop, answers: StopAnswers, host: MachineId)
    requires d in w.drivers && w.drivers[d] == StopDriver(plan, ToHook)
    ensures Run(w, Drives(Drive(d, answers, host), 3)).db == KillStep(w.db, plan.execution, answers, host).tables
    ensures d !in Run(w, Drives(Drive(d, answers, host), 3)).drivers
  {
    hide Fence, KillWorkerTree, UpsertStop, AdvancePhase, Run, Next;
    var drive := Drive(d, answers, host);
    var w1 := Next(w, drive);
    DriveStep(w, drive);
    var w2 := Next(w1, drive);
    DriveStep(w1, drive);
    var w3 := Next(w2, drive);
    DriveStep(w2, drive);
    RunDrives(w, drive, 3);
    RunDrives(w1, drive, 2);
    RunDrives(w2, drive, 1);
    assert w1.drivers[d] == StopDriver(plan, ToKill);
    DrivesWithoutDriver(w3, drive, 0);
  }
}
