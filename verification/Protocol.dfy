/**
 * The factory as one transition system: workers, dispatchers, gates, sweeps,
 * operators, reapers and crashes, interleaved transaction by transaction.
 */
module Protocol {
  import opened Results
  import opened Workplaces
  import opened FactoryTables
  import opened ConveyorRuntimes
  import opened WorkAssignment
  import opened SoftStop
  import opened Invariants
  import opened StopProtocol
  import opened Supervision
  import opened LifecycleBurial

  // ---- worlds and steps ------------------------------------------------------------------

  /** Where an operator stop or a boot reaper stands between two of its transactions. */
  datatype Stage = ToRecord | ToBrake | ToFence | ToHook | ToKill | ToMark(phase: StopPhase)

  datatype Driver =
    | StopDriver(plan: PlannedStop, stage: Stage)
    | ReapDriver(row: ReapRow, stage: Stage)

  /** A row a tool writes outside the protocol's tables (evidence, artifact, trace, product), and the execution it names. */
  datatype Material = Material(row: nat, author: Option<ExecutionId>)

  /** Such a call has read its fenced card, or has passed all its checks. */
  datatype Recording = ReadCard(task: TaskId, row: Material) | Passed(row: Material)

  datatype World = World(
    db: Tables,
    drivers: map<nat, Driver>,
    /** verification_record calls between their statements. */
    recordings: map<nat, Recording>,
    material: set<Material>,
    locks: MergeLocks,
    commands: Commands)

  datatype Step =
    | ClaimCard(task: TaskId, execution: ExecutionId, worker: WorkerId, machine: MachineId, now: Millis)
    | ActivateCard(task: TaskId, ref: WorkplaceRef, role: Role)
    | ProcessStarted(execution: ExecutionId, pid: Option<Pid>, token: Option<nat>)
    | SpawnFailed(execution: ExecutionId)
    | ProcessEnded(execution: ExecutionId, terminal: ExecutionState, preserve: Option<bool>)
    | ToolDone(task: TaskId, worker: WorkerId, claimed: Option<ExecutionId>, facts: DoneFacts)
    | ToolAsk(task: TaskId, worker: WorkerId, claimed: Option<ExecutionId>)
    | ToolAcquire(task: TaskId, worker: WorkerId, claimed: Option<ExecutionId>, now: Millis, alive: bool)
    | ToolRelease(task: TaskId, worker: WorkerId, claimed: Option<ExecutionId>, merged: bool)
    | ToolProduce(product: nat, claimed: Option<ExecutionId>, accepted: bool)
    | Edit(task: TaskId, edit: CardEdit)
    | BeginRecord(recorder: nat, task: TaskId, worker: WorkerId, claimed: Option<ExecutionId>, evidence: nat, accepted: bool)
    | CheckRecord(recorder: nat)
    | EndRecord(recorder: nat, survived: bool)
    | AnswerRequest(task: TaskId, latest: nat)
    | Conveyor(ref: WorkplaceRef, task: TaskId, command: Command)
    | Gate(ref: WorkplaceRef, event: Event, presenter: ExecutionId)
    | Progress(execution: ExecutionId, now: Millis)
    | Supervise(row: SweptRow, pidProbe: PidProbe, host: MachineId, now: Millis)
    | Renew(project: nat, host: MachineId, now: Millis, ttl: Millis, excluded: set<ExecutionId>)
    | Unhold(scope: HoldScope)
    | Resume(scope: HoldScope)
    | BuryRuns(dead: map<nat, nat>)
    | BeginStop(driver: nat, execution: ExecutionId, workplace: Option<WorkplaceRef>)
    | BeginReap(driver: nat, execution: ExecutionId)
    | Drive(driver: nat, answers: StopAnswers, host: MachineId)
    | Crash(driver: nat)

  function Applied(t: Tables, r: Result<Tables>): Tables {
    if r.Ok? then r.value else t
  }

  function Replied(t: Tables, reply: ToolReply): Tables {
    if reply.Committed? then reply.tables else t
  }

  /** The reply of a tool call; any other step replies nothing. */
  function Reply(w: World, step: Step): ToolReply {
    var t := w.db;
    match step
    case ToolDone(task, worker, claimed, facts) => WorkerDone(t, w.commands, task, worker, claimed, facts)
    case ToolAsk(task, worker, claimed) => AskNeed(t, task, worker, claimed)
    case ToolAcquire(task, _, claimed, now, alive) => MergeAcquire(t, w.locks, task, claimed, now, alive)
    case ToolRelease(task, worker, claimed, merged) => MergeRelease(t, w.locks, task, worker, claimed, merged)
    case ToolProduce(_, claimed, accepted) => Produce(t, claimed, accepted)
    case _ => Refused("not a tool call")
  }

  /** The transactions that belong to no driver. A refused or failed one changes nothing. */
  function Transact(t: Tables, step: Step): Tables {
    match step
    case ClaimCard(task, e, worker, machine, now) => Applied(t, Claim(t, task, e, worker, machine, now))
    case ActivateCard(task, ref, role) => Applied(t, ActivateRoleTask(t, task, ref, role))
    case ProcessStarted(e, pid, token) => Applied(t, MarkRunning(t, e, pid, token))
    case SpawnFailed(e) => MarkSpawnFailed(t, e)
    case ProcessEnded(e, terminal, preserve) => if Active(terminal) then t else ReleaseExecution(t, e, terminal, preserve).tables
    case ToolAsk(task, worker, claimed) => Replied(t, AskNeed(t, task, worker, claimed))
    case AnswerRequest(task, latest) => Answer(t, task, latest)
    case Edit(task, edit) => Applied(t, EditCard(t, task, edit))
    // A reserve happens only inside the claim.
    case Conveyor(ref, task, command) =>
      var r := UseCase(t, ref, task, command);
      if command.Reserve? || r.Err? then t else r.value.tables
    case Gate(ref, event, presenter) => if KernelEvent(event) then Applied(t, Coordinate(t, ref, event, presenter)) else t
    case Progress(e, now) => MarkProgress(t, e, now)
    case Supervise(row, probe, host, now) => SweepRow(t, row, probe, host, now).tables
    case Renew(project, host, now, ttl, excluded) => RenewLeases(t, project, host, now, ttl, excluded)
    case Unhold(scope) => ReleaseHolds(t, scope)
    case Resume(scope) => Unpark(t, scope)
    case BuryRuns(dead) => Bury(t, dead)
    case _ => t
  }

  function Target(driver: Driver): ExecutionId {
    match driver
    case StopDriver(plan, _) => plan.execution
    case ReapDriver(row, _) => row.execution
  }

  datatype Driven = Driven(tables: Tables, next: Option<Driver>)

  /** One transaction of an operator stop. */
  function DriveStop(t: Tables, plan: PlannedStop, stage: Stage, answers: StopAnswers, host: MachineId): Driven {
    var e := plan.execution;
    match stage
    case ToRecord => Driven(UpsertStop(t, e, plan.ref, plan.project, Planned), Some(StopDriver(plan, ToBrake)))
    case ToBrake => Driven(AdvancePhase(t, e, EngineBraked), Some(StopDriver(plan, ToFence)))
    case ToFence =>
      (match Fence(t, e, plan.ref, plan.project)
       case Err(_) => Driven(t, None)
       case Ok(f) => Driven(f.tables, if f.outcome == AlreadyTerminal then None else Some(StopDriver(plan, ToHook))))
    case ToHook => Driven(if answers.hookSent then AdvancePhase(t, e, HookSent) else t, Some(StopDriver(plan, ToKill)))
    case ToKill =>
      (match KillWorkerTree(t, e, answers.probe, host)
       case Err(_) => Driven(t, Some(StopDriver(plan, ToMark(Abandoned))))
       case Ok(AbandonedRemote) => Driven(t, Some(StopDriver(plan, ToMark(Abandoned))))
       case Ok(_) => Driven(t, Some(StopDriver(plan, ToMark(Killed)))))
    case ToMark(phase) => Driven(AdvancePhase(t, e, phase), None)
  }

  /** One transaction of the boot reaper on one captured row. */
  function DriveReap(t: Tables, row: ReapRow, stage: Stage, answers: StopAnswers, host: MachineId): Driven {
    match stage
    case ToFence =>
      (match Fence(t, row.execution, row.ref, row.project)
       case Err(_) => Driven(t, None)
       case Ok(f) => Driven(f.tables, Some(ReapDriver(row, ToKill))))
    case ToKill => Driven(t, Some(ReapDriver(row, ToMark(ReapVerdict(row, answers.probe, host)))))
    case ToMark(phase) => Driven(AdvancePhase(t, row.execution, phase), None)
    case _ => Driven(t, None)
  }

  function DriveOne(t: Tables, driver: Driver, answers: StopAnswers, host: MachineId): Driven {
    match driver
    case StopDriver(plan, stage) => DriveStop(t, plan, stage, answers, host)
    case ReapDriver(row, stage) => DriveReap(t, row, stage, answers, host)
  }

  function Next(w: World, step: Step): World {
    match step
    case BeginStop(d, e, ref) =>
      if d !in w.drivers && Recallable(w.db, e, None) && Joins(w.db, e, ref)
      then w.(drivers := w.drivers[d := StopDriver(ToPlan(w.db, e, ref), ToRecord)]) else w
    case BeginReap(d, e) =>
      if d !in w.drivers && e in Pending(w.db)
      then w.(drivers := w.drivers[d := ReapDriver(CaptureRow(w.db, e), ToFence)]) else w
    case Drive(d, answers, host) =>
      if d !in w.drivers then w
      else
        var driven := DriveOne(w.db, w.drivers[d], answers, host);
        w.(db := driven.tables, drivers := if driven.next.Some? then w.drivers[d := driven.next.value] else w.drivers - {d})
    case Crash(d) => w.(drivers := w.drivers - {d})
    // The statements of verification_record: card, active execution, insert; a process that dies in between writes nothing.
    case BeginRecord(d, task, worker, claimed, row, accepted) =>
      if d in w.recordings || !accepted || !CardAllows(w.db, task, worker, claimed) then w
      else if w.db.tasks[task].current.None? then w.(recordings := w.recordings[d := Passed(Material(row, claimed))])
      else w.(recordings := w.recordings[d := ReadCard(task, Material(row, claimed))])
    case CheckRecord(d) =>
      if d !in w.recordings || w.recordings[d].Passed? then w
      else
        var reading := w.recordings[d];
        if reading.row.author.Some? && ActiveFor(w.db, reading.row.author.value, reading.task)
        then w.(recordings := w.recordings[d := Passed(reading.row)])
        else w.(recordings := w.recordings - {d})
    case EndRecord(d, survived) =>
      if d !in w.recordings || (survived && w.recordings[d].ReadCard?) then w
      else w.(material := if survived then w.material + {w.recordings[d].row} else w.material, recordings := w.recordings - {d})
    case ToolDone(task, _, claimed, facts) =>
      if Reply(w, step).Committed?
      then w.(db := Reply(w, step).tables,
              commands := w.commands[DoneKey(claimed.value, facts) := Receipt(facts.payload, w.db.tasks[task].current)])
      else w
    case ToolAcquire(task, worker, _, now, _) =>
      if Reply(w, step).Committed? then w.(locks := AcquiredLocks(w.db, w.locks, task, worker, now)) else w
    case ToolRelease(task, _, _, _) =>
      if Reply(w, step).Committed? then w.(db := Reply(w, step).tables, locks := w.locks - {ScopeOf(w.db.tasks[task])}) else w
    case ToolProduce(row, claimed, _) =>
      if Reply(w, step).Committed? then w.(material := w.material + {Material(row, claimed)}) else w
    case _ => w.(db := Transact(w.db, step))
  }

  function Run(w: World, steps: seq<Step>): World
    decreases |steps|
  {
    if steps == [] then w else Run(Next(w, steps[0]), steps[1..])
  }

  // ---- the invariant of the whole system --------------------------------------------------------

  /** A driver past its fence works on an execution that can no longer write. */
  predicate DriverOk(t: Tables, driver: Driver) {
    && Target(driver) in t.executions
    && match driver
       case StopDriver(_, stage) => stage.ToRecord? || stage.ToBrake? || stage.ToFence? || Void(t, Target(driver))
       case ReapDriver(_, stage) => (stage.ToFence? || Dead(t, Target(driver)))
                                    && !stage.ToRecord? && !stage.ToBrake? && !stage.ToHook?
  }

  /** An accepted command of a fenced card shows in that execution's receipts. */
  predicate CommandsOk(commands: Commands, receipts: set<ExecutionId>) {
    forall k <- commands :: commands[k].fencedBy.Some? ==> commands[k].fencedBy.value in receipts
  }

  ghost predicate WorldInv(w: World) {
    && Inv(w.db) && CommandsOk(w.commands, w.db.receipts)
    && forall d <- w.drivers :: DriverOk(w.db, w.drivers[d])
  }

  lemma DriverStaysOk(a: Tables, b: Tables, driver: Driver)
    requires Inv(a) && Grows(a, b) && DriverOk(a, driver)
    ensures DriverOk(b, driver)
  {
  }

  // ---- what each transaction keeps ------------------------------------------------------------------

  lemma CoordinateKeeps(t: Tables, ref: WorkplaceRef, event: Event, presenter: ExecutionId)
    requires Inv(t) && KernelEvent(event) && Coordinate(t, ref, event, presenter).Ok?
    ensures
      var n := Coordinate(t, ref, event, presenter).value;
      && Inv(n) && Grows(t, n) && n == t.(workplaces := n.workplaces)
      && ref in t.workplaces && n.workplaces == t.workplaces[ref := n.workplaces[ref]] && !Hirable(n.workplaces[ref].state.loop)
  {
    GateNeverHires(t.workplaces[ref].state, event);
    var n := Coordinate(t, ref, event, presenter).value;
    assert n.workplaces == t.workplaces[ref := n.workplaces[ref]];
    UpdateWorkplace(t, ref, n.workplaces[ref]);
  }

  lemma GateNeverHires(s: WorkplaceState, event: Event)
    requires KernelEvent(event) && Reduce(s, event).Ok?
    ensures !Hirable(Reduce(s, event).value.loop)
  {
  }

  lemma UnparkKeeps(t: Tables, scope: HoldScope)
    requires Inv(t)
    ensures Inv(Unpark(t, scope)) && Grows(t, Unpark(t, scope))
  {
    hide Parked;
    var n := Unpark(t, scope);
    assert WorkplacesValid(n.workplaces) && WorkplacesGrow(t.workplaces, n.workplaces) by {
      UnparkedRowsValid(t, scope);
    }
    assert HiresOk(n.workplaces, n.executions, n.tasks, n.receipts);
  }

  lemma UnparkedRowsValid(t: Tables, scope: HoldScope)
    requires WorkplacesValid(t.workplaces)
    ensures WorkplacesValid(Unpark(t, scope).workplaces) && WorkplacesGrow(t.workplaces, Unpark(t, scope).workplaces)
  {
  }

  lemma ReleaseHoldsKeeps(t: Tables, scope: HoldScope)
    requires Inv(t)
    ensures Inv(ReleaseHolds(t, scope)) && Grows(t, ReleaseHolds(t, scope))
  {
    hide Covers;
    var n := ReleaseHolds(t, scope);
    assert HoldsOk(n.holds, n.executions) && HoldsGrow(t.holds, n.holds);
  }

  lemma TransactKeeps(t: Tables, step: Step)
    requires Inv(t)
    ensures Inv(Transact(t, step)) && Grows(t, Transact(t, step))
  {
    GrowsReflexive(t);
    hide Inv, Grows, Claim, ActivateRoleTask, MarkRunning, MarkSpawnFailed, ReleaseExecution, AskNeed, Answer, UseCase, Coordinate,
         MarkProgress, SweepRow, RenewLeases, ReleaseHolds, Unpark, Bury, EditCard;
    match step
    case ClaimCard(task, e, worker, machine, now) =>
      if Claim(t, task, e, worker, machine, now).Ok? { ClaimKeeps(t, task, e, worker, machine, now); }
    case ActivateCard(task, ref, role) =>
      if ActivateRoleTask(t, task, ref, role).Ok? { ActivateKeeps(t, task, ref, role); }
    case ProcessStarted(e, pid, token) =>
      if MarkRunning(t, e, pid, token).Ok? { MarkRunningKeeps(t, e, pid, token); }
    case SpawnFailed(e) => MarkSpawnFailedKeeps(t, e);
    case ProcessEnded(e, terminal, preserve) =>
      if !Active(terminal) { ReleaseKeeps(t, e, terminal, preserve); }
    case ToolAsk(task, worker, claimed) =>
      if AskNeed(t, task, worker, claimed).Committed? { AskNeedKeeps(t, task, worker, claimed); }
    case AnswerRequest(task, latest) => AnswerKeeps(t, task, latest);
    case Edit(task, edit) => if EditCard(t, task, edit).Ok? { EditKeeps(t, task, edit); }
    case Conveyor(ref, task, command) =>
      if !command.Reserve? && UseCase(t, ref, task, command).Ok? { UseCaseKeeps(t, ref, task, command); }
    case Gate(ref, event, presenter) =>
      if KernelEvent(event) && Coordinate(t, ref, event, presenter).Ok? { CoordinateKeeps(t, ref, event, presenter); }
    case Progress(e, now) => ProgressKeeps(t, e, now);
    case Supervise(row, probe, host, now) => SweepRowKeeps(t, row, probe, host, now);
    case Renew(project, host, now, ttl, excluded) => RenewKeeps(t, project, host, now, ttl, excluded);
    case Unhold(scope) => ReleaseHoldsKeeps(t, scope);
    case Resume(scope) => UnparkKeeps(t, scope);
    case BuryRuns(dead) => BuryKeeps(t, dead);
    case _ =>
  }

  lemma FenceLeavesVoid(t: Tables, e: ExecutionId, ref: Option<WorkplaceRef>, project: nat)
    requires Inv(t) && e in t.executions
    ensures Fence(t, e, ref, project).Ok?
    ensures
      var f := Fence(t, e, ref, project).value;
      && Inv(f.tables) && Grows(t, f.tables) && Dead(f.tables, e)
      && (f.outcome != AlreadyTerminal ==> Void(f.tables, e))
      && e in f.tables.executions
  {
    FenceKeeps(t, e, ref, project);
    FenceLeaves(t, e, ref, project);
    hide Fence, Inv, Grows;
  }

  lemma FrozenStays(a: Tables, b: Tables, e: ExecutionId)
    requires Inv(a) && Grows(a, b)
    ensures Void(a, e) ==> Dead(a, e) && Void(b, e)
    ensures Dead(a, e) ==> Dead(b, e)
    ensures e in a.executions ==> e in b.executions
  {
  }

  lemma PhaseStepKeeps(t: Tables, e: ExecutionId, ref: Option<WorkplaceRef>, project: nat, phase: StopPhase)
    requires Inv(t) && e in t.executions && (DonePhase(phase) ==> Dead(t, e))
    ensures
      var n := AdvancePhase(t, e, phase);
      Inv(n) && Grows(t, n) && n.executions == t.executions
    ensures
      var n := UpsertStop(t, e, ref, project, phase);
      Inv(n) && Grows(t, n) && n.executions == t.executions
  {
    PhaseKeeps(t, e, ref, project, phase);
  }

  lemma DriveStopKeeps(t: Tables, plan: PlannedStop, stage: Stage, answers: StopAnswers, host: MachineId)
    requires Inv(t) && DriverOk(t, StopDriver(plan, stage))
    ensures
      var n := DriveStop(t, plan, stage, answers, host);
      Inv(n.tables) && Grows(t, n.tables) && (n.next.Some? ==> DriverOk(n.tables, n.next.value))
  {
    hide Inv, Grows, Fence, UpsertStop, AdvancePhase, KillWorkerTree, Dead;
    var e := plan.execution;
    match stage
    case ToRecord => PhaseStepKeeps(t, e, plan.ref, plan.project, Planned);
    case ToBrake => PhaseStepKeeps(t, e, plan.ref, plan.project, EngineBraked);
    case ToFence => FenceLeavesVoid(t, e, plan.ref, plan.project);
    case ToHook =>
      GrowsReflexive(t);
      PhaseStepKeeps(t, e, plan.ref, plan.project, HookSent);
    case ToKill => GrowsReflexive(t);
    case ToMark(phase) =>
      FrozenStays(t, t, e) by { GrowsReflexive(t); }
      PhaseStepKeeps(t, e, plan.ref, plan.project, phase);
  }

  lemma DriveReapKeeps(t: Tables, row: ReapRow, stage: Stage, answers: StopAnswers, host: MachineId)
    requires Inv(t) && DriverOk(t, ReapDriver(row, stage))
    ensures
      var n := DriveReap(t, row, stage, answers, host);
      Inv(n.tables) && Grows(t, n.tables) && (n.next.Some? ==> DriverOk(n.tables, n.next.value))
  {
    var e := row.execution;
    GrowsReflexive(t);
    FenceLeavesVoid(t, e, row.ref, row.project);
    FrozenStays(t, Fence(t, e, row.ref, row.project).value.tables, e);
    if stage.ToMark? {
      PhaseStepKeeps(t, e, row.ref, row.project, stage.phase);
    }
    hide Inv, Grows, Fence, AdvancePhase, ReapVerdict, Void;
  }

  lemma DriveKeeps(t: Tables, driver: Driver, answers: StopAnswers, host: MachineId)
    requires Inv(t) && DriverOk(t, driver)
    ensures
      var n := DriveOne(t, driver, answers, host);
      Inv(n.tables) && Grows(t, n.tables) && (n.next.Some? ==> DriverOk(n.tables, n.next.value))
  {
    hide Inv, Grows, DriveStop, DriveReap, DriverOk;
    match driver
    case StopDriver(plan, stage) => DriveStopKeeps(t, plan, stage, answers, host);
    case ReapDriver(row, stage) => DriveReapKeeps(t, row, stage, answers, host);
  }

  lemma BeginKeeps(w: World, step: Step)
    requires WorldInv(w) && (step.BeginStop? || step.BeginReap?)
    ensures WorldInv(Next(w, step)) && Next(w, step).db == w.db
  {
    hide Inv, Joins, Pending;
    if step.BeginReap? && step.execution in Pending(w.db) {
      PendingIsKnown(w.db, step.execution);
    }
  }

  lemma PendingIsKnown(t: Tables, e: ExecutionId)
    requires e in Pending(t)
    ensures e in t.executions
  {
  }

  /** The completion, merge, artifact, product and evidence tools, which read or write rows outside the tables. */
  lemma OutsideToolsKeep(w: World, step: Step)
    requires WorldInv(w)
    requires step.ToolDone? || step.ToolRelease? || step.ToolAcquire? || step.ToolProduce?
             || step.BeginRecord? || step.CheckRecord? || step.EndRecord?
    ensures WorldInv(Next(w, step)) && Grows(w.db, Next(w, step).db)
  {
    hide Inv, Grows, DriverOk, MergeRelease, MergeAcquire, CardAllows, ActiveFor, WorkerDone;
    if step.ToolRelease? && Reply(w, step).Committed? {
      MergeReleaseKeeps(w.db, w.locks, step.task, step.worker, step.claimed, step.merged);
      DriversStayOk(w, MergeRelease(w.db, w.locks, step.task, step.worker, step.claimed, step.merged).tables);
    } else if step.ToolDone? && Reply(w, step).Committed? {
      WorkerDoneKeeps(w.db, w.commands, step.task, step.worker, step.claimed, step.facts);
      DriversStayOk(w, WorkerDone(w.db, w.commands, step.task, step.worker, step.claimed, step.facts).tables);
    } else {
      IdleToolsKeep(w, step);
    }
  }

  /** A refused call, and the tools that write outside these tables. */
  lemma IdleToolsKeep(w: World, step: Step)
    requires WorldInv(w)
    requires (step.ToolDone? && !Reply(w, step).Committed?) || (step.ToolRelease? && !Reply(w, step).Committed?) || step.ToolAcquire?
             || step.ToolProduce? || step.BeginRecord? || step.CheckRecord? || step.EndRecord?
    ensures WorldInv(Next(w, step)) && Grows(w.db, Next(w, step).db)
  {
    GrowsReflexive(w.db);
    hide Inv, Grows, DriverOk, MergeRelease, MergeAcquire, CardAllows, ActiveFor, WorkerDone;
  }

  /** Every step of every participant keeps the invariant and undoes nothing that is final. */
  lemma NextKeeps(w: World, step: Step)
    requires WorldInv(w)
    ensures WorldInv(Next(w, step)) && Grows(w.db, Next(w, step).db)
  {
    GrowsReflexive(w.db);
    hide Inv, Grows, DriveOne, DriverOk, Transact, Reply, CardAllows, ActiveFor, CommandsOk;
    if step.BeginStop? || step.BeginReap? {
      BeginKeeps(w, step);
    } else if step.ToolDone? || step.ToolRelease? || step.ToolAcquire? || step.ToolProduce?
              || step.BeginRecord? || step.CheckRecord? || step.EndRecord? {
      OutsideToolsKeep(w, step);
    } else if step.Drive? && step.driver in w.drivers {
      var driven := DriveOne(w.db, w.drivers[step.driver], step.answers, step.host);
      DriveKeeps(w.db, w.drivers[step.driver], step.answers, step.host);
      DriversStayOk(w, driven.tables);
    } else if !step.Drive? && !step.Crash? {
      TransactKeeps(w.db, step);
      DriversStayOk(w, Transact(w.db, step));
    }
  }

  lemma DriversStayOk(w: World, n: Tables)
    requires WorldInv(w) && Grows(w.db, n)
    ensures CommandsOk(w.commands, n.receipts) && forall d <- w.drivers :: DriverOk(n, w.drivers[d])
  {
    assert w.db.receipts <= n.receipts;
    hide Inv, Grows, DriverOk;
    forall d <- w.drivers ensures DriverOk(n, w.drivers[d]) {
      DriverStaysOk(w.db, n, w.drivers[d]);
    }
  }

  lemma {:induction false} RunKeeps(w: World, steps: seq<Step>)
    requires WorldInv(w)
    ensures WorldInv(Run(w, steps)) && Grows(w.db, Run(w, steps).db)
    decreases |steps|
  {
    hide WorldInv, Grows, Next;
    if steps == [] {
      GrowsReflexive(w.db);
    } else {
      NextKeeps(w, steps[0]);
      RunKeeps(Next(w, steps[0]), steps[1..]);
      GrowsTransitive(w.db, Next(w, steps[0]).db, Run(w, steps).db);
    }
  }

  /** A factory nobody has been hired in yet. */
  function FreshFactory(workplaces: map<WorkplaceRef, WorkplaceRow>, tasks: map<TaskId, Task>, obligations: map<nat, Obligation>,
                        runs: map<nat, nat>): World
  {
    World(Tables(workplaces, map[], tasks, map[], map[], obligations, runs, {}), map[], map[], {}, map[], map[])
  }

  /** Whatever is run in it, starting from unhired workplaces and cards nobody works on, keeps the invariant. */
  lemma ReachableKeeps(workplaces: map<WorkplaceRef, WorkplaceRow>, tasks: map<TaskId, Task>, obligations: map<nat, Obligation>,
                       runs: map<nat, nat>, steps: seq<Step>)
    requires WorkplacesValid(workplaces) && forall ref <- workplaces :: workplaces[ref].reservation.None?
    requires forall id <- tasks :: tasks[id].current.None?
                                   && (tasks[id].workplace.Some? ==> tasks[id].derived == tasks[id].workplace)
    ensures WorldInv(Run(FreshFactory(workplaces, tasks, obligations, runs), steps))
  {
    RunKeeps(FreshFactory(workplaces, tasks, obligations, runs), steps);
  }
}
