/**
 * The rows of the shared factory database, as far as the hire, fence and stop
 * protocol reads or writes them. A table is a map from its primary key.
 */
module FactoryTables {
  import opened Results
  import opened Workplaces

  type ExecutionId = nat
  type TaskId = nat
  type WorkerId = nat
  type MachineId = nat
  type Pid = nat
  type Millis = nat
  type WorkplaceRef = string

  // ---- worker_executions ----------------------------------------------------

  datatype ExecutionState =
    | ExecReserved | ExecRunning | ExecCancelRequested
    | ExecExited | ExecSpawnFailed | ExecLost | ExecTerminated

  datatype ExecutionPhase = Executing | Reviewing | Finishing | Integrating

  datatype StuckState = StuckActive | SuspectedStuck | CancelRequested

  /** Supervision columns; 0 stands for a NULL timestamp, as the time parser reads it. */
  datatype Clocks = Clocks(
    reservedAt: Millis,
    leaseExpiresAt: Millis,
    heartbeatAt: Millis,
    progressAt: Millis,
    suspectedAt: Millis,
    cancelRequestedAt: Millis,
    phaseUpdatedAt: Millis)

  datatype Execution = Execution(
    task: TaskId,
    project: nat,
    worker: WorkerId,
    machine: MachineId,
    state: ExecutionState,
    phase: ExecutionPhase,
    pid: Option<Pid>,
    birthToken: Option<nat>,
    started: bool,
    voided: bool,
    stopFence: nat,
    stuck: Option<StuckState>,
    clocks: Clocks)

  predicate Active(state: ExecutionState) {
    state.ExecReserved? || state.ExecRunning? || state.ExecCancelRequested?
  }

  // ---- tasks ------------------------------------------------------------------

  datatype TaskStatus =
    | TaskTodo | TaskInProgress | TaskReview | TaskReviewInProgress
    | TaskBlocked | TaskDone | TaskFailed | TaskCancelled

  datatype Integration = NotRequired | IntegrationPending | Merged | Conflict

  datatype Task = Task(
    status: TaskStatus,
    assignedTo: Option<WorkerId>,
    current: Option<ExecutionId>,
    /** The bound workplace column, and the workplace the task metadata derives. */
    workplace: Option<WorkplaceRef>,
    derived: Option<WorkplaceRef>,
    processRun: nat,
    project: nat,
    needsHuman: bool,
    /** Human requests in the order they were opened, each still open or answered. */
    requests: seq<bool>,
    reviewSkill: bool,
    gitChange: bool,
    integration: Integration,
    /** Retry budget of the work intent, for a task of a production cell. */
    retryBudget: Option<nat>,
    /** The repository whose merge lock the card takes; without one it is the project's. */
    repository: Option<nat>)

  // ---- merge locks -----------------------------------------

  datatype MergeScope = OfRepository(repository: nat) | OfProject(project: nat)

  datatype MergeLock = MergeLock(task: TaskId, worker: WorkerId, acquiredAt: Millis)

  /** Kept in the metadata of repositories and projects; only the merge tools look at them. */
  type MergeLocks = map<MergeScope, MergeLock>

  // ---- completion commands ---------------------------------------------------------

  /** The key of a completion: execution and verdict, or execution and commitment for the kernel's own close. */
  datatype CommandKey =
    | DoneCommand(execution: ExecutionId, approved: bool)
    | CloseCommand(execution: ExecutionId, commitment: nat)

  /** An accepted command: the digest of its payload, and the execution that fenced the card. */
  datatype Receipt = Receipt(payload: nat, fencedBy: Option<ExecutionId>)

  type Commands = map<CommandKey, Receipt>

  function ScopeOf(task: Task): MergeScope {
    if task.repository.Some? then OfRepository(task.repository.value) else OfProject(task.project)
  }

  // ---- factory_workplaces, stops, holds, obligations --------------------------

  datatype WorkplaceRow = WorkplaceRow(
    state: WorkplaceState,
    reservation: Option<ExecutionId>,
    gate: Option<nat>,
    recoveryCase: Option<nat>,
    processRun: nat)

  datatype StopPhase =
    | Planned | EngineBraked | Fenced | Detached | HookSent | Killed | Reaped | Checkpointed | Abandoned

  /** Phases the boot reaper treats as converged. */
  predicate DonePhase(phase: StopPhase) {
    phase.Killed? || phase.Reaped? || phase.Checkpointed? || phase.Abandoned?
  }

  datatype Stop = Stop(phase: StopPhase, workplace: Option<WorkplaceRef>, project: nat)

  datatype Subject = OnWorkplace(ref: WorkplaceRef) | OnExecution(execution: ExecutionId) | OnProject(project: nat)

  /** An execution is fenced at most once, so its id names the hold that fence inserts. */
  datatype HoldRef = FenceHold(execution: ExecutionId) | OtherHold(id: nat)

  datatype Hold = Hold(subject: Subject, released: bool)

  datatype ObligationState = ObligationPending | ObligationInProgress | ObligationCompleted | ObligationFailed

  datatype Obligation = Obligation(subject: string, source: string, state: ObligationState, leased: bool, leaseFence: nat)

  datatype Tables = Tables(
    workplaces: map<WorkplaceRef, WorkplaceRow>,
    executions: map<ExecutionId, Execution>,
    tasks: map<TaskId, Task>,
    stops: map<ExecutionId, Stop>,
    holds: map<HoldRef, Hold>,
    obligations: map<nat, Obligation>,
    /** Process run to project. */
    runs: map<nat, nat>,
    /** Executions with an accepted completion receipt. */
    receipts: set<ExecutionId>)

  predicate Live(t: Tables, e: ExecutionId) {
    e in t.executions && Active(t.executions[e].state)
  }

  predicate Dead(t: Tables, e: ExecutionId) {
    e in t.executions && !Active(t.executions[e].state)
  }

  predicate Void(t: Tables, e: ExecutionId) {
    e in t.executions && t.executions[e].voided
  }

  /** Every persisted workplace row passes the boundary check. */
  predicate WorkplacesValid(workplaces: map<WorkplaceRef, WorkplaceRow>) {
    forall ref <- workplaces :: Valid(workplaces[ref].state)
  }

  /** The open database: its tables are updated in place. */
  class FactoryDb {
    var workplaces: map<WorkplaceRef, WorkplaceRow>
    var executions: map<ExecutionId, Execution>
    var tasks: map<TaskId, Task>
    var stops: map<ExecutionId, Stop>
    var holds: map<HoldRef, Hold>
    var obligations: map<nat, Obligation>
    var runs: map<nat, nat>
    var receipts: set<ExecutionId>

    function Rows(): Tables
      reads this
    {
      Tables(workplaces, executions, tasks, stops, holds, obligations, runs, receipts)
    }

    /** ROLLBACK of a failed transaction: every table is what it was. */
    method Restore(t: Tables)
      modifies this
      ensures Rows() == t
    {
      workplaces, executions, tasks := t.workplaces, t.executions, t.tasks;
      stops, holds, obligations, runs, receipts := t.stops, t.holds, t.obligations, t.runs, t.receipts;
    }
  }
}
