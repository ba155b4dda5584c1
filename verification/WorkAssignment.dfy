/**
 * Claiming a card, the atomic release of an execution, the execution marks and
 * the tool calls a worker makes: every writer of the task fence.
 */
module WorkAssignment {
  import opened Results
  import opened Workplaces
  import opened FactoryTables
  import opened ConveyorRuntimes

  // ---- claim ------------------------------------------------------------------

  const WORKER_LEASE_TTL_MS: nat := 300_000

  /** An unreleased operator hold whose subject is the card's bound workplace or its project. */
  predicate Blocks(hold: Hold, task: Task) {
    && !hold.released
    && (hold.subject.OnWorkplace? ==> task.workplace == Some(hold.subject.ref))
    && (hold.subject.OnProject? ==> task.project == hold.subject.project)
    && !hold.subject.OnExecution?
  }

  predicate DeskFree(t: Tables, ref: WorkplaceRef) {
    ref in t.workplaces &&
    var row := t.workplaces[ref];
    || row.state.loop == Queued
    || ((row.state.loop.Leased? || row.state.loop.Running? || row.state.loop.Verifying?) && !(row.reservation.Some? && Live(t, row.reservation.value)))
  }

  /** The eligibility clauses of the claim query that concern the protocol. */
  predicate Eligible(t: Tables, id: TaskId) {
    id in t.tasks &&
    var task := t.tasks[id];
    && task.assignedTo.None? && task.current.None?
    && (task.status.TaskTodo? || task.status.TaskReview?)
    && (task.workplace.Some? ==> DeskFree(t, task.workplace.value))
    && (forall e <- t.executions :: Active(t.executions[e].state) ==> t.executions[e].task != id)
    && true !in task.requests
    && (forall h <- t.holds :: !Blocks(t.holds[h], task))
  }

  function ClaimedStatus(t: Tables, task: Task): TaskStatus {
    if task.workplace.Some? && task.workplace.value in t.workplaces
       && (t.workplaces[task.workplace.value].state.kanban.Review? || t.workplaces[task.workplace.value].state.kanban.ReviewInProgress?)
    then TaskReviewInProgress
    else if task.status == TaskReview then TaskReviewInProgress else TaskInProgress
  }

  function NewExecution(id: TaskId, project: nat, worker: WorkerId, machine: MachineId, status: TaskStatus, now: Millis): Execution {
    Execution(id, project, worker, machine, ExecReserved,
              if status == TaskReviewInProgress then Reviewing else Executing,
              None, None, false, false, 0, Some(StuckActive),
              Clocks(now, now + WORKER_LEASE_TTL_MS, now, now, 0, 0, now))
  }

  /** The two partial unique indexes on active executions, and the primary key. */
  predicate InsertAllowed(t: Tables, e: ExecutionId, row: Execution) {
    && e !in t.executions
    && (forall x <- t.executions :: Active(t.executions[x].state) ==>
          t.executions[x].task != row.task && t.executions[x].worker != row.worker)
  }

  /** Create the derived workplace in its initial state when it does not exist yet. */
  function Materialize(t: Tables, ref: WorkplaceRef, processRun: nat): Tables {
    if ref in t.workplaces then t
    else t.(workplaces := t.workplaces[ref := WorkplaceRow(INITIAL, None, None, None, processRun)])
  }

  /** A card already in review brings a fresh workplace to review/queued. */
  function SyncReview(t: Tables, ref: WorkplaceRef, review: bool): Result<Transition>
    requires ref in t.workplaces
  {
    var s := t.workplaces[ref].state;
    if !Valid(s) then Err("WORKPLACE_STATE_CORRUPT")
    else if s.kanban == Todo && s.loop == Idle && review
    then ApplyTransition(t, ref, s.revision, WorkplaceState(Review, Queued, Reviewer, 0, None), None, None)
    else Ok(Transition(false, t))
  }

  function BindCard(t: Tables, id: TaskId, ref: WorkplaceRef): Tables {
    if id in t.tasks && t.tasks[id].workplace.None?
    then t.(tasks := t.tasks[id := t.tasks[id].(workplace := Some(ref))]) else t
  }

  /** Materialize the derived workplace, sync a review card, bind the card. None: the card derives no workplace. */
  function BindTask(t: Tables, id: TaskId, review: bool): Result<Option<Tables>>
    requires id in t.tasks
  {
    if t.tasks[id].derived.None? then Ok(None)
    else
      var ref := t.tasks[id].derived.value;
      match SyncReview(Materialize(t, ref, t.tasks[id].processRun), ref, review)
      case Err(e) => Err(e)
      case Ok(tr) => Ok(Some(BindCard(tr.tables, id, ref)))
  }

  /** The card fenced by its new execution row. */
  function HireCard(t: Tables, id: TaskId, e: ExecutionId, worker: WorkerId, machine: MachineId, now: Millis): Tables
    requires id in t.tasks
  {
    var status := ClaimedStatus(t, t.tasks[id]);
    t.(tasks := t.tasks[id := t.tasks[id].(status := status, assignedTo := Some(worker), current := Some(e))],
       executions := t.executions[e := NewExecution(id, t.tasks[id].project, worker, machine, status, now)])
  }

  /** Claim, insert the execution and lease the workplace: one immediate transaction. */
  function Claim(t: Tables, id: TaskId, e: ExecutionId, worker: WorkerId, machine: MachineId, now: Millis): Result<Tables> {
    if !Eligible(t, id) then Err("queue_empty")
    else
      var status := ClaimedStatus(t, t.tasks[id]);
      var row := NewExecution(id, t.tasks[id].project, worker, machine, status, now);
      if !InsertAllowed(t, e, row) then Err("SQLITE_CONSTRAINT")
      else
        match BindTask(HireCard(t, id, e, worker, machine, now), id, status == TaskReviewInProgress)
        case Err(err) => Err(err)
        case Ok(None) => Ok(HireCard(t, id, e, worker, machine, now))
        case Ok(Some(bound)) =>
          match UseCase(bound, t.tasks[id].derived.value, id, Reserve(e))
          case Err(err) => Err(err)
          case Ok(tr) => Ok(tr.tables)
  }

  /** Publish the one claimable card of a workplace role; other cards of the desk are closed. */
  function ActivateRoleTask(t: Tables, id: TaskId, ref: WorkplaceRef, role: Role): Result<Tables> {
    if id !in t.tasks then Err("PROJECTED_TASK_NOT_FOUND")
    else
      var closed := map k <- t.tasks ::
        if t.tasks[k].workplace == Some(ref) && k != id
        then t.tasks[k].(status := TaskDone, assignedTo := None, current := None) else t.tasks[k];
      Ok(t.(tasks := closed[id := t.tasks[id].(
        workplace := Some(ref), derived := Some(ref),
        status := if role == Reviewer then TaskReview else TaskTodo, assignedTo := None, current := None)]))
  }

  // ---- atomic release -----------------------------------------------------------

  function RestoredStatus(task: Task): TaskStatus {
    match task.status
    case TaskInProgress => TaskTodo
    case TaskReviewInProgress => TaskReview
    case TaskDone => if task.integration == IntegrationPending then TaskReview else TaskDone
    case other => other
  }

  predicate FailedState(state: ExecutionState) {
    state.ExecLost? || state.ExecSpawnFailed? || state.ExecTerminated?
  }

  function FailedAttempts(t: Tables, id: TaskId): set<ExecutionId> {
    set e | e in t.executions && t.executions[e].task == id && FailedState(t.executions[e].state)
  }

  predicate RetryExhausted(t: Tables, id: TaskId)
    requires id in t.tasks
  {
    t.tasks[id].retryBudget.Some? && |FailedAttempts(t, id)| + 1 > t.tasks[id].retryBudget.value
  }

  datatype Release = Release(tables: Tables, terminalized: bool, taskReleased: bool)

  function WriteTerminal(t: Tables, e: ExecutionId, terminal: ExecutionState): Tables {
    if Live(t, e) then t.(executions := t.executions[e := t.executions[e].(state := terminal)]) else t
  }

  function ClearFence(t: Tables, id: TaskId, status: TaskStatus): Tables
    requires id in t.tasks
  {
    t.(tasks := t.tasks[id := t.tasks[id].(status := status, assignedTo := None, current := None)])
  }

  /** `releaseExecutionAtomically`: terminalize an active execution and release its task fence. */
  function ReleaseExecution(t: Tables, e: ExecutionId, terminal: ExecutionState, preserve: Option<bool>): Release {
    if e !in t.executions then Release(t, false, false)
    else
      var id := t.executions[e].task;
      if id !in t.tasks then Release(WriteTerminal(t, e, terminal), Live(t, e), false)
      else if !Live(t, e) then
        if t.tasks[id].current == Some(e) && e in t.receipts
        then Release(ClearFence(t, id, t.tasks[id].status), false, true)
        else Release(t, false, false)
      else if t.tasks[id].current != Some(e) || t.tasks[id].needsHuman then Release(WriteTerminal(t, e, terminal), true, false)
      else
        var keep := if preserve.Some? then preserve.value else e in t.receipts;
        var status := if keep then t.tasks[id].status
                      else if RetryExhausted(t, id) then TaskBlocked else RestoredStatus(t.tasks[id]);
        Release(ClearFence(WriteTerminal(t, e, terminal), id, status), true, true)
  }

  /** The active execution ends; its card is handed back while it still fences it and no human is waited for. */
  method ReleaseActive(db: FactoryDb, e: ExecutionId, terminal: ExecutionState, preserve: Option<bool>) returns (released: bool)
    requires Live(db.Rows(), e)
    modifies db
    ensures Release(db.Rows(), true, released) == ReleaseExecution(old(db.Rows()), e, terminal, preserve)
  {
    hide RetryExhausted, RestoredStatus;
    var id := db.executions[e].task;
    released := false;
    var status := TaskTodo;
    var fenced := id in db.tasks && db.tasks[id].current == Some(e) && !db.tasks[id].needsHuman;
    if fenced {
      var keep := if preserve.Some? then preserve.value else e in db.receipts;
      status := if keep then db.tasks[id].status
                else if RetryExhausted(db.Rows(), id) then TaskBlocked else RestoredStatus(db.tasks[id]);
    }
    db.executions := db.executions[e := db.executions[e].(state := terminal)];
    if fenced {
      db.tasks := db.tasks[id := db.tasks[id].(status := status, assignedTo := None, current := None)];
      released := true;
    }
  }

  method ReleaseExecutionAtomically(db: FactoryDb, e: ExecutionId, terminal: ExecutionState, preserve: Option<bool>)
    returns (terminalized: bool, released: bool)
    modifies db
    ensures Release(db.Rows(), terminalized, released) == ReleaseExecution(old(db.Rows()), e, terminal, preserve)
  {
    hide RetryExhausted, RestoredStatus;
    terminalized, released := false, false;
    if e !in db.executions {
      return;
    }
    var id := db.executions[e].task;
    var live := Active(db.executions[e].state);
    if id in db.tasks && !live {
      if db.tasks[id].current == Some(e) && e in db.receipts {
        db.tasks := db.tasks[id := db.tasks[id].(assignedTo := None, current := None)];
        released := true;
      }
      return;
    }
    if !live {
      return;
    }
    released := ReleaseActive(db, e, terminal, preserve);
    terminalized := true;
  }

  // ---- execution marks ------------------------------------------------------------

  function MarkRunning(t: Tables, e: ExecutionId, pid: Option<Pid>, token: Option<nat>): Result<Tables> {
    if pid.Some? && token.None? then Err("process birth identity is unavailable")
    else if !(e in t.executions && t.executions[e].state == ExecReserved) then Err("reservation is missing or no longer active")
    else Ok(t.(executions := t.executions[e := t.executions[e].(state := ExecRunning, pid := pid, birthToken := token, started := true)]))
  }

  function MarkSpawnFailed(t: Tables, e: ExecutionId): Tables {
    if e in t.executions && (t.executions[e].state.ExecReserved? || t.executions[e].state.ExecRunning?)
    then t.(executions := t.executions[e := t.executions[e].(state := ExecSpawnFailed)]) else t
  }

  method MarkExecutionRunning(db: FactoryDb, e: ExecutionId, pid: Option<Pid>, token: Option<nat>) returns (r: Result<()>)
    modifies db
    ensures match MarkRunning(old(db.Rows()), e, pid, token)
            case Err(_) => r.Err? && db.Rows() == old(db.Rows())
            case Ok(t) => r.Ok? && db.Rows() == t
  {
    if pid.Some? && token.None? {
      return Err("process birth identity is unavailable");
    }
    if !(e in db.executions && db.executions[e].state == ExecReserved) {
      return Err("reservation is missing or no longer active");
    }
    db.executions := db.executions[e := db.executions[e].(state := ExecRunning, pid := pid, birthToken := token, started := true)];
    r := Ok(());
  }

  method MarkExecutionSpawnFailed(db: FactoryDb, e: ExecutionId)
    modifies db
    ensures db.Rows() == MarkSpawnFailed(old(db.Rows()), e)
  {
    if e in db.executions && (db.executions[e].state.ExecReserved? || db.executions[e].state.ExecRunning?) {
      db.executions := db.executions[e := db.executions[e].(state := ExecSpawnFailed)];
    }
  }

  // ---- tool calls of a worker -------------------------------------------------------

  /** Denied: the merge lock is taken; nothing is written. */
  datatype ToolReply = Committed(tables: Tables) | Replayed | Denied | Refused(reason: string)

  /** `assertExecutionNotVoided`: only a durable void marker on the presented identity refuses. */
  predicate PassesVoidFence(t: Tables, claimed: Option<ExecutionId>) {
    claimed.Some? ==> !Void(t, claimed.value)
  }

  /** `assertExecutionFence`: a fenced task accepts only its own, still active execution. */
  predicate PassesTaskFence(t: Tables, id: TaskId, claimed: Option<ExecutionId>)
    requires id in t.tasks
  {
    var current := t.tasks[id].current;
    current.Some? ==> claimed == current && Live(t, current.value) && t.executions[current.value].task == id
  }

  /** The call's payload digest and verdict, the commitment of a kernel close, and facts from tables outside the model. */
  datatype DoneFacts = DoneFacts(
    payload: nat,
    approved: bool,
    commitment: Option<nat>,
    productSubmitted: bool,
    submissionValid: bool,
    onChanges: TaskStatus)

  function DoneKey(e: ExecutionId, facts: DoneFacts): CommandKey {
    if facts.commitment.Some? then CloseCommand(e, facts.commitment.value) else DoneCommand(e, facts.approved)
  }

  /** The kernel has closed the presentation of this execution. */
  predicate ClosedBefore(commands: Commands, e: ExecutionId) {
    exists k <- commands :: k.CloseCommand? && commands[k].fencedBy == Some(e)
  }

  /** The stored reply answers: after a kernel close, or for the same command with the same payload. */
  predicate Replays(commands: Commands, e: ExecutionId, facts: DoneFacts) {
    || (facts.commitment.None? && ClosedBefore(commands, e))
    || (DoneKey(e, facts) in commands && commands[DoneKey(e, facts)].payload == facts.payload)
  }

  function DoneStatus(task: Task, facts: DoneFacts): Option<TaskStatus> {
    match task.status
    case TaskInProgress => Some(if task.reviewSkill then TaskReview else TaskDone)
    case TaskReviewInProgress =>
      if facts.approved then Some(TaskDone)
      else Some(if facts.onChanges.TaskDone? || facts.onChanges.TaskBlocked? then facts.onChanges else TaskTodo)
    case _ => None
  }

  function FinishTask(task: Task, status: TaskStatus): Task {
    if status != TaskDone then task
    else task.(needsHuman := false, integration := if task.gitChange then IntegrationPending else NotRequired)
  }

  function FinishPhase(t: Tables, id: TaskId, worker: WorkerId, claimed: Option<ExecutionId>, integrating: bool): Tables {
    if claimed.Some? && Live(t, claimed.value) && t.executions[claimed.value].task == id
       && t.executions[claimed.value].worker == worker
    then t.(executions := t.executions[claimed.value := t.executions[claimed.value].(phase := if integrating then Integrating else Finishing)])
    else t
  }

  /** The worker_done transaction: void fence, identity, stored replies, then the completion itself. */
  function WorkerDone(t: Tables, commands: Commands, id: TaskId, worker: WorkerId, claimed: Option<ExecutionId>, facts: DoneFacts): ToolReply {
    if !PassesVoidFence(t, claimed) then Refused("WORKER_EXECUTION_VOIDED")
    else if claimed.None? then Refused("EXECUTION_FENCE_REQUIRED")
    else if Replays(commands, claimed.value, facts) then Replayed
    else if DoneKey(claimed.value, facts) in commands then Refused("IDEMPOTENCY_KEY_REUSED")
    else Complete(t, id, worker, claimed.value, facts)
  }

  function Complete(t: Tables, id: TaskId, worker: WorkerId, e: ExecutionId, facts: DoneFacts): ToolReply {
    if id !in t.tasks || t.tasks[id].assignedTo != Some(worker) then Refused("not assigned")
    else if !PassesTaskFence(t, id, Some(e)) then Refused("fenced")
    else
      var task := t.tasks[id];
      if !facts.productSubmitted || (task.status == TaskInProgress && !facts.submissionValid) then Refused("submission")
      else if DoneStatus(task, facts).None? then Refused("nothing to complete")
      else
        var status := DoneStatus(task, facts).value;
        var moved := t.(tasks := t.tasks[id := task.(status := status, assignedTo := None)]);
        var released := if task.derived.None? then Ok(Transition(false, moved))
                        else UseCase(moved, task.derived.value, id, ReleaseShift(e, Completed));
        match released
        case Err(err) => Refused(err)
        case Ok(tr) =>
          var finished := tr.tables.(tasks := tr.tables.tasks[id := FinishTask(tr.tables.tasks[id], status)]);
          var phased := FinishPhase(finished, id, worker, Some(e),
                                    status == TaskDone && task.gitChange && task.integration == IntegrationPending);
          Committed(phased.(receipts := phased.receipts + (if task.current.Some? then {task.current.value} else {})))
  }

  /** A further request is opened on the card. */
  function AskedCard(t: Tables, id: TaskId): Tables
    requires id in t.tasks
  {
    t.(tasks := t.tasks[id := t.tasks[id].(requests := t.tasks[id].requests + [true])])
  }

  /**
   * worker_ask_done, which asks for no identity. `latest` is the request the
   * query returns, the newest one up to ties within a second: answered if still
   * open, and the card's tag is cleared then, or when it never had a request.
   */
  function Answer(t: Tables, id: TaskId, latest: nat): Tables {
    if id !in t.tasks then t else t.(tasks := t.tasks[id := AnsweredCard(t.tasks[id], latest)])
  }

  function AnsweredCard(task: Task, latest: nat): Task {
    if task.requests == [] then task.(needsHuman := false)
    else if latest < |task.requests| && task.requests[latest]
    then task.(requests := task.requests[latest := false], needsHuman := false)
    else task
  }

  /** The worker_ask_need transaction: park the card for a human and end the shift. */
  function AskNeed(t: Tables, id: TaskId, worker: WorkerId, claimed: Option<ExecutionId>): ToolReply {
    if id !in t.tasks || t.tasks[id].assignedTo != Some(worker) then Refused("not assigned")
    else if !PassesTaskFence(t, id, claimed) then Refused("fenced")
    else if !PassesVoidFence(t, if claimed.Some? then claimed else t.tasks[id].current) then Refused("WORKER_EXECUTION_VOIDED")
    else
      var asked := AskedCard(t, id);
      var released := if t.tasks[id].current.Some?
                      then ReleaseExecution(asked, t.tasks[id].current.value, ExecExited, None).tables
                      else asked.(tasks := asked.tasks[id := asked.tasks[id].(assignedTo := None)]);
      Committed(released.(tasks := released.tasks[id := released.tasks[id].(needsHuman := true)]))
  }

  const MERGE_LOCK_STALE_MS: nat := 600_000

  /** The lock's worker still has an active execution with a process, and that process answers as alive. */
  predicate HolderAlive(t: Tables, lock: MergeLock, alive: bool) {
    alive && exists e <- t.executions :: Live(t, e) && t.executions[e].worker == lock.worker && t.executions[e].pid.Some?
  }

  /** No lock, or a stale one whose holder is dead. */
  predicate LockFree(t: Tables, locks: MergeLocks, scope: MergeScope, now: Millis, alive: bool) {
    scope in locks ==> now > locks[scope].acquiredAt + MERGE_LOCK_STALE_MS && !HolderAlive(t, locks[scope], alive)
  }

  /** worker_merge_acquire: only a finished card takes the lock. */
  function MergeAcquire(t: Tables, locks: MergeLocks, id: TaskId, claimed: Option<ExecutionId>, now: Millis, alive: bool): ToolReply {
    if id !in t.tasks || t.tasks[id].status != TaskDone then Refused("not done")
    else if !PassesTaskFence(t, id, claimed) then Refused("fenced")
    else if !PassesVoidFence(t, if claimed.Some? then claimed else t.tasks[id].current) then Refused("WORKER_EXECUTION_VOIDED")
    else if !LockFree(t, locks, ScopeOf(t.tasks[id]), now, alive) then Denied
    else Committed(t)
  }

  /** What a committed acquire leaves; the stored time counts seconds. */
  function AcquiredLocks(t: Tables, locks: MergeLocks, id: TaskId, worker: WorkerId, now: Millis): MergeLocks
    requires id in t.tasks
  {
    locks[ScopeOf(t.tasks[id]) := MergeLock(id, worker, now - now % 1000)]
  }

  predicate HoldsLock(t: Tables, locks: MergeLocks, id: TaskId, worker: WorkerId)
    requires id in t.tasks
  {
    var scope := ScopeOf(t.tasks[id]);
    scope in locks && locks[scope].task == id && locks[scope].worker == worker
  }

  function MergedCard(task: Task, merged: bool): Task {
    task.(integration := if merged then Merged else Conflict, needsHuman := !merged)
  }

  /** worker_merge_release: whatever the card's status, its lock holder records the outcome. */
  function MergeRelease(t: Tables, locks: MergeLocks, id: TaskId, worker: WorkerId, claimed: Option<ExecutionId>, merged: bool): ToolReply {
    if id !in t.tasks then Refused("not found")
    else if !PassesTaskFence(t, id, claimed) then Refused("fenced")
    else if !PassesVoidFence(t, if claimed.Some? then claimed else t.tasks[id].current) then Refused("WORKER_EXECUTION_VOIDED")
    else if !HoldsLock(t, locks, id, worker) then Refused("not the lock holder")
    else
      var recorded := t.(tasks := t.tasks[id := MergedCard(t.tasks[id], merged)]);
      Committed(FinishPhase(recorded, id, worker, claimed, false))
  }

  /** The artifact, trace and product tools: the void fence and the write in one transaction; `accepted` stands for their other checks, what they write is outside these tables. */
  function Produce(t: Tables, claimed: Option<ExecutionId>, accepted: bool): ToolReply {
    if !PassesVoidFence(t, claimed) then Refused("WORKER_EXECUTION_VOIDED")
    else if !accepted then Refused("not accepted")
    else Committed(t)
  }

  // ---- verification_record ----------------------------------------------------------

  /** What it decides on the card row it read: the presented identity, and the holder of an active card. */
  predicate CardAllows(t: Tables, id: TaskId, worker: WorkerId, claimed: Option<ExecutionId>) {
    && id in t.tasks && (t.tasks[id].current.Some? ==> claimed == t.tasks[id].current)
    && t.tasks[id].assignedTo == Some(worker)
    && (t.tasks[id].status.TaskInProgress? || t.tasks[id].status.TaskReviewInProgress?)
  }

  /** What it asks next of a fenced card: that the execution is still active. There is no void fence, and no transaction around these reads and the write. */
  predicate ActiveFor(t: Tables, e: ExecutionId, id: TaskId) {
    Live(t, e) && t.executions[e].task == id
  }

  /** Both reads on one state. */
  predicate EvidenceAllowed(t: Tables, id: TaskId, worker: WorkerId, claimed: Option<ExecutionId>) {
    CardAllows(t, id, worker, claimed) && (t.tasks[id].current.Some? ==> ActiveFor(t, claimed.value, id))
  }

  // ---- task_update --------------------------------------------------------------------

  /** What a caller may set; `manual` is the operator's switch, `recovery` the recovery agents' flag. */
  datatype CardEdit = CardEdit(
    assignee: Option<Option<WorkerId>>,
    status: Option<TaskStatus>,
    needsHuman: Option<bool>,
    reviewSkill: Option<bool>,
    gitChange: Option<bool>,
    repository: Option<Option<nat>>,
    manual: bool,
    recovery: bool)

  function Or<T>(edit: Option<T>, was: T): T {
    if edit.Some? then edit.value else was
  }

  /** A waiting status clears the assignee even when the status itself is then ignored. */
  function EditedCard(task: Task, edit: CardEdit): Task {
    var waiting := edit.status.Some? && (edit.status.value.TaskTodo? || edit.status.value.TaskReview?
                                         || edit.status.value.TaskDone? || edit.status.value.TaskBlocked?);
    task.(assignedTo := if waiting then None else Or(edit.assignee, task.assignedTo),
          status := if edit.manual || edit.recovery then Or(edit.status, task.status) else task.status,
          needsHuman := Or(edit.needsHuman, task.needsHuman),
          reviewSkill := Or(edit.reviewSkill, task.reviewSkill),
          gitChange := Or(edit.gitChange, task.gitChange),
          repository := Or(edit.repository, task.repository))
  }

  /** task_update: only the assignee of a fenced card is protected. */
  function EditCard(t: Tables, id: TaskId, edit: CardEdit): Result<Tables> {
    if id !in t.tasks then Err("not found")
    else if edit.assignee.Some? && t.tasks[id].current.Some? && !edit.manual then Err("fenced")
    else Ok(t.(tasks := t.tasks[id := EditedCard(t.tasks[id], edit)]))
  }
}
