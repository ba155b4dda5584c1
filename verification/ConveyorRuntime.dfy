/**
 * The workplace repository's compare-and-set and the use cases of the conveyor
 * runtime on top of it: reserve, release, reject, requeue, pause.
 */
module ConveyorRuntimes {
  import opened Results
  import opened Workplaces
  import opened FactoryTables

  // ---- the repository ---------------------------------------------------------

  datatype Transition = Transition(applied: bool, tables: Tables)

  /** Validate the target, compare the revision, then write with revision + 1. */
  function ApplyTransition(t: Tables, ref: WorkplaceRef, expected: nat, target: WorkplaceState,
                           reservation: Option<ExecutionId>, recoveryCase: Option<nat>): Result<Transition>
  {
    var next := target.(revision := expected + 1);
    if !Valid(next) then Err("REG-28 violation")
    else if ref !in t.workplaces then Err("WORKPLACE_NOT_FOUND")
    else if t.workplaces[ref].state.revision != expected then Ok(Transition(false, t))
    else
      var row := t.workplaces[ref].(state := next, reservation := reservation, gate := None, recoveryCase := recoveryCase);
      Ok(Transition(true, t.(workplaces := t.workplaces[ref := row])))
  }

  function StatusFor(kanban: KanbanPhase): TaskStatus {
    match kanban
    case Todo => TaskTodo
    case InProgress => TaskInProgress
    case Review => TaskReview
    case ReviewInProgress => TaskReviewInProgress
    case Blocked => TaskBlocked
    case Done | FailedPhase | CancelledPhase => TaskDone
  }

  /** The one-way projection of the Kanban phase into the card's status column. */
  function ReverseProject(t: Tables, task: TaskId, kanban: KanbanPhase): Tables {
    if task in t.tasks then t.(tasks := t.tasks[task := t.tasks[task].(status := StatusFor(kanban))]) else t
  }

  // ---- use cases --------------------------------------------------------------

  datatype Outcome = Completed | Crashed | Expired | CancelledShift

  datatype Command =
    | Reserve(reservation: ExecutionId)
    | ReleaseShift(reservation: ExecutionId, outcome: Outcome)
    | RejectIncomplete(role: Role)
    | Requeue(role: Role)
    | Pause(reason: Option<nat>)

  /** What a use case decides after reading the current row. */
  datatype Plan = Keep | Move(target: WorkplaceState, reservation: Option<ExecutionId>, recoveryCase: Option<nat>)

  function MoveBy(s: WorkplaceState, event: Event, reservation: Option<ExecutionId>, recoveryCase: Option<nat>): Result<Plan> {
    match Reduce(s, event)
    case Err(e) => Err(e)
    case Ok(n) => Ok(Move(n, reservation, recoveryCase))
  }

  function PlanReserve(row: WorkplaceRow, reservation: ExecutionId): Result<Plan> {
    var admitted := if row.state.kanban == Todo && row.state.loop == Idle then Reduce(row.state, WorkAdmitted) else Ok(row.state);
    match admitted
    case Err(e) => Err(e)
    case Ok(s) =>
      if s.loop == Queued then
        match Reduce(s, WorkerLeased)
        case Err(e) => Err(e)
        case Ok(leased) => MoveBy(leased, WorkerStarted, Some(reservation), None)
      else if s.loop == Leased || s.loop == Running then Ok(Keep)
      else Ok(Move(s, Some(reservation), None))
  }

  function PlanRelease(row: WorkplaceRow, reservation: ExecutionId, outcome: Outcome): Result<Plan> {
    if row.reservation != Some(reservation) then Err("FENCE_MISMATCH")
    else match outcome
      case Completed => MoveBy(row.state, CandidateSealed, Some(reservation), None)
      case Crashed | Expired => MoveBy(row.state, WorkerCrashed, None, None)
      case CancelledShift => MoveBy(row.state, AuthorizedCancel, None, None)
  }

  function PlanFor(row: WorkplaceRow, command: Command): Result<Plan> {
    match command
    case Reserve(reservation) => PlanReserve(row, reservation)
    case ReleaseShift(reservation, outcome) => PlanRelease(row, reservation, outcome)
    case RejectIncomplete(role) => MoveBy(row.state, GateRepairRequired(role), None, None)
    case Requeue(role) => MoveBy(row.state, RepairRequeued(role), None, None)
    case Pause(reason) => MoveBy(row.state, HumanRequired, None, reason)
  }

  /** One use case as one transaction: read, plan, compare-and-set, project. */
  function UseCase(t: Tables, ref: WorkplaceRef, task: TaskId, command: Command): Result<Transition> {
    if ref !in t.workplaces then Err("WORKPLACE_NOT_FOUND")
    else if !Valid(t.workplaces[ref].state) then Err("WORKPLACE_STATE_CORRUPT")
    else
      var row := t.workplaces[ref];
      match PlanFor(row, command)
      case Err(e) => Err(e)
      case Ok(Keep) => Ok(Transition(false, ReverseProject(t, task, row.state.kanban)))
      case Ok(Move(target, reservation, recoveryCase)) =>
        match ApplyTransition(t, ref, row.state.revision, target, reservation, recoveryCase)
        case Err(e) => Err(e)
        case Ok(tr) => Ok(Transition(tr.applied, ReverseProject(tr.tables, task, tr.tables.workplaces[ref].state.kanban)))
  }

  class ConveyorRuntime {
    const db: FactoryDb

    constructor (db: FactoryDb)
      ensures this.db == db
    {
      this.db := db;
    }

    method ApplyTransitionInTx(ref: WorkplaceRef, expected: nat, target: WorkplaceState,
                               reservation: Option<ExecutionId>, recoveryCase: Option<nat>) returns (r: Result<bool>)
      modifies db
      ensures match ApplyTransition(old(db.Rows()), ref, expected, target, reservation, recoveryCase)
              case Err(e) => r == Err(e) && db.Rows() == old(db.Rows())
              case Ok(tr) => r == Ok(tr.applied) && db.Rows() == tr.tables
    {
      var next := target.(revision := expected + 1);
      if !Valid(next) {
        return Err("REG-28 violation");
      }
      if ref !in db.workplaces {
        return Err("WORKPLACE_NOT_FOUND");
      }
      if db.workplaces[ref].state.revision != expected {
        return Ok(false);
      }
      db.workplaces := db.workplaces[ref := db.workplaces[ref].(
        state := next, reservation := reservation, gate := None, recoveryCase := recoveryCase)];
      r := Ok(true);
    }

    /** BEGIN IMMEDIATE ... COMMIT around one planned transition; a throw rolls back. */
    method Atomically(ref: WorkplaceRef, task: TaskId, command: Command) returns (r: Result<bool>)
      modifies db
      ensures match UseCase(old(db.Rows()), ref, task, command)
              case Err(e) => r == Err(e) && db.Rows() == old(db.Rows())
              case Ok(tr) => r == Ok(tr.applied) && db.Rows() == tr.tables
    {
      if ref !in db.workplaces {
        return Err("WORKPLACE_NOT_FOUND");
      }
      var row := db.workplaces[ref];
      if !Valid(row.state) {
        return Err("WORKPLACE_STATE_CORRUPT");
      }
      match PlanFor(row, command) {
        case Err(e) =>
          return Err(e);
        case Ok(Keep) =>
          r := Ok(false);
        case Ok(Move(target, reservation, recoveryCase)) =>
          r := ApplyTransitionInTx(ref, row.state.revision, target, reservation, recoveryCase);
          if r.Err? {
            return;
          }
      }
      if task in db.tasks {
        db.tasks := db.tasks[task := db.tasks[task].(status := StatusFor(db.workplaces[ref].state.kanban))];
      }
    }
  }

  // ---- the gate coordinator -------------------------------------------------------

  /** Events only the conveyor use cases emit; every other event is the coordinator's. */
  predicate KernelEvent(event: Event) {
    !event.WorkAdmitted? && !event.WorkerLeased? && !event.WorkerStarted? && !event.CandidateSealed?
  }

  /** One coordinator step: reduce, compare-and-set; only a carried-forward candidate keeps an actor. */
  function Coordinate(t: Tables, ref: WorkplaceRef, event: Event, presenter: ExecutionId): Result<Tables> {
    if ref !in t.workplaces then Err("not materialized")
    else
      match Reduce(t.workplaces[ref].state, event)
      case Err(e) => Err(e)
      case Ok(target) =>
        match ApplyTransition(t, ref, t.workplaces[ref].state.revision, target,
                              if event.CandidateCarriedForward? then Some(presenter) else None, None)
        case Err(e) => Err(e)
        case Ok(tr) => Ok(tr.tables)
  }

  // ---- what one use case does ---------------------------------------------------

  /**
   * Inside one transaction the compare-and-set cannot miss: a use case that
   * plans a move applies it, bumping exactly this workplace's revision by one.
   */
  lemma CompareAndSetNeverMisses(t: Tables, ref: WorkplaceRef, task: TaskId, command: Command)
    requires UseCase(t, ref, task, command).Ok?
    ensures
      var tr := UseCase(t, ref, task, command).value;
      && ref in t.workplaces
      && tr.tables.workplaces.Keys == t.workplaces.Keys
      && (tr.applied <==> PlanFor(t.workplaces[ref], command).value.Move?)
      && (forall other <- t.workplaces :: other != ref || !tr.applied ==> tr.tables.workplaces[other] == t.workplaces[other])
      && (tr.applied ==>
            && Valid(tr.tables.workplaces[ref].state)
            && tr.tables.workplaces[ref].state.revision == t.workplaces[ref].state.revision + 1)
      && tr.tables == ReverseProject(t.(workplaces := tr.tables.workplaces), task, tr.tables.workplaces[ref].state.kanban)
  {
    hide PlanFor, StatusFor, ApplyTransition, Valid;
    var row := t.workplaces[ref];
    match PlanFor(row, command)
    case Ok(Move(target, reservation, recoveryCase)) =>
      AppliedTransition(t, ref, target, reservation, recoveryCase);
    case _ =>
  }

  /** At the revision just read, a transition to a valid target applies. */
  lemma AppliedTransition(t: Tables, ref: WorkplaceRef, target: WorkplaceState, reservation: Option<ExecutionId>, recoveryCase: Option<nat>)
    requires ref in t.workplaces && ApplyTransition(t, ref, t.workplaces[ref].state.revision, target, reservation, recoveryCase).Ok?
    ensures
      var tr := ApplyTransition(t, ref, t.workplaces[ref].state.revision, target, reservation, recoveryCase).value;
      && tr.applied && tr.tables == t.(workplaces := tr.tables.workplaces)
      && tr.tables.workplaces.Keys == t.workplaces.Keys
      && (forall other <- t.workplaces :: other != ref ==> tr.tables.workplaces[other] == t.workplaces[other])
      && Valid(tr.tables.workplaces[ref].state)
      && tr.tables.workplaces[ref].state.revision == t.workplaces[ref].state.revision + 1
  {
    hide Valid;
  }

  // ---- the use cases, from the row they read to the row they leave ---------------------------------

  /** The desk at work, its actor columns as given. */
  function DeskAt(was: WorkplaceRow, kanban: KanbanPhase, loop: LoopState, role: Role, reservation: Option<ExecutionId>): WorkplaceRow {
    WorkplaceRow(WorkplaceState(kanban, loop, role, was.state.revision + 1, None), reservation, None, None, was.processRun)
  }

  /** The use case goes through on this desk. */
  predicate Permits(was: WorkplaceRow, command: Command) {
    match command
    case Reserve(_) => true
    case ReleaseShift(e, outcome) => was.reservation == Some(e) && (outcome.CancelledShift? || was.state.loop.Running?)
    case RejectIncomplete(role) => was.state.loop.Verifying? && was.state.role == role
    case Requeue(role) => was.state.loop.Paused? || (was.state.loop.RepairWait? && was.state.role == role)
    case Pause(_) => !was.state.loop.Terminal?
  }

  /** A desk somebody is hired at is reserved no further: the call commits and changes nothing. */
  predicate LeavesDesk(was: WorkplaceRow, command: Command) {
    command.Reserve? && (was.state.loop.Leased? || was.state.loop.Running?)
  }

  /** The row each use case leaves. */
  predicate Leaves(was: WorkplaceRow, command: Command, now: WorkplaceRow) {
    var s := was.state;
    match command
    case Reserve(e) =>
      if s.loop.Leased? || s.loop.Running? then now == was
      else if s.loop.Idle? || s.loop.Queued? then now == DeskAt(was, WorkPhase(s.role), Running, s.role, Some(e))
      else now == was.(state := s.(revision := s.revision + 1), reservation := Some(e), gate := None, recoveryCase := None)
    case ReleaseShift(e, outcome) =>
      (match outcome
       case Completed => now == DeskAt(was, s.kanban, Verifying, s.role, Some(e))
       case Crashed | Expired => now == DeskAt(was, s.kanban, RepairWait, s.role, None)
       case CancelledShift =>
         now == WorkplaceRow(WorkplaceState(CancelledPhase, Terminal, s.role, s.revision + 1, Some(Cancelled)), None, None, None, was.processRun))
    case RejectIncomplete(role) => now == DeskAt(was, s.kanban, RepairWait, role, None)
    case Requeue(role) => now == DeskAt(was, WorkPhase(role), Queued, role, None)
    case Pause(reason) => now == DeskAt(was, Blocked, Paused, s.role, None).(recoveryCase := reason)
  }

  /** What a card shows of its desk: an ended desk is done, however it ended. */
  predicate Shows(status: TaskStatus, kanban: KanbanPhase) {
    match status
    case TaskTodo => kanban.Todo?
    case TaskInProgress => kanban.InProgress?
    case TaskReview => kanban.Review?
    case TaskReviewInProgress => kanban.ReviewInProgress?
    case TaskBlocked => kanban.Blocked?
    case TaskDone => kanban.Done? || kanban.FailedPhase? || kanban.CancelledPhase?
    case TaskFailed | TaskCancelled => false
  }

  lemma StatusShows(kanban: KanbanPhase, status: TaskStatus)
    ensures StatusFor(kanban) == status <==> Shows(status, kanban)
  {
  }

  /** The row a planned move would write. */
  function MovedRow(was: WorkplaceRow, target: WorkplaceState, reservation: Option<ExecutionId>, recoveryCase: Option<nat>): WorkplaceRow {
    WorkplaceRow(target.(revision := was.state.revision + 1), reservation, None, recoveryCase, was.processRun)
  }

  lemma PlanLeaves(was: WorkplaceRow, command: Command)
    requires Valid(was.state)
    ensures PlanFor(was, command).Ok? <==> Permits(was, command)
    ensures PlanFor(was, command).Ok? ==>
      match PlanFor(was, command).value
      case Keep => LeavesDesk(was, command)
      case Move(target, reservation, recoveryCase) =>
        && !LeavesDesk(was, command)
        && Valid(target.(revision := was.state.revision + 1)) && Leaves(was, command, MovedRow(was, target, reservation, recoveryCase))
  {
    match command {
      case Reserve(e) => ReserveLeaves(was, e);
      case _ =>
        if PlanFor(was, command).Ok? {
          var target := PlanFor(was, command).value.target;
          assert target.revision == was.state.revision + 1;
          assert target == target.(revision := was.state.revision + 1);
        }
    }
  }

  lemma ReserveLeaves(was: WorkplaceRow, e: ExecutionId)
    requires Valid(was.state)
    ensures PlanReserve(was, e).Ok?
    ensures
      match PlanReserve(was, e).value
      case Keep => LeavesDesk(was, Reserve(e))
      case Move(target, reservation, recoveryCase) =>
        && !LeavesDesk(was, Reserve(e))
        && Valid(target.(revision := was.state.revision + 1)) && Leaves(was, Reserve(e), MovedRow(was, target, reservation, recoveryCase))
  {
  }

  /** Only the card's status is written, with what the desk now shows. */
  predicate Projected(t: Tables, n: Tables, task: TaskId, kanban: KanbanPhase) {
    && n.tasks.Keys == t.tasks.Keys
    && forall id <- t.tasks ::
         n.tasks[id] == (if id == task then t.tasks[id].(status := n.tasks[id].status) else t.tasks[id])
         && (id == task ==> Shows(n.tasks[id].status, kanban))
  }

  /** On well-formed desks each use case commits exactly where it is permitted, and this is all it writes. */
  lemma UseCaseIff(t: Tables, ref: WorkplaceRef, task: TaskId, command: Command)
    requires WorkplacesValid(t.workplaces)
    ensures UseCase(t, ref, task, command).Ok? <==> ref in t.workplaces && Permits(t.workplaces[ref], command)
    ensures UseCase(t, ref, task, command).Ok? ==>
      var tr := UseCase(t, ref, task, command).value;
      && tr.applied == !LeavesDesk(t.workplaces[ref], command)
      && tr.tables == t.(workplaces := tr.tables.workplaces, tasks := tr.tables.tasks)
      && ref in tr.tables.workplaces && tr.tables.workplaces == t.workplaces[ref := tr.tables.workplaces[ref]]
      && Leaves(t.workplaces[ref], command, tr.tables.workplaces[ref])
      && Projected(t, tr.tables, task, tr.tables.workplaces[ref].state.kanban)
  {
    if ref in t.workplaces {
      PlanLeaves(t.workplaces[ref], command);
      hide PlanFor, Permits, Leaves, LeavesDesk, Valid, WorkplacesValid, StatusFor, Shows, ApplyTransition, ReverseProject, Projected, MovedRow;
      match PlanFor(t.workplaces[ref], command) {
        case Ok(Move(target, reservation, recoveryCase)) =>
          MoveApplies(t, ref, target, reservation, recoveryCase);
          MovedKanban(t.workplaces[ref], target, reservation, recoveryCase);
          ProjectShows(t.(workplaces := t.workplaces[ref := MovedRow(t.workplaces[ref], target, reservation, recoveryCase)]), task,
                       target.kanban);
        case _ =>
          ProjectShows(t, task, t.workplaces[ref].state.kanban);
          KeptLeaves(t.workplaces[ref], command);
          assert t.workplaces == t.workplaces[ref := t.workplaces[ref]];
      }
    }
  }

  lemma MovedKanban(was: WorkplaceRow, target: WorkplaceState, reservation: Option<ExecutionId>, recoveryCase: Option<nat>)
    ensures MovedRow(was, target, reservation, recoveryCase).state.kanban == target.kanban
  {
  }

  lemma KeptLeaves(was: WorkplaceRow, command: Command)
    ensures LeavesDesk(was, command) ==> Leaves(was, command, was)
  {
  }

  lemma MoveApplies(t: Tables, ref: WorkplaceRef, target: WorkplaceState, reservation: Option<ExecutionId>, recoveryCase: Option<nat>)
    requires ref in t.workplaces && Valid(target.(revision := t.workplaces[ref].state.revision + 1))
    ensures
      ApplyTransition(t, ref, t.workplaces[ref].state.revision, target, reservation, recoveryCase)
        == Ok(Transition(true, t.(workplaces := t.workplaces[ref := MovedRow(t.workplaces[ref], target, reservation, recoveryCase)])))
  {
    hide Valid;
  }

  lemma ProjectShows(t: Tables, task: TaskId, kanban: KanbanPhase)
    ensures
      var n := ReverseProject(t, task, kanban);
      Projected(t, n, task, kanban) && n == t.(tasks := n.tasks)
  {
    StatusShows(kanban, StatusFor(kanban));
    hide StatusFor, Shows;
  }

  /** The gate, the reconciler and the operator emit these events; admission, lease, start and seal are the worker's. */
  lemma CoordinatorEvents(event: Event)
    ensures KernelEvent(event) <==>
      match event
      case WorkAdmitted | WorkerLeased | WorkerStarted | CandidateSealed => false
      case CandidateCarriedForward | WorkerCrashed | WorkerLost | GateRepairRequired(_) | GateAuthorAcceptedWithReview
         | GateAuthorAcceptedFinal(_) | ReviewerVerdict(_, _) | AcceptanceEffectSucceeded | AcceptanceEffectRepairRequired
         | HumanRequired | GateFailed | AuthorizedCancel | RepairRequeued(_) => true
  {
  }

  /** A coordinator step commits exactly along an edge of the reducer, and keeps an actor only with a candidate it carries forward. */
  lemma CoordinateIff(t: Tables, ref: WorkplaceRef, event: Event, presenter: ExecutionId, next: WorkplaceState)
    requires ref in t.workplaces && Valid(t.workplaces[ref].state)
    ensures Arrives(t.workplaces[ref].state, event, next) ==>
      Coordinate(t, ref, event, presenter)
        == Ok(t.(workplaces := t.workplaces[ref := WorkplaceRow(next, if event.CandidateCarriedForward? then Some(presenter) else None,
                                                                None, None, t.workplaces[ref].processRun)]))
    ensures Coordinate(t, ref, event, presenter).Ok? ==>
      ref in Coordinate(t, ref, event, presenter).value.workplaces
      && Arrives(t.workplaces[ref].state, event, Coordinate(t, ref, event, presenter).value.workplaces[ref].state)
  {
    var s := t.workplaces[ref].state;
    ReduceIsArrival(s, event, next);
    if Reduce(s, event).Ok? {
      ReduceIsArrival(s, event, Reduce(s, event).value);
      assert Reduce(s, event).value == Reduce(s, event).value.(revision := s.revision + 1);
    }
    hide Reduce, Arrives, Valid;
  }

  // ---- racing dispatchers and superseded fences ---------------------------------

  datatype Call = Call(ref: WorkplaceRef, task: TaskId, command: Command)

  function Step(t: Tables, call: Call): Tables {
    match UseCase(t, call.ref, call.task, call.command)
    case Err(_) => t
    case Ok(tr) => tr.tables
  }

  predicate Applies(t: Tables, call: Call) {
    var r := UseCase(t, call.ref, call.task, call.command);
    r.Ok? && r.value.applied
  }

  /** Any interleaving of callers, as the order in which their transactions got the write lock. */
  function RunCalls(t: Tables, calls: seq<Call>): Tables
    decreases |calls|
  {
    if calls == [] then t else RunCalls(Step(t, calls[0]), calls[1..])
  }

  function AppliedOn(t: Tables, calls: seq<Call>, ref: WorkplaceRef): nat
    decreases |calls|
  {
    if calls == [] then 0
    else (if calls[0].ref == ref && Applies(t, calls[0]) then 1 else 0) + AppliedOn(Step(t, calls[0]), calls[1..], ref)
  }

  /** Each revision of a workplace comes from exactly one applied transition. */
  lemma {:induction false} RevisionCountsAppliedTransitions(t: Tables, calls: seq<Call>, ref: WorkplaceRef)
    requires ref in t.workplaces
    ensures ref in RunCalls(t, calls).workplaces
    ensures RunCalls(t, calls).workplaces[ref].state.revision == t.workplaces[ref].state.revision + AppliedOn(t, calls, ref)
    ensures AppliedOn(t, calls, ref) == 0 ==> RunCalls(t, calls).workplaces[ref] == t.workplaces[ref]
    decreases |calls|
  {
    if calls != [] {
      if UseCase(t, calls[0].ref, calls[0].task, calls[0].command).Ok? {
        CompareAndSetNeverMisses(t, calls[0].ref, calls[0].task, calls[0].command);
      }
      RevisionCountsAppliedTransitions(Step(t, calls[0]), calls[1..], ref);
    }
  }

  predicate Claimable(s: WorkplaceState) {
    Valid(s) && (s.loop == Idle || s.loop == Queued)
  }

  lemma ReserveWins(t: Tables, ref: WorkplaceRef, task: TaskId, e: ExecutionId)
    requires ref in t.workplaces && Claimable(t.workplaces[ref].state)
    ensures Applies(t, Call(ref, task, Reserve(e)))
    ensures
      var row := Step(t, Call(ref, task, Reserve(e))).workplaces[ref];
      row.reservation == Some(e) && row.state.loop == Running && Valid(row.state)
  {
    ReservePlan(t.workplaces[ref], e);
    CompareAndSetNeverMisses(t, ref, task, Reserve(e));
    hide PlanFor, Claimable;
  }

  lemma ReservePlan(row: WorkplaceRow, e: ExecutionId)
    requires Claimable(row.state)
    ensures PlanFor(row, Reserve(e)).Ok?
    ensures
      var plan := PlanFor(row, Reserve(e)).value;
      plan.Move? && plan.reservation == Some(e) && plan.target.loop == Running
      && Valid(plan.target.(revision := row.state.revision + 1)) && Valid(row.state)
  {
  }

  /** Of several racing reserves of a claimable workplace exactly the first is applied. */
  lemma {:induction false} ExactlyOneRacingReserveWins(t: Tables, ref: WorkplaceRef, calls: seq<Call>)
    requires ref in t.workplaces && Claimable(t.workplaces[ref].state)
    requires calls != [] && forall c <- calls :: c.ref == ref && c.command.Reserve?
    ensures AppliedOn(t, calls, ref) == 1
    ensures ref in RunCalls(t, calls).workplaces
    ensures RunCalls(t, calls).workplaces[ref].reservation == Some(calls[0].command.reservation)
    ensures RunCalls(t, calls).workplaces[ref].state.revision == t.workplaces[ref].state.revision + 1
  {
    var first := calls[0];
    assert first in calls;
    ReserveWins(t, ref, first.task, first.command.reservation);
    forall c <- calls[1..] ensures c.ref == ref && c.command.Reserve? { assert c in calls; }
    LateReservesLose(Step(t, first), ref, calls[1..]);
    RevisionCountsAppliedTransitions(t, calls, ref);
    RevisionCountsAppliedTransitions(Step(t, first), calls[1..], ref);
  }

  lemma {:induction false} LateReservesLose(t: Tables, ref: WorkplaceRef, calls: seq<Call>)
    requires ref in t.workplaces && Valid(t.workplaces[ref].state) && t.workplaces[ref].state.loop == Running
    requires forall c <- calls :: c.ref == ref && c.command.Reserve?
    ensures AppliedOn(t, calls, ref) == 0
    decreases |calls|
  {
    if calls != [] {
      assert calls[0] in calls;
      forall c <- calls[1..] ensures c.ref == ref && c.command.Reserve? { assert c in calls; }
      LateReservesLose(Step(t, calls[0]), ref, calls[1..]);
    }
  }

  /** True when some call of the run applies a reserve of `e` on `ref`. */
  predicate Reserves(t: Tables, calls: seq<Call>, ref: WorkplaceRef, e: ExecutionId)
    decreases |calls|
  {
    calls != [] &&
    ((calls[0].ref == ref && calls[0].command == Reserve(e) && Applies(t, calls[0]))
     || Reserves(Step(t, calls[0]), calls[1..], ref, e))
  }

  /**
   * Fencing over runs: once another reservation holds the workplace (or none
   * does), a release presenting the superseded one is refused after any run
   * that does not reserve it again, and a refused release changes nothing.
   */
  lemma {:induction false} SupersededReleaseIsRefused(t: Tables, calls: seq<Call>, ref: WorkplaceRef, stale: ExecutionId,
                                                     task: TaskId, outcome: Outcome)
    requires ref in t.workplaces && t.workplaces[ref].reservation != Some(stale)
    requires !Reserves(t, calls, ref, stale)
    ensures UseCase(RunCalls(t, calls), ref, task, ReleaseShift(stale, outcome)).Err?
    ensures Step(RunCalls(t, calls), Call(ref, task, ReleaseShift(stale, outcome))) == RunCalls(t, calls)
    decreases |calls|
  {
    if calls != [] {
      hide UseCase, Step, Applies;
      StaysSuperseded(t, calls[0], ref, stale);
      SupersededReleaseIsRefused(Step(t, calls[0]), calls[1..], ref, stale, task, outcome);
    }
  }

  lemma StaysSuperseded(t: Tables, call: Call, ref: WorkplaceRef, stale: ExecutionId)
    requires ref in t.workplaces && t.workplaces[ref].reservation != Some(stale)
    requires !(call.ref == ref && call.command == Reserve(stale) && Applies(t, call))
    ensures ref in Step(t, call).workplaces && Step(t, call).workplaces[ref].reservation != Some(stale)
  {
    if UseCase(t, call.ref, call.task, call.command).Ok? {
      CompareAndSetNeverMisses(t, call.ref, call.task, call.command);
    }
  }
}
