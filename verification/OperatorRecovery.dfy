/** The operator recovery verbs: one immutable authorization, one legal transition, one consumption, in one transaction. */
module OperatorRecovery {
  import opened Results
  import opened Workplaces
  import opened FactoryTables
  import opened ConveyorRuntimes
  import opened Invariants

  datatype Kind = PausedSubmission | WorkerLoss | MissingProduct

  /** What an operator issues: for which lifecycle run, by whom, why. */
  datatype Directive = Directive(kind: Kind, lifecycle: nat, actor: nat, reason: nat)

  /** The fields an authorization reference digests; two rows with the same fields have the same reference. */
  datatype Authorization = Authorization(directive: Directive, ref: WorkplaceRef, expected: nat, evidence: nat)

  datatype Granted = Granted(task: TaskId, at: Millis)

  /** Authorization and consumption rows; triggers forbid their update and deletion. */
  datatype Ledger = Ledger(authorizations: map<Authorization, Granted>, consumptions: map<Authorization, nat>)

  datatype World = World(db: Tables, ledger: Ledger)

  /** What the verbs read from tables outside the model. */
  datatype Facts = Facts(
    /** The lifecycle, its current stage (and process, where asked) are paused and unleased. */
    paused: bool,
    processRun: nat,
    /** Cards whose metadata says author. */
    authorCards: set<TaskId>,
    /** The verified rejection that justifies the recovery, when there is one. */
    rejection: Option<nat>,
    /** No candidate set, gate run or decision, and no submission, where the verb refuses them. */
    unsealed: bool,
    /** The reservation holder exited with code 0 and no error, its card changes artifacts, its epic has no live worker. */
    cleanExit: bool,
    /** Launch requests of the lifecycle that are still active. */
    launches: nat)

  // ---- finding the one candidate ---------------------------------------------------------------

  datatype Candidate = Candidate(ref: WorkplaceRef, task: TaskId, evidence: nat)

  lemma {:induction false} OneElement<T>(s: set<T>)
    requires |s| == 1
    ensures forall x, y :: x in s && y in s ==> x == y
  {
    forall x, y | x in s && y in s ensures x == y {
      assert |s - {x}| == 0;
      assert y == x || y in s - {x};
    }
  }

  predicate Unfenced(row: WorkplaceRow) {
    row.state.role == Author && row.reservation.None? && row.gate.None? && row.recoveryCase.None?
  }

  predicate Parked(t: Tables, ref: WorkplaceRef, facts: Facts) {
    && facts.paused && ref in t.workplaces && t.workplaces[ref].processRun == facts.processRun
    && t.workplaces[ref].state.kanban == Blocked && t.workplaces[ref].state.loop == Paused
  }

  function ExecutionsOf(t: Tables, cards: set<TaskId>): set<ExecutionId> {
    set e | e in t.executions && t.executions[e].task in cards
  }

  predicate NoneLive(t: Tables, es: set<ExecutionId>) {
    forall e <- es :: !Live(t, e)
  }

  /** The join of parked workplaces with their bound cards. */
  function ParkedRows(t: Tables, facts: Facts): set<(WorkplaceRef, TaskId)> {
    set ref, id | ref in t.workplaces && id in t.tasks && Parked(t, ref, facts) && t.tasks[id].workplace == Some(ref) :: (ref, id)
  }

  function FindPausedSubmission(t: Tables, facts: Facts): Result<Candidate> {
    var rows := ParkedRows(t, facts);
    if |rows| != 1 then Err("FACTORY_PAUSED_WORKPLACE_NOT_UNIQUE")
    else
      OneElement(rows);
      var row :| row in rows;
      var task := t.tasks[row.1];
      if !Unfenced(t.workplaces[row.0]) || task.assignedTo.Some? || task.current.Some? then Err("FACTORY_PAUSED_WORKPLACE_UNSAFE")
      else if !NoneLive(t, ExecutionsOf(t, {row.1})) || ExecutionsOf(t, {row.1}) * t.receipts != {} || !facts.unsealed
      then Err("FACTORY_PAUSED_WORKPLACE_UNSAFE")
      else if facts.rejection.None? then Err("FACTORY_RECOVERY_FEEDBACK_REQUIRED")
      else Ok(Candidate(row.0, row.1, facts.rejection.value))
  }

  function AuthorCards(t: Tables, ref: WorkplaceRef, facts: Facts): set<TaskId> {
    set id | id in t.tasks && id in facts.authorCards && t.tasks[id].workplace == Some(ref)
  }

  predicate After(t: Tables, x: ExecutionId, e: ExecutionId)
    requires x in t.executions && e in t.executions
  {
    t.executions[x].clocks.reservedAt < t.executions[e].clocks.reservedAt
    || (t.executions[x].clocks.reservedAt == t.executions[e].clocks.reservedAt && x <= e)
  }

  /** Newest by reservation time, then by id. */
  predicate IsLatest(t: Tables, es: set<ExecutionId>, e: ExecutionId)
    requires es <= t.executions.Keys
  {
    e in es && forall x <- es :: After(t, x, e)
  }

  lemma {:induction false} NewestExists(t: Tables, es: set<ExecutionId>) returns (e: ExecutionId)
    requires es != {} && es <= t.executions.Keys
    ensures IsLatest(t, es, e)
    decreases |es|
  {
    var one :| one in es;
    e := one;
    if es - {one} == {} {
      assert es == {one};
    } else {
      var other := NewestExists(t, es - {one});
      e := if After(t, one, other) then other else one;
      forall x <- es ensures After(t, x, e) { assert x == one || x in es - {one}; }
    }
  }

  /** ORDER BY reserved_at DESC, execution_id DESC LIMIT 1. */
  function Newest(t: Tables, es: set<ExecutionId>): (newest: Option<ExecutionId>)
    requires es <= t.executions.Keys
    ensures newest.None? <==> es == {}
    ensures newest.Some? ==> IsLatest(t, es, newest.value)
  {
    if es == {} then None
    else
      assert exists e :: IsLatest(t, es, e) by { var e := NewestExists(t, es); }
      var e :| e in es && IsLatest(t, es, e);
      Some(e)
  }

  function FindWorkerLoss(t: Tables, facts: Facts): Result<Candidate> {
    var refs := set ref | ref in t.workplaces && Parked(t, ref, facts);
    if |refs| != 1 then Err("FACTORY_WORKER_LOSS_NOT_UNIQUE")
    else
      OneElement(refs);
      var ref :| ref in refs;
      var es := ExecutionsOf(t, AuthorCards(t, ref, facts));
      var latest := Newest(t, es);
      if !Unfenced(t.workplaces[ref]) || latest.None? then Err("FACTORY_WORKER_LOSS_UNSAFE")
      else
        var e := latest.value;
        var id := t.executions[e].task;
        if t.executions[e].state != ExecLost || !NoneLive(t, es) || e in t.receipts
           || id !in t.tasks || t.tasks[id].assignedTo.Some? || t.tasks[id].current.Some?
        then Err("FACTORY_WORKER_LOSS_UNSAFE")
        else Ok(Candidate(ref, id, e))
  }

  predicate Incomplete(t: Tables, ref: WorkplaceRef, facts: Facts) {
    && facts.paused && ref in t.workplaces && t.workplaces[ref].processRun == facts.processRun
    && t.workplaces[ref].state.kanban == InProgress && t.workplaces[ref].state.loop == Verifying
    && t.workplaces[ref].reservation.Some? && t.workplaces[ref].reservation.value in t.executions
  }

  function IncompleteRows(t: Tables, facts: Facts): set<(WorkplaceRef, TaskId)> {
    set ref, id | ref in t.workplaces && id in t.tasks && Incomplete(t, ref, facts) && t.tasks[id].workplace == Some(ref) :: (ref, id)
  }

  function FindMissingProduct(t: Tables, facts: Facts): Result<Candidate> {
    var rows := IncompleteRows(t, facts);
    if |rows| != 1 then Err("FACTORY_MISSING_PRODUCT_NOT_UNIQUE")
    else
      OneElement(rows);
      var row :| row in rows;
      var desk, task := t.workplaces[row.0], t.tasks[row.1];
      var e := desk.reservation.value;
      if desk.state.role != Author || desk.gate.Some? || desk.recoveryCase.Some?
         || task.status != TaskInProgress || task.assignedTo.Some? || task.current.Some?
         || t.executions[e].state != ExecExited || !facts.cleanExit || e !in t.receipts || !facts.unsealed || facts.rejection.None?
      then Err("FACTORY_MISSING_PRODUCT_UNSAFE")
      else Ok(Candidate(row.0, row.1, facts.rejection.value))
  }

  function Find(t: Tables, kind: Kind, facts: Facts): Result<Candidate> {
    match kind
    case PausedSubmission => FindPausedSubmission(t, facts)
    case WorkerLoss => FindWorkerLoss(t, facts)
    case MissingProduct => FindMissingProduct(t, facts)
  }

  // ---- what may be recovered ------------------------------------------------------------------------

  /** Blocked and paused in the paused process run. */
  predicate Halted(t: Tables, facts: Facts, ref: WorkplaceRef) {
    && facts.paused && ref in t.workplaces && t.workplaces[ref].processRun == facts.processRun
    && t.workplaces[ref].state.kanban.Blocked? && t.workplaces[ref].state.loop.Paused?
  }

  /** Verifying an author's completion in the paused process run, its holder's row still there. */
  predicate Unproven(t: Tables, facts: Facts, ref: WorkplaceRef) {
    && facts.paused && ref in t.workplaces && t.workplaces[ref].processRun == facts.processRun
    && t.workplaces[ref].state.kanban.InProgress? && t.workplaces[ref].state.loop.Verifying?
    && t.workplaces[ref].reservation.Some? && t.workplaces[ref].reservation.value in t.executions
  }

  predicate BoundTo(t: Tables, id: TaskId, ref: WorkplaceRef) {
    id in t.tasks && t.tasks[id].workplace == Some(ref)
  }

  predicate FreeCard(t: Tables, id: TaskId) {
    id in t.tasks && t.tasks[id].assignedTo.None? && t.tasks[id].current.None?
  }

  /** An author's desk with no actor column set. */
  predicate ActorFree(row: WorkplaceRow) {
    row.state.role.Author? && row.reservation.None? && row.gate.None? && row.recoveryCase.None?
  }

  predicate Terminated(row: Execution) {
    !row.state.ExecReserved? && !row.state.ExecRunning? && !row.state.ExecCancelRequested?
  }

  /** An execution of one of the desk's author cards. */
  predicate AuthorShift(t: Tables, facts: Facts, ref: WorkplaceRef, e: ExecutionId) {
    e in t.executions && t.executions[e].task in facts.authorCards && BoundTo(t, t.executions[e].task, ref)
  }

  /** The one halted desk and card of the run: idle, never completed nor sealed, with a verified rejection. */
  ghost predicate MayResume(t: Tables, facts: Facts, c: Candidate) {
    && Halted(t, facts, c.ref) && BoundTo(t, c.task, c.ref)
    && (forall ref, id: TaskId | Halted(t, facts, ref) && BoundTo(t, id, ref) :: ref == c.ref && id == c.task)
    && ActorFree(t.workplaces[c.ref]) && FreeCard(t, c.task)
    && (forall e <- t.executions :: t.executions[e].task == c.task ==> Terminated(t.executions[e]) && e !in t.receipts)
    && facts.unsealed && facts.rejection == Some(c.evidence)
  }

  /** The one halted desk of the run: its newest author shift was lost and not completed, and nobody works there. */
  ghost predicate MayReplace(t: Tables, facts: Facts, c: Candidate) {
    var e := c.evidence;
    && Halted(t, facts, c.ref) && (forall ref | Halted(t, facts, ref) :: ref == c.ref)
    && ActorFree(t.workplaces[c.ref])
    && AuthorShift(t, facts, c.ref, e) && c.task == t.executions[e].task && FreeCard(t, c.task)
    && t.executions[e].state.ExecLost? && e !in t.receipts
    && (forall x: ExecutionId | AuthorShift(t, facts, c.ref, x) ::
          && Terminated(t.executions[x])
          && t.executions[x].clocks.reservedAt <= t.executions[e].clocks.reservedAt
          && (t.executions[x].clocks.reservedAt == t.executions[e].clocks.reservedAt ==> x <= e))
  }

  /** The one unproven desk and card of the run: its author exited cleanly and was accepted, yet submitted nothing. */
  ghost predicate MayReject(t: Tables, facts: Facts, c: Candidate) {
    && Unproven(t, facts, c.ref) && BoundTo(t, c.task, c.ref)
    && (forall ref, id: TaskId | Unproven(t, facts, ref) && BoundTo(t, id, ref) :: ref == c.ref && id == c.task)
    && var desk := t.workplaces[c.ref];
       && desk.state.role.Author? && desk.gate.None? && desk.recoveryCase.None?
       && t.tasks[c.task].status.TaskInProgress? && FreeCard(t, c.task)
       && t.executions[desk.reservation.value].state.ExecExited? && desk.reservation.value in t.receipts
       && facts.cleanExit && facts.unsealed && facts.rejection == Some(c.evidence)
  }

  ghost predicate Recoverable(t: Tables, kind: Kind, facts: Facts, c: Candidate) {
    match kind
    case PausedSubmission => MayResume(t, facts, c)
    case WorkerLoss => MayReplace(t, facts, c)
    case MissingProduct => MayReject(t, facts, c)
  }

  ghost predicate SomeRecoverable(t: Tables, kind: Kind, facts: Facts) {
    exists c :: Recoverable(t, kind, facts, c)
  }

  lemma Singleton<T>(s: set<T>)
    ensures |s| == 1 <==> exists x :: s == {x}
  {
    if |s| == 1 {
      var x :| x in s;
      OneElement(s);
      assert s == {x};
    }
  }

  /** Each verb finds a candidate exactly when it may recover it, and it is the only one. */
  lemma FindIff(t: Tables, kind: Kind, facts: Facts, c: Candidate)
    ensures Find(t, kind, facts) == Ok(c) <==> Recoverable(t, kind, facts, c)
  {
    match kind {
      case PausedSubmission => ResumeIff(t, facts, c);
      case WorkerLoss => ReplaceIff(t, facts, c);
      case MissingProduct => RejectIff(t, facts, c);
    }
    hide FindPausedSubmission, FindWorkerLoss, FindMissingProduct, MayResume, MayReplace, MayReject;
  }

  lemma ResumeIff(t: Tables, facts: Facts, c: Candidate)
    ensures FindPausedSubmission(t, facts) == Ok(c) <==> MayResume(t, facts, c)
  {
    var rows := ParkedRows(t, facts);
    forall ref, id: TaskId ensures (ref, id) in rows <==> Halted(t, facts, ref) && BoundTo(t, id, ref) {}
    Singleton(rows);
    if MayResume(t, facts, c) {
      assert rows == {(c.ref, c.task)};
    }
    if |rows| == 1 {
      OneElement(rows);
      var row :| row in rows;
      assert rows == {row};
      ShiftsOf(t, row.1);
    }
    hide ParkedRows;
  }

  lemma ShiftsOf(t: Tables, id: TaskId)
    ensures NoneLive(t, ExecutionsOf(t, {id})) && ExecutionsOf(t, {id}) * t.receipts == {} <==>
      forall e <- t.executions :: t.executions[e].task == id ==> Terminated(t.executions[e]) && e !in t.receipts
  {
    var es := ExecutionsOf(t, {id});
    forall e <- t.executions ensures e in es <==> t.executions[e].task == id {}
    if es * t.receipts == {} {
      forall e <- es ensures e !in t.receipts {
        assert e !in es * t.receipts;
      }
    }
  }

  lemma ReplaceIff(t: Tables, facts: Facts, c: Candidate)
    ensures FindWorkerLoss(t, facts) == Ok(c) <==> MayReplace(t, facts, c)
  {
    var refs := set ref | ref in t.workplaces && Parked(t, ref, facts);
    forall ref ensures ref in refs <==> Halted(t, facts, ref) {}
    Singleton(refs);
    if MayReplace(t, facts, c) {
      assert refs == {c.ref};
    }
    if |refs| == 1 {
      OneElement(refs);
      var ref :| ref in refs;
      assert refs == {ref};
      var es := ExecutionsOf(t, AuthorCards(t, ref, facts));
      forall e: ExecutionId ensures e in es <==> AuthorShift(t, facts, ref, e) {}
    }
  }

  lemma RejectIff(t: Tables, facts: Facts, c: Candidate)
    ensures FindMissingProduct(t, facts) == Ok(c) <==> MayReject(t, facts, c)
  {
    var rows := IncompleteRows(t, facts);
    forall ref, id: TaskId ensures (ref, id) in rows <==> Unproven(t, facts, ref) && BoundTo(t, id, ref) {}
    Singleton(rows);
    if MayReject(t, facts, c) {
      assert rows == {(c.ref, c.task)};
    }
    if |rows| == 1 {
      OneElement(rows);
      var row :| row in rows;
      assert rows == {row};
    }
    hide IncompleteRows;
  }

  // ---- authorize, transition, consume --------------------------------------------------------------

  function Commands(kind: Kind): seq<Command> {
    if kind == MissingProduct then [RejectIncomplete(Author), Requeue(Author)] else [Requeue(Author)]
  }

  /** Every use case must apply, or the whole recovery rolls back. */
  function Drive(t: Tables, ref: WorkplaceRef, task: TaskId, commands: seq<Command>): Result<Tables>
    decreases |commands|
  {
    if commands == [] then Ok(t)
    else match UseCase(t, ref, task, commands[0])
      case Err(e) => Err(e)
      case Ok(tr) => if !tr.applied then Err("changed during operator recovery") else Drive(tr.tables, ref, task, commands[1..])
  }

  /** The missing-product verb closes the one active launch, and gives up when there are more. */
  predicate LaunchesAllow(kind: Kind, facts: Facts) {
    kind == MissingProduct ==> facts.launches <= 1
  }

  /** Two of the verbs share one pair of tables; the worker-loss verb has its own. */
  predicate SameTables(a: Kind, b: Kind) {
    a.WorkerLoss? == b.WorkerLoss?
  }

  /** A consumed authorization of the same lifecycle, actor and reason, in the tables the verb reads. */
  predicate Repeats(w: World, d: Directive, a: Authorization) {
    && a in w.ledger.authorizations && a in w.ledger.consumptions && a.ref in w.db.workplaces
    && SameTables(a.directive.kind, d.kind)
    && a.directive.lifecycle == d.lifecycle && a.directive.actor == d.actor && a.directive.reason == d.reason
  }

  /** ORDER BY authorized_at DESC LIMIT 1: some newest one, when there is any. */
  predicate IsPrior(w: World, d: Directive, prior: Option<Authorization>) {
    match prior
    case None => forall a <- w.ledger.authorizations :: !Repeats(w, d, a)
    case Some(p) => Repeats(w, d, p) && forall a <- w.ledger.authorizations ::
      Repeats(w, d, a) ==> w.ledger.authorizations[a].at <= w.ledger.authorizations[p].at
  }

  datatype Recovery = Recovery(world: World, resulting: nat, replayed: bool)

  /** Authorize the candidate at its current revision, drive its use cases, consume. */
  function Grant(w: World, d: Directive, facts: Facts, c: Candidate, now: Millis): Result<Recovery> {
    if c.ref !in w.db.workplaces then Err("WORKPLACE_NOT_FOUND")
    else
      var a := Authorization(d, c.ref, w.db.workplaces[c.ref].state.revision, c.evidence);
      if a in w.ledger.authorizations || a in w.ledger.consumptions then Err("SQLITE_CONSTRAINT")
      else
        match Drive(w.db, c.ref, c.task, Commands(d.kind))
        case Err(e) => Err(e)
        case Ok(t) =>
          if c.ref !in t.workplaces || t.workplaces[c.ref].state.revision != a.expected + |Commands(d.kind)|
          then Err("changed during operator recovery")
          else if !LaunchesAllow(d.kind, facts) then Err("FACTORY_MISSING_PRODUCT_UNSAFE")
          else
            var resulting := t.workplaces[c.ref].state.revision;
            Ok(Recovery(World(t, Ledger(w.ledger.authorizations[a := Granted(c.task, now)], w.ledger.consumptions[a := resulting])),
                        resulting, false))
  }

  function Recover(w: World, d: Directive, facts: Facts, prior: Option<Authorization>, now: Millis): Result<Recovery> {
    if prior.Some? && Repeats(w, d, prior.value) && w.db.workplaces[prior.value.ref].state.loop == Queued
    then Ok(Recovery(w, w.ledger.consumptions[prior.value], true))
    else
      match Find(w.db, d.kind, facts)
      case Err(e) => Err(e)
      case Ok(c) => Grant(w, d, facts, c, now)
  }

  // ---- the invariant -----------------------------------------------------------------------------------

  /** Revision intervals (expected, resulting] that share no revision. */
  predicate Disjoint(a: Authorization, x: nat, b: Authorization, y: nat) {
    x <= b.expected || y <= a.expected
  }

  /** One-to-one rows; every consumed interval lies in the workplace's past, and no two of one workplace overlap. */
  predicate LedgerOk(w: World) {
    && w.ledger.authorizations.Keys == w.ledger.consumptions.Keys
    && (forall a <- w.ledger.consumptions ::
          && a.ref in w.db.workplaces
          && a.expected < w.ledger.consumptions[a] <= w.db.workplaces[a.ref].state.revision)
    && (forall a, b | a in w.ledger.consumptions && b in w.ledger.consumptions && a != b && a.ref == b.ref ::
          Disjoint(a, w.ledger.consumptions[a], b, w.ledger.consumptions[b]))
  }

  lemma FoundState(t: Tables, kind: Kind, facts: Facts)
    requires Find(t, kind, facts).Ok?
    ensures
      var c := Find(t, kind, facts).value;
      && c.ref in t.workplaces && c.task in t.tasks
      && t.workplaces[c.ref].state.role == Author
      && (if kind == MissingProduct then t.workplaces[c.ref].state.kanban == InProgress && t.workplaces[c.ref].state.loop == Verifying
          else t.workplaces[c.ref].state.kanban == Blocked && t.workplaces[c.ref].state.loop == Paused)
  {
  }

  /** The recovered workplace: queued for an author, out of the park, one revision per use case. */
  predicate Requeued(t: Tables, n: Tables, ref: WorkplaceRef, steps: nat) {
    && ref in t.workplaces && ref in n.workplaces
    && n.workplaces.Keys == t.workplaces.Keys
    && n.workplaces[ref].state == WorkplaceState(InProgress, Queued, Author, t.workplaces[ref].state.revision + steps, None)
    && n.workplaces[ref].reservation.None?
    && forall other <- t.workplaces :: other != ref ==> n.workplaces[other] == t.workplaces[other]
  }

  lemma OneCommand(t: Tables, ref: WorkplaceRef, task: TaskId, command: Command, target: WorkplaceState)
    requires ref in t.workplaces && Valid(t.workplaces[ref].state)
    requires PlanFor(t.workplaces[ref], command) == Ok(Move(target, None, None))
    requires Valid(target) && target.revision == t.workplaces[ref].state.revision + 1
    ensures UseCase(t, ref, task, command).Ok? && UseCase(t, ref, task, command).value.applied
    ensures
      var n := UseCase(t, ref, task, command).value.tables;
      && n.workplaces.Keys == t.workplaces.Keys && n.workplaces[ref].state == target && n.workplaces[ref].reservation.None?
      && forall other <- t.workplaces :: other != ref ==> n.workplaces[other] == t.workplaces[other]
  {
    hide PlanFor, StatusFor, Valid;
    assert target == target.(revision := t.workplaces[ref].state.revision + 1);
  }

  /** A found candidate is always recovered: each command is a legal edge that applies. */
  lemma DriveRequeues(t: Tables, kind: Kind, ref: WorkplaceRef, task: TaskId)
    requires ref in t.workplaces && Valid(t.workplaces[ref].state) && t.workplaces[ref].state.role == Author
    requires if kind == MissingProduct then t.workplaces[ref].state.kanban == InProgress && t.workplaces[ref].state.loop == Verifying
             else t.workplaces[ref].state.kanban == Blocked && t.workplaces[ref].state.loop == Paused
    ensures Drive(t, ref, task, Commands(kind)).Ok?
    ensures Requeued(t, Drive(t, ref, task, Commands(kind)).value, ref, |Commands(kind)|)
  {
    var s := t.workplaces[ref].state;
    var m := t;
    if kind == MissingProduct {
      var waiting := s.(loop := RepairWait, revision := s.revision + 1);
      OneCommand(t, ref, task, RejectIncomplete(Author), waiting);
      m := UseCase(t, ref, task, RejectIncomplete(Author)).value.tables;
    }
    var from := m.workplaces[ref].state;
    var queued := WorkplaceState(InProgress, Queued, Author, from.revision + 1, None);
    assert PlanFor(m.workplaces[ref], Requeue(Author)) == Ok(Move(queued, None, None));
    OneCommand(m, ref, task, Requeue(Author), queued);
    var n := UseCase(m, ref, task, Requeue(Author)).value.tables;
    hide UseCase, PlanFor;
    assert Drive(n, ref, task, []) == Ok(n);
    if kind == MissingProduct {
      assert Commands(kind)[1..] == [Requeue(Author)] && Commands(kind)[1..][1..] == [];
      assert Drive(m, ref, task, [Requeue(Author)]) == Ok(n);
    } else {
      assert Commands(kind)[1..] == [];
    }
  }

  /** A recovery that is not a replay commits exactly when the verb finds its one candidate and no second launch. */
  lemma RecoverFoundIff(w: World, d: Directive, facts: Facts, prior: Option<Authorization>, now: Millis)
    requires WorkplacesValid(w.db.workplaces) && LedgerOk(w)
    requires !(prior.Some? && Repeats(w, d, prior.value) && w.db.workplaces[prior.value.ref].state.loop == Queued)
    ensures Recover(w, d, facts, prior, now).Ok? <==> Find(w.db, d.kind, facts).Ok? && LaunchesAllow(d.kind, facts)
    ensures Recover(w, d, facts, prior, now).Ok? ==>
      var c := Find(w.db, d.kind, facts).value;
      var r := Recover(w, d, facts, prior, now).value;
      var a := Authorization(d, c.ref, w.db.workplaces[c.ref].state.revision, c.evidence);
      && !r.replayed && a !in w.ledger.authorizations && a !in w.ledger.consumptions
      && Requeued(w.db, r.world.db, c.ref, |Commands(d.kind)|)
      && r.resulting == r.world.db.workplaces[c.ref].state.revision
      && r.world.ledger.authorizations == w.ledger.authorizations[a := Granted(c.task, now)]
      && r.world.ledger.consumptions == w.ledger.consumptions[a := r.resulting]
  {
    if Find(w.db, d.kind, facts).Ok? {
      FoundState(w.db, d.kind, facts);
      var c := Find(w.db, d.kind, facts).value;
      DriveRequeues(w.db, d.kind, c.ref, c.task);
      NeverAuthorized(w, Authorization(d, c.ref, w.db.workplaces[c.ref].state.revision, c.evidence));
    }
    hide Find, Drive, WorkplacesValid, Repeats, LaunchesAllow, LedgerOk;
  }

  /** The writes of a recovery: the desk queued for its author at the next revisions, one row in each ledger table. */
  predicate Recovered(w: World, d: Directive, c: Candidate, now: Millis, r: Recovery) {
    var steps := if d.kind.MissingProduct? then 2 else 1;
    && !r.replayed && Requeued(w.db, r.world.db, c.ref, steps)
    && r.resulting == w.db.workplaces[c.ref].state.revision + steps
    && var a := Authorization(d, c.ref, w.db.workplaces[c.ref].state.revision, c.evidence);
       && a !in w.ledger.authorizations && a !in w.ledger.consumptions
       && r.world.ledger.authorizations == w.ledger.authorizations[a := Granted(c.task, now)]
       && r.world.ledger.consumptions == w.ledger.consumptions[a := r.resulting]
  }

  /** A recovery that is not a replay commits exactly when there is something the verb may recover, and no second launch. */
  lemma RecoverCommitsIff(w: World, d: Directive, facts: Facts, prior: Option<Authorization>, now: Millis)
    requires WorkplacesValid(w.db.workplaces) && LedgerOk(w)
    requires !(prior.Some? && Repeats(w, d, prior.value) && w.db.workplaces[prior.value.ref].state.loop == Queued)
    ensures Recover(w, d, facts, prior, now).Ok? <==>
      SomeRecoverable(w.db, d.kind, facts) && (d.kind.MissingProduct? ==> facts.launches <= 1)
    ensures Recover(w, d, facts, prior, now).Ok? ==>
      forall c | Recoverable(w.db, d.kind, facts, c) :: Recovered(w, d, c, now, Recover(w, d, facts, prior, now).value)
  {
    RecoverFoundIff(w, d, facts, prior, now);
    FoundIff(w.db, d.kind, facts);
    hide Recover, Find, Recoverable, LedgerOk, WorkplacesValid, Repeats;
  }

  lemma FoundIff(t: Tables, kind: Kind, facts: Facts)
    ensures Find(t, kind, facts).Ok? <==> SomeRecoverable(t, kind, facts)
    ensures forall c | Recoverable(t, kind, facts, c) :: Find(t, kind, facts) == Ok(c)
  {
    forall c ensures Find(t, kind, facts) == Ok(c) <==> Recoverable(t, kind, facts, c) {
      FindIff(t, kind, facts, c);
    }
    hide Find, Recoverable;
    if Find(t, kind, facts).Ok? {
      assert Recoverable(t, kind, facts, Find(t, kind, facts).value);
    }
  }

  /** An authorization of the current revision is new: every recorded one is already below it. */
  lemma NeverAuthorized(w: World, a: Authorization)
    requires LedgerOk(w) && a.ref in w.db.workplaces && a.expected == w.db.workplaces[a.ref].state.revision
    ensures a !in w.ledger.authorizations && a !in w.ledger.consumptions
  {
    hide Disjoint;
  }

  lemma FreshInterval(w: World, n: World, a: Authorization, resulting: nat, task: TaskId, now: Millis, steps: nat)
    requires LedgerOk(w) && a !in w.ledger.consumptions && Requeued(w.db, n.db, a.ref, steps) && steps > 0
    requires a.expected == w.db.workplaces[a.ref].state.revision && resulting == n.db.workplaces[a.ref].state.revision
    requires n.ledger.authorizations == w.ledger.authorizations[a := Granted(task, now)]
    requires n.ledger.consumptions == w.ledger.consumptions[a := resulting]
    ensures LedgerOk(n)
  {
    forall x <- w.ledger.consumptions | x.ref == a.ref
      ensures Disjoint(x, w.ledger.consumptions[x], a, resulting) && Disjoint(a, resulting, x, w.ledger.consumptions[x])
    {
    }
    hide Disjoint;
  }

  /** Every recovery keeps the ledger one-shot: rows one-to-one, intervals pairwise disjoint. */
  lemma RecoverKeepsLedger(w: World, d: Directive, facts: Facts, prior: Option<Authorization>, now: Millis)
    requires WorkplacesValid(w.db.workplaces) && LedgerOk(w) && Recover(w, d, facts, prior, now).Ok?
    ensures LedgerOk(Recover(w, d, facts, prior, now).value.world)
  {
    if !Recover(w, d, facts, prior, now).value.replayed {
      RecoverFoundIff(w, d, facts, prior, now);
      var c := Find(w.db, d.kind, facts).value;
      var r := Recover(w, d, facts, prior, now).value;
      var a := Authorization(d, c.ref, w.db.workplaces[c.ref].state.revision, c.evidence);
      hide Recover, Find, LedgerOk, Requeued, WorkplacesValid;
      CommandsNonEmpty(d.kind);
      RequeuedRef(w.db, r.world.db, c.ref, |Commands(d.kind)|);
      FreshInterval(w, r.world, a, r.resulting, c.task, now, |Commands(d.kind)|);
    }
  }

  lemma CommandsNonEmpty(kind: Kind)
    ensures |Commands(kind)| > 0
  {
  }

  lemma RequeuedRef(t: Tables, n: Tables, ref: WorkplaceRef, steps: nat)
    requires Requeued(t, n, ref, steps)
    ensures ref in t.workplaces && ref in n.workplaces
  {
  }

  /** Whatever else the factory commits between recoveries, the recorded intervals stay in the past. */
  lemma OthersKeepLedger(w: World, db: Tables)
    requires LedgerOk(w) && WorkplacesGrow(w.db.workplaces, db.workplaces)
    ensures LedgerOk(World(db, w.ledger))
  {
    hide Disjoint;
  }

  // ---- any run of recoveries, interleaved with the rest of the factory ------------------------------------

  datatype Event =
    | Issue(directive: Directive, facts: Facts, prior: Option<Authorization>, now: Millis)
    /** Any other transaction, as what it left in the tables. */
    | Elsewhere(db: Tables)

  /** Other transactions keep the protocol's invariant and undo nothing final; a verb may read any newest prior. */
  ghost predicate Legal(w: World, event: Event) {
    match event
    case Issue(d, _, prior, _) => IsPrior(w, d, prior)
    case Elsewhere(db) => Inv(db) && Grows(w.db, db)
  }

  function Step(w: World, event: Event): World {
    match event
    case Issue(d, facts, prior, now) =>
      var r := Recover(w, d, facts, prior, now);
      if r.Ok? then r.value.world else w
    case Elsewhere(db) => w.(db := db)
  }

  function RunEvents(w: World, events: seq<Event>): World
    decreases |events|
  {
    if events == [] then w else RunEvents(Step(w, events[0]), events[1..])
  }

  ghost predicate LegalRun(w: World, events: seq<Event>)
    decreases |events|
  {
    events == [] || (Legal(w, events[0]) && LegalRun(Step(w, events[0]), events[1..]))
  }

  lemma {:induction false} DriveKeeps(t: Tables, ref: WorkplaceRef, task: TaskId, commands: seq<Command>)
    requires Inv(t) && Drive(t, ref, task, commands).Ok? && forall c <- commands :: !c.Reserve?
    ensures Inv(Drive(t, ref, task, commands).value)
    decreases |commands|
  {
    hide Inv, Grows, UseCase;
    if commands != [] {
      assert commands[0] in commands;
      UseCaseKeeps(t, ref, task, commands[0]);
      forall c <- commands[1..] ensures !c.Reserve? { assert c in commands; }
      DriveKeeps(UseCase(t, ref, task, commands[0]).value.tables, ref, task, commands[1..]);
    }
  }

  lemma RecoverKeepsInv(w: World, d: Directive, facts: Facts, prior: Option<Authorization>, now: Millis)
    requires Inv(w.db) && Recover(w, d, facts, prior, now).Ok?
    ensures Inv(Recover(w, d, facts, prior, now).value.world.db)
  {
    hide Inv, Find, Drive, Repeats, Grows;
    if Find(w.db, d.kind, facts).Ok? {
      var c := Find(w.db, d.kind, facts).value;
      if Drive(w.db, c.ref, c.task, Commands(d.kind)).Ok? {
        DriveKeeps(w.db, c.ref, c.task, Commands(d.kind));
      }
    }
  }

  /** Over every legal run each directive row is consumed once and no two recoveries claim the same revision. */
  lemma {:induction false} RecoveriesAreOneShot(w: World, events: seq<Event>)
    requires Inv(w.db) && LedgerOk(w) && LegalRun(w, events)
    ensures Inv(RunEvents(w, events).db) && LedgerOk(RunEvents(w, events))
    decreases |events|
  {
    hide Inv, LedgerOk, Recover, Grows, WorkplacesGrow, WorkplacesValid;
    if events != [] {
      match events[0] {
        case Issue(d, facts, prior, now) =>
          if Recover(w, d, facts, prior, now).Ok? {
            InvValid(w.db);
            RecoverKeepsInv(w, d, facts, prior, now);
            RecoverKeepsLedger(w, d, facts, prior, now);
          }
        case Elsewhere(db) =>
          GrowsWorkplaces(w.db, db);
          OthersKeepLedger(w, db);
      }
      RecoveriesAreOneShot(Step(w, events[0]), events[1..]);
    }
  }

  lemma InvValid(t: Tables)
    requires Inv(t)
    ensures WorkplacesValid(t.workplaces)
  {
  }

  lemma GrowsWorkplaces(a: Tables, b: Tables)
    requires Grows(a, b)
    ensures WorkplacesGrow(a.workplaces, b.workplaces)
  {
  }

  // ---- re-issuing -------------------------------------------------------------------------------------------

  predicate NewerThanAll(w: World, d: Directive, now: Millis) {
    forall a <- w.ledger.authorizations :: Repeats(w, d, a) ==> w.ledger.authorizations[a].at < now
  }

  /**
   * The same directive again, while its workplace is still queued and whatever
   * else has changed: every newest prior is the one just consumed, so nothing is
   * written and the same revision is reported.
   */
  lemma ReissueChangesNothing(w: World, d: Directive, facts: Facts, c: Candidate, prior: Option<Authorization>, now: Millis,
                              db: Tables, facts': Facts, prior': Option<Authorization>, now': Millis)
    requires WorkplacesValid(w.db.workplaces) && LedgerOk(w) && NewerThanAll(w, d, now)
    requires Recover(w, d, facts, prior, now).Ok? && !Recover(w, d, facts, prior, now).value.replayed
    requires
      var first := Recover(w, d, facts, prior, now).value;
      var again := World(db, first.world.ledger);
      && WorkplacesGrow(first.world.db.workplaces, db.workplaces) && IsPrior(again, d, prior')
      && Recoverable(w.db, d.kind, facts, c) && c.ref in db.workplaces && db.workplaces[c.ref].state.loop == Queued
    ensures
      var first := Recover(w, d, facts, prior, now).value;
      var again := World(db, first.world.ledger);
      Recover(again, d, facts', prior', now') == Ok(Recovery(again, first.resulting, true))
  {
    RecoverFoundIff(w, d, facts, prior, now);
    FindIff(w.db, d.kind, facts, c);
    var first := Recover(w, d, facts, prior, now).value;
    var again := World(db, first.world.ledger);
    var a := Authorization(d, c.ref, w.db.workplaces[c.ref].state.revision, c.evidence);
    OnlyNewest(w, again, d, a, c.task, now, prior');
    hide Find, Drive, LedgerOk, IsPrior, WorkplacesValid, WorkplacesGrow, Requeued, Recoverable;
  }

  lemma OnlyNewest(w: World, again: World, d: Directive, a: Authorization, task: TaskId, now: Millis, prior: Option<Authorization>)
    requires LedgerOk(w) && NewerThanAll(w, d, now) && a.directive == d && a.ref in again.db.workplaces
    requires again.ledger.authorizations == w.ledger.authorizations[a := Granted(task, now)]
    requires a in again.ledger.consumptions && forall x <- w.ledger.authorizations :: x != a ==> (x in again.ledger.consumptions <==> x in w.ledger.consumptions)
    requires IsPrior(again, d, prior)
    ensures prior == Some(a)
  {
    assert Repeats(again, d, a);
    forall p | Repeats(again, d, p) && p != a ensures again.ledger.authorizations[p].at < now {
      assert p in w.ledger.authorizations && p in w.ledger.consumptions;
      assert Repeats(w, d, p);
    }
  }

  predicate IsReplay(w: World, d: Directive, prior: Option<Authorization>) {
    prior.Some? && Repeats(w, d, prior.value) && w.db.workplaces[prior.value.ref].state.loop == Queued
  }

  /** Issuing a directive leaves everything as it was exactly when it replays or finds nothing it may recover. */
  lemma IssueIsIdleIff(w: World, d: Directive, facts: Facts, prior: Option<Authorization>, now: Millis)
    requires WorkplacesValid(w.db.workplaces) && LedgerOk(w)
    ensures Step(w, Issue(d, facts, prior, now)) == w <==>
      IsReplay(w, d, prior) || !SomeRecoverable(w.db, d.kind, facts) || (d.kind.MissingProduct? && facts.launches > 1)
  {
    FoundIff(w.db, d.kind, facts);
    if !IsReplay(w, d, prior) {
      RecoverFoundIff(w, d, facts, prior, now);
    }
    hide Find, Drive, LedgerOk, WorkplacesValid, Repeats, Requeued, SomeRecoverable, Recoverable;
  }

  const SHELF := "workplace/7/m@1/cell/shelf"
  const BENCH := "workplace/7/m@1/cell/bench"

  /** One directive recovered two workplaces of a process run within a second; one of them is parked again. */
  function TiedRecoveries(): World {
    var d := Directive(PausedSubmission, 3, 1, 1);
    var card := Task(TaskBlocked, None, None, Some(SHELF), Some(SHELF), 7, 0, false, [], false, false, NotRequired, None, None);
    var queued := Task(TaskTodo, None, None, Some(BENCH), Some(BENCH), 7, 0, false, [], false, false, NotRequired, None, None);
    World(
      Tables(map[SHELF := WorkplaceRow(WorkplaceState(Blocked, Paused, Author, 9, None), None, None, None, 7),
                 BENCH := WorkplaceRow(WorkplaceState(InProgress, Queued, Author, 6, None), None, None, None, 7)],
             map[], map[2 := card, 4 := queued], map[], map[], map[], map[7 := 0], {}),
      Ledger(map[Authorization(d, SHELF, 4, 1) := Granted(2, 5), Authorization(d, BENCH, 5, 1) := Granted(4, 5)],
             map[Authorization(d, SHELF, 4, 1) := 5, Authorization(d, BENCH, 5, 1) := 6]))
  }

  /** Grant times count seconds: on a tie the query may return either row, so the same call replays or recovers again. */
  lemma TiedReissueMayRecoverAgain()
    ensures
      var w, d := TiedRecoveries(), Directive(PausedSubmission, 3, 1, 1);
      var facts := Facts(true, 7, {}, Some(2), true, false, 0);
      var shelf, bench := Some(Authorization(d, SHELF, 4, 1)), Some(Authorization(d, BENCH, 5, 1));
      && Inv(w.db) && LedgerOk(w) && IsPrior(w, d, shelf) && IsPrior(w, d, bench)
      && Step(w, Issue(d, facts, bench, 6)) == w
      && Step(w, Issue(d, facts, shelf, 6)) != w
  {
    TiedState();
    TiedCandidate();
    var w, d := TiedRecoveries(), Directive(PausedSubmission, 3, 1, 1);
    var facts := Facts(true, 7, {}, Some(2), true, false, 0);
    IssueIsIdleIff(w, d, facts, Some(Authorization(d, BENCH, 5, 1)), 6);
    IssueIsIdleIff(w, d, facts, Some(Authorization(d, SHELF, 4, 1)), 6);
    hide TiedRecoveries, IsReplay, Repeats, Find, Step, Inv, LedgerOk, IsPrior, WorkplacesValid, SomeRecoverable;
  }

  lemma TiedState()
    ensures
      var w, d := TiedRecoveries(), Directive(PausedSubmission, 3, 1, 1);
      var shelf, bench := Some(Authorization(d, SHELF, 4, 1)), Some(Authorization(d, BENCH, 5, 1));
      && Inv(w.db) && WorkplacesValid(w.db.workplaces) && LedgerOk(w) && IsPrior(w, d, shelf) && IsPrior(w, d, bench)
      && !IsReplay(w, d, shelf) && IsReplay(w, d, bench)
  {
    TiedTables();
    TiedLedger();
    TiedPriors();
    hide *;
  }

  lemma TiedTables()
    ensures Inv(TiedRecoveries().db) && WorkplacesValid(TiedRecoveries().db.workplaces)
  {
  }

  lemma TiedLedger()
    ensures LedgerOk(TiedRecoveries())
  {
    hide Valid, WorkplacesValid;
  }

  lemma TiedPriors()
    ensures
      var w, d := TiedRecoveries(), Directive(PausedSubmission, 3, 1, 1);
      var shelf, bench := Some(Authorization(d, SHELF, 4, 1)), Some(Authorization(d, BENCH, 5, 1));
      IsPrior(w, d, shelf) && IsPrior(w, d, bench) && !IsReplay(w, d, shelf) && IsReplay(w, d, bench)
  {
    hide Inv, LedgerOk;
  }

  lemma TiedCandidate()
    ensures SomeRecoverable(TiedRecoveries().db, PausedSubmission, Facts(true, 7, {}, Some(2), true, false, 0))
  {
    assert MayResume(TiedRecoveries().db, Facts(true, 7, {}, Some(2), true, false, 0), Candidate(SHELF, 2, 2));
    assert Recoverable(TiedRecoveries().db, PausedSubmission, Facts(true, 7, {}, Some(2), true, false, 0), Candidate(SHELF, 2, 2));
  }

  // ---- the verbs ----------------------------------------------------------------------------------------------

  class RecoveryTables {
    var authorizations: map<Authorization, Granted>
    var consumptions: map<Authorization, nat>

    function Rows(): Ledger
      reads this
    {
      Ledger(authorizations, consumptions)
    }
  }

  /** The newest consumed authorization of the same directive; on a tie, any of them. */
  method SelectPrior(db: FactoryDb, rows: RecoveryTables, d: Directive) returns (prior: Option<Authorization>)
    ensures IsPrior(World(db.Rows(), rows.Rows()), d, prior)
  {
    ghost var w := World(db.Rows(), rows.Rows());
    prior := None;
    var rest := rows.authorizations.Keys;
    while rest != {}
      invariant rest <= rows.authorizations.Keys
      invariant prior.Some? ==> Repeats(w, d, prior.value)
      invariant forall a <- rows.authorizations.Keys - rest :: Repeats(w, d, a) ==>
        prior.Some? && rows.authorizations[a].at <= rows.authorizations[prior.value].at
      decreases |rest|
    {
      var a :| a in rest;
      rest := rest - {a};
      if a in rows.consumptions && a.ref in db.workplaces && SameTables(a.directive.kind, d.kind)
         && a.directive.lifecycle == d.lifecycle && a.directive.actor == d.actor && a.directive.reason == d.reason
         && (prior.None? || rows.authorizations[prior.value].at < rows.authorizations[a].at)
      {
        prior := Some(a);
      }
    }
  }

  method DriveUseCases(db: FactoryDb, ref: WorkplaceRef, task: TaskId, commands: seq<Command>) returns (r: Result<()>)
    modifies db
    ensures match Drive(old(db.Rows()), ref, task, commands)
            case Err(e) => r == Err(e)
            case Ok(t) => r.Ok? && db.Rows() == t
  {
    hide UseCase;
    var runtime := new ConveyorRuntime(db);
    var i := 0;
    assert commands[0..] == commands;
    while i < |commands|
      invariant 0 <= i <= |commands|
      invariant Drive(old(db.Rows()), ref, task, commands) == Drive(db.Rows(), ref, task, commands[i..])
    {
      assert commands[i..][0] == commands[i] && commands[i..][1..] == commands[i + 1..];
      var step := runtime.Atomically(ref, task, commands[i]);
      if step.Err? {
        return Err(step.error);
      }
      if !step.value {
        return Err("changed during operator recovery");
      }
      i := i + 1;
    }
    r := Ok(());
  }

  /** The writes of one verb; any throw rolls the authorization and the transitions back. */
  method GrantRecovery(db: FactoryDb, rows: RecoveryTables, d: Directive, facts: Facts, c: Candidate, now: Millis) returns (r: Result<nat>)
    modifies db, rows
    ensures match Grant(World(old(db.Rows()), old(rows.Rows())), d, facts, c, now)
            case Err(e) => r == Err(e) && db.Rows() == old(db.Rows()) && rows.Rows() == old(rows.Rows())
            case Ok(done) => r == Ok(done.resulting) && World(db.Rows(), rows.Rows()) == done.world
  {
    hide Drive, LaunchesAllow, Commands;
    if c.ref !in db.workplaces {
      return Err("WORKPLACE_NOT_FOUND");
    }
    var before := db.Rows();
    var a := Authorization(d, c.ref, db.workplaces[c.ref].state.revision, c.evidence);
    if a in rows.authorizations || a in rows.consumptions {
      return Err("SQLITE_CONSTRAINT");
    }
    var authorizations := rows.authorizations;
    rows.authorizations := authorizations[a := Granted(c.task, now)];
    var driven := DriveUseCases(db, c.ref, c.task, Commands(d.kind));
    var thrown := if driven.Err? then Some(driven.error)
                  else if c.ref !in db.workplaces || db.workplaces[c.ref].state.revision != a.expected + |Commands(d.kind)|
                  then Some("changed during operator recovery")
                  else if !LaunchesAllow(d.kind, facts) then Some("FACTORY_MISSING_PRODUCT_UNSAFE") else None;
    if thrown.Some? {
      db.Restore(before);
      rows.authorizations := authorizations;
      return Err(thrown.value);
    }
    rows.consumptions := rows.consumptions[a := db.workplaces[c.ref].state.revision];
    r := Ok(db.workplaces[c.ref].state.revision);
  }

  /** One recovery verb, start to commit: replay the newest grant of the directive, or find the candidate and grant. */
  method RecoverWorkplace(db: FactoryDb, rows: RecoveryTables, d: Directive, facts: Facts, now: Millis)
    returns (r: Result<(nat, bool)>, ghost prior: Option<Authorization>)
    modifies db, rows
    ensures IsPrior(World(old(db.Rows()), old(rows.Rows())), d, prior)
    ensures match Recover(World(old(db.Rows()), old(rows.Rows())), d, facts, prior, now)
            case Err(e) => r == Err(e) && db.Rows() == old(db.Rows()) && rows.Rows() == old(rows.Rows())
            case Ok(done) => r == Ok((done.resulting, done.replayed)) && World(db.Rows(), rows.Rows()) == done.world
  {
    hide Find, Grant, IsPrior;
    var newest := SelectPrior(db, rows, d);
    prior := newest;
    if newest.Some? && Repeats(World(db.Rows(), rows.Rows()), d, newest.value) && db.workplaces[newest.value.ref].state.loop == Queued {
      return Ok((rows.consumptions[newest.value], true)), prior;
    }
    var found := Find(db.Rows(), d.kind, facts);
    if found.Err? {
      return Err(found.error), prior;
    }
    GrantIsFresh(World(db.Rows(), rows.Rows()), d, facts, found.value, now);
    var granted := GrantRecovery(db, rows, d, facts, found.value, now);
    r := if granted.Ok? then Ok((granted.value, false)) else Err(granted.error);
  }

  lemma GrantIsFresh(w: World, d: Directive, facts: Facts, c: Candidate, now: Millis)
    ensures Grant(w, d, facts, c, now).Ok? ==> !Grant(w, d, facts, c, now).value.replayed
  {
    hide Drive, Commands, LaunchesAllow;
  }
}
