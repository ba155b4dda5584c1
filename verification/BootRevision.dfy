/** The boot revision: adoption, burial, stop convergence and the stale-worker sweep, in that order. */
module BootRevision {
  import opened Results
  import opened Workplaces
  import opened FactoryTables
  import opened ConveyorRuntimes
  import opened WorkAssignment
  import opened SoftStop
  import opened Invariants
  import opened StopProtocol
  import opened Supervision
  import opened LifecycleBurial
  import opened RunReferences
  import Adoption = EngineStartAdoption

  // ---- the stale-worker sweep of one scope ----------------------------------------------------

  /** What the sweep captured of a reservation before the reaper ran: the workplace and the card bound to it, if any. */
  datatype Binding = Binding(ref: WorkplaceRef, task: Option<TaskId>)

  datatype Scope = Scope(project: nat, rows: seq<SweptRow>, bound: map<ExecutionId, Binding>)

  predicate BindingOk(t: Tables, project: nat, e: ExecutionId, b: Binding) {
    && InProject(t, b.ref, project)
    && t.workplaces[b.ref].reservation == Some(e) && Hirable(t.workplaces[b.ref].state.loop)
    && (match b.task
        case Some(id) => Adoption.BoundTo(t, id, b.ref)
        case None => !Adoption.HasCard(t, b.ref))
  }

  /** The hired workplaces of the scope, keyed by the execution each reserves. */
  predicate Bindings(t: Tables, project: nat, bound: map<ExecutionId, Binding>) {
    && (forall e <- bound :: BindingOk(t, project, e, bound[e]))
    && (forall ref <- t.workplaces ::
          InProject(t, ref, project) && t.workplaces[ref].reservation.Some? && Hirable(t.workplaces[ref].state.loop)
          ==> t.workplaces[ref].reservation.value in bound)
  }

  /** The workplace of one reaped worker goes to repair, unless its completion was accepted; a refusal is left to the next start. */
  function ReleaseSwept(t: Tables, result: SweepResult, bound: map<ExecutionId, Binding>): Tables {
    var e := result.execution;
    if !(result.action.LostRow? || result.action.TerminatedRow?) || e !in bound || e in t.receipts || bound[e].task.None? then t
    else
      match UseCase(t, bound[e].ref, bound[e].task.value, ReleaseShift(e, Crashed))
      case Err(_) => t
      case Ok(tr) => tr.tables
  }

  function ReleaseAllSwept(t: Tables, results: seq<SweepResult>, bound: map<ExecutionId, Binding>): Tables
    decreases |results|
  {
    if results == [] then t else ReleaseAllSwept(ReleaseSwept(t, results[0], bound), results[1..], bound)
  }

  function SweepScope(t: Tables, scope: Scope, probes: ExecutionId -> PidProbe, host: MachineId, now: Millis): Tables {
    var reconciled := Reconcile(t, scope.rows, probes, host, now);
    ReleaseAllSwept(reconciled.tables, reconciled.results, scope.bound)
  }

  function SweepScopes(t: Tables, scopes: seq<Scope>, probes: ExecutionId -> PidProbe, host: MachineId, now: Millis): Tables
    decreases |scopes|
  {
    if scopes == [] then t else SweepScopes(SweepScope(t, scopes[0], probes, host, now), scopes[1..], probes, host, now)
  }

  /** Each sweep ran over what its own selections returned, on the tables the sweeps before it left. */
  predicate ScopesSelected(t: Tables, scopes: seq<Scope>, probes: ExecutionId -> PidProbe, host: MachineId, now: Millis)
    decreases |scopes|
  {
    scopes == [] ||
    (&& Swept(t, scopes[0].rows, scopes[0].project) && Bindings(t, scopes[0].project, scopes[0].bound)
     && ScopesSelected(SweepScope(t, scopes[0], probes, host, now), scopes[1..], probes, host, now))
  }

  predicate Visits(scopes: seq<Scope>, project: nat) {
    exists i | 0 <= i < |scopes| :: scopes[i].project == project
  }

  /** One sweep for each project with an active execution, and none for any other. */
  predicate CoversProjects(t: Tables, scopes: seq<Scope>) {
    && (forall i, j | 0 <= i < j < |scopes| :: scopes[i].project != scopes[j].project)
    && (forall e <- t.executions :: Live(t, e) ==> Visits(scopes, t.executions[e].project))
    && (forall scope <- scopes :: exists e <- t.executions :: Live(t, e) && t.executions[e].project == scope.project)
  }

  /** Everything the four passes select and are told. */
  datatype Boot = Boot(
    kernel: seq<Adoption.HeldRow>,
    residue: seq<Adoption.HeldRow>,
    cause: nat,
    dead: map<nat, nat>,
    stops: seq<ReapRow>,
    stopProbes: ExecutionId -> Probe,
    scopes: seq<Scope>,
    probes: ExecutionId -> PidProbe,
    host: MachineId,
    now: Millis)

  function AfterBurial(t: Tables, boot: Boot): Tables {
    Bury(Adoption.Adopt(t, boot.kernel, boot.residue, boot.cause), boot.dead)
  }

  function Revise(t: Tables, boot: Boot): Result<Tables> {
    match ReapAll(AfterBurial(t, boot), boot.stops, boot.stopProbes, boot.host)
    case Err(e) => Err(e)
    case Ok(pass) => Ok(SweepScopes(pass.tables, boot.scopes, boot.probes, boot.host, boot.now))
  }

  // ---- what the sweep leaves alone ----------------------------------------------------------------

  /** Stops, holds and obligations as they were, no execution revived, no finished workplace reopened. */
  predicate LeftAlone(t: Tables, n: Tables) {
    && n.stops == t.stops && n.holds == t.holds && n.obligations == t.obligations && n.runs == t.runs
    && t.executions.Keys == n.executions.Keys
    && (forall e <- t.executions :: Dead(t, e) ==> Dead(n, e))
    && n.workplaces.Keys == t.workplaces.Keys
    && forall ref <- t.workplaces :: n.workplaces[ref].processRun == t.workplaces[ref].processRun
         && (t.workplaces[ref].state.loop == Terminal ==> n.workplaces[ref] == t.workplaces[ref])
  }

  lemma LeftAloneTransitive(a: Tables, b: Tables, c: Tables)
    requires LeftAlone(a, b) && LeftAlone(b, c)
    ensures LeftAlone(a, c)
  {
  }

  lemma ReleaseFrame(t: Tables, e: ExecutionId, terminal: ExecutionState)
    ensures
      var n := ReleaseExecution(t, e, terminal, None).tables;
      n == t.(executions := n.executions, tasks := n.tasks)
  {
    hide RetryExhausted, RestoredStatus;
  }

  lemma StampFrame(t: Tables, e: ExecutionId, now: Millis)
    ensures StampSuspected(t, e, now) == t.(executions := StampSuspected(t, e, now).executions)
    ensures StampCancel(t, e, now) == t.(executions := StampCancel(t, e, now).executions)
  {
  }

  lemma ApplyFrame(t: Tables, row: SweptRow, action: Action, probe: PidProbe, host: MachineId, now: Millis)
    ensures
      var n := ApplyAction(t, row, action, probe, host, now).tables;
      n == t.(executions := n.executions, tasks := n.tasks)
  {
    ReleaseFrame(t, row.id, ExecTerminated);
    StampFrame(t, row.id, now);
    if action.ReleaseAs? {
      ReleaseFrame(t, row.id, action.terminal);
    }
    hide ReleaseExecution, StampSuspected, StampCancel;
  }

  lemma SweepRowFrame(t: Tables, row: SweptRow, probe: PidProbe, host: MachineId, now: Millis)
    ensures
      var n := SweepRow(t, row, probe, host, now).tables;
      n == t.(executions := n.executions, tasks := n.tasks)
  {
    ReleaseFrame(t, row.id, ExecLost);
    ApplyFrame(t, row, DecideStuckAction(row.execution, FactsOf(row, probe, host, now), now), probe, host, now);
    hide ReleaseExecution, ApplyAction, DecideStuckAction, FactsOf, ClassifyWorkerProcessIdentity, Guarded, HeartbeatStale;
  }

  lemma DeadStays(a: Tables, b: Tables)
    requires Grows(a, b)
    ensures forall e <- a.executions :: Dead(a, e) ==> Dead(b, e)
  {
  }

  lemma SweepRowSwept(t: Tables, row: SweptRow, probe: PidProbe, host: MachineId, now: Millis)
    requires Inv(t)
    ensures LeftAlone(t, SweepRow(t, row, probe, host, now).tables)
  {
    SweepRowFrame(t, row, probe, host, now);
    SweepRowWrites(t, row, probe, host, now);
    SweepRowKeeps(t, row, probe, host, now);
    DeadStays(t, SweepRow(t, row, probe, host, now).tables);
    hide Inv, Grows, SweepRow, Dead;
  }

  lemma {:induction false} ReconcileSwept(t: Tables, rows: seq<SweptRow>, probes: ExecutionId -> PidProbe, host: MachineId, now: Millis)
    requires Inv(t)
    ensures LeftAlone(t, Reconcile(t, rows, probes, host, now).tables)
    decreases |rows|
  {
    hide Inv, Grows, SweepRow, LeftAlone;
    if rows == [] {
      LeftAloneReflexive(t);
    } else {
      var m := SweepRow(t, rows[0], probes(rows[0].id), host, now).tables;
      SweepRowSwept(t, rows[0], probes(rows[0].id), host, now);
      SweepRowKeeps(t, rows[0], probes(rows[0].id), host, now);
      ReconcileSwept(m, rows[1..], probes, host, now);
      LeftAloneTransitive(t, m, Reconcile(t, rows, probes, host, now).tables);
    }
  }

  lemma LeftAloneReflexive(t: Tables)
    ensures LeftAlone(t, t)
  {
  }

  /** A crash release only applies to a running workplace, so never to a finished one. */
  lemma CrashReleaseSwept(t: Tables, ref: WorkplaceRef, task: TaskId, e: ExecutionId)
    requires Inv(t) && UseCase(t, ref, task, ReleaseShift(e, Crashed)).Ok?
    ensures
      var n := UseCase(t, ref, task, ReleaseShift(e, Crashed)).value.tables;
      LeftAlone(t, n) && Inv(n) && Grows(t, n)
  {
    CompareAndSetNeverMisses(t, ref, task, ReleaseShift(e, Crashed));
    UseCaseKeeps(t, ref, task, ReleaseShift(e, Crashed));
    CrashNeedsRunning(t, ref, task, e);
    var n := UseCase(t, ref, task, ReleaseShift(e, Crashed)).value.tables;
    hide UseCase, Inv, Grows, PlanFor, Reduce, Valid;
    assert n.executions == t.executions;
  }

  lemma CrashNeedsRunning(t: Tables, ref: WorkplaceRef, task: TaskId, e: ExecutionId)
    requires UseCase(t, ref, task, ReleaseShift(e, Crashed)).Ok?
    ensures ref in t.workplaces && t.workplaces[ref].state.loop == Running
    ensures UseCase(t, ref, task, ReleaseShift(e, Crashed)).value.tables.workplaces[ref].processRun == t.workplaces[ref].processRun
  {
  }

  lemma ReleaseSweptKeeps(t: Tables, result: SweepResult, bound: map<ExecutionId, Binding>)
    requires Inv(t)
    ensures
      var n := ReleaseSwept(t, result, bound);
      LeftAlone(t, n) && Inv(n) && Grows(t, n)
  {
    LeftAloneReflexive(t);
    GrowsReflexive(t);
    hide Inv, Grows, UseCase, LeftAlone;
    var e := result.execution;
    if e in bound && bound[e].task.Some? && UseCase(t, bound[e].ref, bound[e].task.value, ReleaseShift(e, Crashed)).Ok? {
      CrashReleaseSwept(t, bound[e].ref, bound[e].task.value, e);
    }
  }

  lemma {:induction false} ReleaseAllSweptKeeps(t: Tables, results: seq<SweepResult>, bound: map<ExecutionId, Binding>)
    requires Inv(t)
    ensures
      var n := ReleaseAllSwept(t, results, bound);
      LeftAlone(t, n) && Inv(n) && Grows(t, n)
    decreases |results|
  {
    hide Inv, Grows, ReleaseSwept, LeftAlone;
    if results == [] {
      LeftAloneReflexive(t);
      GrowsReflexive(t);
    } else {
      ReleaseSweptKeeps(t, results[0], bound);
      var m := ReleaseSwept(t, results[0], bound);
      ReleaseAllSweptKeeps(m, results[1..], bound);
      LeftAloneTransitive(t, m, ReleaseAllSwept(t, results, bound));
      GrowsTransitive(t, m, ReleaseAllSwept(t, results, bound));
    }
  }

  lemma {:induction false} SweepScopesKeep(t: Tables, scopes: seq<Scope>, probes: ExecutionId -> PidProbe, host: MachineId, now: Millis)
    requires Inv(t)
    ensures
      var n := SweepScopes(t, scopes, probes, host, now);
      LeftAlone(t, n) && Inv(n) && Grows(t, n)
    decreases |scopes|
  {
    hide Inv, Grows, Reconcile, ReleaseAllSwept, LeftAlone;
    if scopes == [] {
      LeftAloneReflexive(t);
      GrowsReflexive(t);
    } else {
      var r := Reconcile(t, scopes[0].rows, probes, host, now);
      ReconcileSwept(t, scopes[0].rows, probes, host, now);
      ReconcileKeeps(t, scopes[0].rows, probes, host, now);
      ReleaseAllSweptKeeps(r.tables, r.results, scopes[0].bound);
      var m := SweepScope(t, scopes[0], probes, host, now);
      LeftAloneTransitive(t, r.tables, m);
      GrowsTransitive(t, r.tables, m);
      SweepScopesKeep(m, scopes[1..], probes, host, now);
      LeftAloneTransitive(t, m, SweepScopes(t, scopes, probes, host, now));
      GrowsTransitive(t, m, SweepScopes(t, scopes, probes, host, now));
    }
  }

  // ---- the burial survives the later passes ----------------------------------------------------------

  /** No open obligation and no unfinished workplace belongs to a dead run. */
  predicate RunsClosed(t: Tables, dead: map<nat, nat>) {
    && (forall k <- t.obligations :: !Condemned(t.obligations[k], dead))
    && (forall ref <- t.workplaces :: !Orphan(t.workplaces[ref], dead))
  }

  lemma FinishFenceClosed(t: Tables, e: ExecutionId, id: TaskId, ref: Option<WorkplaceRef>, rewound: bool, kernelSkipped: bool, dead: map<nat, nat>)
    requires RunsClosed(t, dead)
    ensures RunsClosed(FinishFence(t, e, id, ref, rewound, kernelSkipped).tables, dead)
  {
    var cleared := if ref.Some? then ClearObligationLeases(t, ref.value) else t;
    ClearedStayClosed(t, ref, dead);
    FinishFenceWrites(t, e, id, ref, rewound, kernelSkipped);
    hide ClearObligationLeases, FinishFence, RunsClosed;
    SameClosed(cleared, FinishFence(t, e, id, ref, rewound, kernelSkipped).tables, dead);
  }

  lemma FinishFenceWrites(t: Tables, e: ExecutionId, id: TaskId, ref: Option<WorkplaceRef>, rewound: bool, kernelSkipped: bool)
    ensures
      var cleared := if ref.Some? then ClearObligationLeases(t, ref.value) else t;
      var n := FinishFence(t, e, id, ref, rewound, kernelSkipped).tables;
      n.obligations == cleared.obligations && n.workplaces == cleared.workplaces
  {
    hide ReleasesTask;
  }

  lemma ClearedStayClosed(t: Tables, ref: Option<WorkplaceRef>, dead: map<nat, nat>)
    requires RunsClosed(t, dead)
    ensures RunsClosed(if ref.Some? then ClearObligationLeases(t, ref.value) else t, dead)
  {
    hide SubjectNames, SourceNames;
  }

  lemma VoidAndRewindClosed(t: Tables, e: ExecutionId, ref: Option<WorkplaceRef>, dead: map<nat, nat>)
    requires WorkplacesValid(t.workplaces) && e in t.executions && RunsClosed(t, dead)
    ensures VoidAndRewind(t, e, ref).Ok? && RunsClosed(VoidAndRewind(t, e, ref).value.tables, dead)
  {
    if ref.Some? {
      RewindShape(VoidExecution(t, e), ref.value);
    }
    hide RewindWorkplace, Condemned;
  }

  lemma FenceClosed(t: Tables, e: ExecutionId, ref: Option<WorkplaceRef>, project: nat, dead: map<nat, nat>)
    requires Inv(t) && e in t.executions && RunsClosed(t, dead)
    ensures Fence(t, e, ref, project).Ok? && RunsClosed(Fence(t, e, ref, project).value.tables, dead)
  {
    LiveIsNotVoid(t, e);
    FenceKeeps(t, e, ref, project);
    var marked := UpsertStop(t, e, ref, project, Fenced);
    UpsertFrame(t, e, ref, project, Fenced);
    if Live(t, e) {
      hide Inv, Grows, Fence, VoidAndRewind, FinishFence, UpsertStop, WorkplacesValid, RunsClosed;
      SameClosed(t, marked, dead);
      VoidAndRewindClosed(marked, e, ref, dead);
      LiveFence(t, e, ref, project);
      var r := VoidAndRewind(marked, e, ref).value;
      FinishFenceClosed(r.tables, e, t.executions[e].task, ref, r.rewound, r.kernelSkipped, dead);
    } else {
      DeadFenceSame(t, e, ref, project);
      hide Inv, Grows, Fence, UpsertStop, RunsClosed;
      SameClosed(t, Fence(t, e, ref, project).value.tables, dead);
    }
  }

  lemma SameClosed(a: Tables, b: Tables, dead: map<nat, nat>)
    requires RunsClosed(a, dead) && b.obligations == a.obligations && b.workplaces == a.workplaces
    ensures RunsClosed(b, dead)
  {
  }

  lemma DeadFenceSame(t: Tables, e: ExecutionId, ref: Option<WorkplaceRef>, project: nat)
    requires Dead(t, e)
    ensures Fence(t, e, ref, project).Ok?
    ensures
      var n := Fence(t, e, ref, project).value.tables;
      n.obligations == t.obligations && n.workplaces == t.workplaces
  {
    UpsertFrame(t, e, ref, project, Fenced);
    hide VoidAndRewind, FinishFence, UpsertStop;
  }

  lemma {:induction false} ReapClosed(t: Tables, rows: seq<ReapRow>, probes: ExecutionId -> Probe, host: MachineId, dead: map<nat, nat>)
    requires Inv(t) && RunsClosed(t, dead) && ReapAll(t, rows, probes, host).Ok?
    requires forall row <- rows :: row.execution in t.executions
    ensures RunsClosed(ReapAll(t, rows, probes, host).value.tables, dead)
    decreases |rows|
  {
    hide Inv, Grows, Fence, RunsClosed, ReapVerdict;
    if rows != [] {
      assert rows[0] in rows;
      var row := rows[0];
      FenceClosed(t, row.execution, row.ref, row.project, dead);
      ReapOneConverges(t, row, probes(row.execution), host);
      var f := Fence(t, row.execution, row.ref, row.project).value.tables;
      var n := ReapOne(t, row, probes(row.execution), host).value.tables;
      SameClosed(f, n, dead);
      GrownExecutions(t, n);
      forall r <- rows[1..] ensures r.execution in n.executions { assert r in rows; }
      ReapClosed(n, rows[1..], probes, host, dead);
    }
  }

  lemma SweptClosed(t: Tables, n: Tables, dead: map<nat, nat>)
    requires RunsClosed(t, dead) && LeftAlone(t, n)
    ensures RunsClosed(n, dead)
  {
    hide Condemned;
  }

  // ---- the whole revision ---------------------------------------------------------------------------------

  lemma {:induction false} MendAllKeeps(report: Adoption.Report, rows: seq<Adoption.HeldRow>, kind: Adoption.Kind, cause: nat)
    requires Inv(report.tables)
    ensures
      var n := Adoption.MendAll(report, rows, kind, cause).tables;
      Inv(n) && Grows(report.tables, n)
    decreases |rows|
  {
    hide Inv, Grows, Adoption.MendOne;
    if rows == [] {
      GrowsReflexive(report.tables);
    } else {
      var done := Adoption.MendOne(report.tables, rows[0], kind, cause);
      MendOneKeeps(report.tables, rows[0], kind, cause);
      var next := Adoption.File(report, rows[0], done);
      MendAllKeeps(next, rows[1..], kind, cause);
      GrowsTransitive(report.tables, done.tables, Adoption.MendAll(report, rows, kind, cause).tables);
    }
  }

  lemma AttemptKeeps(t: Tables, ref: WorkplaceRef, command: Command)
    requires Inv(t) && !command.Reserve?
    ensures Inv(Adoption.Attempt(t, ref, command).tables) && Grows(t, Adoption.Attempt(t, ref, command).tables)
  {
    GrowsReflexive(t);
    hide Inv, Grows, UseCase;
    if Adoption.HasCard(t, ref) && UseCase(t, ref, Adoption.LatestCard(t, ref), command).Ok? {
      UseCaseKeeps(t, ref, Adoption.LatestCard(t, ref), command);
    }
  }

  lemma MendOneKeeps(t: Tables, row: Adoption.HeldRow, kind: Adoption.Kind, cause: nat)
    requires Inv(t)
    ensures Inv(Adoption.MendOne(t, row, kind, cause).tables) && Grows(t, Adoption.MendOne(t, row, kind, cause).tables)
  {
    GrowsReflexive(t);
    hide Inv, Grows, Adoption.Attempt;
    AttemptKeeps(t, row.ref, if row.loop == Leased then Pause(Some(cause)) else ReleaseShift(row.execution, Crashed));
    if row.ref in t.workplaces {
      AttemptKeeps(t, row.ref, RejectIncomplete(t.workplaces[row.ref].state.role));
    }
  }

  lemma AfterBurialKeeps(t: Tables, boot: Boot)
    requires Inv(t)
    ensures Inv(AfterBurial(t, boot)) && Grows(t, AfterBurial(t, boot)) && RunsClosed(AfterBurial(t, boot), boot.dead)
  {
    hide Inv, Grows, Adoption.MendAll, Bury, RunsClosed;
    var m := Adoption.MendAll(Adoption.Empty(t), boot.kernel, Adoption.KernelRow, boot.cause).tables;
    MendAllKeeps(Adoption.Empty(t), boot.kernel, Adoption.KernelRow, boot.cause);
    MendAllKeeps(Adoption.Empty(m), boot.residue, Adoption.ResidueRow, boot.cause);
    var adopted := Adoption.Adopt(t, boot.kernel, boot.residue, boot.cause);
    GrowsTransitive(t, m, adopted);
    BuryKeeps(adopted, boot.dead);
    GrowsTransitive(t, adopted, Bury(adopted, boot.dead));
    BuriedRunsClosed(adopted, boot.dead);
  }

  lemma BuriedRunsClosed(t: Tables, dead: map<nat, nat>)
    ensures RunsClosed(Bury(t, dead), dead)
  {
    BurialCloses(t, dead);
    hide Condemned, Bury;
  }

  /**
   * A boot over any state the factory can reach never fails, leaves no stop
   * pending and no dead run with open obligations or workplaces: the later
   * passes reopen nothing the burial closed and revive nothing the reaper ended.
   */
  lemma BootConverges(t: Tables, boot: Boot)
    requires Inv(t) && Captured(AfterBurial(t, boot), boot.stops)
    ensures Revise(t, boot).Ok?
    ensures
      var n := Revise(t, boot).value;
      && Inv(n) && Grows(t, n)
      && Pending(n) == {}
      && (forall e <- n.stops :: Converged(n, e))
      && RunsClosed(n, boot.dead)
  {
    AfterBurialKeeps(t, boot);
    var buried := AfterBurial(t, boot);
    CapturedKnown(buried, boot.stops);
    hide Inv, Grows, AfterBurial, ReapAll, SweepScopes, RunsClosed, Captured;
    OneReaperPassConverges(buried, boot.stops, boot.stopProbes, boot.host);
    ReapClosed(buried, boot.stops, boot.stopProbes, boot.host, boot.dead);
    var reaped := ReapAll(buried, boot.stops, boot.stopProbes, boot.host).value.tables;
    SweepScopesKeep(reaped, boot.scopes, boot.probes, boot.host, boot.now);
    var n := Revise(t, boot).value;
    SweptClosed(reaped, n, boot.dead);
    GrowsTransitive(t, buried, reaped);
    GrowsTransitive(t, reaped, n);
    StillConverged(reaped, n);
  }

  lemma CapturedKnown(t: Tables, rows: seq<ReapRow>)
    requires Captured(t, rows)
    ensures forall row <- rows :: row.execution in t.executions
  {
  }

  lemma StillConverged(t: Tables, n: Tables)
    requires LeftAlone(t, n) && forall e <- t.stops :: DonePhase(t.stops[e].phase) && Dead(t, e)
    ensures Pending(n) == {} && forall e <- n.stops :: Converged(n, e)
  {
  }

  // ---- the cards of dead runs -----------------------------------------------------------------------------

  const ROOM: WorkplaceRef := "workplace/4/cell"

  /** A dead run's desk with a running worker whose operator stop was interrupted before its fence. */
  function HalfStopped(): Tables {
    var worker := Execution(2, 0, 7, 0, ExecRunning, Executing, None, None, true, false, 0, Some(StuckActive), Clocks(0, 0, 0, 0, 0, 0, 0));
    var card := Task(TaskInProgress, Some(7), Some(1), Some(ROOM), Some(ROOM), 4, 0, false, [], false, false, NotRequired, None, None);
    Tables(map[ROOM := WorkplaceRow(WorkplaceState(InProgress, Running, Author, 3, None), Some(1), None, None, 4)],
           map[1 := worker], map[2 := card], map[1 := Stop(EngineBraked, Some(ROOM), 0)], map[], map[], map[4 := 0], {})
  }

  /** What the burial leaves of it. */
  lemma BuriedHalfStopped(dead: map<nat, nat>)
    requires dead == map[4 := 9]
    ensures
      var t := Bury(HalfStopped(), dead);
      && Inv(HalfStopped()) && Inv(t) && Live(t, 1) && !t.executions[1].voided && t.executions[1].task == 2
      && t.executions == HalfStopped().executions && t.stops == HalfStopped().stops
      && 2 in t.tasks && t.tasks[2].status == TaskCancelled && t.tasks[2].workplace == Some(ROOM) && t.tasks[2].current == Some(1)
      && ROOM in t.workplaces && t.workplaces[ROOM].state.loop == Terminal && t.workplaces[ROOM].processRun in dead
  {
    HalfStoppedInv();
    BuryKeeps(HalfStopped(), dead);
    hide Inv, Grows, Condemned;
  }

  /**
   * The burial cancels the card, then the interrupted stop's fence returns it to
   * the queue: the closed cards of a dead run are not kept closed by the passes
   * that follow.
   */
  lemma ReaperReopensACancelledCard(probe: Probe, host: MachineId)
    ensures
      var t := HalfStopped();
      var dead: map<nat, nat> := map[4 := 9];
      var buried := Bury(t, dead);
      var row := ReapRow(1, Some(ROOM), 0, None, 0);
      && Inv(t) && !Phantom(buried, 2, dead) && Captured(buried, [row])
      && ReapOne(buried, row, probe, host).Ok?
      && Phantom(ReapOne(buried, row, probe, host).value.tables, 2, dead)
  {
    var dead: map<nat, nat> := map[4 := 9];
    BuriedHalfStopped(dead);
    hide Fence, Bury, Inv, Grows, ReapVerdict, HalfStopped, Captured;
    var buried := Bury(HalfStopped(), dead);
    HalfStoppedCaptured(buried, ReapRow(1, Some(ROOM), 0, None, 0));
    FenceReopensIff(buried, 1, Some(ROOM), 0, dead);
  }

  /** Exactly when a fence reopens a closed card of a dead run: when it releases it, which needs no open status. */
  lemma FenceReopensIff(t: Tables, e: ExecutionId, ref: Option<WorkplaceRef>, project: nat, dead: map<nat, nat>)
    requires Inv(t) && Live(t, e) && DeadCard(t, t.executions[e].task, dead) && !Phantom(t, t.executions[e].task, dead)
    ensures Fence(t, e, ref, project).Ok?
    ensures
      var id := t.executions[e].task;
      Phantom(Fence(t, e, ref, project).value.tables, id, dead) <==>
        && ref.Some? && ref.value in t.workplaces && !KernelOwned(t.workplaces[ref.value].state.loop)
        && t.tasks[id].current == Some(e)
  {
    LiveIsNotVoid(t, e);
    FenceReleasesTheCardIff(t, e, ref, project);
    FenceRuns(t, e, ref, project);
    hide Fence, Inv, WorkplacesValid;
  }

  /** A fence moves no workplace to another process run. */
  lemma FenceRuns(t: Tables, e: ExecutionId, ref: Option<WorkplaceRef>, project: nat)
    requires Inv(t) && Live(t, e)
    ensures Fence(t, e, ref, project).Ok?
    ensures
      var n := Fence(t, e, ref, project).value.tables;
      n.workplaces.Keys == t.workplaces.Keys && forall r <- t.workplaces :: n.workplaces[r].processRun == t.workplaces[r].processRun
  {
    LiveIsNotVoid(t, e);
    hide Inv, Fence, FinishFence, WorkplacesValid, UpsertStop;
    var marked := UpsertStop(t, e, ref, project, Fenced);
    UpsertFrame(t, e, ref, project, Fenced);
    if ref.Some? {
      RewindShape(VoidExecution(marked, e), ref.value);
    }
    assert VoidAndRewind(marked, e, ref).Ok?;
    LiveFence(t, e, ref, project);
    var r := VoidAndRewind(marked, e, ref).value;
    FinishFenceFrame(r.tables, e, t.executions[e].task, ref, r.rewound, r.kernelSkipped);
    hide RewindWorkplace;
  }

  lemma HalfStoppedInv()
    ensures Inv(HalfStopped())
  {
  }

  lemma HalfStoppedCaptured(t: Tables, row: ReapRow)
    requires t.executions == HalfStopped().executions && t.stops == HalfStopped().stops && row == ReapRow(1, Some(ROOM), 0, None, 0)
    ensures Captured(t, [row])
  {
    assert [row][0] == row;
  }

  // ---- the imperative form ---------------------------------------------------------------------------------

  method SelectBindings(db: FactoryDb, project: nat) returns (bound: map<ExecutionId, Binding>)
    ensures Bindings(db.Rows(), project, bound)
  {
    hide InProject, Adoption.HasCard;
    bound := map[];
    ghost var t := db.Rows();
    var todo := set ref | ref in db.workplaces && InProject(db.Rows(), ref, project)
                          && db.workplaces[ref].reservation.Some? && Hirable(db.workplaces[ref].state.loop);
    ghost var all := todo;
    while todo != {}
      invariant todo <= all
      invariant forall e <- bound :: BindingOk(t, project, e, bound[e])
      invariant forall ref <- all - todo :: t.workplaces[ref].reservation.value in bound
      decreases |todo|
    {
      var ref :| ref in todo;
      var task := if Adoption.HasCard(db.Rows(), ref) then Some(Adoption.LatestCard(db.Rows(), ref)) else None;
      assert BindingOk(t, project, t.workplaces[ref].reservation.value, Binding(ref, task));
      bound := bound[db.workplaces[ref].reservation.value := Binding(ref, task)];
      todo := todo - {ref};
    }
    forall ref <- t.workplaces
      | InProject(t, ref, project) && t.workplaces[ref].reservation.Some? && Hirable(t.workplaces[ref].state.loop)
      ensures t.workplaces[ref].reservation.value in bound
    {
      assert ref in all - todo;
    }
  }

  method ReleaseReaped(db: FactoryDb, results: seq<SweepResult>, bound: map<ExecutionId, Binding>)
    modifies db
    ensures db.Rows() == ReleaseAllSwept(old(db.Rows()), results, bound)
  {
    hide UseCase;
    var runtime := new ConveyorRuntime(db);
    assert results[0..] == results;
    for i := 0 to |results|
      invariant runtime.db == db
      invariant ReleaseAllSwept(db.Rows(), results[i..], bound) == ReleaseAllSwept(old(db.Rows()), results, bound)
    {
      assert results[i..][0] == results[i] && results[i..][1..] == results[i + 1..];
      var e := results[i].execution;
      if (results[i].action.LostRow? || results[i].action.TerminatedRow?) && e in bound && e !in db.receipts && bound[e].task.Some? {
        var released := runtime.Atomically(bound[e].ref, bound[e].task.value, ReleaseShift(e, Crashed));
      }
    }
  }

  method SweepProject(db: FactoryDb, project: nat, probes: ExecutionId -> PidProbe, host: MachineId, now: Millis) returns (ghost scope: Scope)
    modifies db
    ensures db.Rows() == SweepScope(old(db.Rows()), scope, probes, host, now)
    ensures scope.project == project && Swept(old(db.Rows()), scope.rows, project) && Bindings(old(db.Rows()), project, scope.bound)
  {
    hide Reconcile, ReleaseAllSwept, Bindings, Swept;
    var bound := SelectBindings(db, project);
    var results: seq<SweepResult>;
    ghost var rows: seq<SweptRow>;
    results, rows := ReconcileWorkerExecutions(db, project, probes, host, now);
    ReleaseReaped(db, results, bound);
    scope := Scope(project, rows, bound);
  }

  lemma VisitsAppend(scopes: seq<Scope>, scope: Scope, project: nat)
    requires Visits(scopes, project) || scope.project == project
    ensures Visits(scopes + [scope], project)
  {
    var all := scopes + [scope];
    assert all[|scopes|] == scope;
    if Visits(scopes, project) {
      var i :| 0 <= i < |scopes| && scopes[i].project == project;
      assert all[i] == scopes[i];
    }
  }

  lemma Covered(t: Tables, scopes: seq<Scope>, all: set<nat>)
    requires all == set e | e in t.executions && Active(t.executions[e].state) :: t.executions[e].project
    requires forall i, j | 0 <= i < j < |scopes| :: scopes[i].project != scopes[j].project
    requires (forall scope <- scopes :: scope.project in all) && (forall p <- all :: Visits(scopes, p))
    ensures CoversProjects(t, scopes)
  {
    hide Visits;
  }

  lemma {:induction false} SweepScopesAppend(t: Tables, scopes: seq<Scope>, scope: Scope, probes: ExecutionId -> PidProbe, host: MachineId, now: Millis)
    ensures SweepScopes(t, scopes + [scope], probes, host, now) == SweepScope(SweepScopes(t, scopes, probes, host, now), scope, probes, host, now)
    decreases |scopes|
  {
    hide SweepScope;
    if scopes == [] {
      assert (scopes + [scope])[1..] == [];
    } else {
      assert (scopes + [scope])[1..] == scopes[1..] + [scope];
      SweepScopesAppend(SweepScope(t, scopes[0], probes, host, now), scopes[1..], scope, probes, host, now);
    }
  }

  lemma {:induction false} ScopesSelectedAppend(t: Tables, scopes: seq<Scope>, scope: Scope, probes: ExecutionId -> PidProbe, host: MachineId, now: Millis)
    requires ScopesSelected(t, scopes, probes, host, now)
    requires
      var n := SweepScopes(t, scopes, probes, host, now);
      Swept(n, scope.rows, scope.project) && Bindings(n, scope.project, scope.bound)
    ensures ScopesSelected(t, scopes + [scope], probes, host, now)
    decreases |scopes|
  {
    hide SweepScope, Swept, Bindings;
    if scopes == [] {
      assert (scopes + [scope])[1..] == [];
    } else {
      assert (scopes + [scope])[1..] == scopes[1..] + [scope];
      ScopesSelectedAppend(SweepScope(t, scopes[0], probes, host, now), scopes[1..], scope, probes, host, now);
    }
  }

  /** The third phase: every project with an active execution, in any order. */
  method SweepProjects(db: FactoryDb, probes: ExecutionId -> PidProbe, host: MachineId, now: Millis) returns (ghost scopes: seq<Scope>)
    modifies db
    ensures db.Rows() == SweepScopes(old(db.Rows()), scopes, probes, host, now)
    ensures ScopesSelected(old(db.Rows()), scopes, probes, host, now) && CoversProjects(old(db.Rows()), scopes)
  {
    hide SweepScope, Swept, Bindings, CoversProjects, Visits;
    scopes := [];
    ghost var reaped := db.Rows();
    var todo := set e | e in db.executions && Active(db.executions[e].state) :: db.executions[e].project;
    ghost var all := todo;
    while todo != {}
      invariant todo <= all
      invariant db.Rows() == SweepScopes(reaped, scopes, probes, host, now) && ScopesSelected(reaped, scopes, probes, host, now)
      invariant forall scope <- scopes :: scope.project in all - todo
      invariant forall i, j | 0 <= i < j < |scopes| :: scopes[i].project != scopes[j].project
      invariant forall p <- all - todo :: Visits(scopes, p)
      decreases |todo|
    {
      var project :| project in todo;
      ghost var scope := SweepProject(db, project, probes, host, now);
      SweepScopesAppend(reaped, scopes, scope, probes, host, now);
      ScopesSelectedAppend(reaped, scopes, scope, probes, host, now);
      ghost var before := scopes;
      scopes := scopes + [scope];
      forall p <- all - (todo - {project}) ensures Visits(scopes, p) { VisitsAppend(before, scope, p); }
      todo := todo - {project};
    }
    assert CoversProjects(reaped, scopes) by { Covered(reaped, scopes, all); }
  }

  method RunFactoryBootRevision(db: FactoryDb, cause: nat, dead: map<nat, nat>, stopProbes: ExecutionId -> Probe,
                                probes: ExecutionId -> PidProbe, host: MachineId, now: Millis)
    returns (r: Result<seq<ReapEntry>>, ghost boot: Boot)
    modifies db
    ensures Adoption.Passes(old(db.Rows()), boot.kernel, boot.residue, cause) && Captured(AfterBurial(old(db.Rows()), boot), boot.stops)
    ensures boot.cause == cause && boot.dead == dead && boot.host == host && boot.now == now
    ensures boot.stopProbes == stopProbes && boot.probes == probes
    ensures match Revise(old(db.Rows()), boot)
            case Err(e) => r == Err(e)
            case Ok(n) =>
              var pass := ReapAll(AfterBurial(old(db.Rows()), boot), boot.stops, boot.stopProbes, boot.host).value;
              && r == Ok(pass.report) && db.Rows() == n
              && ScopesSelected(pass.tables, boot.scopes, boot.probes, boot.host, boot.now) && CoversProjects(pass.tables, boot.scopes)
  {
    hide ReapAll, SweepScope, Bury, Captured, Adoption.Adopt, Adoption.Passes, ScopesSelected, CoversProjects, SweepScopes;
    ghost var t := db.Rows();
    var adopted, repaired, skipped, residueRepaired;
    ghost var kernel, residue;
    adopted, repaired, skipped, residueRepaired, kernel, residue := Adoption.AdoptTerminalExecutionsAtEngineStart(db, cause);
    var details, released, cancelled := BuryDeadLifecycleObligations(db, dead);
    ghost var buried := db.Rows();
    ghost var stops;
    r, stops := ReapInterruptedWorkerStops(db, stopProbes, host);
    boot := Boot(kernel, residue, cause, dead, stops, stopProbes, [], probes, host, now);
    assert buried == AfterBurial(t, boot);
    if r.Err? {
      return;
    }
    ghost var scopes := SweepProjects(db, probes, host, now);
    boot := boot.(scopes := scopes);
    assert AfterBurial(t, boot) == buried;
  }
}
