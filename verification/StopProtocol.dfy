/** The soft-stop as a whole: the orchestrator's pass over a scope and the boot reaper's convergence. */
module StopProtocol {
  import opened Results
  import opened FactoryTables
  import opened SoftStop
  import opened Invariants

  // ---- frames of one fence ------------------------------------------------------

  lemma FinishFenceFrame(t: Tables, e: ExecutionId, id: TaskId, ref: Option<WorkplaceRef>, rewound: bool, kernelSkipped: bool)
    requires e in t.stops
    ensures
      var n := FinishFence(t, e, id, ref, rewound, kernelSkipped).tables;
      && n.executions == t.executions && n.workplaces == t.workplaces && n.receipts == t.receipts
      && n.stops == t.stops[e := t.stops[e].(phase := Detached)]
  {
  }

  /** What a fence writes besides workplaces, cards, obligations and holds: one stop row and one execution row. */
  predicate FenceFramed(t: Tables, n: Tables, e: ExecutionId)
    requires e in t.executions
  {
    && n.stops.Keys == t.stops.Keys + {e}
    && n.stops == t.stops[e := n.stops[e]]
    && n.executions == (if Live(t, e) then VoidExecution(t, e).executions else t.executions)
    && n.receipts == t.receipts
  }

  lemma FenceFrame(t: Tables, e: ExecutionId, ref: Option<WorkplaceRef>, project: nat)
    requires WorkplacesValid(t.workplaces) && e in t.executions && (Live(t, e) ==> !t.executions[e].voided)
    ensures Fence(t, e, ref, project).Ok?
    ensures FenceFramed(t, Fence(t, e, ref, project).value.tables, e)
  {
    hide Fence, FenceFramed, WorkplacesValid;
    if Live(t, e) {
      LiveFenceFrame(t, e, ref, project);
    } else {
      DeadFenceFrame(t, e, ref, project);
    }
  }

  lemma DeadFenceFrame(t: Tables, e: ExecutionId, ref: Option<WorkplaceRef>, project: nat)
    requires Dead(t, e)
    ensures Fence(t, e, ref, project).Ok?
    ensures FenceFramed(t, Fence(t, e, ref, project).value.tables, e)
  {
    hide VoidAndRewind, FinishFence, UpsertStop;
    UpsertFrame(t, e, ref, project, Fenced);
    var marked := UpsertStop(t, e, ref, project, Fenced);
    var n := Fence(t, e, ref, project).value.tables;
    assert n.stops == t.stops[e := n.stops[e]];
  }

  lemma UpsertFrame(t: Tables, e: ExecutionId, ref: Option<WorkplaceRef>, project: nat, phase: StopPhase)
    ensures
      var n := UpsertStop(t, e, ref, project, phase);
      n == t.(stops := t.stops[e := n.stops[e]]) && n.stops[e].phase == phase
  {
  }

  lemma LiveFenceFrame(t: Tables, e: ExecutionId, ref: Option<WorkplaceRef>, project: nat)
    requires WorkplacesValid(t.workplaces) && Live(t, e) && !t.executions[e].voided
    ensures Fence(t, e, ref, project).Ok?
    ensures FenceFramed(t, Fence(t, e, ref, project).value.tables, e)
  {
    hide FinishFence, Fence, VoidAndRewind, UpsertStop, WorkplacesValid, VoidExecution;
    var marked := UpsertStop(t, e, ref, project, Fenced);
    UpsertFrame(t, e, ref, project, Fenced);
    VoidAndRewindShape(marked, e, ref);
    LiveFence(t, e, ref, project);
    var r := VoidAndRewind(marked, e, ref).value;
    FinishFenceFrame(r.tables, e, t.executions[e].task, ref, r.rewound, r.kernelSkipped);
    var n := Fence(t, e, ref, project).value.tables;
    assert n.stops == t.stops[e := n.stops[e]];
    VoidExecutionOf(t, marked, e);
  }

  lemma VoidExecutionOf(t: Tables, marked: Tables, e: ExecutionId)
    requires e in t.executions && marked.executions == t.executions
    ensures VoidExecution(marked, e).executions == VoidExecution(t, e).executions
  {
  }

  // ---- the boot reaper ------------------------------------------------------------

  lemma ReapOneConverges(t: Tables, row: ReapRow, probe: Probe, host: MachineId)
    requires Inv(t) && row.execution in t.executions
    ensures ReapOne(t, row, probe, host).Ok?
    ensures
      var n := ReapOne(t, row, probe, host).value.tables;
      && Inv(n) && Grows(t, n)
      && row.execution in n.stops
      && n.stops == t.stops[row.execution := n.stops[row.execution]]
      && DonePhase(n.stops[row.execution].phase) && Dead(n, row.execution)
      && (forall x <- t.executions :: x != row.execution ==> x in n.executions && n.executions[x] == t.executions[x])
    ensures ReapOne(t, row, probe, host).value.report == ReportOf(Live(t, row.execution), row, probe, host)
  {
    hide Fence, Inv, Grows, AdvancePhase, ReapVerdict;
    FenceKeeps(t, row.execution, row.ref, row.project);
    LiveIsNotVoid(t, row.execution);
    FenceFrame(t, row.execution, row.ref, row.project);
    var f := Fence(t, row.execution, row.ref, row.project).value.tables;
    ReapVerdictIsDone(row, probe, host);
    ReapVerdictKeeps(t, f, row.execution, ReapVerdict(row, probe, host));
  }

  lemma LiveIsNotVoid(t: Tables, e: ExecutionId)
    requires Inv(t) && e in t.executions
    ensures WorkplacesValid(t.workplaces) && (Live(t, e) ==> !t.executions[e].voided)
  {
  }

  lemma ReapVerdictIsDone(row: ReapRow, probe: Probe, host: MachineId)
    ensures DonePhase(ReapVerdict(row, probe, host))
  {
  }

  lemma ReapVerdictKeeps(t: Tables, f: Tables, e: ExecutionId, phase: StopPhase)
    requires Inv(f) && Grows(t, f) && e in f.stops && Dead(f, e) && DonePhase(phase)
    ensures
      var n := AdvancePhase(f, e, phase);
      Inv(n) && Grows(t, n) && n.stops == f.stops[e := n.stops[e]] && n.stops[e].phase == phase && n.executions == f.executions
  {
    hide Inv, Grows;
    PhaseKeeps(f, e, None, 0, phase);
    GrowsTransitive(t, f, AdvancePhase(f, e, phase));
  }

  lemma ReapAllUnfolds(t: Tables, rows: seq<ReapRow>, probes: ExecutionId -> Probe, host: MachineId)
    requires rows != [] && ReapOne(t, rows[0], probes(rows[0].execution), host).Ok?
    ensures
      var first := ReapOne(t, rows[0], probes(rows[0].execution), host).value;
      var rest := ReapAll(first.tables, rows[1..], probes, host);
      ReapAll(t, rows, probes, host) == if rest.Ok? then Ok(Reaping(rest.value.tables, first.report + rest.value.report)) else rest
  {
    hide ReapOne;
  }

  lemma ReapNothing(t: Tables, probes: ExecutionId -> Probe, host: MachineId)
    ensures ReapAll(t, [], probes, host) == Ok(Reaping(t, []))
  {
  }

  /** What reaping the first row leaves for the others. */
  lemma ReapFirst(t: Tables, rows: seq<ReapRow>, probes: ExecutionId -> Probe, host: MachineId)
    requires Inv(t) && rows != [] && forall row <- rows :: row.execution in t.stops
    requires forall i, j | 0 <= i < j < |rows| :: rows[i].execution != rows[j].execution
    ensures ReapOne(t, rows[0], probes(rows[0].execution), host).Ok?
    ensures
      var e := rows[0].execution;
      var first := ReapOne(t, rows[0], probes(e), host).value;
      var n := first.tables;
      && Inv(n) && Grows(t, n) && n.stops.Keys == t.stops.Keys
      && e in t.stops && DonePhase(n.stops[e].phase)
      && (forall x <- t.stops :: x != e ==> n.stops[x] == t.stops[x] && Live(n, x) == Live(t, x))
      && (forall row <- rows[1..] :: row.execution in n.stops)
      && first.report == ReportOf(Live(t, e), rows[0], probes(e), host)
  {
    AreStopped(t, rows);
    assert rows[0] in rows;
    ReapOneConverges(t, rows[0], probes(rows[0].execution), host);
    hide Inv, Grows, ReapOne, ReportOf, Lists;
    var n := ReapOne(t, rows[0], probes(rows[0].execution), host).value.tables;
    forall row <- rows[1..] ensures row.execution in n.stops { assert row in rows; }
  }

  lemma RowsTail(rows: seq<ReapRow>)
    requires rows != [] && forall i, j | 0 <= i < j < |rows| :: rows[i].execution != rows[j].execution
    ensures Lists(rows, rows[0].execution) && !Lists(rows[1..], rows[0].execution)
    ensures forall x :: x != rows[0].execution ==> Lists(rows, x) == Lists(rows[1..], x)
  {
    OnlyFirst(rows);
    forall x | x != rows[0].execution ensures Lists(rows, x) == Lists(rows[1..], x) { ListsTail(rows, x); }
    hide Lists;
  }

  lemma {:induction false} ReapAllConverges(t: Tables, rows: seq<ReapRow>, probes: ExecutionId -> Probe, host: MachineId)
    requires Inv(t) && forall row <- rows :: row.execution in t.stops
    requires forall i, j | 0 <= i < j < |rows| :: rows[i].execution != rows[j].execution
    ensures ReapAll(t, rows, probes, host).Ok?
    ensures
      var n := ReapAll(t, rows, probes, host).value.tables;
      && Inv(n) && Grows(t, n)
      && n.stops.Keys == t.stops.Keys
      && (forall e <- t.stops :: if Lists(rows, e) then DonePhase(n.stops[e].phase) else n.stops[e] == t.stops[e])
    decreases |rows|
  {
    if rows == [] {
      GrowsReflexive(t);
      ReapNothing(t, probes, host);
      NoneListed();
    } else {
      ReapFirst(t, rows, probes, host);
      RowsTail(rows);
      hide Inv, Grows, ReapOne, ReapAll, Lists, ReportOf;
      ReapAllUnfolds(t, rows, probes, host);
      var n := ReapOne(t, rows[0], probes(rows[0].execution), host).value.tables;
      ReapAllConverges(n, rows[1..], probes, host);
      GrowsTransitive(t, n, ReapAll(t, rows, probes, host).value.tables);
    }
    hide *;
  }

  lemma NoneListed()
    ensures forall e :: !Lists([], e)
  {
  }

  /** Some row of the execution has this kill outcome. */
  predicate KillListed(rows: seq<ReapRow>, probes: ExecutionId -> Probe, host: MachineId, e: ExecutionId, k: KillOutcome) {
    exists i | 0 <= i < |rows| :: rows[i].execution == e && KillReport(rows[i], probes(e), host) == Some(k)
  }

  lemma KillListedTail(rows: seq<ReapRow>, probes: ExecutionId -> Probe, host: MachineId, e: ExecutionId, k: KillOutcome)
    requires rows != []
    ensures KillListed(rows, probes, host, e, k) <==>
      (rows[0].execution == e && KillReport(rows[0], probes(e), host) == Some(k)) || KillListed(rows[1..], probes, host, e, k)
  {
    if KillListed(rows, probes, host, e, k) {
      var i :| 0 <= i < |rows| && rows[i].execution == e && KillReport(rows[i], probes(e), host) == Some(k);
      assert i > 0 ==> rows[1..][i - 1] == rows[i];
    }
    if KillListed(rows[1..], probes, host, e, k) {
      var i :| 0 <= i < |rows[1..]| && rows[1..][i].execution == e && KillReport(rows[1..][i], probes(e), host) == Some(k);
      assert rows[i + 1] == rows[1..][i];
    }
  }

  /** What one row reports, and about whom. */
  lemma ReportEntries(fenced: bool, row: ReapRow, probe: Probe, host: MachineId, e: ExecutionId)
    ensures ReapEntry(e, FenceCompleted) in ReportOf(fenced, row, probe, host) <==> fenced && e == row.execution
    ensures forall k :: ReapEntry(e, KillEnded(k)) in ReportOf(fenced, row, probe, host) <==>
      e == row.execution && KillReport(row, probe, host) == Some(k)
  {
    hide KillReport;
  }

  lemma {:induction false} ReapAllReports(t: Tables, rows: seq<ReapRow>, probes: ExecutionId -> Probe, host: MachineId)
    requires Inv(t) && forall row <- rows :: row.execution in t.stops
    requires forall i, j | 0 <= i < j < |rows| :: rows[i].execution != rows[j].execution
    ensures ReapAll(t, rows, probes, host).Ok?
    ensures
      var report := ReapAll(t, rows, probes, host).value.report;
      && (forall e <- t.stops :: ReapEntry(e, FenceCompleted) in report <==> Lists(rows, e) && Live(t, e))
      && (forall e, k :: ReapEntry(e, KillEnded(k)) in report <==> KillListed(rows, probes, host, e, k))
    decreases |rows|
  {
    if rows == [] {
      ReapNothing(t, probes, host);
      NoneListed();
      forall e, k ensures !KillListed(rows, probes, host, e, k) { NoKillListed(probes, host, e, k); }
    } else {
      ReapFirst(t, rows, probes, host);
      RowsTail(rows);
      hide Inv, Grows, ReapOne, ReapAll, Lists, KillListed, ReportOf, KillReport;
      ReapAllUnfolds(t, rows, probes, host);
      var e := rows[0].execution;
      var first := ReapOne(t, rows[0], probes(e), host).value;
      ReapAllReports(first.tables, rows[1..], probes, host);
      var rest := ReapAll(first.tables, rows[1..], probes, host).value.report;
      forall x <- t.stops ensures ReapEntry(x, FenceCompleted) in first.report + rest <==> Lists(rows, x) && Live(t, x) {
        ReportEntries(Live(t, e), rows[0], probes(e), host, x);
      }
      forall x, k ensures ReapEntry(x, KillEnded(k)) in first.report + rest <==> KillListed(rows, probes, host, x, k) {
        ReportEntries(Live(t, e), rows[0], probes(e), host, x);
        KillListedTail(rows, probes, host, x, k);
      }
    }
    hide *;
  }

  lemma NoKillListed(probes: ExecutionId -> Probe, host: MachineId, e: ExecutionId, k: KillOutcome)
    ensures !KillListed([], probes, host, e, k)
  {
  }

  lemma AreStopped(t: Tables, rows: seq<ReapRow>)
    requires Inv(t) && forall row <- rows :: row.execution in t.stops
    ensures t.stops.Keys <= t.executions.Keys
    ensures forall row <- rows :: row.execution in t.executions
    ensures rows == [] ==> forall e :: !Lists(rows, e)
  {
  }

  lemma OnlyFirst(rows: seq<ReapRow>)
    requires rows != [] && forall i, j | 0 <= i < j < |rows| :: rows[i].execution != rows[j].execution
    ensures Lists(rows, rows[0].execution) && !Lists(rows[1..], rows[0].execution)
  {
  }

  lemma ListsTail(rows: seq<ReapRow>, e: ExecutionId)
    requires rows != [] && rows[0].execution != e
    ensures Lists(rows, e) == Lists(rows[1..], e)
  {
    if Lists(rows, e) {
      var i :| 0 <= i < |rows| && rows[i].execution == e;
      assert rows[1..][i - 1].execution == e;
    }
    if Lists(rows[1..], e) {
      var i :| 0 <= i < |rows[1..]| && rows[1..][i].execution == e;
      assert rows[i + 1].execution == e;
    }
  }

  /**
   * One pass over everything its SELECT returned leaves nothing pending: every
   * stop row is in a done phase with a terminal execution, finished rows were
   * not touched. The pass reports the executions it had to fence itself, exactly
   * those still live, and how each verified or abandoned kill ended.
   */
  lemma OneReaperPassConverges(t: Tables, rows: seq<ReapRow>, probes: ExecutionId -> Probe, host: MachineId)
    requires Inv(t) && Captured(t, rows)
    ensures ReapAll(t, rows, probes, host).Ok?
    ensures
      var n := ReapAll(t, rows, probes, host).value.tables;
      && Inv(n) && Grows(t, n) && Pending(n) == {} && n.stops.Keys == t.stops.Keys
      && (forall e <- n.stops :: DonePhase(n.stops[e].phase) && Dead(n, e))
      && (forall e <- t.stops :: DonePhase(t.stops[e].phase) ==> n.stops[e] == t.stops[e])
    ensures
      var report := ReapAll(t, rows, probes, host).value.report;
      && (forall e <- t.stops :: ReapEntry(e, FenceCompleted) in report <==> e in Pending(t) && Live(t, e))
      && (forall e, k :: ReapEntry(e, KillEnded(k)) in report <==> e in Pending(t) && KillReport(CaptureRow(t, e), probes(e), host) == Some(k))
  {
    CapturedLists(t, rows);
    ReapAllReports(t, rows, probes, host);
    forall e, k ensures KillListed(rows, probes, host, e, k) <==> e in Pending(t) && KillReport(CaptureRow(t, e), probes(e), host) == Some(k) {
      CapturedKill(t, rows, probes, host, e, k);
    }
    hide KillListed, KillReport, Lists, Captured, ReapAll, Grows, Inv;
    ReapAllConverges(t, rows, probes, host);
    AllDone(t, ReapAll(t, rows, probes, host).value.tables);
  }

  lemma CapturedLists(t: Tables, rows: seq<ReapRow>)
    requires Captured(t, rows)
    ensures (forall row <- rows :: row.execution in t.stops)
            && (forall i, j | 0 <= i < j < |rows| :: rows[i].execution != rows[j].execution)
            && (forall e <- t.stops :: Lists(rows, e) <==> e in Pending(t))
  {
    forall row <- rows ensures row.execution in t.stops { assert row.execution in Pending(t); }
    forall e <- t.stops ensures Lists(rows, e) <==> e in Pending(t) {
      if Lists(rows, e) {
        var i :| 0 <= i < |rows| && rows[i].execution == e;
        assert rows[i] in rows;
      }
    }
  }

  /** Pending rows done, the others untouched: nothing is left pending, and every row's execution is dead. */
  lemma AllDone(t: Tables, n: Tables)
    requires Inv(t) && Inv(n) && n.stops.Keys == t.stops.Keys
    requires forall e <- t.stops :: if e in Pending(t) then DonePhase(n.stops[e].phase) else n.stops[e] == t.stops[e]
    ensures Pending(n) == {}
    ensures (forall e <- n.stops :: DonePhase(n.stops[e].phase) && Dead(n, e))
            && (forall e <- t.stops :: DonePhase(t.stops[e].phase) ==> n.stops[e] == t.stops[e])
  {
    hide WorkplacesValid, CardsOk, HoldsOk, HiresOk, OneActive, ExecutionsOk;
  }

  lemma CapturedKill(t: Tables, rows: seq<ReapRow>, probes: ExecutionId -> Probe, host: MachineId, e: ExecutionId, k: KillOutcome)
    requires Captured(t, rows)
    ensures KillListed(rows, probes, host, e, k) <==> e in Pending(t) && KillReport(CaptureRow(t, e), probes(e), host) == Some(k)
  {
    hide Pending, CaptureRow, KillReport;
    if KillListed(rows, probes, host, e, k) {
      var i :| 0 <= i < |rows| && rows[i].execution == e && KillReport(rows[i], probes(e), host) == Some(k);
      assert rows[i] in rows;
    }
    if e in Pending(t) {
      assert Lists(rows, e);
      var i :| 0 <= i < |rows| && rows[i].execution == e;
      assert rows[i] in rows;
    }
  }

  /** Once nothing is pending, every further pass selects nothing and changes nothing. */
  lemma SecondReaperPassChangesNothing(t: Tables, rows: seq<ReapRow>, probes: ExecutionId -> Probe, host: MachineId)
    requires Pending(t) == {} && Captured(t, rows)
    ensures ReapAll(t, rows, probes, host) == Ok(Reaping(t, []))
  {
    hide Captured;
    if rows != [] {
      FirstIsPending(t, rows);
    }
  }

  lemma FirstIsPending(t: Tables, rows: seq<ReapRow>)
    requires rows != [] && Captured(t, rows)
    ensures Pending(t) != {}
  {
    assert rows[0] in rows;
  }

  // ---- the plan -----------------------------------------------------------------------

  datatype PlannedStop = PlannedStop(execution: ExecutionId, project: nat, ref: Option<WorkplaceRef>, kernelOwned: bool)

  /** Not terminal, not voided, in scope: the executions an operator stop recalls. */
  predicate Recallable(t: Tables, e: ExecutionId, scope: Option<nat>) {
    Live(t, e) && !t.executions[e].voided && (scope.Some? ==> t.executions[e].project == scope.value)
  }

  /** The LEFT JOIN with the workplaces whose active reservation is the execution. */
  predicate Joins(t: Tables, e: ExecutionId, ref: Option<WorkplaceRef>) {
    match ref
    case Some(r) => r in t.workplaces && t.workplaces[r].reservation == Some(e)
    case None => forall r <- t.workplaces :: t.workplaces[r].reservation != Some(e)
  }

  function ToPlan(t: Tables, e: ExecutionId, ref: Option<WorkplaceRef>): PlannedStop
    requires e in t.executions
  {
    PlannedStop(e, t.executions[e].project, ref,
                ref.Some? && ref.value in t.workplaces && KernelOwned(t.workplaces[ref.value].state.loop))
  }

  function PlanSet(t: Tables, scope: Option<nat>): set<PlannedStop> {
    (set e, r | e in t.executions && r in t.workplaces && Recallable(t, e, scope) && Joins(t, e, Some(r)) :: ToPlan(t, e, Some(r)))
    + (set e | e in t.executions && Recallable(t, e, scope) && Joins(t, e, None) :: ToPlan(t, e, None))
  }

  /** Whether or not it reserves a workplace, every execution to recall has a plan row, and only those do. */
  lemma PlanCoversTheScope(t: Tables, e: ExecutionId, scope: Option<nat>)
    ensures Recallable(t, e, scope) <==> exists p <- PlanSet(t, scope) :: p.execution == e
  {
    if Recallable(t, e, scope) {
      if Joins(t, e, None) {
        assert ToPlan(t, e, None) in PlanSet(t, scope);
      } else {
        var r :| r in t.workplaces && t.workplaces[r].reservation == Some(e);
        assert Joins(t, e, Some(r));
        assert ToPlan(t, e, Some(r)) in PlanSet(t, scope);
      }
    }
  }

  method PlanWorkerStops(db: FactoryDb, scope: Option<nat>) returns (plans: seq<PlannedStop>)
    ensures forall p :: p in plans <==> p in PlanSet(db.Rows(), scope)
    ensures |plans| == |PlanSet(db.Rows(), scope)|
  {
    plans := [];
    var all := PlanSet(db.Rows(), scope);
    var todo := all;
    while todo != {}
      invariant todo <= all && |plans| + |todo| == |all|
      invariant forall p :: p in plans <==> p in all && p !in todo
      decreases |todo|
    {
      var p :| p in todo;
      plans := plans + [p];
      todo := todo - {p};
    }
  }

  // ---- the orchestrator's run ------------------------------------------------------------

  /** Outside answers for one planned stop: did the runner hook return, and what the kill's probes saw. */
  datatype StopAnswers = StopAnswers(hookSent: bool, probe: Probe)

  /** A run that may have thrown; what it committed before that stays. */
  datatype StopRun = StopRun(tables: Tables, finished: seq<ExecutionId>, thrown: Option<string>)

  /** Durable plan record, then the mark that the engines are braked. */
  function MarkBraked(t: Tables, plan: PlannedStop): Tables {
    AdvancePhase(UpsertStop(t, plan.execution, plan.ref, plan.project, Planned), plan.execution, EngineBraked)
  }

  /** After a fence that voided (or had voided before): the runner hook, then the guarded kill. */
  function KillStep(t: Tables, e: ExecutionId, answers: StopAnswers, host: MachineId): StopRun {
    var hooked := if answers.hookSent then AdvancePhase(t, e, HookSent) else t;
    match KillWorkerTree(hooked, e, answers.probe, host)
    case Err(error) => StopRun(AdvancePhase(hooked, e, Abandoned), [], Some(error))
    case Ok(AbandonedRemote) => StopRun(AdvancePhase(hooked, e, Abandoned), [e], None)
    case Ok(_) => StopRun(AdvancePhase(hooked, e, Killed), [e], None)
  }

  /** One iteration of the orchestrator's loop; each stage is a transaction of its own. */
  function StopOne(t: Tables, plan: PlannedStop, answers: StopAnswers, host: MachineId): StopRun {
    var braked := MarkBraked(t, plan);
    match Fence(braked, plan.execution, plan.ref, plan.project)
    case Err(error) => StopRun(braked, [], Some(error))
    case Ok(fence) =>
      if fence.outcome == AlreadyTerminal then StopRun(fence.tables, [plan.execution], None)
      else KillStep(fence.tables, plan.execution, answers, host)
  }

  function StopAll(t: Tables, plans: seq<PlannedStop>, answers: ExecutionId -> StopAnswers, host: MachineId): StopRun
    decreases |plans|
  {
    if plans == [] then StopRun(t, [], None)
    else
      var first := StopOne(t, plans[0], answers(plans[0].execution), host);
      if first.thrown.Some? then first
      else
        var rest := StopAll(first.tables, plans[1..], answers, host);
        StopRun(rest.tables, first.finished + rest.finished, rest.thrown)
  }

  function Checkpoint(t: Tables, finished: seq<ExecutionId>): Tables {
    t.(stops := map e <- t.stops :: if e in finished then t.stops[e].(phase := Checkpointed) else t.stops[e])
  }

  /** `executeWorkerStops` after the engine brake. The checkpoint step is skipped when nothing captures it. */
  function StopScope(t: Tables, plans: seq<PlannedStop>, answers: ExecutionId -> StopAnswers, host: MachineId, captured: bool): StopRun {
    var run := StopAll(t, plans, answers, host);
    if run.thrown.None? && captured then run.(tables := Checkpoint(run.tables, run.finished)) else run
  }

  predicate Converged(t: Tables, e: ExecutionId) {
    e in t.stops && DonePhase(t.stops[e].phase) && Dead(t, e)
  }

  /**
   * One planned stop, whether it returns or throws, ends with its row in a done
   * phase and its execution terminal; the kill can be unverified but is never
   * attempted on an execution that is not fenced.
   */
  lemma StopOneConverges(t: Tables, plan: PlannedStop, answers: StopAnswers, host: MachineId)
    requires Inv(t) && plan.execution in t.executions
    ensures
      var run := StopOne(t, plan, answers, host);
      && Inv(run.tables) && Grows(t, run.tables)
      && Converged(run.tables, plan.execution)
      && run.tables.stops == t.stops[plan.execution := run.tables.stops[plan.execution]]
      && (run.thrown.None? || run.thrown == Some("WORKER_STOP_KILL_UNVERIFIED"))
      && run.finished == (if run.thrown.None? then [plan.execution] else [])
  {
    hide Fence, Inv, Grows, WorkplacesValid, FenceFramed, MarkBraked, KillStep, Dead;
    var e := plan.execution;
    BrakedKeeps(t, plan);
    var braked := MarkBraked(t, plan);
    FenceKeeps(braked, e, plan.ref, plan.project);
    FenceLeaves(braked, e, plan.ref, plan.project);
    var fence := Fence(braked, e, plan.ref, plan.project).value;
    GrowsTransitive(t, braked, fence.tables);
    assert fence.tables.stops == t.stops[e := fence.tables.stops[e]];
    if fence.outcome != AlreadyTerminal {
      KillStepConverges(fence.tables, e, answers, host);
      var n := KillStep(fence.tables, e, answers, host).tables;
      GrowsTransitive(t, fence.tables, n);
      assert n.stops == t.stops[e := n.stops[e]];
    }
  }

  /** What the orchestrator finds after its fence: a converged row, or a void execution still to be killed. */
  lemma FenceLeaves(t: Tables, e: ExecutionId, ref: Option<WorkplaceRef>, project: nat)
    requires Inv(t) && e in t.executions
    ensures Fence(t, e, ref, project).Ok?
    ensures
      var f := Fence(t, e, ref, project).value;
      && e in f.tables.stops && f.tables.stops == t.stops[e := f.tables.stops[e]]
      && (if f.outcome == AlreadyTerminal then Converged(f.tables, e) else Void(f.tables, e))
  {
    LiveIsNotVoid(t, e);
    FenceFrame(t, e, ref, project);
    FenceKeeps(t, e, ref, project);
    hide Inv, Grows, WorkplacesValid, Fence;
    if Dead(t, e) {
      DeadFenceOutcome(t, e, ref, project);
    }
  }

  lemma DeadFenceOutcome(t: Tables, e: ExecutionId, ref: Option<WorkplaceRef>, project: nat)
    requires Dead(t, e)
    ensures Fence(t, e, ref, project).Ok?
    ensures
      var f := Fence(t, e, ref, project).value;
      && f.outcome == (if t.executions[e].voided then AlreadyVoid else AlreadyTerminal)
      && e in f.tables.stops
      && f.tables.stops[e].phase == (if t.executions[e].voided then Fenced else Abandoned)
  {
    hide VoidAndRewind, FinishFence;
  }

  lemma KillStepConverges(t: Tables, e: ExecutionId, answers: StopAnswers, host: MachineId)
    requires Inv(t) && Void(t, e) && e in t.stops
    ensures
      var run := KillStep(t, e, answers, host);
      && Inv(run.tables) && Grows(t, run.tables)
      && Converged(run.tables, e)
      && run.tables.stops == t.stops[e := run.tables.stops[e]]
      && (run.thrown.None? || run.thrown == Some("WORKER_STOP_KILL_UNVERIFIED"))
      && run.finished == (if run.thrown.None? then [e] else [])
  {
    hide Inv, Grows, AdvancePhase, Void;
    GrowsReflexive(t);
    assert t.stops == t.stops[e := t.stops[e]];
    AdvanceKeeps(t, t, e, HookSent);
    var hooked := if answers.hookSent then AdvancePhase(t, e, HookSent) else t;
    assert hooked.stops == t.stops[e := hooked.stops[e]];
    KillNeedsNoFence(hooked, e, answers.probe, host);
    AdvanceKeeps(t, hooked, e, Abandoned);
    AdvanceKeeps(t, hooked, e, Killed);
  }

  lemma KillNeedsNoFence(t: Tables, e: ExecutionId, probe: Probe, host: MachineId)
    requires Void(t, e)
    ensures KillWorkerTree(t, e, probe, host).Ok? || KillWorkerTree(t, e, probe, host) == Err("WORKER_STOP_KILL_UNVERIFIED")
  {
  }

  /** One more phase mark on the row of a void execution. */
  lemma AdvanceKeeps(t: Tables, m: Tables, e: ExecutionId, phase: StopPhase)
    requires Inv(m) && Grows(t, m) && Void(m, e) && e in m.stops && e in t.stops && m.stops == t.stops[e := m.stops[e]]
    ensures
      var n := AdvancePhase(m, e, phase);
      && Inv(n) && Grows(t, n) && Void(n, e)
      && e in n.stops && n.stops == t.stops[e := n.stops[e]]
      && (DonePhase(phase) ==> Converged(n, e))
  {
    VoidIsDead(m, e);
    hide Inv, Grows;
    PhaseKeeps(m, e, None, 0, phase);
    var n := AdvancePhase(m, e, phase);
    GrowsTransitive(t, m, n);
    assert n.stops == t.stops[e := n.stops[e]];
  }

  lemma VoidIsDead(t: Tables, e: ExecutionId)
    requires Inv(t) && Void(t, e)
    ensures Dead(t, e)
  {
  }

  lemma BrakedKeeps(t: Tables, plan: PlannedStop)
    requires Inv(t) && plan.execution in t.executions
    ensures
      var n := MarkBraked(t, plan);
      Inv(n) && Grows(t, n) && n == t.(stops := t.stops[plan.execution := n.stops[plan.execution]])
  {
    hide Inv, Grows, UpsertStop;
    var e := plan.execution;
    PhaseKeeps(t, e, plan.ref, plan.project, Planned);
    var planned := UpsertStop(t, e, plan.ref, plan.project, Planned);
    UpsertFrame(t, e, plan.ref, plan.project, Planned);
    PhaseKeeps(planned, e, plan.ref, plan.project, EngineBraked);
    GrowsTransitive(t, planned, AdvancePhase(planned, e, EngineBraked));
    var n := AdvancePhase(planned, e, EngineBraked);
    assert n.stops == t.stops[e := n.stops[e]];
  }

  lemma ConvergedStays(a: Tables, b: Tables, e: ExecutionId)
    requires Grows(a, b) && Converged(a, e) && e in b.stops && b.stops[e] == a.stops[e]
    ensures Converged(b, e)
  {
  }

  /**
   * A run of the orchestrator over any plan of known executions: planned rows it
   * reached converge, no other stop row moves, and nothing becomes pending that
   * was not, so only a crash, never a thrown error, leaves work to the reaper.
   */
  lemma {:induction false} StopAllConverges(t: Tables, plans: seq<PlannedStop>, answers: ExecutionId -> StopAnswers, host: MachineId)
    requires Inv(t) && forall plan <- plans :: plan.execution in t.executions
    ensures
      var run := StopAll(t, plans, answers, host);
      && Inv(run.tables) && Grows(t, run.tables)
      && t.stops.Keys <= run.tables.stops.Keys
      && (forall e <- run.tables.stops :: (e in t.stops && run.tables.stops[e] == t.stops[e]) || Converged(run.tables, e))
      && (run.thrown.None? ==> forall i | 0 <= i < |plans| :: Converged(run.tables, plans[i].execution))
      && (run.thrown.None? || run.thrown == Some("WORKER_STOP_KILL_UNVERIFIED"))
      && (forall e <- run.finished :: e in run.tables.stops)
    decreases |plans|
  {
    hide Inv, Grows, StopOne, Dead;
    if plans == [] {
      GrowsReflexive(t);
    } else {
      assert plans[0] in plans;
      var e := plans[0].execution;
      StopOneConverges(t, plans[0], answers(e), host);
      var first := StopOne(t, plans[0], answers(e), host);
      GrownExecutions(t, first.tables);
      if first.thrown.None? {
        StopAllConverges(first.tables, plans[1..], answers, host);
        var run := StopAll(t, plans, answers, host);
        GrowsTransitive(t, first.tables, run.tables);
        forall x <- run.tables.stops
          ensures (x in t.stops && run.tables.stops[x] == t.stops[x]) || Converged(run.tables, x)
        {
          if x == e && !Converged(run.tables, x) {
            ConvergedStays(first.tables, run.tables, x);
          }
        }
        if !Converged(run.tables, e) {
          ConvergedStays(first.tables, run.tables, e);
        }
        forall i | 0 <= i < |plans| && run.thrown.None? ensures Converged(run.tables, plans[i].execution) {
          if i > 0 { assert plans[1..][i - 1] == plans[i]; }
        }
      }
    }
  }

  lemma GrownExecutions(a: Tables, b: Tables)
    requires Grows(a, b)
    ensures a.executions.Keys <= b.executions.Keys
  {
  }

  lemma CheckpointKeeps(t: Tables, finished: seq<ExecutionId>)
    requires Inv(t) && forall e <- finished :: Converged(t, e)
    ensures
      var n := Checkpoint(t, finished);
      && Inv(n) && Grows(t, n) && n.stops.Keys == t.stops.Keys && n.executions == t.executions
      && (forall e <- t.stops :: n.stops[e] == t.stops[e] || (e in finished && n.stops[e].phase == Checkpointed))
  {
    assert StopsOk(Checkpoint(t, finished).stops, t.executions);
  }

  lemma {:induction false} FinishedConverged(t: Tables, plans: seq<PlannedStop>, answers: ExecutionId -> StopAnswers, host: MachineId)
    requires Inv(t) && forall plan <- plans :: plan.execution in t.executions
    ensures forall e <- StopAll(t, plans, answers, host).finished :: Converged(StopAll(t, plans, answers, host).tables, e)
    decreases |plans|
  {
    hide Inv, Grows, StopOne, Converged;
    if plans != [] {
      assert plans[0] in plans;
      var e := plans[0].execution;
      StopOneConverges(t, plans[0], answers(e), host);
      var first := StopOne(t, plans[0], answers(e), host);
      GrownExecutions(t, first.tables);
      if first.thrown.None? {
        FinishedConverged(first.tables, plans[1..], answers, host);
        StopAllConverges(first.tables, plans[1..], answers, host);
        var run := StopAll(t, plans, answers, host);
        StaysConverged(first.tables, run.tables, e);
      }
    }
  }

  lemma StaysConverged(a: Tables, b: Tables, e: ExecutionId)
    requires Grows(a, b) && Converged(a, e) && a.stops.Keys <= b.stops.Keys
    requires forall x <- b.stops :: (x in a.stops && b.stops[x] == a.stops[x]) || Converged(b, x)
    ensures Converged(b, e)
  {
  }

  /**
   * The whole soft-stop of a scope, after the brake. When it returns, every
   * recalled execution is terminal with a converged stop row. When it throws,
   * the thrown error is an unverified kill and still nothing became pending:
   * only a crash between its transactions leaves rows for the boot reaper.
   */
  lemma StopScopeConverges(t: Tables, scope: Option<nat>, plans: seq<PlannedStop>, answers: ExecutionId -> StopAnswers,
                           host: MachineId, captured: bool)
    requires Inv(t) && forall p :: p in plans <==> p in PlanSet(t, scope)
    ensures
      var run := StopScope(t, plans, answers, host, captured);
      && Inv(run.tables) && Grows(t, run.tables)
      && Pending(run.tables) <= Pending(t)
      && (run.thrown.None? || run.thrown == Some("WORKER_STOP_KILL_UNVERIFIED"))
      && (run.thrown.None? ==> forall e | Recallable(t, e, scope) :: Converged(run.tables, e))
  {
    PlansAreKnown(t, scope, plans);
    hide Inv, Grows, StopAll, Recallable, PlanSet, Checkpoint, Converged;
    StopAllConverges(t, plans, answers, host);
    FinishedConverged(t, plans, answers, host);
    var run := StopAll(t, plans, answers, host);
    CheckpointConverges(t, run.tables, run.finished);
    forall e | Recallable(t, e, scope) && run.thrown.None?
      ensures Converged(run.tables, e) && Converged(Checkpoint(run.tables, run.finished), e)
    {
      PlanCoversTheScope(t, e, scope);
      var p :| p in PlanSet(t, scope) && p.execution == e;
      var i :| 0 <= i < |plans| && plans[i] == p;
      assert Converged(run.tables, plans[i].execution);
    }
  }

  lemma PlansAreKnown(t: Tables, scope: Option<nat>, plans: seq<PlannedStop>)
    requires forall p :: p in plans <==> p in PlanSet(t, scope)
    ensures forall plan <- plans :: plan.execution in t.executions
  {
  }

  lemma CheckpointConverges(t: Tables, m: Tables, finished: seq<ExecutionId>)
    requires Inv(t) && Inv(m) && Grows(t, m) && forall e <- finished :: Converged(m, e)
    requires forall e <- m.stops :: (e in t.stops && m.stops[e] == t.stops[e]) || Converged(m, e)
    ensures
      var n := Checkpoint(m, finished);
      && Inv(n) && Grows(t, n)
      && Pending(m) <= Pending(t) && Pending(n) <= Pending(m)
      && (forall e | Converged(m, e) :: Converged(n, e))
  {
    CheckpointKeeps(m, finished);
    GrowsTransitive(t, m, Checkpoint(m, finished));
    StillPending(t, m);
    hide Inv, Grows, Checkpoint;
  }

  lemma StillPending(t: Tables, m: Tables)
    requires Inv(t) && Grows(t, m)
    requires forall e <- m.stops :: (e in t.stops && m.stops[e] == t.stops[e]) || Converged(m, e)
    ensures Pending(m) <= Pending(t)
  {
  }

  // ---- the imperative form ------------------------------------------------------------------

  method KillHire(db: FactoryDb, e: ExecutionId, answers: StopAnswers, host: MachineId) returns (thrown: Option<string>)
    modifies db
    ensures
      var run := KillStep(old(db.Rows()), e, answers, host);
      db.Rows() == run.tables && thrown == run.thrown
  {
    if answers.hookSent && e in db.stops {
      db.stops := db.stops[e := db.stops[e].(phase := HookSent)];
    }
    var kill := KillWorkerTree(db.Rows(), e, answers.probe, host);
    thrown := if kill.Err? then Some(kill.error) else None;
    if e in db.stops {
      db.stops := db.stops[e := db.stops[e].(phase := if kill.Err? || kill.value == AbandonedRemote then Abandoned else Killed)];
    }
  }

  method StopHire(db: FactoryDb, plan: PlannedStop, answers: StopAnswers, host: MachineId) returns (thrown: Option<string>)
    modifies db
    ensures
      var run := StopOne(old(db.Rows()), plan, answers, host);
      && db.Rows() == run.tables && thrown == run.thrown
  {
    hide Fence, KillStep;
    var e := plan.execution;
    db.stops := db.stops[e := if e in db.stops then db.stops[e].(phase := Planned) else Stop(Planned, plan.ref, plan.project)];
    db.stops := db.stops[e := db.stops[e].(phase := EngineBraked)];
    var fence := FenceAndRewindHire(db, e, plan.ref, plan.project);
    match fence {
      case Err(error) =>
        thrown := Some(error);
      case Ok(outcome) =>
        thrown := None;
        if outcome != AlreadyTerminal {
          thrown := KillHire(db, e, answers, host);
        }
    }
  }

  /** A dry run and a failed engine brake change nothing; otherwise the plan is stopped row by row. */
  method ExecuteWorkerStops(db: FactoryDb, scope: Option<nat>, dryRun: bool, brakeError: Option<string>,
                            answers: ExecutionId -> StopAnswers, host: MachineId, captured: bool)
    returns (plans: seq<PlannedStop>, thrown: Option<string>)
    modifies db
    ensures brakeError.None? || dryRun ==> forall p :: p in plans <==> p in PlanSet(old(db.Rows()), scope)
    ensures dryRun || brakeError.Some? ==> db.Rows() == old(db.Rows()) && thrown == (if dryRun then None else brakeError)
    ensures !dryRun && brakeError.None? ==>
      var run := StopScope(old(db.Rows()), plans, answers, host, captured);
      db.Rows() == run.tables && thrown == run.thrown
  {
    hide PlanSet, StopOne;
    ghost var t := db.Rows();
    plans := PlanWorkerStops(db, scope);
    if dryRun {
      return plans, None;
    }
    if brakeError.Some? {
      return plans, brakeError;
    }
    var finished: seq<ExecutionId> := [];
    var i := 0;
    assert plans[0..] == plans;
    ResumeRunNothing(StopAll(t, plans, answers, host));
    while i < |plans|
      invariant 0 <= i <= |plans|
      invariant StopAll(t, plans, answers, host) == ResumeRun(finished, StopAll(db.Rows(), plans[i..], answers, host))
    {
      ghost var now, done := db.Rows(), finished;
      assert plans[i..][0] == plans[i] && plans[i..][1..] == plans[i + 1..];
      thrown := StopHire(db, plans[i], answers(plans[i].execution), host);
      ResumeRunStep(now, plans[i..], answers, host, done);
      if thrown.Some? {
        return;
      }
      finished := finished + [plans[i].execution];
      i := i + 1;
    }
    thrown := None;
    assert finished + [] == finished;
    if captured {
      CheckpointStops(db, finished);
    }
  }

  method CheckpointStops(db: FactoryDb, finished: seq<ExecutionId>)
    modifies db
    ensures db.Rows() == Checkpoint(old(db.Rows()), finished)
  {
    ghost var t := db.Rows();
    for i := 0 to |finished|
      invariant db.Rows() == Checkpoint(t, finished[..i])
    {
      var e := finished[i];
      if e in db.stops {
        db.stops := db.stops[e := db.stops[e].(phase := Checkpointed)];
      }
      assert db.stops == Checkpoint(t, finished[..i + 1]).stops;
    }
    assert finished[..|finished|] == finished;
  }

  ghost function ResumeRun(done: seq<ExecutionId>, rest: StopRun): StopRun {
    rest.(finished := done + rest.finished)
  }

  lemma ResumeRunNothing(rest: StopRun)
    ensures ResumeRun([], rest) == rest
  {
    assert [] + rest.finished == rest.finished;
  }

  lemma StopOneFinishes(t: Tables, plan: PlannedStop, answers: StopAnswers, host: MachineId)
    ensures StopOne(t, plan, answers, host).finished == (if StopOne(t, plan, answers, host).thrown.None? then [plan.execution] else [])
  {
    hide Fence, MarkBraked, KillWorkerTree;
  }

  lemma ResumeRunStep(t: Tables, plans: seq<PlannedStop>, answers: ExecutionId -> StopAnswers, host: MachineId, done: seq<ExecutionId>)
    requires plans != []
    ensures
      var first := StopOne(t, plans[0], answers(plans[0].execution), host);
      ResumeRun(done, StopAll(t, plans, answers, host)) ==
        if first.thrown.Some? then first.(finished := done)
        else ResumeRun(done + [plans[0].execution], StopAll(first.tables, plans[1..], answers, host))
  {
    StopOneFinishes(t, plans[0], answers(plans[0].execution), host);
    StopAllUnfolds(t, plans, answers, host);
    hide StopOne, StopAll, ResumeRun;
    var first := StopOne(t, plans[0], answers(plans[0].execution), host);
    if first.thrown.Some? {
      ResumeRunEmpty(done, first);
    } else {
      ResumeRunHead(done, first.finished, StopAll(first.tables, plans[1..], answers, host));
    }
  }

  lemma ResumeRunEmpty(done: seq<ExecutionId>, run: StopRun)
    requires run.finished == []
    ensures ResumeRun(done, run) == run.(finished := done)
  {
    assert done + [] == done;
  }

  lemma ResumeRunHead(done: seq<ExecutionId>, head: seq<ExecutionId>, rest: StopRun)
    ensures ResumeRun(done, rest.(finished := head + rest.finished)) == ResumeRun(done + head, rest)
  {
    assert done + (head + rest.finished) == (done + head) + rest.finished;
  }

  lemma StopAllUnfolds(t: Tables, plans: seq<PlannedStop>, answers: ExecutionId -> StopAnswers, host: MachineId)
    requires plans != []
    ensures
      var first := StopOne(t, plans[0], answers(plans[0].execution), host);
      StopAll(t, plans, answers, host) ==
        if first.thrown.Some? then first
        else
          var rest := StopAll(first.tables, plans[1..], answers, host);
          rest.(finished := first.finished + rest.finished)
  {
    hide StopOne;
  }
}
