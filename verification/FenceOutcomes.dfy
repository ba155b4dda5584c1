/**
 * What one fence and one stop leave behind, read off the rows they started from:
 * obligations, cards, desks and the phase a stop ends in.
 */
module FenceOutcomes {
  import opened Results
  import opened Workplaces
  import opened FactoryTables
  import opened SoftStop
  import opened Invariants
  import opened StopProtocol

  // ---- the fence ------------------------------------------------------------------

  /** The lease of an obligation is taken from its dead holder; work in progress waits again. */
  predicate Unleased(was: Obligation, now: Obligation) {
    && !now.leased
    && now.state == (if was.leased && was.state.ObligationInProgress? then ObligationPending else was.state)
    && now.subject == was.subject && now.source == was.source && now.leaseFence == was.leaseFence
  }

  /** Exactly the obligations about the fenced workplace lose their lease, and only to a fence that voids. */
  lemma FenceFreesObligations(t: Tables, e: ExecutionId, ref: Option<WorkplaceRef>, project: nat)
    requires WorkplacesValid(t.workplaces) && e in t.executions
    ensures Fence(t, e, ref, project).Ok?
    ensures
      var f := Fence(t, e, ref, project).value;
      && f.outcome == (if t.executions[e].voided then AlreadyVoid
                       else if t.executions[e].state in {ExecReserved, ExecRunning, ExecCancelRequested} then DidFence else AlreadyTerminal)
      && f.tables.obligations.Keys == t.obligations.Keys
      && (forall k <- t.obligations ::
            if f.outcome == DidFence && ref == Some(t.obligations[k].subject)
            then Unleased(t.obligations[k], f.tables.obligations[k])
            else f.tables.obligations[k] == t.obligations[k])
  {
    if Live(t, e) && !t.executions[e].voided {
      LiveFenceObligations(t, e, ref, project);
    } else {
      DeadFence(t, e, ref, project);
    }
    hide Fence, WorkplacesValid, Unleased;
  }

  lemma LiveFenceObligations(t: Tables, e: ExecutionId, ref: Option<WorkplaceRef>, project: nat)
    requires WorkplacesValid(t.workplaces) && Live(t, e) && !t.executions[e].voided
    ensures Fence(t, e, ref, project).Ok?
    ensures
      var f := Fence(t, e, ref, project).value;
      && f.outcome == DidFence && f.tables.obligations.Keys == t.obligations.Keys
      && (forall k <- t.obligations ::
            if ref == Some(t.obligations[k].subject) then Unleased(t.obligations[k], f.tables.obligations[k])
            else f.tables.obligations[k] == t.obligations[k])
  {
    hide Fence, FinishFence, VoidAndRewind, UpsertStop, VoidExecution, WorkplacesValid, Unleased;
    var marked := UpsertStop(t, e, ref, project, Fenced);
    MarkedRows(t, e, ref, project, Fenced);
    VoidAndRewindShape(marked, e, ref);
    LiveFence(t, e, ref, project);
    var r := VoidAndRewind(marked, e, ref).value;
    FinishFenceObligations(r.tables, e, t.executions[e].task, ref, r.rewound, r.kernelSkipped);
  }

  /** A fence of a void or finished execution writes its stop row only. */
  lemma DeadFence(t: Tables, e: ExecutionId, ref: Option<WorkplaceRef>, project: nat)
    requires e in t.executions && (t.executions[e].voided || !Live(t, e))
    ensures Fence(t, e, ref, project).Ok?
    ensures
      var f := Fence(t, e, ref, project).value;
      && f.outcome == (if t.executions[e].voided then AlreadyVoid else AlreadyTerminal)
      && f.tables == t.(stops := t.stops[e := f.tables.stops[e]])
      && f.tables.stops[e] == (if e in t.stops then t.stops[e] else Stop(Planned, ref, project)).(
           phase := if t.executions[e].voided then Fenced else Abandoned)
  {
    hide VoidAndRewind, FinishFence;
  }

  lemma FinishFenceObligations(t: Tables, e: ExecutionId, id: TaskId, ref: Option<WorkplaceRef>, rewound: bool, kernelSkipped: bool)
    ensures
      var f := FinishFence(t, e, id, ref, rewound, kernelSkipped);
      && f.outcome == DidFence && f.tables.obligations.Keys == t.obligations.Keys
      && (forall k <- t.obligations ::
            if ref == Some(t.obligations[k].subject) then Unleased(t.obligations[k], f.tables.obligations[k])
            else f.tables.obligations[k] == t.obligations[k])
  {
  }

  /** The desk a stopped shift leaves: queued again if it was hired, untouched while the kernel holds its material. */
  predicate Rewound(was: WorkplaceRow, now: WorkplaceRow) {
    if was.state.loop.Leased? || was.state.loop.Running?
    then now == WorkplaceRow(WorkplaceState(was.state.kanban, Queued, was.state.role, was.state.revision + 1, None),
                             None, None, None, was.processRun)
    else now == was
  }

  /** The kernel has custody of the workplace's sealed material. */
  predicate InCustody(row: WorkplaceRow) {
    row.state.loop.Verifying? || row.state.loop.EffectPending?
  }

  /** The card goes back to its queue: review for a reviewer's card, todo for any other. */
  predicate HandedBack(was: Task, now: Task) {
    now == was.(status := if was.status.TaskReviewInProgress? then TaskReview else TaskTodo, assignedTo := None, current := None)
  }

  /** Everything a fence of a live execution writes, table by table. */
  lemma FenceEffect(t: Tables, e: ExecutionId, ref: Option<WorkplaceRef>, project: nat)
    requires WorkplacesValid(t.workplaces) && Live(t, e) && !t.executions[e].voided
    ensures Fence(t, e, ref, project).Ok?
    ensures
      var n := Fence(t, e, ref, project).value.tables;
      var row := t.executions[e];
      && n.executions == t.executions[e := row.(state := ExecTerminated, voided := true, stopFence := row.stopFence + 1)]
      && n.stops == t.stops[e := if e in t.stops then t.stops[e].(phase := Detached) else Stop(Detached, ref, project)]
      && n.holds == t.holds[FenceHold(e) := Hold(if ref.Some? then OnWorkplace(ref.value) else OnExecution(e), false)]
      && n.runs == t.runs && n.receipts == t.receipts
    ensures
      var n := Fence(t, e, ref, project).value.tables;
      && n.workplaces.Keys == t.workplaces.Keys
      && (forall other <- t.workplaces ::
            if ref == Some(other) then Rewound(t.workplaces[other], n.workplaces[other]) else n.workplaces[other] == t.workplaces[other])
    ensures
      var n := Fence(t, e, ref, project).value.tables;
      && n.tasks.Keys == t.tasks.Keys
      && (forall id <- t.tasks ::
            if id == t.executions[e].task && t.tasks[id].current == Some(e)
               && ref.Some? && ref.value in t.workplaces && !InCustody(t.workplaces[ref.value])
            then HandedBack(t.tasks[id], n.tasks[id])
            else n.tasks[id] == t.tasks[id])
  {
    hide Fence, FinishFence, VoidAndRewind, UpsertStop, WorkplacesValid, Rewound, InCustody, HandedBack;
    var marked := UpsertStop(t, e, ref, project, Fenced);
    MarkedStop(t, e, ref, project);
    VoidAndRewindEffect(marked, e, ref);
    LiveFence(t, e, ref, project);
    var r := VoidAndRewind(marked, e, ref).value;
    var n := FinishFence(r.tables, e, t.executions[e].task, ref, r.rewound, r.kernelSkipped).tables;
    FinishFenceEffect(r.tables, e, t.executions[e].task, ref, r.rewound, r.kernelSkipped);
    assert n.stops == t.stops[e := if e in t.stops then t.stops[e].(phase := Detached) else Stop(Detached, ref, project)];
  }

  lemma MarkedStop(t: Tables, e: ExecutionId, ref: Option<WorkplaceRef>, project: nat)
    ensures
      var n := UpsertStop(t, e, ref, project, Fenced);
      n == t.(stops := t.stops[e := if e in t.stops then t.stops[e].(phase := Fenced) else Stop(Fenced, ref, project)])
  {
  }

  lemma VoidAndRewindEffect(t: Tables, e: ExecutionId, ref: Option<WorkplaceRef>)
    requires WorkplacesValid(t.workplaces) && e in t.executions
    ensures VoidAndRewind(t, e, ref).Ok?
    ensures
      var r := VoidAndRewind(t, e, ref).value;
      var row := t.executions[e];
      && r.tables == t.(executions := t.executions[e := row.(state := ExecTerminated, voided := true, stopFence := row.stopFence + 1)],
                        workplaces := r.tables.workplaces)
      && r.tables.workplaces.Keys == t.workplaces.Keys
      && (forall other <- t.workplaces ::
            if ref == Some(other) then Rewound(t.workplaces[other], r.tables.workplaces[other])
            else r.tables.workplaces[other] == t.workplaces[other])
      && (r.rewound && !r.kernelSkipped <==>
            ref.Some? && ref.value in t.workplaces && !InCustody(t.workplaces[ref.value]))
  {
    var void := VoidExecution(t, e);
    if ref.Some? {
      RewindShape(void, ref.value);
      if ref.value in t.workplaces {
        FinishedHasReason(t.workplaces[ref.value].state);
      }
      hide RewindWorkplace, Valid;
    }
  }

  /** A hired workplace has no terminal reason. */
  lemma FinishedHasReason(s: WorkplaceState)
    requires Valid(s)
    ensures s.loop.Leased? || s.loop.Running? ==> s.reason.None?
  {
  }

  lemma FinishFenceEffect(t: Tables, e: ExecutionId, id: TaskId, ref: Option<WorkplaceRef>, rewound: bool, kernelSkipped: bool)
    requires e in t.stops
    ensures
      var n := FinishFence(t, e, id, ref, rewound, kernelSkipped).tables;
      && n.executions == t.executions && n.workplaces == t.workplaces && n.runs == t.runs && n.receipts == t.receipts
      && n.stops == t.stops[e := t.stops[e].(phase := Detached)]
      && n.holds == t.holds[FenceHold(e) := Hold(if ref.Some? then OnWorkplace(ref.value) else OnExecution(e), false)]
      && n.tasks.Keys == t.tasks.Keys
      && (forall k <- t.tasks ::
            if k == id && t.tasks[k].current == Some(e) && rewound && !kernelSkipped then HandedBack(t.tasks[k], n.tasks[k])
            else n.tasks[k] == t.tasks[k])
  {
  }

  // ---- the phase a stop ends in --------------------------------------------------------

  /** A stop finds work to recall: the execution still runs, or an earlier fence voided it. */
  predicate Recalled(row: Execution) {
    row.voided || row.state in {ExecReserved, ExecRunning, ExecCancelRequested}
  }

  /** A local process whose recorded birth lets it be killed, and that is seen dead afterwards. */
  predicate KilledAndSeenDead(row: Execution, probe: Probe, host: MachineId) {
    row.machine == host && row.birthToken.Some? && probe.killed && !probe.aliveAfter
  }

  /** No process was recorded, it no longer answers, or this host killed it. */
  predicate Gone(row: Execution, probe: Probe, host: MachineId) {
    row.pid.None? || !probe.alive || KilledAndSeenDead(row, probe, host)
  }

  /** A live process of this host that could not be shown dead. */
  predicate Lingers(row: Execution, probe: Probe, host: MachineId) {
    row.machine == host && row.pid.Some? && probe.alive && !KilledAndSeenDead(row, probe, host)
  }

  function StopVerdict(row: Execution, probe: Probe, host: MachineId): StopPhase {
    if Recalled(row) && Gone(row, probe, host) then Killed else Abandoned
  }

  /**
   * One planned stop ends killed exactly when it recalled a worker whose process
   * is gone, and abandoned otherwise; it throws exactly when that process
   * lingers on this host. A live worker of another host is never called killed.
   */
  lemma StopOneVerdict(t: Tables, plan: PlannedStop, answers: StopAnswers, host: MachineId)
    requires Inv(t) && plan.execution in t.executions
    ensures
      var run := StopOne(t, plan, answers, host);
      var row := t.executions[plan.execution];
      && plan.execution in run.tables.stops
      && run.tables.stops[plan.execution].phase == StopVerdict(row, answers.probe, host)
      && run.thrown == (if Recalled(row) && Lingers(row, answers.probe, host) then Some("WORKER_STOP_KILL_UNVERIFIED") else None)
    ensures SameWorkers(t.executions, StopOne(t, plan, answers, host).tables.executions)
  {
    var e := plan.execution;
    BrakedKeeps(t, plan);
    LiveIsNotVoid(t, e);
    hide Inv, Grows, MarkBraked, Fence, KillStep, WorkplacesValid, FenceFramed, SameWorkers, StopVerdict, Lingers;
    var braked := MarkBraked(t, plan);
    FenceLeaves(braked, e, plan.ref, plan.project);
    FencedWorkers(braked, e, plan.ref, plan.project);
    var fence := Fence(braked, e, plan.ref, plan.project).value;
    if fence.outcome == AlreadyTerminal {
      AbandonedVerdict(t, e, answers.probe, host);
    } else {
      KillStepVerdict(fence.tables, e, answers, host);
      VerdictCarries(t, fence.tables, e, answers.probe, host);
    }
  }

  /** What a verdict reads of an execution does not change while it is stopped. */
  predicate SameWorker(was: Execution, now: Execution) {
    now.pid == was.pid && now.machine == was.machine && now.birthToken == was.birthToken && Recalled(now) == Recalled(was)
  }

  predicate SameWorkers(a: map<ExecutionId, Execution>, b: map<ExecutionId, Execution>) {
    a.Keys == b.Keys && forall e <- a :: SameWorker(a[e], b[e])
  }

  lemma FencedWorkers(t: Tables, e: ExecutionId, ref: Option<WorkplaceRef>, project: nat)
    requires Inv(t) && e in t.executions
    ensures Fence(t, e, ref, project).Ok?
    ensures
      var f := Fence(t, e, ref, project).value;
      && SameWorkers(t.executions, f.tables.executions)
      && (f.outcome == AlreadyTerminal <==> !Recalled(t.executions[e]))
      && (f.outcome == AlreadyTerminal ==> e in f.tables.stops && f.tables.stops[e].phase == Abandoned)
  {
    LiveIsNotVoid(t, e);
    hide Inv, WorkplacesValid, Fence, SameWorkers, Recalled;
    RecalledOrOver(t, e);
    if Live(t, e) {
      FenceFrame(t, e, ref, project);
      FenceReleasesTheCardIff(t, e, ref, project);
      VoidedWorkers(t, Fence(t, e, ref, project).value.tables, e);
    } else {
      DeadFence(t, e, ref, project);
      SameWorkersReflexive(t.executions);
    }
  }

  lemma RecalledOrOver(t: Tables, e: ExecutionId)
    requires e in t.executions
    ensures Recalled(t.executions[e]) <==> Live(t, e) || t.executions[e].voided
  {
  }

  lemma VoidedWorkers(t: Tables, n: Tables, e: ExecutionId)
    requires Live(t, e) && FenceFramed(t, n, e)
    ensures SameWorkers(t.executions, n.executions)
  {
  }

  lemma SameWorkersReflexive(m: map<ExecutionId, Execution>)
    ensures SameWorkers(m, m)
  {
  }

  lemma AbandonedVerdict(t: Tables, e: ExecutionId, probe: Probe, host: MachineId)
    requires e in t.executions && !Recalled(t.executions[e])
    ensures StopVerdict(t.executions[e], probe, host) == Abandoned
  {
  }

  lemma KillStepVerdict(t: Tables, e: ExecutionId, answers: StopAnswers, host: MachineId)
    requires Void(t, e) && e in t.stops
    ensures
      var run := KillStep(t, e, answers, host);
      && run.tables.executions == t.executions
      && e in run.tables.stops && run.tables.stops[e].phase == StopVerdict(t.executions[e], answers.probe, host)
      && run.thrown == (if Lingers(t.executions[e], answers.probe, host) then Some("WORKER_STOP_KILL_UNVERIFIED") else None)
  {
    var hooked := if answers.hookSent then AdvancePhase(t, e, HookSent) else t;
    KillOutcomes(hooked, e, answers.probe, host);
    hide KillWorkerTree, StopVerdict, Lingers, Gone;
  }

  lemma KillOutcomes(t: Tables, e: ExecutionId, probe: Probe, host: MachineId)
    requires Void(t, e)
    ensures
      var r := KillWorkerTree(t, e, probe, host);
      && (r.Err? <==> Lingers(t.executions[e], probe, host)) && (r.Err? ==> r.error == "WORKER_STOP_KILL_UNVERIFIED")
      && (r.Ok? && r.value != AbandonedRemote <==> Gone(t.executions[e], probe, host))
      && StopVerdict(t.executions[e], probe, host) == if Gone(t.executions[e], probe, host) then Killed else Abandoned
  {
  }

  lemma VerdictCarries(t: Tables, n: Tables, e: ExecutionId, probe: Probe, host: MachineId)
    requires SameWorkers(t.executions, n.executions) && e in t.executions
    ensures StopVerdict(n.executions[e], probe, host) == StopVerdict(t.executions[e], probe, host)
    ensures Lingers(n.executions[e], probe, host) == Lingers(t.executions[e], probe, host)
    ensures Recalled(n.executions[e]) == Recalled(t.executions[e])
  {
  }

  // ---- the phases of a run -----------------------------------------------------------------

  /** The stop of this plan row throws. */
  predicate Throws(t: Tables, plan: PlannedStop, answers: ExecutionId -> StopAnswers, host: MachineId) {
    && plan.execution in t.executions
    && Recalled(t.executions[plan.execution]) && Lingers(t.executions[plan.execution], answers(plan.execution).probe, host)
  }

  predicate SomeThrows(t: Tables, plans: seq<PlannedStop>, answers: ExecutionId -> StopAnswers, host: MachineId) {
    exists i :: 0 <= i < |plans| && Throws(t, plans[i], answers, host)
  }

  /** The run gets to this row: no earlier one throws. */
  predicate Reached(t: Tables, plans: seq<PlannedStop>, answers: ExecutionId -> StopAnswers, host: MachineId, i: nat) {
    i < |plans| && forall j | 0 <= j < i :: !Throws(t, plans[j], answers, host)
  }

  predicate EndsAs(t: Tables, n: Tables, e: ExecutionId, answers: ExecutionId -> StopAnswers, host: MachineId) {
    e in t.executions && e in n.stops && n.stops[e].phase == StopVerdict(t.executions[e], answers(e).probe, host)
  }

  /** Over any plan: every row the run reaches ends with its verdict, and it throws exactly when some worker lingers. */
  lemma {:induction false} StopAllVerdicts(t: Tables, plans: seq<PlannedStop>, answers: ExecutionId -> StopAnswers, host: MachineId)
    requires Inv(t) && forall plan <- plans :: plan.execution in t.executions
    ensures
      var run := StopAll(t, plans, answers, host);
      && (run.thrown.Some? <==> SomeThrows(t, plans, answers, host))
      && t.stops.Keys <= run.tables.stops.Keys
      && (forall i: nat :: Reached(t, plans, answers, host, i) ==> EndsAs(t, run.tables, plans[i].execution, answers, host))
      && (forall e <- run.tables.stops :: (e in t.stops && run.tables.stops[e] == t.stops[e]) || EndsAs(t, run.tables, e, answers, host))
    decreases |plans|
  {
    hide Inv, Grows, StopOne, StopVerdict, Lingers, SameWorkers, Recalled;
    if plans != [] {
      assert plans[0] in plans;
      var e := plans[0].execution;
      StopOneVerdict(t, plans[0], answers(e), host);
      StopOneConverges(t, plans[0], answers(e), host);
      var n := StopOne(t, plans[0], answers(e), host).tables;
      GrownExecutions(t, n);
      if Throws(t, plans[0], answers, host) {
        assert SomeThrows(t, plans, answers, host);
      } else {
        StopAllVerdicts(n, plans[1..], answers, host);
        VerdictsCarry(t, n, answers, host);
        ReachedTail(t, plans, answers, host, n);
        hide Throws;
        forall i: nat | Reached(t, plans, answers, host, i)
          ensures EndsAs(t, StopAll(t, plans, answers, host).tables, plans[i].execution, answers, host)
        {
          if i > 0 { assert Reached(n, plans[1..], answers, host, i - 1) && plans[1..][i - 1] == plans[i]; }
        }
      }
    }
  }

  lemma VerdictsCarry(t: Tables, n: Tables, answers: ExecutionId -> StopAnswers, host: MachineId)
    requires SameWorkers(t.executions, n.executions)
    ensures forall plan :: Throws(n, plan, answers, host) == Throws(t, plan, answers, host)
    ensures forall m, e :: EndsAs(n, m, e, answers, host) == EndsAs(t, m, e, answers, host)
  {
    hide StopVerdict, Lingers, Recalled;
    forall e <- t.executions
      ensures e in n.executions && Recalled(n.executions[e]) == Recalled(t.executions[e])
              && Lingers(n.executions[e], answers(e).probe, host) == Lingers(t.executions[e], answers(e).probe, host)
              && StopVerdict(n.executions[e], answers(e).probe, host) == StopVerdict(t.executions[e], answers(e).probe, host)
    {
      VerdictCarries(t, n, e, answers(e).probe, host);
    }
  }

  lemma ReachedTail(t: Tables, plans: seq<PlannedStop>, answers: ExecutionId -> StopAnswers, host: MachineId, n: Tables)
    requires plans != [] && !Throws(t, plans[0], answers, host)
    requires forall plan :: Throws(n, plan, answers, host) == Throws(t, plan, answers, host)
    ensures SomeThrows(t, plans, answers, host) <==> SomeThrows(n, plans[1..], answers, host)
    ensures forall i: nat :: i > 0 && Reached(t, plans, answers, host, i) ==> Reached(n, plans[1..], answers, host, i - 1)
  {
    hide Throws;
    if SomeThrows(t, plans, answers, host) {
      var i :| 0 <= i < |plans| && Throws(t, plans[i], answers, host);
      assert plans[1..][i - 1] == plans[i];
    }
    if SomeThrows(n, plans[1..], answers, host) {
      var i :| 0 <= i < |plans[1..]| && Throws(n, plans[1..][i], answers, host);
      assert plans[i + 1] == plans[1..][i];
    }
    forall i: nat | i > 0 && Reached(t, plans, answers, host, i) ensures Reached(n, plans[1..], answers, host, i - 1) {
      forall j | 0 <= j < i - 1 ensures !Throws(n, plans[1..][j], answers, host) { assert plans[1..][j] == plans[j + 1]; }
    }
  }

  predicate SomeLingers(t: Tables, scope: Option<nat>, answers: ExecutionId -> StopAnswers, host: MachineId) {
    exists e <- t.executions :: Recallable(t, e, scope) && Lingers(t.executions[e], answers(e).probe, host)
  }

  /**
   * The soft-stop of a scope throws exactly when some worker it recalls lingers
   * on this host. Otherwise each of them has its verdict on its stop row, or the
   * checkpoint mark where the stop was captured.
   */
  lemma StopScopeVerdicts(t: Tables, scope: Option<nat>, plans: seq<PlannedStop>, answers: ExecutionId -> StopAnswers,
                          host: MachineId, captured: bool)
    requires Inv(t) && forall p :: p in plans <==> p in PlanSet(t, scope)
    ensures
      var run := StopScope(t, plans, answers, host, captured);
      && (run.thrown.Some? <==> SomeLingers(t, scope, answers, host))
      && (run.thrown.None? ==> forall e <- t.executions | Recallable(t, e, scope) ::
            && e in run.tables.stops
            && run.tables.stops[e].phase == if captured then Checkpointed else StopVerdict(t.executions[e], answers(e).probe, host))
  {
    PlansAreKnown(t, scope, plans);
    PlansThrow(t, scope, plans, answers, host);
    hide Inv, StopAll, PlanSet, StopVerdict, Lingers, Throws, SomeThrows, SomeLingers;
    StopAllVerdicts(t, plans, answers, host);
    FinishedPlans(t, plans, answers, host);
    var run := StopAll(t, plans, answers, host);
    forall e <- t.executions | Recallable(t, e, scope) && run.thrown.None?
      ensures e in run.finished && EndsAs(t, run.tables, e, answers, host)
    {
      PlanCoversTheScope(t, e, scope);
      var p :| p in PlanSet(t, scope) && p.execution == e;
      var i :| 0 <= i < |plans| && plans[i] == p;
      NoneThrows(t, plans, answers, host);
      assert Reached(t, plans, answers, host, i);
    }
    hide Recallable;
  }

  lemma NoneThrows(t: Tables, plans: seq<PlannedStop>, answers: ExecutionId -> StopAnswers, host: MachineId)
    ensures !SomeThrows(t, plans, answers, host) ==> forall i | 0 <= i < |plans| :: !Throws(t, plans[i], answers, host)
  {
    hide Throws;
  }

  lemma PlansThrow(t: Tables, scope: Option<nat>, plans: seq<PlannedStop>, answers: ExecutionId -> StopAnswers, host: MachineId)
    requires forall p :: p in plans <==> p in PlanSet(t, scope)
    ensures SomeThrows(t, plans, answers, host) <==> SomeLingers(t, scope, answers, host)
  {
    hide Lingers;
    if SomeThrows(t, plans, answers, host) {
      var i :| 0 <= i < |plans| && Throws(t, plans[i], answers, host);
      assert plans[i] in PlanSet(t, scope);
      PlanCoversTheScope(t, plans[i].execution, scope);
    }
    if SomeLingers(t, scope, answers, host) {
      var e :| e in t.executions && Recallable(t, e, scope) && Lingers(t.executions[e], answers(e).probe, host);
      PlanCoversTheScope(t, e, scope);
      var p :| p in PlanSet(t, scope) && p.execution == e;
      var i :| 0 <= i < |plans| && plans[i] == p;
      hide PlanSet;
      assert Throws(t, plans[i], answers, host);
    }
  }

  lemma {:induction false} FinishedPlans(t: Tables, plans: seq<PlannedStop>, answers: ExecutionId -> StopAnswers, host: MachineId)
    ensures
      var run := StopAll(t, plans, answers, host);
      run.thrown.None? ==> forall i | 0 <= i < |plans| :: plans[i].execution in run.finished
    decreases |plans|
  {
    hide StopOne;
    if plans != [] {
      StopOneFinishes(t, plans[0], answers(plans[0].execution), host);
      FinishedPlans(StopOne(t, plans[0], answers(plans[0].execution), host).tables, plans[1..], answers, host);
      forall i | 0 < i < |plans| ensures plans[i] == plans[1..][i - 1] {}
    }
  }

  // ---- the phases of a reaper pass --------------------------------------------------------

  /** The reaper saw no process, or this host's kill took effect. */
  predicate ReapedDead(pid: Option<Pid>, machine: MachineId, probe: Probe, host: MachineId) {
    pid.None? || !probe.alive || (machine == host && probe.killed && !probe.aliveAfter)
  }

  predicate ReapsAs(n: Tables, row: ReapRow, probe: Probe, host: MachineId) {
    && row.execution in n.stops
    && n.stops[row.execution].phase == if ReapedDead(row.pid, row.machine, probe, host) then Reaped else Abandoned
  }

  lemma ReapOneVerdict(t: Tables, row: ReapRow, probe: Probe, host: MachineId)
    requires Inv(t) && row.execution in t.executions
    ensures ReapOne(t, row, probe, host).Ok? && ReapsAs(ReapOne(t, row, probe, host).value.tables, row, probe, host)
  {
    LiveIsNotVoid(t, row.execution);
    FenceFrame(t, row.execution, row.ref, row.project);
    hide Fence, Inv, WorkplacesValid;
  }

  lemma HeadOrTail(rows: seq<ReapRow>)
    requires rows != []
    ensures rows[0] in rows && forall row <- rows :: row == rows[0] || row in rows[1..]
  {
    forall row <- rows ensures row == rows[0] || row in rows[1..] {
      var i :| 0 <= i < |rows| && rows[i] == row;
      if i > 0 { assert rows[1..][i - 1] == row; }
    }
  }

  lemma {:induction false} ReapAllVerdicts(t: Tables, rows: seq<ReapRow>, probes: ExecutionId -> Probe, host: MachineId)
    requires Inv(t) && forall row <- rows :: row.execution in t.stops
    requires forall i, j | 0 <= i < j < |rows| :: rows[i].execution != rows[j].execution
    ensures ReapAll(t, rows, probes, host).Ok?
    ensures forall row <- rows :: ReapsAs(ReapAll(t, rows, probes, host).value.tables, row, probes(row.execution), host)
    decreases |rows|
  {
    hide Inv, Grows, ReapOne, ReapAll, Lists, ReapedDead, ReportOf;
    ReapAllConverges(t, rows, probes, host);
    if rows != [] {
      HeadOrTail(rows);
      ReapFirst(t, rows, probes, host);
      AreStopped(t, rows);
      ReapOneVerdict(t, rows[0], probes(rows[0].execution), host);
      RowsTail(rows);
      ReapAllUnfolds(t, rows, probes, host);
      var n := ReapOne(t, rows[0], probes(rows[0].execution), host).value.tables;
      ReapAllVerdicts(n, rows[1..], probes, host);
      ReapAllConverges(n, rows[1..], probes, host);
    }
  }

  /** How the kill of an interrupted stop ended, from the execution's columns and the probe. */
  predicate KillEnds(row: Execution, probe: Probe, host: MachineId, k: KillOutcome) {
    match k
    case AlreadyDead => row.pid.None? || !probe.alive
    case AbandonedRemote => row.pid.Some? && probe.alive && row.machine != host
    case KilledNow => row.pid.Some? && probe.alive && row.machine == host && probe.killed && !probe.aliveAfter
  }

  /** What one pass records and reports of each interrupted stop, read off its execution row and the probe. */
  lemma ReaperPassVerdicts(t: Tables, rows: seq<ReapRow>, probes: ExecutionId -> Probe, host: MachineId)
    requires Inv(t) && Captured(t, rows)
    ensures ReapAll(t, rows, probes, host).Ok?
    ensures
      var pass := ReapAll(t, rows, probes, host).value;
      forall e <- t.stops | e in t.executions && !(t.stops[e].phase in {Killed, Reaped, Checkpointed, Abandoned}) ::
        var x, probe := t.executions[e], probes(e);
        && e in pass.tables.stops
        && pass.tables.stops[e].phase == (if ReapedDead(x.pid, x.machine, probe, host) then Reaped else Abandoned)
        && forall k :: ReapEntry(e, KillEnded(k)) in pass.report <==> KillEnds(x, probe, host, k)
  {
    hide Inv, Grows, ReapAll, Captured, Lists, ReapedDead, Dead, KillReport, CaptureRow, ReportOf;
    OneReaperPassConverges(t, rows, probes, host);
    CapturedLists(t, rows);
    ReapAllVerdicts(t, rows, probes, host);
    CapturedRows(t, rows);
    forall e <- Pending(t) ensures CaptureRow(t, e).execution == e && CaptureRow(t, e).pid == t.executions[e].pid
                                   && CaptureRow(t, e).machine == t.executions[e].machine
    {
      CapturedColumns(t, e);
    }
    forall e <- Pending(t)
      ensures forall k :: KillReport(CaptureRow(t, e), probes(e), host) == Some(k) <==> KillEnds(t.executions[e], probes(e), host, k)
    {
      ReportedKills(CaptureRow(t, e), t.executions[e], probes(e), host);
    }
  }

  lemma CapturedColumns(t: Tables, e: ExecutionId)
    requires e in Pending(t)
    ensures CaptureRow(t, e).execution == e && CaptureRow(t, e).pid == t.executions[e].pid
    ensures CaptureRow(t, e).machine == t.executions[e].machine
  {
  }

  lemma ReportedKills(row: ReapRow, x: Execution, probe: Probe, host: MachineId)
    requires row.pid == x.pid && row.machine == x.machine
    ensures forall k :: KillReport(row, probe, host) == Some(k) <==> KillEnds(x, probe, host, k)
  {
  }

  lemma CapturedRows(t: Tables, rows: seq<ReapRow>)
    requires Captured(t, rows)
    ensures forall e <- Pending(t) :: CaptureRow(t, e) in rows
  {
    forall e <- Pending(t) ensures CaptureRow(t, e) in rows {
      var i :| 0 <= i < |rows| && rows[i].execution == e;
      assert rows[i] in rows;
    }
  }
}
