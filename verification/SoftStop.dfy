/**
 * The operator soft-stop: plan, fence and rewind, guarded kill, the boot reaper
 * that converges interrupted stops, and the two unpark verbs.
 */
module SoftStop {
  import opened Results
  import opened Workplaces
  import opened FactoryTables
  import opened ConveyorRuntimes

  predicate Hirable(loop: LoopState) { loop.Leased? || loop.Running? }

  predicate KernelOwned(loop: LoopState) { loop.Verifying? || loop.EffectPending? }

  // ---- stop rows ----------------------------------------------------------------

  function AdvancePhase(t: Tables, e: ExecutionId, phase: StopPhase): Tables {
    if e in t.stops then t.(stops := t.stops[e := t.stops[e].(phase := phase)]) else t
  }

  function UpsertStop(t: Tables, e: ExecutionId, ref: Option<WorkplaceRef>, project: nat, phase: StopPhase): Tables {
    if e in t.stops then AdvancePhase(t, e, phase) else t.(stops := t.stops[e := Stop(phase, ref, project)])
  }

  // ---- fence and rewind -----------------------------------------------------------

  datatype FenceOutcome = DidFence | AlreadyVoid | AlreadyTerminal

  datatype FenceResult = FenceResult(tables: Tables, outcome: FenceOutcome, rewound: bool, kernelSkipped: bool, taskReleased: bool)

  function VoidExecution(t: Tables, e: ExecutionId): Tables
    requires e in t.executions
  {
    var row := t.executions[e];
    t.(executions := t.executions[e := row.(state := ExecTerminated, voided := true, stopFence := row.stopFence + 1)])
  }

  function ClearObligationLeases(t: Tables, subject: string): Tables {
    t.(obligations := map k <- t.obligations ::
         var o := t.obligations[k];
         if o.subject == subject && o.leased
         then o.(leased := false, state := if o.state == ObligationInProgress then ObligationPending else o.state)
         else o)
  }

  datatype Rewind = Rewind(tables: Tables, rewound: bool, kernelSkipped: bool)

  /** Back to the pre-hire point: queued, same role and Kanban phase, reservation cleared. */
  function RewindWorkplace(t: Tables, ref: WorkplaceRef): Result<Rewind> {
    if ref !in t.workplaces then Ok(Rewind(t, false, false))
    else
      var s := t.workplaces[ref].state;
      if KernelOwned(s.loop) then Ok(Rewind(t, false, true))
      else if !Hirable(s.loop) then Ok(Rewind(t, true, false))
      else
        match ApplyTransition(t, ref, s.revision, s.(loop := Queued, reason := None), None, None)
        case Err(e) => Err(e)
        case Ok(tr) => Ok(Rewind(tr.tables, tr.applied, false))
  }

  predicate ReleasesTask(t: Tables, id: TaskId, e: ExecutionId) {
    id in t.tasks && t.tasks[id].current == Some(e)
  }

  function ReleaseCard(t: Tables, id: TaskId, e: ExecutionId): Tables {
    if !ReleasesTask(t, id, e) then t
    else t.(tasks := t.tasks[id := t.tasks[id].(
      status := if t.tasks[id].status == TaskReviewInProgress then TaskReview else TaskTodo,
      assignedTo := None, current := None)])
  }

  function InsertHold(t: Tables, e: ExecutionId, ref: Option<WorkplaceRef>): Tables {
    t.(holds := t.holds[FenceHold(e) := Hold(if ref.Some? then OnWorkplace(ref.value) else OnExecution(e), false)])
  }

  /** After the rewind: obligation leases cleared, card released, hold inserted, phase detached. */
  function FinishFence(t: Tables, e: ExecutionId, id: TaskId, ref: Option<WorkplaceRef>, rewound: bool, kernelSkipped: bool): FenceResult {
    var cleared := if ref.Some? then ClearObligationLeases(t, ref.value) else t;
    var released := rewound && !kernelSkipped && ReleasesTask(cleared, id, e);
    var carded := if released then ReleaseCard(cleared, id, e) else cleared;
    FenceResult(AdvancePhase(InsertHold(carded, e, ref), e, Detached), DidFence, rewound, kernelSkipped, released)
  }

  function VoidAndRewind(t: Tables, e: ExecutionId, ref: Option<WorkplaceRef>): Result<Rewind>
    requires e in t.executions
  {
    var void := VoidExecution(t, e);
    if ref.Some? then RewindWorkplace(void, ref.value) else Ok(Rewind(void, false, false))
  }

  /** `fenceAndRewindInTx`: the load-bearing transaction. */
  function Fence(t: Tables, e: ExecutionId, ref: Option<WorkplaceRef>, project: nat): Result<FenceResult> {
    if e !in t.executions then Err("WORKER_STOP_EXECUTION_NOT_FOUND")
    else
      var marked := UpsertStop(t, e, ref, project, Fenced);
      if t.executions[e].voided then Ok(FenceResult(marked, AlreadyVoid, false, false, false))
      else if !Active(t.executions[e].state) then Ok(FenceResult(AdvancePhase(marked, e, Abandoned), AlreadyTerminal, false, false, false))
      else
        match VoidAndRewind(marked, e, ref)
        case Err(err) => Err(err)
        case Ok(r) => Ok(FinishFence(r.tables, e, t.executions[e].task, ref, r.rewound, r.kernelSkipped))
  }

  /** A phase mark writes its own stop row only. */
  lemma MarkedRows(t: Tables, e: ExecutionId, ref: Option<WorkplaceRef>, project: nat, phase: StopPhase)
    ensures
      var n := UpsertStop(t, e, ref, project, phase);
      n.executions == t.executions && n.workplaces == t.workplaces && n.tasks == t.tasks && n == t.(stops := n.stops)
  {
  }

  lemma AdvancedRows(t: Tables, e: ExecutionId, phase: StopPhase)
    ensures AdvancePhase(t, e, phase) == t.(stops := AdvancePhase(t, e, phase).stops)
  {
  }

  /** The parts of a fence that does void its execution. */
  lemma LiveFence(t: Tables, e: ExecutionId, ref: Option<WorkplaceRef>, project: nat)
    requires Live(t, e) && !t.executions[e].voided
    requires VoidAndRewind(UpsertStop(t, e, ref, project, Fenced), e, ref).Ok?
    ensures
      var r := VoidAndRewind(UpsertStop(t, e, ref, project, Fenced), e, ref).value;
      Fence(t, e, ref, project) == Ok(FinishFence(r.tables, e, t.executions[e].task, ref, r.rewound, r.kernelSkipped))
  {
    hide VoidAndRewind, FinishFence;
  }

  /** A fence never fails on a known execution of a well-formed database: its compare-and-set hits at once. */
  lemma FenceCommits(t: Tables, e: ExecutionId, ref: Option<WorkplaceRef>, project: nat)
    requires WorkplacesValid(t.workplaces) && e in t.executions
    ensures Fence(t, e, ref, project).Ok?
  {
  }

  lemma RewindShape(t: Tables, ref: WorkplaceRef)
    requires WorkplacesValid(t.workplaces)
    ensures RewindWorkplace(t, ref).Ok?
    ensures
      var r := RewindWorkplace(t, ref).value;
      && r.tables == t.(workplaces := r.tables.workplaces)
      && r.tables.workplaces.Keys == t.workplaces.Keys
      && (forall other <- t.workplaces :: other != ref ==> r.tables.workplaces[other] == t.workplaces[other])
      && (r.rewound && !r.kernelSkipped <==> ref in t.workplaces && !KernelOwned(t.workplaces[ref].state.loop))
      && (ref in t.workplaces ==>
            var row := t.workplaces[ref];
            r.tables.workplaces[ref] ==
              if Hirable(row.state.loop)
              then row.(state := row.state.(loop := Queued, revision := row.state.revision + 1), reservation := None, gate := None, recoveryCase := None)
              else row)
  {
  }

  /**
   * The comment on the transaction says the task is released even for
   * kernel-owned workplaces; the code releases it exactly in the other case.
   */
  lemma FenceReleasesTheCardIff(t: Tables, e: ExecutionId, ref: Option<WorkplaceRef>, project: nat)
    requires WorkplacesValid(t.workplaces) && Live(t, e) && !t.executions[e].voided
    ensures Fence(t, e, ref, project).Ok?
    ensures
      var f := Fence(t, e, ref, project).value;
      var id := t.executions[e].task;
      && f.outcome == DidFence
      && (f.taskReleased <==>
            && ref.Some? && ref.value in t.workplaces && !KernelOwned(t.workplaces[ref.value].state.loop)
            && id in t.tasks && t.tasks[id].current == Some(e))
      && f.tables.tasks == if f.taskReleased then ReleaseCard(t, id, e).tasks else t.tasks
  {
    MarkedRows(t, e, ref, project, Fenced);
    hide Fence, FinishFence, VoidAndRewind, WorkplacesValid, VoidExecution, UpsertStop, KernelOwned;
    var marked := UpsertStop(t, e, ref, project, Fenced);
    VoidAndRewindShape(marked, e, ref);
    var r := VoidAndRewind(marked, e, ref).value;
    FinishFenceCard(r.tables, e, t.executions[e].task, ref, r.rewound, r.kernelSkipped);
    LiveFence(t, e, ref, project);
  }

  lemma VoidAndRewindShape(t: Tables, e: ExecutionId, ref: Option<WorkplaceRef>)
    requires WorkplacesValid(t.workplaces) && e in t.executions
    ensures VoidAndRewind(t, e, ref).Ok?
    ensures
      var r := VoidAndRewind(t, e, ref).value;
      && r.tables == t.(executions := VoidExecution(t, e).executions, workplaces := r.tables.workplaces)
      && (r.rewound && !r.kernelSkipped <==>
            ref.Some? && ref.value in t.workplaces && !KernelOwned(t.workplaces[ref.value].state.loop))
  {
    hide RewindWorkplace;
    if ref.Some? {
      RewindShape(VoidExecution(t, e), ref.value);
    }
  }

  lemma FinishFenceCard(t: Tables, e: ExecutionId, id: TaskId, ref: Option<WorkplaceRef>, rewound: bool, kernelSkipped: bool)
    ensures
      var f := FinishFence(t, e, id, ref, rewound, kernelSkipped);
      && f.outcome == DidFence
      && f.taskReleased == (rewound && !kernelSkipped && ReleasesTask(t, id, e))
      && f.tables.tasks == if f.taskReleased then ReleaseCard(t, id, e).tasks else t.tasks
  {
  }

  /** The retry loop around the repository's compare-and-set; its first attempt already hits. */
  method RewindHire(db: FactoryDb, ref: WorkplaceRef) returns (r: Result<(bool, bool)>)
    modifies db
    ensures match RewindWorkplace(old(db.Rows()), ref)
            case Err(err) => r == Err(err) && db.Rows() == old(db.Rows())
            case Ok(w) => r == Ok((w.rewound, w.kernelSkipped)) && db.Rows() == w.tables
  {
    var runtime := new ConveyorRuntime(db);
    var rewound, attempt := false, 0;
    while attempt < 5 && !rewound
      invariant runtime.db == db
      invariant attempt == 0 ==> !rewound && db.Rows() == old(db.Rows())
      invariant attempt > 0 ==> rewound && RewindWorkplace(old(db.Rows()), ref) == Ok(Rewind(db.Rows(), true, false))
    {
      if ref !in db.workplaces {
        return Ok((false, false));
      }
      var s := db.workplaces[ref].state;
      if KernelOwned(s.loop) {
        return Ok((false, true));
      }
      if !Hirable(s.loop) {
        return Ok((true, false));
      }
      var applied := runtime.ApplyTransitionInTx(ref, s.revision, s.(loop := Queued, reason := None), None, None);
      if applied.Err? {
        return Err(applied.error);
      }
      rewound := applied.value;
      attempt := attempt + 1;
    }
    r := Ok((true, false));
  }

  method FenceAndRewindHire(db: FactoryDb, e: ExecutionId, ref: Option<WorkplaceRef>, project: nat)
    returns (r: Result<FenceOutcome>)
    modifies db
    ensures match Fence(old(db.Rows()), e, ref, project)
            case Err(err) => r == Err(err) && db.Rows() == old(db.Rows())
            case Ok(f) => r == Ok(f.outcome) && db.Rows() == f.tables
  {
    hide FinishFence;
    var before := db.Rows();
    if e !in db.executions {
      return Err("WORKER_STOP_EXECUTION_NOT_FOUND");
    }
    db.stops := db.stops[e := if e in db.stops then db.stops[e].(phase := Fenced) else Stop(Fenced, ref, project)];
    var execution := db.executions[e];
    if execution.voided {
      return Ok(AlreadyVoid);
    }
    if !Active(execution.state) {
      db.stops := db.stops[e := db.stops[e].(phase := Abandoned)];
      return Ok(AlreadyTerminal);
    }
    db.executions := db.executions[e := execution.(state := ExecTerminated, voided := true, stopFence := execution.stopFence + 1)];
    var rewound, kernelSkipped := false, false;
    if ref.Some? {
      var rewind := RewindHire(db, ref.value);
      match rewind {
        case Err(err) =>
          db.Restore(before);
          return Err(err);
        case Ok(flags) =>
          rewound, kernelSkipped := flags.0, flags.1;
      }
    }
    FinishFenceCard(db.Rows(), e, execution.task, ref, rewound, kernelSkipped);
    DetachHire(db, e, execution.task, ref, rewound, kernelSkipped);
    r := Ok(DidFence);
  }

  method DetachHire(db: FactoryDb, e: ExecutionId, id: TaskId, ref: Option<WorkplaceRef>, rewound: bool, kernelSkipped: bool)
    requires e in db.stops
    modifies db
    ensures db.Rows() == FinishFence(old(db.Rows()), e, id, ref, rewound, kernelSkipped).tables
  {
    if ref.Some? {
      db.obligations := ClearObligationLeases(db.Rows(), ref.value).obligations;
    }
    if rewound && !kernelSkipped && id in db.tasks && db.tasks[id].current == Some(e) {
      db.tasks := db.tasks[id := db.tasks[id].(
        status := if db.tasks[id].status == TaskReviewInProgress then TaskReview else TaskTodo,
        assignedTo := None, current := None)];
    }
    db.holds := db.holds[FenceHold(e) := Hold(if ref.Some? then OnWorkplace(ref.value) else OnExecution(e), false)];
    db.stops := db.stops[e := db.stops[e].(phase := Detached)];
  }

  // ---- guarded kill -----------------------------------------------------------------

  /** Answers of the operating system during one kill: alive before, kill succeeded, alive after. */
  datatype Probe = Probe(alive: bool, killed: bool, aliveAfter: bool)

  datatype KillOutcome = KilledNow | AlreadyDead | AbandonedRemote

  predicate IssuesKill(t: Tables, e: ExecutionId, probe: Probe, host: MachineId) {
    e in t.executions &&
    var row := t.executions[e];
    row.pid.Some? && probe.alive && row.machine == host && row.voided && row.birthToken.Some?
  }

  function KillWorkerTree(t: Tables, e: ExecutionId, probe: Probe, host: MachineId): Result<KillOutcome> {
    if e !in t.executions then Err("WORKER_STOP_EXECUTION_NOT_FOUND")
    else
      var row := t.executions[e];
      if row.pid.None? || !probe.alive then Ok(AlreadyDead)
      else if row.machine != host then Ok(AbandonedRemote)
      else if !row.voided then Err("WORKER_STOP_KILL_BEFORE_FENCE")
      else if row.birthToken.None? || !probe.killed || probe.aliveAfter then Err("WORKER_STOP_KILL_UNVERIFIED")
      else Ok(KilledNow)
  }

  // ---- the boot reaper ----------------------------------------------------------------

  /** What the reaper's SELECT captured of one stop row and its execution. */
  datatype ReapRow = ReapRow(execution: ExecutionId, ref: Option<WorkplaceRef>, project: nat, pid: Option<Pid>, machine: MachineId)

  function Pending(t: Tables): set<ExecutionId> {
    set e | e in t.stops && e in t.executions && !DonePhase(t.stops[e].phase)
  }

  function CaptureRow(t: Tables, e: ExecutionId): ReapRow
    requires e in Pending(t)
  {
    ReapRow(e, t.stops[e].workplace, t.stops[e].project, t.executions[e].pid, t.executions[e].machine)
  }

  /** The phase the reaper records after the fence, from the captured pid and the probe. */
  function ReapVerdict(row: ReapRow, probe: Probe, host: MachineId): StopPhase {
    if row.pid.None? || !probe.alive then Reaped
    else if row.machine != host then Abandoned
    else if probe.killed && !probe.aliveAfter then Reaped
    else Abandoned
  }

  /** How the kill of a row ended; an unverified kill is not reported. */
  function KillReport(row: ReapRow, probe: Probe, host: MachineId): Option<KillOutcome> {
    if row.pid.None? || !probe.alive then Some(AlreadyDead)
    else if row.machine != host then Some(AbandonedRemote)
    else if probe.killed && !probe.aliveAfter then Some(KilledNow)
    else None
  }

  datatype ReapOutcome = FenceCompleted | KillEnded(outcome: KillOutcome)

  /** The report of a pass: a row has an entry for a fence the pass had to complete, then one for its kill. */
  datatype ReapEntry = ReapEntry(execution: ExecutionId, outcome: ReapOutcome)

  function ReportOf(fenced: bool, row: ReapRow, probe: Probe, host: MachineId): seq<ReapEntry> {
    (if fenced then [ReapEntry(row.execution, FenceCompleted)] else [])
    + (match KillReport(row, probe, host)
       case Some(outcome) => [ReapEntry(row.execution, KillEnded(outcome))]
       case None => [])
  }

  datatype Reaping = Reaping(tables: Tables, report: seq<ReapEntry>)

  function ReapOne(t: Tables, row: ReapRow, probe: Probe, host: MachineId): Result<Reaping> {
    match Fence(t, row.execution, row.ref, row.project)
    case Err(e) => Err(e)
    case Ok(f) => Ok(Reaping(AdvancePhase(f.tables, row.execution, ReapVerdict(row, probe, host)),
                             ReportOf(f.outcome == DidFence, row, probe, host)))
  }

  function ReapAll(t: Tables, rows: seq<ReapRow>, probes: ExecutionId -> Probe, host: MachineId): Result<Reaping>
    decreases |rows|
  {
    if rows == [] then Ok(Reaping(t, []))
    else match ReapOne(t, rows[0], probes(rows[0].execution), host)
      case Err(e) => Err(e)
      case Ok(first) =>
        match ReapAll(first.tables, rows[1..], probes, host)
        case Err(e) => Err(e)
        case Ok(rest) => Ok(Reaping(rest.tables, first.report + rest.report))
  }

  /** One row of the reaper's loop: complete the fence, then the kill. */
  method ReapStopRow(db: FactoryDb, row: ReapRow, probe: Probe, host: MachineId) returns (r: Result<seq<ReapEntry>>)
    modifies db
    ensures match ReapOne(old(db.Rows()), row, probe, host)
            case Err(e) => r == Err(e) && db.Rows() == old(db.Rows())
            case Ok(reaped) => r == Ok(reaped.report) && db.Rows() == reaped.tables
  {
    hide Fence;
    var fence := FenceAndRewindHire(db, row.execution, row.ref, row.project);
    match fence {
      case Err(e) =>
        r := Err(e);
      case Ok(outcome) =>
        var report := if outcome == DidFence then [ReapEntry(row.execution, FenceCompleted)] else [];
        var phase := Abandoned;
        if row.pid.None? || !probe.alive {
          phase, report := Reaped, report + [ReapEntry(row.execution, KillEnded(AlreadyDead))];
        } else if row.machine != host {
          report := report + [ReapEntry(row.execution, KillEnded(AbandonedRemote))];
        } else if probe.killed && !probe.aliveAfter {
          phase, report := Reaped, report + [ReapEntry(row.execution, KillEnded(KilledNow))];
        } else {
          assert report + [] == report;
        }
        if row.execution in db.stops {
          db.stops := db.stops[row.execution := db.stops[row.execution].(phase := phase)];
        }
        r := Ok(report);
    }
  }

  method ReapInterruptedWorkerStops(db: FactoryDb, probes: ExecutionId -> Probe, host: MachineId)
    returns (r: Result<seq<ReapEntry>>, ghost rows: seq<ReapRow>)
    modifies db
    ensures Captured(old(db.Rows()), rows)
    ensures match ReapAll(old(db.Rows()), rows, probes, host)
            case Err(e) => r == Err(e)
            case Ok(pass) => r == Ok(pass.report) && db.Rows() == pass.tables
  {
    hide ReapOne, Captured;
    ghost var t := db.Rows();
    var selected := SelectInterruptedStops(db);
    rows := selected;
    var report := [];
    var i := 0;
    ResumeNothing(ReapAll(t, selected, probes, host));
    assert selected[0..] == selected;
    while i < |selected|
      invariant 0 <= i <= |selected|
      invariant ReapAll(t, selected, probes, host) == Resume(report, ReapAll(db.Rows(), selected[i..], probes, host))
    {
      ghost var now, done := db.Rows(), report;
      assert selected[i..][0] == selected[i] && selected[i..][1..] == selected[i + 1..];
      var reaped := ReapStopRow(db, selected[i], probes(selected[i].execution), host);
      match reaped {
        case Err(e) =>
          return Err(e), rows;
        case Ok(entries) =>
          report := report + entries;
          ResumeStep(now, selected[i..], probes, host, done);
      }
      i := i + 1;
    }
    assert report + [] == report;
    r := Ok(report);
  }

  /** What an interrupted fold over the rows still returns once the rest is done. */
  ghost function Resume(done: seq<ReapEntry>, rest: Result<Reaping>): Result<Reaping> {
    match rest
    case Err(e) => Err(e)
    case Ok(reaping) => Ok(Reaping(reaping.tables, done + reaping.report))
  }

  lemma ResumeNothing(rest: Result<Reaping>)
    ensures Resume([], rest) == rest
  {
    if rest.Ok? {
      assert [] + rest.value.report == rest.value.report;
    }
  }

  lemma ResumeStep(t: Tables, rows: seq<ReapRow>, probes: ExecutionId -> Probe, host: MachineId, done: seq<ReapEntry>)
    requires rows != [] && ReapOne(t, rows[0], probes(rows[0].execution), host).Ok?
    ensures
      var first := ReapOne(t, rows[0], probes(rows[0].execution), host).value;
      Resume(done, ReapAll(t, rows, probes, host))
        == Resume(done + first.report, ReapAll(first.tables, rows[1..], probes, host))
  {
    hide ReapOne;
    var first := ReapOne(t, rows[0], probes(rows[0].execution), host).value;
    var rest := ReapAll(first.tables, rows[1..], probes, host);
    if rest.Ok? {
      assert done + (first.report + rest.value.report) == (done + first.report) + rest.value.report;
    }
  }

  /** The rows of one SELECT, in whatever order the query returned them. */
  predicate Captured(t: Tables, rows: seq<ReapRow>) {
    && (forall i, j | 0 <= i < j < |rows| :: rows[i].execution != rows[j].execution)
    && (forall row <- rows :: row.execution in Pending(t) && row == CaptureRow(t, row.execution))
    && (forall e <- Pending(t) :: Lists(rows, e))
  }

  predicate Lists(rows: seq<ReapRow>, e: ExecutionId) {
    exists i | 0 <= i < |rows| :: rows[i].execution == e
  }

  method SelectInterruptedStops(db: FactoryDb) returns (rows: seq<ReapRow>)
    ensures Captured(db.Rows(), rows)
  {
    rows := [];
    ghost var t := db.Rows();
    var todo := Pending(db.Rows());
    while todo != {}
      invariant todo <= Pending(t)
      invariant forall row <- rows :: row.execution in Pending(t) - todo && row == CaptureRow(t, row.execution)
      invariant forall i, j | 0 <= i < j < |rows| :: rows[i].execution != rows[j].execution
      invariant forall e <- Pending(t) - todo :: Lists(rows, e)
      decreases |todo|
    {
      var e :| e in todo;
      var row := CaptureRow(db.Rows(), e);
      ghost var before := rows;
      rows := rows + [row];
      todo := todo - {e};
      assert rows[|before|].execution == e;
      forall x <- Pending(t) - todo - {e} ensures Lists(rows, x) {
        assert Lists(before, x);
        var i :| 0 <= i < |before| && before[i].execution == x;
        assert rows[i].execution == x;
      }
    }
  }

  // ---- unpark: operator holds ----------------------------------------------------------

  datatype HoldScope = ByHold(hold: HoldRef) | ByWorkplace(ref: WorkplaceRef) | ByProject(project: nat)

  predicate InProject(t: Tables, ref: WorkplaceRef, project: nat) {
    && ref in t.workplaces
    && t.workplaces[ref].processRun in t.runs
    && t.runs[t.workplaces[ref].processRun] == project
  }

  predicate Covers(t: Tables, scope: HoldScope, h: HoldRef)
    requires h in t.holds
  {
    match scope
    case ByHold(hold) => h == hold
    case ByWorkplace(ref) => t.holds[h].subject == OnWorkplace(ref)
    case ByProject(project) =>
      || t.holds[h].subject == OnProject(project)
      || (t.holds[h].subject.OnWorkplace? && InProject(t, t.holds[h].subject.ref, project))
  }

  function HoldsToRelease(t: Tables, scope: HoldScope): set<HoldRef> {
    set h | h in t.holds && !t.holds[h].released && Covers(t, scope, h)
  }

  function ReleaseHolds(t: Tables, scope: HoldScope): Tables {
    t.(holds := map h <- t.holds :: if Covers(t, scope, h) then t.holds[h].(released := true) else t.holds[h])
  }

  /** Stamps every active hold in scope, nothing else; a second call finds nothing left to release. */
  method ReleaseOperatorHolds(db: FactoryDb, scope: HoldScope) returns (released: set<HoldRef>)
    modifies db
    ensures db.Rows() == ReleaseHolds(old(db.Rows()), scope)
    ensures released == HoldsToRelease(old(db.Rows()), scope)
    ensures HoldsToRelease(db.Rows(), scope) == {}
  {
    ghost var t := db.Rows();
    released := HoldsToRelease(db.Rows(), scope);
    var todo := released;
    while todo != {}
      invariant todo <= released
      invariant db.Rows() == t.(holds := db.holds) && db.holds.Keys == t.holds.Keys
      invariant forall h <- t.holds :: db.holds[h] == if h in released - todo then t.holds[h].(released := true) else t.holds[h]
      decreases |todo|
    {
      var h :| h in todo;
      db.holds := db.holds[h := db.holds[h].(released := true)];
      todo := todo - {h};
    }
    ReleasedRows(t, scope, db.holds);
  }

  lemma ReleasedRows(t: Tables, scope: HoldScope, holds: map<HoldRef, Hold>)
    requires holds.Keys == t.holds.Keys
    requires forall h <- t.holds ::
      holds[h] == if h in HoldsToRelease(t, scope) then t.holds[h].(released := true) else t.holds[h]
    ensures t.(holds := holds) == ReleaseHolds(t, scope)
    ensures HoldsToRelease(t.(holds := holds), scope) == {}
  {
    var n := ReleaseHolds(t, scope);
    forall h <- t.holds ensures holds[h] == n.holds[h] {
      assert t.holds[h].released && Covers(t, scope, h) ==> t.holds[h] == t.holds[h].(released := true);
    }
    assert holds == n.holds;
  }

  // ---- unpark: blocked workplaces ----------------------------------------------------------

  predicate Parked(t: Tables, scope: HoldScope, ref: WorkplaceRef) {
    && ref in t.workplaces
    && t.workplaces[ref].state.kanban == Blocked && t.workplaces[ref].state.loop == Paused
    && (scope.ByWorkplace? ==> ref == scope.ref)
    && (scope.ByProject? ==> InProject(t, ref, scope.project))
    && !scope.ByHold?
  }

  function UnparkedRow(row: WorkplaceRow): WorkplaceRow {
    row.(state := row.state.(kanban := if row.state.role == Reviewer then ReviewInProgress else InProgress,
                             loop := Queued, revision := row.state.revision + 1))
  }

  function Unpark(t: Tables, scope: HoldScope): Tables {
    t.(workplaces := map ref <- t.workplaces :: if Parked(t, scope, ref) then UnparkedRow(t.workplaces[ref]) else t.workplaces[ref])
  }

  /**
   * The operator's direct update performs the reducer's own requeue of the
   * persisted role, and differs from the requeue use case only in the actor
   * columns, which it leaves as they were.
   */
  lemma UnparkIsTheReducersRequeue(row: WorkplaceRow)
    requires Valid(row.state) && row.state.loop == Paused
    ensures Reduce(row.state, RepairRequeued(row.state.role)) == Ok(UnparkedRow(row).state)
    ensures PlanFor(row, Requeue(row.state.role)) == Ok(Move(UnparkedRow(row).state, None, None))
    ensures UnparkedRow(row).reservation == row.reservation && UnparkedRow(row).recoveryCase == row.recoveryCase
  {
  }

  method UnparkWorkplaces(db: FactoryDb, scope: HoldScope) returns (unparked: set<WorkplaceRef>)
    modifies db
    ensures db.Rows() == Unpark(old(db.Rows()), scope)
    ensures unparked == set ref | ref in old(db.workplaces) && Parked(old(db.Rows()), scope, ref)
  {
    hide UnparkedRow, Parked, Unpark;
    ghost var t := db.Rows();
    unparked := set ref | ref in db.workplaces && Parked(db.Rows(), scope, ref);
    var todo := unparked;
    while todo != {}
      invariant todo <= unparked
      invariant db.Rows() == t.(workplaces := db.workplaces) && db.workplaces.Keys == t.workplaces.Keys
      invariant forall ref <- t.workplaces ::
        db.workplaces[ref] == if ref in unparked - todo then UnparkedRow(t.workplaces[ref]) else t.workplaces[ref]
      decreases |todo|
    {
      var ref :| ref in todo;
      db.workplaces := db.workplaces[ref := UnparkedRow(db.workplaces[ref])];
      todo := todo - {ref};
    }
    UnparkedRows(t, scope, db.workplaces);
  }

  lemma UnparkedRows(t: Tables, scope: HoldScope, workplaces: map<WorkplaceRef, WorkplaceRow>)
    requires workplaces.Keys == t.workplaces.Keys
    requires forall ref <- t.workplaces ::
      workplaces[ref] == if Parked(t, scope, ref) then UnparkedRow(t.workplaces[ref]) else t.workplaces[ref]
    ensures t.(workplaces := workplaces) == Unpark(t, scope)
  {
    assert workplaces == Unpark(t, scope).workplaces;
  }
}
