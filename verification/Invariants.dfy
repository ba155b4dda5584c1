/** What every transaction keeps, and what no transaction ever undoes. */
module Invariants {
  import opened Results
  import opened Workplaces
  import opened FactoryTables
  import opened ConveyorRuntimes
  import opened WorkAssignment
  import opened SoftStop

  // ---- the invariant ------------------------------------------------------------

  /** The stop fence was bumped exactly once iff the void marker is set, and void means terminated. */
  predicate ExecutionsOk(executions: map<ExecutionId, Execution>) {
    forall e <- executions ::
      var row := executions[e];
      row.stopFence == (if row.voided then 1 else 0) && (row.voided ==> row.state == ExecTerminated)
  }

  predicate OneActive(executions: map<ExecutionId, Execution>) {
    forall a, b | a in executions && b in executions && a != b && Active(executions[a].state) && Active(executions[b].state) ::
      executions[a].task != executions[b].task && executions[a].worker != executions[b].worker
  }

  /** A stop row in a done phase belongs to an execution that can no longer write. */
  predicate StopsOk(stops: map<ExecutionId, Stop>, executions: map<ExecutionId, Execution>) {
    forall e <- stops :: e in executions && (DonePhase(stops[e].phase) ==> !Active(executions[e].state))
  }

  /** A fence's hold names an execution that was voided. */
  predicate HoldsOk(holds: map<HoldRef, Hold>, executions: map<ExecutionId, Execution>) {
    forall h <- holds :: h.FenceHold? ==> h.execution in executions && executions[h.execution].voided
  }

  /** A fenced card is fenced by an execution of its own; a bound card is bound where its metadata says. */
  predicate CardsOk(tasks: map<TaskId, Task>, executions: map<ExecutionId, Execution>) {
    forall id <- tasks ::
      var task := tasks[id];
      && (task.current.Some? ==> task.current.value in executions && executions[task.current.value].task == id)
      && (task.workplace.Some? ==> task.derived == task.workplace)
  }

  /** A live hire belongs to an execution that has not completed, and to the card that execution works on. */
  predicate HireOk(ref: WorkplaceRef, e: ExecutionId, executions: map<ExecutionId, Execution>, tasks: map<TaskId, Task>,
                   receipts: set<ExecutionId>)
  {
    && e in executions && e !in receipts
    && var id := executions[e].task;
       (id in tasks && tasks[id].current == Some(e) ==> tasks[id].derived == Some(ref))
  }

  predicate HiresOk(workplaces: map<WorkplaceRef, WorkplaceRow>, executions: map<ExecutionId, Execution>, tasks: map<TaskId, Task>,
                    receipts: set<ExecutionId>)
  {
    forall ref <- workplaces ::
      Hirable(workplaces[ref].state.loop) && workplaces[ref].reservation.Some? ==>
        HireOk(ref, workplaces[ref].reservation.value, executions, tasks, receipts)
  }

  /** No live hire is reserved by `e`. */
  predicate NotHired(workplaces: map<WorkplaceRef, WorkplaceRow>, e: ExecutionId) {
    forall ref <- workplaces :: Hirable(workplaces[ref].state.loop) ==> workplaces[ref].reservation != Some(e)
  }

  ghost predicate Inv(t: Tables) {
    && WorkplacesValid(t.workplaces) && ExecutionsOk(t.executions) && OneActive(t.executions)
    && StopsOk(t.stops, t.executions) && HoldsOk(t.holds, t.executions) && CardsOk(t.tasks, t.executions)
    && HiresOk(t.workplaces, t.executions, t.tasks, t.receipts)
    && t.receipts <= t.executions.Keys
  }

  // ---- what is never undone --------------------------------------------------------

  /** Terminal rows are frozen, identities never change. */
  predicate ExecutionsGrow(a: map<ExecutionId, Execution>, b: map<ExecutionId, Execution>) {
    forall e <- a ::
      && e in b
      && b[e].task == a[e].task && b[e].worker == a[e].worker
      && (!Active(a[e].state) ==> b[e] == a[e])
  }

  /** A workplace row changes only together with its revision. */
  predicate WorkplacesGrow(a: map<WorkplaceRef, WorkplaceRow>, b: map<WorkplaceRef, WorkplaceRow>) {
    forall ref <- a :: ref in b && (b[ref] == a[ref] || b[ref].state.revision > a[ref].state.revision)
  }

  predicate HoldsGrow(a: map<HoldRef, Hold>, b: map<HoldRef, Hold>) {
    forall h <- a :: h in b && b[h].subject == a[h].subject && (a[h].released ==> b[h].released)
  }

  predicate CardsStay(a: map<TaskId, Task>, b: map<TaskId, Task>) {
    && a.Keys == b.Keys
    && forall id <- a :: a[id].workplace.Some? ==> b[id].workplace.Some?
  }

  ghost predicate Grows(a: Tables, b: Tables) {
    && ExecutionsGrow(a.executions, b.executions)
    && WorkplacesGrow(a.workplaces, b.workplaces)
    && HoldsGrow(a.holds, b.holds)
    && CardsStay(a.tasks, b.tasks)
    && a.receipts <= b.receipts
  }

  lemma GrowsReflexive(t: Tables)
    ensures Grows(t, t)
  {
  }

  lemma GrowsTransitive(a: Tables, b: Tables, c: Tables)
    requires Grows(a, b) && Grows(b, c)
    ensures Grows(a, c)
  {
  }

  // ---- one lemma per kind of row update ------------------------------------------------

  /** A live row is updated or terminated; its identity stays. */
  lemma UpdateExecution(t: Tables, e: ExecutionId, row: Execution)
    requires Inv(t) && Live(t, e)
    requires row.task == t.executions[e].task && row.worker == t.executions[e].worker
    requires row.stopFence == (if row.voided then 1 else 0) && (row.voided ==> row.state == ExecTerminated)
    ensures
      var n := t.(executions := t.executions[e := row]);
      Inv(n) && Grows(t, n)
  {
    var n := t.(executions := t.executions[e := row]);
    assert ExecutionsOk(n.executions) && OneActive(n.executions);
    assert StopsOk(n.stops, n.executions) && HoldsOk(n.holds, n.executions) && CardsOk(n.tasks, n.executions);
    assert HiresOk(n.workplaces, n.executions, n.tasks, n.receipts);
  }

  predicate CardFits(t: Tables, id: TaskId, card: Task)
    requires id in t.tasks
  {
    && (card.current.Some? ==> card.current.value in t.executions && t.executions[card.current.value].task == id)
    && (card.workplace.Some? ==> card.derived == card.workplace)
    && (t.tasks[id].workplace.Some? ==> card.workplace.Some?)
    && (card.current.Some? ==> if card.current == t.tasks[id].current then card.derived == t.tasks[id].derived
                               else NotHired(t.workplaces, card.current.value))
  }

  lemma UpdateCard(t: Tables, id: TaskId, card: Task)
    requires Inv(t) && id in t.tasks && CardFits(t, id, card)
    ensures
      var n := t.(tasks := t.tasks[id := card]);
      Inv(n) && Grows(t, n)
  {
    assert CardsOk(t.tasks[id := card], t.executions);
    assert HiresOk(t.workplaces, t.executions, t.tasks[id := card], t.receipts);
  }

  /** The same fence and the same binding; everything else on a card is outside the invariant. */
  predicate SameBinding(card: Task, was: Task) {
    card.current == was.current && card.workplace == was.workplace && card.derived == was.derived
  }

  lemma FlagsKeep(t: Tables, id: TaskId, card: Task)
    requires Inv(t) && id in t.tasks && SameBinding(card, t.tasks[id])
    ensures
      var n := t.(tasks := t.tasks[id := card]);
      Inv(n) && Grows(t, n)
  {
    UpdateCard(t, id, card);
  }

  lemma UpdateWorkplace(t: Tables, ref: WorkplaceRef, row: WorkplaceRow)
    requires Inv(t) && Valid(row.state)
    requires ref in t.workplaces ==> row.state.revision > t.workplaces[ref].state.revision
    requires Hirable(row.state.loop) && row.reservation.Some? ==> HireOk(ref, row.reservation.value, t.executions, t.tasks, t.receipts)
    ensures
      var n := t.(workplaces := t.workplaces[ref := row]);
      Inv(n) && Grows(t, n)
  {
  }

  lemma UpdateStop(t: Tables, e: ExecutionId, stop: Stop)
    requires Inv(t) && e in t.executions && (DonePhase(stop.phase) ==> Dead(t, e))
    ensures
      var n := t.(stops := t.stops[e := stop]);
      Inv(n) && Grows(t, n)
  {
    assert StopsOk(t.stops[e := stop], t.executions);
  }

  lemma UpdateHold(t: Tables, h: HoldRef, hold: Hold)
    requires Inv(t) && (h.FenceHold? ==> Void(t, h.execution))
    requires h in t.holds ==> hold.subject == t.holds[h].subject && (t.holds[h].released ==> hold.released)
    ensures
      var n := t.(holds := t.holds[h := hold]);
      Inv(n) && Grows(t, n)
  {
    assert HoldsOk(t.holds[h := hold], t.executions);
  }

  lemma UpdateObligations(t: Tables, obligations: map<nat, Obligation>)
    requires Inv(t)
    ensures Inv(t.(obligations := obligations)) && Grows(t, t.(obligations := obligations))
  {
  }

  // ---- one lemma per transaction --------------------------------------------------------

  lemma ReverseProjectKeeps(t: Tables, task: TaskId, kanban: KanbanPhase)
    requires Inv(t)
    ensures Inv(ReverseProject(t, task, kanban)) && Grows(t, ReverseProject(t, task, kanban))
  {
    if task in t.tasks {
      UpdateCard(t, task, ReverseProject(t, task, kanban).tasks[task]);
    }
  }

  /** Only a reserve hires: every other use case leaves its workplace outside leased and running. */
  lemma OnlyReserveHires(t: Tables, ref: WorkplaceRef, task: TaskId, command: Command)
    requires UseCase(t, ref, task, command).Ok? && UseCase(t, ref, task, command).value.applied
    ensures
      var row := UseCase(t, ref, task, command).value.tables.workplaces[ref];
      if command.Reserve? then row.reservation == Some(command.reservation) else !Hirable(row.state.loop)
  {
    hide StatusFor, Valid;
  }

  lemma UseCaseKeeps(t: Tables, ref: WorkplaceRef, task: TaskId, command: Command)
    requires Inv(t) && UseCase(t, ref, task, command).Ok?
    requires command.Reserve? ==> HireOk(ref, command.reservation, t.executions, t.tasks, t.receipts)
    ensures
      var n := UseCase(t, ref, task, command).value.tables;
      Inv(n) && Grows(t, n)
  {
    hide UseCase, Grows;
    CompareAndSetNeverMisses(t, ref, task, command);
    var n := UseCase(t, ref, task, command).value;
    var moved := t.(workplaces := n.tables.workplaces);
    if n.applied {
      OnlyReserveHires(t, ref, task, command);
      UpdateWorkplace(t, ref, n.tables.workplaces[ref]);
      assert moved.workplaces == t.workplaces[ref := n.tables.workplaces[ref]];
    } else {
      assert moved.workplaces == t.workplaces;
      GrowsReflexive(t);
    }
    ReverseProjectKeeps(moved, task, n.tables.workplaces[ref].state.kanban);
    GrowsTransitive(t, moved, n.tables);
  }

  lemma MaterializeKeeps(t: Tables, ref: WorkplaceRef, processRun: nat)
    requires Inv(t)
    ensures
      var n := Materialize(t, ref, processRun);
      Inv(n) && Grows(t, n) && n == t.(workplaces := n.workplaces)
  {
    if ref !in t.workplaces {
      UpdateWorkplace(t, ref, Materialize(t, ref, processRun).workplaces[ref]);
    }
  }

  lemma SyncReviewKeeps(t: Tables, ref: WorkplaceRef, review: bool)
    requires Inv(t) && ref in t.workplaces && SyncReview(t, ref, review).Ok?
    ensures
      var n := SyncReview(t, ref, review).value.tables;
      Inv(n) && Grows(t, n) && n == t.(workplaces := n.workplaces)
  {
    var n := SyncReview(t, ref, review).value;
    if n.applied {
      UpdateWorkplace(t, ref, n.tables.workplaces[ref]);
    }
  }

  lemma BindCardKeeps(t: Tables, id: TaskId, ref: WorkplaceRef)
    requires Inv(t) && (id in t.tasks ==> t.tasks[id].derived == Some(ref))
    ensures
      var n := BindCard(t, id, ref);
      && Inv(n) && Grows(t, n) && n == t.(tasks := n.tasks)
      && (id in t.tasks ==> id in n.tasks && n.tasks[id].derived == t.tasks[id].derived)
  {
    if BindCard(t, id, ref) != t {
      UpdateCard(t, id, BindCard(t, id, ref).tasks[id]);
    }
  }

  lemma BindKeeps(t: Tables, id: TaskId, review: bool)
    requires Inv(t) && id in t.tasks && BindTask(t, id, review).Ok? && BindTask(t, id, review).value.Some?
    ensures
      var n := BindTask(t, id, review).value.value;
      && Inv(n) && Grows(t, n)
      && n.executions == t.executions && n.receipts == t.receipts
      && id in n.tasks && n.tasks[id].derived == t.tasks[id].derived
  {
    hide Inv, Grows, SyncReview, BindCard;
    var ref := t.tasks[id].derived.value;
    var m := Materialize(t, ref, t.tasks[id].processRun);
    MaterializeKeeps(t, ref, t.tasks[id].processRun);
    SyncReviewKeeps(m, ref, review);
    var synced := SyncReview(m, ref, review).value.tables;
    GrowsTransitive(t, m, synced);
    BindCardKeeps(synced, id, ref);
    GrowsTransitive(t, synced, BindCard(synced, id, ref));
  }

  lemma ClaimKeeps(t: Tables, id: TaskId, e: ExecutionId, worker: WorkerId, machine: MachineId, now: Millis)
    requires Inv(t) && Claim(t, id, e, worker, machine, now).Ok?
    ensures
      var n := Claim(t, id, e, worker, machine, now).value;
      Inv(n) && Grows(t, n)
  {
    var status := ClaimedStatus(t, t.tasks[id]);
    var row := NewExecution(id, t.tasks[id].project, worker, machine, status, now);
    var card := t.tasks[id].(status := status, assignedTo := Some(worker), current := Some(e));
    var inserted := t.(executions := t.executions[e := row]);
    var fenced := inserted.(tasks := t.tasks[id := card]);
    InsertKeeps(t, e, row);
    UpdateCard(inserted, id, card);
    GrowsTransitive(t, inserted, fenced);
    assert fenced == HireCard(t, id, e, worker, machine, now);
    if BindTask(fenced, id, status == TaskReviewInProgress).value.Some? {
      LeaseKeeps(fenced, id, e, status == TaskReviewInProgress);
    }
    var n := Claim(t, id, e, worker, machine, now).value;
    GrowsTransitive(t, fenced, n);
  }

  /** Binding a fenced card and reserving its workplace. */
  lemma LeaseKeeps(t: Tables, id: TaskId, e: ExecutionId, review: bool)
    requires Inv(t) && id in t.tasks && BindTask(t, id, review).Ok? && BindTask(t, id, review).value.Some?
    requires UseCase(BindTask(t, id, review).value.value, t.tasks[id].derived.value, id, Reserve(e)).Ok?
    requires e in t.executions && t.executions[e].task == id && e !in t.receipts
    ensures
      var n := UseCase(BindTask(t, id, review).value.value, t.tasks[id].derived.value, id, Reserve(e)).value.tables;
      Inv(n) && Grows(t, n)
  {
    var bound := BindTask(t, id, review).value.value;
    BindKeeps(t, id, review);
    UseCaseKeeps(bound, t.tasks[id].derived.value, id, Reserve(e));
    GrowsTransitive(t, bound, UseCase(bound, t.tasks[id].derived.value, id, Reserve(e)).value.tables);
  }

  lemma InsertKeeps(t: Tables, e: ExecutionId, row: Execution)
    requires Inv(t) && InsertAllowed(t, e, row) && !row.voided && row.stopFence == 0
    ensures
      var n := t.(executions := t.executions[e := row]);
      Inv(n) && Grows(t, n) && NotHired(n.workplaces, e) && e !in n.receipts
  {
    var n := t.(executions := t.executions[e := row]);
    assert ExecutionsOk(n.executions) && OneActive(n.executions);
    assert StopsOk(n.stops, n.executions) && HoldsOk(n.holds, n.executions) && CardsOk(n.tasks, n.executions);
    assert HiresOk(n.workplaces, n.executions, n.tasks, n.receipts);
  }

  lemma ActivateKeeps(t: Tables, id: TaskId, ref: WorkplaceRef, role: Role)
    requires Inv(t) && ActivateRoleTask(t, id, ref, role).Ok?
    ensures
      var n := ActivateRoleTask(t, id, ref, role).value;
      Inv(n) && Grows(t, n)
  {
    var n := ActivateRoleTask(t, id, ref, role).value;
    assert CardsOk(n.tasks, n.executions) && CardsStay(t.tasks, n.tasks);
    assert HiresOk(n.workplaces, n.executions, n.tasks, n.receipts);
  }

  lemma ReleaseKeeps(t: Tables, e: ExecutionId, terminal: ExecutionState, preserve: Option<bool>)
    requires Inv(t) && !Active(terminal)
    ensures
      var n := ReleaseExecution(t, e, terminal, preserve).tables;
      Inv(n) && Grows(t, n)
  {
    var n := ReleaseExecution(t, e, terminal, preserve).tables;
    var written := WriteTerminal(t, e, terminal);
    if Live(t, e) {
      UpdateExecution(t, e, t.executions[e].(state := terminal));
    }
    if n.tasks != t.tasks {
      var id := t.executions[e].task;
      UpdateCard(written, id, n.tasks[id]);
    }
  }

  lemma MarkRunningKeeps(t: Tables, e: ExecutionId, pid: Option<Pid>, token: Option<nat>)
    requires Inv(t) && MarkRunning(t, e, pid, token).Ok?
    ensures Inv(MarkRunning(t, e, pid, token).value) && Grows(t, MarkRunning(t, e, pid, token).value)
  {
    UpdateExecution(t, e, MarkRunning(t, e, pid, token).value.executions[e]);
  }

  lemma MarkSpawnFailedKeeps(t: Tables, e: ExecutionId)
    requires Inv(t)
    ensures Inv(MarkSpawnFailed(t, e)) && Grows(t, MarkSpawnFailed(t, e))
  {
    if Live(t, e) && MarkSpawnFailed(t, e) != t {
      UpdateExecution(t, e, t.executions[e].(state := ExecSpawnFailed));
    }
  }

  lemma WorkerDoneKeeps(t: Tables, commands: Commands, id: TaskId, worker: WorkerId, claimed: Option<ExecutionId>, facts: DoneFacts)
    requires Inv(t) && WorkerDone(t, commands, id, worker, claimed, facts).Committed?
    ensures
      var n := WorkerDone(t, commands, id, worker, claimed, facts).tables;
      && Inv(n) && Grows(t, n)
      && id in t.tasks && (t.tasks[id].current.Some? ==> t.tasks[id].current.value in n.receipts)
  {
    CompleteKeeps(t, id, worker, claimed.value, facts);
    hide Complete, Inv, Grows, Replays;
  }

  lemma CompleteKeeps(t: Tables, id: TaskId, worker: WorkerId, e: ExecutionId, facts: DoneFacts)
    requires Inv(t) && Complete(t, id, worker, e, facts).Committed?
    ensures
      var n := Complete(t, id, worker, e, facts).tables;
      && Inv(n) && Grows(t, n)
      && id in t.tasks && (t.tasks[id].current.Some? ==> t.tasks[id].current.value in n.receipts)
  {
    var task := t.tasks[id];
    var status := DoneStatus(task, facts).value;
    var card := task.(status := status, assignedTo := None);
    var moved := t.(tasks := t.tasks[id := card]);
    FlagsKeep(t, id, card);
    if task.current.Some? {
      CompletedIsNotHired(t, moved, id, task.current.value);
      FencedExists(t, id);
    }
    hide Inv, NotHired, UseCase, PassesTaskFence, DoneStatus, FinishPhase, FinishTask, Grows;
    var released := moved;
    if task.derived.Some? {
      UseCaseKeeps(moved, task.derived.value, id, ReleaseShift(e, Completed));
      released := UseCase(moved, task.derived.value, id, ReleaseShift(e, Completed)).value.tables;
      GrowsTransitive(t, moved, released);
    }
    GrownExecution(t, released, task.current);
    SealKeeps(released, id, worker, Some(e), task.current, status, status == TaskDone && task.gitChange && task.integration == IntegrationPending);
    GrowsTransitive(t, released, Complete(t, id, worker, e, facts).tables);
  }

  lemma FencedExists(t: Tables, id: TaskId)
    requires Inv(t) && id in t.tasks && t.tasks[id].current.Some?
    ensures t.tasks[id].current.value in t.executions
  {
  }

  lemma GrownExecution(a: Tables, b: Tables, e: Option<ExecutionId>)
    requires Grows(a, b)
    ensures e.Some? && e.value in a.executions ==> e.value in b.executions
  {
  }

  /** Completing the shift takes the one workplace the execution could be hired at out of the hire. */
  lemma CompletedIsNotHired(t: Tables, moved: Tables, id: TaskId, e: ExecutionId)
    requires Inv(t) && id in t.tasks && t.tasks[id].current == Some(e) && moved.workplaces == t.workplaces
    ensures t.tasks[id].derived.None? ==> NotHired(t.workplaces, e)
    ensures
      t.tasks[id].derived.Some? && UseCase(moved, t.tasks[id].derived.value, id, ReleaseShift(e, Completed)).Ok? ==>
        NotHired(UseCase(moved, t.tasks[id].derived.value, id, ReleaseShift(e, Completed)).value.tables.workplaces, e)
  {
    hide WorkplacesValid, ExecutionsOk, OneActive, StopsOk, HoldsOk;
    if t.tasks[id].derived.Some? && UseCase(moved, t.tasks[id].derived.value, id, ReleaseShift(e, Completed)).Ok? {
      hide UseCase;
      CompareAndSetNeverMisses(moved, t.tasks[id].derived.value, id, ReleaseShift(e, Completed));
      OnlyReserveHires(moved, t.tasks[id].derived.value, id, ReleaseShift(e, Completed));
    }
  }

  /** The tail of a completion: card flags, execution phase, receipt. */
  lemma SealKeeps(t: Tables, id: TaskId, worker: WorkerId, claimed: Option<ExecutionId>, sealed: Option<ExecutionId>,
                  status: TaskStatus, integrating: bool)
    requires Inv(t) && id in t.tasks
    requires sealed.Some? ==> sealed.value in t.executions && NotHired(t.workplaces, sealed.value)
    ensures
      var finished := t.(tasks := t.tasks[id := FinishTask(t.tasks[id], status)]);
      var phased := FinishPhase(finished, id, worker, claimed, integrating);
      var n := phased.(receipts := phased.receipts + (if sealed.Some? then {sealed.value} else {}));
      Inv(n) && Grows(t, n)
  {
    FlagsKeep(t, id, FinishTask(t.tasks[id], status));
    hide Inv, Grows, NotHired, FinishPhase, FinishTask;
    var finished := t.(tasks := t.tasks[id := FinishTask(t.tasks[id], status)]);
    PhaseKept(finished, id, worker, claimed, integrating);
    var phased := FinishPhase(finished, id, worker, claimed, integrating);
    GrowsTransitive(t, finished, phased);
    ReceiptKeeps(t, phased, sealed);
  }

  lemma ReceiptKeeps(t: Tables, m: Tables, sealed: Option<ExecutionId>)
    requires Inv(m) && Grows(t, m)
    requires sealed.Some? ==> sealed.value in m.executions && NotHired(m.workplaces, sealed.value)
    ensures
      var n := m.(receipts := m.receipts + (if sealed.Some? then {sealed.value} else {}));
      Inv(n) && Grows(t, n)
  {
    hide Inv, Grows, NotHired;
    if sealed.Some? {
      AddReceipt(m, sealed.value);
      GrowsTransitive(t, m, m.(receipts := m.receipts + {sealed.value}));
    } else {
      assert m.(receipts := m.receipts + {}) == m;
    }
  }

  lemma PhaseKept(t: Tables, id: TaskId, worker: WorkerId, claimed: Option<ExecutionId>, integrating: bool)
    requires Inv(t)
    ensures
      var n := FinishPhase(t, id, worker, claimed, integrating);
      && Inv(n) && Grows(t, n) && n.workplaces == t.workplaces && n.executions.Keys == t.executions.Keys
  {
    GrowsReflexive(t);
    if FinishPhase(t, id, worker, claimed, integrating) != t {
      UpdateExecution(t, claimed.value, FinishPhase(t, id, worker, claimed, integrating).executions[claimed.value]);
    }
  }

  lemma AddReceipt(t: Tables, e: ExecutionId)
    requires Inv(t) && e in t.executions && NotHired(t.workplaces, e)
    ensures
      var n := t.(receipts := t.receipts + {e});
      Inv(n) && Grows(t, n)
  {
  }

  lemma AskNeedKeeps(t: Tables, id: TaskId, worker: WorkerId, claimed: Option<ExecutionId>)
    requires Inv(t) && AskNeed(t, id, worker, claimed).Committed?
    ensures
      var n := AskNeed(t, id, worker, claimed).tables;
      Inv(n) && Grows(t, n)
  {
    hide Inv, Grows, ReleaseExecution, PassesTaskFence, PassesVoidFence, CardsStay;
    var asked := AskedCard(t, id);
    FlagsKeep(t, id, asked.tasks[id]);
    var released := asked;
    if t.tasks[id].current.Some? {
      ReleaseKeeps(asked, t.tasks[id].current.value, ExecExited, None);
      released := ReleaseExecution(asked, t.tasks[id].current.value, ExecExited, None).tables;
    } else {
      FlagsKeep(asked, id, asked.tasks[id].(assignedTo := None));
      released := asked.(tasks := asked.tasks[id := asked.tasks[id].(assignedTo := None)]);
    }
    GrowsTransitive(t, asked, released);
    assert id in released.tasks by { CardsRemain(asked, released, id); }
    FlagsKeep(released, id, released.tasks[id].(needsHuman := true));
    GrowsTransitive(t, released, AskNeed(t, id, worker, claimed).tables);
  }

  lemma CardsRemain(a: Tables, b: Tables, id: TaskId)
    requires Grows(a, b) && id in a.tasks
    ensures id in b.tasks
  {
  }

  lemma MergeReleaseKeeps(t: Tables, locks: MergeLocks, id: TaskId, worker: WorkerId, claimed: Option<ExecutionId>, merged: bool)
    requires Inv(t) && MergeRelease(t, locks, id, worker, claimed, merged).Committed?
    ensures
      var n := MergeRelease(t, locks, id, worker, claimed, merged).tables;
      Inv(n) && Grows(t, n) && n.workplaces == t.workplaces
  {
    FlagsKeep(t, id, MergedCard(t.tasks[id], merged));
    var recorded := t.(tasks := t.tasks[id := MergedCard(t.tasks[id], merged)]);
    PhaseKept(recorded, id, worker, claimed, false);
    GrowsTransitive(t, recorded, FinishPhase(recorded, id, worker, claimed, false));
    hide FinishPhase, Inv, Grows, PassesTaskFence, PassesVoidFence, HoldsLock;
  }

  lemma AnswerKeeps(t: Tables, id: TaskId, latest: nat)
    requires Inv(t)
    ensures Inv(Answer(t, id, latest)) && Grows(t, Answer(t, id, latest))
  {
    GrowsReflexive(t);
    if id in t.tasks {
      FlagsKeep(t, id, AnsweredCard(t.tasks[id], latest));
    }
    hide Inv, Grows, AnsweredCard;
  }

  lemma EditKeeps(t: Tables, id: TaskId, edit: CardEdit)
    requires Inv(t) && EditCard(t, id, edit).Ok?
    ensures Inv(EditCard(t, id, edit).value) && Grows(t, EditCard(t, id, edit).value)
  {
    FlagsKeep(t, id, EditedCard(t.tasks[id], edit));
  }

  lemma PhaseKeeps(t: Tables, e: ExecutionId, ref: Option<WorkplaceRef>, project: nat, phase: StopPhase)
    requires Inv(t) && e in t.executions && (DonePhase(phase) ==> Dead(t, e))
    ensures Inv(AdvancePhase(t, e, phase)) && Grows(t, AdvancePhase(t, e, phase))
    ensures Inv(UpsertStop(t, e, ref, project, phase)) && Grows(t, UpsertStop(t, e, ref, project, phase))
  {
    if e in t.stops {
      UpdateStop(t, e, t.stops[e].(phase := phase));
    } else {
      UpdateStop(t, e, Stop(phase, ref, project));
    }
  }

  lemma RewindKeeps(t: Tables, ref: WorkplaceRef)
    requires Inv(t)
    ensures RewindWorkplace(t, ref).Ok?
    ensures
      var n := RewindWorkplace(t, ref).value.tables;
      Inv(n) && Grows(t, n) && n == t.(workplaces := n.workplaces)
  {
    RewindShape(t, ref);
    var n := RewindWorkplace(t, ref).value.tables;
    if n.workplaces != t.workplaces {
      UpdateWorkplace(t, ref, n.workplaces[ref]);
      assert n.workplaces == t.workplaces[ref := n.workplaces[ref]];
    }
  }

  lemma ClearObligationsKeeps(t: Tables, ref: Option<WorkplaceRef>)
    requires Inv(t)
    ensures
      var n := if ref.Some? then ClearObligationLeases(t, ref.value) else t;
      Inv(n) && Grows(t, n) && n == t.(obligations := n.obligations)
  {
    var n := if ref.Some? then ClearObligationLeases(t, ref.value) else t;
    UpdateObligations(t, n.obligations);
  }

  lemma ReleaseCardKeeps(t: Tables, id: TaskId, e: ExecutionId)
    requires Inv(t)
    ensures
      var n := ReleaseCard(t, id, e);
      Inv(n) && Grows(t, n) && n == t.(tasks := n.tasks)
  {
    var n := ReleaseCard(t, id, e);
    if ReleasesTask(t, id, e) {
      UpdateCard(t, id, n.tasks[id]);
    }
  }

  lemma InsertHoldKeeps(t: Tables, e: ExecutionId, ref: Option<WorkplaceRef>)
    requires Inv(t) && Void(t, e) && FenceHold(e) !in t.holds
    ensures
      var n := InsertHold(t, e, ref);
      Inv(n) && Grows(t, n) && Void(n, e)
  {
    UpdateHold(t, FenceHold(e), InsertHold(t, e, ref).holds[FenceHold(e)]);
  }

  lemma FinishFenceKeeps(t: Tables, e: ExecutionId, id: TaskId, ref: Option<WorkplaceRef>, rewound: bool, kernelSkipped: bool)
    requires Inv(t) && Void(t, e) && FenceHold(e) !in t.holds
    ensures
      var n := FinishFence(t, e, id, ref, rewound, kernelSkipped).tables;
      Inv(n) && Grows(t, n) && Void(n, e)
  {
    hide Inv, Grows, ClearObligationLeases, ReleaseCard, InsertHold, UpsertStop;
    ClearObligationsKeeps(t, ref);
    var cleared := if ref.Some? then ClearObligationLeases(t, ref.value) else t;
    ReleaseCardKeeps(cleared, id, e);
    var carded := if rewound && !kernelSkipped && ReleasesTask(cleared, id, e) then ReleaseCard(cleared, id, e) else cleared;
    GrowsTransitive(t, t, cleared) by { GrowsReflexive(t); }
    GrowsReflexive(cleared);
    GrowsTransitive(t, cleared, carded);
    InsertHoldKeeps(carded, e, ref);
    var held := InsertHold(carded, e, ref);
    GrowsTransitive(t, carded, held);
    PhaseKeeps(held, e, ref, 0, Detached);
    GrowsTransitive(t, held, AdvancePhase(held, e, Detached));
  }

  lemma VoidAndRewindKeeps(t: Tables, e: ExecutionId, ref: Option<WorkplaceRef>)
    requires Inv(t) && Live(t, e)
    ensures VoidAndRewind(t, e, ref).Ok?
    ensures
      var n := VoidAndRewind(t, e, ref).value.tables;
      Inv(n) && Grows(t, n) && Void(n, e) && n.holds == t.holds
  {
    hide Inv, Grows, RewindWorkplace;
    var void := VoidExecution(t, e);
    VoidExecutionKeeps(t, e);
    if ref.Some? {
      RewindKeeps(void, ref.value);
      GrowsTransitive(t, void, RewindWorkplace(void, ref.value).value.tables);
    }
  }

  lemma VoidExecutionKeeps(t: Tables, e: ExecutionId)
    requires Inv(t) && Live(t, e)
    ensures Inv(VoidExecution(t, e)) && Grows(t, VoidExecution(t, e)) && Void(VoidExecution(t, e), e)
  {
    UpdateExecution(t, e, VoidExecution(t, e).executions[e]);
  }

  /** A fence that does void: keep the invariant, then finish. */
  lemma VoidingKeeps(t: Tables, e: ExecutionId, ref: Option<WorkplaceRef>, project: nat)
    requires Inv(t) && Live(t, e)
    ensures Fence(t, e, ref, project).Ok?
    ensures
      var f := Fence(t, e, ref, project).value;
      f.outcome == DidFence && Inv(f.tables) && Grows(t, f.tables) && Void(f.tables, e)
  {
    NotYetVoid(t, e);
    hide Inv, Grows, VoidAndRewind, FinishFence, Fence, UpsertStop;
    PhaseKeeps(t, e, ref, project, Fenced);
    var marked := UpsertStop(t, e, ref, project, Fenced);
    MarkedRows(t, e, ref, project, Fenced);
    VoidAndRewindKeeps(marked, e, ref);
    LiveFence(t, e, ref, project);
    var r := VoidAndRewind(marked, e, ref).value;
    FinishFenceKeeps(r.tables, e, t.executions[e].task, ref, r.rewound, r.kernelSkipped);
    GrowsTransitive(t, marked, r.tables);
    GrowsTransitive(t, r.tables, FinishFence(r.tables, e, t.executions[e].task, ref, r.rewound, r.kernelSkipped).tables);
  }

  lemma NotYetVoid(t: Tables, e: ExecutionId)
    requires Inv(t) && Live(t, e)
    ensures !t.executions[e].voided && FenceHold(e) !in t.holds
  {
  }

  lemma FinishFenceHolds(t: Tables, e: ExecutionId, id: TaskId, ref: Option<WorkplaceRef>, rewound: bool, kernelSkipped: bool)
    ensures FinishFence(t, e, id, ref, rewound, kernelSkipped).tables.holds
            == t.holds[FenceHold(e) := Hold(if ref.Some? then OnWorkplace(ref.value) else OnExecution(e), false)]
  {
  }

  /** A fresh fence inserts an unreleased hold on the workplace it was given. */
  lemma FenceInsertsHold(t: Tables, e: ExecutionId, ref: Option<WorkplaceRef>, project: nat)
    requires WorkplacesValid(t.workplaces) && Live(t, e) && !t.executions[e].voided
    ensures Fence(t, e, ref, project).Ok?
    ensures
      Fence(t, e, ref, project).value.tables.holds
        == t.holds[FenceHold(e) := Hold(if ref.Some? then OnWorkplace(ref.value) else OnExecution(e), false)]
  {
    var void := VoidExecution(UpsertStop(t, e, ref, project, Fenced), e);
    var r := Rewind(void, false, false);
    if ref.Some? {
      RewindShape(void, ref.value);
      r := RewindWorkplace(void, ref.value).value;
    }
    FinishFenceHolds(r.tables, e, t.executions[e].task, ref, r.rewound, r.kernelSkipped);
  }

  /** A fence keeps the invariant and leaves its execution dead; it voids exactly the live ones. */
  lemma FenceKeeps(t: Tables, e: ExecutionId, ref: Option<WorkplaceRef>, project: nat)
    requires Inv(t) && e in t.executions
    ensures Fence(t, e, ref, project).Ok?
    ensures
      var f := Fence(t, e, ref, project).value;
      && Inv(f.tables) && Grows(t, f.tables) && Dead(f.tables, e)
      && (f.outcome == DidFence <==> Live(t, e))
  {
    if Live(t, e) {
      hide Fence;
      VoidingKeeps(t, e, ref, project);
    } else {
      hide Inv, Grows;
      PhaseKeeps(t, e, ref, project, Fenced);
      var marked := UpsertStop(t, e, ref, project, Fenced);
      PhaseKeeps(marked, e, ref, project, Abandoned);
      GrowsTransitive(t, marked, AdvancePhase(marked, e, Abandoned));
    }
  }
}
