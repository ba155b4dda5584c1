/** Everything a claim and a release write: the card, the execution that fences it, and the desk it is brought to. */
module CardOutcomes {
  import opened Results
  import opened Workplaces
  import opened FactoryTables
  import opened ConveyorRuntimes
  import opened WorkAssignment

  /** The claim is for a review: the bound desk is in its review phase, or the card was queued for one. */
  predicate ForReview(t: Tables, task: Task) {
    || task.status.TaskReview?
    || (task.workplace.Some? && task.workplace.value in t.workplaces
        && (t.workplaces[task.workplace.value].state.kanban.Review? || t.workplaces[task.workplace.value].state.kanban.ReviewInProgress?))
  }

  /** The reservation a claim inserts: leased for five minutes, nothing started yet. */
  function FreshHire(id: TaskId, task: Task, worker: WorkerId, machine: MachineId, review: bool, now: Millis): Execution {
    Execution(id, task.project, worker, machine, ExecReserved, if review then Reviewing else Executing,
              None, None, false, false, 0, Some(StuckActive), Clocks(now, now + 300_000, now, now, 0, 0, now))
  }

  /** The desk the claim reserves: created when it is missing, and a fresh one brought to review with its card. */
  function DeskForClaim(t: Tables, ref: WorkplaceRef, processRun: nat, review: bool): WorkplaceRow {
    var row := if ref in t.workplaces then t.workplaces[ref]
               else WorkplaceRow(WorkplaceState(Todo, Idle, Author, 0, None), None, None, None, processRun);
    if row.state.loop.Idle? && review
    then WorkplaceRow(WorkplaceState(Review, Queued, Reviewer, row.state.revision + 1, None), None, None, None, row.processRun)
    else row
  }

  /** The claimed card: fenced for the worker, bound to its desk, and showing it. */
  predicate CardClaimed(t: Tables, was: Task, now: Task, worker: WorkerId, e: ExecutionId, n: Tables) {
    && now == was.(status := now.status, assignedTo := Some(worker), current := Some(e), workplace := now.workplace)
    && now.workplace == (if was.workplace.Some? then was.workplace else was.derived)
    && if was.derived.None? then now.status == if ForReview(t, was) then TaskReviewInProgress else TaskInProgress
       else was.derived.value in n.workplaces && Shows(now.status, n.workplaces[was.derived.value].state.kanban)
  }

  /** Everything a committed claim writes. */
  lemma ClaimLeaves(t: Tables, id: TaskId, e: ExecutionId, worker: WorkerId, machine: MachineId, now: Millis)
    requires WorkplacesValid(t.workplaces) && Claim(t, id, e, worker, machine, now).Ok?
    ensures id in t.tasks
    ensures
      var n, was := Claim(t, id, e, worker, machine, now).value, t.tasks[id];
      && n == t.(executions := n.executions, tasks := n.tasks, workplaces := n.workplaces)
      && n.executions == t.executions[e := FreshHire(id, was, worker, machine, ForReview(t, was), now)]
      && id in n.tasks && n.tasks == t.tasks[id := n.tasks[id]] && CardClaimed(t, was, n.tasks[id], worker, e, n)
    ensures
      var n, was := Claim(t, id, e, worker, machine, now).value, t.tasks[id];
      if was.derived.None? then n.workplaces == t.workplaces
      else
        var ref := was.derived.value;
        && ref in n.workplaces && n.workplaces == t.workplaces[ref := n.workplaces[ref]]
        && Leaves(DeskForClaim(t, ref, was.processRun, ForReview(t, was)), Reserve(e), n.workplaces[ref])
  {
    HireIs(t, id, e, worker, machine, now);
    ClaimIs(t, id, e, worker, machine, now);
    hide Claim, BindTask, UseCase, HireCard, Leaves, ForReview, WorkplacesValid, Shows, FreshHire, DeskForClaim, Projected;
    var was := t.tasks[id];
    if was.derived.Some? {
      var fenced := HireCard(t, id, e, worker, machine, now);
      BindLeaves(fenced, id, ForReview(t, was));
      SameDesks(t, fenced, was.derived.value, was.processRun, ForReview(t, was));
      var bound := BindTask(fenced, id, ForReview(t, was)).value.value;
      UseCaseIff(bound, was.derived.value, id, Reserve(e));
      var n := UseCase(bound, was.derived.value, id, Reserve(e)).value.tables;
      ProjectedCard(bound, n, id, n.workplaces[was.derived.value].state.kanban);
      ClaimedTables(t, fenced, bound, n, id, e, worker, was.derived.value);
      hide CardClaimed;
      Overwritten(t.workplaces, was.derived.value, bound.workplaces[was.derived.value], n.workplaces[was.derived.value]);
    } else {
      assert HireCard(t, id, e, worker, machine, now).workplaces == t.workplaces;
    }
  }

  lemma Overwritten<K, V>(m: map<K, V>, k: K, a: V, b: V)
    ensures m[k := a][k := b] == m[k := b]
  {
  }

  lemma ProjectedCard(t: Tables, n: Tables, id: TaskId, kanban: KanbanPhase)
    requires id in t.tasks && Projected(t, n, id, kanban)
    ensures id in n.tasks && n.tasks == t.tasks[id := n.tasks[id]]
    ensures n.tasks[id] == t.tasks[id].(status := n.tasks[id].status) && Shows(n.tasks[id].status, kanban)
  {
  }

  lemma ClaimedTables(t: Tables, fenced: Tables, bound: Tables, n: Tables, id: TaskId, e: ExecutionId, worker: WorkerId, ref: WorkplaceRef)
    requires id in t.tasks && id in fenced.tasks && id in bound.tasks && id in n.tasks && t.tasks[id].derived == Some(ref)
    requires fenced.tasks == t.tasks[id := t.tasks[id].(status := fenced.tasks[id].status, assignedTo := Some(worker), current := Some(e))]
    requires bound.tasks == fenced.tasks[id := fenced.tasks[id].(
               workplace := if fenced.tasks[id].workplace.Some? then fenced.tasks[id].workplace else Some(ref))]
    requires n.tasks == bound.tasks[id := n.tasks[id]] && n.tasks[id] == bound.tasks[id].(status := n.tasks[id].status)
    requires ref in n.workplaces && Shows(n.tasks[id].status, n.workplaces[ref].state.kanban)
    ensures n.tasks == t.tasks[id := n.tasks[id]] && CardClaimed(t, t.tasks[id], n.tasks[id], worker, e, n)
  {
    hide Shows;
  }

  lemma SameDesks(t: Tables, n: Tables, ref: WorkplaceRef, processRun: nat, review: bool)
    requires n.workplaces == t.workplaces
    ensures DeskForClaim(n, ref, processRun, review) == DeskForClaim(t, ref, processRun, review)
  {
  }

  /** A claim is the fenced card, bound and reserved when it has a desk. */
  lemma ClaimIs(t: Tables, id: TaskId, e: ExecutionId, worker: WorkerId, machine: MachineId, now: Millis)
    requires Claim(t, id, e, worker, machine, now).Ok?
    ensures id in t.tasks
    ensures
      var fenced, was, review := HireCard(t, id, e, worker, machine, now), t.tasks[id], ForReview(t, t.tasks[id]);
      && id in fenced.tasks && fenced.tasks[id].derived == was.derived
      && if was.derived.None? then Claim(t, id, e, worker, machine, now).value == fenced
         else
           && BindTask(fenced, id, review).Ok? && BindTask(fenced, id, review).value.Some?
           && UseCase(BindTask(fenced, id, review).value.value, was.derived.value, id, Reserve(e)).Ok?
           && Claim(t, id, e, worker, machine, now).value
                == UseCase(BindTask(fenced, id, review).value.value, was.derived.value, id, Reserve(e)).value.tables
  {
    HireIs(t, id, e, worker, machine, now);
    BindsIff(HireCard(t, id, e, worker, machine, now), id, ForReview(t, t.tasks[id]));
    hide BindTask, UseCase, ClaimedStatus, Eligible, InsertAllowed, ForReview, NewExecution, FreshHire;
  }

  lemma BindsIff(t: Tables, id: TaskId, review: bool)
    requires id in t.tasks
    ensures BindTask(t, id, review).Ok? ==> (BindTask(t, id, review).value.Some? <==> t.tasks[id].derived.Some?)
  {
    hide SyncReview, BindCard, Materialize;
  }

  lemma HireIs(t: Tables, id: TaskId, e: ExecutionId, worker: WorkerId, machine: MachineId, now: Millis)
    requires Claim(t, id, e, worker, machine, now).Ok?
    ensures id in t.tasks
    ensures (ClaimedStatus(t, t.tasks[id]) == TaskReviewInProgress) == ForReview(t, t.tasks[id])
    ensures
      HireCard(t, id, e, worker, machine, now) == t.(
        executions := t.executions[e := FreshHire(id, t.tasks[id], worker, machine, ForReview(t, t.tasks[id]), now)],
        tasks := t.tasks[id := t.tasks[id].(status := if ForReview(t, t.tasks[id]) then TaskReviewInProgress else TaskInProgress,
                                            assignedTo := Some(worker), current := Some(e))])
  {
    hide BindTask, UseCase, DeskFree, Blocks, InsertAllowed;
  }

  lemma BindLeaves(t: Tables, id: TaskId, review: bool)
    requires WorkplacesValid(t.workplaces) && id in t.tasks && t.tasks[id].derived.Some? && BindTask(t, id, review).Ok?
    ensures BindTask(t, id, review).value.Some?
    ensures
      var n, ref := BindTask(t, id, review).value.value, t.tasks[id].derived.value;
      && WorkplacesValid(n.workplaces)
      && n == t.(tasks := n.tasks, workplaces := n.workplaces)
      && n.workplaces == t.workplaces[ref := DeskForClaim(t, ref, t.tasks[id].processRun, review)]
      && n.tasks == t.tasks[id := t.tasks[id].(workplace := if t.tasks[id].workplace.Some? then t.tasks[id].workplace else Some(ref))]
  {
    var ref := t.tasks[id].derived.value;
    SyncedDeskIs(t, ref, t.tasks[id].processRun, review);
    DeskKeepsValid(t.workplaces, ref, DeskForClaim(t, ref, t.tasks[id].processRun, review));
    hide WorkplacesValid, Materialize, SyncReview, DeskForClaim, Valid;
    assert t.tasks == t.tasks[id := t.tasks[id]];
  }

  lemma DeskKeepsValid(workplaces: map<WorkplaceRef, WorkplaceRow>, ref: WorkplaceRef, row: WorkplaceRow)
    requires WorkplacesValid(workplaces) && Valid(row.state)
    ensures WorkplacesValid(workplaces[ref := row])
  {
  }

  lemma SyncedDeskIs(t: Tables, ref: WorkplaceRef, processRun: nat, review: bool)
    requires ref in t.workplaces ==> Valid(t.workplaces[ref].state)
    ensures
      var m := Materialize(t, ref, processRun);
      && ref in m.workplaces
      && SyncReview(m, ref, review).Ok?
      && SyncReview(m, ref, review).value.tables == t.(workplaces := t.workplaces[ref := DeskForClaim(t, ref, processRun, review)])
      && Valid(DeskForClaim(t, ref, processRun, review).state)
  {
    var m := Materialize(t, ref, processRun);
    assert m.workplaces == t.workplaces[ref := m.workplaces[ref]];
    IdleIsTodo(m.workplaces[ref].state);
  }

  /** A fresh desk is the one still to be worked on. */
  lemma IdleIsTodo(s: WorkplaceState)
    requires Valid(s)
    ensures s.loop.Idle? <==> s.kanban.Todo?
  {
  }

  // ---- release ---------------------------------------------------------------------------------

  /** The attempts on the card that failed so far. */
  function Failures(t: Tables, id: TaskId): set<ExecutionId> {
    set x | x in t.executions && t.executions[x].task == id && t.executions[x].state in {ExecLost, ExecSpawnFailed, ExecTerminated}
  }

  /** With this attempt the card has failed more often than its budget allows. */
  predicate Spent(t: Tables, id: TaskId, task: Task) {
    task.retryBudget.Some? && |Failures(t, id)| >= task.retryBudget.value
  }

  /** The queue an interrupted card goes back to; a finished card only while its merge is outstanding. */
  predicate Requeued(was: Task, status: TaskStatus) {
    match status
    case TaskTodo => was.status.TaskTodo? || was.status.TaskInProgress?
    case TaskReview =>
      was.status.TaskReview? || was.status.TaskReviewInProgress? || (was.status.TaskDone? && was.integration.IntegrationPending?)
    case TaskDone => was.status.TaskDone? && !was.integration.IntegrationPending?
    case TaskInProgress | TaskReviewInProgress => false
    case other => was.status == other
  }

  /** An active shift ends on a card it still fences, and no human is waited for. */
  predicate HandsBack(t: Tables, e: ExecutionId) {
    && Live(t, e) && t.executions[e].task in t.tasks
    && var card := t.tasks[t.executions[e].task];
       card.current == Some(e) && !card.needsHuman
  }

  /** A shift that was already over is still on a card whose completion was accepted. */
  predicate LetsGo(t: Tables, e: ExecutionId) {
    && Dead(t, e) && t.executions[e].task in t.tasks
    && t.tasks[t.executions[e].task].current == Some(e) && e in t.receipts
  }

  /** A card handed back: kept where its completion put it, blocked once its budget is spent, or queued again. */
  predicate CardReturned(t: Tables, e: ExecutionId, id: TaskId, was: Task, now: Task, preserve: Option<bool>) {
    && now == was.(status := now.status, assignedTo := None, current := None)
    && if preserve == Some(true) || (preserve.None? && e in t.receipts) then now.status == was.status
       else if Spent(t, id, was) then now.status.TaskBlocked?
       else Requeued(was, now.status)
  }

  /** Everything a release writes: at most the state of its execution, and the card that execution still fences. */
  lemma ReleaseLeaves(t: Tables, e: ExecutionId, terminal: ExecutionState, preserve: Option<bool>)
    ensures
      var r := ReleaseExecution(t, e, terminal, preserve);
      && r.terminalized == Live(t, e) && r.taskReleased == (HandsBack(t, e) || LetsGo(t, e))
      && r.tables == t.(executions := r.tables.executions, tasks := r.tables.tasks)
      && r.tables.executions == (if Live(t, e) then t.executions[e := t.executions[e].(state := terminal)] else t.executions)
    ensures
      var n := ReleaseExecution(t, e, terminal, preserve).tables;
      if HandsBack(t, e) then
        var id := t.executions[e].task;
        && id in n.tasks && n.tasks == t.tasks[id := n.tasks[id]]
        && CardReturned(t, e, id, t.tasks[id], n.tasks[id], preserve)
      else if LetsGo(t, e) then
        var id := t.executions[e].task;
        n.tasks == t.tasks[id := t.tasks[id].(assignedTo := None, current := None)]
      else n.tasks == t.tasks
  {
    ReleasedExecution(t, e, terminal, preserve);
    ReleasedCard(t, e, terminal, preserve);
    hide ReleaseExecution, HandsBack, LetsGo, CardReturned;
  }

  lemma ReleasedExecution(t: Tables, e: ExecutionId, terminal: ExecutionState, preserve: Option<bool>)
    ensures
      var r := ReleaseExecution(t, e, terminal, preserve);
      && r.terminalized == Live(t, e) && r.taskReleased == (HandsBack(t, e) || LetsGo(t, e))
      && r.tables == t.(executions := r.tables.executions, tasks := r.tables.tasks)
      && r.tables.executions == (if Live(t, e) then t.executions[e := t.executions[e].(state := terminal)] else t.executions)
  {
    hide RestoredStatus, RetryExhausted;
    if Live(t, e) {
      assert WriteTerminal(t, e, terminal) == t.(executions := t.executions[e := t.executions[e].(state := terminal)]);
    }
    hide WriteTerminal;
  }

  lemma ReleasedCard(t: Tables, e: ExecutionId, terminal: ExecutionState, preserve: Option<bool>)
    ensures HandsBack(t, e) || LetsGo(t, e) ==> t.executions[e].task in t.tasks
    ensures
      var n := ReleaseExecution(t, e, terminal, preserve).tables;
      if HandsBack(t, e) then
        var id := t.executions[e].task;
        && id in n.tasks && n.tasks == t.tasks[id := n.tasks[id]]
        && CardReturned(t, e, id, t.tasks[id], n.tasks[id], preserve)
      else if LetsGo(t, e) then
        var id := t.executions[e].task;
        n.tasks == t.tasks[id := t.tasks[id].(assignedTo := None, current := None)]
      else n.tasks == t.tasks
  {
    hide RestoredStatus, RetryExhausted, Spent, Requeued, CardReturned;
    if HandsBack(t, e) {
      HandedCard(t, e, terminal, preserve);
      hide ReleaseExecution;
    } else {
      KeptCards(t, e, terminal, preserve);
      hide ReleaseExecution;
    }
  }

  lemma KeptCards(t: Tables, e: ExecutionId, terminal: ExecutionState, preserve: Option<bool>)
    requires !HandsBack(t, e)
    ensures
      var n := ReleaseExecution(t, e, terminal, preserve).tables;
      if LetsGo(t, e) then
        var id := t.executions[e].task;
        id in t.tasks && n.tasks == t.tasks[id := t.tasks[id].(assignedTo := None, current := None)]
      else n.tasks == t.tasks
  {
    hide RestoredStatus, RetryExhausted;
  }

  lemma HandedCard(t: Tables, e: ExecutionId, terminal: ExecutionState, preserve: Option<bool>)
    requires HandsBack(t, e)
    ensures
      var n, id := ReleaseExecution(t, e, terminal, preserve).tables, t.executions[e].task;
      && id in n.tasks && n.tasks == t.tasks[id := n.tasks[id]]
      && CardReturned(t, e, id, t.tasks[id], n.tasks[id], preserve)
  {
    RestoredIff(t, t.executions[e].task);
    hide RestoredStatus, RetryExhausted, Spent, Requeued;
  }

  lemma RestoredIff(t: Tables, id: TaskId)
    requires id in t.tasks
    ensures RetryExhausted(t, id) <==> Spent(t, id, t.tasks[id])
    ensures Requeued(t.tasks[id], RestoredStatus(t.tasks[id]))
  {
    assert FailedAttempts(t, id) == Failures(t, id);
  }
}
