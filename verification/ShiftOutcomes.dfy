/** What the transactions of one shift achieve: claim, completion, question, release. */
module ShiftOutcomes {
  import opened Results
  import opened Workplaces
  import opened FactoryTables
  import opened ConveyorRuntimes
  import opened WorkAssignment
  import opened Invariants
  import opened ProtocolSafety

  // ---- claim -----------------------------------------------------------------------------

  /** A committed claim fences a card nobody held, for a new execution reserved to it and to nobody else. */
  lemma ClaimFences(t: Tables, id: TaskId, e: ExecutionId, worker: WorkerId, machine: MachineId, now: Millis)
    requires Inv(t) && Claim(t, id, e, worker, machine, now).Ok?
    ensures id in t.tasks && t.tasks[id].current.None? && t.tasks[id].assignedTo.None? && e !in t.executions
    ensures
      var n := Claim(t, id, e, worker, machine, now).value;
      && id in n.tasks && n.tasks[id].current == Some(e) && n.tasks[id].assignedTo == Some(worker)
      && Live(n, e) && n.executions[e].task == id && n.executions[e].worker == worker
      && (forall x | Live(n, x) && x != e :: n.executions[x].task != id && n.executions[x].worker != worker)
  {
    ClaimKeeps(t, id, e, worker, machine, now);
    FencedCard(t, id, e, worker, machine, now);
    var n := Claim(t, id, e, worker, machine, now).value;
    hide Claim, WorkplacesValid, ExecutionsOk, StopsOk, HoldsOk, CardsOk, HiresOk, Grows;
  }

  lemma FencedCard(t: Tables, id: TaskId, e: ExecutionId, worker: WorkerId, machine: MachineId, now: Millis)
    requires Claim(t, id, e, worker, machine, now).Ok?
    ensures id in t.tasks && t.tasks[id].current.None? && t.tasks[id].assignedTo.None? && e !in t.executions
    ensures
      var n := Claim(t, id, e, worker, machine, now).value;
      && id in n.tasks && n.tasks[id].current == Some(e) && n.tasks[id].assignedTo == Some(worker)
      && n.executions == HireCard(t, id, e, worker, machine, now).executions
  {
    var fenced := HireCard(t, id, e, worker, machine, now);
    var review := ClaimedStatus(t, t.tasks[id]) == TaskReviewInProgress;
    if BindTask(fenced, id, review).Ok? && BindTask(fenced, id, review).value.Some? {
      BindFrame(fenced, id, review);
      var bound := BindTask(fenced, id, review).value.value;
      var ref := t.tasks[id].derived.value;
      if UseCase(bound, ref, id, Reserve(e)).Ok? {
        CompareAndSetNeverMisses(bound, ref, id, Reserve(e));
      }
    }
    hide BindTask, UseCase, ClaimedStatus, DeskFree, StatusFor, Blocks;
  }

  /** Binding touches nothing of the card but its workplace column. */
  lemma BindFrame(t: Tables, id: TaskId, review: bool)
    requires id in t.tasks && BindTask(t, id, review).Ok? && BindTask(t, id, review).value.Some?
    ensures
      var n := BindTask(t, id, review).value.value;
      && n.executions == t.executions && id in n.tasks
      && n.tasks[id] == t.tasks[id].(workplace := n.tasks[id].workplace)
  {
    var ref := t.tasks[id].derived.value;
    var m := Materialize(t, ref, t.tasks[id].processRun);
    assert m.executions == t.executions && m.tasks == t.tasks;
    hide SyncReview, Materialize, BindCard;
    SyncFrame(m, ref, review);
    BoundRow(SyncReview(m, ref, review).value.tables, id, ref);
  }

  lemma BoundRow(t: Tables, id: TaskId, ref: WorkplaceRef)
    requires id in t.tasks
    ensures
      var n := BindCard(t, id, ref);
      && n.executions == t.executions && id in n.tasks
      && n.tasks[id] == t.tasks[id].(workplace := n.tasks[id].workplace)
  {
  }

  lemma SyncFrame(t: Tables, ref: WorkplaceRef, review: bool)
    requires ref in t.workplaces && SyncReview(t, ref, review).Ok?
    ensures
      var n := SyncReview(t, ref, review).value.tables;
      n == t.(workplaces := n.workplaces)
  {
  }

  /** A claim takes over the reservation of its workplace unless that workplace still counts as hired. */
  lemma ClaimReservesIff(t: Tables, id: TaskId, e: ExecutionId, worker: WorkerId, machine: MachineId, now: Millis, ref: WorkplaceRef)
    requires Inv(t) && Claim(t, id, e, worker, machine, now).Ok? && t.tasks[id].derived == Some(ref)
    ensures
      var n := Claim(t, id, e, worker, machine, now).value;
      ref in n.workplaces && (n.workplaces[ref].reservation == Some(e) <==> !Hired(t, ref))
  {
    FencedCard(t, id, e, worker, machine, now);
    var fenced := HireCard(t, id, e, worker, machine, now);
    var review := ClaimedStatus(t, t.tasks[id]) == TaskReviewInProgress;
    assert Hired(fenced, ref) == Hired(t, ref) && WorkplacesValid(fenced.workplaces);
    BoundDesk(fenced, id, review, ref);
    KeptReservation(fenced, id, review, ref);
    var bound := BindTask(fenced, id, review).value.value;
    FreshReservation(t, e, ref);
    hide Inv, BindTask, ClaimedStatus, Eligible, InsertAllowed, WorkplacesValid, HireCard;
    assert Claim(t, id, e, worker, machine, now).value == UseCase(bound, ref, id, Reserve(e)).value.tables;
    ReserveTakesIff(bound, ref, id, e);
    hide Claim, UseCase;
  }

  lemma FreshReservation(t: Tables, e: ExecutionId, ref: WorkplaceRef)
    requires Inv(t) && e !in t.executions
    ensures Hired(t, ref) ==> t.workplaces[ref].reservation != Some(e)
  {
  }

  lemma KeptReservation(t: Tables, id: TaskId, review: bool, ref: WorkplaceRef)
    requires id in t.tasks && t.tasks[id].derived == Some(ref) && BindTask(t, id, review).Ok?
    ensures BindTask(t, id, review).value.Some?
    ensures Hired(t, ref) ==>
      ref in BindTask(t, id, review).value.value.workplaces
      && BindTask(t, id, review).value.value.workplaces[ref] == t.workplaces[ref]
  {
  }

  lemma ReserveTakesIff(t: Tables, ref: WorkplaceRef, id: TaskId, e: ExecutionId)
    requires ref in t.workplaces && UseCase(t, ref, id, Reserve(e)).Ok?
    requires Hired(t, ref) ==> t.workplaces[ref].reservation != Some(e)
    ensures
      var n := UseCase(t, ref, id, Reserve(e)).value.tables;
      ref in n.workplaces && (n.workplaces[ref].reservation == Some(e) <==> !Hired(t, ref))
  {
    CompareAndSetNeverMisses(t, ref, id, Reserve(e));
    if UseCase(t, ref, id, Reserve(e)).value.applied {
      OnlyReserveHires(t, ref, id, Reserve(e));
    }
    hide Valid, StatusFor;
  }

  /** Without the reservation no completion commits: claiming a desk a dead worker still holds strands the shift. */
  lemma CompletionNeedsTheReservation(t: Tables, commands: Commands, id: TaskId, worker: WorkerId, e: ExecutionId, facts: DoneFacts,
                                      ref: WorkplaceRef)
    requires id in t.tasks && t.tasks[id].derived == Some(ref)
    requires ref in t.workplaces ==> t.workplaces[ref].reservation != Some(e)
    ensures !WorkerDone(t, commands, id, worker, Some(e), facts).Committed?
    ensures !Replays(commands, e, facts) ==> WorkerDone(t, commands, id, worker, Some(e), facts).Refused?
  {
    hide Reduce, Replays;
  }

  // ---- completion ----------------------------------------------------------------------------

  /** A fenced card is worked on by the execution that presents itself, still active. */
  predicate OwnShift(t: Tables, id: TaskId, e: ExecutionId)
    requires id in t.tasks
  {
    t.tasks[id].current.Some? ==> t.tasks[id].current == Some(e) && Live(t, e) && t.executions[e].task == id
  }

  /** The workplace the card derives, if any, is running under this execution's reservation. */
  predicate Hosts(t: Tables, id: TaskId, e: ExecutionId)
    requires id in t.tasks
  {
    t.tasks[id].derived.Some? ==>
      var ref := t.tasks[id].derived.value;
      ref in t.workplaces && t.workplaces[ref].state.loop == Running && t.workplaces[ref].reservation == Some(e)
  }

  /** A worker_done commits exactly for an identified, unvoided execution whose command is new, on its own working card and desk. */
  lemma DoneCommitsIff(t: Tables, commands: Commands, id: TaskId, worker: WorkerId, claimed: Option<ExecutionId>, facts: DoneFacts)
    requires WorkplacesValid(t.workplaces)
    ensures WorkerDone(t, commands, id, worker, claimed, facts).Committed? <==>
      && claimed.Some? && !Void(t, claimed.value)
      && DoneKey(claimed.value, facts) !in commands && (facts.commitment.None? ==> !ClosedBefore(commands, claimed.value))
      && id in t.tasks && t.tasks[id].assignedTo == Some(worker) && OwnShift(t, id, claimed.value)
      && (t.tasks[id].status.TaskInProgress? || t.tasks[id].status.TaskReviewInProgress?)
      && facts.productSubmitted && (t.tasks[id].status.TaskInProgress? ==> facts.submissionValid)
      && Hosts(t, id, claimed.value)
  {
    if claimed.Some? && id in t.tasks {
      CompleteCommitsIff(t, id, worker, claimed.value, facts);
    }
    hide Complete, ClosedBefore, WorkplacesValid, Hosts, DoneStatus, OwnShift;
  }

  lemma CompleteCommitsIff(t: Tables, id: TaskId, worker: WorkerId, e: ExecutionId, facts: DoneFacts)
    requires WorkplacesValid(t.workplaces) && id in t.tasks
    ensures Complete(t, id, worker, e, facts).Committed? <==>
      && t.tasks[id].assignedTo == Some(worker) && OwnShift(t, id, e)
      && (t.tasks[id].status.TaskInProgress? || t.tasks[id].status.TaskReviewInProgress?)
      && facts.productSubmitted && (t.tasks[id].status.TaskInProgress? ==> facts.submissionValid)
      && Hosts(t, id, e)
  {
    if t.tasks[id].derived.Some? && DoneStatus(t.tasks[id], facts).Some? {
      var moved := t.(tasks := t.tasks[id := t.tasks[id].(status := DoneStatus(t.tasks[id], facts).value, assignedTo := None)]);
      SealsIff(moved, t.tasks[id].derived.value, id, e);
    }
    hide UseCase, FinishTask, FinishPhase, WorkplacesValid;
  }

  lemma SealsIff(t: Tables, ref: WorkplaceRef, id: TaskId, e: ExecutionId)
    requires WorkplacesValid(t.workplaces)
    ensures UseCase(t, ref, id, ReleaseShift(e, Completed)).Ok? <==>
      ref in t.workplaces && t.workplaces[ref].state.loop == Running && t.workplaces[ref].reservation == Some(e)
  {
    hide StatusFor;
  }

  /** The verdict is that the work is finished: no reviewer was declared, the reviewer approved, or review gave up. */
  predicate Finishes(was: Task, facts: DoneFacts) {
    || (was.status.TaskInProgress? && !was.reviewSkill)
    || (was.status.TaskReviewInProgress? && (facts.approved || facts.onChanges.TaskDone?))
  }

  /** The reviewer asks for changes and the card goes on: back to the queue, or blocked once the budget is spent. */
  predicate ChangesAsked(was: Task, facts: DoneFacts) {
    was.status.TaskReviewInProgress? && !facts.approved && !facts.onChanges.TaskDone?
  }

  /** Where a card without a workplace goes. */
  predicate Routed(was: Task, status: TaskStatus, facts: DoneFacts) {
    && (status == TaskDone <==> Finishes(was, facts))
    && (status == TaskReview <==> was.status.TaskInProgress? && was.reviewSkill)
    && (status == TaskBlocked <==> ChangesAsked(was, facts) && facts.onChanges.TaskBlocked?)
    && (status == TaskTodo <==> ChangesAsked(was, facts) && !facts.onChanges.TaskBlocked?)
  }

  /**
   * What a completion leaves on the card: unassigned, its tag and its integration
   * settled exactly by a verdict that finishes the work, its status the verdict's
   * or, on a workplace, still the phase that workplace shows.
   */
  predicate CardSettled(t: Tables, was: Task, now: Task, facts: DoneFacts) {
    && now == was.(status := now.status, assignedTo := None, needsHuman := now.needsHuman, integration := now.integration)
    && now.needsHuman == (was.needsHuman && !Finishes(was, facts))
    && now.integration == (if !Finishes(was, facts) then was.integration else if was.gitChange then IntegrationPending else NotRequired)
    && (was.derived.None? ==> Routed(was, now.status, facts))
    && (was.derived.Some? ==>
          was.derived.value in t.workplaces && now.status == ShownBy(t.workplaces[was.derived.value]))
  }

  /** What the card of a working desk shows. */
  function ShownBy(row: WorkplaceRow): TaskStatus {
    if row.state.kanban.ReviewInProgress? then TaskReviewInProgress else TaskInProgress
  }

  /** The presenting execution, when it is the worker's own live one, goes on to integrate or to finish. */
  predicate PhaseSettled(t: Tables, n: map<ExecutionId, Execution>, id: TaskId, worker: WorkerId, e: ExecutionId, facts: DoneFacts)
    requires id in t.tasks
  {
    if Live(t, e) && t.executions[e].task == id && t.executions[e].worker == worker
    then n == t.executions[e := t.executions[e].(
           phase := if Finishes(t.tasks[id], facts) && t.tasks[id].gitChange && t.tasks[id].integration.IntegrationPending?
                    then Integrating else Finishing)]
    else n == t.executions
  }

  /** A committed completion settles its own card and its own execution, and no other. */
  lemma DoneSettlesTheCard(t: Tables, commands: Commands, id: TaskId, worker: WorkerId, claimed: Option<ExecutionId>, facts: DoneFacts)
    requires WorkplacesValid(t.workplaces) && WorkerDone(t, commands, id, worker, claimed, facts).Committed?
    ensures claimed.Some? && id in t.tasks
    ensures
      var n := WorkerDone(t, commands, id, worker, claimed, facts).tables;
      && id in n.tasks && n.tasks == t.tasks[id := n.tasks[id]]
      && CardSettled(t, t.tasks[id], n.tasks[id], facts)
      && PhaseSettled(t, n.executions, id, worker, claimed.value, facts)
  {
    DoneCommitsIff(t, commands, id, worker, claimed, facts);
    CompleteSettles(t, id, worker, claimed.value, facts);
    hide Complete, ClosedBefore, Replays, WorkplacesValid, CardSettled, PhaseSettled, Hosts;
  }

  lemma CompleteSettles(t: Tables, id: TaskId, worker: WorkerId, e: ExecutionId, facts: DoneFacts)
    requires WorkplacesValid(t.workplaces) && id in t.tasks && Complete(t, id, worker, e, facts).Committed?
    ensures
      var n := Complete(t, id, worker, e, facts).tables;
      && id in n.tasks && n.tasks == t.tasks[id := n.tasks[id]]
      && CardSettled(t, t.tasks[id], n.tasks[id], facts)
      && PhaseSettled(t, n.executions, id, worker, e, facts)
  {
    hide UseCase, Complete, DoneStatus, FinishTask, FinishPhase, WorkplacesValid, CardSettled, PhaseSettled, Routed, Live, FinishedCard,
         FinishedPhase;
    var released := Released(t, id, worker, e, facts);
    var task := t.tasks[id];
    var status := DoneStatus(task, facts).value;
    DoneRoutes(task, facts);
    var moved := t.(tasks := t.tasks[id := task.(status := status, assignedTo := None)]);
    if task.derived.Some? {
      ShownStatus(moved, task.derived.value, id, e);
    }
    var integrating := status == TaskDone && task.gitChange && task.integration == IntegrationPending;
    FinishSettles(released, id, worker, e, status, integrating);
    SettledBy(t, id, worker, e, facts, status, released, Complete(t, id, worker, e, facts).tables);
  }

  /** A completion in two parts: the tables after the desk is sealed, and what is finished on them. */
  lemma Released(t: Tables, id: TaskId, worker: WorkerId, e: ExecutionId, facts: DoneFacts) returns (released: Tables)
    requires id in t.tasks && Complete(t, id, worker, e, facts).Committed?
    ensures DoneStatus(t.tasks[id], facts).Some?
    ensures
      var status := DoneStatus(t.tasks[id], facts).value;
      var moved := t.(tasks := t.tasks[id := t.tasks[id].(status := status, assignedTo := None)]);
      if t.tasks[id].derived.None? then released == moved
      else UseCase(moved, t.tasks[id].derived.value, id, ReleaseShift(e, Completed)).Ok?
           && released == UseCase(moved, t.tasks[id].derived.value, id, ReleaseShift(e, Completed)).value.tables
    ensures id in released.tasks
    ensures
      var status := DoneStatus(t.tasks[id], facts).value;
      var finished := released.(tasks := released.tasks[id := FinishTask(released.tasks[id], status)]);
      var phased := FinishPhase(finished, id, worker, Some(e),
                                status == TaskDone && t.tasks[id].gitChange && t.tasks[id].integration == IntegrationPending);
      Complete(t, id, worker, e, facts).tables == phased.(receipts := Complete(t, id, worker, e, facts).tables.receipts)
  {
    var status := DoneStatus(t.tasks[id], facts).value;
    released := t.(tasks := t.tasks[id := t.tasks[id].(status := status, assignedTo := None)]);
    if t.tasks[id].derived.Some? {
      CompareAndSetNeverMisses(released, t.tasks[id].derived.value, id, ReleaseShift(e, Completed));
      released := UseCase(released, t.tasks[id].derived.value, id, ReleaseShift(e, Completed)).value.tables;
    }
    hide UseCase, DoneStatus, PassesTaskFence, FinishTask, FinishPhase, StatusFor;
  }

  lemma SettledBy(t: Tables, id: TaskId, worker: WorkerId, e: ExecutionId, facts: DoneFacts, status: TaskStatus, released: Tables, n: Tables)
    requires id in t.tasks && Routed(t.tasks[id], status, facts)
    requires released.executions == t.executions && id in released.tasks
    requires released.tasks == t.tasks[id := t.tasks[id].(status := released.tasks[id].status, assignedTo := None)]
    requires if t.tasks[id].derived.None? then released.tasks[id].status == status
             else t.tasks[id].derived.value in t.workplaces && released.tasks[id].status == ShownBy(t.workplaces[t.tasks[id].derived.value])
    requires FinishedCard(released, n, id, status)
    requires FinishedPhase(released, n, id, worker, e, status == TaskDone && t.tasks[id].gitChange && t.tasks[id].integration == IntegrationPending)
    ensures n.tasks == t.tasks[id := n.tasks[id]]
    ensures CardSettled(t, t.tasks[id], n.tasks[id], facts) && PhaseSettled(t, n.executions, id, worker, e, facts)
  {
  }

  lemma DoneRoutes(was: Task, facts: DoneFacts)
    requires DoneStatus(was, facts).Some?
    ensures Routed(was, DoneStatus(was, facts).value, facts)
  {
  }

  /** Sealing a shift leaves the desk's phase, and shows it on the card. */
  lemma ShownStatus(t: Tables, ref: WorkplaceRef, id: TaskId, e: ExecutionId)
    requires WorkplacesValid(t.workplaces) && id in t.tasks && UseCase(t, ref, id, ReleaseShift(e, Completed)).Ok?
    ensures ref in t.workplaces
    ensures
      var n := UseCase(t, ref, id, ReleaseShift(e, Completed)).value.tables;
      && n.executions == t.executions
      && n.tasks == t.tasks[id := t.tasks[id].(status := ShownBy(t.workplaces[ref]))]
  {
  }

  predicate FinishedCard(t: Tables, n: Tables, id: TaskId, status: TaskStatus)
    requires id in t.tasks
  {
    && id in n.tasks && n.tasks == t.tasks[id := n.tasks[id]]
    && n.tasks[id] == t.tasks[id].(needsHuman := n.tasks[id].needsHuman, integration := n.tasks[id].integration)
    && n.tasks[id].needsHuman == (t.tasks[id].needsHuman && status != TaskDone)
    && n.tasks[id].integration == (if status != TaskDone then t.tasks[id].integration
                                   else if t.tasks[id].gitChange then IntegrationPending else NotRequired)
  }

  predicate FinishedPhase(t: Tables, n: Tables, id: TaskId, worker: WorkerId, e: ExecutionId, integrating: bool) {
    n.executions == if Live(t, e) && t.executions[e].task == id && t.executions[e].worker == worker
                    then t.executions[e := t.executions[e].(phase := if integrating then Integrating else Finishing)]
                    else t.executions
  }

  lemma FinishSettles(t: Tables, id: TaskId, worker: WorkerId, e: ExecutionId, status: TaskStatus, integrating: bool)
    requires id in t.tasks
    ensures
      var finished := t.(tasks := t.tasks[id := FinishTask(t.tasks[id], status)]);
      var n := FinishPhase(finished, id, worker, Some(e), integrating);
      FinishedCard(t, n, id, status) && FinishedPhase(t, n, id, worker, e, integrating)
  {
  }

  /**
   * What a committed completion leaves: the card settled by the verdict and still
   * fenced as it was, the presenter's phase, a receipt of the fencing execution,
   * and the workplace moved from running to verifying with the presenter as its
   * reservation; with a workplace, it is the execution's first completion.
   */
  lemma DoneSealsTheShift(t: Tables, commands: Commands, id: TaskId, worker: WorkerId, claimed: Option<ExecutionId>, facts: DoneFacts)
    requires Inv(t) && WorkerDone(t, commands, id, worker, claimed, facts).Committed?
    ensures claimed.Some? && DoneKey(claimed.value, facts) !in commands
    ensures id in t.tasks && t.tasks[id].assignedTo == Some(worker) && OwnShift(t, id, claimed.value)
    ensures t.tasks[id].derived.Some? ==> claimed.value !in t.receipts
    ensures
      var n := WorkerDone(t, commands, id, worker, claimed, facts).tables;
      && n.receipts == (if t.tasks[id].current.Some? then t.receipts + {claimed.value} else t.receipts)
      && id in n.tasks && n.tasks == t.tasks[id := n.tasks[id]]
      && CardSettled(t, t.tasks[id], n.tasks[id], facts) && PhaseSettled(t, n.executions, id, worker, claimed.value, facts)
      && n.tasks[id].assignedTo.None? && n.tasks[id].current == t.tasks[id].current
      && (t.tasks[id].derived.Some? ==>
            var ref := t.tasks[id].derived.value;
            && ref in t.workplaces && ref in n.workplaces
            && t.workplaces[ref].state.loop == Running && t.workplaces[ref].reservation == claimed
            && n.workplaces[ref].state == t.workplaces[ref].state.(loop := Verifying, revision := t.workplaces[ref].state.revision + 1)
            && n.workplaces[ref].reservation == claimed)
  {
    InvWorkplaces(t);
    DoneCommitsIff(t, commands, id, worker, claimed, facts);
    DoneSettlesTheCard(t, commands, id, worker, claimed, facts);
    CompleteSeals(t, id, worker, claimed.value, facts);
    HostIsFresh(t, id, claimed.value);
    hide Inv, Complete, ClosedBefore, Replays, CardSettled, PhaseSettled;
  }

  lemma InvWorkplaces(t: Tables)
    requires Inv(t)
    ensures WorkplacesValid(t.workplaces)
  {
  }

  /** A live hire has not completed yet. */
  lemma HostIsFresh(t: Tables, id: TaskId, e: ExecutionId)
    requires Inv(t) && id in t.tasks && Hosts(t, id, e)
    ensures t.tasks[id].derived.Some? ==> e !in t.receipts
  {
    hide WorkplacesValid, ExecutionsOk, OneActive, StopsOk, HoldsOk, CardsOk;
  }

  lemma CompleteSeals(t: Tables, id: TaskId, worker: WorkerId, e: ExecutionId, facts: DoneFacts)
    requires id in t.tasks && Complete(t, id, worker, e, facts).Committed?
    ensures
      var n := Complete(t, id, worker, e, facts).tables;
      && n.receipts == (if t.tasks[id].current.Some? then t.receipts + {t.tasks[id].current.value} else t.receipts)
      && id in n.tasks && n.tasks[id].assignedTo.None? && n.tasks[id].current == t.tasks[id].current
      && (t.tasks[id].derived.Some? ==>
            var ref := t.tasks[id].derived.value;
            && ref in t.workplaces && ref in n.workplaces
            && t.workplaces[ref].state.loop == Running && t.workplaces[ref].reservation == Some(e)
            && n.workplaces[ref].state == t.workplaces[ref].state.(loop := Verifying, revision := t.workplaces[ref].state.revision + 1)
            && n.workplaces[ref].reservation == Some(e))
  {
    var task := t.tasks[id];
    var status := DoneStatus(task, facts).value;
    var moved := t.(tasks := t.tasks[id := task.(status := status, assignedTo := None)]);
    var released := moved;
    if task.derived.Some? {
      CompareAndSetNeverMisses(moved, task.derived.value, id, ReleaseShift(e, Completed));
      SealedDesk(moved, task.derived.value, id, e);
      released := UseCase(moved, task.derived.value, id, ReleaseShift(e, Completed)).value.tables;
    }
    assert id in released.tasks && released.tasks[id].assignedTo.None? && released.tasks[id].current == t.tasks[id].current;
    assert released.receipts == t.receipts;
    FinishFrame(released, id, worker, Some(e), status, status == TaskDone && task.gitChange && task.integration == IntegrationPending);
    hide UseCase, DoneStatus, PassesTaskFence, StatusFor, FinishTask, FinishPhase;
  }

  lemma FinishFrame(t: Tables, id: TaskId, worker: WorkerId, claimed: Option<ExecutionId>, status: TaskStatus, integrating: bool)
    requires id in t.tasks
    ensures
      var finished := t.(tasks := t.tasks[id := FinishTask(t.tasks[id], status)]);
      var n := FinishPhase(finished, id, worker, claimed, integrating);
      && n.workplaces == t.workplaces && n.receipts == t.receipts
      && id in n.tasks && n.tasks[id].assignedTo == t.tasks[id].assignedTo && n.tasks[id].current == t.tasks[id].current
  {
  }

  lemma SealedDesk(t: Tables, ref: WorkplaceRef, id: TaskId, e: ExecutionId)
    requires UseCase(t, ref, id, ReleaseShift(e, Completed)).Ok?
    ensures
      var n := UseCase(t, ref, id, ReleaseShift(e, Completed)).value.tables;
      && ref in t.workplaces && ref in n.workplaces
      && t.workplaces[ref].state.loop == Running && t.workplaces[ref].reservation == Some(e)
      && n.workplaces[ref].state == t.workplaces[ref].state.(loop := Verifying, revision := t.workplaces[ref].state.revision + 1)
      && n.workplaces[ref].reservation == Some(e)
  {
  }

  // ---- a question to a human --------------------------------------------------------------------

  /** Asking ends the shift: a fencing execution is over, and the card cannot be claimed again while the request is open. */
  lemma AskEndsTheShift(t: Tables, id: TaskId, worker: WorkerId, claimed: Option<ExecutionId>)
    requires Inv(t) && AskNeed(t, id, worker, claimed).Committed?
    ensures id in t.tasks && t.tasks[id].assignedTo == Some(worker) && (t.tasks[id].current.Some? ==> claimed.Some? && OwnShift(t, id, claimed.value))
    ensures
      var n := AskNeed(t, id, worker, claimed).tables;
      && (if t.tasks[id].current.Some? then Dead(n, claimed.value) && n.executions[claimed.value].state == ExecExited
          else n.executions == t.executions && id in n.tasks && n.tasks[id].assignedTo.None?)
      && id in n.tasks && true in n.tasks[id].requests && n.tasks[id].needsHuman && !Eligible(n, id)
  {
    AskIsFenced(t, id, worker, claimed);
    var asked := AskedCard(t, id);
    if t.tasks[id].current.Some? {
      AskedRelease(asked, t.tasks[id].current.value, id);
    }
    hide Inv, ReleaseExecution, PassesTaskFence, DeskFree;
  }

  lemma AskIsFenced(t: Tables, id: TaskId, worker: WorkerId, claimed: Option<ExecutionId>)
    requires Inv(t) && AskNeed(t, id, worker, claimed).Committed?
    ensures id in t.tasks && t.tasks[id].assignedTo == Some(worker) && (t.tasks[id].current.Some? ==> claimed.Some? && OwnShift(t, id, claimed.value))
  {
    hide ReleaseExecution, WorkplacesValid, ExecutionsOk, OneActive, StopsOk, HoldsOk, HiresOk;
  }

  lemma AskedRelease(t: Tables, e: ExecutionId, id: TaskId)
    requires Live(t, e) && id in t.tasks && t.executions[e].task == id
    ensures
      var n := ReleaseExecution(t, e, ExecExited, None).tables;
      && e in n.executions && n.executions[e].state == ExecExited
      && id in n.tasks && n.tasks[id].requests == t.tasks[id].requests
  {
    hide RetryExhausted, RestoredStatus;
  }

  /** A request stays in the way of a claim until it is answered, and answering the newest one lets go exactly when no older one is open. */
  lemma AnswerReopensIff(t: Tables, id: TaskId)
    requires id in t.tasks && t.tasks[id].requests != []
    ensures
      var latest := |t.tasks[id].requests| - 1;
      var n := Answer(t, id, latest);
      && id in n.tasks && (true !in n.tasks[id].requests <==> true !in t.tasks[id].requests[..latest])
      && (n.tasks[id].needsHuman <==> t.tasks[id].needsHuman && !t.tasks[id].requests[latest])
  {
    var latest := |t.tasks[id].requests| - 1;
    var n := Answer(t, id, latest);
    var was, now := t.tasks[id].requests, n.tasks[id].requests;
    assert now[..latest] == was[..latest] && now == now[..latest] + [now[latest]] && !now[latest];
  }

  // ---- release -------------------------------------------------------------------------------------

  /**
   * Releasing the same execution again changes the tables exactly when the
   * first release could not hand back a card that waits for a human although
   * its completion was accepted.
   */
  lemma SecondReleaseWritesIff(t: Tables, e: ExecutionId, first: ExecutionState, second: ExecutionState, p: Option<bool>, q: Option<bool>)
    requires Inv(t) && Live(t, e) && !Active(first)
    ensures
      var once := ReleaseExecution(t, e, first, p).tables;
      ReleaseExecution(once, e, second, q).tables != once <==>
        && t.executions[e].task in t.tasks && t.tasks[t.executions[e].task].current == Some(e)
        && t.tasks[t.executions[e].task].needsHuman && e in t.receipts
  {
    var id := t.executions[e].task;
    var once := ReleaseExecution(t, e, first, p).tables;
    OnceReleased(t, e, first, p);
    hide RetryExhausted, RestoredStatus, Inv;
    if id in once.tasks && once.tasks[id].current == Some(e) {
      assert ReleaseExecution(once, e, second, q).tables.tasks != once.tasks || e !in once.receipts by {
        if e in once.receipts {
          assert ReleaseExecution(once, e, second, q).tables.tasks[id].current == None;
        }
      }
    }
  }

  lemma OnceReleased(t: Tables, e: ExecutionId, terminal: ExecutionState, p: Option<bool>)
    requires Live(t, e) && !Active(terminal)
    ensures
      var n := ReleaseExecution(t, e, terminal, p).tables;
      var id := t.executions[e].task;
      && Dead(n, e) && n.executions[e].task == id && n.receipts == t.receipts && (id in n.tasks <==> id in t.tasks)
      && (id in t.tasks ==> (n.tasks[id].current == Some(e) <==> t.tasks[id].current == Some(e) && t.tasks[id].needsHuman))
  {
    var written := WriteTerminal(t, e, terminal);
    assert written == t.(executions := t.executions[e := t.executions[e].(state := terminal)]);
    hide RetryExhausted, RestoredStatus, WriteTerminal;
  }
}
