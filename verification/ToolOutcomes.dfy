/** What the question, merge, activation and edit tools require and leave, card column by card column. */
module ToolOutcomes {
  import opened Results
  import opened Workplaces
  import opened FactoryTables
  import opened WorkAssignment
  import opened CardOutcomes

  // ---- who may call -------------------------------------------------------------------------

  /** A fenced card answers only to its own execution, while that is still active. */
  predicate MayTouch(t: Tables, id: TaskId, claimed: Option<ExecutionId>) {
    && id in t.tasks
    && match t.tasks[id].current
       case None => true
       case Some(e) =>
         claimed == Some(e) && e in t.executions && t.executions[e].task == id
         && t.executions[e].state in {ExecReserved, ExecRunning, ExecCancelRequested}
  }

  /** The identity the call presents was not recalled by an operator. */
  predicate NotRecalled(t: Tables, claimed: Option<ExecutionId>) {
    claimed.Some? && claimed.value in t.executions ==> !t.executions[claimed.value].voided
  }

  lemma FencesIff(t: Tables, id: TaskId, claimed: Option<ExecutionId>)
    requires id in t.tasks
    ensures PassesTaskFence(t, id, claimed) <==> MayTouch(t, id, claimed)
    ensures MayTouch(t, id, claimed) ==>
      (PassesVoidFence(t, if claimed.Some? then claimed else t.tasks[id].current) <==> NotRecalled(t, claimed))
  {
  }

  // ---- completions already answered ------------------------------------------------------------

  /** The command a completion asks for: the kernel's close of a commitment, or the worker's own verdict. */
  predicate AsksFor(k: CommandKey, e: ExecutionId, facts: DoneFacts) {
    match k
    case DoneCommand(x, approved) => x == e && facts.commitment.None? && approved == facts.approved
    case CloseCommand(x, commitment) => x == e && facts.commitment == Some(commitment)
  }

  /** The kernel closed the presentation of the execution. */
  predicate KernelClosed(commands: Commands, e: ExecutionId) {
    exists k <- commands :: (match k case CloseCommand(_, _) => commands[k].fencedBy == Some(e) case DoneCommand(_, _) => false)
  }

  /**
   * An identified, unrecalled completion is answered from its stored reply exactly
   * when the kernel closed its presentation before the worker's own call, or the
   * same command was accepted with the same payload; with another payload it is
   * refused, and only a new command goes on to the card.
   */
  lemma DoneRepliesIff(t: Tables, commands: Commands, id: TaskId, worker: WorkerId, claimed: Option<ExecutionId>, facts: DoneFacts)
    ensures
      var r := WorkerDone(t, commands, id, worker, claimed, facts);
      r.Replayed? <==>
        && claimed.Some? && NotRecalled(t, claimed)
        && ((facts.commitment.None? && KernelClosed(commands, claimed.value))
            || exists k <- commands :: AsksFor(k, claimed.value, facts) && commands[k].payload == facts.payload)
    ensures WorkerDone(t, commands, id, worker, claimed, facts).Committed? ==>
      claimed.Some? && (facts.commitment.None? ==> !KernelClosed(commands, claimed.value))
      && forall k <- commands :: !AsksFor(k, claimed.value, facts)
  {
    if claimed.Some? {
      CommandIff(claimed.value, facts);
      ClosedIff(commands, claimed.value);
      CompleteAnswers(t, id, worker, claimed.value, facts);
    }
    hide Complete, ClosedBefore, KernelClosed, DoneKey;
  }

  lemma CommandIff(e: ExecutionId, facts: DoneFacts)
    ensures forall k :: k == DoneKey(e, facts) <==> AsksFor(k, e, facts)
  {
  }

  lemma ClosedIff(commands: Commands, e: ExecutionId)
    ensures ClosedBefore(commands, e) <==> KernelClosed(commands, e)
  {
    if KernelClosed(commands, e) {
      var k :| k in commands && (match k case CloseCommand(_, _) => commands[k].fencedBy == Some(e) case DoneCommand(_, _) => false);
      assert k.CloseCommand?;
    }
  }

  lemma CompleteAnswers(t: Tables, id: TaskId, worker: WorkerId, e: ExecutionId, facts: DoneFacts)
    ensures !Complete(t, id, worker, e, facts).Replayed?
  {
  }

  // ---- evidence ----------------------------------------------------------------------------------

  /** When both reads see one state, evidence is let in exactly from the holder of a card being worked on, under its fence. */
  lemma EvidenceIff(t: Tables, id: TaskId, worker: WorkerId, claimed: Option<ExecutionId>)
    ensures EvidenceAllowed(t, id, worker, claimed) <==>
      MayTouch(t, id, claimed) && t.tasks[id].assignedTo == Some(worker) && t.tasks[id].status in {TaskInProgress, TaskReviewInProgress}
  {
  }

  // ---- a question to a human --------------------------------------------------------------------

  lemma AskCommitsIff(t: Tables, id: TaskId, worker: WorkerId, claimed: Option<ExecutionId>)
    ensures AskNeed(t, id, worker, claimed).Committed? <==>
      id in t.tasks && t.tasks[id].assignedTo == Some(worker) && MayTouch(t, id, claimed) && NotRecalled(t, claimed)
  {
    if id in t.tasks {
      FencesIff(t, id, claimed);
    }
    hide PassesTaskFence, PassesVoidFence, MayTouch, NotRecalled, ReleaseExecution;
  }

  /** The card with one more open question, waiting for a human. */
  function Asked(was: Task): Task {
    was.(requests := was.requests + [true], needsHuman := true)
  }

  /**
   * A committed question leaves the card asking; an unfenced card loses its
   * worker, a fenced one is handed back with its shift over, unless it was
   * already waiting for a human: then it stays with the execution that just ended.
   */
  lemma AskLeaves(t: Tables, id: TaskId, worker: WorkerId, claimed: Option<ExecutionId>)
    requires AskNeed(t, id, worker, claimed).Committed?
    ensures id in t.tasks
    ensures
      var n, was := AskNeed(t, id, worker, claimed).tables, t.tasks[id];
      && n == t.(executions := n.executions, tasks := n.tasks) && id in n.tasks && n.tasks == t.tasks[id := n.tasks[id]]
      && match was.current
         case None => n.executions == t.executions && n.tasks[id] == Asked(was).(assignedTo := None)
         case Some(e) =>
           && e in t.executions && n.executions == t.executions[e := t.executions[e].(state := ExecExited)]
           && if was.needsHuman then n.tasks[id] == Asked(was)
              else
                && n.tasks[id] == Asked(was).(status := n.tasks[id].status, assignedTo := None, current := None)
                && if e in t.receipts then n.tasks[id].status == was.status
                   else if Spent(t, id, was) then n.tasks[id].status.TaskBlocked?
                   else Requeued(was, n.tasks[id].status)
  {
    AskCommitsIff(t, id, worker, claimed);
    hide ReleaseExecution, Spent, Requeued, PassesTaskFence, PassesVoidFence, NotRecalled;
    var was := t.tasks[id];
    if was.current.Some? {
      var asked := AskedCard(t, id);
      AskedStays(t, id);
      AskedQueue(was, asked.tasks[id]);
      ReleaseLeaves(asked, was.current.value, ExecExited, None);
    }
  }

  lemma AskedQueue(was: Task, asked: Task)
    requires asked == was.(requests := asked.requests)
    ensures forall status :: Requeued(asked, status) <==> Requeued(was, status)
  {
  }

  lemma AskedStays(t: Tables, id: TaskId)
    requires id in t.tasks
    ensures
      var asked := AskedCard(t, id);
      && asked == t.(tasks := asked.tasks) && id in asked.tasks
      && asked.tasks == t.tasks[id := t.tasks[id].(requests := t.tasks[id].requests + [true])]
      && Spent(asked, id, asked.tasks[id]) == Spent(t, id, t.tasks[id])
  {
    assert Failures(AskedCard(t, id), id) == Failures(t, id);
  }

  // ---- the merge lock ------------------------------------------------------------------------------

  /** Nobody has the lock, or it is over ten minutes old and its worker has no live process. */
  predicate Available(t: Tables, locks: MergeLocks, scope: MergeScope, now: Millis, alive: bool) {
    scope !in locks ||
    (&& now > locks[scope].acquiredAt + 600_000
     && (alive ==> forall e <- t.executions :: t.executions[e].worker == locks[scope].worker && t.executions[e].pid.Some? ==>
           t.executions[e].state !in {ExecReserved, ExecRunning, ExecCancelRequested}))
  }

  /** The lock a card's merge takes: its repository's, or its project's without one. */
  predicate LocksAs(task: Task, scope: MergeScope) {
    match scope
    case OfRepository(r) => task.repository == Some(r)
    case OfProject(p) => task.repository.None? && task.project == p
  }

  lemma AvailableIff(t: Tables, locks: MergeLocks, scope: MergeScope, now: Millis, alive: bool)
    ensures LockFree(t, locks, scope, now, alive) <==> Available(t, locks, scope, now, alive)
  {
  }

  /** Only a finished card takes the lock; while the lock is not available the call is denied, never refused. */
  lemma AcquireIff(t: Tables, locks: MergeLocks, id: TaskId, claimed: Option<ExecutionId>, now: Millis, alive: bool)
    ensures
      var r := MergeAcquire(t, locks, id, claimed, now, alive);
      && (r.Refused? <==> !(id in t.tasks && t.tasks[id].status.TaskDone? && MayTouch(t, id, claimed) && NotRecalled(t, claimed)))
      && (r.Committed? ==> r.tables == t) && !r.Replayed?
    ensures id in t.tasks && !MergeAcquire(t, locks, id, claimed, now, alive).Refused? ==>
      LocksAs(t.tasks[id], ScopeOf(t.tasks[id]))
      && (MergeAcquire(t, locks, id, claimed, now, alive).Committed? <==> Available(t, locks, ScopeOf(t.tasks[id]), now, alive))
  {
    if id in t.tasks {
      FencesIff(t, id, claimed);
      AvailableIff(t, locks, ScopeOf(t.tasks[id]), now, alive);
    }
    hide PassesTaskFence, PassesVoidFence, MayTouch, NotRecalled, LockFree, Available;
  }

  /** For ten minutes after an acquire nobody else gets the same lock, whatever else the factory does meanwhile. */
  lemma LockExcludes(t: Tables, locks: MergeLocks, id: TaskId, worker: WorkerId, now: Millis,
                     u: Tables, other: TaskId, claimed: Option<ExecutionId>, later: Millis, alive: bool)
    requires id in t.tasks && other in u.tasks && ScopeOf(u.tasks[other]) == ScopeOf(t.tasks[id])
    requires later <= now - now % 1000 + 600_000
    ensures !MergeAcquire(u, AcquiredLocks(t, locks, id, worker, now), other, claimed, later, alive).Committed?
    ensures HoldsLock(t, AcquiredLocks(t, locks, id, worker, now), id, worker)
    ensures
      var at := AcquiredLocks(t, locks, id, worker, now)[ScopeOf(t.tasks[id])].acquiredAt;
      at % 1000 == 0 && at <= now < at + 1000
    ensures forall scope <- locks :: scope != ScopeOf(t.tasks[id]) ==>
      scope in AcquiredLocks(t, locks, id, worker, now) && AcquiredLocks(t, locks, id, worker, now)[scope] == locks[scope]
  {
    hide PassesTaskFence, PassesVoidFence;
  }

  /** Releasing records the outcome on the card of the lock, for the worker that holds it, and ends that worker's integration. */
  lemma MergeReleaseLeaves(t: Tables, locks: MergeLocks, id: TaskId, worker: WorkerId, claimed: Option<ExecutionId>, merged: bool)
    ensures MergeRelease(t, locks, id, worker, claimed, merged).Committed? <==>
      && MayTouch(t, id, claimed) && NotRecalled(t, claimed)
      && ScopeOf(t.tasks[id]) in locks && locks[ScopeOf(t.tasks[id])].task == id && locks[ScopeOf(t.tasks[id])].worker == worker
    ensures MergeRelease(t, locks, id, worker, claimed, merged).Committed? ==>
      var n := MergeRelease(t, locks, id, worker, claimed, merged).tables;
      && n == t.(executions := n.executions, tasks := n.tasks)
      && n.tasks == t.tasks[id := t.tasks[id].(integration := if merged then Merged else Conflict, needsHuman := !merged)]
      && n.executions == if claimed.Some? && Live(t, claimed.value) && t.executions[claimed.value].task == id
                            && t.executions[claimed.value].worker == worker
                         then t.executions[claimed.value := t.executions[claimed.value].(phase := Finishing)]
                         else t.executions
  {
    if id in t.tasks {
      FencesIff(t, id, claimed);
    }
    hide PassesTaskFence, PassesVoidFence, MayTouch, NotRecalled;
  }

  // ---- publishing a role card -------------------------------------------------------------------------

  /** Publishing a card opens it for its role and closes every other card of the desk. */
  lemma ActivateLeaves(t: Tables, id: TaskId, ref: WorkplaceRef, role: Role)
    ensures ActivateRoleTask(t, id, ref, role).Ok? <==> id in t.tasks
    ensures id in t.tasks ==>
      var n := ActivateRoleTask(t, id, ref, role).value;
      && n == t.(tasks := n.tasks) && n.tasks.Keys == t.tasks.Keys
      && (forall k <- t.tasks ::
            n.tasks[k] ==
              if k == id then t.tasks[k].(workplace := Some(ref), derived := Some(ref), assignedTo := None, current := None,
                                          status := match role case Author => TaskTodo case Reviewer => TaskReview)
              else if t.tasks[k].workplace == Some(ref) then t.tasks[k].(status := TaskDone, assignedTo := None, current := None)
              else t.tasks[k])
  {
  }

  // ---- editing a card -----------------------------------------------------------------------------------

  /** The edited column, or what it was. */
  predicate Set<T(==)>(edit: Option<T>, was: T, now: T) {
    match edit
    case Some(v) => now == v
    case None => now == was
  }

  predicate Waiting(status: TaskStatus) {
    status.TaskTodo? || status.TaskReview? || status.TaskDone? || status.TaskBlocked?
  }

  /**
   * An edit is refused exactly when it would reassign a fenced card without the
   * operator's switch; the status moves only for the operator or a recovery
   * agent, yet naming a waiting status takes the assignee away in any case.
   */
  lemma EditLeaves(t: Tables, id: TaskId, edit: CardEdit)
    ensures EditCard(t, id, edit).Err? <==>
      id !in t.tasks || (edit.assignee.Some? && t.tasks[id].current.Some? && !edit.manual)
    ensures EditCard(t, id, edit).Ok? ==>
      var n := EditCard(t, id, edit).value;
      && n == t.(tasks := n.tasks) && id in n.tasks && n.tasks == t.tasks[id := n.tasks[id]]
      && var was, now := t.tasks[id], n.tasks[id];
         && now.current == was.current && now.workplace == was.workplace && now.derived == was.derived
         && now.integration == was.integration && now.requests == was.requests && now.retryBudget == was.retryBudget
         && now.processRun == was.processRun && now.project == was.project
         && (if edit.manual || edit.recovery then Set(edit.status, was.status, now.status) else now.status == was.status)
         && (if edit.status.Some? && Waiting(edit.status.value) then now.assignedTo.None?
             else Set(edit.assignee, was.assignedTo, now.assignedTo))
         && Set(edit.needsHuman, was.needsHuman, now.needsHuman) && Set(edit.reviewSkill, was.reviewSkill, now.reviewSkill)
         && Set(edit.gitChange, was.gitChange, now.gitChange) && Set(edit.repository, was.repository, now.repository)
  {
  }
}
