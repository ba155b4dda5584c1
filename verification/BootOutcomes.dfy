/** What adoption, burial and the boot sweep make of each row, from the rows they start from. */
module BootOutcomes {
  import opened Results
  import opened Workplaces
  import opened FactoryTables
  import opened ConveyorRuntimes
  import opened Supervision
  import opened RunReferences
  import opened LifecycleBurial
  import opened BootRevision
  import opened UnparkOutcomes
  import Adoption = EngineStartAdoption

  // ---- adoption ------------------------------------------------------------------------------

  predicate Bound(t: Tables, ref: WorkplaceRef) {
    exists id <- t.tasks :: t.tasks[id].workplace == Some(ref)
  }

  predicate HeldBy(row: WorkplaceRow, e: ExecutionId) {
    row.reservation == Some(e)
  }

  /** Its holder is over, was never suspected nor recalled, and the workplace waits for the kernel. */
  predicate LeftToKernel(row: WorkplaceRow, holder: Execution) {
    && (row.state.loop.Verifying? || row.state.loop.EffectPending?)
    && holder.state in {ExecExited, ExecTerminated, ExecLost}
    && holder.stuck.Some? && holder.stuck.value.StuckActive? && !holder.voided
  }

  /** Its holder never got a process. */
  predicate NeverStaffed(row: WorkplaceRow, holder: Execution) {
    && (row.state.loop.Leased? || row.state.loop.Running?)
    && holder.state == ExecSpawnFailed && holder.pid == None && holder.started == false
  }

  /** What engine-start adoption makes of one workplace. */
  function AdoptedRow(t: Tables, ref: WorkplaceRef, cause: nat): WorkplaceRow
    requires ref in t.workplaces
  {
    var was := t.workplaces[ref];
    if !(was.reservation.Some? && was.reservation.value in t.executions && Bound(t, ref)) then was
    else
      var e := was.reservation.value;
      var holder := t.executions[e];
      if NeverStaffed(was, holder) && was.state.loop.Leased? then DeskAt(was, Blocked, Paused, was.state.role, None).(recoveryCase := Some(cause))
      else if NeverStaffed(was, holder) || (LeftToKernel(was, holder) && was.state.loop.Verifying? && e !in t.receipts)
      then DeskAt(was, was.state.kanban, RepairWait, was.state.role, None)
      else was
  }

  lemma MendedIs(t: Tables, ref: WorkplaceRef, cause: nat)
    requires ref in t.workplaces && Valid(t.workplaces[ref].state)
    ensures Adoption.Mended(t, ref, cause) == AdoptedRow(t, ref, cause)
  {
    BoundIff(t, ref);
    ValidIsShape(t.workplaces[ref].state);
    hide Bound, Adoption.HasCard, Valid;
  }

  lemma BoundIff(t: Tables, ref: WorkplaceRef)
    ensures Adoption.HasCard(t, ref) <==> Bound(t, ref)
  {
    if Bound(t, ref) {
      var id :| id in t.tasks && t.tasks[id].workplace == Some(ref);
      assert Adoption.BoundTo(t, id, ref);
    }
    if Adoption.HasCard(t, ref) {
      var id :| id in t.tasks && Adoption.BoundTo(t, id, ref);
    }
  }

  /** Adoption leaves each workplace as its own starting row, holder and receipt say; of the cards it writes the status at most. */
  lemma AdoptionLeaves(t: Tables, kernel: seq<Adoption.HeldRow>, residue: seq<Adoption.HeldRow>, cause: nat)
    requires WorkplacesValid(t.workplaces) && Adoption.Passes(t, kernel, residue, cause)
    ensures
      var n := Adoption.Adopt(t, kernel, residue, cause);
      && n == t.(workplaces := n.workplaces, tasks := n.tasks)
      && n.workplaces.Keys == t.workplaces.Keys
      && (forall ref <- t.workplaces :: n.workplaces[ref] == AdoptedRow(t, ref, cause))
      && n.tasks.Keys == t.tasks.Keys && (forall id <- t.tasks :: n.tasks[id] == t.tasks[id].(status := n.tasks[id].status))
  {
    Adoption.AdoptionEffect(t, kernel, residue, cause);
    forall ref <- t.workplaces ensures Adoption.Mended(t, ref, cause) == AdoptedRow(t, ref, cause) {
      assert Valid(t.workplaces[ref].state);
      MendedIs(t, ref, cause);
    }
    hide Adoption.Mended, Adoption.Adopt, Adoption.Passes, AdoptedRow, WorkplacesValid;
  }

  // ---- burial ----------------------------------------------------------------------------------

  /** Some reference of the obligation names a dead run. */
  predicate NamesDead(o: Obligation, dead: map<nat, nat>) {
    exists pid <- dead :: SubjectNames(o.subject, pid) || SourceNames(o.source, pid)
  }

  predicate OnDeadDesk(t: Tables, task: Task, dead: map<nat, nat>) {
    exists ref <- t.workplaces :: task.workplace == Some(ref) && t.workplaces[ref].processRun in dead
  }

  /** An unsettled obligation that names a dead run fails and loses its lease. */
  function BuriedObligation(o: Obligation, dead: map<nat, nat>): Obligation {
    if NamesDead(o, dead) && !o.state.ObligationCompleted? && !o.state.ObligationFailed?
    then Obligation(o.subject, o.source, ObligationFailed, false, o.leaseFence + 1) else o
  }

  /** A workplace of a dead run that had not ended fails. */
  function BuriedDesk(row: WorkplaceRow, dead: map<nat, nat>): WorkplaceRow {
    if row.processRun in dead && !row.state.loop.Terminal?
    then row.(state := WorkplaceState(FailedPhase, Terminal, row.state.role, row.state.revision + 1, Some(Failed)), reservation := None)
    else row
  }

  /** A card on a dead run's workplace is cancelled unless it was done, failed or cancelled already. */
  function BuriedCard(t: Tables, task: Task, dead: map<nat, nat>): Task {
    if OnDeadDesk(t, task, dead) && task.status in {TaskTodo, TaskInProgress, TaskReview, TaskReviewInProgress, TaskBlocked}
    then task.(status := TaskCancelled) else task
  }

  lemma BurialLeaves(t: Tables, dead: map<nat, nat>)
    ensures
      var n := Bury(t, dead);
      && n == t.(obligations := n.obligations, workplaces := n.workplaces, tasks := n.tasks)
      && n.obligations == (map k <- t.obligations :: BuriedObligation(t.obligations[k], dead))
      && n.workplaces == (map ref <- t.workplaces :: BuriedDesk(t.workplaces[ref], dead))
      && n.tasks == (map id <- t.tasks :: BuriedCard(t, t.tasks[id], dead))
  {
    BurialIsolates(t, dead);
    ObligationsBuried(t, dead);
    DesksBuried(t, dead);
    CardsBuried(t, dead);
    hide Bury, BuriedObligation, BuriedDesk, BuriedCard, DeadCard, Matches;
  }

  lemma ObligationsBuried(t: Tables, dead: map<nat, nat>)
    ensures Bury(t, dead).obligations == (map k <- t.obligations :: BuriedObligation(t.obligations[k], dead))
  {
    forall k <- t.obligations ensures Bury(t, dead).obligations[k] == BuriedObligation(t.obligations[k], dead) {
      CondemnedIff(t.obligations[k], dead);
      hide Condemned, NamesDead;
    }
  }

  lemma DesksBuried(t: Tables, dead: map<nat, nat>)
    ensures Bury(t, dead).workplaces == (map ref <- t.workplaces :: BuriedDesk(t.workplaces[ref], dead))
  {
    hide Condemned, Phantom;
  }

  lemma CardsBuried(t: Tables, dead: map<nat, nat>)
    ensures Bury(t, dead).tasks == (map id <- t.tasks :: BuriedCard(t, t.tasks[id], dead))
  {
    forall id <- t.tasks ensures Bury(t, dead).tasks[id] == BuriedCard(t, t.tasks[id], dead) {
      DeadCardIff(t, id, dead);
      hide DeadCard, OnDeadDesk, Condemned;
    }
  }

  lemma CondemnedIff(o: Obligation, dead: map<nat, nat>)
    ensures Condemned(o, dead) <==> NamesDead(o, dead) && !o.state.ObligationCompleted? && !o.state.ObligationFailed?
  {
    hide SubjectNames, SourceNames;
    if NamesDead(o, dead) {
      var pid :| pid in dead && (SubjectNames(o.subject, pid) || SourceNames(o.source, pid));
      assert Matches(o, pid);
    }
    if exists pid <- dead :: Matches(o, pid) {
      var pid :| pid in dead && Matches(o, pid);
      assert SubjectNames(o.subject, pid) || SourceNames(o.source, pid);
    }
  }

  lemma DeadCardIff(t: Tables, id: TaskId, dead: map<nat, nat>)
    requires id in t.tasks
    ensures DeadCard(t, id, dead) <==> OnDeadDesk(t, t.tasks[id], dead)
  {
  }

  // ---- the boot sweep ------------------------------------------------------------------------------

  /** The desk a swept worker leaves to repair: still running under it, its completion not accepted, its card known. */
  predicate Abandons(t: Tables, result: SweepResult, bound: map<ExecutionId, Binding>) {
    var e := result.execution;
    && (result.action == LostRow || result.action == TerminatedRow)
    && e in bound && e !in t.receipts && bound[e].task.Some? && bound[e].ref in t.workplaces
    && HeldBy(t.workplaces[bound[e].ref], e) && t.workplaces[bound[e].ref].state.loop.Running?
  }

  /** Exactly such a desk goes to repair, its phase kept and shown on its card; nothing else is written. */
  lemma SweptDeskLeaves(t: Tables, result: SweepResult, bound: map<ExecutionId, Binding>)
    requires WorkplacesValid(t.workplaces)
    ensures
      var n := ReleaseSwept(t, result, bound);
      if !Abandons(t, result, bound) then n == t
      else
        var b := bound[result.execution];
        var was := t.workplaces[b.ref];
        && n == t.(workplaces := n.workplaces, tasks := n.tasks)
        && n.workplaces == t.workplaces[b.ref := DeskAt(was, was.state.kanban, RepairWait, was.state.role, None)]
        && Projected(t, n, b.task.value, was.state.kanban)
  {
    var e := result.execution;
    if e in bound && bound[e].task.Some? {
      UseCaseIff(t, bound[e].ref, bound[e].task.value, ReleaseShift(e, Crashed));
    }
    hide UseCase, WorkplacesValid, Projected;
  }

  /** The bindings a sweep works with: each execution that hires a workplace of the project, with one of its cards. */
  lemma BindingsIff(t: Tables, project: nat, bound: map<ExecutionId, Binding>, e: ExecutionId)
    requires Bindings(t, project, bound)
    ensures e in bound <==> exists ref <- t.workplaces :: HiresFor(t, project, ref, e)
    ensures e in bound ==>
      && HiresFor(t, project, bound[e].ref, e)
      && (bound[e].task.None? <==> !Bound(t, bound[e].ref))
      && (bound[e].task.Some? ==> bound[e].task.value in t.tasks && t.tasks[bound[e].task.value].workplace == Some(bound[e].ref))
  {
    if e in bound {
      assert BindingOk(t, project, e, bound[e]);
      InProjectIff(t, bound[e].ref, project);
      BoundIff(t, bound[e].ref);
      if bound[e].task.Some? {
        assert Adoption.BoundTo(t, bound[e].task.value, bound[e].ref);
      }
    }
    if ref :| ref in t.workplaces && HiresFor(t, project, ref, e) {
      InProjectIff(t, ref, project);
    }
  }

  predicate HiresFor(t: Tables, project: nat, ref: WorkplaceRef, e: ExecutionId) {
    && ref in t.workplaces && OfTheProject(t, ref, project) && HeldBy(t.workplaces[ref], e)
    && (t.workplaces[ref].state.loop.Leased? || t.workplaces[ref].state.loop.Running?)
  }
}
