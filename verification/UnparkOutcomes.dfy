/** Which holds and which parked desks the two unpark verbs let go, and which executions a stop plans for. */
module UnparkOutcomes {
  import opened Results
  import opened Workplaces
  import opened FactoryTables
  import opened SoftStop
  import opened StopProtocol

  /** The workplace belongs to a process run of the project. */
  predicate OfTheProject(t: Tables, ref: WorkplaceRef, project: nat) {
    exists run <- t.runs :: t.runs[run] == project && ref in t.workplaces && t.workplaces[ref].processRun == run
  }

  /** What an operator names: one hold, the holds of one workplace, or those of a project and of its workplaces. */
  predicate Named(t: Tables, scope: HoldScope, h: HoldRef, subject: Subject) {
    match scope
    case ByHold(hold) => hold == h
    case ByWorkplace(ref) => subject == OnWorkplace(ref)
    case ByProject(project) => match subject
      case OnProject(p) => p == project
      case OnWorkplace(ref) => OfTheProject(t, ref, project)
      case OnExecution(_) => false
  }

  /** Every named hold ends released, the others stay as they are; reported are the ones that were still active. */
  lemma ReleasedHolds(t: Tables, scope: HoldScope, h: HoldRef)
    requires h in t.holds
    ensures h in HoldsToRelease(t, scope) <==> !t.holds[h].released && Named(t, scope, h, t.holds[h].subject)
    ensures
      var n := ReleaseHolds(t, scope);
      && n == t.(holds := n.holds) && n.holds.Keys == t.holds.Keys && n.holds[h].subject == t.holds[h].subject
      && (n.holds[h].released <==> t.holds[h].released || Named(t, scope, h, t.holds[h].subject))
  {
    hide Covers, Named;
    CoversIff(t, scope, h);
  }

  lemma CoversIff(t: Tables, scope: HoldScope, h: HoldRef)
    requires h in t.holds
    ensures Covers(t, scope, h) <==> Named(t, scope, h, t.holds[h].subject)
  {
    if t.holds[h].subject.OnWorkplace? && scope.ByProject? {
      InProjectIff(t, t.holds[h].subject.ref, scope.project);
    }
    hide InProject, OfTheProject;
  }

  lemma InProjectIff(t: Tables, ref: WorkplaceRef, project: nat)
    ensures InProject(t, ref, project) <==> OfTheProject(t, ref, project)
  {
  }

  /** The parked desks of a workplace or of a project; a hold names no desk. */
  predicate UnparkedBy(t: Tables, scope: HoldScope, ref: WorkplaceRef) {
    && ref in t.workplaces && t.workplaces[ref].state.kanban.Blocked? && t.workplaces[ref].state.loop.Paused?
    && match scope
       case ByHold(_) => false
       case ByWorkplace(r) => r == ref
       case ByProject(project) => OfTheProject(t, ref, project)
  }

  /** Exactly these desks are queued again for the role they were parked with; nothing else is written. */
  lemma UnparkLeaves(t: Tables, scope: HoldScope)
    ensures
      var n := Unpark(t, scope);
      && n == t.(workplaces := n.workplaces) && n.workplaces.Keys == t.workplaces.Keys
      && (forall ref <- t.workplaces ::
            var was, now := t.workplaces[ref], n.workplaces[ref];
            if UnparkedBy(t, scope, ref)
            then now == was.(state := WorkplaceState(WorkPhase(was.state.role), Queued, was.state.role, was.state.revision + 1, was.state.reason))
            else now == was)
  {
    forall ref <- t.workplaces ensures Parked(t, scope, ref) <==> UnparkedBy(t, scope, ref) {
      if scope.ByProject? {
        InProjectIff(t, ref, scope.project);
      }
      hide InProject, OfTheProject;
    }
    hide Parked, UnparkedBy;
  }

  /** Still able to write and not yet recalled, in the project when the stop names one. */
  predicate ToRecall(row: Execution, scope: Option<nat>) {
    && row.state in {ExecReserved, ExecRunning, ExecCancelRequested} && !row.voided
    && (scope == None || scope == Some(row.project))
  }

  /** The execution reserves no workplace. */
  predicate Homeless(t: Tables, e: ExecutionId) {
    forall ref <- t.workplaces :: t.workplaces[ref].reservation != Some(e)
  }

  /** A stop's plan: each execution to recall with each workplace it reserves, or once without one. */
  lemma PlanIff(t: Tables, scope: Option<nat>, p: PlannedStop)
    ensures p in PlanSet(t, scope) <==>
      && p.execution in t.executions && ToRecall(t.executions[p.execution], scope) && p.project == t.executions[p.execution].project
      && match p.ref
         case None => !p.kernelOwned && Homeless(t, p.execution)
         case Some(ref) =>
           && ref in t.workplaces && t.workplaces[ref].reservation == Some(p.execution)
           && (p.kernelOwned <==> t.workplaces[ref].state.loop.Verifying? || t.workplaces[ref].state.loop.EffectPending?)
  {
    if p.execution in t.executions {
      var e := p.execution;
      assert Recallable(t, e, scope) <==> ToRecall(t.executions[e], scope);
      assert Joins(t, e, None) <==> Homeless(t, e);
      if Recallable(t, e, scope) && p.ref.Some? && Joins(t, e, p.ref) {
        assert ToPlan(t, e, Some(p.ref.value)) in PlanSet(t, scope);
      }
      if Recallable(t, e, scope) && Joins(t, e, None) {
        assert ToPlan(t, e, None) in PlanSet(t, scope);
      }
    }
  }

  /** A checkpoint marks the rows of the stops that finished. */
  lemma CheckpointLeaves(t: Tables, finished: seq<ExecutionId>)
    ensures
      var n := Checkpoint(t, finished);
      && n == t.(stops := n.stops) && n.stops.Keys == t.stops.Keys
      && (forall e <- t.stops ::
            && n.stops[e].phase == (if e in finished then Checkpointed else t.stops[e].phase)
            && n.stops[e].workplace == t.stops[e].workplace && n.stops[e].project == t.stops[e].project)
  {
  }
}
