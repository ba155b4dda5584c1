/** Writes under a voided execution's name: which tools can still make one after the fence, and exactly when. */
module LateWrites {
  import opened Results
  import opened FactoryTables
  import opened WorkAssignment
  import opened SoftStop
  import opened Invariants
  import opened StopProtocol
  import opened Protocol
  import opened ProtocolSafety

  /** The rows written under the execution's name. */
  function MaterialBy(w: World, e: ExecutionId): set<Material> {
    set m | m in w.material && m.author == Some(e)
  }

  // ---- evidence whose check came first -----------------------------------------------------

  predicate Working(status: TaskStatus) { status.TaskInProgress? || status.TaskReviewInProgress? }

  /** The checks of verification_record pass under a voided execution's name exactly on an unfenced card of the recorder. */
  lemma VoidEvidenceIff(t: Tables, id: TaskId, worker: WorkerId, e: ExecutionId)
    requires Inv(t) && Void(t, e)
    ensures EvidenceAllowed(t, id, worker, Some(e)) <==> AssignedUnfenced(t, id, worker) && Working(t.tasks[id].status)
  {
    VoidIsDead(t, e);
    hide Inv;
  }

  /** A call of the execution that passed its checks and has not inserted its row yet. */
  predicate HasFreshRecording(w: World, e: ExecutionId) {
    exists d <- w.recordings :: IsFresh(w, d, e)
  }

  predicate IsFresh(w: World, d: nat, e: ExecutionId)
    requires d in w.recordings
  {
    w.recordings[d].Passed? && w.recordings[d].row.author == Some(e) && w.recordings[d].row !in w.material
  }

  /** The step asks to record under the execution's name on an unfenced card of the recorder. */
  predicate RecordsUnfenced(t: Tables, step: Step, e: ExecutionId) {
    step.BeginRecord? && step.claimed == Some(e) && AssignedUnfenced(t, step.task, step.worker) && Working(t.tasks[step.task].status)
  }

  predicate NeverRecordsUnfenced(w: World, steps: seq<Step>, e: ExecutionId)
    decreases |steps|
  {
    steps == [] || (!RecordsUnfenced(w.db, steps[0], e) && NeverRecordsUnfenced(Next(w, steps[0]), steps[1..], e))
  }

  /** One step: no new material, and no new call on its way to writing any. */
  lemma NextMaterial(w: World, step: Step, e: ExecutionId)
    requires WorldInv(w) && Void(w.db, e) && !HasFreshRecording(w, e) && !RecordsUnfenced(w.db, step, e)
    ensures MaterialBy(Next(w, step), e) == MaterialBy(w, e) && !HasFreshRecording(Next(w, step), e)
  {
    if step.ToolProduce? && step.claimed == Some(e) {
      VoidIsRefused(w, step, e);
    }
    NextRows(w, step);
    VoidIsDead(w.db, e) by { assert Inv(w.db); }
    var n := Next(w, step);
    if step.ToolProduce? && n.material != w.material {
      Unnamed(w, n, Material(step.product, step.claimed), e) by { hide Next, HasFreshRecording, Reply; }
    } else if step.EndRecord? && n != w {
      NoFresh(w, step.recorder, e);
      Unnamed(w, n, w.recordings[step.recorder].row, e) by { hide Next, HasFreshRecording; }
    } else {
      forall d <- n.recordings | n.recordings[d].Passed? && n.recordings[d].row.author == Some(e)
        ensures d in w.recordings && n.recordings[d] == w.recordings[d]
      {
        NextPasses(w, step, d);
      }
      Unchanged(w, n, e) by { hide Next, HasFreshRecording; }
    }
    hide *;
  }

  /** Which steps write rows. */
  lemma NextRows(w: World, step: Step)
    ensures
      var n := Next(w, step);
      if step.ToolProduce? then
        n.recordings == w.recordings
        && n.material == if Commits(w, step) then w.material + {Material(step.product, step.claimed)} else w.material
      else if step.EndRecord? && n != w then
        && step.recorder in w.recordings && (n.material != w.material ==> w.recordings[step.recorder].Passed?)
        && n.recordings == w.recordings - {step.recorder}
        && w.material <= n.material <= w.material + {w.recordings[step.recorder].row}
      else n.material == w.material
  {
    hide Transact, DriveOne, Recallable, Joins, Pending, Reply, CardAllows, ActiveFor;
  }

  /** Which steps let a call pass its checks: the reading of an unfenced card, or of the card's execution, still active. */
  lemma NextPasses(w: World, step: Step, d: nat)
    requires d in Next(w, step).recordings && Next(w, step).recordings[d].Passed?
    ensures
      || (d in w.recordings && Next(w, step).recordings[d] == w.recordings[d])
      || (step.BeginRecord? && Next(w, step).recordings[d].row.author == step.claimed
          && AssignedUnfenced(w.db, step.task, step.worker) && Working(w.db.tasks[step.task].status))
      || (step.CheckRecord? && Next(w, step).recordings[d].row.author.Some? && Live(w.db, Next(w, step).recordings[d].row.author.value))
  {
    hide Transact, DriveOne, Recallable, Joins, Pending, Reply;
  }

  lemma NoFresh(w: World, d: nat, e: ExecutionId)
    requires !HasFreshRecording(w, e) && d in w.recordings
    ensures w.recordings[d].Passed? && w.recordings[d].row.author == Some(e) ==> w.recordings[d].row in w.material
  {
    assert !IsFresh(w, d, e);
  }

  /** Adding a row that is not new under the name, and at most dropping calls. */
  lemma Unnamed(w: World, n: World, row: Material, e: ExecutionId)
    requires !HasFreshRecording(w, e) && (row.author == Some(e) && n.material != w.material ==> row in w.material)
    requires w.material <= n.material <= w.material + {row}
    requires forall d <- n.recordings :: d in w.recordings && n.recordings[d] == w.recordings[d]
    ensures MaterialBy(n, e) == MaterialBy(w, e) && !HasFreshRecording(n, e)
  {
    forall d <- n.recordings ensures !IsFresh(n, d, e) { assert !IsFresh(w, d, e); }
  }

  /** The same rows, and no further call under the name past its checks. */
  lemma Unchanged(w: World, n: World, e: ExecutionId)
    requires !HasFreshRecording(w, e) && n.material == w.material
    requires forall d <- n.recordings | n.recordings[d].Passed? && n.recordings[d].row.author == Some(e) ::
      d in w.recordings && n.recordings[d] == w.recordings[d]
    ensures MaterialBy(n, e) == MaterialBy(w, e) && !HasFreshRecording(n, e)
  {
    forall d <- n.recordings ensures !IsFresh(n, d, e) {
      if d in w.recordings { assert !IsFresh(w, d, e); }
    }
  }

  lemma {:induction false} RunMaterial(w: World, steps: seq<Step>, e: ExecutionId)
    requires WorldInv(w) && Void(w.db, e) && !HasFreshRecording(w, e) && NeverRecordsUnfenced(w, steps, e)
    ensures MaterialBy(Run(w, steps), e) == MaterialBy(w, e)
    decreases |steps|
  {
    hide Next, WorldInv, Void, MaterialBy, HasFreshRecording, RecordsUnfenced;
    if steps != [] {
      NextKeeps(w, steps[0]);
      VoidIsFrozen(w, Next(w, steps[0]), e);
      NextMaterial(w, steps[0], e);
      RunMaterial(Next(w, steps[0]), steps[1..], e);
    }
  }

  /**
   * After its void, an execution's material can still grow in some run that
   * records nothing under its name on an unfenced card exactly when a
   * verification_record call of its passed the checks before and has yet to
   * insert its row.
   */
  lemma LateMaterialIff(w: World, e: ExecutionId)
    requires WorldInv(w) && Void(w.db, e)
    ensures (exists steps: seq<Step> :: NeverRecordsUnfenced(w, steps, e) && MaterialBy(Run(w, steps), e) != MaterialBy(w, e))
            <==> HasFreshRecording(w, e)
  {
    if HasFreshRecording(w, e) {
      var d :| d in w.recordings && IsFresh(w, d, e);
      LateInsert(w, d, e);
    } else {
      forall steps: seq<Step> | NeverRecordsUnfenced(w, steps, e) ensures MaterialBy(Run(w, steps), e) == MaterialBy(w, e) {
        RunMaterial(w, steps, e);
      }
    }
    hide WorldInv, MaterialBy, HasFreshRecording, Run, NeverRecordsUnfenced;
  }

  lemma LateInsert(w: World, d: nat, e: ExecutionId)
    requires d in w.recordings && IsFresh(w, d, e)
    ensures exists steps: seq<Step> :: NeverRecordsUnfenced(w, steps, e) && MaterialBy(Run(w, steps), e) != MaterialBy(w, e)
  {
    var step := EndRecord(d, true);
    var n := Next(w, step);
    assert w.recordings[d].row in MaterialBy(n, e) && w.recordings[d].row !in MaterialBy(w, e);
    hide Next, MaterialBy;
    assert [step][1..] == [];
    assert Run(n, []) == n && NeverRecordsUnfenced(n, [], e);
    assert NeverRecordsUnfenced(w, [step], e) && Run(w, [step]) == n;
  }
}
