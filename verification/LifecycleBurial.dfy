/** Engine-start burial of dead lifecycles: their obligations, workplaces and cards are closed. */
module LifecycleBurial {
  import opened Results
  import opened Workplaces
  import opened FactoryTables
  import opened Invariants
  import opened RunReferences

  predicate Matches(o: Obligation, pid: nat) {
    SubjectNames(o.subject, pid) || SourceNames(o.source, pid)
  }

  // ---- the burial -------------------------------------------------------------------------

  /** The gate obligation of a sealed set answers for its own run alone exactly when its key holds no other run's directory. */
  lemma GateObligationMatchesOneRunIff(o: Obligation, desk: Desk, revision: string, role: string, subject: Option<string>)
    requires o.subject == DeskRef(desk) && o.source == SealKey(desk, revision, role, subject)
    ensures (forall n: nat :: Matches(o, n) <==> n == desk.pid)
            <==> (forall n: nat :: Marked(KeyTail(desk, revision, role, subject), n) ==> n == desk.pid)
  {
    forall n: nat ensures Matches(o, n) <==> n == desk.pid || Marked(KeyTail(desk, revision, role, subject), n) {
      DeskNamesItsRun(desk, n);
      KeyNames(desk.pid, KeyTail(desk, revision, role, subject), n);
    }
    hide Matches, SubjectNames, SourceNames, Marked, SealKey, KeyTail;
  }

  predicate OpenObligation(o: Obligation) {
    o.state.ObligationPending? || o.state.ObligationInProgress?
  }

  predicate OpenStatus(status: TaskStatus) {
    !status.TaskDone? && !status.TaskFailed? && !status.TaskCancelled?
  }

  /** `ledger.abandon`: open to failed, the lease cleared and its fence bumped. */
  function Abandoned(o: Obligation): Obligation {
    o.(state := ObligationFailed, leased := false, leaseFence := o.leaseFence + 1)
  }

  function Buried(row: WorkplaceRow): WorkplaceRow {
    row.(state := row.state.(kanban := FailedPhase, loop := Terminal, reason := Some(Failed), revision := row.state.revision + 1),
         reservation := None)
  }

  predicate Condemned(o: Obligation, dead: map<nat, nat>) {
    OpenObligation(o) && exists pid <- dead :: Matches(o, pid)
  }

  predicate Orphan(row: WorkplaceRow, dead: map<nat, nat>) {
    row.processRun in dead && row.state.loop != Terminal
  }

  predicate DeadCard(t: Tables, id: TaskId, dead: map<nat, nat>) {
    && id in t.tasks && t.tasks[id].workplace.Some? && t.tasks[id].workplace.value in t.workplaces
    && t.workplaces[t.tasks[id].workplace.value].processRun in dead
  }

  predicate Phantom(t: Tables, id: TaskId, dead: map<nat, nat>) {
    DeadCard(t, id, dead) && OpenStatus(t.tasks[id].status)
  }

  /** The burial of the process runs in `dead`, each mapped to its failed lifecycle run. */
  function Bury(t: Tables, dead: map<nat, nat>): Tables {
    t.(obligations := map k <- t.obligations :: if Condemned(t.obligations[k], dead) then Abandoned(t.obligations[k]) else t.obligations[k],
       workplaces := map ref <- t.workplaces :: if Orphan(t.workplaces[ref], dead) then Buried(t.workplaces[ref]) else t.workplaces[ref],
       tasks := map id <- t.tasks :: if Phantom(t, id, dead) then t.tasks[id].(status := TaskCancelled) else t.tasks[id])
  }

  /** Nothing a dead run owned is left open. */
  lemma BurialCloses(t: Tables, dead: map<nat, nat>)
    ensures
      var n := Bury(t, dead);
      && (forall k <- n.obligations :: !Condemned(n.obligations[k], dead))
      && (forall ref <- n.workplaces :: n.workplaces[ref].processRun in dead ==> n.workplaces[ref].state.loop == Terminal)
      && (forall id <- n.tasks :: !Phantom(n, id, dead))
  {
  }

  /** Whatever no dead run names keeps its value, and the tables of the stop protocol are not written at all. */
  lemma BurialIsolates(t: Tables, dead: map<nat, nat>)
    ensures
      var n := Bury(t, dead);
      && n.obligations.Keys == t.obligations.Keys && n.workplaces.Keys == t.workplaces.Keys && n.tasks.Keys == t.tasks.Keys
      && (forall k <- t.obligations :: (forall pid <- dead :: !Matches(t.obligations[k], pid)) ==> n.obligations[k] == t.obligations[k])
      && (forall ref <- t.workplaces :: t.workplaces[ref].processRun !in dead ==> n.workplaces[ref] == t.workplaces[ref])
      && (forall id <- t.tasks :: !DeadCard(t, id, dead) ==> n.tasks[id] == t.tasks[id])
      && n == t.(obligations := n.obligations, workplaces := n.workplaces, tasks := n.tasks)
  {
  }

  lemma BurialIsIdempotent(t: Tables, dead: map<nat, nat>)
    ensures Bury(Bury(t, dead), dead) == Bury(t, dead)
  {
    hide Matches;
    var n := Bury(t, dead);
    BurialCloses(t, dead);
    var again := Bury(n, dead);
    assert again.obligations == n.obligations;
    assert again.workplaces == n.workplaces;
    assert again.tasks == n.tasks;
  }

  lemma BuryKeeps(t: Tables, dead: map<nat, nat>)
    requires Inv(t)
    ensures Inv(Bury(t, dead)) && Grows(t, Bury(t, dead))
  {
    BuriedWorkplaces(t, dead);
    BuriedCards(t, dead);
    hide Condemned, Bury, WorkplacesValid, CardsOk, ExecutionsOk, OneActive, StopsOk, HoldsOk, WorkplacesGrow, CardsStay;
    BurialIsolates(t, dead);
  }

  lemma BuriedWorkplaces(t: Tables, dead: map<nat, nat>)
    requires WorkplacesValid(t.workplaces)
    ensures WorkplacesValid(Bury(t, dead).workplaces) && WorkplacesGrow(t.workplaces, Bury(t, dead).workplaces)
  {
  }

  lemma BuriedCards(t: Tables, dead: map<nat, nat>)
    requires CardsOk(t.tasks, t.executions)
    ensures CardsOk(Bury(t, dead).tasks, t.executions) && CardsStay(t.tasks, Bury(t, dead).tasks)
  {
  }

  // ---- the imperative pass -------------------------------------------------------------------

  method Abandon(db: FactoryDb, key: nat) returns (abandoned: bool)
    modifies db
    ensures abandoned <==> key in old(db.obligations) && OpenObligation(old(db.obligations)[key])
    ensures db.Rows() == if abandoned then old(db.Rows()).(obligations := old(db.obligations)[key := Abandoned(old(db.obligations)[key])])
                         else old(db.Rows())
  {
    abandoned := key in db.obligations && OpenObligation(db.obligations[key]);
    if abandoned {
      db.obligations := db.obligations[key := Abandoned(db.obligations[key])];
    }
  }

  /** The join of open obligations with every dead run some reference of theirs names. */
  function OpenJoin(t: Tables, dead: map<nat, nat>): set<(nat, nat)> {
    set k, pid | k in t.obligations && pid in dead && OpenObligation(t.obligations[k]) && Matches(t.obligations[k], pid) :: (k, pid)
  }

  datatype Burial = Burial(obligation: nat, lifecycle: nat, prior: ObligationState)

  datatype Cancellation = Cancellation(prior: TaskStatus, lifecycle: nat)

  /** The reported lifecycle owns a run the obligation names. */
  ghost predicate Attributed(o: Obligation, dead: map<nat, nat>, lifecycle: nat) {
    exists pid <- dead :: Matches(o, pid) && dead[pid] == lifecycle
  }

  ghost predicate JoinedAlready(all: set<(nat, nat)>, todo: set<(nat, nat)>, k: nat) {
    exists pid: nat :: (k, pid) in all && (k, pid) !in todo
  }

  /** Abandons along the join; an obligation several references match is still abandoned and reported once. */
  method AbandonObligations(db: FactoryDb, dead: map<nat, nat>) returns (details: seq<Burial>)
    modifies db
    ensures db.Rows() == old(db.Rows()).(obligations := Bury(old(db.Rows()), dead).obligations)
    ensures Distinct(details)
    ensures forall k <- old(db.obligations) :: Condemned(old(db.obligations)[k], dead) <==> Reports(details, k)
    ensures forall d <- details ::
      && d.obligation in old(db.obligations) && Attributed(old(db.obligations)[d.obligation], dead, d.lifecycle)
      && d.prior == old(db.obligations)[d.obligation].state
  {
    details := [];
    hide Matches, Bury, Condemned, Attributed, JoinedAlready, Reports, Distinct;
    ghost var t := db.Rows();
    NothingJoined(t, OpenJoin(t, dead));
    var all := OpenJoin(db.Rows(), dead);
    var todo := all;
    while todo != {}
      invariant todo <= all
      invariant db.Rows() == t.(obligations := db.obligations) && db.obligations.Keys == t.obligations.Keys
      invariant forall k <- t.obligations ::
        db.obligations[k] == if JoinedAlready(all, todo, k) then Abandoned(t.obligations[k]) else t.obligations[k]
      invariant Distinct(details)
      invariant forall k <- t.obligations :: JoinedAlready(all, todo, k) <==> Reports(details, k)
      invariant forall d <- details ::
        && d.obligation in t.obligations && Attributed(t.obligations[d.obligation], dead, d.lifecycle)
        && d.prior == t.obligations[d.obligation].state
      decreases |todo|
    {
      var row :| row in todo;
      ghost var was := todo;
      var prior := if row.0 in db.obligations then db.obligations[row.0].state else ObligationFailed;
      var abandoned := Abandon(db, row.0);
      JoinStep(t, all, was, row);
      JoinAttributes(t, dead, row);
      if abandoned {
        ReportsAppend(details, Burial(row.0, dead[row.1], prior));
        details := details + [Burial(row.0, dead[row.1], prior)];
      }
      todo := todo - {row};
    }
    JoinComplete(t, dead);
    BuriedObligations(t, dead, db.obligations);
  }

  lemma BuriedObligations(t: Tables, dead: map<nat, nat>, obligations: map<nat, Obligation>)
    requires obligations.Keys == t.obligations.Keys
    requires forall k <- t.obligations ::
      obligations[k] == if Condemned(t.obligations[k], dead) then Abandoned(t.obligations[k]) else t.obligations[k]
    ensures obligations == Bury(t, dead).obligations
  {
  }

  predicate Reports(details: seq<Burial>, k: nat) {
    exists i | 0 <= i < |details| :: details[i].obligation == k
  }

  predicate Distinct(details: seq<Burial>) {
    forall i, j | 0 <= i < j < |details| :: details[i].obligation != details[j].obligation
  }

  lemma ReportsAppend(details: seq<Burial>, d: Burial)
    requires Distinct(details) && !Reports(details, d.obligation)
    ensures Distinct(details + [d])
    ensures forall k :: Reports(details + [d], k) <==> Reports(details, k) || k == d.obligation
  {
    var n := details + [d];
    assert n[|details|] == d;
    forall k | Reports(details, k) ensures Reports(n, k) {
      var i :| 0 <= i < |details| && details[i].obligation == k;
      assert n[i].obligation == k;
    }
  }

  lemma JoinStep(t: Tables, all: set<(nat, nat)>, todo: set<(nat, nat)>, row: (nat, nat))
    requires row in todo && todo <= all
    ensures forall k: nat :: JoinedAlready(all, todo - {row}, k) <==> JoinedAlready(all, todo, k) || k == row.0
  {
    assert (row.0, row.1) in all && (row.0, row.1) !in todo - {row};
    forall k: nat | JoinedAlready(all, todo, k) ensures JoinedAlready(all, todo - {row}, k) {
      var pid :| (k, pid) in all && (k, pid) !in todo;
      assert (k, pid) !in todo - {row};
    }
  }

  lemma NothingJoined(t: Tables, all: set<(nat, nat)>)
    ensures forall k: nat :: !JoinedAlready(all, all, k) && !Reports([], k)
    ensures Distinct([])
  {
  }

  lemma JoinAttributes(t: Tables, dead: map<nat, nat>, row: (nat, nat))
    requires row in OpenJoin(t, dead)
    ensures row.0 in t.obligations && row.1 in dead && OpenObligation(t.obligations[row.0])
    ensures Attributed(t.obligations[row.0], dead, dead[row.1])
  {
  }

  lemma JoinComplete(t: Tables, dead: map<nat, nat>)
    ensures forall k <- t.obligations :: JoinedAlready(OpenJoin(t, dead), {}, k) <==> Condemned(t.obligations[k], dead)
  {
    var all := OpenJoin(t, dead);
    forall k <- t.obligations | Condemned(t.obligations[k], dead) ensures JoinedAlready(all, {}, k) {
      var pid :| pid in dead && Matches(t.obligations[k], pid);
      assert (k, pid) in all;
    }
  }

  function CancellationOf(t: Tables, id: TaskId, dead: map<nat, nat>): Cancellation
    requires Phantom(t, id, dead)
  {
    Cancellation(t.tasks[id].status, dead[t.workplaces[t.tasks[id].workplace.value].processRun])
  }

  method BuryDeadLifecycleObligations(db: FactoryDb, dead: map<nat, nat>)
    returns (details: seq<Burial>, released: map<WorkplaceRef, LoopState>, cancelled: map<TaskId, Cancellation>)
    modifies db
    ensures db.Rows() == Bury(old(db.Rows()), dead)
    ensures Distinct(details)
    ensures forall k <- old(db.obligations) :: Condemned(old(db.obligations)[k], dead) <==> Reports(details, k)
    ensures forall d <- details ::
      && d.obligation in old(db.obligations) && Attributed(old(db.obligations)[d.obligation], dead, d.lifecycle)
      && d.prior == old(db.obligations)[d.obligation].state
    ensures released == map ref | ref in old(db.workplaces) && Orphan(old(db.workplaces)[ref], dead) :: old(db.workplaces)[ref].state.loop
    ensures cancelled == map id | id in old(db.tasks) && Phantom(old(db.Rows()), id, dead) :: CancellationOf(old(db.Rows()), id, dead)
  {
    hide Condemned, Matches, Attributed, OpenStatus;
    ghost var t := db.Rows();
    released := map ref | ref in db.workplaces && Orphan(db.workplaces[ref], dead) :: db.workplaces[ref].state.loop;
    cancelled := map id | id in db.tasks && Phantom(db.Rows(), id, dead) :: CancellationOf(db.Rows(), id, dead);
    details := AbandonObligations(db, dead);
    db.workplaces := map ref <- db.workplaces :: if Orphan(db.workplaces[ref], dead) then Buried(db.workplaces[ref]) else db.workplaces[ref];
    CancelTasks(db, cancelled.Keys);
    assert db.tasks == Bury(t, dead).tasks;
  }

  /** UPDATE ... WHERE status is an open one. */
  function CancelledCard(task: Task): Task {
    if OpenStatus(task.status) then task.(status := TaskCancelled) else task
  }

  method CancelTasks(db: FactoryDb, ids: set<TaskId>)
    modifies db
    ensures db.Rows() == old(db.Rows()).(
      tasks := map id <- old(db.tasks) :: if id in ids then CancelledCard(old(db.tasks)[id]) else old(db.tasks)[id])
  {
    ghost var t := db.Rows();
    var todo := ids;
    while todo != {}
      invariant todo <= ids
      invariant db.Rows() == t.(tasks := db.tasks) && db.tasks.Keys == t.tasks.Keys
      invariant forall id <- t.tasks ::
        db.tasks[id] == if id in ids - todo then CancelledCard(t.tasks[id]) else t.tasks[id]
      decreases |todo|
    {
      var id :| id in todo;
      if id in db.tasks {
        db.tasks := db.tasks[id := CancelledCard(db.tasks[id])];
      }
      todo := todo - {id};
    }
    assert db.tasks == map id <- t.tasks :: if id in ids then CancelledCard(t.tasks[id]) else t.tasks[id];
  }
}
