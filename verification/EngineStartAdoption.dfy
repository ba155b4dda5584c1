/** Engine-start adoption: terminal executions that still hold a workplace are adopted by receipt or repaired. */
module EngineStartAdoption {
  import opened Results
  import opened Workplaces
  import opened FactoryTables
  import opened ConveyorRuntimes
  import opened SoftStop
  import opened Invariants

  // ---- the two selections ---------------------------------------------------------------

  predicate Holds(t: Tables, ref: WorkplaceRef) {
    ref in t.workplaces && t.workplaces[ref].reservation.Some? && t.workplaces[ref].reservation.value in t.executions
  }

  /** A kernel-owned workplace whose reservation holder is terminal, unsuspected and not voided. */
  predicate Adoptable(t: Tables, ref: WorkplaceRef) {
    Holds(t, ref) &&
    var row := t.executions[t.workplaces[ref].reservation.value];
    && KernelOwned(t.workplaces[ref].state.loop)
    && (row.state.ExecExited? || row.state.ExecTerminated? || row.state.ExecLost?)
    && row.stuck == Some(StuckActive) && !row.voided
  }

  /** A hired workplace whose reservation holder failed to spawn and never had a process. */
  predicate Residue(t: Tables, ref: WorkplaceRef) {
    Holds(t, ref) &&
    var row := t.executions[t.workplaces[ref].reservation.value];
    && Hirable(t.workplaces[ref].state.loop)
    && row.state.ExecSpawnFailed? && row.pid.None? && !row.started
  }

  predicate BoundTo(t: Tables, id: TaskId, ref: WorkplaceRef) {
    id in t.tasks && t.tasks[id].workplace == Some(ref)
  }

  predicate HasCard(t: Tables, ref: WorkplaceRef) {
    exists id <- t.tasks :: BoundTo(t, id, ref)
  }

  predicate IsGreatest(m: nat, ids: set<nat>) {
    m in ids && forall x <- ids :: x <= m
  }

  lemma {:induction false} GreatestExists(ids: set<nat>)
    requires ids != {}
    ensures exists m :: IsGreatest(m, ids)
    decreases |ids|
  {
    var x :| x in ids;
    var rest := ids - {x};
    if rest == {} {
      assert ids == {x};
      assert IsGreatest(x, ids);
    } else {
      GreatestExists(rest);
      var m :| IsGreatest(m, rest);
      var g := if x < m then m else x;
      forall y <- ids ensures y <= g { assert y == x || y in rest; }
      assert IsGreatest(g, ids);
    }
  }

  /** The newest card bound to the workplace. */
  function LatestCard(t: Tables, ref: WorkplaceRef): (id: TaskId)
    requires HasCard(t, ref)
    ensures BoundTo(t, id, ref) && forall other: TaskId :: BoundTo(t, other, ref) ==> other <= id
  {
    var ids := set id: nat | id in t.tasks && BoundTo(t, id, ref);
    var some: nat :| some in t.tasks && BoundTo(t, some, ref);
    assert some in ids;
    GreatestExists(ids);
    var id: nat :| IsGreatest(id, ids);
    assert forall other: TaskId :: BoundTo(t, other, ref) ==> other in ids;
    id
  }

  // ---- one row ----------------------------------------------------------------------------

  /** What a SELECT captured: the execution, the workplace it reserves, the loop state then. */
  datatype HeldRow = HeldRow(execution: ExecutionId, ref: WorkplaceRef, loop: LoopState)

  function Capture(t: Tables, ref: WorkplaceRef): HeldRow
    requires Holds(t, ref)
  {
    HeldRow(t.workplaces[ref].reservation.value, ref, t.workplaces[ref].state.loop)
  }

  datatype Verdict = Adopted | Repaired | Skipped

  datatype Mending = Mending(tables: Tables, verdict: Verdict)

  function Attempt(t: Tables, ref: WorkplaceRef, command: Command): Mending {
    if !HasCard(t, ref) then Mending(t, Skipped)
    else
      match UseCase(t, ref, LatestCard(t, ref), command)
      case Err(_) => Mending(t, Skipped)
      case Ok(tr) => Mending(tr.tables, Repaired)
  }

  /** With an accepted completion receipt nothing is rewritten; without one the incomplete completion is rejected. */
  function AdoptOne(t: Tables, row: HeldRow): Mending {
    if row.execution in t.receipts then Mending(t, Adopted)
    else if row.ref !in t.workplaces then Mending(t, Skipped)
    else Attempt(t, row.ref, RejectIncomplete(t.workplaces[row.ref].state.role))
  }

  /** A leased residue is parked with its cause; a running one is released as crashed. */
  function RepairResidue(t: Tables, row: HeldRow, cause: nat): Mending {
    Attempt(t, row.ref, if row.loop == Leased then Pause(Some(cause)) else ReleaseShift(row.execution, Crashed))
  }

  /** What the whole pass does to one workplace, seen from the workplace. */
  function Mended(t: Tables, ref: WorkplaceRef, cause: nat): WorkplaceRow
    requires ref in t.workplaces
  {
    var row := t.workplaces[ref];
    if !HasCard(t, ref) then row
    else if Adoptable(t, ref) && row.state.loop == Verifying && row.reservation.value !in t.receipts
    then row.(state := row.state.(loop := RepairWait, revision := row.state.revision + 1),
              reservation := None, gate := None, recoveryCase := None)
    else if Residue(t, ref) && row.state.loop == Leased
    then row.(state := row.state.(kanban := Blocked, loop := Paused, revision := row.state.revision + 1),
              reservation := None, gate := None, recoveryCase := Some(cause))
    else if Residue(t, ref)
    then row.(state := row.state.(loop := RepairWait, revision := row.state.revision + 1),
              reservation := None, gate := None, recoveryCase := None)
    else row
  }

  /** Cards keep everything but the projected status column. */
  predicate SameCards(a: map<TaskId, Task>, b: map<TaskId, Task>) {
    a.Keys == b.Keys && forall id <- a :: b[id] == a[id].(status := b[id].status)
  }

  /** A change of one workplace alone; no change at all when its row is the same. */
  predicate Touched(t: Tables, n: Tables, ref: WorkplaceRef, row: WorkplaceRow) {
    && n.workplaces == t.workplaces[ref := row]
    && SameCards(t.tasks, n.tasks)
    && n == t.(workplaces := n.workplaces, tasks := n.tasks)
    && (ref in t.workplaces && row == t.workplaces[ref] ==> n == t)
  }

  lemma NothingTouched(t: Tables, ref: WorkplaceRef)
    requires ref in t.workplaces
    ensures Touched(t, t, ref, t.workplaces[ref])
  {
    assert t.workplaces == t.workplaces[ref := t.workplaces[ref]];
  }

  lemma AttemptTouches(t: Tables, ref: WorkplaceRef, command: Command, next: WorkplaceState, recoveryCase: Option<nat>)
    requires ref in t.workplaces && Valid(t.workplaces[ref].state) && HasCard(t, ref)
    requires PlanFor(t.workplaces[ref], command) == Ok(Move(next, None, recoveryCase))
    requires next.revision == t.workplaces[ref].state.revision + 1 && Valid(next)
    ensures Attempt(t, ref, command).verdict == Repaired
    ensures Touched(t, Attempt(t, ref, command).tables, ref,
                    t.workplaces[ref].(state := next, reservation := None, gate := None, recoveryCase := recoveryCase))
  {
    hide PlanFor, Valid, HasCard, StatusFor;
    assert next == next.(revision := t.workplaces[ref].state.revision + 1);
  }

  /** The reducer edges the pass uses, and the one it tries in vain. */
  lemma RepairEdges(s: WorkplaceState)
    requires Valid(s)
    ensures var n := s.(loop := RepairWait, revision := s.revision + 1);
            s.loop == Verifying ==> Reduce(s, GateRepairRequired(s.role)) == Ok(n)
    ensures s.loop == EffectPending ==> Reduce(s, GateRepairRequired(s.role)).Err?
    ensures var n := s.(kanban := Blocked, loop := Paused, revision := s.revision + 1);
            s.loop == Leased ==> Reduce(s, HumanRequired) == Ok(n)
    ensures var n := s.(loop := RepairWait, revision := s.revision + 1);
            s.loop == Running ==> Reduce(s, WorkerCrashed) == Ok(n)
  {
  }

  lemma AdoptOneEffect(t: Tables, ref: WorkplaceRef, cause: nat)
    requires Adoptable(t, ref) && Valid(t.workplaces[ref].state)
    ensures Touched(t, AdoptOne(t, Capture(t, ref)).tables, ref, Mended(t, ref, cause))
    ensures AdoptOne(t, Capture(t, ref)).verdict == Adopted <==> t.workplaces[ref].reservation.value in t.receipts
    ensures AdoptOne(t, Capture(t, ref)).verdict == Repaired <==> Mended(t, ref, cause) != t.workplaces[ref]
  {
    var row := t.workplaces[ref];
    NothingTouched(t, ref);
    RepairEdges(row.state);
    if HasCard(t, ref) && row.reservation.value !in t.receipts && row.state.loop == Verifying {
      AttemptTouches(t, ref, RejectIncomplete(row.state.role), Mended(t, ref, cause).state, None);
    }
    hide Reduce, HasCard, Touched, Valid, ReverseProject;
  }

  lemma RepairResidueEffect(t: Tables, ref: WorkplaceRef, cause: nat)
    requires Residue(t, ref) && Valid(t.workplaces[ref].state)
    ensures Touched(t, RepairResidue(t, Capture(t, ref), cause).tables, ref, Mended(t, ref, cause))
    ensures RepairResidue(t, Capture(t, ref), cause).verdict == (if HasCard(t, ref) then Repaired else Skipped)
  {
    var row := t.workplaces[ref];
    NothingTouched(t, ref);
    RepairEdges(row.state);
    if HasCard(t, ref) && row.state.loop == Leased {
      AttemptTouches(t, ref, Pause(Some(cause)), Mended(t, ref, cause).state, Some(cause));
    } else if HasCard(t, ref) {
      AttemptTouches(t, ref, ReleaseShift(row.reservation.value, Crashed), Mended(t, ref, cause).state, None);
    }
    hide Reduce, HasCard, Touched, Valid, UseCase;
  }

  /** The effect on one workplace depends on that workplace, the executions and the cards' bindings only. */
  lemma MendedFrame(t: Tables, n: Tables, ref: WorkplaceRef, cause: nat)
    requires ref in t.workplaces && ref in n.workplaces && n.workplaces[ref] == t.workplaces[ref]
    requires SameCards(t.tasks, n.tasks) && n.executions == t.executions && n.receipts == t.receipts
    ensures Mended(n, ref, cause) == Mended(t, ref, cause)
    ensures Adoptable(n, ref) == Adoptable(t, ref) && Residue(n, ref) == Residue(t, ref)
    ensures HasCard(n, ref) == HasCard(t, ref)
  {
    if HasCard(t, ref) {
      var id :| id in t.tasks && BoundTo(t, id, ref);
      assert BoundTo(n, id, ref);
    }
    if HasCard(n, ref) {
      var id :| id in n.tasks && BoundTo(n, id, ref);
      assert BoundTo(t, id, ref);
    }
  }

  // ---- the pass -----------------------------------------------------------------------------

  datatype Report = Report(tables: Tables, adopted: seq<HeldRow>, repaired: seq<HeldRow>, skipped: seq<HeldRow>)

  function File(report: Report, row: HeldRow, done: Mending): Report {
    match done.verdict
    case Adopted => report.(tables := done.tables, adopted := report.adopted + [row])
    case Repaired => report.(tables := done.tables, repaired := report.repaired + [row])
    case Skipped => report.(tables := done.tables, skipped := report.skipped + [row])
  }

  predicate ListsRef(rows: seq<HeldRow>, ref: WorkplaceRef) {
    exists i | 0 <= i < |rows| :: rows[i].ref == ref
  }

  predicate DistinctRefs(rows: seq<HeldRow>) {
    forall i, j | 0 <= i < j < |rows| :: rows[i].ref != rows[j].ref
  }

  datatype Kind = KernelRow | ResidueRow

  predicate Chosen(t: Tables, ref: WorkplaceRef, kind: Kind) {
    match kind
    case KernelRow => Adoptable(t, ref)
    case ResidueRow => Residue(t, ref)
  }

  predicate Captures(t: Tables, rows: seq<HeldRow>, kind: Kind) {
    forall row <- rows :: Chosen(t, row.ref, kind) && row == Capture(t, row.ref)
  }

  /** The rows of one SELECT, in any order, each once. */
  predicate Selected(t: Tables, rows: seq<HeldRow>, kind: Kind) {
    DistinctRefs(rows) && Captures(t, rows, kind) && forall ref <- t.workplaces :: Chosen(t, ref, kind) ==> ListsRef(rows, ref)
  }

  function MendOne(t: Tables, row: HeldRow, kind: Kind, cause: nat): Mending {
    match kind
    case KernelRow => AdoptOne(t, row)
    case ResidueRow => RepairResidue(t, row, cause)
  }

  function MendAll(report: Report, rows: seq<HeldRow>, kind: Kind, cause: nat): Report
    decreases |rows|
  {
    if rows == [] then report
    else MendAll(File(report, rows[0], MendOne(report.tables, rows[0], kind, cause)), rows[1..], kind, cause)
  }

  /** The listed workplaces mended, all others and everything but card status as it was. */
  predicate MendedBy(t: Tables, n: Tables, rows: seq<HeldRow>, cause: nat) {
    && n.workplaces.Keys == t.workplaces.Keys
    && (forall ref <- t.workplaces :: n.workplaces[ref] == if ListsRef(rows, ref) then Mended(t, ref, cause) else t.workplaces[ref])
    && SameCards(t.tasks, n.tasks)
    && n == t.(workplaces := n.workplaces, tasks := n.tasks)
    && ((forall ref <- t.workplaces :: Mended(t, ref, cause) == t.workplaces[ref]) ==> n == t)
  }

  lemma ListsRefTail(rows: seq<HeldRow>, ref: WorkplaceRef)
    requires rows != []
    ensures ListsRef(rows, ref) <==> rows[0].ref == ref || ListsRef(rows[1..], ref)
  {
    if ListsRef(rows, ref) && rows[0].ref != ref {
      var i :| 0 <= i < |rows| && rows[i].ref == ref;
      assert rows[1..][i - 1].ref == ref;
    }
    if ListsRef(rows[1..], ref) {
      var i :| 0 <= i < |rows[1..]| && rows[1..][i].ref == ref;
      assert rows[i + 1].ref == ref;
    }
  }

  lemma MendStep(t: Tables, m: Tables, n: Tables, rows: seq<HeldRow>, cause: nat)
    requires rows != [] && rows[0].ref in t.workplaces && !ListsRef(rows[1..], rows[0].ref)
    requires Touched(t, m, rows[0].ref, Mended(t, rows[0].ref, cause))
    requires MendedBy(m, n, rows[1..], cause)
    ensures MendedBy(t, n, rows, cause)
  {
    hide Mended, ListsRef;
    forall ref <- t.workplaces
      ensures n.workplaces[ref] == if ListsRef(rows, ref) then Mended(t, ref, cause) else t.workplaces[ref]
    {
      ListsRefTail(rows, ref);
      if ref != rows[0].ref {
        MendedFrame(t, m, ref, cause);
      }
    }
  }

  lemma ChosenEffect(t: Tables, ref: WorkplaceRef, kind: Kind, cause: nat)
    requires Chosen(t, ref, kind) && Valid(t.workplaces[ref].state)
    ensures
      var done := MendOne(t, Capture(t, ref), kind, cause);
      && Touched(t, done.tables, ref, Mended(t, ref, cause))
      && (done.verdict == Repaired <==> Mended(t, ref, cause) != t.workplaces[ref])
      && (done.verdict == Adopted <==> kind == KernelRow && t.workplaces[ref].reservation.value in t.receipts)
  {
    if kind == KernelRow {
      AdoptOneEffect(t, ref, cause);
    } else {
      RepairResidueEffect(t, ref, cause);
    }
    hide MendedBy, Touched, AdoptOne, UseCase, HasCard;
  }

  /** One of the two loops, over rows its SELECT returned. */
  lemma {:induction false} MendAllEffect(report: Report, rows: seq<HeldRow>, kind: Kind, cause: nat)
    requires WorkplacesValid(report.tables.workplaces) && DistinctRefs(rows) && Captures(report.tables, rows, kind)
    ensures MendedBy(report.tables, MendAll(report, rows, kind, cause).tables, rows, cause)
    decreases |rows|
  {
    var t := report.tables;
    if rows != [] {
      var ref := rows[0].ref;
      assert rows[0] in rows;
      var done := MendOne(t, rows[0], kind, cause);
      ChosenEffect(t, ref, kind, cause);
      var next := File(report, rows[0], done);
      TailCaptured(t, done.tables, rows, kind, cause);
      hide MendOne, Mended, Touched, MendedBy, ListsRef, Captures;
      MendAllEffect(next, rows[1..], kind, cause);
      MendStep(t, done.tables, MendAll(report, rows, kind, cause).tables, rows, cause);
    }
  }

  lemma MendedValid(t: Tables, ref: WorkplaceRef, cause: nat)
    requires ref in t.workplaces && Valid(t.workplaces[ref].state)
    ensures Valid(Mended(t, ref, cause).state)
  {
  }

  lemma TailCaptured(t: Tables, n: Tables, rows: seq<HeldRow>, kind: Kind, cause: nat)
    requires rows != [] && DistinctRefs(rows) && Captures(t, rows, kind) && WorkplacesValid(t.workplaces)
    requires rows[0].ref in t.workplaces
    requires Touched(t, n, rows[0].ref, Mended(t, rows[0].ref, cause))
    ensures DistinctRefs(rows[1..]) && Captures(n, rows[1..], kind) && WorkplacesValid(n.workplaces)
    ensures !ListsRef(rows[1..], rows[0].ref)
  {
    MendedValid(t, rows[0].ref, cause);
    hide Mended, Valid;
    forall row <- rows[1..] ensures Chosen(n, row.ref, kind) && row == Capture(n, row.ref) {
      assert row in rows;
      assert row.ref != rows[0].ref;
      MendedFrame(t, n, row.ref, cause);
    }
  }

  // ---- the report ---------------------------------------------------------------------------

  /** The verdict on one selected row, read off the tables the pass started from. */
  function VerdictOn(t: Tables, row: HeldRow, kind: Kind, cause: nat): Verdict
    requires row.ref in t.workplaces
  {
    if kind == KernelRow && row.execution in t.receipts then Adopted
    else if Mended(t, row.ref, cause) != t.workplaces[row.ref] then Repaired
    else Skipped
  }

  /** The rows with one verdict, in the order they were selected. */
  function Filed(t: Tables, rows: seq<HeldRow>, kind: Kind, cause: nat, verdict: Verdict): seq<HeldRow>
    requires forall row <- rows :: row.ref in t.workplaces
    decreases |rows|
  {
    if rows == [] then []
    else (if VerdictOn(t, rows[0], kind, cause) == verdict then [rows[0]] else []) + Filed(t, rows[1..], kind, cause, verdict)
  }

  lemma {:induction false} FiledFrame(t: Tables, n: Tables, rows: seq<HeldRow>, kind: Kind, cause: nat, verdict: Verdict)
    requires forall row <- rows :: row.ref in t.workplaces && row.ref in n.workplaces && n.workplaces[row.ref] == t.workplaces[row.ref]
    requires SameCards(t.tasks, n.tasks) && n.executions == t.executions && n.receipts == t.receipts
    ensures Filed(n, rows, kind, cause, verdict) == Filed(t, rows, kind, cause, verdict)
    decreases |rows|
  {
    hide Mended, SameCards;
    if rows != [] {
      assert rows[0] in rows;
      MendedFrame(t, n, rows[0].ref, cause);
      forall row <- rows[1..]
        ensures row.ref in t.workplaces && row.ref in n.workplaces && n.workplaces[row.ref] == t.workplaces[row.ref]
      {
        assert row in rows;
      }
      FiledFrame(t, n, rows[1..], kind, cause, verdict);
    }
  }

  function Line(report: Report, verdict: Verdict): seq<HeldRow> {
    match verdict
    case Adopted => report.adopted
    case Repaired => report.repaired
    case Skipped => report.skipped
  }

  lemma FileLine(report: Report, row: HeldRow, done: Mending, verdict: Verdict, rest: seq<HeldRow>)
    ensures Line(File(report, row, done), verdict) + rest
            == Line(report, verdict) + ((if done.verdict == verdict then [row] else []) + rest)
  {
  }

  lemma VerdictIsDecidedFirst(t: Tables, rows: seq<HeldRow>, kind: Kind, cause: nat)
    requires rows != [] && WorkplacesValid(t.workplaces) && Captures(t, rows, kind)
    ensures forall row <- rows :: row.ref in t.workplaces
    ensures Touched(t, MendOne(t, rows[0], kind, cause).tables, rows[0].ref, Mended(t, rows[0].ref, cause))
    ensures VerdictOn(t, rows[0], kind, cause) == MendOne(t, rows[0], kind, cause).verdict
  {
    assert rows[0] in rows;
    ChosenEffect(t, rows[0].ref, kind, cause);
    hide Mended, Touched, MendOne;
  }

  /** Every selected row is reported exactly once, under the verdict its workplace had at the start. */
  lemma {:induction false} MendAllReports(report: Report, rows: seq<HeldRow>, kind: Kind, cause: nat, verdict: Verdict)
    requires WorkplacesValid(report.tables.workplaces) && DistinctRefs(rows) && Captures(report.tables, rows, kind)
    ensures forall row <- rows :: row.ref in report.tables.workplaces
    ensures Line(MendAll(report, rows, kind, cause), verdict)
            == Line(report, verdict) + Filed(report.tables, rows, kind, cause, verdict)
    decreases |rows|
  {
    var t := report.tables;
    if rows != [] {
      VerdictIsDecidedFirst(t, rows, kind, cause);
      assert rows[0] in rows;
      var done := MendOne(t, rows[0], kind, cause);
      TailCaptured(t, done.tables, rows, kind, cause);
      TailUntouched(t, done.tables, rows, cause);
      hide MendOne, Mended, Captures, WorkplacesValid, VerdictOn, Line, File, DistinctRefs, ListsRef, SameCards;
      MendAllReports(File(report, rows[0], done), rows[1..], kind, cause, verdict);
      FiledFrame(t, done.tables, rows[1..], kind, cause, verdict);
      FileLine(report, rows[0], done, verdict, Filed(t, rows[1..], kind, cause, verdict));
      FileTables(report, rows[0], done);
    }
  }

  lemma FileTables(report: Report, row: HeldRow, done: Mending)
    ensures File(report, row, done).tables == done.tables
  {
  }

  lemma TailUntouched(t: Tables, n: Tables, rows: seq<HeldRow>, cause: nat)
    requires rows != [] && DistinctRefs(rows) && rows[0].ref in t.workplaces
    requires forall row <- rows :: row.ref in t.workplaces
    requires Touched(t, n, rows[0].ref, Mended(t, rows[0].ref, cause))
    ensures forall row <- rows[1..] :: row.ref in n.workplaces && n.workplaces[row.ref] == t.workplaces[row.ref]
  {
    hide Mended;
    forall row <- rows[1..] ensures row.ref in n.workplaces && n.workplaces[row.ref] == t.workplaces[row.ref] {
      assert row in rows && row.ref != rows[0].ref;
    }
  }

  // ---- the whole pass -------------------------------------------------------------------------

  function Empty(t: Tables): Report { Report(t, [], [], []) }

  /** Adoption, then the spawn-failed residue, each over its own selection. */
  function Adopt(t: Tables, kernel: seq<HeldRow>, residue: seq<HeldRow>, cause: nat): Tables {
    MendAll(Empty(MendAll(Empty(t), kernel, KernelRow, cause).tables), residue, ResidueRow, cause).tables
  }

  ghost predicate Passes(t: Tables, kernel: seq<HeldRow>, residue: seq<HeldRow>, cause: nat) {
    Selected(t, kernel, KernelRow) && Selected(MendAll(Empty(t), kernel, KernelRow, cause).tables, residue, ResidueRow)
  }

  /** Every workplace is mended as its own starting row says, whatever order the selections had. */
  lemma AdoptionEffect(t: Tables, kernel: seq<HeldRow>, residue: seq<HeldRow>, cause: nat)
    requires WorkplacesValid(t.workplaces) && Passes(t, kernel, residue, cause)
    ensures
      var n := Adopt(t, kernel, residue, cause);
      && n.workplaces.Keys == t.workplaces.Keys
      && (forall ref <- t.workplaces :: n.workplaces[ref] == Mended(t, ref, cause))
      && SameCards(t.tasks, n.tasks)
      && n == t.(workplaces := n.workplaces, tasks := n.tasks)
      && ((forall ref <- t.workplaces :: Mended(t, ref, cause) == t.workplaces[ref]) ==> n == t)
  {
    MendAllEffect(Empty(t), kernel, KernelRow, cause);
    var m := MendAll(Empty(t), kernel, KernelRow, cause).tables;
    StillValid(t, m, kernel, cause);
    MendAllEffect(Empty(m), residue, ResidueRow, cause);
    var n := Adopt(t, kernel, residue, cause);
    forall ref <- t.workplaces
      ensures n.workplaces[ref] == Mended(t, ref, cause)
      ensures Mended(t, ref, cause) == t.workplaces[ref] ==> Mended(m, ref, cause) == m.workplaces[ref]
    {
      TwoPhases(t, m, ref, kernel, residue, cause);
    }
  }

  lemma StillValid(t: Tables, m: Tables, rows: seq<HeldRow>, cause: nat)
    requires WorkplacesValid(t.workplaces) && MendedBy(t, m, rows, cause)
    ensures WorkplacesValid(m.workplaces)
  {
    hide Mended, Valid;
    forall ref <- m.workplaces ensures Valid(m.workplaces[ref].state) {
      MendedValid(t, ref, cause);
    }
  }

  /** A workplace is mended by at most one of the two loops. */
  lemma TwoPhases(t: Tables, m: Tables, ref: WorkplaceRef, kernel: seq<HeldRow>, residue: seq<HeldRow>, cause: nat)
    requires ref in t.workplaces
    requires Selected(t, kernel, KernelRow) && Selected(m, residue, ResidueRow)
    requires MendedBy(t, m, kernel, cause)
    ensures (if ListsRef(residue, ref) then Mended(m, ref, cause) else m.workplaces[ref]) == Mended(t, ref, cause)
    ensures Mended(t, ref, cause) == t.workplaces[ref] ==> Mended(m, ref, cause) == m.workplaces[ref]
  {
    SelectedIff(t, kernel, KernelRow, ref);
    SelectedIff(m, residue, ResidueRow, ref);
    if m.workplaces[ref] == t.workplaces[ref] {
      MendedFrame(t, m, ref, cause);
      MendedElse(t, ref, cause);
    } else {
      MendedSettles(t, m, ref, cause);
    }
    hide Selected, ListsRef, Mended, SameCards;
  }

  lemma MendedElse(t: Tables, ref: WorkplaceRef, cause: nat)
    requires ref in t.workplaces
    ensures !(Adoptable(t, ref) && Residue(t, ref))
    ensures !Adoptable(t, ref) && !Residue(t, ref) ==> Mended(t, ref, cause) == t.workplaces[ref]
  {
  }

  /** A mended workplace has no reservation any more, so neither selection finds it. */
  lemma MendedSettles(t: Tables, n: Tables, ref: WorkplaceRef, cause: nat)
    requires ref in t.workplaces && ref in n.workplaces
    requires n.workplaces[ref] == Mended(t, ref, cause) != t.workplaces[ref]
    ensures !Adoptable(n, ref) && !Residue(n, ref) && Mended(n, ref, cause) == n.workplaces[ref]
  {
  }

  lemma SelectedIff(t: Tables, rows: seq<HeldRow>, kind: Kind, ref: WorkplaceRef)
    requires Selected(t, rows, kind)
    ensures ListsRef(rows, ref) <==> Chosen(t, ref, kind)
  {
    if ListsRef(rows, ref) {
      var i :| 0 <= i < |rows| && rows[i].ref == ref;
      assert rows[i] in rows;
    }
  }

  /** A second pass, over whatever it selects, changes nothing. */
  lemma AdoptionIsIdempotent(t: Tables, kernel: seq<HeldRow>, residue: seq<HeldRow>, cause: nat,
                             kernel': seq<HeldRow>, residue': seq<HeldRow>, cause': nat)
    requires WorkplacesValid(t.workplaces) && Passes(t, kernel, residue, cause)
    requires Passes(Adopt(t, kernel, residue, cause), kernel', residue', cause')
    ensures Adopt(Adopt(t, kernel, residue, cause), kernel', residue', cause') == Adopt(t, kernel, residue, cause)
  {
    var n := Adopt(t, kernel, residue, cause);
    AdoptionEffect(t, kernel, residue, cause);
    forall ref <- n.workplaces
      ensures Valid(n.workplaces[ref].state) && Mended(n, ref, cause') == n.workplaces[ref]
    {
      MendedValid(t, ref, cause);
      MendedOnce(t, n, ref, cause, cause');
    }
    AdoptionEffect(n, kernel', residue', cause');
  }

  lemma MendedOnce(t: Tables, n: Tables, ref: WorkplaceRef, cause: nat, cause': nat)
    requires ref in t.workplaces && ref in n.workplaces && n.workplaces[ref] == Mended(t, ref, cause)
    requires SameCards(t.tasks, n.tasks) && n.executions == t.executions && n.receipts == t.receipts
    ensures Mended(n, ref, cause') == n.workplaces[ref]
  {
    if n.workplaces[ref] == t.workplaces[ref] {
      MendedFrame(t, n, ref, cause);
      MendedSame(n, ref, cause, cause');
    }
  }

  lemma MendedSame(t: Tables, ref: WorkplaceRef, cause: nat, cause': nat)
    requires ref in t.workplaces && Mended(t, ref, cause) == t.workplaces[ref]
    ensures Mended(t, ref, cause') == t.workplaces[ref]
  {
  }

  /**
   * Conservative on every database the protocol can reach: a workplace reserved
   * by a completed or by a voided execution is left exactly as it is, and every
   * other change follows one edge of the reducer.
   */
  lemma AdoptionIsConservative(t: Tables, kernel: seq<HeldRow>, residue: seq<HeldRow>, cause: nat, ref: WorkplaceRef)
    requires Inv(t) && Passes(t, kernel, residue, cause) && ref in t.workplaces
    ensures ref in Adopt(t, kernel, residue, cause).workplaces
    ensures
      var row := t.workplaces[ref];
      var now := Adopt(t, kernel, residue, cause).workplaces[ref];
      && (row.reservation.Some? && (row.reservation.value in t.receipts || Void(t, row.reservation.value)) ==> now == row)
      && (now != row ==>
            || Reduce(row.state, GateRepairRequired(row.state.role)) == Ok(now.state)
            || Reduce(row.state, HumanRequired) == Ok(now.state)
            || Reduce(row.state, WorkerCrashed) == Ok(now.state))
  {
    MendingIsConservative(t, ref, cause);
    hide Passes, Adopt, SameCards, Mended, Reduce;
    AdoptionEffect(t, kernel, residue, cause);
  }

  lemma MendingIsConservative(t: Tables, ref: WorkplaceRef, cause: nat)
    requires Inv(t) && ref in t.workplaces
    ensures
      var row := t.workplaces[ref];
      var now := Mended(t, ref, cause);
      && (row.reservation.Some? && (row.reservation.value in t.receipts || Void(t, row.reservation.value)) ==> now == row)
      && (now != row ==>
            || Reduce(row.state, GateRepairRequired(row.state.role)) == Ok(now.state)
            || Reduce(row.state, HumanRequired) == Ok(now.state)
            || Reduce(row.state, WorkerCrashed) == Ok(now.state))
  {
    hide OneActive, StopsOk, CardsOk, HoldsOk, HasCard;
    assert Valid(t.workplaces[ref].state);
    hide Valid, WorkplacesValid, Reduce;
    RepairEdges(t.workplaces[ref].state);
  }

  // ---- the imperative form ----------------------------------------------------------------------

  method SelectRows(db: FactoryDb, kind: Kind) returns (rows: seq<HeldRow>)
    ensures Selected(db.Rows(), rows, kind)
  {
    hide Adoptable, Residue, Holds;
    rows := [];
    ghost var t := db.Rows();
    var todo := set ref | ref in db.workplaces && Chosen(db.Rows(), ref, kind);
    ghost var all := todo;
    while todo != {}
      invariant todo <= all
      invariant Captures(t, rows, kind) && DistinctRefs(rows)
      invariant forall row <- rows :: row.ref in all - todo
      invariant forall ref <- all - todo :: ListsRef(rows, ref)
      decreases |todo|
    {
      var ref :| ref in todo;
      ChosenHolds(db.Rows(), ref, kind);
      ghost var before := rows;
      rows := rows + [Capture(db.Rows(), ref)];
      todo := todo - {ref};
      assert rows[|before|].ref == ref;
      forall other <- all - todo - {ref} ensures ListsRef(rows, other) {
        assert ListsRef(before, other);
        var i :| 0 <= i < |before| && before[i].ref == other;
        assert rows[i].ref == other;
      }
    }
  }

  lemma ChosenHolds(t: Tables, ref: WorkplaceRef, kind: Kind)
    requires Chosen(t, ref, kind)
    ensures Holds(t, ref) && Capture(t, ref).ref == ref
  {
  }

  method AttemptUseCase(db: FactoryDb, ref: WorkplaceRef, command: Command) returns (verdict: Verdict)
    modifies db
    ensures Mending(db.Rows(), verdict) == Attempt(old(db.Rows()), ref, command)
  {
    hide UseCase;
    if !HasCard(db.Rows(), ref) {
      return Skipped;
    }
    var runtime := new ConveyorRuntime(db);
    var moved := runtime.Atomically(ref, LatestCard(db.Rows(), ref), command);
    verdict := if moved.Ok? then Repaired else Skipped;
  }

  method MendRow(db: FactoryDb, row: HeldRow, kind: Kind, cause: nat) returns (verdict: Verdict)
    modifies db
    ensures Mending(db.Rows(), verdict) == MendOne(old(db.Rows()), row, kind, cause)
  {
    if kind == ResidueRow {
      verdict := AttemptUseCase(db, row.ref, if row.loop == Leased then Pause(Some(cause)) else ReleaseShift(row.execution, Crashed));
    } else if row.execution in db.receipts {
      verdict := Adopted;
    } else if row.ref !in db.workplaces {
      verdict := Skipped;
    } else {
      verdict := AttemptUseCase(db, row.ref, RejectIncomplete(db.workplaces[row.ref].state.role));
    }
  }

  method MendRows(db: FactoryDb, rows: seq<HeldRow>, kind: Kind, cause: nat)
    returns (adopted: seq<HeldRow>, repaired: seq<HeldRow>, skipped: seq<HeldRow>)
    modifies db
    ensures Report(db.Rows(), adopted, repaired, skipped) == MendAll(Empty(old(db.Rows())), rows, kind, cause)
  {
    hide MendOne;
    adopted, repaired, skipped := [], [], [];
    var i := 0;
    assert rows[0..] == rows;
    while i < |rows|
      invariant 0 <= i <= |rows|
      invariant MendAll(Report(db.Rows(), adopted, repaired, skipped), rows[i..], kind, cause)
             == MendAll(Empty(old(db.Rows())), rows, kind, cause)
    {
      assert rows[i..][0] == rows[i] && rows[i..][1..] == rows[i + 1..];
      var verdict := MendRow(db, rows[i], kind, cause);
      match verdict {
        case Adopted => adopted := adopted + [rows[i]];
        case Repaired => repaired := repaired + [rows[i]];
        case Skipped => skipped := skipped + [rows[i]];
      }
      i := i + 1;
    }
  }

  method AdoptTerminalExecutionsAtEngineStart(db: FactoryDb, cause: nat)
    returns (adopted: seq<HeldRow>, repaired: seq<HeldRow>, skipped: nat, residueRepaired: seq<HeldRow>,
             ghost kernel: seq<HeldRow>, ghost residue: seq<HeldRow>)
    modifies db
    ensures Passes(old(db.Rows()), kernel, residue, cause)
    ensures db.Rows() == Adopt(old(db.Rows()), kernel, residue, cause)
    ensures
      var report := MendAll(Empty(old(db.Rows())), kernel, KernelRow, cause);
      && adopted == report.adopted && repaired == report.repaired && skipped == |report.skipped|
      && residueRepaired == MendAll(Empty(report.tables), residue, ResidueRow, cause).repaired
  {
    hide MendAll, Selected;
    var rows := SelectRows(db, KernelRow);
    kernel := rows;
    var left: seq<HeldRow>;
    adopted, repaired, left := MendRows(db, rows, KernelRow, cause);
    skipped := |left|;
    rows := SelectRows(db, ResidueRow);
    residue := rows;
    var unused: seq<HeldRow>, passed: seq<HeldRow>;
    unused, residueRepaired, passed := MendRows(db, rows, ResidueRow, cause);
  }
}
