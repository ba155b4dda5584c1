/** Worker supervision: the stuck policy, the PID identity guard, and the reconcile-then-renew sweep. */
module Supervision {
  import opened Results
  import opened FactoryTables
  import opened WorkAssignment
  import opened Invariants

  const RESERVED_BOOT_TIMEOUT_MS: nat := 60_000
  const FINISH_GRACE_MS: nat := 30_000
  const STUCK_SILENCE_MS: nat := 600_000
  const STUCK_CANCEL_GRACE_MS: nat := 300_000
  const CANCEL_GRACE_MS: nat := 60_000
  const PID_REUSE_GRACE_MS: nat := 600_000
  const PID_GUARD_HEARTBEAT_STALE_MS: nat := 120_000

  // ---- process identity -----------------------------------------------------------------

  /** What the operating system answers about one PID during a sweep. */
  datatype PidProbe = PidProbe(alive: bool, token: Option<nat>, commandLine: Option<string>, killed: bool)

  datatype Identity = Ours | Foreign | Unknown

  predicate IncludesAt(s: string, part: string, i: nat) {
    i + |part| <= |s| && s[i..i + |part|] == part
  }

  predicate Includes(s: string, part: string) {
    exists i | 0 <= i <= |s| :: IncludesAt(s, part, i)
  }

  /** Birth token first; the command line only when the token cannot be compared. */
  function ClassifyWorkerProcessIdentity(row: Execution, probe: PidProbe): (id: Identity)
    ensures id == Foreign ==> row.pid.Some?
    ensures row.birthToken.Some? && probe.token.Some? && row.pid.Some? ==> (id == Ours <==> probe.token == row.birthToken) && id != Unknown
  {
    if row.pid.None? then Unknown
    else if row.birthToken.Some? && probe.token.Some? then (if probe.token == row.birthToken then Ours else Foreign)
    else if probe.commandLine.None? || probe.commandLine.value == "" then Unknown
    else if Includes(probe.commandLine.value, "orchestrate-cli.js") then Foreign
    else if Includes(probe.commandLine.value, "--permission-mode") && Includes(probe.commandLine.value, "--output-format") then Ours
    else Unknown
  }

  // ---- the stuck policy --------------------------------------------------------------------

  datatype Action =
    | Keep
    | MarkSuspected
    | RequestCancel
    | TerminateWorker
    | TerminateButPidReuse
    | ReleaseAs(terminal: ExecutionState)

  /** What the sweep works out about a row before it asks the policy. */
  datatype Facts = Facts(
    isLocal: bool,
    isAlive: bool,
    tokenMatches: bool,
    ownsActiveTask: bool,
    legitimateIntegration: bool,
    legitimateFinishing: bool,
    completionAccepted: bool)

  predicate LeaseExpired(clocks: Clocks, now: Millis) {
    clocks.leaseExpiresAt != 0 && now >= clocks.leaseExpiresAt
  }

  predicate Legitimate(facts: Facts) {
    facts.ownsActiveTask || facts.legitimateIntegration || facts.legitimateFinishing
  }

  function DecideStuckAction(row: Execution, facts: Facts, now: Millis): Action {
    var clocks := row.clocks;
    if !facts.isLocal then (if LeaseExpired(clocks, now) then ReleaseAs(ExecLost) else Keep)
    else if (row.state != ExecReserved && !facts.isAlive)
            || (row.state == ExecReserved && (now - clocks.reservedAt >= RESERVED_BOOT_TIMEOUT_MS || LeaseExpired(clocks, now)))
    then ReleaseAs(if row.state == ExecReserved then ExecSpawnFailed else ExecLost)
    else if facts.isAlive
            && (facts.legitimateFinishing
                || (facts.completionAccepted && (row.phase.Finishing? || row.phase.Integrating?)
                    && clocks.phaseUpdatedAt != 0 && now - clocks.phaseUpdatedAt < FINISH_GRACE_MS))
    then Keep
    else if facts.isAlive && LeaseExpired(clocks, now) then TerminateWorker
    else if facts.isAlive && Silent(row, now) && GraceMet(row, now) then RequestCancel
    else if facts.isAlive && Silent(row, now) && Legitimate(facts) then MarkSuspected
    else if facts.isAlive && row.stuck == Some(CancelRequested) && now - CancelSince(row, now) >= CANCEL_GRACE_MS then
      if facts.tokenMatches then TerminateWorker
      else if now - CancelSince(row, now) >= PID_REUSE_GRACE_MS then ReleaseAs(ExecLost)
      else TerminateButPidReuse
    else if facts.isAlive && Legitimate(facts) then Keep
    else if facts.isAlive then TerminateWorker
    else Keep
  }

  /** Stage 1 and 2 apply to a row not yet in cancel_requested whose progress clock is past the silence window. */
  predicate Silent(row: Execution, now: Millis) {
    row.stuck != Some(CancelRequested) && row.clocks.progressAt != 0 && now - row.clocks.progressAt >= STUCK_SILENCE_MS
  }

  predicate GraceMet(row: Execution, now: Millis) {
    && row.stuck == Some(SuspectedStuck)
    && var since := if row.clocks.suspectedAt != 0 then row.clocks.suspectedAt else row.clocks.progressAt;
       now - since >= STUCK_CANCEL_GRACE_MS
  }

  function CancelSince(row: Execution, now: Millis): Millis {
    if row.clocks.cancelRequestedAt != 0 then row.clocks.cancelRequestedAt else now
  }

  // ---- one row of the sweep --------------------------------------------------------------------

  /** A row the sweep's SELECT joined: the execution, its card, and whether its completion was accepted. */
  datatype SweptRow = SweptRow(id: ExecutionId, execution: Execution, task: Option<Task>, accepted: bool)

  datatype ResultAction = Kept | LostRow | TerminatedRow | RemoteUnknown

  datatype SweepResult = SweepResult(execution: ExecutionId, action: ResultAction, released: bool, withhold: bool, unverifiable: bool)

  datatype RowSweep = RowSweep(tables: Tables, result: SweepResult, killIssued: bool)

  function FactsOf(row: SweptRow, probe: PidProbe, host: MachineId, now: Millis): Facts {
    var execution := row.execution;
    var fenceOurs := row.task.Some? && row.task.value.current == Some(row.id);
    Facts(execution.machine == host,
          execution.state != ExecReserved && execution.pid.Some? && probe.alive,
          execution.pid.Some? && execution.birthToken.Some? && probe.token == execution.birthToken,
          fenceOurs && row.task.value.assignedTo == Some(execution.worker)
            && (row.task.value.status.TaskInProgress? || row.task.value.status.TaskReviewInProgress?),
          fenceOurs && execution.phase.Integrating? && row.task.value.status.TaskDone? && row.task.value.integration.IntegrationPending?,
          fenceOurs && execution.phase.Finishing? && now - execution.clocks.phaseUpdatedAt < FINISH_GRACE_MS,
          row.accepted)
  }

  /** The supervision guard looks only at local running rows outside the stuck machine that nobody voided. */
  predicate Guarded(execution: Execution, host: MachineId) {
    && execution.machine == host && execution.state == ExecRunning && !execution.voided && execution.pid.Some?
    && (execution.stuck.None? || execution.stuck == Some(StuckActive))
  }

  predicate HeartbeatStale(execution: Execution, now: Millis) {
    execution.clocks.heartbeatAt == 0 || now - execution.clocks.heartbeatAt >= PID_GUARD_HEARTBEAT_STALE_MS
  }

  function StampSuspected(t: Tables, e: ExecutionId, now: Millis): Tables {
    if Live(t, e) && t.executions[e].stuck != Some(SuspectedStuck)
    then t.(executions := t.executions[e := t.executions[e].(stuck := Some(SuspectedStuck),
                                                               clocks := t.executions[e].clocks.(suspectedAt := now))])
    else t
  }

  function StampCancel(t: Tables, e: ExecutionId, now: Millis): Tables {
    if Live(t, e)
    then t.(executions := t.executions[e := t.executions[e].(stuck := Some(CancelRequested),
                                                               clocks := t.executions[e].clocks.(cancelRequestedAt := now))])
    else t
  }

  /** `markExecutionProgress`: best effort, and a no-op on an execution that is no longer active. */
  function MarkProgress(t: Tables, e: ExecutionId, now: Millis): Tables {
    if Live(t, e) then t.(executions := t.executions[e := t.executions[e].(clocks := t.executions[e].clocks.(progressAt := now))]) else t
  }

  function ReleaseRow(t: Tables, row: SweptRow, terminal: ExecutionState, action: ResultAction, killIssued: bool): RowSweep {
    var release := ReleaseExecution(t, row.id, terminal, None);
    RowSweep(release.tables, SweepResult(row.id, action, release.taskReleased, false, false), killIssued)
  }

  function KeepRow(t: Tables, row: SweptRow, remote: bool, killIssued: bool): RowSweep {
    RowSweep(t, SweepResult(row.id, if remote then RemoteUnknown else Kept, false, false, false), killIssued)
  }

  /** The mechanism's dispatch, for whatever action a policy returned. */
  function ApplyAction(t: Tables, row: SweptRow, action: Action, probe: PidProbe, host: MachineId, now: Millis): RowSweep {
    match action
    case Keep => KeepRow(t, row, row.execution.machine != host, false)
    case TerminateButPidReuse => KeepRow(t, row, false, false)
    case MarkSuspected => KeepRow(StampSuspected(t, row.id, now), row, false, false)
    case RequestCancel => KeepRow(StampCancel(t, row.id, now), row, false, false)
    case TerminateWorker =>
      var issued := row.execution.pid.Some? && row.execution.birthToken.Some?;
      if issued && probe.killed then ReleaseRow(t, row, ExecTerminated, TerminatedRow, true)
      else KeepRow(t, row, false, issued)
    case ReleaseAs(terminal) => ReleaseRow(t, row, terminal, LostRow, false)
  }

  function SweepRow(t: Tables, row: SweptRow, probe: PidProbe, host: MachineId, now: Millis): RowSweep {
    var guarded := Guarded(row.execution, host);
    var identity := ClassifyWorkerProcessIdentity(row.execution, probe);
    if guarded && identity == Foreign then
      if HeartbeatStale(row.execution, now) then ReleaseRow(t, row, ExecLost, LostRow, false)
      else
        var kept := KeepRow(t, row, false, false);
        kept.(result := kept.result.(withhold := true))
    else
      var swept := ApplyAction(t, row, DecideStuckAction(row.execution, FactsOf(row, probe, host, now), now), probe, host, now);
      swept.(result := swept.result.(unverifiable := guarded && identity == Unknown))
  }

  // ---- the whole sweep ---------------------------------------------------------------------------

  datatype Reconciled = Reconciled(tables: Tables, results: seq<SweepResult>)

  function Reconcile(t: Tables, rows: seq<SweptRow>, probes: ExecutionId -> PidProbe, host: MachineId, now: Millis): Reconciled
    decreases |rows|
  {
    if rows == [] then Reconciled(t, [])
    else
      var first := SweepRow(t, rows[0], probes(rows[0].id), host, now);
      var rest := Reconcile(first.tables, rows[1..], probes, host, now);
      Reconciled(rest.tables, [first.result] + rest.results)
  }

  /** Lease renewal after the reconcile pass: every active local row of the project but the withheld ones. */
  function RenewLeases(t: Tables, project: nat, host: MachineId, now: Millis, ttl: Millis, excluded: set<ExecutionId>): Tables {
    t.(executions := map e <- t.executions ::
         var row := t.executions[e];
         if Active(row.state) && row.project == project && row.machine == host && e !in excluded
         then row.(clocks := row.clocks.(leaseExpiresAt := now + ttl, heartbeatAt := now)) else row)
  }

  function Withheld(results: seq<SweepResult>): set<ExecutionId> {
    set r | r in results && r.withhold :: r.execution
  }

  /** One sweep: its clock, lease length, selected rows and process answers. */
  datatype Sweep = Sweep(rows: seq<SweptRow>, probes: ExecutionId -> PidProbe, now: Millis, ttl: Millis)

  function SweepOnce(t: Tables, project: nat, host: MachineId, sweep: Sweep): Tables {
    var reconciled := Reconcile(t, sweep.rows, sweep.probes, host, sweep.now);
    RenewLeases(reconciled.tables, project, host, sweep.now, sweep.ttl, Withheld(reconciled.results))
  }

  function Join(t: Tables, e: ExecutionId): SweptRow
    requires e in t.executions
  {
    var row := t.executions[e];
    SweptRow(e, row, if row.task in t.tasks then Some(t.tasks[row.task]) else None, e in t.receipts)
  }

  predicate InScope(t: Tables, e: ExecutionId, project: nat) {
    Live(t, e) && t.executions[e].project == project
  }

  predicate ListsRow(rows: seq<SweptRow>, e: ExecutionId) {
    exists i | 0 <= i < |rows| :: rows[i].id == e
  }

  predicate DistinctRows(rows: seq<SweptRow>) {
    forall i, j | 0 <= i < j < |rows| :: rows[i].id != rows[j].id
  }

  /** The sweep's SELECT: every active row of the project, each once, in any order. */
  predicate Swept(t: Tables, rows: seq<SweptRow>, project: nat) {
    && DistinctRows(rows)
    && (forall row <- rows :: InScope(t, row.id, project) && row == Join(t, row.id))
    && (forall e <- t.executions :: InScope(t, e, project) ==> ListsRow(rows, e))
  }

  /** Every selected row gets exactly one result, in the order selected, whatever the probes answer. */
  lemma {:induction false} EveryRowGetsOneResult(t: Tables, rows: seq<SweptRow>, probes: ExecutionId -> PidProbe, host: MachineId, now: Millis)
    ensures
      var results := Reconcile(t, rows, probes, host, now).results;
      |results| == |rows| && forall i | 0 <= i < |rows| :: results[i].execution == rows[i].id
    decreases |rows|
  {
    if rows != [] {
      hide SweepRow;
      RowResult(t, rows[0], probes(rows[0].id), host, now);
      EveryRowGetsOneResult(SweepRow(t, rows[0], probes(rows[0].id), host, now).tables, rows[1..], probes, host, now);
    }
  }

  lemma RowResult(t: Tables, row: SweptRow, probe: PidProbe, host: MachineId, now: Millis)
    ensures SweepRow(t, row, probe, host, now).result.execution == row.id
  {
    hide ReleaseExecution, DecideStuckAction, FactsOf, ClassifyWorkerProcessIdentity, HeartbeatStale, Guarded, StampSuspected, StampCancel;
  }

  /** A guarded row whose PID belongs to someone else is never killed: kept and withheld while fresh, lost once stale. */
  lemma ForeignIsNeverKilled(t: Tables, row: SweptRow, probe: PidProbe, host: MachineId, now: Millis)
    requires Guarded(row.execution, host) && ClassifyWorkerProcessIdentity(row.execution, probe) == Foreign
    ensures
      var swept := SweepRow(t, row, probe, host, now);
      && !swept.killIssued
      && (if HeartbeatStale(row.execution, now)
          then swept.result.action == LostRow && swept.tables == ReleaseExecution(t, row.id, ExecLost, None).tables
          else swept.result.action == Kept && swept.result.withhold && swept.tables == t)
  {
    hide ReleaseExecution;
  }

  /** A kill is only ever aimed at a local process that was alive, with a recorded birth identity to verify. */
  lemma KillsAreLocalAndVerified(t: Tables, row: SweptRow, probe: PidProbe, host: MachineId, now: Millis)
    requires SweepRow(t, row, probe, host, now).killIssued
    ensures row.execution.machine == host && row.execution.state != ExecReserved
    ensures row.execution.pid.Some? && row.execution.birthToken.Some? && probe.alive
    ensures Guarded(row.execution, host) ==> ClassifyWorkerProcessIdentity(row.execution, probe) != Foreign
  {
    hide ReleaseExecution;
  }

  /** Whatever a policy answers, a repeated suspicion keeps the first stamp. */
  lemma SuspicionIsStampedOnce(t: Tables, row: SweptRow, action: Action, probe: PidProbe, host: MachineId, now: Millis)
    requires Live(t, row.id) && t.executions[row.id].stuck == Some(SuspectedStuck)
    ensures
      var n := ApplyAction(t, row, action, probe, host, now).tables;
      row.id in n.executions && n.executions[row.id].clocks.suspectedAt == t.executions[row.id].clocks.suspectedAt
  {
    ReleasedRow(t, row.id, ExecTerminated);
    if action.ReleaseAs? {
      ReleasedRow(t, row.id, action.terminal);
    }
    StampedRow(t, row.id, now);
    hide ReleaseExecution, StampSuspected, StampCancel;
  }

  // ---- one execution through a whole sweep ---------------------------------------------------------

  /** At most the execution row of `e` changes. */
  predicate OnlyWrites(a: map<ExecutionId, Execution>, b: map<ExecutionId, Execution>, e: ExecutionId) {
    a.Keys == b.Keys && forall x <- a :: x != e ==> b[x] == a[x]
  }

  lemma NoWrites(m: map<ExecutionId, Execution>, e: ExecutionId)
    ensures OnlyWrites(m, m, e)
  {
  }

  lemma UpdateWrites(m: map<ExecutionId, Execution>, e: ExecutionId, row: Execution)
    requires e in m
    ensures OnlyWrites(m, m[e := row], e)
  {
  }

  lemma ReleaseWrites(t: Tables, e: ExecutionId, terminal: ExecutionState)
    ensures OnlyWrites(t.executions, ReleaseExecution(t, e, terminal, None).tables.executions, e)
  {
    hide RetryExhausted, RestoredStatus, OnlyWrites;
    var n := ReleaseExecution(t, e, terminal, None).tables;
    if Live(t, e) {
      UpdateWrites(t.executions, e, t.executions[e].(state := terminal));
      assert n.executions == t.executions[e := t.executions[e].(state := terminal)];
    } else {
      NoWrites(t.executions, e);
      assert n.executions == t.executions;
    }
  }

  lemma StampWrites(t: Tables, e: ExecutionId, now: Millis)
    ensures OnlyWrites(t.executions, StampSuspected(t, e, now).executions, e)
    ensures OnlyWrites(t.executions, StampCancel(t, e, now).executions, e)
  {
    hide OnlyWrites;
    NoWrites(t.executions, e);
    if Live(t, e) {
      UpdateWrites(t.executions, e, StampSuspected(t, e, now).executions[e]);
      UpdateWrites(t.executions, e, StampCancel(t, e, now).executions[e]);
    }
  }

  lemma ApplyWrites(t: Tables, row: SweptRow, action: Action, probe: PidProbe, host: MachineId, now: Millis)
    ensures OnlyWrites(t.executions, ApplyAction(t, row, action, probe, host, now).tables.executions, row.id)
  {
    StampWrites(t, row.id, now);
    ReleaseWrites(t, row.id, ExecTerminated);
    if action.ReleaseAs? {
      ReleaseWrites(t, row.id, action.terminal);
    }
    hide ReleaseExecution, StampSuspected, StampCancel;
  }

  /** Sweeping one row writes no other execution. */
  lemma SweepRowWrites(t: Tables, row: SweptRow, probe: PidProbe, host: MachineId, now: Millis)
    ensures OnlyWrites(t.executions, SweepRow(t, row, probe, host, now).tables.executions, row.id)
  {
    hide ApplyAction, ReleaseExecution, DecideStuckAction, FactsOf, ClassifyWorkerProcessIdentity, HeartbeatStale, Guarded;
    ReleaseWrites(t, row.id, ExecLost);
    ApplyWrites(t, row, DecideStuckAction(row.execution, FactsOf(row, probe, host, now), now), probe, host, now);
  }

  lemma ListsRowTail(rows: seq<SweptRow>, e: ExecutionId)
    requires rows != []
    ensures ListsRow(rows, e) <==> rows[0].id == e || ListsRow(rows[1..], e)
  {
    if ListsRow(rows, e) && rows[0].id != e {
      var i :| 0 <= i < |rows| && rows[i].id == e;
      assert rows[1..][i - 1].id == e;
    }
    if ListsRow(rows[1..], e) {
      var i :| 0 <= i < |rows[1..]| && rows[1..][i].id == e;
      assert rows[i + 1].id == e;
    }
  }

  lemma {:induction false} ReconcileFrame(t: Tables, rows: seq<SweptRow>, probes: ExecutionId -> PidProbe, host: MachineId, now: Millis,
                                          e: ExecutionId)
    requires e in t.executions && !ListsRow(rows, e)
    ensures
      var n := Reconcile(t, rows, probes, host, now).tables;
      n.executions.Keys == t.executions.Keys && n.executions[e] == t.executions[e]
    decreases |rows|
  {
    hide SweepRow, ListsRow;
    if rows != [] {
      ListsRowTail(rows, e);
      SweepRowWrites(t, rows[0], probes(rows[0].id), host, now);
      ReconcileFrame(SweepRow(t, rows[0], probes(rows[0].id), host, now).tables, rows[1..], probes, host, now, e);
    }
  }

  /** What the sweep does to its i-th row is what sweeping that row alone does to it. */
  lemma {:induction false} ReconcileOn(t: Tables, rows: seq<SweptRow>, probes: ExecutionId -> PidProbe, host: MachineId, now: Millis,
                                       i: nat) returns (m: Tables)
    requires DistinctRows(rows) && i < |rows| && rows[i].id in t.executions
    ensures rows[i].id in m.executions && m.executions[rows[i].id] == t.executions[rows[i].id]
    ensures
      var e := rows[i].id;
      var whole := Reconcile(t, rows, probes, host, now);
      var alone := SweepRow(m, rows[i], probes(e), host, now);
      && e in whole.tables.executions && e in alone.tables.executions
      && whole.tables.executions[e] == alone.tables.executions[e]
      && i < |whole.results| && whole.results[i] == alone.result
    decreases |rows|
  {
    hide SweepRow;
    var e := rows[i].id;
    var first := SweepRow(t, rows[0], probes(rows[0].id), host, now);
    SweepRowWrites(t, rows[0], probes(rows[0].id), host, now);
    if i == 0 {
      m := t;
      assert !ListsRow(rows[1..], e);
      ReconcileFrame(first.tables, rows[1..], probes, host, now, e);
    } else {
      m := ReconcileOn(first.tables, rows[1..], probes, host, now, i - 1);
    }
  }

  /** What an action makes of the execution's own row. */
  function Effect(row: Execution, action: Action, probe: PidProbe, now: Millis): Execution {
    match action
    case Keep | TerminateButPidReuse => row
    case MarkSuspected =>
      if row.stuck == Some(SuspectedStuck) then row
      else row.(stuck := Some(SuspectedStuck), clocks := row.clocks.(suspectedAt := now))
    case RequestCancel => row.(stuck := Some(CancelRequested), clocks := row.clocks.(cancelRequestedAt := now))
    case TerminateWorker => if row.pid.Some? && row.birthToken.Some? && probe.killed then row.(state := ExecTerminated) else row
    case ReleaseAs(terminal) => row.(state := terminal)
  }

  lemma ApplyEffect(t: Tables, row: SweptRow, action: Action, probe: PidProbe, host: MachineId, now: Millis)
    requires Live(t, row.id) && t.executions[row.id] == row.execution
    ensures
      var n := ApplyAction(t, row, action, probe, host, now);
      && row.id in n.tables.executions && n.tables.executions[row.id] == Effect(row.execution, action, probe, now)
      && (n.killIssued ==> action == TerminateWorker)
  {
    hide ReleaseExecution;
    ReleasedRow(t, row.id, ExecTerminated);
    if action.ReleaseAs? {
      ReleasedRow(t, row.id, action.terminal);
    }
    StampedRow(t, row.id, now);
    hide StampSuspected, StampCancel;
  }

  lemma StampedRow(t: Tables, e: ExecutionId, now: Millis)
    requires Live(t, e)
    ensures e in StampSuspected(t, e, now).executions && e in StampCancel(t, e, now).executions
    ensures
      var row := t.executions[e];
      && StampSuspected(t, e, now).executions[e]
           == (if row.stuck == Some(SuspectedStuck) then row else row.(stuck := Some(SuspectedStuck), clocks := row.clocks.(suspectedAt := now)))
      && StampCancel(t, e, now).executions[e] == row.(stuck := Some(CancelRequested), clocks := row.clocks.(cancelRequestedAt := now))
  {
  }

  function SweptTo(row: SweptRow, probe: PidProbe, host: MachineId, now: Millis): Execution {
    if Guarded(row.execution, host) && ClassifyWorkerProcessIdentity(row.execution, probe) == Foreign
    then if HeartbeatStale(row.execution, now) then row.execution.(state := ExecLost) else row.execution
    else Effect(row.execution, DecideStuckAction(row.execution, FactsOf(row, probe, host, now), now), probe, now)
  }

  lemma SweepRowEffect(t: Tables, row: SweptRow, probe: PidProbe, host: MachineId, now: Millis)
    requires Live(t, row.id) && t.executions[row.id] == row.execution
    ensures
      var n := SweepRow(t, row, probe, host, now);
      && row.id in n.tables.executions && n.tables.executions[row.id] == SweptTo(row, probe, host, now)
      && (n.killIssued ==> DecideStuckAction(row.execution, FactsOf(row, probe, host, now), now) == TerminateWorker)
  {
    ReleasedRow(t, row.id, ExecLost);
    ApplyEffect(t, row, DecideStuckAction(row.execution, FactsOf(row, probe, host, now), now), probe, host, now);
    hide ReleaseExecution, ApplyAction, DecideStuckAction, FactsOf, ClassifyWorkerProcessIdentity, Guarded, HeartbeatStale, Effect, Live;
  }

  // ---- a foreign PID over a run of sweeps --------------------------------------------------------------

  function SweepAll(t: Tables, project: nat, host: MachineId, sweeps: seq<Sweep>): Tables
    decreases |sweeps|
  {
    if sweeps == [] then t else SweepAll(SweepOnce(t, project, host, sweeps[0]), project, host, sweeps[1..])
  }

  /** Each sweep selects what its SELECT would, and finds the PID of `e` foreign as long as `e` runs. */
  predicate ForeignThroughout(t: Tables, project: nat, host: MachineId, sweeps: seq<Sweep>, e: ExecutionId)
    decreases |sweeps|
  {
    sweeps == [] ||
    (&& Swept(t, sweeps[0].rows, project)
     && (Live(t, e) ==> ClassifyWorkerProcessIdentity(t.executions[e], sweeps[0].probes(e)) == Foreign)
     && ForeignThroughout(SweepOnce(t, project, host, sweeps[0]), project, host, sweeps[1..], e))
  }

  predicate EverStale(row: Execution, sweeps: seq<Sweep>) {
    exists i | 0 <= i < |sweeps| :: HeartbeatStale(row, sweeps[i].now)
  }

  lemma ForeignSweep(t: Tables, project: nat, host: MachineId, sweep: Sweep, e: ExecutionId)
    requires InScope(t, e, project) && Guarded(t.executions[e], host) && Swept(t, sweep.rows, project)
    requires ClassifyWorkerProcessIdentity(t.executions[e], sweep.probes(e)) == Foreign
    ensures
      var n := SweepOnce(t, project, host, sweep);
      e in n.executions &&
      n.executions[e] == if HeartbeatStale(t.executions[e], sweep.now) then t.executions[e].(state := ExecLost) else t.executions[e]
  {
    var i :| 0 <= i < |sweep.rows| && sweep.rows[i].id == e;
    assert sweep.rows[i] in sweep.rows;
    var m := ReconcileOn(t, sweep.rows, sweep.probes, host, sweep.now, i);
    ForeignIsNeverKilled(m, sweep.rows[i], sweep.probes(e), host, sweep.now);
    ReleasedRow(m, e, ExecLost);
    var reconciled := Reconcile(t, sweep.rows, sweep.probes, host, sweep.now);
    EveryRowGetsOneResult(t, sweep.rows, sweep.probes, host, sweep.now);
    hide SweepRow, Reconcile, ReleaseExecution, Swept, ClassifyWorkerProcessIdentity, HeartbeatStale;
    assert reconciled.results[i] in reconciled.results;
  }

  lemma ReleasedRow(t: Tables, e: ExecutionId, terminal: ExecutionState)
    requires Live(t, e)
    ensures e in ReleaseExecution(t, e, terminal, None).tables.executions
    ensures ReleaseExecution(t, e, terminal, None).tables.executions[e] == t.executions[e].(state := terminal)
  {
    hide RetryExhausted, RestoredStatus;
  }

  lemma ListedIsLive(t: Tables, rows: seq<SweptRow>, project: nat, e: ExecutionId)
    requires Swept(t, rows, project) && ListsRow(rows, e)
    ensures Live(t, e)
  {
    var i :| 0 <= i < |rows| && rows[i].id == e;
    assert rows[i] in rows;
  }

  lemma DeadSweep(t: Tables, project: nat, host: MachineId, sweep: Sweep, e: ExecutionId)
    requires Dead(t, e) && Swept(t, sweep.rows, project)
    ensures
      var n := SweepOnce(t, project, host, sweep);
      e in n.executions && n.executions[e] == t.executions[e]
  {
    hide Swept, ListsRow;
    if ListsRow(sweep.rows, e) {
      ListedIsLive(t, sweep.rows, project, e);
    }
    ReconcileFrame(t, sweep.rows, sweep.probes, host, sweep.now, e);
  }

  lemma {:induction false} DeadSweeps(t: Tables, project: nat, host: MachineId, sweeps: seq<Sweep>, e: ExecutionId)
    requires Dead(t, e) && ForeignThroughout(t, project, host, sweeps, e)
    ensures
      var n := SweepAll(t, project, host, sweeps);
      e in n.executions && n.executions[e] == t.executions[e]
    decreases |sweeps|
  {
    hide SweepOnce, Swept;
    if sweeps != [] {
      DeadSweep(t, project, host, sweeps[0], e);
      DeadSweeps(SweepOnce(t, project, host, sweeps[0]), project, host, sweeps[1..], e);
    }
  }

  /**
   * A running worker whose PID now belongs to another process: over any run of
   * sweeps its row stays untouched, heartbeat included, until the first sweep
   * that finds that heartbeat stale, which releases it as lost. Sweeping can
   * neither kill the stranger nor keep the row alive forever.
   */
  lemma {:induction false} ForeignIsLostOnceStale(t: Tables, project: nat, host: MachineId, sweeps: seq<Sweep>, e: ExecutionId)
    requires InScope(t, e, project) && Guarded(t.executions[e], host)
    requires ForeignThroughout(t, project, host, sweeps, e)
    ensures
      var n := SweepAll(t, project, host, sweeps);
      e in n.executions &&
      n.executions[e] == if EverStale(t.executions[e], sweeps) then t.executions[e].(state := ExecLost) else t.executions[e]
    decreases |sweeps|
  {
    hide SweepOnce, Swept, HeartbeatStale, ClassifyWorkerProcessIdentity;
    if sweeps != [] {
      var row := t.executions[e];
      ForeignSweep(t, project, host, sweeps[0], e);
      var n := SweepOnce(t, project, host, sweeps[0]);
      if HeartbeatStale(row, sweeps[0].now) {
        DeadSweeps(n, project, host, sweeps[1..], e);
      } else {
        ForeignIsLostOnceStale(n, project, host, sweeps[1..], e);
        StaleLater(row, sweeps);
      }
    }
  }

  lemma StaleLater(row: Execution, sweeps: seq<Sweep>)
    requires sweeps != [] && !HeartbeatStale(row, sweeps[0].now)
    ensures EverStale(row, sweeps) <==> EverStale(row, sweeps[1..])
  {
    hide HeartbeatStale;
    if EverStale(row, sweeps) {
      var i :| 0 <= i < |sweeps| && HeartbeatStale(row, sweeps[i].now);
      assert sweeps[1..][i - 1] == sweeps[i];
    }
    if EverStale(row, sweeps[1..]) {
      var i :| 0 <= i < |sweeps[1..]| && HeartbeatStale(row, sweeps[1..][i].now);
      assert sweeps[i + 1] == sweeps[1..][i];
    }
  }

  // ---- patience: no kill before the whole escalation has run -----------------------------------------------

  const PATIENCE_MS: nat := STUCK_SILENCE_MS + STUCK_CANCEL_GRACE_MS + CANCEL_GRACE_MS

  /** Each stage of the escalation was entered no sooner than its window after the last progress `p`. */
  predicate Patient(row: Execution, p: Millis) {
    && row.clocks.progressAt == p && p != 0
    && (row.stuck == Some(SuspectedStuck) ==> row.clocks.suspectedAt >= p + STUCK_SILENCE_MS)
    && (row.stuck == Some(CancelRequested) ==> row.clocks.cancelRequestedAt >= p + STUCK_SILENCE_MS + STUCK_CANCEL_GRACE_MS)
  }

  /** The row still owns an allowed phase and its lease is alive when the sweep looks. */
  predicate Owned(row: SweptRow, probe: PidProbe, host: MachineId, now: Millis) {
    Legitimate(FactsOf(row, probe, host, now)) && !LeaseExpired(row.execution.clocks, now)
  }

  lemma PatientDecision(row: SweptRow, probe: PidProbe, host: MachineId, now: Millis, p: Millis)
    requires Patient(row.execution, p) && Owned(row, probe, host, now)
    ensures
      var action := DecideStuckAction(row.execution, FactsOf(row, probe, host, now), now);
      && (action == TerminateWorker ==> now >= p + PATIENCE_MS)
      && (action == RequestCancel ==> now >= p + STUCK_SILENCE_MS + STUCK_CANCEL_GRACE_MS)
      && (action == MarkSuspected ==> now >= p + STUCK_SILENCE_MS)
      && (action.ReleaseAs? ==> !Active(action.terminal))
  {
  }

  /** One sweep of an owned row: no early kill, and the row stays patient unless it ends. */
  lemma PatientSweepRow(t: Tables, row: SweptRow, probe: PidProbe, host: MachineId, now: Millis, p: Millis)
    requires Live(t, row.id) && t.executions[row.id] == row.execution
    requires Patient(row.execution, p) && Owned(row, probe, host, now)
    ensures
      var swept := SweepRow(t, row, probe, host, now);
      && (swept.killIssued ==> now >= p + PATIENCE_MS)
      && row.id in swept.tables.executions
      && (Live(swept.tables, row.id) ==> Patient(swept.tables.executions[row.id], p))
  {
    PatientDecision(row, probe, host, now, p);
    SweepRowEffect(t, row, probe, host, now);
    hide SweepRow, DecideStuckAction, FactsOf, Owned, ClassifyWorkerProcessIdentity, Guarded, HeartbeatStale;
  }

  /** What a sweep of `e` decides, read off the tables it selected from. */
  function KillsOn(t: Tables, sweep: Sweep, host: MachineId, e: ExecutionId): bool
    requires e in t.executions
  {
    SweepRow(t, Join(t, e), sweep.probes(e), host, sweep.now).killIssued
  }

  predicate OwnedThroughout(t: Tables, project: nat, host: MachineId, sweeps: seq<Sweep>, e: ExecutionId)
    decreases |sweeps|
  {
    sweeps == [] ||
    (&& Swept(t, sweeps[0].rows, project)
     && (InScope(t, e, project) ==> Owned(Join(t, e), sweeps[0].probes(e), host, sweeps[0].now))
     && OwnedThroughout(SweepOnce(t, project, host, sweeps[0]), project, host, sweeps[1..], e))
  }

  predicate NeverKillsEarly(t: Tables, project: nat, host: MachineId, sweeps: seq<Sweep>, e: ExecutionId, p: Millis)
    decreases |sweeps|
  {
    sweeps == [] ||
    (&& (InScope(t, e, project) && KillsOn(t, sweeps[0], host, e) ==> sweeps[0].now >= p + PATIENCE_MS)
     && NeverKillsEarly(SweepOnce(t, project, host, sweeps[0]), project, host, sweeps[1..], e, p))
  }

  lemma PatientSweep(t: Tables, project: nat, host: MachineId, sweep: Sweep, e: ExecutionId, p: Millis)
    requires InScope(t, e, project) && Patient(t.executions[e], p) && Swept(t, sweep.rows, project)
    requires Owned(Join(t, e), sweep.probes(e), host, sweep.now)
    ensures KillsOn(t, sweep, host, e) ==> sweep.now >= p + PATIENCE_MS
    ensures
      var n := SweepOnce(t, project, host, sweep);
      e in n.executions && n.executions[e].project == t.executions[e].project && (Live(n, e) ==> Patient(n.executions[e], p))
  {
    PatientSweepRow(t, Join(t, e), sweep.probes(e), host, sweep.now, p);
    var i :| 0 <= i < |sweep.rows| && sweep.rows[i].id == e;
    assert sweep.rows[i] in sweep.rows;
    var m := ReconcileOn(t, sweep.rows, sweep.probes, host, sweep.now, i);
    PatientSweepRow(m, sweep.rows[i], sweep.probes(e), host, sweep.now, p);
    SweepRowProject(m, sweep.rows[i], sweep.probes(e), host, sweep.now);
    hide SweepRow, Reconcile, Swept, Owned, Legitimate;
  }

  lemma SweepRowProject(t: Tables, row: SweptRow, probe: PidProbe, host: MachineId, now: Millis)
    requires Live(t, row.id) && t.executions[row.id] == row.execution
    ensures
      var n := SweepRow(t, row, probe, host, now).tables;
      row.id in n.executions && n.executions[row.id].project == t.executions[row.id].project
  {
    SweepRowEffect(t, row, probe, host, now);
    hide SweepRow, DecideStuckAction, FactsOf, ClassifyWorkerProcessIdentity, Guarded, HeartbeatStale;
  }

  /**
   * A worker that keeps its card and its lease is not killed by any sweep of any
   * run until sixteen minutes after its last progress: ten of silence, five of
   * suspicion, one of cancellation.
   */
  lemma {:induction false} OwnedIsKilledOnlyAfterTheGraces(t: Tables, project: nat, host: MachineId, sweeps: seq<Sweep>, e: ExecutionId, p: Millis)
    requires e in t.executions && t.executions[e].project == project
    requires Live(t, e) ==> Patient(t.executions[e], p)
    requires OwnedThroughout(t, project, host, sweeps, e)
    ensures NeverKillsEarly(t, project, host, sweeps, e, p)
    decreases |sweeps|
  {
    hide SweepOnce, Swept, Patient, Owned, KillsOn;
    if sweeps != [] {
      if Live(t, e) {
        PatientSweep(t, project, host, sweeps[0], e, p);
      } else {
        DeadSweep(t, project, host, sweeps[0], e);
      }
      OwnedIsKilledOnlyAfterTheGraces(SweepOnce(t, project, host, sweeps[0]), project, host, sweeps[1..], e, p);
    }
  }

  // ---- sweeps keep the protocol's invariant ----------------------------------------------------------------

  lemma StampsKeep(t: Tables, e: ExecutionId, now: Millis)
    requires Inv(t)
    ensures Inv(StampSuspected(t, e, now)) && Grows(t, StampSuspected(t, e, now))
    ensures Inv(StampCancel(t, e, now)) && Grows(t, StampCancel(t, e, now))
  {
    GrowsReflexive(t);
    if Live(t, e) {
      LiveIsUnfenced(t, e);
      hide Inv, Grows;
      UpdateExecution(t, e, StampCancel(t, e, now).executions[e]);
      if t.executions[e].stuck != Some(SuspectedStuck) {
        UpdateExecution(t, e, StampSuspected(t, e, now).executions[e]);
      }
    }
  }

  lemma ProgressKeeps(t: Tables, e: ExecutionId, now: Millis)
    requires Inv(t)
    ensures Inv(MarkProgress(t, e, now)) && Grows(t, MarkProgress(t, e, now))
  {
    GrowsReflexive(t);
    if Live(t, e) {
      LiveIsUnfenced(t, e);
      hide Inv, Grows;
      UpdateExecution(t, e, MarkProgress(t, e, now).executions[e]);
    }
  }

  lemma LiveIsUnfenced(t: Tables, e: ExecutionId)
    requires Inv(t) && Live(t, e)
    ensures t.executions[e].stopFence == 0 && !t.executions[e].voided
  {
  }

  lemma SweepRowKeeps(t: Tables, row: SweptRow, probe: PidProbe, host: MachineId, now: Millis)
    requires Inv(t)
    ensures Inv(SweepRow(t, row, probe, host, now).tables) && Grows(t, SweepRow(t, row, probe, host, now).tables)
  {
    var action := DecideStuckAction(row.execution, FactsOf(row, probe, host, now), now);
    ReleasesEnd(row.execution, FactsOf(row, probe, host, now), now);
    ReleaseKeeps(t, row.id, ExecLost, None);
    GrowsReflexive(t);
    hide Inv, Grows, ReleaseExecution, ApplyAction, DecideStuckAction, FactsOf, ClassifyWorkerProcessIdentity, Guarded, HeartbeatStale;
    ApplyKeeps(t, row, action, probe, host, now);
  }

  lemma ApplyKeeps(t: Tables, row: SweptRow, action: Action, probe: PidProbe, host: MachineId, now: Millis)
    requires Inv(t) && (action.ReleaseAs? ==> !Active(action.terminal))
    ensures
      var n := ApplyAction(t, row, action, probe, host, now).tables;
      Inv(n) && Grows(t, n)
  {
    hide Inv, Grows, ReleaseExecution, StampSuspected, StampCancel;
    GrowsReflexive(t);
    StampsKeep(t, row.id, now);
    ReleaseKeeps(t, row.id, if action.ReleaseAs? then action.terminal else ExecTerminated, None);
  }

  lemma ReleasesEnd(row: Execution, facts: Facts, now: Millis)
    ensures
      var action := DecideStuckAction(row, facts, now);
      action.ReleaseAs? ==> action.terminal == ExecLost || action.terminal == ExecSpawnFailed
  {
  }

  lemma {:induction false} ReconcileKeeps(t: Tables, rows: seq<SweptRow>, probes: ExecutionId -> PidProbe, host: MachineId, now: Millis)
    requires Inv(t)
    ensures Inv(Reconcile(t, rows, probes, host, now).tables) && Grows(t, Reconcile(t, rows, probes, host, now).tables)
    decreases |rows|
  {
    hide Inv, Grows, SweepRow;
    if rows == [] {
      GrowsReflexive(t);
    } else {
      SweepRowKeeps(t, rows[0], probes(rows[0].id), host, now);
      var m := SweepRow(t, rows[0], probes(rows[0].id), host, now).tables;
      ReconcileKeeps(m, rows[1..], probes, host, now);
      GrowsTransitive(t, m, Reconcile(t, rows, probes, host, now).tables);
    }
  }

  lemma RenewKeeps(t: Tables, project: nat, host: MachineId, now: Millis, ttl: Millis, excluded: set<ExecutionId>)
    requires Inv(t)
    ensures Inv(RenewLeases(t, project, host, now, ttl, excluded)) && Grows(t, RenewLeases(t, project, host, now, ttl, excluded))
  {
    var n := RenewLeases(t, project, host, now, ttl, excluded);
    assert ExecutionsOk(n.executions) && OneActive(n.executions) && ExecutionsGrow(t.executions, n.executions);
    assert StopsOk(n.stops, n.executions) && HoldsOk(n.holds, n.executions);
    assert CardsOk(n.tasks, n.executions) && HiresOk(n.workplaces, n.executions, n.tasks, n.receipts);
  }

  // ---- the imperative pass --------------------------------------------------------------------------------

  method SelectSwept(db: FactoryDb, project: nat) returns (rows: seq<SweptRow>)
    ensures Swept(db.Rows(), rows, project)
  {
    rows := [];
    ghost var t := db.Rows();
    var todo := set e | e in db.executions && InScope(db.Rows(), e, project);
    ghost var all := todo;
    while todo != {}
      invariant todo <= all
      invariant forall row <- rows :: row.id in all - todo && InScope(t, row.id, project) && row == Join(t, row.id)
      invariant DistinctRows(rows)
      invariant forall e <- all - todo :: ListsRow(rows, e)
      decreases |todo|
    {
      var e :| e in todo;
      ghost var before := rows;
      rows := rows + [Join(db.Rows(), e)];
      todo := todo - {e};
      assert rows[|before|].id == e;
      forall x <- all - todo - {e} ensures ListsRow(rows, x) {
        assert ListsRow(before, x);
        var i :| 0 <= i < |before| && before[i].id == x;
        assert rows[i].id == x;
      }
    }
  }

  method MarkExecutionProgress(db: FactoryDb, e: ExecutionId, now: Millis)
    modifies db
    ensures db.Rows() == MarkProgress(old(db.Rows()), e, now)
  {
    if e in db.executions && Active(db.executions[e].state) {
      var row := db.executions[e];
      db.executions := db.executions[e := row.(clocks := row.clocks.(progressAt := now))];
    }
  }

  method StampStuck(db: FactoryDb, e: ExecutionId, suspect: bool, now: Millis)
    modifies db
    ensures db.Rows() == if suspect then StampSuspected(old(db.Rows()), e, now) else StampCancel(old(db.Rows()), e, now)
  {
    if e in db.executions && Active(db.executions[e].state) {
      var row := db.executions[e];
      if !suspect {
        db.executions := db.executions[e := row.(stuck := Some(CancelRequested), clocks := row.clocks.(cancelRequestedAt := now))];
      } else if row.stuck != Some(SuspectedStuck) {
        db.executions := db.executions[e := row.(stuck := Some(SuspectedStuck), clocks := row.clocks.(suspectedAt := now))];
      }
    }
  }

  method DispatchAction(db: FactoryDb, row: SweptRow, action: Action, probe: PidProbe, host: MachineId, now: Millis)
    returns (result: SweepResult, killIssued: bool)
    modifies db
    ensures RowSweep(db.Rows(), result, killIssued) == ApplyAction(old(db.Rows()), row, action, probe, host, now)
  {
    hide ReleaseExecution, StampSuspected, StampCancel;
    killIssued := false;
    result := SweepResult(row.id, Kept, false, false, false);
    match action {
      case Keep =>
        if row.execution.machine != host {
          result := result.(action := RemoteUnknown);
        }
      case TerminateButPidReuse =>
      case MarkSuspected =>
        StampStuck(db, row.id, true, now);
      case RequestCancel =>
        StampStuck(db, row.id, false, now);
      case TerminateWorker =>
        killIssued := row.execution.pid.Some? && row.execution.birthToken.Some?;
        if killIssued && probe.killed {
          var terminalized, released := ReleaseExecutionAtomically(db, row.id, ExecTerminated, None);
          result := SweepResult(row.id, TerminatedRow, released, false, false);
        }
      case ReleaseAs(terminal) =>
        var terminalized, released := ReleaseExecutionAtomically(db, row.id, terminal, None);
        result := SweepResult(row.id, LostRow, released, false, false);
    }
  }

  method ReconcileRow(db: FactoryDb, row: SweptRow, probe: PidProbe, host: MachineId, now: Millis) returns (result: SweepResult)
    modifies db
    ensures
      var swept := SweepRow(old(db.Rows()), row, probe, host, now);
      db.Rows() == swept.tables && result == swept.result
  {
    hide ReleaseExecution, ApplyAction, DecideStuckAction, FactsOf, ClassifyWorkerProcessIdentity, HeartbeatStale;
    var guarded := Guarded(row.execution, host);
    var identity := if guarded then ClassifyWorkerProcessIdentity(row.execution, probe) else Ours;
    if guarded && identity == Foreign {
      if HeartbeatStale(row.execution, now) {
        var terminalized, released := ReleaseExecutionAtomically(db, row.id, ExecLost, None);
        return SweepResult(row.id, LostRow, released, false, false);
      }
      return SweepResult(row.id, Kept, false, true, false);
    }
    var killIssued: bool;
    result, killIssued := DispatchAction(db, row, DecideStuckAction(row.execution, FactsOf(row, probe, host, now), now), probe, host, now);
    result := result.(unverifiable := guarded && identity == Unknown);
  }

  method ReconcileWorkerExecutions(db: FactoryDb, project: nat, probes: ExecutionId -> PidProbe, host: MachineId, now: Millis)
    returns (results: seq<SweepResult>, ghost rows: seq<SweptRow>)
    modifies db
    ensures Swept(old(db.Rows()), rows, project)
    ensures Reconciled(db.Rows(), results) == Reconcile(old(db.Rows()), rows, probes, host, now)
    ensures |results| == |rows| && forall i | 0 <= i < |rows| :: results[i].execution == rows[i].id
  {
    hide SweepRow;
    var selected := SelectSwept(db, project);
    rows := selected;
    results := [];
    ghost var t := db.Rows();
    EveryRowGetsOneResult(t, rows, probes, host, now);
    var i := 0;
    assert rows[0..] == rows;
    assert [] + Reconcile(t, rows, probes, host, now).results == Reconcile(t, rows, probes, host, now).results;
    while i < |selected|
      invariant 0 <= i <= |selected|
      invariant
        var rest := Reconcile(db.Rows(), selected[i..], probes, host, now);
        Reconcile(t, selected, probes, host, now) == Reconciled(rest.tables, results + rest.results)
    {
      assert selected[i..][0] == selected[i] && selected[i..][1..] == selected[i + 1..];
      ghost var now', done := db.Rows(), results;
      var result := ReconcileRow(db, selected[i], probes(selected[i].id), host, now);
      ghost var rest := Reconcile(db.Rows(), selected[i + 1..], probes, host, now);
      assert done + ([result] + rest.results) == (done + [result]) + rest.results;
      results := results + [result];
      i := i + 1;
    }
    assert results + [] == results;
  }
}
