/**
 * When a sweep releases, kills, stamps or keeps a row: the exact conditions on
 * the row, its card and what the operating system answers, for one row, for a
 * whole pass and over runs of sweeps.
 */
module SupervisionVerdicts {
  import opened Results
  import opened FactoryTables
  import opened WorkAssignment
  import opened Supervision

  // ---- whose process is it --------------------------------------------------------------

  predicate Contains(line: string, part: string) {
    exists before: nat, after: nat :: before <= after <= |line| && line[before..after] == part
  }

  predicate Comparable(x: Execution, probe: PidProbe) {
    x.birthToken.Some? && probe.token.Some?
  }

  /** Another birth than the recorded one, or, where births cannot be compared, the engine's own command line. */
  predicate ForeignPid(x: Execution, probe: PidProbe) {
    if Comparable(x, probe) then probe.token.value != x.birthToken.value
    else probe.commandLine.Some? && Contains(probe.commandLine.value, "orchestrate-cli.js")
  }

  predicate OwnPid(x: Execution, probe: PidProbe) {
    if Comparable(x, probe) then probe.token.value == x.birthToken.value
    else probe.commandLine.Some? && !Contains(probe.commandLine.value, "orchestrate-cli.js")
         && Contains(probe.commandLine.value, "--permission-mode") && Contains(probe.commandLine.value, "--output-format")
  }

  lemma IncludesContains(line: string, part: string)
    ensures Includes(line, part) <==> Contains(line, part)
  {
    if Includes(line, part) {
      var i :| 0 <= i <= |line| && IncludesAt(line, part, i);
      assert line[i..i + |part|] == part;
    }
    if Contains(line, part) {
      var i: nat, j: nat :| i <= j <= |line| && line[i..j] == part;
      assert IncludesAt(line, part, i);
    }
  }

  lemma IdentityIff(x: Execution, probe: PidProbe)
    ensures ClassifyWorkerProcessIdentity(x, probe) == Foreign <==> x.pid.Some? && ForeignPid(x, probe)
    ensures ClassifyWorkerProcessIdentity(x, probe) == Ours <==> x.pid.Some? && OwnPid(x, probe)
  {
    if probe.commandLine.Some? {
      IncludesContains(probe.commandLine.value, "orchestrate-cli.js");
      IncludesContains(probe.commandLine.value, "--permission-mode");
      IncludesContains(probe.commandLine.value, "--output-format");
      NotInEmpty("orchestrate-cli.js");
      NotInEmpty("--permission-mode");
    }
    hide Includes, Contains;
  }

  lemma NotInEmpty(part: string)
    requires part != ""
    ensures !Contains("", part)
  {
  }

  // ---- what a sweep reads off one row -----------------------------------------------------

  /** A process answers behind a row that has left its spawn. */
  predicate Runs(x: Execution, probe: PidProbe) {
    !x.state.ExecReserved? && x.pid.Some? && probe.alive
  }

  predicate LeaseOver(x: Execution, now: Millis) {
    x.clocks.leaseExpiresAt != 0 && now >= x.clocks.leaseExpiresAt
  }

  /** The guard's scope: a local running row outside the stuck machine that nobody voided. */
  predicate Watched(x: Execution, host: MachineId) {
    && x.machine == host && x.state.ExecRunning? && !x.voided && x.pid.Some?
    && (x.stuck.Some? ==> x.stuck.value.StuckActive?)
  }

  predicate Stranger(x: Execution, probe: PidProbe, host: MachineId) {
    Watched(x, host) && ForeignPid(x, probe)
  }

  predicate HeartbeatOld(x: Execution, now: Millis) {
    x.clocks.heartbeatAt == 0 || now - x.clocks.heartbeatAt >= 120_000
  }

  predicate PhaseFresh(x: Execution, now: Millis) {
    now - x.clocks.phaseUpdatedAt < 30_000
  }

  predicate Fences(row: SweptRow) {
    row.task.Some? && row.task.value.current == Some(row.id)
  }

  /** Working its card, waiting for its merge, or just finished: the phases in which a live worker is left alone. */
  predicate Entitled(row: SweptRow, now: Millis) {
    && Fences(row)
    && var x, card := row.execution, row.task.value;
       || (card.assignedTo == Some(x.worker) && (card.status.TaskInProgress? || card.status.TaskReviewInProgress?))
       || (x.phase.Integrating? && card.status.TaskDone? && card.integration.IntegrationPending?)
       || (x.phase.Finishing? && PhaseFresh(x, now))
  }

  /** The grace after a completion, with or without the fence. */
  predicate WindingDown(row: SweptRow, now: Millis) {
    var x := row.execution;
    && PhaseFresh(x, now)
    && ((Fences(row) && x.phase.Finishing?)
        || (row.accepted && x.clocks.phaseUpdatedAt != 0 && (x.phase.Finishing? || x.phase.Integrating?)))
  }

  predicate CancelAsked(x: Execution) {
    x.stuck.Some? && x.stuck.value.CancelRequested?
  }

  predicate Quiet(x: Execution, now: Millis) {
    !CancelAsked(x) && x.clocks.progressAt != 0 && now - x.clocks.progressAt >= 600_000
  }

  predicate SuspectedLong(x: Execution, now: Millis) {
    && x.stuck.Some? && x.stuck.value.SuspectedStuck?
    && now >= (if x.clocks.suspectedAt == 0 then x.clocks.progressAt else x.clocks.suspectedAt) + 300_000
  }

  predicate CancelDue(x: Execution, now: Millis) {
    CancelAsked(x) && x.clocks.cancelRequestedAt != 0 && now >= x.clocks.cancelRequestedAt + 60_000
  }

  predicate BirthMatches(x: Execution, probe: PidProbe) {
    x.pid.Some? && Comparable(x, probe) && probe.token.value == x.birthToken.value
  }

  // ---- the verdict on one row -----------------------------------------------------------------

  /** A live local worker the escalation has to decide about. */
  predicate Exposed(row: SweptRow, probe: PidProbe, host: MachineId, now: Millis) {
    && row.execution.machine == host && !Stranger(row.execution, probe, host)
    && Runs(row.execution, probe) && !WindingDown(row, now)
  }

  /** Released as lost: a remote lease ran out, a stranger's heartbeat went stale, the process is dead, or a reused pid outlived its grace. */
  predicate Lost(row: SweptRow, probe: PidProbe, host: MachineId, now: Millis) {
    var x := row.execution;
    || (x.machine != host && LeaseOver(x, now))
    || (Stranger(x, probe, host) && HeartbeatOld(x, now))
    || (x.machine == host && !Stranger(x, probe, host) && !x.state.ExecReserved? && !Runs(x, probe))
    || (Exposed(row, probe, host, now) && !LeaseOver(x, now) && CancelDue(x, now) && !BirthMatches(x, probe)
        && now >= x.clocks.cancelRequestedAt + 600_000)
  }

  /** Released as a failed spawn: a reservation of this host past its boot timeout or its lease. */
  predicate NeverBooted(x: Execution, host: MachineId, now: Millis) {
    && x.machine == host && x.state.ExecReserved?
    && (now - x.clocks.reservedAt >= 60_000 || LeaseOver(x, now))
  }

  /** To be killed: its supervisor is gone, its cancellation is due, or it has no business running. */
  predicate Condemned(row: SweptRow, probe: PidProbe, host: MachineId, now: Millis) {
    var x := row.execution;
    && Exposed(row, probe, host, now)
    && (|| LeaseOver(x, now)
        || (CancelDue(x, now) && BirthMatches(x, probe))
        || (!CancelDue(x, now) && !Entitled(row, now) && !(Quiet(x, now) && SuspectedLong(x, now))))
  }

  predicate KillLands(row: SweptRow, probe: PidProbe, host: MachineId, now: Millis) {
    Condemned(row, probe, host, now) && row.execution.birthToken.Some? && probe.killed
  }

  predicate AskedToStop(row: SweptRow, probe: PidProbe, host: MachineId, now: Millis) {
    var x := row.execution;
    Exposed(row, probe, host, now) && !LeaseOver(x, now) && Quiet(x, now) && SuspectedLong(x, now)
  }

  predicate NewlySuspected(row: SweptRow, probe: PidProbe, host: MachineId, now: Millis) {
    var x := row.execution;
    && Exposed(row, probe, host, now) && !LeaseOver(x, now) && Quiet(x, now) && Entitled(row, now)
    && !(x.stuck.Some? && x.stuck.value.SuspectedStuck?)
  }

  /** What the sweep makes of the row it was given. */
  function Verdict(row: SweptRow, probe: PidProbe, host: MachineId, now: Millis): Execution {
    var x := row.execution;
    if Lost(row, probe, host, now) then x.(state := ExecLost)
    else if NeverBooted(x, host, now) then x.(state := ExecSpawnFailed)
    else if KillLands(row, probe, host, now) then x.(state := ExecTerminated)
    else if AskedToStop(row, probe, host, now) then x.(stuck := Some(CancelRequested), clocks := x.clocks.(cancelRequestedAt := now))
    else if NewlySuspected(row, probe, host, now) then x.(stuck := Some(SuspectedStuck), clocks := x.clocks.(suspectedAt := now))
    else x
  }

  /** How the sweep reports the row. */
  predicate Reports(row: SweptRow, probe: PidProbe, host: MachineId, now: Millis, r: SweepResult) {
    var x := row.execution;
    && r.execution == row.id
    && (r.action == LostRow <==> Lost(row, probe, host, now) || NeverBooted(x, host, now))
    && (r.action == TerminatedRow <==> KillLands(row, probe, host, now))
    && (r.action == RemoteUnknown <==> x.machine != host && !LeaseOver(x, now))
    && (r.withhold <==> Stranger(x, probe, host) && !HeartbeatOld(x, now))
    && (r.unverifiable <==> Watched(x, host) && !ForeignPid(x, probe) && !OwnPid(x, probe))
  }

  /** The policy on a row the guard leaves to it. */
  lemma PolicyDecides(row: SweptRow, probe: PidProbe, host: MachineId, now: Millis)
    requires !Stranger(row.execution, probe, host)
    ensures
      var x := row.execution;
      var action := DecideStuckAction(x, FactsOf(row, probe, host, now), now);
      && (action == ReleaseAs(ExecLost) <==> Lost(row, probe, host, now))
      && (action == ReleaseAs(ExecSpawnFailed) <==> NeverBooted(x, host, now))
      && (action.ReleaseAs? ==> action.terminal == ExecLost || action.terminal == ExecSpawnFailed)
      && (action == TerminateWorker <==> Condemned(row, probe, host, now))
      && (action == RequestCancel <==> AskedToStop(row, probe, host, now))
      && (action == MarkSuspected && x.stuck != Some(SuspectedStuck) <==> NewlySuspected(row, probe, host, now))
  {
  }

  /** One swept row: its verdict, its report, and whether a kill was sent, from the row and the probe alone. */
  lemma SweepRowVerdict(t: Tables, row: SweptRow, probe: PidProbe, host: MachineId, now: Millis)
    requires Live(t, row.id) && t.executions[row.id] == row.execution
    ensures
      var n := SweepRow(t, row, probe, host, now);
      && row.id in n.tables.executions && n.tables.executions[row.id] == Verdict(row, probe, host, now)
      && Reports(row, probe, host, now, n.result)
      && (n.killIssued <==> Condemned(row, probe, host, now) && row.execution.birthToken.Some?)
  {
    var x := row.execution;
    IdentityIff(x, probe);
    GuardIff(x, host, now);
    SweepRowEffect(t, row, probe, host, now);
    RowResult(t, row, probe, host, now);
    hide DecideStuckAction, FactsOf, ClassifyWorkerProcessIdentity, Guarded, HeartbeatStale, ReleaseExecution, ForeignPid, OwnPid,
         HeartbeatOld, Condemned, Exposed, AskedToStop, NewlySuspected, NeverBooted, LeaseOver, StampSuspected, StampCancel, Live;
    if Stranger(x, probe, host) {
      StrangersAreSpared(row, probe, host, now);
    } else {
      PolicyDecides(row, probe, host, now);
      CondemnedHasPid(row, probe, host, now);
      VerdictsExclude(row, probe, host, now);
      if x.machine != host {
        RemoteVerdict(row, probe, host, now);
      }
    }
    hide SweptTo, Effect;
  }

  lemma GuardIff(x: Execution, host: MachineId, now: Millis)
    ensures Guarded(x, host) <==> Watched(x, host)
    ensures HeartbeatStale(x, now) <==> HeartbeatOld(x, now)
  {
  }

  lemma StrangersAreSpared(row: SweptRow, probe: PidProbe, host: MachineId, now: Millis)
    requires Stranger(row.execution, probe, host)
    ensures Lost(row, probe, host, now) <==> HeartbeatOld(row.execution, now)
    ensures !NeverBooted(row.execution, host, now) && !Condemned(row, probe, host, now) && row.execution.machine == host
    ensures !AskedToStop(row, probe, host, now) && !NewlySuspected(row, probe, host, now)
  {
  }

  lemma CondemnedHasPid(row: SweptRow, probe: PidProbe, host: MachineId, now: Millis)
    ensures Condemned(row, probe, host, now) ==> row.execution.pid.Some? && row.execution.machine == host
  {
  }

  lemma VerdictsExclude(row: SweptRow, probe: PidProbe, host: MachineId, now: Millis)
    ensures Lost(row, probe, host, now) ==> !NeverBooted(row.execution, host, now) && !Condemned(row, probe, host, now)
    ensures Condemned(row, probe, host, now) ==> !AskedToStop(row, probe, host, now) && !NewlySuspected(row, probe, host, now)
  {
  }

  /** A remote row is only ever lost or deferred. */
  lemma RemoteVerdict(row: SweptRow, probe: PidProbe, host: MachineId, now: Millis)
    requires row.execution.machine != host
    ensures Verdict(row, probe, host, now) == if LeaseOver(row.execution, now) then row.execution.(state := ExecLost) else row.execution
    ensures DecideStuckAction(row.execution, FactsOf(row, probe, host, now), now) == if LeaseOver(row.execution, now) then ReleaseAs(ExecLost) else Keep
  {
  }

  /** The terminal state the verdict releases the execution with, when it does. */
  function ReleasedWith(row: SweptRow, probe: PidProbe, host: MachineId, now: Millis): Option<ExecutionState> {
    if Lost(row, probe, host, now) then Some(ExecLost)
    else if NeverBooted(row.execution, host, now) then Some(ExecSpawnFailed)
    else if KillLands(row, probe, host, now) then Some(ExecTerminated)
    else None
  }

  /** A row that ends is released as the atomic release does it; any other sweep of a row writes executions only. */
  lemma EndedRowsAreReleased(t: Tables, row: SweptRow, probe: PidProbe, host: MachineId, now: Millis)
    ensures
      var n := SweepRow(t, row, probe, host, now);
      match ReleasedWith(row, probe, host, now)
      case Some(terminal) =>
        var release := ReleaseExecution(t, row.id, terminal, None);
        n.tables == release.tables && n.result.released == release.taskReleased
      case None => n.tables == t.(executions := n.tables.executions) && !n.result.released
  {
    var x := row.execution;
    IdentityIff(x, probe);
    GuardIff(x, host, now);
    hide DecideStuckAction, FactsOf, ClassifyWorkerProcessIdentity, Guarded, HeartbeatStale, ReleaseExecution, ForeignPid, OwnPid,
         HeartbeatOld, Condemned, Exposed, AskedToStop, NewlySuspected, NeverBooted, LeaseOver, Live, Lost;
    if Stranger(x, probe, host) {
      StrangersAreSpared(row, probe, host, now);
    } else {
      PolicyDecides(row, probe, host, now);
      CondemnedHasPid(row, probe, host, now);
      VerdictsExclude(row, probe, host, now);
    }
  }

  /** What a sweep selects: every active execution of its project once, with its card and whether a completion was accepted. */
  lemma SelectionIff(t: Tables, rows: seq<SweptRow>, project: nat, e: ExecutionId)
    requires Swept(t, rows, project)
    ensures ListsRow(rows, e) <==>
      e in t.executions && t.executions[e].project == project && t.executions[e].state in {ExecReserved, ExecRunning, ExecCancelRequested}
    ensures forall i | 0 <= i < |rows| && rows[i].id == e ::
      && e in t.executions && rows[i].execution == t.executions[e] && rows[i].accepted == (e in t.receipts)
      && rows[i].task == (var id := t.executions[e].task; if id in t.tasks then Some(t.tasks[id]) else None)
      && forall j | 0 <= j < |rows| && rows[j].id == e :: j == i
  {
    if ListsRow(rows, e) {
      ListedIsLive(t, rows, project, e);
      var i :| 0 <= i < |rows| && rows[i].id == e;
      assert rows[i] in rows;
    }
    forall i | 0 <= i < |rows| && rows[i].id == e ensures rows[i] == Join(t, e) && InScope(t, e, project) {
      assert rows[i] in rows;
    }
  }

  // ---- a whole pass --------------------------------------------------------------------------

  /** In one pass every selected row gets its verdict and its report, whatever the other rows got. */
  lemma PassVerdicts(t: Tables, project: nat, rows: seq<SweptRow>, probes: ExecutionId -> PidProbe, host: MachineId, now: Millis, e: ExecutionId)
    requires Swept(t, rows, project) && InScope(t, e, project)
    ensures
      var whole := Reconcile(t, rows, probes, host, now);
      && e in whole.tables.executions && whole.tables.executions[e] == Verdict(Join(t, e), probes(e), host, now)
      && (exists i | 0 <= i < |whole.results| :: Reports(Join(t, e), probes(e), host, now, whole.results[i]))
      && (forall r <- whole.results :: r.execution == e ==> Reports(Join(t, e), probes(e), host, now, r))
  {
    var i :| 0 <= i < |rows| && rows[i].id == e;
    assert rows[i] in rows;
    var m := ReconcileOn(t, rows, probes, host, now, i);
    var whole := Reconcile(t, rows, probes, host, now);
    SweepRowVerdict(m, rows[i], probes(e), host, now);
    EveryRowGetsOneResult(t, rows, probes, host, now);
    hide SweepRow, Reconcile, Verdict, Reports, InScope;
    assert Reports(Join(t, e), probes(e), host, now, whole.results[i]);
    forall k | 0 <= k < |whole.results| && whole.results[k].execution == e ensures k == i {
      assert rows[k].id == e;
    }
  }

  // ---- runs of sweeps ----------------------------------------------------------------------------

  /** Each sweep of the run selects what its query would. */
  predicate Selects(t: Tables, project: nat, host: MachineId, sweeps: seq<Sweep>)
    decreases |sweeps|
  {
    sweeps == [] ||
    (Swept(t, sweeps[0].rows, project) && Selects(SweepOnce(t, project, host, sweeps[0]), project, host, sweeps[1..]))
  }

  /** The renewal after the pass touches the lease and heartbeat of a row that still runs here. */
  lemma SweepVerdict(t: Tables, project: nat, host: MachineId, sweep: Sweep, e: ExecutionId)
    requires Swept(t, sweep.rows, project) && InScope(t, e, project)
    ensures
      var n := SweepOnce(t, project, host, sweep);
      var row := Verdict(Join(t, e), sweep.probes(e), host, sweep.now);
      && e in n.executions
      && n.executions[e] == if Active(row.state) && row.machine == host && !Held(t, sweep, host, e)
                            then row.(clocks := row.clocks.(leaseExpiresAt := sweep.now + sweep.ttl, heartbeatAt := sweep.now)) else row
  {
    PassVerdicts(t, project, sweep.rows, sweep.probes, host, sweep.now, e);
    var pass := Reconcile(t, sweep.rows, sweep.probes, host, sweep.now);
    VerdictProject(Join(t, e), sweep.probes(e), host, sweep.now);
    hide Reconcile, Verdict, Swept, Stranger, HeartbeatOld, Lost, NeverBooted, KillLands;
    if e in Withheld(pass.results) {
      var r :| r in pass.results && r.withhold && r.execution == e;
    }
    if Held(t, sweep, host, e) {
      var i :| 0 <= i < |pass.results| && Reports(Join(t, e), sweep.probes(e), host, sweep.now, pass.results[i]);
      assert pass.results[i] in pass.results;
    }
  }

  /** Its renewal is withheld: a stranger answers for a row whose heartbeat is still fresh. */
  predicate Held(t: Tables, sweep: Sweep, host: MachineId, e: ExecutionId)
    requires e in t.executions
  {
    Stranger(t.executions[e], sweep.probes(e), host) && !HeartbeatOld(t.executions[e], sweep.now)
  }

  lemma VerdictProject(row: SweptRow, probe: PidProbe, host: MachineId, now: Millis)
    ensures Verdict(row, probe, host, now).project == row.execution.project
    ensures Verdict(row, probe, host, now).machine == row.execution.machine
  {
    hide Lost, NeverBooted, KillLands, AskedToStop, NewlySuspected;
  }

  /** Some sweep of the run, looking at the row as it then is, loses it or fails its spawn. */
  predicate SeenGone(t: Tables, project: nat, host: MachineId, sweeps: seq<Sweep>, e: ExecutionId, terminal: ExecutionState)
    decreases |sweeps|
  {
    sweeps != [] &&
    ((InScope(t, e, project) && ReleasedWith(Join(t, e), sweeps[0].probes(e), host, sweeps[0].now) == Some(terminal))
     || SeenGone(SweepOnce(t, project, host, sweeps[0]), project, host, sweeps[1..], e, terminal))
  }

  lemma {:induction false} OverStays(t: Tables, project: nat, host: MachineId, sweeps: seq<Sweep>, e: ExecutionId, terminal: ExecutionState)
    requires Dead(t, e) && Selects(t, project, host, sweeps)
    ensures
      var n := SweepAll(t, project, host, sweeps);
      e in n.executions && n.executions[e] == t.executions[e]
    ensures !SeenGone(t, project, host, sweeps, e, terminal)
    decreases |sweeps|
  {
    hide SweepOnce, Swept, ReleasedWith;
    if sweeps != [] {
      DeadSweep(t, project, host, sweeps[0], e);
      OverStays(SweepOnce(t, project, host, sweeps[0]), project, host, sweeps[1..], e, terminal);
    }
  }

  /** After one sweep the row is over with the state its verdict gave it, or still in scope. */
  lemma SweptScope(t: Tables, project: nat, host: MachineId, sweep: Sweep, e: ExecutionId)
    requires Swept(t, sweep.rows, project) && InScope(t, e, project)
    ensures
      var n := SweepOnce(t, project, host, sweep);
      match ReleasedWith(Join(t, e), sweep.probes(e), host, sweep.now)
      case Some(terminal) => Dead(n, e) && n.executions[e].state == terminal
      case None => InScope(n, e, project)
  {
    SweepVerdict(t, project, host, sweep, e);
    VerdictProject(Join(t, e), sweep.probes(e), host, sweep.now);
    hide SweepOnce, Swept, Held, Lost, NeverBooted, KillLands, AskedToStop, NewlySuspected;
  }

  /**
   * Over every run of sweeps an execution of the project ends lost, as a failed
   * spawn or terminated exactly when some sweep, looking at its row as it then
   * is, releases it so; a row nobody releases is still running at the end.
   */
  lemma {:induction false} EndsWhenSeenGone(t: Tables, project: nat, host: MachineId, sweeps: seq<Sweep>, e: ExecutionId, terminal: ExecutionState)
    requires InScope(t, e, project) && Selects(t, project, host, sweeps) && !Active(terminal)
    ensures
      var n := SweepAll(t, project, host, sweeps);
      e in n.executions && (n.executions[e].state == terminal <==> SeenGone(t, project, host, sweeps, e, terminal))
    decreases |sweeps|
  {
    hide SweepOnce, Swept, ReleasedWith;
    if sweeps != [] {
      var n := SweepOnce(t, project, host, sweeps[0]);
      SweptScope(t, project, host, sweeps[0], e);
      if Dead(n, e) {
        OverStays(n, project, host, sweeps[1..], e, terminal);
      } else {
        EndsWhenSeenGone(n, project, host, sweeps[1..], e, terminal);
      }
    }
  }

  /** A dead local worker, or one on another host whose lease ran out, is lost in the first sweep that sees it. */
  lemma DeadWorkerIsLostAtOnce(t: Tables, project: nat, host: MachineId, sweeps: seq<Sweep>, e: ExecutionId)
    requires InScope(t, e, project) && sweeps != [] && Selects(t, project, host, sweeps)
    requires
      var x, sweep := t.executions[e], sweeps[0];
      if x.machine == host then !x.state.ExecReserved? && (x.pid.None? || !sweep.probes(e).alive) && !Stranger(x, sweep.probes(e), host)
      else x.clocks.leaseExpiresAt != 0 && sweep.now >= x.clocks.leaseExpiresAt
    ensures
      var n := SweepAll(t, project, host, sweeps);
      e in n.executions && n.executions[e].state == ExecLost
  {
    EndsWhenSeenGone(t, project, host, sweeps, e, ExecLost);
    hide SweepAll, SweepOnce, Swept, Exposed;
  }
}
