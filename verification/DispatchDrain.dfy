/** The dispatch drain: assignment under durable admission, card poisoning, bounded waits. */
module DispatchDrain {
  import opened Results

  // ---- the bounded wait for one worker ----------------------------------------------------

  datatype Durable = DurableTerminal | DurableOpen | DurableThrew | NoDurableProbe

  datatype Snapshot = NoSnapshot | RunSnapshot(terminal: bool, completed: nat, failed: nat) | StatusThrew

  /** What one poll observes, and the wall clock by then. */
  datatype Poll = Poll(durable: Durable, snapshot: Snapshot, elapsedMs: nat)

  datatype Bounds = Bounds(maxPolls: int, maxMs: int)

  datatype Wait = Finished(count: nat) | Deferred | WaitThrew

  predicate Escalates(polls: nat, elapsedMs: nat, bounds: Bounds) {
    polls >= bounds.maxPolls || elapsedMs >= bounds.maxMs
  }

  /** How a poll ends the wait on its own evidence, if it does. */
  function Settles(poll: Poll): Option<Wait> {
    if poll.durable.DurableTerminal? then Some(Finished(1))
    else match poll.snapshot
      case StatusThrew => Some(WaitThrew)
      case NoSnapshot => Some(Finished(1))
      case RunSnapshot(terminal, completed, failed) =>
        if !terminal then None else Some(Finished(if completed + failed > 0 then completed + failed else 1))
  }

  /** The wait ends at its k-th poll: nothing settled or escalated before, and this one settles or escalates. */
  predicate EndsAt(polls: nat -> Poll, bounds: Option<Bounds>, k: nat, wait: Wait) {
    && k >= 1
    && (forall j | 1 <= j < k :: Settles(polls(j)).None? && (bounds.Some? ==> !Escalates(j, polls(j).elapsedMs, bounds.value)))
    && (match Settles(polls(k))
        case Some(own) => wait == own
        case None => wait == Deferred && bounds.Some? && Escalates(k, polls(k).elapsedMs, bounds.value))
  }

  /**
   * Polls until the worker settles or a bound is reached; a poll that settles
   * exactly at the bound still counts as settled. Only a deferred worker keeps
   * its executor. Without bounds the caller vouches that some poll settles.
   */
  method WaitForAssignedWorker(polls: nat -> Poll, bounds: Option<Bounds>, ghost settled: nat)
    returns (wait: Wait, disposed: bool, ghost k: nat)
    requires bounds.None? ==> settled >= 1 && Settles(polls(settled)).Some?
    ensures EndsAt(polls, bounds, k, wait)
    ensures disposed <==> wait != Deferred
    ensures wait == Deferred || wait == WaitThrew || wait.count >= 1
    ensures bounds.Some? ==> k <= (if bounds.value.maxPolls >= 1 then bounds.value.maxPolls else 1)
    ensures wait == Deferred ==> bounds.Some? && (k >= bounds.value.maxPolls || polls(k).elapsedMs >= bounds.value.maxMs)
    ensures bounds.Some? ==> forall j | 1 <= j < k :: j < bounds.value.maxPolls && polls(j).elapsedMs < bounds.value.maxMs
  {
    var count := 0;
    while true
      invariant forall j | 1 <= j <= count :: Settles(polls(j)).None? && (bounds.Some? ==> !Escalates(j, polls(j).elapsedMs, bounds.value))
      invariant bounds.None? ==> count < settled
      invariant bounds.Some? ==> count == 0 || count < bounds.value.maxPolls
      decreases if bounds.Some? then (if bounds.value.maxPolls >= 1 then bounds.value.maxPolls else 1) - count else settled - count
    {
      count := count + 1;
      var poll := polls(count);
      if poll.durable.DurableTerminal? {
        return Finished(1), true, count;
      }
      match poll.snapshot {
        case StatusThrew =>
          return WaitThrew, true, count;
        case NoSnapshot =>
          return Finished(1), true, count;
        case RunSnapshot(terminal, completed, failed) =>
          if terminal {
            return Finished(if completed + failed > 0 then completed + failed else 1), true, count;
          }
      }
      if bounds.Some? && Escalates(count, poll.elapsedMs, bounds.value) {
        return Deferred, false, count;
      }
    }
  }

  /** The run reported itself over, with this many of its cards completed or failed. */
  predicate RunOver(snapshot: Snapshot, n: nat) {
    snapshot.RunSnapshot? && snapshot.terminal && n == snapshot.completed + snapshot.failed
  }

  /** What each ending of a poll means: a finished worker counts the cards its run closed, and never less than one. */
  lemma SettlesIff(poll: Poll, wait: Wait)
    ensures Settles(poll) == Some(wait) <==>
      match wait
      case Deferred => false
      case WaitThrew => !poll.durable.DurableTerminal? && poll.snapshot.StatusThrew?
      case Finished(n) =>
        || (n == 1 && (poll.durable.DurableTerminal? || poll.snapshot.NoSnapshot? || RunOver(poll.snapshot, 0)))
        || (n >= 1 && !poll.durable.DurableTerminal? && RunOver(poll.snapshot, n))
  {
  }

  /** The end of a wait is a function of what it polls. */
  lemma WaitEndsOnce(polls: nat -> Poll, bounds: Option<Bounds>, j: nat, a: Wait, k: nat, b: Wait)
    requires EndsAt(polls, bounds, j, a) && EndsAt(polls, bounds, k, b)
    ensures j == k && a == b
  {
    assert !(j < k) && !(k < j);
  }

  // ---- admission -------------------------------------------------------------------------------

  datatype Admission = Admission(operator: int, model: int, effective: int, active: int)

  const MAX_CONCURRENCY: int := 10

  predicate InRange(n: int) { 1 <= n <= MAX_CONCURRENCY }

  predicate AdmissionOk(a: Admission) {
    && InRange(a.operator) && InRange(a.model) && InRange(a.effective)
    && a.effective == (if a.operator <= a.model then a.operator else a.model)
    && a.active >= 0
  }

  /** Every limit is between one and ten, the effective one is the smaller of the two others, and the count is one. */
  lemma AdmissionOkIff(a: Admission)
    ensures AdmissionOk(a) <==>
      && 1 <= a.operator <= 10 && 1 <= a.model <= 10 && 0 <= a.active
      && a.effective <= a.operator && a.effective <= a.model && (a.effective == a.operator || a.effective == a.model)
  {
  }

  // ---- one attempt ---------------------------------------------------------------------------------

  type Card = nat

  datatype Start = Started | StartFailed(recoverable: bool)

  /** What the assignment port answers; a claimed card is then given to an executor. */
  datatype Attempt =
    | ClaimFailed(card: Option<Card>, recoverable: bool)
    | NothingQueued
    | Claimed(task: Card, start: Start)

  /** One call of the assignment port: the look that admitted it, what that look read, the cards it excluded, its answer. */
  datatype Entry = Entry(look: nat, admission: Admission, excluded: set<Card>, attempt: Attempt)

  /** The world around one drain, indexed by call number. */
  datatype Env = Env(
    admissions: nat -> Admission,
    kernelPending: nat -> bool,
    attempts: (nat, set<Card>) -> Attempt,
    waits: nat -> Wait,
    /** Which active waits have settled when the n-th race resolves. */
    settled: (nat, set<nat>) -> set<nat>)

  /** The card an attempt proves broken for the rest of the drain. */
  function Poisons(attempt: Attempt): set<Card> {
    match attempt
    case ClaimFailed(Some(card), true) => {card}
    case Claimed(task, StartFailed(true)) => {task}
    case _ => {}
  }

  function Poisoned(log: seq<Entry>): set<Card>
    decreases |log|
  {
    if log == [] then {} else Poisoned(log[..|log| - 1]) + Poisons(log[|log| - 1].attempt)
  }

  predicate StillQueued(attempt: Attempt, excluded: set<Card>) {
    match attempt
    case ClaimFailed(Some(card), _) => card !in excluded
    case Claimed(task, _) => task !in excluded
    case _ => true
  }

  /** A finite supply of claims over finitely many cards, a port that honours exclusions, a race that settles someone. */
  ghost predicate Fair(env: Env, cards: set<Card>, supply: nat -> nat) {
    && (forall k: nat, ex: set<Card> :: StillQueued(env.attempts(k, ex), ex))
    && (forall k: nat, ex: set<Card> :: Poisons(env.attempts(k, ex)) <= cards)
    && (forall k: nat, ex: set<Card> ::
          supply(k + 1) <= supply(k) && (env.attempts(k, ex).Claimed? ==> supply(k + 1) < supply(k)))
    && (forall n: nat, active: set<nat> :: active != {} ==> env.settled(n, active) * active != {})
    && (forall k: nat :: env.waits(k).Finished? ==> env.waits(k).count >= 1)
  }

  // ---- the drain's state -------------------------------------------------------------------------------

  datatype Fate = ReleasedAfterStart | Disposed(count: nat) | LeftToSupervision

  datatype Drain = Drain(
    looks: nat,
    races: nat,
    unresolved: nat,
    log: seq<Entry>,
    /** Claims whose worker is still awaited, by position in the log. */
    active: set<nat>,
    fates: map<nat, Fate>,
    terminal: nat)

  const MAX_UNRESOLVED_CARD_ERRORS: nat := 10

  function Total(fates: map<nat, Fate>, n: nat): nat {
    if n == 0 then 0
    else Total(fates, n - 1) + (if n - 1 in fates && fates[n - 1].Disposed? then fates[n - 1].count else 0)
  }

  lemma {:induction false} TotalAfter(fates: map<nat, Fate>, n: nat, k: nat, fate: Fate)
    requires k !in fates
    ensures Total(fates[k := fate], n) == Total(fates, n) + (if k < n && fate.Disposed? then fate.count else 0)
    decreases n
  {
    if n > 0 {
      TotalAfter(fates, n - 1, k, fate);
    }
  }

  lemma {:induction false} TotalBeyond(fates: map<nat, Fate>, n: nat)
    requires n !in fates
    ensures Total(fates, n + 1) == Total(fates, n)
  {
  }

  predicate IsClaim(log: seq<Entry>, k: nat) {
    k < |log| && log[k].attempt.Claimed?
  }

  /** Every assignment was admitted below the cap, and excluded exactly the cards poisoned so far. */
  predicate LogOk(log: seq<Entry>) {
    forall k | 0 <= k < |log| ::
      && AdmissionOk(log[k].admission) && log[k].admission.active < log[k].admission.effective
      && log[k].excluded == Poisoned(log[..k])
      && StillQueued(log[k].attempt, log[k].excluded)
  }

  predicate FateFits(env: Env, log: seq<Entry>, k: nat, fate: Fate) {
    IsClaim(log, k) &&
    match fate
    case ReleasedAfterStart => log[k].attempt.start.StartFailed?
    case Disposed(count) => log[k].attempt.start.Started? && env.waits(k) == Finished(count)
    case LeftToSupervision => log[k].attempt.start.Started? && env.waits(k) == Deferred
  }

  /** Each claim is awaited or has its one fate, and the running sum counts the fates. */
  predicate Accounted(env: Env, s: Drain) {
    && (forall k: nat | k < |s.log| :: IsClaim(s.log, k) <==> k in s.active || k in s.fates)
    && (forall k <- s.active :: IsClaim(s.log, k) && s.log[k].attempt.start.Started?)
    && (forall k <- s.fates :: FateFits(env, s.log, k, s.fates[k]))
    && s.active !! s.fates.Keys
    && s.terminal == Total(s.fates, |s.log|)
  }

  predicate DrainOk(env: Env, s: Drain) {
    LogOk(s.log) && Accounted(env, s)
  }

  /** An error the drain rethrows. */
  predicate FatalAttempt(attempt: Attempt) {
    match attempt
    case ClaimFailed(_, recoverable) => !recoverable
    case Claimed(_, start) => start == StartFailed(false)
    case NothingQueued => false
  }

  predicate Clean(log: seq<Entry>) {
    forall k | 0 <= k < |log| :: !FatalAttempt(log[k].attempt)
  }

  /** The entry reports what the world showed it: an admission read at its own look, and the port's own answer. */
  predicate Seen(env: Env, entry: Entry, k: nat, looks: nat) {
    && entry.look < looks && !env.kernelPending(entry.look)
    && entry.admission == env.admissions(entry.look) && entry.attempt == env.attempts(k, entry.excluded)
  }

  predicate Traced(env: Env, log: seq<Entry>, looks: nat) {
    && (forall k | 0 <= k < |log| :: Seen(env, log[k], k, looks))
    && (forall j, k | 0 <= j < k < |log| :: log[j].look < log[k].look)
  }

  lemma TracedAppend(env: Env, log: seq<Entry>, entry: Entry)
    requires Traced(env, log, entry.look) && Seen(env, entry, |log|, entry.look + 1)
    ensures Traced(env, log + [entry], entry.look + 1)
  {
    forall k | 0 <= k < |log| ensures Seen(env, (log + [entry])[k], k, entry.look + 1) && log[k].look < entry.look {
      assert Seen(env, log[k], k, entry.look);
    }
  }

  /** Card errors without a card identity. */
  function Unresolved(log: seq<Entry>): nat
    decreases |log|
  {
    if log == [] then 0
    else Unresolved(log[..|log| - 1]) + (if log[|log| - 1].attempt == ClaimFailed(None, true) then 1 else 0)
  }

  lemma UnresolvedAppend(log: seq<Entry>, entry: Entry)
    ensures Unresolved(log + [entry]) == Unresolved(log) + (if entry.attempt == ClaimFailed(None, true) then 1 else 0)
  {
    assert (log + [entry])[..|log|] == log;
  }

  /** What the last look found that ended the filling. */
  predicate StopFits(env: Env, s: Drain, stop: Stop) {
    && s.looks > 0
    && var look := s.looks - 1;
       var last := if s.log != [] && s.log[|s.log| - 1].look == look then Some(s.log[|s.log| - 1].attempt) else None;
       match stop
       case KernelWork => env.kernelPending(look)
       case CapacityBlocked =>
         !env.kernelPending(look) && AdmissionOk(env.admissions(look)) && env.admissions(look).active >= env.admissions(look).effective
       case QueueExhausted =>
         last == Some(NothingQueued) || (last == Some(ClaimFailed(None, true)) && Unresolved(s.log) >= MAX_UNRESOLVED_CARD_ERRORS)
       case Fatal =>
         (!env.kernelPending(look) && !AdmissionOk(env.admissions(look))) || (last.Some? && FatalAttempt(last.value))
  }

  // ---- what remains to be done ------------------------------------------------------------------------------

  ghost function Left(env: Env, s: Drain, cards: set<Card>, supply: nat -> nat): nat {
    supply(|s.log|) + |cards - Poisoned(s.log)|
    + (if s.unresolved < MAX_UNRESOLVED_CARD_ERRORS then MAX_UNRESOLVED_CARD_ERRORS - s.unresolved else 0)
  }

  lemma PoisonedAppend(log: seq<Entry>, entry: Entry)
    ensures Poisoned(log + [entry]) == Poisoned(log) + Poisons(entry.attempt)
  {
    assert (log + [entry])[..|log|] == log;
  }

  lemma LogAppend(log: seq<Entry>, entry: Entry)
    requires LogOk(log) && AdmissionOk(entry.admission) && entry.admission.active < entry.admission.effective
    requires entry.excluded == Poisoned(log) && StillQueued(entry.attempt, entry.excluded)
    ensures LogOk(log + [entry])
  {
    hide Poisoned, StillQueued, AdmissionOk;
    var n := log + [entry];
    forall k | 0 <= k < |n|
      ensures AdmissionOk(n[k].admission) && n[k].admission.active < n[k].admission.effective
      ensures n[k].excluded == Poisoned(n[..k]) && StillQueued(n[k].attempt, n[k].excluded)
    {
      assert n[..k] == if k < |log| then log[..k] else log;
    }
  }

  lemma FewerLeft(cards: set<Card>, before: set<Card>, poisons: set<Card>)
    ensures |cards - (before + poisons)| <= |cards - before|
    ensures poisons <= cards && poisons * before == {} && poisons != {} ==> |cards - (before + poisons)| < |cards - before|
  {
    var a, b := cards - (before + poisons), cards - before;
    assert a <= b;
    Subset(a, b);
    if poisons <= cards && poisons * before == {} && poisons != {} {
      var x :| x in poisons;
      assert x in b && x !in a;
      assert a <= b - {x};
      Subset(a, b - {x});
    }
  }

  lemma Subset<T>(a: set<T>, b: set<T>)
    requires a <= b
    ensures |a| <= |b|
  {
    if a != {} {
      var x :| x in a;
      Subset(a - {x}, b - {x});
    }
  }

  /** A logged claim without a fate yet: either it joins the active waits, or its failed start is its fate. */
  function Record(s: Drain, entry: Entry): Drain {
    var k := |s.log|;
    var logged := s.(log := s.log + [entry]);
    match entry.attempt
    case Claimed(_, Started) => logged.(active := s.active + {k})
    case Claimed(_, StartFailed(_)) => logged.(fates := s.fates[k := ReleasedAfterStart])
    case _ => logged
  }

  lemma RecordOk(env: Env, s: Drain, entry: Entry)
    requires DrainOk(env, s) && AdmissionOk(entry.admission) && entry.admission.active < entry.admission.effective
    requires entry.excluded == Poisoned(s.log) && StillQueued(entry.attempt, entry.excluded)
    ensures DrainOk(env, Record(s, entry))
  {
    LogAppend(s.log, entry);
    RecordAccounted(env, s, entry);
    hide LogOk, Accounted, Poisoned, StillQueued, AdmissionOk;
  }

  lemma RecordAccounted(env: Env, s: Drain, entry: Entry)
    requires Accounted(env, s)
    ensures Accounted(env, Record(s, entry))
  {
    var k := |s.log|;
    var n := Record(s, entry);
    assert k !in s.fates && k !in s.active;
    TotalBeyond(s.fates, k);
    TotalAfter(s.fates, k + 1, k, ReleasedAfterStart);
    forall j <- s.fates ensures FateFits(env, n.log, j, s.fates[j]) { assert n.log[j] == s.log[j]; }
    forall j: nat | j < |s.log| ensures n.log[j] == s.log[j] {}
    hide Total, FateFits;
    assert FateKept(n.fates, s.fates);
  }

  predicate FateKept(n: map<nat, Fate>, m: map<nat, Fate>) {
    forall j <- m :: j in n && n[j] == m[j]
  }

  lemma RecordLogs(s: Drain, entry: Entry)
    ensures Record(s, entry).log == s.log + [entry] && Record(s, entry).unresolved == s.unresolved
  {
  }

  lemma RecordLeft(env: Env, s: Drain, entry: Entry, cards: set<Card>, supply: nat -> nat)
    requires Fair(env, cards, supply)
    requires entry.excluded == Poisoned(s.log) && entry.attempt == env.attempts(|s.log|, entry.excluded)
    ensures Left(env, Record(s, entry), cards, supply) <= Left(env, s, cards, supply)
    ensures entry.attempt.Claimed? || Poisons(entry.attempt) != {} ==>
      Left(env, Record(s, entry), cards, supply) < Left(env, s, cards, supply)
  {
    FairStep(env, cards, supply, |s.log|, entry.excluded);
    hide Fair, Poisoned, StillQueued, Poisons, Record;
    PoisonedAppend(s.log, entry);
    FewerLeft(cards, Poisoned(s.log), Poisons(entry.attempt));
    RecordLogs(s, entry);
  }

  /** What fairness says about one call of the port. */
  lemma FairStep(env: Env, cards: set<Card>, supply: nat -> nat, k: nat, excluded: set<Card>)
    requires Fair(env, cards, supply)
    ensures
      var attempt := env.attempts(k, excluded);
      && Poisons(attempt) <= cards && Poisons(attempt) * excluded == {}
      && supply(k + 1) <= supply(k) && (attempt.Claimed? ==> supply(k + 1) < supply(k))
  {
    var attempt := env.attempts(k, excluded);
    assert StillQueued(attempt, excluded);
  }

  // ---- the loops --------------------------------------------------------------------------------------------

  datatype Stop = KernelWork | CapacityBlocked | QueueExhausted | Fatal

  /** Assigns until something stops it: kernel work, a full budget, an empty or unresolvable queue, a fatal error. */
  method FillSlots(env: Env, s0: Drain, ghost cards: set<Card>, ghost supply: nat -> nat) returns (s: Drain, stop: Stop)
    requires Fair(env, cards, supply) && DrainOk(env, s0)
    requires Traced(env, s0.log, s0.looks) && Clean(s0.log) && s0.unresolved == Unresolved(s0.log)
    ensures DrainOk(env, s) && Traced(env, s.log, s.looks) && s.unresolved == Unresolved(s.log)
    ensures StopFits(env, s, stop) && (stop == Fatal || Clean(s.log))
    ensures s0.log <= s.log
    ensures Left(env, s, cards, supply) < Left(env, s0, cards, supply)
            || (Left(env, s, cards, supply) == Left(env, s0, cards, supply) && s.active == s0.active)
  {
    hide Fair, Left, LogOk, Accounted, StillQueued, Poisoned, Traced, Unresolved;
    s := s0;
    var poisoned := Poisoned(s.log);
    while true
      invariant DrainOk(env, s) && poisoned == Poisoned(s.log)
      invariant Traced(env, s.log, s.looks) && Clean(s.log) && s.unresolved == Unresolved(s.log) && s0.log <= s.log
      invariant Left(env, s, cards, supply) < Left(env, s0, cards, supply) || s == s0.(looks := s.looks)
      decreases Left(env, s, cards, supply)
    {
      LooksAreFree(env, s, s.looks + 1, cards, supply);
      LaterLook(env, s.log, s.looks);
      var look := s.looks;
      s := s.(looks := look + 1);
      if env.kernelPending(look) {
        return s, KernelWork;
      }
      var admission := env.admissions(look);
      if !AdmissionOk(admission) {
        return s, Fatal;
      }
      if admission.active >= admission.effective {
        return s, CapacityBlocked;
      }
      var entry := Entry(look, admission, poisoned, env.attempts(|s.log|, poisoned));
      Honoured(env, |s.log|, poisoned, cards, supply);
      RecordOk(env, s, entry);
      RecordLeft(env, s, entry, cards, supply);
      PoisonedAppend(s.log, entry);
      TracedAppend(env, s.log, entry);
      UnresolvedAppend(s.log, entry);
      s := Record(s, entry);
      poisoned := poisoned + Poisons(entry.attempt);
      match entry.attempt {
        case ClaimFailed(card, recoverable) =>
          if !recoverable {
            return s, Fatal;
          }
          if card.None? {
            OneMoreUnresolved(env, s, cards, supply);
            s := s.(unresolved := s.unresolved + 1);
            if s.unresolved >= MAX_UNRESOLVED_CARD_ERRORS {
              return s, QueueExhausted;
            }
          }
        case NothingQueued =>
          return s, QueueExhausted;
        case Claimed(task, start) =>
          if start == StartFailed(false) {
            return s, Fatal;
          }
      }
    }
  }

  /** A further look leaves the log as it was; so its trace is one of more looks too. */
  lemma LaterLook(env: Env, log: seq<Entry>, looks: nat)
    requires Traced(env, log, looks)
    ensures Traced(env, log, looks + 1)
  {
    forall k | 0 <= k < |log| ensures Seen(env, log[k], k, looks + 1) {
      assert Seen(env, log[k], k, looks);
    }
  }

  lemma LooksAreFree(env: Env, s: Drain, looks: nat, cards: set<Card>, supply: nat -> nat)
    ensures Left(env, s.(looks := looks), cards, supply) == Left(env, s, cards, supply)
    ensures DrainOk(env, s.(looks := looks)) == DrainOk(env, s)
  {
  }

  lemma Honoured(env: Env, k: nat, excluded: set<Card>, cards: set<Card>, supply: nat -> nat)
    requires Fair(env, cards, supply)
    ensures StillQueued(env.attempts(k, excluded), excluded)
  {
  }

  lemma OneMoreUnresolved(env: Env, s: Drain, cards: set<Card>, supply: nat -> nat)
    ensures
      var n := s.(unresolved := s.unresolved + 1);
      && Left(env, n, cards, supply) <= Left(env, s, cards, supply)
      && (n.unresolved < MAX_UNRESOLVED_CARD_ERRORS ==> Left(env, n, cards, supply) < Left(env, s, cards, supply))
      && DrainOk(env, n) == DrainOk(env, s)
  {
  }

  /** The fate a settled wait gives its claim. */
  function Settle(s: Drain, k: nat, wait: Wait): Drain
    requires wait != WaitThrew
  {
    var settled := s.(active := s.active - {k});
    match wait
    case Finished(count) => settled.(fates := s.fates[k := Disposed(count)], terminal := s.terminal + count)
    case Deferred => settled.(fates := s.fates[k := LeftToSupervision])
  }

  lemma SettleOk(env: Env, s: Drain, k: nat)
    requires DrainOk(env, s) && k in s.active && env.waits(k) != WaitThrew
    ensures DrainOk(env, Settle(s, k, env.waits(k)))
  {
    hide LogOk, Total;
    var n := Settle(s, k, env.waits(k));
    TotalAfter(s.fates, |s.log|, k, n.fates[k]);
    assert FateFits(env, s.log, k, n.fates[k]);
    hide FateFits;
    assert n.log == s.log && n.active == s.active - {k} && n.fates == s.fates[k := n.fates[k]];
  }

  /** Promise.race: some active waits have settled; each gets its fate, and a rejected one rejects the drain. */
  method AwaitAny(env: Env, s0: Drain, ghost cards: set<Card>, ghost supply: nat -> nat) returns (s: Drain, threw: bool)
    requires Fair(env, cards, supply) && DrainOk(env, s0) && s0.active != {}
    ensures DrainOk(env, s) && s.log == s0.log && s.unresolved == s0.unresolved && s.looks == s0.looks
    ensures if threw then exists k <- s.active :: env.waits(k) == WaitThrew else s.active < s0.active
  {
    hide Accounted, LogOk;
    s := s0.(races := s0.races + 1);
    threw := false;
    var todo := env.settled(s0.races, s0.active) * s0.active;
    ghost var batch := todo;
    assert batch != {};
    assert DrainOk(env, s) by { RacesAreFree(env, s0, s0.races + 1); }
    while todo != {}
      invariant todo <= batch && DrainOk(env, s)
      invariant s.log == s0.log && s.unresolved == s0.unresolved && s.looks == s0.looks
      invariant s.active == s0.active - (batch - todo)
      decreases |todo|
    {
      var k :| k in todo;
      if env.waits(k) == WaitThrew {
        return s, true;
      }
      SettleOk(env, s, k);
      s := Settle(s, k, env.waits(k));
      todo := todo - {k};
    }
  }

  lemma RacesAreFree(env: Env, s: Drain, races: nat)
    ensures DrainOk(env, s.(races := races)) == DrainOk(env, s)
  {
  }

  /**
   * Drains the queue. It ends well only when nothing is awaited any more and the
   * last look found kernel work, a full budget or an exhausted queue; it throws
   * only for a fatal attempt, a malformed admission or a failed wait. Either way
   * every claim is accounted for.
   */
  method DistributeQueuedTasks(env: Env, ghost cards: set<Card>, ghost supply: nat -> nat)
    returns (r: Result<nat>, s: Drain, ghost stop: Stop)
    requires Fair(env, cards, supply)
    ensures DrainOk(env, s) && Traced(env, s.log, s.looks)
    ensures r.Ok? ==> s.active == {} && r.value == s.terminal && stop != Fatal && StopFits(env, s, stop) && Clean(s.log)
    ensures r.Err? ==> (stop == Fatal && StopFits(env, s, stop)) || exists k <- s.active :: env.waits(k) == WaitThrew
  {
    hide Fair, Left, LogOk, Accounted, Traced, Clean, StopFits, Unresolved;
    s := Drain(0, 0, 0, [], {}, map[], 0);
    EmptyDrain(env);
    while true
      invariant DrainOk(env, s) && Traced(env, s.log, s.looks) && Clean(s.log) && s.unresolved == Unresolved(s.log)
      decreases Left(env, s, cards, supply), |s.active|
    {
      var end: Stop;
      s, end := FillSlots(env, s, cards, supply);
      stop := end;
      if end == Fatal {
        return Err("fatal dispatch error"), s, stop;
      }
      if s.active == {} {
        return Ok(s.terminal), s, stop;
      }
      ghost var filled := s;
      var threw: bool;
      s, threw := AwaitAny(env, s, cards, supply);
      if threw {
        return Err("worker wait failed"), s, stop;
      }
      SameLeft(env, filled, s, cards, supply);
      ProperSubset(s.active, filled.active);
    }
  }

  lemma EmptyDrain(env: Env)
    ensures DrainOk(env, Drain(0, 0, 0, [], {}, map[], 0)) && Traced(env, [], 0) && Clean([]) && Unresolved([]) == 0
  {
  }

  lemma SameLeft(env: Env, a: Drain, b: Drain, cards: set<Card>, supply: nat -> nat)
    requires b.log == a.log && b.unresolved == a.unresolved
    ensures Left(env, b, cards, supply) == Left(env, a, cards, supply)
  {
  }

  lemma ProperSubset<T>(a: set<T>, b: set<T>)
    requires a < b
    ensures |a| < |b|
  {
    var x :| x in b && x !in a;
    Subset(a, b - {x});
  }

  // ---- what a finished drain guarantees --------------------------------------------------------------------------

  /** Every claim ended in exactly the way its start and its wait dictate, and the result sums the completions. */
  lemma EveryClaimHasItsFate(env: Env, s: Drain, k: nat)
    requires DrainOk(env, s) && s.active == {}
    ensures IsClaim(s.log, k) <==> k in s.fates
    ensures k in s.fates ==>
      (s.fates[k] == ReleasedAfterStart <==> s.log[k].attempt.start.StartFailed?)
      && (s.fates[k].Disposed? <==> s.log[k].attempt.start.Started? && env.waits(k).Finished?)
      && (s.fates[k] == LeftToSupervision <==> s.log[k].attempt.start.Started? && env.waits(k) == Deferred)
      && (s.fates[k].Disposed? ==> s.fates[k].count == env.waits(k).count)
    ensures s.terminal == Total(s.fates, |s.log|)
  {
    if k in s.fates {
      assert FateFits(env, s.log, k, s.fates[k]);
    }
  }

  lemma {:induction false} PoisonedHolds(log: seq<Entry>, i: nat, card: Card)
    requires i < |log| && card in Poisons(log[i].attempt)
    ensures card in Poisoned(log)
    decreases |log|
  {
    if i < |log| - 1 {
      PoisonedHolds(log[..|log| - 1], i, card);
    }
  }

  /** The attempt named the card and failed on it in a recoverable way. */
  predicate Breaks(attempt: Attempt, card: Card) {
    match attempt
    case NothingQueued => false
    case ClaimFailed(named, recoverable) => recoverable && named == Some(card)
    case Claimed(task, start) => task == card && start.StartFailed? && start.recoverable
  }

  /** Each call excludes exactly the cards that broke in an earlier call of the drain. */
  lemma ExcludesTheBroken(log: seq<Entry>, k: nat, card: Card)
    requires LogOk(log) && k < |log|
    ensures card in log[k].excluded <==> exists j :: 0 <= j < k && Breaks(log[j].attempt, card)
  {
    PoisonedIff(log[..k], card);
  }

  lemma {:induction false} PoisonedIff(log: seq<Entry>, card: Card)
    ensures card in Poisoned(log) <==> exists j :: 0 <= j < |log| && Breaks(log[j].attempt, card)
    decreases |log|
  {
    if log != [] {
      var init := log[..|log| - 1];
      PoisonedIff(init, card);
      assert card in Poisons(log[|log| - 1].attempt) <==> Breaks(log[|log| - 1].attempt, card);
      if card in Poisoned(init) {
        var j :| 0 <= j < |init| && Breaks(init[j].attempt, card);
        assert log[j] == init[j];
      }
      if j :| 0 <= j < |log| && Breaks(log[j].attempt, card) {
        assert j < |init| ==> init[j] == log[j];
      }
    }
  }

  /** Poisoned once, never tried again: no later attempt names the card. */
  lemma PoisonedIsNeverAssigned(log: seq<Entry>, i: nat, j: nat, card: Card)
    requires LogOk(log) && i < j < |log| && card in Poisons(log[i].attempt)
    ensures log[j].attempt.Claimed? ==> log[j].attempt.task != card
    ensures log[j].attempt.ClaimFailed? ==> log[j].attempt.card != Some(card)
  {
    PoisonedHolds(log[..j], i, card);
  }

  predicate ClaimsAt(log: seq<Entry>, look: nat) {
    exists k | 0 <= k < |log| :: log[k].look == look && log[k].attempt.Claimed?
  }

  /** Nobody else assigns: from look to look the durable count rises by no more than the drain's own claim there. */
  predicate OnlyOurs(env: Env, log: seq<Entry>, looks: nat) {
    forall l: nat | l + 1 < looks :: Rises(env, log, l)
  }

  predicate Rises(env: Env, log: seq<Entry>, l: nat) {
    env.admissions(l + 1).active <= env.admissions(l).active + (if ClaimsAt(log, l) then 1 else 0)
  }

  /** A claim was admitted below the cap its own look read. */
  lemma ClaimsBelowTheCap(env: Env, log: seq<Entry>, looks: nat, look: nat)
    requires LogOk(log) && Traced(env, log, looks) && ClaimsAt(log, look)
    ensures AdmissionOk(env.admissions(look)) && env.admissions(look).active < env.admissions(look).effective
  {
    var k :| 0 <= k < |log| && log[k].look == look && log[k].attempt.Claimed?;
    assert Seen(env, log[k], k, looks);
  }

  /**
   * Over the whole drain, if nobody else assigns: wherever the durable count has
   * risen between two looks, it stands at or below the cap that was in force at
   * some claim in between, however the cap moved.
   */
  lemma {:induction false} RisesEndUnderTheCap(env: Env, log: seq<Entry>, looks: nat, a: nat, b: nat)
    requires LogOk(log) && Traced(env, log, looks) && OnlyOurs(env, log, looks) && a <= b < looks
    ensures env.admissions(b).active <= env.admissions(a).active
            || exists c: nat | a <= c < b :: ClaimsAt(log, c) && env.admissions(b).active <= env.admissions(c).effective
    decreases b
  {
    hide LogOk, Traced, ClaimsAt;
    if a < b {
      RisesEndUnderTheCap(env, log, looks, a, b - 1);
      assert Rises(env, log, b - 1);
      if ClaimsAt(log, b - 1) {
        ClaimsBelowTheCap(env, log, looks, b - 1);
      }
    }
  }

  /** So the drain itself never lifts the count above a bound that every cap it reads respects, even while the cap shrinks. */
  lemma DrainStaysUnderTheCap(env: Env, log: seq<Entry>, looks: nat, a: nat, b: nat, bound: int)
    requires LogOk(log) && Traced(env, log, looks) && OnlyOurs(env, log, looks) && a <= b < looks
    requires env.admissions(a).active <= bound && forall c: nat | a <= c < b && ClaimsAt(log, c) :: env.admissions(c).effective <= bound
    ensures env.admissions(b).active <= bound
  {
    RisesEndUnderTheCap(env, log, looks, a, b);
  }
}
