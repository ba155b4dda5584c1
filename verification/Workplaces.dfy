/** Values every module of the model shares: optional columns and typed refusals. */
module Results {
  datatype Option<+T> = None | Some(value: T)

  /** A transaction either commits a value or is rolled back with a reason. */
  datatype Result<+T> = Ok(value: T) | Err(error: string)
}

/**
 * The two-channel state of a Workplace (human Kanban phase, machine loop state)
 * and the pure reducer that moves it.
 */
module Workplaces {
  import opened Results

  datatype KanbanPhase = Todo | InProgress | Review | ReviewInProgress | Blocked | Done | FailedPhase | CancelledPhase

  datatype LoopState = Idle | Queued | Leased | Running | Verifying | EffectPending | RepairWait | Paused | Terminal

  datatype Role = Author | Reviewer

  datatype TerminalReason = Accepted | Failed | Cancelled

  datatype WorkplaceState = WorkplaceState(
    kanban: KanbanPhase,
    loop: LoopState,
    role: Role,
    revision: nat,
    reason: Option<TerminalReason>)

  datatype Verdict = VerdictAccepted | DefectProven | InvalidOutput

  datatype Event =
    | WorkAdmitted
    | WorkerLeased
    | WorkerStarted
    | CandidateSealed
    | CandidateCarriedForward
    | WorkerCrashed
    | WorkerLost
    | GateRepairRequired(target: Role)
    | GateAuthorAcceptedWithReview
    | GateAuthorAcceptedFinal(effect: bool)
    | ReviewerVerdict(verdict: Verdict, effectRequired: bool)
    | AcceptanceEffectSucceeded
    | AcceptanceEffectRepairRequired
    | HumanRequired
    | GateFailed
    | AuthorizedCancel
    | RepairRequeued(role: Role)

  predicate AllowedPair(kanban: KanbanPhase, loop: LoopState) {
    match kanban
    case Todo => loop == Idle
    case InProgress | ReviewInProgress => !loop.Idle? && !loop.Paused? && !loop.Terminal?
    case Review => loop == Queued
    case Blocked => loop == Paused
    case Done | FailedPhase | CancelledPhase => loop == Terminal
  }

  predicate RoleFits(kanban: KanbanPhase, role: Role) {
    match kanban
    case Todo | InProgress => role == Author
    case Review | ReviewInProgress => role == Reviewer
    case Blocked | Done | FailedPhase | CancelledPhase => true
  }

  function PhaseFor(reason: TerminalReason): KanbanPhase {
    match reason
    case Accepted => Done
    case Failed => FailedPhase
    case Cancelled => CancelledPhase
  }

  /** Closed pairs, role and terminal reason: the full boundary check. */
  predicate Valid(s: WorkplaceState) {
    && AllowedPair(s.kanban, s.loop)
    && (s.loop == Terminal <==> s.reason.Some?)
    && (s.loop == Terminal ==> s.kanban == PhaseFor(s.reason.value))
    && (s.loop != Terminal ==> RoleFits(s.kanban, s.role))
  }

  const INITIAL := WorkplaceState(Todo, Idle, Author, 0, None)

  function Close(s: WorkplaceState, reason: TerminalReason): WorkplaceState {
    WorkplaceState(PhaseFor(reason), Terminal, s.role, s.revision + 1, Some(reason))
  }

  /** The transition table, before the boundary check. None: the event does not apply. */
  function ComputeNext(s: WorkplaceState, event: Event): Option<WorkplaceState> {
    var n := s.(revision := s.revision + 1);
    match event
    case WorkAdmitted =>
      if s.kanban == Todo && s.loop == Idle then Some(n.(kanban := InProgress, loop := Queued, role := Author)) else None
    case WorkerLeased =>
      if s.loop != Queued then None
      else if s.kanban == Review then Some(n.(kanban := ReviewInProgress, loop := Leased))
      else Some(n.(loop := Leased))
    case WorkerStarted => if s.loop == Leased then Some(n.(loop := Running)) else None
    case CandidateSealed => if s.loop == Running then Some(n.(loop := Verifying)) else None
    case CandidateCarriedForward =>
      if s.kanban == InProgress && s.loop == Queued && s.role == Author then Some(n.(loop := Verifying)) else None
    case WorkerCrashed | WorkerLost => if s.loop == Running then Some(n.(loop := RepairWait)) else None
    case GateRepairRequired(target) =>
      if s.loop == Verifying && RoleFits(s.kanban, target) then Some(n.(loop := RepairWait, role := target)) else None
    case GateAuthorAcceptedWithReview =>
      if s.kanban == InProgress && s.loop == Verifying
      then Some(n.(kanban := Review, loop := Queued, role := Reviewer)) else None
    case GateAuthorAcceptedFinal(effect) =>
      if !(s.kanban == InProgress && s.loop == Verifying) then None
      else if effect then Some(n.(loop := EffectPending))
      else Some(Close(s, Accepted))
    case ReviewerVerdict(verdict, effectRequired) =>
      if !(s.kanban == ReviewInProgress && s.loop == Verifying) then None
      else (match verdict
        case VerdictAccepted => if effectRequired then Some(n.(loop := EffectPending)) else Some(Close(s, Accepted))
        case DefectProven => Some(n.(kanban := InProgress, loop := RepairWait, role := Author))
        case InvalidOutput => Some(n.(loop := RepairWait, role := Reviewer)))
    case AcceptanceEffectSucceeded => if s.loop == EffectPending then Some(Close(s, Accepted)) else None
    case AcceptanceEffectRepairRequired =>
      if s.loop == EffectPending then Some(n.(kanban := InProgress, loop := RepairWait, role := Author)) else None
    case HumanRequired => Some(n.(kanban := Blocked, loop := Paused))
    case GateFailed => Some(Close(s, Failed))
    case AuthorizedCancel => Some(Close(s, Cancelled))
    case RepairRequeued(role) =>
      if !(s.loop == RepairWait || s.loop == Paused) || !RoleFits(s.kanban, role) then None
      else if s.kanban == Blocked
      then Some(n.(kanban := if role == Reviewer then ReviewInProgress else InProgress, loop := Queued, role := role))
      else Some(n.(loop := Queued, role := role))
  }

  /** `reduceWorkplaceEvent`: the table, then the boundary check on what it produced. */
  function Reduce(s: WorkplaceState, event: Event): (r: Result<WorkplaceState>)
    ensures r.Ok? ==> Valid(r.value) && r.value.revision == s.revision + 1
  {
    match ComputeNext(s, event)
    case None => Err("NO_TRANSITION")
    case Some(n) => if Valid(n) then Ok(n) else Err("REG-28 violation")
  }

  /**
   * The table never leaves the closed state space on its own, with one
   * exception the boundary check catches: pausing a finished Workplace.
   */
  lemma DefenceFiresOnlyOnPausingTerminal(s: WorkplaceState, event: Event)
    requires Valid(s)
    ensures ComputeNext(s, event).Some? && Reduce(s, event).Err? <==> event.HumanRequired? && s.loop == Terminal
  {
  }

  /** A finished Workplace accepts only a new verdict of failure or cancellation, and stays finished. */
  lemma TerminalIsAbsorbing(s: WorkplaceState, event: Event)
    requires Valid(s) && s.loop == Terminal
    ensures Reduce(s, event).Ok? <==> event.GateFailed? || event.AuthorizedCancel?
    ensures Reduce(s, event).Ok? ==> Reduce(s, event).value.loop == Terminal
  {
  }

  // ---- the same machine, read from where it arrives -----------------------------------------

  /** The phase in which a role works. */
  function WorkPhase(role: Role): KanbanPhase {
    if role.Author? then InProgress else ReviewInProgress
  }

  /** The states a Workplace may be in, loop by loop. */
  predicate Shape(s: WorkplaceState) {
    match s.loop
    case Idle => s.kanban.Todo? && s.role.Author? && s.reason.None?
    case Queued => (s.kanban == WorkPhase(s.role) || (s.kanban.Review? && s.role.Reviewer?)) && s.reason.None?
    case Leased | Running | Verifying | EffectPending | RepairWait => s.kanban == WorkPhase(s.role) && s.reason.None?
    case Paused => s.kanban.Blocked? && s.reason.None?
    case Terminal =>
      || (s.reason == Some(Accepted) && s.kanban.Done?)
      || (s.reason == Some(Failed) && s.kanban.FailedPhase?)
      || (s.reason == Some(Cancelled) && s.kanban.CancelledPhase?)
  }

  lemma ValidIsShape(s: WorkplaceState)
    ensures Valid(s) <==> Shape(s)
  {
  }

  /** How a Workplace comes to wait for a worker of this role. */
  predicate Enqueues(s: WorkplaceState, event: Event, kanban: KanbanPhase, role: Role) {
    || (event.WorkAdmitted? && s.loop.Idle? && kanban.InProgress? && role.Author?)
    || (event.GateAuthorAcceptedWithReview? && s.loop.Verifying? && s.role.Author? && kanban.Review? && role.Reviewer?)
    || (event == RepairRequeued(role) && kanban == WorkPhase(role) && (s.loop.Paused? || (s.loop.RepairWait? && s.role == role)))
  }

  /** How it comes to need repair, and by whom. */
  predicate SendsToRepair(s: WorkplaceState, event: Event, role: Role) {
    || ((event.WorkerCrashed? || event.WorkerLost?) && s.loop.Running? && role == s.role)
    || (event == GateRepairRequired(role) && s.loop.Verifying? && role == s.role)
    || (event.ReviewerVerdict? && event.verdict.DefectProven? && s.loop.Verifying? && s.role.Reviewer? && role.Author?)
    || (event.ReviewerVerdict? && event.verdict.InvalidOutput? && s.loop.Verifying? && s.role.Reviewer? && role.Reviewer?)
    || (event.AcceptanceEffectRepairRequired? && s.loop.EffectPending? && role.Author?)
  }

  /** The gate's last word: accepted by the author's gate without review, or by the reviewer. */
  predicate Accepts(s: WorkplaceState, event: Event, effect: bool) {
    s.loop.Verifying? && if s.role.Author? then event == GateAuthorAcceptedFinal(effect) else event == ReviewerVerdict(VerdictAccepted, effect)
  }

  predicate Ends(s: WorkplaceState, event: Event, reason: TerminalReason) {
    match reason
    case Accepted => Accepts(s, event, false) || (event.AcceptanceEffectSucceeded? && s.loop.EffectPending?)
    case Failed => event.GateFailed?
    case Cancelled => event.AuthorizedCancel?
  }

  /** The edges of the machine by the state they lead to. */
  predicate Arrives(s: WorkplaceState, event: Event, n: WorkplaceState) {
    && n.revision == s.revision + 1
    && (n.loop.Terminal? <==> n.reason.Some?)
    && match n.loop
       case Idle => false
       case Queued => Enqueues(s, event, n.kanban, n.role)
       case Leased => event.WorkerLeased? && s.loop.Queued? && n.role == s.role && n.kanban == WorkPhase(s.role)
       case Running => event.WorkerStarted? && s.loop.Leased? && n.role == s.role && n.kanban == s.kanban
       case Verifying =>
         && n.role == s.role && n.kanban == s.kanban
         && ((event.CandidateSealed? && s.loop.Running?)
             || (event.CandidateCarriedForward? && s.loop.Queued? && s.role.Author?))
       case EffectPending => Accepts(s, event, true) && n.role == s.role && n.kanban == s.kanban
       case RepairWait => SendsToRepair(s, event, n.role) && n.kanban == WorkPhase(n.role)
       case Paused => event.HumanRequired? && !s.loop.Terminal? && n.kanban.Blocked? && n.role == s.role
       case Terminal => n.role == s.role && n.reason.Some? && n.kanban == PhaseFor(n.reason.value) && Ends(s, event, n.reason.value)
  }

  /** From every valid state the reducer takes exactly these edges. */
  lemma ReduceIsArrival(s: WorkplaceState, event: Event, n: WorkplaceState)
    requires Valid(s)
    ensures Reduce(s, event) == Ok(n) <==> Arrives(s, event, n)
  {
    if Reduce(s, event) == Ok(n) {
      ReducedArrives(s, event, n);
    }
    if Arrives(s, event, n) {
      ArrivedReduces(s, event, n);
    }
    hide Reduce, Arrives;
  }

  lemma ReducedArrives(s: WorkplaceState, event: Event, n: WorkplaceState)
    requires Valid(s) && Reduce(s, event) == Ok(n)
    ensures Arrives(s, event, n)
  {
  }

  lemma ArrivedReduces(s: WorkplaceState, event: Event, n: WorkplaceState)
    requires Valid(s) && Arrives(s, event, n)
    ensures Reduce(s, event) == Ok(n)
  {
    ArrivedIsValid(s, event, n);
    hide Shape, AllowedPair;
    assert ComputeNext(s, event) == Some(n);
  }

  lemma ArrivedIsValid(s: WorkplaceState, event: Event, n: WorkplaceState)
    requires Valid(s) && Arrives(s, event, n)
    ensures Valid(n)
  {
  }

  /** Worker, gate-repair and requeue events: the technical channel. */
  predicate Technical(event: Event) {
    || event.WorkerStarted? || event.CandidateSealed? || event.CandidateCarriedForward?
    || event.WorkerCrashed? || event.WorkerLost? || event.GateRepairRequired?
  }

  function ReduceAll(s: WorkplaceState, events: seq<Event>): Result<WorkplaceState>
    decreases |events|
  {
    if events == [] then Ok(s)
    else match Reduce(s, events[0])
      case Err(e) => Err(e)
      case Ok(n) => ReduceAll(n, events[1..])
  }

  /**
   * Over every run: validity is kept, the revision counts the events, the card
   * never returns to todo once it left, and technical events alone never move
   * the Kanban column.
   */
  lemma {:induction false} RunKeepsTheCard(s: WorkplaceState, events: seq<Event>)
    requires Valid(s) && ReduceAll(s, events).Ok?
    ensures
      var end := ReduceAll(s, events).value;
      && Valid(end)
      && end.revision == s.revision + |events|
      && (s.kanban != Todo || events != [] ==> end.kanban != Todo)
      && ((forall e <- events :: Technical(e)) ==> end.kanban == s.kanban)
    decreases |events|
  {
    if events != [] {
      RunKeepsTheCard(Reduce(s, events[0]).value, events[1..]);
      assert events[0] in events;
    }
  }

  /** The events that carry a card from wherever it stands to acceptance. */
  function RouteToDone(s: WorkplaceState): seq<Event>
    requires Valid(s)
    decreases match s.loop
      case Idle => 7 case Paused => 7 case RepairWait => 7
      case Queued => 6 case Leased => 5 case Running => 4 case Verifying => 3 case EffectPending => 2 case Terminal => 0
  {
    var step :=
      match s.loop
      case Idle => WorkAdmitted
      case Paused => RepairRequeued(Author)
      case RepairWait => RepairRequeued(s.role)
      case Queued => WorkerLeased
      case Leased => WorkerStarted
      case Running => CandidateSealed
      case Verifying => if s.kanban == InProgress then GateAuthorAcceptedFinal(false) else ReviewerVerdict(VerdictAccepted, false)
      case EffectPending => AcceptanceEffectSucceeded
      case Terminal => GateFailed;
    if s.loop == Terminal then [] else [step] + RouteToDone(Reduce(s, step).value)
  }

  /** No valid unfinished state is a trap: acceptance stays reachable from all of them. */
  lemma {:induction false} AcceptanceStaysReachable(s: WorkplaceState)
    requires Valid(s) && s.loop != Terminal
    ensures ReduceAll(s, RouteToDone(s)).Ok?
    ensures ReduceAll(s, RouteToDone(s)).value.kanban == Done
    decreases |RouteToDone(s)|
  {
    var route := RouteToDone(s);
    var n := Reduce(s, route[0]).value;
    assert route[1..] == RouteToDone(n);
    if n.loop != Terminal {
      AcceptanceStaysReachable(n);
    }
  }
}
