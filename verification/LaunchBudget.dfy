/** The global concurrency governor: a slot-transferring semaphore with a FIFO of waiters. */
module LaunchBudget {
  import opened Results

  /** An acquire call, named by the caller its promise resolves. */
  type Caller = nat

  datatype Budget = Budget(capacity: nat, active: nat, waiters: seq<Caller>)

  predicate Valid(b: Budget) {
    1 <= b.capacity && b.active <= b.capacity && (b.waiters != [] ==> b.active == b.capacity)
  }

  datatype Op = Acquire(caller: Caller) | Release

  /** What one call did: the state after it, the caller whose promise it resolved, and whether it threw. */
  datatype Done = Done(budget: Budget, granted: Option<Caller>, threw: bool)

  function Call(b: Budget, op: Op): Done {
    match op
    case Acquire(caller) =>
      if b.active < b.capacity then Done(b.(active := b.active + 1), Some(caller), false)
      else Done(b.(waiters := b.waiters + [caller]), None, false)
    case Release =>
      if b.active <= 0 then Done(b, None, true)
      else if b.waiters != [] then Done(b.(waiters := b.waiters[1..]), Some(b.waiters[0]), false)
      else Done(b.(active := b.active - 1), None, false)
  }

  class ConcurrentLaunchBudget {
    const capacity: nat
    var active: nat
    var waiters: seq<Caller>

    function State(): Budget
      reads this
    {
      Budget(capacity, active, waiters)
    }

    constructor (capacity: nat)
      requires 1 <= capacity
      ensures State() == Budget(capacity, 0, []) && Valid(State())
    {
      this.capacity := capacity;
      active, waiters := 0, [];
    }

    /** Some(caller): the slot is held at once. None: the call stays pending in the queue. */
    method AcquireSlot(caller: Caller) returns (granted: Option<Caller>)
      modifies this
      ensures Done(State(), granted, false) == Call(old(State()), Acquire(caller))
      ensures old(Valid(State())) ==> Valid(State())
    {
      if active < capacity {
        active := active + 1;
        return Some(caller);
      }
      waiters := waiters + [caller];
      granted := None;
    }

    /** Transfers the slot to the oldest waiter, or frees it. A release nobody owes is refused. */
    method ReleaseSlot() returns (r: Result<Option<Caller>>)
      modifies this
      ensures
        var done := Call(old(State()), Release);
        State() == done.budget && r.Err? == done.threw && (r.Ok? ==> r.value == done.granted)
      ensures old(Valid(State())) ==> Valid(State())
    {
      if active <= 0 {
        return Err("ConcurrentLaunchBudget.release called with no active slot");
      }
      if waiters != [] {
        r := Ok(Some(waiters[0]));
        waiters := waiters[1..];
      } else {
        active := active - 1;
        r := Ok(None);
      }
    }
  }

  /** The constructor's range check on a caller-supplied number. */
  method NewBudget(capacity: int) returns (r: Result<ConcurrentLaunchBudget>)
    ensures r.Ok? <==> capacity >= 1
    ensures r.Ok? ==> fresh(r.value) && r.value.State() == Budget(capacity, 0, [])
  {
    if capacity < 1 {
      return Err("ConcurrentLaunchBudget: capacity must be a positive integer");
    }
    var budget := new ConcurrentLaunchBudget(capacity);
    r := Ok(budget);
  }

  // ---- histories ---------------------------------------------------------------------------

  /** A run of calls: the state, who asked, who was granted, and how many releases took effect. */
  datatype History = History(budget: Budget, asked: seq<Caller>, granted: seq<Caller>, released: nat)

  function Extend(h: History, op: Op): History {
    var done := Call(h.budget, op);
    History(done.budget,
            if op.Acquire? then h.asked + [op.caller] else h.asked,
            if done.granted.Some? then h.granted + [done.granted.value] else h.granted,
            if op.Release? && !done.threw then h.released + 1 else h.released)
  }

  function Play(h: History, ops: seq<Op>): History
    decreases |ops|
  {
    if ops == [] then h else Play(Extend(h, ops[0]), ops[1..])
  }

  function Start(capacity: nat): History { History(Budget(capacity, 0, []), [], [], 0) }

  function Min(a: int, b: int): int { if a <= b then a else b }

  /** Grants in asking order with the rest still queued, and one slot counted per unreleased grant. */
  predicate Consistent(h: History) {
    && Valid(h.budget)
    && h.asked == h.granted + h.budget.waiters
    && |h.granted| == h.released + h.budget.active
  }

  lemma ExtendConsistent(h: History, op: Op)
    requires Consistent(h)
    ensures Consistent(Extend(h, op)) && Extend(h, op).budget.capacity == h.budget.capacity
  {
    var n := Extend(h, op);
    assert n.asked == n.granted + n.budget.waiters;
  }

  lemma {:induction false} PlayConsistent(h: History, ops: seq<Op>)
    requires Consistent(h)
    ensures Consistent(Play(h, ops)) && Play(h, ops).budget.capacity == h.budget.capacity
    decreases |ops|
  {
    if ops != [] {
      ExtendConsistent(h, ops[0]);
      PlayConsistent(Extend(h, ops[0]), ops[1..]);
    }
  }

  /**
   * Over every run it is a counting semaphore: the slots held are the unreleased
   * requests up to the capacity, the rest wait, and requests are granted in
   * exactly the order they were made.
   */
  lemma RefinesCountingSemaphore(capacity: nat, ops: seq<Op>)
    requires capacity >= 1
    ensures
      var h := Play(Start(capacity), ops);
      var demand := |h.asked| - h.released;
      && h.released <= |h.granted| <= |h.asked|
      && h.budget.active == Min(capacity, demand)
      && |h.budget.waiters| == demand - Min(capacity, demand)
      && h.granted == h.asked[..|h.granted|] && h.budget.waiters == h.asked[|h.granted|..]
      && |h.granted| - h.released == h.budget.active <= capacity
      && (Call(h.budget, Release).threw <==> |h.asked| == h.released)
  {
    assert Consistent(Start(capacity));
    PlayConsistent(Start(capacity), ops);
  }

  function Releases(ops: seq<Op>): nat
    decreases |ops|
  {
    if ops == [] then 0 else (if ops[0].Release? then 1 else 0) + Releases(ops[1..])
  }

  function Asks(ops: seq<Op>): seq<Caller>
    decreases |ops|
  {
    if ops == [] then [] else (if ops[0].Acquire? then [ops[0].caller] else []) + Asks(ops[1..])
  }

  /**
   * The k-th waiter is woken by exactly the k-th later release: whatever is asked
   * meanwhile, k releases grant the k oldest waiters, in order, and nobody else.
   */
  lemma {:induction false} KthReleaseWakesKthWaiter(h: History, ops: seq<Op>)
    requires Consistent(h) && h.budget.active == h.budget.capacity && Releases(ops) <= |h.budget.waiters|
    ensures
      var n := Play(h, ops);
      var k := Releases(ops);
      && n.granted == h.granted + h.budget.waiters[..k]
      && n.budget.waiters == h.budget.waiters[k..] + Asks(ops)
      && n.budget.active == h.budget.capacity && n.released == h.released + k
    decreases |ops|
  {
    if ops != [] {
      ExtendConsistent(h, ops[0]);
      FullStep(h, ops[0]);
      hide Call, Extend, Consistent;
      var next := Extend(h, ops[0]);
      KthReleaseWakesKthWaiter(next, ops[1..]);
      if ops[0].Release? {
        RegroupRelease(h.granted, h.budget.waiters, Releases(ops));
        assert Asks(ops) == Asks(ops[1..]);
      } else {
        RegroupAcquire(h.budget.waiters, ops[0].caller, Asks(ops[1..]), Releases(ops));
      }
    }
  }

  /** A call on a full budget: an acquire queues, a release hands its slot to the head of the queue. */
  lemma FullStep(h: History, op: Op)
    requires Consistent(h) && h.budget.active == h.budget.capacity
    requires op.Release? ==> h.budget.waiters != []
    ensures
      var n := Extend(h, op);
      && n.budget.active == h.budget.capacity == n.budget.capacity
      && n.granted == (if op.Release? then h.granted + [h.budget.waiters[0]] else h.granted)
      && n.budget.waiters == (if op.Release? then h.budget.waiters[1..] else h.budget.waiters + [op.caller])
      && n.released == (if op.Release? then h.released + 1 else h.released)
  {
  }

  lemma RegroupRelease(g: seq<Caller>, w: seq<Caller>, k: nat)
    requires 1 <= k <= |w|
    ensures (g + [w[0]]) + w[1..][..k - 1] == g + w[..k]
    ensures w[1..][k - 1..] == w[k..]
  {
    assert w[..k] == [w[0]] + w[1..][..k - 1];
    assert (g + [w[0]]) + w[1..][..k - 1] == g + ([w[0]] + w[1..][..k - 1]);
  }

  lemma RegroupAcquire(w: seq<Caller>, c: Caller, rest: seq<Caller>, k: nat)
    requires k <= |w|
    ensures (w + [c])[..k] == w[..k]
    ensures (w + [c])[k..] + rest == w[k..] + ([c] + rest)
  {
    assert (w + [c])[k..] == w[k..] + [c];
    assert (w[k..] + [c]) + rest == w[k..] + ([c] + rest);
  }
}
