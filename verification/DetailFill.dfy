/** Filling the article-detail cache: any number of requests on any number of
    instances, the in-process single-flight table, the cross-instance lock, and the
    double-checked cache entry, with requests interleaved at every call. */
module DetailFill {
  import opened Common

  /** A cached payload, or the sentinel that remembers a missing article. */
  datatype Entry = Payload(v: int) | Null

  datatype Loaded = Row(v: int) | NoRow | DbError

  datatype Outcome = Found(v: int) | NotFound | Failed

  function OutcomeOf(e: Entry): Outcome { if e.Payload? then Found(e.v) else NotFound }

  /** Where one GetDetail request is. */
  datatype Phase =
    | Arrived                                         // before the first cache read
    | Missed                                          // before the single-flight table
    | Following(call: nat)                            // waiting for another request's fill
    | Leading(call: nat)                              // before the lock
    | Checking(call: nat, locked: bool)               // before the second cache read
    | Loading(call: nat, locked: bool)                // before the database read
    | Storing(call: nat, locked: bool, entry: Entry)  // before the cache write
    | Filled(call: nat, locked: bool, outcome: Outcome) // before the deferred unlock
    | Closing(call: nat, outcome: Outcome)            // before close(done)
    | Cleaning(call: nat, outcome: Outcome)           // before the table entry is deleted
    | Answered(outcome: Outcome, via: Option<nat>)    // and the fill it came from, if any

  datatype Request = Request(instance: nat, phase: Phase)

  /** One fill; followers wait until its result is there. */
  datatype Call = Call(instance: nat, leader: nat, result: Option<Outcome>)

  /** Counters used only to state the bound. */
  datatype Log = Log(lockedStores: nat, otherStores: nat, removals: nat, misreads: nat)

  datatype Sys = Sys(
    cache: Option<Entry>,
    fills: map<nat, nat>,
    calls: map<nat, Call>,
    requests: map<nat, Request>,
    log: Log)

  datatype Step =
    | Arrive(r: nat, instance: nat)
    | Read(r: nat, blind: bool)
    | Join(r: nat, newCall: nat)
    | Lock(r: nat, won: bool)
    | Check(r: nat, blind: bool)
    | Load(r: nat, loaded: Loaded)
    | Store(r: nat, ok: bool)
    | Unlock(r: nat)
    | Close(r: nat)
    | Clean(r: nat)
    | Follow(r: nat)
    | Remove // DEL or expiry of the cached entry

  function PhaseOf(s: Sys, r: nat): Phase { if r in s.requests then s.requests[r].phase else Answered(Failed, None) }

  predicate Enabled(s: Sys, step: Step) {
    match step
    case Arrive(r, _) => r !in s.requests
    case Read(r, _) => PhaseOf(s, r).Arrived?
    case Join(r, c) => PhaseOf(s, r).Missed? && c !in s.calls
    case Lock(r, _) => PhaseOf(s, r).Leading?
    case Check(r, _) => PhaseOf(s, r).Checking?
    case Load(r, _) => PhaseOf(s, r).Loading?
    case Store(r, _) => PhaseOf(s, r).Storing?
    case Unlock(r) => PhaseOf(s, r).Filled?
    case Close(r) => PhaseOf(s, r).Closing? && PhaseOf(s, r).call in s.calls
    case Clean(r) => PhaseOf(s, r).Cleaning?
    case Follow(r) =>
      PhaseOf(s, r).Following? && PhaseOf(s, r).call in s.calls && s.calls[PhaseOf(s, r).call].result.Some?
    case Remove => s.cache.Some?
  }

  function Put(s: Sys, r: nat, phase: Phase): Sys
    requires r in s.requests
  {
    s.(requests := s.requests[r := s.requests[r].(phase := phase)])
  }

  function AfterJoin(s: Sys, r: nat, c: nat): Sys
    requires r in s.requests
  {
    var i := s.requests[r].instance;
    if i in s.fills then Put(s, r, Following(s.fills[i]))
    else Put(s.(fills := s.fills[i := c], calls := s.calls[c := Call(i, r, None)]), r, Leading(c))
  }

  /** A read that misses although the entry is there (an error reads as a miss). */
  function AfterCheck(s: Sys, r: nat, c: nat, locked: bool, blind: bool): Sys
    requires r in s.requests
  {
    if s.cache.Some? && !blind then Put(s, r, Filled(c, locked, OutcomeOf(s.cache.value)))
    else
      var misreads := s.log.misreads + (if s.cache.Some? && locked then 1 else 0);
      Put(s.(log := s.log.(misreads := misreads)), r, Loading(c, locked))
  }

  function AfterLoad(s: Sys, r: nat, c: nat, locked: bool, loaded: Loaded): Sys
    requires r in s.requests
  {
    match loaded
    case DbError => Put(s, r, Filled(c, locked, Failed))
    case NoRow => Put(s, r, Storing(c, locked, Null))
    case Row(v) => Put(s, r, Storing(c, locked, Payload(v)))
  }

  function AfterStore(s: Sys, r: nat, c: nat, locked: bool, entry: Entry, ok: bool): Sys
    requires r in s.requests
  {
    var log :=
      if !ok then s.log
      else if locked then s.log.(lockedStores := s.log.lockedStores + 1)
      else s.log.(otherStores := s.log.otherStores + 1);
    Put(s.(cache := if ok then Some(entry) else s.cache, log := log), r, Filled(c, locked, OutcomeOf(entry)))
  }

  function After(s: Sys, step: Step): Sys
    requires Enabled(s, step)
  {
    match step
    case Arrive(r, i) => s.(requests := s.requests[r := Request(i, Arrived)])
    case Read(r, blind) =>
      if s.cache.Some? && !blind then Put(s, r, Answered(OutcomeOf(s.cache.value), None)) else Put(s, r, Missed)
    case Join(r, c) => AfterJoin(s, r, c)
    case Lock(r, won) => Put(s, r, Checking(PhaseOf(s, r).call, won))
    case Check(r, blind) => AfterCheck(s, r, PhaseOf(s, r).call, PhaseOf(s, r).locked, blind)
    case Load(r, loaded) => AfterLoad(s, r, PhaseOf(s, r).call, PhaseOf(s, r).locked, loaded)
    case Store(r, ok) => AfterStore(s, r, PhaseOf(s, r).call, PhaseOf(s, r).locked, PhaseOf(s, r).entry, ok)
    case Unlock(r) => Put(s, r, Closing(PhaseOf(s, r).call, PhaseOf(s, r).outcome))
    case Close(r) =>
      var c, o := PhaseOf(s, r).call, PhaseOf(s, r).outcome;
      Put(s.(calls := s.calls[c := s.calls[c].(result := Some(o))]), r, Cleaning(c, o))
    case Clean(r) =>
      var c, o := PhaseOf(s, r).call, PhaseOf(s, r).outcome;
      Put(s.(fills := s.fills - {s.requests[r].instance}), r, Answered(o, Some(c)))
    case Follow(r) =>
      var c := PhaseOf(s, r).call;
      Put(s, r, Answered(s.calls[c].result.value, Some(c)))
    case Remove => s.(cache := None, log := s.log.(removals := s.log.removals + 1))
  }

  function Do(s: Sys, step: Step): Sys { if Enabled(s, step) then After(s, step) else s }

  function Run(s: Sys, steps: seq<Step>): Sys {
    if steps == [] then s else Do(Run(s, steps[..|steps| - 1]), steps[|steps| - 1])
  }

  const START := Sys(None, map[], map[], map[], Log(0, 0, 0, 0))

  // ----- one fill per instance, one result per fill -----

  /** The fill a request is running, from joining the table to leaving it. */
  function Leads(phase: Phase): Option<nat> {
    match phase
    case Leading(c) => Some(c)
    case Checking(c, _) => Some(c)
    case Loading(c, _) => Some(c)
    case Storing(c, _, _) => Some(c)
    case Filled(c, _, _) => Some(c)
    case Closing(c, _) => Some(c)
    case Cleaning(c, _) => Some(c)
    case _ => None
  }

  /** What a request's phase says about the tables. */
  predicate RequestOk(s: Sys, r: nat, q: Request) {
    && (Leads(q.phase).Some? ==>
          var c := Leads(q.phase).value;
          && q.instance in s.fills && s.fills[q.instance] == c
          && c in s.calls && s.calls[c].leader == r && s.calls[c].instance == q.instance
          && s.calls[c].result == (if q.phase.Cleaning? then Some(q.phase.outcome) else None))
    && (q.phase.Following? ==> q.phase.call in s.calls && s.calls[q.phase.call].instance == q.instance)
    && (q.phase.Answered? && q.phase.via.Some? ==>
          q.phase.via.value in s.calls && s.calls[q.phase.via.value].result == Some(q.phase.outcome))
  }

  /** An unfinished fill has a request running it. */
  predicate CallOk(s: Sys, c: nat, call: Call) {
    call.result.None? ==> call.leader in s.requests && Leads(s.requests[call.leader].phase) == Some(c)
  }

  predicate FillOk(s: Sys, i: nat, c: nat) {
    && c in s.calls && s.calls[c].instance == i
    && s.calls[c].leader in s.requests && Leads(s.requests[s.calls[c].leader].phase) == Some(c)
    && s.requests[s.calls[c].leader].instance == i
  }

  ghost predicate TablesOk(s: Sys) {
    && (forall r | r in s.requests :: RequestOk(s, r, s.requests[r]))
    && (forall c | c in s.calls :: CallOk(s, c, s.calls[c]))
    && (forall i | i in s.fills :: FillOk(s, i, s.fills[i]))
  }

  /** Moving on within a fill, or outside any fill, keeps the tables consistent. */
  lemma MoveKeepsTables(s: Sys, s1: Sys, r: nat, phase: Phase)
    requires TablesOk(s) && r in s.requests
    requires s1.fills == s.fills && s1.calls == s.calls && s1.requests == s.requests
    requires Leads(phase) == Leads(s.requests[r].phase)
    requires RequestOk(s, r, s.requests[r].(phase := phase))
    ensures TablesOk(Put(s1, r, phase))
  {
    var s' := Put(s1, r, phase);
    forall q | q in s'.requests
      ensures RequestOk(s', q, s'.requests[q])
    {
      assert RequestOk(s, q, s.requests[q]);
    }
    forall c | c in s'.calls
      ensures CallOk(s', c, s'.calls[c])
    {
      assert CallOk(s, c, s.calls[c]);
    }
    forall i | i in s'.fills
      ensures FillOk(s', i, s'.fills[i])
    {
      assert FillOk(s, i, s.fills[i]);
    }
  }

  lemma JoinKeepsTables(s: Sys, r: nat, c: nat)
    requires TablesOk(s) && r in s.requests && s.requests[r].phase.Missed? && c !in s.calls
    ensures TablesOk(AfterJoin(s, r, c))
  {
    var i := s.requests[r].instance;
    if i in s.fills {
      assert FillOk(s, i, s.fills[i]);
      MoveKeepsTables(s, s, r, Following(s.fills[i]));
    } else {
      NewFillKeepsTables(s, r, c);
    }
  }

  lemma NewFillKeepsTables(s: Sys, r: nat, c: nat)
    requires TablesOk(s) && r in s.requests && s.requests[r].phase.Missed? && c !in s.calls
    requires s.requests[r].instance !in s.fills
    ensures TablesOk(AfterJoin(s, r, c))
  {
    var s' := AfterJoin(s, r, c);
    forall q | q in s'.requests
      ensures RequestOk(s', q, s'.requests[q])
    {
      assert RequestOk(s, q, s.requests[q]);
    }
    forall d | d in s'.calls
      ensures CallOk(s', d, s'.calls[d])
    {
      if d != c {
        assert CallOk(s, d, s.calls[d]);
      }
    }
    forall i | i in s'.fills
      ensures FillOk(s', i, s'.fills[i])
    {
      if i != s.requests[r].instance {
        assert FillOk(s, i, s.fills[i]);
      }
    }
  }

  /** Publishing the result before leaving the table. */
  lemma CloseKeepsTables(s: Sys, r: nat)
    requires TablesOk(s) && Enabled(s, Close(r))
    ensures TablesOk(After(s, Close(r)))
  {
    var s', c := After(s, Close(r)), PhaseOf(s, r).call;
    assert RequestOk(s, r, s.requests[r]);
    forall q | q in s'.requests
      ensures RequestOk(s', q, s'.requests[q])
    {
      assert RequestOk(s, q, s.requests[q]);
    }
    forall d | d in s'.calls
      ensures CallOk(s', d, s'.calls[d])
    {
      assert CallOk(s, d, s.calls[d]);
    }
    forall i | i in s'.fills
      ensures FillOk(s', i, s'.fills[i])
    {
      assert FillOk(s, i, s.fills[i]);
    }
  }

  lemma CleanKeepsTables(s: Sys, r: nat)
    requires TablesOk(s) && Enabled(s, Clean(r))
    ensures TablesOk(After(s, Clean(r)))
  {
    var s' := After(s, Clean(r));
    assert RequestOk(s, r, s.requests[r]);
    forall q | q in s'.requests
      ensures RequestOk(s', q, s'.requests[q])
    {
      assert RequestOk(s, q, s.requests[q]);
    }
    forall d | d in s'.calls
      ensures CallOk(s', d, s'.calls[d])
    {
      assert CallOk(s, d, s.calls[d]);
    }
    forall i | i in s'.fills
      ensures FillOk(s', i, s'.fills[i])
    {
      assert FillOk(s, i, s.fills[i]);
    }
  }

  lemma ArriveKeepsTables(s: Sys, r: nat, i: nat)
    requires TablesOk(s) && r !in s.requests
    ensures TablesOk(s.(requests := s.requests[r := Request(i, Arrived)]))
  {
    var s' := s.(requests := s.requests[r := Request(i, Arrived)]);
    forall q | q in s'.requests
      ensures RequestOk(s', q, s'.requests[q])
    {
      assert q != r ==> RequestOk(s, q, s.requests[q]);
    }
    forall d | d in s'.calls
      ensures CallOk(s', d, s'.calls[d])
    {
      assert CallOk(s, d, s.calls[d]);
    }
  }

  /** The steps that only move one request along. */
  lemma MovingStepKeepsTables(s: Sys, step: Step)
    requires TablesOk(s) && Enabled(s, step)
    requires step.Read? || step.Lock? || step.Check? || step.Load? || step.Store? || step.Unlock? || step.Follow?
    ensures TablesOk(After(s, step))
  {
    var r, s' := step.r, After(s, step);
    assert RequestOk(s, r, s.requests[r]);
    hide TablesOk;
    MoveKeepsTables(s, s.(cache := s'.cache, log := s'.log), r, s'.requests[r].phase);
  }

  lemma RemoveKeepsTables(s: Sys)
    requires TablesOk(s) && s.cache.Some?
    ensures TablesOk(After(s, Remove))
  {
    var s' := After(s, Remove);
    assert forall q | q in s.requests :: RequestOk(s, q, s.requests[q]) ==> RequestOk(s', q, s.requests[q]);
    assert forall d | d in s.calls :: CallOk(s, d, s.calls[d]) ==> CallOk(s', d, s.calls[d]);
  }

  lemma StepKeepsTables(s: Sys, step: Step)
    requires TablesOk(s)
    ensures TablesOk(Do(s, step))
  {
    hide TablesOk, AfterJoin, AfterCheck, AfterLoad, AfterStore;
    if Enabled(s, step) {
      match step
      case Arrive(r, i) => ArriveKeepsTables(s, r, i);
      case Join(r, c) => JoinKeepsTables(s, r, c);
      case Close(r) => CloseKeepsTables(s, r);
      case Clean(r) => CleanKeepsTables(s, r);
      case Remove => RemoveKeepsTables(s);
      case _ => MovingStepKeepsTables(s, step);
    }
  }

  lemma {:induction false} RunKeepsTables(steps: seq<Step>)
    ensures TablesOk(Run(START, steps))
  {
    if steps != [] {
      hide TablesOk, Do;
      RunKeepsTables(steps[..|steps| - 1]);
      StepKeepsTables(Run(START, steps[..|steps| - 1]), steps[|steps| - 1]);
    }
  }

  /** In every interleaving: an instance runs at most one fill at a time, every answer
      taken from a fill is exactly the result of that fill, and whoever still waits
      waits for a fill that some request is running. */
  lemma SingleFlight(steps: seq<Step>, r1: nat, r2: nat)
    requires r1 in Run(START, steps).requests && r2 in Run(START, steps).requests
    ensures var s := Run(START, steps);
            var q1, q2 := s.requests[r1], s.requests[r2];
      && (Leads(q1.phase).Some? && Leads(q2.phase).Some? && q1.instance == q2.instance ==> r1 == r2)
      && (q1.phase.Answered? && q2.phase.Answered? && q1.phase.via.Some? && q1.phase.via == q2.phase.via ==>
            q1.phase.outcome == q2.phase.outcome)
      && (q1.phase.Following? ==>
            && q1.phase.call in s.calls
            && (|| s.calls[q1.phase.call].result.Some?
                || exists r | r in s.requests :: Leads(s.requests[r].phase) == Some(q1.phase.call)))
  {
    var s := Run(START, steps);
    RunKeepsTables(steps);
    assert RequestOk(s, r1, s.requests[r1]);
    assert RequestOk(s, r2, s.requests[r2]);
    if s.requests[r1].phase.Following? {
      var c := s.requests[r1].phase.call;
      assert CallOk(s, c, s.calls[c]);
    }
  }

  // ----- the bound on loads -----

  predicate HasLock(phase: Phase) {
    (phase.Checking? || phase.Loading? || phase.Storing? || phase.Filled?) && phase.locked
  }

  /** Past a missed double check, with the lock. */
  predicate WillStore(phase: Phase) { (phase.Loading? || phase.Storing?) && phase.locked }

  /** The lock is exclusive: at most one request has it. */
  ghost predicate OneHolder(s: Sys) {
    forall r1, r2 | r1 in s.requests && r2 in s.requests ::
      HasLock(s.requests[r1].phase) && HasLock(s.requests[r2].phase) ==> r1 == r2
  }

  ghost predicate OneHolderThroughout(steps: seq<Step>) {
    && OneHolder(Run(START, steps))
    && (steps != [] ==> OneHolderThroughout(steps[..|steps| - 1]))
  }

  ghost predicate Bounded(s: Sys) {
    var chances := s.log.removals + s.log.misreads;
    && s.log.lockedStores <= chances + (if s.cache.Some? then 1 else 0)
    && (forall r | r in s.requests && WillStore(s.requests[r].phase) :: s.log.lockedStores <= chances)
  }

  lemma StoreKeepsBounded(s: Sys, r: nat, ok: bool)
    requires Bounded(s) && OneHolder(s) && Enabled(s, Store(r, ok))
    ensures Bounded(After(s, Store(r, ok)))
  {
    var s' := After(s, Store(r, ok));
    forall q | q in s'.requests && WillStore(s'.requests[q].phase)
      ensures s'.log.lockedStores <= s'.log.removals + s'.log.misreads
    {
      assert q != r && WillStore(s.requests[q].phase);
    }
  }

  lemma OtherStepKeepsBounded(s: Sys, step: Step)
    requires Bounded(s) && Enabled(s, step) && !step.Store?
    ensures Bounded(After(s, step))
  {
  }

  lemma StepKeepsBounded(s: Sys, step: Step)
    requires Bounded(s) && OneHolder(s)
    ensures Bounded(Do(s, step))
  {
    hide Bounded, OneHolder, After;
    if Enabled(s, step) {
      if step.Store? {
        StoreKeepsBounded(s, step.r, step.ok);
      } else {
        OtherStepKeepsBounded(s, step);
      }
    }
  }

  lemma {:induction false} RunKeepsBounded(steps: seq<Step>)
    requires OneHolderThroughout(steps)
    ensures Bounded(Run(START, steps))
  {
    if steps != [] {
      RunKeepsBounded(steps[..|steps| - 1]);
      assert OneHolder(Run(START, steps[..|steps| - 1]));
      hide Bounded, OneHolder, Do;
      StepKeepsBounded(Run(START, steps[..|steps| - 1]), steps[|steps| - 1]);
    }
  }

  // ----- every other load is paid for by a lost lock -----

  /** The step writes a loaded entry to the cache. */
  predicate Stores(s: Sys, step: Step) { step.Store? && step.ok && Enabled(s, step) }

  /** The request that gives up on the lock in this step, if any. */
  function Loser(s: Sys, step: Step): set<nat> {
    if step.Lock? && !step.won && Enabled(s, step) then {step.r} else {}
  }

  /** The request that stores without the lock in this step, if any. */
  function Storer(s: Sys, step: Step): set<nat> {
    if Stores(s, step) && !PhaseOf(s, step.r).locked then {step.r} else {}
  }

  function StoresIn(steps: seq<Step>): nat {
    if steps == [] then 0
    else
      var init, last := steps[..|steps| - 1], steps[|steps| - 1];
      StoresIn(init) + if Stores(Run(START, init), last) then 1 else 0
  }

  /** The requests that gave up on the lock. */
  function LockLosers(steps: seq<Step>): set<nat> {
    if steps == [] then {}
    else
      var init, last := steps[..|steps| - 1], steps[|steps| - 1];
      LockLosers(init) + Loser(Run(START, init), last)
  }

  /** The requests that stored what they loaded without the lock. */
  function Unlocked(steps: seq<Step>): set<nat> {
    if steps == [] then {}
    else
      var init, last := steps[..|steps| - 1], steps[|steps| - 1];
      Unlocked(init) + Storer(Run(START, init), last)
  }

  predicate WithoutLock(phase: Phase) {
    (phase.Checking? || phase.Loading? || phase.Storing? || phase.Filled?) && !phase.locked
  }

  predicate PastStore(phase: Phase) {
    phase.Filled? || phase.Closing? || phase.Cleaning? || phase.Answered?
  }

  ghost predicate Paid(s: Sys, losers: set<nat>, unlocked: set<nat>, stores: nat) {
    && unlocked <= losers && |unlocked| == s.log.otherStores
    && stores == s.log.lockedStores + s.log.otherStores
    && (forall r | r in s.requests && WithoutLock(s.requests[r].phase) :: r in losers)
    && (forall r | r in unlocked :: r in s.requests && PastStore(s.requests[r].phase))
  }

  lemma StoreKeepsPaid(s: Sys, r: nat, losers: set<nat>, unlocked: set<nat>, stores: nat)
    requires Paid(s, losers, unlocked, stores) && Enabled(s, Store(r, true))
    ensures Paid(After(s, Store(r, true)), losers,
                 unlocked + if PhaseOf(s, r).locked then {} else {r}, stores + 1)
  {
    assert r !in unlocked;
  }

  lemma LockKeepsPaid(s: Sys, r: nat, won: bool, losers: set<nat>, unlocked: set<nat>, stores: nat)
    requires Paid(s, losers, unlocked, stores) && Enabled(s, Lock(r, won))
    ensures Paid(After(s, Lock(r, won)), losers + if won then {} else {r}, unlocked, stores)
  {
  }

  lemma OtherStepKeepsPaid(s: Sys, step: Step, losers: set<nat>, unlocked: set<nat>, stores: nat)
    requires Paid(s, losers, unlocked, stores) && Enabled(s, step) && !step.Lock? && !(step.Store? && step.ok)
    ensures Paid(After(s, step), losers, unlocked, stores)
  {
  }

  lemma StepKeepsPaid(s: Sys, step: Step, losers: set<nat>, unlocked: set<nat>, stores: nat)
    requires Paid(s, losers, unlocked, stores)
    ensures Paid(Do(s, step), losers + Loser(s, step), unlocked + Storer(s, step),
                 stores + if Stores(s, step) then 1 else 0)
  {
    hide Paid, After;
    assert losers + {} == losers && unlocked + {} == unlocked;
    if Enabled(s, step) {
      if step.Store? && step.ok {
        StoreKeepsPaid(s, step.r, losers, unlocked, stores);
      } else if step.Lock? {
        LockKeepsPaid(s, step.r, step.won, losers, unlocked, stores);
      } else {
        OtherStepKeepsPaid(s, step, losers, unlocked, stores);
      }
    }
  }

  lemma {:induction false} RunKeepsPaid(steps: seq<Step>)
    ensures Paid(Run(START, steps), LockLosers(steps), Unlocked(steps), StoresIn(steps))
  {
    hide Paid, Do, Loser, Storer, Stores;
    if steps == [] {
      NothingIsPaid();
    } else {
      var init, last := steps[..|steps| - 1], steps[|steps| - 1];
      RunKeepsPaid(init);
      StepKeepsPaid(Run(START, init), last, LockLosers(init), Unlocked(init), StoresIn(init));
    }
  }

  lemma NothingIsPaid()
    ensures Paid(START, {}, {}, 0)
  {
  }

  /** While the lock excludes, the database loads that lock holders put into the cache
      number at most one more than the removals of the cached entry and the reads that
      missed it although it was there; every further one belongs to a request of its own
      that failed to get the lock. */
  lemma LockedLoadsAreBounded(steps: seq<Step>)
    requires OneHolderThroughout(steps)
    ensures var log := Run(START, steps).log;
      && log.lockedStores <= 1 + log.removals + log.misreads
      && StoresIn(steps) == log.lockedStores + log.otherStores
      && Unlocked(steps) <= LockLosers(steps) && |Unlocked(steps)| == log.otherStores
  {
    RunKeepsBounded(steps);
    RunKeepsPaid(steps);
  }

  // ----- every answer comes from the database -----

  /** What the database has answered in a run. */
  function LoadsIn(steps: seq<Step>): set<Loaded> {
    if steps == [] then {}
    else
      var init, last := steps[..|steps| - 1], steps[|steps| - 1];
      LoadsIn(init) + if last.Load? && Enabled(Run(START, init), last) then {last.loaded} else {}
  }

  /** An answer says what some load said: the row, that there is none, or that it failed. */
  predicate Vouched(o: Outcome, loads: set<Loaded>) {
    match o
    case Found(v) => Row(v) in loads
    case NotFound => NoRow in loads
    case Failed => DbError in loads
  }

  predicate EntryVouched(e: Entry, loads: set<Loaded>) {
    match e
    case Payload(v) => Row(v) in loads
    case Null => NoRow in loads
  }

  predicate PhaseVouched(phase: Phase, loads: set<Loaded>) {
    && (phase.Storing? ==> EntryVouched(phase.entry, loads))
    && (phase.Filled? || phase.Closing? || phase.Cleaning? || phase.Answered? ==> Vouched(phase.outcome, loads))
  }

  ghost predicate AllVouched(s: Sys, loads: set<Loaded>) {
    && (s.cache.Some? ==> EntryVouched(s.cache.value, loads))
    && (forall c | c in s.calls && s.calls[c].result.Some? :: Vouched(s.calls[c].result.value, loads))
    && (forall r | r in s.requests :: PhaseVouched(s.requests[r].phase, loads))
  }

  lemma EntryAnswers(e: Entry, loads: set<Loaded>)
    requires EntryVouched(e, loads)
    ensures Vouched(OutcomeOf(e), loads)
  {
  }

  lemma MoreLoads(s: Sys, loads: set<Loaded>, more: set<Loaded>)
    requires AllVouched(s, loads)
    ensures AllVouched(s, loads + more)
  {
  }

  lemma MoveKeepsVouched(s: Sys, r: nat, phase: Phase, loads: set<Loaded>)
    requires AllVouched(s, loads) && r in s.requests && PhaseVouched(phase, loads)
    ensures AllVouched(Put(s, r, phase), loads)
  {
    hide Vouched, EntryVouched;
  }

  lemma LoadKeepsVouched(s: Sys, r: nat, loaded: Loaded, loads: set<Loaded>)
    requires AllVouched(s, loads) && Enabled(s, Load(r, loaded))
    ensures AllVouched(After(s, Load(r, loaded)), loads + {loaded})
  {
    MoreLoads(s, loads, {loaded});
    hide AllVouched;
    MoveKeepsVouched(s, r, After(s, Load(r, loaded)).requests[r].phase, loads + {loaded});
  }

  lemma StoreKeepsVouched(s: Sys, r: nat, ok: bool, loads: set<Loaded>)
    requires AllVouched(s, loads) && Enabled(s, Store(r, ok))
    ensures AllVouched(After(s, Store(r, ok)), loads)
  {
    assert PhaseVouched(s.requests[r].phase, loads);
    EntryAnswers(s.requests[r].phase.entry, loads);
    hide Vouched, EntryVouched, OutcomeOf;
  }

  lemma ReadKeepsVouched(s: Sys, step: Step, loads: set<Loaded>)
    requires AllVouched(s, loads) && Enabled(s, step) && (step.Read? || step.Check?)
    ensures AllVouched(After(s, step), loads)
  {
    if s.cache.Some? {
      EntryAnswers(s.cache.value, loads);
    }
    hide Vouched, EntryVouched, OutcomeOf;
  }

  lemma PassedOnKeepsVouched(s: Sys, step: Step, loads: set<Loaded>)
    requires AllVouched(s, loads) && Enabled(s, step) && !step.Load? && !step.Store? && !step.Read? && !step.Check?
    ensures AllVouched(After(s, step), loads)
  {
    hide Vouched, EntryVouched;
    assert !step.Arrive? && !step.Remove? ==> PhaseVouched(s.requests[step.r].phase, loads);
  }

  lemma StepKeepsVouched(s: Sys, step: Step, loads: set<Loaded>)
    requires AllVouched(s, loads)
    ensures AllVouched(Do(s, step), loads + if step.Load? && Enabled(s, step) then {step.loaded} else {})
  {
    hide AllVouched, After;
    assert loads + {} == loads;
    if Enabled(s, step) {
      match step
      case Load(r, loaded) => LoadKeepsVouched(s, r, loaded, loads);
      case Store(r, ok) => StoreKeepsVouched(s, r, ok, loads);
      case Read(_, _) => ReadKeepsVouched(s, step, loads);
      case Check(_, _) => ReadKeepsVouched(s, step, loads);
      case _ => PassedOnKeepsVouched(s, step, loads);
    }
  }

  lemma {:induction false} RunKeepsVouched(steps: seq<Step>)
    ensures AllVouched(Run(START, steps), LoadsIn(steps))
  {
    hide AllVouched, Do;
    if steps == [] {
      NothingToVouch();
    } else {
      var init, last := steps[..|steps| - 1], steps[|steps| - 1];
      RunKeepsVouched(init);
      StepKeepsVouched(Run(START, init), last, LoadsIn(init));
    }
  }

  lemma NothingToVouch()
    ensures AllVouched(START, {})
  {
  }

  /** In every interleaving, through cache, sentinel and followers: a found article is one
      that the database returned, "not found" is answered only after the database found
      nothing, and an error only after the database failed. */
  lemma AnswersComeFromLoads(steps: seq<Step>, r: nat)
    requires r in Run(START, steps).requests && Run(START, steps).requests[r].phase.Answered?
    ensures match Run(START, steps).requests[r].phase.outcome
            case Found(v) => Row(v) in LoadsIn(steps)
            case NotFound => NoRow in LoadsIn(steps)
            case Failed => DbError in LoadsIn(steps)
  {
    RunKeepsVouched(steps);
    assert PhaseVouched(Run(START, steps).requests[r].phase, LoadsIn(steps));
  }
}
