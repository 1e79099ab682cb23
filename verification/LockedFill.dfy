/** Cache filling on top of the real lock: the lease protocol and the fill protocol run
    side by side, and exclusivity is no longer an assumption but a consequence of the
    lease timing. */
module LockedFill {
  import opened Common
  import L = LeaseLock
  import F = DetailFill

  /** The lock key, the fills, and which lease each request entered with. */
  datatype World = World(lock: L.State, fill: F.Sys, tokens: map<nat, nat>)

  datatype Event =
    | Lease(lease: L.Step)       // attempts, renewals, releases, time: whatever enters or leaves nothing
    | Fill(step: F.Step)         // requests moving along without touching the lock
    | Enter(r: nat, token: nat)  // AcquireWithRetry returns the lock to its request
    | Leave(r: nat)              // the deferred Unlock of a request that has the lock

  const START := World(L.START, F.START, map[])

  /** Leases are entered, stopped or crashed only through Enter and Leave. */
  predicate Detached(x: World, step: L.Step) {
    && !step.Reply?
    && (step.StopWatch? || step.Crash? ==> forall r | r in x.tokens :: x.tokens[r] != step.token)
  }

  predicate Enabled(x: World, e: Event) {
    match e
    case Lease(step) => Detached(x, step)
    case Fill(step) =>
      && !(step.Lock? && step.won)
      && !(step.Unlock? && F.HasLock(F.PhaseOf(x.fill, step.r)))
    case Enter(r, token) =>
      && L.Enabled(x.lock, L.Reply(token)) && F.Enabled(x.fill, F.Lock(r, true))
      && r !in x.tokens && forall q | q in x.tokens :: x.tokens[q] != token
    case Leave(r) =>
      r in x.tokens && F.HasLock(F.PhaseOf(x.fill, r)) && F.Enabled(x.fill, F.Unlock(r))
  }

  /** The lock step inside an event, if any. */
  function LeaseStep(x: World, e: Event): Option<L.Step> {
    match e
    case Lease(step) => Some(step)
    case Fill(_) => None
    case Enter(_, token) => Some(L.Reply(token))
    case Leave(r) => if r in x.tokens then Some(L.StopWatch(x.tokens[r])) else None
  }

  function Happen(p: L.Params, x: World, e: Event): World {
    if !Enabled(x, e) then x else
      match e
      case Lease(step) => x.(lock := L.Do(p, x.lock, step))
      case Fill(step) => x.(fill := F.Do(x.fill, step))
      case Enter(r, token) =>
        World(L.Do(p, x.lock, L.Reply(token)), F.Do(x.fill, F.Lock(r, true)), x.tokens[r := token])
      case Leave(r) =>
        World(L.Do(p, x.lock, L.StopWatch(x.tokens[r])), F.Do(x.fill, F.Unlock(r)), x.tokens - {r})
  }

  function History(p: L.Params, events: seq<Event>): World {
    if events == [] then START else Happen(p, History(p, events[..|events| - 1]), events[|events| - 1])
  }

  /** Answers, renewals and losses stay within the bounds of the lease. */
  ghost predicate Timely(p: L.Params, x: World, e: Event) {
    LeaseStep(x, e).Some? ==> L.Timely(p, x.lock, LeaseStep(x, e).value)
  }

  ghost predicate TimelyHistory(p: L.Params, events: seq<Event>) {
    events != [] ==>
      TimelyHistory(p, events[..|events| - 1]) && Timely(p, History(p, events[..|events| - 1]), events[|events| - 1])
  }

  /** A request with the lock is inside the critical section of its own lease. */
  predicate Matched(x: World, r: nat) {
    F.HasLock(F.PhaseOf(x.fill, r)) ==> r in x.tokens && L.ClientOf(x.lock, x.tokens[r]).Holding?
  }

  ghost predicate Inv(p: L.Params, x: World) {
    && L.AllLeased(p, x.lock)
    && (forall r | r in x.fill.requests :: Matched(x, r))
    && (forall r1, r2 | r1 in x.tokens && r2 in x.tokens && x.tokens[r1] == x.tokens[r2] :: r1 == r2)
    && F.Bounded(x.fill) && F.TablesOk(x.fill)
  }

  /** The lease's exclusion gives the fills their mutex. */
  lemma InvExcludes(p: L.Params, x: World)
    requires p.Margin() && Inv(p, x)
    ensures F.OneHolder(x.fill)
  {
    L.LeasesExclude(p, x.lock);
    forall r1, r2 | r1 in x.fill.requests && r2 in x.fill.requests
                    && F.HasLock(x.fill.requests[r1].phase) && F.HasLock(x.fill.requests[r2].phase)
      ensures r1 == r2
    {
      assert Matched(x, r1) && Matched(x, r2);
      assert L.HeldBy(x.lock, x.tokens[r1]) && L.HeldBy(x.lock, x.tokens[r2]);
    }
  }

  /** A detached lock step leaves every entered lease inside. */
  lemma DetachedKeepsHolding(p: L.Params, s: L.State, step: L.Step, token: nat)
    requires L.ClientOf(s, token).Holding? && !step.Reply?
    requires step.StopWatch? || step.Crash? ==> step.token != token
    ensures L.ClientOf(L.Do(p, s, step), token).Holding?
  {
  }

  lemma LeaseKeepsInv(p: L.Params, x: World, step: L.Step)
    requires p.Margin() && Inv(p, x) && Detached(x, step) && L.Timely(p, x.lock, step)
    ensures Inv(p, x.(lock := L.Do(p, x.lock, step)))
  {
    hide L.Do, F.Bounded, F.TablesOk, L.AllLeased, L.Timely;
    var x' := x.(lock := L.Do(p, x.lock, step));
    L.StepKeepsLeases(p, x.lock, step);
    forall r | r in x'.fill.requests
      ensures Matched(x', r)
    {
      assert Matched(x, r);
      if F.HasLock(F.PhaseOf(x.fill, r)) {
        DetachedKeepsHolding(p, x.lock, step, x.tokens[r]);
      }
    }
  }

  /** A fill step other than entering or leaving gives nobody the lock. */
  lemma FillGivesNoLock(s: F.Sys, step: F.Step, r: nat)
    requires !(step.Lock? && step.won) && F.HasLock(F.PhaseOf(F.Do(s, step), r))
    ensures F.HasLock(F.PhaseOf(s, r))
  {
  }

  lemma FillKeepsInv(p: L.Params, x: World, step: F.Step)
    requires p.Margin() && Inv(p, x) && !(step.Lock? && step.won)
    ensures Inv(p, x.(fill := F.Do(x.fill, step)))
  {
    InvExcludes(p, x);
    hide F.Do, F.Bounded, F.TablesOk, L.AllLeased, F.OneHolder;
    var x' := x.(fill := F.Do(x.fill, step));
    F.StepKeepsBounded(x.fill, step);
    F.StepKeepsTables(x.fill, step);
    forall r | r in x'.fill.requests
      ensures Matched(x', r)
    {
      if F.HasLock(F.PhaseOf(x'.fill, r)) {
        FillGivesNoLock(x.fill, step, r);
        assert r in x.fill.requests && Matched(x, r);
      }
    }
  }

  lemma EnterGivesLock(s: F.Sys, r: nat, q: nat)
    requires F.Enabled(s, F.Lock(r, true)) && q != r
    ensures F.PhaseOf(F.Do(s, F.Lock(r, true)), q) == F.PhaseOf(s, q)
  {
  }

  lemma EnterKeepsInv(p: L.Params, x: World, r: nat, token: nat)
    requires p.Margin() && Inv(p, x) && Enabled(x, Enter(r, token)) && L.Timely(p, x.lock, L.Reply(token))
    ensures Inv(p, Happen(p, x, Enter(r, token)))
  {
    InvExcludes(p, x);
    var x' := Happen(p, x, Enter(r, token));
    L.StepKeepsLeases(p, x.lock, L.Reply(token));
    F.StepKeepsBounded(x.fill, F.Lock(r, true));
    F.StepKeepsTables(x.fill, F.Lock(r, true));
    assert L.ClientOf(x'.lock, token).Holding?;
    assert forall t | t != token :: L.ClientOf(x'.lock, t) == L.ClientOf(x.lock, t);
    hide F.Do, F.Bounded, F.TablesOk, L.AllLeased, F.OneHolder, L.Do, L.Timely;
    forall q | q in x'.fill.requests
      ensures Matched(x', q)
    {
      if q != r {
        EnterGivesLock(x.fill, r, q);
        assert F.HasLock(F.PhaseOf(x.fill, q)) ==> q in x.fill.requests && Matched(x, q);
      }
    }
  }

  lemma LeaveDropsLock(s: F.Sys, r: nat, q: nat)
    requires F.Enabled(s, F.Unlock(r))
    ensures q != r ==> F.PhaseOf(F.Do(s, F.Unlock(r)), q) == F.PhaseOf(s, q)
    ensures !F.HasLock(F.PhaseOf(F.Do(s, F.Unlock(r)), r))
  {
  }

  lemma LeaveKeepsInv(p: L.Params, x: World, r: nat)
    requires p.Margin() && Inv(p, x) && Enabled(x, Leave(r)) && L.Timely(p, x.lock, L.StopWatch(x.tokens[r]))
    ensures Inv(p, Happen(p, x, Leave(r)))
  {
    InvExcludes(p, x);
    var x', step := Happen(p, x, Leave(r)), L.StopWatch(x.tokens[r]);
    assert forall q | q != r :: !F.HasLock(F.PhaseOf(x.fill, q));
    L.StepKeepsLeases(p, x.lock, step);
    F.StepKeepsBounded(x.fill, F.Unlock(r));
    F.StepKeepsTables(x.fill, F.Unlock(r));
    hide F.Do, F.Bounded, F.TablesOk, L.AllLeased, F.OneHolder, L.Do, L.Timely;
    forall q | q in x'.fill.requests
      ensures Matched(x', q)
    {
      LeaveDropsLock(x.fill, r, q);
    }
  }

  lemma HappenKeepsInv(p: L.Params, x: World, e: Event)
    requires p.Margin() && Inv(p, x) && Timely(p, x, e)
    ensures Inv(p, Happen(p, x, e))
  {
    hide Inv, F.Do, L.Do, L.Timely;
    if Enabled(x, e) {
      match e
      case Lease(step) => LeaseKeepsInv(p, x, step);
      case Fill(step) => FillKeepsInv(p, x, step);
      case Enter(r, token) => EnterKeepsInv(p, x, r, token);
      case Leave(r) => LeaveKeepsInv(p, x, r);
    }
  }

  lemma {:induction false} HistoryKeepsInv(p: L.Params, events: seq<Event>)
    requires p.Margin() && TimelyHistory(p, events)
    ensures Inv(p, History(p, events))
  {
    if events != [] {
      hide Inv, Happen, Timely;
      HistoryKeepsInv(p, events[..|events| - 1]);
      HappenKeepsInv(p, History(p, events[..|events| - 1]), events[|events| - 1]);
    }
  }

  /** In every interleaving over the real lock, as long as leases keep their margin:
      at most one request fills under the lock, and the loads lock holders put into the
      cache number at most one more than its removals and misreads. */
  lemma DatabaseIsShielded(p: L.Params, events: seq<Event>)
    requires p.Margin() && TimelyHistory(p, events)
    ensures F.OneHolder(History(p, events).fill)
    ensures var log := History(p, events).fill.log; log.lockedStores <= 1 + log.removals + log.misreads
  {
    HistoryKeepsInv(p, events);
    InvExcludes(p, History(p, events));
  }
}
