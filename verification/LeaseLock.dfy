/** The Redis lock as a timed protocol for one key: a token lease taken by SETNX,
    renewed by a watchdog every third of its life, and released by compare-and-delete.
    Requests and replies take time, renewals get lost, clients crash. */
module LeaseLock {

  /** Times in milliseconds.  `reply` bounds the delay of an acquisition's answer,
      `delay` the lateness of a renewal, `misses` the renewals lost in a row. */
  datatype Params = Params(ttl: nat, reply: nat, delay: nat, misses: nat) {
    function Period(): nat { ttl / 3 }

    /** The longest a held lease can go without an effective renewal, against its life. */
    predicate Margin() { reply + (misses + 1) * Period() + delay < ttl }
  }

  datatype Client =
    | Pending(since: int)                              // SETNX took effect, its answer is under way
    | Holding(nextTick: int, missed: nat, watched: bool) // inside the critical section
    | Unlocking                                        // watchdog stopped, release script under way
    | Released                                         // release script ran
    | Crashed(since: int, inFlight: bool)              // a renewal may still be on its way
    | Abandoned                                        // never learned that it won

  datatype Slot = Free | Stored(token: nat, deadline: int)

  datatype State = State(now: int, slot: Slot, clients: map<nat, Client>)

  datatype Step =
    | Acquire(token: nat)
    | Reply(token: nat)
    | LoseReply(token: nat)
    | Renew(token: nat)
    | LoseRenew(token: nat, applied: bool)
    | StopWatch(token: nat)
    | StrayRenew(token: nat)
    | Release(token: nat)
    | LoseRelease(token: nat)
    | Crash(token: nat)
    | Pass(d: nat)

  /** An expired key reads as absent. */
  predicate Live(s: State) { s.slot.Stored? && s.now < s.slot.deadline }

  predicate HeldBy(s: State, token: nat) { Live(s) && s.slot.token == token }

  predicate Critical(c: Client) { c.Pending? || c.Holding? }

  function ClientOf(s: State, token: nat): Client { if token in s.clients then s.clients[token] else Abandoned }

  predicate RenewalDue(now: int, c: Client) { c.Holding? && c.watched && c.nextTick <= now }

  predicate Enabled(s: State, step: Step) {
    match step
    case Acquire(token) => token !in s.clients && !Live(s)
    case Reply(token) => ClientOf(s, token).Pending?
    case LoseReply(token) => ClientOf(s, token).Pending?
    case Renew(token) => RenewalDue(s.now, ClientOf(s, token))
    case LoseRenew(token, _) => RenewalDue(s.now, ClientOf(s, token))
    case StopWatch(token) => ClientOf(s, token).Holding?
    case StrayRenew(token) =>
      || ClientOf(s, token).Unlocking? || ClientOf(s, token).Released?
      || (ClientOf(s, token).Crashed? && ClientOf(s, token).inFlight)
    case Release(token) => ClientOf(s, token).Unlocking?
    case LoseRelease(token) => ClientOf(s, token).Unlocking?
    case Crash(token) => Critical(ClientOf(s, token)) || ClientOf(s, token).Unlocking?
    case Pass(_) => true
  }

  function Put(s: State, token: nat, c: Client): State { s.(clients := s.clients[token := c]) }

  /** Compare-and-expire: only the stored token extends the lease. */
  function Extended(p: Params, s: State, token: nat): Slot {
    if HeldBy(s, token) then Stored(token, s.now + p.ttl) else s.slot
  }

  /** Compare-and-delete. */
  function Deleted(s: State, token: nat): Slot { if HeldBy(s, token) then Free else s.slot }

  function After(p: Params, s: State, step: Step): State
    requires Enabled(s, step)
  {
    match step
    case Acquire(token) => Put(s.(slot := Stored(token, s.now + p.ttl)), token, Pending(s.now))
    case Reply(token) => Put(s, token, Holding(s.now + p.Period(), 0, true))
    case LoseReply(token) => Put(s, token, Abandoned)
    case Renew(token) =>
      var next := ClientOf(s, token).nextTick + p.Period();
      Put(s.(slot := Extended(p, s, token)), token, Holding(next, 0, HeldBy(s, token)))
    case LoseRenew(token, applied) =>
      var c := ClientOf(s, token);
      Put(if applied then s.(slot := Extended(p, s, token)) else s, token,
          Holding(c.nextTick + p.Period(), c.missed + 1, true))
    case StopWatch(token) => Put(s, token, Unlocking)
    case StrayRenew(token) =>
      var c := ClientOf(s, token);
      var s1 := s.(slot := Extended(p, s, token));
      if c.Crashed? then Put(s1, token, Crashed(c.since, false)) else s1
    case Release(token) => Put(s.(slot := Deleted(s, token)), token, Released)
    case LoseRelease(token) => Put(s, token, Released)
    case Crash(token) => Put(s, token, if ClientOf(s, token).Pending? then Abandoned else Crashed(s.now, true))
    case Pass(d) => s.(now := s.now + d)
  }

  function Do(p: Params, s: State, step: Step): State { if Enabled(s, step) then After(p, s, step) else s }

  function Run(p: Params, s: State, steps: seq<Step>): State {
    if steps == [] then s else Do(p, Run(p, s, steps[..|steps| - 1]), steps[|steps| - 1])
  }

  const START := State(0, Free, map[])

  // ----- exclusion -----

  /** Answers and renewals are not later than their bounds, a crashed client's last renewal
      included, and at most the allowed number of renewals is lost in a row. */
  ghost predicate Timely(p: Params, s: State, step: Step) {
    && (step.Pass? ==> forall t | t in s.clients :: InTime(p, s.now + step.d, s.clients[t]))
    && (step.LoseRenew? && ClientOf(s, step.token).Holding? ==> ClientOf(s, step.token).missed + 1 <= p.misses)
    && (step.StrayRenew? && ClientOf(s, step.token).Crashed? ==> s.now <= ClientOf(s, step.token).since + p.delay)
  }

  predicate InTime(p: Params, now: int, c: Client) {
    match c
    case Pending(since) => now <= since + p.reply
    case Holding(nextTick, _, _) => now <= nextTick + p.delay
    case _ => true
  }

  ghost predicate TimelyRun(p: Params, s: State, steps: seq<Step>) {
    steps != [] ==>
      && TimelyRun(p, s, steps[..|steps| - 1])
      && Timely(p, Run(p, s, steps[..|steps| - 1]), steps[|steps| - 1])
  }

  /** The lease of a client inside the critical section, and how old it can be. */
  predicate Leased(p: Params, s: State, token: nat, c: Client) {
    match c
    case Pending(since) => s.slot == Stored(token, since + p.ttl) && s.now <= since + p.reply
    case Holding(nextTick, missed, watched) =>
      && watched && missed <= p.misses && s.now <= nextTick + p.delay
      && s.slot.Stored? && s.slot.token == token
      && nextTick - (1 + missed) * p.Period() + p.ttl <= s.slot.deadline + p.reply
    case _ => true
  }

  ghost predicate AllLeased(p: Params, s: State) {
    forall t | t in s.clients :: Leased(p, s, t, s.clients[t])
  }

  /** Nobody but the live holder of the key is inside the critical section. */
  ghost predicate Exclusive(s: State) {
    forall t | t in s.clients && Critical(s.clients[t]) :: HeldBy(s, t)
  }

  lemma MissedBound(p: Params, missed: nat)
    requires missed <= p.misses
    ensures (1 + missed) * p.Period() <= (p.misses + 1) * p.Period()
  {
    assert (p.misses + 1) * p.Period() - (1 + missed) * p.Period() == (p.misses - missed) * p.Period();
  }

  /** With the margin, a lease in use has not run out. */
  lemma LeasedIsLive(p: Params, s: State, t: nat)
    requires p.Margin() && AllLeased(p, s) && t in s.clients && Critical(s.clients[t])
    ensures HeldBy(s, t)
  {
    assert Leased(p, s, t, s.clients[t]);
    if s.clients[t].Holding? {
      MissedBound(p, s.clients[t].missed);
    }
  }

  lemma LeasesExclude(p: Params, s: State)
    requires p.Margin() && AllLeased(p, s)
    ensures Exclusive(s)
  {
    forall t | t in s.clients && Critical(s.clients[t])
      ensures HeldBy(s, t)
    {
      LeasedIsLive(p, s, t);
    }
  }

  /** A new lease only starts when no lease is in use. */
  lemma AcquireKeepsLeases(p: Params, s: State, token: nat)
    requires p.Margin() && AllLeased(p, s) && Enabled(s, Acquire(token))
    ensures AllLeased(p, After(p, s, Acquire(token)))
  {
    LeasesExclude(p, s);
  }

  /** A client's own step touches no other client's lease. */
  lemma OwnStepSparesOthers(p: Params, s: State, step: Step, t: nat)
    requires Exclusive(s) && Enabled(s, step) && !step.Acquire? && !step.Pass?
    requires t in s.clients && t != step.token && Leased(p, s, t, s.clients[t])
    ensures Leased(p, After(p, s, step), t, s.clients[t])
  {
  }

  lemma OwnStepKeepsOwn(p: Params, s: State, step: Step)
    requires p.Margin() && Exclusive(s) && Timely(p, s, step) && Enabled(s, step) && !step.Acquire? && !step.Pass?
    requires step.token in s.clients && Leased(p, s, step.token, s.clients[step.token])
    ensures Leased(p, After(p, s, step), step.token, After(p, s, step).clients[step.token])
  {
  }

  lemma OwnStepKeepsLeases(p: Params, s: State, step: Step)
    requires p.Margin() && AllLeased(p, s) && Timely(p, s, step) && Enabled(s, step) && !step.Acquire? && !step.Pass?
    ensures AllLeased(p, After(p, s, step))
  {
    var s' := After(p, s, step);
    LeasesExclude(p, s);
    assert s'.clients.Keys == s.clients.Keys;
    assert forall t | t in s.clients && t != step.token :: s'.clients[t] == s.clients[t];
    hide Timely, Leased, Exclusive, After;
    OwnStepKeepsOwn(p, s, step);
    forall t | t in s'.clients && t != step.token
      ensures Leased(p, s', t, s'.clients[t])
    {
      OwnStepSparesOthers(p, s, step, t);
    }
  }

  lemma StepKeepsLeases(p: Params, s: State, step: Step)
    requires p.Margin() && AllLeased(p, s) && Timely(p, s, step)
    ensures AllLeased(p, Do(p, s, step))
  {
    if Enabled(s, step) {
      match step
      case Acquire(token) => AcquireKeepsLeases(p, s, token);
      case Pass(d) =>
      case _ => OwnStepKeepsLeases(p, s, step);
    }
  }

  lemma {:induction false} RunKeepsLeases(p: Params, s: State, steps: seq<Step>)
    requires p.Margin() && AllLeased(p, s) && TimelyRun(p, s, steps)
    ensures AllLeased(p, Run(p, s, steps))
  {
    hide Do, Timely, AllLeased;
    if steps != [] {
      RunKeepsLeases(p, s, steps[..|steps| - 1]);
      StepKeepsLeases(p, Run(p, s, steps[..|steps| - 1]), steps[|steps| - 1]);
    }
  }

  /** Every timely run excludes. */
  ghost predicate Excludes(p: Params) {
    forall steps | TimelyRun(p, START, steps) :: Exclusive(Run(p, START, steps))
  }

  lemma MarginExcludes(p: Params)
    requires p.Margin()
    ensures Excludes(p)
  {
    forall steps | TimelyRun(p, START, steps)
      ensures Exclusive(Run(p, START, steps))
    {
      RunKeepsLeases(p, START, steps);
      LeasesExclude(p, Run(p, START, steps));
    }
  }

  /** A client that wins, hears of it as late as allowed, and then loses k renewals,
      each when it falls due. */
  function Unlucky(p: Params, k: nat): seq<Step> {
    if k == 0 then [Acquire(1), Pass(p.reply), Reply(1), Pass(p.Period())]
    else Unlucky(p, k - 1) + [LoseRenew(1, false)] + [Pass(p.Period())]
  }

  lemma TwoMore(p: Params, s: State, steps: seq<Step>, x: Step, y: Step)
    requires TimelyRun(p, s, steps) && Timely(p, Run(p, s, steps), x) && Timely(p, Do(p, Run(p, s, steps), x), y)
    ensures TimelyRun(p, s, steps + [x] + [y])
    ensures Run(p, s, steps + [x] + [y]) == Do(p, Do(p, Run(p, s, steps), x), y)
  {
    hide Do, Timely;
    assert (steps + [x])[..|steps|] == steps;
    assert (steps + [x] + [y])[..|steps| + 1] == steps + [x];
  }

  function WaitingAt(p: Params, n: int, k: nat): State {
    State(n, Stored(1, p.ttl), map[1 := Holding(n, k, true)])
  }

  lemma LoseOne(p: Params, n: int, k: nat)
    requires k + 1 <= p.misses
    ensures var s := WaitingAt(p, n, k);
            var s1 := Do(p, s, LoseRenew(1, false));
      && Timely(p, s, LoseRenew(1, false)) && Timely(p, s1, Pass(p.Period()))
      && Do(p, s1, Pass(p.Period())) == WaitingAt(p, n + p.Period(), k + 1)
  {
  }

  lemma WinOne(p: Params)
    ensures var s1 := Do(p, START, Acquire(1));
            var s2 := Do(p, s1, Pass(p.reply));
            var s3 := Do(p, s2, Reply(1));
      && Timely(p, START, Acquire(1)) && Timely(p, s1, Pass(p.reply))
      && Timely(p, s2, Reply(1)) && Timely(p, s3, Pass(p.Period()))
      && Do(p, s3, Pass(p.Period())) == WaitingAt(p, p.reply + p.Period(), 0)
  {
  }

  lemma {:induction false} UnluckyRun(p: Params, k: nat)
    requires k <= p.misses
    ensures TimelyRun(p, START, Unlucky(p, k))
    ensures Run(p, START, Unlucky(p, k)) == WaitingAt(p, p.reply + (k + 1) * p.Period(), k)
  {
    hide Do, Timely;
    if k == 0 {
      WinOne(p);
      assert [] + [Acquire(1)] + [Pass(p.reply)] == [Acquire(1), Pass(p.reply)];
      TwoMore(p, START, [], Acquire(1), Pass(p.reply));
      assert [Acquire(1), Pass(p.reply)] + [Reply(1)] + [Pass(p.Period())] == Unlucky(p, 0);
      TwoMore(p, START, [Acquire(1), Pass(p.reply)], Reply(1), Pass(p.Period()));
    } else {
      UnluckyRun(p, k - 1);
      assert p.reply + (k + 1) * p.Period() == p.reply + k * p.Period() + p.Period();
      LoseOne(p, p.reply + k * p.Period(), k - 1);
      TwoMore(p, START, Unlucky(p, k - 1), LoseRenew(1, false), Pass(p.Period()));
    }
  }

  /** A second client enters as soon as the first one's lease has run out. */
  lemma SecondEnters(p: Params, n: int, k: nat)
    ensures var s, d := WaitingAt(p, n, k), if n < p.ttl then p.ttl - n else 0;
            var s1 := Do(p, s, Pass(d));
            var s2 := Do(p, s1, Acquire(2));
      && (n + d <= n + p.delay ==> Timely(p, s, Pass(d))) && Timely(p, s1, Acquire(2))
      && !Exclusive(s2)
  {
    var d := if n < p.ttl then p.ttl - n else 0;
    var s2 := Do(p, Do(p, WaitingAt(p, n, k), Pass(d)), Acquire(2));
    assert 1 in s2.clients && Critical(s2.clients[1]) && !HeldBy(s2, 1);
  }

  /** Without the margin, a second client can enter while the first still holds. */
  lemma NoMarginOverlaps(p: Params)
    requires !p.Margin()
    ensures !Excludes(p)
  {
    hide Do, Timely, Exclusive;
    var n, steps := p.reply + (p.misses + 1) * p.Period(), Unlucky(p, p.misses);
    var d := if n < p.ttl then p.ttl - n else 0;
    UnluckyRun(p, p.misses);
    SecondEnters(p, n, p.misses);
    TwoMore(p, START, steps, Pass(d), Acquire(2));
    assert !Exclusive(Run(p, START, steps + [Pass(d)] + [Acquire(2)]));
  }

  /** The lock excludes in every timely run exactly when a lease outlives the slowest
      answer, the allowed lost renewals and the latest renewal together. */
  lemma ExclusionIffMargin(p: Params)
    ensures Excludes(p) <==> p.reply + (p.misses + 1) * (p.ttl / 3) + p.delay < p.ttl
  {
    if p.Margin() {
      MarginExcludes(p);
    } else {
      NoMarginOverlaps(p);
    }
  }

  /** One lost renewal at a time is tolerated exactly when the answer and renewal
      delays fit into what two periods leave; with a ttl of whole thirds (the cache-fill
      lease is 30 seconds) two in a row are never tolerated. */
  lemma ToleratedMisses(p: Params)
    ensures p.misses == 1 ==> (Excludes(p) <==> p.reply + p.delay < p.ttl - 2 * (p.ttl / 3))
    ensures p.misses >= 2 && p.ttl % 3 == 0 ==> !Excludes(p)
  {
    ExclusionIffMargin(p);
    if p.misses >= 2 && p.ttl % 3 == 0 {
      MissedBound(p, 2);
    }
  }

  /** Two clients are never inside the critical section together. */
  lemma NeverTogether(p: Params, steps: seq<Step>, t1: nat, t2: nat)
    requires p.Margin() && TimelyRun(p, START, steps)
    requires t1 in Run(p, START, steps).clients && t2 in Run(p, START, steps).clients
    requires Critical(Run(p, START, steps).clients[t1]) && Critical(Run(p, START, steps).clients[t2])
    ensures t1 == t2 && HeldBy(Run(p, START, steps), t1)
  {
    MarginExcludes(p);
    assert Exclusive(Run(p, START, steps));
  }

  // ----- a client that lost the key is harmless; a dead one lets go -----

  /** The client already took part, and its token is not the live one. */
  predicate Spent(s: State, token: nat) { token in s.clients && !HeldBy(s, token) }

  predicate ActsFor(step: Step, token: nat) { !step.Pass? && step.token == token }

  lemma StepKeepsSpent(p: Params, s: State, step: Step, token: nat)
    requires Spent(s, token)
    ensures Spent(Do(p, s, step), token)
    ensures ActsFor(step, token) ==> Do(p, s, step).slot == s.slot
  {
  }

  /** Once a client's token is no longer stored, no later step of that client (a renewal
      in flight, Unlock, Unlock again) changes the key: in any run at all, timely or not. */
  lemma {:induction false} SpentForever(p: Params, s: State, steps: seq<Step>, next: Step, token: nat)
    requires Spent(s, token)
    ensures Spent(Run(p, s, steps), token)
    ensures ActsFor(next, token) ==> Do(p, Run(p, s, steps), next).slot == Run(p, s, steps).slot
  {
    hide Do;
    if steps != [] {
      SpentForever(p, s, steps[..|steps| - 1], steps[|steps| - 1], token);
      StepKeepsSpent(p, Run(p, s, steps[..|steps| - 1]), steps[|steps| - 1], token);
    }
    StepKeepsSpent(p, Run(p, s, steps), next, token);
  }

  /** No lease reaches further than one ttl ahead. */
  predicate LeaseBounded(p: Params, s: State) { s.slot.Stored? ==> s.slot.deadline <= s.now + p.ttl }

  lemma {:induction false} RunKeepsLeaseBounded(p: Params, steps: seq<Step>)
    ensures LeaseBounded(p, Run(p, START, steps))
  {
    if steps != [] {
      RunKeepsLeaseBounded(p, steps[..|steps| - 1]);
    }
  }

  /** A lease whose client is gone keeps the deadline it had. */
  predicate Dying(s: State, token: nat, deadline: int) {
    ClientOf(s, token).Abandoned? && token in s.clients && (HeldBy(s, token) ==> s.slot.deadline <= deadline)
  }

  lemma {:induction false} RunKeepsDying(p: Params, s: State, steps: seq<Step>, token: nat, deadline: int)
    requires Dying(s, token, deadline)
    ensures Dying(Run(p, s, steps), token, deadline)
  {
    if steps != [] {
      RunKeepsDying(p, s, steps[..|steps| - 1], token, deadline);
    }
  }

  /** A client whose SETNX answer was lost frees the key within one ttl, whatever else
      happens. */
  lemma AbandonedFrees(p: Params, before: seq<Step>, later: seq<Step>, token: nat)
    requires var s := Run(p, START, before); token in s.clients && s.clients[token].Abandoned?
    requires Run(p, Run(p, START, before), later).now >= Run(p, START, before).now + p.ttl
    ensures !HeldBy(Run(p, Run(p, START, before), later), token)
  {
    var s := Run(p, START, before);
    RunKeepsLeaseBounded(p, before);
    RunKeepsDying(p, s, later, token, s.now + p.ttl);
  }

  /** The lease of a crashed client ends one ttl after the crash, or one ttl after the
      renewal that was still on its way. */
  ghost predicate CrashedBounded(p: Params, s: State) {
    forall t | t in s.clients && s.clients[t].Crashed? ::
      && s.clients[t].since <= s.now
      && (s.slot.Stored? && s.slot.token == t ==>
        s.slot.deadline <= s.clients[t].since + p.ttl + if s.clients[t].inFlight then 0 else p.delay)
  }

  lemma StepKeepsCrashedBounded(p: Params, s: State, step: Step)
    requires CrashedBounded(p, s) && LeaseBounded(p, s) && Timely(p, s, step)
    ensures CrashedBounded(p, Do(p, s, step))
  {
  }

  lemma {:induction false} RunKeepsCrashedBounded(p: Params, steps: seq<Step>)
    requires TimelyRun(p, START, steps)
    ensures CrashedBounded(p, Run(p, START, steps))
  {
    hide CrashedBounded, LeaseBounded, Timely, Do;
    if steps == [] {
      NobodyCrashed(p);
    } else {
      var init, last := steps[..|steps| - 1], steps[|steps| - 1];
      RunKeepsCrashedBounded(p, init);
      RunKeepsLeaseBounded(p, init);
      StepKeepsCrashedBounded(p, Run(p, START, init), last);
    }
  }

  lemma NobodyCrashed(p: Params)
    ensures CrashedBounded(p, START)
  {
  }

  /** A crashed holder frees the key within one ttl of its crash; if a renewal was in
      flight and lands after the crash, the delay of that renewal comes on top. */
  lemma CrashFrees(p: Params, steps: seq<Step>, token: nat)
    requires TimelyRun(p, START, steps)
    requires var s := Run(p, START, steps);
      && token in s.clients && s.clients[token].Crashed?
      && s.now >= s.clients[token].since + p.ttl + if s.clients[token].inFlight then 0 else p.delay
    ensures !HeldBy(Run(p, START, steps), token)
  {
    RunKeepsCrashedBounded(p, steps);
  }
}
