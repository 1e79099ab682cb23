/** The lock client itself: a single SETNX, the retry loop, the watchdog loop and the
    once-only unlock, against one Redis key that other clients use at the same time.
    Everything the client does is a run of the lease protocol. */
module RedisLock {
  import opened Common
  import opened LeaseLock

  lemma {:induction false} RunConcat(p: Params, s: State, a: seq<Step>, b: seq<Step>)
    ensures Run(p, s, a + b) == Run(p, Run(p, s, a), b)
  {
    hide Do;
    if b == [] {
      assert a + b == a;
    } else {
      RunConcat(p, s, a, b[..|b| - 1]);
      assert (a + b)[..|a + b| - 1] == a + b[..|b| - 1];
    }
  }

  lemma RunOne(p: Params, s: State, step: Step)
    ensures Run(p, s, [step]) == Do(p, s, step)
  {
    hide Do;
    assert [step][..0] == [];
  }

  /** Time spent in a stretch of steps. */
  function Passed(steps: seq<Step>): nat {
    if steps == [] then 0
    else Passed(steps[..|steps| - 1]) + if steps[|steps| - 1].Pass? then steps[|steps| - 1].d else 0
  }

  lemma OnePass(d: nat)
    ensures Passed([Pass(d)]) == d
  {
    assert [Pass(d)][..0] == [];
  }

  /** Steps of other clients, or of time. */
  predicate Foreign(steps: seq<Step>, token: nat) {
    forall step | step in steps :: !ActsFor(step, token)
  }

  /** Besides those, a renewal of ours that was still on its way. */
  predicate ForeignOrStray(steps: seq<Step>, token: nat) {
    forall step | step in steps :: ActsFor(step, token) ==> step.StrayRenew?
  }

  lemma {:induction false} ForeignSpares(p: Params, s: State, steps: seq<Step>, token: nat)
    requires Foreign(steps, token)
    ensures token in Run(p, s, steps).clients <==> token in s.clients
    ensures token in s.clients ==> Run(p, s, steps).clients[token] == s.clients[token]
    ensures Run(p, s, steps).now == s.now + Passed(steps)
  {
    if steps != [] {
      var last := steps[|steps| - 1];
      assert last in steps;
      ForeignSpares(p, s, steps[..|steps| - 1], token);
    }
  }

  lemma {:induction false} StraySpares(p: Params, s: State, steps: seq<Step>, token: nat)
    requires ForeignOrStray(steps, token) && token in s.clients && !s.clients[token].Crashed?
    ensures token in Run(p, s, steps).clients && Run(p, s, steps).clients[token] == s.clients[token]
  {
    if steps != [] {
      var last := steps[|steps| - 1];
      assert last in steps;
      StraySpares(p, s, steps[..|steps| - 1], token);
    }
  }

  /** A client's own steps in a run, in order. */
  function OwnSteps(steps: seq<Step>, token: nat): seq<Step> {
    if steps == [] then []
    else
      OwnSteps(steps[..|steps| - 1], token)
      + if ActsFor(steps[|steps| - 1], token) then [steps[|steps| - 1]] else []
  }

  lemma {:induction false} OwnStepsConcat(a: seq<Step>, b: seq<Step>, token: nat)
    ensures OwnSteps(a + b, token) == OwnSteps(a, token) + OwnSteps(b, token)
  {
    if b == [] {
      assert a + b == a;
    } else {
      OwnStepsConcat(a, b[..|b| - 1], token);
      assert (a + b)[..|a + b| - 1] == a + b[..|b| - 1];
    }
  }

  lemma {:induction false} NoneOwn(steps: seq<Step>, token: nat)
    requires Foreign(steps, token)
    ensures OwnSteps(steps, token) == []
  {
    if steps != [] {
      assert steps[|steps| - 1] in steps;
      NoneOwn(steps[..|steps| - 1], token);
    }
  }

  lemma OneOwn(steps: seq<Step>, step: Step, token: nat)
    requires Foreign(steps, token) && ActsFor(step, token)
    ensures OwnSteps(steps + [step], token) == [step]
  {
    NoneOwn(steps, token);
    assert (steps + [step])[..|steps|] == steps;
  }

  /** One Redis key and the clock; `clients` is what every client is doing, which the code
      below writes for itself and never reads.  The ttl of `p` is the one all clients pass,
      its delays matter to the laws only. */
  class RedisKey {
    const p: Params
    var slot: Slot
    var now: int
    var clients: map<nat, Client>
    ghost var history: seq<Step>

    constructor (p: Params)
      ensures this.p == p && View() == START && history == [] && Valid()
    {
      this.p := p;
      slot, now, clients, history := Free, 0, map[], [];
    }

    function View(): State
      reads this
    {
      State(now, slot, clients)
    }

    /** Whatever was done to the key so far is a run of the protocol. */
    ghost predicate Valid()
      reads this
    {
      View() == Run(p, START, history)
    }

    /** Others act and time passes. */
    method Interfere(steps: seq<Step>)
      requires Valid()
      modifies this
      ensures Valid() && View() == Run(p, old(View()), steps) && history == old(history) + steps
    {
      hide Run;
      var s := Run(p, View(), steps);
      RunConcat(p, START, history, steps);
      slot, now, clients := s.slot, s.now, s.clients;
      history := history + steps;
    }

    /** SET NX PX: the caller's token, if the key is free. */
    method SetNx(token: nat) returns (ok: bool)
      requires Valid() && token !in clients
      modifies this
      ensures Valid() && ok == !Live(old(View()))
      ensures View() == if ok then After(p, old(View()), Acquire(token)) else old(View())
      ensures history == if ok then old(history) + [Acquire(token)] else old(history)
    {
      if slot.Stored? && now < slot.deadline {
        return false;
      }
      Extend(p, history, Acquire(token));
      slot := Stored(token, now + p.ttl);
      clients := clients[token := Pending(now)];
      history := history + [Acquire(token)];
      ok := true;
    }

    /** Compare-and-expire. */
    method RenewScript(token: nat) returns (ours: bool)
      modifies this`slot
      ensures ours == HeldBy(old(View()), token) && slot == Extended(p, old(View()), token)
    {
      ours := slot.Stored? && now < slot.deadline && slot.token == token;
      if ours {
        slot := Stored(token, now + p.ttl);
      }
    }

    /** Compare-and-delete. */
    method ReleaseScript(token: nat)
      modifies this`slot
      ensures slot == Deleted(old(View()), token)
    {
      if slot.Stored? && now < slot.deadline && slot.token == token {
        slot := Free;
      }
    }

    /** Account for what a client just did to the key as one step of the protocol. */
    method Record(before: State, step: Step)
      requires before == Run(p, START, history) && Enabled(before, step)
      requires now == before.now && !step.Pass? && slot == After(p, before, step).slot
      modifies this`clients, this`history
      ensures Valid() && View() == After(p, before, step) && history == old(history) + [step]
    {
      Extend(p, history, step);
      clients := After(p, before, step).clients;
      history := history + [step];
    }
  }

  lemma Extend(p: Params, history: seq<Step>, step: Step)
    ensures Run(p, START, history + [step]) == Do(p, Run(p, START, history), step)
  {
    hide Do;
    assert (history + [step])[..|history|] == history;
  }

  /** What surrounds one attempt: others act before it, while its call is under way and
      during the random backoff after it; its fate; and which of two ready channels the
      select takes. */
  datatype Attempt = Attempt(before: seq<Step>, during: seq<Step>, fault: Fault,
                             waiting: seq<Step>, backoff: nat, picksTimer: bool)

  datatype Outcome = Won(lock: Lock) | Busy | CallFailed | TimedOut

  /** One firing of the watchdog's ticker: what others did since the last one, how late it
      is handled, and the fate of the renewal. */
  datatype Tick = Tick(others: seq<Step>, late: nat, fault: Fault)

  class Lock {
    const token: nat
    const key: RedisKey
    var due: int       // when the ticker fires next
    var watching: bool // the watchdog is running
    var unlocked: bool // Unlock has run

    constructor (token: nat, key: RedisKey)
      ensures this.token == token && this.key == key && due == key.now + key.p.Period() && watching && !unlocked
    {
      this.token, this.key := token, key;
      due, watching, unlocked := key.now + key.p.ttl / 3, true, false;
    }

    /** Until it is unlocked, a lock is a client inside its critical section. */
    ghost predicate Valid()
      reads this, key
    {
      && key.Valid() && token in key.clients
      && (unlocked ==> key.clients[token].Released?)
      && (!unlocked ==> key.clients[token].Holding? && key.clients[token].nextTick == due
                        && key.clients[token].watched == watching)
    }

    function Renewal(fault: Fault): Step {
      if fault == Fine then LeaseLock.Renew(token) else LoseRenew(token, fault.applied)
    }

    /** One renewal: an error is survived, a foreign or missing token ends the watch. */
    method Renew(fault: Fault)
      requires Valid() && !unlocked && watching && due <= key.now
      modifies key, this`due, this`watching
      ensures Valid() && due == old(due) + key.p.Period()
      ensures key.View() == Run(key.p, old(key.View()), [Renewal(fault)])
      ensures key.history == old(key.history) + [Renewal(fault)]
      ensures !watching ==> !HeldBy(key.View(), token)
      ensures key.now == old(key.now)
      ensures key.slot == if fault.Applied() && HeldBy(old(key.View()), token) then Stored(token, key.now + key.p.ttl)
                          else old(key.slot)
      ensures watching <==> fault.Lost? || HeldBy(old(key.View()), token)
    {
      var before := key.View();
      var ours := true;
      if fault.Applied() {
        ours := key.RenewScript(token);
      }
      RunOne(key.p, before, Renewal(fault));
      key.Record(before, Renewal(fault));
      due := due + key.p.ttl / 3;
      watching := fault.Lost? || ours;
    }

    /** The watchdog, over any stretch of its life.  It handles one tick after the other
        until the token is found gone, and its own steps are exactly the renewals of those
        ticks, each with the fate of its tick: sent and answered, or lost with or without
        effect.  After a renewal that went through the lease has its full life again. */
    method Watch(ticks: seq<Tick>) returns (ghost steps: seq<Step>, ghost handled: nat)
      requires Valid() && !unlocked
      requires forall tick | tick in ticks :: Foreign(tick.others, token)
      modifies key, this`due, this`watching
      ensures Valid() && key.history == old(key.history) + steps
      ensures key.View() == Run(key.p, old(key.View()), steps)
      ensures handled <= |ticks| && |OwnSteps(steps, token)| == handled && due == old(due) + handled * key.p.Period()
      ensures forall i | 0 <= i < handled ::
                OwnSteps(steps, token)[i] == if ticks[i].fault == Fine then LeaseLock.Renew(token)
                                             else LoseRenew(token, ticks[i].fault.applied)
      ensures watching ==> handled == |ticks|
      ensures old(watching) && !watching ==>
                handled > 0 && ticks[handled - 1].fault == Fine && !HeldBy(key.View(), token)
      ensures handled > 0 && ticks[handled - 1].fault == Fine && watching ==>
                key.slot == Stored(token, key.now + key.p.ttl)
    {
      hide Run, After, Enabled, OwnSteps;
      steps, handled := [], 0;
      var i := 0;
      NoneOwn([], token);
      assert key.View() == Run(key.p, key.View(), []) by { Nothing(key.p, key.View()); }
      while i < |ticks| && watching
        invariant 0 <= i <= |ticks| && handled == i && Valid() && key.history == old(key.history) + steps
        invariant key.View() == Run(key.p, old(key.View()), steps)
        invariant |OwnSteps(steps, token)| == i && due == old(due) + i * key.p.Period()
        invariant forall j | 0 <= j < i ::
                    OwnSteps(steps, token)[j] == if ticks[j].fault == Fine then LeaseLock.Renew(token)
                                                 else LoseRenew(token, ticks[j].fault.applied)
        invariant old(watching) && !watching ==> i > 0 && ticks[i - 1].fault == Fine && !HeldBy(key.View(), token)
        invariant i > 0 && ticks[i - 1].fault == Fine && watching ==> key.slot == Stored(token, key.now + key.p.ttl)
      {
        assert ticks[i] in ticks;
        ghost var more := OneTick(ticks[i]);
        RunConcat(key.p, old(key.View()), steps, more);
        OwnStepsConcat(steps, more, token);
        steps := steps + more;
        i := i + 1;
        handled := i;
      }
    }

    /** Others act until the ticker fires, and its handling may be late. */
    method AwaitTick(tick: Tick) returns (ghost steps: seq<Step>)
      requires Valid() && !unlocked && Foreign(tick.others, token)
      modifies key
      ensures Valid() && due <= key.now && Foreign(steps, token)
      ensures key.View() == Run(key.p, old(key.View()), steps) && key.history == old(key.history) + steps
    {
      hide Run, Passed;
      ghost var s0 := key.View();
      ForeignSpares(key.p, s0, tick.others, token);
      key.Interfere(tick.others);
      var wait := (if key.now < due then due - key.now else 0) + tick.late;
      ForeignSpares(key.p, key.View(), [Pass(wait)], token);
      OnePass(wait);
      RunConcat(key.p, s0, tick.others, [Pass(wait)]);
      key.Interfere([Pass(wait)]);
      steps := tick.others + [Pass(wait)];
    }

    method OneTick(tick: Tick) returns (ghost steps: seq<Step>)
      requires Valid() && !unlocked && watching && Foreign(tick.others, token)
      modifies key, this`due, this`watching
      ensures Valid() && key.history == old(key.history) + steps
      ensures key.View() == Run(key.p, old(key.View()), steps)
      ensures OwnSteps(steps, token) == [if tick.fault == Fine then LeaseLock.Renew(token)
                                         else LoseRenew(token, tick.fault.applied)]
      ensures due == old(due) + key.p.Period()
      ensures !watching ==> tick.fault == Fine && !HeldBy(key.View(), token)
      ensures watching && tick.fault == Fine ==> key.slot == Stored(token, key.now + key.p.ttl)
    {
      hide Run, OwnSteps;
      steps := AwaitTick(tick);
      OneOwn(steps, Renewal(tick.fault), token);
      RunConcat(key.p, old(key.View()), steps, [Renewal(tick.fault)]);
      steps := steps + [Renewal(tick.fault)];
      Renew(tick.fault);
    }

    /** Stop the watchdog, then compare-and-delete, while others act and a renewal may
        still land; a second call does nothing at all. */
    method Unlock(between: seq<Step>, fault: Fault)
      requires Valid() && ForeignOrStray(between, token)
      modifies this`watching, this`unlocked, key
      ensures Valid() && unlocked
      ensures old(unlocked) ==> key.View() == old(key.View()) && key.history == old(key.history)
      ensures !old(unlocked) ==>
                && !watching
                && key.history == old(key.history) + [StopWatch(token)] + between
                                  + [if fault.Applied() then Release(token) else LoseRelease(token)]
      ensures !old(unlocked) && fault.Applied() ==> !HeldBy(key.View(), token)
    {
      hide Run;
      if !unlocked {
        unlocked := true;
        watching := false;
        key.Record(key.View(), StopWatch(token));
        StraySpares(key.p, key.View(), between, token);
        key.Interfere(between);
        var before := key.View();
        if fault.Applied() {
          key.ReleaseScript(token);
        }
        key.Record(before, if fault.Applied() then Release(token) else LoseRelease(token));
      }
    }
  }

  lemma Nothing(p: Params, s: State)
    ensures Run(p, s, []) == s
  {
  }

  /** The lock code excludes: however its methods, other clients and the clock interleave,
      if the delays stay within a margin then two locks of one key that are not unlocked
      are one lock, and its token is the stored one. */
  lemma LocksExclude(a: Lock, b: Lock)
    requires a.key == b.key && a.Valid() && b.Valid() && !a.unlocked && !b.unlocked
    requires a.key.p.Margin() && TimelyRun(a.key.p, START, a.key.history)
    ensures a.token == b.token && HeldBy(a.key.View(), a.token)
  {
    NeverTogether(a.key.p, a.key.history, a.token, b.token);
  }

  class Locker {
    /** One SET NX PX with a fresh token: it wins exactly when the key was free and the
        answer arrived, and an answer that got lost leaves an abandoned lease behind. */
    method AcquireOnce(key: RedisKey, token: nat, during: seq<Step>, fault: Fault)
      returns (outcome: Outcome, ghost steps: seq<Step>)
      requires key.Valid() && token !in key.clients && Foreign(during, token)
      modifies key
      ensures key.Valid() && key.history == old(key.history) + steps && key.now == old(key.now) + Passed(during)
      ensures steps == (if fault.Applied() && !Live(old(key.View())) then [Acquire(token)] else []) + during
                       + (if !fault.Applied() || Live(old(key.View())) then []
                          else [if fault == Fine then Reply(token) else LoseReply(token)])
      ensures match outcome
              case Won(lock) => fault == Fine && !Live(old(key.View())) && fresh(lock) && lock.token == token
                                && lock.key == key && lock.Valid() && !lock.unlocked && lock.watching
              case Busy => fault == Fine && Live(old(key.View()))
              case CallFailed => fault.Lost?
              case TimedOut => false
    {
      hide Run, Passed;
      var live := true;
      if fault != Lost(false) {
        var ok := key.SetNx(token);
        live := !ok;
      } else {
        live := key.slot.Stored? && key.now < key.slot.deadline;
      }
      steps := if fault.Applied() && !live then [Acquire(token)] else [];
      ForeignSpares(key.p, key.View(), during, token);
      key.Interfere(during);
      steps := steps + during;
      if fault.Lost? {
        if fault.applied && !live {
          key.Record(key.View(), LoseReply(token));
          steps := steps + [LoseReply(token)];
        }
        return CallFailed, steps;
      }
      if live {
        return Busy, steps;
      }
      key.Record(key.View(), Reply(token));
      steps := steps + [Reply(token)];
      var lock := new Lock(token, key);
      outcome := Won(lock);
    }

    /** Spin with a random backoff of at least 5 ms until the wait is used up: at most
        ceil(maxWait / 5) attempts in time, and one whose call already finds it over. */
    method AcquireWithRetry(key: RedisKey, firstToken: nat, maxWait: nat, world: nat -> Attempt)
      returns (outcome: Outcome, attempts: nat)
      requires key.Valid() && forall t: nat | t >= firstToken :: t !in key.clients
      requires forall n: nat :: 5 <= world(n).backoff < 15
      requires forall n: nat, t: nat | t >= firstToken ::
                 Foreign(world(n).before, t) && Foreign(world(n).during, t) && Foreign(world(n).waiting, t)
      modifies key
      ensures key.Valid() && old(key.history) <= key.history
      ensures 1 <= attempts <= (maxWait + 4) / 5 + 1
      ensures outcome != Busy
      ensures outcome == TimedOut ==> key.now >= old(key.now) + maxWait
      ensures outcome == CallFailed ==> world(attempts - 1).fault.Lost?
      ensures var first := world(0); var start := Run(key.p, old(key.View()), first.before);
        !Live(start) && first.fault == Fine && start.now + Passed(first.during) < old(key.now) + maxWait ==>
          outcome.Won? && attempts == 1
      ensures outcome.Won? ==>
                && fresh(outcome.lock) && outcome.lock.token == firstToken + attempts - 1 && outcome.lock.key == key
                && outcome.lock.Valid() && !outcome.lock.unlocked && outcome.lock.watching
    {
      hide Run, Foreign, Passed;
      var deadline := key.now + maxWait;
      attempts := 0;
      while true
        invariant key.Valid() && old(key.history) <= key.history
        invariant key.now >= old(key.now) + 5 * attempts
        invariant attempts == 0 || 5 * (attempts - 1) < maxWait
        invariant forall t: nat | t >= firstToken + attempts :: t !in key.clients
        invariant attempts > 0 ==>
                    var first := world(0); var start := Run(key.p, old(key.View()), first.before);
                    Live(start) || first.fault.Lost? || start.now + Passed(first.during) >= deadline
        invariant attempts == 0 ==> key.View() == old(key.View())
        decreases maxWait + 5 - 5 * attempts
      {
        var attempt := world(attempts);
        Pause(key, firstToken + attempts, attempt.before);
        var fault :=
          if key.now + Passed(attempt.during) < deadline then attempt.fault else Lost(attempt.fault.Applied());
        ghost var steps;
        outcome, steps := TryOnce(key, firstToken + attempts, attempt.during, fault);
        attempts := attempts + 1;
        if outcome.Won? {
          return;
        }
        if outcome.CallFailed? {
          outcome := if key.now >= deadline then TimedOut else CallFailed;
          return;
        }
        var timerAt := key.now + attempt.backoff;
        Pause(key, firstToken + attempts, attempt.waiting);
        if key.now >= timerAt && key.now >= deadline {
          if !attempt.picksTimer {
            return TimedOut, attempts;
          }
        } else if timerAt <= deadline {
          Wait(key, firstToken + attempts, timerAt);
        } else {
          Wait(key, firstToken + attempts, deadline);
          return TimedOut, attempts;
        }
      }
    }

    /** Others act and time passes; tokens not drawn yet stay unknown. */
    method Pause(key: RedisKey, unused: nat, steps: seq<Step>)
      requires key.Valid() && forall t: nat | t >= unused :: t !in key.clients
      requires forall t: nat | t >= unused :: Foreign(steps, t)
      modifies key
      ensures key.Valid() && old(key.history) <= key.history && key.now >= old(key.now)
      ensures key.View() == Run(key.p, old(key.View()), steps)
      ensures forall t: nat | t >= unused :: t !in key.clients
    {
      forall t: nat | t >= unused
        ensures t !in Run(key.p, key.View(), steps).clients
      {
        ForeignSpares(key.p, key.View(), steps, t);
      }
      ForeignSpares(key.p, key.View(), steps, unused);
      hide Run;
      key.Interfere(steps);
    }

    method Wait(key: RedisKey, unused: nat, until: int)
      requires key.Valid() && forall t: nat | t >= unused :: t !in key.clients
      modifies key
      ensures key.Valid() && old(key.history) <= key.history && key.now >= old(key.now) && key.now >= until
      ensures forall t: nat | t >= unused :: t !in key.clients
    {
      var d := if key.now < until then until - key.now else 0;
      RunOne(key.p, key.View(), Pass(d));
      hide Run;
      key.Interfere([Pass(d)]);
    }

    /** One attempt, leaving the tokens after it unknown. */
    method TryOnce(key: RedisKey, token: nat, during: seq<Step>, fault: Fault)
      returns (outcome: Outcome, ghost steps: seq<Step>)
      requires key.Valid() && forall t: nat | t >= token :: t !in key.clients
      requires forall t: nat | t >= token :: Foreign(during, t)
      modifies key
      ensures key.Valid() && old(key.history) <= key.history && key.now == old(key.now) + Passed(during)
      ensures forall t: nat | t >= token + 1 :: t !in key.clients
      ensures outcome.Won? ==>
                && fault == Fine && fresh(outcome.lock) && outcome.lock.token == token && outcome.lock.key == key
                && outcome.lock.Valid() && !outcome.lock.unlocked && outcome.lock.watching
      ensures outcome.CallFailed? <==> fault.Lost?
      ensures outcome.Won? <==> fault == Fine && !Live(old(key.View()))
      ensures outcome != TimedOut
    {
      hide Passed, Run;
      ghost var s := key.View();
      outcome, steps := AcquireOnce(key, token, during, fault);
      forall t: nat | t >= token + 1
        ensures t !in key.clients
      {
        OwnTokenOnly(key.p, s, steps, token, during, t);
        RunConcat(key.p, START, old(key.history), steps);
      }
    }
  }

  /** An attempt brings in its own token only. */
  lemma OwnTokenOnly(p: Params, s: State, steps: seq<Step>, token: nat, during: seq<Step>, t: nat)
    requires t != token && t !in s.clients && Foreign(during, t)
    requires forall step | step in steps :: step in during || ActsFor(step, token)
    ensures t !in Run(p, s, steps).clients
  {
    assert Foreign(steps, t);
    ForeignSpares(p, s, steps, t);
  }
}
