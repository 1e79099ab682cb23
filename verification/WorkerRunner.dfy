/** The worker itself: handling one delivery call by call, and the consuming loop.
    Every statement is one step of the protocol, and with finitely many faults the
    loop drains any queue whatever the jobs do. */
module WorkerRunner {
  import opened Common
  import opened WorkerProtocol

  datatype BeginResult = BeginAcquired | BeginBusy | BeginDone | BeginError

  /** What the world does during one delivery: the fate of each remote call, how long
      Handle takes, whether it succeeds, and the text of the error if it does not. */
  datatype Script = Script(begin: Fault, elapsed: nat, ok: bool, cause: string,
                           complete: Fault, release: Fault, publish: Fault) {
    predicate Faultless() { begin == Fine && complete == Fine && release == Fine && publish == Fine }
  }

  // ----- termination measure -----

  /** Deliveries a copy can still cause: one at or above the limit, else one more than
      its remaining retries (a header below the int32 range is as good as its minimum). */
  function Weight(limit: int, m: Message): nat
    requires limit >= 1
  {
    if m.body.Malformed? || RetryCount(m) >= limit then 1
    else if RetryCount(m) < -INT32_LIMIT then limit + INT32_LIMIT + 2
    else limit + 1 - RetryCount(m)
  }

  function Work(limit: int, queue: seq<Message>): nat
    requires limit >= 1
  {
    if queue == [] then 0 else Work(limit, queue[..|queue| - 1]) + Weight(limit, queue[|queue| - 1])
  }

  lemma {:induction false} WorkSplits(limit: int, m: Message, queue: seq<Message>)
    requires limit >= 1
    ensures Work(limit, [m] + queue) == Weight(limit, m) + Work(limit, queue)
    ensures Work(limit, queue + [m]) == Work(limit, queue) + Weight(limit, m)
  {
    assert (queue + [m])[..|queue|] == queue;
    if queue == [] {
      assert [m] + queue == [m] && [m][..0] == [];
    } else {
      var before, last := queue[..|queue| - 1], queue[|queue| - 1];
      assert ([m] + queue)[..|queue|] == [m] + before;
      WorkSplits(limit, m, before);
    }
  }

  /** A retry always costs weight. */
  lemma RetryIsLighter(limit: int, m: Message)
    requires 1 <= limit < INT32_LIMIT && m.body.Valid? && RetryCount(m) < limit
    ensures Weight(limit, RetryCopy(m)) < Weight(limit, m)
  {
    assert RetryCount(RetryCopy(m)) == ToInt32(RetryCount(m) + 1);
  }

  /** Faulty deliveries among numbers n .. last - 1. */
  ghost function FaultsLeft(world: nat -> Script, n: nat, last: nat): nat
    decreases last - n
  {
    if n >= last then 0
    else (if world(n).Faultless() then 0 else 1) + FaultsLeft(world, n + 1, last)
  }

  ghost predicate QuietFrom(world: nat -> Script, last: nat) {
    forall n: nat | n >= last :: world(n).Faultless()
  }

  /** One more step of a run. */
  lemma Extend(s0: Sys, steps: seq<Step>, s: Sys, step: Step, s': Sys)
    requires s == RunAll(s0, steps) && Enabled(s, step) && s' == After(s, step)
    ensures s' == RunAll(s0, steps + [step])
  {
    hide Enabled, After;
    assert (steps + [step])[..|steps|] == steps;
  }

  lemma ExtendBegin(s0: Sys, steps: seq<Step>, s: Sys, w: int, m: Message, fault: Fault, s': Sys)
    requires s == RunAll(s0, steps) && PhaseOf(s, w) == Taken(m)
    requires m.body.Valid? && (IdOf(m.body) == "" ==> fault == Fine)
    requires s' == AfterBegin(s, w, m, fault)
    ensures s' == RunAll(s0, steps + [Begin(w, fault)])
  {
    hide AfterBegin;
    Extend(s0, steps, s, Begin(w, fault), s');
  }

  lemma ExtendHandle(s0: Sys, steps: seq<Step>, s: Sys, w: int, m: Message, until: int, ok: bool, s': Sys)
    requires s == RunAll(s0, steps) && PhaseOf(s, w) == Claimed(m, until)
    requires s' == AfterHandle(s, w, m, until, ok)
    ensures s' == RunAll(s0, steps + [Handle(w, ok)])
  {
    hide AfterHandle;
    Extend(s0, steps, s, Handle(w, ok), s');
  }

  lemma ExtendComplete(s0: Sys, steps: seq<Step>, s: Sys, w: int, m: Message, fault: Fault, s': Sys)
    requires s == RunAll(s0, steps) && PhaseOf(s, w).Handled? && PhaseOf(s, w).msg == m
    requires (IdOf(m.body) == "" ==> fault == Fine) && s' == AfterComplete(s, w, m, fault)
    ensures s' == RunAll(s0, steps + [Complete(w, fault)])
  {
    hide AfterComplete;
    Extend(s0, steps, s, Complete(w, fault), s');
  }

  lemma ExtendRelease(s0: Sys, steps: seq<Step>, s: Sys, w: int, m: Message, fault: Fault, s': Sys)
    requires s == RunAll(s0, steps) && PhaseOf(s, w).Failed? && PhaseOf(s, w).msg == m
    requires (IdOf(m.body) == "" ==> fault == Fine) && s' == AfterRelease(s, w, m, fault)
    ensures s' == RunAll(s0, steps + [Release(w, fault)])
  {
    hide AfterRelease;
    Extend(s0, steps, s, Release(w, fault), s');
  }

  lemma ExtendRepublish(s0: Sys, steps: seq<Step>, s: Sys, w: int, m: Message, reason: string, fault: Fault, s': Sys)
    requires s == RunAll(s0, steps)
    requires PhaseOf(s, w) == Released(m) || (PhaseOf(s, w) == Taken(m) && m.body.Malformed?)
    requires s' == AfterRepublish(s, w, m, reason, fault)
    ensures s' == RunAll(s0, steps + [Republish(w, reason, fault)])
  {
    hide AfterRepublish;
    Extend(s0, steps, s, Republish(w, reason, fault), s');
  }

  lemma ExtendAck(s0: Sys, steps: seq<Step>, s: Sys, w: int, m: Message, s': Sys)
    requires s == RunAll(s0, steps) && PhaseOf(s, w) == Settled(m) && s' == Put(s, w, Idle)
    ensures s' == RunAll(s0, steps + [Ack(w)])
  {
    Extend(s0, steps, s, Ack(w), s');
  }

  lemma ExtendNack(s0: Sys, steps: seq<Step>, s: Sys, w: int, m: Message, s': Sys)
    requires s == RunAll(s0, steps) && PhaseOf(s, w) == Returning(m)
    requires s' == Put(s.(ready := s.ready + multiset{m}), w, Idle)
    ensures s' == RunAll(s0, steps + [Nack(w)])
  {
    Extend(s0, steps, s, Nack(w), s');
  }

  lemma ExtendTick(s0: Sys, steps: seq<Step>, s: Sys, d: nat, s': Sys)
    requires s == RunAll(s0, steps) && s' == s.(now := s.now + d)
    ensures s' == RunAll(s0, steps + [Tick(d)])
  {
    Extend(s0, steps, s, Tick(d), s');
  }

  lemma NoSteps(s: Sys)
    ensures RunAll(s, []) == s
  {
  }

  lemma {:induction false} RunAllConcat(s: Sys, a: seq<Step>, b: seq<Step>)
    ensures RunAll(s, a + b) == RunAll(RunAll(s, a), b)
  {
    if b == [] {
      assert a + b == a;
    } else {
      RunAllConcat(s, a, b[..|b| - 1]);
      assert (a + b)[..|a + b| - 1] == a + b[..|b| - 1];
    }
  }

  /** The delivery is over: the copy is gone, or back as a lighter retry. */
  predicate Advances(limit: int, msg: Message, queue: seq<Message>, queue': seq<Message>) {
    || queue' == queue
    || (msg.body.Valid? && RetryCount(msg) < limit && queue' == queue + [RetryCopy(msg)])
  }

  /** The delivery met a live claim: the copy is back and a second has passed. */
  predicate Stalls(s: Sys, msg: Message, queue: seq<Message>, queue': seq<Message>, s': Sys) {
    && queue' == [msg] + queue && s'.now == s.now + 1000 && s'.marks == s.marks
    && IdOf(msg.body) in s.marks && s.marks[IdOf(msg.body)].Processing? && Live(s, IdOf(msg.body))
  }

  /** With one worker, a phase change replaces the whole table. */
  lemma Relabel(me: int, before: Phase, after: Phase)
    ensures map[me := before][me := after] == map[me := after]
  {
  }

  lemma ReceiptIsAStep(s0: Sys, steps: seq<Step>, s: Sys, w: int, m: Message, s': Sys)
    requires s == RunAll(s0, steps) && w in s.workers && s.workers[w] == Idle && m in s.ready
    requires s' == Put(s.(ready := s.ready - multiset{m}), w, Taken(m))
    ensures s' == RunAll(s0, steps + [Deliver(w, m)])
  {
    Extend(s0, steps, s, Deliver(w, m), s');
  }

  ghost function LatestClaim(marks: map<string, Mark>): (h: int)
    ensures ClaimsLapseBy(marks, h)
  {
    if marks == map[] then 0 else
      var id :| id in marks;
      var h := LatestClaim(marks - {id});
      assert forall k | k in marks && k != id :: k in marks - {id} && (marks - {id})[k] == marks[k];
      if h < marks[id].until then marks[id].until else h
  }

  lemma StepKeepsTime(s: Sys, step: Step)
    ensures Do(s, step).now >= s.now
  {
    hide RetryCount, RetryCopy, DeadCopy, FirstCopy, FreshId;
  }

  lemma StepBoundsClaims(s: Sys, step: Step, horizon: int)
    requires ClaimsLapseBy(s.marks, horizon) && s.now + PROCESSING_TTL <= horizon
    ensures ClaimsLapseBy(Do(s, step).marks, horizon)
  {
    hide RetryCount, RetryCopy, DeadCopy, FirstCopy, FreshId;
  }

  lemma {:induction false} ClaimsStayBounded(s: Sys, steps: seq<Step>, horizon: int)
    requires ClaimsLapseBy(s.marks, horizon) && RunAll(s, steps).now + PROCESSING_TTL <= horizon
    ensures ClaimsLapseBy(RunAll(s, steps).marks, horizon)
  {
    if steps != [] {
      var before := steps[..|steps| - 1];
      var mid := RunAll(s, before);
      StepKeepsTime(mid, steps[|steps| - 1]);
      hide Do, ClaimsLapseBy;
      ClaimsStayBounded(s, before, horizon);
      StepBoundsClaims(mid, steps[|steps| - 1], horizon);
    }
  }

  lemma StallShortensClaims(s: Sys, m: Message, queue: seq<Message>, queue': seq<Message>, s': Sys, horizon: int)
    requires Stalls(s, m, queue, queue', s') && ClaimsLapseBy(s.marks, horizon)
    ensures ClaimsLapseBy(s'.marks, horizon) && s.now < horizon && s'.now > s.now
  {
  }

  lemma AdvanceShedsWork(limit: int, m: Message, rest: seq<Message>, queue: seq<Message>)
    requires 1 <= limit < INT32_LIMIT && Advances(limit, m, rest, queue)
    ensures Work(limit, queue) < Work(limit, [m] + rest)
  {
    WorkSplits(limit, m, rest);
    if queue != rest {
      WorkSplits(limit, RetryCopy(m), rest);
      RetryIsLighter(limit, m);
    }
  }

  ghost predicate ClaimsLapseBy(marks: map<string, Mark>, horizon: int) {
    forall id | id in marks && marks[id].Processing? :: marks[id].until <= horizon
  }

  // ----- what one delivery does to queue, dead letters, markers and outcomes -----

  datatype Books = Books(queue: seq<Message>, dead: seq<Message>, marks: map<string, Mark>,
                         successes: multiset<Body>, failures: multiset<Body>)

  /** The job ran and succeeded: its marker is set to done for a day, and the copy is
      acknowledged, or returned if that write reported an error. */
  ghost predicate Succeeded(b: Books, msg: Message, world: Script, now: int, acked: bool, b': Books) {
    var id := IdOf(msg.body);
    && acked == (id == "" || world.complete == Fine)
    && b' == Books(if acked then b.queue else [msg] + b.queue, b.dead,
                   if id != "" && world.complete.Applied() then b.marks[id := Done(now + 86_400_000)] else b.marks,
                   b.successes + multiset{msg.body}, b.failures)
  }

  /** Giving up on an attempt: the marker is dropped, then a copy is queued again below the
      limit or dead-lettered at it, and the delivery is acknowledged, or returned if one of
      these calls reported an error. */
  ghost predicate GaveUp(limit: int, b: Books, msg: Message, world: Script, acked: bool, b': Books) {
    var id := IdOf(msg.body);
    var released, retries := id == "" || world.release == Fine, RetryCount(msg) < limit;
    var published := released && world.publish.Applied();
    && acked == (released && world.publish == Fine)
    && b' == Books((if acked then [] else [msg]) + b.queue
                   + (if published && retries then [RetryCopy(msg)] else []),
                   b.dead + (if published && !retries then [DeadCopy(msg, world.cause)] else []),
                   if id != "" && world.release.Applied() then b.marks - {id} else b.marks,
                   b.successes, b.failures)
  }

  /** The job ran and failed. */
  ghost predicate FailedAgain(limit: int, b: Books, msg: Message, world: Script, acked: bool, b': Books) {
    GaveUp(limit, b.(failures := b.failures + multiset{msg.body}), msg, world, acked, b')
  }

  lemma UnreleasedGivesUp(limit: int, b: Books, msg: Message, world: Script, b': Books)
    requires IdOf(msg.body) != "" && world.release.Lost?
    requires b' == b.(queue := [msg] + b.queue,
                      marks := if world.release.Applied() then b.marks - {IdOf(msg.body)} else b.marks)
    ensures GaveUp(limit, b, msg, world, false, b')
  {
    hide RetryCopy, DeadCopy, RetryCount, IdOf;
    assert [msg] + b.queue + [] == [msg] + b.queue;
    assert b.dead + [] == b.dead;
  }

  lemma PublishedGivesUp(limit: int, b: Books, msg: Message, world: Script, b1: Books, b': Books)
    requires IdOf(msg.body) == "" || world.release == Fine
    requires b1 == b.(marks := if IdOf(msg.body) != "" && world.release.Applied() then b.marks - {IdOf(msg.body)}
                               else b.marks,
                      queue := b1.queue, dead := b1.dead)
    requires var retries, published := RetryCount(msg) < limit, world.publish.Applied();
      && b1.queue == b.queue + (if published && retries then [RetryCopy(msg)] else [])
      && b1.dead == b.dead + (if published && !retries then [DeadCopy(msg, world.cause)] else [])
    requires b' == if world.publish == Fine then b1 else b1.(queue := [msg] + b1.queue)
    ensures GaveUp(limit, b, msg, world, world.publish == Fine, b')
  {
    hide RetryCopy, DeadCopy, RetryCount, IdOf;
    var copies := if RetryCount(msg) < limit && world.publish.Applied() then [RetryCopy(msg)] else [];
    assert [msg] + (b.queue + copies) == [msg] + b.queue + copies;
    assert [] + b.queue + copies == b.queue + copies;
  }

  /** Without faults, giving up sheds work. */
  lemma GivingUpAdvances(limit: int, b: Books, msg: Message, world: Script, acked: bool, b': Books)
    requires GaveUp(limit, b, msg, world, acked, b') && world.Faultless() && msg.body.Valid?
    ensures Advances(limit, msg, b.queue, b'.queue)
  {
    hide RetryCopy, DeadCopy, RetryCount;
    assert [] + b.queue == b.queue;
    assert b.queue + [] == b.queue;
  }

  lemma CompletedIsSucceeded(b: Books, msg: Message, world: Script, now: int, acked: bool, b': Books)
    requires acked == (IdOf(msg.body) == "" || world.complete == Fine)
    requires b' == Books(if acked then b.queue else [msg] + b.queue, b.dead, b'.marks,
                         b.successes + multiset{msg.body}, b.failures)
    requires b'.marks == if IdOf(msg.body) != "" && world.complete.Applied()
                         then b.marks[IdOf(msg.body) := Done(now + DONE_TTL)] else b.marks
    ensures Succeeded(b, msg, world, now, acked, b')
  {
  }

  /** The job did not run: nothing is recorded of it. */
  ghost predicate NotRun(b: Books, msg: Message, acked: bool, b': Books) {
    b' == b.(queue := if acked then b.queue else [msg] + b.queue, marks := b'.marks, dead := b'.dead)
  }

  /** One delivery at a given time, whatever the world does. */
  ghost predicate Delivered(limit: int, b: Books, msg: Message, world: Script, now: int, acked: bool, b': Books) {
    var id := IdOf(msg.body);
    if msg.body.Malformed? then
      && acked == (world.publish == Fine) && NotRun(b, msg, acked, b') && b'.marks == b.marks
      && b'.dead == b.dead + (if world.publish.Applied() then [DeadCopy(msg, world.cause)] else [])
    else if id != "" && world.begin.Lost? then
      && !acked && NotRun(b, msg, acked, b') && b'.dead == b.dead
      && b'.marks == if world.begin.applied && !(id in b.marks && now < b.marks[id].until)
                     then b.marks[id := Processing(now + 600_000)] else b.marks
    else if id != "" && id in b.marks && now < b.marks[id].until then
      acked == b.marks[id].Done? && NotRun(b, msg, acked, b') && b'.dead == b.dead && b'.marks == b.marks
    else
      var claimed := if id == "" then b.marks else b.marks[id := Processing(now + 600_000)];
      if world.ok then Succeeded(b.(marks := claimed), msg, world, now + world.elapsed, acked, b')
      else FailedAgain(limit, b.(marks := claimed), msg, world, acked, b')
  }

  /** Successes among the deliveries before number n. */
  ghost function Oks(world: nat -> Script, n: nat): nat {
    if n == 0 then 0 else Oks(world, n - 1) + if world(n - 1).ok then 1 else 0
  }

  lemma {:induction false} OksComeFromOk(world: nat -> Script, n: nat)
    ensures Oks(world, n) <= n
    ensures Oks(world, n) > 0 ==> exists k: nat | k < n :: world(k).ok
  {
    if n > 0 {
      OksComeFromOk(world, n - 1);
    }
  }

  /** A delivery records at most one outcome, the one Handle had. */
  lemma DeliveredRecords(limit: int, b: Books, msg: Message, world: Script, now: int, acked: bool, b': Books)
    requires Delivered(limit, b, msg, world, now, acked, b')
    ensures b.successes <= b'.successes && |b'.successes| <= |b.successes| + if world.ok then 1 else 0
    ensures b.failures <= b'.failures && |b'.failures| <= |b.failures| + if world.ok then 0 else 1
  {
    hide RetryCopy, DeadCopy, RetryCount;
  }

  /** What was enqueued, read as bags of messages. */
  lemma EnqueuedIsRepublished(s: Sys, w: int, m: Message, reason: string, fault: Fault, queue: seq<Message>,
                              dead: seq<Message>, queue': seq<Message>, dead': seq<Message>, phase: Phase, s': Sys)
    requires s.ready == multiset(queue) && s.dead == multiset(dead) && s.workers.Keys == {w}
    requires queue' == queue + (if Retries(s, m) && fault.Applied() then [RetryCopy(m)] else [])
    requires dead' == dead + (if !Retries(s, m) && fault.Applied() then [DeadCopy(m, reason)] else [])
    requires phase == if fault == Fine then Settled(m) else Returning(m)
    requires s' == Sys(s.limit, multiset(queue'), multiset(dead'), map[w := phase], s.marks, s.now, s.log)
    ensures s' == AfterRepublish(s, w, m, reason, fault)
  {
    hide RetryCopy, DeadCopy, Retries;
    assert s.workers[w := phase] == map[w := phase];
    if !fault.Applied() {
      assert queue' == queue && dead' == dead;
    } else if Retries(s, m) {
      assert dead' == dead && multiset(queue') == multiset(queue) + multiset{RetryCopy(m)};
    } else {
      assert queue' == queue && multiset(dead') == multiset(dead) + multiset{DeadCopy(m, reason)};
    }
  }

  // ----- the branches of a delivery -----

  lemma BuriedIsDelivered(limit: int, b: Books, msg: Message, world: Script, now: int, acked: bool, b': Books)
    requires msg.body.Malformed? && acked == (world.publish == Fine)
    requires b' == b.(queue := if acked then b.queue else [msg] + b.queue,
                      dead := b.dead + (if world.publish.Applied() then [DeadCopy(msg, world.cause)] else []))
    ensures Delivered(limit, b, msg, world, now, acked, b')
  {
    hide RetryCopy, DeadCopy, Succeeded, FailedAgain;
  }

  lemma UnclaimedIsDelivered(limit: int, b: Books, msg: Message, world: Script, now: int, b': Books)
    requires msg.body.Valid? && IdOf(msg.body) != "" && world.begin.Lost?
    requires b' == b.(queue := [msg] + b.queue, marks := b'.marks)
    requires b'.marks == if world.begin.Applied() && !(IdOf(msg.body) in b.marks && now < b.marks[IdOf(msg.body)].until)
                         then b.marks[IdOf(msg.body) := Processing(now + PROCESSING_TTL)] else b.marks
    ensures Delivered(limit, b, msg, world, now, false, b')
  {
    hide Succeeded, FailedAgain;
  }

  lemma HeldIsDelivered(limit: int, b: Books, msg: Message, world: Script, now: int, acked: bool, b': Books)
    requires msg.body.Valid? && IdOf(msg.body) != "" && world.begin == Fine
    requires IdOf(msg.body) in b.marks && now < b.marks[IdOf(msg.body)].until && acked == b.marks[IdOf(msg.body)].Done?
    requires b' == b.(queue := if acked then b.queue else [msg] + b.queue)
    ensures Delivered(limit, b, msg, world, now, acked, b')
  {
    hide Succeeded, FailedAgain;
  }

  lemma RunIsDelivered(limit: int, b: Books, msg: Message, world: Script, now: int, acked: bool, b1: Books, b': Books)
    requires msg.body.Valid? && (IdOf(msg.body) == "" || world.begin == Fine)
    requires IdOf(msg.body) == "" || !(IdOf(msg.body) in b.marks && now < b.marks[IdOf(msg.body)].until)
    requires b1 == b.(marks := if IdOf(msg.body) == "" then b.marks
                               else b.marks[IdOf(msg.body) := Processing(now + PROCESSING_TTL)])
    requires if world.ok then Succeeded(b1, msg, world, now + world.elapsed, acked, b')
             else FailedAgain(limit, b1, msg, world, acked, b')
    ensures Delivered(limit, b, msg, world, now, acked, b')
  {
    hide Succeeded, FailedAgain;
  }

  /** Without faults, a success ends the copy. */
  lemma SuccessAdvances(limit: int, b: Books, msg: Message, world: Script, now: int, acked: bool, b': Books)
    requires Succeeded(b, msg, world, now, acked, b') && world.Faultless()
    ensures Advances(limit, msg, b.queue, b'.queue)
  {
    hide RetryCopy, RetryCount;
  }

  class Runner {
    const me: int
    const maxRetries: int
    var queue: seq<Message>
    var deadQueue: seq<Message>
    var marks: map<string, Mark>
    var now: int
    ghost var log: Log
    var phase: Phase // where in a delivery the worker is

    constructor (me: int, maxRetries: int, queue: seq<Message>, marks: map<string, Mark>, now: int, ghost log: Log)
      ensures this.me == me && this.maxRetries == maxRetries
      ensures this.queue == queue && deadQueue == [] && this.marks == marks && this.now == now
      ensures this.log == log && phase == Idle
    {
      this.me, this.maxRetries := me, maxRetries;
      this.queue, deadQueue, this.marks, this.now := queue, [], marks, now;
      this.log, phase := log, Idle;
    }

    function EffectiveMaxRetries(): (limit: int)
      ensures limit >= 1 && (maxRetries >= 1 ==> limit == maxRetries) && (maxRetries < 1 ==> limit == 3)
    {
      if maxRetries < 1 then DEFAULT_MAX_RETRY_COUNT else maxRetries
    }

    ghost function State(): Sys
      reads this
    {
      Sys(EffectiveMaxRetries(), multiset(queue), multiset(deadQueue), map[me := phase], marks, now, log)
    }

    ghost function BooksNow(): Books
      reads this
    {
      Books(queue, deadQueue, marks, log.successes, log.failures)
    }

    // ----- the calls a delivery is made of, each one protocol step -----

    method Receive() returns (msg: Message)
      requires queue != [] && phase.Idle?
      modifies this`queue, this`phase
      ensures msg == old(queue)[0] && queue == old(queue)[1..] && phase == Taken(msg)
      ensures State() == Put(old(State()).(ready := old(State()).ready - multiset{msg}), me, Taken(msg))
    {
      msg := queue[0];
      assert queue == [msg] + queue[1..];
      assert multiset(queue[1..]) == multiset(queue) - multiset{msg};
      queue := queue[1..];
      phase := Taken(msg);
      Relabel(me, Idle, phase);
    }

    /** The claim script, atomic in the store: 2 for done, 1 for held, 0 for claimed. */
    method RunBeginScript(id: string) returns (code: int)
      requires id != ""
      modifies this`marks, this`log
      ensures State() == Claim(old(State()), id)
      ensures log.successes == old(log.successes) && log.failures == old(log.failures)
      ensures marks == if code == 0 then old(marks)[id := Processing(now + PROCESSING_TTL)] else old(marks)
      ensures code != 0 ==> State() == old(State())
      ensures code == if !Live(old(State()), id) then 0 else if old(marks)[id].Done? then 2 else 1
    {
      if id in marks && now < marks[id].until {
        return if marks[id].Done? then 2 else 1;
      }
      if id in marks && marks[id].Done? {
        log := Lapsed(log, id);
      }
      marks := marks[id := Processing(now + PROCESSING_TTL)];
      code := 0;
    }

    method BeginClaim(msg: Message, fault: Fault) returns (result: BeginResult)
      requires phase == Taken(msg) && msg.body.Valid?
      modifies this`marks, this`phase, this`log
      ensures State() == AfterBegin(old(State()), me, msg, if IdOf(msg.body) == "" then Fine else fault)
      ensures phase.Claimed? || phase == Backoff(msg) || phase == Settled(msg) || phase == Returning(msg)
      ensures phase.Claimed? ==> phase.msg == msg
      ensures result == match phase case Claimed(_, _) => BeginAcquired case Backoff(_) => BeginBusy
                        case Settled(_) => BeginDone case _ => BeginError
      ensures result == BeginError <==> IdOf(msg.body) != "" && fault.Lost?
      ensures log.successes == old(log.successes) && log.failures == old(log.failures)
      ensures var id := IdOf(msg.body); var live := id in old(marks) && now < old(marks)[id].until;
        match result
        case BeginAcquired =>
          marks == if id == "" then old(marks) else old(marks)[id := Processing(now + PROCESSING_TTL)]
        case BeginBusy => live && old(marks)[id].Processing? && marks == old(marks)
        case BeginDone => live && old(marks)[id].Done? && marks == old(marks)
        case BeginError =>
          marks == if fault.Applied() && !live then old(marks)[id := Processing(now + PROCESSING_TTL)] else old(marks)
      ensures result.BeginAcquired? ==>
                IdOf(msg.body) == "" || !(IdOf(msg.body) in old(marks) && now < old(marks)[IdOf(msg.body)].until)
      ensures IdOf(msg.body) == "" ==> result.BeginAcquired?
    {
      hide RetryCount, Claim;
      var id := IdOf(msg.body);
      if id == "" {
        NothingToClaim(State());
        phase := Claimed(msg, now);
        Relabel(me, Taken(msg), phase);
        return BeginAcquired;
      }
      if fault == Lost(false) {
        phase := Returning(msg);
        Relabel(me, Taken(msg), phase);
        return BeginError;
      }
      var code := RunBeginScript(id);
      if fault.Lost? {
        phase, result := Returning(msg), BeginError;
      } else if code == 2 {
        phase, result := Settled(msg), BeginDone;
      } else if code == 1 {
        phase, result := Backoff(msg), BeginBusy;
      } else {
        phase, result := Claimed(msg, now + PROCESSING_TTL), BeginAcquired;
      }
      Relabel(me, Taken(msg), phase);
    }

    method Pass(d: nat)
      modifies this`now
      ensures now == old(now) + d && State() == old(State()).(now := now)
    {
      now := now + d;
    }

    method RunHandler(ok: bool)
      requires phase.Claimed?
      modifies this`phase, this`log
      ensures State() == AfterHandle(old(State()), me, old(phase).msg, old(phase).until, ok)
      ensures phase == if ok then Handled(old(phase).msg, old(phase).until)
                       else Failed(old(phase).msg, old(phase).until)
      ensures log.successes == old(log.successes) + if ok then multiset{old(phase).msg.body} else multiset{}
      ensures log.failures == old(log.failures) + if ok then multiset{} else multiset{old(phase).msg.body}
    {
      var m := phase.msg;
      if ok {
        log := log.(successes := log.successes + multiset{m.body});
        phase := Handled(m, phase.until);
      } else {
        log := log.(failures := log.failures + multiset{m.body});
        phase := Failed(m, phase.until);
      }
    }

    method CompleteClaim(msg: Message, fault: Fault) returns (ok: bool)
      requires phase.Handled? && phase.msg == msg
      modifies this`marks, this`phase, this`log
      ensures PhaseOf(old(State()), me) == old(phase)
      ensures State() == AfterComplete(old(State()), me, msg, if IdOf(msg.body) == "" then Fine else fault)
      ensures phase == if ok then Settled(msg) else Returning(msg)
      ensures ok <==> IdOf(msg.body) == "" || fault == Fine
      ensures var id := IdOf(msg.body);
        marks == if id != "" && fault.Applied() then old(marks)[id := Done(now + DONE_TTL)] else old(marks)
      ensures log.successes == old(log.successes) && log.failures == old(log.failures)
    {
      var id := IdOf(msg.body);
      if id != "" && fault.Applied() {
        marks := marks[id := Done(now + DONE_TTL)];
      }
      ok := id == "" || fault == Fine;
      if !ok {
        log := Lapsed(log, id);
      }
      Relabel(me, phase, if ok then Settled(msg) else Returning(msg));
      phase := if ok then Settled(msg) else Returning(msg);
    }

    method ReleaseClaim(msg: Message, fault: Fault) returns (ok: bool)
      requires phase.Failed? && phase.msg == msg
      modifies this`marks, this`phase
      ensures State() == AfterRelease(old(State()), me, msg, if IdOf(msg.body) == "" then Fine else fault)
      ensures phase == if ok then Released(msg) else Returning(msg)
      ensures ok <==> IdOf(msg.body) == "" || fault == Fine
      ensures marks == if IdOf(msg.body) != "" && fault.Applied() then old(marks) - {IdOf(msg.body)} else old(marks)
    {
      var id := IdOf(msg.body);
      if id != "" && fault.Applied() {
        marks := marks - {id};
      }
      ok := id == "" || fault == Fine;
      Relabel(me, phase, if ok then Released(msg) else Returning(msg));
      phase := if ok then Released(msg) else Returning(msg);
    }

    /** Copies the header table entry by entry, so that the original is never shared. */
    method CloneHeaders(headers: map<string, HeaderValue>) returns (cloned: map<string, HeaderValue>)
      ensures cloned == headers
    {
      cloned := map[];
      var rest := headers.Keys;
      while rest != {}
        invariant rest <= headers.Keys
        invariant cloned.Keys == headers.Keys - rest
        invariant forall k | k in cloned :: cloned[k] == headers[k]
        decreases rest
      {
        var key :| key in rest;
        cloned := cloned[key := headers[key]];
        rest := rest - {key};
      }
    }

    /** Publish a retry below the limit, else (or for a malformed body) a dead letter. */
    method PublishConfirmed(msg: Message, reason: string, fault: Fault) returns (ok: bool)
      requires phase == Released(msg) || (phase == Taken(msg) && msg.body.Malformed?)
      modifies this`queue, this`deadQueue, this`phase
      ensures State() == AfterRepublish(old(State()), me, msg, reason, fault)
      ensures phase == if ok then Settled(msg) else Returning(msg)
      ensures ok <==> fault == Fine
      ensures var retries := msg.body.Valid? && RetryCount(msg) < EffectiveMaxRetries();
        && queue == old(queue) + (if retries && fault.Applied() then [RetryCopy(msg)] else [])
        && deadQueue == old(deadQueue) + (if !retries && fault.Applied() then [DeadCopy(msg, reason)] else [])
    {
      hide RetryCopy, DeadCopy, RetryCount, EffectiveMaxRetries, AfterRepublish;
      ghost var s := State();
      var retries := msg.body.Valid? && RetryCount(msg) < EffectiveMaxRetries();
      if retries {
        EnqueueRetry(msg, fault);
      } else {
        EnqueueDead(msg, reason, fault);
      }
      ok := fault == Fine;
      phase := if ok then Settled(msg) else Returning(msg);
      EnqueuedIsRepublished(s, me, msg, reason, fault, old(queue), old(deadQueue), queue, deadQueue, phase, State());
    }

    method EnqueueRetry(msg: Message, fault: Fault)
      modifies this`queue
      ensures queue == old(queue) + (if fault.Applied() then [RetryCopy(msg)] else [])
    {
      hide RetryCopy;
      var copy := RetryMessage(msg);
      if fault.Applied() {
        queue := queue + [copy];
      }
    }

    method EnqueueDead(msg: Message, reason: string, fault: Fault)
      modifies this`deadQueue
      ensures deadQueue == old(deadQueue) + (if fault.Applied() then [DeadCopy(msg, reason)] else [])
    {
      hide DeadCopy;
      var copy := DeadLetterMessage(msg, reason);
      if fault.Applied() {
        deadQueue := deadQueue + [copy];
      }
    }

    method RetryMessage(msg: Message) returns (copy: Message)
      ensures copy == RetryCopy(msg)
    {
      var headers := CloneHeaders(msg.headers);
      headers := headers[RETRY_COUNT_HEADER := Number(ToInt32(RetryCount(msg) + 1))];
      copy := Message(msg.body, ContentTypeOrDefault(msg.contentType), headers);
    }

    method DeadLetterMessage(msg: Message, reason: string) returns (copy: Message)
      ensures copy == DeadCopy(msg, reason)
    {
      var headers := CloneHeaders(msg.headers);
      headers := headers[RETRY_COUNT_HEADER := Number(ToInt32(RetryCount(msg)))];
      headers := headers[FAILURE_REASON_HEADER := Text(reason)];
      copy := Message(msg.body, ContentTypeOrDefault(msg.contentType), headers);
    }

    method Acknowledge()
      requires phase.Settled?
      modifies this`phase
      ensures phase == Idle && State() == Put(old(State()), me, Idle)
    {
      phase := Idle;
    }

    /** Nack with requeue: the copy goes back to the head of the queue. */
    method Requeue()
      requires phase.Returning?
      modifies this`queue, this`phase
      ensures phase == Idle && queue == [old(phase).msg] + old(queue)
      ensures State() == Put(old(State()).(ready := old(State()).ready + multiset{old(phase).msg}), me, Idle)
    {
      queue := [phase.msg] + queue;
      phase := Idle;
    }

    method SleepOneSecond()
      requires phase.Backoff?
      modifies this`now, this`phase
      ensures now == old(now) + 1000 && phase == Returning(old(phase).msg)
      ensures State() == Put(old(State()).(now := now), me, phase)
    {
      now := now + 1000;
      phase := Returning(phase.msg);
    }

    /** Ack or Nack, whichever the delivery has decided. */
    method Settle(ghost s0: Sys, ghost before: seq<Step>) returns (acked: bool, ghost steps: seq<Step>)
      requires (phase.Settled? || phase.Returning?) && State() == RunAll(s0, before)
      modifies this`queue, this`phase
      ensures phase == Idle && State() == RunAll(s0, steps)
      ensures acked == old(phase).Settled?
      ensures queue == if acked then old(queue) else [old(phase).msg] + old(queue)
    {
      hide Enabled, After, Do, RunAll, RetryCount;
      ghost var s, msg := State(), phase.msg;
      acked := phase.Settled?;
      if acked {
        Acknowledge();
        ExtendAck(s0, before, s, me, msg, State());
        steps := before + [Ack(me)];
      } else {
        Requeue();
        ExtendNack(s0, before, s, me, msg, State());
        steps := before + [Nack(me)];
      }
    }

    method HandleProcessingFailure(msg: Message, world: Script, ghost s0: Sys, ghost before: seq<Step>)
      returns (acked: bool, ghost steps: seq<Step>)
      requires phase.Failed? && phase.msg == msg && msg.body.Valid? && State() == RunAll(s0, before)
      modifies this`queue, this`deadQueue, this`marks, this`phase
      ensures phase == Idle && State() == RunAll(s0, steps)
      ensures GaveUp(EffectiveMaxRetries(), old(BooksNow()), msg, world, acked, BooksNow())
    {
      hide Enabled, After, Do, RunAll, RetryCount, RetryCopy, DeadCopy, AfterRelease, GaveUp;
      ghost var b, s := BooksNow(), State();
      var released := ReleaseClaim(msg, world.release);
      ghost var release := Release(me, if IdOf(msg.body) == "" then Fine else world.release);
      ExtendRelease(s0, before, s, me, msg, release.fault, State());
      steps := before + [release];
      if !released {
        acked, steps := Settle(s0, steps);
        UnreleasedGivesUp(EffectiveMaxRetries(), b, msg, world, BooksNow());
        return;
      }
      ghost var b1;
      acked, b1, steps := RetryOrBury(msg, world, s0, steps);
      PublishedGivesUp(EffectiveMaxRetries(), b, msg, world, b1, BooksNow());
    }

    /** The claim is released: publish the copy that is due, then acknowledge or return. */
    method RetryOrBury(msg: Message, world: Script, ghost s0: Sys, ghost before: seq<Step>)
      returns (acked: bool, ghost published: Books, ghost steps: seq<Step>)
      requires phase == Released(msg) && msg.body.Valid? && State() == RunAll(s0, before)
      modifies this`queue, this`deadQueue, this`phase
      ensures phase == Idle && State() == RunAll(s0, steps) && acked == (world.publish == Fine)
      ensures var retries, copied := RetryCount(msg) < EffectiveMaxRetries(), world.publish.Applied();
        && published == old(BooksNow()).(
             queue := old(queue) + (if retries && copied then [RetryCopy(msg)] else []),
             dead := old(deadQueue) + (if !retries && copied then [DeadCopy(msg, world.cause)] else []))
        && BooksNow() == if acked then published else published.(queue := [msg] + published.queue)
    {
      hide Enabled, After, Do, RunAll, RetryCount, RetryCopy, DeadCopy, AfterRepublish;
      ghost var s := State();
      var ok := PublishConfirmed(msg, world.cause, world.publish);
      ExtendRepublish(s0, before, s, me, msg, world.cause, world.publish, State());
      published := BooksNow();
      acked, steps := Settle(s0, before + [Republish(me, world.cause, world.publish)]);
    }

    /** Let time pass inside Handle, then record how it ended. */
    method Execute(msg: Message, world: Script, ghost s0: Sys, ghost before: seq<Step>) returns (ghost steps: seq<Step>)
      requires phase.Claimed? && phase.msg == msg && State() == RunAll(s0, before)
      modifies this`now, this`phase, this`log
      ensures State() == RunAll(s0, steps) && now >= old(now)
      ensures now == old(now) + world.elapsed
      ensures if world.ok then phase.Handled? && phase.msg == msg else phase.Failed? && phase.msg == msg
      ensures BooksNow() == if world.ok then old(BooksNow()).(successes := old(log.successes) + multiset{msg.body})
                            else old(BooksNow()).(failures := old(log.failures) + multiset{msg.body})
    {
      hide Enabled, After, Do, RunAll, RetryCount, AfterHandle;
      ghost var s := State();
      Pass(world.elapsed);
      ExtendTick(s0, before, s, world.elapsed, State());
      s := State();
      RunHandler(world.ok);
      ExtendHandle(s0, before + [Tick(world.elapsed)], s, me, msg, phase.until, world.ok, State());
      steps := before + [Tick(world.elapsed)] + [Handle(me, world.ok)];
    }

    method Process(msg: Message, world: Script, ghost s0: Sys, ghost before: seq<Step>)
      returns (acked: bool, ghost steps: seq<Step>)
      requires phase.Claimed? && phase.msg == msg && msg.body.Valid? && State() == RunAll(s0, before)
      modifies this
      ensures phase == Idle && State() == RunAll(s0, steps) && now == old(now) + world.elapsed
      ensures world.Faultless() ==> Advances(EffectiveMaxRetries(), msg, old(BooksNow()).queue, BooksNow().queue)
      ensures if world.ok then Succeeded(old(BooksNow()), msg, world, now, acked, BooksNow())
              else FailedAgain(EffectiveMaxRetries(), old(BooksNow()), msg, world, acked, BooksNow())
    {
      hide Enabled, After, Do, RunAll, RetryCount, RetryCopy, DeadCopy, GaveUp, Succeeded, Advances, State, IdOf;
      ghost var b := BooksNow();
      steps := Execute(msg, world, s0, before);
      ghost var b1 := BooksNow();
      if !world.ok {
        acked, steps := HandleProcessingFailure(msg, world, s0, steps);
        if world.Faultless() {
          GivingUpAdvances(EffectiveMaxRetries(), b1, msg, world, acked, BooksNow());
        }
        return;
      }
      acked, steps := Finish(msg, world, s0, steps);
      CompletedIsSucceeded(b, msg, world, now, acked, BooksNow());
      if world.Faultless() {
        SuccessAdvances(EffectiveMaxRetries(), b, msg, world, now, acked, BooksNow());
      }
    }

    /** Set the marker to done, then acknowledge or return. */
    method Finish(msg: Message, world: Script, ghost s0: Sys, ghost before: seq<Step>)
      returns (acked: bool, ghost steps: seq<Step>)
      requires phase.Handled? && phase.msg == msg && msg.body.Valid? && State() == RunAll(s0, before)
      modifies this`queue, this`marks, this`phase, this`log
      ensures phase == Idle && State() == RunAll(s0, steps)
      ensures acked == (IdOf(msg.body) == "" || world.complete == Fine)
      ensures BooksNow() == old(BooksNow()).(
                              queue := if acked then old(queue) else [msg] + old(queue),
                              marks := if IdOf(msg.body) != "" && world.complete.Applied()
                                       then old(marks)[IdOf(msg.body) := Done(now + DONE_TTL)] else old(marks))
    {
      hide Enabled, After, Do, RunAll, RetryCount, AfterComplete, State;
      ghost var s := State();
      var completed := CompleteClaim(msg, world.complete);
      ghost var complete := Complete(me, if IdOf(msg.body) == "" then Fine else world.complete);
      ExtendComplete(s0, before, s, me, msg, complete.fault, State());
      acked, steps := Settle(s0, before + [complete]);
    }

    method BuryInvalid(msg: Message, cause: string, fault: Fault) returns (acked: bool, ghost steps: seq<Step>)
      requires phase == Taken(msg) && msg.body.Malformed?
      modifies this`queue, this`deadQueue, this`phase
      ensures phase == Idle && State() == RunAll(old(State()), steps)
      ensures acked == (fault == Fine) && queue == if acked then old(queue) else [msg] + old(queue)
      ensures deadQueue == old(deadQueue) + (if fault.Applied() then [DeadCopy(msg, cause)] else [])
    {
      hide Enabled, After, Do, RunAll, RetryCount, RetryCopy, AfterRepublish;
      ghost var s0, bury := State(), Republish(me, cause, fault);
      var buried := PublishConfirmed(msg, cause, fault);
      NoSteps(s0);
      ExtendRepublish(s0, [], s0, me, msg, cause, fault, State());
      acked, steps := Settle(s0, [] + [bury]);
    }

    /** The claim as the first step of a run. */
    method ClaimFirst(msg: Message, fault: Fault) returns (result: BeginResult, ghost steps: seq<Step>)
      requires phase == Taken(msg) && msg.body.Valid?
      modifies this`marks, this`phase, this`log
      ensures State() == RunAll(old(State()), steps)
      ensures old(State()).marks == old(marks) && old(State()).now == old(now)
      ensures log.successes == old(log.successes) && log.failures == old(log.failures)
      ensures result == BeginError <==> IdOf(msg.body) != "" && fault.Lost?
      ensures IdOf(msg.body) == "" ==> result.BeginAcquired?
      ensures var id := IdOf(msg.body); var live := id in old(marks) && now < old(marks)[id].until;
        match result
        case BeginAcquired =>
          && phase.Claimed? && phase.msg == msg && (id == "" || !live)
          && marks == if id == "" then old(marks) else old(marks)[id := Processing(now + PROCESSING_TTL)]
        case BeginBusy => phase == Backoff(msg) && live && old(marks)[id].Processing? && marks == old(marks)
        case BeginDone => phase == Settled(msg) && live && old(marks)[id].Done? && marks == old(marks)
        case BeginError =>
          && phase == Returning(msg)
          && marks == if fault.Applied() && !live then old(marks)[id := Processing(now + PROCESSING_TTL)]
                      else old(marks)
    {
      hide Enabled, After, Do, RunAll, RetryCount, AfterBegin;
      ghost var s0 := State();
      result := BeginClaim(msg, fault);
      ghost var begin := Begin(me, if IdOf(msg.body) == "" then Fine else fault);
      NoSteps(s0);
      ExtendBegin(s0, [], s0, me, msg, begin.fault, State());
      steps := [] + [begin];
    }

    /** One delivery, from receipt to acknowledgement or requeue: it is a run of the
        protocol, and without faults it either finishes the copy or waits a second for
        a claim that is still alive. */
    method HandleDelivery(msg: Message, world: Script) returns (acked: bool, ghost steps: seq<Step>)
      requires phase == Taken(msg)
      modifies this
      ensures phase == Idle && State() == RunAll(old(State()), steps) && now >= old(now)
      ensures world.Faultless() ==>
                || Advances(EffectiveMaxRetries(), msg, old(queue), queue)
                || Stalls(old(State()), msg, old(queue), queue, State())
      ensures Delivered(EffectiveMaxRetries(), old(BooksNow()), msg, world, old(now), acked, BooksNow())
    {
      hide Enabled, After, Do, RunAll, RetryCount, RetryCopy, DeadCopy, AfterBegin, Stalls, Succeeded, FailedAgain,
           Delivered, State;
      ghost var s0, b, limit := State(), BooksNow(), EffectiveMaxRetries();
      if msg.body.Malformed? {
        acked, steps := BuryInvalid(msg, world.cause, world.publish);
        BuriedIsDelivered(limit, b, msg, world, old(now), acked, BooksNow());
        return;
      }
      var result;
      result, steps := ClaimFirst(msg, world.begin);
      match result
      case BeginError =>
        acked, steps := Settle(s0, steps);
        UnclaimedIsDelivered(limit, b, msg, world, old(now), BooksNow());
      case BeginDone =>
        acked, steps := Settle(s0, steps);
        HeldIsDelivered(limit, b, msg, world, old(now), acked, BooksNow());
      case BeginBusy =>
        ghost var rest := queue;
        acked, steps := WaitOut(msg, s0, steps);
        BusyStalls(s0, msg, rest, State());
        HeldIsDelivered(limit, b, msg, world, old(now), acked, BooksNow());
      case BeginAcquired =>
        ghost var b1 := BooksNow();
        acked, steps := Process(msg, world, s0, steps);
        RunIsDelivered(limit, b, msg, world, old(now), acked, b1, BooksNow());
    }

    /** The busy branch pauses this worker, then puts the copy back. */
    method WaitOut(msg: Message, ghost s0: Sys, ghost before: seq<Step>) returns (acked: bool, ghost steps: seq<Step>)
      requires phase == Backoff(msg) && State() == RunAll(s0, before)
      modifies this`queue, this`now, this`phase
      ensures phase == Idle && State() == RunAll(s0, steps)
      ensures now == old(now) + 1000 && queue == [msg] + old(queue) && !acked && marks == old(marks)
      ensures State().now == now && State().marks == marks
    {
      hide Do, RunAll;
      ghost var s := State();
      SleepOneSecond();
      ghost var s1 := s.(now := now);
      Extend(s0, before, s, Tick(1000), s1);
      Extend(s0, before + [Tick(1000)], s1, Wait(me), State());
      acked, steps := Settle(s0, before + [Tick(1000)] + [Wait(me)]);
    }

    /** Take the next delivery and handle it.  Without faults the copy sheds work or
        waits out part of a claim that lapses by the horizon. */
    method HandleNext(world: Script, ghost horizon: int)
      returns (ghost steps: seq<Step>, ghost horizon': int, ghost stalled: bool)
      requires phase == Idle && queue != [] && maxRetries < INT32_LIMIT && ClaimsLapseBy(marks, horizon)
      modifies this
      ensures phase == Idle && State() == RunAll(old(State()), steps) && ClaimsLapseBy(marks, horizon')
      ensures stalled ==> queue == old(queue) && horizon' == horizon && old(now) < horizon && old(now) < now
      ensures !stalled && world.Faultless() ==>
                Work(EffectiveMaxRetries(), queue) < Work(EffectiveMaxRetries(), old(queue))
      ensures old(log.successes) <= log.successes && old(log.failures) <= log.failures
      ensures |log.successes| <= |old(log.successes)| + if world.ok then 1 else 0
      ensures |log.failures| <= |old(log.failures)| + if world.ok then 0 else 1
    {
      hide Delivered, Do, RunAll, RetryCount, RetryCopy, ClaimsLapseBy, Work, Put, AfterBegin;
      ghost var s, queue0 := State(), queue;
      var msg := Receive();
      NoSteps(s);
      ReceiptIsAStep(s, [], s, me, msg, State());
      ghost var taken, rest := State(), queue;
      assert queue0 == [msg] + rest;
      var acked;
      ghost var books, time := BooksNow(), now;
      acked, steps := HandleDelivery(msg, world);
      DeliveredRecords(EffectiveMaxRetries(), books, msg, world, time, acked, BooksNow());
      stalled := Stalls(taken, msg, rest, queue, State());
      if stalled {
        horizon' := horizon;
        StallShortensClaims(taken, msg, rest, queue, State(), horizon);
      } else {
        horizon' := if horizon < now + PROCESSING_TTL then now + PROCESSING_TTL else horizon;
        LaterHorizon(marks, horizon, horizon');
        LaterHorizon(taken.marks, horizon, horizon');
        ClaimsStayBounded(taken, steps, horizon');
        if world.Faultless() {
          AdvanceShedsWork(EffectiveMaxRetries(), msg, rest, queue);
        }
      }
      RunAllConcat(s, [] + [Deliver(me, msg)], steps);
      steps := [] + [Deliver(me, msg)] + steps;
    }

    /** The consuming loop: with finitely many faulty deliveries it empties any queue,
        whatever the jobs do, and all it does is a run of the protocol. */
    method Run(world: nat -> Script, ghost last: nat) returns (ghost steps: seq<Step>, ghost deliveries: nat)
      requires phase == Idle && maxRetries < INT32_LIMIT && QuietFrom(world, last)
      modifies this
      ensures queue == [] && phase == Idle && State() == RunAll(old(State()), steps)
      ensures forall b | Honest(old(State())) && Safe(old(State()), b) :: b in log.successes || InDead(State(), b)
      ensures |log.successes| <= |old(log.successes)| + Oks(world, deliveries)
      ensures |log.failures| <= |old(log.failures)| + deliveries - Oks(world, deliveries)
      ensures old(log.successes) <= log.successes && old(log.failures) <= log.failures
      ensures |log.successes| > |old(log.successes)| ==> exists n: nat | n < deliveries :: world(n).ok
    {
      hide Do, RunAll, Work, ClaimsLapseBy, Honest, Safe, InDead;
      ghost var s0, horizon := State(), LatestClaim(marks);
      var n: nat := 0;
      steps, deliveries := [], 0;
      NoSteps(s0);
      while queue != []
        invariant phase == Idle && State() == RunAll(s0, steps) && ClaimsLapseBy(marks, horizon)
        invariant deliveries == n
        invariant |log.successes| <= |old(log.successes)| + Oks(world, n)
        invariant |log.failures| <= |old(log.failures)| + n - Oks(world, n)
        invariant old(log.successes) <= log.successes && old(log.failures) <= log.failures
        decreases FaultsLeft(world, n, last), Work(EffectiveMaxRetries(), queue), horizon - now
      {
        ghost var more: seq<Step>, stalled: bool;
        more, horizon, stalled := HandleNext(world(n), horizon);
        RunAllConcat(s0, steps, more);
        steps := steps + more;
        n := n + 1;
        deliveries := n;
      }
      OksComeFromOk(world, n);
      forall b | Honest(s0) && Safe(s0, b)
        ensures b in log.successes || InDead(State(), b)
      {
        RunKeepsSafe(s0, steps, b);
        DrainedMeansSettled(State(), b);
      }
    }
  }

  lemma LaterHorizon(marks: map<string, Mark>, horizon: int, later: int)
    requires horizon <= later
    ensures ClaimsLapseBy(marks, horizon) ==> ClaimsLapseBy(marks, later)
  {
  }

  /** A busy answer means somebody's claim on the job is still alive. */
  lemma BusyStalls(s: Sys, m: Message, rest: seq<Message>, s': Sys)
    requires IdOf(m.body) in s.marks && s.marks[IdOf(m.body)].Processing? && s.now < s.marks[IdOf(m.body)].until
    requires s'.now == s.now + 1000 && s'.marks == s.marks
    ensures Stalls(s, m, rest, [m] + rest, s')
  {
  }
}
