/** The worker's delivery protocol as a state machine over its steps: a broker queue
    and a dead-letter queue, any number of workers, and the three-valued idempotency
    markers.  A fault can hit every call, and a worker can crash between any two. */
module WorkerProtocol {
  import opened Common

  type Payload = map<string, nat>

  datatype Job = Job(id: string, kind: string, payload: Payload)

  /** A message body: JSON that decodes to a job, or bytes that do not. */
  datatype Body = Malformed(raw: string) | Valid(job: Job)

  datatype HeaderValue = Number(n: int) | Text(s: string)

  datatype Message = Message(body: Body, contentType: string, headers: map<string, HeaderValue>)

  const RETRY_COUNT_HEADER := "x-retry-count"
  const FAILURE_REASON_HEADER := "x-failure-reason"
  const DEFAULT_MAX_RETRY_COUNT := 3
  const PROCESSING_TTL := 600_000 // milliseconds
  const DONE_TTL := 86_400_000
  const INT32_LIMIT := 0x8000_0000

  function ToInt32(n: int): (r: int)
    ensures -INT32_LIMIT <= n < INT32_LIMIT ==> r == n
    ensures -INT32_LIMIT <= r < INT32_LIMIT && (r - n) % 0x1_0000_0000 == 0
  {
    (n + INT32_LIMIT) % (2 * INT32_LIMIT) - INT32_LIMIT
  }

  /** The header value, or 0 when it is missing or not an integer. */
  function RetryCount(m: Message): int {
    if RETRY_COUNT_HEADER in m.headers && m.headers[RETRY_COUNT_HEADER].Number?
    then m.headers[RETRY_COUNT_HEADER].n else 0
  }

  function ContentTypeOrDefault(contentType: string): string {
    if contentType == "" then "application/json" else contentType
  }

  function FirstCopy(body: Body): (c: Message)
    ensures c.body == body && RetryCount(c) == 0
  {
    Message(body, "application/json", map[])
  }

  function RetryCopy(m: Message): (c: Message)
    ensures c.body == m.body
    ensures 0 <= RetryCount(m) < INT32_LIMIT - 1 ==> RetryCount(c) == RetryCount(m) + 1
    ensures c.headers - {RETRY_COUNT_HEADER} == m.headers - {RETRY_COUNT_HEADER}
    ensures m.contentType != "" ==> c.contentType == m.contentType
  {
    Message(m.body, ContentTypeOrDefault(m.contentType),
            m.headers[RETRY_COUNT_HEADER := Number(ToInt32(RetryCount(m) + 1))])
  }

  /** A copy after k failed attempts that were all retried. */
  function Chain(m: Message, k: nat): Message {
    if k == 0 then m else RetryCopy(Chain(m, k - 1))
  }

  function DeadCopy(m: Message, reason: string): (c: Message)
    ensures c.body == m.body
    ensures 0 <= RetryCount(m) < INT32_LIMIT ==> RetryCount(c) == RetryCount(m)
    ensures FAILURE_REASON_HEADER in c.headers && c.headers[FAILURE_REASON_HEADER] == Text(reason)
    ensures var own := {RETRY_COUNT_HEADER, FAILURE_REASON_HEADER}; c.headers - own == m.headers - own
    ensures m.contentType != "" ==> c.contentType == m.contentType
  {
    Message(m.body, ContentTypeOrDefault(m.contentType),
            m.headers[RETRY_COUNT_HEADER := Number(ToInt32(RetryCount(m)))][FAILURE_REASON_HEADER := Text(reason)])
  }

  function IdOf(b: Body): string { if b.Valid? then b.job.id else "" }

  /** What a worker is doing with the message it holds. */
  datatype Phase =
    | Idle
    | Taken(msg: Message)               // delivered, nothing done yet
    | Backoff(msg: Message)             // marker busy
    | Claimed(msg: Message, until: int) // inside Handle; the claim lapses at `until`
    | Handled(msg: Message, until: int) // Handle succeeded, before Complete
    | Failed(msg: Message, until: int)  // Handle failed, before Release
    | Released(msg: Message)            // before the retry or dead-letter publish
    | Settled(msg: Message)             // before Ack
    | Returning(msg: Message)           // before Nack with requeue

  datatype Mark = Processing(until: int) | Done(until: int)

  /** History used only to state the laws. */
  datatype Log = Log(entered: set<Body>, successes: multiset<Body>, failures: multiset<Body>, lapses: multiset<string>)

  datatype Sys = Sys(
    limit: int,
    ready: multiset<Message>,
    dead: multiset<Message>,
    workers: map<int, Phase>,
    marks: map<string, Mark>,
    now: int,
    log: Log)

  datatype Step =
    | Publish(body: Body, fault: Fault)
    | Deliver(w: int, msg: Message)
    | Begin(w: int, fault: Fault)
    | Wait(w: int)
    | Handle(w: int, ok: bool)
    | Complete(w: int, fault: Fault)
    | Release(w: int, fault: Fault)
    | Republish(w: int, reason: string, fault: Fault)
    | Ack(w: int)
    | Nack(w: int)
    | Crash(w: int)
    | Tick(d: nat)
    | Evict(id: string)

  function PhaseOf(s: Sys, w: int): Phase { if w in s.workers then s.workers[w] else Idle }

  function Put(s: Sys, w: int, phase: Phase): Sys { s.(workers := s.workers[w := phase]) }

  predicate Live(s: Sys, id: string) { id in s.marks && s.now < s.marks[id].until }

  /** A published job carries a fresh identifier (a random UUID). */
  predicate FreshId(s: Sys, body: Body) {
    IdOf(body) == "" || (IdOf(body) !in s.marks && forall b | b in s.log.entered :: IdOf(b) != IdOf(body))
  }

  predicate Enabled(s: Sys, step: Step) {
    match step
    case Publish(body, _) => FreshId(s, body)
    case Deliver(w, msg) => w in s.workers && s.workers[w].Idle? && msg in s.ready
    case Begin(w, fault) =>
      PhaseOf(s, w).Taken? && PhaseOf(s, w).msg.body.Valid? && (IdOf(PhaseOf(s, w).msg.body) == "" ==> fault == Fine)
    case Wait(w) => PhaseOf(s, w).Backoff?
    case Handle(w, _) => PhaseOf(s, w).Claimed?
    case Complete(w, fault) => PhaseOf(s, w).Handled? && (IdOf(PhaseOf(s, w).msg.body) == "" ==> fault == Fine)
    case Release(w, fault) => PhaseOf(s, w).Failed? && (IdOf(PhaseOf(s, w).msg.body) == "" ==> fault == Fine)
    case Republish(w, _, _) =>
      PhaseOf(s, w).Released? || (PhaseOf(s, w).Taken? && PhaseOf(s, w).msg.body.Malformed?)
    case Ack(w) => PhaseOf(s, w).Settled?
    case Nack(w) => PhaseOf(s, w).Returning?
    case Crash(w) => !PhaseOf(s, w).Idle?
    case Tick(_) => true
    case Evict(id) => id in s.marks
  }

  function AfterPublish(s: Sys, body: Body, fault: Fault): Sys {
    if fault.Applied()
    then s.(ready := s.ready + multiset{FirstCopy(body)}, log := s.log.(entered := s.log.entered + {body}))
    else s
  }

  /** The claim script: an existing live marker is left alone. */
  function Claim(s: Sys, id: string): Sys {
    if id == "" || Live(s, id) then s
    else s.(marks := s.marks[id := Processing(s.now + PROCESSING_TTL)],
            log := if id in s.marks && s.marks[id].Done? then Lapsed(s.log, id) else s.log)
  }

  lemma NothingToClaim(s: Sys)
    ensures Claim(s, "") == s
  {
  }

  function Lapsed(log: Log, id: string): Log { log.(lapses := log.lapses + multiset{id}) }

  /** What the worker does next, given the script's answer on the state before it. */
  function BegunPhase(s: Sys, m: Message, fault: Fault): Phase {
    var id := IdOf(m.body);
    if fault.Lost? then Returning(m)
    else if id == "" then Claimed(m, s.now)
    else if !Live(s, id) then Claimed(m, s.now + PROCESSING_TTL)
    else if s.marks[id].Done? then Settled(m)
    else Backoff(m)
  }

  function AfterBegin(s: Sys, w: int, m: Message, fault: Fault): Sys {
    Put(if fault.Applied() then Claim(s, IdOf(m.body)) else s, w, BegunPhase(s, m, fault))
  }

  function AfterHandle(s: Sys, w: int, m: Message, until: int, ok: bool): Sys {
    if ok then Put(s.(log := s.log.(successes := s.log.successes + multiset{m.body})), w, Handled(m, until))
    else Put(s.(log := s.log.(failures := s.log.failures + multiset{m.body})), w, Failed(m, until))
  }

  function AfterComplete(s: Sys, w: int, m: Message, fault: Fault): Sys {
    var id := IdOf(m.body);
    var s1 := if id != "" && fault.Applied() then s.(marks := s.marks[id := Done(s.now + DONE_TTL)]) else s;
    if fault.Lost? then Put(s1.(log := Lapsed(s1.log, id)), w, Returning(m)) else Put(s1, w, Settled(m))
  }

  function AfterRelease(s: Sys, w: int, m: Message, fault: Fault): Sys {
    var id := IdOf(m.body);
    var s1 := if id != "" && fault.Applied() then s.(marks := s.marks - {id}) else s;
    Put(s1, w, if fault.Lost? then Returning(m) else Released(m))
  }

  /** Retry below the limit, dead-letter at it or for a malformed body. */
  predicate Retries(s: Sys, m: Message) { m.body.Valid? && RetryCount(m) < s.limit }

  function AfterRepublish(s: Sys, w: int, m: Message, reason: string, fault: Fault): Sys {
    var s1 :=
      if !fault.Applied() then s
      else if Retries(s, m) then s.(ready := s.ready + multiset{RetryCopy(m)})
      else s.(dead := s.dead + multiset{DeadCopy(m, reason)});
    Put(s1, w, if fault.Lost? then Returning(m) else Settled(m))
  }

  function AfterCrash(s: Sys, w: int, phase: Phase): Sys
    requires !phase.Idle?
  {
    var s1 := s.(ready := s.ready + multiset{phase.msg});
    Put(if phase.Handled? then s1.(log := Lapsed(s1.log, IdOf(phase.msg.body))) else s1, w, Idle)
  }

  function AfterEvict(s: Sys, id: string): Sys
    requires id in s.marks
  {
    s.(marks := s.marks - {id}, log := if s.marks[id].Done? then Lapsed(s.log, id) else s.log)
  }

  function After(s: Sys, step: Step): Sys
    requires Enabled(s, step)
  {
    match step
    case Publish(body, fault) => AfterPublish(s, body, fault)
    case Deliver(w, msg) => Put(s.(ready := s.ready - multiset{msg}), w, Taken(msg))
    case Begin(w, fault) => AfterBegin(s, w, PhaseOf(s, w).msg, fault)
    case Wait(w) => Put(s, w, Returning(PhaseOf(s, w).msg))
    case Handle(w, ok) => AfterHandle(s, w, PhaseOf(s, w).msg, PhaseOf(s, w).until, ok)
    case Complete(w, fault) => AfterComplete(s, w, PhaseOf(s, w).msg, fault)
    case Release(w, fault) => AfterRelease(s, w, PhaseOf(s, w).msg, fault)
    case Republish(w, reason, fault) => AfterRepublish(s, w, PhaseOf(s, w).msg, reason, fault)
    case Ack(w) => Put(s, w, Idle)
    case Nack(w) => Put(s.(ready := s.ready + multiset{PhaseOf(s, w).msg}), w, Idle)
    case Crash(w) => AfterCrash(s, w, PhaseOf(s, w))
    case Tick(d) => s.(now := s.now + d)
    case Evict(id) => AfterEvict(s, id)
  }

  /** Empty queues, idle workers, an empty marker store. */
  predicate Start(s: Sys) {
    && 1 <= s.limit < INT32_LIMIT
    && s.ready == multiset{} && s.dead == multiset{} && s.marks == map[]
    && (forall w | w in s.workers :: s.workers[w].Idle?)
    && s.log == Log({}, multiset{}, multiset{}, multiset{})
  }

  /** A schedule is any sequence of steps; a step that is not enabled does nothing. */
  function Do(s: Sys, step: Step): Sys { if Enabled(s, step) then After(s, step) else s }

  function RunAll(s: Sys, steps: seq<Step>): Sys {
    if steps == [] then s else Do(RunAll(s, steps[..|steps| - 1]), steps[|steps| - 1])
  }

  // ----- bookkeeping every reachable state satisfies -----

  ghost predicate UniqueIds(entered: set<Body>) {
    forall b1, b2 | b1 in entered && b2 in entered && IdOf(b1) == IdOf(b2) != "" :: b1 == b2
  }

  /** A copy with retry count c has at most the allowed count, and at least c failed
      executions of its job behind it. */
  predicate MessageHonest(limit: int, log: Log, m: Message) {
    m.body in log.entered && 0 <= RetryCount(m) <= limit && RetryCount(m) <= log.failures[m.body]
  }

  /** A worker past a failure has one failure more than its count; one past Handle
      witnesses a success. */
  predicate PhaseHonest(limit: int, log: Log, phase: Phase) {
    !phase.Idle? ==>
      && MessageHonest(limit, log, phase.msg)
      && (phase.Failed? || phase.Released? ==>
            phase.msg.body.Valid? && RetryCount(phase.msg) < log.failures[phase.msg.body])
      && (phase.Claimed? ==> phase.msg.body.Valid?)
      && (phase.Handled? ==> phase.msg.body in log.successes)
  }

  /** A dead-lettered job has used up every attempt. */
  predicate DeadHonest(limit: int, log: Log, m: Message) {
    m.body.Valid? ==> RetryCount(m) == limit < log.failures[m.body]
  }

  /** A done marker witnesses a successful execution. */
  predicate MarkHonest(marks: map<string, Mark>, log: Log, b: Body) {
    IdOf(b) != "" && IdOf(b) in marks && marks[IdOf(b)].Done? ==> b in log.successes
  }

  ghost predicate Honest(s: Sys) {
    && 1 <= s.limit < INT32_LIMIT
    && UniqueIds(s.log.entered)
    && (forall b | b in s.log.successes :: b in s.log.entered)
    && (forall m | m in s.ready :: MessageHonest(s.limit, s.log, m))
    && (forall m | m in s.dead :: DeadHonest(s.limit, s.log, m))
    && (forall w | w in s.workers :: PhaseHonest(s.limit, s.log, s.workers[w]))
    && (forall b | b in s.log.entered :: MarkHonest(s.marks, s.log, b))
  }

  lemma StartIsHonest(s: Sys)
    requires Start(s)
    ensures Honest(s)
  {
  }

  lemma PutKeepsHonest(s: Sys, w: int, phase: Phase)
    requires Honest(s) && PhaseHonest(s.limit, s.log, phase)
    ensures Honest(Put(s, w, phase))
  {
    hide RetryCount, UniqueIds;
  }

  lemma EnqueueKeepsHonest(s: Sys, m: Message)
    requires Honest(s) && MessageHonest(s.limit, s.log, m)
    ensures Honest(s.(ready := s.ready + multiset{m}))
  {
    hide RetryCount, UniqueIds;
  }

  lemma BuryKeepsHonest(s: Sys, m: Message)
    requires Honest(s) && DeadHonest(s.limit, s.log, m)
    ensures Honest(s.(dead := s.dead + multiset{m}))
  {
    hide RetryCount, UniqueIds;
  }

  /** Counting an execution, a lapse, or dropping a marker keeps honesty. */
  lemma LogKeepsHonest(s: Sys, s': Sys)
    requires Honest(s)
    requires s' == s.(log := s'.log, marks := s'.marks, now := s'.now)
    requires s'.log.entered == s.log.entered
    requires s.log.successes <= s'.log.successes && s.log.failures <= s'.log.failures
    requires forall b | b in s'.log.successes :: b in s.log.entered
    requires forall id | id in s'.marks && s'.marks[id].Done? ::
               || (id in s.marks && s.marks[id].Done?)
               || (forall b | b in s.log.entered && IdOf(b) == id :: b in s'.log.successes)
    ensures Honest(s')
  {
    hide RetryCount, UniqueIds;
    forall m: Message
      ensures s'.log.failures[m.body] >= s.log.failures[m.body]
    {
    }
  }

  lemma PublishKeepsHonest(s: Sys, body: Body, fault: Fault)
    requires Honest(s) && FreshId(s, body)
    ensures Honest(AfterPublish(s, body, fault))
  {
    hide FirstCopy, RetryCount;
  }

  lemma ClaimKeepsHonest(s: Sys, id: string)
    requires Honest(s)
    ensures Honest(Claim(s, id))
  {
    assert forall b | b in s.log.successes :: b in s.log.entered;
    hide Honest;
    LogKeepsHonest(s, Claim(s, id));
  }

  lemma BegunPhaseIsHonest(s: Sys, w: int, fault: Fault)
    requires Honest(s) && w in s.workers && s.workers[w].Taken? && s.workers[w].msg.body.Valid?
    ensures PhaseHonest(s.limit, s.log, BegunPhase(s, s.workers[w].msg, fault))
  {
    assert PhaseHonest(s.limit, s.log, s.workers[w]);
    hide RetryCount, Honest;
  }

  /** A claim may add a lapse to the log; no phase depends on those. */
  lemma ClaimSparesPhases(s: Sys, id: string, phase: Phase)
    requires PhaseHonest(s.limit, s.log, phase)
    ensures Claim(s, id).limit == s.limit && PhaseHonest(s.limit, Claim(s, id).log, phase)
  {
    hide RetryCount;
  }

  lemma BeginKeepsHonest(s: Sys, w: int, fault: Fault)
    requires Honest(s) && w in s.workers && s.workers[w].Taken? && s.workers[w].msg.body.Valid?
    ensures Honest(AfterBegin(s, w, s.workers[w].msg, fault))
  {
    hide Honest, PhaseHonest, BegunPhase, Claim;
    var id, phase := IdOf(s.workers[w].msg.body), BegunPhase(s, s.workers[w].msg, fault);
    BegunPhaseIsHonest(s, w, fault);
    if fault.Applied() {
      ClaimKeepsHonest(s, id);
      ClaimSparesPhases(s, id, phase);
      PutKeepsHonest(Claim(s, id), w, phase);
    } else {
      PutKeepsHonest(s, w, phase);
    }
  }

  lemma HandleKeepsHonest(s: Sys, w: int, ok: bool)
    requires Honest(s) && w in s.workers && s.workers[w].Claimed?
    ensures Honest(AfterHandle(s, w, s.workers[w].msg, s.workers[w].until, ok))
  {
    hide RetryCount, UniqueIds;
    var phase := s.workers[w];
    var s' := AfterHandle(s, w, phase.msg, phase.until, ok);
    var s1 := s.(log := s'.log);
    assert PhaseHonest(s.limit, s.log, phase);
    LogKeepsHonest(s, s1);
    PutKeepsHonest(s1, w, s'.workers[w]);
  }

  lemma CompleteKeepsHonest(s: Sys, w: int, fault: Fault)
    requires Honest(s) && w in s.workers && s.workers[w].Handled?
    ensures Honest(AfterComplete(s, w, s.workers[w].msg, fault))
  {
    hide RetryCount;
    var s' := AfterComplete(s, w, s.workers[w].msg, fault);
    var s1 := s.(log := s'.log, marks := s'.marks);
    assert PhaseHonest(s.limit, s.log, s.workers[w]);
    LogKeepsHonest(s, s1);
    PutKeepsHonest(s1, w, s'.workers[w]);
  }

  lemma ReleaseKeepsHonest(s: Sys, w: int, fault: Fault)
    requires Honest(s) && w in s.workers && s.workers[w].Failed?
    ensures Honest(AfterRelease(s, w, s.workers[w].msg, fault))
  {
    hide RetryCount, UniqueIds;
    var s' := AfterRelease(s, w, s.workers[w].msg, fault);
    var s1 := s.(marks := s'.marks);
    assert PhaseHonest(s.limit, s.log, s.workers[w]);
    LogKeepsHonest(s, s1);
    PutKeepsHonest(s1, w, s'.workers[w]);
  }

  lemma RepublishKeepsHonest(s: Sys, w: int, reason: string, fault: Fault)
    requires Honest(s) && w in s.workers
    requires s.workers[w].Released? || (s.workers[w].Taken? && s.workers[w].msg.body.Malformed?)
    ensures Honest(AfterRepublish(s, w, s.workers[w].msg, reason, fault))
  {
    hide RetryCount, UniqueIds, RetryCopy, DeadCopy;
    var m := s.workers[w].msg;
    var s' := AfterRepublish(s, w, m, reason, fault);
    var s1 := s.(ready := s'.ready, dead := s'.dead);
    assert PhaseHonest(s.limit, s.log, s.workers[w]);
    if fault.Applied() && Retries(s, m) {
      EnqueueKeepsHonest(s, RetryCopy(m));
    } else if fault.Applied() {
      BuryKeepsHonest(s, DeadCopy(m, reason));
    }
    PutKeepsHonest(s1, w, s'.workers[w]);
  }

  lemma RequeueKeepsHonest(s: Sys, w: int)
    requires Honest(s) && w in s.workers && !s.workers[w].Idle?
    ensures Honest(AfterCrash(s, w, s.workers[w]))
    ensures Honest(Put(s.(ready := s.ready + multiset{s.workers[w].msg}), w, Idle))
  {
    hide RetryCount, UniqueIds;
    var s1 := s.(ready := s.ready + multiset{s.workers[w].msg});
    assert PhaseHonest(s.limit, s.log, s.workers[w]);
    EnqueueKeepsHonest(s, s.workers[w].msg);
    var s2 := s1.(log := Lapsed(s.log, IdOf(s.workers[w].msg.body)));
    LogKeepsHonest(s1, s2);
    PutKeepsHonest(s1, w, Idle);
    PutKeepsHonest(s2, w, Idle);
  }

  lemma DeliverKeepsHonest(s: Sys, w: int, m: Message)
    requires Honest(s) && m in s.ready
    ensures Honest(Put(s.(ready := s.ready - multiset{m}), w, Taken(m)))
  {
    hide RetryCount, UniqueIds;
    PutKeepsHonest(s.(ready := s.ready - multiset{m}), w, Taken(m));
  }

  /** The retry chain and the honesty of markers survive every step of every worker. */
  lemma StepKeepsHonest(s: Sys, step: Step)
    requires Honest(s)
    ensures Honest(Do(s, step))
  {
    hide Honest, AfterPublish, AfterBegin, AfterHandle, AfterComplete, AfterRelease, AfterRepublish;
    if Enabled(s, step) {
      match step
      case Publish(body, fault) => PublishKeepsHonest(s, body, fault);
      case Deliver(w, m) => DeliverKeepsHonest(s, w, m);
      case Begin(w, fault) => BeginKeepsHonest(s, w, fault);
      case Wait(w) => WaitKeepsHonest(s, w);
      case Handle(w, ok) => HandleKeepsHonest(s, w, ok);
      case Complete(w, fault) => CompleteKeepsHonest(s, w, fault);
      case Release(w, fault) => ReleaseKeepsHonest(s, w, fault);
      case Republish(w, reason, fault) => RepublishKeepsHonest(s, w, reason, fault);
      case Ack(w) => WaitKeepsHonest(s, w);
      case Nack(w) => RequeueKeepsHonest(s, w);
      case Crash(w) => RequeueKeepsHonest(s, w);
      case Tick(d) => EnvironmentKeepsHonest(s, s.(now := s.now + d));
      case Evict(id) => EnvironmentKeepsHonest(s, AfterEvict(s, id));
    }
  }

  lemma WaitKeepsHonest(s: Sys, w: int)
    requires Honest(s) && w in s.workers && !s.workers[w].Idle?
    ensures Honest(Put(s, w, Idle)) && Honest(Put(s, w, Returning(s.workers[w].msg)))
  {
    hide RetryCount, UniqueIds;
    PutKeepsHonest(s, w, Idle);
    PutKeepsHonest(s, w, Returning(s.workers[w].msg));
  }

  lemma EnvironmentKeepsHonest(s: Sys, s': Sys)
    requires Honest(s)
    requires s' == s.(log := s'.log, marks := s'.marks, now := s'.now) && s'.log == s.log.(lapses := s'.log.lapses)
    requires forall id | id in s'.marks :: id in s.marks && s'.marks[id] == s.marks[id]
    ensures Honest(s')
  {
    hide RetryCount, UniqueIds;
    LogKeepsHonest(s, s');
  }

  lemma {:induction false} RunKeepsHonest(s: Sys, steps: seq<Step>)
    requires Honest(s)
    ensures Honest(RunAll(s, steps))
  {
    hide Honest, Do;
    if steps != [] {
      RunKeepsHonest(s, steps[..|steps| - 1]);
      StepKeepsHonest(RunAll(s, steps[..|steps| - 1]), steps[|steps| - 1]);
    }
  }

  // ----- no job is lost -----

  ghost predicate InReady(s: Sys, b: Body) { exists m | m in s.ready :: m.body == b }

  ghost predicate InDead(s: Sys, b: Body) { exists m | m in s.dead :: m.body == b }

  /** A worker answers for a body until it has decided to acknowledge it. */
  predicate AnswersFor(phase: Phase, b: Body) {
    !phase.Idle? && !phase.Settled? && phase.msg.body == b
  }

  ghost predicate IsHeld(s: Sys, b: Body) { exists w | w in s.workers :: AnswersFor(s.workers[w], b) }

  /** Executed successfully, or a byte-identical copy is queued, held or dead-lettered. */
  ghost predicate Safe(s: Sys, b: Body) {
    b in s.log.successes || InReady(s, b) || IsHeld(s, b) || InDead(s, b)
  }

  /** A worker may change phase as long as somebody still answers for the body. */
  lemma PutKeepsSafe(s: Sys, w: int, phase: Phase, b: Body)
    requires Safe(s, b) && w in s.workers
    requires AnswersFor(s.workers[w], b) ==>
               AnswersFor(phase, b) || b in s.log.successes || InReady(s, b) || InDead(s, b)
    ensures Safe(Put(s, w, phase), b)
  {
    var s' := Put(s, w, phase);
    if b !in s.log.successes && !InReady(s, b) && !InDead(s, b) {
      var w' :| w' in s.workers && AnswersFor(s.workers[w'], b);
      assert w' in s'.workers && AnswersFor(s'.workers[w'], b);
    } else {
      assert InReady(s, b) ==> InReady(s', b);
      assert InDead(s, b) ==> InDead(s', b);
    }
  }

  lemma GrowKeepsSafe(s: Sys, s': Sys, b: Body)
    requires Safe(s, b) && s'.workers == s.workers
    requires s.ready <= s'.ready && s.dead <= s'.dead && s.log.successes <= s'.log.successes
    ensures Safe(s', b)
    ensures InReady(s, b) ==> InReady(s', b)
  {
    if InReady(s, b) {
      var m :| m in s.ready && m.body == b;
      assert m in s'.ready;
    }
    if InDead(s, b) {
      var m :| m in s.dead && m.body == b;
      assert m in s'.dead;
    }
  }

  lemma DeliverKeepsSafe(s: Sys, w: int, m: Message, b: Body)
    requires Safe(s, b) && w in s.workers && s.workers[w].Idle? && m in s.ready
    ensures Safe(Put(s.(ready := s.ready - multiset{m}), w, Taken(m)), b)
  {
    var s' := Put(s.(ready := s.ready - multiset{m}), w, Taken(m));
    if m.body == b {
      assert w in s'.workers && AnswersFor(s'.workers[w], b);
    } else if InReady(s, b) {
      var m' :| m' in s.ready && m'.body == b;
      assert m' in s'.ready;
    } else if IsHeld(s, b) {
      var w' :| w' in s.workers && AnswersFor(s.workers[w'], b);
      assert w' in s'.workers && AnswersFor(s'.workers[w'], b);
    } else {
      assert InDead(s, b) ==> InDead(s', b);
    }
  }

  /** Only a done marker ends a delivery at once, and it witnesses a success. */
  lemma BegunPhaseAnswers(s: Sys, w: int, fault: Fault)
    requires Honest(s) && w in s.workers && s.workers[w].Taken?
    ensures var m := s.workers[w].msg;
      AnswersFor(BegunPhase(s, m, fault), m.body) || m.body in s.log.successes
  {
    var m := s.workers[w].msg;
    assert PhaseHonest(s.limit, s.log, s.workers[w]);
    assert BegunPhase(s, m, fault).Settled? ==> MarkHonest(s.marks, s.log, m.body);
    hide RetryCount, Honest, UniqueIds;
  }

  lemma BeginKeepsSafe(s: Sys, w: int, fault: Fault, b: Body)
    requires Honest(s) && Safe(s, b) && w in s.workers && s.workers[w].Taken?
    ensures Safe(AfterBegin(s, w, s.workers[w].msg, fault), b)
  {
    hide Honest, Safe, BegunPhase;
    var id, phase := IdOf(s.workers[w].msg.body), BegunPhase(s, s.workers[w].msg, fault);
    BegunPhaseAnswers(s, w, fault);
    if fault.Applied() {
      GrowKeepsSafe(s, Claim(s, id), b);
      PutKeepsSafe(Claim(s, id), w, phase, b);
    } else {
      PutKeepsSafe(s, w, phase, b);
    }
  }

  lemma RepublishKeepsSafe(s: Sys, w: int, reason: string, fault: Fault, b: Body)
    requires Safe(s, b) && w in s.workers && !s.workers[w].Idle?
    ensures Safe(AfterRepublish(s, w, s.workers[w].msg, reason, fault), b)
  {
    hide RetryCount, RetryCopy, DeadCopy, Safe;
    var m := s.workers[w].msg;
    var s' := AfterRepublish(s, w, m, reason, fault);
    var s1 := s.(ready := s'.ready, dead := s'.dead);
    GrowKeepsSafe(s, s1, b);
    if fault == Fine && m.body == b {
      assert Retries(s, m) ==> RetryCopy(m) in s1.ready;
      assert !Retries(s, m) ==> DeadCopy(m, reason) in s1.dead;
    }
    PutKeepsSafe(s1, w, s'.workers[w], b);
  }

  lemma RequeueKeepsSafe(s: Sys, w: int, b: Body)
    requires Safe(s, b) && w in s.workers && !s.workers[w].Idle?
    ensures Safe(AfterCrash(s, w, s.workers[w]), b)
    ensures Safe(Put(s.(ready := s.ready + multiset{s.workers[w].msg}), w, Idle), b)
  {
    hide Safe;
    var m := s.workers[w].msg;
    var s1 := s.(ready := s.ready + multiset{m});
    var s2 := s1.(log := Lapsed(s.log, IdOf(m.body)));
    assert m in s1.ready && m in s2.ready;
    GrowKeepsSafe(s, s1, b);
    GrowKeepsSafe(s, s2, b);
    PutKeepsSafe(s1, w, Idle, b);
    PutKeepsSafe(s2, w, Idle, b);
  }

  /** A worker that has executed a job, or is acknowledging it, drops no body. */
  lemma ExecutionKeepsSafe(s: Sys, step: Step, b: Body)
    requires Honest(s) && Safe(s, b) && Enabled(s, step) && (step.Handle? || step.Wait? || step.Ack?)
    ensures Safe(After(s, step), b)
  {
    hide RetryCount, UniqueIds, Safe, Honest;
    var w, s' := step.w, After(s, step);
    var s1 := s.(log := s'.log);
    GrowKeepsSafe(s, s1, b);
    PutKeepsSafe(s1, w, s'.workers[w], b);
  }

  lemma HandledHasSucceeded(s: Sys, w: int)
    requires Honest(s) && w in s.workers && s.workers[w].Handled?
    ensures s.workers[w].msg.body in s.log.successes
  {
    hide RetryCount, UniqueIds;
    assert PhaseHonest(s.limit, s.log, s.workers[w]);
  }

  lemma CompleteKeepsSafe(s: Sys, w: int, fault: Fault, b: Body)
    requires Honest(s) && Safe(s, b) && w in s.workers && s.workers[w].Handled?
    ensures Safe(AfterComplete(s, w, s.workers[w].msg, fault), b)
  {
    hide Safe, Honest;
    HandledHasSucceeded(s, w);
    var s' := AfterComplete(s, w, s.workers[w].msg, fault);
    var s1 := s.(log := s'.log, marks := s'.marks);
    GrowKeepsSafe(s, s1, b);
    PutKeepsSafe(s1, w, s'.workers[w], b);
  }

  lemma ReleaseKeepsSafe(s: Sys, w: int, fault: Fault, b: Body)
    requires Safe(s, b) && w in s.workers && !s.workers[w].Idle?
    ensures Safe(AfterRelease(s, w, s.workers[w].msg, fault), b)
  {
    hide Safe;
    var s' := AfterRelease(s, w, s.workers[w].msg, fault);
    var s1 := s.(marks := s'.marks);
    GrowKeepsSafe(s, s1, b);
    PutKeepsSafe(s1, w, s'.workers[w], b);
  }

  lemma StepKeepsSafe(s: Sys, step: Step, b: Body)
    requires Honest(s) && Safe(s, b)
    ensures Safe(Do(s, step), b)
  {
    hide Honest, Safe, AfterBegin, AfterHandle, AfterComplete, AfterRelease, AfterRepublish;
    if Enabled(s, step) {
      match step
      case Publish(body, fault) => GrowKeepsSafe(s, After(s, step), b);
      case Deliver(w, m) => DeliverKeepsSafe(s, w, m, b);
      case Begin(w, fault) => BeginKeepsSafe(s, w, fault, b);
      case Republish(w, reason, fault) => RepublishKeepsSafe(s, w, reason, fault, b);
      case Nack(w) => RequeueKeepsSafe(s, w, b);
      case Crash(w) => RequeueKeepsSafe(s, w, b);
      case Tick(d) => GrowKeepsSafe(s, After(s, step), b);
      case Evict(id) => GrowKeepsSafe(s, After(s, step), b);
      case Complete(w, fault) => CompleteKeepsSafe(s, w, fault, b);
      case Release(w, fault) => ReleaseKeepsSafe(s, w, fault, b);
      case _ => ExecutionKeepsSafe(s, step, b);
    }
  }

  /** A body that a step brings in is queued at once. */
  lemma NewBodyIsSafe(s: Sys, step: Step, b: Body)
    requires b in Do(s, step).log.entered && b !in s.log.entered
    ensures Safe(Do(s, step), b)
  {
    hide FirstCopy;
    assert step.Publish? && step.body == b;
    assert FirstCopy(b) in Do(s, step).ready;
  }

  lemma {:induction false} RunKeepsSafe(s: Sys, steps: seq<Step>, b: Body)
    requires Honest(s) && Safe(s, b)
    ensures Safe(RunAll(s, steps), b)
  {
    hide Do, Safe, Honest;
    if steps != [] {
      var before := steps[..|steps| - 1];
      RunKeepsSafe(s, before, b);
      RunKeepsHonest(s, before);
      StepKeepsSafe(RunAll(s, before), steps[|steps| - 1], b);
    }
  }

  /** No job is lost: in every reachable state, under store, publish, acknowledgement
      and crash faults at any point, every body that entered the queue has been
      executed successfully, or a byte-identical copy of it is queued, held by a
      worker or dead-lettered. */
  lemma {:induction false} NothingIsLost(s: Sys, steps: seq<Step>, b: Body)
    requires Start(s) && b in RunAll(s, steps).log.entered
    ensures Safe(RunAll(s, steps), b)
  {
    hide Do, Safe, Honest;
    if steps != [] {
      var before, last := steps[..|steps| - 1], steps[|steps| - 1];
      if b in RunAll(s, before).log.entered {
        NothingIsLost(s, before, b);
        StartIsHonest(s);
        RunKeepsHonest(s, before);
        StepKeepsSafe(RunAll(s, before), last, b);
      } else {
        NewBodyIsSafe(RunAll(s, before), last, b);
      }
    }
  }

  /** When the queue is empty and the workers are idle, a safe body has been executed
      or dead-lettered. */
  lemma DrainedMeansSettled(s: Sys, b: Body)
    requires Safe(s, b) && s.ready == multiset{} && forall w | w in s.workers :: s.workers[w].Idle?
    ensures b in s.log.successes || InDead(s, b)
  {
  }

  /** Retries are bounded and counted: in every reachable state a copy with count c,
      queued or held by a worker, has c within the limit and at least c failed executions
      behind it (one more if its worker is past a failure), and a well-formed job is
      dead-lettered only after limit + 1 failures. */
  lemma RetriesAreCounted(s: Sys, steps: seq<Step>, m: Message)
    requires Start(s)
    ensures m in RunAll(s, steps).ready ==>
              0 <= RetryCount(m) <= s.limit && RetryCount(m) <= RunAll(s, steps).log.failures[m.body]
    ensures forall w | w in RunAll(s, steps).workers ::
              CountedBy(s.limit, RunAll(s, steps).log.failures, RunAll(s, steps).workers[w])
    ensures m in RunAll(s, steps).dead && m.body.Valid? ==>
              RetryCount(m) == s.limit && RunAll(s, steps).log.failures[m.body] >= s.limit + 1
  {
    StartIsHonest(s);
    RunKeepsHonest(s, steps);
    LimitIsFixed(s, steps);
    hide RetryCount, UniqueIds, RunAll;
    forall w | w in RunAll(s, steps).workers
      ensures CountedBy(s.limit, RunAll(s, steps).log.failures, RunAll(s, steps).workers[w])
    {
      assert PhaseHonest(s.limit, RunAll(s, steps).log, RunAll(s, steps).workers[w]);
    }
  }

  predicate CountedBy(limit: int, failures: multiset<Body>, phase: Phase) {
    !phase.Idle? ==>
      && 0 <= RetryCount(phase.msg) <= limit && RetryCount(phase.msg) <= failures[phase.msg.body]
      && (phase.Failed? || phase.Released? ==> RetryCount(phase.msg) < failures[phase.msg.body])
  }

  lemma {:induction false} LimitIsFixed(s: Sys, steps: seq<Step>)
    ensures RunAll(s, steps).limit == s.limit
  {
    if steps != [] {
      LimitIsFixed(s, steps[..|steps| - 1]);
    }
  }

  // ----- when a job that always fails is dead-lettered -----

  lemma ChainInRange(m: Message, k: nat)
    requires k > 0
    ensures -INT32_LIMIT <= RetryCount(Chain(m, k)) < INT32_LIMIT
  {
    assert RetryCount(Chain(m, k)) == ToInt32(RetryCount(Chain(m, k - 1)) + 1);
  }

  /** Within the int32 range every retry counts up until the limit stops it. */
  lemma {:induction false} ChainReaches(m: Message, limit: int, k: nat)
    requires limit < INT32_LIMIT && -INT32_LIMIT <= RetryCount(Chain(m, k))
    ensures exists n: nat :: RetryCount(Chain(m, n)) >= limit
    decreases limit - RetryCount(Chain(m, k))
  {
    if RetryCount(Chain(m, k)) < limit {
      var c := RetryCount(Chain(m, k));
      assert RetryCount(Chain(m, k + 1)) == ToInt32(c + 1) == c + 1;
      ChainReaches(m, limit, k + 1);
    }
  }

  /** The retry header is an int32 that wraps.  A job that fails at every attempt is
      dead-lettered in the end exactly when the limit lies within that range, or its first
      header was above the limit already; otherwise every copy of it is retried, forever. */
  lemma FailingJobEnds(m: Message, limit: int)
    ensures (exists k: nat :: RetryCount(Chain(m, k)) >= limit) <==> limit < INT32_LIMIT || RetryCount(m) >= limit
  {
    if RetryCount(m) >= limit {
      assert RetryCount(Chain(m, 0)) >= limit;
    } else if limit < INT32_LIMIT {
      ChainInRange(m, 1);
      ChainReaches(m, limit, 1);
    } else {
      forall k: nat
        ensures RetryCount(Chain(m, k)) < limit
      {
        if k > 0 {
          ChainInRange(m, k);
        }
      }
    }
  }
}
