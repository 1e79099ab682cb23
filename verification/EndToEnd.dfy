/** From posting a comment to crediting its author: the comment service, the queue and
    its workers, the event processor and the points ledger put together.  Awards may
    fail, commit without the caller learning of it, or run any number of times. */
module EndToEnd {
  import opened Common
  import opened PointsTables
  import opened PointsService
  import opened WorkerProtocol

  const COMMENT_CREATED := "comment.created"

  /** A missing payload field reads as zero. */
  function Field(p: Payload, name: string): nat { if name in p then p[name] else 0 }

  function CommentJob(id: string, user: nat, article: nat, comment: nat): Body {
    Valid(Job(id, COMMENT_CREATED, map["userID" := user, "articleID" := article, "commentID" := comment]))
  }

  predicate IsCommentJob(b: Body) { b.Valid? && b.job.kind == COMMENT_CREATED }

  function AuthorOf(b: Body): nat
    requires b.Valid?
  {
    Field(b.job.payload, "userID")
  }

  function CommentOf(b: Body): nat
    requires b.Valid?
  {
    Field(b.job.payload, "commentID")
  }

  /** An award transaction commits, commits although its caller sees an error, or aborts. */
  datatype Award = Committed | ReplyLost | Aborted

  datatype Event =
    | Wire(step: Step)                                  // queue, store and broker activity
    | Execute(w: int, award: Award, heatOk: bool)       // a worker runs handleCommentCreated
    | Serve1(call: Call, award: Award)                  // any other points call, by anyone
    | Post(user: nat, article: nat, comment: nat, id: string, publish: Fault, award: Award, heatOk: bool)

  /** A comment whose creation was reported as successful, with its job. */
  datatype Accepted = Accepted(user: nat, comment: nat, job: Body)

  datatype World = World(sys: Sys, tables: Tables, accepted: set<Accepted>)

  function Settled(t: Tables, call: Call, award: Award): Tables {
    if award.Aborted? then t else Serve(t, call).0
  }

  /** Whether the caller of an award sees success. */
  predicate Succeeds(t: Tables, call: Call, award: Award) {
    award.Committed? && (Serve(t, call).1.Done? || Serve(t, call).1.Skipped?)
  }

  predicate RunsCommentJob(s: Sys, w: int) {
    PhaseOf(s, w).Claimed? && IsCommentJob(PhaseOf(s, w).msg.body)
  }

  /** handleCommentCreated: award first, then heat; either error fails the job. */
  function AfterExecute(x: World, w: int, award: Award, heatOk: bool): World
    requires RunsCommentJob(x.sys, w)
  {
    var b := PhaseOf(x.sys, w).msg.body;
    var call := AwardQuality(AuthorOf(b), CommentOf(b));
    x.(sys := Do(x.sys, Handle(w, Succeeds(x.tables, call, award) && heatOk)),
       tables := Settled(x.tables, call, award))
  }

  /** Service.Create after the row is stored: publish, and on a publish error award and
      heat synchronously; only then is the comment reported as created. */
  function AfterPost(x: World, post: Event): World
    requires post.Post?
  {
    var job := CommentJob(post.id, post.user, post.article, post.comment);
    var call := AwardQuality(post.user, post.comment);
    var sys' := Do(x.sys, Publish(job, post.publish));
    var done := x.accepted + {Accepted(post.user, post.comment, job)};
    if post.publish == Fine then World(sys', x.tables, done)
    else
      var ok := Succeeds(x.tables, call, post.award) && post.heatOk;
      World(sys', Settled(x.tables, call, post.award), if ok then done else x.accepted)
  }

  /** Events that cannot happen do nothing. */
  function Happen(x: World, e: Event): World {
    match e
    case Wire(step) => if step.Handle? && RunsCommentJob(x.sys, step.w) then x else x.(sys := Do(x.sys, step))
    case Execute(w, award, heatOk) => if RunsCommentJob(x.sys, w) then AfterExecute(x, w, award, heatOk) else x
    case Serve1(call, award) => x.(tables := Settled(x.tables, call, award))
    case Post(_, _, _, id, _, _, _) =>
      if id != "" && FreshId(x.sys, CommentJob(id, e.user, e.article, e.comment)) then AfterPost(x, e) else x
  }

  function History(x: World, events: seq<Event>): World {
    if events == [] then x else Happen(History(x, events[..|events| - 1]), events[|events| - 1])
  }

  // ----- what every reachable world satisfies -----

  function QualityId(user: nat, comment: nat): (nat, string)
    requires user != 0 && comment != 0
  {
    (user, Plan(AwardQuality(user, comment)).value.key)
  }

  /** The award of this comment is in the operations table (or there is none to make). */
  predicate Awarded(t: Tables, user: nat, comment: nat) {
    user != 0 && comment != 0 ==> QualityId(user, comment) in t.operations
  }

  predicate JobAwarded(t: Tables, b: Body) { IsCommentJob(b) ==> Awarded(t, AuthorOf(b), CommentOf(b)) }

  ghost predicate AllSafe(s: Sys) { forall b | b in s.log.entered :: Safe(s, b) }

  ghost predicate SuccessesAwarded(x: World) { forall b | b in x.sys.log.successes :: JobAwarded(x.tables, b) }

  predicate Tracked(x: World, a: Accepted) {
    || Awarded(x.tables, a.user, a.comment)
    || (a.job in x.sys.log.entered && IsCommentJob(a.job) && AuthorOf(a.job) == a.user && CommentOf(a.job) == a.comment)
  }

  ghost predicate Sound(initial: map<nat, nat>, x: World) {
    && Honest(x.sys) && AllSafe(x.sys)
    && ServiceLaws(initial, x.tables) && AmountsFixed(x.tables)
    && SuccessesAwarded(x)
    && forall a | a in x.accepted :: Tracked(x, a)
  }

  lemma SettledKeepsLaws(initial: map<nat, nat>, t: Tables, call: Call, award: Award)
    requires ServiceLaws(initial, t) && AmountsFixed(t)
    ensures ServiceLaws(initial, Settled(t, call, award)) && AmountsFixed(Settled(t, call, award))
  {
    hide ServiceLaws, AmountsFixed, Serve;
    ServeKeepsLaws(initial, t, call);
    ServeKeepsAmounts(t, call);
  }

  lemma SettledKeepsOperations(t: Tables, call: Call, award: Award)
    ensures t.operations.Keys <= Settled(t, call, award).operations.Keys
  {
    hide Plan;
  }

  /** A success seen by the caller means the operation row is there. */
  lemma SuccessIsAwarded(t: Tables, user: nat, comment: nat, award: Award)
    requires Succeeds(t, AwardQuality(user, comment), award)
    ensures Awarded(Settled(t, AwardQuality(user, comment), award), user, comment)
  {
  }

  lemma DoKeepsSafe(s: Sys, step: Step)
    requires Honest(s) && AllSafe(s)
    ensures Honest(Do(s, step)) && AllSafe(Do(s, step))
  {
    hide Honest, Safe, Do;
    StepKeepsHonest(s, step);
    forall b | b in Do(s, step).log.entered
      ensures Safe(Do(s, step), b)
    {
      if b in s.log.entered {
        StepKeepsSafe(s, step, b);
      } else {
        NewBodyIsSafe(s, step, b);
      }
    }
  }

  /** Only Handle adds a success, and only of the body it ran. */
  lemma SuccessesComeFromHandle(s: Sys, step: Step)
    ensures s.log.entered <= Do(s, step).log.entered
    ensures forall b | b in Do(s, step).log.successes && b !in s.log.successes ::
              step == Handle(step.w, true) && PhaseOf(s, step.w).Claimed? && PhaseOf(s, step.w).msg.body == b
  {
  }

  lemma GrowthKeepsTracked(x: World, x': World, a: Accepted)
    requires Tracked(x, a)
    requires x.tables.operations.Keys <= x'.tables.operations.Keys && x.sys.log.entered <= x'.sys.log.entered
    ensures Tracked(x', a)
  {
    hide Plan, IsCommentJob, AuthorOf, CommentOf;
  }

  lemma WireKeepsSound(initial: map<nat, nat>, x: World, step: Step)
    requires Sound(initial, x) && !(step.Handle? && RunsCommentJob(x.sys, step.w))
    ensures Sound(initial, x.(sys := Do(x.sys, step)))
  {
    hide Do, Honest, AllSafe, ServiceLaws, AmountsFixed, Tracked, Plan;
    var x' := x.(sys := Do(x.sys, step));
    DoKeepsSafe(x.sys, step);
    SuccessesComeFromHandle(x.sys, step);
    forall a | a in x'.accepted
      ensures Tracked(x', a)
    {
      GrowthKeepsTracked(x, x', a);
    }
  }

  lemma AwardKeepsJobAwarded(t: Tables, t': Tables, b: Body)
    requires JobAwarded(t, b) && t.operations.Keys <= t'.operations.Keys
    ensures JobAwarded(t', b)
  {
    hide Plan, IsCommentJob, AuthorOf, CommentOf;
  }

  lemma CallKeepsSound(initial: map<nat, nat>, x: World, call: Call, award: Award)
    requires Sound(initial, x)
    ensures Sound(initial, x.(tables := Settled(x.tables, call, award)))
  {
    hide Honest, AllSafe, ServiceLaws, AmountsFixed, Tracked, Settled, JobAwarded;
    var x' := x.(tables := Settled(x.tables, call, award));
    SettledKeepsLaws(initial, x.tables, call, award);
    SettledKeepsOperations(x.tables, call, award);
    forall b | b in x'.sys.log.successes
      ensures JobAwarded(x'.tables, b)
    {
      AwardKeepsJobAwarded(x.tables, x'.tables, b);
    }
    forall a | a in x'.accepted
      ensures Tracked(x', a)
    {
      GrowthKeepsTracked(x, x', a);
    }
  }

  /** A job that succeeds has been awarded. */
  lemma ExecuteKeepsSound(initial: map<nat, nat>, x: World, w: int, award: Award, heatOk: bool)
    requires Sound(initial, x) && RunsCommentJob(x.sys, w)
    ensures Sound(initial, AfterExecute(x, w, award, heatOk))
  {
    hide Do, Honest, AllSafe, ServiceLaws, AmountsFixed, Tracked, Settled, Succeeds, JobAwarded;
    var b := PhaseOf(x.sys, w).msg.body;
    var call := AwardQuality(AuthorOf(b), CommentOf(b));
    var mid := x.(tables := Settled(x.tables, call, award));
    var x' := AfterExecute(x, w, award, heatOk);
    CallKeepsSound(initial, x, call, award);
    var step := Handle(w, Succeeds(x.tables, call, award) && heatOk);
    DoKeepsSafe(x.sys, step);
    SuccessesComeFromHandle(x.sys, step);
    if step.ok {
      SuccessIsAwarded(x.tables, AuthorOf(b), CommentOf(b), award);
      AwardedJob(mid.tables, b);
    }
    forall a | a in x'.accepted
      ensures Tracked(x', a)
    {
      GrowthKeepsTracked(mid, x', a);
    }
  }

  lemma AwardedJob(t: Tables, b: Body)
    requires IsCommentJob(b) && Awarded(t, AuthorOf(b), CommentOf(b))
    ensures JobAwarded(t, b)
  {
  }

  lemma PublishedIsTracked(x: World, id: string, user: nat, article: nat, comment: nat, fault: Fault)
    requires FreshId(x.sys, CommentJob(id, user, article, comment)) && fault == Fine
    ensures var job := CommentJob(id, user, article, comment);
            Tracked(x.(sys := Do(x.sys, Publish(job, fault))), Accepted(user, comment, job))
  {
    hide Plan, FreshId, FirstCopy;
  }

  lemma AwardedIsTracked(x: World, a: Accepted)
    requires Awarded(x.tables, a.user, a.comment)
    ensures Tracked(x, a)
  {
  }

  lemma AcceptKeepsSound(initial: map<nat, nat>, x: World, a: Accepted)
    requires Sound(initial, x) && Tracked(x, a)
    ensures Sound(initial, x.(accepted := x.accepted + {a}))
  {
    hide Honest, AllSafe, ServiceLaws, AmountsFixed, Tracked, JobAwarded;
    var x' := x.(accepted := x.accepted + {a});
    forall a' | a' in x'.accepted
      ensures Tracked(x', a')
    {
      GrowthKeepsTracked(x, x', a');
    }
  }

  /** A comment reported as created has its job queued or its award made. */
  lemma PostKeepsSound(initial: map<nat, nat>, x: World, post: Event)
    requires Sound(initial, x) && post.Post?
    requires FreshId(x.sys, CommentJob(post.id, post.user, post.article, post.comment))
    ensures Sound(initial, AfterPost(x, post))
  {
    hide Do, Sound, Tracked, Settled, Succeeds, FreshId, Awarded, CommentJob;
    var job := CommentJob(post.id, post.user, post.article, post.comment);
    var call := AwardQuality(post.user, post.comment);
    var a := Accepted(post.user, post.comment, job);
    var x1 := x.(sys := Do(x.sys, Publish(job, post.publish)));
    WireKeepsSound(initial, x, Publish(job, post.publish));
    if post.publish == Fine {
      PublishedIsTracked(x, post.id, post.user, post.article, post.comment, post.publish);
      AcceptKeepsSound(initial, x1, a);
    } else {
      var x2 := x1.(tables := Settled(x.tables, call, post.award));
      CallKeepsSound(initial, x1, call, post.award);
      if Succeeds(x.tables, call, post.award) {
        SuccessIsAwarded(x.tables, post.user, post.comment, post.award);
        AwardedIsTracked(x2, a);
        AcceptKeepsSound(initial, x2, a);
      }
    }
  }

  lemma HappenKeepsSound(initial: map<nat, nat>, x: World, e: Event)
    requires Sound(initial, x)
    ensures Sound(initial, Happen(x, e))
  {
    hide Do, Sound, Settled, FreshId, CommentJob, AfterPost, AfterExecute;
    match e
    case Wire(step) =>
      if !(step.Handle? && RunsCommentJob(x.sys, step.w)) {
        WireKeepsSound(initial, x, step);
      }
    case Execute(w, award, heatOk) =>
      if RunsCommentJob(x.sys, w) {
        ExecuteKeepsSound(initial, x, w, award, heatOk);
      }
    case Serve1(call, award) => CallKeepsSound(initial, x, call, award);
    case Post(_, _, _, id, _, _, _) =>
      if id != "" && FreshId(x.sys, CommentJob(id, e.user, e.article, e.comment)) {
        PostKeepsSound(initial, x, e);
      }
  }

  /** Empty queues and tables. */
  predicate Opening(initial: map<nat, nat>, x: World) {
    Start(x.sys) && x.tables == Tables(initial, map[], [], {}, {}, map[]) && x.accepted == {}
  }

  lemma OpeningIsSound(initial: map<nat, nat>, x: World)
    requires Opening(initial, x)
    ensures Sound(initial, x)
  {
    StartIsHonest(x.sys);
    assert ServiceLaws(initial, x.tables);
  }

  lemma {:induction false} HistoryIsSound(initial: map<nat, nat>, x: World, events: seq<Event>)
    requires Opening(initial, x)
    ensures Sound(initial, History(x, events))
  {
    hide Sound, Happen;
    if events == [] {
      OpeningIsSound(initial, x);
    } else {
      HistoryIsSound(initial, x, events[..|events| - 1]);
      HappenKeepsSound(initial, History(x, events[..|events| - 1]), events[|events| - 1]);
    }
  }

  /** The ledger rows that credit one comment. */
  ghost function Credits(t: Tables, user: nat, comment: nat): set<int>
    requires user != 0 && comment != 0
  {
    set i | 0 <= i < |t.ledger| && t.ledger[i].key == QualityId(user, comment).1
  }

  /** Over every schedule of deliveries, crashes, ambiguous publishes, fallbacks, marker
      expiries and lost commits, a comment is credited at most once, with exactly two
      points to its author, and exactly once as soon as any attempt has committed. */
  lemma CreditedOnce(initial: map<nat, nat>, x: World, events: seq<Event>, user: nat, comment: nat)
    requires Opening(initial, x) && user != 0 && comment != 0
    ensures var t := History(x, events).tables;
      && (forall i, j | i in Credits(t, user, comment) && j in Credits(t, user, comment) :: i == j)
      && (forall i | i in Credits(t, user, comment) ::
            t.ledger[i].user == user && t.ledger[i].change == QUALITY_INTERACTION_AWARD)
      && (QualityId(user, comment) in t.operations <==> Credits(t, user, comment) != {})
  {
    HistoryIsSound(initial, x, events);
    SoundCreditsOnce(initial, History(x, events), user, comment);
  }

  lemma SoundCreditsOnce(initial: map<nat, nat>, x: World, user: nat, comment: nat)
    requires Sound(initial, x) && user != 0 && comment != 0
    ensures var t := x.tables;
      && (forall i, j | i in Credits(t, user, comment) && j in Credits(t, user, comment) :: i == j)
      && (forall i | i in Credits(t, user, comment) ::
            t.ledger[i].user == user && t.ledger[i].change == QUALITY_INTERACTION_AWARD)
      && (QualityId(user, comment) in t.operations <==> Credits(t, user, comment) != {})
  {
    var t, id := x.tables, QualityId(user, comment);
    forall i | i in Credits(t, user, comment)
      ensures t.ledger[i].user == user && t.ledger[i].change == QUALITY_INTERACTION_AWARD && id in t.operations
    {
      CreditIsTheAwards(t, user, comment, i);
    }
    if id in t.operations {
      var i :| EntryFor(t.ledger, id, i);
      assert i in Credits(t, user, comment);
    }
  }

  lemma CreditIsTheAwards(t: Tables, user: nat, comment: nat, i: int)
    requires Linked(t.operations, t.ledger) && KeysAreService(t) && AmountsFixed(t)
    requires user != 0 && comment != 0 && i in Credits(t, user, comment)
    ensures t.ledger[i].user == user && t.ledger[i].change == QUALITY_INTERACTION_AWARD
    ensures QualityId(user, comment) in t.operations
  {
    var e, parts := t.ledger[i], KeyParts(AwardQuality(user, comment));
    assert (e.user, e.key) in t.operations;
    assert IsServiceKey(e.user, e.key);
    var kind, argument :| e.key == OperationKey(kind, e.user, argument);
    OperationKeyInjective(kind, e.user, argument, parts.0, user, parts.1);
    assert AmountFits(kind, argument, t.operations[(e.user, e.key)].change);
  }

  /** No credit is lost: a comment reported as created has been credited exactly once,
      or its job is still queued, held by a worker or dead-lettered. */
  lemma AcceptedIsCreditedOrPending(initial: map<nat, nat>, x: World, events: seq<Event>, a: Accepted)
    requires Opening(initial, x) && a in History(x, events).accepted && a.user != 0 && a.comment != 0
    ensures var y := History(x, events);
      || Credits(y.tables, a.user, a.comment) != {}
      || InReady(y.sys, a.job) || IsHeld(y.sys, a.job) || InDead(y.sys, a.job)
  {
    HistoryIsSound(initial, x, events);
    CreditedOnce(initial, x, events, a.user, a.comment);
    hide Honest, ServiceLaws, AmountsFixed, Credits, Plan, InReady, IsHeld, InDead, History;
    var y := History(x, events);
    assert Tracked(y, a);
    assert a.job in y.sys.log.entered ==> Safe(y.sys, a.job);
  }

  lemma {:induction false} HistoryConcat(x: World, a: seq<Event>, b: seq<Event>)
    ensures History(x, a + b) == History(History(x, a), b)
  {
    hide Happen;
    if b == [] {
      assert a + b == a;
    } else {
      HistoryConcat(x, a, b[..|b| - 1]);
      assert (a + b)[..|a + b| - 1] == a + b[..|b| - 1];
    }
  }

  lemma HappenKeepsOperations(x: World, e: Event)
    ensures x.tables.operations.Keys <= Happen(x, e).tables.operations.Keys
  {
    hide Do, Serve, Plan, FreshId, CommentJob, Succeeds;
    match e
    case Execute(w, award, _) =>
      if RunsCommentJob(x.sys, w) {
        var b := PhaseOf(x.sys, w).msg.body;
        SettledKeepsOperations(x.tables, AwardQuality(AuthorOf(b), CommentOf(b)), award);
      }
    case Serve1(call, award) => SettledKeepsOperations(x.tables, call, award);
    case Post(user, _, comment, _, _, award, _) =>
      SettledKeepsOperations(x.tables, AwardQuality(user, comment), award);
    case _ =>
  }

  lemma {:induction false} HistoryKeepsOperations(x: World, events: seq<Event>)
    ensures x.tables.operations.Keys <= History(x, events).tables.operations.Keys
  {
    hide Happen;
    if events != [] {
      HistoryKeepsOperations(x, events[..|events| - 1]);
      HappenKeepsOperations(History(x, events[..|events| - 1]), events[|events| - 1]);
    }
  }

  /** The event commits an award transaction of this comment, whether or not its caller
      learns of it: in a worker's execution of its job, in the fallback of a failed
      publish, or in a call of its own. */
  predicate Commits(x: World, e: Event, user: nat, comment: nat) {
    && Serve(x.tables, AwardQuality(user, comment)).1.Done?
    && match e
       case Execute(w, award, _) =>
         && !award.Aborted? && RunsCommentJob(x.sys, w)
         && AuthorOf(PhaseOf(x.sys, w).msg.body) == user && CommentOf(PhaseOf(x.sys, w).msg.body) == comment
       case Serve1(call, award) => !award.Aborted? && call == AwardQuality(user, comment)
       case Post(u, article, c, id, publish, award, _) =>
         && !award.Aborted? && u == user && c == comment && publish != Fine
         && id != "" && FreshId(x.sys, CommentJob(id, u, article, c))
       case Wire(_) => false
  }

  lemma CommitIsRecorded(x: World, e: Event, user: nat, comment: nat)
    requires user != 0 && comment != 0 && Commits(x, e, user, comment)
    ensures QualityId(user, comment) in Happen(x, e).tables.operations
  {
    var call := AwardQuality(user, comment);
    assert Happen(x, e).tables == Serve(x.tables, call).0 by {
      hide Serve, Do, CommentJob, FreshId, Succeeds;
    }
    hide Happen;
    assert QualityId(user, comment) in Serve(x.tables, call).0.operations;
  }

  /** As soon as any attempt's award transaction has committed, known to its caller or
      not, the comment is credited exactly once, and stays so through everything that
      follows. */
  lemma CommittedStaysCredited(initial: map<nat, nat>, x: World, before: seq<Event>, e: Event, later: seq<Event>,
                               user: nat, comment: nat)
    requires Opening(initial, x) && user != 0 && comment != 0
    requires Commits(History(x, before), e, user, comment)
    ensures |Credits(History(x, before + [e] + later).tables, user, comment)| == 1
  {
    CommitIsRecorded(History(x, before), e, user, comment);
    assert (before + [e])[..|before|] == before;
    var mid := History(x, before + [e]);
    assert mid == Happen(History(x, before), e);
    hide Happen, History, Opening, Credits, Plan, Commits;
    HistoryConcat(x, before + [e], later);
    HistoryKeepsOperations(mid, later);
    CreditedOnce(initial, x, before + [e] + later, user, comment);
    OneElement(Credits(History(x, before + [e] + later).tables, user, comment));
  }

  lemma OneElement<T>(s: set<T>)
    requires s != {}
    requires forall i, j | i in s && j in s :: i == j
    ensures |s| == 1
  {
    var i :| i in s;
    assert s == {i};
  }

  // ----- what an execution and a post come to -----

  /** The award as its caller sees it: nothing to award, or a committed award whose author
      exists; an answer that got lost, or an abort, is an error. */
  ghost predicate AwardSeen(t: Tables, user: nat, comment: nat, award: Award) {
    award == Committed && (user == 0 || comment == 0 || Serve(t, AwardQuality(user, comment)).1.Done?)
  }

  lemma SeenIsSuccess(t: Tables, user: nat, comment: nat, award: Award)
    ensures Succeeds(t, AwardQuality(user, comment), award) <==> AwardSeen(t, user, comment, award)
  {
    var answer := Serve(t, AwardQuality(user, comment)).1;
    assert user == 0 || comment == 0 ==> answer.Skipped?;
    assert user != 0 && comment != 0 ==> !answer.Skipped?;
  }

  /** Either error fails the job: after an execution the worker has handled its job exactly
      when the award was seen to commit (or there was nothing to award) and the heat was
      recorded; otherwise the job counts as failed, to be retried. */
  lemma ExecuteOutcome(x: World, w: int, award: Award, heatOk: bool)
    requires RunsCommentJob(x.sys, w)
    ensures var b := PhaseOf(x.sys, w).msg.body;
            var x' := Happen(x, Execute(w, award, heatOk));
            var good := AwardSeen(x.tables, AuthorOf(b), CommentOf(b), award) && heatOk;
      && PhaseOf(x'.sys, w) == (if good then Handled(PhaseOf(x.sys, w).msg, PhaseOf(x.sys, w).until)
                                else WorkerProtocol.Failed(PhaseOf(x.sys, w).msg, PhaseOf(x.sys, w).until))
      && x'.sys.log.successes == x.sys.log.successes + (if good then multiset{b} else multiset{})
      && x'.sys.log.failures == x.sys.log.failures + (if good then multiset{} else multiset{b})
  {
    var b := PhaseOf(x.sys, w).msg.body;
    SeenIsSuccess(x.tables, AuthorOf(b), CommentOf(b), award);
    hide Serve, Succeeds, AwardSeen, Settled, CommentJob, FreshId;
  }

  /** A comment is reported as created after a confirmed publish, whatever else; after a
      publish error, exactly when the award was seen to commit and the heat was recorded. */
  lemma PostOutcome(x: World, user: nat, article: nat, comment: nat, id: string, publish: Fault, award: Award,
                    heatOk: bool)
    requires id != "" && FreshId(x.sys, CommentJob(id, user, article, comment))
    ensures var a := Accepted(user, comment, CommentJob(id, user, article, comment));
            var x' := Happen(x, Post(user, article, comment, id, publish, award, heatOk));
      && (publish == Fine ==> x'.accepted == x.accepted + {a} && x'.tables == x.tables)
      && (publish != Fine ==>
            x'.accepted == if AwardSeen(x.tables, user, comment, award) && heatOk then x.accepted + {a} else x.accepted)
      && (CommentJob(id, user, article, comment) in x'.sys.log.entered <==> publish == Fine || publish == Lost(true))
  {
    SeenIsSuccess(x.tables, user, comment, award);
    var job := CommentJob(id, user, article, comment);
    assert job !in x.sys.log.entered;
    hide Serve, Succeeds, AwardSeen, Settled, CommentJob;
  }

  /** The comment jobs that some worker ran through award and heat in a run. */
  ghost function Heated(x: World, events: seq<Event>): set<Body> {
    if events == [] then {}
    else
      var init, last := events[..|events| - 1], events[|events| - 1];
      var mid := History(x, init);
      Heated(x, init) + HeatedBy(mid, last)
  }

  ghost function HeatedBy(x: World, e: Event): set<Body> {
    if e.Execute? && e.heatOk && e.award == Committed && RunsCommentJob(x.sys, e.w) then {PhaseOf(x.sys, e.w).msg.body}
    else {}
  }

  lemma SuccessIsHeated(x: World, e: Event)
    ensures forall b | b in Happen(x, e).sys.log.successes && IsCommentJob(b) ::
              b in x.sys.log.successes || b in HeatedBy(x, e)
  {
    match e
    case Execute(w, award, heatOk) =>
      if RunsCommentJob(x.sys, w) {
        ExecuteOutcome(x, w, award, heatOk);
        hide Happen, Serve;
      }
    case Wire(step) =>
      SuccessesComeFromHandle(x.sys, step);
    case Serve1(_, _) =>
    case Post(user, article, comment, id, publish, _, _) =>
      SuccessesComeFromHandle(x.sys, Publish(CommentJob(id, user, article, comment), publish));
      hide Serve, Settled, Succeeds, Do, CommentJob, FreshId;
  }

  /** Over all histories, every comment job that counts as executed had an execution whose
      award committed and whose heat was recorded. */
  lemma {:induction false} SuccessesAreHeated(initial: map<nat, nat>, x: World, events: seq<Event>)
    requires Opening(initial, x)
    ensures forall b | b in History(x, events).sys.log.successes && IsCommentJob(b) :: b in Heated(x, events)
  {
    if events != [] {
      var init, last := events[..|events| - 1], events[|events| - 1];
      SuccessesAreHeated(initial, x, init);
      hide Happen, HeatedBy, Opening;
      SuccessIsHeated(History(x, init), last);
    }
  }
}
