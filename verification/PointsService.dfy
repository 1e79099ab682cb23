/** The points service: which operation, amount and key each call stands for. */
module PointsService {
  import opened Common
  import opened Text
  import opened PointsTables
  import opened PointsRepo

  const DAILY_CHECK_IN_AWARD: nat := 5
  const PUBLISH_RESOURCE_AWARD: nat := 10
  const QUALITY_INTERACTION_AWARD: nat := 2
  const DAILY_CHECK_IN_TEXT := "daily check-in reward"

  function PublishNote(article: nat): Note {
    Note("publish_resource", "article", article, "publish resource reward")
  }

  function QualityNote(comment: nat): Note {
    Note("quality_interaction", "comment", comment, "quality interaction reward")
  }

  function PrivilegeCost(name: string): Option<nat> {
    if name == "feature_article" then Some(30)
    else if name == "priority_publish" then Some(50)
    else None
  }

  datatype Kind = CheckInKind | PublishKind | QualityKind | UnlockKind | RedeemKind

  function KindName(kind: Kind): string {
    match kind
    case CheckInKind => "check_in"
    case PublishKind => "publish_resource"
    case QualityKind => "quality_interaction"
    case UnlockKind => "unlock_paid_resource"
    case RedeemKind => "redeem_privilege"
  }

  /** The common shape of the five key formats: kind, user and argument. */
  function OperationKey(kind: Kind, user: nat, argument: string): string {
    KindName(kind) + [':'] + (Decimal(user) + [':'] + argument)
  }

  /** A published article as FindArticleByID selects it. */
  datatype Article = Article(id: nat, author: nat, isFree: bool, requiredPoints: nat)

  /** One service call; an unlock carries the published article its lookup found. */
  datatype Call =
    | CheckIn(user: nat, date: string)
    | AwardPublish(user: nat, article: nat)
    | AwardQuality(user: nat, comment: nat)
    | Unlock(user: nat, found: Option<Article>)
    | Redeem(user: nat, name: string)

  datatype Answer =
    | Done(balance: nat)
    | Accessible(balance: nat)
    | Skipped
    | UserNotFound
    | ArticleNotFound
    | PrivilegeNotFound
    | Refused(reply: Reply)

  predicate AccessibleTo(article: Article, user: nat) {
    article.isFree || article.requiredPoints == 0 || article.author == user
  }

  /** The repository operation a call stands for, if it reaches the repository. */
  function Plan(call: Call): (op: Option<Op>)
    ensures op.Some? ==> op.value.WellFormed() && op.value.user == call.user && op.value.change != 0
  {
    match call
    case CheckIn(user, date) =>
      Some(CheckInOp(user, date, DAILY_CHECK_IN_AWARD, DAILY_CHECK_IN_TEXT,
                     OperationKey(CheckInKind, user, date)))
    case AwardPublish(user, article) =>
      if user == 0 || article == 0 then None
      else Some(AwardOp(user, PUBLISH_RESOURCE_AWARD,
                        PublishNote(article),
                        OperationKey(PublishKind, user, Decimal(article))))
    case AwardQuality(user, comment) =>
      if user == 0 || comment == 0 then None
      else Some(AwardOp(user, QUALITY_INTERACTION_AWARD,
                        QualityNote(comment),
                        OperationKey(QualityKind, user, Decimal(comment))))
    case Unlock(user, found) =>
      if found.None? || AccessibleTo(found.value, user) then None
      else Some(UnlockOp(user, found.value.id, found.value.requiredPoints,
                         OperationKey(UnlockKind, user, Decimal(found.value.id))))
    case Redeem(user, name) =>
      if PrivilegeCost(name).None? then None
      else Some(RedeemOp(user, name, PrivilegeCost(name).value, OperationKey(RedeemKind, user, name)))
  }

  function AnswerTo(call: Call, reply: Reply): Answer {
    match reply
    case Balance(points) => Done(points)
    case RecordMissing => if call.CheckIn? then UserNotFound else Refused(reply)
    case _ => Refused(reply)
  }

  /** The answer of a call that never reaches the repository. */
  function ShortAnswer(t: Tables, call: Call): Answer
    requires Plan(call).None?
  {
    match call
    case Unlock(user, found) =>
      if found.None? then ArticleNotFound
      else if user in t.points then Accessible(t.points[user])
      else Refused(RecordMissing)
    case Redeem(_, _) => PrivilegeNotFound
    case _ => Skipped
  }

  /** One whole call as an atomic step. */
  function Serve(t: Tables, call: Call): (Tables, Answer) {
    match Plan(call)
    case None => (t, ShortAnswer(t, call))
    case Some(op) => var (t', reply) := Apply(t, op); (t', AnswerTo(call, reply))
  }

  /** What a caller sees: the atomic step, or a database error that changed nothing. */
  ghost predicate Served(before: Tables, call: Call, fault: Statement, after: Tables, answer: Answer) {
    || (after, answer) == Serve(before, call)
    || (fault != NoStatement && answer == Refused(DbFault) && after == before)
  }

  class Service {
    const repo: Repo
    var articles: map<nat, Article>

    constructor (repo: Repo, articles: map<nat, Article>)
      ensures this.repo == repo && this.articles == articles
    {
      this.repo := repo;
      this.articles := articles;
    }

    method DailyCheckIn(user: nat, today: string, fault: Statement, evicted: bool) returns (answer: Answer)
      modifies repo
      ensures Served(old(repo.State()), CheckIn(user, today), fault, repo.State(), answer)
      ensures old(repo.SummariesFresh()) ==> repo.SummariesFresh()
    {
      var key := OperationKey(CheckInKind, user, today);
      var reply := repo.CreateCheckInAndAwardWithKey(user, today, DAILY_CHECK_IN_AWARD, DAILY_CHECK_IN_TEXT, key,
                                                     fault, evicted);
      if reply == RecordMissing {
        return UserNotFound;
      }
      answer := if reply.Balance? then Done(reply.points) else Refused(reply);
    }

    method AwardPublishResource(user: nat, article: nat, fault: Statement, evicted: bool) returns (answer: Answer)
      modifies repo
      ensures Served(old(repo.State()), AwardPublish(user, article), fault, repo.State(), answer)
      ensures old(repo.SummariesFresh()) ==> repo.SummariesFresh()
    {
      if user == 0 || article == 0 {
        return Skipped;
      }
      var key := OperationKey(PublishKind, user, Decimal(article));
      var reply := repo.AwardPointsWithKey(user, PUBLISH_RESOURCE_AWARD, PublishNote(article), key, fault, evicted);
      answer := if reply.Balance? then Done(reply.points) else Refused(reply);
    }

    method AwardQualityInteraction(user: nat, comment: nat, fault: Statement, evicted: bool) returns (answer: Answer)
      modifies repo
      ensures Served(old(repo.State()), AwardQuality(user, comment), fault, repo.State(), answer)
      ensures old(repo.SummariesFresh()) ==> repo.SummariesFresh()
    {
      if user == 0 || comment == 0 {
        return Skipped;
      }
      var key := OperationKey(QualityKind, user, Decimal(comment));
      var reply := repo.AwardPointsWithKey(user, QUALITY_INTERACTION_AWARD, QualityNote(comment), key, fault, evicted);
      answer := if reply.Balance? then Done(reply.points) else Refused(reply);
    }

    /** articleId is None when the path segment is not a number. */
    method UnlockArticle(user: nat, articleId: Option<nat>, fault: Statement, evicted: bool) returns (answer: Answer)
      modifies repo
      ensures var known := articleId.Some? && articleId.value in articles;
              var found := if known then Some(articles[articleId.value]) else None;
        Served(old(repo.State()), Unlock(user, found), fault, repo.State(), answer)
      ensures old(repo.SummariesFresh()) ==> repo.SummariesFresh()
    {
      if articleId.None? {
        return ArticleNotFound;
      }
      if fault == SelectArticle {
        return Refused(DbFault);
      }
      if articleId.value !in articles {
        return ArticleNotFound;
      }
      var article := articles[articleId.value];
      if article.isFree || article.requiredPoints == 0 || article.author == user {
        if fault == SelectUser {
          return Refused(DbFault);
        }
        if user !in repo.points {
          return Refused(RecordMissing);
        }
        return Accessible(repo.points[user]);
      }
      var key := OperationKey(UnlockKind, user, Decimal(article.id));
      var reply := repo.UnlockArticleWithKey(user, article.id, article.requiredPoints, key, fault, evicted);
      answer := if reply.Balance? then Done(reply.points) else Refused(reply);
    }

    method RedeemPrivilege(user: nat, name: string, fault: Statement, evicted: bool) returns (answer: Answer)
      modifies repo
      ensures Served(old(repo.State()), Redeem(user, name), fault, repo.State(), answer)
      ensures old(repo.SummariesFresh()) ==> repo.SummariesFresh()
    {
      var cost := PrivilegeCost(name);
      if cost.None? {
        return PrivilegeNotFound;
      }
      var key := OperationKey(RedeemKind, user, name);
      var reply := repo.RedeemPrivilegeWithKey(user, name, cost.value, key, fault, evicted);
      answer := if reply.Balance? then Done(reply.points) else Refused(reply);
    }
  }

  // ----- keys -----

  /** The five key formats are injective over kind, user and argument. */
  lemma OperationKeyInjective(k1: Kind, u1: nat, a1: string, k2: Kind, u2: nat, a2: string)
    requires OperationKey(k1, u1, a1) == OperationKey(k2, u2, a2)
    ensures k1 == k2 && u1 == u2 && a1 == a2
  {
    SplitFirst(KindName(k1), KindName(k2), ':', Decimal(u1) + [':'] + a1, Decimal(u2) + [':'] + a2);
    assert k1 == k2 by {
      var n1, n2 := KindName(k1), KindName(k2);
      assert n1[0] == n2[0];
    }
    SplitFirst(Decimal(u1), Decimal(u2), ':', a1, a2);
    DecimalInjective(u1, u2);
  }

  /** The argument a side row's key is built from. */
  function SideArgument(side: Side): (Kind, string)
    requires !side.NoSide?
  {
    match side
    case CheckInRow(date) => (CheckInKind, date)
    case UnlockRow(article) => (UnlockKind, Decimal(article))
    case PrivilegeRow(name) => (RedeemKind, name)
  }

  function SideKey(user: nat, side: Side): string
    requires !side.NoSide?
  {
    OperationKey(SideArgument(side).0, user, SideArgument(side).1)
  }

  predicate SideIn(t: Tables, user: nat, side: Side)
    requires !side.NoSide?
  {
    SideTaken(t, Op(user, "", 0, side, Note("", "", 0, "")))
  }

  /** A side row exists exactly when its operation row does. */
  ghost predicate SidesMatch(t: Tables) {
    forall user: nat, side: Side {:trigger SideKey(user, side)} | !side.NoSide? ::
      SideIn(t, user, side) <==> (user, SideKey(user, side)) in t.operations
  }

  ghost predicate IsServiceKey(user: nat, key: string) {
    exists kind, argument :: key == OperationKey(kind, user, argument)
  }

  ghost predicate KeysAreService(t: Tables) {
    forall id | id in t.operations :: IsServiceKey(id.0, id.1)
  }

  /** What every state reached through the service satisfies. */
  ghost predicate ServiceLaws(initial: map<nat, nat>, t: Tables) {
    LedgerLaws(initial, t) && SidesMatch(t) && KeysAreService(t)
  }

  lemma SideKeyInjective(u1: nat, s1: Side, u2: nat, s2: Side)
    requires !s1.NoSide? && !s2.NoSide? && SideKey(u1, s1) == SideKey(u2, s2)
    ensures u1 == u2 && s1 == s2
  {
    OperationKeyInjective(SideArgument(s1).0, u1, SideArgument(s1).1, SideArgument(s2).0, u2, SideArgument(s2).1);
    if s1.UnlockRow? {
      DecimalInjective(s1.article, s2.article);
    }
  }

  /** Through the service, a new key meets neither an existing side row nor a foreign
      ledger key: the only refusals left are a missing user and a short balance. */
  lemma FreshKeyMeetsNoDuplicate(initial: map<nat, nat>, t: Tables, call: Call)
    requires ServiceLaws(initial, t) && Plan(call).Some?
    requires var op := Plan(call).value; (op.user, op.key) !in t.operations
    ensures !SideTaken(t, Plan(call).value) && !KeyInLedger(t.ledger, Plan(call).value.key)
  {
    var op := Plan(call).value;
    var user := call.user;
    if !op.side.NoSide? {
      assert op.key == SideKey(user, op.side);
      assert SideIn(t, user, op.side) <==> SideTaken(t, op);
    }
    if KeyInLedger(t.ledger, op.key) {
      var i :| 0 <= i < |t.ledger| && t.ledger[i].key == op.key;
      var e := t.ledger[i];
      assert (e.user, e.key) in t.operations;
      assert IsServiceKey(e.user, e.key);
      var kind, argument :| e.key == OperationKey(kind, e.user, argument);
      PlanUsesServiceKey(call);
      var kind', argument' :| op.key == OperationKey(kind', op.user, argument');
      OperationKeyInjective(kind, e.user, argument, kind', op.user, argument');
      assert false;
    }
  }

  lemma PlanUsesServiceKey(call: Call)
    requires Plan(call).Some?
    ensures IsServiceKey(call.user, Plan(call).value.key)
  {
    var op := Plan(call).value;
    match call
    case CheckIn(user, date) => assert op.key == OperationKey(CheckInKind, user, date);
    case AwardPublish(user, article) => assert op.key == OperationKey(PublishKind, user, Decimal(article));
    case AwardQuality(user, comment) => assert op.key == OperationKey(QualityKind, user, Decimal(comment));
    case Unlock(user, found) => assert op.key == OperationKey(UnlockKind, user, Decimal(found.value.id));
    case Redeem(user, name) => assert op.key == OperationKey(RedeemKind, user, name);
  }

  lemma AwardKeyIsNoSideKey(call: Call, user: nat, side: Side)
    requires Plan(call).Some? && Plan(call).value.side.NoSide? && !side.NoSide?
    ensures Plan(call).value.key != SideKey(user, side)
  {
    var op := Plan(call).value;
    if op.key == SideKey(user, side) {
      var (kind, argument) := SideArgument(side);
      match call
      case AwardPublish(u, article) => OperationKeyInjective(PublishKind, u, Decimal(article), kind, user, argument);
      case AwardQuality(u, comment) => OperationKeyInjective(QualityKind, u, Decimal(comment), kind, user, argument);
    }
  }

  lemma ServeKeepsSides(t: Tables, call: Call)
    requires SidesMatch(t)
    ensures SidesMatch(Serve(t, call).0)
  {
    var t' := Serve(t, call).0;
    if t' != t {
      var op := Plan(call).value;
      forall user: nat, side: Side | !side.NoSide?
        ensures SideIn(t', user, side) <==> (user, SideKey(user, side)) in t'.operations
      {
        if op.side.NoSide? {
          AwardKeyIsNoSideKey(call, user, side);
        } else {
          assert op.key == SideKey(op.user, op.side);
          if SideKey(user, side) == op.key {
            SideKeyInjective(user, side, op.user, op.side);
          }
        }
      }
    }
  }

  /** Every service call, faulted or not, keeps all the laws. */
  lemma ServeKeepsLaws(initial: map<nat, nat>, t: Tables, call: Call)
    requires ServiceLaws(initial, t)
    ensures ServiceLaws(initial, Serve(t, call).0)
  {
    hide LedgerLaws, SidesMatch, IsServiceKey;
    if Plan(call).Some? {
      ApplyKeepsLedgerLaws(initial, t, Plan(call).value);
      ServeKeepsSides(t, call);
      PlanUsesServiceKey(call);
    }
  }

  /** The service's exact behaviour in every reachable state.  A known key replays its
      recorded balance; a new key is refused only for a missing user or a short
      balance, so the duplicate-row errors are unreachable through the service. */
  lemma ServeOutcome(initial: map<nat, nat>, t: Tables, call: Call)
    requires ServiceLaws(initial, t) && Plan(call).Some?
    ensures var op := Plan(call).value;
            var (t', answer) := Serve(t, call);
      if (op.user, op.key) in t.operations then
        t' == t && answer == Done(t.operations[(op.user, op.key)].balanceAfter)
      else if op.user !in t.points then
        t' == t && answer == if call.CheckIn? then UserNotFound else Refused(RecordMissing)
      else if t.points[op.user] + op.change < 0 then
        t' == t && answer == Refused(Insufficient)
      else
        && answer == Done(t.points[op.user] + op.change)
        && t'.points == t.points[op.user := t.points[op.user] + op.change]
        && t'.operations.Keys == t.operations.Keys + {(op.user, op.key)}
        && t'.ledger == t.ledger + [EntryOf(op, answer.balance)]
  {
    hide ServiceLaws, Plan;
    var op := Plan(call).value;
    if (op.user, op.key) !in t.operations {
      FreshKeyMeetsNoDuplicate(initial, t, call);
      FreshOutcome(t, op);
    }
  }

  /** The change a key stands for, whoever made the call (an unlock's price is the
      article's). */
  function FixedChange(kind: Kind, argument: string): Option<int> {
    match kind
    case CheckInKind => Some(DAILY_CHECK_IN_AWARD)
    case PublishKind => Some(PUBLISH_RESOURCE_AWARD)
    case QualityKind => Some(QUALITY_INTERACTION_AWARD)
    case UnlockKind => None
    case RedeemKind => match PrivilegeCost(argument) case None => None case Some(cost) => Some(-(cost as int))
  }

  predicate AmountFits(kind: Kind, argument: string, change: int) {
    FixedChange(kind, argument).Some? ==> change == FixedChange(kind, argument).value
  }

  /** Every recorded operation moved exactly what its key stands for. */
  ghost predicate AmountsFixed(t: Tables) {
    forall id, kind, argument | id in t.operations && id.1 == OperationKey(kind, id.0, argument) ::
      AmountFits(kind, argument, t.operations[id].change)
  }

  function KeyParts(call: Call): (parts: (Kind, string))
    requires Plan(call).Some?
    ensures Plan(call).value.key == OperationKey(parts.0, call.user, parts.1)
  {
    match call
    case CheckIn(_, date) => (CheckInKind, date)
    case AwardPublish(_, article) => (PublishKind, Decimal(article))
    case AwardQuality(_, comment) => (QualityKind, Decimal(comment))
    case Unlock(_, found) => (UnlockKind, Decimal(found.value.id))
    case Redeem(_, name) => (RedeemKind, name)
  }

  lemma PlanAmountFits(call: Call)
    requires Plan(call).Some?
    ensures AmountFits(KeyParts(call).0, KeyParts(call).1, Plan(call).value.change)
  {
    hide OperationKey;
  }

  lemma ServeKeepsAmounts(t: Tables, call: Call)
    requires AmountsFixed(t)
    ensures AmountsFixed(Serve(t, call).0)
  {
    var t' := Serve(t, call).0;
    if t' != t {
      hide AmountFits, Plan, OperationKey;
      var op, parts := Plan(call).value, KeyParts(call);
      forall id, kind, argument | id in t'.operations && id.1 == OperationKey(kind, id.0, argument)
        ensures AmountFits(kind, argument, t'.operations[id].change)
      {
        if id == (op.user, op.key) {
          OperationKeyInjective(kind, id.0, argument, parts.0, call.user, parts.1);
          PlanAmountFits(call);
        }
      }
    }
  }
}
