/** What the points calls come to, in the words of the source: amounts, notes, side rows,
    who pays and who does not, for every reachable state and over every run. */
module PointsMeaning {
  import opened Common
  import opened Text
  import opened PointsTables
  import opened PointsRepo
  import opened PointsService
  import opened PointsRuns

  /** The call stands for this keyed operation: a known key answers its recorded balance and
      changes nothing, a missing user or a short balance is refused and changes nothing, and
      otherwise balance, operation, ledger entry and side row are written, nothing else. */
  ghost predicate Posts(t: Tables, op: Op, missing: Answer, t': Tables, answer: Answer)
    requires op.WellFormed()
  {
    var id := (op.user, op.key);
    if id in t.operations then
      t' == t && answer == Done(t.operations[id].balanceAfter)
    else if op.user !in t.points then
      t' == t && answer == missing
    else if t.points[op.user] + op.change < 0 then
      t' == t && answer == Refused(Insufficient)
    else
      var balance: nat := t.points[op.user] + op.change;
      && answer == Done(balance)
      && t'.points == t.points[op.user := balance]
      && t'.operations == t.operations[id := Operation(op.change, balance)]
      && t'.ledger == t.ledger + [Entry(op.user, op.key, op.change, balance,
                                        if op.change > 0 then Income else Outgoing, op.note)]
      && t'.checkIns == t.checkIns + (if op.side.CheckInRow? then {(op.user, op.side.date)} else {})
      && t'.unlocks == t.unlocks + (if op.side.UnlockRow? then {(op.side.article, op.user)} else {})
      && t'.privileges == if op.side.PrivilegeRow? then t.privileges[(op.user, op.side.name) := -op.change]
                          else t.privileges
  }

  lemma FreshPosts(t: Tables, op: Op)
    requires op.WellFormed() && op.change != 0 && (op.user, op.key) !in t.operations
    requires !SideTaken(t, op) && !KeyInLedger(t.ledger, op.key)
    requires op.user in t.points && t.points[op.user] + op.change >= 0
    ensures Apply(t, op) == (Post(t, op, t.points[op.user] + op.change), Balance(t.points[op.user] + op.change))
  {
    hide KeyInLedger, SideTaken;
  }

  lemma PostMeans(t: Tables, op: Op, missing: Answer, balance: nat)
    requires op.WellFormed() && op.change != 0 && (op.user, op.key) !in t.operations
    requires op.user in t.points && balance == t.points[op.user] + op.change
    ensures Posts(t, op, missing, Post(t, op, balance), Done(balance))
  {
  }

  lemma UnpostedMeans(t: Tables, op: Op, missing: Answer, answer: Answer)
    requires op.WellFormed()
    requires if (op.user, op.key) in t.operations then answer == Done(t.operations[(op.user, op.key)].balanceAfter)
             else if op.user !in t.points then answer == missing
             else t.points[op.user] + op.change < 0 && answer == Refused(Insufficient)
    ensures Posts(t, op, missing, t, answer)
  {
  }

  lemma PlannedPosts(initial: map<nat, nat>, t: Tables, call: Call)
    requires ServiceLaws(initial, t) && Plan(call).Some?
    ensures Posts(t, Plan(call).value, if call.CheckIn? then UserNotFound else Refused(RecordMissing),
                  Serve(t, call).0, Serve(t, call).1)
  {
    var op, missing := Plan(call).value, if call.CheckIn? then UserNotFound else Refused(RecordMissing);
    hide ServiceLaws, Plan, Posts, Post, Apply;
    ServeOutcome(initial, t, call);
    if (op.user, op.key) !in t.operations && op.user in t.points && t.points[op.user] + op.change >= 0 {
      FreshKeyMeetsNoDuplicate(initial, t, call);
      FreshPosts(t, op);
      PostMeans(t, op, missing, t.points[op.user] + op.change);
    } else {
      UnpostedMeans(t, op, missing, Serve(t, call).1);
    }
  }

  /** Every call of the service, in every lawful state: a check-in posts 5 points once a day,
      a published article 10, a comment 2 (nothing for id 0); an unlock charges exactly the
      price of the article, but nothing at all if it is free, has no price or is the user's
      own; the two privileges cost 30 and 50 points, and others do not exist. */
  lemma CallsMean(initial: map<nat, nat>, t: Tables, call: Call)
    requires ServiceLaws(initial, t)
    ensures var (t', answer) := Serve(t, call);
      match call
      case CheckIn(user, date) =>
        Posts(t, Op(user, OperationKey(CheckInKind, user, date), 5, CheckInRow(date), CheckInNote(DAILY_CHECK_IN_TEXT)),
              UserNotFound, t', answer)
      case AwardPublish(user, article) =>
        if user == 0 || article == 0 then t' == t && answer == Skipped
        else Posts(t, Op(user, OperationKey(PublishKind, user, Decimal(article)), 10, NoSide, PublishNote(article)),
                   Refused(RecordMissing), t', answer)
      case AwardQuality(user, comment) =>
        if user == 0 || comment == 0 then t' == t && answer == Skipped
        else Posts(t, Op(user, OperationKey(QualityKind, user, Decimal(comment)), 2, NoSide, QualityNote(comment)),
                   Refused(RecordMissing), t', answer)
      case Unlock(user, None) => t' == t && answer == ArticleNotFound
      case Unlock(user, Some(a)) =>
        if a.isFree || a.requiredPoints == 0 || a.author == user then
          t' == t && answer == if user in t.points then Accessible(t.points[user]) else Refused(RecordMissing)
        else
          Posts(t, Op(user, OperationKey(UnlockKind, user, Decimal(a.id)), -(a.requiredPoints as int),
                      UnlockRow(a.id), UnlockNote(a.id)), Refused(RecordMissing), t', answer)
      case Redeem(user, name) =>
        if name != "feature_article" && name != "priority_publish" then t' == t && answer == PrivilegeNotFound
        else Posts(t, Op(user, OperationKey(RedeemKind, user, name), if name == "feature_article" then -30 else -50,
                         PrivilegeRow(name), RedeemNote(name)), Refused(RecordMissing), t', answer)
  {
    hide ServiceLaws, OperationKey, Decimal, Posts, Apply;
    hide CheckInNote, UnlockNote, RedeemNote, PublishNote, QualityNote;
    if Plan(call).Some? {
      PlannedPosts(initial, t, call);
    }
  }

  // ---------------------------------------------------------------- who has unlocked what

  /** The attempt is a completed unlock of an article that is for sale to this user. */
  predicate BuysFor(attempt: Attempt, article: nat, user: nat) {
    && !attempt.faulted && attempt.call.Unlock? && attempt.call.user == user && attempt.call.found.Some?
    && attempt.call.found.value.id == article && attempt.call.found.value.author != user
    && !attempt.call.found.value.isFree && attempt.call.found.value.requiredPoints > 0
  }

  lemma NewUnlockIsBought(initial: map<nat, nat>, t: Tables, call: Call, row: (nat, nat))
    requires ServiceLaws(initial, t) && row in Serve(t, call).0.unlocks && row !in t.unlocks
    ensures BuysFor(Attempt(call, false), row.0, row.1)
  {
    hide ServiceLaws, Serve, OperationKey, Decimal, CheckInNote, UnlockNote, RedeemNote, PublishNote, QualityNote;
    CallsMean(initial, t, call);
  }

  /** Over all runs from empty tables, every unlock row was bought: some completed call of
      that user unlocked that article while it was neither free nor the user's own. */
  lemma {:induction false} UnlocksAreBought(initial: map<nat, nat>, attempts: seq<Attempt>)
    ensures forall row | row in Run(Empty(initial), attempts).unlocks ::
              exists attempt | attempt in attempts :: BuysFor(attempt, row.0, row.1)
  {
    if attempts != [] {
      var init, last := attempts[..|attempts| - 1], attempts[|attempts| - 1];
      UnlocksAreBought(initial, init);
      EmptyIsLawful(initial);
      RunKeepsLaws(initial, Empty(initial), init);
      hide ServiceLaws, Serve, Empty;
      var t := Run(Empty(initial), init);
      forall row | row in Run(Empty(initial), attempts).unlocks
        ensures exists attempt | attempt in attempts :: BuysFor(attempt, row.0, row.1)
      {
        if row in t.unlocks {
          var attempt :| attempt in init && BuysFor(attempt, row.0, row.1);
          assert attempt in attempts;
        } else {
          NewUnlockIsBought(initial, t, last.call, row);
          assert last in attempts && BuysFor(last, row.0, row.1);
        }
      }
    }
  }

  /** So no author ever pays for an own article. */
  lemma AuthorsNeverPay(initial: map<nat, nat>, attempts: seq<Attempt>, article: nat, author: nat)
    requires forall attempt | attempt in attempts && attempt.call.Unlock? && attempt.call.found.Some? ::
               attempt.call.found.value.id == article ==> attempt.call.found.value.author == author
    ensures (article, author) !in Run(Empty(initial), attempts).unlocks
  {
    hide Run;
    UnlocksAreBought(initial, attempts);
  }

  // ---------------------------------------------------------------- what a summary shows

  /** Every privilege row carries the price of its privilege. */
  ghost predicate PrivilegesPriced(t: Tables) {
    forall id | id in t.privileges ::
      (id.1 == "feature_article" && t.privileges[id] == 30) || (id.1 == "priority_publish" && t.privileges[id] == 50)
  }

  lemma ServeKeepsPriced(initial: map<nat, nat>, t: Tables, call: Call)
    requires ServiceLaws(initial, t) && PrivilegesPriced(t)
    ensures PrivilegesPriced(Serve(t, call).0)
  {
    hide ServiceLaws, Serve, OperationKey, Decimal, CheckInNote, UnlockNote, RedeemNote, PublishNote, QualityNote;
    CallsMean(initial, t, call);
  }

  lemma {:induction false} RunKeepsPriced(initial: map<nat, nat>, attempts: seq<Attempt>)
    ensures PrivilegesPriced(Run(Empty(initial), attempts))
  {
    if attempts != [] {
      var init, last := attempts[..|attempts| - 1], attempts[|attempts| - 1];
      RunKeepsPriced(initial, init);
      EmptyIsLawful(initial);
      RunKeepsLaws(initial, Empty(initial), init);
      hide ServiceLaws, Serve, Empty, PrivilegesPriced;
      ServeKeepsPriced(initial, Run(Empty(initial), init), last.call);
    }
  }

  /** A summary shows the balance the ledger adds up to, and exactly the privileges whose
      redemption is recorded, at their prices. */
  lemma SummaryMeans(initial: map<nat, nat>, attempts: seq<Attempt>, user: nat)
    requires user in Run(Empty(initial), attempts).points
    ensures var t := Run(Empty(initial), attempts); var summary := SummaryOf(t, user);
      && user in initial && summary.balance == initial[user] + Total(t.ledger, user)
      && (forall name :: name in summary.privileges <==>
            (user, OperationKey(RedeemKind, user, name)) in t.operations)
      && (forall name | name in summary.privileges ::
            summary.privileges[name] == if name == "feature_article" then 30 else 50)
  {
    var t := Run(Empty(initial), attempts);
    EmptyIsLawful(initial);
    RunKeepsLaws(initial, Empty(initial), attempts);
    RunKeepsPriced(initial, attempts);
    hide Run, Empty, OperationKey;
    forall name
      ensures name in SummaryOf(t, user).privileges <==> (user, OperationKey(RedeemKind, user, name)) in t.operations
    {
      assert SideKey(user, PrivilegeRow(name)) == OperationKey(RedeemKind, user, name);
      assert SideIn(t, user, PrivilegeRow(name)) <==> (user, name) in t.privileges;
    }
  }
}
