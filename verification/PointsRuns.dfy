/** Laws of the points service over whole runs: any sequence of calls, with database
    faults and repeats at any position. */
module PointsRuns {
  import opened Common
  import M = Moves
  import opened Text
  import opened PointsTables
  import opened PointsService

  /** A call that completed, or one that a database fault turned into an error. */
  datatype Attempt = Attempt(call: Call, faulted: bool)

  function Step(t: Tables, attempt: Attempt): Tables {
    if attempt.faulted then t else Serve(t, attempt.call).0
  }

  function Run(t: Tables, attempts: seq<Attempt>): Tables {
    if attempts == [] then t
    else Step(Run(t, attempts[..|attempts| - 1]), attempts[|attempts| - 1])
  }

  function Empty(initial: map<nat, nat>): Tables {
    Tables(initial, map[], [], {}, {}, map[])
  }

  lemma EmptyIsLawful(initial: map<nat, nat>)
    ensures ServiceLaws(initial, Empty(initial))
  {
  }

  /** Every run keeps the ledger laws and the side-row laws. */
  lemma {:induction false} RunKeepsLaws(initial: map<nat, nat>, t: Tables, attempts: seq<Attempt>)
    requires ServiceLaws(initial, t)
    ensures ServiceLaws(initial, Run(t, attempts))
  {
    if attempts != [] {
      var before := attempts[..|attempts| - 1];
      RunKeepsLaws(initial, t, before);
      ServeKeepsLaws(initial, Run(t, before), attempts[|attempts| - 1].call);
    }
  }

  /** From empty tables, after any run of calls and faults, the ledger laws hold, a side row
      exists exactly when its operation row does, and no call of the service can ever be
      told that something is already unlocked, already redeemed or a duplicate. */
  lemma RunsFromEmpty(initial: map<nat, nat>, attempts: seq<Attempt>, call: Call)
    ensures ServiceLaws(initial, Run(Empty(initial), attempts))
    ensures var answer := Serve(Run(Empty(initial), attempts), call).1;
      answer.Refused? ==> answer.reply == RecordMissing || answer.reply == Insufficient
  {
    EmptyIsLawful(initial);
    RunKeepsLaws(initial, Empty(initial), attempts);
    hide ServiceLaws, Run, Plan;
    if Plan(call).Some? {
      ServeOutcome(initial, Run(Empty(initial), attempts), call);
    }
  }

  lemma {:induction false} RunConcat(t: Tables, a: seq<Attempt>, b: seq<Attempt>)
    ensures Run(t, a + b) == Run(Run(t, a), b)
  {
    if b == [] {
      assert a + b == a;
    } else {
      var init := b[..|b| - 1];
      RunConcat(t, a, init);
      assert (a + b)[..|a + b| - 1] == a + init;
    }
  }

  lemma {:induction false} RunKeepsOperations(t: Tables, attempts: seq<Attempt>)
    ensures forall id | id in t.operations ::
              id in Run(t, attempts).operations && Run(t, attempts).operations[id] == t.operations[id]
  {
    if attempts != [] {
      RunKeepsOperations(t, attempts[..|attempts| - 1]);
    }
  }

  ghost predicate Succeeds(t: Tables, call: Call) {
    Serve(t, call).1.Done?
  }

  /** Deleting any repeat of a call that already succeeded leaves the final state
      unchanged, whatever ran in between. */
  lemma RepeatIsInvisible(t: Tables, a: seq<Attempt>, call: Call, b: seq<Attempt>, d: seq<Attempt>)
    requires Succeeds(Run(t, a), call)
    ensures var once := [Attempt(call, false)];
            Run(t, a + once + b + once + d) == Run(t, a + once + b + d)
  {
    hide Plan;
    var once := [Attempt(call, false)];
    var mid := Run(t, a + once + b);
    RunConcat(t, a, once);
    assert once[..0] == [];
    assert Run(Run(t, a), once) == Serve(Run(t, a), call).0;
    RunConcat(t, a + once, b);
    RunKeepsOperations(Run(t, a + once), b);
    assert Serve(mid, call).0 == mid;
    RunConcat(t, a + once + b, once);
    assert Run(mid, once) == Step(Run(mid, []), once[0]);
    RunConcat(t, a + once + b + once, d);
    RunConcat(t, a + once + b, d);
  }

  // ----- the service refines the machine of keyed moves -----

  function Observe(t: Tables): M.Book {
    M.Book(t.points, t.operations.Keys)
  }

  function MoveOf(call: Call): M.Move
    requires Plan(call).Some?
  {
    M.Move(call.user, Plan(call).value.key, Plan(call).value.change)
  }

  /** In every lawful state a service call is one move: it posts exactly when the key
      is new, the user exists and the balance suffices. */
  lemma ServeRefinesPlay(initial: map<nat, nat>, t: Tables, call: Call)
    requires ServiceLaws(initial, t)
    ensures Plan(call).None? ==> Serve(t, call).0 == t
    ensures Plan(call).Some? ==> Observe(Serve(t, call).0) == M.Play(Observe(t), MoveOf(call))
    ensures Plan(call).Some? && MoveOf(call).Id() !in t.operations ==>
              (Serve(t, call).1.Done? <==> M.Posts(Observe(t), MoveOf(call)))
  {
    hide ServiceLaws, Plan;
    if Plan(call).Some? {
      ServeOutcome(initial, t, call);
    }
  }

  /** The moves of a run: its completed calls that reach the repository. */
  function MovesOf(attempts: seq<Attempt>): seq<M.Move> {
    if attempts == [] then [] else
      var before, last := attempts[..|attempts| - 1], attempts[|attempts| - 1];
      if last.faulted || Plan(last.call).None? then MovesOf(before) else MovesOf(before) + [MoveOf(last.call)]
  }

  lemma {:induction false} RunRefinesPlay(initial: map<nat, nat>, t: Tables, attempts: seq<Attempt>)
    requires ServiceLaws(initial, t)
    ensures Observe(Run(t, attempts)) == M.PlayAll(Observe(t), MovesOf(attempts))
  {
    hide ServiceLaws, Serve, Plan;
    if attempts != [] {
      var before, last := attempts[..|attempts| - 1], attempts[|attempts| - 1];
      RunRefinesPlay(initial, t, before);
      RunKeepsLaws(initial, t, before);
      if !last.faulted {
        ServeRefinesPlay(initial, Run(t, before), last.call);
        if Plan(last.call).Some? {
          assert MovesOf(attempts)[..|MovesOf(before)|] == MovesOf(before);
        }
      }
    }
  }

  // ----- confluence -----

  /** The calls that completed somewhere in a run. */
  ghost function Completed(attempts: seq<Attempt>): set<Call> {
    set a | a in attempts && !a.faulted :: a.call
  }

  /** Unlock calls of one article saw the same row: prices never change. */
  ghost predicate SamePrices(calls: set<Call>) {
    forall c1, c2 | c1 in calls && c2 in calls && c1.Unlock? && c2.Unlock? ::
      c1.found.Some? && c2.found.Some? && c1.found.value.id == c2.found.value.id ==> c1.found == c2.found
  }

  ghost function MoveSet(calls: set<Call>): set<M.Move> {
    set c | c in calls && Plan(c).Some? :: MoveOf(c)
  }

  /** Equal keys come from equal calls. */
  lemma SameKeySameCall(calls: set<Call>, c1: Call, c2: Call)
    requires SamePrices(calls) && c1 in calls && c2 in calls
    requires Plan(c1).Some? && Plan(c2).Some? && MoveOf(c1).Id() == MoveOf(c2).Id()
    ensures c1 == c2
  {
    var (k1, a1) := KeyParts(c1);
    var (k2, a2) := KeyParts(c2);
    OperationKeyInjective(k1, c1.user, a1, k2, c2.user, a2);
    match c1
    case AwardPublish(_, article) => DecimalInjective(article, c2.article);
    case AwardQuality(_, comment) => DecimalInjective(comment, c2.comment);
    case Unlock(_, found) => DecimalInjective(found.value.id, c2.found.value.id);
    case _ =>
  }

  lemma MoveSetIsFunctional(calls: set<Call>)
    requires SamePrices(calls)
    ensures M.Functional(MoveSet(calls))
  {
    forall m1, m2 | m1 in MoveSet(calls) && m2 in MoveSet(calls) && m1.Id() == m2.Id()
      ensures m1 == m2
    {
      var c1 :| c1 in calls && Plan(c1).Some? && MoveOf(c1) == m1;
      var c2 :| c2 in calls && Plan(c2).Some? && MoveOf(c2) == m2;
      SameKeySameCall(calls, c1, c2);
    }
  }

  lemma {:induction false} MovesAreTheMoveSet(attempts: seq<Attempt>)
    ensures M.SetOf(MovesOf(attempts)) == MoveSet(Completed(attempts))
  {
    if attempts == [] {
    } else {
      var before, last := attempts[..|attempts| - 1], attempts[|attempts| - 1];
      assert attempts == before + [last];
      MovesAreTheMoveSet(before);
      assert Completed(attempts) == Completed(before) + (if last.faulted then {} else {last.call});
      if last.faulted || Plan(last.call).None? {
        assert MoveSet(Completed(attempts)) == MoveSet(Completed(before));
      } else {
        assert MoveSet(Completed(attempts)) == MoveSet(Completed(before)) + {MoveOf(last.call)};
        assert M.SetOf(MovesOf(attempts)) == M.SetOf(MovesOf(before)) + {MoveOf(last.call)};
      }
    }
  }

  /** Two schedules that complete the same calls, in any order, with any repeats and
      any database faults in between, end with the same balances and the same sets of
      operations, check-ins, unlocks and privileges, provided the distinct new calls
      cost each user no more than the starting balance. */
  lemma SchedulesAreConfluent(initial: map<nat, nat>, t: Tables, a: seq<Attempt>, b: seq<Attempt>)
    requires ServiceLaws(initial, t)
    requires Completed(a) == Completed(b) && SamePrices(Completed(a))
    requires M.Affordable(Observe(t), MoveSet(Completed(a)))
    ensures Run(t, a).points == Run(t, b).points
    ensures Run(t, a).operations.Keys == Run(t, b).operations.Keys
    ensures Run(t, a).checkIns == Run(t, b).checkIns
    ensures Run(t, a).unlocks == Run(t, b).unlocks
    ensures Run(t, a).privileges.Keys == Run(t, b).privileges.Keys
  {
    hide LedgerLaws, KeysAreService, SamePrices;
    MoveSetIsFunctional(Completed(a));
    MovesAreTheMoveSet(a);
    MovesAreTheMoveSet(b);
    M.Confluent(Observe(t), MovesOf(a), MovesOf(b));
    RunRefinesPlay(initial, t, a);
    RunRefinesPlay(initial, t, b);
    RunKeepsLaws(initial, t, a);
    RunKeepsLaws(initial, t, b);
    SidesFollowOperations(Run(t, a), Run(t, b));
  }

  /** Where side rows match operations, the operation keys fix the side rows. */
  lemma SidesFollowOperations(t1: Tables, t2: Tables)
    requires SidesMatch(t1) && SidesMatch(t2) && t1.operations.Keys == t2.operations.Keys
    ensures t1.checkIns == t2.checkIns && t1.unlocks == t2.unlocks && t1.privileges.Keys == t2.privileges.Keys
  {
    forall user: nat, side: Side | !side.NoSide?
      ensures SideIn(t1, user, side) <==> SideIn(t2, user, side)
    {
      assert SideIn(t1, user, side) <==> (user, SideKey(user, side)) in t1.operations;
    }
    forall id
      ensures id in t1.checkIns <==> id in t2.checkIns
    {
      assert SideIn(t1, id.0, CheckInRow(id.1)) <==> id in t1.checkIns;
      assert SideIn(t2, id.0, CheckInRow(id.1)) <==> id in t2.checkIns;
    }
    forall id
      ensures id in t1.unlocks <==> id in t2.unlocks
    {
      assert SideIn(t1, id.1, UnlockRow(id.0)) <==> id in t1.unlocks;
      assert SideIn(t2, id.1, UnlockRow(id.0)) <==> id in t2.unlocks;
    }
    forall id
      ensures id in t1.privileges <==> id in t2.privileges
    {
      assert SideIn(t1, id.0, PrivilegeRow(id.1)) <==> id in t1.privileges;
      assert SideIn(t2, id.0, PrivilegeRow(id.1)) <==> id in t2.privileges;
    }
  }

  // ----- a burst of unlocks -----

  function UnlockCalls(user: nat, articles: seq<Article>): seq<Attempt> {
    if articles == [] then []
    else UnlockCalls(user, articles[..|articles| - 1]) + [Attempt(Unlock(user, Some(articles[|articles| - 1])), false)]
  }

  function UnlockId(user: nat, article: Article): (nat, string) {
    (user, OperationKey(UnlockKind, user, Decimal(article.id)))
  }

  /** Articles the user still has to pay for, all at one price. */
  ghost predicate ForSale(t: Tables, user: nat, articles: seq<Article>, price: nat) {
    forall a | a in articles ::
      a.requiredPoints == price && !AccessibleTo(a, user) && UnlockId(user, a) !in t.operations
  }

  ghost predicate DistinctIds(articles: seq<Article>) {
    forall i, j | 0 <= i < j < |articles| :: articles[i].id != articles[j].id
  }

  /** How many calls of a run answered with success. */
  function Successes(t: Tables, attempts: seq<Attempt>): nat {
    if attempts == [] then 0 else
      var before, last := attempts[..|attempts| - 1], attempts[|attempts| - 1];
      Successes(t, before) + (if !last.faulted && Serve(Run(t, before), last.call).1.Done? then 1 else 0)
  }

  /** Paying a price up to n times while it can be paid: payments made, points left. */
  function Spend(points: nat, price: nat, n: nat): (nat, nat) {
    if n == 0 then (0, points) else
      var (wins, left) := Spend(points, price, n - 1);
      if left >= price then (wins + 1, left - price) else (wins, left)
  }

  function Min(a: int, b: int): int { if a < b then a else b }

  lemma {:induction false} SpendClosedForm(points: nat, price: nat, n: nat)
    requires price > 0
    ensures Spend(points, price, n).0 == Min(n, points / price)
    ensures Spend(points, price, n).1 == points - price * Min(n, points / price)
  {
    if n > 0 {
      SpendClosedForm(points, price, n - 1);
      OneMorePayment(points, price, n);
    }
  }

  lemma OneMorePayment(points: nat, price: nat, n: nat)
    requires price > 0 && n > 0
    ensures var q := points / price;
            if n <= q then price * n == price * (n - 1) + price && price * n <= points
            else 0 <= points - price * q < price
  {
    var q := points / price;
    assert points == price * q + points % price;
    assert price * n == price * (n - 1) + price;
    if n <= q {
      assert price * q - price * n == price * (q - n);
    }
  }

  lemma OneUnlock(initial: map<nat, nat>, t: Tables, user: nat, article: Article)
    requires ServiceLaws(initial, t) && user in t.points
    requires !AccessibleTo(article, user) && UnlockId(user, article) !in t.operations
    ensures var (t', answer) := Serve(t, Unlock(user, Some(article)));
            if t.points[user] >= article.requiredPoints
            then answer.Done? && t'.points == t.points[user := t.points[user] - article.requiredPoints]
            else !answer.Done? && t' == t
  {
    hide ServiceLaws;
    ServeOutcome(initial, t, Unlock(user, Some(article)));
  }

  /** Unlocking some articles uses no other article's key. */
  lemma {:induction false} UnlocksSkip(t: Tables, user: nat, articles: seq<Article>, other: Article)
    requires UnlockId(user, other) !in t.operations
    requires forall a | a in articles :: a.id != other.id
    ensures UnlockId(user, other) !in Run(t, UnlockCalls(user, articles)).operations
  {
    if articles != [] {
      var before, last := articles[..|articles| - 1], articles[|articles| - 1];
      var calls := UnlockCalls(user, articles);
      assert last in articles && calls[..|calls| - 1] == UnlockCalls(user, before);
      UnlocksSkip(t, user, before, other);
      if UnlockId(user, other) == UnlockId(user, last) {
        OperationKeyInjective(UnlockKind, user, Decimal(other.id), UnlockKind, user, Decimal(last.id));
        DecimalInjective(other.id, last.id);
      }
    }
  }

  lemma NextUnlock(initial: map<nat, nat>, t: Tables, user: nat, before: seq<Article>, last: Article)
    requires ServiceLaws(initial, t) && !AccessibleTo(last, user) && UnlockId(user, last) !in t.operations
    requires forall a | a in before :: a.id != last.id
    ensures var mid := Run(t, UnlockCalls(user, before));
            var (t', answer) := Serve(mid, Unlock(user, Some(last)));
            user in mid.points ==>
              if mid.points[user] >= last.requiredPoints
              then answer.Done? && t'.points == mid.points[user := mid.points[user] - last.requiredPoints]
              else !answer.Done? && t' == mid
  {
    hide ServiceLaws, Serve, OperationKey;
    RunKeepsLaws(initial, t, UnlockCalls(user, before));
    UnlocksSkip(t, user, before, last);
    if user in Run(t, UnlockCalls(user, before)).points {
      OneUnlock(initial, Run(t, UnlockCalls(user, before)), user, last);
    }
  }

  lemma {:induction false} BurstSpends(initial: map<nat, nat>, t: Tables, user: nat, articles: seq<Article>, price: nat)
    requires ServiceLaws(initial, t) && user in t.points
    requires ForSale(t, user, articles, price) && DistinctIds(articles)
    ensures var (wins, left) := Spend(t.points[user], price, |articles|);
      && Successes(t, UnlockCalls(user, articles)) == wins
      && Run(t, UnlockCalls(user, articles)).points == t.points[user := left]
  {
    hide ServiceLaws, Serve, Plan, OperationKey;
    if articles != [] {
      var before, last := articles[..|articles| - 1], articles[|articles| - 1];
      var calls := UnlockCalls(user, articles);
      assert last in articles && calls[..|calls| - 1] == UnlockCalls(user, before);
      BurstSpends(initial, t, user, before, price);
      NextUnlock(initial, t, user, before, last);
    }
  }

  /** From balance b, unlocking n distinct paid articles at one price succeeds exactly
      min(n, b / price) times and spends exactly that. */
  lemma UnlockBurst(initial: map<nat, nat>, t: Tables, user: nat, articles: seq<Article>, price: nat)
    requires ServiceLaws(initial, t) && user in t.points && price > 0
    requires ForSale(t, user, articles, price) && DistinctIds(articles)
    ensures var wins := Min(|articles|, t.points[user] / price);
      && Successes(t, UnlockCalls(user, articles)) == wins
      && 0 <= t.points[user] - price * wins
      && Run(t, UnlockCalls(user, articles)).points == t.points[user := t.points[user] - price * wins]
  {
    hide ServiceLaws, Serve, ForSale, DistinctIds, Run, Successes, UnlockCalls, Spend, Min;
    BurstSpends(initial, t, user, articles, price);
    SpendClosedForm(t.points[user], price, |articles|);
  }
}
