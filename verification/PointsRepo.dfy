/** The points repository: rows are inserted and updated statement by statement
    inside a transaction, and any error rolls every table back. */
module PointsRepo {
  import opened Common
  import opened PointsTables

  /** The statement of a transaction that the database fails, if any. */
  datatype Statement =
    | NoStatement
    | InsertOperation
    | SelectOperation
    | InsertSide
    | UpdatePoints
    | SelectPoints
    | InsertLedger
    | WriteBalance
    | SelectArticle
    | SelectUser
    | SelectPrivileges

  datatype Inserted = Fresh | Exists | Failed

  datatype SummaryReply = Found(summary: Summary) | NoUser | QueryFailed

  datatype Summary = Summary(balance: nat, privileges: map<string, nat>)

  function AwardOp(user: nat, amount: nat, note: Note, key: string): (op: Op)
    ensures op.WellFormed()
  {
    Op(user, key, amount, NoSide, note)
  }

  function CheckInNote(description: string): Note {
    Note("daily_check_in", "check_in", 0, description)
  }

  function UnlockNote(article: nat): Note {
    Note("unlock_paid_resource", "article", article, "unlock paid resource")
  }

  function RedeemNote(name: string): Note {
    Note("redeem_privilege", "privilege", 0, "redeem privilege " + name)
  }

  function CheckInOp(user: nat, date: string, amount: nat, description: string, key: string): (op: Op)
    ensures op.WellFormed()
  {
    Op(user, key, amount, CheckInRow(date), CheckInNote(description))
  }

  function UnlockOp(user: nat, article: nat, cost: nat, key: string): (op: Op)
    ensures op.WellFormed()
  {
    Op(user, key, -(cost as int), UnlockRow(article), UnlockNote(article))
  }

  function RedeemOp(user: nat, name: string, cost: nat, key: string): (op: Op)
    ensures op.WellFormed()
  {
    Op(user, key, -(cost as int), PrivilegeRow(name), RedeemNote(name))
  }

  /** What the body of a transaction may do: reach the answer of the atomic step, or
      stop at a failed statement leaving rows that are still to be rolled back. */
  ghost predicate Ran(before: Tables, op: Op, fault: Statement, after: Tables, reply: Reply)
    requires op.WellFormed()
  {
    if reply == DbFault then fault != NoStatement
    else reply == Apply(before, op).1 && (reply.Balance? ==> after == Apply(before, op).0)
  }

  /** An expense whose key and side row are new ends as the atomic step does. */
  lemma ChargeCompletes(before: Tables, op: Op, fault: Statement, after: Tables, reply: Reply)
    requires op.WellFormed() && op.Expense() && (op.user, op.key) !in before.operations && !SideTaken(before, op)
    requires reply == DbFault ==> fault != NoStatement
    requires reply.Balance? ==>
      && op.user in before.points && op.change < 0 <= before.points[op.user] + op.change
      && !KeyInLedger(before.ledger, op.key) && reply.points == before.points[op.user] + op.change
      && after == Post(before, op, reply.points)
    requires !reply.Balance? && reply != DbFault ==>
      if op.user !in before.points then reply == RecordMissing
      else if op.change == 0 || before.points[op.user] + op.change < 0 then reply == Insufficient
      else reply == DuplicateRow && KeyInLedger(before.ledger, op.key)
    ensures Ran(before, op, fault, after, reply)
  {
    hide KeyInLedger, Post, SideTaken;
  }

  /** A new key whose side row is taken is refused. */
  lemma TakenIsRefused(before: Tables, op: Op, fault: Statement, after: Tables)
    requires op.WellFormed() && (op.user, op.key) !in before.operations && SideTaken(before, op)
    ensures Ran(before, op, fault, after, SideRefusal(op.side))
  {
  }

  /** What a caller sees: the atomic step, or an error that changed nothing. */
  ghost predicate Transacted(before: Tables, op: Op, fault: Statement, after: Tables, reply: Reply)
    requires op.WellFormed()
  {
    if reply == DbFault then fault != NoStatement && after == before
    else (after, reply) == Apply(before, op)
  }

  function PrivilegesOf(t: Tables, user: nat): map<string, nat> {
    map id | id in t.privileges && id.0 == user :: id.1 := t.privileges[id]
  }

  function SummaryOf(t: Tables, user: nat): Summary
    requires user in t.points
  {
    Summary(t.points[user], PrivilegesOf(t, user))
  }

  class Repo {
    var points: map<nat, nat>
    var operations: map<(nat, string), Operation>
    var ledger: seq<Entry>
    var checkIns: set<(nat, string)>
    var unlocks: set<(nat, nat)>
    var privileges: map<(nat, string), nat>
    var summaries: map<nat, Summary>
    ghost var stale: set<nat> // users whose cached summary outlived a failed DEL

    function State(): Tables
      reads this
    {
      Tables(points, operations, ledger, checkIns, unlocks, privileges)
    }

    /** The summary cache disagrees with the tables only where a DEL failed. */
    ghost predicate SummariesFresh()
      reads this
    {
      forall u | u in summaries :: u in points && (u in stale || summaries[u] == SummaryOf(State(), u))
    }

    method Rollback(saved: Tables)
      modifies this
      ensures State() == saved && summaries == old(summaries) && stale == old(stale)
    {
      points, operations, ledger := saved.points, saved.operations, saved.ledger;
      checkIns, unlocks, privileges := saved.checkIns, saved.unlocks, saved.privileges;
    }

    method CreatePointOperation(user: nat, key: string, change: int, fault: Statement) returns (r: Inserted)
      modifies this`operations
      ensures r == Failed <==> fault == InsertOperation
      ensures r == Exists <==> fault != InsertOperation && (user, key) in old(operations)
      ensures operations == if r == Fresh then old(operations)[(user, key) := Operation(change, 0)] else old(operations)
    {
      if fault == InsertOperation {
        return Failed;
      }
      if (user, key) in operations {
        return Exists;
      }
      operations := operations[(user, key) := Operation(change, 0)];
      r := Fresh;
    }

    method GetPointOperation(user: nat, key: string, fault: Statement) returns (reply: Reply)
      requires (user, key) in operations
      ensures reply == if fault == SelectOperation then DbFault else Balance(operations[(user, key)].balanceAfter)
    {
      reply := if fault == SelectOperation then DbFault else Balance(operations[(user, key)].balanceAfter);
    }

    /** The common head: insert the operation row, or answer at once with the recorded
        balance of a known key. */
    method BeginOperation(user: nat, key: string, change: int, fault: Statement) returns (answer: Option<Reply>)
      modifies this`operations
      ensures answer == Some(DbFault) ==> fault != NoStatement
      ensures answer.Some? && answer != Some(DbFault) ==>
                (user, key) in old(operations) && answer == Some(Balance(old(operations)[(user, key)].balanceAfter))
                && operations == old(operations)
      ensures answer.None? ==>
                && (user, key) !in old(operations)
                && operations == old(operations)[(user, key) := Operation(change, 0)]
    {
      var inserted := CreatePointOperation(user, key, change, fault);
      match inserted
      case Exists =>
        var reply := GetPointOperation(user, key, fault);
        answer := Some(reply);
      case Failed => answer := Some(DbFault);
      case Fresh => answer := None;
    }

    method GetUserBalance(user: nat, fault: Statement) returns (reply: Reply)
      ensures reply == if fault == SelectPoints then DbFault
                       else if user in points then Balance(points[user]) else RecordMissing
    {
      if fault == SelectPoints {
        return DbFault;
      }
      reply := if user in points then Balance(points[user]) else RecordMissing;
    }

    method ClassifyInsufficientPoints(user: nat, fault: Statement) returns (reply: Reply)
      ensures reply == if fault == SelectPoints then DbFault
                       else if user in points then Insufficient else RecordMissing
    {
      if fault == SelectPoints {
        return DbFault;
      }
      reply := if user in points then Insufficient else RecordMissing;
    }

    method AddPoints(user: nat, amount: nat, fault: Statement) returns (reply: Reply)
      modifies this`points
      ensures reply == DbFault ==> fault != NoStatement
      ensures reply.Balance? ==>
                && user in old(points) && amount > 0
                && reply.points == old(points)[user] + amount
                && points == old(points)[user := reply.points]
      ensures !reply.Balance? && reply != DbFault ==> reply == RecordMissing && (user !in old(points) || amount == 0)
    {
      if fault == UpdatePoints {
        return DbFault;
      }
      var rowsAffected := 0;
      if user in points && amount != 0 {
        points := points[user := points[user] + amount];
        rowsAffected := 1;
      }
      if rowsAffected != 1 {
        return RecordMissing;
      }
      reply := GetUserBalance(user, fault);
    }

    method DeductPoints(user: nat, amount: nat, fault: Statement) returns (reply: Reply)
      modifies this`points
      ensures reply == DbFault ==> fault != NoStatement
      ensures reply.Balance? ==>
                && user in old(points) && 0 < amount <= old(points)[user]
                && reply.points == old(points)[user] - amount
                && points == old(points)[user := reply.points]
      ensures !reply.Balance? && reply != DbFault ==>
                if user in old(points) then reply == Insufficient && (amount == 0 || old(points)[user] < amount)
                else reply == RecordMissing
    {
      if fault == UpdatePoints {
        return DbFault;
      }
      var rowsAffected := 0;
      if user in points && points[user] >= amount && amount != 0 {
        points := points[user := points[user] - amount];
        rowsAffected := 1;
      }
      if rowsAffected != 1 {
        reply := ClassifyInsufficientPoints(user, fault);
        return;
      }
      reply := GetUserBalance(user, fault);
    }

    /** The common tail: append the ledger row (its key is globally unique), then
        write the balance back to the operation row. */
    method AppendLedger(entry: Entry, fault: Statement) returns (reply: Reply)
      requires (entry.user, entry.key) in operations && operations[(entry.user, entry.key)].change == entry.change
      modifies this`ledger, this`operations
      ensures reply == DbFault ==> fault != NoStatement
      ensures reply.Balance? ==>
                && reply.points == entry.balanceAfter
                && !KeyInLedger(old(ledger), entry.key)
                && ledger == old(ledger) + [entry]
                && operations == old(operations)[(entry.user, entry.key) := Operation(entry.change, entry.balanceAfter)]
      ensures !reply.Balance? && reply != DbFault ==> reply == DuplicateRow && KeyInLedger(old(ledger), entry.key)
    {
      if fault == InsertLedger {
        return DbFault;
      }
      if KeyInLedger(ledger, entry.key) {
        return DuplicateRow;
      }
      ledger := ledger + [entry];
      if fault == WriteBalance {
        return DbFault;
      }
      var id := (entry.user, entry.key);
      operations := operations[id := operations[id].(balanceAfter := entry.balanceAfter)];
      reply := Balance(entry.balanceAfter);
    }

    /** The rest of an award: raise the balance, then append to the ledger. */
    method Credit(user: nat, amount: nat, note: Note, key: string, fault: Statement) returns (reply: Reply)
      requires (user, key) in operations && operations[(user, key)].change == amount
      modifies this`points, this`ledger, this`operations
      ensures reply == DbFault ==> fault != NoStatement
      ensures reply.Balance? ==>
                && user in old(points) && amount > 0 && !KeyInLedger(old(ledger), key)
                && reply.points == old(points)[user] + amount
                && points == old(points)[user := reply.points]
                && ledger == old(ledger) + [Entry(user, key, amount, reply.points, Income, note)]
                && operations == old(operations)[(user, key) := Operation(amount, reply.points)]
      ensures !reply.Balance? && reply != DbFault ==>
                if user !in old(points) || amount == 0 then reply == RecordMissing
                else reply == DuplicateRow && KeyInLedger(old(ledger), key)
    {
      reply := AddPoints(user, amount, fault);
      if reply.Balance? {
        reply := AppendLedger(Entry(user, key, amount, reply.points, Income, note), fault);
      }
    }

    /** The rest of an expense: lower the balance, then append to the ledger. */
    method Charge(user: nat, amount: nat, note: Note, key: string, fault: Statement) returns (reply: Reply)
      requires (user, key) in operations && operations[(user, key)].change == -(amount as int)
      modifies this`points, this`ledger, this`operations
      ensures reply == DbFault ==> fault != NoStatement
      ensures reply.Balance? ==>
                && user in old(points) && 0 < amount <= old(points)[user] && !KeyInLedger(old(ledger), key)
                && reply.points == old(points)[user] - amount
                && points == old(points)[user := reply.points]
                && ledger == old(ledger) + [Entry(user, key, -(amount as int), reply.points, Outgoing, note)]
                && operations == old(operations)[(user, key) := Operation(-(amount as int), reply.points)]
      ensures !reply.Balance? && reply != DbFault ==>
                if user !in old(points) then reply == RecordMissing
                else if amount == 0 || old(points)[user] < amount then reply == Insufficient
                else reply == DuplicateRow && KeyInLedger(old(ledger), key)
    {
      reply := DeductPoints(user, amount, fault);
      if reply.Balance? {
        reply := AppendLedger(Entry(user, key, -(amount as int), reply.points, Outgoing, note), fault);
      }
    }

    method AwardBody(user: nat, amount: nat, note: Note, key: string, fault: Statement) returns (reply: Reply)
      modifies this
      ensures summaries == old(summaries) && stale == old(stale)
      ensures Ran(old(State()), AwardOp(user, amount, note, key), fault, State(), reply)
    {
      var known := BeginOperation(user, key, amount, fault);
      if known.Some? {
        return known.value;
      }
      reply := Credit(user, amount, note, key, fault);
    }

    method CheckInBody(user: nat, date: string, amount: nat, description: string, key: string, fault: Statement)
      returns (reply: Reply)
      modifies this
      ensures summaries == old(summaries) && stale == old(stale)
      ensures Ran(old(State()), CheckInOp(user, date, amount, description, key), fault, State(), reply)
    {
      hide CheckInNote, KeyInLedger;
      var known := BeginOperation(user, key, amount, fault);
      if known.Some? {
        return known.value;
      }
      if fault == InsertSide {
        return DbFault;
      }
      if (user, date) in checkIns {
        return DuplicateRow;
      }
      checkIns := checkIns + {(user, date)};
      reply := Credit(user, amount, CheckInNote(description), key, fault);
    }

    method UnlockBody(user: nat, article: nat, cost: nat, key: string, fault: Statement) returns (reply: Reply)
      modifies this
      ensures summaries == old(summaries) && stale == old(stale)
      ensures Ran(old(State()), UnlockOp(user, article, cost, key), fault, State(), reply)
    {
      hide UnlockNote, KeyInLedger, Verdict;
      var known := BeginOperation(user, key, -(cost as int), fault);
      if known.Some? {
        return known.value;
      }
      if fault == InsertSide {
        return DbFault;
      }
      if (article, user) in unlocks {
        TakenIsRefused(old(State()), UnlockOp(user, article, cost, key), fault, State());
        return AlreadyUnlocked;
      }
      unlocks := unlocks + {(article, user)};
      reply := Charge(user, cost, UnlockNote(article), key, fault);
      ghost var before, op := old(State()), UnlockOp(user, article, cost, key);
      hide Ran;
      ChargeCompletes(before, op, fault, State(), reply);
    }

    method RedeemBody(user: nat, name: string, cost: nat, key: string, fault: Statement) returns (reply: Reply)
      modifies this
      ensures summaries == old(summaries) && stale == old(stale)
      ensures Ran(old(State()), RedeemOp(user, name, cost, key), fault, State(), reply)
    {
      hide RedeemNote, KeyInLedger, Verdict;
      var known := BeginOperation(user, key, -(cost as int), fault);
      if known.Some? {
        return known.value;
      }
      if fault == InsertSide {
        return DbFault;
      }
      if (user, name) in privileges {
        TakenIsRefused(old(State()), RedeemOp(user, name, cost, key), fault, State());
        return AlreadyRedeemed;
      }
      privileges := privileges[(user, name) := cost];
      reply := Charge(user, cost, RedeemNote(name), key, fault);
      ghost var before, op := old(State()), RedeemOp(user, name, cost, key);
      hide Ran;
      ChargeCompletes(before, op, fault, State(), reply);
    }

    /** Commit or roll back, then drop the user's cached summary on success; an error of
        that DEL is ignored. */
    method Finish(saved: Tables, ghost op: Op, ghost fault: Statement, user: nat, reply: Reply, evicted: bool)
      requires op.WellFormed() && op.user == user && Ran(saved, op, fault, State(), reply)
      modifies this
      ensures Transacted(saved, op, fault, State(), reply)
      ensures CacheFollows(old(summaries), old(stale), user, reply, evicted)
    {
      if reply.Balance? {
        if evicted {
          summaries := summaries - {user};
          stale := stale - {user};
        } else {
          stale := stale + {user};
        }
      } else {
        Rollback(saved);
      }
    }

    /** A success drops the summary, or leaves it marked as possibly stale. */
    ghost predicate CacheFollows(before: map<nat, Summary>, staleBefore: set<nat>, user: nat, reply: Reply,
                                 evicted: bool)
      reads this
    {
      if !reply.Balance? then summaries == before && stale == staleBefore
      else if evicted then summaries == before - {user} && stale == staleBefore - {user}
      else summaries == before && stale == staleBefore + {user}
    }

    method AwardPointsWithKey(user: nat, amount: nat, note: Note, key: string, fault: Statement, evicted: bool)
      returns (reply: Reply)
      modifies this
      ensures Transacted(old(State()), AwardOp(user, amount, note, key), fault, State(), reply)
      ensures CacheFollows(old(summaries), old(stale), user, reply, evicted)
      ensures old(SummariesFresh()) ==> SummariesFresh()
    {
      var saved := State();
      reply := AwardBody(user, amount, note, key, fault);
      Finish(saved, AwardOp(user, amount, note, key), fault, user, reply, evicted);
      StepKeepsOtherSummaries(saved, AwardOp(user, amount, note, key));
    }

    method CreateCheckInAndAwardWithKey(user: nat, date: string, amount: nat, description: string, key: string,
                                        fault: Statement, evicted: bool)
      returns (reply: Reply)
      modifies this
      ensures Transacted(old(State()), CheckInOp(user, date, amount, description, key), fault, State(), reply)
      ensures CacheFollows(old(summaries), old(stale), user, reply, evicted)
      ensures old(SummariesFresh()) ==> SummariesFresh()
    {
      var saved := State();
      reply := CheckInBody(user, date, amount, description, key, fault);
      Finish(saved, CheckInOp(user, date, amount, description, key), fault, user, reply, evicted);
      StepKeepsOtherSummaries(saved, CheckInOp(user, date, amount, description, key));
    }

    method UnlockArticleWithKey(user: nat, article: nat, cost: nat, key: string, fault: Statement, evicted: bool)
      returns (reply: Reply)
      modifies this
      ensures Transacted(old(State()), UnlockOp(user, article, cost, key), fault, State(), reply)
      ensures CacheFollows(old(summaries), old(stale), user, reply, evicted)
      ensures old(SummariesFresh()) ==> SummariesFresh()
    {
      var saved := State();
      reply := UnlockBody(user, article, cost, key, fault);
      Finish(saved, UnlockOp(user, article, cost, key), fault, user, reply, evicted);
      StepKeepsOtherSummaries(saved, UnlockOp(user, article, cost, key));
    }

    method RedeemPrivilegeWithKey(user: nat, name: string, cost: nat, key: string, fault: Statement, evicted: bool)
      returns (reply: Reply)
      modifies this
      ensures Transacted(old(State()), RedeemOp(user, name, cost, key), fault, State(), reply)
      ensures CacheFollows(old(summaries), old(stale), user, reply, evicted)
      ensures old(SummariesFresh()) ==> SummariesFresh()
    {
      var saved := State();
      reply := RedeemBody(user, name, cost, key, fault);
      Finish(saved, RedeemOp(user, name, cost, key), fault, user, reply, evicted);
      StepKeepsOtherSummaries(saved, RedeemOp(user, name, cost, key));
    }

    /** Read through the summary cache.  Unless a DEL for this user failed since its entry
        was cached, whoever gets a summary gets the current one. */
    method GetSummary(user: nat, blind: bool, fault: Statement, stored: bool) returns (reply: SummaryReply)
      requires SummariesFresh()
      modifies this`summaries, this`stale
      ensures SummariesFresh() && stale <= old(stale)
      ensures reply.Found? && (user !in old(stale) || user !in old(summaries) || blind) ==>
                user in points && reply.summary == SummaryOf(State(), user)
      ensures reply == NoUser ==> user !in points
      ensures reply == QueryFailed ==> fault == SelectUser || fault == SelectPrivileges
    {
      if user in summaries && !blind {
        return Found(summaries[user]);
      }
      if fault == SelectUser {
        return QueryFailed;
      }
      if user !in points {
        return NoUser;
      }
      if fault == SelectPrivileges {
        return QueryFailed;
      }
      var summary := SummaryOf(State(), user);
      if stored {
        summaries := summaries[user := summary];
        stale := stale - {user};
      }
      reply := Found(summary);
    }

    /** A cached summary reaches the end of its life, and with it any staleness. */
    method Expire(user: nat)
      requires SummariesFresh()
      modifies this`summaries, this`stale
      ensures SummariesFresh() && summaries == old(summaries) - {user} && stale == old(stale) - {user}
    {
      summaries := summaries - {user};
      stale := stale - {user};
    }
  }

  /** A transaction of one user leaves every other user's summary as it was. */
  lemma StepKeepsOtherSummaries(t: Tables, op: Op)
    requires op.WellFormed()
    ensures Apply(t, op).0.points.Keys == t.points.Keys
    ensures forall u | u in t.points && u != op.user :: SummaryOf(Apply(t, op).0, u) == SummaryOf(t, u)
  {
    var t' := Apply(t, op).0;
    OnlyOwnPrivilege(t, op);
    forall u | u != op.user
      ensures PrivilegesOf(t', u) == PrivilegesOf(t, u)
    {
      SamePrivileges(t, t', u);
    }
  }

  lemma OnlyOwnPrivilege(t: Tables, op: Op)
    requires op.WellFormed()
    ensures forall id: (nat, string) | id.0 != op.user :: id in Apply(t, op).0.privileges <==> id in t.privileges
    ensures forall id: (nat, string) | id.0 != op.user && id in t.privileges ::
              Apply(t, op).0.privileges[id] == t.privileges[id]
  {
  }

  lemma SamePrivileges(t: Tables, t': Tables, u: nat)
    requires forall id: (nat, string) | id.0 == u :: id in t'.privileges <==> id in t.privileges
    requires forall id: (nat, string) | id.0 == u && id in t.privileges :: t'.privileges[id] == t.privileges[id]
    ensures PrivilegesOf(t', u) == PrivilegesOf(t, u)
  {
    forall name
      ensures name in PrivilegesOf(t', u) <==> name in PrivilegesOf(t, u)
    {
      assert name in PrivilegesOf(t', u) <==> (u, name) in t'.privileges;
      assert name in PrivilegesOf(t, u) <==> (u, name) in t.privileges;
    }
  }
}
