/** The points tables as one value, and what one keyed operation does to them when
    it is seen as a single atomic step.  The imperative repository is proved
    against this reading; the laws over whole runs are proved about it. */
module PointsTables {
  import opened Common

  /** The row an operation inserts beside its ledger entry. */
  datatype Side =
    | NoSide
    | CheckInRow(date: string)
    | UnlockRow(article: nat)
    | PrivilegeRow(name: string)

  datatype Note = Note(source: string, referenceType: string, referenceId: nat, description: string)

  /** One points operation; deductions carry a negative change. */
  datatype Op = Op(user: nat, key: string, change: int, side: Side, note: Note) {
    predicate Expense() { side.UnlockRow? || side.PrivilegeRow? }

    /** Amounts are unsigned in the source, so the sign follows the kind of operation. */
    predicate WellFormed() { if Expense() then change <= 0 else change >= 0 }
  }

  datatype Operation = Operation(change: int, balanceAfter: nat)

  datatype Direction = Income | Outgoing

  datatype Entry = Entry(user: nat, key: string, change: int, balanceAfter: nat, direction: Direction, note: Note)

  datatype Tables = Tables(
    points: map<nat, nat>,
    operations: map<(nat, string), Operation>,
    ledger: seq<Entry>,
    checkIns: set<(nat, string)>,
    unlocks: set<(nat, nat)>,
    privileges: map<(nat, string), nat>)

  datatype Reply =
    | Balance(points: nat)
    | RecordMissing
    | Insufficient
    | AlreadyUnlocked
    | AlreadyRedeemed
    | DuplicateRow
    | DbFault

  predicate SideTaken(t: Tables, op: Op) {
    match op.side
    case NoSide => false
    case CheckInRow(date) => (op.user, date) in t.checkIns
    case UnlockRow(article) => (article, op.user) in t.unlocks
    case PrivilegeRow(name) => (op.user, name) in t.privileges
  }

  function SideRefusal(side: Side): Reply {
    match side
    case UnlockRow(_) => AlreadyUnlocked
    case PrivilegeRow(_) => AlreadyRedeemed
    case _ => DuplicateRow
  }

  function WithSide(t: Tables, op: Op): Tables
    requires op.WellFormed()
  {
    match op.side
    case NoSide => t
    case CheckInRow(date) => t.(checkIns := t.checkIns + {(op.user, date)})
    case UnlockRow(article) => t.(unlocks := t.unlocks + {(article, op.user)})
    case PrivilegeRow(name) => t.(privileges := t.privileges[(op.user, name) := -op.change])
  }

  predicate KeyInLedger(ledger: seq<Entry>, key: string) {
    exists i | 0 <= i < |ledger| :: ledger[i].key == key
  }

  /** The answer to an operation whose key is new.  The checks come in the order of
      the source: the unique index of the side row, the row count of the balance
      update (MySQL counts changed rows, so a zero amount counts as none), then the
      global unique index of the ledger key. */
  function Verdict(t: Tables, op: Op): Reply
    requires op.WellFormed()
  {
    if SideTaken(t, op) then SideRefusal(op.side)
    else if op.user !in t.points then RecordMissing
    else if op.change == 0 && !op.Expense() then RecordMissing
    else if op.change == 0 || t.points[op.user] + op.change < 0 then Insufficient
    else if KeyInLedger(t.ledger, op.key) then DuplicateRow
    else Balance(t.points[op.user] + op.change)
  }

  function EntryOf(op: Op, balance: nat): Entry {
    Entry(op.user, op.key, op.change, balance, if op.Expense() then Outgoing else Income, op.note)
  }

  function Post(t: Tables, op: Op, balance: nat): Tables
    requires op.WellFormed()
  {
    WithSide(t, op).(
      points := t.points[op.user := balance],
      operations := t.operations[(op.user, op.key) := Operation(op.change, balance)],
      ledger := t.ledger + [EntryOf(op, balance)])
  }

  /** One whole transaction: replay, refuse or post. */
  function Apply(t: Tables, op: Op): (Tables, Reply)
    requires op.WellFormed()
  {
    if (op.user, op.key) in t.operations then
      (t, Balance(t.operations[(op.user, op.key)].balanceAfter))
    else
      var verdict := Verdict(t, op);
      if verdict.Balance? then (Post(t, op, verdict.points), verdict) else (t, verdict)
  }

  // ----- the ledger laws -----

  /** Sum of one user's ledger changes. */
  function Total(ledger: seq<Entry>, user: nat): int {
    if ledger == [] then 0 else
      var last := ledger[|ledger| - 1];
      Total(ledger[..|ledger| - 1], user) + (if last.user == user then last.change else 0)
  }

  /** Each entry's BalanceAfter is its user's prefix sum. */
  ghost predicate PrefixSums(initial: map<nat, nat>, ledger: seq<Entry>) {
    forall i | 0 <= i < |ledger| ::
      && ledger[i].user in initial
      && ledger[i].balanceAfter == initial[ledger[i].user] + Total(ledger[..i + 1], ledger[i].user)
  }

  /** Balances are the opening balances plus the ledger. */
  ghost predicate Conserved(initial: map<nat, nat>, t: Tables) {
    && t.points.Keys == initial.Keys
    && forall u | u in t.points :: t.points[u] == initial[u] + Total(t.ledger, u)
  }

  ghost predicate EntryFor(ledger: seq<Entry>, id: (nat, string), i: int) {
    0 <= i < |ledger| && (ledger[i].user, ledger[i].key) == id
  }

  /** Operations and ledger entries correspond one to one and agree. */
  ghost predicate Linked(operations: map<(nat, string), Operation>, ledger: seq<Entry>) {
    && (forall i | 0 <= i < |ledger| ::
          var e := ledger[i];
          && (e.user, e.key) in operations
          && operations[(e.user, e.key)] == Operation(e.change, e.balanceAfter))
    && (forall id | id in operations :: exists i :: EntryFor(ledger, id, i))
    && (forall i, j | 0 <= i < j < |ledger| :: ledger[i].key != ledger[j].key)
  }

  ghost predicate LedgerLaws(initial: map<nat, nat>, t: Tables) {
    Conserved(initial, t) && PrefixSums(initial, t.ledger) && Linked(t.operations, t.ledger)
  }

  lemma TotalAppend(ledger: seq<Entry>, e: Entry, user: nat)
    ensures Total(ledger + [e], user) == Total(ledger, user) + (if e.user == user then e.change else 0)
  {
    assert (ledger + [e])[..|ledger|] == ledger;
  }

  lemma PostKeepsSums(initial: map<nat, nat>, t: Tables, op: Op, balance: nat)
    requires Conserved(initial, t) && PrefixSums(initial, t.ledger)
    requires op.WellFormed() && op.user in t.points && balance == t.points[op.user] + op.change
    ensures Conserved(initial, Post(t, op, balance))
    ensures PrefixSums(initial, Post(t, op, balance).ledger)
  {
    var e := EntryOf(op, balance);
    var ledger := t.ledger + [e];
    forall u | u in t.points
      ensures Total(ledger, u) == Total(t.ledger, u) + (if op.user == u then op.change else 0)
    {
      TotalAppend(t.ledger, e, u);
    }
    forall i | 0 <= i < |ledger|
      ensures ledger[i].user in initial
      ensures ledger[i].balanceAfter == initial[ledger[i].user] + Total(ledger[..i + 1], ledger[i].user)
    {
      if i < |t.ledger| {
        assert ledger[..i + 1] == t.ledger[..i + 1];
      } else {
        assert ledger[..i + 1] == ledger;
      }
    }
  }

  lemma AppendKeepsLinks(operations: map<(nat, string), Operation>, ledger: seq<Entry>, e: Entry)
    requires Linked(operations, ledger)
    requires (e.user, e.key) !in operations && !KeyInLedger(ledger, e.key)
    ensures Linked(operations[(e.user, e.key) := Operation(e.change, e.balanceAfter)], ledger + [e])
  {
    var operations', ledger' := operations[(e.user, e.key) := Operation(e.change, e.balanceAfter)], ledger + [e];
    forall id | id in operations'
      ensures exists i :: EntryFor(ledger', id, i)
    {
      if id == (e.user, e.key) {
        assert EntryFor(ledger', id, |ledger|);
      } else {
        var i :| EntryFor(ledger, id, i);
        assert EntryFor(ledger', id, i);
      }
    }
    forall i, j | 0 <= i < j < |ledger'|
      ensures ledger'[i].key != ledger'[j].key
    {
      assert ledger'[i] == ledger[i];
    }
  }

  /** Every transaction keeps conservation, the prefix sums and the one-to-one link
      between operations and ledger entries. */
  lemma ApplyKeepsLedgerLaws(initial: map<nat, nat>, t: Tables, op: Op)
    requires op.WellFormed() && LedgerLaws(initial, t)
    ensures LedgerLaws(initial, Apply(t, op).0)
  {
    if (op.user, op.key) !in t.operations && Verdict(t, op).Balance? {
      PostKeepsSums(initial, t, op, Verdict(t, op).points);
      AppendKeepsLinks(t.operations, t.ledger, EntryOf(op, Verdict(t, op).points));
    }
  }

  ghost predicate Recorded(t: Tables, id: (nat, string), balance: nat) {
    exists i :: EntryFor(t.ledger, id, i) && t.ledger[i].balanceAfter == balance
  }

  lemma OperationIsRecorded(t: Tables, id: (nat, string))
    requires Linked(t.operations, t.ledger) && id in t.operations
    ensures Recorded(t, id, t.operations[id].balanceAfter)
  {
    var i :| EntryFor(t.ledger, id, i);
    assert t.ledger[i].balanceAfter == t.operations[id].balanceAfter;
  }

  /** What a caller of one transaction may rely on: an accepted key is recorded with
      the balance returned, and repeating the call changes nothing and returns that
      same balance; a refusal changes nothing and leaves the key free. */
  lemma ApplyIsIdempotent(t: Tables, op: Op)
    requires op.WellFormed() && Linked(t.operations, t.ledger)
    ensures var (t', reply) := Apply(t, op);
      && (reply.Balance? <==> (op.user, op.key) in t'.operations)
      && (reply.Balance? ==> Apply(t', op) == (t', reply) && Recorded(t', (op.user, op.key), reply.points))
      && (!reply.Balance? ==> t' == t)
  {
    var (t', reply) := Apply(t, op);
    if reply.Balance? {
      if (op.user, op.key) !in t.operations {
        AppendKeepsLinks(t.operations, t.ledger, EntryOf(op, reply.points));
      }
      OperationIsRecorded(t', (op.user, op.key));
    }
  }

  /** A new key without duplicates is refused only for a missing user or a short balance. */
  lemma FreshOutcome(t: Tables, op: Op)
    requires op.WellFormed() && op.change != 0
    requires (op.user, op.key) !in t.operations && !SideTaken(t, op) && !KeyInLedger(t.ledger, op.key)
    ensures var (t', reply) := Apply(t, op);
      if op.user !in t.points then t' == t && reply == RecordMissing
      else if t.points[op.user] + op.change < 0 then t' == t && reply == Insufficient
      else
        && reply == Balance(t.points[op.user] + op.change)
        && t'.points == t.points[op.user := t.points[op.user] + op.change]
        && t'.operations.Keys == t.operations.Keys + {(op.user, op.key)}
        && t'.ledger == t.ledger + [EntryOf(op, reply.points)]
  {
  }
}
