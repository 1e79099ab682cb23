/** The bare arithmetic of keyed operations: balances, the keys already used, and
    moves that apply once.  Confluence and the burst law are proved here; the points
    service is proved to refine this machine. */
module Moves {

  datatype Move = Move(user: nat, key: string, change: int) {
    function Id(): (nat, string) { (user, key) }
    function CostTo(u: nat): nat { if user == u && change < 0 then -change else 0 }
    function ChangeTo(u: nat): int { if user == u then change else 0 }
  }

  datatype Book = Book(points: map<nat, nat>, keys: set<(nat, string)>)

  predicate Posts(b: Book, m: Move) {
    m.Id() !in b.keys && m.user in b.points && b.points[m.user] + m.change >= 0
  }

  function Play(b: Book, m: Move): Book {
    if Posts(b, m)
    then Book(b.points[m.user := b.points[m.user] + m.change], b.keys + {m.Id()})
    else b
  }

  function PlayAll(b: Book, moves: seq<Move>): Book {
    if moves == [] then b
    else Play(PlayAll(b, moves[..|moves| - 1]), moves[|moves| - 1])
  }

  // ----- sums over sets of moves -----

  ghost function NetChange(s: set<Move>, u: nat): int {
    if s == {} then 0 else
      var x :| x in s;
      x.ChangeTo(u) + NetChange(s - {x}, u)
  }

  ghost function TotalCost(s: set<Move>, u: nat): nat {
    if s == {} then 0 else
      var x :| x in s;
      x.CostTo(u) + TotalCost(s - {x}, u)
  }

  lemma {:induction false} NetChangeAdd(s: set<Move>, x: Move, u: nat)
    requires x !in s
    ensures NetChange(s + {x}, u) == x.ChangeTo(u) + NetChange(s, u)
    decreases s
  {
    var t := s + {x};
    var y :| y in t && NetChange(t, u) == y.ChangeTo(u) + NetChange(t - {y}, u);
    if y == x {
      assert t - {x} == s;
    } else {
      NetChangeAdd(s - {y}, x, u);
      assert t - {y} == (s - {y}) + {x};
      NetChangeAdd(s - {y}, y, u);
      assert (s - {y}) + {y} == s;
    }
  }

  lemma {:induction false} TotalCostAdd(s: set<Move>, x: Move, u: nat)
    requires x !in s
    ensures TotalCost(s + {x}, u) == x.CostTo(u) + TotalCost(s, u)
    decreases s
  {
    var t := s + {x};
    var y :| y in t && TotalCost(t, u) == y.CostTo(u) + TotalCost(t - {y}, u);
    if y == x {
      assert t - {x} == s;
    } else {
      TotalCostAdd(s - {y}, x, u);
      assert t - {y} == (s - {y}) + {x};
      TotalCostAdd(s - {y}, y, u);
      assert (s - {y}) + {y} == s;
    }
  }

  lemma {:induction false} TotalCostMonotone(s: set<Move>, t: set<Move>, u: nat)
    requires s <= t
    ensures TotalCost(s, u) <= TotalCost(t, u)
    decreases t
  {
    if t != {} {
      var y :| y in t && TotalCost(t, u) == y.CostTo(u) + TotalCost(t - {y}, u);
      assert y.CostTo(u) >= 0;
      TotalCostMonotone(s - {y}, t - {y}, u);
      if y in s {
        TotalCostAdd(s - {y}, y, u);
        assert (s - {y}) + {y} == s;
      } else {
        assert s - {y} == s;
      }
    } else {
      assert s == {};
    }
  }

  /** No set of moves takes more than it costs. */
  lemma {:induction false} CostBoundsChange(s: set<Move>, u: nat)
    ensures NetChange(s, u) + TotalCost(s, u) >= 0
    decreases s
  {
    if s != {} {
      var y :| y in s && NetChange(s, u) == y.ChangeTo(u) + NetChange(s - {y}, u);
      assert y.ChangeTo(u) + y.CostTo(u) >= 0;
      CostBoundsChange(s - {y}, u);
      TotalCostAdd(s - {y}, y, u);
      assert (s - {y}) + {y} == s;
    }
  }

  // ----- confluence -----

  predicate IsNew(b: Book, m: Move) { m.user in b.points && m.Id() !in b.keys }

  ghost function NewIn(b: Book, moves: set<Move>): set<Move> {
    set m | m in moves && IsNew(b, m)
  }

  ghost function IdsOf(moves: set<Move>): set<(nat, string)> {
    set m | m in moves :: m.Id()
  }

  /** One key always stands for the same move. */
  ghost predicate Functional(moves: set<Move>) {
    forall m1, m2 | m1 in moves && m2 in moves :: m1.Id() == m2.Id() ==> m1 == m2
  }

  /** The distinct new moves cost each user no more than the opening balance. */
  ghost predicate Affordable(b: Book, moves: set<Move>) {
    forall u | u in b.points :: TotalCost(NewIn(b, moves), u) <= b.points[u]
  }

  /** Where a run that can pay for itself must end: a function of the set of moves. */
  ghost predicate EndsAt(b: Book, moves: set<Move>, b': Book) {
    && b'.points.Keys == b.points.Keys
    && (forall u | u in b.points :: b'.points[u] == b.points[u] + NetChange(NewIn(b, moves), u))
    && b'.keys == b.keys + IdsOf(NewIn(b, moves))
  }

  lemma NewMovePosts(b: Book, all: set<Move>, done: set<Move>, mid: Book, m: Move)
    requires Functional(all) && Affordable(b, all) && done <= all && m in all && m !in done
    requires IsNew(b, m) && EndsAt(b, done, mid)
    ensures Posts(mid, m)
  {
    var unpaid, u := NewIn(b, done), m.user;
    assert forall other | other in unpaid :: other.Id() != m.Id();
    CostBoundsChange(unpaid, u);
    TotalCostAdd(unpaid, m, u);
    TotalCostMonotone(unpaid + {m}, NewIn(b, all), u);
  }

  lemma OneMoreMove(b: Book, all: set<Move>, done: set<Move>, mid: Book, m: Move)
    requires Functional(all) && Affordable(b, all) && done <= all && m in all
    requires EndsAt(b, done, mid)
    ensures EndsAt(b, done + {m}, Play(mid, m))
  {
    if m in done || !IsNew(b, m) {
      assert NewIn(b, done + {m}) == NewIn(b, done);
      if m in done && IsNew(b, m) {
        assert m.Id() in IdsOf(NewIn(b, done));
      }
    } else {
      NewMovePosts(b, all, done, mid, m);
      assert NewIn(b, done + {m}) == NewIn(b, done) + {m};
      assert IdsOf(NewIn(b, done) + {m}) == IdsOf(NewIn(b, done)) + {m.Id()};
      forall u | u in b.points
        ensures Play(mid, m).points[u] == b.points[u] + NetChange(NewIn(b, done + {m}), u)
      {
        NetChangeAdd(NewIn(b, done), m, u);
      }
    }
  }

  ghost function SetOf(moves: seq<Move>): set<Move> {
    set m | m in moves
  }

  lemma {:induction false} PlayAllEndsAt(b: Book, all: set<Move>, moves: seq<Move>)
    requires Functional(all) && Affordable(b, all) && SetOf(moves) <= all
    ensures EndsAt(b, SetOf(moves), PlayAll(b, moves))
  {
    if moves == [] {
      assert NewIn(b, SetOf(moves)) == {};
    } else {
      var before, last := moves[..|moves| - 1], moves[|moves| - 1];
      assert moves == before + [last];
      assert SetOf(moves) == SetOf(before) + {last};
      PlayAllEndsAt(b, all, before);
      OneMoreMove(b, all, SetOf(before), PlayAll(b, before), last);
    }
  }

  lemma EndIsUnique(b: Book, moves: set<Move>, b1: Book, b2: Book)
    requires EndsAt(b, moves, b1) && EndsAt(b, moves, b2)
    ensures b1 == b2
  {
    forall u | u in b.points
      ensures b1.points[u] == b2.points[u]
    {
    }
    assert b1.points == b2.points;
  }

  /** Two sequences over one affordable set of moves, in any order and with any
      repeats, end in the same book. */
  lemma Confluent(b: Book, x: seq<Move>, y: seq<Move>)
    requires SetOf(x) == SetOf(y) && Functional(SetOf(x)) && Affordable(b, SetOf(x))
    ensures PlayAll(b, x) == PlayAll(b, y)
  {
    PlayAllEndsAt(b, SetOf(x), x);
    PlayAllEndsAt(b, SetOf(x), y);
    EndIsUnique(b, SetOf(x), PlayAll(b, x), PlayAll(b, y));
  }
}
