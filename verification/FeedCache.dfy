/** The following feed behind its cache: key construction, invalidation by prefix, and a
    service whose cached answers always equal the direct query. */
module FeedCache {
  import opened Common
  import opened Feed
  import opened Text

  // ---------------------------------------------------------------- keys

  const FOLLOWING := "articles:following:"
  const USER := "user="
  const SIZE := "size="
  const BEFORE_TIME := "beforeCreatedAt="
  const BEFORE_ID := ":beforeID"

  function ZoneText(zone: int): (s: string)
    ensures |s| > 0 && !IsDigit(s[0])
  {
    if zone == 0 then ['Z'] else if zone > 0 then ['+'] + Decimal(zone) else ['-'] + Decimal(-zone)
  }

  /** CacheBeforeCreatedAt: empty for the zero time. */
  function TimeText(t: Time): string {
    if t.instant == 0 then [] else Decimal(t.instant) + ZoneText(t.zone)
  }

  function UserPrefix(user: nat): string {
    FOLLOWING + USER + Decimal(user) + [':']
  }

  function CursorPart(before: Time, beforeId: nat): string {
    BEFORE_TIME + TimeText(before) + BEFORE_ID + ['='] + Decimal(beforeId)
  }

  function KeyRest(size: nat, before: Time, beforeId: nat): string {
    SIZE + Decimal(size) + [':'] + CursorPart(before, beforeId)
  }

  predicate Asked(q: Query) { 1 <= q.pageSize <= 50 }

  function Key(q: Query): string
    requires Asked(q)
  {
    UserPrefix(q.follower) + KeyRest(q.pageSize, q.before, q.beforeId)
  }

  lemma DecimalHasNo(n: nat, mark: char)
    requires !IsDigit(mark)
    ensures mark !in Decimal(n)
  {
  }

  /** A number between a fixed head and a mark can be read back. */
  lemma NumberField(head: string, m: nat, n: nat, mark: char, x: string, y: string)
    requires !IsDigit(mark) && head + Decimal(m) + [mark] + x == head + Decimal(n) + [mark] + y
    ensures m == n && x == y
  {
    hide Decimal;
    var a, b := Decimal(m), Decimal(n);
    DecimalHasNo(m, mark);
    DecimalHasNo(n, mark);
    assert head + a + [mark] + x == head + (a + [mark] + x);
    assert head + b + [mark] + y == head + (b + [mark] + y);
    CancelPrefix(head, a + [mark] + x, b + [mark] + y);
    SplitFirst(a, b, mark, x, y);
    DecimalInjective(m, n);
  }

  lemma DigitsFirst(a: string, b: string, x: string, y: string)
    requires (forall c | c in a :: IsDigit(c)) && (forall c | c in b :: IsDigit(c))
    requires |x| > 0 && !IsDigit(x[0]) && |y| > 0 && !IsDigit(y[0])
    requires a + x == b + y
    ensures a == b
  {
    var s := a + x;
    assert s[|a|] == x[0] && s[|b|] == y[0];
    assert forall k | 0 <= k < |a| :: s[k] in a;
    assert forall k | 0 <= k < |b| :: s[k] in b;
    assert a == s[..|a|] && b == s[..|b|];
  }

  /** Different instants have different texts, whatever the zones. */
  lemma TimeTextTellsInstant(s: Time, t: Time)
    requires TimeText(s) == TimeText(t)
    ensures s.instant == t.instant
  {
    if s.instant != 0 && t.instant != 0 {
      DigitsFirst(Decimal(s.instant), Decimal(t.instant), ZoneText(s.zone), ZoneText(t.zone));
      DecimalInjective(s.instant, t.instant);
    }
  }

  lemma TextField(head: string, a: string, b: string, tail: string, x: string, y: string)
    requires '=' !in x && '=' !in y
    requires head + a + tail + ['='] + x == head + b + tail + ['='] + y
    ensures a == b && x == y
  {
    SplitLast(head + a + tail, head + b + tail, '=', x, y);
    assert a == (head + a + tail)[|head|..|head| + |a|];
    assert b == (head + b + tail)[|head|..|head| + |b|];
  }

  lemma CursorPartTells(before: Time, id: nat, before': Time, id': nat)
    requires CursorPart(before, id) == CursorPart(before', id')
    ensures before.instant == before'.instant && id == id'
  {
    hide Decimal, TimeText;
    DecimalHasNo(id, '=');
    DecimalHasNo(id', '=');
    TextField(BEFORE_TIME, TimeText(before), TimeText(before'), BEFORE_ID, Decimal(id), Decimal(id'));
    TimeTextTellsInstant(before, before');
    DecimalInjective(id, id');
  }

  /** A user's prefix starts exactly that user's keys: invalidating it reaches all of them
      and no key of anybody else. */
  lemma PrefixIsOwn(user: nat, q: Query)
    requires Asked(q)
    ensures UserPrefix(user) <= Key(q) <==> user == q.follower
    ensures FOLLOWING <= Key(q)
  {
    var key, rest := Key(q), KeyRest(q.pageSize, q.before, q.beforeId);
    hide Decimal, KeyRest;
    if UserPrefix(user) <= key {
      var x := key[|UserPrefix(user)|..];
      assert UserPrefix(user) + x == UserPrefix(q.follower) + rest;
      NumberField(FOLLOWING + USER, user, q.follower, ':', x, rest);
    }
  }

  /** Two queries with one key ask the same thing. */
  lemma KeyTellsQuery(q: Query, q': Query)
    requires Asked(q) && Asked(q') && Key(q) == Key(q')
    ensures q.follower == q'.follower && q.pageSize == q'.pageSize
    ensures q.before.instant == q'.before.instant && q.beforeId == q'.beforeId
  {
    hide Decimal, CursorPart;
    NumberField(FOLLOWING + USER, q.follower, q'.follower, ':',
                KeyRest(q.pageSize, q.before, q.beforeId), KeyRest(q'.pageSize, q'.before, q'.beforeId));
    NumberField(SIZE, q.pageSize, q'.pageSize, ':',
                CursorPart(q.before, q.beforeId), CursorPart(q'.before, q'.beforeId));
    CursorPartTells(q.before, q.beforeId, q'.before, q'.beforeId);
  }

  // ---------------------------------------------------------------- what a page depends on

  /** A row passes the filter of a query for the follows of its follower alone. */
  lemma {:induction false} SameFilter(rows: seq<Article>, f: set<(nat, nat)>, f': set<(nat, nat)>, q: Query, q': Query)
    requires q.follower == q'.follower && q.before.instant == q'.before.instant && q.beforeId == q'.beforeId
    requires forall author | true :: (q.follower, author) in f <==> (q.follower, author) in f'
    ensures Where(rows, f, q) == Where(rows, f', q')
  {
    if rows != [] {
      SameFilter(rows[1..], f, f', q, q');
    }
  }

  lemma SamePage(rows: seq<Article>, f: set<(nat, nat)>, f': set<(nat, nat)>, q: Query, q': Query)
    requires q.follower == q'.follower && q.before.instant == q'.before.instant && q.beforeId == q'.beforeId
    requires q.pageSize == q'.pageSize
    requires forall author | true :: (q.follower, author) in f <==> (q.follower, author) in f'
    ensures ListPage(Db(rows, f), q) == ListPage(Db(rows, f'), q')
  {
    hide OrderBy, Where;
    SameFilter(rows, f, f', q.(pageSize := q.pageSize + 1), q'.(pageSize := q.pageSize + 1));
  }

  /** Every cached page is the page the direct query would return. */
  ghost predicate Coherent(db: Db, cache: map<string, Page>) {
    forall q: Query | Asked(q) :: Key(q) in cache ==> cache[Key(q)] == ListPage(db, q)
  }

  /** What is left after deleting by prefix. */
  function Without(cache: map<string, Page>, prefix: string): map<string, Page> {
    map k | k in cache && !(prefix <= k) :: cache[k]
  }

  /** Dropping one user's keys makes up for any change of that user's follows. */
  lemma OwnFollowsOnly(db: Db, follows': set<(nat, nat)>, cache: map<string, Page>, user: nat)
    requires Coherent(db, cache)
    requires forall id: (nat, nat) | id.0 != user :: id in db.follows <==> id in follows'
    ensures Coherent(db.(follows := follows'), Without(cache, UserPrefix(user)))
  {
    hide Key, ListPage, UserPrefix;
    var cache' := Without(cache, UserPrefix(user));
    forall q: Query | Asked(q) && Key(q) in cache'
      ensures cache'[Key(q)] == ListPage(db.(follows := follows'), q)
    {
      PrefixIsOwn(user, q);
      SamePage(db.articles, db.follows, follows', q, q);
    }
  }

  /** A page just computed may be stored under its key. */
  lemma StoringKeepsCoherent(db: Db, cache: map<string, Page>, q: Query)
    requires Coherent(db, cache) && Asked(q)
    ensures Coherent(db, cache[Key(q) := ListPage(db, q)])
  {
    hide Key, ListPage;
    forall q': Query | Asked(q') && Key(q') == Key(q)
      ensures ListPage(db, q') == ListPage(db, q)
    {
      KeyTellsQuery(q, q');
      SamePage(db.articles, db.follows, db.follows, q, q');
    }
  }

  lemma NothingLeft(db: Db, cache: map<string, Page>)
    ensures Coherent(db, Without(cache, FOLLOWING))
  {
    hide Key, ListPage;
    forall q: Query | Asked(q)
      ensures Key(q) !in Without(cache, FOLLOWING)
    {
      PrefixIsOwn(0, q);
    }
  }

  lemma ForgettingKeepsCoherent(db: Db, cache: map<string, Page>, key: string)
    requires Coherent(db, cache)
    ensures Coherent(db, cache - {key})
  {
    hide Key, ListPage;
  }

  // ---------------------------------------------------------------- the service

  datatype FollowReply = Done | InvalidFollower | InvalidAuthor | CannotFollowSelf | DbFault

  /** validateFollowActors, in its order. */
  function Check(users: set<nat>, follower: nat, author: nat): (reply: FollowReply)
    ensures reply.Done? <==> follower != 0 && author != 0 && follower != author && follower in users && author in users
    ensures reply == InvalidFollower <==>
              follower == 0 || (author != 0 && follower != author && follower !in users)
    ensures reply == CannotFollowSelf <==> follower == author != 0
    ensures reply != DbFault
  {
    if follower == 0 then InvalidFollower
    else if author == 0 then InvalidAuthor
    else if follower == author then CannotFollowSelf
    else if follower !in users then InvalidFollower
    else if author !in users then InvalidAuthor
    else Done
  }

  class Service {
    const users: set<nat>
    var articles: seq<Article>
    var follows: set<(nat, nat)>
    var cache: map<string, Page>

    constructor (users: set<nat>)
      ensures articles == [] && follows == {} && cache == map[] && this.users == users && Valid()
    {
      this.users := users;
      articles, follows, cache := [], {}, map[];
    }

    function Data(): Db
      reads this
    {
      Db(articles, follows)
    }

    ghost predicate Valid()
      reads this
    {
      Coherent(Data(), cache)
    }

    /** Collect the scanned keys that match, then delete them.  The scan shows every key at
        least once, in any order. */
    method DeleteByPrefix(prefix: string, scanned: seq<string>)
      requires forall k | k in cache :: k in scanned
      modifies this`cache
      ensures cache == Without(old(cache), prefix)
    {
      var keys: set<string>, i := {}, 0;
      while i < |scanned|
        invariant 0 <= i <= |scanned|
        invariant cache == old(cache)
        invariant forall k :: k in keys <==> k in scanned[..i] && prefix <= k
      {
        if prefix <= scanned[i] {
          keys := keys + {scanned[i]};
        }
        i := i + 1;
      }
      cache := cache - keys;
    }

    /** Publish or draft an article, then drop every cached following feed. */
    method Create(article: Article, scanned: seq<string>, fault: bool) returns (ok: bool)
      requires Valid() && forall k | k in cache :: k in scanned
      modifies this`articles, this`cache
      ensures Valid() && ok == !fault
      ensures articles == if fault then old(articles) else old(articles) + [article]
      ensures fault ==> cache == old(cache)
    {
      if fault {
        return false;
      }
      articles := articles + [article];
      DeleteByPrefix(FOLLOWING, scanned);
      NothingLeft(Data(), old(cache));
      ok := true;
    }

    method Follow(follower: nat, author: nat, scanned: seq<string>, fault: bool) returns (reply: FollowReply)
      requires Valid() && forall k | k in cache :: k in scanned
      modifies this`follows, this`cache
      ensures Valid()
      ensures reply == if fault && Check(users, follower, author).Done? then DbFault else Check(users, follower, author)
      ensures if reply.Done? then
                follows == old(follows) + {(follower, author)} && cache == Without(old(cache), UserPrefix(follower))
              else
                follows == old(follows) && cache == old(cache)
    {
      reply := Check(users, follower, author);
      if reply.Done? && fault {
        return DbFault;
      }
      if reply.Done? {
        follows := follows + {(follower, author)};
        DeleteByPrefix(UserPrefix(follower), scanned);
        OwnFollowsOnly(old(Data()), follows, old(cache), follower);
      }
    }

    method Unfollow(follower: nat, author: nat, scanned: seq<string>, fault: bool) returns (reply: FollowReply)
      requires Valid() && forall k | k in cache :: k in scanned
      modifies this`follows, this`cache
      ensures Valid()
      ensures reply == if fault && Check(users, follower, author).Done? then DbFault else Check(users, follower, author)
      ensures if reply.Done? then
                follows == old(follows) - {(follower, author)} && cache == Without(old(cache), UserPrefix(follower))
              else
                follows == old(follows) && cache == old(cache)
    {
      reply := Check(users, follower, author);
      if reply.Done? && fault {
        return DbFault;
      }
      if reply.Done? {
        follows := follows - {(follower, author)};
        DeleteByPrefix(UserPrefix(follower), scanned);
        OwnFollowsOnly(old(Data()), follows, old(cache), follower);
      }
    }

    /** Read through the cache: whether it hits or misses, reads fail or writes fail, the
        answer is the page of the direct query. */
    method ListFollowing(q: Query, blind: bool, stored: bool) returns (page: Page)
      requires Valid() && Asked(q)
      modifies this`cache
      ensures Valid() && page == ListPage(Data(), q)
    {
      hide Key, ListPage;
      if Key(q) in cache && !blind {
        return cache[Key(q)];
      }
      page := ListPage(Data(), q);
      if stored {
        StoringKeepsCoherent(Data(), cache, q);
        cache := cache[Key(q) := page];
      }
    }

    /** An entry reaches the end of its life. */
    method Expire(key: string)
      requires Valid()
      modifies this`cache
      ensures Valid() && cache == old(cache) - {key}
    {
      ForgettingKeepsCoherent(Data(), cache, key);
      cache := cache - {key};
    }
  }
}
