/** The following feed: one page of the articles of the authors a user follows, newest
    first, with a (created_at, id) cursor.  A client walks the pages by sending each
    page's cursor back; every page may be computed on a different snapshot of the data. */
module Feed {
  import opened Common

  /** A point in time with the zone it is shown in; instant 0 is Go's zero time. */
  datatype Time = Time(instant: nat, zone: int)

  datatype Article = Article(id: nat, author: nat, createdAt: Time, published: bool)

  /** A snapshot of the two tables: rows in physical order, and (follower, author) pairs. */
  datatype Db = Db(articles: seq<Article>, follows: set<(nat, nat)>)

  datatype Query = Query(follower: nat, pageSize: int, before: Time, beforeId: nat)

  datatype Cursor = Cursor(at: Time, id: nat)

  datatype Page = Page(items: seq<Article>, hasMore: bool, next: Option<Cursor>)

  const NO_TIME := Time(0, 0)

  predicate DistinctIds(rows: seq<Article>) {
    forall i, j | 0 <= i < j < |rows| :: rows[i].id != rows[j].id
  }

  predicate WellFormed(db: Db) {
    && DistinctIds(db.articles)
    && (forall a | a in db.articles :: a.id > 0 && a.createdAt.instant > 0)
  }

  /** NewFollowingFeedQuery: the page size is clamped, an unreadable time is no time. */
  function NewQuery(follower: nat, pageSize: int, before: Option<Time>, beforeId: nat): (q: Query)
    ensures 1 <= q.pageSize <= 50 && (1 <= pageSize <= 50 ==> q.pageSize == pageSize)
    ensures (pageSize < 1 ==> q.pageSize == 10) && (pageSize > 50 ==> q.pageSize == 50)
    ensures q.follower == follower && (HasCursor(q) <==> before.Some? && before.value.instant != 0 && beforeId > 0)
    ensures HasCursor(q) ==> Cursor(q.before, q.beforeId) == Cursor(before.value, beforeId)
  {
    var size := if pageSize < 1 then 10 else if pageSize > 50 then 50 else pageSize;
    Query(follower, size, if before.Some? then before.value else NO_TIME, beforeId)
  }

  predicate Newer(a: Article, b: Article) {
    a.createdAt.instant > b.createdAt.instant || (a.createdAt.instant == b.createdAt.instant && a.id > b.id)
  }

  predicate HasCursor(q: Query) { q.before.instant != 0 && q.beforeId > 0 }

  predicate PastCursor(q: Query, a: Article) {
    HasCursor(q) ==>
      || a.createdAt.instant < q.before.instant
      || (a.createdAt.instant == q.before.instant && a.id < q.beforeId)
  }

  /** The rows a query is about, cursor aside. */
  predicate InFeed(db: Db, follower: nat, a: Article) {
    a in db.articles && a.published && (follower, a.author) in db.follows && follower != 0
  }

  function Where(rows: seq<Article>, follows: set<(nat, nat)>, q: Query): (out: seq<Article>)
    ensures forall a :: a in out <==> a in rows && a.published && (q.follower, a.author) in follows && PastCursor(q, a)
  {
    if rows == [] then []
    else
      var a := rows[0];
      (if a.published && (q.follower, a.author) in follows && PastCursor(q, a) then [a] else [])
      + Where(rows[1..], follows, q)
  }

  function Insert(a: Article, sorted: seq<Article>): (out: seq<Article>)
    ensures forall b :: b in out <==> b == a || b in sorted
  {
    if sorted == [] || Newer(a, sorted[0]) then [a] + sorted else [sorted[0]] + Insert(a, sorted[1..])
  }

  /** ORDER BY created_at DESC, id DESC. */
  function OrderBy(rows: seq<Article>): (out: seq<Article>)
    ensures forall a :: a in out <==> a in rows
  {
    if rows == [] then [] else Insert(rows[0], OrderBy(rows[1..]))
  }

  function Limit(rows: seq<Article>, n: nat): seq<Article> {
    if |rows| <= n then rows else rows[..n]
  }

  function Matching(db: Db, q: Query): seq<Article> {
    OrderBy(Where(db.articles, db.follows, q))
  }

  /** Repo.ListFollowing. */
  function Select(db: Db, q: Query): seq<Article> {
    if q.follower == 0 then [] else Limit(Matching(db, q), if q.pageSize < 1 then 10 else q.pageSize)
  }

  /** Service.ListFollowing without its cache: one row too many tells whether there is more. */
  function ListPage(db: Db, q: Query): Page {
    var rows := Select(db, q.(pageSize := q.pageSize + 1));
    var hasMore := |rows| > q.pageSize;
    var items := if hasMore && q.pageSize >= 0 then rows[..q.pageSize] else rows;
    var next := if hasMore && |items| > 0 then
                  Some(Cursor(items[|items| - 1].createdAt, items[|items| - 1].id))
                else None;
    Page(items, hasMore, next)
  }

  function Follow(q: Query, next: Cursor): Query {
    q.(before := next.at, beforeId := next.id)
  }

  /** The client's walk: page i is computed on snapshot i. */
  function Walk(snaps: seq<Db>, q: Query): (pages: seq<Page>)
    ensures |pages| <= |snaps|
  {
    if snaps == [] then []
    else
      var page := ListPage(snaps[0], q);
      [page] + (if page.next.Some? then Walk(snaps[1..], Follow(q, page.next.value)) else [])
  }

  function Items(pages: seq<Page>): seq<Article> {
    if pages == [] then [] else pages[0].items + Items(pages[1..])
  }

  /** The client saw a page that said there is nothing more. */
  predicate Finished(pages: seq<Page>) {
    pages != [] && !pages[|pages| - 1].hasMore
  }

  predicate Descending(rows: seq<Article>) {
    forall i, j | 0 <= i < j < |rows| :: Newer(rows[i], rows[j])
  }

  // ---------------------------------------------------------------- ordering

  lemma {:induction false} InsertDescends(a: Article, sorted: seq<Article>)
    requires Descending(sorted) && forall b | b in sorted :: Newer(a, b) || Newer(b, a)
    ensures Descending(Insert(a, sorted))
  {
    if sorted != [] && !Newer(a, sorted[0]) {
      InsertDescends(a, sorted[1..]);
      var rest := Insert(a, sorted[1..]);
      assert forall j | 0 <= j < |rest| :: rest[j] == a || rest[j] in sorted[1..];
    }
  }

  /** Rows with distinct ids come out strictly descending. */
  lemma {:induction false} OrderByDescends(rows: seq<Article>)
    requires DistinctIds(rows)
    ensures Descending(OrderBy(rows))
  {
    if rows != [] {
      OrderByDescends(rows[1..]);
      InsertDescends(rows[0], OrderBy(rows[1..]));
    }
  }

  lemma {:induction false} WhereKeepsIdsApart(rows: seq<Article>, follows: set<(nat, nat)>, q: Query)
    requires DistinctIds(rows)
    ensures DistinctIds(Where(rows, follows, q))
  {
    if rows != [] {
      WhereKeepsIdsApart(rows[1..], follows, q);
      var rest := Where(rows[1..], follows, q);
      assert forall j | 0 <= j < |rest| :: rest[j] in rows[1..];
      assert Where(rows, follows, q) == rest || Where(rows, follows, q) == [rows[0]] + rest;
    }
  }

  lemma MatchingIsTheFeed(db: Db, q: Query)
    requires WellFormed(db) && q.follower != 0
    ensures Descending(Matching(db, q))
    ensures forall a :: a in Matching(db, q) <==> InFeed(db, q.follower, a) && PastCursor(q, a)
  {
    WhereKeepsIdsApart(db.articles, db.follows, q);
    OrderByDescends(Where(db.articles, db.follows, q));
  }

  /** A strictly descending list is determined by its elements, so the result of a query
      does not depend on the physical order of the rows. */
  lemma {:induction false} OneListing(xs: seq<Article>, ys: seq<Article>)
    requires Descending(xs) && Descending(ys)
    requires forall a :: a in xs <==> a in ys
    ensures xs == ys
  {
    if xs == [] {
      assert forall k | 0 <= k < |ys| :: ys[k] in xs;
    } else {
      assert xs[0] in ys;
      assert ys[0] in xs;
      assert xs[0] == ys[0];
      forall a
        ensures a in xs[1..] <==> a in ys[1..]
      {
        assert a in xs[1..] ==> a in xs && Newer(xs[0], a);
        assert a in ys[1..] ==> a in ys && Newer(ys[0], a);
        assert a in xs ==> a == xs[0] || a in xs[1..];
        assert a in ys ==> a == ys[0] || a in ys[1..];
      }
      OneListing(xs[1..], ys[1..]);
    }
  }

  // ---------------------------------------------------------------- one page

  /** A page is the listing cut at the page size; hasMore tells whether something was cut
      off, and the next cursor is the last row shown. */
  lemma PageCuts(db: Db, q: Query)
    requires q.pageSize >= 1 && q.follower != 0
    ensures var page, all := ListPage(db, q), Matching(db, q);
      && page.items == Limit(all, q.pageSize)
      && (page.hasMore <==> |all| > q.pageSize)
      && page.next == if |all| > q.pageSize then
                        Some(Cursor(all[q.pageSize - 1].createdAt, all[q.pageSize - 1].id))
                      else None
  {
    hide OrderBy, Where;
    SameWhere(db.articles, db.follows, q, q.(pageSize := q.pageSize + 1));
  }

  /** What one page promises: it descends, it holds only feed articles past the cursor, and
      a feed article past the cursor is on the page or past the next cursor. */
  lemma PageIsNewestPart(db: Db, q: Query)
    requires WellFormed(db) && q.pageSize >= 1 && q.follower != 0
    ensures var page := ListPage(db, q); Descending(page.items) && (page.next.Some? <==> page.hasMore)
    ensures forall a | a in ListPage(db, q).items :: InFeed(db, q.follower, a) && PastCursor(q, a)
    ensures forall a | InFeed(db, q.follower, a) && PastCursor(q, a) ::
      a in ListPage(db, q).items || (ListPage(db, q).next.Some? && PastCursor(Follow(q, ListPage(db, q).next.value), a))
  {
    hide Matching, ListPage, InFeed, WellFormed;
    MatchingIsTheFeed(db, q);
    PageCuts(db, q);
    var page, all := ListPage(db, q), Matching(db, q);
    assert forall a | a in page.items :: a in all;
    forall a | a in all && a !in page.items
      ensures page.next.Some? && PastCursor(Follow(q, page.next.value), a)
    {
      CutOffIsOlder(all, q, a);
    }
  }

  lemma CutOffIsOlder(all: seq<Article>, q: Query, a: Article)
    requires q.pageSize >= 1 && Descending(all) && a in all && a !in Limit(all, q.pageSize)
    ensures |all| > q.pageSize && Newer(all[q.pageSize - 1], a)
  {
    var k :| 0 <= k < |all| && all[k] == a;
    var shown := Limit(all, q.pageSize);
    assert forall j | 0 <= j < |shown| :: shown[j] == all[j];
  }

  lemma {:induction false} SameWhere(rows: seq<Article>, follows: set<(nat, nat)>, q: Query, q': Query)
    requires q.(pageSize := q'.pageSize) == q'
    ensures Where(rows, follows, q) == Where(rows, follows, q')
  {
    if rows != [] {
      SameWhere(rows[1..], follows, q, q');
    }
  }

  /** After a page, exactly the older articles are past the new cursor. */
  lemma NextIsOlder(db: Db, q: Query, a: Article)
    requires WellFormed(db) && q.pageSize >= 1 && q.follower != 0
    requires ListPage(db, q).next.Some?
    requires PastCursor(Follow(q, ListPage(db, q).next.value), a)
    ensures PastCursor(q, a) && forall b | b in ListPage(db, q).items :: Newer(b, a)
  {
    hide Matching, ListPage, InFeed, WellFormed;
    MatchingIsTheFeed(db, q);
    PageCuts(db, q);
    var items, all := ListPage(db, q).items, Matching(db, q);
    var last := all[q.pageSize - 1];
    assert last in all;
    assert InFeed(db, q.follower, last) && last.id > 0 && last.createdAt.instant > 0 by {
      CursorIsReal(db, q.follower, last);
    }
    assert Newer(last, a);
    assert forall j | 0 <= j < |items| :: items[j] == last || Newer(items[j], last);
  }

  lemma CursorIsReal(db: Db, follower: nat, a: Article)
    requires WellFormed(db) && InFeed(db, follower, a)
    ensures a.id > 0 && a.createdAt.instant > 0
  {
  }

  // ---------------------------------------------------------------- changing data

  /** Whatever happens to the data between the pages: no article is returned twice (the
      whole walk descends strictly), and everything returned was past the cursor. */
  lemma {:induction false} WalkDescends(snaps: seq<Db>, q: Query)
    requires (forall db | db in snaps :: WellFormed(db)) && q.pageSize >= 1 && q.follower != 0
    ensures Descending(Items(Walk(snaps, q)))
    ensures forall a | a in Items(Walk(snaps, q)) :: PastCursor(q, a)
  {
    if snaps != [] {
      PageIsNewestPart(snaps[0], q);
      var page, pages := ListPage(snaps[0], q), Walk(snaps, q);
      if page.next.Some? {
        var q' := Follow(q, page.next.value);
        WalkDescends(snaps[1..], q');
        assert pages[1..] == Walk(snaps[1..], q');
        forall a | a in Items(pages[1..])
          ensures PastCursor(q, a) && forall b | b in page.items :: Newer(b, a)
        {
          NextIsOlder(snaps[0], q, a);
        }
        Append(page.items, Items(pages[1..]));
      } else {
        assert pages[1..] == [];
        assert Items(pages) == page.items + [];
      }
    }
  }

  lemma Append(xs: seq<Article>, ys: seq<Article>)
    requires Descending(xs) && Descending(ys) && forall x, y | x in xs && y in ys :: Newer(x, y)
    ensures Descending(xs + ys)
  {
  }

  lemma {:induction false} WalkFinds(snaps: seq<Db>, q: Query, a: Article)
    requires (forall db | db in snaps :: WellFormed(db) && InFeed(db, q.follower, a)) && q.pageSize >= 1
    requires PastCursor(q, a) && Finished(Walk(snaps, q))
    ensures a in Items(Walk(snaps, q))
  {
    assert snaps != [] && snaps[0] in snaps;
    PageIsNewestPart(snaps[0], q);
    var page, pages := ListPage(snaps[0], q), Walk(snaps, q);
    if a !in page.items {
      var q' := Follow(q, page.next.value);
      assert pages[1..] == Walk(snaps[1..], q');
      assert pages[1..] != [] by {
        assert page.hasMore;
      }
      WalkFinds(snaps[1..], q', a);
    }
  }

  /** The cursor walk is complete and free of repeats over changing data: an article that
      is in the feed in every snapshot is returned exactly once by a walk that ended, and
      everything returned belongs to the feed of one of the snapshots. */
  lemma WalkIsComplete(snaps: seq<Db>, follower: nat, pageSize: int, a: Article)
    requires follower != 0 && a.published
    requires forall db | db in snaps :: WellFormed(db) && a in db.articles && (follower, a.author) in db.follows
    requires Finished(Walk(snaps, NewQuery(follower, pageSize, None, 0)))
    ensures multiset(Items(Walk(snaps, NewQuery(follower, pageSize, None, 0))))[a] == 1
  {
    var q := NewQuery(follower, pageSize, None, 0);
    assert snaps[0] in snaps;
    WalkFinds(snaps, q, a);
    WalkDescends(snaps, q);
    OnlyOnce(Items(Walk(snaps, q)), a);
  }

  lemma {:induction false} OnlyOnce(rows: seq<Article>, a: Article)
    requires Descending(rows)
    ensures multiset(rows)[a] == if a in rows then 1 else 0
  {
    if rows != [] {
      assert rows == [rows[0]] + rows[1..];
      OnlyOnce(rows[1..], a);
      assert a in rows <==> a == rows[0] || a in rows[1..];
      assert rows[0] in rows[1..] ==> Newer(rows[0], rows[0]);
    }
  }

  lemma {:induction false} WalkReturnsFeedRows(snaps: seq<Db>, q: Query, a: Article)
    requires (forall db | db in snaps :: WellFormed(db)) && q.pageSize >= 1
    requires a in Items(Walk(snaps, q))
    ensures exists db | db in snaps :: a in db.articles && a.published && (q.follower, a.author) in db.follows
  {
    var page, pages := ListPage(snaps[0], q), Walk(snaps, q);
    assert snaps[0] in snaps;
    if a in page.items {
      assert q.follower != 0;
      PageIsNewestPart(snaps[0], q);
    } else {
      var q' := Follow(q, page.next.value);
      assert pages[1..] == Walk(snaps[1..], q');
      WalkReturnsFeedRows(snaps[1..], q', a);
    }
  }

  // ---------------------------------------------------------------- unchanging data

  /** The list cut into pages; an empty list still takes one (empty) page. */
  function Chunks(rows: seq<Article>, size: nat): (chunks: seq<seq<Article>>)
    requires size >= 1
    ensures |chunks| >= 1
    decreases |rows|
  {
    if |rows| <= size then [rows] else [rows[..size]] + Chunks(rows[size..], size)
  }

  /** pages is the smallest number of pages of that size that hold n rows. */
  predicate Ceiling(n: nat, size: nat, pages: nat) {
    (pages - 1) * size < n <= pages * size
  }

  lemma OnePageMore(n: nat, size: nat, pages: nat)
    requires n > size >= 1 && Ceiling(n - size, size, pages)
    ensures Ceiling(n, size, pages + 1)
  {
    assert (pages - 1) * size + size == pages * size;
    assert (pages + 1) * size == pages * size + size;
  }

  lemma OnePage(n: nat, size: nat)
    ensures 1 <= n <= size ==> Ceiling(n, size, 1)
  {
  }

  /** There are ceil(n / size) chunks for n > 0, all together they are the list. */
  lemma {:induction false} ChunksCover(rows: seq<Article>, size: nat)
    requires size >= 1
    ensures |rows| > 0 ==> Ceiling(|rows|, size, |Chunks(rows, size)|)
    ensures |rows| == 0 ==> |Chunks(rows, size)| == 1
    ensures Flat(Chunks(rows, size)) == rows
    decreases |rows|
  {
    hide Ceiling;
    if |rows| > size {
      ChunksCover(rows[size..], size);
      OnePageMore(|rows|, size, |Chunks(rows[size..], size)|);
      assert Chunks(rows, size)[1..] == Chunks(rows[size..], size);
      assert rows[..size] + rows[size..] == rows;
    } else {
      assert [rows][1..] == [];
      assert rows + [] == rows;
      OnePage(|rows|, size);
    }
  }

  function Flat(chunks: seq<seq<Article>>): seq<Article> {
    if chunks == [] then [] else chunks[0] + Flat(chunks[1..])
  }

  /** The pages show the given chunks, and each says "more" exactly when a chunk follows. */
  predicate Shows(pages: seq<Page>, chunks: seq<seq<Article>>) {
    && |pages| == |chunks|
    && forall i | 0 <= i < |pages| :: pages[i].items == chunks[i] && (pages[i].hasMore <==> i + 1 < |chunks|)
  }

  lemma {:induction false} FixedWalkFrom(db: Db, snaps: seq<Db>, q: Query)
    requires WellFormed(db) && (forall s | s in snaps :: s == db) && q.pageSize >= 1 && q.follower != 0
    requires |snaps| >= |Chunks(Matching(db, q), q.pageSize)|
    ensures Shows(Walk(snaps, q), Chunks(Matching(db, q), q.pageSize))
    decreases |snaps|
  {
    hide Matching, ListPage, WellFormed, Shows;
    assert snaps[0] in snaps;
    PageCuts(db, q);
    var page, all := ListPage(db, q), Matching(db, q);
    var chunks := Chunks(all, q.pageSize);
    if page.next.Some? {
      var q' := Follow(q, page.next.value);
      RestAfterPage(db, q);
      assert chunks == [all[..q.pageSize]] + Chunks(Matching(db, q'), q.pageSize);
      assert |chunks| == 1 + |Chunks(Matching(db, q'), q'.pageSize)|;
      assert forall s | s in snaps[1..] :: s in snaps;
      FixedWalkFrom(db, snaps[1..], q');
      ShowsOneMore(page, all[..q.pageSize], Walk(snaps[1..], q'), Chunks(Matching(db, q'), q.pageSize));
    } else {
      assert Walk(snaps, q) == [page] && chunks == [all];
      ShowsOne(page, all);
    }
  }

  lemma ShowsOne(page: Page, chunk: seq<Article>)
    requires page.items == chunk && !page.hasMore
    ensures Shows([page], [chunk])
  {
  }

  lemma ShowsOneMore(page: Page, chunk: seq<Article>, pages: seq<Page>, chunks: seq<seq<Article>>)
    requires Shows(pages, chunks) && page.items == chunk && page.hasMore && |chunks| >= 1
    ensures Shows([page] + pages, [chunk] + chunks)
  {
  }

  /** On unchanged data the next query matches exactly what the page left over. */
  lemma RestAfterPage(db: Db, q: Query)
    requires WellFormed(db) && q.pageSize >= 1 && q.follower != 0 && |Matching(db, q)| > q.pageSize
    ensures var last := Matching(db, q)[q.pageSize - 1];
      Matching(db, Follow(q, Cursor(last.createdAt, last.id))) == Matching(db, q)[q.pageSize..]
  {
    hide Matching, WellFormed, InFeed, Newer, Descending;
    var all := Matching(db, q);
    var last := all[q.pageSize - 1];
    var q' := Follow(q, Cursor(last.createdAt, last.id));
    MatchingIsTheFeed(db, q);
    MatchingIsTheFeed(db, q');
    assert last in all;
    CursorIsReal(db, q.follower, last);
    forall a
      ensures a in Matching(db, q') <==> a in all[q.pageSize..]
    {
      OlderThanLast(all, q.pageSize - 1, a);
      NewerIsPast(q, last, a);
    }
    RestDescends(all, q.pageSize);
    OneListing(Matching(db, q'), all[q.pageSize..]);
  }

  lemma NewerIsPast(q: Query, last: Article, a: Article)
    requires PastCursor(q, last) && last.id > 0 && last.createdAt.instant > 0
    ensures Newer(last, a) <==> PastCursor(Follow(q, Cursor(last.createdAt, last.id)), a)
    ensures Newer(last, a) ==> PastCursor(q, a)
  {
  }

  lemma RestDescends(all: seq<Article>, k: nat)
    requires Descending(all) && k <= |all|
    ensures Descending(all[k..])
  {
  }

  lemma OlderThanLast(all: seq<Article>, k: nat, a: Article)
    requires Descending(all) && k < |all|
    ensures a in all[k + 1..] <==> a in all && Newer(all[k], a)
  {
    if a in all && Newer(all[k], a) {
      var j :| 0 <= j < |all| && all[j] == a;
      assert j > k;
      assert all[k + 1..][j - k - 1] == a;
    }
  }

  /** On unchanged data the walk shows the whole feed, newest first, cut into pages: it
      ends, it takes ceil(n / pageSize) pages for n > 0 articles (one for none), and
      hasMore is exact on every page. */
  lemma FixedWalk(db: Db, snaps: seq<Db>, follower: nat, pageSize: int)
    requires WellFormed(db) && follower != 0 && forall s | s in snaps :: s == db
    requires |snaps| > |Matching(db, NewQuery(follower, pageSize, None, 0))|
    ensures var q := NewQuery(follower, pageSize, None, 0);
      var pages, feed := Walk(snaps, q), Matching(db, q);
      && (forall a :: a in feed <==> a in db.articles && a.published && (follower, a.author) in db.follows)
      && (forall i, j | 0 <= i < j < |feed| ::
            || feed[i].createdAt.instant > feed[j].createdAt.instant
            || (feed[i].createdAt.instant == feed[j].createdAt.instant && feed[i].id > feed[j].id))
      && Items(pages) == feed && Finished(pages)
      && (if |feed| == 0 then |pages| == 1 else Ceiling(|feed|, q.pageSize, |pages|))
      && (forall i | 0 <= i < |pages| :: pages[i].hasMore <==> i + 1 < |pages|)
  {
    hide Matching, Walk, Ceiling, WellFormed;
    var q := NewQuery(follower, pageSize, None, 0);
    var pages, feed := Walk(snaps, q), Matching(db, q);
    MatchingIsTheFeed(db, q);
    ChunksCover(feed, q.pageSize);
    FewChunks(feed, q.pageSize);
    FixedWalkFrom(db, snaps, q);
    ShownItems(pages, Chunks(feed, q.pageSize));
  }

  lemma {:induction false} FewChunks(rows: seq<Article>, size: nat)
    requires size >= 1
    ensures |Chunks(rows, size)| <= |rows| + 1
    decreases |rows|
  {
    if |rows| > size {
      FewChunks(rows[size..], size);
    }
  }

  lemma {:induction false} ShownItems(pages: seq<Page>, chunks: seq<seq<Article>>)
    requires |pages| == |chunks| && forall i | 0 <= i < |pages| :: pages[i].items == chunks[i]
    ensures Items(pages) == Flat(chunks)
  {
    if pages != [] {
      ShownItems(pages[1..], chunks[1..]);
    }
  }
}
