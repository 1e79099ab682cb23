/** The hot ranking: scores kept incrementally as people like, comment, favourite and
    view, against the formula that recomputes a score from the article's counts.  Every
    call to the queue and to the ranking may fail, with or without effect. */
module Ranking {
  import opened Common

  const VIEW_HEAT := 1.0
  const LIKE_HEAT := 8.0
  const COMMENT_HEAT := 12.0
  const FAVORITE_HEAT := 10.0

  datatype Status = Draft | Published | Archived

  /** createdAt is in Unix seconds. */
  datatype Row = Row(status: Status, createdAt: int, views: nat, likes: nat, comments: nat, favorites: nat)

  datatype Comment = Comment(article: nat, user: nat)

  /** A queued job, by the article it is about. */
  datatype Event =
    | Viewed(article: nat)
    | CommentCreated(article: nat)
    | CommentDeleted(article: nat)
    | FavoriteCreated(article: nat)
    | FavoriteDeleted(article: nat)

  /** How the work of a job goes: whether a view got counted (every other count moves with
      its row), and the fate of the score update.  Work that stops earlier has lost it. */
  datatype Effort = Effort(counted: bool, heat: Fault)

  /** The tables, the sorted set of scores and the queued jobs.  `drift` is history: for
      each article covered by the last seed, the heat that was queued for it at the seed,
      less the heat lost and plus the heat applied twice since. */
  datatype State = State(
    rows: map<nat, Row>,
    likes: set<(nat, nat)>,
    comments: map<nat, Comment>,
    favorites: set<(nat, nat)>,
    scores: map<nat, real>,
    queue: seq<Event>,
    drift: map<nat, real>)

  function InitialHotScore(createdAt: int): real { 50.0 + createdAt as real / 86400.0 }

  /** The score a seed gives to an article. */
  function Formula(row: Row): real {
    InitialHotScore(row.createdAt) + row.views as real * VIEW_HEAT + row.likes as real * LIKE_HEAT
    + row.comments as real * COMMENT_HEAT + row.favorites as real * FAVORITE_HEAT
  }

  /** What applying a job adds to the score. */
  function Heat(e: Event): real {
    match e
    case Viewed(_) => VIEW_HEAT
    case CommentCreated(_) => COMMENT_HEAT
    case CommentDeleted(_) => -COMMENT_HEAT
    case FavoriteCreated(_) => FAVORITE_HEAT
    case FavoriteDeleted(_) => -FAVORITE_HEAT
  }

  /** Heat the row already counts but the score does not: a view is counted only when its
      job is applied, everything else when the row is written. */
  function Owed(e: Event, a: nat): real {
    if e.article == a && !e.Viewed? then Heat(e) else 0.0
  }

  function Pending(queue: seq<Event>, a: nat): real {
    if queue == [] then 0.0 else Pending(queue[..|queue| - 1], a) + Owed(queue[|queue| - 1], a)
  }

  /** AddHotScore: ZINCRBY, which creates a missing member; id 0 is ignored. */
  function AddHotScore(scores: map<nat, real>, a: nat, delta: real): map<nat, real> {
    if a == 0 then scores else scores[a := (if a in scores then scores[a] else 0.0) + delta]
  }

  function Of(pairs: set<(nat, nat)>, a: nat): set<(nat, nat)> {
    set p | p in pairs && p.0 == a
  }

  /** The comments table as (article, comment id) pairs. */
  function Pairs(comments: map<nat, Comment>): set<(nat, nat)> {
    set id | id in comments :: (comments[id].article, id)
  }

  predicate IsPublished(s: State, a: nat) { a in s.rows && s.rows[a].status == Published }

  /** Everybody may open the article, and opening it counts as a view. */
  predicate IsShown(s: State, a: nat) { a in s.rows && s.rows[a].status != Draft }

  function AllPublished(s: State): set<nat> { set a | a in s.rows && s.rows[a].status == Published }

  // ---------------------------------------------------------------- steps

  datatype Step =
    | Create(a: nat, status: Status, createdAt: int)
    | Like(a: nat, u: nat, heat: Fault)
    | Unlike(a: nat, u: nat, heat: Fault)
    | AddComment(id: nat, a: nat, u: nat, publish: Fault, work: Effort)
    | DeleteComment(id: nat, u: nat, publish: Fault, work: Effort)
    | AddFavorite(a: nat, u: nat, publish: Fault, work: Effort)
    | DeleteFavorite(a: nat, u: nat, publish: Fault, work: Effort)
    | View(a: nat, publish: Fault, work: Effort)
    | Apply(i: nat, work: Effort, kept: bool) // kept: a copy of the job is still queued afterwards
    | Seed(listing: seq<nat>)
    | Drop

  function Drifted(drift: map<nat, real>, a: nat, delta: real): map<nat, real> {
    if a in drift then drift[a := drift[a] + delta] else drift
  }

  /** RecordView, RecordCommentHeat, RevertCommentHeat and RecordFavoriteHeat.  A view that
      is counted without its heat leaves the score behind. */
  function Handle(s: State, e: Event, work: Effort): State {
    var scores := if work.heat.Applied() then AddHotScore(s.scores, e.article, Heat(e)) else s.scores;
    if !e.Viewed? then s.(scores := scores)
    else if work.counted && e.article in s.rows then
      s.(rows := s.rows[e.article := s.rows[e.article].(views := s.rows[e.article].views + 1)],
         scores := scores,
         drift := if work.heat.Applied() then s.drift else Drifted(s.drift, e.article, -VIEW_HEAT))
    else s
  }

  /** Heat of a counted change that ends up twice in score and queue together, or nowhere. */
  function Surplus(e: Event, queued: bool, applied: bool): real {
    if e.Viewed? || queued != applied then 0.0 else if queued then Heat(e) else -Heat(e)
  }

  /** The work of a job is done or not, and a copy of the job is queued or not. */
  function Deliver(s: State, e: Event, queued: bool, worked: bool, work: Effort): State {
    var s' := if worked then Handle(s, e, work) else s;
    s'.(drift := Drifted(s'.drift, e.article, Surplus(e, queued, worked && work.heat.Applied())))
  }

  /** Publish the job; when publishing seems to have failed do its work at once. */
  function Emit(s: State, e: Event, publish: Fault, work: Effort): State {
    Deliver(s.(queue := if publish.Applied() then s.queue + [e] else s.queue),
            e, publish.Applied(), publish.Lost?, work)
  }

  function Without(queue: seq<Event>, i: nat): seq<Event>
    requires i < |queue|
  {
    queue[..i] + queue[i + 1..]
  }

  /** A worker runs a queued job; on an error, or when its acknowledgement is lost, a copy
      stays queued. */
  function AfterApply(s: State, i: nat, work: Effort, kept: bool): State
    requires i < |s.queue|
  {
    Deliver(s.(queue := if kept then s.queue else Without(s.queue, i)), s.queue[i], kept, true, work)
  }

  /** The transaction commits first; the score follows only for a new like. */
  function AfterLike(s: State, a: nat, u: nat, heat: Fault): State
    requires a in s.rows
  {
    var likes, changed := s.likes + {(a, u)}, (a, u) !in s.likes;
    s.(likes := likes,
       rows := s.rows[a := s.rows[a].(likes := |Of(likes, a)|)],
       scores := if changed && heat.Applied() then AddHotScore(s.scores, a, LIKE_HEAT) else s.scores,
       drift := if changed && !heat.Applied() then Drifted(s.drift, a, -LIKE_HEAT) else s.drift)
  }

  function AfterUnlike(s: State, a: nat, u: nat, heat: Fault): State
    requires a in s.rows
  {
    var likes, changed := s.likes - {(a, u)}, (a, u) in s.likes;
    s.(likes := likes,
       rows := s.rows[a := s.rows[a].(likes := |Of(likes, a)|)],
       scores := if changed && heat.Applied() then AddHotScore(s.scores, a, -LIKE_HEAT) else s.scores,
       drift := if changed && !heat.Applied() then Drifted(s.drift, a, LIKE_HEAT) else s.drift)
  }

  function AfterAddComment(s: State, id: nat, a: nat, u: nat): State
    requires a in s.rows
  {
    s.(comments := s.comments[id := Comment(a, u)],
       rows := s.rows[a := s.rows[a].(comments := s.rows[a].comments + 1)])
  }

  function Less(n: nat): nat { if n > 0 then n - 1 else 0 }

  function AfterDeleteComment(s: State, id: nat): State
    requires id in s.comments
  {
    var a := s.comments[id].article;
    s.(comments := s.comments - {id},
       rows := if a in s.rows then s.rows[a := s.rows[a].(comments := Less(s.rows[a].comments))] else s.rows)
  }

  function AfterAddFavorite(s: State, a: nat, u: nat): State
    requires a in s.rows
  {
    s.(favorites := s.favorites + {(a, u)},
       rows := s.rows[a := s.rows[a].(favorites := s.rows[a].favorites + 1)])
  }

  /** An unsigned column: the transaction fails rather than go below zero. */
  predicate CanDeleteFavorite(s: State, a: nat) { a in s.rows ==> s.rows[a].favorites > 0 }

  function AfterDeleteFavorite(s: State, a: nat, u: nat): State
    requires CanDeleteFavorite(s, a)
  {
    s.(favorites := s.favorites - {(a, u)},
       rows := if a in s.rows then s.rows[a := s.rows[a].(favorites := s.rows[a].favorites - 1)] else s.rows)
  }

  /** ORDER BY like_count, favorite_count, view_count, created_at, all descending. */
  predicate Ahead(r: Row, q: Row) {
    || r.likes > q.likes
    || (r.likes == q.likes && (r.favorites > q.favorites
      || (r.favorites == q.favorites && (r.views > q.views
        || (r.views == q.views && r.createdAt >= q.createdAt)))))
  }

  predicate AheadIn(s: State, a: nat, b: nat) {
    a in s.rows && b in s.rows && Ahead(s.rows[a], s.rows[b])
  }

  predicate Distinct(listing: seq<nat>) {
    forall i, j | 0 <= i < j < |listing| :: listing[i] != listing[j]
  }

  /** A result the database may give: the first `limit` published articles in that order,
      ties in any order. */
  ghost predicate Listing(s: State, listing: seq<nat>, limit: nat) {
    && Distinct(listing) && (forall a | a in listing :: IsPublished(s, a))
    && |listing| == (if |AllPublished(s)| < limit then |AllPublished(s)| else limit)
    && (forall i, j | 0 <= i < j < |listing| :: AheadIn(s, listing[i], listing[j]))
    && (forall a, b | a in listing && b !in listing && IsPublished(s, b) :: AheadIn(s, a, b))
  }

  const SEED_LIMIT: nat := 200

  /** SeedHotRanking: nothing unless the sorted set is empty. */
  function AfterSeed(s: State, listing: seq<nat>): State
    requires forall a | a in listing :: a in s.rows
  {
    if s.scores != map[] then s
    else
      s.(scores := map a | a in listing :: Formula(s.rows[a]),
         drift := map a | a in listing :: Pending(s.queue, a))
  }

  /** A request that is refused, or that fails before its commit, changes nothing. */
  ghost predicate Enabled(s: State, step: Step) {
    match step
    case Create(a, _, _) => a != 0 && a !in s.rows
    case Like(a, _, _) => IsPublished(s, a)
    case Unlike(a, _, _) => IsPublished(s, a)
    case AddComment(id, a, _, _, _) => id !in s.comments && IsPublished(s, a)
    case DeleteComment(id, u, _, _) => id in s.comments && s.comments[id].user == u
    case AddFavorite(a, u, _, _) => IsPublished(s, a) && (a, u) !in s.favorites
    case DeleteFavorite(a, u, _, _) => (a, u) in s.favorites && CanDeleteFavorite(s, a)
    case View(a, _, _) => a != 0 && IsShown(s, a)
    case Apply(i, _, _) => i < |s.queue|
    case Seed(listing) => Listing(s, listing, SEED_LIMIT)
    case Drop => true
  }

  ghost function After(s: State, step: Step): State
    requires Enabled(s, step)
  {
    match step
    case Create(a, status, createdAt) => s.(rows := s.rows[a := Row(status, createdAt, 0, 0, 0, 0)])
    case Like(a, u, heat) => AfterLike(s, a, u, heat)
    case Unlike(a, u, heat) => AfterUnlike(s, a, u, heat)
    case AddComment(id, a, u, publish, work) =>
      Emit(AfterAddComment(s, id, a, u), CommentCreated(a), publish, work)
    case DeleteComment(id, _, publish, work) =>
      Emit(AfterDeleteComment(s, id), CommentDeleted(s.comments[id].article), publish, work)
    case AddFavorite(a, u, publish, work) =>
      Emit(AfterAddFavorite(s, a, u), FavoriteCreated(a), publish, work)
    case DeleteFavorite(a, u, publish, work) =>
      Emit(AfterDeleteFavorite(s, a, u), FavoriteDeleted(a), publish, work)
    case View(a, publish, work) => Emit(s, Viewed(a), publish, work)
    case Apply(i, work, kept) => AfterApply(s, i, work, kept)
    case Seed(listing) => AfterSeed(s, listing)
    case Drop => s.(scores := map[], drift := map[])
  }

  ghost function Do(s: State, step: Step): State {
    if Enabled(s, step) then After(s, step) else s
  }

  ghost function Run(s: State, steps: seq<Step>): State {
    if steps == [] then s else Do(Run(s, steps[..|steps| - 1]), steps[|steps| - 1])
  }

  const START := State(map[], {}, map[], {}, map[], [], map[])

  // ---------------------------------------------------------------- invariants

  /** The counts of every article are the numbers of its rows. */
  ghost predicate CountsHold(s: State) {
    forall a | a in s.rows ::
      && s.rows[a].likes == |Of(s.likes, a)|
      && s.rows[a].comments == |Of(Pairs(s.comments), a)|
      && s.rows[a].favorites == |Of(s.favorites, a)|
  }

  /** Likes, comments and favourites are about published articles, and so are the articles
      a seed covered; views, and with them scores, about any article that is shown. */
  ghost predicate AboutShown(s: State) {
    && (forall p | p in s.likes :: IsPublished(s, p.0))
    && (forall id | id in s.comments :: IsPublished(s, s.comments[id].article))
    && (forall p | p in s.favorites :: IsPublished(s, p.0))
    && (forall e | e in s.queue :: if e.Viewed? then IsShown(s, e.article) else IsPublished(s, e.article))
    && (forall a | a in s.scores :: IsShown(s, a))
    && (forall a | a in s.drift :: IsPublished(s, a) && a in s.scores)
    && 0 !in s.rows
  }

  /** The score of a covered article is exact up to the heat still queued and the drift. */
  ghost predicate ScoresHold(s: State) {
    forall a | a in s.drift ::
      && a in s.scores && a in s.rows
      && s.scores[a] + Pending(s.queue, a) == Formula(s.rows[a]) + s.drift[a]
  }

  ghost predicate Consistent(s: State) {
    CountsHold(s) && AboutShown(s) && ScoresHold(s)
  }

  // ---------------------------------------------------------------- sums and counts

  lemma {:induction false} PendingAppend(x: seq<Event>, y: seq<Event>, a: nat)
    ensures Pending(x + y, a) == Pending(x, a) + Pending(y, a)
  {
    if y == [] {
      assert x + y == x;
    } else {
      var init := y[..|y| - 1];
      PendingAppend(x, init, a);
      assert (x + y)[..|x + y| - 1] == x + init;
    }
  }

  lemma PendingOne(e: Event, a: nat)
    ensures Pending([e], a) == Owed(e, a)
  {
    assert [e][..0] == [];
  }

  lemma PendingWithout(queue: seq<Event>, i: nat, a: nat)
    requires i < |queue|
    ensures Pending(Without(queue, i), a) == Pending(queue, a) - Owed(queue[i], a)
  {
    var head, tail := queue[..i], queue[i + 1..];
    assert queue == head + [queue[i]] + tail;
    PendingAppend(head + [queue[i]], tail, a);
    PendingAppend(head, [queue[i]], a);
    PendingAppend(head, tail, a);
    PendingOne(queue[i], a);
  }

  lemma AddPair(pairs: set<(nat, nat)>, p: (nat, nat), a: nat)
    ensures |Of(pairs + {p}, a)| == |Of(pairs, a)| + if p.0 == a && p !in pairs then 1 else 0
  {
    if p in pairs {
      assert pairs + {p} == pairs;
    } else if p.0 == a {
      assert Of(pairs + {p}, a) == Of(pairs, a) + {p};
    } else {
      assert Of(pairs + {p}, a) == Of(pairs, a);
    }
  }

  lemma RemovePair(pairs: set<(nat, nat)>, p: (nat, nat), a: nat)
    ensures |Of(pairs - {p}, a)| == |Of(pairs, a)| - if p.0 == a && p in pairs then 1 else 0
  {
    if p in pairs {
      AddPair(pairs - {p}, p, a);
      assert pairs - {p} + {p} == pairs;
    } else {
      assert pairs - {p} == pairs;
    }
  }

  lemma PairsOfMore(comments: map<nat, Comment>, id: nat, c: Comment)
    requires id !in comments
    ensures Pairs(comments[id := c]) == Pairs(comments) + {(c.article, id)} && (c.article, id) !in Pairs(comments)
  {
    var more := comments[id := c];
    assert forall p :: p in Pairs(more) <==> p.1 in more && p.0 == more[p.1].article;
    assert forall p :: p in Pairs(comments) <==> p.1 in comments && p.0 == comments[p.1].article;
  }

  lemma PairsOfLess(comments: map<nat, Comment>, id: nat)
    requires id in comments
    ensures var p := (comments[id].article, id); Pairs(comments - {id}) == Pairs(comments) - {p} && p in Pairs(comments)
  {
    var less := comments - {id};
    assert forall p :: p in Pairs(less) <==> p.1 in less && p.0 == less[p.1].article;
    assert forall p :: p in Pairs(comments) <==> p.1 in comments && p.0 == comments[p.1].article;
  }

  lemma NoRowsNoPairs(pairs: set<(nat, nat)>, a: nat)
    requires forall p | p in pairs :: p.0 != a
    ensures |Of(pairs, a)| == 0
  {
    assert Of(pairs, a) == {};
  }

  // ---------------------------------------------------------------- scores

  /** All covered articles balance, but a, which is off by x. */
  ghost predicate OffBy(s: State, a: nat, x: real) {
    forall b | b in s.drift ::
      && b in s.scores && b in s.rows
      && s.scores[b] + Pending(s.queue, b) == Formula(s.rows[b]) + s.drift[b] + if b == a then x else 0.0
  }

  lemma OffByNothing(s: State, a: nat)
    ensures ScoresHold(s) <==> OffBy(s, a, 0.0)
  {
    hide Formula, Pending;
  }

  /** Adding heat to a score, or booking it as drift, takes it off the imbalance. */
  lemma Rebalance(s: State, s': State, a: nat, x: real, heat: real, booked: real)
    requires OffBy(s, a, x) && a != 0
    requires s' == s.(scores := s'.scores, drift := s'.drift)
    requires s'.scores == AddHotScore(s.scores, a, heat) || (heat == 0.0 && s'.scores == s.scores)
    requires s'.drift == Drifted(s.drift, a, booked)
    ensures OffBy(s', a, x + heat - booked)
  {
    hide Formula, Pending;
  }

  /** The row of an article changes in its counts only. */
  ghost predicate Recounts(s: State, rows: map<nat, Row>, a: nat) {
    && rows.Keys == s.rows.Keys && (forall b | b in s.rows && b != a :: rows[b] == s.rows[b])
    && (a in s.rows ==> rows[a].status == s.rows[a].status && rows[a].createdAt == s.rows[a].createdAt)
  }

  /** A row or queue change of one article puts that article off by what it moved. */
  lemma Unbalance(s: State, s': State, a: nat, formula: real, pending: real)
    requires ScoresHold(s) && Recounts(s, s'.rows, a) && a in s.rows
    requires s'.scores == s.scores && s'.drift == s.drift
    requires Formula(s'.rows[a]) == Formula(s.rows[a]) + formula
    requires Pending(s'.queue, a) == Pending(s.queue, a) + pending
    requires forall b: nat | b != a :: Pending(s'.queue, b) == Pending(s.queue, b)
    ensures OffBy(s', a, pending - formula)
  {
    hide Formula, Pending;
  }

  /** Once the queue has its copy (or not), delivering a change settles what is owed. */
  lemma DeliverBalances(s: State, e: Event, queued: bool, worked: bool, work: Effort)
    requires OffBy(s, e.article, if queued then 0.0 else -Heat(e)) && !e.Viewed? && e.article != 0
    ensures ScoresHold(Deliver(s, e, queued, worked, work))
  {
    hide OffBy, Heat, ScoresHold, AddHotScore, Drifted;
    var applied := worked && work.heat.Applied();
    Rebalance(s, Deliver(s, e, queued, worked, work), e.article, if queued then 0.0 else -Heat(e),
              if applied then Heat(e) else 0.0, Surplus(e, queued, applied));
    OffByNothing(Deliver(s, e, queued, worked, work), e.article);
  }

  lemma NoDrifting(drift: map<nat, real>, a: nat)
    ensures Drifted(drift, a, 0.0) == drift
  {
  }

  /** A view moves count and score together, or books the difference. */
  lemma ViewBalances(s: State, e: Event, queued: bool, worked: bool, work: Effort)
    requires ScoresHold(s) && e.Viewed? && e.article != 0
    ensures ScoresHold(Deliver(s, e, queued, worked, work))
  {
    var a, s' := e.article, Deliver(s, e, queued, worked, work);
    NoDrifting(Handle(s, e, work).drift, a);
    NoDrifting(s.drift, a);
    hide OffBy, ScoresHold, AddHotScore, Drifted, Pending, Formula;
    if worked && work.counted && a in s.rows {
      var mid := s.(rows := s'.rows);
      FormulaMoves(s.rows[a], mid.rows[a]);
      Unbalance(s, mid, a, VIEW_HEAT, 0.0);
      var applied := work.heat.Applied();
      if applied {
        NoDrifting(s.drift, a);
      }
      Rebalance(mid, s', a, -VIEW_HEAT, if applied then VIEW_HEAT else 0.0, if applied then 0.0 else -VIEW_HEAT);
      OffByNothing(s', a);
    }
  }

  // ---------------------------------------------------------------- what a row change does

  /** The counts of other articles stay, those of a are right in the new tables. */
  lemma CountsMove(s: State, s': State, a: nat)
    requires CountsHold(s) && a in s.rows && s'.rows.Keys == s.rows.Keys
    requires forall b | b in s.rows && b != a ::
      && s'.rows[b] == s.rows[b] && |Of(s'.likes, b)| == |Of(s.likes, b)|
      && |Of(Pairs(s'.comments), b)| == |Of(Pairs(s.comments), b)| && |Of(s'.favorites, b)| == |Of(s.favorites, b)|
    requires s'.rows[a].likes == |Of(s'.likes, a)| && s'.rows[a].comments == |Of(Pairs(s'.comments), a)|
    requires s'.rows[a].favorites == |Of(s'.favorites, a)|
    ensures CountsHold(s')
  {
    hide Of, Pairs;
  }

  lemma RecountKeepsStatus(s: State, s': State, a: nat)
    requires Recounts(s, s'.rows, a)
    ensures forall b :: IsPublished(s', b) <==> IsPublished(s, b)
    ensures forall b :: IsShown(s', b) <==> IsShown(s, b)
  {
  }

  lemma FormulaMoves(row: Row, row': Row)
    requires row'.createdAt == row.createdAt
    ensures Formula(row') == Formula(row) + (row'.views - row.views) as real * VIEW_HEAT
      + (row'.likes - row.likes) as real * LIKE_HEAT + (row'.comments - row.comments) as real * COMMENT_HEAT
      + (row'.favorites - row.favorites) as real * FAVORITE_HEAT
  {
  }

  // ---------------------------------------------------------------- likes

  lemma LikeKeepsCounts(s: State, a: nat, u: nat, heat: Fault)
    requires CountsHold(s) && a in s.rows
    ensures CountsHold(AfterLike(s, a, u, heat)) && CountsHold(AfterUnlike(s, a, u, heat))
    ensures |Of(s.likes + {(a, u)}, a)| == s.rows[a].likes + if (a, u) in s.likes then 0 else 1
    ensures |Of(s.likes - {(a, u)}, a)| == s.rows[a].likes - if (a, u) in s.likes then 1 else 0
  {
    hide Of, Pairs, AddHotScore, Drifted;
    forall b: nat
      ensures |Of(s.likes + {(a, u)}, b)| == |Of(s.likes, b)| + if b == a && (a, u) !in s.likes then 1 else 0
      ensures |Of(s.likes - {(a, u)}, b)| == |Of(s.likes, b)| - if b == a && (a, u) in s.likes then 1 else 0
    {
      AddPair(s.likes, (a, u), b);
      RemovePair(s.likes, (a, u), b);
    }
    CountsMove(s, AfterLike(s, a, u, heat), a);
    CountsMove(s, AfterUnlike(s, a, u, heat), a);
  }

  lemma LikeKeepsAbout(s: State, a: nat, u: nat, heat: Fault)
    requires AboutShown(s) && IsPublished(s, a)
    ensures AboutShown(AfterLike(s, a, u, heat))
  {
    hide Of;
    RecountKeepsStatus(s, AfterLike(s, a, u, heat), a);
  }

  lemma UnlikeKeepsAbout(s: State, a: nat, u: nat, heat: Fault)
    requires AboutShown(s) && IsPublished(s, a)
    ensures AboutShown(AfterUnlike(s, a, u, heat))
  {
    hide Of;
    RecountKeepsStatus(s, AfterUnlike(s, a, u, heat), a);
  }

  /** A like moves the formula; the score follows, or the loss is booked. */
  lemma LikesBalance(s: State, s': State, a: nat, delta: real, applied: bool)
    requires ScoresHold(s) && Recounts(s, s'.rows, a) && a in s.rows && a != 0 && s'.queue == s.queue
    requires Formula(s'.rows[a]) == Formula(s.rows[a]) + delta
    requires s'.scores == if applied && delta != 0.0 then AddHotScore(s.scores, a, delta) else s.scores
    requires s'.drift == if !applied && delta != 0.0 then Drifted(s.drift, a, -delta) else s.drift
    ensures ScoresHold(s')
  {
    hide Formula, Pending, OffBy, ScoresHold, AddHotScore, Drifted;
    var mid := s'.(scores := s.scores, drift := s.drift);
    Unbalance(s, mid, a, delta, 0.0);
    NoDrifting(s.drift, a);
    Rebalance(mid, s', a, -delta, if applied then delta else 0.0, if applied then 0.0 else -delta);
    OffByNothing(s', a);
  }

  lemma LikeKeepsScores(s: State, a: nat, u: nat, heat: Fault)
    requires CountsHold(s) && ScoresHold(s) && a in s.rows && a != 0
    ensures ScoresHold(AfterLike(s, a, u, heat))
  {
    hide Of, CountsHold, ScoresHold, Formula, AddHotScore, Drifted;
    LikeKeepsCounts(s, a, u, heat);
    var s' := AfterLike(s, a, u, heat);
    FormulaMoves(s.rows[a], s'.rows[a]);
    LikesBalance(s, s', a, if (a, u) in s.likes then 0.0 else LIKE_HEAT, heat.Applied());
  }

  lemma UnlikeKeepsScores(s: State, a: nat, u: nat, heat: Fault)
    requires CountsHold(s) && ScoresHold(s) && a in s.rows && a != 0
    ensures ScoresHold(AfterUnlike(s, a, u, heat))
  {
    hide Of, CountsHold, ScoresHold, Formula, AddHotScore, Drifted;
    LikeKeepsCounts(s, a, u, heat);
    var s' := AfterUnlike(s, a, u, heat);
    FormulaMoves(s.rows[a], s'.rows[a]);
    LikesBalance(s, s', a, if (a, u) in s.likes then -LIKE_HEAT else 0.0, heat.Applied());
  }

  lemma LikeKeeps(s: State, a: nat, u: nat, heat: Fault)
    requires Consistent(s) && IsPublished(s, a)
    ensures Consistent(AfterLike(s, a, u, heat)) && Consistent(AfterUnlike(s, a, u, heat))
  {
    assert a != 0;
    hide AfterLike, AfterUnlike, CountsHold, AboutShown, ScoresHold;
    LikeKeepsCounts(s, a, u, heat);
    LikeKeepsAbout(s, a, u, heat);
    UnlikeKeepsAbout(s, a, u, heat);
    LikeKeepsScores(s, a, u, heat);
    UnlikeKeepsScores(s, a, u, heat);
  }

  // ---------------------------------------------------------------- jobs

  predicate Fits(s: State, e: Event) { if e.Viewed? then IsShown(s, e.article) else IsPublished(s, e.article) }

  lemma HandleKeepsCounts(s: State, e: Event, work: Effort)
    requires CountsHold(s)
    ensures CountsHold(Handle(s, e, work))
  {
    hide Of, Pairs, Heat, AddHotScore, Drifted;
    if e.article in s.rows {
      CountsMove(s, Handle(s, e, work), e.article);
    }
  }

  lemma HandleKeepsAbout(s: State, e: Event, work: Effort)
    requires AboutShown(s) && Fits(s, e)
    ensures AboutShown(Handle(s, e, work))
  {
    hide Heat;
    RecountKeepsStatus(s, Handle(s, e, work), e.article);
  }

  lemma DriftingKeepsAbout(s: State, a: nat, delta: real)
    requires AboutShown(s)
    ensures AboutShown(s.(drift := Drifted(s.drift, a, delta)))
  {
  }

  lemma DeliverKeepsRest(s: State, e: Event, queued: bool, worked: bool, work: Effort)
    requires CountsHold(s) && AboutShown(s) && Fits(s, e)
    ensures CountsHold(Deliver(s, e, queued, worked, work)) && AboutShown(Deliver(s, e, queued, worked, work))
  {
    var s1 := if worked then Handle(s, e, work) else s;
    assert CountsHold(s1) && AboutShown(s1) by {
      HandleKeepsCounts(s, e, work);
      HandleKeepsAbout(s, e, work);
    }
    DriftingKeepsAbout(s1, e.article, Surplus(e, queued, worked && work.heat.Applied()));
    hide Of, Pairs, Handle, Drifted, Surplus, AboutShown;
  }

  lemma QueueKeepsRest(s: State, e: Event, publish: Fault)
    requires CountsHold(s) && AboutShown(s) && Fits(s, e)
    ensures var s' := s.(queue := if publish.Applied() then s.queue + [e] else s.queue);
      CountsHold(s') && AboutShown(s') && Fits(s', e)
  {
    hide Of, Pairs;
  }

  lemma EmitKeepsRest(s: State, e: Event, publish: Fault, work: Effort)
    requires CountsHold(s) && AboutShown(s) && Fits(s, e)
    ensures CountsHold(Emit(s, e, publish, work)) && AboutShown(Emit(s, e, publish, work))
  {
    hide CountsHold, AboutShown, Fits, Deliver;
    QueueKeepsRest(s, e, publish);
    var s' := s.(queue := if publish.Applied() then s.queue + [e] else s.queue);
    DeliverKeepsRest(s', e, publish.Applied(), publish.Lost?, work);
  }

  lemma PendingMore(queue: seq<Event>, e: Event, queued: bool, b: nat)
    ensures Pending(if queued then queue + [e] else queue, b) == Pending(queue, b) + if queued then Owed(e, b) else 0.0
  {
    if queued {
      PendingAppend(queue, [e], b);
      PendingOne(e, b);
    }
  }

  /** A row change that the job e accounts for, and its job. */
  lemma EmitKeepsScores(s: State, mid: State, e: Event, publish: Fault, work: Effort)
    requires ScoresHold(s) && mid == s.(rows := mid.rows, comments := mid.comments, favorites := mid.favorites)
    requires Recounts(s, mid.rows, e.article) && e.article in s.rows && e.article != 0 && !e.Viewed?
    requires Formula(mid.rows[e.article]) == Formula(s.rows[e.article]) + Heat(e)
    ensures ScoresHold(Emit(mid, e, publish, work))
  {
    var a, queued := e.article, publish.Applied();
    var mid' := mid.(queue := if queued then mid.queue + [e] else mid.queue);
    forall b: nat
      ensures Pending(mid'.queue, b) == Pending(s.queue, b) + if queued then Owed(e, b) else 0.0
    {
      PendingMore(s.queue, e, queued, b);
    }
    hide Formula, Heat, Pending, ScoresHold, OffBy, Deliver;
    Unbalance(s, mid', a, Heat(e), if queued then Heat(e) else 0.0);
    DeliverBalances(mid', e, queued, publish.Lost?, work);
  }

  lemma ChangeAndEmit(s: State, mid: State, e: Event, publish: Fault, work: Effort)
    requires Consistent(s) && CountsHold(mid) && AboutShown(mid) && IsPublished(s, e.article) && !e.Viewed?
    requires mid == s.(rows := mid.rows, comments := mid.comments, favorites := mid.favorites)
    requires Recounts(s, mid.rows, e.article)
    requires Formula(mid.rows[e.article]) == Formula(s.rows[e.article]) + Heat(e)
    ensures Consistent(Emit(mid, e, publish, work))
  {
    assert 0 !in s.rows;
    hide CountsHold, AboutShown, ScoresHold, Formula, Heat, Emit;
    EmitKeepsScores(s, mid, e, publish, work);
    RecountKeepsStatus(s, mid, e.article);
    EmitKeepsRest(mid, e, publish, work);
  }

  // ---------------------------------------------------------------- comments and favourites

  /** New rows about a published article, or fewer rows, leave everything about shown ones. */
  lemma AboutKept(s: State, mid: State, a: nat)
    requires AboutShown(s) && IsPublished(s, a) && Recounts(s, mid.rows, a)
    requires mid == s.(rows := mid.rows, comments := mid.comments, favorites := mid.favorites)
    requires forall id | id in mid.comments ::
      (id in s.comments && mid.comments[id] == s.comments[id]) || mid.comments[id].article == a
    requires forall p | p in mid.favorites :: p in s.favorites || p.0 == a
    ensures AboutShown(mid)
  {
    RecountKeepsStatus(s, mid, a);
  }

  lemma AddCommentTables(s: State, id: nat, a: nat, u: nat)
    requires CountsHold(s) && AboutShown(s) && id !in s.comments && IsPublished(s, a)
    ensures CountsHold(AfterAddComment(s, id, a, u)) && AboutShown(AfterAddComment(s, id, a, u))
  {
    var mid := AfterAddComment(s, id, a, u);
    PairsOfMore(s.comments, id, Comment(a, u));
    hide Of, Pairs, AboutShown;
    forall b: nat
      ensures |Of(Pairs(mid.comments), b)| == |Of(Pairs(s.comments), b)| + if b == a then 1 else 0
    {
      AddPair(Pairs(s.comments), (a, id), b);
    }
    CountsMove(s, mid, a);
    AboutKept(s, mid, a);
  }

  lemma AddCommentKeeps(s: State, id: nat, a: nat, u: nat, publish: Fault, work: Effort)
    requires Consistent(s) && id !in s.comments && IsPublished(s, a)
    ensures Consistent(Emit(AfterAddComment(s, id, a, u), CommentCreated(a), publish, work))
  {
    var mid := AfterAddComment(s, id, a, u);
    AddCommentTables(s, id, a, u);
    hide CountsHold, AboutShown, ScoresHold, Emit, Formula;
    FormulaMoves(s.rows[a], mid.rows[a]);
    ChangeAndEmit(s, mid, CommentCreated(a), publish, work);
  }

  lemma DeleteCommentTables(s: State, id: nat)
    requires CountsHold(s) && AboutShown(s) && id in s.comments
    ensures CountsHold(AfterDeleteComment(s, id)) && AboutShown(AfterDeleteComment(s, id))
    ensures var a := s.comments[id].article; IsPublished(s, a) && s.rows[a].comments > 0
  {
    var mid, a := AfterDeleteComment(s, id), s.comments[id].article;
    PairsOfLess(s.comments, id);
    assert IsPublished(s, a);
    hide Of, Pairs, AboutShown;
    forall b: nat
      ensures |Of(Pairs(mid.comments), b)| == |Of(Pairs(s.comments), b)| - if b == a then 1 else 0
    {
      RemovePair(Pairs(s.comments), (a, id), b);
    }
    CountsMove(s, mid, a);
    AboutKept(s, mid, a);
  }

  lemma DeleteCommentChange(s: State, id: nat)
    requires id in s.comments
    ensures var mid, a := AfterDeleteComment(s, id), s.comments[id].article;
      && mid == s.(rows := mid.rows, comments := mid.comments) && Recounts(s, mid.rows, a)
      && (a in s.rows && s.rows[a].comments > 0 ==>
        mid.rows[a] == s.rows[a].(comments := s.rows[a].comments - 1))
  {
  }

  lemma DeleteCommentKeeps(s: State, id: nat, publish: Fault, work: Effort)
    requires Consistent(s) && id in s.comments
    ensures Consistent(Emit(AfterDeleteComment(s, id), CommentDeleted(s.comments[id].article), publish, work))
  {
    var mid, a := AfterDeleteComment(s, id), s.comments[id].article;
    DeleteCommentTables(s, id);
    DeleteCommentChange(s, id);
    hide CountsHold, AboutShown, ScoresHold, Emit, Formula, AfterDeleteComment, Recounts;
    FormulaMoves(s.rows[a], mid.rows[a]);
    ChangeAndEmit(s, mid, CommentDeleted(a), publish, work);
  }

  lemma AddFavoriteTables(s: State, a: nat, u: nat)
    requires CountsHold(s) && AboutShown(s) && (a, u) !in s.favorites && IsPublished(s, a)
    ensures CountsHold(AfterAddFavorite(s, a, u)) && AboutShown(AfterAddFavorite(s, a, u))
  {
    var mid := AfterAddFavorite(s, a, u);
    hide Of, Pairs, AboutShown;
    forall b: nat
      ensures |Of(mid.favorites, b)| == |Of(s.favorites, b)| + if b == a then 1 else 0
    {
      AddPair(s.favorites, (a, u), b);
    }
    CountsMove(s, mid, a);
    AboutKept(s, mid, a);
  }

  lemma AddFavoriteKeeps(s: State, a: nat, u: nat, publish: Fault, work: Effort)
    requires Consistent(s) && (a, u) !in s.favorites && IsPublished(s, a)
    ensures Consistent(Emit(AfterAddFavorite(s, a, u), FavoriteCreated(a), publish, work))
  {
    var mid := AfterAddFavorite(s, a, u);
    AddFavoriteTables(s, a, u);
    hide CountsHold, AboutShown, ScoresHold, Emit, Formula;
    FormulaMoves(s.rows[a], mid.rows[a]);
    ChangeAndEmit(s, mid, FavoriteCreated(a), publish, work);
  }

  /** A favourite that exists can always be removed: the column is at least one. */
  lemma FavoriteIsCounted(s: State, a: nat, u: nat)
    requires CountsHold(s) && AboutShown(s) && (a, u) in s.favorites
    ensures IsPublished(s, a) && s.rows[a].favorites > 0 && CanDeleteFavorite(s, a)
  {
    assert (a, u) in Of(s.favorites, a);
  }

  lemma DeleteFavoriteTables(s: State, a: nat, u: nat)
    requires CountsHold(s) && AboutShown(s) && (a, u) in s.favorites && CanDeleteFavorite(s, a)
    ensures CountsHold(AfterDeleteFavorite(s, a, u)) && AboutShown(AfterDeleteFavorite(s, a, u))
  {
    var mid := AfterDeleteFavorite(s, a, u);
    FavoriteIsCounted(s, a, u);
    hide Of, Pairs, AboutShown;
    forall b: nat
      ensures |Of(mid.favorites, b)| == |Of(s.favorites, b)| - if b == a then 1 else 0
    {
      RemovePair(s.favorites, (a, u), b);
    }
    CountsMove(s, mid, a);
    AboutKept(s, mid, a);
  }

  lemma DeleteFavoriteKeeps(s: State, a: nat, u: nat, publish: Fault, work: Effort)
    requires Consistent(s) && (a, u) in s.favorites && CanDeleteFavorite(s, a)
    ensures Consistent(Emit(AfterDeleteFavorite(s, a, u), FavoriteDeleted(a), publish, work))
  {
    var mid := AfterDeleteFavorite(s, a, u);
    FavoriteIsCounted(s, a, u);
    DeleteFavoriteTables(s, a, u);
    hide CountsHold, AboutShown, ScoresHold, Emit, Formula;
    FormulaMoves(s.rows[a], mid.rows[a]);
    ChangeAndEmit(s, mid, FavoriteDeleted(a), publish, work);
  }

  // ---------------------------------------------------------------- the other steps

  /** A queued view owes nothing. */
  lemma QueuedViewKeepsScores(s: State, e: Event, publish: Fault)
    requires ScoresHold(s) && e.Viewed?
    ensures ScoresHold(s.(queue := if publish.Applied() then s.queue + [e] else s.queue))
  {
    hide Formula, Pending;
    var s' := s.(queue := if publish.Applied() then s.queue + [e] else s.queue);
    forall b: nat
      ensures Pending(s'.queue, b) == Pending(s.queue, b)
    {
      PendingMore(s.queue, e, publish.Applied(), b);
    }
  }

  lemma ViewKeeps(s: State, a: nat, publish: Fault, work: Effort)
    requires Consistent(s) && IsShown(s, a)
    ensures Consistent(Emit(s, Viewed(a), publish, work))
  {
    var e := Viewed(a);
    assert a != 0;
    hide ScoresHold, CountsHold, AboutShown, Deliver;
    EmitKeepsRest(s, e, publish, work);
    QueuedViewKeepsScores(s, e, publish);
    var s' := s.(queue := if publish.Applied() then s.queue + [e] else s.queue);
    ViewBalances(s', e, publish.Applied(), publish.Lost?, work);
  }

  lemma ApplyKeepsScores(s: State, i: nat, work: Effort, kept: bool)
    requires ScoresHold(s) && i < |s.queue| && s.queue[i].article in s.rows && 0 !in s.rows
    ensures ScoresHold(AfterApply(s, i, work, kept))
  {
    var e, mid := s.queue[i], s.(queue := if kept then s.queue else Without(s.queue, i));
    forall b: nat
      ensures Pending(mid.queue, b) == Pending(s.queue, b) - if kept then 0.0 else Owed(e, b)
    {
      PendingWithout(s.queue, i, b);
    }
    hide Pending, Formula, Heat, Without, Deliver;
    if e.Viewed? {
      assert ScoresHold(mid);
      ViewBalances(mid, e, kept, true, work);
    } else {
      Unbalance(s, mid, e.article, 0.0, if kept then 0.0 else -Heat(e));
      DeliverBalances(mid, e, kept, true, work);
    }
  }

  lemma TakenJobFits(s: State, i: nat, kept: bool)
    requires CountsHold(s) && AboutShown(s) && i < |s.queue|
    ensures var mid := s.(queue := if kept then s.queue else Without(s.queue, i));
      CountsHold(mid) && AboutShown(mid) && Fits(mid, s.queue[i]) && s.queue[i].article in s.rows && 0 !in s.rows
  {
    hide Of, Pairs;
    var mid := s.(queue := if kept then s.queue else Without(s.queue, i));
    assert forall e | e in mid.queue :: e in s.queue;
    assert s.queue[i] in s.queue && Fits(s, s.queue[i]);
  }

  lemma ApplyKeeps(s: State, i: nat, work: Effort, kept: bool)
    requires Consistent(s) && i < |s.queue|
    ensures Consistent(AfterApply(s, i, work, kept))
  {
    hide AboutShown, CountsHold, ScoresHold, Deliver, Without, Fits;
    TakenJobFits(s, i, kept);
    ApplyKeepsScores(s, i, work, kept);
    DeliverKeepsRest(s.(queue := if kept then s.queue else Without(s.queue, i)), s.queue[i], kept, true, work);
  }

  lemma SeedKeeps(s: State, listing: seq<nat>)
    requires Consistent(s) && forall a | a in listing :: a in s.rows && s.rows[a].status == Published
    ensures Consistent(AfterSeed(s, listing))
  {
    hide Of, Pairs, Pending, Formula;
  }

  lemma CreateKeepsCounts(s: State, a: nat, row: Row)
    requires CountsHold(s) && AboutShown(s) && a !in s.rows
    requires row.likes == 0 && row.comments == 0 && row.favorites == 0
    ensures CountsHold(s.(rows := s.rows[a := row]))
  {
    NoRowsNoPairs(s.likes, a);
    NoRowsNoPairs(s.favorites, a);
    assert forall p | p in Pairs(s.comments) :: p.1 in s.comments && s.comments[p.1].article == p.0;
    NoRowsNoPairs(Pairs(s.comments), a);
    hide Of, Pairs;
  }

  lemma CreateKeepsAbout(s: State, a: nat, row: Row)
    requires AboutShown(s) && a != 0 && a !in s.rows
    ensures AboutShown(s.(rows := s.rows[a := row]))
  {
    var s' := s.(rows := s.rows[a := row]);
    assert forall b | IsPublished(s, b) :: IsPublished(s', b);
    assert forall b | IsShown(s, b) :: IsShown(s', b);
  }

  lemma CreateKeeps(s: State, a: nat, row: Row)
    requires Consistent(s) && a != 0 && a !in s.rows
    requires row.likes == 0 && row.comments == 0 && row.favorites == 0
    ensures Consistent(s.(rows := s.rows[a := row]))
  {
    CreateKeepsCounts(s, a, row);
    CreateKeepsAbout(s, a, row);
    hide CountsHold, AboutShown, Pending, Formula;
  }

  /** Every operation of the services, and every job, whatever fails, keeps the counts equal
      to the rows and the scores exact up to queue and drift. */
  lemma StepKeepsConsistent(s: State, step: Step)
    requires Consistent(s)
    ensures Consistent(Do(s, step))
  {
    hide Consistent, AfterLike, AfterUnlike, AfterAddComment, AfterDeleteComment, AfterAddFavorite,
         AfterDeleteFavorite, Emit, AfterApply, Listing, AfterSeed;
    if Enabled(s, step) {
      match step
      case Create(a, status, createdAt) => CreateKeeps(s, a, Row(status, createdAt, 0, 0, 0, 0));
      case Like(a, u, heat) => LikeKeeps(s, a, u, heat);
      case Unlike(a, u, heat) => LikeKeeps(s, a, u, heat);
      case AddComment(id, a, u, publish, work) => AddCommentKeeps(s, id, a, u, publish, work);
      case DeleteComment(id, u, publish, work) => DeleteCommentKeeps(s, id, publish, work);
      case AddFavorite(a, u, publish, work) => AddFavoriteKeeps(s, a, u, publish, work);
      case DeleteFavorite(a, u, publish, work) => DeleteFavoriteKeeps(s, a, u, publish, work);
      case View(a, publish, work) => ViewKeeps(s, a, publish, work);
      case Apply(i, work, kept) => ApplyKeeps(s, i, work, kept);
      case Seed(listing) => ListingIsPublished(s, listing); SeedKeeps(s, listing);
      case Drop => DropKeeps(s);
    }
  }

  lemma ListingIsPublished(s: State, listing: seq<nat>)
    requires Listing(s, listing, SEED_LIMIT)
    ensures forall a | a in listing :: IsPublished(s, a)
  {
  }

  lemma DropKeeps(s: State)
    requires Consistent(s)
    ensures Consistent(s.(scores := map[], drift := map[]))
  {
    hide Of, Pairs, Pending, Formula;
  }

  lemma {:induction false} RunKeepsConsistent(steps: seq<Step>)
    ensures Consistent(Run(START, steps))
  {
    hide Consistent, Do;
    if steps == [] {
      assert Consistent(START) by { StartIsConsistent(); }
    } else {
      RunKeepsConsistent(steps[..|steps| - 1]);
      StepKeepsConsistent(Run(START, steps[..|steps| - 1]), steps[|steps| - 1]);
    }
  }

  lemma StartIsConsistent()
    ensures Consistent(START)
  {
  }

  // ---------------------------------------------------------------- what follows

  /** Once the queue is empty, the score of a covered article is the formula on its current
      counts exactly when the heat queued for it at its seed, and the heat lost and doubled
      since, cancel out. */
  lemma QuiescentScore(steps: seq<Step>, a: nat)
    requires Run(START, steps).queue == [] && a in Run(START, steps).drift
    ensures var s := Run(START, steps);
      a in s.scores && a in s.rows && (s.scores[a] == Formula(s.rows[a]) <==> s.drift[a] == 0.0)
  {
    RunKeepsConsistent(steps);
  }

  ghost predicate NoDrift(s: State) { forall a | a in s.drift :: s.drift[a] == 0.0 }

  /** Nothing is lost or doubled in this step: heat takes effect once, by score or by queue,
      and a seed finds nothing queued for what it lists. */
  ghost predicate Exact(s: State, step: Step) {
    match step
    case Like(a, u, heat) => (a, u) !in s.likes ==> heat.Applied()
    case Unlike(a, u, heat) => (a, u) in s.likes ==> heat.Applied()
    case AddComment(_, _, _, publish, work) => publish.Applied() != (publish.Lost? && work.heat.Applied())
    case DeleteComment(_, _, publish, work) => publish.Applied() != (publish.Lost? && work.heat.Applied())
    case AddFavorite(_, _, publish, work) => publish.Applied() != (publish.Lost? && work.heat.Applied())
    case DeleteFavorite(_, _, publish, work) => publish.Applied() != (publish.Lost? && work.heat.Applied())
    case View(_, publish, work) => publish.Lost? && work.counted ==> work.heat.Applied()
    case Apply(i, work, kept) =>
      i < |s.queue| ==> if s.queue[i].Viewed? then work.counted ==> work.heat.Applied() else kept != work.heat.Applied()
    case Seed(listing) => s.scores == map[] ==> forall a | a in listing :: Pending(s.queue, a) == 0.0
    case _ => true
  }

  lemma DeliverKeepsNoDrift(s: State, e: Event, queued: bool, worked: bool, work: Effort)
    requires NoDrift(s)
    requires if e.Viewed? then worked && work.counted ==> work.heat.Applied()
             else queued != (worked && work.heat.Applied())
    ensures NoDrift(Deliver(s, e, queued, worked, work))
  {
    hide Heat, AddHotScore;
  }

  lemma StepKeepsNoDrift(s: State, step: Step)
    requires NoDrift(s) && Exact(s, step)
    ensures NoDrift(Do(s, step))
  {
    hide Pending, Formula, Listing, Deliver, Of, AddHotScore;
    if Enabled(s, step) {
      match step
      case AddComment(id, a, u, publish, work) =>
        EmitKeepsNoDrift(AfterAddComment(s, id, a, u), CommentCreated(a), publish, work);
      case DeleteComment(id, u, publish, work) =>
        EmitKeepsNoDrift(AfterDeleteComment(s, id), CommentDeleted(s.comments[id].article), publish, work);
      case AddFavorite(a, u, publish, work) =>
        EmitKeepsNoDrift(AfterAddFavorite(s, a, u), FavoriteCreated(a), publish, work);
      case DeleteFavorite(a, u, publish, work) =>
        EmitKeepsNoDrift(AfterDeleteFavorite(s, a, u), FavoriteDeleted(a), publish, work);
      case View(a, publish, work) => EmitKeepsNoDrift(s, Viewed(a), publish, work);
      case Apply(i, work, kept) =>
        DeliverKeepsNoDrift(s.(queue := if kept then s.queue else Without(s.queue, i)), s.queue[i], kept, true, work);
      case _ =>
    }
  }

  lemma EmitKeepsNoDrift(s: State, e: Event, publish: Fault, work: Effort)
    requires NoDrift(s)
    requires if e.Viewed? then publish.Lost? && work.counted ==> work.heat.Applied()
             else publish.Applied() != (publish.Lost? && work.heat.Applied())
    ensures NoDrift(Emit(s, e, publish, work))
  {
    hide Deliver;
    var s' := s.(queue := if publish.Applied() then s.queue + [e] else s.queue);
    DeliverKeepsNoDrift(s', e, publish.Applied(), publish.Lost?, work);
  }

  ghost predicate ExactRun(steps: seq<Step>) {
    forall n | 0 <= n < |steps| :: Exact(Run(START, steps[..n]), steps[n])
  }

  /** Runs that lose and double nothing have no drift. */
  lemma {:induction false} ExactRunsHaveNoDrift(steps: seq<Step>)
    requires ExactRun(steps)
    ensures NoDrift(Run(START, steps))
  {
    hide Do, NoDrift, Exact;
    if steps == [] {
      StartHasNoDrift();
    } else {
      var init, last := steps[..|steps| - 1], steps[|steps| - 1];
      assert forall n | 0 <= n <= |init| :: init[..n] == steps[..n];
      assert Exact(Run(START, steps[..|init|]), steps[|init|]);
      ExactRunsHaveNoDrift(init);
      StepKeepsNoDrift(Run(START, init), last);
    }
  }

  lemma StartHasNoDrift()
    ensures NoDrift(START)
  {
  }

  function Elements(listing: seq<nat>): (elements: set<nat>)
    ensures forall a :: a in elements <==> a in listing
  {
    if listing == [] then {} else Elements(listing[1..]) + {listing[0]}
  }

  lemma {:induction false} DistinctElements(listing: seq<nat>)
    requires Distinct(listing)
    ensures |Elements(listing)| == |listing|
  {
    if listing != [] {
      DistinctElements(listing[1..]);
      assert listing[0] !in listing[1..];
    }
  }

  lemma SameSize(x: set<nat>, y: set<nat>)
    requires x <= y && |x| == |y|
    ensures x == y
  {
    assert |y - x| == |y| - |x|;
  }

  /** With at most 200 published articles a seed covers them all. */
  lemma ListingCoversAll(s: State, listing: seq<nat>)
    requires Listing(s, listing, SEED_LIMIT) && |AllPublished(s)| <= SEED_LIMIT
    ensures Elements(listing) == AllPublished(s)
  {
    DistinctElements(listing);
    assert Elements(listing) <= AllPublished(s);
    SameSize(Elements(listing), AllPublished(s));
  }

  /** With nothing queued, the score of a covered article is off by its drift. */
  lemma QuietScores(s: State)
    requires Consistent(s) && s.queue == []
    ensures forall a | a in s.drift :: a in s.scores && a in s.rows && s.scores[a] == Formula(s.rows[a]) + s.drift[a]
    ensures s.drift.Keys <= s.scores.Keys && s.drift.Keys <= AllPublished(s)
  {
    hide CountsHold, Formula;
  }

  lemma SameScores(rows: map<nat, Row>, scores: map<nat, real>, listing: seq<nat>)
    requires forall a | a in listing :: a in rows
    ensures (map a | a in listing :: Formula(rows[a])) == scores <==>
              (forall a :: a in listing <==> a in scores) && (forall a | a in listing :: scores[a] == Formula(rows[a]))
  {
    hide Formula;
    var seeded := map a | a in listing :: Formula(rows[a]);
    if seeded == scores {
      assert forall a :: a in listing <==> a in seeded;
      assert forall a | a in seeded :: seeded[a] == Formula(rows[a]);
    }
  }

  lemma ReseedState(s: State, listing: seq<nat>)
    requires Consistent(s) && s.queue == []
    requires AllPublished(s) <= s.drift.Keys && |AllPublished(s)| <= SEED_LIMIT && Listing(s, listing, SEED_LIMIT)
    ensures AfterSeed(s.(scores := map[], drift := map[]), listing).scores == s.scores <==>
              NoDrift(s) && forall a | a in s.scores :: IsPublished(s, a)
  {
    hide Consistent, Formula, Listing, NoDrift, AllPublished;
    ListingIsPublished(s, listing);
    ListingCoversAll(s, listing);
    QuietScores(s);
    SameScores(s.rows, s.scores, listing);
    var exact := forall a | a in listing :: s.scores[a] == Formula(s.rows[a]);
    assert exact <==> NoDrift(s) by {
      DriftIsTheDifference(s, listing);
    }
    PublishedMembers(s, listing);
  }

  lemma DriftIsTheDifference(s: State, listing: seq<nat>)
    requires forall a :: a in listing <==> a in s.drift
    requires forall a | a in s.drift :: a in s.scores && a in s.rows && s.scores[a] == Formula(s.rows[a]) + s.drift[a]
    ensures (forall a | a in listing :: s.scores[a] == Formula(s.rows[a])) <==> NoDrift(s)
  {
    hide Formula;
  }

  lemma PublishedMembers(s: State, listing: seq<nat>)
    requires Elements(listing) == AllPublished(s) && AllPublished(s) <= s.scores.Keys
    ensures (forall a :: a in listing <==> a in s.scores) <==> forall a | a in s.scores :: IsPublished(s, a)
  {
    assert forall a :: a in listing <==> a in AllPublished(s);
  }

  lemma DropThenSeed(s: State, listing: seq<nat>)
    requires Listing(s, listing, SEED_LIMIT)
    ensures Do(Do(s, Drop), Seed(listing)) == AfterSeed(s.(scores := map[], drift := map[]), listing)
  {
    hide Listing, AfterSeed;
    SameListing(s, s.(scores := map[], drift := map[]), listing);
  }

  /** Take a quiescent ranking in which a seed covered every published article, at most 200
      of them.  Dropping it and seeding again gives the very same scores exactly when
      nothing has drifted and every member of the ranking is published. */
  lemma ReseedingIsIdentity(steps: seq<Step>, listing: seq<nat>)
    requires var s := Run(START, steps);
      && s.queue == [] && AllPublished(s) <= s.drift.Keys && |AllPublished(s)| <= SEED_LIMIT
      && Listing(s, listing, SEED_LIMIT)
    ensures var s := Run(START, steps);
      Run(START, steps + [Drop] + [Seed(listing)]).scores == s.scores <==>
        NoDrift(s) && forall a | a in s.scores :: IsPublished(s, a)
  {
    hide Run, Listing, Consistent, NoDrift, AllPublished, AfterSeed, Do;
    RunKeepsConsistent(steps);
    ReseedState(Run(START, steps), listing);
    Extend(steps, Drop);
    Extend(steps + [Drop], Seed(listing));
    DropThenSeed(Run(START, steps), listing);
  }

  lemma SameListing(s: State, s': State, listing: seq<nat>)
    requires Listing(s, listing, SEED_LIMIT) && s'.rows == s.rows
    ensures Listing(s', listing, SEED_LIMIT)
  {
    assert AllPublished(s') == AllPublished(s);
  }

  lemma Extend(steps: seq<Step>, step: Step)
    ensures Run(START, steps + [step]) == Do(Run(START, steps), step)
  {
    hide Do;
    assert (steps + [step])[..|steps|] == steps;
  }

  // ---------------------------------------------------------------- the hot list

  /** What ZREVRANGE 0 limit-1 may answer: the best members, best first, ties in any order. */
  ghost predicate Top(scores: map<nat, real>, ids: seq<nat>, limit: nat) {
    && Distinct(ids) && (forall a | a in ids :: a in scores)
    && |ids| == (if |scores| < limit then |scores| else limit)
    && (forall i, j | 0 <= i < j < |ids| :: ids[i] in scores && ids[j] in scores && scores[ids[i]] >= scores[ids[j]])
    && (forall a, b | a in ids && b in scores && b !in ids :: a in scores && scores[a] >= scores[b])
  }

  /** ListByIDs: the published ones of the given articles, in the given order. */
  function KeepPublished(rows: map<nat, Row>, ids: seq<nat>): seq<nat> {
    if ids == [] then []
    else
      var kept, last := KeepPublished(rows, ids[..|ids| - 1]), ids[|ids| - 1];
      if last in rows && rows[last].status == Published then kept + [last] else kept
  }

  predicate Hotter(rows: map<nat, Row>, a: nat, b: nat) {
    a in rows && b in rows && Formula(rows[a]) >= Formula(rows[b])
  }

  /** The order of two listed articles, as far as both are published. */
  predicate Ranked(rows: map<nat, Row>, a: nat, b: nat) {
    && a in rows && b in rows
    && (rows[a].status == Published && rows[b].status == Published ==> Hotter(rows, a, b))
  }

  lemma {:induction false} KeptMeans(rows: map<nat, Row>, ids: seq<nat>)
    ensures forall a :: a in KeepPublished(rows, ids) <==> a in ids && a in rows && rows[a].status == Published
  {
    if ids != [] {
      KeptMeans(rows, ids[..|ids| - 1]);
      assert forall a :: a in ids <==> a in ids[..|ids| - 1] || a == ids[|ids| - 1];
    }
  }

  /** Nothing is dropped exactly when all are published. */
  lemma {:induction false} KeptAllIff(rows: map<nat, Row>, ids: seq<nat>)
    ensures KeepPublished(rows, ids) == ids <==> forall a | a in ids :: a in rows && rows[a].status == Published
  {
    if ids != [] {
      var init, last := ids[..|ids| - 1], ids[|ids| - 1];
      KeptAllIff(rows, init);
      KeptAreFewer(rows, init);
      assert forall a :: a in ids <==> a in init || a == last;
      assert ids == init + [last];
      if KeepPublished(rows, ids) == ids {
        assert KeepPublished(rows, ids) == KeepPublished(rows, init) + [last];
        assert KeepPublished(rows, init) == ids[..|ids| - 1];
      }
    }
  }

  predicate InOrder(rows: map<nat, Row>, list: seq<nat>) {
    forall i, j | 0 <= i < j < |list| :: Hotter(rows, list[i], list[j])
  }

  predicate AllRanked(rows: map<nat, Row>, ids: seq<nat>) {
    forall i, j | 0 <= i < j < |ids| :: Ranked(rows, ids[i], ids[j])
  }

  lemma RankedInit(rows: map<nat, Row>, init: seq<nat>, last: nat)
    requires Distinct(init + [last]) && AllRanked(rows, init + [last])
    ensures Distinct(init) && AllRanked(rows, init)
    ensures forall a | a in init :: a != last && Ranked(rows, a, last)
  {
    hide Ranked;
    var ids := init + [last];
    assert forall k | 0 <= k < |init| :: ids[k] == init[k];
    assert ids[|init|] == last;
  }

  lemma OneMoreKept(rows: map<nat, Row>, kept: seq<nat>, last: nat)
    requires Distinct(kept) && InOrder(rows, kept) && last in rows && rows[last].status == Published
    requires forall a | a in kept :: a != last && a in rows && rows[a].status == Published && Ranked(rows, a, last)
    ensures Distinct(kept + [last]) && InOrder(rows, kept + [last])
  {
    hide Formula;
    assert forall k | 0 <= k < |kept| :: kept[k] in kept;
  }

  /** Keeping the published ones keeps their order. */
  lemma {:induction false} KeptInOrder(rows: map<nat, Row>, ids: seq<nat>)
    requires Distinct(ids) && AllRanked(rows, ids)
    ensures Distinct(KeepPublished(rows, ids)) && InOrder(rows, KeepPublished(rows, ids))
  {
    hide Distinct, AllRanked, InOrder, Ranked;
    if ids == [] {
      NothingKept(rows);
    } else {
      var init, last := ids[..|ids| - 1], ids[|ids| - 1];
      assert ids == init + [last];
      RankedInit(rows, init, last);
      KeptInOrder(rows, init);
      KeptMeans(rows, init);
      if last in rows && rows[last].status == Published {
        OneMoreKept(rows, KeepPublished(rows, init), last);
      }
    }
  }

  lemma NothingKept(rows: map<nat, Row>)
    ensures Distinct([]) && InOrder(rows, [])
  {
  }

  lemma {:induction false} KeptAreFewer(rows: map<nat, Row>, ids: seq<nat>)
    ensures |KeepPublished(rows, ids)| <= |ids|
  {
    if ids != [] {
      KeptAreFewer(rows, ids[..|ids| - 1]);
    }
  }

  /** How long a full list of the best published articles is. */
  function FullLength(s: State, limit: nat): nat {
    if |AllPublished(s)| < limit then |AllPublished(s)| else limit
  }

  lemma ExactScores(s: State)
    requires Consistent(s) && NoDrift(s) && s.queue == [] && AllPublished(s) <= s.drift.Keys
    ensures forall a | a in s.scores :: a in s.rows
    ensures forall a | IsPublished(s, a) :: a in s.scores && s.scores[a] == Formula(s.rows[a])
  {
    hide CountsHold, Formula;
    assert forall a | IsPublished(s, a) :: a in AllPublished(s);
  }

  lemma TopIsRanked(s: State, ids: seq<nat>, limit: nat)
    requires Consistent(s) && NoDrift(s) && s.queue == [] && AllPublished(s) <= s.drift.Keys
    requires Top(s.scores, ids, limit)
    ensures Distinct(ids) && AllRanked(s.rows, ids)
    ensures forall a, b | a in ids && IsPublished(s, a) && IsPublished(s, b) && b !in ids :: Hotter(s.rows, a, b)
  {
    ExactScores(s);
    hide Consistent, Formula, NoDrift, AllPublished;
    assert forall i | 0 <= i < |ids| :: ids[i] in ids;
  }

  /** The list is full when no place went to an article that is not published, or when no
      published article was left out. */
  lemma KeptSets(s: State, ids: seq<nat>, kept: seq<nat>)
    requires forall a :: a in kept <==> a in ids && IsPublished(s, a)
    ensures Elements(kept) == AllPublished(s) * Elements(ids)
    ensures (forall a | a in ids :: IsPublished(s, a)) <==> Elements(kept) == Elements(ids)
    ensures (forall a | IsPublished(s, a) :: a in ids) <==> Elements(kept) == AllPublished(s)
  {
    assert forall a :: IsPublished(s, a) <==> a in AllPublished(s);
    if forall a | a in ids :: IsPublished(s, a) {
      assert Elements(kept) == Elements(ids);
    }
    if forall a | IsPublished(s, a) :: a in ids {
      assert Elements(kept) == AllPublished(s);
    }
  }

  lemma TopSize(scores: map<nat, real>, ids: seq<nat>, limit: nat)
    requires Top(scores, ids, limit)
    ensures Elements(ids) <= scores.Keys
    ensures |Elements(ids)| == if |scores.Keys| < limit then |scores.Keys| else limit
  {
    DistinctElements(ids);
    SameCount(scores, scores.Keys);
  }

  lemma FullIff(s: State, ids: seq<nat>, limit: nat, kept: seq<nat>)
    requires AllPublished(s) <= s.scores.Keys && Top(s.scores, ids, limit) && Distinct(kept)
    requires forall a :: a in kept <==> a in ids && IsPublished(s, a)
    ensures |kept| == FullLength(s, limit) <==>
              (forall a | a in ids :: IsPublished(s, a)) || (forall a | IsPublished(s, a) :: a in ids)
  {
    hide AllPublished, Elements, Top, IsPublished;
    DistinctElements(kept);
    KeptSets(s, ids, kept);
    TopSize(s.scores, ids, limit);
    FullSets(AllPublished(s), Elements(kept), Elements(ids), s.scores.Keys, limit);
  }

  lemma FullSets(all: set<nat>, shown: set<nat>, listed: set<nat>, members: set<nat>, limit: nat)
    requires all <= members && listed <= members && shown == all * listed
    requires |listed| == if |members| < limit then |members| else limit
    ensures |shown| == (if |all| < limit then |all| else limit) <==> shown == listed || shown == all
  {
    SizeTells(shown, all);
    SizeTells(shown, listed);
    SizeTells(listed, members);
    SizeTells(all, members);
  }

  lemma SizeTells(x: set<nat>, y: set<nat>)
    requires x <= y
    ensures |x| <= |y| && (|x| == |y| <==> x == y)
  {
    assert |y - x| == |y| - |x|;
  }

  lemma SameCount(scores: map<nat, real>, keys: set<nat>)
    requires scores.Keys == keys
    ensures |scores| == |keys|
  {
  }

  /** Take a quiescent ranking without drift in which a seed covered every published article.
      The hot list then shows published articles only, best first by the formula on their
      current counts, and none that is left out is better.  Nothing is dropped from the
      ranking's own list exactly when every listed article is published; and the list is as
      long as it should be exactly when that is so, or no published article was left out. */
  lemma HotListIsTheTop(steps: seq<Step>, ids: seq<nat>, limit: nat)
    requires var s := Run(START, steps);
      NoDrift(s) && s.queue == [] && AllPublished(s) <= s.drift.Keys && Top(s.scores, ids, limit)
    ensures var s := Run(START, steps);
      var list := KeepPublished(s.rows, ids);
      && (forall a :: a in list <==> a in ids && IsPublished(s, a))
      && (forall i, j | 0 <= i < j < |list| :: Hotter(s.rows, list[i], list[j]))
      && (forall a, b | a in list && IsPublished(s, b) && b !in list :: Hotter(s.rows, a, b))
      && (list == ids <==> forall a | a in ids :: IsPublished(s, a))
      && (|list| == FullLength(s, limit) <==>
            (forall a | a in ids :: IsPublished(s, a)) || (forall a | IsPublished(s, a) :: a in ids))
  {
    hide Run, Consistent, NoDrift, Formula, AllPublished, KeepPublished, FullLength, Top, Hotter, Distinct, AllRanked;
    var s := Run(START, steps);
    RunKeepsConsistent(steps);
    TopIsRanked(s, ids, limit);
    QuietScores(s);
    KeptMeans(s.rows, ids);
    KeptInOrder(s.rows, ids);
    KeptAllIff(s.rows, ids);
    FullIff(s, ids, limit, KeepPublished(s.rows, ids));
  }

  // ---------------------------------------------------------------- archived articles

  /** Article 1 is published and seeded, article 2 is archived and then viewed once, with
      the publish failing so that the view is counted at once. */
  function ArchivedView(): seq<Step> {
    [] + [Create(1, Published, 0)] + [Seed([1])] + [Create(2, Archived, 0)] + [View(2, Lost(false), Effort(true, Fine))]
  }

  function SeededState(): State {
    State(map[1 := Row(Published, 0, 0, 0, 0, 0)], {}, map[], {}, map[1 := 50.0], [], map[1 := 0.0])
  }

  function ViewedState(): State {
    State(map[1 := Row(Published, 0, 0, 0, 0, 0), 2 := Row(Archived, 0, 1, 0, 0, 0)], {}, map[], {},
          map[1 := 50.0, 2 := 1.0], [], map[1 := 0.0])
  }

  function PublishedState(): State {
    State(map[1 := Row(Published, 0, 0, 0, 0, 0)], {}, map[], {}, map[], [], map[])
  }

  lemma PublishedListing()
    ensures Listing(PublishedState(), [1], SEED_LIMIT)
  {
    assert AllPublished(PublishedState()) == {1};
  }

  lemma SeedOne()
    ensures Do(PublishedState(), Seed([1])) == SeededState()
  {
    hide Listing;
    PublishedListing();
    var s := PublishedState();
    assert Pending([], 1) == 0.0;
    assert Formula(Row(Published, 0, 0, 0, 0, 0)) == 50.0;
    assert AfterSeed(s, [1]).scores == map[1 := 50.0];
    assert AfterSeed(s, [1]).drift == map[1 := 0.0];
  }

  lemma PublishOne()
    ensures Do(START, Create(1, Published, 0)) == PublishedState()
  {
  }

  lemma ViewTwo()
    ensures var s := Do(SeededState(), Create(2, Archived, 0));
      Do(s, View(2, Lost(false), Effort(true, Fine))) == ViewedState()
  {
    var s := Do(SeededState(), Create(2, Archived, 0));
    assert IsShown(s, 2);
  }

  lemma ArchivedViewEnds()
    ensures Run(START, ArchivedView()) == ViewedState()
  {
    hide Do, PublishedState, SeededState, ViewedState;
    PublishOne();
    SeedOne();
    ViewTwo();
    Extend([], Create(1, Published, 0));
    Extend([] + [Create(1, Published, 0)], Seed([1]));
    Extend([] + [Create(1, Published, 0)] + [Seed([1])], Create(2, Archived, 0));
    Extend([] + [Create(1, Published, 0)] + [Seed([1])] + [Create(2, Archived, 0)],
           View(2, Lost(false), Effort(true, Fine)));
  }

  lemma ViewedTop()
    ensures Top(ViewedState().scores, [1, 2], 10)
  {
    SameCount(ViewedState().scores, {1, 2});
  }

  lemma ViewedList()
    ensures KeepPublished(ViewedState().rows, [1, 2]) == [1]
  {
    assert [1][..0] == [];
    assert KeepPublished(ViewedState().rows, [1]) == [1];
    assert [1, 2][..1] == [1];
  }

  lemma ViewedListing()
    ensures AllPublished(ViewedState()) == {1} && Listing(ViewedState(), [1], SEED_LIMIT)
  {
    assert AllPublished(ViewedState()) == {1};
  }

  /** The conditions are needed: a single view of an archived article enters it into the
      ranking, where it takes a place of the hot list that nothing fills and is gone after
      a reseed, although nothing is queued and nothing has drifted. */
  lemma ArchivedViewShows()
    ensures var s := Run(START, ArchivedView());
      && NoDrift(s) && s.queue == [] && AllPublished(s) <= s.drift.Keys
      && Top(s.scores, [1, 2], 10) && KeepPublished(s.rows, [1, 2]) == [1]
      && Listing(s, [1], SEED_LIMIT)
      && Run(START, ArchivedView() + [Drop] + [Seed([1])]).scores != s.scores
  {
    ArchivedViewEnds();
    ViewedTop();
    ViewedList();
    ViewedListing();
    var s := ViewedState();
    assert NoDrift(s) && !IsPublished(s, 2) && 2 in s.scores && s.queue == [] && s.drift.Keys == {1};
    hide Run, Listing, ArchivedView, Top, KeepPublished, AllPublished;
    ReseedingIsIdentity(ArchivedView(), [1]);
  }

  /** A view of an archived article can also keep the seed away: it fills an empty ranking
      with itself alone, and seeding then does nothing, whatever is published. */
  lemma ArchivedViewBlocksSeed(s: State, a: nat, listing: seq<nat>)
    requires a in s.rows && s.rows[a].status == Archived && a != 0 && s.scores == map[]
    ensures var viewed := Do(s, View(a, Lost(false), Effort(true, Fine)));
      viewed.scores.Keys == {a} && Do(viewed, Seed(listing)) == viewed
  {
    hide Listing, Pending, Formula;
    assert a in Do(s, View(a, Lost(false), Effort(true, Fine))).scores;
  }

  // ---------------------------------------------------------------- the rules in numbers

  /** A new article starts at 50 plus its age in days; a later one starts one point higher
      per day.  A view adds 1, a like 8, a comment 12 and a favourite 10. */
  lemma FormulaMeans(row: Row)
    ensures Formula(Row(row.status, 0, 0, 0, 0, 0)) == 50.0
    ensures Formula(row.(createdAt := row.createdAt + 86400)) == Formula(row) + 1.0
    ensures Formula(row.(views := row.views + 1)) == Formula(row) + 1.0
    ensures Formula(row.(likes := row.likes + 1)) == Formula(row) + 8.0
    ensures Formula(row.(comments := row.comments + 1)) == Formula(row) + 12.0
    ensures Formula(row.(favorites := row.favorites + 1)) == Formula(row) + 10.0
  {
    hide Formula;
    FormulaMoves(row, row.(views := row.views + 1));
    FormulaMoves(row, row.(likes := row.likes + 1));
    FormulaMoves(row, row.(comments := row.comments + 1));
    FormulaMoves(row, row.(favorites := row.favorites + 1));
    DayMoves(row);
  }

  lemma DayMoves(row: Row)
    ensures Formula(Row(row.status, 0, 0, 0, 0, 0)) == 50.0
    ensures Formula(row.(createdAt := row.createdAt + 86400)) == Formula(row) + 1.0
  {
    assert (row.createdAt + 86400) as real / 86400.0 == row.createdAt as real / 86400.0 + 1.0;
  }

  lemma NewerStartsHigher(row: Row, later: int)
    requires later > row.createdAt
    ensures Formula(row.(createdAt := later)) > Formula(row)
  {
    assert later as real / 86400.0 > row.createdAt as real / 86400.0;
  }

  lemma SeedsListed(s: State, listing: seq<nat>)
    requires s.scores == map[] && Listing(s, listing, SEED_LIMIT)
    ensures Do(s, Seed(listing)).drift.Keys == Do(s, Seed(listing)).scores.Keys == Elements(listing)
  {
    hide Formula, Pending, Listing;
    ListingIsPublished(s, listing);
  }

  /** A seed of an empty ranking covers min(200, n) of the n published articles. */
  lemma SeedCounts(s: State, listing: seq<nat>)
    requires s.scores == map[] && Listing(s, listing, SEED_LIMIT)
    ensures |Do(s, Seed(listing)).scores| == if |AllPublished(s)| < 200 then |AllPublished(s)| else 200
  {
    SeedsListed(s, listing);
    hide Do;
    DistinctElements(listing);
    SameCount(Do(s, Seed(listing)).scores, Elements(listing));
  }

  /** It covers published articles only: those with the most likes, then favourites, then
      views, then the newest. */
  lemma SeedCovers(s: State, listing: seq<nat>, a: nat, b: nat)
    requires s.scores == map[] && Listing(s, listing, SEED_LIMIT) && a in Do(s, Seed(listing)).scores
    ensures a in s.rows && s.rows[a].status == Published
    ensures b in s.rows && s.rows[b].status == Published && b !in Do(s, Seed(listing)).scores ==>
              var r, q := s.rows[a], s.rows[b];
              && r.likes >= q.likes && (r.likes == q.likes ==> r.favorites >= q.favorites)
              && (r.likes == q.likes && r.favorites == q.favorites ==> r.views >= q.views)
              && (r.likes == q.likes && r.favorites == q.favorites && r.views == q.views ==>
                    r.createdAt >= q.createdAt)
  {
    SeedsListed(s, listing);
    hide Do;
    assert a in listing && IsPublished(s, a);
    assert b !in listing && IsPublished(s, b) ==> AheadIn(s, a, b);
  }

  /** In every run, only articles that are not drafts have a score or a queued job. */
  lemma DraftsNeverScore(steps: seq<Step>, a: nat)
    requires a in Run(START, steps).rows && Run(START, steps).rows[a].status == Draft
    ensures a !in Run(START, steps).scores && forall e | e in Run(START, steps).queue :: e.article != a
  {
    RunKeepsConsistent(steps);
    hide CountsHold, ScoresHold, Run;
  }
}
