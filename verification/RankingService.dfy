/** The services behind the ranking, statement by statement: likes, comments, favourites,
    views, the jobs they queue, the seed and the hot list.  A database fault comes before
    the commit and changes nothing; what fails afterwards leaves the rows as committed. */
module RankingService {
  import opened Common
  import opened Ranking

  /** HeatFailed answers with an error although the rows are committed. */
  datatype Reply =
    | Done
    | ArticleNotFound
    | CommentNotFound
    | FavoriteNotFound
    | Forbidden
    | AlreadyFavorited
    | DbFault
    | HeatFailed

  /** What a caller sees when publishing and the work in its place go as given (there is no
      heat for id 0). */
  function EmitReply(a: nat, publish: Fault, work: Effort): Reply {
    if publish.Lost? && work.heat.Lost? && a != 0 then HeatFailed else Done
  }

  class Backend {
    var rows: map<nat, Row>
    var likes: set<(nat, nat)>
    var comments: map<nat, Comment>
    var favorites: set<(nat, nat)>
    var scores: map<nat, real>
    var queue: seq<Event>
    ghost var drift: map<nat, real>

    constructor ()
      ensures State() == START
    {
      rows, likes, comments, favorites, scores, queue, drift := map[], {}, map[], {}, map[], [], map[];
    }

    ghost function State(): Ranking.State
      reads this
    {
      Ranking.State(rows, likes, comments, favorites, scores, queue, drift)
    }

    /** ZINCRBY; an error may come before or after it took effect. */
    method AddHotScore(a: nat, delta: real, fault: Fault) returns (ok: bool)
      modifies this`scores
      ensures scores == if fault.Applied() then Ranking.AddHotScore(old(scores), a, delta) else old(scores)
      ensures ok <==> a == 0 || fault == Fine
    {
      if a == 0 {
        return true;
      }
      if fault.Applied() {
        scores := scores[a := (if a in scores then scores[a] else 0.0) + delta];
      }
      ok := fault == Fine;
    }

    method IncrementView(a: nat, counted: bool) returns (found: bool)
      modifies this`rows
      ensures found == (counted && a in old(rows))
      ensures rows == if found then old(rows)[a := old(rows)[a].(views := old(rows)[a].views + 1)] else old(rows)
    {
      if !counted {
        return false;
      }
      if a in rows {
        rows := rows[a := rows[a].(views := rows[a].views + 1)];
      }
      found := a in rows;
    }

    /** The work of one job, whoever does it. */
    method Work(e: Event, work: Effort) returns (ok: bool)
      modifies this`rows, this`scores, this`drift
      ensures State() == Handle(old(State()), e, work)
      ensures ok <==> (e.article == 0 || work.heat == Fine) && (e.Viewed? ==> work.counted && e.article in old(rows))
    {
      match e {
        case Viewed(a) =>
          var found := IncrementView(a, work.counted);
          if !found {
            return false;
          }
          ok := AddHotScore(a, VIEW_HEAT, work.heat);
          if !work.heat.Applied() {
            drift := Drifted(drift, a, -VIEW_HEAT);
          }
        case CommentCreated(a) => ok := AddHotScore(a, COMMENT_HEAT, work.heat);
        case CommentDeleted(a) => ok := AddHotScore(a, -COMMENT_HEAT, work.heat);
        case FavoriteCreated(a) => ok := AddHotScore(a, FAVORITE_HEAT, work.heat);
        case FavoriteDeleted(a) => ok := AddHotScore(a, -FAVORITE_HEAT, work.heat);
      }
    }

    /** Publish a job; when that returns an error do its work at once.  The error may hide
        that the job is queued all the same. */
    method Publish(e: Event, publish: Fault, work: Effort) returns (reply: Reply)
      modifies this`rows, this`scores, this`queue, this`drift
      ensures State() == Emit(old(State()), e, publish, work)
      ensures !e.Viewed? ==> reply == EmitReply(e.article, publish, work)
    {
      hide Drifted, Ranking.AddHotScore, Surplus;
      if publish.Applied() {
        queue := queue + [e];
      }
      reply := Done;
      if publish.Lost? {
        var ok := Work(e, work);
        reply := if ok then Done else HeatFailed;
      }
      drift := Drifted(drift, e.article, Surplus(e, publish.Applied(), publish.Lost? && work.heat.Applied()));
    }

    method CreateArticle(a: nat, status: Status, createdAt: int, fault: bool) returns (reply: Reply)
      requires a != 0 && a !in rows
      modifies this`rows
      ensures State() == if fault then old(State()) else Do(old(State()), Create(a, status, createdAt))
      ensures reply == if fault then DbFault else Done
    {
      if fault {
        return DbFault;
      }
      rows := rows[a := Row(status, createdAt, 0, 0, 0, 0)];
      reply := Done;
    }

    /** The transaction stores the like unless it exists, counts all likes and writes the
        count.  After the commit the counter cache is synchronised, and a new like heats the
        article; an error in either is returned, with the like stored and its heat lost. */
    method Like(a: nat, u: nat, fault: bool, synced: bool, heat: Fault) returns (reply: Reply, count: nat)
      modifies this`likes, this`rows, this`scores, this`drift
      ensures State() == if fault then old(State())
                         else Do(old(State()), Step.Like(a, u, if synced then heat else Lost(false)))
      ensures reply == if !IsPublished(old(State()), a) then ArticleNotFound else if fault then DbFault
                       else if !synced || ((a, u) !in old(likes) && a != 0 && heat.Lost?) then HeatFailed else Done
      ensures reply.Done? || reply.HeatFailed? ==>
                && (a, u) in likes && a in rows && rows[a].likes == |Of(likes, a)|
                && (reply.Done? ==> count == rows[a].likes)
      ensures reply != Done && reply != HeatFailed ==> State() == old(State())
    {
      if !(a in rows && rows[a].status == Published) {
        return ArticleNotFound, 0;
      }
      if fault {
        return DbFault, 0;
      }
      var changed := (a, u) !in likes;
      likes := likes + {(a, u)};
      count := |Of(likes, a)|;
      rows := rows[a := rows[a].(likes := count)];
      if changed && !(synced && heat.Applied()) {
        drift := Drifted(drift, a, -LIKE_HEAT);
      }
      if !synced {
        return HeatFailed, 0;
      }
      if changed {
        var ok := AddHotScore(a, LIKE_HEAT, heat);
        if !ok {
          return HeatFailed, 0;
        }
      }
      reply := Done;
    }

    /** The same for taking a like back. */
    method Unlike(a: nat, u: nat, fault: bool, synced: bool, heat: Fault) returns (reply: Reply, count: nat)
      modifies this`likes, this`rows, this`scores, this`drift
      ensures State() == if fault then old(State())
                         else Do(old(State()), Step.Unlike(a, u, if synced then heat else Lost(false)))
      ensures reply == if !IsPublished(old(State()), a) then ArticleNotFound else if fault then DbFault
                       else if !synced || ((a, u) in old(likes) && a != 0 && heat.Lost?) then HeatFailed else Done
      ensures reply.Done? || reply.HeatFailed? ==>
                && (a, u) !in likes && a in rows && rows[a].likes == |Of(likes, a)|
                && (reply.Done? ==> count == rows[a].likes)
      ensures reply != Done && reply != HeatFailed ==> State() == old(State())
    {
      if !(a in rows && rows[a].status == Published) {
        return ArticleNotFound, 0;
      }
      if fault {
        return DbFault, 0;
      }
      var changed := (a, u) in likes;
      likes := likes - {(a, u)};
      count := |Of(likes, a)|;
      rows := rows[a := rows[a].(likes := count)];
      if changed && !(synced && heat.Applied()) {
        drift := Drifted(drift, a, LIKE_HEAT);
      }
      if !synced {
        return HeatFailed, 0;
      }
      if changed {
        var ok := AddHotScore(a, -LIKE_HEAT, heat);
        if !ok {
          return HeatFailed, 0;
        }
      }
      reply := Done;
    }

    /** id is the comment id the database assigns.  In place of a failed publish the author
        is awarded first; an error there ends the request before any heat. */
    method CreateComment(id: nat, a: nat, u: nat, fault: bool, publish: Fault, awarded: bool, heat: Fault)
      returns (reply: Reply)
      requires id !in comments
      modifies this`comments, this`rows, this`scores, this`queue, this`drift
      ensures var work := Effort(true, if awarded then heat else Lost(false));
        && State() == (if fault then old(State()) else Do(old(State()), AddComment(id, a, u, publish, work)))
        && reply == if !IsPublished(old(State()), a) then ArticleNotFound else if fault then DbFault
                    else EmitReply(a, publish, work)
      ensures reply != Done && reply != HeatFailed ==> State() == old(State())
      ensures reply == Done || reply == HeatFailed ==> comments == old(comments)[id := Comment(a, u)]
    {
      hide Handle, Emit;
      if !(a in rows && rows[a].status == Published) {
        return ArticleNotFound;
      }
      if fault {
        return DbFault;
      }
      comments := comments[id := Comment(a, u)];
      rows := rows[a := rows[a].(comments := rows[a].comments + 1)];
      reply := Publish(CommentCreated(a), publish, Effort(true, if awarded then heat else Lost(false)));
    }

    method DeleteComment(id: nat, u: nat, fault: bool, publish: Fault, work: Effort) returns (reply: Reply)
      modifies this`comments, this`rows, this`scores, this`queue, this`drift
      ensures State() == if fault then old(State()) else Do(old(State()), Step.DeleteComment(id, u, publish, work))
      ensures reply == if id !in old(comments) then CommentNotFound else if old(comments)[id].user != u then Forbidden
                       else if fault then DbFault else EmitReply(old(comments)[id].article, publish, work)
      ensures reply != Done && reply != HeatFailed ==> State() == old(State())
      ensures reply == Done || reply == HeatFailed ==> comments == old(comments) - {id}
    {
      hide Handle, Emit;
      if id !in comments {
        return CommentNotFound;
      }
      var a := comments[id].article;
      if comments[id].user != u {
        return Forbidden;
      }
      if fault {
        return DbFault;
      }
      comments := comments - {id};
      if a in rows {
        rows := rows[a := rows[a].(comments := if rows[a].comments > 0 then rows[a].comments - 1 else 0)];
      }
      reply := Publish(CommentDeleted(a), publish, work);
    }

    method CreateFavorite(a: nat, u: nat, fault: bool, publish: Fault, work: Effort) returns (reply: Reply)
      modifies this`favorites, this`rows, this`scores, this`queue, this`drift
      ensures State() == if fault then old(State()) else Do(old(State()), AddFavorite(a, u, publish, work))
      ensures reply == if !IsPublished(old(State()), a) then ArticleNotFound
                       else if (a, u) in old(favorites) then AlreadyFavorited
                       else if fault then DbFault else EmitReply(a, publish, work)
      ensures reply != Done && reply != HeatFailed ==> State() == old(State())
      ensures reply == Done || reply == HeatFailed ==> favorites == old(favorites) + {(a, u)}
    {
      hide Handle, Emit;
      if !(a in rows && rows[a].status == Published) {
        return ArticleNotFound;
      }
      if (a, u) in favorites {
        return AlreadyFavorited;
      }
      if fault {
        return DbFault;
      }
      favorites := favorites + {(a, u)};
      rows := rows[a := rows[a].(favorites := rows[a].favorites + 1)];
      reply := Publish(FavoriteCreated(a), publish, work);
    }

    /** The unsigned column makes the transaction fail, and roll back, rather than wrap. */
    method DeleteFavorite(a: nat, u: nat, fault: bool, publish: Fault, work: Effort) returns (reply: Reply)
      modifies this`favorites, this`rows, this`scores, this`queue, this`drift
      ensures State() == if fault then old(State()) else Do(old(State()), Step.DeleteFavorite(a, u, publish, work))
      ensures reply == if (a, u) !in old(favorites) then FavoriteNotFound
                       else if fault || !CanDeleteFavorite(old(State()), a) then DbFault
                       else EmitReply(a, publish, work)
      ensures Consistent(old(State())) && !fault && (a, u) in old(favorites) ==> reply != DbFault
      ensures reply != Done && reply != HeatFailed ==> State() == old(State())
      ensures reply == Done || reply == HeatFailed ==> favorites == old(favorites) - {(a, u)}
    {
      hide Handle, Emit, Consistent;
      if (a, u) !in favorites {
        return FavoriteNotFound;
      }
      CanAlwaysDelete(State(), a, u);
      if fault {
        return DbFault;
      }
      if a in rows {
        if rows[a].favorites == 0 {
          return DbFault;
        }
        rows := rows[a := rows[a].(favorites := rows[a].favorites - 1)];
      }
      favorites := favorites - {(a, u)};
      reply := Publish(FavoriteDeleted(a), publish, work);
    }

    /** Opening an article that is not a draft, archived ones included, counts as a view. */
    method CountView(a: nat, publish: Fault, work: Effort)
      modifies this`rows, this`scores, this`queue, this`drift
      ensures State() == Do(old(State()), View(a, publish, work))
    {
      hide Handle, Emit;
      if a !in rows || rows[a].status == Draft {
        return;
      }
      if a == 0 {
        return;
      }
      var _ := Publish(Viewed(a), publish, work);
    }

    /** A worker takes a queued job and does its work; on an error, or if the end of the
        delivery is lost, a copy stays queued. */
    method ApplyNext(i: nat, work: Effort, kept: bool) returns (ok: bool)
      requires i < |queue|
      modifies this`rows, this`scores, this`queue, this`drift
      ensures State() == Do(old(State()), Apply(i, work, kept))
    {
      hide Handle, Drifted, Surplus;
      var e := queue[i];
      if !kept {
        queue := queue[..i] + queue[i + 1..];
      }
      ok := Work(e, work);
      drift := Drifted(drift, e.article, Surplus(e, kept, work.heat.Applied()));
    }

    method InitialScore(createdAt: int, row: Row) returns (score: real)
      requires row.createdAt == createdAt
      ensures score == Formula(row)
    {
      score := 50.0 + createdAt as real / 86400.0;
      score := score + row.views as real * VIEW_HEAT + row.likes as real * LIKE_HEAT
               + row.comments as real * COMMENT_HEAT + row.favorites as real * FAVORITE_HEAT;
    }

    /** The members a seed writes. */
    method ScoreAll(listing: seq<nat>) returns (members: map<nat, real>)
      requires forall a | a in listing :: a in rows
      ensures members == map a | a in listing :: Formula(rows[a])
    {
      hide Formula;
      members := map[];
      var i := 0;
      while i < |listing|
        invariant 0 <= i <= |listing|
        invariant forall a :: a in members <==> a in listing[..i]
        invariant forall a | a in members :: a in rows && members[a] == Formula(rows[a])
      {
        var a := listing[i];
        var score := InitialScore(rows[a].createdAt, rows[a]);
        members := members[a := score];
        i := i + 1;
      }
      SameScores(rows, members, listing);
    }

    /** Fill the sorted set if it is empty; listing is what the database answers. */
    method SeedHotRanking(listing: seq<nat>)
      requires Listing(State(), listing, SEED_LIMIT)
      modifies this`scores, this`drift
      ensures State() == Do(old(State()), Seed(listing))
    {
      hide Formula, Listing, Pending;
      if |scores| > 0 {
        return;
      }
      ListingIsPublished(State(), listing);
      drift := map a | a in listing :: Pending(queue, a);
      scores := ScoreAll(listing);
    }

    /** found is what the database answers for the given ids, in any order. */
    method ListByIDs(ids: seq<nat>, found: seq<nat>) returns (result: seq<nat>)
      requires forall a :: a in found <==> a in ids && IsPublished(State(), a)
      ensures result == KeepPublished(rows, ids)
    {
      var ordered: map<nat, Row>, i := map[], 0;
      while i < |found|
        invariant 0 <= i <= |found|
        invariant forall a :: a in ordered <==> a in found[..i]
      {
        assert found[i] in found;
        ordered := ordered[found[i] := rows[found[i]]];
        i := i + 1;
      }
      assert found[..i] == found;
      result, i := [], 0;
      while i < |ids|
        invariant 0 <= i <= |ids|
        invariant result == KeepPublished(rows, ids[..i])
      {
        assert ids[..i + 1][..i] == ids[..i];
        assert ids[i] in ids;
        if ids[i] in ordered {
          result := result + [ids[i]];
        }
        i := i + 1;
      }
      assert ids[..i] == ids;
    }

    /** Seed if needed, take the best members and list their articles; listing, ids and
        found are the answers of the stores, fallback the plain list for an empty ranking. */
    method ListHot(limit: int, listing: seq<nat>, ids: seq<nat>, found: seq<nat>, fallback: seq<nat>)
      returns (result: seq<nat>)
      requires Listing(State(), listing, SEED_LIMIT)
      requires Top(Do(State(), Seed(listing)).scores, ids, HotLimit(limit))
      requires forall a :: a in found <==> a in ids && IsPublished(State(), a)
      modifies this`scores, this`drift
      ensures State() == Do(old(State()), Seed(listing))
      ensures result == if scores == map[] then fallback else KeepPublished(rows, ids)
    {
      hide Listing, Pending, Formula;
      SeedHotRanking(listing);
      if |ids| > 0 {
        result := ListByIDs(ids, found);
      } else {
        result := fallback;
      }
    }
  }

  function HotLimit(limit: int): (n: nat)
    ensures 1 <= n <= 50 && (1 <= limit <= 50 ==> n == limit)
    ensures (limit < 1 ==> n == 10) && (limit > 50 ==> n == 50)
  {
    if limit < 1 then 10 else if limit > 50 then 50 else limit
  }

  lemma CanAlwaysDelete(s: State, a: nat, u: nat)
    requires (a, u) in s.favorites
    ensures Consistent(s) ==> CanDeleteFavorite(s, a)
  {
    if Consistent(s) {
      FavoriteIsCounted(s, a, u);
    }
  }
}
