# Verified model of the resource community backend

This project models the stateful core of the Go backend and proves what its pieces
promise over every run: the points ledger, the asynchronous worker, the Redis lock with
the detail-cache fill above it, the following feed and its cache, the hot ranking, the
rate limiter and the tag column. `dafny verify dfyconfig.toml` checks everything.

Each piece has the same shape. A file defines the state as values and every step as a
function; laws over all runs are lemmas about these functions. Where the source changes
things in place, a class with the source's fields does the same statement by statement,
and every method is proved to end in the state the step function gives. Faults are
parameters: a database statement that fails, a remote call whose error hides whether it
took effect, a lost renewal, a crash, a blind cache read. A step that cannot happen does
nothing, so a run is any sequence of steps.

- **Shared** — `Common` holds `Option` and the fault of a remote call.
- **Points** — `PointsTables` is one keyed operation as an atomic step and the ledger
  laws; `PointsRepo` is the transaction with rollback, statement by statement;
  `PointsService` builds the keys and answers; `Moves` is the abstract machine of keyed
  balance moves, and `PointsRuns` refines whole runs to it;
  `PointsMeaning` says in plain amounts and rows what each call comes to. `Text` renders decimals and
  splits keys.
- **Worker** — `WorkerProtocol` is queue, markers and any number of workers under faults;
  `WorkerRunner` is one worker's code, proved to be a run of that protocol and to drain
  any queue; `WorkerTiming` adds the timing assumption under which claims exclude;
  `EndToEnd` composes protocol, comment creation and ledger.
- **Lock and detail cache** — `LeaseLock` is the timed lease, `RedisLock` the client code;
  `DetailFill` interleaves any number of detail requests on any number of instances,
  `DetailService` is the code of one request, `LockedFill` runs fills over the real lease.
- **Feed** — `Feed` is the cursor query and the client's walk; `FeedCache` the keys,
  prefix invalidation and the cached service.
- **Ranking** — `Ranking` sets incremental scores against the recomputing formula;
  `RankingService` is the code of the services that move them.
- **Small cores** — `RateLimit` and `Tags`.

MySQL reports changed rows here (the connection string does not ask for found rows), so an
update by a zero amount counts as no row; the model follows that. Amounts are unsigned in
the source, so expenses carry a non-positive change and awards a non-negative one.

## Model

| member | source | states |
|---|---|---|
| PointsRepo.Repo.AwardPointsWithKey | backend/internal/points/repo.go:170-228 | Whatever statement the database fails, the call ends as the atomic award or as an error with every table as before; a success drops the cached summary, or, if that DEL fails, leaves it as the only kind of entry that may be stale |
| PointsRepo.Repo.CreateCheckInAndAwardWithKey | backend/internal/points/repo.go:230-294 | The same all-or-nothing outcome for a check-in row and its award |
| PointsRepo.Repo.UnlockArticleWithKey | backend/internal/points/repo.go:306-365 | The same all-or-nothing outcome for an unlock row and its charge |
| PointsRepo.Repo.RedeemPrivilegeWithKey | backend/internal/points/repo.go:372-430 | The same all-or-nothing outcome for a privilege row and its charge |
| PointsRepo.Repo.DeductPoints | backend/internal/points/repo.go:81-92 | The balance drops by the amount only if it covers it and the amount is positive; otherwise the reply tells a short balance from a missing user and nothing is spent |
| PointsRepo.Repo.GetSummary | backend/internal/points/service.go:34-65 | Through the cache and whatever query or cache write fails, a summary is the current balance and privileges of its user, unless a DEL for that user failed since the entry was cached |
| PointsTables.ApplyKeepsLedgerLaws | backend/internal/points/repo.go:46-92 | Each transaction keeps: points = opening balance + sum of changes, each entry's balance is its user's prefix sum, operations and ledger entries correspond one to one with equal balances |
| PointsTables.ApplyIsIdempotent | backend/internal/points/repo.go:46-63 | An accepted key is recorded with the balance returned and its replay changes nothing and returns that balance; a refusal changes nothing and leaves the key free |
| PointsService.Service.DailyCheckIn | backend/internal/points/service.go:71-87 | The call ends as the atomic service step or as a database error that changed nothing |
| PointsService.Service.AwardPublishResource | backend/internal/points/service.go:89-96 | The same for the publish award |
| PointsService.Service.AwardQualityInteraction | backend/internal/points/service.go:98-105 | The same for the comment award, with its guards for zero ids |
| PointsService.Service.UnlockArticle | backend/internal/points/service.go:107-146 | The call is the atomic unlock of the published article its lookup found, or a database error that changed nothing |
| PointsService.Service.RedeemPrivilege | backend/internal/points/service.go:148-167 | The same for a redemption, with unknown privileges refused |
| PointsService.OperationKeyInjective | backend/internal/points/service.go:73-154 | The five key formats, decimal rendering included, are injective over kind, user and argument |
| PointsService.FreshKeyMeetsNoDuplicate | backend/internal/points/repo.go:326-336 | Through the service a new key meets neither an existing side row nor a ledger key of another operation |
| PointsService.ServeKeepsLaws | backend/internal/points/entity.go:5-40 | Every call keeps the ledger laws, and an unlock, privilege or check-in row exists exactly when its operation row does |
| PointsService.ServeOutcome | backend/internal/points/service.go:71-167 | Exact behaviour in every reachable state: a known key replays its recorded balance, a new key is refused only for a missing user or a short balance, so already-unlocked and already-redeemed are unreachable |
| PointsMeaning.CallsMean | backend/internal/points/service.go:71-167 | Every call in every lawful state, in amounts, notes and rows: a check-in posts 5, an article 10, a comment 2; an unlock charges exactly the price unless the article is free, has no price or is the user's own, and then changes nothing; privileges cost 30 and 50 and no others exist |
| PointsMeaning.UnlocksAreBought | backend/internal/points/service.go:121-138 | Over all runs every unlock row was bought by a completed call while the article was neither free nor the user's own |
| PointsMeaning.AuthorsNeverPay | backend/internal/points/service.go:121-131 | Over all runs no unlock row belongs to the author of its article |
| PointsMeaning.SummaryMeans | backend/internal/points/service.go:44-60 | A summary shows the balance the ledger adds up to and exactly the privileges whose redemption is recorded, at their prices |
| PointsService.ServeKeepsAmounts | backend/internal/points/service.go:15-24 | Every recorded operation moved exactly the amount its key stands for |
| PointsRuns.RunKeepsLaws | backend/internal/points/repo.go:170-430 | All these laws hold after every run of calls and faults |
| PointsRuns.RunsFromEmpty | backend/internal/points/repo.go:326-402 | From empty tables, after any run, no call is ever refused for anything but a missing user or a short balance |
| PointsRuns.RepeatIsInvisible | backend/internal/points/repo.go:46-63 | Deleting any repeat of a call that already succeeded leaves the final tables unchanged, whatever ran in between |
| PointsRuns.RunRefinesPlay | backend/internal/points/repo.go:170-430 | Seen as balances and keys, a run of the service is the run of its moves on the abstract machine |
| Moves.Confluent | backend/internal/points/repo.go:46-92 | Two sequences over one affordable set of keyed moves, in any order with any repeats, end in the same balances and keys |
| PointsRuns.SchedulesAreConfluent | backend/internal/points/repo_concurrency_test.go:534-620 | Schedules that complete the same calls, whose distinct costs the starting balance covers, end with the same balances and the same operations, check-ins, unlocks and privileges |
| PointsRuns.UnlockBurst | backend/internal/points/repo_concurrency_test.go:464-508 | From balance b, n unlocks of distinct articles at price c > 0 succeed exactly min(n, b/c) times and leave b - c*min(n, b/c) |
| WorkerProtocol.StepKeepsHonest | backend/internal/worker/runner.go:107-213 | Every step of every worker keeps the retry chain: counts within the limit, as many failed executions as the count says, done markers only after a success |
| WorkerProtocol.FailingJobEnds | backend/internal/worker/runner.go:174-194 | A job that fails at every attempt is dead-lettered in the end exactly when the retry limit is within the int32 range of the header, or its first header was above the limit already; otherwise it is retried forever |
| WorkerProtocol.NothingIsLost | backend/internal/worker/runner.go:107-213 | In every reachable state each accepted job has been executed, or has a byte-identical copy queued, held or dead-lettered |
| WorkerProtocol.RetriesAreCounted | backend/internal/worker/runner.go:174-194 | A copy with count c, queued or held by a worker, has c within the limit and at least c failures behind it, one more past a failure; a well-formed job is dead-lettered only after limit + 1 failures |
| WorkerRunner.Runner.RunBeginScript | backend/internal/worker/idempotency.go:55-65 | The script answers done, busy or acquired by the live marker and claims only a free one, for the processing lifetime |
| WorkerRunner.Runner.BeginClaim | backend/internal/worker/idempotency.go:67-82 | The claim is the protocol's begin step under its fault; an empty job id always acquires and marks nothing |
| WorkerRunner.Runner.CloneHeaders | backend/internal/worker/runner.go:260-266 | The copy of a header table has exactly the entries of the original |
| WorkerRunner.Runner.HandleProcessingFailure | backend/internal/worker/runner.go:167-190 | Release, then retry below the limit or dead-letter at it, then acknowledge, or return if one of them reported an error: a run of the protocol with exactly that effect on queue, dead letters and marker |
| WorkerRunner.Runner.HandleDelivery | backend/internal/worker/runner.go:107-165 | One delivery, whatever fails, is a run of the protocol with exactly this effect: a success is recorded, marked done for a day and acknowledged; a failure is recorded, its marker dropped and the retry or dead copy published; a done job is acknowledged, a busy one returned after a second, an unreadable one dead-lettered; a call that reported an error returns the copy to the head of the queue |
| WorkerRunner.Runner.Run | backend/internal/worker/runner.go:88-105 | With finitely many faulty deliveries a single worker empties any queue whatever the jobs do, by the measure (faults left, remaining attempts, life of leftover claims); every job ends executed or dead-lettered, and there are no more new successes than deliveries whose handler succeeded |
| WorkerTiming.ClaimsExclude | backend/internal/worker/idempotency.go:55-98 | If executions finish within their claim, no two workers are inside the same non-empty job, and a release never removes a done marker |
| WorkerTiming.SuccessesAreBounded | backend/internal/worker/runner.go:120-171 | Under the same timing a job succeeds at most once more than its failed completions, crashes before completion and lost or expired done markers |
| EndToEnd.HistoryIsSound | backend/internal/worker/processor.go:71-81 | Over every schedule: the ledger laws, the worker laws, and every successful comment job has its award recorded |
| EndToEnd.ExecuteOutcome | backend/internal/worker/processor.go:71-81 | An execution succeeds exactly when its award was seen to commit, or there was nothing to award, and the heat was recorded; otherwise it counts as failed |
| EndToEnd.SuccessesAreHeated | backend/internal/worker/processor.go:77-79 | Over all histories every comment job that counts as executed had an execution whose award committed and whose heat was recorded |
| EndToEnd.PostOutcome | backend/internal/comment/service.go:50-68 | After a confirmed publish a comment is reported as created and nothing is awarded; after a publish error, exactly when award and heat both succeeded |
| EndToEnd.CreditedOnce | backend/internal/points/service.go:98-105 | Over redeliveries, crashes, ambiguous publishes with fallback, marker loss and lost commits, a comment credits its author at most once with exactly 2 points, and exactly once if and only if an award is recorded |
| EndToEnd.AcceptedIsCreditedOrPending | backend/internal/comment/service.go:50-68 | A comment reported as created is credited, or its job is queued, held or dead-lettered |
| EndToEnd.CommittedStaysCredited | backend/internal/points/repo.go:170-228 | As soon as any attempt's award transaction commits, in a worker, in the fallback of a failed publish or in a call of its own, known to its caller or not, the comment is credited exactly once through everything that follows |
| LeaseLock.ExclusionIffMargin | backend/internal/redislock/redislock.go:70-162 | The lock excludes in every timely run exactly when reply + (misses + 1) * (ttl / 3) + delay < ttl |
| LeaseLock.ToleratedMisses | backend/internal/redislock/redislock.go:135-162 | One lost renewal in a row is tolerated exactly when reply + delay < ttl - 2 * (ttl / 3); two never when the ttl is whole thirds |
| LeaseLock.NeverTogether | backend/internal/redislock/redislock.go:70-90 | With the margin two clients are never inside the critical section together |
| LeaseLock.SpentForever | backend/internal/redislock/redislock.go:34-50 | Once a client's token is not stored, no later step of that client changes the key, in any run, timely or not |
| LeaseLock.AbandonedFrees | backend/internal/redislock/redislock.go:70-79 | A SETNX whose reply was lost frees the key within one ttl whatever else happens |
| LeaseLock.CrashFrees | backend/internal/redislock/redislock.go:135-162 | A crashed holder frees the key within one ttl of the crash, plus the delay of a renewal that was in flight and lands afterwards |
| RedisLock.Lock.Watch | backend/internal/redislock/redislock.go:135-162 | Among any steps of other clients the ticker loop is a run of the lease protocol whose own steps are exactly the renewals of the handled ticks, in order, each with the fate of its tick; a renewal that went through restores the full lifetime, errors are survived, and the loop stops only when a renewal finds the token gone |
| RedisLock.Lock.Unlock | backend/internal/redislock/redislock.go:166-174 | The first call stops the watchdog and then compares and deletes, as those two steps of the protocol, with other clients and a late renewal in between; every further call does nothing |
| RedisLock.Locker.AcquireOnce | backend/internal/redislock/redislock.go:70-90 | Wins exactly when the key was free and the reply arrived; every outcome is the protocol's acquire, then reply or lost reply, around the steps of others |
| RedisLock.Locker.AcquireWithRetry | backend/internal/redislock/redislock.go:106-131 | At most ceil(maxWait / 5 ms) + 1 attempts, even if the timer wins against a deadline that passed; a free key with a first attempt in time and without fault is won at once; a timeout is reported only after the full wait; a win is a valid lock |
| RedisLock.LocksExclude | backend/internal/redislock/redislock.go:70-174 | However calls of this code, other clients and the clock interleave, with the margin two locks of one key that are not unlocked are the same lock, and its token is the stored one |
| DetailFill.SingleFlight | backend/internal/article/service.go:325-348 | In every interleaving an instance runs at most one fill, an answer taken from a fill is exactly its result, and who still waits waits for a fill somebody runs |
| DetailFill.AnswersComeFromLoads | backend/internal/article/service.go:238-279 | In every interleaving, through cache, sentinel and followers, a found article is one the database returned, not-found follows a load that found nothing, and an error a load that failed |
| DetailFill.LockedLoadsAreBounded | backend/internal/article/service.go:199-279 | While the lock excludes, loads by lock holders that end in the cache number at most 1 + removals of the entry + reads that missed a present entry, and every other one belongs to a request of its own that failed to get the lock |
| LockedFill.DatabaseIsShielded | backend/internal/article/service.go:210-231 | Over the real lease with its margin, at most one request fills under the lock and the load bound holds |
| DetailService.Service.GetDetail | backend/internal/article/service.go:199-236 | A cached payload answers that article and a cached sentinel not-found, changing nothing; a miss joins a running fill, or leads one with exactly the protocol steps of its lock result, second read, load and store, and leaves the table clean |
| DetailService.Service.DoCacheFill | backend/internal/article/service.go:325-348 | A leader answers with the cached or loaded outcome, publishes that same outcome to its followers and leaves the table; a follower changes no table of others |
| DetailService.Service.LoadAndStore | backend/internal/article/service.go:255-279 | A found row is cached as payload, a missing one as the null sentinel, a database error is not cached |
| Feed.NewQuery | backend/internal/article/types.go:156-177 | The page size is kept within 1 and 50, 10 by default; there is a cursor exactly when both its parts were usable, and it is the one given |
| Feed.PageCuts | backend/internal/article/service.go:140-162 | A page is the listing cut at the page size, more is claimed exactly when something was cut off, and the cursor is the last row shown |
| Feed.PageIsNewestPart | backend/internal/article/repo.go:73-108 | A page strictly descends by (created_at, id), shows only feed articles past the cursor, and every feed article past the cursor is shown or past the next cursor |
| Feed.OneListing | backend/internal/article/repo.go:87-92 | The ordered result of a query is determined by its rows alone, whatever their physical order |
| Feed.WalkDescends | backend/internal/article/service.go:140-162 | Whatever happens to the data between pages, the whole walk strictly descends, so nothing is shown twice |
| Feed.WalkIsComplete | backend/internal/article/repo.go:94-101 | An article in the feed in every snapshot is returned exactly once by a walk that ended |
| Feed.WalkReturnsFeedRows | backend/internal/article/repo.go:87-92 | Everything returned was in the feed of one of the snapshots |
| Feed.FixedWalk | backend/internal/article/service.go:140-162 | On unchanged data the pages concatenate to the full ordered feed, hasMore is exact on every page, and the walk takes ceil(n/pageSize) pages for n > 0 |
| FeedCache.PrefixIsOwn | backend/internal/cachekey/cachekey.go:61-73 | A user's prefix starts a key exactly when the key is that user's |
| FeedCache.KeyTellsQuery | backend/internal/cachekey/cachekey.go:65-73 | Equal keys mean equal follower, page size, cursor instant and cursor id |
| FeedCache.Service.DeleteByPrefix | backend/internal/cachekey/cachekey.go:92-109 | Exactly the keys with the prefix are gone, whatever order or repeats the scan shows |
| FeedCache.OwnFollowsOnly | backend/internal/social/repo.go:78-83 | Dropping one user's keys makes up for any change of that user's follows |
| FeedCache.StoringKeepsCoherent | backend/internal/article/service.go:163-166 | Storing a computed page keeps every cached page equal to its direct query |
| FeedCache.Service.ListFollowing | backend/internal/article/service.go:125-167 | After any sequence of requests, hit or miss, the answer has the articles, order, hasMore and cursor of the direct query |
| FeedCache.Service.Create | backend/internal/article/service.go:65-101 | A new article leaves no cached following feed that disagrees with the direct query |
| FeedCache.Service.Follow | backend/internal/social/service.go:20-29 | Validation in order, the pair is added, and exactly the follower's keys are dropped, keeping the cache coherent |
| FeedCache.Service.Unfollow | backend/internal/social/service.go:31-40 | The same for removing the pair |
| Ranking.StepKeepsConsistent | backend/internal/article/repo.go:329-347 | Every operation and job, with failing and ambiguous calls to queue and ranking, keeps each count equal to the number of its rows, and for every article covered by the last seed: score + heat still queued = formula on current counts + heat queued at its seed - heat lost + heat doubled |
| Ranking.ExactRunsHaveNoDrift | backend/internal/article/service.go:361-369 | If heat always takes effect once, by score or by queue, and seeds find nothing queued for what they list, nothing drifts |
| Ranking.FavoriteIsCounted | backend/internal/favorite/repo.go:64-80 | A stored favourite is counted, so the unguarded decrement never goes below zero |
| Ranking.DeleteCommentTables | backend/internal/comment/repo.go:46-57 | Deleting a comment keeps all counts equal to the rows, and the guard against zero is never needed |
| Ranking.QuiescentScore | backend/internal/article/service.go:477-534 | With no job queued, a covered article's score is the formula on its current counts exactly when heat queued at its seed, lost and doubled cancel out |
| Ranking.ReseedingIsIdentity | backend/internal/article/repo.go:411-459 | In a quiescent ranking whose seed covered every published article, at most 200: dropping it and seeding again gives the same scores exactly when nothing has drifted and every member is published |
| Ranking.HotListIsTheTop | backend/internal/article/service.go:445-462 | In a quiescent ranking without drift: the hot list shows published articles only, best first by the formula, none better left out; nothing is dropped exactly when every listed id is published, and the list is full exactly then or when no published article is left out |
| Ranking.ArchivedViewShows | backend/internal/article/service.go:300-311 | One view of an archived article enters it into the ranking: it takes a place of the hot list that nothing fills, and a reseed gives other scores |
| Ranking.ArchivedViewBlocksSeed | backend/internal/article/repo.go:417-424 | On an empty ranking such a view makes the following seeds do nothing |
| Ranking.DraftsNeverScore | backend/internal/article/service.go:300-311 | In every run drafts have neither a score nor a queued job |
| Ranking.SeedCounts | backend/internal/article/repo.go:426-458 | A seed of an empty ranking covers min(200, n) of n published articles |
| Ranking.SeedCovers | backend/internal/article/repo.go:431-439 | It covers the published articles with the most likes, then favourites, then views, then the newest |
| Ranking.FormulaMeans | backend/internal/article/hot.go:5-19 | An article starts at 50 and one point more per day of its creation time; a view adds 1, a like 8, a comment 12, a favourite 10 |
| RankingService.Backend.Like | backend/internal/article/service.go:350-378 | A refused or rolled-back like changes nothing; after the commit the like is stored and counted whatever fails, only a new like adds heat, and an error then means its heat may be lost |
| RankingService.Backend.Unlike | backend/internal/article/service.go:380-408 | The same for taking a like back |
| RankingService.Backend.CreateComment | backend/internal/comment/service.go:28-68 | Row and count change together; then the job is queued, or, on a publish error that may hide a queued job, award and heat are tried at once |
| RankingService.Backend.DeleteComment | backend/internal/comment/service.go:109-142 | The same for a deletion by its author; others are refused |
| RankingService.Backend.CreateFavorite | backend/internal/favorite/service.go:24-68 | A second favourite is refused; otherwise row, count and heat as above |
| RankingService.Backend.DeleteFavorite | backend/internal/favorite/service.go:70-106 | In every consistent state an existing favourite can be removed; row, count and heat as above |
| RankingService.Backend.CountView | backend/internal/article/service.go:281-311 | Opening any article that is not a draft counts as a view, by job or at once |
| RankingService.Backend.ApplyNext | backend/internal/worker/processor.go:57-102 | A job taken from the queue does the work its kind stands for; on an error or a lost acknowledgement a copy stays queued |
| RankingService.Backend.SeedHotRanking | backend/internal/article/repo.go:411-459 | An empty ranking becomes the formula of each listed article; a non-empty one is left alone |
| RankingService.Backend.ListByIDs | backend/internal/article/repo.go:384-409 | The published ones of the given articles in the given order, whatever order the database answers in |
| RankingService.Backend.ListHot | backend/internal/article/service.go:424-467 | Seeds if empty, then lists the published ones of the best members in rank order |
| RateLimit.IntervalBound | backend/internal/app/rate_limit_middleware.go:71-88 | Over every arrival sequence and any failing commands, an interval of length L, ends included, sees at most Limit * (ceil(L/Window) + 1) counted admissions |
| RateLimit.WindowsIsCeiling | backend/internal/app/rate_limit_middleware.go:76-78 | The window count of that bound is the ceiling of length over window |
| RateLimit.TwiceTheLimit | backend/internal/app/rate_limit_middleware.go:71-88 | No interval as long as the window sees more than 2 * Limit |
| RateLimit.TwiceIsReached | backend/internal/app/rate_limit_middleware.go:71-88 | Under every rule two full bursts one window apart are all admitted, so the factor two is exact |
| RateLimit.WindowEnds | backend/internal/app/rate_limit_middleware.go:76-79 | A window lasts exactly its length from the request that opened it: whatever happens inside, a request at its end or later is admitted again |
| RateLimit.WindowAdmits | backend/internal/app/rate_limit_middleware.go:79-88 | Inside a window exactly what is left of the limit is admitted, first come first served |
| RateLimit.LostExpiryLocksOut | backend/internal/app/rate_limit_middleware.go:71-79 | If EXPIRE is lost, the counter admits the rest of its limit and then nothing, ever |
| RateLimit.KeysApart | backend/internal/app/rate_limit_middleware.go:67-68 | Different rules or different callers never share a counter |
| RateLimit.SharedCounter | backend/internal/app/rate_limit_middleware.go:92-107 | Two requests share a counter exactly when the rule is per user and they come from one signed-in user, or neither counts as a user and their addresses agree |
| RateLimit.EachCallerIsBounded | backend/internal/app/rate_limit_middleware.go:61-90 | In a mixed run of all callers each one is bounded on its own |
| RateLimit.Middleware.Handle | backend/internal/app/rate_limit_middleware.go:61-90 | A request is let through uncounted exactly when the rule is off or INCR failed; otherwise counted, given a lifetime on the first count, admitted within the limit |
| Tags.NormalizeTags | backend/internal/article/types.go:186-206 | The loop with its seen set computes the normalised list |
| Tags.NormalizeMeans | backend/internal/article/types.go:186-206 | The normalised list holds exactly the non-empty cleaned tags, each once, in the order of first use |
| Tags.NormalizeIsIdempotent | backend/internal/article/types.go:186-206 | Normalising twice is normalising once |
| Tags.TrimTakesSpaceOnly | backend/internal/article/types.go:194 | Trimming takes white space off both ends and nothing else |
| Tags.CaseIsIgnored | backend/internal/article/types.go:194 | Tags that differ in letter case only become the same tag |
| Tags.TagsRoundTrip | backend/internal/article/types.go:208-217 | What is read back from the column is the normalised list exactly when no normalised tag contains a comma |
| Tags.ReadBackCount | backend/internal/article/types.go:208-217 | For all tags: one piece per kept tag and one more per comma in them comes back |
| Tags.InstrIsMembership | backend/internal/article/repo.go:470-471 | For a comma-free tag the wrapped substring test on any text is membership in the split list |
| Tags.DialectsAgreeExactly | backend/internal/article/repo.go:467-472 | FIND_IN_SET and the substring test agree on every column value exactly when the tag has no comma |
| Tags.SearchFindsTags | backend/internal/article/repo.go:461-473 | With comma-free tags both dialects keep an article exactly when the cleaned search tag is one of its normalised tags |

## Left out

- HTTP handlers, routing, authentication, metrics, logging, configuration, uploads, migrations and the frontend.
- JSON, GORM, AMQP and Redis client code: total operations with a fault beside them. A confirmed publish is really in the queue.
- MySQL isolation below one transaction: a transaction is one atomic step. Concurrent likes can miscount and concurrent deletes can decrement twice under snapshot reads, so the counts are claimed for requests that run one at a time.
- A COMMIT whose outcome the caller does not learn appears in `EndToEnd` only; in `PointsRepo` a failed transaction has been rolled back.
- Overflow of an unsigned balance or count at the top of its range is a database fault like any other.
- Worker shutdown while it waits, and crashes inside `WorkerRunner`: crashes between any two steps are in `WorkerProtocol`.
- WorkerRunner.Runner.Run: needs a retry limit within the int32 range; above it a job that always fails is retried forever (`WorkerProtocol.FailingJobEnds`).
- A crash or panic of a request inside the fill closure: its fill would stay in the table and its followers would wait. `LeaseLock` covers the crash for the lock key.
- Strict coherence of detail, list, hot and summary caches while requests interleave: a fill may store a value read before an invalidation.
- DetailService.Service.GetDetail: the answer is the cached payload; hiding the content of an article that is not unlocked is not modelled, and its view event is `RankingService.Backend.CountView`.
- FeedCache.Service.Create: assumes that the scan and DEL of the invalidation reach Redis, as do Follow and Unfollow; the code ignores their errors and the cache is then stale until it expires.
- Only ids, order, hasMore and cursor of cached feed items are compared; titles and counts in a cached page may be up to its lifetime old.
- RFC 3339 texts: a time is an instant with a zone, shown as a decimal instant and an offset; formatting and parsing a cursor is taken to be a round trip. Times are compared by instant.
- Scores are exact rationals instead of floats; random jitter and backoff are any value in their range; tokens and job identifiers are fresh.
- Articles published after a seed have no base score, because nothing publishes their `article.published` event; `article.liked` is likewise never published. The ranking theorems ask for a seed that covered every published article.
- The Redis like counter, the hot-list cache, `SetInitialHeat`, and the fallback list of an empty ranking beyond its being passed through.
- Offset pagination in `Repo.List` (no tie-breaker) and `ArticleListKey` (keyword text can imitate the tag field, so it is not injective).
- Tags.DialectsAgreeExactly: strings are compared character by character; MySQL's FIND_IN_SET compares under the column's collation, so there non-ASCII tags can also match across accents or case.
- Tags.SearchFindsTags: the same comparison character by character.
- Tags.TagsRoundTrip: lower-casing covers ASCII letters; other letters are left as they are. White space is Unicode white space. The 500-byte column limit is not modelled.
- The Retry-After header of a rejected request.
