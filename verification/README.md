# A verified model of the gateway's stateful core

The gateway routes requests to language models. What is hard to get right in it is bookkeeping that changes step by step
under concurrency, time and eviction, and this project models that bookkeeping in Dafny:

| file | what it models |
|---|---|
| `ModelCatalog`, `CoalescingRegistry`, `RegistryTheorems`, `RegistryAnswers`, `RegistryCache` | the model registry: a cache with a time to live in front of a fetcher, where concurrent `get` calls for one model share a single fetch; a transition system with one program counter per task, and the cache operations done step by step |
| `RateLimiter` | the per-IP request counter with background pruning |
| `RouteExecutor`, `ExecutionTheorems` | execution of a route plan with retries, fallbacks and guards against repeating a credential or provider |
| `CredentialMetrics`, `Doubles` | per-credential counters and moving averages in a bounded map |
| `TraceMetrics` | metrics aggregated from trace spans, overall and per provider and model |
| `Outcomes`, `RouteStatistics`, `Tracking` | outcomes booked per route and per time bucket, the bounded history of attempts, and their agreement |
| `Sessions` | session affinity with expiry and eviction |
| `Eviction`, `StableSorting`, `Smoothing`, `LatencySummaries`, `Percentiles`, `TextSearch`, `Wrappers` | oldest-first eviction, stable sorting, exponential smoothing in closed form, running summaries of latencies, percentiles as ranks, and text search, shared by the above |
| `Policies`, `PolicyMatching` | the policy registry, and what its policies say about a model |
| `Bandit` | success and failure counters with decay |
| `EnvExpansion` | expansion of `${NAME}` and `${NAME:-default}` |

Objects whose methods change fields are classes; each method states its whole new state as a function of the old one, or as
the extension of a ghost log of everything that happened. The theorems are about those functions and logs, so they hold of
every run.

## What the proofs found

Where the code does not do what its documentation says or a caller would expect, the exact condition under which it does
is proved, together with an input on which it does not:

* **Coalescing.** The fetch guard clears its pending entry with `try_lock`, which may fail (`operations.rs:90-96`). The
  entry then stays for good, its channel never closes, and every later caller of that model that misses the cache waits
  for ever. A waiting call can still be answered if and only if it is not starved in this way
  (`AnswerableIffNotStarved`), an orphaned entry exists if and only if a guard missed the lock (`OrphanIffGuardMissed`),
  and a run of two concurrent calls in which the guard of one meets the other at the lock reaches such a state
  (`StarvationIsReachable`).
* **Rate limiting.** The documentation of the limiter speaks of a sliding one-minute window (`state.rs:126-134`); the code
  counts in fixed windows. Up to `2 * max - 1` requests get through in sixty seconds, a bound that is reached
  (`BoundIsReached`), and the limit holds of every sliding minute if and only if `max <= 1` (`SlidingWindowIff`).
* **Timeouts.** The documentation says a timeout triggers a fallback (`executor.rs:94`). A failed call is reported with
  status 0. Another route is tried after it if and only if 0 is configured as retryable, which by default it is not, a
  retry is left and a further route is eligible (`NetworkErrorFallsBackIff`). Plans whose fallback stays untried are
  `NetworkErrorLeavesFallback`, under the default configuration, and `NetworkErrorWithoutRetries`.
* **Retry budget.** "Retry budget exhausted" is also reported when the fallbacks merely run out (`executor.rs:286-301`).
  Of the executions that report it, the budget is spent if and only if more routes were eligible than retries are allowed
  (`BudgetIsExhaustedIff`); a plan that reports it with the budget left is `BudgetIsReportedUnspent`.
* **Weight factor.** The factor is 1.0 when no policy matches, as documented (`matcher.rs:248-250`), but not only then:
  it is 1.0 if and only if nothing matches, the priorities of the matches sum to zero modulo 2^32, or the weights average
  to 1 (`NeutralIff`). A preference of default priority matches every model and carries no weight
  (`DefaultPolicyIsNeutral`).
* **Sessions.** The session just set may be dropped by the cleanup it triggers when the clock stands still:
  `SetSessionIsSafeIff` gives the exact condition, `SetSessionMayBeEvicted` an instance. Under a strictly increasing clock
  it stays unless the cleanup comes later than its time to live (`SetProvider`).
* **Bandit.** The decay is documented as lying between 0 and 1. Counters stay positive over all runs if and only if it is
  positive (`PositiveIffDecayPositive`), and bounded if and only if it is less than 1 in magnitude
  (`BoundedIffDecaying`). At the ends of the range, 0 erases all successes (`DecayZeroErases`) and 1 passes the default's
  bound after a hundred wins (`DecayOneExceeds`).
* **History.** The mode distribution in the metrics of one route counts the attempts of all routes
  (`history.rs:408-412`). It is the route's own if and only if the history holds no attempt of another route
  (`ModesAreTheRoutesOwnIff`); `ModesOfTwoRoutes` is a history where it is not.
* **Reset of a route.** It is documented as resetting the tracking of the route (`history.rs:489-492`), but leaves the
  history as it is, so metrics of the route are still reported if and only if the history holds an attempt of it
  (`ResetRoute`, `CalculateMetricsForRoute`). Statistics and attempts that were in step stay so if and only if there was
  no attempt of it (`ResetKeepsInStepIff`); `ResetLeavesAttempt` is a log of one attempt.
* **Time buckets.** Peak hours are described as local time (`statistics.rs:8-14`) but computed from the UTC hour. They are
  the local ones if and only if the local clock is whole days off UTC (`PeakIsLocalIff`), and all buckets are if and only
  if it is whole weeks off (`BucketsAreLocalIff`); `PeakDiffersInUtcPlusOne` is an instant where they differ.
* **Percentiles of a bucket.** They are fields of its statistics (`statistics.rs:113-118`) that keep the zero they are
  created with (`PercentilesAreNeverComputed`). With no negative latency, each is the bucket's percentile if and only if
  more than its share of the latencies is zero (`BucketPercentilesAreRightIff`); one booking of a positive latency
  suffices for a wrong one (`OneBookingHasWrongPercentile`).

## Assumptions

* `f64` is `real`: no rounding, no NaN, no infinities. The largest finite double, which marks an unset minimum, is kept.
* Integers are unbounded, except the sum of policy priorities, which is kept in 32 bits and wraps.
* Clock readings are parameters. Where it matters they do not go backwards, and this is stated.
* A section that holds a lock without awaiting is one step. Locks are not poisoned.
* Iteration over a hash map visits its entries in an arbitrary order.
* What a route call replies is an arbitrary function of the attempt number and the route.

## Model

| member | source | states |
|---|---|---|
| `CoalescingRegistry.StepKeepsInv` | src/registry/registry/operations.rs:59-149 | every step of every task, in any interleaving with refresh, background refresh, invalidation and cleanup, keeps the registry's invariant: leaders own their pending entry, channels carry what their leader sent, cached entries are validated answers |
| `CoalescingRegistry.CancelKeepsInv` | src/registry/registry/operations.rs:84-105 | dropping a task at any await keeps the invariant; a dropped leader goes through its fetch guard |
| `CoalescingRegistry.DropGuardKeepsInv` | src/registry/registry/operations.rs:90-96 | the guard keeps the invariant whether it gets the pending lock or, against another task taking it, does not |
| `CoalescingRegistry.SendKeepsInv` | src/registry/registry/operations.rs:134-135 | sending the result puts the leader's own result on its channel, as its only message |
| `CoalescingRegistry.CloseSenderKeepsInv` | src/registry/registry/operations.rs:98-141 | dropping the leader's sender keeps the invariant: a channel stays open exactly as long as its leader or the pending map holds a sender |
| `RegistryTheorems.RunKeepsInv` | src/registry/registry/operations.rs:59-149 | the invariant holds after any run |
| `RegistryTheorems.SingleFlight` | src/registry/registry/operations.rs:77-105 | in every reachable state at most one leader per model is in flight, and the pending map holds its channel while it is |
| `RegistryTheorems.AtMostOneMessage` | src/registry/registry/operations.rs:98-135 | in every reachable state every channel carries at most one message |
| `RegistryTheorems.WaiterGetsLeaderResult` | src/registry/registry/operations.rs:82-148 | a waiter subscribed before the send returns exactly its leader's result; one whose leader was cancelled, or that subscribed after the send, returns a broadcast failure |
| `RegistryTheorems.CachedEntriesAreSound` | src/registry/registry/operations.rs:110-127 | every cached entry in every reachable state passed validation and was answered by the fetcher under its key |
| `RegistryTheorems.ResultsAreSound` | src/registry/registry/operations.rs:59-149 | every model returned by a hit, a leader or a waiter passed validation and was answered by the fetcher under the requested ID; that a call is given the answer is `RegistryAnswers.LeaderIsAnswered`, `WaiterIsAnswered` and `LookupReturnsLatest` |
| `RegistryTheorems.HitsAreFresh` | src/registry/registry/operations.rs:67-75 | a cache hit is served at or after its key was last written and less than the time to live later |
| `RegistryTheorems.OrphanIffGuardMissed` | src/registry/registry/operations.rs:90-96 | a pending entry has no leader in flight if and only if a guard for that model missed the lock |
| `RegistryTheorems.OrphanIsForever` | src/registry/registry/operations.rs:77-105 | over any further run an orphaned entry keeps its channel, which stays open and gets no further message |
| `RegistryTheorems.OrphanStarvesLaterCallers` | src/registry/registry/operations.rs:77-83 | every later caller that misses the cache for that model is starved |
| `RegistryTheorems.StarvedWaitersNeverReturn` | src/registry/registry/operations.rs:143-148 | over any further run a starved waiter is never able to receive; it waits or is cancelled |
| `RegistryTheorems.LeaderMoves` | src/registry/registry/operations.rs:98-141 | while a waiter that is not starved cannot receive, there is a step that brings its answer nearer: its leader's own, or, when the leader has to store and the background task holds the cache lock, the end of that task's turn |
| `RegistryTheorems.WaiterCanFinish` | src/registry/registry/operations.rs:98-148 | a waiter that is not starved can be answered within six steps |
| `RegistryTheorems.LeaderRunsOut` | src/registry/registry/operations.rs:98-141 | over any run, in any interleaving, a leader takes at most the steps it has left, never more than five, and having taken them it is done |
| `RegistryTheorems.WaiterIsAnsweredIff` | src/registry/registry/operations.rs:98-148 | after any run that leaves a waiter waiting and its leader done, the waiter can receive if and only if it is not starved; one that subscribed before the send is starved only if its leader was dropped before sending and its guard missed the lock |
| `RegistryTheorems.AnswerableIffNotStarved` | src/registry/registry/operations.rs:77-148 | a waiting call can still be answered if and only if it is not starved |
| `RegistryTheorems.StarvationIsReachable` | src/registry/registry/operations.rs:77-148 | a run of two concurrent calls, in which the guard of the first misses the pending lock because the second is taking it, reaches a state in which the second is starved and the first has returned |
| `RegistryAnswers.LeaderIsAnswered` | src/registry/registry/operations.rs:98-140 | over any run a leader that has returned was answered by the fetcher, and returned the model if the answer is one that validates, its first violation if it does not, not found if there is none, and the failure otherwise; if it returned a model it has stored it |
| `RegistryAnswers.WaiterIsAnswered` | src/registry/registry/operations.rs:143-148 | over any run a waiter that has returned returned what the answer to its leader calls for, unless its broadcast failed |
| `RegistryAnswers.RunRefusesEmpty` | src/registry/registry/operations.rs:63-65 | over any run a call is refused at once if its model ID is empty, and otherwise is not |
| `RegistryAnswers.StoredModelIsAnswer` | src/registry/registry/operations.rs:107-127 | over any run the model a leader stores is valid and was answered by the fetcher to it |
| `RegistryAnswers.StoredModelStays` | src/registry/registry/operations.rs:115-125 | a stored model is in the cache under its leader's key, with its expiry, as long as nothing writes or drops the key and the time to live has not passed |
| `RegistryAnswers.CacheIsLatest` | src/registry/registry/operations.rs:115-282 | over any run the live entry of a key is the one last written, by a leader or as a valid member of a listing, and not invalidated since |
| `RegistryAnswers.LookupReturnsLatest` | src/registry/registry/operations.rs:67-75 | over any run a lookup returns the model last written for its key if that is live, and goes on to fetch otherwise |
| `RegistryAnswers.CallCanReturn` | src/registry/registry/operations.rs:59-149 | every call that is neither dropped nor starved can still return |
| `RegistryAnswers.EveryCallCanReturn` | src/registry/registry/operations.rs:59-149 | so a call made in any reachable state can return, unless a guard has missed the lock for its model; one without a model ID has returned with its error |
| `ModelCatalog.ValidationIsExact` | src/registry/info.rs:146-171 | validation accepts exactly the models with an ID, a window and prices that are not negative, and otherwise names the first rule violated |
| `RegistryCache.Registry.ApplyListing` | src/registry/registry/operations.rs:210-241 | a full refresh replaces or adds exactly the models of the listing that have an ID, a window and no negative price, in whatever order they are visited, and leaves the other entries |
| `RegistryCache.Registry.BackgroundRefresh` | src/registry/registry/operations.rs:418-461 | one turn of the background task applies the listing, if there is one, and then drops what has expired |
| `RegistryCache.Registry.Invalidate` | src/registry/registry/operations.rs:246-255 | the given models are dropped, or all of them if none is given |
| `RegistryCache.Registry.CleanupExpired` | src/registry/registry/operations.rs:274-282 | the cleanup done in place is the step of the transition system, and returns how many entries it dropped |
| `RegistryCache.Registry.FindBestFit` | src/registry/registry/operations.rs:395-415 | a live model that fits and costs no more than any other live model that fits, at seven tenths of the tokens as input and three tenths as output, or none exactly when none fits |
| `RegistryCache.CostIsPrice` | src/registry/registry/operations.rs:395-415 | the cost compared is the price per million of the two roundings, seven tenths and three tenths of the tokens, each rounded down |
| `RateLimiting.RateLimiter.Check` | src/state.rs:148-173 | the field-by-field check is the pure step that the theorems below run: it counts from the opening of a window, restarts it after sixty seconds, and refuses once the limit is reached |
| `RateLimiting.RateLimiter.Prune` | src/state.rs:177-184 | the pruning done in place is the pure step that the theorems below run, and keeps exactly the windows opened less than two minutes ago |
| `RateLimiting.LimiterIsLoneCounters` | src/state.rs:148-184 | along any run, an IP is answered as by a counter of its own that is never pruned |
| `RateLimiting.AnswersDependOnOwnTimesOnly` | src/state.rs:148-184 | two runs that check an IP at the same times answer it alike, whatever else they check or prune |
| `RateLimiting.PruningIsInvisible` | src/state.rs:177-184 | taking every prune out of a run changes no answer |
| `RateLimiting.EmptyIpIsNeverLimited` | src/state.rs:149-152 | requests without an IP are always let through |
| `RateLimiting.AcceptedPerMinute` | src/state.rs:148-184 | along any run, at most `2 * max - 1` requests of one IP are accepted in any half-open sixty seconds |
| `RateLimiting.AcceptedPerWindow` | src/state.rs:159-172 | along any run, whatever it prunes and whichever other IPs it checks, at most `max` requests of an IP are accepted in the minute from the opening of one of its counting windows |
| `RateLimiting.BoundIsReached` | src/state.rs:148-173 | for every positive limit some run accepts exactly `2 * max - 1` requests within a minute |
| `RateLimiting.SlidingWindowIff` | src/state.rs:126-173 | the limit holds of every sliding minute of every run if and only if it is at most one |
| `RouteExecution.RouteExecutor.Execute` | src/routing/executor.rs:103-302 | the loop tries the routes the step-by-step choice gives and reports what their replies were: success if and only if the last was a status from 200 to 299, with its route, status, error and the sum of latencies; the metrics collector and the health manager are told of each route once, in order |
| `RouteExecution.RouteExecutor.ExecuteFallbacks` | src/routing/executor.rs:186-302 | the same of the loop over the fallbacks, from any state in which the primary has failed retryably |
| `RouteExecution.RouteExecutor.Attempt` | src/routing/executor.rs:305-342 | one attempt is recorded once with the success, status and latency of its reply, a status from 200 to 299 being the only success, and ends the execution exactly when it succeeds or may not be retried |
| `RouteExecution.AttemptInterprets` | src/routing/executor.rs:305-342 | a reply is a success for 200 to 299 only, a redirect for 300 to 399, an HTTP error for any other status, and a network error of status 0 and no latency if there was none |
| `RouteExecution.FinalIff` | src/routing/executor.rs:350-363 | a reply ends the execution if and only if it is a success, has a status from 401 to 403 or has one that is not configured as retryable |
| `RouteExecution.DefaultRetries` | src/routing/executor.rs:34-66 | by default 429 and 500 to 599 are retried, three times |
| `RouteExecution.ReportIsOfReplies` | src/routing/executor.rs:118-302 | success, route, status, error, attempts and latency of the report, read off the replies to the routes tried |
| `RouteExecution.RecordedAreReplies` | src/routing/executor.rs:318-340 | the collector and the health manager are told, for each route tried, of the success, status and latency of its reply |
| `ExecutionTheorems.ExecutionMeetsSpecification` | src/routing/executor.rs:113-302 | the routes tried are the one sequence that meets the declarative specification: the longest prefix, within the budget and up to the first final reply, of the greedy credential- and provider-distinct choice from primary and fallbacks |
| `ExecutionTheorems.GreedyIsUnique` | src/routing/executor.rs:186-220 | there is only one greedy choice among the candidates |
| `ExecutionTheorems.EligibleIsGreedyChoice` | src/routing/executor.rs:186-220 | skipping blocked fallbacks one after the other makes the greedy choice; skipped routes use no budget |
| `ExecutionTheorems.ExecutionTries` | src/routing/executor.rs:113-302 | execution stops neither too early nor too late |
| `ExecutionTheorems.TriedRoutesAreDistinct` | src/routing/executor.rs:113-220 | no credential is tried twice; with diversity on no provider repeats except through a fallback that names none; a primary is always tried first |
| `ExecutionTheorems.CandidatesAreThePlan` | src/routing/executor.rs:113-220 | what may be tried is the primary and then the fallbacks in order, each with its own credential and weight and the model of the primary |
| `ExecutionTheorems.TriedRoutesAreOfThePlan` | src/routing/executor.rs:113-220 | every route tried is the primary or such a fallback |
| `ExecutionTheorems.UntriedFallbacksConflict` | src/routing/executor.rs:186-220 | with a retry left and no final reply, every fallback was tried, or shares its credential or, with diversity on, the provider it names with a route that was |
| `ExecutionTheorems.NetworkErrorFallsBackIff` | src/routing/executor.rs:118-363 | a network error met by any attempt is followed by another attempt if and only if status 0 is configured as retryable, a retry is left and a further route is eligible; its reply is what ends the execution if and only if 0 is not configured, and by default it is not |
| `ExecutionTheorems.NetworkErrorLeavesFallback` | src/routing/executor.rs:305-363 | a plan with an eligible fallback that stays untried because the primary meets a network error |
| `ExecutionTheorems.NetworkErrorWithoutRetries` | src/routing/executor.rs:186-302 | with status 0 configured as retryable and no retries, an eligible fallback stays untried after a network error all the same |
| `ExecutionTheorems.BudgetIsExhaustedIff` | src/routing/executor.rs:186-302 | when the retry budget is reported exhausted, all of it was spent if and only if more routes were eligible than retries are allowed |
| `ExecutionTheorems.BudgetIsReportedUnspent` | src/routing/executor.rs:286-301 | a plan that reports the budget exhausted after one attempt, with three retries left |
| `ExecutionTheorems.RecordingsCount` | src/routing/metrics.rs:127-211 | unless a cleanup falls due while the credentials recorded for do not fit beside the entries there are, a credential's request and success counts grow by exactly what was recorded for it, and an entry nothing was recorded for is left alone |
| `ExecutionTheorems.RecordingsEvictNothing` | src/routing/metrics.rs:138-149 | on the same condition the entries afterwards are exactly those there were and those recorded for |
| `ExecutionTheorems.ExecutionConservesAccounts` | src/routing/executor.rs:118-301 | an execution raises the request count of exactly the credentials it tried by one each, the success count of exactly the credential it reports as successful, and nothing else, unless a cleanup falls due while the credentials tried do not fit beside those the collector holds |
| `CredentialMetrics.UpdateEntry` | src/routing/metrics.rs:154-209 | the field-by-field update of an entry is one step of the replay of its log |
| `CredentialMetrics.MetricsCollector.RecordResult` | src/routing/metrics.rs:127-211 | one recording: nothing for an empty ID; otherwise cleanup before every hundredth, then the sample ends the log of its credential and no other entry changes |
| `CredentialMetrics.MetricsCollector.InitializeAuth` | src/routing/metrics.rs:95-124 | a fresh entry, then eviction if there are too many; no other entry changes, and none is evicted while there is room |
| `CredentialMetrics.MetricsCollector.CleanupOldEntries` | src/routing/metrics.rs:263-284 | the newest entries by last request are kept, untouched, with their logs, exactly down to the limit |
| `CredentialMetrics.MetricsCollector.Reset` | src/routing/metrics.rs:230-254 | a fresh entry, without cleanup |
| `CredentialMetrics.MetricsCollector.ResetAll` | src/routing/metrics.rs:257-260 | no entries are left, and the operation counter goes on |
| `CredentialMetrics.RunIsFaithful` | src/routing/metrics.rs:95-285 | after any run every entry is the replay of what was recorded for it since it was created |
| `CredentialMetrics.CountsAgreeWithLog` | src/routing/metrics.rs:171-190 | total, success and failure counts and both streaks are those of the log |
| `CredentialMetrics.RatesAreSmoothed` | src/routing/metrics.rs:205-209 | the success rate in closed form: 0.7 to the number of samples, and for each success 0.3 times 0.7 to the number of samples since; the error rate is the rest |
| `CredentialMetrics.InstantsAgreeWithLog` | src/routing/metrics.rs:172-186 | the instants of the last request, success and failure are those of the log |
| `CredentialMetrics.RecordedIsLogged` | src/routing/metrics.rs:127-211 | whatever cleanup did, a recording ends the log of its credential with the sample and changes no other entry, and evicts nothing unless it is a hundredth one over the limit |
| `CredentialMetrics.RatesFollowStreaks` | src/routing/metrics.rs:205-209 | both rates lie in [0, 1] and sum to 1, the success rate is at most 0.7 to the length of the failure streak, the error rate at most 0.7 to the length of the success streak |
| `CredentialMetrics.LatencySummaryIsExact` | src/routing/metrics.rs:190-204 | the average is the positive latencies smoothed with factor 0.3, in closed form, and 0 exactly when there was none; minimum and maximum are the extreme positive latencies and the average lies between them |
| `LatencySummaries.SummaryOneMore` | src/routing/metrics.rs:190-204 | one more latency, positive or not, keeps any summary so characterised, for any smoothing factor from 0 to 1 |
| `Smoothing.SmoothedOneMore` | src/routing/metrics.rs:193-209 | blending in one more value turns the closed form of the smoothed values into that of all of them: every value weighs in by a power of the time since |
| `CredentialMetrics.RunIsBounded` | src/routing/metrics.rs:127-170 | over any run the map holds at most the limit plus the recordings since the last cleanup, so never more than the limit plus 100 |
| `Eviction.EvictOldest` | src/routing/metrics.rs:263-284 | eviction leaves values untouched, keeps exactly the cap when over it, and no evicted entry is newer than a kept one, whatever the order of the map |
| `Eviction.AllKeysListed` | src/routing/metrics.rs:268-284 | a listing of as many distinct keys as the map has misses none |
| `TraceAggregation.TraceMetrics.Update` | src/tracing/metrics.rs:91-137 | the field-by-field update of the metrics is one step of the aggregation |
| `TraceAggregation.UpdateProvider` | src/tracing/metrics.rs:162-178 | the same of one provider's metrics |
| `TraceAggregation.UpdateModel` | src/tracing/metrics.rs:192-214 | the same of one model's metrics |
| `TraceAggregation.Aggregate` | src/tracing/metrics.rs:142-148 | the loop over the traces aggregates all of them |
| `TraceAggregation.NextAverageIsMean` | src/tracing/metrics.rs:112-115 | the incremental average is the exact mean |
| `TraceAggregation.AggregateIsSummary` | src/tracing/metrics.rs:91-148 | totals, success rate, exact mean and smoothed latency are those of the whole log |
| `TraceAggregation.AggregateIsGrouped` | src/tracing/metrics.rs:122-136 | the tracked providers are the first 50 distinct ones and the tracked models the first 200, each with the summary of exactly its own part of the log |
| `TraceAggregation.EwmaLatencyIsBetween` | src/tracing/metrics.rs:105-178 | the smoothed latency, overall and of each tracked provider, lies within any bounds on the latencies it was computed from |
| `TraceAggregation.EwmaIsBetween` | src/tracing/metrics.rs:74-83 | smoothing stays between the extremes, and is zero exactly while every latency was zero |
| `TraceAggregation.EwmaIsSmoothed` | src/tracing/metrics.rs:74-83 | the smoothed latency is the closed form, with factor 0.1 for the newest, of the latencies from the first positive one on |
| `TraceAggregation.EwmaLatencyIsSmoothed` | src/tracing/metrics.rs:91-178 | so it is for the overall figure and for each tracked provider |
| `TraceAggregation.TrackedIsGrouping` | src/tracing/metrics.rs:122-136 | a bounded map of groups is the grouping of the log by the first keys to appear, for any key and any summary |
| `Outcomes.OutcomeRecorder.Record` | src/routing/outcome.rs:210-217 | appending and draining keeps the last outcomes |
| `Outcomes.LastNOneMore` | src/routing/outcome.rs:210-217 | trimming after every append keeps the last of the whole log |
| `RouteStatistics.FromTimestamp` | src/routing/statistics.rs:44-75 | exactly the buckets that cover the instant, each once |
| `RouteStatistics.CalendarIsExact` | src/routing/statistics.rs:44-75 | peak is from 9 to 21 hours of the day, the weekend the third and fourth day from the first of January 1970, and hour and day buckets are the hour and the weekday, Sunday first |
| `RouteStatistics.KnownMonday` | src/routing/statistics.rs:44-75 | an instant on the first of January 2024, a Monday, falls on day 1 and in the weekday buckets |
| `RouteStatistics.PeakIsLocalIff` | src/routing/statistics.rs:10-21 | peak hours are those of a clock set apart from UTC if and only if it is whole days off |
| `RouteStatistics.BucketsAreLocalIff` | src/routing/statistics.rs:44-75 | all buckets are those of such a clock if and only if it is whole weeks off |
| `RouteStatistics.PeakDiffersInUtcPlusOne` | src/routing/statistics.rs:10-21 | an instant that is booked as off-peak although it is half past nine an hour east of UTC |
| `RouteStatistics.UpdateBucketStats` | src/routing/statistics.rs:172-214 | the field-by-field update of a bucket is one step of the fold over its bookings |
| `RouteStatistics.RatesAreExact` | src/routing/statistics.rs:190-213 | success rate and mean tokens are those of prior and bookings together |
| `RouteStatistics.BucketIsExact` | src/routing/statistics.rs:172-239 | every bucket's success rate, mean tokens and least, average and greatest latency are those of exactly the bookings it covers, the average being the positive latencies smoothed with factor 0.2, in closed form |
| `RouteStatistics.PercentilesAreNeverComputed` | src/routing/statistics.rs:172-214 | the percentiles of a bucket stay at the values it was created with |
| `RouteStatistics.BucketPercentilesAreRightIff` | src/routing/statistics.rs:113-214 | without negative latencies, the p50, p95 and p99 of a bucket are percentiles of the latencies booked in it if and only if more than 50, 95 or 99 percent of these are zero |
| `RouteStatistics.OneBookingHasWrongPercentile` | src/routing/statistics.rs:113-214 | after one booking of a positive latency its buckets have a p50 of zero, which is no percentile of it |
| `RouteStatistics.Update` | src/routing/statistics.rs:231-239 | a route's statistics, overall and per bucket, go on summarising its log |
| `RouteStatistics.StatisticsAggregator.Record` | src/routing/statistics.rs:376-389 | an outcome is booked on one route and no other: on the original route if a fallback was used and the original is known, and else on the route that served it |
| `RouteStatistics.OutcomeIsBookedRightly` | src/routing/outcome.rs:171-177 | a fallback with a known original lengthens the log of the original and leaves that of the route that served it; any other outcome lengthens the log of the route that served it |
| `RouteStatistics.StatisticsAggregator.InitializeRoute` | src/routing/statistics.rs:404-417 | a route without statistics starts from the prior of its provider, of its tier, or the neutral one; any other is left alone |
| `RouteStatistics.StatisticsAggregator.CleanupOld` | src/routing/statistics.rs:420-424 | exactly the routes updated within the last thirty days are kept |
| `RouteStatistics.PartitionsConserve` | src/routing/statistics.rs:172-239 | across any partition of time into buckets, requests, successes, failures, tokens, fallbacks and each error class add up to the overall figure less the prior, or to the parent bucket's |
| `RouteStatistics.BucketFamiliesPartition` | src/routing/statistics.rs:44-75 | peak and off-peak, weekday and weekend, the four compound buckets, the hours, the days, and the halves of each simple bucket are partitions |
| `RouteStatistics.FiguresAreConserved` | src/routing/statistics.rs:172-239 | so every figure is conserved across all of them, for every route the aggregator holds |
| `Tracking.AttemptHistory.Record` | src/routing/history.rs:210-221 | the history is the last attempts |
| `Tracking.ForRouteIsExact` | src/routing/history.rs:234-240 | the attempts of a route are those on it without a known original, and the fallbacks whose original it is, each as often as it occurs |
| `Tracking.AttemptHistory.SelectionModeDistribution` | src/routing/history.rs:327-335 | exactly the modes that occur, each with its number of attempts |
| `Tracking.AttemptHistory.CalculateMetricsForRoute` | src/routing/history.rs:389-426 | none exactly when the route has no attempts; otherwise its counts, success rate, mean latency and percentiles, and the mode distribution of all routes together |
| `Tracking.ModesAreTheRoutesOwnIff` | src/routing/history.rs:408-412 | the mode distribution reported for a route is the route's own if and only if the history holds no attempt of another route |
| `Tracking.ModesOfTwoRoutes` | src/routing/history.rs:408-412 | a history of one attempt on each of two routes, where a route with one attempt is reported two |
| `Percentiles.PercentilesAreRanks` | src/routing/history.rs:400-406 | p50, p95 and p99 are in order, are latencies of the route, and for each more than q percent of the latencies are at most p while at most q percent are less; no index is out of range |
| `Tracking.SortKeepsSum` | src/routing/history.rs:400-403 | sorting before averaging does not change the average |
| `Tracking.TrackingSystem.RecordAttempt` | src/routing/history.rs:458-461 | history and statistics both book the attempt: the history is the last attempts of the log, and statistics that were in step with the log stay in step |
| `Tracking.TrackingSystem.RecordOutcome` | src/routing/history.rs:464-466 | only the statistics book the outcome, on its original route if that is known of a fallback and else on its own, and are no longer in step with the attempts |
| `Tracking.TrackingSystem.ResetRoute` | src/routing/history.rs:489-492 | the aggregator holds nothing of the route any more, the history is unchanged, and the two stay in step if and only if there was no attempt of the route |
| `Tracking.TrackingSystem.ResetAll` | src/routing/history.rs:495-498 | both start from nothing, in step |
| `Tracking.BookingKeepsInStep` | src/routing/history.rs:458-461 | booking an attempt keeps the aggregator's logs, route by route, equal to the grouping of all attempts by effective route |
| `Tracking.HistoryAgreesWithStatistics` | src/routing/history.rs:389-461 | as long as statistics and attempts are in step, the attempts, successes, failures and fallbacks recomputed from the history never exceed the aggregator's, and equal them if and only if no attempt of the route has been evicted |
| `Tracking.OutcomeEndsInStep` | src/routing/history.rs:464-466 | an outcome recorded without an attempt ends that |
| `Tracking.ResetKeepsInStepIff` | src/routing/history.rs:489-492 | the reset of a route keeps it if and only if there is no attempt of the route |
| `Tracking.ResetLeavesAttempt` | src/routing/history.rs:489-492 | after one attempt and the reset of its route the aggregator has nothing of it and the history still has the attempt |
| `Sessions.SessionAffinityManager.WithLimits` | src/routing/session.rs:64-78 | limits that are not positive are replaced by 10,000 sessions and 24 hours |
| `Sessions.SessionAffinityManager.SetProvider` | src/routing/session.rs:98-135 | empty arguments are refused and change nothing; otherwise the session gets the provider, the time and one more request, or is new with one; other sessions are as they were or dropped, and dropped only above the limit; under a strictly increasing clock the session just set survives unless cleanup comes later than its time to live |
| `Sessions.SessionAffinityManager.CleanupExpired` | src/routing/session.rs:180-200 | exactly the unexpired sessions are kept, cut down to the most recently used if they are too many |
| `Sessions.SessionAffinityManager.RemoveSession` | src/routing/session.rs:158-165 | removes exactly the named session and says whether it was there |
| `Sessions.SessionAffinityManager.GetStats` | src/routing/session.rs:215-243 | totals, average and provider distribution are exact whatever the order of the map, and the distribution sums to the number of sessions |
| `Sessions.SetSessionSurvivesIff` | src/routing/session.rs:106-131 | if no other session is as recent, whatever cleanup does it keeps the new session exactly when that has not expired |
| `Sessions.SetSessionIsSafeIff` | src/routing/session.rs:106-131 | with equal stamps allowed, cleanup is sure to keep the new session if and only if it has not expired and, if one must go, another unexpired session is strictly older |
| `Sessions.SetSessionMayBeEvicted` | src/routing/session.rs:106-131 | two sessions set at one instant with room for one: cleanup may keep either |
| `Sessions.SumSplit` | src/routing/session.rs:218-231 | a sum over a map does not depend on the order its keys are taken in |
| `StableSorting.SortIsStable` | src/registry/policy/registry.rs:73-75 | sorting sorts, loses and invents nothing, and keeps the order of equals |
| `StableSorting.StableOrderIsUnique` | src/registry/policy/registry.rs:73-75 | a stable sort has one possible result |
| `Policies.PolicyRegistry.AddPolicy` | src/registry/policy/registry.rs:34-41 | replacing, pushing and sorting leaves the listing of the longer run |
| `Policies.PolicyRegistry.RemovePolicy` | src/registry/policy/registry.rs:45-49 | removing leaves the listing of the longer run, and is reported exactly when the ID was there |
| `Policies.PolicyRegistry.Get` | src/registry/policy/registry.rs:53-56 | the policy last added under the ID and not removed since, and none exactly when there is no such |
| `Policies.ListingRefinesMap` | src/registry/policy/registry.rs:34-75 | after any run the list is sorted by priority, equal priorities in the order they were last added, IDs are unique, and the members are exactly the policies last added |
| `Policies.ListingIsOfStanding` | src/registry/policy/registry.rs:34-75 | of the operations themselves: the list holds each policy added and neither replaced nor removed since, once, the higher priority first and among equals the one added earlier |
| `Policies.LastAddedStands` | src/registry/policy/registry.rs:34-56 | what is found under an ID is the policy so standing under it |
| `Policies.SamePoliciesInAnyOrder` | src/registry/policy/registry.rs:34-75 | runs that agree on the policies last added hold the same policies |
| `PolicyMatching.CalculateScore` | src/registry/policy/matcher.rs:193-246 | the accumulated score is the base times every bonus earned, times the priority factor |
| `PolicyMatching.ScoreIsExact` | src/registry/policy/matcher.rs:193-246 | the base of 1.5, 0.5, 0, the weight or 1, times 1.2 for a preferred provider, times 1.3 for a preferred model named in the ID, times 1.1 to the number of preferred capabilities held, times one plus a hundredth of the priority |
| `PolicyMatching.ScoreSign` | src/registry/policy/matcher.rs:193-246 | a score has the sign of its action's base while the priority is above -100, the opposite below, and is zero at -100 |
| `PolicyMatching.EvaluateMembers` | src/registry/policy/matcher.rs:50-66 | the matches are the applying policies, each with its score |
| `PolicyMatching.EvaluateIsExact` | src/registry/policy/matcher.rs:50-180 | a policy is among the matches if and only if it is enabled, its conditions hold, and model and policy fit: every required capability held and every excluded one not, tier, price band, window band, provider and modalities among those named, price and window within the limits, and no avoided name in ID or provider |
| `PolicyMatching.EvaluateInOrder` | src/registry/policy/matcher.rs:50-65 | the matches come in the order of the policies |
| `PolicyMatching.FitsIff` | src/registry/policy/matcher.rs:88-180 | the filters as the matcher tests them are the capabilities, bands in numbers and occurrences they stand for |
| `PolicyMatching.BlockedIffBlockMatch` | src/registry/policy/matcher.rs:281-288 | a model is blocked if and only if evaluation contains a block match, and every block match scores zero |
| `PolicyMatching.PolicyMatcher.EvaluateBest` | src/registry/policy/matcher.rs:70-85 | the lexicographic maximum of priority and score among the matches, the first of them on ties; none exactly when nothing matches |
| `PolicyMatching.BestRankInAnyOrder` | src/registry/policy/matcher.rs:70-85 | the best priority and score do not depend on the order of the matches |
| `PolicyMatching.PolicyMatcher.CalculateWeightFactor` | src/registry/policy/matcher.rs:252-284 | the loop, with its 32-bit sum of priorities, computes the combined factor of the matches |
| `PolicyMatching.WeightFactor` | src/registry/policy/matcher.rs:256-283 | the factor lies in [0.1, 10] |
| `PolicyMatching.FactorIsMean` | src/registry/policy/matcher.rs:261-276 | the factor is the mean of the scores, each times one plus a tenth of its priority, cut to the range from 0.1 to 10, unless the priorities sum to zero modulo 2^32 |
| `PolicyMatching.WeightFactorInAnyOrder` | src/registry/policy/matcher.rs:252-284 | the factor depends on the policies last added, not on the order of additions |
| `PolicyMatching.NeutralIff` | src/registry/policy/matcher.rs:252-284 | the factor is 1 if and only if nothing matches, the priorities sum to zero modulo 2^32, or the weights average to 1 |
| `PolicyMatching.ZeroPrioritiesAreNeutral` | src/registry/policy/matcher.rs:266-279 | policies of priority zero carry no weight however they score |
| `PolicyMatching.DefaultPolicyIsNeutral` | src/registry/policy/matcher.rs:252-284 | a preference of default priority matches every model with score 1.5 and leaves the factor at 1 |
| `Bandit.BanditPolicy.Record` | src/routing/bandit/exploration.rs:180-198 | the field-by-field update is one step of the run |
| `Bandit.BanditPolicy.Penalise` | src/routing/bandit/exploration.rs:201-204 | the penalty cut to the range from 0 to 1, counters and other routes untouched, as one step of the run |
| `Bandit.CountersAreExact` | src/routing/bandit/exploration.rs:180-226 | in any run pulls and last utility are those of what was recorded since the last reset, and either counter is its prior of 1 and one for each success, or failure, each discounted by the decay once for every pull from its own on, the first ten excepted |
| `Bandit.PenaltyIsKept` | src/routing/bandit/exploration.rs:180-226 | in any run the penalty is the one last set since the last reset, cut to the range from 0 to 1 |
| `Bandit.RunMassLaw` | src/routing/bandit/exploration.rs:180-198 | in any run successes plus failures depend on the pulls alone: 2 plus the pulls up to 10 or without decay, and then a geometric approach to d/(1-d) |
| `Bandit.MassLaw` | src/routing/bandit/exploration.rs:192-197 | the recurrence of the mass has that closed form |
| `Bandit.CountersStayInRange` | src/routing/bandit/exploration.rs:180-198 | for any decay strictly between 0 and 1 and any run, both counters are positive and their sum is at most the larger of 12 and d/(1-d) |
| `Bandit.DefaultDecayBound` | src/routing/bandit/mod.rs:75-90 | at the default decay of 0.99 the sum is at most 99 |
| `Bandit.PositiveIffDecayPositive` | src/routing/bandit/exploration.rs:192-197 | counters are positive over all runs if and only if the decay is positive |
| `Bandit.DecayZeroErases` | src/routing/bandit/exploration.rs:192-197 | at decay 0 eleven wins in a row leave no success |
| `Bandit.BoundedIffDecaying` | src/routing/bandit/exploration.rs:192-197 | both counters are bounded over all runs if and only if the decay is less than 1 in magnitude |
| `Bandit.DecayOneExceeds` | src/routing/bandit/exploration.rs:192-197 | at decay 1 a hundred wins leave 101 successes, above the bound that holds at 0.99 |
| `EnvExpansion.ExpandEnvVar` | src/utils/env.rs:6-32 | the scanning loop terminates and computes the expansion |
| `EnvExpansion.ExpandIsRender` | src/utils/env.rs:6-32 | expanding a printed template renders its tokens, inserting values as they are, and keeps an unclosed tail |
| `EnvExpansion.ParsePrints` | src/utils/env.rs:10-28 | every text is the print of a template and an unclosed tail |
| `EnvExpansion.ExpansionIsRendering` | src/utils/env.rs:6-32 | so on every text expansion renders the references and touches nothing else |
| `EnvExpansion.UnclosedIsKept` | src/utils/env.rs:24-28 | text without a closing brace is returned unchanged |
| `TextSearch.FoundAtJoin` | src/utils/env.rs:10-15 | a pattern that cannot overlap itself is first found where it was put after text that does not contain it |
| `TextSearch.IndexIsFirst` | src/utils/env.rs:10-15 | search finds the first position at which the pattern occurs, and none exactly when it occurs nowhere |

## Left out

- CredentialMetrics.RunIsBounded: runs that reset an unknown credential are excluded, because that reset inserts an entry without cleanup.
- ExecutionTheorems.ExecutionConservesAccounts: says nothing of executions during which a cleanup falls due while the credentials tried do not fit beside those the collector holds, because the cleanup may then evict any of the oldest.
- ExecutionTheorems.RecordingsCount: the same of any sequence of recordings.
- RegistryCache.Registry.FindBestFit: the comparison of costs is that of real numbers; an incomparable cost cannot occur.
- CoalescingRegistry.StepKeepsInv: the registry's `get` is a transition system and not a method, since its awaits interleave; the fetcher's answers and the choice of the next step are arbitrary. A fetcher that panics is not modelled.
- `get_multiple`, `filter_by_*`, `find_by_*`, `estimate_costs` and the counts of the registry: single loops over the cache.
- The registry's background interval and shutdown: the model lets a refresh happen at any time.
- Comparing one policy condition with a request's context (`types.rs:288-369`): the context decides each condition.
- The tables that give a model's tier and provider category: they are fields of the model under evaluation.
- Reading policies from JSON, where IDs may repeat, and policy templates.
- Concurrent recordings on the metrics collector, between the cleanup of one and its update: runs of it are sequential.
- The health manager: the log of what it is told. Router, selector, planner, classifier and utility estimator.
- Sampling in the bandit: random, and ending only with probability one. Tier priors.
- The reasoning cache, whose key omits part of the request. SQLite storage, the in-memory trace collector.
- HTTP handlers, middleware, provider adapters, configuration loading, JSON schemas, logging and the command line.
- Rounding of `f64`, wrap-around at 2^63 and 2^64, lock poisoning: see the assumptions.
