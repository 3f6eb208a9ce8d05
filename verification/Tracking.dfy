// The bounded history of attempts, the metrics computed from it, and its agreement with the aggregator.

module Tracking {

  import opened Wrappers
  import opened Doubles
  import opened Outcomes
  import opened Percentiles
  import opened StableSorting
  import opened RouteStatistics

  datatype SelectionMode = Weighted | Thompson | TimeAware | QuotaAware | Adaptive | Fallback | Manual

  datatype RouteAttempt = RouteAttempt(
    requestId: string, modelId: string, selectionMode: SelectionMode, outcome: ExecutionOutcome)

  datatype AttemptMetrics = AttemptMetrics(
    totalAttempts: nat,
    successfulAttempts: nat,
    failedAttempts: nat,
    fallbackAttempts: nat,
    successRate: real,
    avgLatencyMs: real,
    p50LatencyMs: real,
    p95LatencyMs: real,
    p99LatencyMs: real,
    selectionModes: map<SelectionMode, nat>)

  function ForRoute(attempts: seq<RouteAttempt>, route: string): seq<RouteAttempt> {
    if attempts == [] then []
    else
      var last := attempts[|attempts| - 1];
      ForRoute(attempts[..|attempts| - 1], route) + if last.outcome.EffectiveRoute() == route then [last] else []
  }

  function CountSuccessful(attempts: seq<RouteAttempt>): nat {
    if attempts == [] then 0
    else CountSuccessful(attempts[..|attempts| - 1]) + if attempts[|attempts| - 1].outcome.success then 1 else 0
  }

  function CountFallbacks(attempts: seq<RouteAttempt>): nat {
    if attempts == [] then 0
    else CountFallbacks(attempts[..|attempts| - 1]) + if attempts[|attempts| - 1].outcome.usedFallback then 1 else 0
  }

  lemma {:induction false} CountsAreBounded(attempts: seq<RouteAttempt>)
    ensures CountSuccessful(attempts) <= |attempts| && CountFallbacks(attempts) <= |attempts|
    decreases |attempts|
  {
    if attempts != [] { CountsAreBounded(attempts[..|attempts| - 1]); }
  }

  function Latencies(attempts: seq<RouteAttempt>): (xs: seq<real>)
    ensures |xs| == |attempts| && forall i | 0 <= i < |xs| :: xs[i] == attempts[i].outcome.latencyMs
  {
    seq(|attempts|, i requires 0 <= i < |attempts| => attempts[i].outcome.latencyMs)
  }

  function Sum(xs: seq<real>): real {
    if xs == [] then 0.0 else Sum(xs[..|xs| - 1]) + xs[|xs| - 1]
  }

  function CountMode(attempts: seq<RouteAttempt>, mode: SelectionMode): nat {
    if attempts == [] then 0
    else CountMode(attempts[..|attempts| - 1], mode) + if attempts[|attempts| - 1].selectionMode == mode then 1 else 0
  }

  // Exactly the modes that occur, each with how often it does.
  ghost predicate CountsModes(distribution: map<SelectionMode, nat>, attempts: seq<RouteAttempt>) {
    forall m :: (m in distribution <==> CountMode(attempts, m) > 0) &&
                (m in distribution ==> distribution[m] == CountMode(attempts, m))
  }

  class AttemptHistory {
    var attempts: seq<RouteAttempt>
    const maxAttempts: nat

    constructor (maxAttempts: nat)
      ensures attempts == [] && this.maxAttempts == if maxAttempts > 0 then maxAttempts else 100_000
    {
      attempts := [];
      this.maxAttempts := if maxAttempts > 0 then maxAttempts else 100_000;
    }

    method Record(attempt: RouteAttempt)
      modifies this
      ensures attempts == if maxAttempts == 0 then old(attempts) else LastN(old(attempts) + [attempt], maxAttempts)
    {
      if maxAttempts == 0 {
        return;
      }
      attempts := attempts + [attempt];
      if |attempts| > maxAttempts {
        var removeCount := |attempts| - maxAttempts;
        attempts := attempts[removeCount..];
      }
    }

    method Clear()
      modifies this
      ensures attempts == []
    {
      attempts := [];
    }

    // Modes are counted over the whole history.
    method SelectionModeDistribution() returns (distribution: map<SelectionMode, nat>)
      ensures CountsModes(distribution, attempts)
    {
      distribution := map[];
      for i := 0 to |attempts|
        invariant CountsModes(distribution, attempts[..i])
      {
        var mode := attempts[i].selectionMode;
        assert attempts[..i + 1][..i] == attempts[..i];
        distribution := distribution[mode := (if mode in distribution then distribution[mode] else 0) + 1];
      }
      assert attempts[..|attempts|] == attempts;
    }

    // None for a route without attempts. The mode distribution is that of all routes together.
    method CalculateMetricsForRoute(route: string) returns (metrics: Option<AttemptMetrics>)
      ensures metrics.Some? <==> ForRoute(attempts, route) != []
      ensures metrics.Some? ==>
                var mine, m := ForRoute(attempts, route), metrics.value;
                m.totalAttempts == |mine| && m.successfulAttempts == CountSuccessful(mine) &&
                m.failedAttempts == |mine| - CountSuccessful(mine) && m.fallbackAttempts == CountFallbacks(mine) &&
                m.successRate == CountSuccessful(mine) as real / |mine| as real
      ensures metrics.Some? ==>
                var latencies, m := Latencies(ForRoute(attempts, route)), metrics.value;
                m.avgLatencyMs == Sum(latencies) / |latencies| as real &&
                IsPercentile(m.p50LatencyMs, latencies, 50) && IsPercentile(m.p95LatencyMs, latencies, 95) &&
                IsPercentile(m.p99LatencyMs, latencies, 99) && m.p50LatencyMs <= m.p95LatencyMs <= m.p99LatencyMs
      ensures metrics.Some? ==> CountsModes(metrics.value.selectionModes, attempts)
    {
      var mine := ForRoute(attempts, route);
      if mine == [] {
        return None;
      }
      var total, successful, fallbacks := |mine|, CountSuccessful(mine), CountFallbacks(mine);
      CountsAreBounded(mine);
      var latencies := Sort(Latencies(mine), AtMost);
      SortIsStable(Latencies(mine), AtMost);
      SortKeepsSum(Latencies(mine));
      var average := Sum(latencies) / |latencies| as real;
      var p50, p95, p99 := Percentile(latencies, 50), Percentile(latencies, 95), Percentile(latencies, 99);
      PercentilesAreRanks(Latencies(mine));
      var modes := SelectionModeDistribution();
      var rate := successful as real / total as real;
      metrics := Some(AttemptMetrics(total, successful, total - successful, fallbacks, rate, average,
                                     p50, p95, p99, modes));
    }
  }

  // The attempts of a route are exactly those booked on it, each as often as it was made: fallbacks on the route they
  // stood in for, if that is known, and anything else on the route that served it.
  lemma {:induction false} ForRouteIsExact(attempts: seq<RouteAttempt>, route: string)
    ensures forall a :: multiset(ForRoute(attempts, route))[a] ==
                        if (if a.outcome.usedFallback && a.outcome.originalRouteId.Some?
                            then a.outcome.originalRouteId.value == route else a.outcome.routeId == route)
                        then multiset(attempts)[a] else 0
    decreases |attempts|
  {
    if attempts != [] {
      var front, last := attempts[..|attempts| - 1], attempts[|attempts| - 1];
      ForRouteIsExact(front, route);
      assert attempts == front + [last];
    }
  }

  lemma {:induction false} ForRouteIsAll(attempts: seq<RouteAttempt>, route: string)
    requires forall i | 0 <= i < |attempts| :: attempts[i].outcome.EffectiveRoute() == route
    ensures ForRoute(attempts, route) == attempts
    decreases |attempts|
  {
    if attempts != [] { ForRouteIsAll(attempts[..|attempts| - 1], route); }
  }

  // A route's share of a mode.
  lemma {:induction false} ModesOfRoute(attempts: seq<RouteAttempt>, route: string, mode: SelectionMode)
    ensures CountMode(ForRoute(attempts, route), mode) <= CountMode(attempts, mode)
    decreases |attempts|
  {
    if attempts != [] {
      var front, last := attempts[..|attempts| - 1], attempts[|attempts| - 1];
      ModesOfRoute(front, route, mode);
      if last.outcome.EffectiveRoute() == route {
        assert (ForRoute(front, route) + [last])[..|ForRoute(front, route)|] == ForRoute(front, route);
      } else {
        assert ForRoute(attempts, route) == ForRoute(front, route);
      }
    }
  }

  lemma {:induction false} ForeignModeIsMissed(attempts: seq<RouteAttempt>, route: string, i: nat)
    requires i < |attempts| && attempts[i].outcome.EffectiveRoute() != route
    ensures var mode := attempts[i].selectionMode;
            CountMode(ForRoute(attempts, route), mode) < CountMode(attempts, mode)
    decreases |attempts|
  {
    var front, last, mode := attempts[..|attempts| - 1], attempts[|attempts| - 1], attempts[i].selectionMode;
    if i == |attempts| - 1 {
      ModesOfRoute(front, route, mode);
      assert ForRoute(attempts, route) == ForRoute(front, route);
    } else {
      ForeignModeIsMissed(front, route, i);
      if last.outcome.EffectiveRoute() == route {
        assert (ForRoute(front, route) + [last])[..|ForRoute(front, route)|] == ForRoute(front, route);
      } else {
        assert ForRoute(attempts, route) == ForRoute(front, route);
      }
    }
  }

  // The mode distribution reported with a route's metrics is the route's own exactly if the history holds no
  // attempt of any other route.
  lemma ModesAreTheRoutesOwnIff(attempts: seq<RouteAttempt>, distribution: map<SelectionMode, nat>, route: string)
    requires CountsModes(distribution, attempts)
    ensures CountsModes(distribution, ForRoute(attempts, route)) <==>
            forall i | 0 <= i < |attempts| :: attempts[i].outcome.EffectiveRoute() == route
  {
    if forall i | 0 <= i < |attempts| :: attempts[i].outcome.EffectiveRoute() == route {
      ForRouteIsAll(attempts, route);
    }
    if i :| 0 <= i < |attempts| && attempts[i].outcome.EffectiveRoute() != route {
      var mode := attempts[i].selectionMode;
      ForeignModeIsMissed(attempts, route, i);
      assert mode in distribution && distribution[mode] == CountMode(attempts, mode);
    }
  }

  function OnRoute(route: string, latency: Latency): RouteAttempt {
    RouteAttempt("request", "model", Weighted,
                 ExecutionOutcome(route, true, latency, 0, 0, 0, None, None, 0, false, None))
  }

  // One attempt on each of two routes: each route's metrics report both.
  lemma ModesOfTwoRoutes(distribution: map<SelectionMode, nat>, latency: Latency)
    requires CountsModes(distribution, [OnRoute("a", latency), OnRoute("b", latency)])
    ensures distribution == map[Weighted := 2] && |ForRoute([OnRoute("a", latency), OnRoute("b", latency)], "a")| == 1
  {
    var first, attempts := [OnRoute("a", latency)], [OnRoute("a", latency), OnRoute("b", latency)];
    assert attempts[..1] == first && first[..0] == [];
    forall m ensures CountMode(attempts, m) == if m == Weighted then 2 else 0 {
      assert CountMode(attempts, m) == CountMode(first, m) + if m == Weighted then 1 else 0;
      assert CountMode(first, m) == CountMode(first[..0], m) + if m == Weighted then 1 else 0;
    }
    assert ForRoute(attempts, "a") == ForRoute(first, "a") + [];
    assert ForRoute(first, "a") == ForRoute(first[..0], "a") + first;
  }

  // Averages

  lemma {:induction false} InsertKeepsSum(x: real, xs: seq<real>)
    ensures Total(Insert(x, xs, AtMost)) == x + Total(xs)
    decreases |xs|
  {
    if xs == [] || x <= xs[0] {
      assert ([x] + xs)[1..] == xs;
    } else {
      InsertKeepsSum(x, xs[1..]);
      assert Insert(x, xs, AtMost)[1..] == Insert(x, xs[1..], AtMost);
    }
  }

  // The sum, taken from the front.
  function Total(xs: seq<real>): real {
    if xs == [] then 0.0 else xs[0] + Total(xs[1..])
  }

  lemma {:induction false} TotalIsSum(xs: seq<real>)
    ensures Total(xs) == Sum(xs)
    decreases |xs|
  {
    if |xs| >= 1 {
      var front, last := xs[..|xs| - 1], xs[|xs| - 1];
      TotalIsSum(front);
      assert xs == front + [last];
      TotalOneMore(front, last);
    }
  }

  lemma {:induction false} TotalOneMore(xs: seq<real>, x: real)
    ensures Total(xs + [x]) == Total(xs) + x
    decreases |xs|
  {
    if xs != [] {
      TotalOneMore(xs[1..], x);
      assert (xs + [x])[1..] == xs[1..] + [x];
    }
  }

  lemma {:induction false} SortKeepsTotal(xs: seq<real>)
    ensures Total(Sort(xs, AtMost)) == Total(xs)
    decreases |xs|
  {
    if xs != [] {
      SortKeepsTotal(xs[1..]);
      InsertKeepsSum(xs[0], Sort(xs[1..], AtMost));
    }
  }

  lemma SortKeepsSum(xs: seq<real>)
    ensures Sum(Sort(xs, AtMost)) == Sum(xs)
  {
    SortKeepsTotal(xs);
    TotalIsSum(xs);
    TotalIsSum(Sort(xs, AtMost));
  }

  // History and statistics together

  function OutcomesOf(attempts: seq<RouteAttempt>): (outcomes: seq<ExecutionOutcome>)
    ensures |outcomes| == |attempts|
  {
    seq(|attempts|, i requires 0 <= i < |attempts| => attempts[i].outcome)
  }

  function BookedOutcomes(bookings: seq<Booking>): (outcomes: seq<ExecutionOutcome>)
    ensures |outcomes| == |bookings|
  {
    seq(|bookings|, i requires 0 <= i < |bookings| => bookings[i].outcome)
  }

  // The aggregator has booked, route by route, exactly the attempts of the log, starting from nothing.
  ghost predicate InStep(logs: map<string, RouteLog>, log: seq<RouteAttempt>) {
    forall id ::
      (id in logs <==> ForRoute(log, id) != []) &&
      (id in logs ==> BookedOutcomes(logs[id].bookings) == OutcomesOf(ForRoute(log, id)) &&
                      exists now :: logs[id].prior == NoStatistics(now))
  }

  class TrackingSystem {
    const statistics: StatisticsAggregator
    const history: AttemptHistory
    ghost var log: seq<RouteAttempt>   // every attempt recorded since the last full reset

    ghost predicate Valid()
      reads this, statistics, history
    {
      statistics.Valid() && 0 < history.maxAttempts && history.attempts == LastN(log, history.maxAttempts)
    }

    constructor (statistics: StatisticsAggregator, history: AttemptHistory)
      requires statistics.Valid() && 0 < history.maxAttempts && history.attempts == []
      ensures Valid() && this.statistics == statistics && this.history == history && log == []
    {
      this.statistics, this.history, log := statistics, history, [];
    }

    method RecordAttempt(attempt: RouteAttempt, now: int)
      requires Valid()
      modifies this, statistics, history
      ensures Valid() && log == old(log) + [attempt]
      ensures statistics.logs == WithBooking(old(statistics.logs), attempt.outcome, now)
      ensures BookedRightly(old(statistics.logs), statistics.logs, attempt.outcome, now)
      ensures old(InStep(statistics.logs, log)) ==> InStep(statistics.logs, log)
    {
      statistics.Record(attempt.outcome, now);
      history.Record(attempt);
      log := log + [attempt];
      LastNOneMore(old(log), attempt, history.maxAttempts);
      if old(InStep(statistics.logs, log)) {
        BookingKeepsInStep(old(statistics.logs), old(log), attempt, now);
      }
    }

    method RecordOutcome(outcome: ExecutionOutcome, now: int)
      requires Valid()
      modifies this, statistics
      ensures Valid() && log == old(log)
      ensures statistics.logs == WithBooking(old(statistics.logs), outcome, now)
      ensures BookedRightly(old(statistics.logs), statistics.logs, outcome, now)
      ensures old(InStep(statistics.logs, log)) ==> !InStep(statistics.logs, log)
    {
      if old(InStep(statistics.logs, log)) {
        OutcomeEndsInStep(statistics.logs, log, outcome, now);
      }
      statistics.Record(outcome, now);
    }

    // The aggregator forgets the route; the history does not, and goes on reporting whatever attempts it holds of it.
    method ResetRoute(route: string)
      requires Valid()
      modifies this, statistics
      ensures Valid() && log == old(log) && statistics.logs == old(statistics.logs) - {route}
      ensures route !in statistics.routeStats && history.attempts == old(history.attempts)
      ensures old(InStep(statistics.logs, log)) ==> (InStep(statistics.logs, log) <==> ForRoute(log, route) == [])
    {
      if old(InStep(statistics.logs, log)) {
        ResetKeepsInStepIff(statistics.logs, log, route);
      }
      statistics.ResetRoute(route);
    }

    method ResetAll()
      requires Valid()
      modifies this, statistics, history
      ensures Valid() && log == [] && InStep(statistics.logs, log)
    {
      statistics.ResetAll();
      history.Clear();
      log := [];
    }
  }

  lemma BookingKeepsInStep(logs: map<string, RouteLog>, log: seq<RouteAttempt>, attempt: RouteAttempt, now: int)
    requires InStep(logs, log)
    ensures InStep(WithBooking(logs, attempt.outcome, now), log + [attempt])
  {
    var logs', longer := WithBooking(logs, attempt.outcome, now), log + [attempt];
    assert longer[..|log|] == log;
    forall id
      ensures (id in logs' <==> ForRoute(longer, id) != [])
      ensures id in logs' ==> BookedOutcomes(logs'[id].bookings) == OutcomesOf(ForRoute(longer, id)) &&
                              exists t :: logs'[id].prior == NoStatistics(t)
    {
      if id == attempt.outcome.EffectiveRoute() {
        var before := LogOf(logs, id, now);
        assert ForRoute(longer, id) == ForRoute(log, id) + [attempt];
        assert BookedOutcomes(before.bookings) == OutcomesOf(ForRoute(log, id));
        assert BookedOutcomes(logs'[id].bookings) == BookedOutcomes(before.bookings) + [attempt.outcome];
      } else {
        assert ForRoute(longer, id) == ForRoute(log, id);
      }
    }
  }

  // An outcome recorded without an attempt is one more than the log holds of its route.
  lemma OutcomeEndsInStep(logs: map<string, RouteLog>, log: seq<RouteAttempt>, outcome: ExecutionOutcome, now: int)
    requires InStep(logs, log)
    ensures !InStep(WithBooking(logs, outcome, now), log)
  {
    var id := outcome.EffectiveRoute();
    var mine := ForRoute(log, id);
    var booked := WithBooking(logs, outcome, now)[id].bookings;
    assert |LogOf(logs, id, now).bookings| == |mine| by {
      if id in logs { assert |BookedOutcomes(logs[id].bookings)| == |OutcomesOf(mine)|; }
    }
    assert |BookedOutcomes(booked)| == |OutcomesOf(mine)| + 1;
  }

  // Resetting a route leaves statistics and log in step exactly if the log has no attempt of it.
  lemma ResetKeepsInStepIff(logs: map<string, RouteLog>, log: seq<RouteAttempt>, route: string)
    requires InStep(logs, log)
    ensures InStep(logs - {route}, log) <==> ForRoute(log, route) == []
  {
    assert route !in logs - {route};
  }

  // One attempt, and then a reset of its route: the history still holds it.
  lemma ResetLeavesAttempt(logs: map<string, RouteLog>, latency: Latency, max: nat)
    requires 0 < max && InStep(logs, [OnRoute("a", latency)])
    ensures "a" !in logs - {"a"} && ForRoute(LastN([OnRoute("a", latency)], max), "a") == [OnRoute("a", latency)]
    ensures !InStep(logs - {"a"}, [OnRoute("a", latency)])
  {
    var log := [OnRoute("a", latency)];
    assert log[..0] == [] && ForRoute(log, "a") == ForRoute(log[..0], "a") + log;
    ResetKeepsInStepIff(logs, log, "a");
  }

  // The additive figures of one route's log, seen from the history's side.
  lemma {:induction false} CountsMatchTotals(bookings: seq<Booking>, attempts: seq<RouteAttempt>)
    requires BookedOutcomes(bookings) == OutcomesOf(attempts)
    ensures |bookings| == |attempts| == RouteStatistics.Total(bookings, Requests)
    ensures CountSuccessful(attempts) == RouteStatistics.Total(bookings, Successes)
    ensures |attempts| - CountSuccessful(attempts) == RouteStatistics.Total(bookings, Failures)
    ensures CountFallbacks(attempts) == RouteStatistics.Total(bookings, Fallbacks)
    decreases |bookings|
  {
    assert |bookings| == |BookedOutcomes(bookings)| == |OutcomesOf(attempts)| == |attempts|;
    if bookings != [] {
      var n := |bookings| - 1;
      assert BookedOutcomes(bookings[..n]) == BookedOutcomes(bookings)[..n];
      assert OutcomesOf(attempts[..n]) == OutcomesOf(attempts)[..n];
      CountsMatchTotals(bookings[..n], attempts[..n]);
      assert BookedOutcomes(bookings)[n] == OutcomesOf(attempts)[n];
    }
  }

  lemma {:induction false} ForRouteSplits(a: seq<RouteAttempt>, b: seq<RouteAttempt>, route: string)
    ensures ForRoute(a + b, route) == ForRoute(a, route) + ForRoute(b, route)
    decreases |b|
  {
    if b == [] {
      assert a + b == a && ForRoute(a, route) + [] == ForRoute(a, route);
    } else {
      var front, last := b[..|b| - 1], b[|b| - 1];
      assert (a + b)[..|a + b| - 1] == a + front && (a + b)[|a + b| - 1] == last;
      ForRouteSplits(a, front, route);
      var mine := if last.outcome.EffectiveRoute() == route then [last] else [];
      Regroup(ForRoute(a, route), ForRoute(front, route), mine);
    }
  }

  lemma {:induction false} CountsSplit(a: seq<RouteAttempt>, b: seq<RouteAttempt>)
    ensures CountSuccessful(a + b) == CountSuccessful(a) + CountSuccessful(b)
    ensures CountFallbacks(a + b) == CountFallbacks(a) + CountFallbacks(b)
    decreases |b|
  {
    if b == [] {
      assert a + b == a;
    } else {
      assert (a + b)[..|a + b| - 1] == a + b[..|b| - 1];
      CountsSplit(a, b[..|b| - 1]);
    }
  }

  // The attempts that no longer fit into the history.
  function Evicted(log: seq<RouteAttempt>, max: nat): seq<RouteAttempt> {
    if |log| <= max then [] else log[..|log| - max]
  }

  // The aggregator's counts for a route are those of the attempts booked on it.
  lemma StatisticsCountAttempts(r: RouteLog, stats: RouteStats, attempts: seq<RouteAttempt>, now: int)
    requires Summarises(stats, r) && r.prior == NoStatistics(now)
    requires BookedOutcomes(r.bookings) == OutcomesOf(attempts)
    ensures CountsAre(stats.overall, attempts)
  {
    CountsMatchTotals(r.bookings, attempts);
    FoldAddsTotal(r.prior, r.bookings, Requests);
    FoldAddsTotal(r.prior, r.bookings, Successes);
    FoldAddsTotal(r.prior, r.bookings, Failures);
    FoldAddsTotal(r.prior, r.bookings, Fallbacks);
  }

  predicate CountsAre(s: BucketStatistics, attempts: seq<RouteAttempt>) {
    s.totalRequests == |attempts| && s.successCount == CountSuccessful(attempts) &&
    s.failureCount == |attempts| - CountSuccessful(attempts) && s.fallbackCount == CountFallbacks(attempts)
  }

  // What is counted of a log divides into what the history holds and what it has evicted.
  lemma HistoryAndEvicted(s: BucketStatistics, log: seq<RouteAttempt>, max: nat, route: string)
    requires CountsAre(s, ForRoute(log, route))
    ensures var kept, gone := ForRoute(LastN(log, max), route), ForRoute(Evicted(log, max), route);
            s.totalRequests == |kept| + |gone| && s.successCount == CountSuccessful(kept) + CountSuccessful(gone) &&
            s.failureCount == (|kept| - CountSuccessful(kept)) + (|gone| - CountSuccessful(gone)) &&
            s.fallbackCount == CountFallbacks(kept) + CountFallbacks(gone)
  {
    var old_, recent := Evicted(log, max), LastN(log, max);
    assert log == old_ + recent;
    ForRouteSplits(old_, recent, route);
    CountsSplit(ForRoute(old_, route), ForRoute(recent, route));
  }

  // What the history holds of a route never exceeds what the aggregator has counted for it, and is the same exactly
  // as long as no attempt of the route has been evicted.
  lemma HistoryAgreesWithStatistics(logs: map<string, RouteLog>, stats: map<string, RouteStats>, log: seq<RouteAttempt>,
                                    max: nat, route: string)
    requires InStep(logs, log) && stats.Keys == logs.Keys && route in stats && Summarises(stats[route], logs[route])
    ensures var mine, s := ForRoute(LastN(log, max), route), stats[route].overall;
            |mine| <= s.totalRequests && CountSuccessful(mine) <= s.successCount &&
            |mine| - CountSuccessful(mine) <= s.failureCount && CountFallbacks(mine) <= s.fallbackCount
    ensures CountsAre(stats[route].overall, ForRoute(LastN(log, max), route)) <==>
            ForRoute(Evicted(log, max), route) == []
  {
    var r := logs[route];
    var now :| r.prior == NoStatistics(now);
    StatisticsCountAttempts(r, stats[route], ForRoute(log, route), now);
    HistoryAndEvicted(stats[route].overall, log, max, route);
    CountsAreBounded(ForRoute(Evicted(log, max), route));
  }
}
