// Route statistics over all time and per time bucket, and the log of outcomes they summarise.
// Timestamps are seconds since the start of 1970, UTC.

module RouteStatistics {

  import opened Wrappers
  import opened Doubles
  import opened LatencySummaries
  import opened Outcomes
  import opened Percentiles

  const ALPHA: real := 0.2
  const PEAK_HOUR_START: nat := 9
  const PEAK_HOUR_END: nat := 21

  datatype TimeBucket =
    | Peak | OffPeak
    | Weekday | Weekend
    | WeekdayPeak | WeekdayOffPeak | WeekendPeak | WeekendOffPeak
    | Hour(hour: nat)
    | DayOfWeek(day: nat)

  function HourOf(t: int): nat {
    t / 3600 % 24
  }

  // Days from Sunday; the first of January 1970 was a Thursday.
  function WeekdayOf(t: int): nat {
    (t / 86_400 + 4) % 7
  }

  predicate IsPeak(t: int) {
    PEAK_HOUR_START <= HourOf(t) < PEAK_HOUR_END
  }

  predicate IsWeekend(t: int) {
    WeekdayOf(t) == 0 || WeekdayOf(t) == 6
  }

  // Whether a bucket covers an instant.
  predicate Covers(b: TimeBucket, t: int) {
    match b
    case Peak => IsPeak(t)
    case OffPeak => !IsPeak(t)
    case Weekday => !IsWeekend(t)
    case Weekend => IsWeekend(t)
    case WeekdayPeak => !IsWeekend(t) && IsPeak(t)
    case WeekdayOffPeak => !IsWeekend(t) && !IsPeak(t)
    case WeekendPeak => IsWeekend(t) && IsPeak(t)
    case WeekendOffPeak => IsWeekend(t) && !IsPeak(t)
    case Hour(h) => h == HourOf(t)
    case DayOfWeek(d) => d == WeekdayOf(t)
  }

  // The calendar, in days since the start of 1970, a Thursday: day 2 was a Saturday and day 3 a Sunday.
  lemma CalendarIsExact(t: int)
    ensures Covers(Peak, t) <==> 9 * 3600 <= t % 86_400 < 21 * 3600
    ensures Covers(Weekend, t) <==> t / 86_400 % 7 == 2 || t / 86_400 % 7 == 3
    ensures forall d: nat :: Covers(DayOfWeek(d), t) <==> d < 7 && (t / 86_400 - 3) % 7 == d
    ensures forall h: nat :: Covers(Hour(h), t) <==> h * 3600 <= t % 86_400 < (h + 1) * 3600
  {
    var day, second := t / 86_400, t % 86_400;
    assert t == day * 86_400 + second && t / 3600 == day * 24 + second / 3600;
    assert HourOf(t) == second / 3600;
    forall h: nat ensures HourOf(t) == h <==> h * 3600 <= second < (h + 1) * 3600 {
    }
  }

  // The first of January 2024 was a Monday: seven in the morning there is off-peak, and a weekday.
  lemma KnownMonday()
    ensures Covers(DayOfWeek(1), 1_704_092_400) && Covers(WeekdayOffPeak, 1_704_092_400)
  {
  }

  // Peak hours mean the hour in UTC. Read as local hours they are the same exactly in a zone without offset.

  lemma HourIsPeriodic(t: int, days: int)
    ensures HourOf(t + 86_400 * days) == HourOf(t)
  {
    assert (t + 86_400 * days) / 3600 == t / 3600 + 24 * days;
  }

  lemma WeekdayIsPeriodic(t: int, weeks: int)
    ensures WeekdayOf(t + 604_800 * weeks) == WeekdayOf(t)
  {
    assert (t + 604_800 * weeks) / 86_400 == t / 86_400 + 7 * weeks;
  }

  // Clocks set apart by part of a day disagree about some instant.
  lemma PeakDiffersAt(offset: int) returns (t: int)
    requires offset % 86_400 != 0
    ensures IsPeak(t + offset) != IsPeak(t)
  {
    var days, part := offset / 86_400, offset % 86_400;
    t := if part <= 43_200 then 75_600 - part else 32_400;
    HourIsPeriodic(t + part, days);
    assert t + offset == t + part + 86_400 * days;
  }

  lemma PeakIsLocalIff(offset: int)
    ensures (forall t :: IsPeak(t + offset) == IsPeak(t)) <==> offset % 86_400 == 0
  {
    if offset % 86_400 == 0 {
      forall t ensures IsPeak(t + offset) == IsPeak(t) {
        HourIsPeriodic(t, offset / 86_400);
      }
    } else {
      var t := PeakDiffersAt(offset);
    }
  }

  lemma BucketsAreLocalIff(offset: int)
    ensures (forall b, t :: Covers(b, t + offset) == Covers(b, t)) <==> offset % 604_800 == 0
  {
    if offset % 604_800 == 0 {
      forall b, t ensures Covers(b, t + offset) == Covers(b, t) {
        HourIsPeriodic(t, 7 * (offset / 604_800));
        WeekdayIsPeriodic(t, offset / 604_800);
      }
    } else if offset % 86_400 != 0 {
      var t := PeakDiffersAt(offset);
      assert Covers(Peak, t + offset) != Covers(Peak, t);
    } else {
      assert WeekdayOf(0) == 4 && WeekdayOf(0 + offset) == (offset / 86_400 + 4) % 7;
      assert Covers(DayOfWeek(4), 0 + offset) != Covers(DayOfWeek(4), 0);
    }
  }

  // Half past eight in UTC is half past nine an hour to the east: peak there, and booked as off-peak.
  lemma PeakDiffersInUtcPlusOne()
    ensures !IsPeak(30_600) && IsPeak(30_600 + 3600)
  {
    assert HourOf(30_600) == 8 && HourOf(30_600 + 3600) == 9;
  }

  // The buckets covering an instant, each once.
  method FromTimestamp(t: int) returns (buckets: seq<TimeBucket>)
    ensures forall b :: b in buckets <==> Covers(b, t)
    ensures forall i, j | 0 <= i < j < |buckets| :: buckets[i] != buckets[j]
  {
    var hour, weekday := HourOf(t), WeekdayOf(t);
    var isPeak := PEAK_HOUR_START <= hour < PEAK_HOUR_END;
    var isWeekend := weekday == 0 || weekday == 6;
    buckets := [];
    if isPeak {
      buckets := buckets + [Peak];
    } else {
      buckets := buckets + [OffPeak];
    }
    if isWeekend {
      buckets := buckets + [Weekend];
    } else {
      buckets := buckets + [Weekday];
    }
    match (isWeekend, isPeak) {
      case (false, true) => buckets := buckets + [WeekdayPeak];
      case (false, false) => buckets := buckets + [WeekdayOffPeak];
      case (true, true) => buckets := buckets + [WeekendPeak];
      case (true, false) => buckets := buckets + [WeekendOffPeak];
    }
    buckets := buckets + [Hour(hour)];
    buckets := buckets + [DayOfWeek(weekday)];
  }

  datatype BucketStatistics = BucketStatistics(
    totalRequests: nat,
    successCount: nat,
    failureCount: nat,
    successRate: real,
    avgLatencyMs: real,
    p50LatencyMs: real,
    p95LatencyMs: real,
    p99LatencyMs: real,
    minLatencyMs: real,
    maxLatencyMs: real,
    totalTokens: nat,
    avgTokens: real,
    errorCounts: map<ErrorClass, nat>,
    fallbackCount: nat,
    lastUpdated: int)
  {
    function Latencies(): LatencySummary {
      LatencySummary(avgLatencyMs, minLatencyMs, maxLatencyMs)
    }
  }

  function NoStatistics(now: int): BucketStatistics {
    BucketStatistics(0, 0, 0, 1.0, 0.0, 0.0, 0.0, 0.0, MaxDouble(), 0.0, 0, 0.0, map[], 0, now)
  }

  function ErrorsIn(counts: map<ErrorClass, nat>, c: ErrorClass): nat {
    if c in counts then counts[c] else 0
  }

  // The part of an update that goes to the latency figures.
  method UpdateLatency(before: BucketStatistics, latency: real) returns (stats: BucketStatistics)
    ensures stats == AbsorbLatency(before, latency)
  {
    stats := before;
    if latency > 0.0 {
      if stats.avgLatencyMs == 0.0 {
        stats := stats.(avgLatencyMs := latency);
      } else {
        stats := stats.(avgLatencyMs := ALPHA * latency + (1.0 - ALPHA) * stats.avgLatencyMs);
      }
      if latency < stats.minLatencyMs {
        stats := stats.(minLatencyMs := latency);
      }
      if latency > stats.maxLatencyMs {
        stats := stats.(maxLatencyMs := latency);
      }
    }
  }

  method UpdateBucketStats(before: BucketStatistics, outcome: ExecutionOutcome, now: int)
    returns (stats: BucketStatistics)
    ensures stats == Absorb(before, Booking(outcome, now))
  {
    stats := before.(totalRequests := before.totalRequests + 1);
    stats := stats.(lastUpdated := now);
    if outcome.success {
      stats := stats.(successCount := stats.successCount + 1);
    } else {
      stats := stats.(failureCount := stats.failureCount + 1);
      if outcome.errorClass.Some? {
        var c := outcome.errorClass.value;
        stats := stats.(errorCounts := stats.errorCounts[c := ErrorsIn(stats.errorCounts, c) + 1]);
      }
    }
    if outcome.usedFallback {
      stats := stats.(fallbackCount := stats.fallbackCount + 1);
    }
    if stats.totalRequests > 0 {
      stats := stats.(successRate := stats.successCount as real / stats.totalRequests as real);
    }
    stats := UpdateLatency(stats, outcome.latencyMs);
    stats := stats.(totalTokens := stats.totalTokens + outcome.totalTokens);
    if stats.totalRequests > 0 {
      stats := stats.(avgTokens := stats.totalTokens as real / stats.totalRequests as real);
    }
  }

  // An outcome, and when it was booked.
  datatype Booking = Booking(outcome: ExecutionOutcome, at: int)

  function AbsorbLatency(s: BucketStatistics, latency: real): BucketStatistics {
    var latencies := WithLatency(s.Latencies(), latency, ALPHA);
    s.(avgLatencyMs := latencies.average, minLatencyMs := latencies.least, maxLatencyMs := latencies.greatest)
  }

  function Absorb(s: BucketStatistics, x: Booking): BucketStatistics {
    var o := x.outcome;
    var total, successes := s.totalRequests + 1, s.successCount + if o.success then 1 else 0;
    var tokens := s.totalTokens + o.totalTokens;
    AbsorbLatency(s, o.latencyMs).(
       totalRequests := total,
       successCount := successes,
       failureCount := s.failureCount + (if o.success then 0 else 1),
       successRate := successes as real / total as real,
       totalTokens := tokens,
       avgTokens := tokens as real / total as real,
       errorCounts := if !o.success && o.errorClass.Some?
                      then s.errorCounts[o.errorClass.value := ErrorsIn(s.errorCounts, o.errorClass.value) + 1]
                      else s.errorCounts,
       fallbackCount := s.fallbackCount + (if o.usedFallback then 1 else 0),
       lastUpdated := x.at)
  }

  datatype RouteStats = RouteStats(
    routeId: string,
    overall: BucketStatistics,
    timeBuckets: map<TimeBucket, BucketStatistics>,
    createdAt: int,
    updatedAt: int)

  datatype ColdStartPriors = ColdStartPriors(
    providerPriors: map<string, BucketStatistics>,
    tierPriors: map<string, BucketStatistics>,
    neutralPrior: BucketStatistics)
  {
    function GetPrior(provider: Option<string>, tier: Option<string>): BucketStatistics {
      if provider.Some? && provider.value in providerPriors then providerPriors[provider.value]
      else if tier.Some? && tier.value in tierPriors then tierPriors[tier.value]
      else neutralPrior
    }
  }

  // What a route was created with, and everything booked on it since.
  datatype RouteLog = RouteLog(prior: BucketStatistics, bookings: seq<Booking>)

  function Fold(start: BucketStatistics, bookings: seq<Booking>): BucketStatistics {
    if bookings == [] then start
    else Absorb(Fold(start, bookings[..|bookings| - 1]), bookings[|bookings| - 1])
  }

  function InBucket(bookings: seq<Booking>, b: TimeBucket): seq<Booking> {
    if bookings == [] then []
    else
      var last := bookings[|bookings| - 1];
      InBucket(bookings[..|bookings| - 1], b) + if Covers(b, last.outcome.timestamp) then [last] else []
  }

  // A route's statistics summarise its log: overall from its prior, each bucket from nothing and from exactly
  // the bookings it covers, and only buckets with some booking exist.
  ghost predicate Summarises(r: RouteStats, log: RouteLog) {
    r.overall == Fold(log.prior, log.bookings) &&
    forall b :: (b in r.timeBuckets <==> InBucket(log.bookings, b) != []) &&
                (b in r.timeBuckets ==> IsFold(r.timeBuckets[b], InBucket(log.bookings, b)))
  }

  // The instant the bucket was created at is overwritten by its first booking.
  ghost predicate IsFold(s: BucketStatistics, bookings: seq<Booking>) {
    exists now :: s == Fold(NoStatistics(now), bookings)
  }

  ghost predicate SummarisesAll(routeStats: map<string, RouteStats>, logs: map<string, RouteLog>) {
    logs.Keys == routeStats.Keys &&
    forall id | id in routeStats :: routeStats[id].routeId == id && Summarises(routeStats[id], logs[id])
  }

  lemma OneMoreSummarised(routeStats: map<string, RouteStats>, logs: map<string, RouteLog>, r: RouteStats,
                          log: RouteLog)
    requires SummarisesAll(routeStats, logs) && Summarises(r, log)
    ensures SummarisesAll(routeStats[r.routeId := r], logs[r.routeId := log])
  {
  }

  class StatisticsAggregator {
    var routeStats: map<string, RouteStats>
    ghost var logs: map<string, RouteLog>
    var priors: ColdStartPriors
    var maxAgeDays: int

    ghost predicate Valid()
      reads this
    {
      SummarisesAll(routeStats, logs)
    }

    constructor (priors: ColdStartPriors)
      ensures Valid() && routeStats == map[] && logs == map[]
      ensures this.priors == priors && maxAgeDays == 30
    {
      routeStats, logs := map[], map[];
      this.priors, maxAgeDays := priors, 30;
    }

    // Book an outcome on its effective route.
    method Record(outcome: ExecutionOutcome, now: int)
      requires Valid()
      modifies this`routeStats, this`logs
      ensures Valid() && logs == WithBooking(old(logs), outcome, now)
      ensures BookedRightly(old(logs), logs, outcome, now)
      ensures forall id | id in old(routeStats) && id != outcome.EffectiveRoute() ::
                routeStats[id] == old(routeStats)[id]
      ensures var booked := routeStats[outcome.EffectiveRoute()];
              booked.updatedAt == now &&
              booked.createdAt ==
              if booked.routeId in old(routeStats) then old(routeStats)[booked.routeId].createdAt else now
    {
      var id := outcome.EffectiveRoute();
      var stats := if id in routeStats then routeStats[id] else RouteStats(id, NoStatistics(now), map[], now, now);
      ghost var log := LogOf(logs, id, now);
      assert Summarises(stats, log);
      var updated := Update(stats, outcome, now, log);
      OneMoreSummarised(routeStats, logs, updated, log.(bookings := log.bookings + [Booking(outcome, now)]));
      routeStats := routeStats[id := updated];
      logs := WithBooking(logs, outcome, now);
      OutcomeIsBookedRightly(old(logs), outcome, now);
    }

    // Seed a route that has no statistics yet.
    method InitializeRoute(id: string, provider: Option<string>, tier: Option<string>, now: int)
      requires Valid()
      modifies this`routeStats, this`logs
      ensures Valid()
      ensures logs == if id in old(logs) then old(logs)
                      else old(logs)[id := RouteLog(priors.GetPrior(provider, tier), [])]
      ensures routeStats == if id in old(routeStats) then old(routeStats)
                            else old(routeStats)[id := RouteStats(id, priors.GetPrior(provider, tier), map[], now, now)]
      // The provider's prior comes first, then that of the tier.
      ensures id !in old(routeStats) ==>
                var overall := routeStats[id].overall;
                if provider.Some? && provider.value in priors.providerPriors
                then overall == priors.providerPriors[provider.value]
                else if tier.Some? && tier.value in priors.tierPriors
                then overall == priors.tierPriors[tier.value]
                else overall == priors.neutralPrior
    {
      if id !in routeStats {
        var prior := priors.GetPrior(provider, tier);
        routeStats := routeStats[id := RouteStats(id, prior, map[], now, now)];
        logs := logs[id := RouteLog(prior, [])];
      }
    }

    method CleanupOld(now: int)
      requires Valid()
      modifies this`routeStats, this`logs
      ensures Valid()
      ensures routeStats == map id |
                              id in old(routeStats) && now - maxAgeDays * 86_400 < old(routeStats)[id].updatedAt ::
                              old(routeStats)[id]
      ensures logs == map id | id in old(logs) && id in routeStats :: old(logs)[id]
    {
      var cutoff := now - maxAgeDays * 86_400;
      routeStats := map id | id in routeStats && cutoff < routeStats[id].updatedAt :: routeStats[id];
      logs := map id | id in logs && id in routeStats :: logs[id];
    }

    method ResetRoute(id: string)
      requires Valid()
      modifies this`routeStats, this`logs
      ensures Valid() && logs == old(logs) - {id} && routeStats == old(routeStats) - {id}
    {
      routeStats := routeStats - {id};
      logs := logs - {id};
    }

    method ResetAll()
      requires Valid()
      modifies this`routeStats, this`logs
      ensures Valid() && logs == map[] && routeStats == map[]
    {
      routeStats, logs := map[], map[];
    }
  }

  function LogOf(logs: map<string, RouteLog>, id: string, now: int): RouteLog {
    if id in logs then logs[id] else RouteLog(NoStatistics(now), [])
  }

  function WithBooking(logs: map<string, RouteLog>, outcome: ExecutionOutcome, now: int): map<string, RouteLog> {
    var id := outcome.EffectiveRoute();
    var log := LogOf(logs, id, now);
    logs[id := log.(bookings := log.bookings + [Booking(outcome, now)])]
  }

  // From logs to logs', x was booked on this route, as the last of its log, and on no other.
  ghost predicate BookedOn(logs: map<string, RouteLog>, logs': map<string, RouteLog>, route: string, x: Booking) {
    logs'.Keys == logs.Keys + {route} && (forall id | id in logs && id != route :: logs'[id] == logs[id]) &&
    logs'[route] == if route in logs then RouteLog(logs[route].prior, logs[route].bookings + [x])
                    else RouteLog(NoStatistics(x.at), [x])
  }

  // A fallback for a known route is booked on that route, and not on the one that served it. Anything else is booked
  // on the route that served it.
  ghost predicate BookedRightly(logs: map<string, RouteLog>, logs': map<string, RouteLog>, outcome: ExecutionOutcome,
                                now: int) {
    (outcome.usedFallback && outcome.originalRouteId.Some? ==>
       BookedOn(logs, logs', outcome.originalRouteId.value, Booking(outcome, now))) &&
    (!outcome.usedFallback || outcome.originalRouteId.None? ==>
       BookedOn(logs, logs', outcome.routeId, Booking(outcome, now)))
  }

  lemma OutcomeIsBookedRightly(logs: map<string, RouteLog>, outcome: ExecutionOutcome, now: int)
    ensures BookedRightly(logs, WithBooking(logs, outcome, now), outcome, now)
  {
  }

  // Update one route's statistics: overall, then each bucket covering the outcome.
  method Update(r: RouteStats, outcome: ExecutionOutcome, now: int, ghost log: RouteLog) returns (updated: RouteStats)
    requires Summarises(r, log)
    ensures Summarises(updated, log.(bookings := log.bookings + [Booking(outcome, now)]))
    ensures updated.routeId == r.routeId && updated.createdAt == r.createdAt && updated.updatedAt == now
  {
    var overall := UpdateBucketStats(r.overall, outcome, now);
    var timeBuckets := UpdateBuckets(r.timeBuckets, outcome, now);
    updated := RouteStats(r.routeId, overall, timeBuckets, r.createdAt, now);
    OneMoreBooking(r, updated, log, Booking(outcome, now));
  }

  // The loop over the buckets covering the outcome.
  method UpdateBuckets(before: map<TimeBucket, BucketStatistics>, outcome: ExecutionOutcome, now: int)
    returns (timeBuckets: map<TimeBucket, BucketStatistics>)
    ensures forall b :: b in timeBuckets <==> b in before || Covers(b, outcome.timestamp)
    ensures forall b | b in timeBuckets ::
              timeBuckets[b] ==
              if Covers(b, outcome.timestamp) then Absorb(Existing(before, b, now), Booking(outcome, now))
              else before[b]
  {
    var buckets := FromTimestamp(outcome.timestamp);
    timeBuckets := before;
    for i := 0 to |buckets|
      invariant forall b :: b in timeBuckets <==> b in before || b in buckets[..i]
      invariant forall b | b in timeBuckets ::
                  timeBuckets[b] == if b in buckets[..i] then Absorb(Existing(before, b, now), Booking(outcome, now))
                                    else before[b]
    {
      var b := buckets[i];
      assert b !in buckets[..i] && buckets[..i + 1] == buckets[..i] + [b];
      var stats := UpdateBucketStats(Existing(timeBuckets, b, now), outcome, now);
      timeBuckets := timeBuckets[b := stats];
    }
    assert buckets[..|buckets|] == buckets;
  }

  function Existing(timeBuckets: map<TimeBucket, BucketStatistics>, b: TimeBucket, now: int): BucketStatistics {
    if b in timeBuckets then timeBuckets[b] else NoStatistics(now)
  }

  lemma OneMoreBooking(r: RouteStats, updated: RouteStats, log: RouteLog, x: Booking)
    requires Summarises(r, log) && updated.overall == Absorb(r.overall, x)
    requires forall b :: b in updated.timeBuckets <==> b in r.timeBuckets || Covers(b, x.outcome.timestamp)
    requires forall b | b in updated.timeBuckets ::
               updated.timeBuckets[b] ==
               if Covers(b, x.outcome.timestamp) then Absorb(Existing(r.timeBuckets, b, x.at), x)
               else r.timeBuckets[b]
    ensures Summarises(updated, log.(bookings := log.bookings + [x]))
  {
    var longer := log.bookings + [x];
    assert longer[..|log.bookings|] == log.bookings;
    forall b
      ensures b in updated.timeBuckets <==> InBucket(longer, b) != []
      ensures b in updated.timeBuckets ==> IsFold(updated.timeBuckets[b], InBucket(longer, b))
    {
      BucketOneMore(r, updated, log, x, b);
    }
  }

  lemma BucketOneMore(r: RouteStats, updated: RouteStats, log: RouteLog, x: Booking, b: TimeBucket)
    requires Summarises(r, log)
    requires b in updated.timeBuckets <==> b in r.timeBuckets || Covers(b, x.outcome.timestamp)
    requires b in updated.timeBuckets ==>
               updated.timeBuckets[b] ==
               if Covers(b, x.outcome.timestamp) then Absorb(Existing(r.timeBuckets, b, x.at), x)
               else r.timeBuckets[b]
    ensures b in updated.timeBuckets <==> InBucket(log.bookings + [x], b) != []
    ensures b in updated.timeBuckets ==> IsFold(updated.timeBuckets[b], InBucket(log.bookings + [x], b))
  {
    var longer, before := log.bookings + [x], InBucket(log.bookings, b);
    assert longer[..|log.bookings|] == log.bookings;
    if Covers(b, x.outcome.timestamp) {
      assert InBucket(longer, b) == before + [x] && (before + [x])[..|before|] == before;
      var now :| Existing(r.timeBuckets, b, x.at) == Fold(NoStatistics(now), before);
      assert updated.timeBuckets[b] == Fold(NoStatistics(now), before + [x]);
    } else {
      assert InBucket(longer, b) == before;
    }
  }

  // Conservation across buckets

  // The additive figures of a bucket.
  datatype Figure = Requests | Successes | Failures | TotalTokens | Fallbacks | ErrorsOf(errorClass: ErrorClass)

  function Value(s: BucketStatistics, f: Figure): nat {
    match f
    case Requests => s.totalRequests
    case Successes => s.successCount
    case Failures => s.failureCount
    case TotalTokens => s.totalTokens
    case Fallbacks => s.fallbackCount
    case ErrorsOf(c) => ErrorsIn(s.errorCounts, c)
  }

  // What one outcome adds to a figure.
  function Contribution(o: ExecutionOutcome, f: Figure): nat {
    match f
    case Requests => 1
    case Successes => if o.success then 1 else 0
    case Failures => if o.success then 0 else 1
    case TotalTokens => o.totalTokens
    case Fallbacks => if o.usedFallback then 1 else 0
    case ErrorsOf(c) => if !o.success && o.errorClass == Some(c) then 1 else 0
  }

  function Total(bookings: seq<Booking>, f: Figure): nat {
    if bookings == [] then 0
    else Total(bookings[..|bookings| - 1], f) + Contribution(bookings[|bookings| - 1].outcome, f)
  }

  lemma {:induction false} FoldAddsTotal(start: BucketStatistics, bookings: seq<Booking>, f: Figure)
    ensures Value(Fold(start, bookings), f) == Value(start, f) + Total(bookings, f)
    decreases |bookings|
  {
    if bookings != [] { FoldAddsTotal(start, bookings[..|bookings| - 1], f); }
  }

  function BucketValue(r: RouteStats, b: TimeBucket, f: Figure): nat {
    if b in r.timeBuckets then Value(r.timeBuckets[b], f) else 0
  }

  function SumOver(family: seq<TimeBucket>, g: TimeBucket -> nat): nat {
    if family == [] then 0 else SumOver(family[..|family| - 1], g) + g(family[|family| - 1])
  }

  function FamilyValue(r: RouteStats, family: seq<TimeBucket>, f: Figure): nat {
    SumOver(family, (b: TimeBucket) => BucketValue(r, b, f))
  }

  // How many buckets of a family cover an instant.
  function Hits(family: seq<TimeBucket>, t: int): nat {
    if family == [] then 0
    else Hits(family[..|family| - 1], t) + if Covers(family[|family| - 1], t) then 1 else 0
  }

  lemma BucketValueIsTotal(r: RouteStats, log: RouteLog, b: TimeBucket, f: Figure)
    requires Summarises(r, log)
    ensures BucketValue(r, b, f) == Total(InBucket(log.bookings, b), f)
  {
    if b in r.timeBuckets {
      var now :| r.timeBuckets[b] == Fold(NoStatistics(now), InBucket(log.bookings, b));
      FoldAddsTotal(NoStatistics(now), InBucket(log.bookings, b), f);
    }
  }

  lemma TotalInBucketOneMore(bookings: seq<Booking>, b: TimeBucket, f: Figure)
    requires bookings != []
    ensures var front, last := bookings[..|bookings| - 1], bookings[|bookings| - 1].outcome;
            Total(InBucket(bookings, b), f)
            == Total(InBucket(front, b), f) + if Covers(b, last.timestamp) then Contribution(last, f) else 0
  {
    var front, last := bookings[..|bookings| - 1], bookings[|bookings| - 1];
    if Covers(b, last.outcome.timestamp) {
      assert InBucket(bookings, b)[..|InBucket(front, b)|] == InBucket(front, b);
    } else {
      assert InBucket(bookings, b) == InBucket(front, b);
    }
  }

  function BucketTotal(bookings: seq<Booking>, f: Figure): TimeBucket -> nat {
    (b: TimeBucket) => Total(InBucket(bookings, b), f)
  }

  function FamilyTotal(bookings: seq<Booking>, family: seq<TimeBucket>, f: Figure): nat {
    SumOver(family, BucketTotal(bookings, f))
  }

  function Times(n: nat, x: nat): nat {
    if n == 0 then 0 else Times(n - 1, x) + x
  }

  // Adding x to every bucket that covers t adds x once per hit.
  lemma {:induction false} SumOverHits(family: seq<TimeBucket>, before: TimeBucket -> nat, after: TimeBucket -> nat,
                                       t: int, x: nat)
    requires forall b :: after(b) == before(b) + if Covers(b, t) then x else 0
    ensures SumOver(family, after) == SumOver(family, before) + Times(Hits(family, t), x)
    decreases |family|
  {
    if family != [] { SumOverHits(family[..|family| - 1], before, after, t, x); }
  }

  lemma FamilyTotalOneMore(bookings: seq<Booking>, family: seq<TimeBucket>, f: Figure)
    requires bookings != []
    ensures var front, last := bookings[..|bookings| - 1], bookings[|bookings| - 1].outcome;
            FamilyTotal(bookings, family, f)
            == FamilyTotal(front, family, f) + Times(Hits(family, last.timestamp), Contribution(last, f))
  {
    var front, last := bookings[..|bookings| - 1], bookings[|bookings| - 1].outcome;
    forall b
      ensures BucketTotal(bookings, f)(b)
              == BucketTotal(front, f)(b) + if Covers(b, last.timestamp) then Contribution(last, f) else 0
    {
      TotalInBucketOneMore(bookings, b, f);
    }
    SumOverHits(family, BucketTotal(front, f), BucketTotal(bookings, f), last.timestamp, Contribution(last, f));
  }

  lemma FamilyValueIsTotal(r: RouteStats, log: RouteLog, family: seq<TimeBucket>, f: Figure)
    requires Summarises(r, log)
    ensures FamilyValue(r, family, f) == FamilyTotal(log.bookings, family, f)
  {
    forall b ensures BucketValue(r, b, f) == BucketTotal(log.bookings, f)(b) {
      BucketValueIsTotal(r, log, b, f);
    }
    SumOverHits(family, (b: TimeBucket) => BucketValue(r, b, f), BucketTotal(log.bookings, f), 0, 0);
    NothingAdded(Hits(family, 0));
  }

  lemma {:induction false} NothingAdded(n: nat)
    ensures Times(n, 0) == 0
  {
    if n > 0 { NothingAdded(n - 1); }
  }

  // A family that covers every instant of its parent exactly once, and no other instant; without a parent, all.
  ghost predicate Partitions(family: seq<TimeBucket>, parent: Option<TimeBucket>) {
    forall t :: Hits(family, t) == if parent.None? || Covers(parent.value, t) then 1 else 0
  }

  function ParentBookings(bookings: seq<Booking>, parent: Option<TimeBucket>): seq<Booking> {
    if parent.None? then bookings else InBucket(bookings, parent.value)
  }

  lemma {:induction false} PartitionTotal(bookings: seq<Booking>, family: seq<TimeBucket>, parent: Option<TimeBucket>,
                                          f: Figure)
    requires Partitions(family, parent)
    ensures FamilyTotal(bookings, family, f) == Total(ParentBookings(bookings, parent), f)
    decreases |bookings|
  {
    if bookings == [] {
      EmptyFamilyTotal(family, f);
    } else {
      PartitionTotal(bookings[..|bookings| - 1], family, parent, f);
      FamilyTotalOneMore(bookings, family, f);
      if parent.Some? { TotalInBucketOneMore(bookings, parent.value, f); }
    }
  }

  lemma {:induction false} EmptyFamilyTotal(family: seq<TimeBucket>, f: Figure)
    ensures FamilyTotal([], family, f) == 0
    decreases |family|
  {
    if family != [] { EmptyFamilyTotal(family[..|family| - 1], f); }
  }

  // Any partition into buckets adds up: to the overall figure less the prior, or to the parent bucket's figure.
  lemma PartitionsConserve(r: RouteStats, log: RouteLog, family: seq<TimeBucket>, parent: Option<TimeBucket>, f: Figure)
    requires Summarises(r, log) && Partitions(family, parent)
    ensures parent.None? ==> Value(log.prior, f) + FamilyValue(r, family, f) == Value(r.overall, f)
    ensures parent.Some? ==> FamilyValue(r, family, f) == BucketValue(r, parent.value, f)
  {
    FamilyValueIsTotal(r, log, family, f);
    PartitionTotal(log.bookings, family, parent, f);
    FoldAddsTotal(log.prior, log.bookings, f);
    if parent.Some? { BucketValueIsTotal(r, log, parent.value, f); }
  }

  // The partitions there are

  const BY_PEAK: seq<TimeBucket> := [Peak, OffPeak]
  const BY_WEEKDAY: seq<TimeBucket> := [Weekday, Weekend]
  const COMPOUND: seq<TimeBucket> := [WeekdayPeak, WeekdayOffPeak, WeekendPeak, WeekendOffPeak]

  function Hours(n: nat): seq<TimeBucket> {
    if n == 0 then [] else Hours(n - 1) + [Hour(n - 1)]
  }

  function Days(n: nat): seq<TimeBucket> {
    if n == 0 then [] else Days(n - 1) + [DayOfWeek(n - 1)]
  }

  lemma HitsOneMore(family: seq<TimeBucket>, b: TimeBucket, t: int)
    ensures Hits(family + [b], t) == Hits(family, t) + if Covers(b, t) then 1 else 0
  {
    assert (family + [b])[..|family|] == family;
  }

  lemma HitsOfTwo(a: TimeBucket, b: TimeBucket, t: int)
    ensures Hits([a, b], t) == (if Covers(a, t) then 1 else 0) + if Covers(b, t) then 1 else 0
  {
    HitsOneMore([], a, t);
    HitsOneMore([a], b, t);
    assert [] + [a] == [a] && [a] + [b] == [a, b];
  }

  lemma HitsOfCompound(t: int)
    ensures Hits(COMPOUND, t) == 1
  {
    HitsOfTwo(WeekdayPeak, WeekdayOffPeak, t);
    HitsOneMore([WeekdayPeak, WeekdayOffPeak], WeekendPeak, t);
    assert [WeekdayPeak, WeekdayOffPeak] + [WeekendPeak] == COMPOUND[..3];
    HitsOneMore(COMPOUND[..3], WeekendOffPeak, t);
    assert COMPOUND[..3] + [WeekendOffPeak] == COMPOUND;
  }

  lemma {:induction false} HitsOfHours(n: nat, t: int)
    ensures Hits(Hours(n), t) == if HourOf(t) < n then 1 else 0
    decreases n
  {
    if n > 0 {
      HitsOfHours(n - 1, t);
      HitsOneMore(Hours(n - 1), Hour(n - 1), t);
    }
  }

  lemma {:induction false} HitsOfDays(n: nat, t: int)
    ensures Hits(Days(n), t) == if WeekdayOf(t) < n then 1 else 0
    decreases n
  {
    if n > 0 {
      HitsOfDays(n - 1, t);
      HitsOneMore(Days(n - 1), DayOfWeek(n - 1), t);
    }
  }

  // Every way the buckets split the week and the day is a partition, of all time or of another bucket.
  lemma BucketFamiliesPartition()
    ensures Partitions(BY_PEAK, None) && Partitions(BY_WEEKDAY, None) && Partitions(COMPOUND, None)
    ensures Partitions(Hours(24), None) && Partitions(Days(7), None)
    ensures Partitions([WeekdayPeak, WeekdayOffPeak], Some(Weekday))
    ensures Partitions([WeekendPeak, WeekendOffPeak], Some(Weekend))
    ensures Partitions([WeekdayPeak, WeekendPeak], Some(Peak))
    ensures Partitions([WeekdayOffPeak, WeekendOffPeak], Some(OffPeak))
  {
    forall t
      ensures Hits(BY_PEAK, t) == 1 && Hits(BY_WEEKDAY, t) == 1 && Hits(COMPOUND, t) == 1
      ensures Hits(Hours(24), t) == 1 && Hits(Days(7), t) == 1
    {
      HitsOfTwo(Peak, OffPeak, t);
      HitsOfTwo(Weekday, Weekend, t);
      HitsOfCompound(t);
      HitsOfHours(24, t);
      HitsOfDays(7, t);
    }
    forall t
      ensures Hits([WeekdayPeak, WeekdayOffPeak], t) == if Covers(Weekday, t) then 1 else 0
      ensures Hits([WeekendPeak, WeekendOffPeak], t) == if Covers(Weekend, t) then 1 else 0
      ensures Hits([WeekdayPeak, WeekendPeak], t) == if Covers(Peak, t) then 1 else 0
      ensures Hits([WeekdayOffPeak, WeekendOffPeak], t) == if Covers(OffPeak, t) then 1 else 0
    {
      HitsOfTwo(WeekdayPeak, WeekdayOffPeak, t);
      HitsOfTwo(WeekendPeak, WeekendOffPeak, t);
      HitsOfTwo(WeekdayPeak, WeekendPeak, t);
      HitsOfTwo(WeekdayOffPeak, WeekendOffPeak, t);
    }
  }

  // So each figure is conserved across every one of them.
  lemma FiguresAreConserved(r: RouteStats, log: RouteLog, f: Figure)
    requires Summarises(r, log)
    ensures Value(r.overall, f) == Value(log.prior, f) + FamilyValue(r, BY_PEAK, f)
    ensures Value(r.overall, f) == Value(log.prior, f) + FamilyValue(r, BY_WEEKDAY, f)
    ensures Value(r.overall, f) == Value(log.prior, f) + FamilyValue(r, COMPOUND, f)
    ensures Value(r.overall, f) == Value(log.prior, f) + FamilyValue(r, Hours(24), f)
    ensures Value(r.overall, f) == Value(log.prior, f) + FamilyValue(r, Days(7), f)
    ensures BucketValue(r, Weekday, f) == FamilyValue(r, [WeekdayPeak, WeekdayOffPeak], f)
    ensures BucketValue(r, Weekend, f) == FamilyValue(r, [WeekendPeak, WeekendOffPeak], f)
    ensures BucketValue(r, Peak, f) == FamilyValue(r, [WeekdayPeak, WeekendPeak], f)
    ensures BucketValue(r, OffPeak, f) == FamilyValue(r, [WeekdayOffPeak, WeekendOffPeak], f)
  {
    BucketFamiliesPartition();
    PartitionsConserve(r, log, BY_PEAK, None, f);
    PartitionsConserve(r, log, BY_WEEKDAY, None, f);
    PartitionsConserve(r, log, COMPOUND, None, f);
    PartitionsConserve(r, log, Hours(24), None, f);
    PartitionsConserve(r, log, Days(7), None, f);
    PartitionsConserve(r, log, [WeekdayPeak, WeekdayOffPeak], Some(Weekday), f);
    PartitionsConserve(r, log, [WeekendPeak, WeekendOffPeak], Some(Weekend), f);
    PartitionsConserve(r, log, [WeekdayPeak, WeekendPeak], Some(Peak), f);
    PartitionsConserve(r, log, [WeekdayOffPeak, WeekendOffPeak], Some(OffPeak), f);
  }

  // Rates and latencies against the log

  lemma {:induction false} RequestsAreBookings(bookings: seq<Booking>)
    ensures Total(bookings, Requests) == |bookings|
    decreases |bookings|
  {
    if bookings != [] { RequestsAreBookings(bookings[..|bookings| - 1]); }
  }

  lemma FoldKeepsRates(start: BucketStatistics, bookings: seq<Booking>)
    requires bookings != []
    ensures var s := Fold(start, bookings);
            s.totalRequests > 0 && s.successRate == s.successCount as real / s.totalRequests as real &&
            s.avgTokens == s.totalTokens as real / s.totalRequests as real &&
            s.lastUpdated == bookings[|bookings| - 1].at
  {
  }

  // The success rate and the mean of tokens are exact, priors included.
  lemma RatesAreExact(start: BucketStatistics, bookings: seq<Booking>)
    requires bookings != []
    ensures var s, n := Fold(start, bookings), (start.totalRequests + |bookings|) as real;
            s.successRate == (start.successCount + Total(bookings, Successes)) as real / n &&
            s.avgTokens == (start.totalTokens + Total(bookings, TotalTokens)) as real / n
  {
    RequestsAreBookings(bookings);
    FoldAddsTotal(start, bookings, Requests);
    FoldAddsTotal(start, bookings, Successes);
    FoldAddsTotal(start, bookings, TotalTokens);
    FoldKeepsRates(start, bookings);
    var s := Fold(start, bookings);
    assert Value(s, Requests) == s.totalRequests && Value(s, Successes) == s.successCount;
    assert Value(s, TotalTokens) == s.totalTokens;
  }

  function LatenciesOf(bookings: seq<Booking>): (xs: seq<real>)
    ensures |xs| == |bookings| && forall i | 0 <= i < |xs| :: xs[i] == bookings[i].outcome.latencyMs
  {
    seq(|bookings|, i requires 0 <= i < |bookings| => bookings[i].outcome.latencyMs)
  }

  lemma {:induction false} LatencyIsExact(now: int, bookings: seq<Booking>)
    ensures SummaryAgrees(Fold(NoStatistics(now), bookings).Latencies(), LatenciesOf(bookings), 0.2)
    decreases |bookings|
  {
    if bookings != [] {
      var front, last := bookings[..|bookings| - 1], bookings[|bookings| - 1];
      LatencyIsExact(now, front);
      SummaryOneMore(Fold(NoStatistics(now), front).Latencies(), LatenciesOf(front), last.outcome.latencyMs, 0.2);
      assert LatenciesOf(bookings) == LatenciesOf(front) + [last.outcome.latencyMs];
    }
  }

  // Every bucket's rates and latencies are those of exactly the bookings it covers.
  lemma BucketIsExact(r: RouteStats, log: RouteLog, b: TimeBucket)
    requires Summarises(r, log) && b in r.timeBuckets
    ensures var s, mine := r.timeBuckets[b], InBucket(log.bookings, b);
            mine != [] && SummaryAgrees(s.Latencies(), LatenciesOf(mine), 0.2) &&
            s.successRate == Total(mine, Successes) as real / |mine| as real &&
            s.avgTokens == Total(mine, TotalTokens) as real / |mine| as real
  {
    var mine := InBucket(log.bookings, b);
    var now :| r.timeBuckets[b] == Fold(NoStatistics(now), mine);
    RatesAreExact(NoStatistics(now), mine);
    LatencyIsExact(now, mine);
  }

  // Percentiles

  // They are set when statistics are created, and never computed.
  lemma {:induction false} PercentilesAreNeverComputed(start: BucketStatistics, bookings: seq<Booking>)
    ensures var s := Fold(start, bookings);
            s.p50LatencyMs == start.p50LatencyMs && s.p95LatencyMs == start.p95LatencyMs &&
            s.p99LatencyMs == start.p99LatencyMs
    decreases |bookings|
  {
    if bookings != [] { PercentilesAreNeverComputed(start, bookings[..|bookings| - 1]); }
  }

  lemma BucketPercentilesAreZero(r: RouteStats, log: RouteLog, b: TimeBucket)
    requires Summarises(r, log) && b in r.timeBuckets
    ensures var s := r.timeBuckets[b]; s.p50LatencyMs == s.p95LatencyMs == s.p99LatencyMs == 0.0
  {
    var mine := InBucket(log.bookings, b);
    var now :| r.timeBuckets[b] == Fold(NoStatistics(now), mine);
    PercentilesAreNeverComputed(NoStatistics(now), mine);
  }

  // So a bucket's percentile is right exactly if more than its share of the bucket's latencies is zero.
  lemma BucketPercentilesAreRightIff(r: RouteStats, log: RouteLog, b: TimeBucket)
    requires Summarises(r, log) && b in r.timeBuckets
    requires forall x | x in LatenciesOf(InBucket(log.bookings, b)) :: AtMost(0.0, x)
    ensures var s, xs := r.timeBuckets[b], LatenciesOf(InBucket(log.bookings, b));
            (IsPercentile(s.p50LatencyMs, xs, 50) <==> 100 * CountAtMost(xs, 0.0) > 50 * |xs|) &&
            (IsPercentile(s.p95LatencyMs, xs, 95) <==> 100 * CountAtMost(xs, 0.0) > 95 * |xs|) &&
            (IsPercentile(s.p99LatencyMs, xs, 99) <==> 100 * CountAtMost(xs, 0.0) > 99 * |xs|)
  {
    var xs := LatenciesOf(InBucket(log.bookings, b));
    BucketPercentilesAreZero(r, log, b);
    LeastIsPercentileIff(0.0, xs, 50);
    LeastIsPercentileIff(0.0, xs, 95);
    LeastIsPercentileIff(0.0, xs, 99);
  }

  lemma InBucketOne(x: Booking, b: TimeBucket)
    requires Covers(b, x.outcome.timestamp)
    ensures InBucket([x], b) == [x]
  {
    assert [x][..0] == [];
  }

  // One booking of a positive latency: each of its buckets has a p50 of zero, which is not the latency's.
  lemma OneBookingHasWrongPercentile(r: RouteStats, prior: BucketStatistics, x: Booking, b: TimeBucket)
    requires Summarises(r, RouteLog(prior, [x])) && x.outcome.latencyMs > 0.0 && Covers(b, x.outcome.timestamp)
    ensures b in r.timeBuckets && LatenciesOf(InBucket([x], b)) == [x.outcome.latencyMs] &&
            r.timeBuckets[b].p50LatencyMs == 0.0 && !IsPercentile(0.0, [x.outcome.latencyMs], 50)
  {
    InBucketOne(x, b);
    BucketPercentilesAreZero(r, RouteLog(prior, [x]), b);
  }
}
