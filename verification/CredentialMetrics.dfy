// Per-credential metrics: counters, moving averages, and a bounded map of them.

module CredentialMetrics {

  import opened Wrappers
  import opened Doubles
  import opened Eviction
  import opened LatencySummaries
  import opened Smoothing

  const ALPHA: real := 0.3

  datatype AuthMetrics = AuthMetrics(
    totalRequests: nat,
    successCount: nat,
    failureCount: nat,
    avgLatencyMs: real,
    minLatencyMs: real,
    maxLatencyMs: real,
    successRate: real,
    errorRate: real,
    consecutiveSuccesses: nat,
    consecutiveFailures: nat,
    lastRequestTime: int,
    lastSuccessTime: Option<int>,
    lastFailureTime: Option<int>)
  {
    function Latencies(): LatencySummary {
      LatencySummary(avgLatencyMs, minLatencyMs, maxLatencyMs)
    }
  }

  function Fresh(now: int): AuthMetrics {
    AuthMetrics(0, 0, 0, 0.0, MaxDouble(), 0.0, 1.0, 0.0, 0, 0, now, None, None)
  }

  datatype Sample = Sample(success: bool, latencyMs: Latency, at: int)

  function Recorded(m: AuthMetrics, x: Sample): AuthMetrics {
    var counted := m.(totalRequests := m.totalRequests + 1, lastRequestTime := x.at);
    var tallied :=
      if x.success then
        counted.(successCount := m.successCount + 1, consecutiveSuccesses := m.consecutiveSuccesses + 1,
                 consecutiveFailures := 0, lastSuccessTime := Some(x.at))
      else
        counted.(failureCount := m.failureCount + 1, consecutiveFailures := m.consecutiveFailures + 1,
                 consecutiveSuccesses := 0, lastFailureTime := Some(x.at));
    var latencies := WithLatency(m.Latencies(), x.latencyMs, ALPHA);
    var timed := tallied.(avgLatencyMs := latencies.average, minLatencyMs := latencies.least,
                          maxLatencyMs := latencies.greatest);
    var rate := ALPHA * (if x.success then 1.0 else 0.0) + (1.0 - ALPHA) * m.successRate;
    timed.(successRate := rate, errorRate := 1.0 - rate)
  }

  // What an entry has seen since it was created.
  datatype Log = Log(born: int, samples: seq<Sample>)

  function Replay(log: Log): AuthMetrics
    decreases |log.samples|
  {
    if log.samples == [] then Fresh(log.born)
    else
      var n := |log.samples| - 1;
      Recorded(Replay(log.(samples := log.samples[..n])), log.samples[n])
  }

  // The collector's state, with the log of every entry beside its metrics.
  datatype State = State(metrics: map<string, AuthMetrics>, opCount: nat, logs: map<string, Log>)

  ghost predicate Faithful(s: State) {
    s.logs.Keys == s.metrics.Keys && forall id | id in s.metrics :: s.metrics[id] == Replay(s.logs[id])
  }

  const CLEANUP_INTERVAL: nat := 100

  ghost predicate CleanedUp(metrics: map<string, AuthMetrics>, kept: map<string, AuthMetrics>, maxEntries: nat) {
    KeepsNewest(metrics, kept, LastRequest, maxEntries)
  }

  function LastRequest(m: AuthMetrics): int {
    m.lastRequestTime
  }

  function LogsOf(logs: map<string, Log>, kept: map<string, AuthMetrics>): map<string, Log> {
    map id | id in logs && id in kept :: logs[id]
  }

  datatype Op =
    | Record(id: string, sample: Sample)
    | Initialize(id: string, now: int)
    | Reset(id: string, now: int)
    | ResetAll

  // base is s after the periodic cleanup that precedes some of the recordings.
  ghost predicate Tidied(s: State, base: State, maxEntries: nat) {
    base.opCount == s.opCount + 1 &&
    (if s.opCount % CLEANUP_INTERVAL == 0
     then CleanedUp(s.metrics, base.metrics, maxEntries)
     else base.metrics == s.metrics) &&
    base.logs == LogsOf(s.logs, base.metrics)
  }

  function WithSample(s: State, id: string, x: Sample): State {
    var m := if id in s.metrics then s.metrics[id] else Fresh(x.at);
    var log := if id in s.logs then s.logs[id] else Log(x.at, []);
    s.(metrics := s.metrics[id := Recorded(m, x)], logs := s.logs[id := log.(samples := log.samples + [x])])
  }

  function WithFresh(s: State, id: string, now: int): State {
    s.(metrics := s.metrics[id := Fresh(now)], logs := s.logs[id := Log(now, [])])
  }

  ghost predicate Step(s: State, op: Op, s': State, maxEntries: nat) {
    match op
    case Record(id, x) =>
      if id == "" then s' == s
      else exists base :: Tidied(s, base, maxEntries) && s' == WithSample(base, id, x)
    case Initialize(id, now) =>
      if id == "" then s' == s
      else
        CleanedUp(WithFresh(s, id, now).metrics, s'.metrics, maxEntries) &&
        s'.opCount == s.opCount &&
        s'.logs == LogsOf(WithFresh(s, id, now).logs, s'.metrics)
    case Reset(id, now) => s' == if id == "" then s else WithFresh(s, id, now)
    case ResetAll => s' == s.(metrics := map[], logs := map[])
  }

  // Entries other than those changed are as they were, if they are still there.
  ghost predicate Untouched(before: State, after: State, changed: set<string>) {
    forall other | other in after.metrics && other !in changed ::
      other in before.metrics && after.metrics[other] == before.metrics[other] &&
      other in before.logs && other in after.logs && after.logs[other] == before.logs[other]
  }

  // What a recording leaves, whatever the cleanup before it did: the sample ends the log of its credential, which
  // starts afresh if the credential was unknown or has just been evicted.
  ghost predicate Logged(before: State, after: State, id: string, x: Sample, maxEntries: nat) {
    Untouched(before, after, {id}) && after.opCount == before.opCount + 1 &&
    id in after.metrics && id in after.logs &&
    (after.logs[id] == Log(x.at, [x]) ||
     (id in before.logs && after.logs[id] == Log(before.logs[id].born, before.logs[id].samples + [x]))) &&
    (before.opCount % 100 == 0 ==> |after.metrics| <= maxEntries + 1) &&
    (before.opCount % 100 != 0 || |before.metrics| <= maxEntries ==>
      after.metrics.Keys == before.metrics.Keys + {id} &&
      (id in before.logs ==> |after.logs[id].samples| == |before.logs[id].samples| + 1))
  }

  lemma WithSampleIsLogged(s: State, base: State, id: string, x: Sample, maxEntries: nat)
    requires Faithful(s) && Tidied(s, base, maxEntries)
    ensures Logged(s, WithSample(base, id, x), id, x, maxEntries)
  {
    OneMoreKey(base.metrics, id, WithSample(base, id, x).metrics[id]);
    assert s.opCount % 100 != 0 || |s.metrics| <= maxEntries ==> base.metrics == s.metrics && base.logs == s.logs;
  }

  lemma RecordedIsLogged(s: State, id: string, x: Sample, s': State, maxEntries: nat)
    requires Faithful(s) && Step(s, Record(id, x), s', maxEntries)
    ensures if id == "" then s' == s else Logged(s, s', id, x, maxEntries)
  {
    if id != "" {
      var base :| Tidied(s, base, maxEntries) && s' == WithSample(base, id, x);
      WithSampleIsLogged(s, base, id, x, maxEntries);
    }
  }

  // The field-by-field update of one entry.
  method UpdateEntry(m: AuthMetrics, success: bool, latencyMs: Latency, now: int) returns (entry: AuthMetrics)
    ensures entry == Recorded(m, Sample(success, latencyMs, now))
  {
    entry := m;
    entry := entry.(totalRequests := entry.totalRequests + 1);
    entry := entry.(lastRequestTime := now);
    if success {
      entry := entry.(successCount := entry.successCount + 1);
      entry := entry.(consecutiveSuccesses := entry.consecutiveSuccesses + 1);
      entry := entry.(consecutiveFailures := 0);
      entry := entry.(lastSuccessTime := Some(now));
    } else {
      entry := entry.(failureCount := entry.failureCount + 1);
      entry := entry.(consecutiveFailures := entry.consecutiveFailures + 1);
      entry := entry.(consecutiveSuccesses := 0);
      entry := entry.(lastFailureTime := Some(now));
    }

    if latencyMs > 0.0 {
      if entry.avgLatencyMs == 0.0 {
        entry := entry.(avgLatencyMs := latencyMs);
      } else {
        entry := entry.(avgLatencyMs := ALPHA * latencyMs + (1.0 - ALPHA) * entry.avgLatencyMs);
      }
      if latencyMs < entry.minLatencyMs {
        entry := entry.(minLatencyMs := latencyMs);
      }
      if latencyMs > entry.maxLatencyMs {
        entry := entry.(maxLatencyMs := latencyMs);
      }
    }

    var currentSuccess := if success then 1.0 else 0.0;
    entry := entry.(successRate := ALPHA * currentSuccess + (1.0 - ALPHA) * entry.successRate);
    entry := entry.(errorRate := 1.0 - entry.successRate);
  }

  class MetricsCollector {
    var metrics: map<string, AuthMetrics>
    var opCount: nat
    ghost var logs: map<string, Log>
    const maxEntries: nat

    ghost function Abs(): State
      reads this
    {
      State(metrics, opCount, logs)
    }

    ghost predicate Valid()
      reads this
    {
      0 < maxEntries && Faithful(Abs())
    }

    constructor (maxEntries: nat)
      ensures Valid() && Abs() == State(map[], 0, map[])
      ensures this.maxEntries == if maxEntries > 0 then maxEntries else 10_000
    {
      this.maxEntries := if maxEntries > 0 then maxEntries else 10_000;
      metrics, opCount, logs := map[], 0, map[];
    }

    method CleanupOldEntries()
      requires Valid()
      modifies this
      ensures Valid() && opCount == old(opCount)
      ensures CleanedUp(old(metrics), metrics, maxEntries)
      ensures logs == LogsOf(old(logs), metrics)
      ensures |metrics| == if |old(metrics)| <= maxEntries then |old(metrics)| else maxEntries
      ensures Untouched(old(Abs()), Abs(), {})
      ensures forall id, gone | id in metrics && gone in old(metrics) && gone !in metrics ::
                old(metrics)[gone].lastRequestTime <= metrics[id].lastRequestTime
    {
      metrics := EvictOldest(metrics, LastRequest, maxEntries);
      logs := LogsOf(logs, metrics);
    }

    method InitializeAuth(id: string, now: int)
      requires Valid()
      modifies this
      ensures Valid() && Step(old(Abs()), Initialize(id, now), Abs(), maxEntries)
      ensures id == "" ==> Abs() == old(Abs())
      ensures id != "" ==> Untouched(old(Abs()), Abs(), {id}) && opCount == old(opCount) && |metrics| <= maxEntries
      ensures id != "" && id in metrics ==> logs[id] == Log(now, [])
      ensures id != "" && |old(metrics).Keys + {id}| <= maxEntries ==> metrics.Keys == old(metrics).Keys + {id}
    {
      if id == "" {
        return;
      }
      metrics := metrics[id := Fresh(now)];
      logs := logs[id := Log(now, [])];
      ghost var before := Abs();
      assert metrics.Keys == old(metrics).Keys + {id};
      if |metrics| > maxEntries {
        CleanupOldEntries();
      } else {
        assert logs == LogsOf(before.logs, metrics);
      }
    }

    // The periodic cleanup, before every CLEANUP_INTERVAL-th recording.
    method CountOperation()
      requires Valid()
      modifies this
      ensures Valid() && Tidied(old(Abs()), Abs(), maxEntries)
      ensures Untouched(old(Abs()), Abs(), {})
      ensures old(opCount) % 100 != 0 || |old(metrics)| <= maxEntries ==> metrics == old(metrics) && logs == old(logs)
      ensures old(opCount) % 100 == 0 ==> |metrics| <= maxEntries
    {
      var op := opCount;
      opCount := opCount + 1;
      if op % CLEANUP_INTERVAL == 0 && |metrics| > maxEntries {
        CleanupOldEntries();
      } else {
        assert logs == LogsOf(logs, metrics);
      }
    }

    method RecordResult(id: string, success: bool, latencyMs: Latency, now: int)
      requires Valid()
      modifies this
      ensures Valid() && Step(old(Abs()), Record(id, Sample(success, latencyMs, now)), Abs(), maxEntries)
    {
      if id == "" {
        return;
      }
      CountOperation();
      ghost var base := Abs();

      var entry := if id in metrics then metrics[id] else Fresh(now);
      ghost var log := if id in logs then logs[id] else Log(now, []);
      entry := UpdateEntry(entry, success, latencyMs, now);
      metrics := metrics[id := entry];
      logs := logs[id := log.(samples := log.samples + [Sample(success, latencyMs, now)])];
      assert Abs() == WithSample(base, id, Sample(success, latencyMs, now));
      SampleKeepsFaithful(base, id, Sample(success, latencyMs, now));
    }

    method Reset(id: string, now: int)
      requires Valid()
      modifies this
      ensures Valid() && Step(old(Abs()), Op.Reset(id, now), Abs(), maxEntries)
      ensures id == "" ==> Abs() == old(Abs())
      ensures id != "" ==>
                Untouched(old(Abs()), Abs(), {id}) && metrics.Keys == old(metrics).Keys + {id} &&
                opCount == old(opCount) && logs[id] == Log(now, [])
    {
      if id == "" {
        return;
      }
      metrics := metrics[id := Fresh(now)];
      logs := logs[id := Log(now, [])];
    }

    method ResetAll()
      requires Valid()
      modifies this
      ensures Valid() && Step(old(Abs()), Op.ResetAll, Abs(), maxEntries)
    {
      metrics := map[];
      logs := map[];
    }
  }

  lemma CleanupKeepsFaithful(s: State, kept: map<string, AuthMetrics>, opCount: nat, maxEntries: nat)
    requires Faithful(s) && CleanedUp(s.metrics, kept, maxEntries)
    ensures Faithful(State(kept, opCount, LogsOf(s.logs, kept)))
  {
  }

  lemma ReplayOneMore(log: Log, x: Sample)
    ensures Replay(log.(samples := log.samples + [x])) == Recorded(Replay(log), x)
  {
    assert (log.samples + [x])[..|log.samples|] == log.samples;
  }

  lemma SampleKeepsFaithful(s: State, id: string, x: Sample)
    requires Faithful(s)
    ensures Faithful(WithSample(s, id, x))
  {
    ReplayOneMore(if id in s.logs then s.logs[id] else Log(x.at, []), x);
  }

  lemma TidyingKeepsFaithful(s: State, base: State, maxEntries: nat)
    requires Faithful(s) && Tidied(s, base, maxEntries)
    ensures Faithful(base)
  {
    if s.opCount % CLEANUP_INTERVAL == 0 {
      CleanupKeepsFaithful(s, base.metrics, base.opCount, maxEntries);
    } else {
      assert base.logs == s.logs;
    }
  }

  lemma InitializeKeepsFaithful(s: State, id: string, now: int, s': State, maxEntries: nat)
    requires id != "" && Faithful(s) && Step(s, Initialize(id, now), s', maxEntries)
    ensures Faithful(s')
  {
    assert Faithful(WithFresh(s, id, now));
    CleanupKeepsFaithful(WithFresh(s, id, now), s'.metrics, s'.opCount, maxEntries);
  }

  // Every entry is the replay of what was recorded for it since it was created.
  lemma StepKeepsFaithful(s: State, op: Op, s': State, maxEntries: nat)
    requires Faithful(s) && Step(s, op, s', maxEntries)
    ensures Faithful(s')
  {
    match op
    case Record(id, x) =>
      if id != "" {
        var base :| Tidied(s, base, maxEntries) && s' == WithSample(base, id, x);
        TidyingKeepsFaithful(s, base, maxEntries);
        SampleKeepsFaithful(base, id, x);
      }
    case Initialize(id, now) =>
      if id != "" { InitializeKeepsFaithful(s, id, now, s', maxEntries); }
    case _ =>
  }

  // What a replay says about its samples

  function CountOf(samples: seq<Sample>, success: bool): nat {
    if samples == [] then 0
    else CountOf(samples[..|samples| - 1], success) + if samples[|samples| - 1].success == success then 1 else 0
  }

  // How many samples at the end of the log have the same outcome.
  function Streak(samples: seq<Sample>, success: bool): nat {
    if samples == [] || samples[|samples| - 1].success != success then 0
    else 1 + Streak(samples[..|samples| - 1], success)
  }

  ghost predicate CountsAgree(m: AuthMetrics, samples: seq<Sample>) {
    m.totalRequests == |samples| == m.successCount + m.failureCount &&
    m.successCount == CountOf(samples, true) && m.failureCount == CountOf(samples, false) &&
    m.consecutiveSuccesses == Streak(samples, true) && m.consecutiveFailures == Streak(samples, false)
  }

  lemma CountsOneMore(m: AuthMetrics, samples: seq<Sample>, x: Sample)
    requires CountsAgree(m, samples)
    ensures CountsAgree(Recorded(m, x), samples + [x])
  {
    assert (samples + [x])[..|samples|] == samples;
  }

  lemma {:induction false} CountsAgreeWithLog(log: Log)
    ensures CountsAgree(Replay(log), log.samples)
    decreases |log.samples|
  {
    if log.samples != [] {
      var n := |log.samples| - 1;
      var front := log.(samples := log.samples[..n]);
      CountsAgreeWithLog(front);
      CountsOneMore(Replay(front), front.samples, log.samples[n]);
      assert log.samples == front.samples + [log.samples[n]];
    }
  }

  // One for each success, zero for each failure.
  function Flags(samples: seq<Sample>): (xs: seq<real>)
    ensures |xs| == |samples| && forall i | 0 <= i < |xs| :: xs[i] == if samples[i].success then 1.0 else 0.0
  {
    seq(|samples|, i requires 0 <= i < |samples| => if samples[i].success then 1.0 else 0.0)
  }

  lemma RateOneMore(m: AuthMetrics, samples: seq<Sample>, x: Sample)
    requires m.successRate == Smoothed([1.0] + Flags(samples), 0.3)
    ensures Recorded(m, x).successRate == Smoothed([1.0] + Flags(samples + [x]), 0.3)
  {
    var flag := if x.success then 1.0 else 0.0;
    SmoothedOneMore([1.0] + Flags(samples), flag, 0.3);
    assert [1.0] + Flags(samples + [x]) == [1.0] + Flags(samples) + [flag];
  }

  // The success rate in closed form: 0.7 to the number of samples, and of each success 0.3 times 0.7 to the number of
  // samples since. The error rate is the rest.
  lemma {:induction false} RatesAreSmoothed(log: Log)
    ensures var m, n := Replay(log), |log.samples|;
            m.successRate == Power(0.7, n) + Shares(Flags(log.samples), 0.3) && m.errorRate == 1.0 - m.successRate
    decreases |log.samples|
  {
    var start := [1.0] + Flags(log.samples);
    assert start[1..] == Flags(log.samples) && 1.0 - 0.3 == 0.7;
    RateIsSmoothed(log);
  }

  lemma {:induction false} RateIsSmoothed(log: Log)
    ensures var m := Replay(log);
            m.successRate == Smoothed([1.0] + Flags(log.samples), 0.3) && m.errorRate == 1.0 - m.successRate
    decreases |log.samples|
  {
    if log.samples == [] {
      assert [1.0] + Flags(log.samples) == [1.0] && [1.0][1..] == [];
    } else {
      var n := |log.samples| - 1;
      var front := log.(samples := log.samples[..n]);
      RateIsSmoothed(front);
      RateOneMore(Replay(front), front.samples, log.samples[n]);
      assert log.samples == front.samples + [log.samples[n]];
    }
  }

  lemma {:induction false} RatesFollowStreaks(log: Log)
    ensures var m := Replay(log);
            0.0 <= m.successRate <= 1.0 && m.errorRate == 1.0 - m.successRate &&
            m.successRate <= Power(0.7, Streak(log.samples, false)) &&
            m.errorRate <= Power(0.7, Streak(log.samples, true))
    decreases |log.samples|
  {
    if log.samples != [] { RatesFollowStreaks(log.(samples := log.samples[..|log.samples| - 1])); }
  }

  // The instants of the last request, success and failure.

  function LastAt(samples: seq<Sample>, success: bool): Option<int> {
    if samples == [] then None
    else if samples[|samples| - 1].success == success then Some(samples[|samples| - 1].at)
    else LastAt(samples[..|samples| - 1], success)
  }

  lemma {:induction false} InstantsAgreeWithLog(log: Log)
    ensures var m := Replay(log);
            m.lastRequestTime == (if log.samples == [] then log.born else log.samples[|log.samples| - 1].at) &&
            m.lastSuccessTime == LastAt(log.samples, true) && m.lastFailureTime == LastAt(log.samples, false)
    decreases |log.samples|
  {
    if log.samples != [] { InstantsAgreeWithLog(log.(samples := log.samples[..|log.samples| - 1])); }
  }

  function LatenciesOf(samples: seq<Sample>): (xs: seq<real>)
    ensures |xs| == |samples| && forall i | 0 <= i < |xs| :: xs[i] == samples[i].latencyMs
  {
    seq(|samples|, i requires 0 <= i < |samples| => samples[i].latencyMs)
  }

  lemma {:induction false} LatencySummaryIsExact(log: Log)
    ensures SummaryAgrees(Replay(log).Latencies(), LatenciesOf(log.samples), 0.3)
    decreases |log.samples|
  {
    if log.samples != [] {
      var n := |log.samples| - 1;
      var front, last := log.(samples := log.samples[..n]), log.samples[n];
      LatencySummaryIsExact(front);
      SummaryOneMore(Replay(front).Latencies(), LatenciesOf(front.samples), last.latencyMs, 0.3);
      assert LatenciesOf(log.samples) == LatenciesOf(front.samples) + [last.latencyMs];
    }
  }

  // The size of the map, over any run

  predicate SizeBounded(s: State, maxEntries: nat) {
    |s.metrics| <= maxEntries + if s.opCount == 0 then 0 else (s.opCount - 1) % 100 + 1
  }

  predicate KnownReset(s: State, op: Op) {
    op.Reset? ==> op.id == "" || op.id in s.metrics
  }

  lemma RecordKeepsSizeBounded(s: State, base: State, id: string, x: Sample, maxEntries: nat)
    requires SizeBounded(s, maxEntries) && Tidied(s, base, maxEntries)
    ensures SizeBounded(WithSample(base, id, x), maxEntries)
  {
    OneMoreKey(base.metrics, id, WithSample(base, id, x).metrics[id]);
  }

  lemma StepKeepsSizeBounded(s: State, op: Op, s': State, maxEntries: nat)
    requires SizeBounded(s, maxEntries) && Step(s, op, s', maxEntries) && KnownReset(s, op)
    ensures SizeBounded(s', maxEntries)
  {
    match op
    case Record(id, x) =>
      if id != "" {
        var base :| Tidied(s, base, maxEntries) && s' == WithSample(base, id, x);
        RecordKeepsSizeBounded(s, base, id, x, maxEntries);
      }
    case Reset(id, now) =>
      if id != "" {
        assert s'.metrics.Keys == s.metrics.Keys;
        assert |s'.metrics| == |s'.metrics.Keys| == |s.metrics.Keys| == |s.metrics|;
      }
    case _ =>
  }

  lemma OneMoreKey<V>(m: map<string, V>, k: string, v: V)
    ensures |m| <= |m[k := v]| <= |m| + 1
  {
    assert m[k := v].Keys == m.Keys + {k};
    if k in m { assert m[k := v].Keys == m.Keys; assert |m[k := v].Keys| == |m.Keys|; }
    else { assert |m.Keys + {k}| == |m.Keys| + 1; }
  }

  // A run of collector operations, with the states between them.
  ghost predicate IsRun(states: seq<State>, ops: seq<Op>, maxEntries: nat) {
    |states| == |ops| + 1 && states[0] == State(map[], 0, map[]) &&
    forall i | 0 <= i < |ops| :: Step(states[i], ops[i], states[i + 1], maxEntries)
  }

  ghost predicate ResetsKnownOnly(states: seq<State>, ops: seq<Op>)
    requires |states| == |ops| + 1
  {
    forall i | 0 <= i < |ops| :: KnownReset(states[i], ops[i])
  }

  lemma {:induction false} RunIsFaithful(states: seq<State>, ops: seq<Op>, maxEntries: nat, i: nat)
    requires IsRun(states, ops, maxEntries) && i < |states|
    ensures Faithful(states[i])
    decreases i
  {
    if i > 0 {
      RunIsFaithful(states, ops, maxEntries, i - 1);
      StepKeepsFaithful(states[i - 1], ops[i - 1], states[i], maxEntries);
    }
  }

  lemma {:induction false} RunIsBounded(states: seq<State>, ops: seq<Op>, maxEntries: nat, i: nat)
    requires IsRun(states, ops, maxEntries) && i < |states| && ResetsKnownOnly(states, ops)
    ensures SizeBounded(states[i], maxEntries) && |states[i].metrics| <= maxEntries + 100
    decreases i
  {
    if i > 0 {
      RunIsBounded(states, ops, maxEntries, i - 1);
      StepKeepsSizeBounded(states[i - 1], ops[i - 1], states[i], maxEntries);
    }
  }
}
