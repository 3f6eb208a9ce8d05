// Incremental trace metrics, and the grouping of the trace log they agree with.

module TraceAggregation {

  import opened Smoothing
  import opened Wrappers

  datatype TraceSpan = TraceSpan(
    provider: string,
    model: string,
    statusCode: Option<nat>,
    latencyMs: Option<nat>,
    inputTokens: Option<nat>,
    outputTokens: Option<nat>)
  {
    predicate IsSuccess() {
      statusCode.Some? && 200 <= statusCode.value < 300
    }
  }

  datatype ProviderMetrics = ProviderMetrics(
    totalRequests: nat, successfulRequests: nat, latencyCount: nat, avgLatencyMs: real, ewmaLatencyMs: real)

  datatype ModelMetrics = ModelMetrics(
    totalRequests: nat, successfulRequests: nat, latencyCount: nat, avgLatencyMs: real,
    totalInputTokens: nat, totalOutputTokens: nat)

  const NO_PROVIDER_METRICS: ProviderMetrics := ProviderMetrics(0, 0, 0, 0.0, 0.0)
  const NO_MODEL_METRICS: ModelMetrics := ModelMetrics(0, 0, 0, 0.0, 0, 0)
  const MAX_PROVIDERS: nat := 50
  const MAX_MODELS: nat := 200

  function CalculateEwma(previous: real, value: real, alpha: real): real {
    if previous == 0.0 then value else alpha * value + (1.0 - alpha) * previous
  }

  // The average of count values, from the average of all but the last and the last.
  function NextAverage(average: real, count: nat, latest: nat): real
    requires 0 < count
  {
    (average * (count - 1) as real + latest as real) / count as real
  }

  function ProviderStep(m: ProviderMetrics, t: TraceSpan): ProviderMetrics {
    var counted := m.(totalRequests := m.totalRequests + 1,
                      successfulRequests := m.successfulRequests + if t.IsSuccess() then 1 else 0);
    match t.latencyMs
    case None => counted
    case Some(latency) =>
      counted.(latencyCount := m.latencyCount + 1,
               avgLatencyMs := NextAverage(m.avgLatencyMs, m.latencyCount + 1, latency),
               ewmaLatencyMs := CalculateEwma(m.ewmaLatencyMs, latency as real, 0.1))
  }

  function ModelStep(m: ModelMetrics, t: TraceSpan): ModelMetrics {
    var counted := m.(totalRequests := m.totalRequests + 1,
                      successfulRequests := m.successfulRequests + if t.IsSuccess() then 1 else 0,
                      totalInputTokens := m.totalInputTokens + Tokens(t.inputTokens),
                      totalOutputTokens := m.totalOutputTokens + Tokens(t.outputTokens));
    match t.latencyMs
    case None => counted
    case Some(latency) =>
      counted.(latencyCount := m.latencyCount + 1,
               avgLatencyMs := NextAverage(m.avgLatencyMs, m.latencyCount + 1, latency))
  }

  function Tokens(tokens: Option<nat>): nat {
    if tokens.Some? then tokens.value else 0
  }

  // A bounded map of groups: a known key is always updated, a new one only while there is room.
  function Track<M>(groups: map<string, M>, key: string, t: TraceSpan, cap: nat, zero: M, step: (M, TraceSpan) -> M)
    : map<string, M>
  {
    if key in groups then groups[key := step(groups[key], t)]
    else if |groups| < cap then groups[key := step(zero, t)]
    else groups
  }

  datatype Snapshot = Snapshot(
    totalRequests: nat, successfulRequests: nat, failedRequests: nat, latencyCount: nat,
    avgLatencyMs: real, ewmaLatencyMs: real, successRate: real,
    providers: map<string, ProviderMetrics>, models: map<string, ModelMetrics>)

  const EMPTY: Snapshot := Snapshot(0, 0, 0, 0, 0.0, 0.0, 0.0, map[], map[])

  function NextOverall(s: Snapshot, t: TraceSpan): Snapshot {
    var total, successful := s.totalRequests + 1, s.successfulRequests + if t.IsSuccess() then 1 else 0;
    var counted := s.(totalRequests := total, successfulRequests := successful,
                      failedRequests := s.failedRequests + (if t.IsSuccess() then 0 else 1),
                      successRate := successful as real / total as real);
    match t.latencyMs
    case None => counted
    case Some(latency) =>
      counted.(latencyCount := s.latencyCount + 1,
               avgLatencyMs := NextAverage(s.avgLatencyMs, s.latencyCount + 1, latency),
               ewmaLatencyMs := CalculateEwma(s.ewmaLatencyMs, latency as real, 0.1))
  }

  function Next(s: Snapshot, t: TraceSpan): Snapshot {
    NextOverall(s, t).(providers := Track(s.providers, t.provider, t, MAX_PROVIDERS, NO_PROVIDER_METRICS, ProviderStep),
                       models := Track(s.models, t.model, t, MAX_MODELS, NO_MODEL_METRICS, ModelStep))
  }

  function Aggregated(traces: seq<TraceSpan>): Snapshot
    decreases |traces|
  {
    if traces == [] then EMPTY else Next(Aggregated(traces[..|traces| - 1]), traces[|traces| - 1])
  }

  class TraceMetrics {
    var totalRequests: nat
    var successfulRequests: nat
    var failedRequests: nat
    var latencyCount: nat
    var avgLatencyMs: real
    var ewmaLatencyMs: real
    var successRate: real
    var providerMetrics: map<string, ProviderMetrics>
    var modelMetrics: map<string, ModelMetrics>

    function Abs(): Snapshot
      reads this
    {
      Snapshot(totalRequests, successfulRequests, failedRequests, latencyCount, avgLatencyMs, ewmaLatencyMs,
               successRate, providerMetrics, modelMetrics)
    }

    constructor ()
      ensures Abs() == EMPTY
    {
      totalRequests, successfulRequests, failedRequests, latencyCount := 0, 0, 0, 0;
      avgLatencyMs, ewmaLatencyMs, successRate := 0.0, 0.0, 0.0;
      providerMetrics, modelMetrics := map[], map[];
    }

    method Update(trace: TraceSpan)
      modifies this
      ensures Abs() == Next(old(Abs()), trace)
    {
      UpdateOverall(trace);
      UpdateGroups(trace);
    }

    // The part of an update that goes to the overall figures.
    method UpdateOverall(trace: TraceSpan)
      modifies this
      ensures Abs() == NextOverall(old(Abs()), trace)
    {
      totalRequests := totalRequests + 1;
      if trace.IsSuccess() {
        successfulRequests := successfulRequests + 1;
      } else {
        failedRequests := failedRequests + 1;
      }
      if trace.latencyMs.Some? {
        var latency := trace.latencyMs.value;
        latencyCount := latencyCount + 1;
        avgLatencyMs := NextAverage(avgLatencyMs, latencyCount, latency);
        ewmaLatencyMs := CalculateEwma(ewmaLatencyMs, latency as real, 0.1);
      }
      successRate := successfulRequests as real / totalRequests as real;
    }

    // The part of an update that goes to the trace's own provider and model.
    method UpdateGroups(trace: TraceSpan)
      modifies this`providerMetrics, this`modelMetrics
      ensures providerMetrics ==
              Track(old(providerMetrics), trace.provider, trace, MAX_PROVIDERS, NO_PROVIDER_METRICS, ProviderStep)
      ensures modelMetrics == Track(old(modelMetrics), trace.model, trace, MAX_MODELS, NO_MODEL_METRICS, ModelStep)
    {
      if trace.provider in providerMetrics {
        var updated := UpdateProvider(providerMetrics[trace.provider], trace);
        providerMetrics := providerMetrics[trace.provider := updated];
      } else if |providerMetrics| < MAX_PROVIDERS {
        var first := UpdateProvider(NO_PROVIDER_METRICS, trace);
        providerMetrics := providerMetrics[trace.provider := first];
      }
      if trace.model in modelMetrics {
        var updated := UpdateModel(modelMetrics[trace.model], trace);
        modelMetrics := modelMetrics[trace.model := updated];
      } else if |modelMetrics| < MAX_MODELS {
        var first := UpdateModel(NO_MODEL_METRICS, trace);
        modelMetrics := modelMetrics[trace.model := first];
      }
    }
  }

  method UpdateProvider(m: ProviderMetrics, trace: TraceSpan) returns (r: ProviderMetrics)
    ensures r == ProviderStep(m, trace)
  {
    r := m.(totalRequests := m.totalRequests + 1);
    if trace.IsSuccess() {
      r := r.(successfulRequests := r.successfulRequests + 1);
    }
    if trace.latencyMs.Some? {
      r := r.(latencyCount := r.latencyCount + 1);
      r := r.(avgLatencyMs := NextAverage(r.avgLatencyMs, r.latencyCount, trace.latencyMs.value));
      r := r.(ewmaLatencyMs := CalculateEwma(r.ewmaLatencyMs, trace.latencyMs.value as real, 0.1));
    }
  }

  method UpdateModel(m: ModelMetrics, trace: TraceSpan) returns (r: ModelMetrics)
    ensures r == ModelStep(m, trace)
  {
    r := m.(totalRequests := m.totalRequests + 1);
    if trace.IsSuccess() {
      r := r.(successfulRequests := r.successfulRequests + 1);
    }
    if trace.latencyMs.Some? {
      r := r.(latencyCount := r.latencyCount + 1);
      r := r.(avgLatencyMs := NextAverage(r.avgLatencyMs, r.latencyCount, trace.latencyMs.value));
    }
    if trace.inputTokens.Some? {
      r := r.(totalInputTokens := r.totalInputTokens + trace.inputTokens.value);
    }
    if trace.outputTokens.Some? {
      r := r.(totalOutputTokens := r.totalOutputTokens + trace.outputTokens.value);
    }
  }

  method Aggregate(traces: seq<TraceSpan>) returns (metrics: TraceMetrics)
    ensures fresh(metrics) && metrics.Abs() == Aggregated(traces)
  {
    metrics := new TraceMetrics();
    for i := 0 to |traces|
      invariant fresh(metrics) && metrics.Abs() == Aggregated(traces[..i])
    {
      assert traces[..i + 1][..i] == traces[..i];
      metrics.Update(traces[i]);
    }
    assert traces[..|traces|] == traces;
  }

  // The log, summarised directly

  predicate Succeeded(t: TraceSpan) {
    match t.statusCode
    case Some(status) => 200 <= status <= 299
    case None => false
  }

  function CountSuccesses(traces: seq<TraceSpan>): nat {
    if traces == [] then 0
    else CountSuccesses(traces[..|traces| - 1]) + if Succeeded(traces[|traces| - 1]) then 1 else 0
  }

  function Latencies(traces: seq<TraceSpan>): seq<nat> {
    if traces == [] then []
    else
      var last := traces[|traces| - 1].latencyMs;
      Latencies(traces[..|traces| - 1]) + if last.Some? then [last.value] else []
  }

  function Sum(xs: seq<nat>): nat {
    if xs == [] then 0 else Sum(xs[..|xs| - 1]) + xs[|xs| - 1]
  }

  function Mean(xs: seq<nat>): real {
    if xs == [] then 0.0 else Sum(xs) as real / |xs| as real
  }

  function Ewma(xs: seq<nat>): real {
    if xs == [] then 0.0 else CalculateEwma(Ewma(xs[..|xs| - 1]), xs[|xs| - 1] as real, 0.1)
  }

  function InputTokens(traces: seq<TraceSpan>): nat {
    if traces == [] then 0
    else InputTokens(traces[..|traces| - 1]) + match traces[|traces| - 1].inputTokens case Some(n) => n case None => 0
  }

  function OutputTokens(traces: seq<TraceSpan>): nat {
    if traces == [] then 0
    else OutputTokens(traces[..|traces| - 1]) + match traces[|traces| - 1].outputTokens case Some(n) => n case None => 0
  }

  function ProviderSummary(traces: seq<TraceSpan>): ProviderMetrics {
    ProviderMetrics(|traces|, CountSuccesses(traces), |Latencies(traces)|, Mean(Latencies(traces)),
                    Ewma(Latencies(traces)))
  }

  function ModelSummary(traces: seq<TraceSpan>): ModelMetrics {
    ModelMetrics(|traces|, CountSuccesses(traces), |Latencies(traces)|, Mean(Latencies(traces)),
                 InputTokens(traces), OutputTokens(traces))
  }

  function Group(traces: seq<TraceSpan>, keyOf: TraceSpan -> string, key: string): seq<TraceSpan> {
    if traces == [] then []
    else
      var last := traces[|traces| - 1];
      Group(traces[..|traces| - 1], keyOf, key) + if keyOf(last) == key then [last] else []
  }

  // The distinct keys of the log, in order of first appearance.
  function KeysInOrder(traces: seq<TraceSpan>, keyOf: TraceSpan -> string): seq<string> {
    if traces == [] then []
    else
      var keys, key := KeysInOrder(traces[..|traces| - 1], keyOf), keyOf(traces[|traces| - 1]);
      if key in keys then keys else keys + [key]
  }

  function FirstKeys(traces: seq<TraceSpan>, keyOf: TraceSpan -> string, cap: nat): seq<string> {
    var keys := KeysInOrder(traces, keyOf);
    if |keys| <= cap then keys else keys[..cap]
  }

  // The incremental mean is the exact mean.
  lemma NextAverageIsMean(xs: seq<nat>, latest: nat)
    ensures NextAverage(Mean(xs), |xs| + 1, latest) == Mean(xs + [latest])
  {
    assert (xs + [latest])[..|xs|] == xs;
    if xs != [] {
      assert Mean(xs) * |xs| as real == Sum(xs) as real;
    }
  }

  lemma EwmaOneMore(xs: seq<nat>, latest: nat)
    ensures Ewma(xs + [latest]) == CalculateEwma(Ewma(xs), latest as real, 0.1)
  {
    assert (xs + [latest])[..|xs|] == xs;
  }

  // The values from the first that is not zero.
  function FromFirstPositive(xs: seq<nat>): (ys: seq<real>)
    ensures ys != [] ==> 0.0 < ys[0]
  {
    if xs == [] then []
    else
      var front, last := FromFirstPositive(xs[..|xs| - 1]), xs[|xs| - 1];
      if front == [] && last == 0 then [] else front + [last as real]
  }

  lemma {:induction false} FromFirstPositiveIff(xs: seq<nat>)
    ensures FromFirstPositive(xs) == [] <==> forall i | 0 <= i < |xs| :: xs[i] == 0
    decreases |xs|
  {
    if xs != [] {
      var front := xs[..|xs| - 1];
      FromFirstPositiveIff(front);
      assert forall i | 0 <= i < |front| :: xs[i] == front[i];
    }
  }

  // In closed form: zeros are passed over until another value is seen, and from then on the average moves a tenth of
  // the way to each value.
  lemma {:induction false} EwmaIsSmoothed(xs: seq<nat>)
    ensures Ewma(xs) == Smoothed(FromFirstPositive(xs), 0.1)
    decreases |xs|
  {
    if xs != [] {
      var front, last := xs[..|xs| - 1], xs[|xs| - 1];
      EwmaIsSmoothed(front);
      FromFirstPositiveIff(front);
      if front != [] { EwmaIsBetween(front, 0, Greatest(front)); }
      SmoothedOneMore(FromFirstPositive(front), last as real, 0.1);
    }
  }

  function Greatest(xs: seq<nat>): (m: nat)
    ensures forall i | 0 <= i < |xs| :: xs[i] <= m
  {
    if xs == [] then 0
    else
      var m, last := Greatest(xs[..|xs| - 1]), xs[|xs| - 1];
      if m < last then last else m
  }

  // There are values, and all of them lie within these bounds.
  predicate Within(xs: seq<nat>, lo: nat, hi: nat) {
    xs != [] && forall i | 0 <= i < |xs| :: lo <= xs[i] <= hi
  }

  // Smoothing stays within any bounds on what it smooths, and is zero exactly while nothing else was seen.
  lemma {:induction false} EwmaIsBetween(xs: seq<nat>, lo: nat, hi: nat)
    requires Within(xs, lo, hi)
    ensures lo as real <= Ewma(xs) <= hi as real
    ensures Ewma(xs) == 0.0 <==> forall i | 0 <= i < |xs| :: xs[i] == 0
    decreases |xs|
  {
    var front := xs[..|xs| - 1];
    if front != [] {
      EwmaIsBetween(front, lo, hi);
      assert forall i | 0 <= i < |front| :: xs[i] == front[i];
    }
  }

  lemma LogOneMore(traces: seq<TraceSpan>, t: TraceSpan)
    ensures CountSuccesses(traces + [t]) == CountSuccesses(traces) + if t.IsSuccess() then 1 else 0
    ensures Latencies(traces + [t]) ==
            if t.latencyMs.Some? then Latencies(traces) + [t.latencyMs.value] else Latencies(traces)
    ensures InputTokens(traces + [t]) == InputTokens(traces) + Tokens(t.inputTokens)
    ensures OutputTokens(traces + [t]) == OutputTokens(traces) + Tokens(t.outputTokens)
    ensures t.latencyMs.Some? ==>
              var before, after, latest := Latencies(traces), Latencies(traces + [t]), t.latencyMs.value;
              NextAverage(Mean(before), |before| + 1, latest) == Mean(after) &&
              CalculateEwma(Ewma(before), latest as real, 0.1) == Ewma(after)
  {
    assert (traces + [t])[..|traces|] == traces;
    if t.latencyMs.Some? {
      NextAverageIsMean(Latencies(traces), t.latencyMs.value);
      EwmaOneMore(Latencies(traces), t.latencyMs.value);
    }
  }

  lemma ProviderStepIsSummary(traces: seq<TraceSpan>, t: TraceSpan)
    ensures ProviderStep(ProviderSummary(traces), t) == ProviderSummary(traces + [t])
  {
    LogOneMore(traces, t);
  }

  lemma ModelStepIsSummary(traces: seq<TraceSpan>, t: TraceSpan)
    ensures ModelStep(ModelSummary(traces), t) == ModelSummary(traces + [t])
  {
    LogOneMore(traces, t);
  }

  // The bounded map after a whole log.
  function Tracked<M>(traces: seq<TraceSpan>, keyOf: TraceSpan -> string, cap: nat, zero: M, step: (M, TraceSpan) -> M)
    : map<string, M>
    decreases |traces|
  {
    if traces == [] then map[]
    else
      var last := traces[|traces| - 1];
      Track(Tracked(traces[..|traces| - 1], keyOf, cap, zero, step), keyOf(last), last, cap, zero, step)
  }

  // Each tracked group has seen exactly its own sub-log, and the groups are the first ones to appear.
  ghost predicate IsGrouping<M>(groups: map<string, M>, traces: seq<TraceSpan>, keyOf: TraceSpan -> string, cap: nat,
                                summary: seq<TraceSpan> -> M)
  {
    groups.Keys == (set k | k in FirstKeys(traces, keyOf, cap)) && |groups| == |FirstKeys(traces, keyOf, cap)| &&
    forall k | k in groups :: groups[k] == summary(Group(traces, keyOf, k))
  }

  lemma {:induction false} NewKeyHasEmptyGroup(traces: seq<TraceSpan>, keyOf: TraceSpan -> string, key: string)
    requires key !in KeysInOrder(traces, keyOf)
    ensures Group(traces, keyOf, key) == []
    decreases |traces|
  {
    if traces != [] { NewKeyHasEmptyGroup(traces[..|traces| - 1], keyOf, key); }
  }

  lemma FirstKeysOneMore(traces: seq<TraceSpan>, keyOf: TraceSpan -> string, cap: nat)
    requires traces != []
    ensures var known, key := FirstKeys(traces[..|traces| - 1], keyOf, cap), keyOf(traces[|traces| - 1]);
            FirstKeys(traces, keyOf, cap) == if key in known || |known| >= cap then known else known + [key]
  {
  }

  lemma {:induction false} TrackedIsGrouping<M>(traces: seq<TraceSpan>, keyOf: TraceSpan -> string, cap: nat, zero: M,
                                                step: (M, TraceSpan) -> M, summary: seq<TraceSpan> -> M)
    requires summary([]) == zero
    requires forall log, t :: step(summary(log), t) == summary(log + [t])
    ensures IsGrouping(Tracked(traces, keyOf, cap, zero, step), traces, keyOf, cap, summary)
    decreases |traces|
  {
    if traces != [] {
      TrackedIsGrouping(traces[..|traces| - 1], keyOf, cap, zero, step, summary);
      TrackOneMore(traces, keyOf, cap, zero, step, summary, Tracked(traces[..|traces| - 1], keyOf, cap, zero, step));
    }
  }

  lemma TrackOneMore<M>(traces: seq<TraceSpan>, keyOf: TraceSpan -> string, cap: nat, zero: M,
                        step: (M, TraceSpan) -> M, summary: seq<TraceSpan> -> M, before: map<string, M>)
    requires traces != [] && IsGrouping(before, traces[..|traces| - 1], keyOf, cap, summary)
    requires summary([]) == zero
    requires forall log, t :: step(summary(log), t) == summary(log + [t])
    ensures var last := traces[|traces| - 1];
            IsGrouping(Track(before, keyOf(last), last, cap, zero, step), traces, keyOf, cap, summary)
  {
    var front, last := traces[..|traces| - 1], traces[|traces| - 1];
    var key := keyOf(last);
    var after := Track(before, key, last, cap, zero, step);
    FirstKeysOneMore(traces, keyOf, cap);
    forall k | k in after ensures after[k] == summary(Group(traces, keyOf, k)) {
      if k == key {
        if key !in before { NewKeyHasEmptyGroup(front, keyOf, key); }
        assert step(summary(Group(front, keyOf, key)), last) == summary(Group(front, keyOf, key) + [last]);
      } else {
        assert Group(traces, keyOf, k) == Group(front, keyOf, k);
      }
    }
    if key !in before && |before| < cap { assert after.Keys == before.Keys + {key}; }
    if key in before { assert after.Keys == before.Keys; assert |after.Keys| == |before.Keys|; }
  }

  function SuccessRate(traces: seq<TraceSpan>): real {
    if traces == [] then 0.0 else CountSuccesses(traces) as real / |traces| as real
  }

  ghost predicate IsSummary(s: Snapshot, traces: seq<TraceSpan>) {
    s.totalRequests == |traces| == s.successfulRequests + s.failedRequests &&
    s.successfulRequests == CountSuccesses(traces) && s.successRate == SuccessRate(traces) &&
    s.latencyCount == |Latencies(traces)| && s.avgLatencyMs == Mean(Latencies(traces)) &&
    s.ewmaLatencyMs == Ewma(Latencies(traces))
  }

  lemma NextIsSummary(s: Snapshot, traces: seq<TraceSpan>, t: TraceSpan)
    requires IsSummary(s, traces)
    ensures IsSummary(Next(s, t), traces + [t])
  {
    LogOneMore(traces, t);
  }

  // The overall figures are the direct summary of the log.
  lemma {:induction false} AggregateIsSummary(traces: seq<TraceSpan>)
    ensures IsSummary(Aggregated(traces), traces)
    decreases |traces|
  {
    if traces != [] {
      var front, last := traces[..|traces| - 1], traces[|traces| - 1];
      AggregateIsSummary(front);
      NextIsSummary(Aggregated(front), front, last);
      assert traces == front + [last];
    }
  }

  function ProviderOf(t: TraceSpan): string { t.provider }

  function ModelOf(t: TraceSpan): string { t.model }

  lemma {:induction false} AggregateTracks(traces: seq<TraceSpan>)
    ensures Aggregated(traces).providers ==
            Tracked(traces, ProviderOf, MAX_PROVIDERS, NO_PROVIDER_METRICS, ProviderStep)
    ensures Aggregated(traces).models == Tracked(traces, ModelOf, MAX_MODELS, NO_MODEL_METRICS, ModelStep)
    decreases |traces|
  {
    if traces != [] { AggregateTracks(traces[..|traces| - 1]); }
  }

  lemma AggregateIsGrouped(traces: seq<TraceSpan>)
    ensures IsGrouping(Aggregated(traces).providers, traces, ProviderOf, 50, ProviderSummary)
    ensures IsGrouping(Aggregated(traces).models, traces, ModelOf, 200, ModelSummary)
  {
    AggregateTracks(traces);
    forall log, t ensures ProviderStep(ProviderSummary(log), t) == ProviderSummary(log + [t]) {
      ProviderStepIsSummary(log, t);
    }
    forall log, t ensures ModelStep(ModelSummary(log), t) == ModelSummary(log + [t]) {
      ModelStepIsSummary(log, t);
    }
    TrackedIsGrouping(traces, ProviderOf, MAX_PROVIDERS, NO_PROVIDER_METRICS, ProviderStep, ProviderSummary);
    TrackedIsGrouping(traces, ModelOf, MAX_MODELS, NO_MODEL_METRICS, ModelStep, ModelSummary);
  }

  // The smoothed latency, overall and of each tracked provider, lies within any bounds on the latencies it smooths.
  lemma EwmaLatencyIsBetween(traces: seq<TraceSpan>, lo: nat, hi: nat)
    ensures Within(Latencies(traces), lo, hi) ==> lo as real <= Aggregated(traces).ewmaLatencyMs <= hi as real
    ensures forall k | k in Aggregated(traces).providers && Within(Latencies(Group(traces, ProviderOf, k)), lo, hi) ::
              lo as real <= Aggregated(traces).providers[k].ewmaLatencyMs <= hi as real
  {
    AggregateIsSummary(traces);
    AggregateIsGrouped(traces);
    if Within(Latencies(traces), lo, hi) { EwmaIsBetween(Latencies(traces), lo, hi); }
    forall k | k in Aggregated(traces).providers && Within(Latencies(Group(traces, ProviderOf, k)), lo, hi)
      ensures lo as real <= Aggregated(traces).providers[k].ewmaLatencyMs <= hi as real
    {
      EwmaIsBetween(Latencies(Group(traces, ProviderOf, k)), lo, hi);
    }
  }

  // And it is their exponential smoothing by a tenth.
  lemma EwmaLatencyIsSmoothed(traces: seq<TraceSpan>)
    ensures Aggregated(traces).ewmaLatencyMs == Smoothed(FromFirstPositive(Latencies(traces)), 0.1)
    ensures forall k | k in Aggregated(traces).providers ::
              Aggregated(traces).providers[k].ewmaLatencyMs ==
              Smoothed(FromFirstPositive(Latencies(Group(traces, ProviderOf, k))), 0.1)
  {
    AggregateIsSummary(traces);
    AggregateIsGrouped(traces);
    EwmaIsSmoothed(Latencies(traces));
    forall k | k in Aggregated(traces).providers
      ensures Aggregated(traces).providers[k].ewmaLatencyMs ==
              Smoothed(FromFirstPositive(Latencies(Group(traces, ProviderOf, k))), 0.1)
    {
      EwmaIsSmoothed(Latencies(Group(traces, ProviderOf, k)));
    }
  }
}
