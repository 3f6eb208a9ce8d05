// Route execution with retries and fallbacks, against a declarative account of which routes are tried.

module RouteExecution {

  import opened Wrappers
  import opened Doubles
  import opened CredentialMetrics

  datatype RoutePlanItem = RoutePlanItem(
    credentialId: string, modelId: string, provider: string, utility: real, weight: real)

  datatype FallbackRoute = FallbackRoute(authId: string, position: nat, weight: real, provider: Option<string>)

  datatype ExecutorConfig = ExecutorConfig(
    maxRetries: nat, timeoutMs: nat, enableProviderDiversity: bool, retryableStatusCodes: set<int>)

  predicate ServerError(status: int) {
    500 <= status < 600
  }

  function DefaultConfig(): ExecutorConfig {
    ExecutorConfig(3, 30_000, true, {429} + set code | 500 <= code < 600 && ServerError(code))
  }

  // What calling a route yields. The caller's function may keep state, so it also sees the attempt number.
  datatype Reply = Http(status: int, latencyMs: Latency) | NetworkError(message: string)

  type Caller = (nat, RoutePlanItem) -> Reply

  datatype ExecutionError =
    | UnexpectedRedirect(status: int)
    | HttpError(status: int)
    | Network(message: string)
    | NoRoutesAvailable
    | RetryBudgetExhausted

  datatype AttemptResult =
    | Success(status: int, latencyMs: Latency)
    | RetryableError(status: int, latencyMs: Latency, error: ExecutionError)

  datatype ExecutionResult = ExecutionResult(
    success: bool,
    credentialId: Option<string>,
    modelId: Option<string>,
    attempts: nat,
    totalLatencyMs: real,
    statusCode: Option<int>,
    error: Option<ExecutionError>,
    promptTokens: Option<nat>,
    completionTokens: Option<nat>)

  function AttemptRoute(reply: Reply): AttemptResult {
    MaxDoubleIsPositive();
    match reply
    case Http(status, latency) =>
      if 200 <= status < 300 then Success(status, latency)
      else if 300 <= status < 400 then RetryableError(status, latency, UnexpectedRedirect(status))
      else RetryableError(status, latency, HttpError(status))
    case NetworkError(message) => RetryableError(0, 0.0, Network(message))
  }

  predicate IsRetryable(config: ExecutorConfig, status: int) {
    if 200 <= status < 300 then false
    else if 401 <= status < 404 then false
    else status in config.retryableStatusCodes
  }

  // Which routes are tried, declaratively

  // A route that may be tried. The primary has no provider that could block it.
  datatype Candidate = Candidate(item: RoutePlanItem, guard: Option<string>)

  function FallbackItem(primary: Option<RoutePlanItem>, f: FallbackRoute): RoutePlanItem {
    RoutePlanItem(f.authId, if primary.Some? then primary.value.modelId else "",
                  if f.provider.Some? then f.provider.value else "", f.weight, f.weight)
  }

  function FallbackCandidates(primary: Option<RoutePlanItem>, fallbacks: seq<FallbackRoute>): seq<Candidate> {
    seq(|fallbacks|, i requires 0 <= i < |fallbacks| =>
      Candidate(FallbackItem(primary, fallbacks[i]), fallbacks[i].provider))
  }

  function Candidates(primary: Option<RoutePlanItem>, fallbacks: seq<FallbackRoute>): seq<Candidate> {
    (if primary.Some? then [Candidate(primary.value, None)] else []) + FallbackCandidates(primary, fallbacks)
  }

  // Having tried one route rules out another: same credential, or, with diversity on, the other names its provider.
  predicate Conflicts(tried: RoutePlanItem, c: Candidate, diversity: bool) {
    tried.credentialId == c.item.credentialId || (diversity && c.guard == Some(tried.provider))
  }

  predicate Compatible(cands: seq<Candidate>, picks: seq<bool>, j: nat, diversity: bool)
    requires j < |cands| == |picks|
  {
    forall i | 0 <= i < j && picks[i] :: !Conflicts(cands[i].item, cands[j], diversity)
  }

  // The greedy choice: a candidate is picked exactly when no earlier pick conflicts with it.
  ghost predicate Greedy(cands: seq<Candidate>, picks: seq<bool>, diversity: bool) {
    |picks| == |cands| && forall j | 0 <= j < |cands| :: picks[j] <==> Compatible(cands, picks, j, diversity)
  }

  function Picked(cands: seq<Candidate>, picks: seq<bool>): seq<RoutePlanItem>
    requires |picks| == |cands|
    decreases |cands|
  {
    if cands == [] then []
    else
      var n := |cands| - 1;
      Picked(cands[..n], picks[..n]) + if picks[n] then [cands[n].item] else []
  }

  // The reply to the n-th attempt ends the execution: a success, or a failure that may not be retried.
  predicate Final(config: ExecutorConfig, reply: Reply) {
    !IsRetryable(config, AttemptRoute(reply).status)
  }

  // The last of the routes tried ended the execution.
  predicate Ended(tried: seq<RoutePlanItem>, config: ExecutorConfig, call: Caller) {
    tried != [] && Final(config, call(|tried| - 1, tried[|tried| - 1]))
  }

  // Trying stopped neither too early nor too late, when n routes could be tried.
  ghost predicate StoppedRight(tried: seq<RoutePlanItem>, n: nat, config: ExecutorConfig, call: Caller) {
    |tried| <= config.maxRetries + 1 &&
    (forall i | 0 <= i < |tried| - 1 :: !Final(config, call(i, tried[i]))) &&
    (|tried| == n || |tried| == config.maxRetries + 1 || Ended(tried, config, call))
  }

  // tried is the longest prefix of the greedy choice within the budget in which only the last reply is final.
  ghost predicate Tries(eligible: seq<RoutePlanItem>, tried: seq<RoutePlanItem>, config: ExecutorConfig, call: Caller) {
    tried <= eligible && StoppedRight(tried, |eligible|, config, call)
  }

  function TotalLatency(tried: seq<RoutePlanItem>, call: Caller): real
    decreases |tried|
  {
    if tried == [] then 0.0
    else
      var n := |tried| - 1;
      TotalLatency(tried[..n], call) + AttemptRoute(call(n, tried[n])).latencyMs
  }

  // What is reported, given the routes that were tried.
  function Report(primary: Option<RoutePlanItem>, fallbacks: seq<FallbackRoute>, tried: seq<RoutePlanItem>,
                  config: ExecutorConfig, call: Caller): ExecutionResult
  {
    var n := |tried|;
    if Ended(tried, config, call) then
      var last := AttemptRoute(call(n - 1, tried[n - 1]));
      ExecutionResult(last.Success?, Some(tried[n - 1].credentialId), Some(tried[n - 1].modelId), n,
                      TotalLatency(tried, call), Some(last.status),
                      if last.Success? then None else Some(last.error), None, None)
    else
      ExecutionResult(false, None, None, n, TotalLatency(tried, call), None,
                      Some(if primary.None? && fallbacks == [] then NoRoutesAvailable else RetryBudgetExhausted),
                      None, None)
  }

  // What replies say, in terms of HTTP status codes

  // What an attempt must yield for a reply: success for 200 to 299 and no other; the error names what went wrong.
  predicate Interprets(attempt: AttemptResult, reply: Reply) {
    (attempt.Success? <==> reply.Http? && 200 <= reply.status < 300) &&
    (reply.Http? ==> attempt.status == reply.status && attempt.latencyMs == reply.latencyMs) &&
    (reply.NetworkError? ==>
       attempt.status == 0 && attempt.latencyMs == 0.0 && attempt.error == Network(reply.message)) &&
    (reply.Http? && 300 <= reply.status < 400 ==> attempt.error == UnexpectedRedirect(reply.status)) &&
    (reply.Http? && (reply.status < 200 || reply.status >= 400) ==> attempt.error == HttpError(reply.status))
  }

  lemma AttemptInterprets(reply: Reply)
    ensures Interprets(AttemptRoute(reply), reply)
  {
  }

  // A reply ends the execution if it is a success, refuses the credential (401 to 403), or has a status that is not
  // configured as retryable, where a network error has status 0.
  lemma FinalIff(config: ExecutorConfig, reply: Reply)
    ensures reply.Http? ==>
              (Final(config, reply) <==> 200 <= reply.status < 300 || 401 <= reply.status <= 403 ||
                                         reply.status !in config.retryableStatusCodes)
    ensures reply.NetworkError? ==> (Final(config, reply) <==> 0 !in config.retryableStatusCodes)
  {
  }

  // By default that leaves 429 and 500 to 599, and three retries.
  lemma DefaultRetries(reply: Reply)
    ensures DefaultConfig().maxRetries == 3
    ensures !Final(DefaultConfig(), reply) <==> reply.Http? && (reply.status == 429 || 500 <= reply.status < 600)
  {
  }

  // The latencies of all replies, network errors counting nothing.
  function Latencies(tried: seq<RoutePlanItem>, call: Caller): real
    decreases |tried|
  {
    if tried == [] then 0.0
    else
      var n := |tried| - 1;
      Latencies(tried[..n], call) + match call(n, tried[n]) case Http(_, latency) => latency case NetworkError(_) => 0.0
  }

  lemma {:induction false} TotalIsLatencies(tried: seq<RoutePlanItem>, call: Caller)
    ensures TotalLatency(tried, call) == Latencies(tried, call)
    decreases |tried|
  {
    if tried != [] {
      TotalIsLatencies(tried[..|tried| - 1], call);
      AttemptInterprets(call(|tried| - 1, tried[|tried| - 1]));
    }
  }

  // The result, read off the replies: it is a success exactly if the last reply was one of 200 to 299. The route of the
  // last reply is named if that reply ended the execution, and its error is given unless it was a success.
  predicate ReportsReplies(result: ExecutionResult, primary: Option<RoutePlanItem>, fallbacks: seq<FallbackRoute>,
                           tried: seq<RoutePlanItem>, config: ExecutorConfig, call: Caller) {
    var n := |tried|;
    result.attempts == n && result.totalLatencyMs == Latencies(tried, call) &&
    (result.success <==> tried != [] && var reply := call(n - 1, tried[n - 1]);
                         reply.Http? && 200 <= reply.status < 300) &&
    (result.success <==> result.error.None?) &&
    (if Ended(tried, config, call) then
       result.credentialId == Some(tried[n - 1].credentialId) && result.modelId == Some(tried[n - 1].modelId) &&
       match call(n - 1, tried[n - 1])
       case Http(status, _) =>
         result.statusCode == Some(status) &&
         (300 <= status < 400 ==> result.error == Some(UnexpectedRedirect(status))) &&
         (status < 200 || status >= 400 ==> result.error == Some(HttpError(status)))
       case NetworkError(message) => result.statusCode == Some(0) && result.error == Some(Network(message))
     else
       result.credentialId.None? && result.modelId.None? && result.statusCode.None? &&
       result.error == Some(if primary.None? && fallbacks == [] then NoRoutesAvailable else RetryBudgetExhausted))
  }

  lemma ReportIsOfReplies(primary: Option<RoutePlanItem>, fallbacks: seq<FallbackRoute>, tried: seq<RoutePlanItem>,
                          config: ExecutorConfig, call: Caller)
    ensures ReportsReplies(Report(primary, fallbacks, tried, config, call), primary, fallbacks, tried, config, call)
  {
    TotalIsLatencies(tried, call);
    if tried != [] {
      AttemptInterprets(call(|tried| - 1, tried[|tried| - 1]));
      FinalIff(config, call(|tried| - 1, tried[|tried| - 1]));
    }
  }

  // What the collector and the health manager are told of the i-th route tried.
  lemma RecordedAreReplies(tried: seq<RoutePlanItem>, call: Caller, clock: nat -> int, i: nat)
    requires i < |tried|
    ensures var reply, id := call(i, tried[i]), tried[i].credentialId;
            var ok := reply.Http? && 200 <= reply.status < 300;
            var latency: Latency := AttemptRoute(reply).latencyMs;
            RecordsOf(tried, call, clock)[i] == Record(id, Sample(ok, latency, clock(i))) &&
            HealthUpdatesOf(tried, call)[i] == HealthUpdate(id, ok, if reply.Http? then reply.status else 0) &&
            latency == if reply.Http? then reply.latencyMs else 0.0
  {
    AttemptInterprets(call(i, tried[i]));
  }

  function RecordOf(tried: seq<RoutePlanItem>, call: Caller, clock: nat -> int, i: nat): Op
    requires i < |tried|
  {
    var attempt := AttemptRoute(call(i, tried[i]));
    Record(tried[i].credentialId, Sample(attempt.Success?, attempt.latencyMs, clock(i)))
  }

  function RecordsOf(tried: seq<RoutePlanItem>, call: Caller, clock: nat -> int): seq<Op> {
    seq(|tried|, i requires 0 <= i < |tried| => RecordOf(tried, call, clock, i))
  }

  // The collector went from s to s' by these operations, in order.
  ghost predicate Performed(s: State, ops: seq<Op>, s': State, maxEntries: nat)
    decreases |ops|
  {
    if ops == [] then s' == s
    else exists mid :: Performed(s, Front(ops), mid, maxEntries) && Step(mid, Last(ops), s', maxEntries)
  }

  function Front<T>(xs: seq<T>): seq<T>
    requires xs != []
  {
    xs[..|xs| - 1]
  }

  function Last<T>(xs: seq<T>): T
    requires xs != []
  {
    xs[|xs| - 1]
  }

  lemma PerformedOneMore(start: State, mid: State, end: State, maxEntries: nat,
                         before: seq<RoutePlanItem>, route: RoutePlanItem, call: Caller, clock: nat -> int)
    requires Performed(start, RecordsOf(before, call, clock), mid, maxEntries)
    requires Step(mid, RecordOf(before + [route], call, clock, |before|), end, maxEntries)
    ensures Performed(start, RecordsOf(before + [route], call, clock), end, maxEntries)
  {
    var after := RecordsOf(before + [route], call, clock);
    assert Front(after) == RecordsOf(before, call, clock);
    assert Last(after) == RecordOf(before + [route], call, clock, |before|);
  }

  lemma ReportOfEnded(primary: Option<RoutePlanItem>, fallbacks: seq<FallbackRoute>, before: seq<RoutePlanItem>,
                      route: RoutePlanItem, config: ExecutorConfig, call: Caller)
    requires Ended(before + [route], config, call)
    ensures var attempt := AttemptRoute(call(|before|, route));
            Report(primary, fallbacks, before + [route], config, call) ==
            ExecutionResult(attempt.Success?, Some(route.credentialId), Some(route.modelId), |before| + 1,
                            TotalLatency(before, call) + attempt.latencyMs, Some(attempt.status),
                            if attempt.Success? then None else Some(attempt.error), None, None)
  {
    TotalLatencyOneMore(before, route, call);
  }

  lemma TotalLatencyOneMore(before: seq<RoutePlanItem>, route: RoutePlanItem, call: Caller)
    ensures TotalLatency(before + [route], call)
            == TotalLatency(before, call) + AttemptRoute(call(|before|, route)).latencyMs
  {
    var tried := before + [route];
    assert tried[..|before|] == before && tried[|before|] == route;
  }

  datatype HealthUpdate = HealthUpdate(credentialId: string, success: bool, status: int)

  function HealthUpdatesOf(tried: seq<RoutePlanItem>, call: Caller): seq<HealthUpdate> {
    seq(|tried|, i requires 0 <= i < |tried| =>
      var attempt := AttemptRoute(call(i, tried[i]));
      HealthUpdate(tried[i].credentialId, attempt.Success?, attempt.status))
  }

  lemma HealthOneMore(before: seq<RoutePlanItem>, route: RoutePlanItem, call: Caller)
    ensures var attempt := AttemptRoute(call(|before|, route));
            HealthUpdatesOf(before + [route], call) ==
            HealthUpdatesOf(before, call) + [HealthUpdate(route.credentialId, attempt.Success?, attempt.status)]
  {
  }

  // The health manager, as the log of what it is told.
  class HealthManager {
    var updates: seq<HealthUpdate>

    constructor ()
      ensures updates == []
    {
      updates := [];
    }

    method UpdateFromResult(credentialId: string, success: bool, status: int)
      modifies this
      ensures updates == old(updates) + [HealthUpdate(credentialId, success, status)]
    {
      updates := updates + [HealthUpdate(credentialId, success, status)];
    }
  }

  predicate Blocked(before: seq<RoutePlanItem>, c: Candidate, diversity: bool) {
    exists i :: 0 <= i < |before| && Conflicts(before[i], c, diversity)
  }

  function ProvidersOf(tried: seq<RoutePlanItem>): set<string> {
    if tried == [] then {} else ProvidersOf(Front(tried)) + {Last(tried).provider}
  }

  function CredentialsOf(tried: seq<RoutePlanItem>): set<string> {
    if tried == [] then {} else CredentialsOf(Front(tried)) + {Last(tried).credentialId}
  }

  // The two sets of used values decide whether a candidate is blocked.
  lemma {:induction false} UsedSetsDecide(tried: seq<RoutePlanItem>, c: Candidate, diversity: bool)
    ensures Blocked(tried, c, diversity) <==>
              c.item.credentialId in CredentialsOf(tried) ||
              (diversity && c.guard.Some? && c.guard.value in ProvidersOf(tried))
    decreases |tried|
  {
    if tried != [] {
      UsedSetsDecide(Front(tried), c, diversity);
      if Blocked(Front(tried), c, diversity) {
        var i :| 0 <= i < |tried| - 1 && Conflicts(Front(tried)[i], c, diversity);
        assert Conflicts(tried[i], c, diversity);
      }
    }
  }

  lemma UsedSetsGrow(tried: seq<RoutePlanItem>, route: RoutePlanItem)
    ensures ProvidersOf(tried + [route]) == ProvidersOf(tried) + {route.provider}
    ensures CredentialsOf(tried + [route]) == CredentialsOf(tried) + {route.credentialId}
  {
    assert Front(tried + [route]) == tried;
  }

  // The routes tried from here on, as the loop decides it: cands are still to be considered, before were tried.
  function Remaining(cands: seq<Candidate>, before: seq<RoutePlanItem>, config: ExecutorConfig, call: Caller)
    : seq<RoutePlanItem>
    decreases |cands|
  {
    if cands == [] || |before| > config.maxRetries then []
    else if Blocked(before, cands[0], config.enableProviderDiversity) then
      Remaining(cands[1..], before, config, call)
    else
      [cands[0].item] +
      if Final(config, call(|before|, cands[0].item)) then []
      else Remaining(cands[1..], before + [cands[0].item], config, call)
  }

  // All routes tried, in terms of those tried before the i-th candidate is considered.
  function Overall(cands: seq<Candidate>, i: nat, before: seq<RoutePlanItem>, config: ExecutorConfig, call: Caller)
    : seq<RoutePlanItem>
    requires i <= |cands|
  {
    before + Remaining(cands[i..], before, config, call)
  }

  lemma OverallStep(cands: seq<Candidate>, i: nat, before: seq<RoutePlanItem>, config: ExecutorConfig, call: Caller)
    requires i < |cands|
    ensures var after := before + [cands[i].item];
            Overall(cands, i, before, config, call) ==
            if |before| > config.maxRetries then before
            else if Blocked(before, cands[i], config.enableProviderDiversity) then
              Overall(cands, i + 1, before, config, call)
            else if Final(config, call(|before|, cands[i].item)) then after
            else Overall(cands, i + 1, after, config, call)
  {
    assert cands[i..][1..] == cands[i + 1..] && cands[i..][0] == cands[i];
  }

  lemma OverallDone(cands: seq<Candidate>, before: seq<RoutePlanItem>, config: ExecutorConfig, call: Caller)
    ensures Overall(cands, |cands|, before, config, call) == before
  {
    assert cands[|cands|..] == [];
  }

  lemma ReportOfUnended(primary: Option<RoutePlanItem>, fallbacks: seq<FallbackRoute>, tried: seq<RoutePlanItem>,
                        config: ExecutorConfig, call: Caller)
    requires !Ended(tried, config, call)
    ensures Report(primary, fallbacks, tried, config, call) ==
            ExecutionResult(false, None, None, |tried|, TotalLatency(tried, call), None,
                            Some(if primary.None? && fallbacks == [] then NoRoutesAvailable else RetryBudgetExhausted),
                            None, None)
  {
  }

  class RouteExecutor {
    const config: ExecutorConfig
    const metrics: MetricsCollector
    const health: HealthManager

    constructor (config: ExecutorConfig, metrics: MetricsCollector, health: HealthManager)
      ensures this.config == config && this.metrics == metrics && this.health == health
    {
      this.config, this.metrics, this.health := config, metrics, health;
    }

    // The collector and the health manager have been told of these attempts, and of nothing else, since start.
    ghost predicate Accounted(tried: seq<RoutePlanItem>, call: Caller, clock: nat -> int,
                              start: State, updates: seq<HealthUpdate>)
      reads metrics, health
    {
      metrics.Valid() && health.updates == updates + HealthUpdatesOf(tried, call) &&
      Performed(start, RecordsOf(tried, call, clock), metrics.Abs(), metrics.maxEntries)
    }

    // Try one route after the ones in before, and tell the collector and the health manager how it went.
    method Attempt(route: RoutePlanItem, attempts: nat, call: Caller, clock: nat -> int,
                   ghost before: seq<RoutePlanItem>, ghost start: State, ghost updates: seq<HealthUpdate>)
      returns (attempt: AttemptResult)
      requires attempts == |before| && Accounted(before, call, clock, start, updates)
      modifies metrics, health
      ensures attempt == AttemptRoute(call(attempts, route)) && Interprets(attempt, call(attempts, route))
      ensures Accounted(before + [route], call, clock, start, updates)
      ensures TotalLatency(before + [route], call) == TotalLatency(before, call) + attempt.latencyMs
      ensures Ended(before + [route], config, call) <==> attempt.Success? || !IsRetryable(config, attempt.status)
    {
      attempt := AttemptRoute(call(attempts, route));
      AttemptInterprets(call(attempts, route));
      ghost var mid := metrics.Abs();
      metrics.RecordResult(route.credentialId, attempt.Success?, attempt.latencyMs, clock(attempts));
      health.UpdateFromResult(route.credentialId, attempt.Success?, attempt.status);
      PerformedOneMore(start, mid, metrics.Abs(), metrics.maxEntries, before, route, call, clock);
      TotalLatencyOneMore(before, route, call);
      HealthOneMore(before, route, call);
    }

    method Execute(primary: Option<RoutePlanItem>, fallbacks: seq<FallbackRoute>, call: Caller, clock: nat -> int)
      returns (result: ExecutionResult, ghost tried: seq<RoutePlanItem>)
      requires metrics.Valid()
      modifies metrics, health
      ensures metrics.Valid()
      ensures tried == Remaining(Candidates(primary, fallbacks), [], config, call)
      ensures result == Report(primary, fallbacks, tried, config, call)
      ensures ReportsReplies(result, primary, fallbacks, tried, config, call)
      ensures Performed(old(metrics.Abs()), RecordsOf(tried, call, clock), metrics.Abs(), metrics.maxEntries)
      ensures health.updates == old(health.updates) + HealthUpdatesOf(tried, call)
    {
      var attempts: nat, totalLatency := 0, 0.0;
      var usedProviders, usedCredentials := {}, {};
      ghost var start, updates := metrics.Abs(), health.updates;
      tried := [];
      if primary.Some? {
        var route := primary.value;
        usedProviders := usedProviders + {route.provider};
        usedCredentials := usedCredentials + {route.credentialId};
        UsedSetsGrow(tried, route);
        assert Candidates(primary, fallbacks)[1..] == FallbackCandidates(primary, fallbacks);
        var attempt := Attempt(route, attempts, call, clock, tried, start, updates);
        tried := tried + [route];
        attempts := attempts + 1;
        totalLatency := totalLatency + attempt.latencyMs;
        if attempt.Success? || !IsRetryable(config, attempt.status) {
          ReportOfEnded(primary, fallbacks, [], route, config, call);
          result := ExecutionResult(attempt.Success?, Some(route.credentialId), Some(route.modelId), attempts,
                                    totalLatency, Some(attempt.status),
                                    if attempt.Success? then None else Some(attempt.error), None, None);
          ReportIsOfReplies(primary, fallbacks, tried, config, call);
          return;
        }
      } else {
        assert Candidates(primary, fallbacks) == FallbackCandidates(primary, fallbacks);
      }
      result, tried := ExecuteFallbacks(primary, fallbacks, call, clock, attempts, totalLatency, usedProviders,
                                        usedCredentials, tried, start, updates);
      ReportIsOfReplies(primary, fallbacks, tried, config, call);
    }

    // The loop over the fallbacks, after the primary, if there is one, has failed in a retryable way.
    method ExecuteFallbacks(primary: Option<RoutePlanItem>, fallbacks: seq<FallbackRoute>,
                            call: Caller, clock: nat -> int,
                            attemptsSoFar: nat, latencySoFar: real, providers: set<string>, credentials: set<string>,
                            ghost first: seq<RoutePlanItem>, ghost start: State, ghost updates: seq<HealthUpdate>)
      returns (result: ExecutionResult, ghost tried: seq<RoutePlanItem>)
      requires attemptsSoFar == |first| && latencySoFar == TotalLatency(first, call) && !Ended(first, config, call)
      requires providers == ProvidersOf(first) && credentials == CredentialsOf(first)
      requires Accounted(first, call, clock, start, updates)
      modifies metrics, health
      ensures tried == first + Remaining(FallbackCandidates(primary, fallbacks), first, config, call)
      ensures result == Report(primary, fallbacks, tried, config, call)
      ensures Accounted(tried, call, clock, start, updates)
    {
      var attempts, totalLatency, usedProviders, usedCredentials := attemptsSoFar, latencySoFar, providers, credentials;
      tried := first;
      ghost var cands := FallbackCandidates(primary, fallbacks);
      ghost var all := first + Remaining(cands, first, config, call);
      assert cands[0..] == cands;

      var i := 0;
      while i < |fallbacks|
        invariant 0 <= i <= |fallbacks| && attempts == |tried| && totalLatency == TotalLatency(tried, call)
        invariant usedProviders == ProvidersOf(tried) && usedCredentials == CredentialsOf(tried)
        invariant all == Overall(cands, i, tried, config, call) && !Ended(tried, config, call)
        invariant Accounted(tried, call, clock, start, updates)
      {
        var fallback := fallbacks[i];
        OverallStep(cands, i, tried, config, call);
        if attempts > config.maxRetries {
          break;
        }
        UsedSetsDecide(tried, cands[i], config.enableProviderDiversity);
        if fallback.authId in usedCredentials
           || (config.enableProviderDiversity && fallback.provider.Some? && fallback.provider.value in usedProviders)
        {
          i := i + 1;
          continue;
        }
        var route := FallbackItem(primary, fallback);
        ghost var before := tried;
        usedProviders := usedProviders + {route.provider};
        usedCredentials := usedCredentials + {route.credentialId};
        UsedSetsGrow(tried, route);
        var attempt := Attempt(route, attempts, call, clock, tried, start, updates);
        tried := tried + [route];
        attempts := attempts + 1;
        totalLatency := totalLatency + attempt.latencyMs;
        if attempt.Success? || !IsRetryable(config, attempt.status) {
          ReportOfEnded(primary, fallbacks, before, route, config, call);
          result := ExecutionResult(attempt.Success?, Some(route.credentialId), Some(route.modelId), attempts,
                                    totalLatency, Some(attempt.status),
                                    if attempt.Success? then None else Some(attempt.error), None, None);
          return;
        }
        i := i + 1;
      }
      OverallDone(cands, tried, config, call);
      assert tried == all;
      ReportOfUnended(primary, fallbacks, tried, config, call);
      var error := if primary.None? && fallbacks == [] then NoRoutesAvailable else RetryBudgetExhausted;
      result := ExecutionResult(false, None, None, attempts, totalLatency, None, Some(error), None, None);
    }
  }
}
