// Execution outcomes and the route they are booked on.

module Outcomes {

  import opened Wrappers
  import opened Doubles

  datatype ErrorClass = Auth | RateLimit | ServerError | Timeout | Network | ClientError | Other

  datatype ExecutionOutcome = ExecutionOutcome(
    routeId: string,
    success: bool,
    latencyMs: Latency,
    promptTokens: nat,
    completionTokens: nat,
    totalTokens: nat,
    errorClass: Option<ErrorClass>,
    statusCode: Option<int>,
    timestamp: int,
    usedFallback: bool,
    originalRouteId: Option<string>)
  {
    // The original route if a fallback was used and it is known.
    function EffectiveRoute(): string {
      if usedFallback && originalRouteId.Some? then originalRouteId.value else routeId
    }
  }

  // The last n elements, or all of them if there are fewer.
  function LastN<T>(xs: seq<T>, n: nat): (last: seq<T>)
    ensures |last| == if |xs| <= n then |xs| else n
    ensures forall i | 0 <= i < |last| :: last[i] == xs[|xs| - |last| + i]
  {
    if |xs| <= n then xs else xs[|xs| - n..]
  }

  class OutcomeRecorder {
    var outcomes: seq<ExecutionOutcome>
    const maxOutcomes: nat

    constructor (maxOutcomes: nat)
      ensures outcomes == [] && this.maxOutcomes == if maxOutcomes > 0 then maxOutcomes else 10_000
    {
      outcomes := [];
      this.maxOutcomes := if maxOutcomes > 0 then maxOutcomes else 10_000;
    }

    method Record(outcome: ExecutionOutcome)
      modifies this
      ensures outcomes == LastN(old(outcomes) + [outcome], maxOutcomes)
    {
      outcomes := outcomes + [outcome];
      if |outcomes| > maxOutcomes {
        var removeCount := |outcomes| - maxOutcomes;
        outcomes := outcomes[removeCount..];
      }
    }
  }

  // Trimming after every append keeps the last n of the whole log.
  lemma LastNOneMore<T>(log: seq<T>, x: T, n: nat)
    requires 0 < n
    ensures LastN(LastN(log, n) + [x], n) == LastN(log + [x], n)
  {
  }
}
