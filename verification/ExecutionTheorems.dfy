// The executor's loop makes the greedy, budgeted choice of routes, and accounts for each of them once.

module ExecutionTheorems {

  import opened Wrappers
  import opened Doubles
  import opened CredentialMetrics
  import opened RouteExecution

  // The greedy choice

  function GreedyPicks(cands: seq<Candidate>, diversity: bool): (picks: seq<bool>)
    ensures |picks| == |cands|
    decreases |cands|
  {
    if cands == [] then []
    else
      var picks := GreedyPicks(Front(cands), diversity);
      picks + [!Blocked(Picked(Front(cands), picks), Last(cands), diversity)]
  }

  lemma {:induction false} BlockedByPicked(cands: seq<Candidate>, picks: seq<bool>, c: Candidate, diversity: bool)
    requires |picks| == |cands|
    ensures Blocked(Picked(cands, picks), c, diversity)
            <==> exists i :: 0 <= i < |cands| && picks[i] && Conflicts(cands[i].item, c, diversity)
    decreases |cands|
  {
    if cands != [] {
      var n := |cands| - 1;
      var front, all := Picked(cands[..n], picks[..n]), Picked(cands, picks);
      BlockedByPicked(cands[..n], picks[..n], c, diversity);
      if Blocked(front, c, diversity) {
        var k :| 0 <= k < |front| && Conflicts(front[k], c, diversity);
        assert Conflicts(all[k], c, diversity);
      }
      if picks[n] && Conflicts(cands[n].item, c, diversity) {
        assert Conflicts(all[|front|], c, diversity);
      }
      if Blocked(all, c, diversity) {
        var k :| 0 <= k < |all| && Conflicts(all[k], c, diversity);
        if k < |front| { assert Conflicts(front[k], c, diversity); }
      }
    }
  }

  lemma CompatibleByPrefix(cands: seq<Candidate>, picks: seq<bool>, cands': seq<Candidate>, picks': seq<bool>,
                           j: nat, diversity: bool)
    requires j < |cands| == |picks| && j < |cands'| == |picks'|
    requires forall i | 0 <= i <= j :: cands[i] == cands'[i]
    requires forall i | 0 <= i < j :: picks[i] == picks'[i]
    ensures Compatible(cands, picks, j, diversity) <==> Compatible(cands', picks', j, diversity)
  {
  }

  lemma {:induction false} GreedyPicksAreGreedy(cands: seq<Candidate>, diversity: bool)
    ensures Greedy(cands, GreedyPicks(cands, diversity), diversity)
    decreases |cands|
  {
    if cands != [] {
      var front, fewer, picks := Front(cands), GreedyPicks(Front(cands), diversity), GreedyPicks(cands, diversity);
      GreedyPicksAreGreedy(front, diversity);
      forall j | 0 <= j < |cands| ensures picks[j] <==> Compatible(cands, picks, j, diversity) {
        if j < |front| {
          CompatibleByPrefix(front, fewer, cands, picks, j, diversity);
        } else {
          BlockedByPicked(front, fewer, Last(cands), diversity);
          assert forall i | 0 <= i < j :: cands[i] == front[i] && picks[i] == fewer[i];
        }
      }
    }
  }

  lemma {:induction false} GreedyIsUnique(cands: seq<Candidate>, picks: seq<bool>, picks': seq<bool>, diversity: bool,
                                          n: nat)
    requires Greedy(cands, picks, diversity) && Greedy(cands, picks', diversity) && n <= |cands|
    ensures forall j | 0 <= j < n :: picks[j] == picks'[j]
    decreases n
  {
    if n > 0 {
      GreedyIsUnique(cands, picks, picks', diversity, n - 1);
      CompatibleByPrefix(cands, picks, cands, picks', n - 1, diversity);
    }
  }

  // The greedy choice made one candidate after another, without budget or early exit.
  function Eligible(cands: seq<Candidate>, before: seq<RoutePlanItem>, diversity: bool): seq<RoutePlanItem>
    decreases |cands|
  {
    if cands == [] then []
    else if Blocked(before, cands[0], diversity) then Eligible(cands[1..], before, diversity)
    else [cands[0].item] + Eligible(cands[1..], before + [cands[0].item], diversity)
  }

  lemma {:induction false} EligibleOneMore(cands: seq<Candidate>, c: Candidate, before: seq<RoutePlanItem>,
                                           diversity: bool)
    ensures var chosen := before + Eligible(cands, before, diversity);
            before + Eligible(cands + [c], before, diversity)
            == chosen + if Blocked(chosen, c, diversity) then [] else [c.item]
    decreases |cands|
  {
    if cands == [] {
      assert before + [] == before;
      assert (cands + [c])[1..] == [];
    } else {
      assert (cands + [c])[1..] == cands[1..] + [c];
      if Blocked(before, cands[0], diversity) {
        EligibleOneMore(cands[1..], c, before, diversity);
      } else {
        var more := before + [cands[0].item];
        EligibleOneMore(cands[1..], c, more, diversity);
        assert more + Eligible(cands[1..], more, diversity) == before + Eligible(cands, before, diversity);
        assert more + Eligible(cands[1..] + [c], more, diversity) == before + Eligible(cands + [c], before, diversity);
      }
    }
  }

  lemma {:induction false} EligibleIsGreedyChoice(cands: seq<Candidate>, diversity: bool)
    ensures Eligible(cands, [], diversity) == Picked(cands, GreedyPicks(cands, diversity))
    decreases |cands|
  {
    if cands != [] {
      EligibleIsGreedyChoice(Front(cands), diversity);
      EligibleOneMore(Front(cands), Last(cands), [], diversity);
      assert cands == Front(cands) + [Last(cands)];
      var picks := GreedyPicks(cands, diversity);
      assert picks[..|cands| - 1] == GreedyPicks(Front(cands), diversity);
      assert [] + Eligible(cands, [], diversity) == Eligible(cands, [], diversity);
      assert [] + Eligible(Front(cands), [], diversity) == Eligible(Front(cands), [], diversity);
    }
  }

  // Budget and early exit

  ghost predicate NoneFinal(tried: seq<RoutePlanItem>, config: ExecutorConfig, call: Caller) {
    forall i | 0 <= i < |tried| :: !Final(config, call(i, tried[i]))
  }

  lemma OneMoreTried(before: seq<RoutePlanItem>, route: RoutePlanItem, config: ExecutorConfig, call: Caller)
    requires NoneFinal(before, config, call)
    ensures Ended(before + [route], config, call) <==> Final(config, call(|before|, route))
    ensures !Ended(before + [route], config, call) ==> NoneFinal(before + [route], config, call)
  {
    var more := before + [route];
    assert more[|before|] == route && forall i | 0 <= i < |before| :: more[i] == before[i];
  }

  lemma {:induction false} RemainingIsPrefix(cands: seq<Candidate>, before: seq<RoutePlanItem>, config: ExecutorConfig,
                                             call: Caller)
    ensures Remaining(cands, before, config, call) <= Eligible(cands, before, config.enableProviderDiversity)
    decreases |cands|
  {
    if cands == [] || |before| > config.maxRetries {
    } else if Blocked(before, cands[0], config.enableProviderDiversity) {
      RemainingIsPrefix(cands[1..], before, config, call);
    } else {
      RemainingIsPrefix(cands[1..], before + [cands[0].item], config, call);
    }
  }

  lemma {:induction false} RemainingStopsRight(cands: seq<Candidate>, before: seq<RoutePlanItem>,
                                               config: ExecutorConfig, call: Caller)
    requires |before| <= config.maxRetries + 1 && NoneFinal(before, config, call)
    ensures StoppedRight(before + Remaining(cands, before, config, call),
                         |before| + |Eligible(cands, before, config.enableProviderDiversity)|, config, call)
    decreases |cands|
  {
    assert cands[0..] == cands;
    if cands == [] || |before| > config.maxRetries {
      assert before + Remaining(cands, before, config, call) == before;
    } else if Blocked(before, cands[0], config.enableProviderDiversity) {
      RemainingStopsRight(cands[1..], before, config, call);
    } else {
      var more := before + [cands[0].item];
      OneMoreTried(before, cands[0].item, config, call);
      OverallStep(cands, 0, before, config, call);
      if Final(config, call(|before|, cands[0].item)) {
        assert StoppedRight(more, 0, config, call);
      } else {
        RemainingStopsRight(cands[1..], more, config, call);
      }
    }
  }

  lemma ExecutionTries(cands: seq<Candidate>, config: ExecutorConfig, call: Caller)
    ensures Tries(Eligible(cands, [], config.enableProviderDiversity), Remaining(cands, [], config, call), config, call)
  {
    RemainingIsPrefix(cands, [], config, call);
    RemainingStopsRight(cands, [], config, call);
    assert [] + Remaining(cands, [], config, call) == Remaining(cands, [], config, call);
  }

  lemma TriesIsUnique(eligible: seq<RoutePlanItem>, tried: seq<RoutePlanItem>, tried': seq<RoutePlanItem>,
                      config: ExecutorConfig, call: Caller)
    requires Tries(eligible, tried, config, call) && Tries(eligible, tried', config, call)
    ensures tried == tried'
  {
  }

  // What the routes tried are, declaratively.
  ghost predicate Specified(primary: Option<RoutePlanItem>, fallbacks: seq<FallbackRoute>, tried: seq<RoutePlanItem>,
                            config: ExecutorConfig, call: Caller) {
    exists picks ::
      Greedy(Candidates(primary, fallbacks), picks, config.enableProviderDiversity) &&
      Tries(Picked(Candidates(primary, fallbacks), picks), tried, config, call)
  }

  // The loop tries exactly the routes specified, and nothing else meets the specification.
  lemma ExecutionMeetsSpecification(primary: Option<RoutePlanItem>, fallbacks: seq<FallbackRoute>,
                                    tried: seq<RoutePlanItem>, config: ExecutorConfig, call: Caller)
    ensures Specified(primary, fallbacks, tried, config, call)
            <==> tried == Remaining(Candidates(primary, fallbacks), [], config, call)
  {
    var cands, diversity := Candidates(primary, fallbacks), config.enableProviderDiversity;
    var picks, made := GreedyPicks(cands, diversity), Remaining(cands, [], config, call);
    GreedyPicksAreGreedy(cands, diversity);
    EligibleIsGreedyChoice(cands, diversity);
    ExecutionTries(cands, config, call);
    if Specified(primary, fallbacks, tried, config, call) {
      var picks' :| Greedy(cands, picks', diversity) && Tries(Picked(cands, picks'), tried, config, call);
      GreedyIsUnique(cands, picks, picks', diversity, |cands|);
      assert picks == picks';
      TriesIsUnique(Picked(cands, picks), tried, made, config, call);
    }
  }

  // Consequences for the routes tried

  predicate DistinctCredentials(tried: seq<RoutePlanItem>) {
    forall i, j | 0 <= i < j < |tried| :: tried[i].credentialId != tried[j].credentialId
  }

  // An unguarded route, one whose provider is not known, may repeat a provider; no other may.
  predicate DistinctProviders(cands: seq<Candidate>, tried: seq<RoutePlanItem>) {
    forall i, j | 0 <= i < j < |tried| && tried[i].provider == tried[j].provider :: Candidate(tried[j], None) in cands
  }

  predicate GuardNamesProvider(c: Candidate) {
    c.guard.Some? ==> c.guard.value == c.item.provider
  }

  lemma {:induction false} RemainingIsDistinct(cands: seq<Candidate>, all: seq<Candidate>, before: seq<RoutePlanItem>,
                                               config: ExecutorConfig, call: Caller)
    requires forall c | c in cands :: c in all && GuardNamesProvider(c)
    requires DistinctCredentials(before) && (config.enableProviderDiversity ==> DistinctProviders(all, before))
    ensures var tried := before + Remaining(cands, before, config, call);
            DistinctCredentials(tried) && (config.enableProviderDiversity ==> DistinctProviders(all, tried))
    decreases |cands|
  {
    var tried := before + Remaining(cands, before, config, call);
    if cands == [] || |before| > config.maxRetries {
      assert tried == before;
    } else if Blocked(before, cands[0], config.enableProviderDiversity) {
      RemainingIsDistinct(cands[1..], all, before, config, call);
    } else {
      var more := before + [cands[0].item];
      assert cands[0] in all && GuardNamesProvider(cands[0]);
      assert forall i | 0 <= i < |before| :: !Conflicts(before[i], cands[0], config.enableProviderDiversity);
      assert config.enableProviderDiversity && cands[0].guard.None? ==> Candidate(cands[0].item, None) in all;
      if Final(config, call(|before|, cands[0].item)) {
        assert tried == more;
      } else {
        RemainingIsDistinct(cands[1..], all, more, config, call);
        assert tried == more + Remaining(cands[1..], more, config, call);
      }
    }
  }

  // No credential is tried twice; with diversity on, no named provider is either; and a primary is always tried.
  lemma TriedRoutesAreDistinct(primary: Option<RoutePlanItem>, fallbacks: seq<FallbackRoute>,
                               config: ExecutorConfig, call: Caller)
    ensures var tried := Remaining(Candidates(primary, fallbacks), [], config, call);
            DistinctCredentials(tried) &&
            (config.enableProviderDiversity ==> DistinctProviders(Candidates(primary, fallbacks), tried)) &&
            (primary.Some? ==> tried != [] && tried[0] == primary.value)
  {
    var cands := Candidates(primary, fallbacks);
    RemainingIsDistinct(cands, cands, [], config, call);
    assert [] + Remaining(cands, [], config, call) == Remaining(cands, [], config, call);
  }

  // What may be tried: the primary, and then the fallbacks in their order. A fallback takes its model from the primary
  // and both its figures from its weight.
  predicate IsFallback(route: RoutePlanItem, primary: Option<RoutePlanItem>, f: FallbackRoute) {
    route.credentialId == f.authId && route.utility == route.weight == f.weight &&
    (primary.Some? ==> route.modelId == primary.value.modelId) && (primary.None? ==> route.modelId == "") &&
    (f.provider.Some? ==> route.provider == f.provider.value) && (f.provider.None? ==> route.provider == "")
  }

  lemma CandidatesAreThePlan(primary: Option<RoutePlanItem>, fallbacks: seq<FallbackRoute>)
    ensures var cands, n := Candidates(primary, fallbacks), if primary.Some? then 1 else 0;
            |cands| == n + |fallbacks| && (primary.Some? ==> cands[0] == Candidate(primary.value, None)) &&
            forall i | 0 <= i < |fallbacks| ::
              cands[n + i].guard == fallbacks[i].provider && IsFallback(cands[n + i].item, primary, fallbacks[i])
  {
  }

  lemma {:induction false} RemainingAreCandidates(cands: seq<Candidate>, before: seq<RoutePlanItem>,
                                                  config: ExecutorConfig, call: Caller)
    ensures forall route | route in Remaining(cands, before, config, call) ::
              exists j :: 0 <= j < |cands| && cands[j].item == route
    decreases |cands|
  {
    if cands == [] || |before| > config.maxRetries {
    } else {
      RemainingAreCandidates(cands[1..], before, config, call);
      RemainingAreCandidates(cands[1..], before + [cands[0].item], config, call);
      forall route | route in Remaining(cands, before, config, call)
        ensures exists j :: 0 <= j < |cands| && cands[j].item == route
      {
        if route != cands[0].item {
          var j :| 0 <= j < |cands[1..]| && cands[1..][j].item == route;
          assert cands[j + 1].item == route;
        }
      }
    }
  }

  ghost predicate OfThePlan(route: RoutePlanItem, primary: Option<RoutePlanItem>, fallbacks: seq<FallbackRoute>) {
    primary == Some(route) || exists i :: 0 <= i < |fallbacks| && IsFallback(route, primary, fallbacks[i])
  }

  lemma CandidateIsOfThePlan(primary: Option<RoutePlanItem>, fallbacks: seq<FallbackRoute>, j: nat)
    requires j < |Candidates(primary, fallbacks)|
    ensures OfThePlan(Candidates(primary, fallbacks)[j].item, primary, fallbacks)
  {
    CandidatesAreThePlan(primary, fallbacks);
    var n := if primary.Some? then 1 else 0;
    if j >= n { assert IsFallback(Candidates(primary, fallbacks)[n + (j - n)].item, primary, fallbacks[j - n]); }
  }

  lemma TriedRoutesAreOfThePlan(primary: Option<RoutePlanItem>, fallbacks: seq<FallbackRoute>, config: ExecutorConfig,
                                call: Caller)
    ensures forall route | route in Remaining(Candidates(primary, fallbacks), [], config, call) ::
              OfThePlan(route, primary, fallbacks)
  {
    var cands := Candidates(primary, fallbacks);
    RemainingAreCandidates(cands, [], config, call);
    forall j | 0 <= j < |cands| ensures OfThePlan(cands[j].item, primary, fallbacks) {
      CandidateIsOfThePlan(primary, fallbacks, j);
    }
  }

  lemma {:induction false} RemainingLeavesBlocked(cands: seq<Candidate>, before: seq<RoutePlanItem>,
                                                  config: ExecutorConfig, call: Caller)
    requires var tried := before + Remaining(cands, before, config, call);
             |tried| <= config.maxRetries && !Ended(tried, config, call)
    ensures var tried := before + Remaining(cands, before, config, call);
            forall j | 0 <= j < |cands| :: Blocked(tried, cands[j], config.enableProviderDiversity)
    decreases |cands|
  {
    if cands != [] {
      var tried, diversity := before + Remaining(cands, before, config, call), config.enableProviderDiversity;
      if Blocked(before, cands[0], diversity) {
        var i :| 0 <= i < |before| && Conflicts(before[i], cands[0], diversity);
        assert Conflicts(tried[i], cands[0], diversity);
        RemainingLeavesBlocked(cands[1..], before, config, call);
      } else {
        var more := before + [cands[0].item];
        assert tried[..|more|] == more;
        if !Final(config, call(|before|, cands[0].item)) {
          assert tried == more + Remaining(cands[1..], more, config, call);
          assert Conflicts(tried[|before|], cands[0], diversity);
          RemainingLeavesBlocked(cands[1..], more, config, call);
        }
      }
      assert forall j | 1 <= j < |cands| :: cands[j] == cands[1..][j - 1];
    }
  }

  // With a retry left and no reply that ended it, an execution has tried every fallback, or another route with the same
  // credential or, with diversity on, of the provider it names.
  lemma UntriedFallbacksConflict(primary: Option<RoutePlanItem>, fallbacks: seq<FallbackRoute>, config: ExecutorConfig,
                                 call: Caller, f: FallbackRoute)
    requires var tried := Remaining(Candidates(primary, fallbacks), [], config, call);
             |tried| <= config.maxRetries && !Ended(tried, config, call)
    requires f in fallbacks
    ensures exists route :: route in Remaining(Candidates(primary, fallbacks), [], config, call) &&
                            (route.credentialId == f.authId ||
                             (config.enableProviderDiversity && f.provider == Some(route.provider)))
  {
    var cands, n := Candidates(primary, fallbacks), if primary.Some? then 1 else 0;
    var tried := Remaining(cands, [], config, call);
    assert [] + tried == tried;
    RemainingLeavesBlocked(cands, [], config, call);
    CandidatesAreThePlan(primary, fallbacks);
    var i :| 0 <= i < |fallbacks| && fallbacks[i] == f;
    assert Blocked(tried, cands[n + i], config.enableProviderDiversity);
    var k :| 0 <= k < |tried| && Conflicts(tried[k], cands[n + i], config.enableProviderDiversity);
    assert tried[k] in tried;
  }

  // A network error is reported with status 0. Met by any attempt, it is followed by another exactly if 0 is
  // configured as retryable, a retry is left and a further route is eligible. Its reply is what ends the execution
  // exactly if 0 is not configured, and by default it is not.
  lemma NetworkErrorFallsBackIff(primary: Option<RoutePlanItem>, fallbacks: seq<FallbackRoute>,
                                 config: ExecutorConfig, call: Caller, i: nat)
    requires var tried := Remaining(Candidates(primary, fallbacks), [], config, call);
             i < |tried| && call(i, tried[i]).NetworkError?
    ensures var cands := Candidates(primary, fallbacks);
            i + 1 < |Remaining(cands, [], config, call)| <==>
            0 in config.retryableStatusCodes && i < config.maxRetries &&
            i + 1 < |Eligible(cands, [], config.enableProviderDiversity)|
    ensures var tried := Remaining(Candidates(primary, fallbacks), [], config, call);
            (Ended(tried, config, call) && i == |tried| - 1) <==> 0 !in config.retryableStatusCodes
    ensures 0 !in DefaultConfig().retryableStatusCodes
  {
    var cands := Candidates(primary, fallbacks);
    ExecutionTries(cands, config, call);
    var tried := Remaining(cands, [], config, call);
    assert StoppedRight(tried, |Eligible(cands, [], config.enableProviderDiversity)|, config, call);
    assert Final(config, call(i, tried[i])) <==> 0 !in config.retryableStatusCodes;
  }

  function Primary(): RoutePlanItem {
    RoutePlanItem("first", "model", "here", 1.0, 1.0)
  }

  function Spare(): FallbackRoute {
    FallbackRoute("second", 0, 1.0, Some("there"))
  }

  // A plan whose fallback could be tried, and is not, because the primary meets a network error.
  lemma NetworkErrorLeavesFallback()
    ensures var cands := Candidates(Some(Primary()), [Spare()]);
            Remaining(cands, [], DefaultConfig(), (_, _) => NetworkError("timeout")) == [Primary()] &&
            Eligible(cands, [], true) == [Primary(), FallbackItem(Some(Primary()), Spare())]
  {
    var cands := Candidates(Some(Primary()), [Spare()]);
    var fallback := cands[1];
    assert cands[0] == Candidate(Primary(), None) && cands[1..] == [fallback] && cands[1..][1..] == [];
    assert !Blocked([], cands[0], true) && !Blocked([Primary()], fallback, true);
    assert [] + [Primary()] == [Primary()];
    assert Eligible(cands[1..], [Primary()], true) == [fallback.item];
  }

  // The same plan with status 0 configured as retryable, and no retry to spend on it.
  lemma NetworkErrorWithoutRetries()
    ensures var config := ExecutorConfig(0, 30_000, true, {0});
            var cands := Candidates(Some(Primary()), [Spare()]);
            Remaining(cands, [], config, (_, _) => NetworkError("timeout")) == [Primary()] &&
            |Eligible(cands, [], true)| == 2
  {
    NetworkErrorLeavesFallback();
    var cands := Candidates(Some(Primary()), [Spare()]);
    assert cands[0] == Candidate(Primary(), None) && !Blocked([], cands[0], true);
    assert [] + [Primary()] == [Primary()];
  }

  // When the budget is reported exhausted, it is exactly if there were more eligible routes than retries allowed.
  lemma BudgetIsExhaustedIff(primary: Option<RoutePlanItem>, fallbacks: seq<FallbackRoute>, config: ExecutorConfig,
                             call: Caller)
    requires var tried := Remaining(Candidates(primary, fallbacks), [], config, call);
             Report(primary, fallbacks, tried, config, call).error == Some(RetryBudgetExhausted)
    ensures var cands := Candidates(primary, fallbacks);
            |Remaining(cands, [], config, call)| == config.maxRetries + 1 <==>
            |Eligible(cands, [], config.enableProviderDiversity)| > config.maxRetries
  {
    ExecutionTries(Candidates(primary, fallbacks), config, call);
  }

  // The same report, with all three retries left: the primary fails and there is no fallback.
  lemma BudgetIsReportedUnspent(latency: Latency)
    ensures var tried := Remaining(Candidates(Some(Primary()), []), [], DefaultConfig(), (_, _) => Http(503, latency));
            Report(Some(Primary()), [], tried, DefaultConfig(), (_, _) => Http(503, latency)).error
              == Some(RetryBudgetExhausted) &&
            |tried| == 1 && DefaultConfig().maxRetries == 3
  {
    var cands := Candidates(Some(Primary()), []);
    assert cands[0] == Candidate(Primary(), None) && cands[1..] == [];
    assert !Blocked([], cands[0], true) && ServerError(503);
  }

  // Accounts

  function RequestsOf(s: State, id: string): nat {
    if id in s.metrics then s.metrics[id].totalRequests else 0
  }

  function SuccessesOf(s: State, id: string): nat {
    if id in s.metrics then s.metrics[id].successCount else 0
  }

  function Recordings(ops: seq<Op>, id: string): nat
    decreases |ops|
  {
    if ops == [] then 0
    else Recordings(Front(ops), id) + if Last(ops).Record? && Last(ops).id == id then 1 else 0
  }

  function Successes(ops: seq<Op>, id: string): nat
    decreases |ops|
  {
    if ops == [] then 0
    else
      var op := Last(ops);
      Successes(Front(ops), id) + if op.Record? && op.id == id && op.sample.success then 1 else 0
  }

  // The credential an operation records a result for. Results without a credential are dropped.
  function RecordedId(op: Op): set<string> {
    if op.Record? && op.id != "" then {op.id} else {}
  }

  function RecordedIds(ops: seq<Op>): set<string>
    decreases |ops|
  {
    if ops == [] then {} else RecordedIds(Front(ops)) + RecordedId(Last(ops))
  }

  // From s to s' the entry of id has counted this many requests and successes more, and is untouched if none.
  ghost predicate Counted(s: State, s': State, id: string, requests: nat, successes: nat) {
    RequestsOf(s', id) == RequestsOf(s, id) + requests && SuccessesOf(s', id) == SuccessesOf(s, id) + successes &&
    (requests == 0 ==> (id in s'.metrics <==> id in s.metrics) && (id in s.metrics ==> s'.metrics[id] == s.metrics[id]))
  }

  // A recording finds nothing to evict: there is room, or no cleanup is due.
  predicate NothingToEvict(s: State, maxEntries: nat) {
    |s.metrics| <= maxEntries || s.opCount % 100 != 0
  }

  // Nothing is evicted during these recordings: there is room for the entries there are and those recorded for, or
  // the next cleanup is due only after them.
  predicate NoEvictionDue(s: State, ids: set<string>, n: nat, maxEntries: nat) {
    |s.metrics.Keys + ids| <= maxEntries ||
    (s.opCount % 100 != 0 && s.opCount % 100 + n <= 100)
  }

  lemma RecordWithoutEviction(s: State, op: Op, s': State, maxEntries: nat)
    requires op.Record? && Step(s, op, s', maxEntries) && NothingToEvict(s, maxEntries)
    ensures s'.metrics == if op.id == "" then s.metrics else WithSample(s, op.id, op.sample).metrics
    ensures s.opCount <= s'.opCount <= s.opCount + 1
  {
    if op.id != "" {
      var base :| Tidied(s, base, maxEntries) && s' == WithSample(base, op.id, op.sample);
      assert base.metrics == s.metrics;
    }
  }

  lemma RecordCounts(s: State, op: Op, s': State, maxEntries: nat, id: string)
    requires id != "" && op.Record? && Step(s, op, s', maxEntries) && NothingToEvict(s, maxEntries)
    ensures Counted(s, s', id, if op.id == id then 1 else 0, if op.id == id && op.sample.success then 1 else 0)
  {
    RecordWithoutEviction(s, op, s', maxEntries);
  }

  // From s to s' exactly the entries of ids were added, where missing, by n recordings at most.
  ghost predicate Added(s: State, ids: set<string>, n: nat, s': State) {
    s'.metrics.Keys == s.metrics.Keys + ids && s.opCount <= s'.opCount <= s.opCount + n
  }

  lemma RecordAdds(s: State, op: Op, s': State, maxEntries: nat)
    requires op.Record? && Step(s, op, s', maxEntries) && NothingToEvict(s, maxEntries)
    ensures Added(s, RecordedId(op), 1, s')
  {
    RecordWithoutEviction(s, op, s', maxEntries);
  }

  lemma AddedTwice(s: State, ids: set<string>, n: nat, mid: State, more: set<string>, s': State)
    requires Added(s, ids, n, mid) && Added(mid, more, 1, s')
    ensures Added(s, ids + more, n + 1, s')
  {
  }

  lemma StillNothingToEvict(s: State, ids: set<string>, n: nat, mid: State, all: set<string>, maxEntries: nat)
    requires Added(s, ids, n, mid) && ids <= all && NoEvictionDue(s, all, n + 1, maxEntries)
    ensures NoEvictionDue(s, ids, n, maxEntries) && NothingToEvict(mid, maxEntries)
  {
    SubsetIsNoLarger(s.metrics.Keys + ids, s.metrics.Keys + all);
    assert |mid.metrics| == |mid.metrics.Keys|;
  }

  // Then the entries afterwards are those there were and those recorded for.
  lemma {:induction false} RecordingsEvictNothing(s: State, ops: seq<Op>, s': State, maxEntries: nat)
    requires forall i | 0 <= i < |ops| :: ops[i].Record?
    requires Performed(s, ops, s', maxEntries) && NoEvictionDue(s, RecordedIds(ops), |ops|, maxEntries)
    ensures Added(s, RecordedIds(ops), |ops|, s')
    decreases |ops|
  {
    if ops != [] {
      var before, n := RecordedIds(Front(ops)), |ops| - 1;
      var mid :| Performed(s, Front(ops), mid, maxEntries) && Step(mid, Last(ops), s', maxEntries);
      SubsetIsNoLarger(s.metrics.Keys + before, s.metrics.Keys + RecordedIds(ops));
      RecordingsEvictNothing(s, Front(ops), mid, maxEntries);
      StillNothingToEvict(s, before, n, mid, RecordedIds(ops), maxEntries);
      RecordAdds(mid, Last(ops), s', maxEntries);
      AddedTwice(s, before, n, mid, RecordedId(Last(ops)), s');
    }
  }

  // And an entry's counters grow by what was recorded for it, and it is otherwise left alone.
  lemma {:induction false} RecordingsCount(s: State, ops: seq<Op>, s': State, maxEntries: nat, id: string)
    requires id != "" && forall i | 0 <= i < |ops| :: ops[i].Record?
    requires Performed(s, ops, s', maxEntries) && NoEvictionDue(s, RecordedIds(ops), |ops|, maxEntries)
    ensures Counted(s, s', id, Recordings(ops, id), Successes(ops, id))
    decreases |ops|
  {
    if ops != [] {
      var before := RecordedIds(Front(ops));
      var mid :| Performed(s, Front(ops), mid, maxEntries) && Step(mid, Last(ops), s', maxEntries);
      SubsetIsNoLarger(s.metrics.Keys + before, s.metrics.Keys + RecordedIds(ops));
      RecordingsEvictNothing(s, Front(ops), mid, maxEntries);
      RecordingsCount(s, Front(ops), mid, maxEntries, id);
      StillNothingToEvict(s, before, |ops| - 1, mid, RecordedIds(ops), maxEntries);
      RecordCounts(mid, Last(ops), s', maxEntries, id);
    }
  }

  // Distinct credentials are recorded once each, and only the last attempt can have succeeded.
  lemma {:induction false} RecordingsOfTried(tried: seq<RoutePlanItem>, config: ExecutorConfig, call: Caller,
                                             clock: nat -> int, id: string)
    requires DistinctCredentials(tried)
    requires forall i | 0 <= i < |tried| - 1 :: !Final(config, call(i, tried[i]))
    ensures var ops := RecordsOf(tried, call, clock);
            Recordings(ops, id) == (if id in CredentialsOf(tried) then 1 else 0) &&
            Successes(ops, id) ==
            if tried != [] && Last(tried).credentialId == id && AttemptRoute(call(|tried| - 1, Last(tried))).Success?
            then 1 else 0
    decreases |tried|
  {
    if tried != [] {
      var ops := RecordsOf(tried, call, clock);
      assert Front(ops) == RecordsOf(Front(tried), call, clock);
      LastIsNew(tried);
      RecordingsOfTried(Front(tried), config, call, clock, id);
      if |tried| > 1 { SuccessIsFinal(config, call(|tried| - 2, tried[|tried| - 2])); }
    }
  }

  lemma SuccessIsFinal(config: ExecutorConfig, reply: Reply)
    ensures AttemptRoute(reply).Success? ==> Final(config, reply)
  {
  }

  lemma LastIsNew(tried: seq<RoutePlanItem>)
    requires tried != [] && DistinctCredentials(tried)
    ensures Last(tried).credentialId !in CredentialsOf(Front(tried)) && DistinctCredentials(Front(tried))
  {
    if Last(tried).credentialId in CredentialsOf(Front(tried)) {
      CredentialsAreTried(Front(tried), Last(tried).credentialId);
    }
  }

  lemma {:induction false} RecordedIdsAreTried(tried: seq<RoutePlanItem>, call: Caller, clock: nat -> int)
    ensures RecordedIds(RecordsOf(tried, call, clock)) == CredentialsOf(tried) - {""}
    decreases |tried|
  {
    if tried != [] {
      assert Front(RecordsOf(tried, call, clock)) == RecordsOf(Front(tried), call, clock);
      RecordedIdsAreTried(Front(tried), call, clock);
    }
  }

  lemma {:induction false} CredentialsAreTried(tried: seq<RoutePlanItem>, id: string)
    requires id in CredentialsOf(tried)
    ensures exists i :: 0 <= i < |tried| && tried[i].credentialId == id
    decreases |tried|
  {
    if id in CredentialsOf(Front(tried)) {
      CredentialsAreTried(Front(tried), id);
      var i :| 0 <= i < |Front(tried)| && Front(tried)[i].credentialId == id;
      assert tried[i].credentialId == id;
    }
  }

  // The report names the credential that succeeded: that of the last route tried.
  lemma ReportNamesSuccess(primary: Option<RoutePlanItem>, fallbacks: seq<FallbackRoute>, tried: seq<RoutePlanItem>,
                           config: ExecutorConfig, call: Caller, id: string)
    ensures var result := Report(primary, fallbacks, tried, config, call);
            result.success && result.credentialId == Some(id) <==>
            tried != [] && Last(tried).credentialId == id && AttemptRoute(call(|tried| - 1, Last(tried))).Success?
  {
  }

  lemma TriedAreCounted(tried: seq<RoutePlanItem>, config: ExecutorConfig, call: Caller, clock: nat -> int,
                        s: State, s': State, maxEntries: nat, id: string)
    requires Performed(s, RecordsOf(tried, call, clock), s', maxEntries) && id != ""
    requires NoEvictionDue(s, CredentialsOf(tried) - {""}, |tried|, maxEntries) && DistinctCredentials(tried)
    requires forall i | 0 <= i < |tried| - 1 :: !Final(config, call(i, tried[i]))
    ensures var succeeded := tried != [] && Last(tried).credentialId == id &&
                             AttemptRoute(call(|tried| - 1, Last(tried))).Success?;
            Counted(s, s', id, if id in CredentialsOf(tried) then 1 else 0, if succeeded then 1 else 0)
  {
    RecordedIdsAreTried(tried, call, clock);
    RecordingsCount(s, RecordsOf(tried, call, clock), s', maxEntries, id);
    RecordingsOfTried(tried, config, call, clock, id);
  }

  // Unless a cleanup is due and the credentials tried do not fit beside the entries there are, an execution raises
  // the request count of exactly the credentials it tried, each by one, and the success count of exactly the
  // credential it reports as successful; it leaves all others alone.
  lemma ExecutionConservesAccounts(primary: Option<RoutePlanItem>, fallbacks: seq<FallbackRoute>,
                                   config: ExecutorConfig, call: Caller, clock: nat -> int,
                                   s: State, s': State, maxEntries: nat, id: string)
    requires var tried := Remaining(Candidates(primary, fallbacks), [], config, call);
             Performed(s, RecordsOf(tried, call, clock), s', maxEntries) &&
             NoEvictionDue(s, CredentialsOf(tried) - {""}, |tried|, maxEntries)
    requires id != ""
    ensures var tried := Remaining(Candidates(primary, fallbacks), [], config, call);
            var result := Report(primary, fallbacks, tried, config, call);
            Counted(s, s', id, if id in CredentialsOf(tried) then 1 else 0,
                    if result.success && result.credentialId == Some(id) then 1 else 0)
  {
    var tried := Remaining(Candidates(primary, fallbacks), [], config, call);
    TriedRoutesAreDistinct(primary, fallbacks, config, call);
    ExecutionTries(Candidates(primary, fallbacks), config, call);
    TriedAreCounted(tried, config, call, clock, s, s', maxEntries, id);
    ReportNamesSuccess(primary, fallbacks, tried, config, call, id);
  }
}
