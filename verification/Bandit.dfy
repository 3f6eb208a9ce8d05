// The bandit's success and failure counters, with decay of old samples.

module Bandit {

  import opened Smoothing

  datatype RouteStats = RouteStats(
    successes: real,
    failures: real,
    pulls: nat,
    lastUtility: real,
    diversityPenalty: real)
  {
    // The weight of all evidence on a route, prior included.
    function Mass(): real {
      successes + failures
    }
  }

  const FRESH := RouteStats(1.0, 1.0, 0, 0.5, 0.0)

  const WARM_UP := 10   // pulls before decay sets in

  datatype Op =
    | RecordResult(id: string, success: bool, utility: real)
    | SetDiversityPenalty(id: string, penalty: real)
    | ResetRoute(id: string)
    | ResetAll

  type Stats = map<string, RouteStats>

  function StatsOf(stats: Stats, id: string): RouteStats {
    if id in stats then stats[id] else FRESH
  }

  function Clamp(x: real): real {
    if x < 0.0 then 0.0 else if x > 1.0 then 1.0 else x
  }

  function Counted(s: RouteStats, success: bool, utility: real): RouteStats {
    RouteStats(if success then s.successes + 1.0 else s.successes, if success then s.failures else s.failures + 1.0,
               s.pulls + 1, utility, s.diversityPenalty)
  }

  function Decayed(s: RouteStats, decay: real): RouteStats {
    s.(successes := s.successes * decay, failures := s.failures * decay)
  }

  function Pulled(s: RouteStats, success: bool, utility: real, decay: real): RouteStats {
    var counted := Counted(s, success, utility);
    if decay < 1.0 && counted.pulls > WARM_UP then Decayed(counted, decay) else counted
  }

  function Apply(stats: Stats, op: Op, decay: real): Stats {
    match op
    case RecordResult(id, success, utility) => stats[id := Pulled(StatsOf(stats, id), success, utility, decay)]
    case SetDiversityPenalty(id, penalty) => stats[id := StatsOf(stats, id).(diversityPenalty := Clamp(penalty))]
    case ResetRoute(id) => stats - {id}
    case ResetAll => map[]
  }

  function Run(ops: seq<Op>, decay: real): Stats {
    if ops == [] then map[] else Apply(Run(ops[..|ops| - 1], decay), ops[|ops| - 1], decay)
  }

  class BanditPolicy {
    var routeStats: Stats
    const sampleDecay: real
    ghost var history: seq<Op>

    ghost predicate Valid()
      reads this
    {
      routeStats == Run(history, sampleDecay)
    }

    constructor (sampleDecay: real)
      ensures Valid() && history == [] && this.sampleDecay == sampleDecay
    {
      routeStats, history := map[], [];
      this.sampleDecay := sampleDecay;
    }

    method Record(id: string, success: bool, utility: real)
      requires Valid()
      modifies this
      ensures Valid() && history == old(history) + [RecordResult(id, success, utility)]
    {
      var stats := if id in routeStats then routeStats[id] else FRESH;
      if success {
        stats := stats.(successes := stats.successes + 1.0);
      } else {
        stats := stats.(failures := stats.failures + 1.0);
      }
      stats := stats.(pulls := stats.pulls + 1, lastUtility := utility);
      ghost var counted := Counted(StatsOf(routeStats, id), success, utility);
      assert stats == counted;
      if sampleDecay < 1.0 && stats.pulls > 10 {
        stats := stats.(successes := stats.successes * sampleDecay, failures := stats.failures * sampleDecay);
        assert stats == Decayed(counted, sampleDecay);
      }
      routeStats := routeStats[id := stats];
      history := history + [RecordResult(id, success, utility)];
      assert history[..|history| - 1] == old(history);
    }

    method Penalise(id: string, penalty: real)
      requires Valid()
      modifies this
      ensures Valid() && history == old(history) + [SetDiversityPenalty(id, penalty)]
      ensures id in routeStats && routeStats - {id} == old(routeStats) - {id}
      ensures var was := if id in old(routeStats) then old(routeStats)[id] else RouteStats(1.0, 1.0, 0, 0.5, 0.0);
              var p := routeStats[id].diversityPenalty;
              routeStats[id] == was.(diversityPenalty := p) && 0.0 <= p <= 1.0 &&
              (0.0 <= penalty <= 1.0 ==> p == penalty) && (penalty < 0.0 ==> p == 0.0) && (penalty > 1.0 ==> p == 1.0)
    {
      var stats := if id in routeStats then routeStats[id] else FRESH;
      routeStats := routeStats[id := stats.(diversityPenalty := Clamp(penalty))];
      history := history + [SetDiversityPenalty(id, penalty)];
      assert history[..|history| - 1] == old(history);
    }

    method Reset(id: string)
      requires Valid()
      modifies this
      ensures Valid() && history == old(history) + [ResetRoute(id)]
    {
      routeStats := routeStats - {id};
      history := history + [ResetRoute(id)];
      assert history[..|history| - 1] == old(history);
    }

    method Clear()
      requires Valid()
      modifies this
      ensures Valid() && history == old(history) + [ResetAll]
    {
      routeStats := map[];
      history := history + [ResetAll];
      assert history[..|history| - 1] == old(history);
    }
  }

  // The mass law

  // The mass of a route after n pulls, whatever their results.
  function MassAfter(n: nat, decay: real): real {
    if n == 0 then 2.0
    else if decay < 1.0 && n > WARM_UP then decay * (MassAfter(n - 1, decay) + 1.0)
    else MassAfter(n - 1, decay) + 1.0
  }

  // Where the mass is heading under decay.
  function Limit(decay: real): real
    requires decay < 1.0
  {
    decay / (1.0 - decay)
  }

  lemma LimitIsFixed(decay: real)
    requires decay < 1.0
    ensures decay * (Limit(decay) + 1.0) == Limit(decay)
  {
    var gap := 1.0 - decay;
    assert Limit(decay) * gap == decay;
    assert Limit(decay) - Limit(decay) * decay == Limit(decay) * gap;
  }

  lemma {:induction false} WarmUpMass(n: nat, decay: real)
    requires n <= WARM_UP || decay >= 1.0
    ensures MassAfter(n, decay) == 2.0 + n as real
  {
    if n > 0 { WarmUpMass(n - 1, decay); }
  }

  // In closed form: from the warm-up's 12, every further pull brings the mass closer to the limit by the factor decay.
  function ClosedMass(n: nat, decay: real): real {
    if n <= WARM_UP || decay >= 1.0 then 2.0 + n as real
    else Limit(decay) + Power(decay, n - WARM_UP) * (12.0 - Limit(decay))
  }

  lemma {:induction false} MassApproachesLimit(n: nat, decay: real)
    requires decay < 1.0 && n >= WARM_UP
    ensures MassAfter(n, decay) - Limit(decay) == Power(decay, n - WARM_UP) * (12.0 - Limit(decay))
  {
    if n == WARM_UP {
      WarmUpMass(n, decay);
    } else {
      MassApproachesLimit(n - 1, decay);
      LimitIsFixed(decay);
      var before, limit, p := MassAfter(n - 1, decay), Limit(decay), Power(decay, n - 1 - WARM_UP);
      assert decay * (before + 1.0) - decay * (limit + 1.0) == decay * (before - limit);
      assert decay * (p * (12.0 - limit)) == (decay * p) * (12.0 - limit);
      assert Power(decay, n - WARM_UP) == decay * p;
    }
  }

  lemma MassLaw(n: nat, decay: real)
    ensures MassAfter(n, decay) == ClosedMass(n, decay)
  {
    if n <= WARM_UP || decay >= 1.0 {
      WarmUpMass(n, decay);
    } else {
      MassApproachesLimit(n, decay);
    }
  }

  function Larger(x: real, y: real): real {
    if x >= y then x else y
  }

  lemma ScaleAtMost(x: real, y: real, factor: real)
    requires x <= y && 0.0 <= factor
    ensures factor * x <= factor * y
  {
  }

  // A mass of at least the limit does not grow.
  lemma BoundAbsorbs(bound: real, decay: real)
    requires 0.0 <= decay < 1.0 && Limit(decay) <= bound
    ensures decay * (bound + 1.0) <= bound
  {
    var gap, product := 1.0 - decay, decay * bound;
    ScaleAtMost(Limit(decay), bound, gap);
    assert gap * Limit(decay) == decay;
    assert gap * bound == bound - product;
  }

  lemma {:induction false} MassIsBounded(n: nat, decay: real)
    requires 0.0 <= decay < 1.0
    ensures MassAfter(n, decay) <= Larger(12.0, Limit(decay))
  {
    if n <= WARM_UP {
      WarmUpMass(n, decay);
    } else {
      var bound := Larger(12.0, Limit(decay));
      MassIsBounded(n - 1, decay);
      ScaleAtMost(MassAfter(n - 1, decay) + 1.0, bound + 1.0, decay);
      BoundAbsorbs(bound, decay);
    }
  }

  // Every run

  ghost predicate Lawful(s: RouteStats, decay: real) {
    s.Mass() == MassAfter(s.pulls, decay) && (decay > 0.0 ==> s.successes > 0.0 && s.failures > 0.0)
  }

  lemma DecayedMass(s: RouteStats, decay: real)
    ensures Decayed(s, decay).Mass() == decay * s.Mass()
    ensures 0.0 < decay && s.successes > 0.0 && s.failures > 0.0 ==>
              Decayed(s, decay).successes > 0.0 && Decayed(s, decay).failures > 0.0
  {
  }

  lemma PulledIsLawful(s: RouteStats, success: bool, utility: real, decay: real)
    requires Lawful(s, decay)
    ensures Lawful(Pulled(s, success, utility, decay), decay)
  {
    var counted := Counted(s, success, utility);
    assert counted.Mass() == s.Mass() + 1.0;
    DecayedMass(counted, decay);
  }

  lemma {:induction false} RunIsLawful(ops: seq<Op>, decay: real)
    ensures forall id | id in Run(ops, decay) :: Lawful(Run(ops, decay)[id], decay)
    decreases |ops|
  {
    if ops != [] {
      var before, op := Run(ops[..|ops| - 1], decay), ops[|ops| - 1];
      RunIsLawful(ops[..|ops| - 1], decay);
      if op.RecordResult? {
        PulledIsLawful(StatsOf(before, op.id), op.success, op.utility, decay);
      }
    }
  }

  // The mass of a route in any run, in closed form: it depends on nothing but the pulls since its last reset.
  lemma RunMassLaw(ops: seq<Op>, id: string, decay: real)
    requires id in Run(ops, decay)
    ensures Run(ops, decay)[id].Mass() == ClosedMass(Run(ops, decay)[id].pulls, decay)
  {
    RunIsLawful(ops, decay);
    MassLaw(Run(ops, decay)[id].pulls, decay);
  }

  // The counters of a route in any run, in closed form

  datatype Outcome = Outcome(success: bool, utility: real)

  // What was recorded for a route since it was last reset.
  function OutcomesOf(ops: seq<Op>, id: string): seq<Outcome> {
    if ops == [] then []
    else
      var before := OutcomesOf(ops[..|ops| - 1], id);
      match ops[|ops| - 1]
      case RecordResult(other, success, utility) => if other == id then before + [Outcome(success, utility)] else before
      case SetDiversityPenalty(_, _) => before
      case ResetRoute(other) => if other == id then [] else before
      case ResetAll => []
  }

  // How often what the k-th pull recorded has decayed after n pulls: at its own pull and each later one, the first
  // ten excepted. The prior counts as pull zero.
  function Decays(k: nat, n: nat, decay: real): nat {
    if n <= 10 || n < k || decay >= 1.0 then 0 else if k > 11 then n - k + 1 else n - 10
  }

  // What the prior and each of n pulls still weigh after them.
  ghost predicate IsWeights(weights: seq<real>, n: nat, decay: real) {
    |weights| == n + 1 &&
    forall k {:trigger Decays(k, n, decay)} | 0 <= k <= n :: weights[k] == Power(decay, Decays(k, n, decay))
  }

  lemma WeightsExist(n: nat, decay: real) returns (weights: seq<real>)
    ensures IsWeights(weights, n, decay)
  {
    weights := seq(n + 1, k requires 0 <= k <= n => Power(decay, Decays(k, n, decay)));
  }

  // The weight of the prior and of those outcomes that are a success, or a failure.
  function Worth(outcomes: seq<Outcome>, success: bool, weights: seq<real>): real
    requires |outcomes| < |weights|
  {
    if outcomes == [] then weights[0]
    else
      var n := |outcomes|;
      Worth(outcomes[..n - 1], success, weights) + if outcomes[n - 1].success == success then weights[n] else 0.0
  }

  ghost predicate Accounts(s: RouteStats, outcomes: seq<Outcome>, weights: seq<real>)
    requires |outcomes| < |weights|
  {
    s.pulls == |outcomes| && s.lastUtility == (if outcomes == [] then 0.5 else outcomes[|outcomes| - 1].utility) &&
    s.successes == Worth(outcomes, true, weights) && s.failures == Worth(outcomes, false, weights)
  }

  lemma {:induction false} WorthScales(outcomes: seq<Outcome>, success: bool, weights: seq<real>, scaled: seq<real>,
                                       factor: real)
    requires |outcomes| < |weights| && |outcomes| < |scaled|
    requires forall k | 0 <= k <= |outcomes| :: scaled[k] == factor * weights[k]
    ensures Worth(outcomes, success, scaled) == factor * Worth(outcomes, success, weights)
    decreases |outcomes|
  {
    if outcomes != [] {
      var n := |outcomes|;
      WorthScales(outcomes[..n - 1], success, weights, scaled, factor);
      Distributes(factor, Worth(outcomes[..n - 1], success, weights), weights[n]);
    }
  }

  // A pull past the first ten discounts everything before it once more, and itself once.
  lemma WeightsOneMore(weights: seq<real>, scaled: seq<real>, n: nat, decay: real, factor: real)
    requires IsWeights(weights, n, decay) && IsWeights(scaled, n + 1, decay)
    requires factor == if n >= 10 && decay < 1.0 then decay else 1.0
    ensures forall k | 0 <= k <= n :: scaled[k] == factor * weights[k]
    ensures scaled[n + 1] == factor
  {
    forall k | 0 <= k <= n ensures scaled[k] == factor * weights[k] {
      assert Decays(k, n + 1, decay) == Decays(k, n, decay) + if n >= 10 && decay < 1.0 then 1 else 0;
    }
    assert Decays(n + 1, n + 1, decay) == if n >= 10 && decay < 1.0 then 1 else 0;
    assert Power(decay, 0) == 1.0 && Power(decay, 1) == decay * Power(decay, 0);
  }

  lemma WorthOneMore(outcomes: seq<Outcome>, x: Outcome, success: bool, weights: seq<real>, scaled: seq<real>,
                     factor: real)
    requires |weights| == |outcomes| + 1 == |scaled| - 1 && scaled[|outcomes| + 1] == factor
    requires forall k | 0 <= k <= |outcomes| :: scaled[k] == factor * weights[k]
    ensures Worth(outcomes + [x], success, scaled) ==
            factor * Worth(outcomes, success, weights) + if x.success == success then factor else 0.0
  {
    assert (outcomes + [x])[..|outcomes|] == outcomes;
    WorthScales(outcomes, success, weights, scaled, factor);
  }

  // A counter after one more outcome, which counts for it or does not.
  function NextCounter(counter: real, counts: bool, n: nat, decay: real): real {
    var more := if counts then counter + 1.0 else counter;
    if n >= 10 && decay < 1.0 then more * decay else more
  }

  lemma NextIsSum(counter: real, counts: bool, n: nat, decay: real, factor: real)
    requires factor == if n >= 10 && decay < 1.0 then decay else 1.0
    ensures NextCounter(counter, counts, n, decay) == factor * counter + if counts then factor else 0.0
  {
  }

  lemma CounterOneMore(outcomes: seq<Outcome>, x: Outcome, success: bool, weights: seq<real>, scaled: seq<real>,
                       decay: real)
    requires IsWeights(weights, |outcomes|, decay) && IsWeights(scaled, |outcomes| + 1, decay)
    ensures Worth(outcomes + [x], success, scaled) ==
            NextCounter(Worth(outcomes, success, weights), x.success == success, |outcomes|, decay)
  {
    var n := |outcomes|;
    var factor := if n >= 10 && decay < 1.0 then decay else 1.0;
    WeightsOneMore(weights, scaled, n, decay, factor);
    WorthOneMore(outcomes, x, success, weights, scaled, factor);
    NextIsSum(Worth(outcomes, success, weights), x.success == success, n, decay, factor);
  }

  lemma PulledCounters(s: RouteStats, success: bool, utility: real, decay: real)
    ensures var t := Pulled(s, success, utility, decay);
            t.pulls == s.pulls + 1 && t.lastUtility == utility &&
            t.successes == NextCounter(s.successes, success, s.pulls, decay) &&
            t.failures == NextCounter(s.failures, !success, s.pulls, decay)
  {
  }

  lemma PulledAccounts(s: RouteStats, outcomes: seq<Outcome>, success: bool, utility: real, decay: real,
                       weights: seq<real>, scaled: seq<real>)
    requires IsWeights(weights, |outcomes|, decay) && IsWeights(scaled, |outcomes| + 1, decay)
    requires Accounts(s, outcomes, weights)
    ensures Accounts(Pulled(s, success, utility, decay), outcomes + [Outcome(success, utility)], scaled)
  {
    PulledCounters(s, success, utility, decay);
    CounterOneMore(outcomes, Outcome(success, utility), true, weights, scaled, decay);
    CounterOneMore(outcomes, Outcome(success, utility), false, weights, scaled, decay);
  }

  // Either counter is its prior of one and an outcome for each success or failure recorded since the last reset,
  // each discounted by the decay once for every pull from its own on, but not for the first ten; a route without
  // statistics has no such outcomes.
  lemma {:induction false} CountersAreExact(ops: seq<Op>, id: string, decay: real, weights: seq<real>)
    requires IsWeights(weights, |OutcomesOf(ops, id)|, decay)
    ensures Accounts(StatsOf(Run(ops, decay), id), OutcomesOf(ops, id), weights)
    ensures id !in Run(ops, decay) ==> OutcomesOf(ops, id) == []
    decreases |ops|
  {
    if OutcomesOf(ops, id) == [] {
      assert Decays(0, 0, decay) == 0 && Power(decay, 0) == 1.0;
    }
    if ops != [] {
      var front, op := ops[..|ops| - 1], ops[|ops| - 1];
      var before := WeightsExist(|OutcomesOf(front, id)|, decay);
      CountersAreExact(front, id, decay, before);
      if op.RecordResult? && op.id == id {
        PulledAccounts(StatsOf(Run(front, decay), id), OutcomesOf(front, id), op.success, op.utility, decay,
                       before, weights);
      } else if OutcomesOf(ops, id) != [] {
        CountersAreExact(front, id, decay, weights);
      }
    }
  }

  // The penalty last set for a route since it was last reset, cut to the range from zero to one.
  ghost predicate IsPenalty(ops: seq<Op>, id: string, penalty: real)
    decreases |ops|
  {
    if ops == [] then penalty == 0.0
    else
      match ops[|ops| - 1]
      case RecordResult(_, _, _) => IsPenalty(ops[..|ops| - 1], id, penalty)
      case SetDiversityPenalty(other, p) =>
        if other != id then IsPenalty(ops[..|ops| - 1], id, penalty)
        else if 0.0 <= p <= 1.0 then penalty == p
        else penalty == if p < 0.0 then 0.0 else 1.0
      case ResetRoute(other) => if other == id then penalty == 0.0 else IsPenalty(ops[..|ops| - 1], id, penalty)
      case ResetAll => penalty == 0.0
  }

  lemma {:induction false} PenaltyIsKept(ops: seq<Op>, id: string, decay: real)
    ensures IsPenalty(ops, id, StatsOf(Run(ops, decay), id).diversityPenalty)
    decreases |ops|
  {
    if ops != [] { PenaltyIsKept(ops[..|ops| - 1], id, decay); }
  }

  // However many pulls, the counters stay positive and their sum stays under a bound set by the decay alone.
  lemma CountersStayInRange(ops: seq<Op>, id: string, decay: real)
    requires 0.0 < decay < 1.0 && id in Run(ops, decay)
    ensures var s := Run(ops, decay)[id];
            0.0 < s.successes && 0.0 < s.failures && s.Mass() <= Larger(12.0, Limit(decay))
  {
    RunIsLawful(ops, decay);
    MassIsBounded(Run(ops, decay)[id].pulls, decay);
  }

  lemma DefaultDecayBound(ops: seq<Op>, id: string)
    requires id in Run(ops, 0.99)
    ensures Run(ops, 0.99)[id].Mass() <= 99.0
  {
    CountersStayInRange(ops, id, 0.99);
  }

  // When the promises fail

  function Wins(n: nat): (ops: seq<Op>)
    ensures |ops| == n
  {
    if n == 0 then [] else Wins(n - 1) + [RecordResult("r", true, 1.0)]
  }

  lemma WinsOneMore(n: nat, decay: real)
    ensures "r" in Run(Wins(n + 1), decay)
    ensures Run(Wins(n + 1), decay)["r"] == Pulled(StatsOf(Run(Wins(n), decay), "r"), true, 1.0, decay)
  {
    assert Wins(n + 1)[..n] == Wins(n);
  }

  ghost predicate IsTally(s: RouteStats, n: nat) {
    s.pulls == n && s.successes == 1.0 + n as real && s.failures == 1.0
  }

  lemma TallyOneMore(s: RouteStats, n: nat, decay: real)
    requires IsTally(s, n) && (n < WARM_UP || decay >= 1.0)
    ensures IsTally(Pulled(s, true, 1.0, decay), n + 1)
  {
  }

  lemma {:induction false} WinsAreCounted(n: nat, decay: real)
    requires n <= WARM_UP || decay >= 1.0
    ensures IsTally(StatsOf(Run(Wins(n), decay), "r"), n)
  {
    if n > 0 {
      WinsAreCounted(n - 1, decay);
      WinsOneMore(n - 1, decay);
      TallyOneMore(StatsOf(Run(Wins(n - 1), decay), "r"), n - 1, decay);
    }
  }

  ghost predicate AlwaysPositive(decay: real) {
    forall ops, id | id in Run(ops, decay) :: Run(ops, decay)[id].successes > 0.0 && Run(ops, decay)[id].failures > 0.0
  }

  // Neither counter ever exceeds bound in magnitude.
  ghost predicate AlwaysWithin(decay: real, bound: real) {
    forall ops, id | id in Run(ops, decay) :: CountersWithin(Run(ops, decay)[id], bound)
  }

  predicate CountersWithin(s: RouteStats, bound: real) {
    -bound <= s.successes <= bound && -bound <= s.failures <= bound
  }

  lemma PositiveIffDecayPositive(decay: real)
    ensures AlwaysPositive(decay) <==> decay > 0.0
  {
    if decay > 0.0 {
      forall ops, id | id in Run(ops, decay)
        ensures Run(ops, decay)[id].successes > 0.0 && Run(ops, decay)[id].failures > 0.0
      {
        RunIsLawful(ops, decay);
      }
    } else {
      WinsAreCounted(WARM_UP, decay);
      WinsOneMore(WARM_UP, decay);
      assert Run(Wins(WARM_UP + 1), decay)["r"].successes == 12.0 * decay;
    }
  }

  // The ends of the documented range: at 0 the eleventh win erases every success.
  lemma DecayZeroErases()
    ensures "r" in Run(Wins(11), 0.0) && Run(Wins(11), 0.0)["r"].successes == 0.0
  {
    WinsAreCounted(10, 0.0);
    WinsOneMore(10, 0.0);
  }

  // At 1 nothing is forgotten: the hundredth win passes the bound that holds at the default decay.
  lemma DecayOneExceeds()
    ensures "r" in Run(Wins(100), 1.0) && Run(Wins(100), 1.0)["r"].successes == 101.0
  {
    WinsAreCounted(100, 1.0);
    WinsOneMore(99, 1.0);
  }

  function Magnitude(x: real): real {
    if x < 0.0 then -x else x
  }

  // Counters past the warm-up that are within bound stay within it.
  predicate Absorbing(bound: real, decay: real) {
    11.0 <= bound && Magnitude(decay) * (bound + 1.0) <= bound
  }

  // The counters of a route: within what the pulls account for, and then within bound.
  predicate Contained(s: RouteStats, bound: real) {
    CountersWithin(s, if s.pulls <= WARM_UP then 1.0 + s.pulls as real else bound)
  }

  lemma ProductWithin(x: real, decay: real, bound: real)
    requires Absorbing(bound, decay) && -(bound + 1.0) <= x <= bound + 1.0
    ensures -bound <= x * decay <= bound
  {
    var d := Magnitude(decay);
    ScaleAtMost(x, bound + 1.0, d);
    ScaleAtMost(-(bound + 1.0), x, d);
    assert x * decay == if decay < 0.0 then -(d * x) else d * x;
  }

  lemma DecayedIsWithin(s: RouteStats, decay: real, bound: real)
    requires Absorbing(bound, decay) && CountersWithin(s, bound + 1.0)
    ensures CountersWithin(Decayed(s, decay), bound)
  {
    ProductWithin(s.successes, decay, bound);
    ProductWithin(s.failures, decay, bound);
  }

  lemma PulledIsContained(s: RouteStats, success: bool, utility: real, decay: real, bound: real)
    requires decay < 1.0 && Absorbing(bound, decay) && Contained(s, bound)
    ensures Contained(Pulled(s, success, utility, decay), bound)
  {
    var counted := Counted(s, success, utility);
    if counted.pulls > WARM_UP {
      assert CountersWithin(counted, bound + 1.0);
      DecayedIsWithin(counted, decay, bound);
    }
  }

  lemma {:induction false} RunIsContained(ops: seq<Op>, decay: real, bound: real)
    requires decay < 1.0 && Absorbing(bound, decay)
    ensures forall id | id in Run(ops, decay) :: Contained(Run(ops, decay)[id], bound)
    decreases |ops|
  {
    if ops != [] {
      var before, op := Run(ops[..|ops| - 1], decay), ops[|ops| - 1];
      RunIsContained(ops[..|ops| - 1], decay, bound);
      if op.RecordResult? {
        PulledIsContained(StatsOf(before, op.id), op.success, op.utility, decay, bound);
      }
    }
  }

  lemma AlwaysWithinIf(decay: real) returns (bound: real)
    requires -1.0 < decay < 1.0
    ensures AlwaysWithin(decay, bound)
  {
    bound := Larger(11.0, Limit(Magnitude(decay)));
    BoundAbsorbs(bound, Magnitude(decay));
    forall ops, id | id in Run(ops, decay) ensures CountersWithin(Run(ops, decay)[id], bound) {
      RunIsContained(ops, decay, bound);
    }
  }

  // A warm-up of wins, followed by n times a win and a loss.
  function Swings(n: nat): seq<Op> {
    if n == 0 then Wins(WARM_UP)
    else Swings(n - 1) + [RecordResult("r", true, 1.0)] + [RecordResult("r", false, 0.0)]
  }

  lemma SquareGrows(x: real, decay: real)
    requires 0.0 <= x && decay <= -1.0
    ensures x * decay * decay >= x
  {
    var d := -decay;
    assert x * d >= x by { ScaleAtMost(1.0, d, x); }
    assert x * d * d >= x * d by { ScaleAtMost(1.0, d, x * d); }
  }

  ghost predicate HasSwung(s: RouteStats, n: nat) {
    s.pulls >= WARM_UP && s.successes >= 11.0 + n as real
  }

  lemma WinThenLoss(s: RouteStats, decay: real, x: real)
    requires decay < 1.0 && s.pulls >= WARM_UP && x == s.successes + 1.0
    ensures var t := Pulled(Pulled(s, true, 1.0, decay), false, 0.0, decay);
            t.pulls == s.pulls + 2 && t.successes == x * decay * decay
  {
  }

  // Two sign changes in a row leave a win behind.
  lemma SwingGrows(s: RouteStats, n: nat, decay: real)
    requires decay <= -1.0 && HasSwung(s, n)
    ensures HasSwung(Pulled(Pulled(s, true, 1.0, decay), false, 0.0, decay), n + 1)
  {
    var x := s.successes + 1.0;
    WinThenLoss(s, decay, x);
    SquareGrows(x, decay);
  }

  lemma SwingsOneMore(n: nat, decay: real)
    ensures "r" in Run(Swings(n + 1), decay)
    ensures Run(Swings(n + 1), decay)["r"] ==
            Pulled(Pulled(StatsOf(Run(Swings(n), decay), "r"), true, 1.0, decay), false, 0.0, decay)
  {
    var won := Swings(n) + [RecordResult("r", true, 1.0)];
    assert won[..|won| - 1] == Swings(n) && Swings(n + 1)[..|won|] == won;
  }

  lemma {:induction false} SwingsGrow(n: nat, decay: real)
    requires decay <= -1.0
    ensures HasSwung(StatsOf(Run(Swings(n), decay), "r"), n)
  {
    if n == 0 {
      WinsAreCounted(WARM_UP, decay);
    } else {
      SwingsGrow(n - 1, decay);
      SwingGrows(StatsOf(Run(Swings(n - 1), decay), "r"), n - 1, decay);
      SwingsOneMore(n - 1, decay);
    }
  }

  lemma NeverWithinIf(decay: real, bound: real)
    requires decay <= -1.0 || decay >= 1.0
    ensures !AlwaysWithin(decay, bound)
  {
    var n: nat := if bound < 0.0 then 0 else bound.Floor;
    if decay >= 1.0 {
      WinsOneMore(n, decay);
      WinsAreCounted(n + 1, decay);
      assert !CountersWithin(Run(Wins(n + 1), decay)["r"], bound);
    } else {
      SwingsOneMore(n, decay);
      SwingsGrow(n + 1, decay);
      assert !CountersWithin(Run(Swings(n + 1), decay)["r"], bound);
    }
  }

  // The counters are bounded over all runs exactly when the decay is less than 1 in magnitude.
  lemma BoundedIffDecaying(decay: real)
    ensures (exists bound :: AlwaysWithin(decay, bound)) <==> -1.0 < decay < 1.0
  {
    if -1.0 < decay < 1.0 {
      var bound := AlwaysWithinIf(decay);
    } else {
      forall bound ensures !AlwaysWithin(decay, bound) {
        NeverWithinIf(decay, bound);
      }
    }
  }
}
