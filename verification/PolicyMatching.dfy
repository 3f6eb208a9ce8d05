// Matching a model against the registered policies, and combining what the matches say.

module PolicyMatching {

  import opened Smoothing
  import opened Wrappers
  import opened StableSorting
  import opened TextSearch
  import opened ModelCatalog
  import opened Policies

  // A model with its tier and provider category, which are read off tables of names elsewhere.
  datatype Subject = Subject(info: ModelInfo, tier: Tier, provider: ProviderCategory) {
    function CostBand(): CostBand {
      var price := info.inputPricePerMillion;
      if price >= 50.0 then UltraPremium
      else if price >= 10.0 then PremiumCost
      else if price >= 1.0 then StandardCost
      else Economy
    }

    function ContextBand(): ContextBand {
      var window := info.contextWindow;
      if window >= 500_000 then Ultra
      else if window >= 128_000 then Large
      else if window >= 32_000 then Medium
      else Small
    }

    predicate Has(capability: Capability) {
      match capability
      case Vision => info.capabilities.vision
      case Tools => info.capabilities.tools
      case Streaming => info.capabilities.streaming
      case Thinking => info.capabilities.thinking
    }

    predicate Supports(modality: Modality) {
      match modality
      case Image | Video => info.capabilities.vision
      case Audio | Embedding => false
      case Text | Code => true
    }
  }

  // What a request decides about each condition.
  type Context = PolicyCondition -> bool

  datatype PolicyMatch = PolicyMatch(policy: RoutingPolicy, score: real, conditionsMet: bool)

  // Which policies apply

  predicate PassesFilter(filter: CapabilityFilter, subject: Subject) {
    match filter.mode
    case "require" => subject.Has(filter.capability)
    case "exclude" => !subject.Has(filter.capability)
    case _ => true
  }

  predicate Allows<T(==)>(allowed: seq<T>, x: T) {
    allowed == [] || x in allowed
  }

  // Empty names are skipped.
  predicate NamedIn(names: seq<string>, text: string) {
    exists name | name in names :: name != "" && Contains(text, name)
  }

  predicate MatchesModel(policy: RoutingPolicy, subject: Subject) {
    var filters, action := policy.filters, policy.action;
    (forall filter | filter in filters.capabilities :: PassesFilter(filter, subject)) &&
    Allows(filters.tiers, subject.tier) &&
    Allows(filters.costs, subject.CostBand()) &&
    Allows(filters.contextWindows, subject.ContextBand()) &&
    Allows(filters.providers, subject.provider) &&
    (forall modality | modality in filters.modalities :: subject.Supports(modality)) &&
    (action.maxCostPerMillion.Some? ==> subject.info.inputPricePerMillion <= action.maxCostPerMillion.value) &&
    (action.minContextWindow.Some? ==> subject.info.contextWindow >= action.minContextWindow.value) &&
    !NamedIn(action.avoid, subject.info.id) && !NamedIn(action.avoid, subject.info.provider)
  }

  predicate Matches(policy: RoutingPolicy, context: Context) {
    policy.enabled && forall condition | condition in policy.conditions :: context(condition)
  }

  predicate Applies(policy: RoutingPolicy, subject: Subject, context: Context) {
    policy.enabled && Matches(policy, context) && MatchesModel(policy, subject)
  }

  // Scores

  function Base(action: PolicyAction): real {
    match action.actionType
    case "prefer" => 1.5
    case "avoid" => 0.5
    case "block" => 0.0
    case "weight" => action.weightFactor
    case _ => 1.0
  }

  function Boosted(x: real, n: nat): real {
    if n == 0 then x else Boosted(x, n - 1) * 1.1
  }

  function PreferencesMet(filters: seq<CapabilityFilter>, subject: Subject): nat {
    if filters == [] then 0
    else
      var last := filters[|filters| - 1];
      PreferencesMet(filters[..|filters| - 1], subject) +
      if last.mode == "prefer" && subject.Has(last.capability) then 1 else 0
  }

  function PriorityFactor(policy: RoutingPolicy): real {
    policy.priority as real * 0.01 + 1.0
  }

  // The base score with the bonuses for the provider and the model.
  function WithBonuses(policy: RoutingPolicy, subject: Subject): real {
    var base := Base(policy.action);
    var byProvider := if subject.provider in policy.action.preferredProviders then base * 1.2 else base;
    if NamedIn(policy.action.preferredModels, subject.info.id) then byProvider * 1.3 else byProvider
  }

  // The base score with a bonus of 20% for a preferred provider, 30% for a preferred model and 10% for each preferred
  // capability held, scaled by 1% per point of priority.
  function Score(policy: RoutingPolicy, subject: Subject): real {
    Boosted(WithBonuses(policy, subject), PreferencesMet(policy.filters.capabilities, subject)) * PriorityFactor(policy)
  }

  method CalculateScore(policy: RoutingPolicy, subject: Subject) returns (score: real)
    ensures score == Score(policy, subject)
  {
    score := Base(policy.action);
    if subject.provider in policy.action.preferredProviders {
      score := score * 1.2;
    }
    if NamedIn(policy.action.preferredModels, subject.info.id) {
      score := score * 1.3;
    }
    ghost var unboosted := score;
    var filters := policy.filters.capabilities;
    for i := 0 to |filters|
      invariant score == Boosted(unboosted, PreferencesMet(filters[..i], subject))
    {
      assert filters[..i + 1][..i] == filters[..i];
      if filters[i].mode == "prefer" && subject.Has(filters[i].capability) {
        score := score * 1.1;
      }
    }
    assert filters[..|filters|] == filters;
    assert score == Boosted(unboosted, PreferencesMet(filters, subject));
    score := score * PriorityFactor(policy);
  }

  lemma {:induction false} BoostIsPower(x: real, n: nat)
    ensures Boosted(x, n) == x * Power(1.1, n)
  {
    if n > 0 {
      BoostIsPower(x, n - 1);
      var p := Power(1.1, n - 1);
      assert x * p * 1.1 == x * (1.1 * p);
    }
  }

  predicate PreferenceHeld(filter: CapabilityFilter, has: Capabilities) {
    filter.mode == "prefer" &&
    match filter.capability
    case Vision => has.vision
    case Tools => has.tools
    case Streaming => has.streaming
    case Thinking => has.thinking
  }

  // The positions of the preferred capabilities that the model has.
  function PreferencesHeld(filters: seq<CapabilityFilter>, has: Capabilities): set<nat> {
    set i: nat | i < |filters| && PreferenceHeld(filters[i], has)
  }

  lemma HeldOneMore(filters: seq<CapabilityFilter>, last: CapabilityFilter, has: Capabilities)
    ensures |PreferencesHeld(filters + [last], has)| ==
            |PreferencesHeld(filters, has)| + if PreferenceHeld(last, has) then 1 else 0
  {
    var before, longer, n := PreferencesHeld(filters, has), filters + [last], |filters|;
    assert longer[n] == last && forall i: nat | i < n :: longer[i] == filters[i];
    assert PreferencesHeld(longer, has) == before + if PreferenceHeld(last, has) then {n} else {};
  }

  lemma {:induction false} PreferencesAreHeld(filters: seq<CapabilityFilter>, subject: Subject)
    ensures PreferencesMet(filters, subject) == |PreferencesHeld(filters, subject.info.capabilities)|
    decreases |filters|
  {
    if filters == [] {
      assert PreferencesHeld(filters, subject.info.capabilities) == {};
    } else {
      var front, last := filters[..|filters| - 1], filters[|filters| - 1];
      PreferencesAreHeld(front, subject);
      HeldOneMore(front, last, subject.info.capabilities);
      assert filters == front + [last];
      assert PreferenceHeld(last, subject.info.capabilities) <==> last.mode == "prefer" && subject.Has(last.capability);
    }
  }

  // The base that an action gives to its score.
  predicate IsBase(base: real, action: PolicyAction) {
    (action.actionType == "prefer" ==> base == 1.5) && (action.actionType == "avoid" ==> base == 0.5) &&
    (action.actionType == "block" ==> base == 0.0) && (action.actionType == "weight" ==> base == action.weightFactor) &&
    (action.actionType !in ["prefer", "avoid", "block", "weight"] ==> base == 1.0)
  }

  // The score: the base, a fifth more for a preferred provider, three tenths more for a preferred model, a tenth more
  // for each preferred capability held, and one percent more for each point of priority.
  lemma ScoreIsExact(policy: RoutingPolicy, subject: Subject, base: real) returns (byModel: real)
    requires IsBase(base, policy.action)
    ensures var byProvider := if subject.provider in policy.action.preferredProviders then 1.2 * base else base;
            byModel == if Mentions(policy.action.preferredModels, subject.info.id) then 1.3 * byProvider else byProvider
    ensures var held := |PreferencesHeld(policy.filters.capabilities, subject.info.capabilities)|;
            Score(policy, subject) == byModel * Power(1.1, held) * (1.0 + policy.priority as real / 100.0)
  {
    byModel := BonusesAreExact(policy, subject, base);
    ScoreIsProduct(policy, subject, byModel, |PreferencesHeld(policy.filters.capabilities, subject.info.capabilities)|,
                   1.0 + policy.priority as real / 100.0);
  }

  lemma ScoreIsProduct(policy: RoutingPolicy, subject: Subject, byModel: real, held: nat, factor: real)
    requires byModel == WithBonuses(policy, subject) && factor == PriorityFactor(policy)
    requires held == |PreferencesHeld(policy.filters.capabilities, subject.info.capabilities)|
    ensures Score(policy, subject) == byModel * Power(1.1, held) * factor
  {
    PreferencesAreHeld(policy.filters.capabilities, subject);
    BoostIsPower(byModel, held);
    SameProduct(Boosted(byModel, held), byModel * Power(1.1, held), factor);
  }

  lemma SameProduct(x: real, y: real, factor: real)
    requires x == y
    ensures x * factor == y * factor
  {
  }

  lemma BonusesAreExact(policy: RoutingPolicy, subject: Subject, base: real) returns (byModel: real)
    requires IsBase(base, policy.action)
    ensures var byProvider := if subject.provider in policy.action.preferredProviders then 1.2 * base else base;
            byModel == if Mentions(policy.action.preferredModels, subject.info.id) then 1.3 * byProvider else byProvider
    ensures byModel == WithBonuses(policy, subject)
    ensures PriorityFactor(policy) == 1.0 + policy.priority as real / 100.0
  {
    byModel := WithBonuses(policy, subject);
    MentionsIff(policy.action.preferredModels, subject.info.id);
    assert Base(policy.action) == base;
  }

  lemma {:induction false} BoostKeepsSign(x: real, n: nat)
    ensures (Boosted(x, n) > 0.0 <==> x > 0.0) && (Boosted(x, n) < 0.0 <==> x < 0.0)
  {
    if n > 0 { BoostKeepsSign(x, n - 1); }
  }

  lemma ProductSign(x: real, y: real)
    ensures x * y > 0.0 <==> (x > 0.0 && y > 0.0) || (x < 0.0 && y < 0.0)
    ensures x * y == 0.0 <==> x == 0.0 || y == 0.0
  {
  }

  // A score says the opposite of its policy's action once the priority drops below -100, and nothing at -100.
  lemma ScoreSign(policy: RoutingPolicy, subject: Subject)
    ensures var base, priority := Base(policy.action), policy.priority;
            (Score(policy, subject) > 0.0 <==> (base > 0.0 && priority > -100) || (base < 0.0 && priority < -100)) &&
            (Score(policy, subject) == 0.0 <==> base == 0.0 || priority == -100)
  {
    var byModel, n := WithBonuses(policy, subject), PreferencesMet(policy.filters.capabilities, subject);
    BoostKeepsSign(byModel, n);
    ProductSign(Boosted(byModel, n), PriorityFactor(policy));
  }

  // Evaluation

  function MatchOf(policy: RoutingPolicy, subject: Subject): PolicyMatch {
    PolicyMatch(policy, Score(policy, subject), true)
  }

  function Evaluate(policies: seq<RoutingPolicy>, subject: Subject, context: Context): seq<PolicyMatch> {
    if policies == [] then []
    else
      var last := policies[|policies| - 1];
      Evaluate(policies[..|policies| - 1], subject, context) +
      if Applies(last, subject, context) then [MatchOf(last, subject)] else []
  }

  predicate IsBlocked(policies: seq<RoutingPolicy>, subject: Subject, context: Context) {
    exists policy | policy in policies ::
      policy.enabled && Matches(policy, context) && policy.action.actionType == "block" && MatchesModel(policy, subject)
  }

  lemma {:induction false} EvaluateMembers(policies: seq<RoutingPolicy>, subject: Subject, context: Context)
    ensures forall m :: m in Evaluate(policies, subject, context) <==>
                        m.policy in policies && Applies(m.policy, subject, context) && m == MatchOf(m.policy, subject)
    decreases |policies|
  {
    if policies != [] {
      var front, last := policies[..|policies| - 1], policies[|policies| - 1];
      EvaluateMembers(front, subject, context);
      assert policies == front + [last];
    }
  }

  // What it takes, in terms of the model itself

  // A required capability is one the model has, an excluded one it has not.
  predicate CapabilitiesFit(filters: seq<CapabilityFilter>, has: Capabilities) {
    (CapabilityFilter(Vision, "require") in filters ==> has.vision) &&
    (CapabilityFilter(Tools, "require") in filters ==> has.tools) &&
    (CapabilityFilter(Streaming, "require") in filters ==> has.streaming) &&
    (CapabilityFilter(Thinking, "require") in filters ==> has.thinking) &&
    (CapabilityFilter(Vision, "exclude") in filters ==> !has.vision) &&
    (CapabilityFilter(Tools, "exclude") in filters ==> !has.tools) &&
    (CapabilityFilter(Streaming, "exclude") in filters ==> !has.streaming) &&
    (CapabilityFilter(Thinking, "exclude") in filters ==> !has.thinking)
  }

  // Named bands of price per million input tokens, if there are any, one of which the price lies in.
  predicate PriceFits(costs: seq<CostBand>, price: real) {
    costs == [] || (UltraPremium in costs && 50.0 <= price) || (PremiumCost in costs && 10.0 <= price < 50.0) ||
    (StandardCost in costs && 1.0 <= price < 10.0) || (Economy in costs && price < 1.0)
  }

  predicate WindowFits(windows: seq<ContextBand>, tokens: nat) {
    windows == [] || (Ultra in windows && 500_000 <= tokens) || (Large in windows && 128_000 <= tokens < 500_000) ||
    (Medium in windows && 32_000 <= tokens < 128_000) || (Small in windows && tokens < 32_000)
  }

  // Vision stands for images and video; audio and embeddings are never supported.
  predicate ModalitiesFit(modalities: seq<Modality>, has: Capabilities) {
    (Image in modalities || Video in modalities ==> has.vision) && Audio !in modalities && Embedding !in modalities
  }

  ghost predicate Mentions(names: seq<string>, text: string) {
    exists name, i :: name in names && name != "" && OccursAt(text, name, i)
  }

  ghost predicate Fits(policy: RoutingPolicy, subject: Subject) {
    var filters, action, info := policy.filters, policy.action, subject.info;
    CapabilitiesFit(filters.capabilities, info.capabilities) &&
    (filters.tiers == [] || subject.tier in filters.tiers) &&
    PriceFits(filters.costs, info.inputPricePerMillion) && WindowFits(filters.contextWindows, info.contextWindow) &&
    (filters.providers == [] || subject.provider in filters.providers) &&
    ModalitiesFit(filters.modalities, info.capabilities) &&
    (action.maxCostPerMillion.Some? ==> info.inputPricePerMillion <= action.maxCostPerMillion.value) &&
    (action.minContextWindow.Some? ==> action.minContextWindow.value <= info.contextWindow) &&
    !Mentions(action.avoid, info.id) && !Mentions(action.avoid, info.provider)
  }

  lemma CapabilitiesFitIff(filters: seq<CapabilityFilter>, subject: Subject)
    ensures CapabilitiesFit(filters, subject.info.capabilities) <==>
            forall filter | filter in filters :: PassesFilter(filter, subject)
  {
    var has := subject.info.capabilities;
    if CapabilitiesFit(filters, has) {
      forall filter | filter in filters ensures PassesFilter(filter, subject) {
        assert CapabilityFilter(filter.capability, filter.mode) in filters;
      }
    }
    if forall filter | filter in filters :: PassesFilter(filter, subject) {
      forall c: Capability, mode: string | CapabilityFilter(c, mode) in filters
        ensures (mode == "require" ==> subject.Has(c)) && (mode == "exclude" ==> !subject.Has(c))
      {
        assert PassesFilter(CapabilityFilter(c, mode), subject);
      }
    }
  }

  lemma BandsFitIff(filters: PolicyFilters, subject: Subject)
    ensures PriceFits(filters.costs, subject.info.inputPricePerMillion) <==> Allows(filters.costs, subject.CostBand())
    ensures WindowFits(filters.contextWindows, subject.info.contextWindow) <==>
            Allows(filters.contextWindows, subject.ContextBand())
  {
  }

  lemma ModalitiesFitIff(modalities: seq<Modality>, subject: Subject)
    ensures ModalitiesFit(modalities, subject.info.capabilities) <==>
            forall modality | modality in modalities :: subject.Supports(modality)
  {
    if forall modality | modality in modalities :: subject.Supports(modality) {
      assert Audio in modalities ==> subject.Supports(Audio);
      assert Embedding in modalities ==> subject.Supports(Embedding);
      assert Image in modalities ==> subject.Supports(Image);
      assert Video in modalities ==> subject.Supports(Video);
    }
  }

  lemma MentionsIff(names: seq<string>, text: string)
    ensures Mentions(names, text) <==> NamedIn(names, text)
  {
    forall name ensures Contains(text, name) <==> exists i :: OccursAt(text, name, i) {
      IndexIsFirst(text, name);
    }
  }

  lemma FitsIff(policy: RoutingPolicy, subject: Subject)
    ensures Fits(policy, subject) <==> MatchesModel(policy, subject)
  {
    CapabilitiesFitIff(policy.filters.capabilities, subject);
    BandsFitIff(policy.filters, subject);
    ModalitiesFitIff(policy.filters.modalities, subject);
    MentionsIff(policy.action.avoid, subject.info.id);
    MentionsIff(policy.action.avoid, subject.info.provider);
  }

  // The matches are exactly the enabled policies whose conditions the request meets and which fit the model.
  lemma EvaluateIsExact(policies: seq<RoutingPolicy>, subject: Subject, context: Context, policy: RoutingPolicy)
    ensures (exists m :: m in Evaluate(policies, subject, context) && m.policy == policy) <==>
            policy in policies && policy.enabled && (forall c | c in policy.conditions :: context(c)) &&
            Fits(policy, subject)
    ensures forall m | m in Evaluate(policies, subject, context) ::
              m.score == Score(m.policy, subject) && m.conditionsMet
  {
    EvaluateMembers(policies, subject, context);
    FitsIff(policy, subject);
    if Applies(policy, subject, context) && policy in policies {
      assert MatchOf(policy, subject) in Evaluate(policies, subject, context);
    }
  }

  // And they come in the order of the policies.
  lemma {:induction false} EvaluateInOrder(a: seq<RoutingPolicy>, b: seq<RoutingPolicy>, subject: Subject,
                                           context: Context)
    ensures Evaluate(a + b, subject, context) == Evaluate(a, subject, context) + Evaluate(b, subject, context)
    decreases |b|
  {
    if b == [] {
      assert a + b == a;
    } else {
      var front, last := b[..|b| - 1], b[|b| - 1];
      assert (a + b)[..|a + b| - 1] == a + front && (a + b)[|a + b| - 1] == last;
      EvaluateInOrder(a, front, subject, context);
      Regroup(Evaluate(a, subject, context), Evaluate(front, subject, context),
              if Applies(last, subject, context) then [MatchOf(last, subject)] else []);
    }
  }

  // A model is blocked exactly when some match blocks it, and every such match scores zero.
  lemma BlockedIffBlockMatch(policies: seq<RoutingPolicy>, subject: Subject, context: Context)
    ensures IsBlocked(policies, subject, context) <==>
            exists m :: m in Evaluate(policies, subject, context) && m.policy.action.actionType == "block"
    ensures forall m | m in Evaluate(policies, subject, context) && m.policy.action.actionType == "block" ::
              m.score == 0.0
  {
    var matches := Evaluate(policies, subject, context);
    EvaluateMembers(policies, subject, context);
    if IsBlocked(policies, subject, context) {
      var policy :| policy in policies && policy.enabled && Matches(policy, context) &&
                    policy.action.actionType == "block" && MatchesModel(policy, subject);
      assert MatchOf(policy, subject) in matches;
    }
    forall m | m in matches && m.policy.action.actionType == "block" ensures m.score == 0.0 {
      ScoreSign(m.policy, subject);
    }
  }

  // The best match

  predicate NoWorse(a: PolicyMatch, b: PolicyMatch) {
    a.policy.priority > b.policy.priority || (a.policy.priority == b.policy.priority && a.score >= b.score)
  }

  // The i-th match is the lexicographic maximum of (priority, score), and the first such.
  ghost predicate IsFirstBest(matches: seq<PolicyMatch>, i: nat) {
    i < |matches| &&
    (forall j | 0 <= j < |matches| :: NoWorse(matches[i], matches[j])) &&
    (forall j | 0 <= j < i :: !NoWorse(matches[j], matches[i]))
  }

  // Whatever the order of the matches, the best priority and score are the same.
  lemma BestRankInAnyOrder(a: seq<PolicyMatch>, i: nat, b: seq<PolicyMatch>, j: nat)
    requires multiset(a) == multiset(b) && IsFirstBest(a, i) && IsFirstBest(b, j)
    ensures a[i].policy.priority == b[j].policy.priority && a[i].score == b[j].score
  {
    assert a[i] in multiset(b) && b[j] in multiset(a);
    assert a[i] in b && b[j] in a;
    assert NoWorse(a[i], b[j]) && NoWorse(b[j], a[i]);
  }

  // The combined weight

  datatype Totals = Totals(weight: real, priority: int, count: nat)

  function Add(a: Totals, b: Totals): Totals {
    Totals(a.weight + b.weight, a.priority + b.priority, a.count + b.count)
  }

  function Contribution(m: PolicyMatch): Totals {
    Totals(m.score * (m.policy.priority as real * 0.1 + 1.0), m.policy.priority, 1)
  }

  function SumOf<T>(xs: seq<T>, share: T -> Totals): Totals {
    if xs == [] then Totals(0.0, 0, 0) else Add(SumOf(xs[..|xs| - 1], share), share(xs[|xs| - 1]))
  }

  lemma SumOneMore<T>(xs: seq<T>, x: T, share: T -> Totals)
    ensures SumOf(xs + [x], share) == Add(SumOf(xs, share), share(x))
  {
    assert (xs + [x])[..|xs|] == xs;
  }

  function TotalsOf(matches: seq<PolicyMatch>): Totals {
    SumOf(matches, Contribution)
  }

  // Sums of priorities are kept in 32 bits.
  function Wrap32(x: int): Int32 {
    (x + 0x8000_0000) % 0x1_0000_0000 - 0x8000_0000
  }

  lemma WrapAbsorbs(a: int, b: int)
    ensures Wrap32(Wrap32(a) + b) == Wrap32(a + b)
  {
    var k := (a + 0x8000_0000) / 0x1_0000_0000;
    assert Wrap32(a) == a - k * 0x1_0000_0000;
    WrapIsPeriodic(a + b, -k);
  }

  lemma WrapIsPeriodic(x: int, k: int)
    ensures Wrap32(x + k * 0x1_0000_0000) == Wrap32(x)
  {
  }

  function Clamp(x: real, low: real, high: real): real {
    if x < low then low else if x > high then high else x
  }

  // The average weight, or 1 if there are no matches or their priorities sum to zero modulo 2^32.
  function WeightFactor(totals: Totals): (factor: real)
    ensures 0.1 <= factor <= 10.0
  {
    if totals.count == 0 || totals.priority % 0x1_0000_0000 == 0 then 1.0
    else Clamp(totals.weight / totals.count as real, 0.1, 10.0)
  }

  class PolicyMatcher {
    const registry: PolicyRegistry

    constructor (registry: PolicyRegistry)
      ensures this.registry == registry
    {
      this.registry := registry;
    }

    method EvaluateBest(subject: Subject, context: Context) returns (best: Option<PolicyMatch>)
      ensures var matches := Evaluate(registry.policies, subject, context);
              if matches == [] then best.None?
              else exists i: nat :: IsFirstBest(matches, i) && best == Some(matches[i])
      ensures best.Some? ==>
                forall m | m in Evaluate(registry.policies, subject, context) ::
                  best.value.policy.priority > m.policy.priority ||
                  (best.value.policy.priority == m.policy.priority && best.value.score >= m.score)
    {
      var matches := Evaluate(registry.policies, subject, context);
      if matches == [] {
        return None;
      }
      var sorted := Sort(matches, NoWorse);
      SortIsStable(matches, NoWorse);
      ghost var i := HeadOfSorted(matches);
      best := Some(sorted[0]);
    }

    method CalculateWeightFactor(subject: Subject, context: Context) returns (factor: real)
      ensures factor == WeightFactor(TotalsOf(Evaluate(registry.policies, subject, context)))
    {
      var matches := Evaluate(registry.policies, subject, context);
      if matches == [] {
        return 1.0;
      }
      var totalWeight, totalPriority: Int32 := 0.0, 0;
      for i := 0 to |matches|
        invariant totalWeight == TotalsOf(matches[..i]).weight
        invariant totalPriority == Wrap32(TotalsOf(matches[..i]).priority)
        invariant TotalsOf(matches[..i]).count == i
      {
        var m := matches[i];
        assert matches[..i + 1] == matches[..i] + [m];
        SumOneMore(matches[..i], m, Contribution);
        WrapAbsorbs(TotalsOf(matches[..i]).priority, m.policy.priority);
        totalWeight := totalWeight + m.score * (m.policy.priority as real * 0.1 + 1.0);
        totalPriority := Wrap32(totalPriority + m.policy.priority);
      }
      assert matches[..|matches|] == matches;
      if totalPriority == 0 {
        return 1.0;
      }
      factor := Clamp(totalWeight / |matches| as real, 0.1, 10.0);
    }
  }

  lemma {:induction false} HeadOfSorted(matches: seq<PolicyMatch>) returns (i: nat)
    requires matches != []
    ensures IsFirstBest(matches, i) && Sort(matches, NoWorse) != [] && Sort(matches, NoWorse)[0] == matches[i]
    decreases |matches|
  {
    if |matches| == 1 {
      i := 0;
      assert Sort(matches[1..], NoWorse) == [];
    } else {
      var k := HeadOfSorted(matches[1..]);
      assert forall j | 1 <= j < |matches| :: matches[j] == matches[1..][j - 1];
      i := if NoWorse(matches[0], matches[k + 1]) then 0 else k + 1;
    }
  }

  // Policies in another order

  lemma {:induction false} SumWithoutOne<T>(before: seq<T>, x: T, after: seq<T>, share: T -> Totals)
    ensures SumOf(before + [x] + after, share) == Add(SumOf(before + after, share), share(x))
    decreases |after|
  {
    if after == [] {
      assert before + [x] + after == before + [x] && before + after == before;
      SumOneMore(before, x, share);
    } else {
      var front, last := after[..|after| - 1], after[|after| - 1];
      assert after == front + [last];
      Regroup(before + [x], front, [last]);
      Regroup(before, front, [last]);
      SumWithoutOne(before, x, front, share);
      SumOneMore(before + [x] + front, last, share);
      SumOneMore(before + front, last, share);
    }
  }

  lemma WithoutOne<T>(front: seq<T>, last: T, b: seq<T>, k: nat)
    requires multiset(front + [last]) == multiset(b) && k < |b| && b[k] == last
    ensures multiset(front) == multiset(b[..k] + b[k + 1..]) && |front| < |b|
  {
    assert b == b[..k] + [last] + b[k + 1..];
    assert multiset(front) == multiset(b) - multiset{last};
    assert |multiset(b)| == |b|;
  }

  lemma {:induction false} SumInAnyOrder<T>(a: seq<T>, b: seq<T>, share: T -> Totals)
    requires multiset(a) == multiset(b)
    ensures SumOf(a, share) == SumOf(b, share)
    decreases |a|
  {
    if a == [] {
      assert |multiset(b)| == |b| == 0;
    } else {
      var front, last := a[..|a| - 1], a[|a| - 1];
      assert a == front + [last];
      assert last in multiset(b);
      var k :| 0 <= k < |b| && b[k] == last;
      var before, after := b[..k], b[k + 1..];
      WithoutOne(front, last, b, k);
      assert b == before + [last] + after;
      SumInAnyOrder(front, before + after, share);
      SumOneMore(front, last, share);
      SumWithoutOne(before, last, after, share);
    }
  }

  function Share(policy: RoutingPolicy, subject: Subject, context: Context): Totals {
    if Applies(policy, subject, context) then Contribution(MatchOf(policy, subject)) else Totals(0.0, 0, 0)
  }

  lemma {:induction false} TotalsAreShares(policies: seq<RoutingPolicy>, subject: Subject, context: Context)
    ensures TotalsOf(Evaluate(policies, subject, context)) == SumOf(policies, p => Share(p, subject, context))
    decreases |policies|
  {
    if policies != [] {
      var front, last := policies[..|policies| - 1], policies[|policies| - 1];
      var matches := Evaluate(front, subject, context);
      TotalsAreShares(front, subject, context);
      if Applies(last, subject, context) {
        SumOneMore(matches, MatchOf(last, subject), Contribution);
      } else {
        assert matches + [] == matches;
      }
    }
  }

  // Policies of priority zero, the default, carry no weight however they score.
  lemma {:induction false} ZeroPrioritiesAreNeutral(matches: seq<PolicyMatch>)
    requires forall m | m in matches :: m.policy.priority == 0
    ensures TotalsOf(matches).priority == 0 && WeightFactor(TotalsOf(matches)) == 1.0
    decreases |matches|
  {
    if matches != [] {
      var front, last := matches[..|matches| - 1], matches[|matches| - 1];
      assert matches == front + [last];
      ZeroPrioritiesAreNeutral(front);
      SumOneMore(front, last, Contribution);
    }
  }

  // The sums behind the weight factor

  // Each score, a tenth more for each point of priority, summed up.
  function WeightSum(matches: seq<PolicyMatch>): real {
    if matches == [] then 0.0
    else
      var m := matches[|matches| - 1];
      WeightSum(matches[..|matches| - 1]) + m.score * (1.0 + m.policy.priority as real / 10.0)
  }

  function PrioritySum(matches: seq<PolicyMatch>): int {
    if matches == [] then 0 else PrioritySum(matches[..|matches| - 1]) + matches[|matches| - 1].policy.priority
  }

  lemma {:induction false} TotalsAreSums(matches: seq<PolicyMatch>)
    ensures TotalsOf(matches) == Totals(WeightSum(matches), PrioritySum(matches), |matches|)
    decreases |matches|
  {
    if matches != [] {
      var m := matches[|matches| - 1];
      TotalsAreSums(matches[..|matches| - 1]);
      assert m.policy.priority as real * 0.1 + 1.0 == 1.0 + m.policy.priority as real / 10.0;
    }
  }

  // The factor: 1 without matches, or if the priorities sum to zero in 32 bits; otherwise the mean weight, kept between
  // a tenth and ten.
  lemma FactorIsMean(matches: seq<PolicyMatch>)
    ensures var factor := WeightFactor(TotalsOf(matches));
            if matches == [] || PrioritySum(matches) % 0x1_0000_0000 == 0 then factor == 1.0
            else
              var mean := WeightSum(matches) / |matches| as real;
              factor == if mean < 0.1 then 0.1 else if mean > 10.0 then 10.0 else mean
  {
    TotalsAreSums(matches);
  }

  lemma QuotientIsOne(x: real, y: real)
    requires 0.0 < y
    ensures x / y == 1.0 <==> x == y
  {
    assert x == x / y * y;
  }

  // The factor is 1 exactly when nothing matched, the sum of priorities vanishes, or the weights average to 1.
  lemma NeutralIff(totals: Totals)
    ensures WeightFactor(totals) == 1.0 <==>
            totals.count == 0 || totals.priority % 0x1_0000_0000 == 0 || totals.weight == totals.count as real
  {
    if totals.count != 0 { QuotientIsOne(totals.weight, totals.count as real); }
  }

  function DefaultPolicy(id: string): RoutingPolicy {
    RoutingPolicy(id, "", 0, true, PolicyFilters([], [], [], [], [], []),
                  PolicyAction("prefer", 1.0, [], [], [], None, None), [])
  }

  lemma DefaultPolicyApplies(id: string, subject: Subject, context: Context)
    ensures Applies(DefaultPolicy(id), subject, context)
  {
  }

  lemma DefaultPolicyScores(id: string, subject: Subject)
    ensures Score(DefaultPolicy(id), subject) == 1.5
  {
    var policy := DefaultPolicy(id);
    assert !NamedIn(policy.action.preferredModels, subject.info.id);
    assert PreferencesMet(policy.filters.capabilities, subject) == 0 && PriorityFactor(policy) == 1.0;
  }

  lemma EvaluateOne(policy: RoutingPolicy, subject: Subject, context: Context)
    requires Applies(policy, subject, context)
    ensures Evaluate([policy], subject, context) == [MatchOf(policy, subject)]
  {
    assert [policy][..0] == [];
  }

  // So a factor of 1 does not mean that nothing matched: a preference of default priority matches every model.
  lemma DefaultPolicyIsNeutral(id: string, subject: Subject, context: Context)
    ensures var matches := Evaluate([DefaultPolicy(id)], subject, context);
            |matches| == 1 && matches[0].score == 1.5 && WeightFactor(TotalsOf(matches)) == 1.0
  {
    DefaultPolicyApplies(id, subject, context);
    DefaultPolicyScores(id, subject);
    EvaluateOne(DefaultPolicy(id), subject, context);
    ZeroPrioritiesAreNeutral([MatchOf(DefaultPolicy(id), subject)]);
  }

  // The weight factor depends on which policies were last added, not on the order in which they were.
  lemma WeightFactorInAnyOrder(ops: seq<Op>, other: seq<Op>, subject: Subject, context: Context)
    requires LastAdded(ops) == LastAdded(other)
    ensures WeightFactor(TotalsOf(Evaluate(Listing(ops), subject, context))) ==
            WeightFactor(TotalsOf(Evaluate(Listing(other), subject, context)))
  {
    SamePoliciesInAnyOrder(ops, other);
    TotalsAreShares(Listing(ops), subject, context);
    TotalsAreShares(Listing(other), subject, context);
    SumInAnyOrder(Listing(ops), Listing(other), p => Share(p, subject, context));
  }
}
