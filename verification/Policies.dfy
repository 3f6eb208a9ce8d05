// Routing policies and the registry that keeps them unique by ID and sorted by priority.

module Policies {

  import opened Wrappers
  import opened StableSorting

  type Int32 = x: int | -0x8000_0000 <= x < 0x8000_0000

  datatype Capability = Vision | Tools | Streaming | Thinking
  datatype Tier = Flagship | Standard | Fast
  datatype CostBand = UltraPremium | PremiumCost | StandardCost | Economy
  datatype ContextBand = Small | Medium | Large | Ultra
  datatype Modality = Text | Image | Audio | Video | Embedding | Code
  datatype ProviderCategory = ProviderCategory(name: string)

  // mode is "require", "prefer" or "exclude"; anything else filters nothing.
  datatype CapabilityFilter = CapabilityFilter(capability: Capability, mode: string)

  datatype PolicyFilters = PolicyFilters(
    capabilities: seq<CapabilityFilter>,
    tiers: seq<Tier>,
    costs: seq<CostBand>,
    contextWindows: seq<ContextBand>,
    providers: seq<ProviderCategory>,
    modalities: seq<Modality>)

  // actionType is "prefer", "avoid", "block" or "weight"; anything else is neutral.
  datatype PolicyAction = PolicyAction(
    actionType: string,
    weightFactor: real,
    preferredProviders: seq<ProviderCategory>,
    preferredModels: seq<string>,
    avoid: seq<string>,
    maxCostPerMillion: Option<real>,
    minContextWindow: Option<nat>)

  datatype ConditionType = TimeOfDay | DayOfWeek | TokenCount | TenantId | ModelFamily | Custom

  datatype PolicyCondition = PolicyCondition(conditionType: ConditionType, value: string, operator: string)

  datatype RoutingPolicy = RoutingPolicy(
    id: string,
    name: string,
    priority: Int32,
    enabled: bool,
    filters: PolicyFilters,
    action: PolicyAction,
    conditions: seq<PolicyCondition>)

  predicate ByPriority(a: RoutingPolicy, b: RoutingPolicy) {
    a.priority >= b.priority
  }

  function Without(policies: seq<RoutingPolicy>, id: string): seq<RoutingPolicy> {
    if policies == [] then []
    else (if policies[0].id == id then [] else [policies[0]]) + Without(policies[1..], id)
  }

  ghost predicate UniqueIds(policies: seq<RoutingPolicy>) {
    forall i, j | 0 <= i < j < |policies| :: policies[i].id != policies[j].id
  }

  // Runs of the registry

  datatype Op = Add(policy: RoutingPolicy) | Remove(id: string)

  // The policies present after ops, in the order they were last added.
  function Arrivals(ops: seq<Op>): seq<RoutingPolicy> {
    if ops == [] then []
    else
      var before := Arrivals(ops[..|ops| - 1]);
      match ops[|ops| - 1]
      case Add(policy) => Without(before, policy.id) + [policy]
      case Remove(id) => Without(before, id)
  }

  function LastAdded(ops: seq<Op>): map<string, RoutingPolicy> {
    if ops == [] then map[]
    else
      var before := LastAdded(ops[..|ops| - 1]);
      match ops[|ops| - 1]
      case Add(policy) => before[policy.id := policy]
      case Remove(id) => before - {id}
  }

  // The list the registry holds: the arrivals, stably sorted.
  function Listing(ops: seq<Op>): seq<RoutingPolicy> {
    Sort(Arrivals(ops), ByPriority)
  }

  class PolicyRegistry {
    var policies: seq<RoutingPolicy>
    ghost var history: seq<Op>

    ghost predicate Valid()
      reads this
    {
      policies == Listing(history)
    }

    constructor ()
      ensures Valid() && history == [] && policies == []
    {
      policies, history := [], [];
    }

    method AddPolicy(policy: RoutingPolicy)
      requires Valid()
      modifies this
      ensures Valid() && history == old(history) + [Add(policy)]
    {
      ghost var before := policies;
      var found := HasId(policy.id);
      if found {
        Retain(policy.id);
      }
      assert policies == Without(before, policy.id);
      policies := policies + [policy];
      policies := Sort(policies, ByPriority);
      AddingToListing(history, policy);
      history := history + [Add(policy)];
    }

    method RemovePolicy(id: string) returns (existed: bool)
      requires Valid()
      modifies this
      ensures Valid() && history == old(history) + [Remove(id)]
      ensures existed <==> id in LastAdded(old(history))
    {
      var initialLength := |policies|;
      WithoutIsShorterIff(policies, id);
      ListingRefinesMap(history);
      Retain(id);
      existed := |policies| != initialLength;
      RemovingFromListing(history, id);
      history := history + [Remove(id)];
    }

    method Get(id: string) returns (policy: Option<RoutingPolicy>)
      requires Valid()
      ensures policy == var added := LastAdded(history); if id in added then Some(added[id]) else None
      ensures policy.None? <==> forall k, p | StandsFrom(history, k, p) :: p.id != id
      ensures policy.Some? ==> policy.value.id == id && exists k :: StandsFrom(history, k, policy.value)
    {
      ListingRefinesMap(history);
      LastAddedStands(history, id);
      assert id in LastAdded(history) ==> LastAdded(history)[id] in policies;
      for i := 0 to |policies|
        invariant forall j | 0 <= j < i :: policies[j].id != id
      {
        if policies[i].id == id {
          assert policies[i] in Listing(history);
          return Some(policies[i]);
        }
      }
      policy := None;
    }

    method HasId(id: string) returns (found: bool)
      ensures found <==> exists i :: 0 <= i < |policies| && policies[i].id == id
      ensures !found ==> Without(policies, id) == policies
    {
      WithoutIsShorterIff(policies, id);
      found := exists i :: 0 <= i < |policies| && policies[i].id == id;
    }

    method Retain(id: string)
      modifies this`policies
      ensures policies == Without(old(policies), id)
    {
      policies := Without(policies, id);
    }
  }

  // What dropping an ID keeps

  lemma {:induction false} WithoutMembers(xs: seq<RoutingPolicy>, id: string)
    ensures forall p :: p in Without(xs, id) <==> p in xs && p.id != id
    decreases |xs|
  {
    if xs != [] { WithoutMembers(xs[1..], id); }
  }

  lemma {:induction false} WithoutIsShorterIff(xs: seq<RoutingPolicy>, id: string)
    ensures |Without(xs, id)| <= |xs|
    ensures |Without(xs, id)| < |xs| <==> exists i :: 0 <= i < |xs| && xs[i].id == id
    ensures |Without(xs, id)| == |xs| ==> Without(xs, id) == xs
    decreases |xs|
  {
    if xs != [] {
      WithoutIsShorterIff(xs[1..], id);
      assert forall i | 0 <= i < |xs[1..]| :: xs[1..][i] == xs[i + 1];
      assert forall i | 1 <= i < |xs| :: xs[i] == xs[1..][i - 1];
    }
  }

  lemma {:induction false} WithoutKeepsSorted(xs: seq<RoutingPolicy>, id: string)
    requires Sorted(xs, ByPriority)
    ensures Sorted(Without(xs, id), ByPriority)
    decreases |xs|
  {
    if xs != [] {
      var rest := Without(xs[1..], id);
      WithoutKeepsSorted(xs[1..], id);
      WithoutMembers(xs[1..], id);
      forall j | 0 <= j < |rest| ensures ByPriority(xs[0], rest[j]) {
        assert rest[j] in rest;
        var k :| 1 <= k < |xs| && xs[k] == rest[j];
      }
    }
  }

  lemma {:induction false} WithoutKeepsUnique(xs: seq<RoutingPolicy>, id: string)
    requires UniqueIds(xs)
    ensures UniqueIds(Without(xs, id))
    decreases |xs|
  {
    if xs != [] {
      var rest := Without(xs[1..], id);
      WithoutKeepsUnique(xs[1..], id);
      WithoutMembers(xs[1..], id);
      forall j | 0 <= j < |rest| ensures xs[0].id != rest[j].id {
        assert rest[j] in rest;
        var k :| 1 <= k < |xs| && xs[k] == rest[j];
      }
    }
  }

  lemma WithoutCons(x: RoutingPolicy, rest: seq<RoutingPolicy>, id: string)
    ensures Without([x] + rest, id) == if x.id == id then Without(rest, id) else [x] + Without(rest, id)
  {
    assert ([x] + rest)[1..] == rest;
  }

  lemma PeersCons(x: RoutingPolicy, rest: seq<RoutingPolicy>, y: RoutingPolicy)
    ensures Peers([x] + rest, y, ByPriority) ==
            if x.priority == y.priority then [x] + Peers(rest, y, ByPriority) else Peers(rest, y, ByPriority)
  {
    assert ([x] + rest)[1..] == rest;
  }

  lemma {:induction false} WithoutKeepsPeers(xs: seq<RoutingPolicy>, id: string, y: RoutingPolicy)
    ensures Peers(Without(xs, id), y, ByPriority) == Without(Peers(xs, y, ByPriority), id)
    decreases |xs|
  {
    if xs != [] {
      var x, rest := xs[0], xs[1..];
      assert xs == [x] + rest;
      WithoutKeepsPeers(rest, id, y);
      WithoutCons(x, rest, id);
      PeersCons(x, rest, y);
      PeersCons(x, Without(rest, id), y);
      WithoutCons(x, Peers(rest, y, ByPriority), id);
    }
  }

  lemma {:induction false} PeersOfConcat(a: seq<RoutingPolicy>, b: seq<RoutingPolicy>, y: RoutingPolicy)
    ensures Peers(a + b, y, ByPriority) == Peers(a, y, ByPriority) + Peers(b, y, ByPriority)
    decreases |a|
  {
    if a == [] {
      assert a + b == b;
    } else {
      assert (a + b)[1..] == a[1..] + b;
      PeersOfConcat(a[1..], b, y);
    }
  }

  // The sorted list follows the arrivals

  lemma AddingToListing(ops: seq<Op>, policy: RoutingPolicy)
    ensures Sort(Without(Listing(ops), policy.id) + [policy], ByPriority) == Listing(ops + [Add(policy)])
  {
    var arrivals, listing := Arrivals(ops), Listing(ops);
    var a, b := Without(listing, policy.id) + [policy], Without(arrivals, policy.id) + [policy];
    assert (ops + [Add(policy)])[..|ops|] == ops;
    SortIsStable(arrivals, ByPriority);
    SortIsStable(a, ByPriority);
    SortIsStable(b, ByPriority);
    forall y ensures Peers(Sort(a, ByPriority), y, ByPriority) == Peers(Sort(b, ByPriority), y, ByPriority) {
      PeersOfConcat(Without(listing, policy.id), [policy], y);
      PeersOfConcat(Without(arrivals, policy.id), [policy], y);
      WithoutKeepsPeers(listing, policy.id, y);
      WithoutKeepsPeers(arrivals, policy.id, y);
    }
    StableOrderIsUnique(Sort(a, ByPriority), Sort(b, ByPriority), ByPriority);
  }

  lemma RemovingFromListing(ops: seq<Op>, id: string)
    ensures Without(Listing(ops), id) == Listing(ops + [Remove(id)])
  {
    var arrivals, listing := Arrivals(ops), Listing(ops);
    var rest := Without(arrivals, id);
    assert (ops + [Remove(id)])[..|ops|] == ops;
    SortIsStable(arrivals, ByPriority);
    SortIsStable(rest, ByPriority);
    WithoutKeepsSorted(listing, id);
    forall y ensures Peers(Without(listing, id), y, ByPriority) == Peers(Sort(rest, ByPriority), y, ByPriority) {
      WithoutKeepsPeers(listing, id, y);
      WithoutKeepsPeers(arrivals, id, y);
    }
    StableOrderIsUnique(Without(listing, id), Sort(rest, ByPriority), ByPriority);
  }

  // xs holds each policy of m once, and nothing else.
  ghost predicate Refines(xs: seq<RoutingPolicy>, m: map<string, RoutingPolicy>) {
    UniqueIds(xs) &&
    (forall p :: p in xs <==> p.id in m && m[p.id] == p) &&
    (forall id | id in m :: m[id].id == id)
  }

  lemma DroppingRefines(xs: seq<RoutingPolicy>, m: map<string, RoutingPolicy>, id: string)
    requires Refines(xs, m)
    ensures Refines(Without(xs, id), m - {id})
  {
    WithoutMembers(xs, id);
    WithoutKeepsUnique(xs, id);
  }

  lemma AppendingRefines(xs: seq<RoutingPolicy>, m: map<string, RoutingPolicy>, policy: RoutingPolicy)
    requires Refines(xs, m) && policy.id !in m
    ensures Refines(xs + [policy], m[policy.id := policy])
  {
    var longer := xs + [policy];
    forall i | 0 <= i < |xs| ensures xs[i].id != policy.id {
      assert xs[i] in xs;
    }
    assert longer[|xs|] == policy;
  }

  lemma {:induction false} ArrivalsRefineMap(ops: seq<Op>)
    ensures Refines(Arrivals(ops), LastAdded(ops))
    decreases |ops|
  {
    if ops != [] {
      var xs, m, op := Arrivals(ops[..|ops| - 1]), LastAdded(ops[..|ops| - 1]), ops[|ops| - 1];
      ArrivalsRefineMap(ops[..|ops| - 1]);
      match op {
        case Add(policy) =>
          DroppingRefines(xs, m, policy.id);
          AppendingRefines(Without(xs, policy.id), m - {policy.id}, policy);
          assert (m - {policy.id})[policy.id := policy] == m[policy.id := policy];
        case Remove(id) =>
          DroppingRefines(xs, m, id);
      }
    }
  }

  lemma {:induction false} UniqueCount(xs: seq<RoutingPolicy>, p: RoutingPolicy)
    requires UniqueIds(xs)
    ensures multiset(xs)[p] == if p in xs then 1 else 0
    decreases |xs|
  {
    if xs != [] {
      assert xs == [xs[0]] + xs[1..];
      UniqueCount(xs[1..], p);
      assert forall k | 0 <= k < |xs[1..]| :: xs[1..][k].id != xs[0].id;
      assert xs[0] !in xs[1..];
    }
  }

  lemma {:induction false} OnceEachIsUnique(xs: seq<RoutingPolicy>)
    requires forall p :: multiset(xs)[p] <= 1
    requires forall p, q | p in xs && q in xs && p.id == q.id :: p == q
    ensures UniqueIds(xs)
  {
    forall i, j | 0 <= i < j < |xs| ensures xs[i].id != xs[j].id {
      if xs[i].id == xs[j].id {
        assert xs[i] in xs && xs[j] in xs;
        TwiceInMultiset(xs, i, j);
        assert false;
      }
    }
  }

  // After any run: sorted by priority, equal priorities in the order they were last added, IDs unique, and the
  // members exactly the policies last added under their IDs.
  lemma ListingRefinesMap(ops: seq<Op>)
    ensures Sorted(Listing(ops), ByPriority)
    ensures forall y :: Peers(Listing(ops), y, ByPriority) == Peers(Arrivals(ops), y, ByPriority)
    ensures Refines(Listing(ops), LastAdded(ops))
  {
    var arrivals, listing := Arrivals(ops), Listing(ops);
    SortIsStable(arrivals, ByPriority);
    ArrivalsRefineMap(ops);
    forall p ensures p in listing <==> p in arrivals {
      assert p in listing <==> p in multiset(listing);
    }
    forall p ensures multiset(listing)[p] <= 1 {
      UniqueCount(arrivals, p);
    }
    OnceEachIsUnique(listing);
  }

  // The same, of the operations themselves

  // Policy p was added at k and neither replaced nor removed since.
  ghost predicate StandsFrom(ops: seq<Op>, k: nat, p: RoutingPolicy) {
    k < |ops| && ops[k] == Add(p) &&
    forall j | k < j < |ops| :: ops[j] != Remove(p.id) && (ops[j].Add? ==> ops[j].policy.id != p.id)
  }

  lemma StandsOneMore(ops: seq<Op>, op: Op, k: nat, p: RoutingPolicy)
    ensures StandsFrom(ops + [op], k, p) <==>
            if k < |ops| then StandsFrom(ops, k, p) && op != Remove(p.id) && (op.Add? ==> op.policy.id != p.id)
            else k == |ops| && op == Add(p)
  {
    if StandsFrom(ops + [op], k, p) && k < |ops| {
      assert (ops + [op])[|ops|] == op;
      assert forall j | k < j < |ops| :: ops[j] == (ops + [op])[j];
    }
  }

  // x comes somewhere before y in xs.
  ghost predicate Precedes(xs: seq<RoutingPolicy>, x: RoutingPolicy, y: RoutingPolicy) {
    exists i, j :: 0 <= i < j < |xs| && xs[i] == x && xs[j] == y
  }

  lemma PrecedesCons(x: RoutingPolicy, rest: seq<RoutingPolicy>, a: RoutingPolicy, b: RoutingPolicy)
    ensures Precedes([x] + rest, a, b) <==> (x == a && b in rest) || Precedes(rest, a, b)
  {
    var xs := [x] + rest;
    if Precedes(xs, a, b) {
      var i, j :| 0 <= i < j < |xs| && xs[i] == a && xs[j] == b;
      assert rest[j - 1] == b;
      if i > 0 { assert rest[i - 1] == a; }
    }
    if x == a && b in rest {
      var j :| 0 <= j < |rest| && rest[j] == b;
      assert xs[0] == a && xs[j + 1] == b;
    }
    if Precedes(rest, a, b) {
      var i, j :| 0 <= i < j < |rest| && rest[i] == a && rest[j] == b;
      assert xs[i + 1] == a && xs[j + 1] == b;
    }
  }

  lemma {:induction false} WithoutKeepsOrder(xs: seq<RoutingPolicy>, id: string, a: RoutingPolicy, b: RoutingPolicy)
    ensures Precedes(Without(xs, id), a, b) <==> Precedes(xs, a, b) && a.id != id && b.id != id
    decreases |xs|
  {
    if xs != [] {
      var x, rest := xs[0], xs[1..];
      assert xs == [x] + rest;
      WithoutKeepsOrder(rest, id, a, b);
      WithoutMembers(rest, id);
      WithoutMembers(xs, id);
      PrecedesCons(x, rest, a, b);
      PrecedesCons(x, Without(rest, id), a, b);
      WithoutCons(x, rest, id);
      OrderedAreMembers(rest, a, b);
    }
  }

  lemma OrderedAreMembers(xs: seq<RoutingPolicy>, a: RoutingPolicy, b: RoutingPolicy)
    ensures Precedes(xs, a, b) ==> a in xs && b in xs
  {
  }

  lemma {:induction false} PeersKeepOrder(xs: seq<RoutingPolicy>, a: RoutingPolicy, b: RoutingPolicy)
    requires a.priority == b.priority
    ensures Precedes(Peers(xs, a, ByPriority), a, b) <==> Precedes(xs, a, b)
    ensures b in Peers(xs, a, ByPriority) <==> b in xs
    decreases |xs|
  {
    if xs != [] {
      var x, rest := xs[0], xs[1..];
      assert xs == [x] + rest;
      PeersKeepOrder(rest, a, b);
      PeersCons(x, rest, a);
      PrecedesCons(x, rest, a, b);
      PrecedesCons(x, Peers(rest, a, ByPriority), a, b);
      OrderedAreMembers(rest, a, b);
    }
  }

  // Still standing after one more operation: as before, unless the operation is on the same ID.
  lemma StandsAfter(ops: seq<Op>, op: Op, p: RoutingPolicy)
    ensures (exists k :: StandsFrom(ops + [op], k, p)) <==>
            op == Add(p) ||
            ((exists k :: StandsFrom(ops, k, p)) && p.id != if op.Add? then op.policy.id else op.id)
  {
    if k :| StandsFrom(ops + [op], k, p) {
      StandsOneMore(ops, op, k, p);
    }
    if k :| StandsFrom(ops, k, p) {
      StandsOneMore(ops, op, k, p);
    }
    StandsOneMore(ops, op, |ops|, p);
  }

  lemma {:induction false} ArrivalsStand(ops: seq<Op>, p: RoutingPolicy)
    ensures p in Arrivals(ops) <==> exists k :: StandsFrom(ops, k, p)
    decreases |ops|
  {
    if ops != [] {
      var n := |ops| - 1;
      var front, op := ops[..n], ops[n];
      assert ops == front + [op];
      ArrivalsStand(front, p);
      WithoutMembers(Arrivals(front), if op.Add? then op.policy.id else op.id);
      StandsAfter(front, op, p);
    }
  }

  lemma {:induction false} ArrivalsAreInOrder(ops: seq<Op>, a: RoutingPolicy, k: nat, b: RoutingPolicy, l: nat)
    requires Precedes(Arrivals(ops), a, b) && StandsFrom(ops, k, a) && StandsFrom(ops, l, b)
    ensures k < l
    decreases |ops|
  {
    var n := |ops| - 1;
    var front, op := ops[..n], ops[n];
    assert ops == front + [op];
    StandsOneMore(front, op, k, a);
    StandsOneMore(front, op, l, b);
    var id := if op.Add? then op.policy.id else op.id;
    WithoutKeepsOrder(Arrivals(front), id, a, b);
    var rest := Without(Arrivals(front), id);
    WithoutMembers(Arrivals(front), id);
    if op.Add? { PrecedesSnoc(rest, op.policy, a, b); }
    OrderedAreMembers(rest, a, b);
    if Precedes(rest, a, b) {
      ArrivalsAreInOrder(front, a, k, b, l);
    }
  }

  lemma PrecedesSnoc(rest: seq<RoutingPolicy>, x: RoutingPolicy, a: RoutingPolicy, b: RoutingPolicy)
    ensures Precedes(rest + [x], a, b) ==> (a in rest && x == b) || Precedes(rest, a, b)
  {
    if Precedes(rest + [x], a, b) {
      var i, j :| 0 <= i < j < |rest| + 1 && (rest + [x])[i] == a && (rest + [x])[j] == b;
      assert rest[i] == a;
      if j < |rest| { assert rest[j] == b; }
    }
  }

  // The list holds each policy that still stands, once; the higher priority comes first, and of two with the same
  // priority the one added earlier.
  lemma ListingIsOfStanding(ops: seq<Op>)
    ensures forall p :: p in Listing(ops) <==> exists k :: StandsFrom(ops, k, p)
    ensures forall i, j | 0 <= i < j < |Listing(ops)| ::
              Listing(ops)[i].id != Listing(ops)[j].id && Listing(ops)[i].priority >= Listing(ops)[j].priority
    ensures forall i, j, k: nat, l: nat | 0 <= i < j < |Listing(ops)| &&
                                          Listing(ops)[i].priority == Listing(ops)[j].priority &&
                                          StandsFrom(ops, k, Listing(ops)[i]) && StandsFrom(ops, l, Listing(ops)[j]) ::
              k < l
  {
    var xs := Listing(ops);
    ListingRefinesMap(ops);
    ArrivalsRefineMap(ops);
    forall p ensures p in xs <==> exists k :: StandsFrom(ops, k, p) {
      ArrivalsStand(ops, p);
    }
    forall i, j, k: nat, l: nat | 0 <= i < j < |xs| && xs[i].priority == xs[j].priority &&
                                  StandsFrom(ops, k, xs[i]) && StandsFrom(ops, l, xs[j])
      ensures k < l
    {
      assert Precedes(xs, xs[i], xs[j]);
      PeersKeepOrder(xs, xs[i], xs[j]);
      PeersKeepOrder(Arrivals(ops), xs[i], xs[j]);
      ArrivalsAreInOrder(ops, xs[i], k, xs[j], l);
    }
  }

  // What is found under an ID is the policy standing under it.
  lemma LastAddedStands(ops: seq<Op>, id: string)
    ensures id in LastAdded(ops) <==> exists k, p :: StandsFrom(ops, k, p) && p.id == id
    ensures id in LastAdded(ops) ==> exists k :: StandsFrom(ops, k, LastAdded(ops)[id]) && LastAdded(ops)[id].id == id
  {
    ArrivalsRefineMap(ops);
    if id in LastAdded(ops) {
      ArrivalsStand(ops, LastAdded(ops)[id]);
    }
    forall k, p | StandsFrom(ops, k, p) && p.id == id ensures id in LastAdded(ops) {
      ArrivalsStand(ops, p);
    }
  }

  // Registries that agree on what was last added hold the same policies, whatever the order of additions.
  lemma SamePoliciesInAnyOrder(ops: seq<Op>, other: seq<Op>)
    requires LastAdded(ops) == LastAdded(other)
    ensures multiset(Listing(ops)) == multiset(Listing(other))
  {
    ListingRefinesMap(ops);
    ListingRefinesMap(other);
    forall p ensures multiset(Listing(ops))[p] == multiset(Listing(other))[p] {
      UniqueCount(Listing(ops), p);
      UniqueCount(Listing(other), p);
    }
  }
}
