// Session affinity: a bounded map from sessions to their preferred provider, with expiry by age.

module Sessions {

  import opened Wrappers
  import opened Eviction

  const SECOND := 1_000_000_000   // clock readings are nanoseconds

  datatype SessionAffinity = SessionAffinity(
    sessionId: string,
    preferredProvider: string,
    lastAccess: int,
    requestCount: nat)

  datatype SessionStats = SessionStats(
    totalSessions: nat,
    totalRequests: nat,
    avgRequestsPerSession: real,
    uniqueProviders: nat,
    providersDistribution: map<string, nat>)

  datatype Reply = Done | Refused(message: string)

  type SessionMap = map<string, SessionAffinity>

  function LastAccess(affinity: SessionAffinity): int {
    affinity.lastAccess
  }

  // The sessions right after one was given a provider, before any cleanup.
  function Touched(sessions: SessionMap, id: string, provider: string, now: int): SessionMap {
    sessions[id := SessionAffinity(if id in sessions then sessions[id].sessionId else id, provider, now,
                                   if id in sessions then sessions[id].requestCount + 1 else 1)]
  }

  ghost function Unexpired(sessions: SessionMap, ttl: nat, now: int): SessionMap {
    map id | id in sessions && now - sessions[id].lastAccess <= ttl :: sessions[id]
  }

  // What cleanup may leave: the unexpired sessions, cut down to the most recently used if there are too many.
  ghost predicate CleanedUp(sessions: SessionMap, kept: SessionMap, max: nat, ttl: nat, now: int) {
    KeepsNewest(Unexpired(sessions, ttl, now), kept, LastAccess, max)
  }

  ghost predicate NoneLaterThan(sessions: SessionMap, clock: int) {
    forall id | id in sessions :: sessions[id].lastAccess <= clock
  }

  class SessionAffinityManager {
    var sessions: SessionMap
    const maxSessions: nat
    const ttlSeconds: nat
    ghost var clock: int   // when a session was last set

    ghost predicate Valid()
      reads this
    {
      0 < maxSessions && 0 < ttlSeconds && |sessions| <= maxSessions && NoneLaterThan(sessions, clock)
    }

    constructor WithLimits(maxSessions: nat, ttlSeconds: int, ghost now: int)
      ensures Valid() && sessions == map[] && clock == now
      ensures this.maxSessions == if maxSessions == 0 then 10_000 else maxSessions
      ensures this.ttlSeconds == if ttlSeconds <= 0 then 86_400 else ttlSeconds
    {
      sessions, clock := map[], now;
      this.maxSessions := if maxSessions > 0 then maxSessions else 10_000;
      this.ttlSeconds := if ttlSeconds > 0 then ttlSeconds else 24 * 60 * 60;
    }

    method GetPreferredProvider(id: string) returns (provider: Option<string>)
      ensures provider == if id != "" && id in sessions then Some(sessions[id].preferredProvider) else None
    {
      if id == "" {
        return None;
      }
      provider := if id in sessions then Some(sessions[id].preferredProvider) else None;
    }

    // The clock is read once for the session and once more, later, for the cleanup.
    method SetProvider(id: string, provider: string, now: int, cleanupNow: int) returns (reply: Reply)
      requires Valid() && clock <= now <= cleanupNow
      modifies this
      ensures Valid()
      ensures reply.Refused? <==> id == "" || provider == ""
      ensures reply.Refused? ==>
                sessions == old(sessions) && clock == old(clock) &&
                reply.message == if id == "" then "Session ID cannot be empty" else "Provider cannot be empty"
      ensures reply.Done? ==>
                var touched := Touched(old(sessions), id, provider, now);
                clock == now &&
                (if |touched| <= maxSessions then sessions == touched
                 else CleanedUp(touched, sessions, maxSessions, ttlSeconds * SECOND, cleanupNow))
      ensures reply.Done? && id in sessions ==>
                sessions[id] == SessionAffinity(if id in old(sessions) then old(sessions)[id].sessionId else id,
                                                provider, now,
                                                if id in old(sessions) then old(sessions)[id].requestCount + 1 else 1)
      ensures forall other | other in sessions && other != id ::
                other in old(sessions) && sessions[other] == old(sessions)[other]
      ensures reply.Done? && |old(sessions).Keys + {id}| <= maxSessions ==> sessions.Keys == old(sessions).Keys + {id}
      // With a strictly increasing clock only a cleanup slower than the time to live can drop the new session.
      ensures reply.Done? && old(clock) < now ==>
                (id in sessions <==>
                 |Touched(old(sessions), id, provider, now)| <= maxSessions || cleanupNow - now <= ttlSeconds * SECOND)
    {
      if id == "" {
        return Refused("Session ID cannot be empty");
      }
      if provider == "" {
        return Refused("Provider cannot be empty");
      }
      if id in sessions {
        var affinity := sessions[id];
        sessions := sessions[id := affinity.(preferredProvider := provider, lastAccess := now,
                                             requestCount := affinity.requestCount + 1)];
      } else {
        sessions := sessions[id := SessionAffinity(id, provider, now, 1)];
      }
      clock := now;
      ghost var touched := Touched(old(sessions), id, provider, now);
      assert sessions == touched;
      assert touched.Keys == old(sessions).Keys + {id};
      if |sessions| > maxSessions {
        CleanupExpired(cleanupNow);
        if old(clock) < now {
          SetSessionSurvivesIff(old(sessions), id, provider, now, cleanupNow, maxSessions, ttlSeconds * SECOND);
        }
      }
      reply := Done;
    }

    method CleanupExpired(now: int)
      requires NoneLaterThan(sessions, clock)
      modifies this
      ensures CleanedUp(old(sessions), sessions, maxSessions, ttlSeconds * SECOND, now)
      ensures |sessions| <= maxSessions && NoneLaterThan(sessions, clock) && clock == old(clock)
      ensures forall id | id in sessions ::
                id in old(sessions) && sessions[id] == old(sessions)[id] &&
                now - sessions[id].lastAccess <= ttlSeconds * 1_000_000_000
      // An unexpired session is dropped only for sessions used no less recently, and only down to the limit.
      ensures forall id | id in old(sessions) && id !in sessions &&
                          now - old(sessions)[id].lastAccess <= ttlSeconds * 1_000_000_000 ::
                |sessions| == maxSessions &&
                forall kept | kept in sessions :: old(sessions)[id].lastAccess <= sessions[kept].lastAccess
    {
      var ttl := ttlSeconds * SECOND;
      sessions := map id | id in sessions && now - sessions[id].lastAccess <= ttl :: sessions[id];
      assert sessions == Unexpired(old(sessions), ttl, now);
      if |sessions| > maxSessions {
        sessions := EvictOldest(sessions, LastAccess, maxSessions);
      }
    }

    method RemoveSession(id: string) returns (removed: bool)
      requires Valid()
      modifies this
      ensures Valid() && clock == old(clock)
      ensures removed <==> id != "" && id in old(sessions)
      ensures sessions == if removed then old(sessions) - {id} else old(sessions)
    {
      if id == "" {
        return false;
      }
      removed := id in sessions;
      assert id !in sessions ==> sessions - {id} == sessions;
      assert (sessions - {id}).Keys <= sessions.Keys;
      SubsetIsNoLarger((sessions - {id}).Keys, sessions.Keys);
      sessions := sessions - {id};
    }

    method ClearAll()
      requires Valid()
      modifies this
      ensures Valid() && clock == old(clock) && sessions == map[]
    {
      sessions := map[];
    }

    // The map is walked in no particular order.
    method GetStats() returns (stats: SessionStats)
      ensures stats.totalSessions == |sessions| && stats.totalRequests == Sum(RequestCounts(sessions))
      ensures stats.avgRequestsPerSession ==
              if sessions == map[] then 0.0 else stats.totalRequests as real / stats.totalSessions as real
      ensures CountsSessions(stats.providersDistribution, sessions, sessions.Keys)
      ensures stats.uniqueProviders == |stats.providersDistribution|
      ensures Sum(stats.providersDistribution) == stats.totalSessions
    {
      var total := TotalRequests(sessions);
      var average := if sessions == map[] then 0.0 else total as real / |sessions| as real;
      var counts := CountProviders(sessions);
      stats := SessionStats(|sessions|, total, average, |counts|, counts);
    }
  }

  method TotalRequests(sessions: SessionMap) returns (total: nat)
    ensures total == Sum(RequestCounts(sessions))
  {
    total := 0;
    var rest := sessions.Keys;
    ghost var left := RequestCounts(sessions);
    while rest != {}
      invariant rest <= sessions.Keys && left.Keys == rest
      invariant forall id | id in left :: left[id] == sessions[id].requestCount
      invariant total + Sum(left) == Sum(RequestCounts(sessions))
      decreases rest
    {
      var id :| id in rest;
      SumSplit(left, id);
      total := total + sessions[id].requestCount;
      rest, left := rest - {id}, left - {id};
    }
    assert left == map[];
  }

  method CountProviders(sessions: SessionMap) returns (counts: map<string, nat>)
    ensures CountsSessions(counts, sessions, sessions.Keys) && Sum(counts) == |sessions|
  {
    counts := map[];
    var rest := sessions.Keys;
    ghost var seen: set<string> := {};
    while rest != {}
      invariant rest !! seen && rest + seen == sessions.Keys
      invariant CountsSessions(counts, sessions, seen) && Sum(counts) == |seen|
      decreases rest
    {
      var id :| id in rest;
      var provider := sessions[id].preferredProvider;
      CountOneMore(counts, sessions, seen, id);
      SumAddOne(counts, provider);
      counts := counts[provider := (if provider in counts then counts[provider] else 0) + 1];
      rest, seen := rest - {id}, seen + {id};
    }
    assert seen == sessions.Keys;
  }

  // Survival of the session just set

  lemma NewestIsKept(m: SessionMap, kept: SessionMap, id: string, cap: nat)
    requires 0 < cap && KeepsNewest(m, kept, LastAccess, cap) && id in m
    requires forall other | other in m && other != id :: m[other].lastAccess < m[id].lastAccess
    ensures id in kept
  {
    assert |kept.Keys| == |kept|;
    assert kept.Keys != {};
    var other :| other in kept.Keys;
    assert other == id || m[other].lastAccess < m[id].lastAccess;
  }

  // If no other session is as recent, cleanup keeps the new session exactly when it has not yet expired.
  lemma SetSessionSurvivesIff(sessions: SessionMap, id: string, provider: string, now: int, cleanupNow: int,
                              max: nat, ttl: nat)
    requires 0 < max && forall other | other in sessions :: sessions[other].lastAccess < now
    ensures forall kept | CleanedUp(Touched(sessions, id, provider, now), kept, max, ttl, cleanupNow) ::
              id in kept <==> cleanupNow - now <= ttl
  {
    var unexpired := Unexpired(Touched(sessions, id, provider, now), ttl, cleanupNow);
    forall kept | KeepsNewest(unexpired, kept, LastAccess, max) && id in unexpired ensures id in kept {
      NewestIsKept(unexpired, kept, id, max);
    }
  }

  lemma AllButOneKept(m: SessionMap, kept: SessionMap, id: string, cap: nat)
    requires KeepsNewest(m, kept, LastAccess, cap) && |m| == cap + 1 && id in m && id !in kept
    ensures kept == m - {id}
  {
    Shrinks(m, id);
    assert (m - {id}).Keys == m.Keys - {id};
    SubsetOfSameSize(kept.Keys, (m - {id}).Keys);
  }

  // When one entry of m has to go, id is sure to stay exactly when another entry is strictly older.
  lemma StaysIffNotOldest(m: SessionMap, id: string, cap: nat)
    requires |m| == cap + 1 && id in m && NoneLaterThan(m, m[id].lastAccess)
    ensures (forall kept | KeepsNewest(m, kept, LastAccess, cap) :: id in kept) <==>
            (exists other :: other in m && m[other].lastAccess < m[id].lastAccess)
  {
    Shrinks(m, id);
    if other :| other in m && m[other].lastAccess < m[id].lastAccess {
      forall kept | KeepsNewest(m, kept, LastAccess, cap) ensures id in kept {
        if id !in kept { AllButOneKept(m, kept, id, cap); }
      }
    } else {
      assert KeepsNewest(m, m - {id}, LastAccess, cap);
    }
  }

  // With a clock that may stand still: cleanup is sure to keep the new session exactly when it has not expired and,
  // if one session still has to go, some other unexpired one was used strictly earlier.
  lemma SetSessionIsSafeIff(sessions: SessionMap, id: string, provider: string, now: int, cleanupNow: int,
                            max: nat, ttl: nat)
    requires |sessions| <= max && NoneLaterThan(sessions, now)
    ensures var unexpired := Unexpired(Touched(sessions, id, provider, now), ttl, cleanupNow);
            (forall kept | KeepsNewest(unexpired, kept, LastAccess, max) :: id in kept) <==>
            (cleanupNow - now <= ttl &&
             (|unexpired| <= max || exists other :: other in unexpired && unexpired[other].lastAccess < now))
  {
    var unexpired := Unexpired(Touched(sessions, id, provider, now), ttl, cleanupNow);
    assert unexpired.Keys <= sessions.Keys + {id};
    SubsetIsNoLarger(unexpired.Keys, sessions.Keys + {id});
    if cleanupNow - now > ttl {
      assert id !in unexpired && unexpired.Keys <= sessions.Keys;
      SubsetIsNoLarger(unexpired.Keys, sessions.Keys);
      assert KeepsNewest(unexpired, unexpired, LastAccess, max);
    } else if |unexpired| > max {
      StaysIffNotOldest(unexpired, id, max);
    }
  }

  // Two sessions set at the same instant, with room for one: cleanup may keep the older of them or the newer.
  lemma SetSessionMayBeEvicted(now: int, ttl: nat)
    ensures var first := SessionAffinity("a", "p", now, 1);
            var touched := Touched(map["a" := first], "b", "p", now);
            CleanedUp(touched, map["a" := first], 1, ttl, now) && CleanedUp(touched, touched - {"a"}, 1, ttl, now) &&
            "b" !in map["a" := first] && "b" in touched - {"a"}
  {
    var touched := Touched(map["a" := SessionAffinity("a", "p", now, 1)], "b", "p", now);
    assert Unexpired(touched, ttl, now) == touched;
    assert touched.Keys == {"a", "b"};
    Shrinks(touched, "a");
  }

  // Totals over a map

  ghost function Sum(m: map<string, nat>): nat
    decreases |m|
  {
    if m == map[] then 0
    else
      var k :| k in m;
      Shrinks(m, k);
      m[k] + Sum(m - {k})
  }

  lemma Shrinks<V>(m: map<string, V>, k: string)
    requires k in m
    ensures |m - {k}| == |m| - 1
  {
    assert (m - {k}).Keys == m.Keys - {k};
    assert |(m - {k}).Keys| == |m.Keys| - 1;
  }

  // The sum does not depend on the order in which keys are taken.
  lemma {:induction false} SumSplit(m: map<string, nat>, k: string)
    requires k in m
    ensures Sum(m) == m[k] + Sum(m - {k})
    decreases |m|
  {
    var first :| first in m && Sum(m) == m[first] + Sum(m - {first});
    if first != k {
      Shrinks(m, first);
      Shrinks(m, k);
      SumSplit(m - {first}, k);
      SumSplit(m - {k}, first);
      assert m - {first} - {k} == m - {k} - {first};
    }
  }

  lemma SumAddOne(m: map<string, nat>, k: string)
    ensures Sum(m[k := (if k in m then m[k] else 0) + 1]) == Sum(m) + 1
  {
    var more := m[k := (if k in m then m[k] else 0) + 1];
    SumSplit(more, k);
    if k in m {
      SumSplit(m, k);
      assert more - {k} == m - {k};
    } else {
      assert more - {k} == m;
    }
  }

  ghost function RequestCounts(sessions: SessionMap): map<string, nat> {
    map id | id in sessions :: sessions[id].requestCount
  }

  ghost function SessionsOf(sessions: SessionMap, among: set<string>, provider: string): set<string> {
    set id | id in among && id in sessions && sessions[id].preferredProvider == provider
  }

  // counts holds exactly the providers of the sessions named in among, each with its number of sessions.
  ghost predicate CountsSessions(counts: map<string, nat>, sessions: SessionMap, among: set<string>) {
    forall p {:trigger p in counts} {:trigger SessionsOf(sessions, among, p)} ::
      (p in counts <==> SessionsOf(sessions, among, p) != {}) &&
      (p in counts ==> counts[p] == |SessionsOf(sessions, among, p)|)
  }

  lemma SessionsOneMore(sessions: SessionMap, among: set<string>, id: string, p: string)
    requires id in sessions && id !in among
    ensures var before, after := SessionsOf(sessions, among, p), SessionsOf(sessions, among + {id}, p);
            after == (if sessions[id].preferredProvider == p then before + {id} else before) && id !in before
  {
  }

  lemma CountOneMore(counts: map<string, nat>, sessions: SessionMap, among: set<string>, id: string)
    requires id in sessions && id !in among && CountsSessions(counts, sessions, among)
    ensures var p := sessions[id].preferredProvider;
            CountsSessions(counts[p := (if p in counts then counts[p] else 0) + 1], sessions, among + {id})
  {
    var provider := sessions[id].preferredProvider;
    var counts' := counts[provider := (if provider in counts then counts[provider] else 0) + 1];
    forall p
      ensures p in counts' <==> SessionsOf(sessions, among + {id}, p) != {}
      ensures p in counts' ==> counts'[p] == |SessionsOf(sessions, among + {id}, p)|
    {
      SessionsOneMore(sessions, among, id, p);
    }
  }
}
