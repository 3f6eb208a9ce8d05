// The registry object's own operations on its cache, done step by step. Their effects are the functions the
// transition system applies to the cache.

module RegistryCache {

  import opened Wrappers
  import opened ModelCatalog

  class Registry {
    var cache: Cache
    const ttl: int

    constructor (ttl: int)
      ensures cache == map[] && this.ttl == ttl
    {
      cache := map[];
      this.ttl := ttl;
    }

    // The write half of a full refresh: the listing is visited in an arbitrary order.
    method ApplyListing(models: map<string, ModelInfo>, at: int)
      modifies this
      ensures cache == WithListing(old(cache), models, at + ttl)
      ensures forall id :: id in cache <==> id in old(cache) || (id in models && IsValid(models[id]))
      ensures forall id | id in cache ::
                cache[id] == if id in models && IsValid(models[id]) then Cached(models[id], at + ttl)
                             else old(cache)[id]
    {
      var rest := models.Keys;
      while rest != {}
        invariant rest <= models.Keys
        invariant cache == WithListing(old(cache), map k | k in models && k !in rest :: models[k], at + ttl)
        decreases rest
      {
        var id :| id in rest;
        rest := rest - {id};
        if models[id].Validate().None? {
          cache := cache[id := Cached(models[id], at + ttl)];
        }
      }
      assert (map k | k in models && k !in rest :: models[k]) == models;
      ValidModelsAreListed(old(cache), models, at + ttl);
    }

    // One turn of the background task, from taking the cache lock to releasing it.
    method BackgroundRefresh(listing: Option<map<string, ModelInfo>>, now: int)
      modifies this
      ensures cache == LiveEntries(
                WithListing(old(cache), if listing.Some? then listing.value else map[], now + ttl), now)
      ensures forall id | id in cache :: now < cache[id].expiresAt
      ensures listing.Some? && 0 < ttl ==>
                forall id | id in listing.value && IsValid(listing.value[id]) ::
                  id in cache && cache[id] == Cached(listing.value[id], now + ttl)
    {
      if listing.Some? {
        ApplyListing(listing.value, now);
      } else {
        assert WithListing(cache, map[], now + ttl) == cache;
      }
      var removed := CleanupExpired(now);
    }

    method Invalidate(ids: seq<string>)
      modifies this
      ensures cache == WithoutModels(old(cache), ids)
      ensures forall id :: id in cache <==> id in old(cache) && ids != [] && id !in ids
      ensures forall id | id in cache :: cache[id] == old(cache)[id]
    {
      if ids == [] {
        cache := map[];
      } else {
        for i := 0 to |ids|
          invariant cache == old(cache) - (set k | k in ids[..i])
        {
          cache := cache - {ids[i]};
        }
        assert ids[..|ids|] == ids;
      }
    }

    method CleanupExpired(now: int) returns (removed: nat)
      modifies this
      ensures cache == LiveEntries(old(cache), now)
      ensures forall id :: id in cache <==> id in old(cache) && now < old(cache)[id].expiresAt
      ensures forall id | id in cache :: cache[id] == old(cache)[id]
      ensures removed == |old(cache)| - |cache|
    {
      var initialLen := |cache|;
      cache := LiveEntries(cache, now);
      LiveEntriesAreFewer(old(cache), now);
      removed := initialLen - |cache|;
    }

    // The cheapest live model that fits, whatever the order of the entries. The price of a model is that of seven
    // tenths of the tokens as input and three tenths as output, both rounded down.
    method FindBestFit(tokens: nat, now: int) returns (best: Option<ModelInfo>)
      ensures best.None? <==>
              forall id | id in cache && now < cache[id].expiresAt :: !(0 < tokens <= cache[id].info.contextWindow)
      ensures best.Some? ==>
                (exists id :: id in cache && now < cache[id].expiresAt && cache[id].info == best.value) &&
                0 < tokens <= best.value.contextWindow &&
                forall id | id in cache && now < cache[id].expiresAt && tokens <= cache[id].info.contextWindow ::
                  Price(best.value, tokens * 7 / 10, tokens * 3 / 10)
                  <= Price(cache[id].info, tokens * 7 / 10, tokens * 3 / 10)
    {
      best := None;
      var live := LiveEntries(cache, now);
      var rest := live.Keys;
      while rest != {}
        invariant rest <= live.Keys
        invariant best.None? <==> forall id | id in live.Keys - rest :: !cache[id].info.CanFitContext(tokens)
        invariant best.Some? ==> exists id :: id in live && cache[id].info == best.value
        invariant best.Some? ==> best.value.CanFitContext(tokens)
        invariant best.Some? ==> forall id | id in live.Keys - rest && cache[id].info.CanFitContext(tokens) ::
                    Cost(best.value, tokens) <= Cost(cache[id].info, tokens)
        decreases rest
      {
        var id :| id in rest;
        rest := rest - {id};
        var info := cache[id].info;
        if info.CanFitContext(tokens) && (best.None? || Cost(info, tokens) < Cost(best.value, tokens)) {
          assert id in live && cache[id].info == info;
          best := Some(info);
        }
      }
      forall info: ModelInfo ensures Cost(info, tokens) == Price(info, tokens * 7 / 10, tokens * 3 / 10) {
        CostIsPrice(info, tokens);
      }
    }
  }

  // Seven tenths of the tokens priced as input and three tenths as output, both rounded down.
  function Cost(info: ModelInfo, tokens: nat): real {
    var input, output := (tokens as real * 0.7).Floor, (tokens as real * 0.3).Floor;
    info.EstimateCost(input, output)
  }

  // What these tokens cost, at so much per million.
  function Price(info: ModelInfo, input: nat, output: nat): real {
    (input as real * info.inputPricePerMillion + output as real * info.outputPricePerMillion) / 1_000_000.0
  }

  lemma FloorIsQuotient(tokens: nat, tenths: nat)
    requires tenths <= 10
    ensures (tokens as real * (tenths as real / 10.0)).Floor == tokens * tenths / 10
  {
    var q, x := tokens * tenths / 10, tokens * tenths;
    assert x == 10 * q + x % 10;
    assert tokens as real * (tenths as real / 10.0) == x as real / 10.0;
  }

  lemma CostIsPrice(info: ModelInfo, tokens: nat)
    ensures Cost(info, tokens) == Price(info, tokens * 7 / 10, tokens * 3 / 10)
  {
    FloorIsQuotient(tokens, 7);
    FloorIsQuotient(tokens, 3);
  }

  lemma LiveEntriesAreFewer(cache: Cache, now: int)
    ensures |LiveEntries(cache, now)| <= |cache|
  {
    SubsetIsNoLarger(LiveEntries(cache, now).Keys, cache.Keys);
  }
}
