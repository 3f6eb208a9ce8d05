// Model metadata, its validation, and the pure effect of every cache operation of the registry.

module ModelCatalog {

  import opened Wrappers

  datatype Capabilities = Capabilities(streaming: bool, tools: bool, vision: bool, thinking: bool)

  datatype RateLimits = RateLimits(requestsPerMinute: nat, tokensPerMinute: nat)

  datatype DataSource = Static | ModelsDev | LiteLLM | Local

  datatype ModelInfo = ModelInfo(
    id: string,
    name: string,
    provider: string,
    contextWindow: nat,
    maxOutputTokens: nat,
    inputPricePerMillion: real,
    outputPricePerMillion: real,
    capabilities: Capabilities,
    rateLimits: RateLimits,
    source: DataSource)
  {
    // The first violated rule, in the order the rules are checked.
    function Validate(): Option<ModelInfoError> {
      if id == "" then Some(EmptyId)
      else if contextWindow == 0 then Some(InvalidContextWindow(id, contextWindow))
      else if inputPricePerMillion < 0.0 then Some(InvalidInputPrice(id, inputPricePerMillion))
      else if outputPricePerMillion < 0.0 then Some(InvalidOutputPrice(id, outputPricePerMillion))
      else None
    }

    predicate CanFitContext(tokens: nat) {
      0 < tokens <= contextWindow
    }

    function EstimateCost(inputTokens: nat, outputTokens: nat): real {
      inputTokens as real / 1000000.0 * inputPricePerMillion
      + outputTokens as real / 1000000.0 * outputPricePerMillion
    }
  }

  datatype ModelInfoError =
    | EmptyId
    | InvalidContextWindow(id: string, window: nat)
    | InvalidInputPrice(id: string, price: real)
    | InvalidOutputPrice(id: string, price: real)

  // What a model must satisfy to be cached or returned.
  predicate IsValid(info: ModelInfo) {
    info.id != "" && info.contextWindow > 0 && info.inputPricePerMillion >= 0.0 && info.outputPricePerMillion >= 0.0
  }

  // e names the first thing that is wrong with a model.
  predicate IsFirstViolation(info: ModelInfo, e: ModelInfoError) {
    match e
    case EmptyId => info.id == ""
    case InvalidContextWindow(id, window) => info.id == id != "" && info.contextWindow == window == 0
    case InvalidInputPrice(id, price) =>
      info.id == id != "" && info.contextWindow > 0 && info.inputPricePerMillion == price < 0.0
    case InvalidOutputPrice(id, price) =>
      info.id == id != "" && info.contextWindow > 0 && info.inputPricePerMillion >= 0.0 &&
      info.outputPricePerMillion == price < 0.0
  }

  lemma ValidationIsExact(info: ModelInfo)
    ensures info.Validate().None? <==> IsValid(info)
    ensures info.Validate().Some? ==> IsFirstViolation(info, info.Validate().value)
  {
  }

  datatype Cached = Cached(info: ModelInfo, expiresAt: int)

  type Cache = map<string, Cached>

  // What a listing of all models leaves in the cache: valid models replace, invalid ones are skipped.
  function WithListing(cache: Cache, models: map<string, ModelInfo>, expiresAt: int): Cache {
    cache + map k | k in models && models[k].Validate().None? :: Cached(models[k], expiresAt)
  }

  lemma ValidModelsAreListed(cache: Cache, models: map<string, ModelInfo>, expiresAt: int)
    ensures var listed := WithListing(cache, models, expiresAt);
            (forall id :: id in listed <==> id in cache || (id in models && IsValid(models[id]))) &&
            forall id | id in listed ::
              listed[id] == if id in models && IsValid(models[id]) then Cached(models[id], expiresAt) else cache[id]
  {
    forall id | id in models ensures models[id].Validate().None? <==> IsValid(models[id]) {
      ValidationIsExact(models[id]);
    }
  }

  function LiveEntries(cache: Cache, now: int): Cache {
    map k | k in cache && now < cache[k].expiresAt :: cache[k]
  }

  // Invalidating no model in particular invalidates all of them.
  function WithoutModels(cache: Cache, ids: seq<string>): Cache {
    if ids == [] then map[] else cache - (set k | k in ids)
  }
}
