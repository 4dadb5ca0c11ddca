/** `src/lib/server/providers/index.ts`: the nested provider -> model ->
  * max-tokens cache held in `memoryCache` and backed by a JSON file,
  * `getMaxTokens` with its live fetch for four providers, and the merge of
  * `fetchAllProviderData`. Reading the file, the provider fetchers and the
  * file writes are given as their outcomes. The in-flight `cacheReadPromise`
  * only shares one read between concurrent callers; calls are sequential
  * here, so it is not modelled. */
module Providers {
  import opened Wrappers

  /** One provider's `{ [modelId]: maxTokens }`. */
  type ProviderTable = map<string, int>

  /** `MaxTokensCache`: `{ [provider]: { [modelId]: maxTokens } }`. */
  type MaxTokensCache = map<string, ProviderTable>

  /** What reading and parsing the cache file gives: the parsed cache, a
    * missing file (`ENOENT`), or any other read or parse error. */
  datatype FileRead = Contents(cache: MaxTokensCache) | Missing | Unreadable

  /** What a provider's live fetcher gives: its table (or `null`), or an
    * exception. */
  datatype Live = LiveTable(table: Option<ProviderTable>) | LiveThrows

  /** The providers with a live fetcher, in the order of `fetchAllProviderData`. */
  const Supported: seq<string> := ["cohere", "together", "fireworks-ai", "hyperbolic"]

  /** What `readCache` settles on when nothing is in memory: the parsed
    * file, or `{}` when the file is missing or unreadable. */
  function Loaded(file: FileRead): (c: MaxTokensCache)
    ensures file.Contents? ==> c == file.cache
    ensures !file.Contents? ==> c == map[]
  {
    if file.Contents? then file.cache else map[]
  }

  /** `cache[provider]?.[modelId]`. */
  function Lookup(cache: MaxTokensCache, provider: string, modelId: string): (r: Option<int>)
    ensures r.Some? <==> provider in cache && modelId in cache[provider]
    ensures r.Some? ==> r.value == cache[provider][modelId]
  {
    if provider in cache && modelId in cache[provider] then Some(cache[provider][modelId]) else None
  }

  /** `cache[provider][modelId] = maxTokens`, creating `cache[provider]`
    * when it is missing. */
  function Updated(cache: MaxTokensCache, provider: string, modelId: string, maxTokens: int): (r: MaxTokensCache)
    ensures r.Keys == cache.Keys + {provider}
  {
    var table := if provider in cache then cache[provider] else map[];
    cache[provider := table[modelId := maxTokens]]
  }

  /** The value a live fetch yields on a cache miss: none for a provider
    * without a fetcher, `fetchedProviderData?.[modelId] ?? null` otherwise,
    * and none when the fetcher throws. */
  function LiveValue(provider: string, modelId: string, live: Live): Option<int>
  {
    if provider !in Supported then None
    else match live
      case LiveThrows => None
      case LiveTable(table) => if table.Some? && modelId in table.value then Some(table.value[modelId]) else None
  }

  /** `getMaxTokens` over a cache: the cached value, or else the live one. */
  function MaxTokens(cache: MaxTokensCache, provider: string, modelId: string, live: Live): Option<int>
  {
    var cached := Lookup(cache, provider, modelId);
    if cached.Some? then cached else LiveValue(provider, modelId, live)
  }

  /** The module-level `memoryCache`, `null` while nothing is loaded. */
  class MaxTokensStore {
    var memoryCache: Option<MaxTokensCache>

    constructor()
      ensures memoryCache == None
    {
      memoryCache := None;
    }

    /** `readCache()`: the cache in memory, or the file loaded into memory. */
    method ReadCache(file: FileRead) returns (cache: MaxTokensCache)
      modifies this
      ensures old(memoryCache).Some? ==> cache == old(memoryCache).value
      ensures old(memoryCache).None? ==> cache == Loaded(file)
      ensures memoryCache == Some(cache)
    {
      if memoryCache.Some? {
        return memoryCache.value;
      }
      match file {
        case Contents(parsed) =>
          memoryCache := Some(parsed);
          cache := parsed;
        case Missing =>
          memoryCache := Some(map[]);
          cache := map[];
        case Unreadable =>
          memoryCache := Some(map[]);
          cache := map[];
      }
    }

    /** `updateCache(provider, modelId, maxTokens)`: re-reads the file, sets
      * the entry and writes the file back (temporary file, then rename);
      * `written` is whether both writes succeed. Any error after a missing
      * file clears `memoryCache`. */
    method UpdateCache(provider: string, modelId: string, maxTokens: int, file: FileRead, written: bool)
      modifies this
      ensures file.Unreadable? || !written ==> memoryCache == None
      ensures !file.Unreadable? && written ==> memoryCache == Some(Updated(Loaded(file), provider, modelId, maxTokens))
    {
      var cache: MaxTokensCache;
      match file {
        case Unreadable =>
          memoryCache := None;
          return;
        case Missing =>
          cache := map[];
        case Contents(parsed) =>
          cache := parsed;
      }
      ghost var read := cache;
      if provider !in cache {
        cache := cache[provider := map[]];
      }
      cache := cache[provider := cache[provider][modelId := maxTokens]];
      assert read == Loaded(file);
      assert cache == Updated(read, provider, modelId, maxTokens);
      if !written {
        memoryCache := None;
        return;
      }
      memoryCache := Some(cache);
    }

    /** `getMaxTokens(provider, modelId, apiKey)`: `file` is what a read of
      * the cache file would give, `live` the provider fetcher's outcome, and
      * `updateFile`/`written` the outcome of the cache update that a live
      * value starts. The update is not awaited by the source; it is run
      * before returning here. */
    method GetMaxTokens(provider: string, modelId: string, file: FileRead, live: Live, updateFile: FileRead, written: bool)
      returns (r: Option<int>)
      modifies this
      ensures var cache := if old(memoryCache).Some? then old(memoryCache).value else Loaded(file);
        r == MaxTokens(cache, provider, modelId, live)
        && memoryCache == (if Lookup(cache, provider, modelId).None? && r.Some?
          then (if updateFile.Unreadable? || !written then None
                else Some(Updated(Loaded(updateFile), provider, modelId, r.value)))
          else Some(cache))
    {
      var cache := ReadCache(file);
      if provider in cache && modelId in cache[provider] {
        return Some(cache[provider][modelId]);
      }
      if provider !in Supported {
        return None;
      }
      var liveData: Option<int> := None;
      match live {
        case LiveThrows =>
          return None;
        case LiveTable(table) =>
          if table.Some? && modelId in table.value {
            liveData := Some(table.value[modelId]);
          }
      }
      if liveData.Some? {
        UpdateCache(provider, modelId, liveData.value, updateFile, written);
        return liveData;
      }
      return None;
    }
  }

  /** A cached value is returned whatever the live fetcher would do. */
  lemma CachedWins(cache: MaxTokensCache, provider: string, modelId: string, live: Live, other: Live)
    requires Lookup(cache, provider, modelId).Some?
    ensures MaxTokens(cache, provider, modelId, live) == MaxTokens(cache, provider, modelId, other) == Some(cache[provider][modelId])
  {
  }

  /** On a miss, a provider without a live fetcher gives `null`, and one
    * with a fetcher gives the fetched value when there is one. */
  lemma MissResult(cache: MaxTokensCache, provider: string, modelId: string, live: Live)
    requires Lookup(cache, provider, modelId).None?
    ensures provider !in ["cohere", "together", "fireworks-ai", "hyperbolic"] ==> MaxTokens(cache, provider, modelId, live).None?
    ensures MaxTokens(cache, provider, modelId, live).Some? <==>
      provider in Supported && live.LiveTable? && live.table.Some? && modelId in live.table.value
    ensures live.LiveThrows? ==> MaxTokens(cache, provider, modelId, live).None?
  {
  }

  /** The update sets exactly one entry: the new value is found, and every
    * other provider and every other model of the provider keep theirs. */
  lemma UpdatedLookup(cache: MaxTokensCache, provider: string, modelId: string, maxTokens: int, p: string, m: string)
    ensures Lookup(Updated(cache, provider, modelId, maxTokens), p, m)
      == if p == provider && m == modelId then Some(maxTokens) else Lookup(cache, p, m)
  {
  }

  /** A value found live and written back is served from memory by the
    * next call, without a fetch. */
  lemma LiveValueCached(file: FileRead, provider: string, modelId: string, v: int, live: Live)
    ensures MaxTokens(Updated(Loaded(file), provider, modelId, v), provider, modelId, live) == Some(v)
  {
    UpdatedLookup(Loaded(file), provider, modelId, v, provider, modelId);
  }

  /** One settled fetcher promise of `fetchAllProviderData`. */
  datatype Settled = Fulfilled(value: Option<ProviderTable>) | Rejected

  /** Whether the provider's result is kept: fulfilled with a non-empty map. */
  predicate Kept(s: Settled)
  {
    s.Fulfilled? && s.value.Some? && s.value.value != map[]
  }

  /** The supported providers are named once each. */
  lemma SupportedDistinct()
    ensures forall i, j :: 0 <= i < j < |Supported| ==> Supported[i] != Supported[j]
  {
    var names := Supported;
    assert names[0] != names[1] && names[0] != names[2] && names[0] != names[3];
    assert names[1] != names[2] && names[1] != names[3] && names[2] != names[3];
  }

  /** `fetchAllProviderData(apiKeys)`, given the settled results of the
    * four fetchers in the order of `Supported`. */
  method FetchAllProviderData(settled: seq<Settled>) returns (results: MaxTokensCache)
    requires |settled| == |Supported|
    ensures forall name :: name in results ==> name in Supported
    ensures forall i :: 0 <= i < |Supported| ==> (Supported[i] in results <==> Kept(settled[i]))
    ensures forall i :: 0 <= i < |Supported| && Kept(settled[i]) ==> results[Supported[i]] == settled[i].value.value
  {
    results := map[];
    SupportedDistinct();
    for index := 0 to |settled|
      invariant forall name :: name in results ==> name in Supported[..index]
      invariant forall i :: 0 <= i < index ==> (Supported[i] in results <==> Kept(settled[i]))
      invariant forall i :: 0 <= i < index && Kept(settled[i]) ==> results[Supported[i]] == settled[i].value.value
    {
      var result := settled[index];
      var providerName := Supported[index];
      if result.Fulfilled? && result.value.Some? {
        if result.value.value != map[] {
          results := results[providerName := result.value.value];
        }
      }
    }
  }
}
