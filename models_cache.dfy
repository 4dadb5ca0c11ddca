/** `src/routes/api/models/cache.ts` and `get-models.ts`: one cache entry
  * per pipeline tag, fresh for an hour in either clock direction, and the
  * per-tag fetch that serves a fresh successful entry or refetches and
  * overwrites it. `Date.now()` is the explicit `now`; the fetch is its
  * outcome, given as a parameter and consulted only when the cache is not
  * used. Models are opaque values. */
module ModelsCache {
  import opened Wrappers

  /** `CACHE_REFRESH`: one hour in milliseconds. */
  const CacheRefresh: int := 1000 * 60 * 60

  function Abs(x: int): nat
  {
    if x < 0 then -x else x
  }

  /** A `CacheEntry`: `data` is absent for a failed fetch. */
  datatype CacheEntry<M> = CacheEntry(timestamp: int, data: Option<seq<M>>, ok: bool)

  /** `new CacheEntry(args)` at time `now`. */
  function NewEntry<M>(ok: bool, data: Option<seq<M>>, now: int): (e: CacheEntry<M>)
    ensures e.timestamp == now && e.ok == ok && e.data == data
  {
    CacheEntry(now, data, ok)
  }

  /** `isFresh()` at time `now`. */
  predicate IsFresh<M>(e: CacheEntry<M>, now: int)
  {
    Abs(e.timestamp - now) < CacheRefresh
  }

  /** An entry is fresh at the moment it is created. */
  lemma FreshWhenCreated<M>(ok: bool, data: Option<seq<M>>, now: int)
    ensures IsFresh(NewEntry(ok, data, now), now)
  {
  }

  /** Freshness depends on the distance between the two times only, so a
    * clock that moves backwards is treated like one that moves forwards. */
  lemma FreshSymmetric<M>(e: CacheEntry<M>, now: int)
    ensures IsFresh(e, now) <==> IsFresh(e.(timestamp := now), e.timestamp)
    ensures IsFresh(e, now) <==> e.timestamp - CacheRefresh < now < e.timestamp + CacheRefresh
  {
  }

  datatype Tag = TextGeneration | ImageTextToText | OtherTag(name: string)

  /** The query string of the models request, in order. */
  function Query(tag: Tag): (q: seq<(string, string)>)
    ensures 9 <= |q| <= 10 && q[..9] == [("inference_provider", "all"), ("limit", "100"),
      ("expand[]", "inferenceProviderMapping"), ("expand[]", "config"), ("expand[]", "library_name"),
      ("expand[]", "pipeline_tag"), ("expand[]", "tags"), ("expand[]", "mask_token"),
      ("expand[]", "trendingScore")]
    ensures ("filter", "conversational") in q <==> tag == TextGeneration || tag == ImageTextToText
  {
    var base := [("inference_provider", "all"), ("limit", "100"),
      ("expand[]", "inferenceProviderMapping"), ("expand[]", "config"), ("expand[]", "library_name"),
      ("expand[]", "pipeline_tag"), ("expand[]", "tags"), ("expand[]", "mask_token"),
      ("expand[]", "trendingScore")];
    assert base[..9] == base;
    base + if tag in {TextGeneration, ImageTextToText} then [("filter", "conversational")] else []
  }

  /** What the fetch gives: a non-ok status, the JSON model list, or a
    * rejection (the `fetch` itself, or `res.json()` on a body that is not
    * JSON). */
  datatype Response<M> = NotOk | Ok(models: seq<M>) | Rejected

  /** The entry `getModelsForTag` serves without fetching. */
  predicate Serves<M>(entry: Option<CacheEntry<M>>, now: int)
  {
    entry.Some? && IsFresh(entry.value, now) && entry.value.ok && entry.value.data.Some?
  }

  /** The module-level `cache` record. */
  class Store<M> {
    var entries: map<Tag, CacheEntry<M>>

    constructor()
      ensures entries == map[]
    {
      entries := map[];
    }

    /** `getModelsForTag({tag, fetch})` at time `now`: `models` is what
      * the returned promise resolves to, `None` when it rejects. */
    method GetModelsForTag(tag: Tag, now: int, response: Response<M>) returns (fetched: bool, models: Option<seq<M>>)
      modifies this
      ensures var cached := if tag in old(entries) then Some(old(entries)[tag]) else None;
        !fetched <==> Serves(cached, now)
      ensures !fetched ==> models == Some(old(entries)[tag].data.value) && entries == old(entries)
      ensures fetched && response.NotOk? ==> models == Some([]) && entries == old(entries)[tag := NewEntry(false, None, now)]
      ensures fetched && response.Ok? ==> models == Some(response.models) && entries == old(entries)[tag := NewEntry(true, Some(response.models), now)]
      ensures fetched && response.Rejected? ==> models.None? && entries == old(entries)
    {
      if tag in entries && IsFresh(entries[tag], now) && entries[tag].ok && entries[tag].data.Some? {
        return false, Some(entries[tag].data.value);
      }
      fetched := true;
      match response
      case NotOk =>
        entries := entries[tag := NewEntry(false, None, now)];
        models := Some([]);
      case Ok(data) =>
        entries := entries[tag := NewEntry(true, Some(data), now)];
        models := Some(data);
      case Rejected =>
        models := None;
    }
  }

  /** After a failed fetch the tag is never served from the cache, so the
    * next call fetches again; after a successful one it is served for the
    * next hour. */
  lemma FailureNotServed<M>(now: int, later: int)
    ensures !Serves(Some(NewEntry<M>(false, None, now)), later)
  {
  }

  lemma SuccessServed<M>(models: seq<M>, now: int, later: int)
    ensures Serves(Some(NewEntry(true, Some(models), now)), later) <==> Abs(now - later) < CacheRefresh
  {
  }
}
