/** The two-category model cache policy that `src/routes/api/visual-models/+server.ts`
  * (`GET`, over text-to-image and text-to-video models) and
  * `src/lib/remote/models.remote.ts` (`getModels`, over text-generation
  * and image-text-to-text models) both implement: serve the module-level
  * cache while it is young enough, otherwise refetch the categories that
  * are stale or failed last time, fall back to the old data when
  * everything fails, and rebuild a filtered, sorted list otherwise.
  * `Date.now()` is the explicit `now`; each category's fetch is given as
  * its outcome and only consulted when that category is refetched. */
module Refresh {
  import opened Wrappers
  import opened Catalog

  /** `FULL_CACHE_REFRESH` and `PARTIAL_CACHE_REFRESH`. */
  const FullCacheRefresh: int := 1000 * 60 * 60
  const PartialCacheRefresh: int := 1000 * 60 * 15

  datatype Status = Success | Partial | Error

  /** The module-level `cache` record (its `failedTokenizers`, always
    * reset to `[]`, is not modelled). */
  datatype CacheState = CacheState(data: Option<seq<Model>>, timestamp: int, status: Status,
                                   failedFirst: bool, failedSecond: bool)

  const Initial: CacheState := CacheState(None, 0, Error, false, false)

  /** The outcome of one category's fetch: its models, a failure recorded
    * in the category's flag, or an exception that reaches the `catch`. */
  datatype Fetch = Fetched(models: seq<Model>) | Failed | Thrown

  /** What a call returns, and the cache record after it. */
  datatype Reply = Reply(models: seq<Model>, next: CacheState)

  /** `cache.data?.length` is truthy. */
  predicate HasData(s: CacheState)
  {
    s.data.Some? && |s.data.value| > 0
  }

  function RefreshTime(status: Status): int
  {
    if status == Success then FullCacheRefresh else PartialCacheRefresh
  }

  /** The cache is returned as it is. */
  predicate Serves(s: CacheState, now: int)
  {
    now - s.timestamp < RefreshTime(s.status) && HasData(s)
  }

  predicate NeedsFirst(s: CacheState, now: int)
  {
    now - s.timestamp >= FullCacheRefresh || s.failedFirst
  }

  predicate NeedsSecond(s: CacheState, now: int)
  {
    now - s.timestamp >= FullCacheRefresh || s.failedSecond
  }

  function WithTag(models: seq<Model>, tag: string): (r: seq<Model>)
    ensures forall m :: m in r <==> m in models && m.pipelineTag == tag
  {
    if models == [] then []
    else
      var last := models[|models| - 1];
      WithTag(models[..|models| - 1], tag) + if last.pipelineTag == tag then [last] else []
  }

  function WithProviders(models: seq<Model>): (r: seq<Model>)
    ensures forall m :: m in r <==> m in models && m.providerCount > 0
  {
    if models == [] then []
    else
      var last := models[|models| - 1];
      WithProviders(models[..|models| - 1]) + if last.providerCount > 0 then [last] else []
  }

  /** The models one category contributes: the fetched list when it was
    * refetched (nothing when that fetch failed), otherwise the cached
    * models carrying its pipeline tag. */
  function Part(s: CacheState, need: bool, fetch: Fetch, tag: string): seq<Model>
  {
    if !need then (if s.data.Some? then WithTag(s.data.value, tag) else [])
    else if fetch.Fetched? then fetch.models
    else []
  }

  /** The `catch` block. */
  function Recover(s: CacheState, now: int): (r: Reply)
    ensures r.next.status == Error && r.next.failedFirst && r.next.failedSecond && r.next.data == s.data
    ensures HasData(s) ==> r.models == s.data.value && r.next.timestamp == s.timestamp
    ensures !HasData(s) ==> r.models == [] && r.next.timestamp == now
  {
    if HasData(s) then Reply(s.data.value, s.(status := Error, failedFirst := true, failedSecond := true))
    else Reply([], s.(status := Error, timestamp := now, failedFirst := true, failedSecond := true))
  }

  /** One call at time `now`. */
  function Respond(s: CacheState, now: int, firstTag: string, secondTag: string, first: Fetch, second: Fetch): Reply
  {
    if Serves(s, now) then Reply(s.data.value, s)
    else if (NeedsFirst(s, now) && first.Thrown?) || (NeedsSecond(s, now) && second.Thrown?) then Recover(s, now)
    else Refetched(s, now, firstTag, secondTag, first, second)
  }

  /** The `try` block once every needed fetch has settled without throwing. */
  function Refetched(s: CacheState, now: int, firstTag: string, secondTag: string, first: Fetch, second: Fetch): Reply
  {
    var needFirst, needSecond := NeedsFirst(s, now), NeedsSecond(s, now);
    var failFirst, failSecond := needFirst && first.Failed?, needSecond && second.Failed?;
    if failFirst && failSecond && HasData(s) then
      Reply(s.data.value, s.(status := Error, timestamp := now, failedFirst := true, failedSecond := true))
    else
      var models := SortById(WithProviders(Part(s, needFirst, first, firstTag) + Part(s, needSecond, second, secondTag)));
      Reply(models, CacheState(Some(models), now, if failFirst || failSecond then Partial else Success, failFirst, failSecond))
  }

  /** The module-level `cache` record, whose fields the handler assigns
    * one by one, and the handler itself. */
  class ModelCache {
    const firstTag: string
    const secondTag: string
    var cache: CacheState

    constructor(firstTag: string, secondTag: string)
      ensures cache == Initial && this.firstTag == firstTag && this.secondTag == secondTag
    {
      this.firstTag := firstTag;
      this.secondTag := secondTag;
      cache := Initial;
    }

    /** The request handler at time `now`. */
    method Get(now: int, first: Fetch, second: Fetch) returns (models: seq<Model>)
      modifies this
      ensures Reply(models, cache) == Respond(old(cache), now, firstTag, secondTag, first, second)
    {
      var elapsed := now - cache.timestamp;
      var refreshTime := if cache.status == Success then FullCacheRefresh else PartialCacheRefresh;
      if elapsed < refreshTime && cache.data.Some? && |cache.data.value| > 0 {
        return cache.data.value;
      }
      var needFirst := elapsed >= FullCacheRefresh || cache.failedFirst;
      var needSecond := elapsed >= FullCacheRefresh || cache.failedSecond;
      if (needFirst && first.Thrown?) || (needSecond && second.Thrown?) {
        cache := cache.(status := Error, failedFirst := true, failedSecond := true);
        if cache.data.Some? && |cache.data.value| > 0 {
          return cache.data.value;
        }
        cache := cache.(timestamp := now);
        return [];
      }
      models := Refetch(now, first, second);
    }

    /** The `try` block once the needed fetches have settled without
      * throwing. */
    method Refetch(now: int, first: Fetch, second: Fetch) returns (models: seq<Model>)
      modifies this
      ensures Reply(models, cache) == Refetched(old(cache), now, firstTag, secondTag, first, second)
    {
      var elapsed := now - cache.timestamp;
      var needFirst := elapsed >= FullCacheRefresh || cache.failedFirst;
      var needSecond := elapsed >= FullCacheRefresh || cache.failedSecond;
      var newFailedFirst := needFirst && first.Failed?;
      var newFailedSecond := needSecond && second.Failed?;
      if newFailedFirst && newFailedSecond && cache.data.Some? && |cache.data.value| > 0 {
        cache := cache.(status := Error, timestamp := now, failedFirst := newFailedFirst, failedSecond := newFailedSecond);
        return cache.data.value;
      }
      var firstModels: seq<Model> := [];
      var secondModels: seq<Model> := [];
      if needFirst {
        if first.Fetched? {
          firstModels := first.models;
        }
      } else if cache.data.Some? {
        firstModels := WithTag(cache.data.value, firstTag);
      }
      if needSecond {
        if second.Fetched? {
          secondModels := second.models;
        }
      } else if cache.data.Some? {
        secondModels := WithTag(cache.data.value, secondTag);
      }
      models := SortById(WithProviders(firstModels + secondModels));
      var status := if newFailedFirst || newFailedSecond then Partial else Success;
      cache := CacheState(Some(models), now, status, newFailedFirst, newFailedSecond);
    }
  }

  /** The contribution of a category that is not refetched is the cached
    * models with its tag. */
  lemma PartReused(s: CacheState, fetch: Fetch, tag: string)
    ensures forall m :: m in Part(s, false, fetch, tag) <==> s.data.Some? && m in s.data.value && m.pipelineTag == tag
  {
  }

  /** A young cache with data is returned untouched, whatever the fetches
    * would give. */
  lemma CacheServed(s: CacheState, now: int, firstTag: string, secondTag: string, first: Fetch, second: Fetch)
    requires Serves(s, now)
    ensures Respond(s, now, firstTag, secondTag, first, second) == Reply(s.data.value, s)
  {
  }

  /** A category that is neither stale nor failed last time is not
    * refetched: its fetch has no effect on the call. */
  lemma FirstNotRefetched(s: CacheState, now: int, firstTag: string, secondTag: string, f: Fetch, g: Fetch, second: Fetch)
    requires !NeedsFirst(s, now)
    ensures Respond(s, now, firstTag, secondTag, f, second) == Respond(s, now, firstTag, secondTag, g, second)
  {
  }

  lemma SecondNotRefetched(s: CacheState, now: int, firstTag: string, secondTag: string, first: Fetch, f: Fetch, g: Fetch)
    requires !NeedsSecond(s, now)
    ensures Respond(s, now, firstTag, secondTag, first, f) == Respond(s, now, firstTag, secondTag, first, g)
  {
  }

  /** When both categories are refetched and both fail, the old data is
    * returned and the record only notes the failure and the time. */
  lemma BothFailedFallback(s: CacheState, now: int, firstTag: string, secondTag: string)
    requires !Serves(s, now) && NeedsFirst(s, now) && NeedsSecond(s, now) && HasData(s)
    ensures Respond(s, now, firstTag, secondTag, Failed, Failed)
      == Reply(s.data.value, CacheState(s.data, now, Error, true, true))
  {
  }

  /** Otherwise the reply is the new cache content: sorted by id, exactly
    * the contributed models that have a provider, stamped `now`, with
    * status `PARTIAL` exactly when a fetch failed, and the failure flags
    * of this call. */
  lemma Rebuilt(s: CacheState, now: int, firstTag: string, secondTag: string, first: Fetch, second: Fetch)
    requires !Serves(s, now) && !first.Thrown? && !second.Thrown?
    requires !(NeedsFirst(s, now) && first.Failed? && NeedsSecond(s, now) && second.Failed? && HasData(s))
    ensures var r := Respond(s, now, firstTag, secondTag, first, second);
      var failFirst, failSecond := NeedsFirst(s, now) && first.Failed?, NeedsSecond(s, now) && second.Failed?;
      var parts := Part(s, NeedsFirst(s, now), first, firstTag) + Part(s, NeedsSecond(s, now), second, secondTag);
      && r.next.data == Some(r.models) && r.next.timestamp == now
      && SortedById(r.models)
      && (forall m :: m in r.models <==> m in parts && m.providerCount > 0)
      && r.next.failedFirst == failFirst && r.next.failedSecond == failSecond
      && (r.next.status == Partial <==> failFirst || failSecond)
      && (r.next.status == Success <==> !failFirst && !failSecond)
  {
    var parts := Part(s, NeedsFirst(s, now), first, firstTag) + Part(s, NeedsSecond(s, now), second, secondTag);
    var models := SortById(WithProviders(parts));
    forall m
      ensures m in models <==> m in WithProviders(parts)
    {
      assert m in models <==> m in multiset(models);
    }
  }

  /** An exception returns the old data when there is some and otherwise
    * an empty list; both flags are set and the status becomes `ERROR`. */
  lemma Thrown(s: CacheState, now: int, firstTag: string, secondTag: string, second: Fetch)
    requires !Serves(s, now) && NeedsFirst(s, now)
    ensures Respond(s, now, firstTag, secondTag, Fetch.Thrown, second) == Recover(s, now)
  {
  }

  /** A complete refresh is served for the next hour (when it found any
    * model); a category that failed is refetched on the next call that is
    * not served from the cache. */
  lemma AfterRefresh(r: Reply, later: int)
    requires r.next.data == Some(r.models)
    ensures r.next.status == Success && |r.models| > 0 && r.next.timestamp <= later < r.next.timestamp + FullCacheRefresh
      ==> Serves(r.next, later)
    ensures r.next.failedFirst ==> NeedsFirst(r.next, later)
    ensures r.next.failedSecond ==> NeedsSecond(r.next, later)
  {
  }

  /** A partial or failed cache is served for fifteen minutes at most. */
  lemma PartialWindow(s: CacheState, now: int)
    requires s.status != Success && now >= s.timestamp + PartialCacheRefresh
    ensures !Serves(s, now)
  {
  }

  // ----- buildApiUrl -----

  /** A value of the query-parameter object: a scalar in its `String(value)`
    * form, an array, or `undefined`. */
  datatype Param = Scalar(text: string) | List(items: seq<string>) | Undefined

  /** The pairs the first loop of `buildApiUrl` appends: every non-array
    * entry in order, `undefined` ones written as `"undefined"` unless they
    * are skipped. */
  function Simple(params: seq<(string, Param)>, skipUndefined: bool): seq<(string, string)>
  {
    if params == [] then []
    else
      var (key, value) := params[|params| - 1];
      Simple(params[..|params| - 1], skipUndefined)
        + match value
          case Scalar(text) => [(key, text)]
          case List(_) => []
          case Undefined => if skipUndefined then [] else [(key, "undefined")]
  }

  /** The pairs the second loop appends: one `expand[]` per item. */
  function Expanded(items: seq<string>): (r: seq<(string, string)>)
    ensures |r| == |items| && forall i :: 0 <= i < |items| ==> r[i] == ("expand[]", items[i])
  {
    if items == [] then [] else Expanded(items[..|items| - 1]) + [("expand[]", items[|items| - 1])]
  }

  /** `buildApiUrl(params)`, as the sequence of search parameters it
    * appends to the base URL; `expand` is `params.expand`. */
  method BuildApiUrl(params: seq<(string, Param)>, expand: seq<string>, skipUndefined: bool) returns (query: seq<(string, string)>)
    ensures query == Simple(params, skipUndefined) + Expanded(expand)
  {
    query := [];
    for i := 0 to |params|
      invariant query == Simple(params[..i], skipUndefined)
    {
      assert params[..i + 1][..i] == params[..i];
      var (key, value) := params[i];
      match value {
        case Scalar(text) =>
          query := query + [(key, text)];
        case List(_) =>
        case Undefined =>
          if !skipUndefined {
            query := query + [(key, "undefined")];
          }
      }
    }
    assert params[..|params|] == params;
    var simple := query;
    for i := 0 to |expand|
      invariant query == simple + Expanded(expand[..i])
    {
      assert expand[..i + 1][..i] == expand[..i];
      query := query + [("expand[]", expand[i])];
    }
    assert expand[..|expand|] == expand;
  }

  /** Scalars are kept with their keys and in order; arrays contribute no
    * pair under their own key; `undefined` is skipped exactly when asked. */
  lemma {:induction false} SimpleMembers(params: seq<(string, Param)>, skipUndefined: bool, key: string, text: string)
    ensures (key, text) in Simple(params, skipUndefined) <==>
      (key, Scalar(text)) in params || (!skipUndefined && text == "undefined" && (key, Undefined) in params)
    decreases |params|
  {
    if params != [] {
      var init := params[..|params| - 1];
      var last := params[|params| - 1];
      SimpleMembers(init, skipUndefined, key, text);
      assert params == init + [last];
      assert forall p :: p in params <==> p in init || p == last;
      assert Simple(params, skipUndefined) == Simple(init, skipUndefined) + Simple([last], skipUndefined);
    }
  }
}
