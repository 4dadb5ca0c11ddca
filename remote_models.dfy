/** `src/lib/remote/models.remote.ts`: `getModels` over text-generation and
  * image-text-to-text models, each category fetched in pages of 1000 by
  * `fetchAllModelsWithPagination`. The cache policy is the one of the
  * `Refresh` module. The server is given as the sequence of answers to
  * the pages `skip = 0, 1000, 2000, ...`; past its end it answers with an
  * empty page. The 100 ms pause between pages is not modelled. */
module RemoteModels {
  import opened Wrappers
  import opened Catalog
  import opened Refresh

  const BatchSize: int := 1000

  const ExpandFields: seq<string> :=
    ["inferenceProviderMapping", "config", "library_name", "pipeline_tag", "tags", "mask_token", "trendingScore"]

  /** `{ ...queryParams, pipeline_tag, limit: batchSize, skip }`. */
  function QueryParams(pipelineTag: string, skip: nat): seq<(string, Param)>
  {
    [("filter", Scalar("conversational")), ("inference_provider", Scalar("all")), ("expand", List(ExpandFields)),
     ("pipeline_tag", Scalar(pipelineTag)), ("limit", Scalar("1000")), ("skip", Scalar(IntText(skip)))]
  }

  /** `String(n)` for a non-negative integer. */
  function IntText(n: nat): string
  {
    if n < 10 then [(48 + n) as char]
    else IntText(n / 10) + [(48 + n % 10) as char]
  }

  /** The answer to one page request. */
  datatype Page = PageNotOk | PageModels(models: seq<Model>) | PageRejected

  /** The answer to the page at index `i`. */
  function PageAt(pages: seq<Page>, i: nat): Page
  {
    if i < |pages| then pages[i] else PageModels([])
  }

  function Prepend(front: seq<Model>, rest: Option<seq<Model>>): Option<seq<Model>>
  {
    if rest.None? then None else Some(front + rest.value)
  }

  /** What the pagination resolves to: the models of every page up to the
    * first non-ok or empty one, or `None` when a request rejects. */
  function Collected(pages: seq<Page>): Option<seq<Model>>
  {
    if pages == [] then Some([])
    else match pages[0]
      case PageRejected => None
      case PageNotOk => Some([])
      case PageModels(models) => if models == [] then Some([]) else Prepend(models, Collected(pages[1..]))
  }

  /** How many pages it requests. */
  function Requests(pages: seq<Page>): (n: nat)
    ensures 1 <= n <= |pages| + 1
  {
    if pages == [] then 1
    else match pages[0]
      case PageModels(models) => if models == [] then 1 else 1 + Requests(pages[1..])
      case _ => 1
  }

  /** `fetchAllModelsWithPagination(pipeline_tag)`: the models, or `None`
    * where it rejects, and the `skip` of every request made, in order. */
  method FetchAllModelsWithPagination(pages: seq<Page>) returns (result: Option<seq<Model>>, skips: seq<int>)
    ensures result == Collected(pages)
    ensures |skips| == Requests(pages) && forall k :: 0 <= k < |skips| ==> skips[k] == BatchSize * k
  {
    var allModels: seq<Model> := [];
    var skip := 0;
    var i := 0;
    skips := [];
    assert pages[0..] == pages;
    if Collected(pages).Some? {
      assert allModels + Collected(pages).value == Collected(pages).value;
    }
    while true
      invariant 0 <= i <= |pages|
      invariant skip == BatchSize * i
      invariant |skips| == i && forall k :: 0 <= k < i ==> skips[k] == BatchSize * k
      invariant Collected(pages) == Prepend(allModels, Collected(pages[i..]))
      invariant Requests(pages) == i + Requests(pages[i..])
      decreases |pages| - i
    {
      skips := skips + [skip];
      var response := PageAt(pages, i);
      if response.PageRejected? {
        return None, skips;
      }
      if response.PageNotOk? {
        break;
      }
      var models := response.models;
      if models == [] {
        break;
      }
      assert pages[i..][1..] == pages[i + 1..];
      PrependAssoc(allModels, models, Collected(pages[i + 1..]));
      allModels := allModels + models;
      skip := skip + BatchSize;
      i := i + 1;
    }
    assert Collected(pages[i..]) == Some([]);
    assert allModels + [] == allModels;
    return Some(allModels), skips;
  }

  lemma AppendAssoc(a: seq<Model>, b: seq<Model>, c: seq<Model>)
    ensures a + (b + c) == (a + b) + c
  {
  }

  lemma PrependAssoc(a: seq<Model>, b: seq<Model>, rest: Option<seq<Model>>)
    ensures Prepend(a, Prepend(b, rest)) == Prepend(a + b, rest)
  {
    if rest.Some? {
      assert a + (b + rest.value) == (a + b) + rest.value;
    }
  }

  /** Every page before the last request held models, and the pagination
    * returns them concatenated in order; the last request got a non-ok or
    * empty page, or rejected. */
  lemma {:induction false} PaginationStops(pages: seq<Page>)
    ensures forall k :: 0 <= k < Requests(pages) - 1 ==> PageAt(pages, k).PageModels? && PageAt(pages, k).models != []
    ensures var last := PageAt(pages, Requests(pages) - 1); !(last.PageModels? && last.models != [])
    ensures Collected(pages).Some? ==> Collected(pages).value == Pages(pages, Requests(pages) - 1)
    ensures Collected(pages).None? <==> PageAt(pages, Requests(pages) - 1).PageRejected?
  {
    if pages != [] && pages[0].PageModels? && pages[0].models != [] {
      var rest := pages[1..];
      PaginationStops(rest);
      forall k | 0 <= k < Requests(pages) - 1
        ensures PageAt(pages, k).PageModels? && PageAt(pages, k).models != []
      {
        if k > 0 {
          assert PageAt(pages, k) == PageAt(rest, k - 1);
        }
      }
      assert PageAt(pages, Requests(pages) - 1) == PageAt(rest, Requests(rest) - 1);
      if Requests(pages) - 1 >= 1 {
        PagesCons(pages, Requests(pages) - 1);
      }
    }
  }

  /** The models of the first `n` pages, which all hold models. */
  function Pages(pages: seq<Page>, n: nat): seq<Model>
    requires forall k :: 0 <= k < n ==> PageAt(pages, k).PageModels?
  {
    if n == 0 then [] else Pages(pages, n - 1) + PageAt(pages, n - 1).models
  }

  lemma {:induction false} PagesCons(pages: seq<Page>, n: nat)
    requires pages != [] && n >= 1
    requires forall k :: 0 <= k < n ==> PageAt(pages, k).PageModels?
    requires forall k :: 0 <= k < n - 1 ==> PageAt(pages[1..], k).PageModels?
    ensures Pages(pages, n) == PageAt(pages, 0).models + Pages(pages[1..], n - 1)
  {
    if n > 1 {
      PagesCons(pages, n - 1);
      assert PageAt(pages, n - 1) == PageAt(pages[1..], n - 2);
      AppendAssoc(PageAt(pages, 0).models, Pages(pages[1..], n - 2), PageAt(pages, n - 1).models);
    }
  }

  /** A category's outcome in `getModels`: a rejected pagination marks the
    * category failed, anything else, a non-ok page included, delivers the
    * models collected so far. */
  function Outcome(paginated: Option<seq<Model>>): (f: Fetch)
    ensures paginated.None? <==> f.Failed?
    ensures paginated.Some? ==> f == Fetched(paginated.value)
  {
    if paginated.None? then Failed else Fetched(paginated.value)
  }

  /** A non-ok page ends the pagination silently: it is not a failure. */
  lemma NotOkIsNoFailure(front: seq<Page>, rest: seq<Page>)
    requires forall k :: 0 <= k < |front| ==> front[k].PageModels? && front[k].models != []
    ensures Outcome(Collected(front + [PageNotOk] + rest)).Fetched?
  {
    CollectedFront(front, [PageNotOk] + rest);
    assert front + [PageNotOk] + rest == front + ([PageNotOk] + rest);
  }

  lemma {:induction false} CollectedFront(front: seq<Page>, rest: seq<Page>)
    requires forall k :: 0 <= k < |front| ==> front[k].PageModels? && front[k].models != []
    requires rest != [] && rest[0].PageNotOk?
    ensures Collected(front + rest).Some?
    decreases |front|
  {
    if front != [] {
      CollectedFront(front[1..], rest);
      assert (front + rest)[1..] == front[1..] + rest;
    } else {
      assert front + rest == rest;
    }
  }

  method NewCache() returns (c: ModelCache)
    ensures fresh(c) && c.cache == Initial && c.firstTag == "text-generation" && c.secondTag == "image-text-to-text"
  {
    c := new ModelCache("text-generation", "image-text-to-text");
  }

  /** `getModels()` at time `now`, with what the server answers for each
    * category's pages. */
  method GetModels(c: ModelCache, now: int, textGeneration: seq<Page>, imageTextToText: seq<Page>) returns (models: seq<Model>)
    modifies c
    ensures Reply(models, c.cache) == Respond(old(c.cache), now, c.firstTag, c.secondTag,
      Outcome(Collected(textGeneration)), Outcome(Collected(imageTextToText)))
  {
    var first, _ := FetchAllModelsWithPagination(textGeneration);
    var second, _ := FetchAllModelsWithPagination(imageTextToText);
    models := c.Get(now, Outcome(first), Outcome(second));
  }

  /** Pagination failures never reach the `catch` block: with the cache
    * stale, two rejected paginations and no data fall through to an empty
    * rebuilt list, stamped `PARTIAL`. */
  lemma NoCatchFromPagination(s: CacheState, now: int, first: Option<seq<Model>>, second: Option<seq<Model>>)
    requires !Serves(s, now)
    ensures !Outcome(first).Thrown? && !Outcome(second).Thrown?
    ensures first.None? && second.None? && NeedsFirst(s, now) && NeedsSecond(s, now) && !HasData(s) ==>
      Respond(s, now, "text-generation", "image-text-to-text", Outcome(first), Outcome(second))
        == Reply([], CacheState(Some([]), now, Partial, true, true))
  {
  }
}
