/** `src/routes/api/visual-models/+server.ts`: the `GET` handler over
  * text-to-image and text-to-video models. The cache policy is the one of
  * the `Refresh` module; this module fixes its query parameters and how a
  * fetch response becomes a category outcome. */
module VisualModels {
  import opened Catalog
  import opened Refresh

  const ExpandFields: seq<string> :=
    ["inferenceProviderMapping", "config", "library_name", "pipeline_tag", "tags", "mask_token", "trendingScore"]

  /** `{ ...queryParams, pipeline_tag }`, entries in insertion order. */
  function QueryParams(pipelineTag: string): seq<(string, Param)>
  {
    [("filter", Scalar("conversational")), ("inference_provider", Scalar("all")), ("limit", Scalar("100")),
     ("expand", List(ExpandFields)), ("pipeline_tag", Scalar(pipelineTag))]
  }

  /** The request for one category: the scalar parameters in order, the
    * array skipped, then one `expand[]` per field. */
  method CategoryQuery(pipelineTag: string) returns (query: seq<(string, string)>)
    ensures query == [("filter", "conversational"), ("inference_provider", "all"), ("limit", "100"),
      ("pipeline_tag", pipelineTag)] + Expanded(ExpandFields)
  {
    query := BuildApiUrl(QueryParams(pipelineTag), ExpandFields, false);
    SimpleParams(pipelineTag);
  }

  lemma SimpleParams(pipelineTag: string)
    ensures Simple(QueryParams(pipelineTag), false)
      == [("filter", "conversational"), ("inference_provider", "all"), ("limit", "100"), ("pipeline_tag", pipelineTag)]
  {
    var p := QueryParams(pipelineTag);
    assert p[..1][..0] == [];
    assert Simple(p[..1], false) == [("filter", "conversational")];
    assert p[..2][..1] == p[..1];
    assert Simple(p[..2], false) == [("filter", "conversational"), ("inference_provider", "all")];
    assert p[..3][..2] == p[..2];
    assert p[..4][..3] == p[..3];
    assert Simple(p[..4], false) == Simple(p[..3], false);
    assert p[..4] == p[..|p| - 1];
  }

  /** What `fetch(url).then(...)` gives: a non-ok status (the category's
    * failure flag), the models of an ok response, or a rejection that
    * reaches the `catch` block. */
  datatype Response = NotOk | Ok(models: seq<Model>) | Rejected

  function Outcome(r: Response): (f: Fetch)
    ensures r.NotOk? <==> f.Failed?
    ensures r.Rejected? <==> f.Thrown?
    ensures r.Ok? ==> f == Fetched(r.models)
  {
    match r
    case NotOk => Failed
    case Ok(models) => Fetched(models)
    case Rejected => Thrown
  }

  /** The module-level cache of the endpoint. */
  method NewCache() returns (c: ModelCache)
    ensures fresh(c) && c.cache == Initial && c.firstTag == "text-to-image" && c.secondTag == "text-to-video"
  {
    c := new ModelCache("text-to-image", "text-to-video");
  }

  /** `GET` at time `now` with the responses the two requests would get. */
  method Get(c: ModelCache, now: int, textToImage: Response, textToVideo: Response) returns (models: seq<Model>)
    modifies c
    ensures Reply(models, c.cache) == Respond(old(c.cache), now, c.firstTag, c.secondTag, Outcome(textToImage), Outcome(textToVideo))
  {
    models := c.Get(now, Outcome(textToImage), Outcome(textToVideo));
  }

  /** A network error in a needed request sends the call to the `catch`
    * block, even when the other request succeeded. */
  lemma RejectionRecovers(s: CacheState, now: int, textToVideo: Response)
    requires !Serves(s, now) && NeedsFirst(s, now)
    ensures Respond(s, now, "text-to-image", "text-to-video", Outcome(Rejected), Outcome(textToVideo)) == Recover(s, now)
  {
  }
}
