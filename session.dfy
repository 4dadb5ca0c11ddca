/** `src/lib/stores/session.ts`: the session store, whose first value is
  * read from the page's query string and whose every update writes the
  * conversations' model ids and providers back into it. The model list,
  * the featured ids and the default system messages are given as values;
  * the generation config, which is copied from a default, is left out. */
module SessionStore {
  import opened Wrappers

  /** A model of the model store: its id. */
  datatype ModelInfo = ModelInfo(id: string)

  datatype Message = Message(role: string, content: string)

  /** A conversation of the session. `model` is `None` when a `modelId`
    * query parameter names no known model. */
  datatype Conversation = Conversation(model: Option<ModelInfo>, messages: seq<Message>, systemMessage: Message,
                                       streaming: bool, provider: Option<string>)

  datatype Session = Session(conversations: seq<Conversation>)

  /** A query string as its ordered name/value pairs. */
  type Query = seq<(string, string)>

  const DefaultProvider: string := "hf-inference"

  /** The model used when the store has none. */
  const Placeholder: ModelInfo := ModelInfo("")

  /** `searchParams.getAll(name)`. */
  function Values(query: Query, name: string): (r: seq<string>)
    ensures |r| <= |query|
  {
    if query == [] then []
    else (if query[0].0 == name then [query[0].1] else []) + Values(query[1..], name)
  }

  /** `searchParams.delete(name)`. */
  function Deleted(query: Query, name: string): (r: Query)
    ensures forall p :: p in r <==> p in query && p.0 != name
  {
    if query == [] then []
    else (if query[0].0 == name then [] else [query[0]]) + Deleted(query[1..], name)
  }

  /** `values.forEach(v => searchParams.append(name, v))`. */
  function Appended(query: Query, name: string, values: seq<string>): (r: Query)
    ensures |r| == |query| + |values|
    ensures r[..|query|] == query
    ensures forall k :: 0 <= k < |values| ==> r[|query| + k] == (name, values[k])
    decreases |values|
  {
    if values == [] then query
    else Appended(query + [(name, values[0])], name, values[1..])
  }

  /** `models.find(m => m.id === id)`. */
  function FindModel(models: seq<ModelInfo>, id: string): (r: Option<ModelInfo>)
    ensures r.Some? ==> r.value in models && r.value.id == id
    ensures r.None? <==> forall k :: 0 <= k < |models| ==> models[k].id != id
  {
    if models == [] then None
    else if models[0].id == id then Some(models[0])
    else FindModel(models[1..], id)
  }

  /** `models.find(m => featured.includes(m.id))`. */
  function FindFeatured(models: seq<ModelInfo>, featured: seq<string>): (r: Option<ModelInfo>)
    ensures r.Some? ==> r.value in models && r.value.id in featured
    ensures r.None? <==> forall k :: 0 <= k < |models| ==> models[k].id !in featured
  {
    if models == [] then None
    else if models[0].id in featured then Some(models[0])
    else FindFeatured(models[1..], featured)
  }

  /** The system message: the default for the first `modelId` when that is
    * non-empty, and empty otherwise. */
  function SystemMessage(modelIds: seq<string>, defaultSystemMessage: map<string, string>): Message
  {
    var content :=
      if |modelIds| > 0 && modelIds[0] != "" && modelIds[0] in defaultSystemMessage
      then defaultSystemMessage[modelIds[0]] else "";
    Message("system", content)
  }

  const StartMessage: Message := Message("user", "")

  /** The first value of the store. */
  function Initial(query: Query, models: seq<ModelInfo>, featured: seq<string>,
                   defaultSystemMessage: map<string, string>): Session
  {
    var modelIds := Values(query, "modelId");
    var providers := Values(query, "provider");
    var systemMessage := SystemMessage(modelIds, defaultSystemMessage);
    if |modelIds| > 0 then Session(FromParams(modelIds, providers, models, systemMessage))
    else
      var model :=
        if FindFeatured(models, featured).Some? then FindFeatured(models, featured).value
        else if |models| > 0 then models[0] else Placeholder;
      Session([Conversation(Some(model), [StartMessage], systemMessage, true, None)])
  }

  /** One conversation per `modelId`, with the provider at the same position. */
  function FromParams(modelIds: seq<string>, providers: seq<string>, models: seq<ModelInfo>, systemMessage: Message)
    : (r: seq<Conversation>)
    ensures |r| == |modelIds|
    ensures forall i :: 0 <= i < |r| ==> r[i] == Conversation(FindModel(models, modelIds[i]), [StartMessage], systemMessage, true,
      if i < |providers| then Some(providers[i]) else None)
  {
    if modelIds == [] then []
    else
      [Conversation(FindModel(models, modelIds[0]), [StartMessage], systemMessage, true,
                    if |providers| > 0 then Some(providers[0]) else None)]
        + FromParams(modelIds[1..], if |providers| > 0 then providers[1..] else [], models, systemMessage)
  }

  /** The model ids of the conversations, or `None` when one has no model
    * (reading `c.model.id` then throws). */
  function ModelIds(conversations: seq<Conversation>): (r: Option<seq<string>>)
    ensures r.Some? <==> forall i :: 0 <= i < |conversations| ==> conversations[i].model.Some?
    ensures r.Some? ==> |r.value| == |conversations|
    ensures r.Some? ==> forall i :: 0 <= i < |conversations| ==> r.value[i] == conversations[i].model.value.id
  {
    if conversations == [] then Some([])
    else
      var rest := ModelIds(conversations[1..]);
      if conversations[0].model.None? || rest.None? then None
      else Some([conversations[0].model.value.id] + rest.value)
  }

  /** `c.provider ?? "hf-inference"` for each conversation. */
  function Providers(conversations: seq<Conversation>): (r: seq<string>)
    ensures |r| == |conversations|
    ensures forall i :: 0 <= i < |r| ==> r[i] == conversations[i].provider.GetOr(DefaultProvider)
  {
    if conversations == [] then []
    else [conversations[0].provider.GetOr(DefaultProvider)] + Providers(conversations[1..])
  }

  /** The query written after an update to `s`. */
  function Rebuilt(query: Query, s: Session): Option<Query>
  {
    var ids := ModelIds(s.conversations);
    if ids.None? then None
    else
      var cleared := Deleted(Deleted(query, "modelId"), "provider");
      Some(Appended(Appended(cleared, "modelId", ids.value), "provider", Providers(s.conversations)))
  }

  /** The store with the page's query string. */
  class Store {
    var value: Session
    var query: Query

    /** The store's start: the first value read from the query string. */
    constructor(query: Query, models: seq<ModelInfo>, featured: seq<string>, defaultSystemMessage: map<string, string>)
      ensures this.query == query
      ensures value == Initial(query, models, featured, defaultSystemMessage)
    {
      this.query := query;
      value := Initial(query, models, featured, defaultSystemMessage);
    }

    /** `update(cb)`, with `next` what `cb` returns for the current value:
      * the `modelId` and `provider` parameters are replaced by one per
      * conversation, in order, and the new value is stored. A conversation
      * without a model makes it throw (`ok` false) with nothing changed. */
    method Update(next: Session) returns (ok: bool)
      modifies this
      ensures ok <==> ModelIds(next.conversations).Some?
      ensures ok ==> value == next && Rebuilt(old(query), next) == Some(query)
      ensures !ok ==> value == old(value) && query == old(query)
    {
      var ids := ModelIds(next.conversations);
      if ids.None? {
        return false;
      }
      var q := Deleted(query, "modelId");
      q := Deleted(q, "provider");
      var i := 0;
      while i < |ids.value|
        invariant 0 <= i <= |ids.value|
        invariant Appended(q, "modelId", ids.value[i..]) == Appended(Deleted(Deleted(old(query), "modelId"), "provider"), "modelId", ids.value)
      {
        assert ids.value[i..][0] == ids.value[i] && ids.value[i..][1..] == ids.value[i + 1..];
        q := q + [("modelId", ids.value[i])];
        i := i + 1;
      }
      var providers := Providers(next.conversations);
      var j := 0;
      ghost var withIds := Appended(q, "modelId", []);
      while j < |providers|
        invariant 0 <= j <= |providers|
        invariant Appended(q, "provider", providers[j..]) == Appended(withIds, "provider", providers)
      {
        assert providers[j..][0] == providers[j] && providers[j..][1..] == providers[j + 1..];
        q := q + [("provider", providers[j])];
        j := j + 1;
      }
      query := q;
      value := next;
      return true;
    }

    /** `set(v)`: the same as `update(_ => v)`. */
    method Set(v: Session) returns (ok: bool)
      modifies this
      ensures ok <==> ModelIds(v.conversations).Some?
      ensures ok ==> value == v && Rebuilt(old(query), v) == Some(query)
      ensures !ok ==> value == old(value) && query == old(query)
    {
      ok := Update(v);
    }
  }

  /** `getAll` over appended pairs: those of the query, then the appended values. */
  lemma {:induction false} ValuesAppended(query: Query, name: string, values: seq<string>, other: string)
    ensures Values(Appended(query, name, values), other) == Values(query, other) + (if other == name then values else [])
    decreases |values|
  {
    if values != [] {
      ValuesAppended(query + [(name, values[0])], name, values[1..], other);
      ValuesSnoc(query, (name, values[0]), other);
      if other == name {
        assert [values[0]] + values[1..] == values;
      }
    }
  }

  lemma {:induction false} ValuesSnoc(query: Query, p: (string, string), name: string)
    ensures Values(query + [p], name) == Values(query, name) + (if p.0 == name then [p.1] else [])
    decreases |query|
  {
    if query == [] {
      assert [] + [p] == [p];
    } else {
      assert (query + [p])[1..] == query[1..] + [p];
      ValuesSnoc(query[1..], p, name);
    }
  }

  lemma {:induction false} ValuesDeleted(query: Query, name: string, other: string)
    ensures Values(Deleted(query, name), other) == if other == name then [] else Values(query, other)
    decreases |query|
  {
    if query != [] {
      ValuesDeleted(query[1..], name, other);
      var rest := Deleted(query[1..], name);
      if query[0].0 != name {
        assert Deleted(query, name) == [query[0]] + rest;
        assert ([query[0]] + rest)[1..] == rest;
      } else {
        assert Deleted(query, name) == rest;
      }
    }
  }

  /** After an update the query lists, in order, one `modelId` per
    * conversation and one `provider` per conversation (`hf-inference` where
    * none is set), and keeps every other parameter. */
  lemma RebuiltParams(query: Query, s: Session, other: string)
    requires Rebuilt(query, s).Some?
    ensures Values(Rebuilt(query, s).value, "modelId") == ModelIds(s.conversations).value
    ensures Values(Rebuilt(query, s).value, "provider") == Providers(s.conversations)
    ensures other != "modelId" && other != "provider" ==> Values(Rebuilt(query, s).value, other) == Values(query, other)
  {
    RebuiltValues(query, s, "modelId");
    RebuiltValues(query, s, "provider");
    RebuiltValues(query, s, other);
  }

  lemma RebuiltValues(query: Query, s: Session, name: string)
    requires Rebuilt(query, s).Some?
    ensures Values(Rebuilt(query, s).value, name) ==
      if name == "modelId" then ModelIds(s.conversations).value
      else if name == "provider" then Providers(s.conversations)
      else Values(query, name)
  {
    var ids := ModelIds(s.conversations).value;
    var providers := Providers(s.conversations);
    var once := Deleted(query, "modelId");
    var cleared := Deleted(once, "provider");
    var withIds := Appended(cleared, "modelId", ids);
    assert Rebuilt(query, s).value == Appended(withIds, "provider", providers);
    ValuesAppended(withIds, "provider", providers, name);
    ValuesAppended(cleared, "modelId", ids, name);
    ValuesDeleted(once, "provider", name);
    ValuesDeleted(query, "modelId", name);
  }

  /** Reading back the query an update wrote gives one conversation per
    * conversation written, with the same model (when the model store knows
    * it) and its provider, made explicit. */
  lemma RoundTrip(query: Query, s: Session, models: seq<ModelInfo>, featured: seq<string>,
                  defaultSystemMessage: map<string, string>, i: nat)
    requires Rebuilt(query, s).Some? && |s.conversations| > 0 && i < |s.conversations|
    requires s.conversations[i].model.value in models
    ensures var c := Initial(Rebuilt(query, s).value, models, featured, defaultSystemMessage).conversations;
      |c| == |s.conversations|
      && c[i].model.Some? && c[i].model.value.id == s.conversations[i].model.value.id
      && c[i].provider == Some(s.conversations[i].provider.GetOr(DefaultProvider))
  {
    RebuiltParams(query, s, "");
    var ids := ModelIds(s.conversations).value;
    assert ids[i] == s.conversations[i].model.value.id;
    assert FindModel(models, ids[i]).Some?;
  }
}
