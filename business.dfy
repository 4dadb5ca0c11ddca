/** `src/lib/utils/business.svelte.ts`: the token limit of a conversation,
  * system-prompt support, the `response_format` object, the message list
  * sent to `/api/generate`, the accumulation of streamed text with its
  * single retry on a 401, the filtering of inference snippets and the text
  * fed to a tokenizer. The model kinds, the pricing table, the snippet
  * library and the tokenizer are given as values or parameters. */
module Business {
  import opened Wrappers
  import opened Text
  import opened Json
  import opened Objects
  import opened Stream
  import opened Conversations
  import Snippets

  /** A conversation's model: a hub model (its id, its chat template when
    * that is a string, and the providers it is mapped to) or a custom,
    * OpenAI-compatible one. */
  datatype PlaygroundModel =
    | HubModel(id: string, chatTemplate: Option<string>, providers: seq<string>)
    | CustomModel(id: string)

  const DefaultMaxTokens: int := 100000

  /** `customMaxTokens`. */
  const CustomMaxTokens: map<string, int> := map[
    "01-ai/Yi-1.5-34B-Chat" := 2048,
    "HuggingFaceM4/idefics-9b-instruct" := 2048,
    "deepseek-ai/DeepSeek-Coder-V2-Instruct" := 16384,
    "bigcode/starcoder" := 8192,
    "bigcode/starcoderplus" := 8192,
    "HuggingFaceH4/starcoderbase-finetuned-oasst1" := 8192,
    "google/gemma-7b" := 8192,
    "google/gemma-1.1-7b-it" := 8192,
    "google/gemma-2b" := 8192,
    "google/gemma-1.1-2b-it" := 8192,
    "google/gemma-2-27b-it" := 8192,
    "google/gemma-2-9b-it" := 4096,
    "google/gemma-2-2b-it" := 8192,
    "tiiuae/falcon-7b" := 8192,
    "tiiuae/falcon-7b-instruct" := 8192,
    "timdettmers/guanaco-33b-merged" := 2048,
    "mistralai/Mixtral-8x7B-Instruct-v0.1" := 32768,
    "Qwen/Qwen2.5-72B-Instruct" := 32768,
    "Qwen/Qwen2.5-Coder-32B-Instruct" := 32768,
    "meta-llama/Meta-Llama-3-70B-Instruct" := 8192,
    "CohereForAI/c4ai-command-r-plus-08-2024" := 32768,
    "NousResearch/Nous-Hermes-2-Mixtral-8x7B-DPO" := 32768,
    "meta-llama/Llama-2-70b-chat-hf" := 8192,
    "HuggingFaceH4/zephyr-7b-alpha" := 17432,
    "HuggingFaceH4/zephyr-7b-beta" := 32768,
    "mistralai/Mistral-7B-Instruct-v0.1" := 32768,
    "mistralai/Mistral-7B-Instruct-v0.2" := 32768,
    "mistralai/Mistral-7B-Instruct-v0.3" := 32768,
    "mistralai/Mistral-Nemo-Instruct-2407" := 32768,
    "meta-llama/Meta-Llama-3-8B-Instruct" := 8192,
    "mistralai/Mistral-7B-v0.1" := 32768,
    "bigcode/starcoder2-3b" := 16384,
    "bigcode/starcoder2-15b" := 16384,
    "HuggingFaceH4/starchat2-15b-v0.1" := 16384,
    "codellama/CodeLlama-7b-hf" := 8192,
    "codellama/CodeLlama-13b-hf" := 8192,
    "codellama/CodeLlama-34b-Instruct-hf" := 8192,
    "meta-llama/Llama-2-7b-chat-hf" := 8192,
    "meta-llama/Llama-2-13b-chat-hf" := 8192,
    "OpenAssistant/oasst-sft-6-llama-30b" := 2048,
    "TheBloke/vicuna-7B-v1.5-GPTQ" := 2048,
    "HuggingFaceH4/starchat-beta" := 8192,
    "bigcode/octocoder" := 8192,
    "vwxyzjn/starcoderbase-triviaqa" := 8192,
    "lvwerra/starcoderbase-gsm8k" := 8192,
    "NousResearch/Hermes-3-Llama-3.1-8B" := 16384,
    "microsoft/Phi-3.5-mini-instruct" := 32768,
    "meta-llama/Llama-3.1-70B-Instruct" := 32768,
    "meta-llama/Llama-3.1-8B-Instruct" := 8192]

  // ----- token limit -----

  /** `customMaxTokens[id] ?? 100000`. */
  function Fallback(id: string): int
  {
    if id in CustomMaxTokens then CustomMaxTokens[id] else DefaultMaxTokens
  }

  /** A number that `if (x)` accepts. */
  predicate Nonzero(x: Option<int>)
  {
    x.Some? && x.value != 0
  }

  /** `ctxLengthData[provider]?.[id]`. */
  function LocalContextLength(ctxLengthData: map<string, map<string, int>>, provider: string, id: string): Option<int>
  {
    if provider in ctxLengthData && id in ctxLengthData[provider] then Some(ctxLengthData[provider][id]) else None
  }

  /** `maxAllowedTokens(conversation)`: `provider` is `""` when the
    * conversation has none, `pricing` what `pricing.getContextLength`
    * gives, `ctxLengthData` the bundled context-length table. */
  function MaxAllowedTokens(model: PlaygroundModel, provider: string, pricing: Option<int>,
                            ctxLengthData: map<string, map<string, int>>): int
  {
    if provider == "" || model.CustomModel? then Fallback(model.id)
    else if Nonzero(pricing) then pricing.value
    else
      var local := LocalContextLength(ctxLengthData, provider, model.id);
      if Nonzero(local) then local.value else Fallback(model.id)
  }

  /** The first truthy candidate, else the default. */
  function FirstTruthy(candidates: seq<Option<int>>, default: int): (r: int)
  {
    if candidates == [] then default
    else if Nonzero(candidates[0]) then candidates[0].value
    else FirstTruthy(candidates[1..], default)
  }

  /** The token limit is the first truthy value of the pricing context
    * length and the bundled one, then the custom table or 100000; without
    * a provider or for a custom model only the last step applies. The
    * result is one of those values and never 0 when the fallback is not. */
  lemma MaxAllowedTokensChain(model: PlaygroundModel, provider: string, pricing: Option<int>,
                              ctxLengthData: map<string, map<string, int>>)
    ensures var r := MaxAllowedTokens(model, provider, pricing, ctxLengthData);
      r == if provider == "" || model.CustomModel? then Fallback(model.id)
        else FirstTruthy([pricing, LocalContextLength(ctxLengthData, provider, model.id)], Fallback(model.id))
    ensures var r := MaxAllowedTokens(model, provider, pricing, ctxLengthData);
      Fallback(model.id) != 0 ==> r != 0
  {
    var local := LocalContextLength(ctxLengthData, provider, model.id);
    var candidates := [pricing, local];
    assert candidates[1..] == [local] && candidates[1..][1..] == [];
    assert FirstTruthy([local], Fallback(model.id)) == if Nonzero(local) then local.value else Fallback(model.id);
  }

  // ----- system prompt -----

  /** `isSystemPromptSupported(model)`. */
  predicate IsSystemPromptSupported(model: PlaygroundModel)
  {
    match model
    case CustomModel(_) => true
    case HubModel(_, template, _) => template.Some? && Contains(template.value, "system")
  }

  /** The messages sent: a system message first exactly when the model
    * supports one and the project's system message is non-empty, then the
    * conversation's messages (none when it has no list). */
  function RequestMessages(model: PlaygroundModel, systemMessage: Option<string>, messages: Option<seq<ChatMessage>>): seq<ChatMessage>
  {
    (if IsSystemPromptSupported(model) && systemMessage.Some? && |systemMessage.value| > 0
     then [ChatMessage("system", systemMessage)] else [])
    + messages.GetOr([])
  }

  lemma RequestMessagesShape(model: PlaygroundModel, systemMessage: Option<string>, messages: Option<seq<ChatMessage>>)
    ensures var sent := RequestMessages(model, systemMessage, messages);
      var prepended := IsSystemPromptSupported(model) && systemMessage.Some? && systemMessage.value != [];
      (prepended ==> sent[0] == ChatMessage("system", systemMessage) && sent[1..] == messages.GetOr([]))
      && (!prepended ==> sent == messages.GetOr([]))
    ensures model.CustomModel? && systemMessage.Some? && systemMessage.value != [] ==>
      RequestMessages(model, systemMessage, messages)[0].role == "system"
    ensures model.HubModel? && model.chatTemplate.None? ==> RequestMessages(model, systemMessage, messages) == messages.GetOr([])
  {
    var prefix := if IsSystemPromptSupported(model) && systemMessage.Some? && |systemMessage.value| > 0
      then [ChatMessage("system", systemMessage)] else [];
    assert RequestMessages(model, systemMessage, messages) == prefix + messages.GetOr([]);
  }

  // ----- response format -----

  /** `Provider.Cerebras`. */
  const Cerebras: string := "cerebras"

  /** The own enumerable properties a spread copies: an object's members,
    * an array's items or a string's characters under their indices, and
    * nothing for other values. */
  function OwnEntries(j: Json): Object<Json>
  {
    match j
    case JObj(members) => MemberPairs(members)
    case JArr(items) => IndexedItems(items, 0)
    case JStr(s) => IndexedChars(s, 0)
    case _ => []
  }

  function MemberPairs(members: seq<Member>): (r: Object<Json>)
    ensures |r| == |members| && forall k :: 0 <= k < |r| ==> r[k] == (members[k].key, members[k].value)
  {
    if members == [] then [] else [(members[0].key, members[0].value)] + MemberPairs(members[1..])
  }

  function IndexedItems(items: seq<Json>, from: nat): (r: Object<Json>)
    ensures |r| == |items| && forall k :: 0 <= k < |r| ==> r[k] == (NatText(from + k), items[k])
  {
    if items == [] then [] else [(NatText(from), items[0])] + IndexedItems(items[1..], from + 1)
  }

  function IndexedChars(s: string, from: nat): (r: Object<Json>)
    ensures |r| == |s| && forall k :: 0 <= k < |r| ==> r[k] == (NatText(from + k), JStr([s[k]]))
  {
    if s == [] then [] else [(NatText(from), JStr([s[0]]))] + IndexedChars(s[1..], from + 1)
  }

  /** `{ ...target, ...source }` for the entries of `source`: each is
    * assigned in order. */
  function Spread(target: Object<Json>, source: Object<Json>): Object<Json>
  {
    if source == [] then target
    else
      var last := source[|source| - 1];
      Assign(Spread(target, source[..|source| - 1]), last.0, last.1)
  }

  /** The value of the last entry named `key`. */
  function LastValue(source: Object<Json>, key: string): Option<Json>
  {
    if source == [] then None
    else if source[|source| - 1].0 == key then Some(source[|source| - 1].1)
    else LastValue(source[..|source| - 1], key)
  }

  /** After a spread a name reads the source's last value for it, and the
    * target's value when the source has none. */
  lemma {:induction false} SpreadLookup(target: Object<Json>, source: Object<Json>, key: string)
    ensures Objects.Lookup(Spread(target, source), key)
      == if LastValue(source, key).Some? then LastValue(source, key) else Objects.Lookup(target, key)
    decreases |source|
  {
    if source != [] {
      var init := source[..|source| - 1];
      var last := source[|source| - 1];
      SpreadLookup(target, init, key);
      AssignLookup(Spread(target, init), last.0, last.1, key);
    }
  }

  /** `getResponseFormatObj(conversation)`: `schema` is the structured
    * output schema text, `enabled` its flag and `supported` what
    * `models.supportsStructuredOutput` says for the model and provider. */
  function ResponseFormat(schema: Option<string>, enabled: bool, supported: bool, provider: string): Option<Object<Json>>
  {
    var json := Parse(schema.GetOr(""));
    if json.Some? && Truthy(json.value) && enabled && supported then
      if provider == "cohere" then
        Some(Spread([("type", JStr("json_object"))], OwnEntries(json.value)))
      else if provider == Cerebras then
        var inner := Assign(Spread([], OwnEntries(json.value)), "name", JStr("schema"));
        Some([("type", JStr("json_schema")), ("json_schema", JObj(PairMembers(inner)))])
      else
        Some([("type", JStr("json_schema")), ("json_schema", json.value)])
    else None
  }

  function PairMembers(o: Object<Json>): (r: seq<Member>)
    ensures |r| == |o| && forall k :: 0 <= k < |r| ==> r[k] == Member(o[k].0, o[k].1)
  {
    if o == [] then [] else [Member(o[0].0, o[0].1)] + PairMembers(o[1..])
  }

  /** The format exists exactly when the schema parses to a truthy value and
    * structured output is enabled and supported. For cohere the schema's
    * own members are spread over `type: "json_object"` (a `type` member of
    * the schema wins); for Cerebras the schema goes under `json_schema`
    * with `name` set to `"schema"`; for any other provider it goes under
    * `json_schema` as it is. */
  lemma ResponseFormatShape(schema: Option<string>, enabled: bool, supported: bool, provider: string, key: string)
    ensures var json := Parse(schema.GetOr(""));
      ResponseFormat(schema, enabled, supported, provider).Some? <==>
        json.Some? && Truthy(json.value) && enabled && supported
    ensures var f := ResponseFormat(schema, enabled, supported, provider);
      var json := Parse(schema.GetOr(""));
      f.Some? && provider == "cohere" ==>
        Objects.Lookup(f.value, key) ==
          if LastValue(OwnEntries(json.value), key).Some? then LastValue(OwnEntries(json.value), key)
          else if key == "type" then Some(JStr("json_object")) else None
    ensures var f := ResponseFormat(schema, enabled, supported, provider);
      f.Some? && provider != "cohere" ==>
        Objects.Lookup(f.value, "type") == Some(JStr("json_schema")) && Keys(f.value) == ["type", "json_schema"]
    ensures var f := ResponseFormat(schema, enabled, supported, provider);
      f.Some? && provider != "cohere" && provider != Cerebras ==>
        Objects.Lookup(f.value, "json_schema") == Parse(schema.GetOr(""))
  {
    var json := Parse(schema.GetOr(""));
    var f := ResponseFormat(schema, enabled, supported, provider);
    if f.Some? && provider == "cohere" {
      SpreadLookup([("type", JStr("json_object"))], OwnEntries(json.value), key);
    }
  }

  /** With Cerebras the nested schema's `name` is `"schema"` whatever the
    * schema held, and its other members are the schema's. */
  lemma CerebrasSchemaName(schema: Option<string>, enabled: bool, supported: bool, key: string)
    requires ResponseFormat(schema, enabled, supported, Cerebras).Some?
    ensures var json := Parse(schema.GetOr("")).value;
      var inner := Assign(Spread([], OwnEntries(json)), "name", JStr("schema"));
      ResponseFormat(schema, enabled, supported, Cerebras).value[1] == ("json_schema", JObj(PairMembers(inner)))
      && Objects.Lookup(inner, key) == if key == "name" then Some(JStr("schema")) else LastValue(OwnEntries(json), key)
  {
    var json := Parse(schema.GetOr("")).value;
    var spread := Spread([], OwnEntries(json));
    AssignLookup(spread, "name", JStr("schema"), key);
    SpreadLookup([], OwnEntries(json), key);
  }

  // ----- streaming -----

  /** One request to `/api/generate`: opening the stream failed with an
    * error message, or it opened and the reader yielded `chunks`, after
    * which reading may fail with a message. */
  datatype Attempt = OpenFailed(message: string) | Opened(chunks: seq<StreamChunk>, failure: Option<string>)

  /** What an `error` chunk throws: `chunk.error || "Stream error"`. */
  function ChunkError(c: StreamChunk): string
  {
    if c.error.Some? && c.error.value != [] then c.error.value else "Stream error"
  }

  /** A chunk whose text is appended: a `chunk` with non-empty content. */
  predicate Adds(c: StreamChunk)
  {
    c.kind == ContentChunk && c.content.Some? && c.content.value != []
  }

  /** The loop over the chunks, with `out` the text so far: every text
    * passed to `onChunk`, and the message of the `error` chunk that stops
    * it, if any. */
  function Consumed(chunks: seq<StreamChunk>, out: string): (seq<string>, Option<string>)
  {
    if chunks == [] then ([], None)
    else if Adds(chunks[0]) then
      var next := out + chunks[0].content.value;
      var rest := Consumed(chunks[1..], next);
      ([next] + rest.0, rest.1)
    else if chunks[0].kind == ErrorChunk then ([], Some(ChunkError(chunks[0])))
    else Consumed(chunks[1..], out)
  }

  /** The concatenated text of the chunks that add some. */
  function ContentText(chunks: seq<StreamChunk>): string
  {
    if chunks == [] then ""
    else (if Adds(chunks[0]) then chunks[0].content.value else "") + ContentText(chunks[1..])
  }

  predicate NoErrorChunk(chunks: seq<StreamChunk>)
  {
    forall k :: 0 <= k < |chunks| ==> chunks[k].kind != ErrorChunk
  }

  /** `t` starts with `prefix` and is longer. */
  predicate StrictlyExtends(t: string, prefix: string)
  {
    |t| > |prefix| && t[..|prefix|] == prefix
  }

  /** Every text passed on extends the text there was before the chunks. */
  lemma {:induction false} ConsumedExtends(chunks: seq<StreamChunk>, out: string)
    ensures forall t :: t in Consumed(chunks, out).0 ==> StrictlyExtends(t, out)
    decreases |chunks|
  {
    if chunks != [] {
      var rest := chunks[1..];
      if Adds(chunks[0]) {
        var next := out + chunks[0].content.value;
        ConsumedExtends(rest, next);
        assert Consumed(chunks, out).0 == [next] + Consumed(rest, next).0;
        forall t | t in Consumed(rest, next).0
          ensures StrictlyExtends(t, out)
        {
          assert StrictlyExtends(t, next);
          assert t[..|out|] == t[..|next|][..|out|];
        }
      } else if chunks[0].kind != ErrorChunk {
        ConsumedExtends(rest, out);
      }
    }
  }

  /** Each text is a strict extension of the one before it. */
  predicate Chain(u: seq<string>)
  {
    forall k :: 0 < k < |u| ==> StrictlyExtends(u[k], u[k - 1])
  }

  /** Each text passed on is a strict extension of the one before it. */
  lemma {:induction false} ConsumedGrows(chunks: seq<StreamChunk>, out: string)
    ensures Chain(Consumed(chunks, out).0)
    decreases |chunks|
  {
    if chunks != [] {
      var rest := chunks[1..];
      var u := Consumed(chunks, out).0;
      if Adds(chunks[0]) {
        var next := out + chunks[0].content.value;
        ConsumedGrows(rest, next);
        ConsumedExtends(rest, next);
        var v := Consumed(rest, next).0;
        assert u == [next] + v;
        forall k | 0 < k < |u|
          ensures StrictlyExtends(u[k], u[k - 1])
        {
          assert u[k] == v[k - 1];
          if k == 1 {
            assert v[0] in v;
          } else {
            assert u[k - 1] == v[k - 2];
            assert StrictlyExtends(v[k - 1], v[k - 2]);
          }
        }
      } else if chunks[0].kind != ErrorChunk {
        ConsumedGrows(rest, out);
        assert u == Consumed(rest, out).0;
      } else {
        assert u == [];
      }
    }
  }

  /** Without an error chunk nothing is thrown, and the last text passed on
    * is the starting text followed by the whole streamed text. */
  lemma {:induction false} ConsumedClean(chunks: seq<StreamChunk>, out: string)
    requires NoErrorChunk(chunks)
    ensures Consumed(chunks, out).1.None?
    ensures Consumed(chunks, out).0 == [] ==> ContentText(chunks) == ""
    ensures Consumed(chunks, out).0 != [] ==> Last(Consumed(chunks, out).0) == out + ContentText(chunks)
    decreases |chunks|
  {
    if chunks != [] {
      var rest := chunks[1..];
      var c := chunks[0];
      NoErrorTail(chunks);
      if Adds(c) {
        var next := out + c.content.value;
        ConsumedClean(rest, next);
        var v := Consumed(rest, next).0;
        assert Consumed(chunks, out) == ([next] + v, Consumed(rest, next).1);
        assert ContentText(chunks) == c.content.value + ContentText(rest);
        if v == [] {
          assert Last([next] + v) == next == out + c.content.value + "";
        } else {
          assert Last([next] + v) == Last(v);
          AppendAssoc(out, c.content.value, ContentText(rest));
        }
      } else {
        ConsumedClean(rest, out);
        assert Consumed(chunks, out) == Consumed(rest, out);
        assert ContentText(chunks) == ContentText(rest);
      }
    }
  }

  lemma NoErrorTail(chunks: seq<StreamChunk>)
    requires chunks != [] && NoErrorChunk(chunks)
    ensures chunks[0].kind != ErrorChunk && NoErrorChunk(chunks[1..])
  {
    forall k | 0 <= k < |chunks| - 1
      ensures chunks[1..][k].kind != ErrorChunk
    {
      assert chunks[1..][k] == chunks[k + 1];
    }
  }

  /** The outcome of one attempt: the texts passed on, and the message
    * thrown, if any. */
  function Streamed(a: Attempt): (seq<string>, Option<string>)
  {
    match a
    case OpenFailed(message) => ([], Some(message))
    case Opened(chunks, failure) =>
      var r := Consumed(chunks, "");
      if r.1.Some? then r else (r.0, failure)
  }

  /** `tokenErrMessage`. */
  function TokenErrorMessage(dev: bool): string
  {
    if dev then "Please set your Hugging Face token in the .env file"
    else "Failed to connect to inference providers. Are you logged in?"
  }

  /** The `for await` loop of `handleStreamingResponse`. */
  method ReadChunks(chunks: seq<StreamChunk>) returns (updates: seq<string>, error: Option<string>)
    ensures (updates, error) == Consumed(chunks, "")
  {
    var out := "";
    updates := [];
    error := None;
    var i := 0;
    assert chunks[0..] == chunks;
    while i < |chunks|
      invariant 0 <= i <= |chunks|
      invariant Consumed(chunks, "").0 == updates + Consumed(chunks[i..], out).0
      invariant Consumed(chunks, "").1 == Consumed(chunks[i..], out).1
    {
      var chunk := chunks[i];
      assert chunks[i..][0] == chunk && chunks[i..][1..] == chunks[i + 1..];
      if chunk.kind == ContentChunk && chunk.content.Some? && chunk.content.value != [] {
        out := out + chunk.content.value;
        updates := updates + [out];
      } else if chunk.kind == ErrorChunk {
        assert Consumed(chunks[i..], out) == ([], Some(ChunkError(chunk)));
        assert updates + [] == updates;
        return updates, Some(ChunkError(chunk));
      }
      i := i + 1;
    }
    assert chunks[i..] == [] && updates + [] == updates;
  }

  /** `handleStreamingResponse(conversation, onChunk, abortController)`:
    * `updates` are the texts passed to `onChunk`, `error` the message of
    * the error it throws. A message containing `401` on the first attempt
    * asks for a token (`refreshed`) and, when one arrives, makes exactly
    * one more attempt, whose failure is final. */
  method HandleStreamingResponse(first: Attempt, refreshed: bool, second: Attempt, dev: bool)
    returns (updates: seq<string>, error: Option<string>)
    ensures var (u1, e1) := Streamed(first);
      if e1.Some? && Contains(e1.value, "401") then
        if refreshed then updates == u1 + Streamed(second).0 && error == Streamed(second).1
        else updates == u1 && error == Some(TokenErrorMessage(dev))
      else updates == u1 && error == e1
  {
    updates, error := RunAttempt(first);
    if error.Some? && Contains(error.value, "401") {
      if !refreshed {
        return updates, Some(TokenErrorMessage(dev));
      }
      var more;
      more, error := RunAttempt(second);
      updates := updates + more;
    }
  }

  method RunAttempt(a: Attempt) returns (updates: seq<string>, error: Option<string>)
    ensures (updates, error) == Streamed(a)
  {
    match a {
      case OpenFailed(message) =>
        return [], Some(message);
      case Opened(chunks, failure) =>
        updates, error := ReadChunks(chunks);
        if error.None? {
          error := failure;
        }
    }
  }

  /** A stream that opens and carries no error chunk and no read failure
    * delivers its whole text as the last update and throws nothing. */
  lemma CleanStream(chunks: seq<StreamChunk>, refreshed: bool, second: Attempt, dev: bool)
    requires NoErrorChunk(chunks) && exists k :: 0 <= k < |chunks| && Adds(chunks[k])
    ensures Streamed(Opened(chunks, None)).1.None?
    ensures Streamed(Opened(chunks, None)).0 != []
    ensures Last(Streamed(Opened(chunks, None)).0) == ContentText(chunks)
  {
    ConsumedClean(chunks, "");
    var k :| 0 <= k < |chunks| && Adds(chunks[k]);
    ContentTextNonEmpty(chunks, k);
    assert "" + ContentText(chunks) == ContentText(chunks);
  }

  lemma {:induction false} ContentTextNonEmpty(chunks: seq<StreamChunk>, k: nat)
    requires k < |chunks| && Adds(chunks[k])
    ensures ContentText(chunks) != ""
    decreases k
  {
    if k > 0 && !Adds(chunks[0]) {
      ContentTextNonEmpty(chunks[1..], k - 1);
    }
  }

  // ----- non-streaming -----

  /** What `fetch("/api/generate")` settles to in the non-streaming call:
    * a reply, whose `body` is the raw text `response.json()` parses, or a
    * rejection with its error's message. */
  datatype HttpReply =
    | HttpReply(ok: bool, status: int, body: string)
    | ReplyRejected(message: string)

  /** Why the non-streaming call throws. */
  datatype GenerateError =
    | Failed(message: string)      // an `Error` with this message
    | BodyUnreadable               // `response.json()` rejects, or `error.error` on `null`
    | FetchError(message: string)  // the rejection of `fetch`, passed on

  /** The outcome of one non-streaming request: the parsed body, the
    * message `error.error || "Failed to generate response"`, or the
    * rejection of `fetch`. */
  function Answered(r: HttpReply): (a: Result<Json, GenerateError>)
    ensures r.ReplyRejected? <==> a.Err? && a.error.FetchError?
    ensures r.ReplyRejected? ==> a == Err(FetchError(r.message))
    ensures a.Ok? <==> r.HttpReply? && r.ok && Parse(r.body).Some?
    ensures a.Ok? ==> a.value == Parse(r.body).value
    ensures a == Err(BodyUnreadable) <==>
      r.HttpReply? && (Parse(r.body).None? || (!r.ok && Parse(r.body) == Some(JNull)))
    ensures a.Err? && a.error.Failed? ==> r.HttpReply? && !r.ok
  {
    if r.ReplyRejected? then Err(FetchError(r.message))
    else
      var parsed := Parse(r.body);
      if parsed.None? then Err(BodyUnreadable)
      else if r.ok then Ok(parsed.value)
      else if parsed.value.JNull? then Err(BodyUnreadable)
      else
        var e := Get(parsed.value, "error");
        if e.Some? && Truthy(e.value) then Err(Failed(JsString(e.value))) else Err(Failed("Failed to generate response"))
  }

  /** A 401 reply to the first request, the one case that asks for a token. */
  predicate Unauthorized(r: HttpReply)
  {
    r.HttpReply? && !r.ok && r.status == 401
  }

  /** `handleNonStreamingResponse(conversation)`: a 401 on the first
    * request asks for a token (`asked`) and, when one arrives
    * (`refreshed`), retries once; a rejected `fetch`, first or retried,
    * throws its error. */
  method HandleNonStreamingResponse(first: HttpReply, refreshed: bool, second: HttpReply, dev: bool)
    returns (asked: bool, r: Result<Json, GenerateError>)
    ensures asked <==> Unauthorized(first)
    ensures Unauthorized(first) ==>
      r == if refreshed then Answered(second) else Err(Failed(TokenErrorMessage(dev)))
    ensures !Unauthorized(first) ==> r == Answered(first)
    ensures first.ReplyRejected? ==> !asked && r == Err(FetchError(first.message))
  {
    asked := false;
    if first.HttpReply? && !first.ok && first.status == 401 {
      asked := true;
      if !refreshed {
        return asked, Err(Failed(TokenErrorMessage(dev)));
      }
      r := Answered(second);
      return;
    }
    r := Answered(first);
  }

  // ----- inference snippets -----

  /** An `InferenceSnippet`: its language and code. */
  datatype Snippet = Snippet(language: string, content: string)

  /** The languages offered, in display order. */
  const InferenceSnippetLanguages: seq<string> := ["python", "js", "sh"]

  /** `String(getResponseFormatObj(conversation))`, as the snippet splice
    * prints a non-string value. */
  function FormatShown(format: Option<Object<Json>>): Snippets.Value
  {
    if format.Some? then Snippets.Other("[object Object]") else Snippets.Other("undefined")
  }

  /** `getInferenceSnippet(conversation, language, opts)`: `all` is what
    * the snippet library generates, `structured` whether the options ask
    * for structured output the model supports, `format` the response
    * format of the conversation. */
  function InferenceSnippets(model: PlaygroundModel, provider: string, language: string, all: seq<Snippet>,
                             structured: bool, format: Option<Object<Json>>): (r: seq<Snippet>)
  {
    if model.CustomModel? then []
    else if provider !in model.providers && provider != "auto" then []
    else SnippetsFor(all, language, structured, format)
  }

  /** `.filter(s => s.language === language).map(...)`. */
  function SnippetsFor(all: seq<Snippet>, language: string, structured: bool, format: Option<Object<Json>>): (r: seq<Snippet>)
  {
    if all == [] then []
    else
      var s := all[0];
      var rest := SnippetsFor(all[1..], language, structured, format);
      if s.language != language then rest else [Shown(s, structured, format)] + rest
  }

  /** A snippet as shown: with `response_format` spliced in when structured
    * output is asked for. */
  function Shown(s: Snippet, structured: bool, format: Option<Object<Json>>): (r: Snippet)
    ensures r.language == s.language
    ensures !structured ==> r == s
  {
    if structured then s.(content := Snippets.Modified(s.content, [("response_format", FormatShown(format))])) else s
  }

  /** Every snippet given is in the requested language. */
  lemma {:induction false} SnippetsLanguage(all: seq<Snippet>, language: string, structured: bool, format: Option<Object<Json>>)
    ensures forall s :: s in SnippetsFor(all, language, structured, format) ==> s.language == language
    decreases |all|
  {
    if all != [] {
      var rest := SnippetsFor(all[1..], language, structured, format);
      SnippetsLanguage(all[1..], language, structured, format);
      if all[0].language == language {
        var head := Shown(all[0], structured, format);
        assert SnippetsFor(all, language, structured, format) == [head] + rest;
      } else {
        assert SnippetsFor(all, language, structured, format) == rest;
      }
    }
  }

  /** Without structured output the snippets are exactly the requested
    * language's ones, in order and untouched. */
  lemma {:induction false} SnippetsUnstructured(all: seq<Snippet>, language: string, format: Option<Object<Json>>)
    ensures SnippetsFor(all, language, false, format) == Matching(all, language)
    decreases |all|
  {
    if all != [] {
      var rest := SnippetsFor(all[1..], language, false, format);
      SnippetsUnstructured(all[1..], language, format);
      if all[0].language == language {
        assert Shown(all[0], false, format) == all[0];
        assert SnippetsFor(all, language, false, format) == [all[0]] + rest;
        assert Matching(all, language) == [all[0]] + Matching(all[1..], language);
      } else {
        assert SnippetsFor(all, language, false, format) == rest;
        assert Matching(all, language) == Matching(all[1..], language);
      }
    }
  }

  function Matching(all: seq<Snippet>, language: string): (r: seq<Snippet>)
    ensures forall s :: s in r <==> s in all && s.language == language
  {
    if all == [] then []
    else (if all[0].language == language then [all[0]] else []) + Matching(all[1..], language)
  }

  /** No snippet for custom models or unmapped providers other than `auto`. */
  lemma NoSnippets(model: PlaygroundModel, provider: string, language: string, all: seq<Snippet>,
                   structured: bool, format: Option<Object<Json>>)
    ensures model.CustomModel? ==> InferenceSnippets(model, provider, language, all, structured, format) == []
    ensures model.HubModel? && provider !in model.providers && provider != "auto" ==>
      InferenceSnippets(model, provider, language, all, structured, format) == []
  {
  }

  // ----- tokens -----

  /** The text `getTokens` encodes: one header-framed block per message,
    * the first one preceded by the begin-of-text token. A message without
    * content prints as `undefined`. */
  function MessageBlock(m: ChatMessage): string
  {
    "<|start_header_id|>" + m.role + "<|end_header_id|>\n\n"
      + (if m.content.Some? then Trim(m.content.value) else "undefined") + "<|eot_id|>"
  }

  function FormattedText(messages: seq<ChatMessage>): string
  {
    if messages == [] then ""
    else
      var opening := if |messages| == 1 then "<|begin_of_text|>" else "";
      FormattedText(messages[..|messages| - 1]) + opening + MessageBlock(messages[|messages| - 1])
  }

  /** The `forEach` of `getTokens`, building `formattedText`. */
  method FormatMessages(messages: Option<seq<ChatMessage>>) returns (formattedText: string)
    ensures formattedText == FormattedText(messages.GetOr([]))
  {
    formattedText := "";
    var ms := messages.GetOr([]);
    for index := 0 to |ms|
      invariant formattedText == FormattedText(ms[..index])
    {
      var content := MessageBlock(ms[index]);
      if index == 0 {
        content := "<|begin_of_text|>" + content;
      }
      assert ms[..index + 1][..index] == ms[..index];
      formattedText := formattedText + content;
    }
    assert ms[..|ms|] == ms;
  }

  /** The text starts with the begin-of-text token exactly when there is a
    * message, and is the blocks of the messages in order. */
  lemma {:induction false} FormattedTextShape(messages: seq<ChatMessage>)
    ensures messages != [] ==> FormattedText(messages) == "<|begin_of_text|>" + Concat(Blocks(messages))
    ensures messages == [] ==> FormattedText(messages) == ""
    decreases |messages|
  {
    if |messages| > 1 {
      var init := messages[..|messages| - 1];
      var block := MessageBlock(messages[|messages| - 1]);
      FormattedTextShape(init);
      assert Blocks(messages)[..|messages| - 1] == Blocks(init);
      assert Concat(Blocks(messages)) == Concat(Blocks(init)) + block;
      AppendAssoc("<|begin_of_text|>", Concat(Blocks(init)), block);
    } else if |messages| == 1 {
      assert Blocks(messages)[..0] == [];
      assert messages[..0] == [];
    }
  }

  /** The block of each message, in order. */
  function Blocks(messages: seq<ChatMessage>): (r: seq<string>)
    ensures |r| == |messages| && forall k :: 0 <= k < |r| ==> r[k] == MessageBlock(messages[k])
  {
    if messages == [] then [] else Blocks(messages[..|messages| - 1]) + [MessageBlock(messages[|messages| - 1])]
  }

  /** A loaded tokenizer, identified by the model it was loaded for. */
  datatype Tokenizer = Tokenizer(modelId: string)

  /** The module-level `tokenizers` map: `None` records a failed load. */
  class Tokenizers {
    var cache: map<string, Option<Tokenizer>>

    constructor()
      ensures cache == map[]
    {
      cache := map[];
    }

    /** `getTokenizer(model)`: the recorded outcome, or the outcome of
      * loading it (`loaded`), which is then recorded. */
    method GetTokenizer(modelId: string, loaded: Option<Tokenizer>) returns (t: Option<Tokenizer>)
      modifies this
      ensures modelId in old(cache) ==> t == old(cache)[modelId] && cache == old(cache)
      ensures modelId !in old(cache) ==> t == loaded && cache == old(cache)[modelId := loaded]
    {
      if modelId in cache {
        return cache[modelId];
      }
      cache := cache[modelId := loaded];
      return loaded;
    }
  }

  /** What `getTokens` counts: a length estimate, or the tokens of the
    * formatted text under a tokenizer. */
  datatype TokenCount = Estimated | Encoded(tokenizer: Tokenizer, text: string)

  /** `getTokens(conversation)`. */
  method GetTokens(tokenizers: Tokenizers, model: PlaygroundModel, loaded: Option<Tokenizer>, messages: Option<seq<ChatMessage>>)
    returns (count: TokenCount)
    modifies tokenizers
    ensures model.CustomModel? ==> count == Estimated && tokenizers.cache == old(tokenizers.cache)
    ensures model.HubModel? ==>
      var t := if model.id in old(tokenizers.cache) then old(tokenizers.cache)[model.id] else loaded;
      count == (if t.None? then Estimated else Encoded(t.value, FormattedText(messages.GetOr([]))))
  {
    if model.CustomModel? {
      return Estimated;
    }
    var tokenizer := tokenizers.GetTokenizer(model.id, loaded);
    if tokenizer.None? {
      return Estimated;
    }
    var text := FormatMessages(messages);
    return Encoded(tokenizer.value, text);
  }
}
