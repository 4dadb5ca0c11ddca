/** `src/routes/api/generate/mcp.ts`: turning MCP tool schemas into
  * OpenAI-style function schemas, keeping the servers that connect, and
  * dispatching one tool call over the connections. The MCP client and its
  * transports are not modelled: what connecting, listing tools and calling
  * a tool give is passed in as outcomes, one per server or connection. */
module Mcp {
  import opened Wrappers
  import opened Json

  /** `McpToolSchema`. */
  datatype ToolSchema = ToolSchema(name: string, inputSchema: Json)

  /** The `function` member (`def`) of an `OpenAIFunctionSchema`. */
  datatype FunctionDef = FunctionDef(name: string, description: string, parameters: Json, strict: bool)

  /** `OpenAIFunctionSchema`; `kind` is its `type` member. */
  datatype OpenAIFunction = OpenAIFunction(kind: string, def: FunctionDef)

  /** `mcpToolToOpenAIFunction(tool)`. */
  function ToOpenAIFunction(tool: ToolSchema): (f: OpenAIFunction)
    ensures f.kind == "function" && f.def.strict
    ensures f.def.name == tool.name && f.def.description == tool.name
    ensures f.def.parameters == tool.inputSchema
  {
    OpenAIFunction("function", FunctionDef(tool.name, tool.name, tool.inputSchema, true))
  }

  function ToOpenAIFunctions(tools: seq<ToolSchema>): (fs: seq<OpenAIFunction>)
    ensures |fs| == |tools| && forall k :: 0 <= k < |tools| ==> fs[k] == ToOpenAIFunction(tools[k])
  {
    if tools == [] then [] else [ToOpenAIFunction(tools[0])] + ToOpenAIFunctions(tools[1..])
  }

  // ----- connecting -----

  /** `MCPServerConfig`, the fields the connection uses. */
  datatype ServerConfig = ServerConfig(name: string, url: string, protocol: string)

  datatype Transport = Sse | StreamableHttp

  /** A connected client, identified by the URL and transport it uses. */
  datatype Client = Client(url: string, transport: Transport)

  /** `MCPServerConnection`. */
  datatype Connection = Connection(client: Client, tools: seq<OpenAIFunction>)

  /** What connecting to one server gives: the tools it lists, or a failure
    * anywhere on the way (URL parse, connect, listTools). */
  datatype ConnectOutcome = Connected(tools: seq<ToolSchema>) | ConnectFailed

  /** Protocol `"sse"` selects the SSE transport, anything else streamable HTTP. */
  function TransportFor(protocol: string): (t: Transport)
    ensures t == Sse <==> protocol == "sse"
  {
    if protocol == "sse" then Sse else StreamableHttp
  }

  /** The connection made for server `s` whose tool list is `tools`. */
  function ConnectionFor(s: ServerConfig, tools: seq<ToolSchema>): Connection
  {
    Connection(Client(s.url, TransportFor(s.protocol)), ToOpenAIFunctions(tools))
  }

  /** The connections kept, in server order. */
  function Connections(servers: seq<ServerConfig>, outcomes: seq<ConnectOutcome>): seq<Connection>
    requires |outcomes| == |servers|
  {
    if servers == [] then []
    else
      var n := |servers| - 1;
      var init := Connections(servers[..n], outcomes[..n]);
      if outcomes[n].Connected? then init + [ConnectionFor(servers[n], outcomes[n].tools)] else init
  }

  /** `connectToMCPServers(servers)`, with each server's outcome. The
    * attempts run concurrently in the source; here they run in server
    * order, which fixes the order of the result. */
  method ConnectToMcpServers(servers: seq<ServerConfig>, outcomes: seq<ConnectOutcome>) returns (connections: seq<Connection>)
    requires |outcomes| == |servers|
    ensures connections == Connections(servers, outcomes)
  {
    connections := [];
    for i := 0 to |servers|
      invariant connections == Connections(servers[..i], outcomes[..i])
    {
      assert servers[..i + 1][..i] == servers[..i];
      assert outcomes[..i + 1][..i] == outcomes[..i];
      match outcomes[i] {
        case ConnectFailed =>
        case Connected(tools) =>
          connections := connections + [ConnectionFor(servers[i], tools)];
      }
    }
    assert servers[..|servers|] == servers;
    assert outcomes[..|servers|] == outcomes;
  }

  /** Exactly the servers that connected are kept, each with its own
    * transport and its tools converted. */
  lemma {:induction false} ConnectionsKept(servers: seq<ServerConfig>, outcomes: seq<ConnectOutcome>, c: Connection)
    requires |outcomes| == |servers|
    ensures c in Connections(servers, outcomes) <==>
      exists i :: 0 <= i < |servers| && outcomes[i].Connected? && c == ConnectionFor(servers[i], outcomes[i].tools)
  {
    if servers != [] {
      var n := |servers| - 1;
      ConnectionsKept(servers[..n], outcomes[..n], c);
      if c in Connections(servers, outcomes) && c !in Connections(servers[..n], outcomes[..n]) {
        assert outcomes[n].Connected? && c == ConnectionFor(servers[n], outcomes[n].tools);
      }
      if exists i :: 0 <= i < |servers| && outcomes[i].Connected? && c == ConnectionFor(servers[i], outcomes[i].tools) {
        var i :| 0 <= i < |servers| && outcomes[i].Connected? && c == ConnectionFor(servers[i], outcomes[i].tools);
        if i < n {
          assert servers[..n][i] == servers[i] && outcomes[..n][i] == outcomes[i];
        }
      }
    }
  }

  // ----- executing a tool call -----

  /** The tool call of the chat completion: its id, function name and the
    * argument JSON text. */
  datatype ToolCall = ToolCall(id: string, name: string, arguments: string)

  /** What `callTool` on one connection gives: the result's `content`, or
    * an exception. */
  datatype CallOutcome = Returns(content: Json) | Throws

  /** The message `executeMcpTool` returns; `role` is always `"tool"`. */
  datatype ToolMessage = ToolMessage(toolCallId: string, role: string, content: string)

  /** `conn.tools.some(tool => tool.function?.name === name)`. */
  predicate Lists(conn: Connection, name: string)
  {
    exists k :: 0 <= k < |conn.tools| && conn.tools[k].def.name == name
  }

  /** The `result.content` left after the loop: the one of the last
    * connection that lists the tool and whose call returns. */
  function LastResult(conns: seq<Connection>, outcomes: seq<CallOutcome>, name: string): Option<Json>
    requires |outcomes| == |conns|
  {
    if conns == [] then None
    else
      var n := |conns| - 1;
      if Lists(conns[n], name) && outcomes[n].Returns? then Some(outcomes[n].content)
      else LastResult(conns[..n], outcomes[..n], name)
  }

  /** The indices of the connections that list the tool, in order: the
    * ones whose `callTool` is invoked. */
  function Listing(conns: seq<Connection>, name: string): (r: seq<nat>)
  {
    if conns == [] then []
    else
      var n := |conns| - 1;
      Listing(conns[..n], name) + if Lists(conns[n], name) then [n] else []
  }

  /** The error message of the tool-not-found exception. */
  function NotFoundMessage(name: string): string
  {
    "Tool " + name + " not found in any connected MCP server"
  }

  /** `JSON.stringify({ error: message })`. */
  function ErrorContent(message: string): string
  {
    Serialize(JObj([Member("error", JStr(message))]))
  }

  /** The content of the message `executeMcpTool` returns; `syntaxError` is
    * the message of the exception `JSON.parse` raises on bad arguments. */
  function ExecuteContent(conns: seq<Connection>, outcomes: seq<CallOutcome>, call: ToolCall, syntaxError: string): string
    requires |outcomes| == |conns|
  {
    if Parse(call.arguments).None? then ErrorContent(syntaxError)
    else match LastResult(conns, outcomes, call.name)
      case None => ErrorContent(NotFoundMessage(call.name))
      case Some(content) => Serialize(content)
  }

  /** `executeMcpTool(connections, toolCall)`, with the outcome each
    * connection's `callTool` would have; `called` lists the connections
    * whose `callTool` runs, in order. */
  method ExecuteMcpTool(conns: seq<Connection>, outcomes: seq<CallOutcome>, call: ToolCall, syntaxError: string)
    returns (message: ToolMessage, called: seq<nat>)
    requires |outcomes| == |conns|
    ensures message == ToolMessage(call.id, "tool", ExecuteContent(conns, outcomes, call, syntaxError))
    ensures called == if Parse(call.arguments).None? then [] else Listing(conns, call.name)
  {
    called := [];
    if Parse(call.arguments).None? {
      return ToolMessage(call.id, "tool", ErrorContent(syntaxError)), called;
    }
    var result: Option<Json> := None;
    for i := 0 to |conns|
      invariant result == LastResult(conns[..i], outcomes[..i], call.name)
      invariant called == Listing(conns[..i], call.name)
    {
      assert conns[..i + 1][..i] == conns[..i];
      assert outcomes[..i + 1][..i] == outcomes[..i];
      var toolExists := exists k :: 0 <= k < |conns[i].tools| && conns[i].tools[k].def.name == call.name;
      if !toolExists {
        continue;
      }
      called := called + [i];
      match outcomes[i] {
        case Throws =>
          continue;
        case Returns(content) =>
          result := Some(content);
      }
    }
    assert conns[..|conns|] == conns;
    assert outcomes[..|conns|] == outcomes;
    if result.None? {
      return ToolMessage(call.id, "tool", ErrorContent(NotFoundMessage(call.name))), called;
    }
    message := ToolMessage(call.id, "tool", Serialize(result.value));
  }

  /** The result comes from a connection that lists the tool and returned,
    * and no later connection both lists it and returns; with no such
    * connection there is no result. */
  lemma {:induction false} LastResultIsLast(conns: seq<Connection>, outcomes: seq<CallOutcome>, name: string)
    requires |outcomes| == |conns|
    ensures LastResult(conns, outcomes, name).None? <==>
      forall i :: 0 <= i < |conns| ==> !(Lists(conns[i], name) && outcomes[i].Returns?)
    ensures LastResult(conns, outcomes, name).Some? ==>
      exists i :: 0 <= i < |conns| && Lists(conns[i], name) && outcomes[i] == Returns(LastResult(conns, outcomes, name).value)
        && forall j :: i < j < |conns| ==> !(Lists(conns[j], name) && outcomes[j].Returns?)
  {
    if conns != [] {
      var n := |conns| - 1;
      LastResultIsLast(conns[..n], outcomes[..n], name);
      if !(Lists(conns[n], name) && outcomes[n].Returns?) {
        forall i | 0 <= i < n
          ensures conns[..n][i] == conns[i] && outcomes[..n][i] == outcomes[i]
        {
        }
      }
    }
  }

  /** Only connections that list the tool are called, each once, in order. */
  lemma ListingMembers(conns: seq<Connection>, name: string)
    ensures forall k :: 0 <= k < |Listing(conns, name)| ==> Listing(conns, name)[k] < |conns| && Lists(conns[Listing(conns, name)[k]], name)
    ensures forall i :: 0 <= i < |conns| && Lists(conns[i], name) ==> i in Listing(conns, name)
    ensures forall k, l :: 0 <= k < l < |Listing(conns, name)| ==> Listing(conns, name)[k] < Listing(conns, name)[l]
  {
    ListingListed(conns, name);
    ListingComplete(conns, name);
    ListingIncreasing(conns, name);
  }

  /** `Listing` after one more connection. */
  lemma ListingSnoc(conns: seq<Connection>, name: string)
    requires conns != []
    ensures Listing(conns, name) ==
      Listing(conns[..|conns| - 1], name) + if Lists(conns[|conns| - 1], name) then [|conns| - 1] else []
  {
  }

  lemma {:induction false} ListingListed(conns: seq<Connection>, name: string)
    ensures forall k :: 0 <= k < |Listing(conns, name)| ==> Listing(conns, name)[k] < |conns| && Lists(conns[Listing(conns, name)[k]], name)
    decreases |conns|
  {
    if conns != [] {
      var n := |conns| - 1;
      var init := conns[..n];
      ListingListed(init, name);
      ListingSnoc(conns, name);
      var all, before := Listing(conns, name), Listing(init, name);
      forall k | 0 <= k < |all|
        ensures all[k] < |conns| && Lists(conns[all[k]], name)
      {
        if k < |before| {
          assert all[k] == before[k];
          assert conns[before[k]] == init[before[k]];
        } else {
          assert all[k] == n;
        }
      }
    }
  }

  lemma {:induction false} ListingComplete(conns: seq<Connection>, name: string)
    ensures forall i :: 0 <= i < |conns| && Lists(conns[i], name) ==> i in Listing(conns, name)
    decreases |conns|
  {
    if conns != [] {
      var n := |conns| - 1;
      var init := conns[..n];
      ListingComplete(init, name);
      ListingSnoc(conns, name);
      forall i | 0 <= i < |conns| && Lists(conns[i], name)
        ensures i in Listing(conns, name)
      {
        if i < n {
          assert init[i] == conns[i];
          assert i in Listing(init, name);
        }
      }
    }
  }

  lemma {:induction false} ListingIncreasing(conns: seq<Connection>, name: string)
    ensures forall k, l :: 0 <= k < l < |Listing(conns, name)| ==> Listing(conns, name)[k] < Listing(conns, name)[l]
    decreases |conns|
  {
    if conns != [] {
      var n := |conns| - 1;
      var init := conns[..n];
      ListingIncreasing(init, name);
      ListingListed(init, name);
      ListingSnoc(conns, name);
      var all, before := Listing(conns, name), Listing(init, name);
      forall k, l | 0 <= k < l < |all|
        ensures all[k] < all[l]
      {
        assert all[k] == before[k];
        if l < |before| {
          assert all[l] == before[l];
        } else {
          assert all[l] == n;
        }
      }
    }
  }

  /** Whatever happens, the content is valid JSON: the error object, or the
    * serialised `result.content`. */
  lemma ContentParses(conns: seq<Connection>, outcomes: seq<CallOutcome>, call: ToolCall, syntaxError: string)
    requires |outcomes| == |conns|
    ensures var content := ExecuteContent(conns, outcomes, call, syntaxError);
      Parse(content) == if Parse(call.arguments).None? then Some(JObj([Member("error", JStr(syntaxError))]))
        else match LastResult(conns, outcomes, call.name)
          case None => Some(JObj([Member("error", JStr(NotFoundMessage(call.name)))]))
          case Some(c) => Some(c)
  {
    if Parse(call.arguments).None? {
      ParseSerialize(JObj([Member("error", JStr(syntaxError))]));
    } else if LastResult(conns, outcomes, call.name).None? {
      ParseSerialize(JObj([Member("error", JStr(NotFoundMessage(call.name)))]));
    } else {
      ParseSerialize(LastResult(conns, outcomes, call.name).value);
    }
  }
}
