/** The tool manager that serves local functions and the tools of MCP
    servers through one interface (`EnhancedToolManager`), as values: its
    state, the refresh of the combined schema list, the dispatch of a tool
    call (local functions first), the reports it gives, and the creation of
    a manager with a list of servers. */
module Gateway {
  import opened Values
  import opened Protocol
  import Text
  import ServerRegistry
  import ToolAdapter
  import LocalTools

  /** The state of an `EnhancedToolManager`: the inherited registry of local
      functions, the MCP manager's registry once `initialize_mcp` has run
      (`None` before it: `_mcp_initialized`, `mcp_manager` and
      `tool_adapter` are set together and never unset), and
      `_mcp_tools_cache`. */
  datatype Gate = Gate(local: LocalTools.LocalRegistry, mcp: Option<ServerRegistry.Registry>,
                       cache: seq<ToolAdapter.ToolInfo>)

  ghost predicate Valid(g: Gate) {
    LocalTools.WellFormed(g.local) && (g.mcp.Some? ==> ServerRegistry.Valid(g.mcp.value))
  }

  /** A new manager: no local function, no MCP system, an empty cache. */
  function Fresh(): (g: Gate)
    ensures Valid(g) && g.mcp.None? && g.cache == [] && g.local == LocalTools.EmptyRegistry()
  {
    Gate(LocalTools.EmptyRegistry(), None, [])
  }

  /** The registry of the MCP manager, or an empty one before initialisation. */
  function McpRegistry(g: Gate): ServerRegistry.Registry {
    if g.mcp.Some? then g.mcp.value else ServerRegistry.Empty()
  }

  /** `initialize_mcp`: a new, empty MCP manager the first time, nothing
      afterwards; it always reports success. */
  function InitializeMcp(g: Gate): (r: (bool, Gate))
    ensures r.0 && r.1.mcp == Some(McpRegistry(g))
    ensures r.1.local == g.local && r.1.cache == g.cache
    ensures Valid(g) ==> Valid(r.1)
  {
    if g.mcp.Some? then (true, g) else (true, g.(mcp := Some(ServerRegistry.Empty())))
  }

  /** Initialising twice is initialising once: an existing manager is kept. */
  lemma InitializeIdempotent(g: Gate)
    ensures InitializeMcp(InitializeMcp(g).1) == InitializeMcp(g)
    ensures g.mcp.Some? ==> InitializeMcp(g).1 == g
  {
  }

  /** `_get_local_schemas`: one schema per local function, in the order the
      functions were first registered. */
  function LocalSchemas(order: seq<string>, tools: map<string, LocalTools.LocalTool>): (s: seq<FunctionSchema>)
    requires forall k :: 0 <= k < |order| ==> order[k] in tools
    ensures |s| == |order|
  {
    if order == [] then []
    else LocalSchemas(order[..|order| - 1], tools) + [LocalTools.ToolSchema(tools[order[|order| - 1]])]
  }

  /** One more function in the order adds its schema at the end. */
  lemma LocalSchemasStep(order: seq<string>, tools: map<string, LocalTools.LocalTool>, i: nat)
    requires i < |order| && forall k :: 0 <= k < |order| ==> order[k] in tools
    ensures LocalSchemas(order[..i + 1], tools) == LocalSchemas(order[..i], tools) + [LocalTools.ToolSchema(tools[order[i]])]
  {
    assert order[..i + 1][..i] == order[..i];
  }

  /** The schema at position `i` is that of the `i`-th registered function. */
  lemma {:induction false} LocalSchemaAt(order: seq<string>, tools: map<string, LocalTools.LocalTool>, i: nat)
    requires i < |order| && forall k :: 0 <= k < |order| ==> order[k] in tools
    ensures LocalSchemas(order, tools)[i] == LocalTools.ToolSchema(tools[order[i]])
  {
    var init := order[..|order| - 1];
    if i < |init| {
      LocalSchemaAt(init, tools, i);
      assert init[i] == order[i];
    }
  }

  /** `_refresh_mcp_tools`: without an MCP system nothing happens; otherwise
      the schema list becomes the local schemas followed by the MCP schemas,
      and the cache the descriptions of the MCP tools. The two MCP lists come
      from two listings of all servers. Since a worker of this model answers
      every catalogue request alike, the second listing repeats the first. */
  function Refresh(g: Gate): (r: Gate)
    requires Valid(g)
    ensures Valid(r)
    ensures r.local.order == g.local.order && r.local.tools == g.local.tools
    ensures g.mcp.None? ==> r == g
  {
    if g.mcp.None? then g
    else
      var reg := g.mcp.value;
      var (listing, reg1) := ServerRegistry.ListAll(reg);
      ServerRegistry.ListAllTwice(reg);
      var (listing2, reg2) := ServerRegistry.ListAll(reg1);
      Gate(g.local.(schemas := LocalSchemas(g.local.order, g.local.tools) + ToolAdapter.Schemas(listing)),
           Some(reg2), ToolAdapter.Infos(listing2))
  }

  /** With an MCP system, a refresh lists the servers once for the schemas
      and once for the cache. As a worker of this model answers every
      catalogue request alike, the second listing repeats the first, so the
      cache describes the very tools whose schemas were published. The
      active servers and their order are unchanged. */
  lemma RefreshSpec(g: Gate)
    requires Valid(g) && g.mcp.Some?
    ensures var (listing, after) := ServerRegistry.ListAll(g.mcp.value);
            && Refresh(g).mcp == Some(after)
            && Refresh(g).local.schemas == LocalSchemas(g.local.order, g.local.tools) + ToolAdapter.Schemas(listing)
            && Refresh(g).cache == ToolAdapter.Infos(listing)
    ensures Refresh(g).mcp.value.order == g.mcp.value.order
    ensures Refresh(g).mcp.value.clients.Keys == g.mcp.value.clients.Keys
  {
    ServerRegistry.ListAllTwice(g.mcp.value);
    ServerRegistry.ListAllState(g.mcp.value);
  }

  /** After a refresh the schema list holds exactly one schema per local
      function, named after it and in registration order (however often a
      name was registered), followed by one schema per cached MCP tool, the
      k-th named by qualifying the k-th cached tool with its server. */
  lemma RefreshedSchemas(g: Gate)
    requires Valid(g) && g.mcp.Some?
    ensures var s := Refresh(g).local.schemas;
            var c := Refresh(g).cache;
            var o := g.local.order;
            && |s| == |o| + |c|
            && (forall i :: 0 <= i < |o| ==> s[i] == LocalTools.ToolSchema(g.local.tools[o[i]]) && s[i].name == o[i])
            && (forall i, j :: 0 <= i < j < |o| ==> s[i].name != s[j].name)
            && (forall k :: 0 <= k < |c| ==>
                  s[|o| + k].name == ToolAdapter.QualifiedName(c[k].mcpName, c[k].toolName)
                  && c[k].description == Some(s[|o| + k].description))
  {
    RefreshSpec(g);
    var listing := ServerRegistry.ListAll(g.mcp.value).0;
    Layout(g.local, listing);
  }

  /** The layout of `RefreshedSchemas` for any listing. */
  lemma Layout(local: LocalTools.LocalRegistry, listing: seq<ServerRegistry.ServerTools>)
    requires LocalTools.WellFormed(local)
    ensures var s := LocalSchemas(local.order, local.tools) + ToolAdapter.Schemas(listing);
            var c := ToolAdapter.Infos(listing);
            var o := local.order;
            && |s| == |o| + |c|
            && (forall i :: 0 <= i < |o| ==> s[i] == LocalTools.ToolSchema(local.tools[o[i]]) && s[i].name == o[i])
            && (forall i, j :: 0 <= i < j < |o| ==> s[i].name != s[j].name)
            && (forall k :: 0 <= k < |c| ==>
                  s[|o| + k].name == ToolAdapter.QualifiedName(c[k].mcpName, c[k].toolName)
                  && c[k].description == Some(s[|o| + k].description))
  {
    var o := local.order;
    var l: seq<FunctionSchema> := LocalSchemas(o, local.tools);
    var m: seq<FunctionSchema> := ToolAdapter.Schemas(listing);
    var s: seq<FunctionSchema> := l + m;
    var c := ToolAdapter.Infos(listing);
    ToolAdapter.SchemasMatchInfos(listing);
    forall k | 0 <= k < |c|
      ensures s[|o| + k].name == ToolAdapter.QualifiedName(c[k].mcpName, c[k].toolName)
      ensures c[k].description == Some(s[|o| + k].description)
    {
      SchemaBehindLocal(l, listing, k);
    }
    forall i | 0 <= i < |o|
      ensures s[i] == LocalTools.ToolSchema(local.tools[o[i]]) && s[i].name == o[i]
    {
      LocalSchemaAt(o, local.tools, i);
      assert s[i] == l[i];
    }
    forall i, j | 0 <= i < j < |o|
      ensures s[i].name != s[j].name
    {
      LocalSchemaAt(o, local.tools, i);
      LocalSchemaAt(o, local.tools, j);
      assert s[i] == l[i] && s[j] == l[j];
    }
  }

  /** Behind any prefix, the `k`-th MCP schema matches the `k`-th cache entry. */
  lemma SchemaBehindLocal(l: seq<FunctionSchema>, listing: seq<ServerRegistry.ServerTools>, k: nat)
    requires k < |ToolAdapter.Infos(listing)|
    ensures var s := l + ToolAdapter.Schemas(listing);
            var c := ToolAdapter.Infos(listing);
            && |l| + k < |s|
            && s[|l| + k].name == ToolAdapter.QualifiedName(c[k].mcpName, c[k].toolName)
            && c[k].description == Some(s[|l| + k].description)
  {
    var m: seq<FunctionSchema> := ToolAdapter.Schemas(listing);
    ToolAdapter.SchemasMatchInfos(listing);
    assert (l + m)[|l| + k] == m[k];
  }

  /** The text of the error returned when no MCP system exists. */
  const McpNotInitialized: string := "Error: MCP system not initialized"

  /** The text used for a failed MCP call that carries no error message. */
  const McpExecutionFailed: string := "MCP tool execution failed"

  /** The text returned when parsing the arguments of an MCP call raises. */
  function McpExecutionError(name: string, msg: string): string {
    "Error executing MCP tool " + name + ": " + msg
  }

  /** What `_execute_mcp_tool` makes of the adapter's result dictionary: the
      result text on success, otherwise "Error: " and the dictionary's
      `error`, or the generic text when it has none. */
  function McpText(e: ToolAdapter.ExecResult): string {
    match e
    case Failed(err) => "Error: " + err
    case Formatted(success, text, _, _) => if success then text else "Error: " + McpExecutionFailed
  }

  /** From a worker's answer to the text the caller receives: an exception's
      message behind "Error: "; the fixed text for an answer without
      content; the items' texts for a normal result; and, for a result the
      server marks as an error, only the generic text — its own content is
      not passed on. */
  lemma McpAnswerText(res: Fallible<Option<CallToolResult>>, server: string, tool: string)
    ensures res.Raises? ==> McpText(ToolAdapter.Outcome(res, server, tool)) == "Error: " + res.msg
    ensures res.Ok? && (res.value.None? || res.value.value.content == []) ==>
              McpText(ToolAdapter.Outcome(res, server, tool)) == ToolAdapter.NoContent
    ensures res.Ok? && res.value.Some? && res.value.value.content != [] && !res.value.value.isError ==>
              McpText(ToolAdapter.Outcome(res, server, tool)) == Text.Join("\n", ToolAdapter.ItemTexts(res.value.value.content))
    ensures res.Ok? && res.value.Some? && res.value.value.content != [] && res.value.value.isError ==>
              McpText(ToolAdapter.Outcome(res, server, tool)) == "Error: " + McpExecutionFailed
  {
    if res.Ok? {
      ToolAdapter.FormatResultMeaning(res.value, server, tool);
    }
  }

  /** `_execute_mcp_tool`: the arguments are parsed as for a local function
      and the call goes through the adapter; the result dictionary becomes
      a text. Only the parsing can raise. */
  function ExecuteMcpTool(g: Gate, call: LocalTools.ToolCall, decode: LocalTools.Decoder, answer: Answer)
    : (r: (Json, Gate))
    requires Valid(g)
    ensures Valid(r.1) && r.1.local == g.local && r.1.cache == g.cache && r.1.mcp.Some? == g.mcp.Some?
  {
    if g.mcp.None? then (JStr(McpNotInitialized), g)
    else match LocalTools.ParseArguments(call.arguments, decode)
      case Raises(m) => (JStr(McpExecutionError(call.name, m)), g)
      case Ok(args) =>
        var (e, reg) := ToolAdapter.ExecuteTool(g.mcp.value, call.name, args, answer);
        (JStr(McpText(e)), g.(mcp := Some(reg)))
  }

  /** `execute_tool_call`: a local function of that name first, then the MCP
      system, and otherwise the "not found" text. */
  function ExecuteToolCall(g: Gate, call: LocalTools.ToolCall, decode: LocalTools.Decoder, answer: Answer)
    : (r: (Json, Gate))
    requires Valid(g)
    ensures Valid(r.1) && r.1.local == g.local && r.1.cache == g.cache && r.1.mcp.Some? == g.mcp.Some?
  {
    if call.name in g.local.tools then (LocalTools.ExecuteToolCall(g.local.tools, call, decode), g)
    else if g.mcp.Some? then ExecuteMcpTool(g, call, decode, answer)
    else (JStr(LocalTools.ToolNotFound(call.name)), g)
  }

  /** A local function shadows every MCP tool: its call is the inherited
      call, whatever the MCP servers offer, and touches no server. Without a
      local function and without an MCP system the name is not found. */
  lemma LocalToolsComeFirst(g: Gate, call: LocalTools.ToolCall, decode: LocalTools.Decoder, answer: Answer)
    requires Valid(g)
    ensures call.name in g.local.tools ==>
              ExecuteToolCall(g, call, decode, answer) == (LocalTools.ExecuteToolCall(g.local.tools, call, decode), g)
    ensures call.name !in g.local.tools && g.mcp.None? ==>
              ExecuteToolCall(g, call, decode, answer) == (JStr(LocalTools.ToolNotFound(call.name)), g)
    ensures call.name !in g.local.tools && g.mcp.Some? ==>
              ExecuteToolCall(g, call, decode, answer) == ExecuteMcpTool(g, call, decode, answer)
  {
  }

  /** A qualified name that is not a local function changes no state. For an
      active server it reaches that server's worker with the bare tool name
      and the parsed arguments, and the text is made of the answer; for a
      server that is not active the text is the manager's error. Unparsable
      arguments give the MCP parsing error. */
  lemma QualifiedMcpCall(g: Gate, server: string, tool: string, call: LocalTools.ToolCall,
                         decode: LocalTools.Decoder, answer: Answer)
    requires Valid(g) && g.mcp.Some? && server != "" && '_' !in server
    requires call.name == ToolAdapter.QualifiedName(server, tool) && call.name !in g.local.tools
    ensures var parsed := LocalTools.ParseArguments(call.arguments, decode);
            && (parsed.Raises? ==>
                  ExecuteToolCall(g, call, decode, answer) == (JStr(McpExecutionError(call.name, parsed.msg)), g))
            && (parsed.Ok? && server in g.mcp.value.clients ==>
                  ExecuteToolCall(g, call, decode, answer)
                  == (JStr(McpText(ToolAdapter.Outcome(answer(server, tool, parsed.value), server, tool))), g))
            && (parsed.Ok? && server !in g.mcp.value.clients ==>
                  ExecuteToolCall(g, call, decode, answer)
                  == (JStr("Error: " + ServerRegistry.NotActive(server)), g))
  {
    var parsed := LocalTools.ParseArguments(call.arguments, decode);
    if parsed.Ok? {
      ToolAdapter.ExecuteQualified(g.mcp.value, server, tool, parsed.value, answer);
      assert g.(mcp := Some(g.mcp.value)) == g;
    }
  }

  /** A name without `_` that is not a local function is looked up among all
      active servers: the first server offering it is called with the parsed
      arguments, and when none offers it the text is the manager's
      not-found error. Only the catalogue caches the search fills change;
      unparsable arguments give the MCP parsing error and change nothing. */
  lemma BareMcpCall(g: Gate, call: LocalTools.ToolCall, decode: LocalTools.Decoder, answer: Answer)
    requires Valid(g) && g.mcp.Some? && '_' !in call.name && call.name !in g.local.tools
    ensures var parsed := LocalTools.ParseArguments(call.arguments, decode);
            var found := ServerRegistry.FindTool(g.mcp.value, call.name);
            && (parsed.Raises? ==>
                  ExecuteToolCall(g, call, decode, answer) == (JStr(McpExecutionError(call.name, parsed.msg)), g))
            && (parsed.Ok? && found.0.None? ==>
                  ExecuteToolCall(g, call, decode, answer)
                  == (JStr("Error: " + ServerRegistry.NotFound(call.name)), g.(mcp := Some(found.1))))
            && (parsed.Ok? && found.0.Some? ==>
                  ExecuteToolCall(g, call, decode, answer)
                  == (JStr(McpText(ToolAdapter.Outcome(answer(found.0.value.0, call.name, parsed.value), "", call.name))),
                      g.(mcp := Some(found.1))))
  {
    var parsed := LocalTools.ParseArguments(call.arguments, decode);
    if parsed.Ok? {
      ToolAdapter.ExecuteUnqualified(g.mcp.value, call.name, parsed.value, answer);
    }
  }

  /** A name with a leading `_` that is not a local function parses to an
      empty server, so the rest of the name is looked up among all active
      servers exactly as a bare name is: the first server offering it is
      called under that rest, and when none offers it the text is the
      manager's not-found error for the rest. Only the catalogue caches the
      search fills change; unparsable arguments give the MCP parsing error
      and change nothing. */
  lemma LeadingUnderscoreMcpCall(g: Gate, tool: string, call: LocalTools.ToolCall,
                                 decode: LocalTools.Decoder, answer: Answer)
    requires Valid(g) && g.mcp.Some? && call.name == "_" + tool && call.name !in g.local.tools
    ensures var parsed := LocalTools.ParseArguments(call.arguments, decode);
            var found := ServerRegistry.FindTool(g.mcp.value, tool);
            && (parsed.Raises? ==>
                  ExecuteToolCall(g, call, decode, answer) == (JStr(McpExecutionError(call.name, parsed.msg)), g))
            && (parsed.Ok? && found.0.None? ==>
                  ExecuteToolCall(g, call, decode, answer)
                  == (JStr("Error: " + ServerRegistry.NotFound(tool)), g.(mcp := Some(found.1))))
            && (parsed.Ok? && found.0.Some? ==>
                  ExecuteToolCall(g, call, decode, answer)
                  == (JStr(McpText(ToolAdapter.Outcome(answer(found.0.value.0, tool, parsed.value), "", tool))),
                      g.(mcp := Some(found.1))))
  {
    var parsed := LocalTools.ParseArguments(call.arguments, decode);
    if parsed.Ok? {
      ToolAdapter.ExecuteLeadingUnderscore(g.mcp.value, tool, parsed.value, answer);
    }
  }

  /** `execute_tool_calls`, inherited but dispatching through this
      manager's `execute_tool_call`: the calls run in order, each on the
      state the previous ones left. */
  function ExecuteAll(g: Gate, calls: seq<LocalTools.ToolCall>, decode: LocalTools.Decoder, answer: Answer)
    : (r: (seq<Json>, Gate))
    requires Valid(g)
    ensures Valid(r.1) && |r.0| == |calls|
    ensures r.1.local == g.local && r.1.cache == g.cache && r.1.mcp.Some? == g.mcp.Some?
    decreases |calls|
  {
    if calls == [] then ([], g)
    else
      var (results, g1) := ExecuteAll(g, calls[..|calls| - 1], decode, answer);
      var (last, g2) := ExecuteToolCall(g1, calls[|calls| - 1], decode, answer);
      (results + [last], g2)
  }

  /** One more call runs on the state the earlier calls left, and its result
      is appended. */
  lemma ExecuteAllStep(g: Gate, calls: seq<LocalTools.ToolCall>, i: nat,
                       decode: LocalTools.Decoder, answer: Answer)
    requires Valid(g) && i < |calls|
    ensures var before := ExecuteAll(g, calls[..i], decode, answer);
            var step := ExecuteToolCall(before.1, calls[i], decode, answer);
            ExecuteAll(g, calls[..i + 1], decode, answer) == (before.0 + [step.0], step.1)
  {
    assert calls[..i + 1][..i] == calls[..i];
  }

  /** Result i of a batch is that of call i on the state the calls before
      it left. */
  lemma {:induction false} ExecuteAllPerCall(g: Gate, calls: seq<LocalTools.ToolCall>,
                                             decode: LocalTools.Decoder, answer: Answer)
    requires Valid(g)
    ensures forall i :: 0 <= i < |calls| ==>
              ExecuteAll(g, calls, decode, answer).0[i]
              == ExecuteToolCall(ExecuteAll(g, calls[..i], decode, answer).1, calls[i], decode, answer).0
  {
    if calls != [] {
      var n := |calls| - 1;
      var init := calls[..n];
      ExecuteAllPerCall(g, init, decode, answer);
      ExecuteAllStep(g, calls, n, decode, answer);
      assert calls[..n + 1] == calls;
      forall i | 0 <= i < |calls|
        ensures ExecuteAll(g, calls, decode, answer).0[i]
                == ExecuteToolCall(ExecuteAll(g, calls[..i], decode, answer).1, calls[i], decode, answer).0
      {
        if i < n {
          assert init[..i] == calls[..i] && init[i] == calls[i];
        }
      }
    }
  }

  /** Without an MCP system a batch is the inherited batch of local calls,
      and it changes nothing. */
  lemma {:induction false} LocalBatch(g: Gate, calls: seq<LocalTools.ToolCall>,
                                      decode: LocalTools.Decoder, answer: Answer)
    requires Valid(g) && g.mcp.None?
    ensures ExecuteAll(g, calls, decode, answer) == (LocalTools.ExecuteAll(g.local.tools, calls, decode), g)
  {
    if calls != [] {
      LocalBatch(g, calls[..|calls| - 1], decode, answer);
    }
  }

  /** One cached tool matches a name when the name is its bare or its qualified name. */
  predicate Matches(info: ToolAdapter.ToolInfo, name: string) {
    info.toolName == name || ToolAdapter.QualifiedName(info.mcpName, info.toolName) == name
  }

  /** `is_mcp_tool`: the scan of the cache. */
  function IsMcpTool(cache: seq<ToolAdapter.ToolInfo>, name: string): bool {
    cache != [] && (Matches(cache[0], name) || IsMcpTool(cache[1..], name))
  }

  /** A name is an MCP tool exactly when some cached tool matches it. */
  lemma {:induction false} IsMcpToolIff(cache: seq<ToolAdapter.ToolInfo>, name: string)
    ensures IsMcpTool(cache, name) <==> exists k :: 0 <= k < |cache| && Matches(cache[k], name)
  {
    if cache != [] {
      IsMcpToolIff(cache[1..], name);
      if exists k :: 0 <= k < |cache| && Matches(cache[k], name) {
        var k :| 0 <= k < |cache| && Matches(cache[k], name);
        if k > 0 {
          assert cache[1..][k - 1] == cache[k];
        }
      }
      if IsMcpTool(cache[1..], name) && !Matches(cache[0], name) {
        var k :| 0 <= k < |cache[1..]| && Matches(cache[1..][k], name);
        assert cache[k + 1] == cache[1..][k];
      }
    }
  }

  /** After a refresh every tool of every listed server is published: its
      schema under the qualified name follows the local schemas, its
      description is cached, and it is recognised as an MCP tool by its
      bare name and by its qualified name. */
  lemma RefreshPublishesListedTools(g: Gate, i: int, j: int)
    requires Valid(g) && g.mcp.Some?
    requires var listing := ServerRegistry.ListAll(g.mcp.value).0; 0 <= i < |listing| && 0 <= j < |listing[i].tools|
    ensures var st := ServerRegistry.ListAll(g.mcp.value).0[i];
            && ToolAdapter.ConvertToOpenAiSchema(st.tools[j], st.server) in Refresh(g).local.schemas
            && ToolAdapter.ListedInfo(st.server, st.tools[j]) in Refresh(g).cache
            && IsMcpTool(Refresh(g).cache, st.tools[j].name)
            && IsMcpTool(Refresh(g).cache, ToolAdapter.QualifiedName(st.server, st.tools[j].name))
  {
    var listing := ServerRegistry.ListAll(g.mcp.value).0;
    var st := listing[i];
    var info := ToolAdapter.ListedInfo(st.server, st.tools[j]);
    var cache := Refresh(g).cache;
    RefreshSpec(g);
    RefreshPublishesSchema(g, i, j);
    ToolAdapter.InfosDescribeListing(listing);
    assert info in cache;
    var k :| 0 <= k < |cache| && cache[k] == info;
    assert Matches(cache[k], st.tools[j].name);
    assert Matches(cache[k], ToolAdapter.QualifiedName(st.server, st.tools[j].name));
    IsMcpToolIff(cache, st.tools[j].name);
    IsMcpToolIff(cache, ToolAdapter.QualifiedName(st.server, st.tools[j].name));
  }

  lemma RefreshPublishesSchema(g: Gate, i: int, j: int)
    requires Valid(g) && g.mcp.Some?
    requires var listing := ServerRegistry.ListAll(g.mcp.value).0; 0 <= i < |listing| && 0 <= j < |listing[i].tools|
    ensures var st := ServerRegistry.ListAll(g.mcp.value).0[i];
            ToolAdapter.ConvertToOpenAiSchema(st.tools[j], st.server) in Refresh(g).local.schemas
  {
    var listing := ServerRegistry.ListAll(g.mcp.value).0;
    ToolAdapter.FlattenMembers(listing, ToolAdapter.SchemaEntry);
    var x := ToolAdapter.SchemaEntry(listing[i].server, listing[i].tools[j]);
    assert x in ToolAdapter.Schemas(listing);
    assert x in LocalSchemas(g.local.order, g.local.tools) + ToolAdapter.Schemas(listing);
  }

  /** `is_local_tool`. */
  predicate IsLocalTool(g: Gate, name: string) {
    name in g.local.tools
  }

  /** `parse_tools_to_list`: the schema list itself (empty when there are none). */
  function ParseToolsToList(g: Gate): (r: seq<FunctionSchema>)
    ensures |r| == |g.local.schemas| && forall k :: 0 <= k < |r| ==> r[k] == g.local.schemas[k]
  {
    if g.local.schemas != [] then g.local.schemas else []
  }

  /** The dictionary `list_all_tools` returns. */
  datatype Summary = Summary(localTools: seq<string>, mcpTools: seq<ToolAdapter.ToolInfo>,
                             mcpServers: map<string, bool>, totalSchemas: nat)

  /** `list_all_tools`: the local names in registration order, a copy of the
      cache, the connection flag of each active server (all set, since only
      connected clients are kept) and the number of schemas. */
  function ListAllTools(g: Gate): (s: Summary)
    requires Valid(g)
    ensures s.localTools == g.local.order && s.mcpTools == g.cache && s.totalSchemas == |g.local.schemas|
    ensures forall n :: n in s.localTools <==> IsLocalTool(g, n)
    ensures g.mcp.None? ==> s.mcpServers == map[]
    ensures g.mcp.Some? ==> s.mcpServers.Keys == g.mcp.value.clients.Keys
    ensures forall n :: n in s.mcpServers ==> s.mcpServers[n]
  {
    var servers := if g.mcp.None? then map[]
                   else map n | n in g.mcp.value.clients :: g.mcp.value.clients[n].connected;
    Summary(g.local.order, g.cache, servers, |g.local.schemas|)
  }

  /** `get_mcp_server_status`: nothing without an MCP system, otherwise the
      manager's health check. */
  function GetMcpServerStatus(g: Gate): (r: (map<string, bool>, Gate))
    requires Valid(g)
    ensures Valid(r.1) && r.1.local == g.local && r.1.cache == g.cache
    ensures g.mcp.None? ==> r == (map[], g)
    ensures g.mcp.Some? ==>
              && r.0.Keys == g.mcp.value.clients.Keys
              && forall n :: n in g.mcp.value.clients ==>
                   (r.0[n] <==> g.mcp.value.clients[n].cache.Some? || g.mcp.value.clients[n].worker.catalogue.Ok?)
  {
    if g.mcp.None? then (map[], g)
    else
      ServerRegistry.HealthReportsEachServer(g.mcp.value);
      var (health, reg) := ServerRegistry.Health(g.mcp.value);
      (health, g.(mcp := Some(reg)))
  }

  /** `cleanup`: the MCP manager is emptied. The local functions, the schema
      list and the cache are left as they were. */
  function Cleanup(g: Gate): (r: Gate)
    ensures r.local == g.local && r.cache == g.cache && r.mcp.Some? == g.mcp.Some?
    ensures g.mcp.Some? ==> r.mcp.value == ServerRegistry.Empty()
    ensures Valid(g) ==> Valid(r)
  {
    if g.mcp.Some? then g.(mcp := Some(ServerRegistry.Empty())) else g
  }

  /** After a cleanup the cache still names the servers' tools, but a call
      of a qualified name that is not local now fails: no server is active. */
  lemma StaleCacheAfterCleanup(g: Gate, server: string, tool: string, call: LocalTools.ToolCall,
                               decode: LocalTools.Decoder, answer: Answer)
    requires Valid(g) && g.mcp.Some? && server != "" && '_' !in server
    requires call.name == ToolAdapter.QualifiedName(server, tool) && call.name !in g.local.tools
    requires LocalTools.ParseArguments(call.arguments, decode).Ok?
    ensures IsMcpTool(Cleanup(g).cache, call.name) == IsMcpTool(g.cache, call.name)
    ensures ExecuteToolCall(Cleanup(g), call, decode, answer).0
            == JStr("Error: " + ServerRegistry.NotActive(server))
  {
    var args := LocalTools.ParseArguments(call.arguments, decode).value;
    ToolAdapter.ExecuteQualified(Cleanup(g).mcp.value, server, tool, args, answer);
  }

  /** `add_mcp_server`: the MCP system is initialised if need be, the server
      is started, and only a successful start refreshes the schemas and the
      cache. */
  function AddMcpServer(g: Gate, name: string, command: string, args: seq<string>,
                        env: Option<map<string, string>>, worker: Worker): (r: (bool, Gate))
    requires Valid(g)
    ensures Valid(r.1) && r.1.mcp.Some?
    ensures r.1.local.order == g.local.order && r.1.local.tools == g.local.tools
  {
    var g1 := InitializeMcp(g).1;
    var (ok, reg) := ServerRegistry.Start(g1.mcp.value, name, command, args, env, worker);
    var g2 := g1.(mcp := Some(reg));
    if ok then (true, Refresh(g2)) else (false, g2)
  }

  /** An active name is reported as added and keeps its place; a new name is
      added, as the last active server, exactly when its process connects;
      a failed start leaves the local functions, the schemas and the cache
      as they were. */
  lemma AddMcpServerSpec(g: Gate, name: string, command: string, args: seq<string>,
                         env: Option<map<string, string>>, worker: Worker)
    requires Valid(g)
    ensures var r := AddMcpServer(g, name, command, args, env, worker);
            && (name in McpRegistry(g).clients ==> r.0 && r.1.mcp.value.order == McpRegistry(g).order)
            && (name !in McpRegistry(g).clients ==> (r.0 <==> worker.connect.Connects?))
            && (!r.0 ==> r.1.local == g.local && r.1.cache == g.cache
                         && r.1.mcp.value.order == McpRegistry(g).order)
            && (r.0 ==> name in r.1.mcp.value.clients)
            && (name !in McpRegistry(g).clients && r.0 ==> r.1.mcp.value.order == McpRegistry(g).order + [name])
  {
    var g1 := InitializeMcp(g).1;
    var (ok, reg) := ServerRegistry.Start(g1.mcp.value, name, command, args, env, worker);
    if ok {
      RefreshSpec(g1.(mcp := Some(reg)));
    }
  }

  /** A server that connects and answers its catalogue request is published
      by `add_mcp_server`: each of its tools gets a schema under its
      qualified name and a cache entry, and is recognised as an MCP tool. */
  lemma AddedServerIsPublished(g: Gate, name: string, command: string, args: seq<string>,
                               env: Option<map<string, string>>, worker: Worker, t: Tool)
    requires Valid(g) && name !in McpRegistry(g).clients
    requires worker.connect.Connects? && worker.catalogue.Ok? && t in worker.catalogue.value
    ensures var (ok, g') := AddMcpServer(g, name, command, args, env, worker);
            && ok
            && ToolAdapter.ConvertToOpenAiSchema(t, name) in g'.local.schemas
            && ToolAdapter.ListedInfo(name, t) in g'.cache
            && IsMcpTool(g'.cache, ToolAdapter.QualifiedName(name, t.name))
  {
    var g1 := InitializeMcp(g).1;
    var (ok, reg) := ServerRegistry.Start(g1.mcp.value, name, command, args, env, worker);
    var g2 := g1.(mcp := Some(reg));
    StartedServerIsListedLast(g1.mcp.value, name, command, args, env, worker);
    var i := |reg.order| - 1;
    var j :| 0 <= j < |worker.catalogue.value| && worker.catalogue.value[j] == t;
    RefreshPublishesListedTools(g2, i, j);
  }

  /** A server just started, which connects and answers its catalogue
      request, is listed last, with its catalogue. */
  lemma StartedServerIsListedLast(r: ServerRegistry.Registry, name: string, command: string, args: seq<string>,
                                  env: Option<map<string, string>>, worker: Worker)
    requires ServerRegistry.Valid(r) && name !in r.clients
    requires worker.connect.Connects? && worker.catalogue.Ok?
    ensures var (ok, reg) := ServerRegistry.Start(r, name, command, args, env, worker);
            && ok && reg.order != []
            && |ServerRegistry.ListAll(reg).0| == |reg.order|
            && ServerRegistry.ListAll(reg).0[|reg.order| - 1] == ServerRegistry.ServerTools(name, worker.catalogue.value)
  {
    var (ok, reg) := ServerRegistry.Start(r, name, command, args, env, worker);
    ServerRegistry.ListAllIsolatesFaults(reg);
    assert reg.order[|reg.order| - 1] == name;
  }

  /** An entry of the list given to `create_enhanced_tool_manager_with_servers`
      (`MCPServerConfig`, whose missing environment is `{}`), paired with
      the worker process its launch reaches. */
  datatype McpServerConfig = McpServerConfig(name: string, command: string, args: seq<string>, env: map<string, string>)

  /** `MCPServerConfig(name, command, args, env)`: the fields as given, a
      missing environment stored as `{}`. */
  function NewServerConfig(name: string, command: string, args: seq<string>,
                           env: Option<map<string, string>>): (c: McpServerConfig)
    ensures c.name == name && c.command == command && c.args == args
    ensures env.None? ==> c.env == map[]
    ensures env.Some? ==> c.env == env.value
  {
    McpServerConfig(name, command, args, OrEmpty(env))
  }

  /** The servers of a configuration list, in order. */
  function Names(servers: seq<(McpServerConfig, Worker)>): seq<string> {
    if servers == [] then [] else Names(servers[..|servers| - 1]) + [servers[|servers| - 1].0.name]
  }

  /** `add_mcp_server` for one configuration. */
  function Add(g: Gate, config: McpServerConfig, worker: Worker): (r: Gate)
    requires Valid(g)
    ensures Valid(r) && r.mcp.Some?
  {
    AddMcpServer(g, config.name, config.command, config.args, Some(config.env), worker).1
  }

  /** The loop of `create_enhanced_tool_manager_with_servers`: each server
      added in turn, its outcome ignored. */
  function AddAll(g: Gate, servers: seq<(McpServerConfig, Worker)>): (r: Gate)
    requires Valid(g)
    ensures Valid(r)
    ensures g.mcp.Some? ==> r.mcp.Some?
  {
    if servers == [] then g
    else
      var last := servers[|servers| - 1];
      Add(AddAll(g, servers[..|servers| - 1]), last.0, last.1)
  }

  /** `create_enhanced_tool_manager_with_servers`: a new manager, its MCP
      system initialised, then each server added. */
  function CreateWithServers(servers: seq<(McpServerConfig, Worker)>): (g: Gate)
    ensures Valid(g) && g.mcp.Some?
    ensures g.local.order == [] && g.local.tools == map[]
  {
    AddAllKeepsLocal(InitializeMcp(Fresh()).1, servers);
    AddAll(InitializeMcp(Fresh()).1, servers)
  }

  lemma {:induction false} AddAllKeepsLocal(g: Gate, servers: seq<(McpServerConfig, Worker)>)
    requires Valid(g)
    ensures AddAll(g, servers).local.order == g.local.order && AddAll(g, servers).local.tools == g.local.tools
  {
    if servers != [] {
      AddAllKeepsLocal(g, servers[..|servers| - 1]);
    }
  }

  /** Adding servers with distinct new names whose processes all connect
      activates them all, appended in the list's order. */
  lemma {:induction false} AddAllActivates(g: Gate, servers: seq<(McpServerConfig, Worker)>)
    requires Valid(g) && g.mcp.Some?
    requires forall a, b :: 0 <= a < b < |servers| ==> servers[a].0.name != servers[b].0.name
    requires forall k :: 0 <= k < |servers| ==> servers[k].1.connect.Connects? && servers[k].0.name !in g.mcp.value.clients
    ensures AddAll(g, servers).mcp.value.order == g.mcp.value.order + Names(servers)
  {
    if servers != [] {
      var n := |servers| - 1;
      var init := servers[..n];
      var last := servers[n];
      InitFacts(g, servers);
      AddAllActivates(g, init);
      AddAllStep(g, servers);
    }
  }

  /** The induction step of `AddAllActivates`: the last server is appended
      behind the ones added before it. */
  lemma AddAllStep(g: Gate, servers: seq<(McpServerConfig, Worker)>)
    requires Valid(g) && g.mcp.Some? && servers != []
    requires var init := servers[..|servers| - 1];
             && AddAll(g, init).mcp.Some?
             && AddAll(g, init).mcp.value.order == g.mcp.value.order + Names(init)
             && (forall k :: 0 <= k < |init| ==> init[k].0.name != servers[|servers| - 1].0.name)
             && servers[|servers| - 1].0.name !in g.mcp.value.clients
             && servers[|servers| - 1].1.connect.Connects?
    ensures AddAll(g, servers).mcp.value.order == g.mcp.value.order + Names(servers)
  {
    var n := |servers| - 1;
    var last := servers[n];
    NotInNames(servers[..n], last.0.name);
    assert last.0.name !in g.mcp.value.order;
    AddAllLast(g, servers);
    NamesLast(servers);
    AddAppends(AddAll(g, servers[..n]), g.mcp.value.order, Names(servers[..n]), last.0, last.1);
  }

  /** Adding a server that connects, under a name found neither in `o` nor
      in `added`, to a manager whose servers are `o + added`, appends it. */
  lemma AddAppends(g: Gate, o: seq<string>, added: seq<string>, config: McpServerConfig, worker: Worker)
    requires Valid(g) && g.mcp.Some? && g.mcp.value.order == o + added
    requires config.name !in o && config.name !in added && worker.connect.Connects?
    ensures Add(g, config, worker).mcp.value.order == o + (added + [config.name])
  {
    assert config.name !in g.mcp.value.order;
    AddActivates(g, config, worker);
    assert (o + added) + [config.name] == o + (added + [config.name]);
  }

  lemma AddAllLast(g: Gate, servers: seq<(McpServerConfig, Worker)>)
    requires Valid(g) && servers != []
    ensures AddAll(g, servers) == Add(AddAll(g, servers[..|servers| - 1]), servers[|servers| - 1].0, servers[|servers| - 1].1)
  {
  }

  lemma NamesLast(servers: seq<(McpServerConfig, Worker)>)
    requires servers != []
    ensures Names(servers) == Names(servers[..|servers| - 1]) + [servers[|servers| - 1].0.name]
  {
  }

  /** The conditions of `AddAllActivates` hold for every prefix of the list,
      and its last name is not among the earlier ones. */
  lemma InitFacts(g: Gate, servers: seq<(McpServerConfig, Worker)>)
    requires g.mcp.Some? && servers != []
    requires forall a, b :: 0 <= a < b < |servers| ==> servers[a].0.name != servers[b].0.name
    requires forall k :: 0 <= k < |servers| ==> servers[k].1.connect.Connects? && servers[k].0.name !in g.mcp.value.clients
    ensures var init := servers[..|servers| - 1];
            && (forall a, b :: 0 <= a < b < |init| ==> init[a].0.name != init[b].0.name)
            && (forall k :: 0 <= k < |init| ==> init[k].1.connect.Connects? && init[k].0.name !in g.mcp.value.clients)
            && (forall k :: 0 <= k < |init| ==> init[k].0.name != servers[|servers| - 1].0.name)
            && servers[|servers| - 1].0.name !in g.mcp.value.clients
            && servers[|servers| - 1].1.connect.Connects?
  {
  }

  lemma NotInNames(servers: seq<(McpServerConfig, Worker)>, name: string)
    requires forall a :: 0 <= a < |servers| ==> servers[a].0.name != name
    ensures name !in Names(servers)
  {
    NamesOf(servers);
  }

  /** One more server that connects, under a name not yet active, is appended. */
  lemma AddActivates(g: Gate, config: McpServerConfig, worker: Worker)
    requires Valid(g) && g.mcp.Some? && config.name !in g.mcp.value.clients && worker.connect.Connects?
    ensures Add(g, config, worker).mcp.value.order == g.mcp.value.order + [config.name]
  {
    AddMcpServerSpec(g, config.name, config.command, config.args, Some(config.env), worker);
  }

  lemma {:induction false} NamesOf(servers: seq<(McpServerConfig, Worker)>)
    ensures |Names(servers)| == |servers|
    ensures forall k :: 0 <= k < |servers| ==> Names(servers)[k] == servers[k].0.name
  {
    if servers != [] {
      NamesOf(servers[..|servers| - 1]);
    }
  }

  /** A new manager created with distinct servers that all connect has
      exactly those servers active, in the list's order. */
  lemma CreateActivatesEachServer(servers: seq<(McpServerConfig, Worker)>)
    requires forall a, b :: 0 <= a < b < |servers| ==> servers[a].0.name != servers[b].0.name
    requires forall k :: 0 <= k < |servers| ==> servers[k].1.connect.Connects?
    ensures CreateWithServers(servers).mcp.value.order == Names(servers)
  {
    AddAllActivates(InitializeMcp(Fresh()).1, servers);
  }
}

/** The `EnhancedToolManager` object: the inherited `ToolManager` part, the
    MCP manager and adapter that `initialize_mcp` creates, and the cache,
    updated in place as the `Gateway` functions say. */
module EnhancedManager {
  import opened Values
  import opened Protocol
  import ServerRegistry
  import ToolAdapter
  import LocalTools
  import LocalToolManager
  import McpManager
  import LlmgineAdapter
  import Gateway

  class EnhancedToolManager {
    /** The inherited `ToolManager` state. */
    const base: LocalToolManager.ToolManager
    var mcpManager: McpManager.MCPManager?
    var toolAdapter: LlmgineAdapter.LLMgineToolAdapter?
    var mcpInitialized: bool
    var mcpToolsCache: seq<ToolAdapter.ToolInfo>

    ghost function State(): Gateway.Gate
      reads this, base, mcpManager
    {
      Gateway.Gate(base.View(), if mcpManager == null then None else Some(mcpManager.model), mcpToolsCache)
    }

    /** The flag, the manager and the adapter exist together, the adapter
        works on this manager, and both parts are well formed. */
    ghost predicate Valid()
      reads this, base, mcpManager, if mcpManager == null then {} else mcpManager.clients.Values
      ensures Valid() ==> Gateway.Valid(State())
    {
      && base.Valid()
      && (mcpInitialized <==> mcpManager != null)
      && (toolAdapter != null <==> mcpManager != null)
      && (toolAdapter != null ==> toolAdapter.manager == mcpManager)
      && (mcpManager != null ==> mcpManager.Valid())
    }

    constructor ()
      ensures Valid() && State() == Gateway.Fresh()
      ensures fresh(base) && mcpManager == null
    {
      base := new LocalToolManager.ToolManager();
      mcpManager := null;
      toolAdapter := null;
      mcpInitialized := false;
      mcpToolsCache := [];
    }

    method InitializeMcp() returns (ok: bool)
      requires Valid()
      modifies this
      ensures Valid() && (ok, State()) == Gateway.InitializeMcp(old(State()))
      ensures mcpManager != null
      ensures old(mcpManager) != null ==> mcpManager == old(mcpManager)
      ensures old(mcpInitialized) ==> toolAdapter == old(toolAdapter)
      ensures old(mcpManager) == null ==> fresh(mcpManager) && mcpManager.clients == map[]
      ensures old(mcpManager) == null ==> fresh(toolAdapter) && toolAdapter.manager == mcpManager
    {
      if mcpInitialized {
        return true;
      }
      var manager := new McpManager.MCPManager();
      mcpManager := manager;
      toolAdapter := new LlmgineAdapter.LLMgineToolAdapter(manager);
      mcpInitialized := true;
      ok := true;
    }

    /** `add_mcp_server`. */
    method AddMcpServer(name: string, command: string, args: seq<string>,
                        env: Option<map<string, string>>, worker: Worker) returns (ok: bool)
      requires Valid()
      modifies this, base, mcpManager, if mcpManager == null then {} else mcpManager.clients.Values
      ensures Valid() && (ok, State()) == Gateway.AddMcpServer(old(State()), name, command, args, env, worker)
      ensures base.mcpClients == old(base.mcpClients) && base.mcpOrder == old(base.mcpOrder)
      ensures mcpManager != null
      ensures old(mcpManager) != null ==> mcpManager == old(mcpManager)
      ensures old(mcpManager) == null ==> fresh(mcpManager)
      ensures forall c :: c in mcpManager.clients.Values ==>
                fresh(c) || (old(mcpManager) != null && c in old(mcpManager.clients.Values))
    {
      ghost var initialized := Gateway.InitializeMcp(State()).1;
      if !mcpInitialized {
        var _ := InitializeMcp();
      }
      assert State() == initialized;
      ok := StartServer(name, command, args, env, worker);
    }

    /** The loop of `create_enhanced_tool_manager_with_servers`: each server
        added in turn, its outcome ignored. */
    method AddServers(servers: seq<(Gateway.McpServerConfig, Worker)>)
      requires Valid() && mcpManager != null
      modifies this, base, mcpManager, mcpManager.clients.Values
      ensures Valid() && State() == Gateway.AddAll(old(State()), servers)
      ensures mcpManager == old(mcpManager)
    {
      ghost var start := State();
      ghost var known := mcpManager.clients.Values;
      var i := 0;
      while i < |servers|
        invariant 0 <= i <= |servers|
        invariant Valid() && mcpManager == old(mcpManager)
        invariant forall c :: c in mcpManager.clients.Values ==> fresh(c) || c in known
        invariant Gateway.Valid(start) && State() == Gateway.AddAll(start, servers[..i])
      {
        Gateway.AddAllLast(start, servers[..i + 1]);
        assert servers[..i + 1][..i] == servers[..i];
        AddConfigured(servers[i].0, servers[i].1);
        i := i + 1;
      }
      assert servers[..i] == servers;
    }

    /** One server of `create_enhanced_tool_manager_with_servers` added to
        an initialised manager, its outcome ignored. */
    method AddConfigured(config: Gateway.McpServerConfig, worker: Worker)
      requires Valid() && mcpManager != null
      modifies this, base, mcpManager, mcpManager.clients.Values
      ensures Valid() && State() == Gateway.Add(old(State()), config, worker)
      ensures mcpManager == old(mcpManager)
      ensures forall c :: c in mcpManager.clients.Values ==> fresh(c) || c in old(mcpManager.clients.Values)
    {
      var _ := AddMcpServer(config.name, config.command, config.args, Some(config.env), worker);
    }

    /** The part of `add_mcp_server` after initialisation: the start, and a
        refresh when it succeeded. */
    method StartServer(name: string, command: string, args: seq<string>,
                       env: Option<map<string, string>>, worker: Worker) returns (ok: bool)
      requires Valid() && mcpManager != null
      modifies this, base, mcpManager, mcpManager.clients.Values
      ensures Valid() && mcpManager == old(mcpManager)
      ensures base.mcpClients == old(base.mcpClients) && base.mcpOrder == old(base.mcpOrder)
      ensures var (started, reg) := ServerRegistry.Start(old(mcpManager.model), name, command, args, env, worker);
              var g := old(State()).(mcp := Some(reg));
              ok == started && State() == if ok then Gateway.Refresh(g) else g
      ensures forall c :: c in mcpManager.clients.Values ==> fresh(c) || c in old(mcpManager.clients.Values)
    {
      ok := mcpManager.StartMcp(name, command, args, env, worker);
      if ok {
        RefreshMcpTools();
      }
    }

    /** `_refresh_mcp_tools`. */
    method RefreshMcpTools()
      requires Valid()
      modifies this, base, mcpManager, if mcpManager == null then {} else mcpManager.clients.Values
      ensures Valid() && State() == Gateway.Refresh(old(State()))
      ensures mcpManager == old(mcpManager) && (mcpManager != null ==> mcpManager.clients == old(mcpManager.clients))
      ensures base.mcpClients == old(base.mcpClients) && base.mcpOrder == old(base.mcpOrder)
    {
      if toolAdapter == null {
        return;
      }
      ghost var before := mcpManager.model;
      PublishSchemas();
      ServerRegistry.ListAllTwice(before);
      CacheTools();
    }

    /** The first half of `_refresh_mcp_tools`: the schema list becomes the
        local schemas followed by the adapter's MCP schemas. */
    method PublishSchemas()
      requires Valid() && toolAdapter != null
      modifies base, mcpManager, mcpManager.clients.Values
      ensures Valid() && mcpManager == old(mcpManager) && mcpManager.clients == old(mcpManager.clients)
      ensures mcpManager.model == ServerRegistry.ListAll(old(mcpManager.model)).1
      ensures base.View() == old(base.View()).(schemas := Gateway.LocalSchemas(base.toolOrder, base.tools)
                                                           + ToolAdapter.Schemas(ServerRegistry.ListAll(old(mcpManager.model)).0))
      ensures base.mcpClients == old(base.mcpClients) && base.mcpOrder == old(base.mcpOrder)
      ensures mcpToolsCache == old(mcpToolsCache)
    {
      var mcpSchemas := McpSchemas();
      var local := GetLocalSchemas(base.toolOrder, base.tools);
      base.SetSchemas(local + mcpSchemas);
      assert mcpManager.Valid();
    }

    /** The adapter's schemas of the MCP tools, listed afresh. */
    method McpSchemas() returns (schemas: seq<FunctionSchema>)
      requires Valid() && toolAdapter != null
      modifies mcpManager, mcpManager.clients.Values
      ensures Valid() && mcpManager == old(mcpManager) && mcpManager.clients == old(mcpManager.clients)
      ensures mcpManager.model == ServerRegistry.ListAll(old(mcpManager.model)).1
      ensures schemas == ToolAdapter.Schemas(ServerRegistry.ListAll(old(mcpManager.model)).0)
    {
      schemas := toolAdapter.GetAllOpenAiSchemas();
    }

    /** The second half of `_refresh_mcp_tools`: the cache becomes the
        adapter's descriptions of the MCP tools. */
    method CacheTools()
      requires Valid() && toolAdapter != null
      modifies this, mcpManager, mcpManager.clients.Values
      ensures Valid() && mcpManager == old(mcpManager) && mcpManager.clients == old(mcpManager.clients)
      ensures mcpManager.model == ServerRegistry.ListAll(old(mcpManager.model)).1
      ensures mcpToolsCache == ToolAdapter.Infos(ServerRegistry.ListAll(old(mcpManager.model)).0)
    {
      var infos := toolAdapter.ListAvailableTools();
      mcpToolsCache := infos;
    }

    /** `_get_local_schemas`: the loop over the registered functions. */
    static method GetLocalSchemas(order: seq<string>, tools: map<string, LocalTools.LocalTool>)
      returns (schemas: seq<FunctionSchema>)
      requires forall k :: 0 <= k < |order| ==> order[k] in tools
      ensures schemas == Gateway.LocalSchemas(order, tools)
    {
      schemas := [];
      var i := 0;
      while i < |order|
        invariant 0 <= i <= |order|
        invariant schemas == Gateway.LocalSchemas(order[..i], tools)
      {
        Gateway.LocalSchemasStep(order, tools, i);
        var schema := LocalToolManager.ToolManager.GenerateToolSchema(tools[order[i]]);
        schemas := schemas + [schema];
        i := i + 1;
      }
      assert order[..i] == order;
    }

    /** `register_tool`: the inherited registration. */
    method RegisterTool(tool: LocalTools.LocalTool)
      requires Valid()
      modifies base
      ensures Valid() && State() == old(State()).(local := LocalTools.Register(old(State()).local, tool))
    {
      base.RegisterTool(tool);
    }

    /** `execute_tool_call`. */
    method ExecuteToolCall(call: LocalTools.ToolCall, decode: LocalTools.Decoder, answer: Answer) returns (r: Json)
      requires Valid()
      modifies mcpManager, if mcpManager == null then {} else mcpManager.clients.Values
      ensures Valid() && (r, State()) == Gateway.ExecuteToolCall(old(State()), call, decode, answer)
      ensures mcpManager != null ==> mcpManager.clients == old(mcpManager.clients)
    {
      if call.name in base.tools {
        return base.ExecuteToolCall(call, decode);
      }
      if mcpInitialized && toolAdapter != null {
        r := ExecuteMcpTool(call, decode, answer);
        return;
      }
      r := JStr(LocalTools.ToolNotFound(call.name));
    }

    /** `execute_tool_calls`: each call dispatched in turn, in order. */
    method ExecuteToolCalls(calls: seq<LocalTools.ToolCall>, decode: LocalTools.Decoder, answer: Answer)
      returns (results: seq<Json>)
      requires Valid()
      modifies mcpManager, if mcpManager == null then {} else mcpManager.clients.Values
      ensures Valid() && (results, State()) == Gateway.ExecuteAll(old(State()), calls, decode, answer)
    {
      results := [];
      var i := 0;
      while i < |calls|
        invariant 0 <= i <= |calls| && Valid()
        invariant mcpManager != null ==> mcpManager.clients == old(mcpManager.clients)
        invariant (results, State()) == Gateway.ExecuteAll(old(State()), calls[..i], decode, answer)
      {
        Gateway.ExecuteAllStep(old(State()), calls, i, decode, answer);
        var r := ExecuteToolCall(calls[i], decode, answer);
        results := results + [r];
        i := i + 1;
      }
      assert calls[..|calls|] == calls;
    }

    /** `_execute_mcp_tool`. */
    method ExecuteMcpTool(call: LocalTools.ToolCall, decode: LocalTools.Decoder, answer: Answer) returns (r: Json)
      requires Valid()
      modifies mcpManager, if mcpManager == null then {} else mcpManager.clients.Values
      ensures Valid() && (r, State()) == Gateway.ExecuteMcpTool(old(State()), call, decode, answer)
      ensures mcpManager != null ==> mcpManager.clients == old(mcpManager.clients)
    {
      if toolAdapter == null {
        return JStr(Gateway.McpNotInitialized);
      }
      var parsed := LocalTools.ParseArguments(call.arguments, decode);
      if parsed.Raises? {
        return JStr(Gateway.McpExecutionError(call.name, parsed.msg));
      }
      var e := toolAdapter.ExecuteTool(call.name, parsed.value, answer);
      r := JStr(Gateway.McpText(e));
    }

    function ParseToolsToList(): (r: seq<FunctionSchema>)
      reads this, base, mcpManager
      ensures r == Gateway.ParseToolsToList(State())
    {
      if base.toolSchemas != [] then base.toolSchemas else []
    }

    /** `list_all_tools`. */
    function ListAllTools(): (s: Gateway.Summary)
      reads this, base, mcpManager, if mcpManager == null then {} else mcpManager.clients.Values
      requires Valid()
      ensures s == Gateway.ListAllTools(State())
    {
      var servers := if mcpManager == null then map[]
                     else map n | n in mcpManager.clients :: mcpManager.clients[n].IsConnected();
      Gateway.Summary(base.toolOrder, mcpToolsCache, servers, |base.toolSchemas|)
    }

    /** `get_mcp_server_status`. */
    method GetMcpServerStatus() returns (status: map<string, bool>)
      requires Valid()
      modifies mcpManager, if mcpManager == null then {} else mcpManager.clients.Values
      ensures Valid() && (status, State()) == Gateway.GetMcpServerStatus(old(State()))
    {
      if mcpManager == null {
        return map[];
      }
      status := mcpManager.HealthCheck();
    }

    /** `is_mcp_tool`: some cached tool has the name as its bare or its
        qualified name. */
    function IsMcpTool(name: string): (b: bool)
      reads this
      ensures b == Gateway.IsMcpTool(mcpToolsCache, name)
    {
      Gateway.IsMcpToolIff(mcpToolsCache, name);
      exists k :: 0 <= k < |mcpToolsCache| && Gateway.Matches(mcpToolsCache[k], name)
    }

    function IsLocalTool(name: string): (b: bool)
      reads this, base, mcpManager
      ensures b == Gateway.IsLocalTool(State(), name)
    {
      name in base.tools
    }

    /** `cleanup`: the MCP manager's cleanup, when there is a manager. */
    method Cleanup()
      requires Valid()
      modifies mcpManager, if mcpManager == null then {} else mcpManager.clients.Values
      ensures Valid() && State() == Gateway.Cleanup(old(State()))
    {
      if mcpManager != null {
        mcpManager.Cleanup();
      }
    }
  }

  /** `create_enhanced_tool_manager_with_servers`. */
  method CreateWithServers(servers: seq<(Gateway.McpServerConfig, Worker)>) returns (m: EnhancedToolManager)
    ensures fresh(m) && m.Valid() && m.State() == Gateway.CreateWithServers(servers)
  {
    m := new EnhancedToolManager();
    var _ := m.InitializeMcp();
    m.AddServers(servers);
  }
}
