/** The bridge from the registry to a function-calling language model
    (`LLMgineToolAdapter`) as values: qualified tool names, the tool
    descriptions and schemas it publishes, and the dictionaries it returns
    for a tool call. */
module ToolAdapter {
  import opened Values
  import opened Protocol
  import Text
  import Connection
  import ServerRegistry

  /** The public name of tool `tool` of server `server`: `f"{server}_{tool}"`. */
  function QualifiedName(server: string, tool: string): string {
    server + "_" + tool
  }

  /** `parse_tool_name`: a name without `_` is an unqualified tool name (the
      server part is empty); otherwise the name is split at its first `_`. */
  function ParseToolName(full: string): (parts: (string, string))
    ensures '_' !in full ==> parts == ("", full)
    ensures '_' in full ==> '_' !in parts.0 && parts.0 + "_" + parts.1 == full
  {
    Text.FindChar(full, '_');
    var k := Text.Find(full, "_", 0);
    if k == -1 then ("", full)
    else
      assert full == full[..k] + "_" + full[k + 1..];
      (full[..k], full[k + 1..])
  }

  /** Splitting a qualified name gives back the server and the tool
      whenever the server's name has no `_` (the tool's name may). */
  lemma ParseQualified(server: string, tool: string)
    requires '_' !in server
    ensures ParseToolName(QualifiedName(server, tool)) == (server, tool)
  {
    var full := QualifiedName(server, tool);
    assert full[|server|] == '_';
    var (s, t) := ParseToolName(full);
    assert |s| == |server| by {
      assert full[|s|] == '_';
    }
    assert s == full[..|s|] == server;
    assert t == full[|s| + 1..] == tool;
  }

  /** A server whose name contains `_` cannot be reached by its qualified
      tool names: the split always lands inside the server's name. */
  lemma UnderscoredServerIsMisparsed(server: string, tool: string)
    requires '_' in server
    ensures ParseToolName(QualifiedName(server, tool)).0 != server
  {
  }

  /** For instance, tool `add` of server `my_server` is sought as tool
      `server_add` of server `my`. */
  lemma MisparsedExample()
    ensures ParseToolName(QualifiedName("my_server", "add")) == ("my", "server_add")
  {
    assert QualifiedName("my_server", "add") == QualifiedName("my", "server_add");
    assert '_' !in "my" by {
      assert "my"[0] == 'm' && "my"[1] == 'y';
    }
    ParseQualified("my", "server_add");
  }

  /** The description used for a tool that has none (or an empty one). */
  function DefaultDescription(tool: string, server: string): string {
    "Tool " + tool + " from " + server
  }

  /** `convert_mcp_tool_to_openai_schema`: the qualified name, the tool's
      description or the default one, its input schema or an empty one. */
  function ConvertToOpenAiSchema(tool: Tool, server: string): (s: FunctionSchema)
    ensures s.kind == "function" && s.name == QualifiedName(server, tool.name)
    ensures s.description == StrOr(tool.description, DefaultDescription(tool.name, server))
    ensures s.parameters == JsonOr(tool.inputSchema, EmptyParameters())
  {
    FunctionSchema("function", QualifiedName(server, tool.name),
                   StrOr(tool.description, DefaultDescription(tool.name, server)),
                   JsonOr(tool.inputSchema, EmptyParameters()))
  }

  /** The dictionary describing one tool: `{mcp_name, tool_name,
      description, input_schema, available}`. */
  datatype ToolInfo = ToolInfo(mcpName: string, toolName: string, description: Option<string>,
                               inputSchema: Json, available: bool)

  /** The entry `list_available_tools` makes for tool `tool` of `server`. */
  function ListedInfo(server: string, tool: Tool): ToolInfo {
    ToolInfo(server, tool.name, Some(StrOr(tool.description, DefaultDescription(tool.name, server))),
             tool.inputSchema, true)
  }

  /** The entry `get_all_openai_schemas` makes for tool `tool` of `server`. */
  function SchemaEntry(server: string, tool: Tool): FunctionSchema {
    ConvertToOpenAiSchema(tool, server)
  }

  /** One entry per tool of `tools`, in order. */
  function Row<T>(server: string, tools: seq<Tool>, f: (string, Tool) -> T): (row: seq<T>)
    ensures |row| == |tools|
  {
    if tools == [] then []
    else Row(server, tools[..|tools| - 1], f) + [f(server, tools[|tools| - 1])]
  }

  /** The nested loop over a listing: one entry per tool of each server, the
      servers in the listing's order and each server's tools in its order. */
  function Flatten<T>(listing: seq<ServerRegistry.ServerTools>, f: (string, Tool) -> T): seq<T> {
    if listing == [] then []
    else
      var last := listing[|listing| - 1];
      Flatten(listing[..|listing| - 1], f) + Row(last.server, last.tools, f)
  }

  lemma {:induction false} RowIndex<T>(server: string, tools: seq<Tool>, f: (string, Tool) -> T)
    ensures forall j :: 0 <= j < |tools| ==> Row(server, tools, f)[j] == f(server, tools[j])
  {
    if tools != [] {
      RowIndex(server, tools[..|tools| - 1], f);
    }
  }

  /** Flattening distributes over concatenation of listings. */
  lemma {:induction false} FlattenAppend<T>(a: seq<ServerRegistry.ServerTools>, b: seq<ServerRegistry.ServerTools>,
                                            f: (string, Tool) -> T)
    ensures Flatten(a + b, f) == Flatten(a, f) + Flatten(b, f)
    decreases |b|
  {
    if b == [] {
      assert a + b == a;
    } else {
      var init := b[..|b| - 1];
      var last := b[|b| - 1];
      assert (a + b)[..|a + b| - 1] == a + init;
      assert (a + b)[|a + b| - 1] == last;
      FlattenAppend(a, init, f);
      assert Flatten(b, f) == Flatten(init, f) + Row(last.server, last.tools, f);
    }
  }

  /** A one-server listing flattens to that server's row. */
  lemma FlattenOne<T>(st: ServerRegistry.ServerTools, f: (string, Tool) -> T)
    ensures Flatten([st], f) == Row(st.server, st.tools, f)
  {
    assert [st][..0] == [];
  }

  /** Every entry comes from some tool of some server of the listing, and
      every tool of every server has its entry. */
  lemma {:induction false} FlattenMembers<T>(listing: seq<ServerRegistry.ServerTools>, f: (string, Tool) -> T)
    ensures forall x :: x in Flatten(listing, f) ==>
              exists i, j :: 0 <= i < |listing| && 0 <= j < |listing[i].tools| && x == f(listing[i].server, listing[i].tools[j])
    ensures forall i, j :: 0 <= i < |listing| && 0 <= j < |listing[i].tools| ==>
              f(listing[i].server, listing[i].tools[j]) in Flatten(listing, f)
  {
    if listing != [] {
      var n := |listing| - 1;
      var init := listing[..n];
      var last := listing[n];
      FlattenMembers(init, f);
      RowIndex(last.server, last.tools, f);
      var row := Row(last.server, last.tools, f);
      forall x | x in Flatten(listing, f)
        ensures exists i, j :: 0 <= i < |listing| && 0 <= j < |listing[i].tools| && x == f(listing[i].server, listing[i].tools[j])
      {
        if x in Flatten(init, f) {
          var i, j :| 0 <= i < |init| && 0 <= j < |init[i].tools| && x == f(init[i].server, init[i].tools[j]);
          assert listing[i] == init[i];
        } else {
          var j :| 0 <= j < |row| && row[j] == x;
          assert x == f(listing[n].server, listing[n].tools[j]);
        }
      }
      forall i, j | 0 <= i < |listing| && 0 <= j < |listing[i].tools|
        ensures f(listing[i].server, listing[i].tools[j]) in Flatten(listing, f)
      {
        if i < n {
          assert listing[i] == init[i];
        } else {
          assert row[j] == f(listing[i].server, listing[i].tools[j]);
        }
      }
    }
  }

  /** `list_available_tools`' result for a listing. */
  function Infos(listing: seq<ServerRegistry.ServerTools>): seq<ToolInfo> {
    Flatten(listing, ListedInfo)
  }

  /** `get_all_openai_schemas`' result for a listing. */
  function Schemas(listing: seq<ServerRegistry.ServerTools>): seq<FunctionSchema> {
    Flatten(listing, SchemaEntry)
  }

  /** Every published description is available, carries a description, and
      names one of the listing's servers and one of that server's tools. */
  lemma InfosDescribeListing(listing: seq<ServerRegistry.ServerTools>)
    ensures forall x :: x in Infos(listing) ==>
              x.available && x.description.Some? &&
              exists i, j :: 0 <= i < |listing| && 0 <= j < |listing[i].tools|
                             && x.mcpName == listing[i].server && x.toolName == listing[i].tools[j].name
    ensures forall i, j :: 0 <= i < |listing| && 0 <= j < |listing[i].tools| ==>
              ListedInfo(listing[i].server, listing[i].tools[j]) in Infos(listing)
  {
    FlattenMembers(listing, ListedInfo);
  }

  /** The two publications agree entry by entry: the k-th schema is named by
      qualifying the k-th description's tool with its server, and both carry
      the same description. */
  lemma {:induction false} SchemasMatchInfos(listing: seq<ServerRegistry.ServerTools>)
    ensures |Schemas(listing)| == |Infos(listing)|
    ensures forall k :: 0 <= k < |Schemas(listing)| ==>
              Schemas(listing)[k].name == QualifiedName(Infos(listing)[k].mcpName, Infos(listing)[k].toolName)
              && Infos(listing)[k].description == Some(Schemas(listing)[k].description)
  {
    if listing != [] {
      var n := |listing| - 1;
      SchemasMatchInfos(listing[..n]);
      RowIndex(listing[n].server, listing[n].tools, ListedInfo);
      RowIndex(listing[n].server, listing[n].tools, SchemaEntry);
    }
  }

  /** The dictionary returned for a tool call: a formatted result
      `{success, result, server_name, tool_name}`, or `{success: False,
      result: None, error}`. */
  datatype ExecResult =
    | Formatted(success: bool, result: string, serverName: string, toolName: string)
    | Failed(error: string)

  /** The text of one content item: its `text`, or its `str()`. */
  function ItemText(c: Content): string {
    match c
    case TextContent(t) => t
    case OtherContent(s) => s
  }

  /** The texts of a result's content items, in order. */
  function ItemTexts(content: seq<Content>): (texts: seq<string>)
    ensures |texts| == |content|
    ensures forall k :: 0 <= k < |content| ==> texts[k] == ItemText(content[k])
  {
    if content == [] then [] else ItemTexts(content[..|content| - 1]) + [ItemText(content[|content| - 1])]
  }

  /** The text reported for a call that returned no content. */
  const NoContent: string := "Tool executed successfully (no content returned)"

  /** `_format_tool_result`. The source's `"No result"` text for an empty
      list of texts is kept, though it is never produced. */
  function FormatResult(result: Option<CallToolResult>, server: string, tool: string): (e: ExecResult)
    ensures e.Formatted? && e.serverName == server && e.toolName == tool
  {
    if result.Some? && result.value.content != [] then
      var texts := ItemTexts(result.value.content);
      Formatted(!result.value.isError, if texts != [] then Text.Join("\n", texts) else "No result", server, tool)
    else Formatted(true, NoContent, server, tool)
  }

  /** A formatted result always names the server and tool it was given; a
      call without content succeeds with the fixed text; otherwise success
      is the negated error flag and the text is the items' texts joined by
      newlines — never the "No result" text. */
  lemma FormatResultMeaning(result: Option<CallToolResult>, server: string, tool: string)
    ensures FormatResult(result, server, tool).Formatted?
    ensures FormatResult(result, server, tool).serverName == server
    ensures FormatResult(result, server, tool).toolName == tool
    ensures (result.None? || result.value.content == []) ==>
              FormatResult(result, server, tool).success && FormatResult(result, server, tool).result == NoContent
    ensures result.Some? && result.value.content != [] ==>
              FormatResult(result, server, tool).success == !result.value.isError
              && FormatResult(result, server, tool).result == Text.Join("\n", ItemTexts(result.value.content))
  {
  }

  /** A call's outcome as the result dictionary: an exception becomes a
      failure carrying its text. */
  function Outcome(res: Fallible<Option<CallToolResult>>, server: string, tool: string): (e: ExecResult)
    ensures res.Raises? ==> e == Failed(res.msg)
    ensures res.Ok? ==> e == FormatResult(res.value, server, tool)
  {
    match res
    case Raises(m) => Failed(m)
    case Ok(v) => FormatResult(v, server, tool)
  }

  /** `execute_tool`: a qualified name goes to the named server's
      `call_mcp`, an unqualified one to `call_any_mcp`; the result is
      formatted with the parsed names, and any exception becomes a failure. */
  function ExecuteTool(r: ServerRegistry.Registry, full: string, arguments: Json, answer: Answer)
    : (res: (ExecResult, ServerRegistry.Registry))
    requires ServerRegistry.Valid(r)
    ensures ServerRegistry.Valid(res.1)
  {
    var (server, tool) := ParseToolName(full);
    if server != "" then
      (Outcome(ServerRegistry.CallMcp(r, server, tool, arguments, answer), server, tool), r)
    else
      var (res, r') := ServerRegistry.CallAnyMcp(r, tool, arguments, answer);
      (Outcome(res, server, tool), r')
  }

  /** A qualified name of an active server reaches that server's worker with
      the bare tool name and nothing else changes; for a server that is not
      active the call fails with the manager's error text. */
  lemma ExecuteQualified(r: ServerRegistry.Registry, server: string, tool: string, arguments: Json, answer: Answer)
    requires ServerRegistry.Valid(r) && server != "" && '_' !in server
    ensures ExecuteTool(r, QualifiedName(server, tool), arguments, answer).1 == r
    ensures server in r.clients ==>
              ExecuteTool(r, QualifiedName(server, tool), arguments, answer).0
              == Outcome(answer(server, tool, arguments), server, tool)
    ensures server !in r.clients ==>
              ExecuteTool(r, QualifiedName(server, tool), arguments, answer).0
              == Failed(ServerRegistry.NotActive(server))
  {
    ParseQualified(server, tool);
  }

  /** A name without `_` is looked up among all active servers: the first
      server offering it is called, and the result names no server. */
  lemma ExecuteUnqualified(r: ServerRegistry.Registry, tool: string, arguments: Json, answer: Answer)
    requires ServerRegistry.Valid(r) && '_' !in tool
    ensures ExecuteTool(r, tool, arguments, answer).1 == ServerRegistry.FindTool(r, tool).1
    ensures ServerRegistry.FindTool(r, tool).0.None? ==>
              ExecuteTool(r, tool, arguments, answer).0 == Failed(ServerRegistry.NotFound(tool))
    ensures ServerRegistry.FindTool(r, tool).0.Some? ==>
              ExecuteTool(r, tool, arguments, answer).0
              == Outcome(answer(ServerRegistry.FindTool(r, tool).0.value.0, tool, arguments), "", tool)
  {
  }

  /** A name starting with `_` parses to the empty server and the rest of
      the name, so it too is looked up among all active servers, by that
      rest. */
  lemma ExecuteLeadingUnderscore(r: ServerRegistry.Registry, tool: string, arguments: Json, answer: Answer)
    requires ServerRegistry.Valid(r)
    ensures ParseToolName("_" + tool) == ("", tool)
    ensures ExecuteTool(r, "_" + tool, arguments, answer).1 == ServerRegistry.FindTool(r, tool).1
    ensures ServerRegistry.FindTool(r, tool).0.None? ==>
              ExecuteTool(r, "_" + tool, arguments, answer).0 == Failed(ServerRegistry.NotFound(tool))
    ensures ServerRegistry.FindTool(r, tool).0.Some? ==>
              ExecuteTool(r, "_" + tool, arguments, answer).0
              == Outcome(answer(ServerRegistry.FindTool(r, tool).0.value.0, tool, arguments), "", tool)
  {
    var full := "_" + tool;
    Text.FindIs(full, "_", 0, 0);
    assert full[..0] == "" && full[1..] == tool;
  }

  /** `get_tool_info`: nothing for a server that is not active; otherwise
      that client's `get_tool`, whose tool is described as it was listed
      (with its own, possibly missing, description). A lookup that raises
      gives nothing. */
  function GetToolInfo(r: ServerRegistry.Registry, server: string, tool: string)
    : (res: (Option<ToolInfo>, ServerRegistry.Registry))
    requires ServerRegistry.Valid(r)
    ensures server !in r.clients ==> res == (None, r)
    ensures ServerRegistry.Valid(res.1)
  {
    if server !in r.clients then (None, r)
    else
      var (found, c) := Connection.GetTool(r.clients[server], tool);
      ServerRegistry.UpdateKeepsValid(r, server, c);
      var r' := r.(clients := r.clients[server := c]);
      if found.Ok? && found.value.Some? then
        var t := found.value.value;
        (Some(ToolInfo(server, t.name, t.description, t.inputSchema, true)), r')
      else (None, r')
  }

  /** For an active server, a description is returned exactly when the
      server offers the tool, and it then describes a tool of that name on
      that server. */
  lemma GetToolInfoIffOffered(r: ServerRegistry.Registry, server: string, tool: string)
    requires ServerRegistry.Valid(r) && server in r.clients
    ensures GetToolInfo(r, server, tool).0.Some? <==> ServerRegistry.Offers(r.clients[server], tool)
    ensures GetToolInfo(r, server, tool).0.Some? ==>
              var info := GetToolInfo(r, server, tool).0.value;
              info.mcpName == server && info.toolName == tool && info.available
  {
    var ts := Connection.ListTools(r.clients[server]).0;
    if ts.Ok? {
      Connection.FirstNamedIsFirst(ts.value, tool);
    }
  }
}

/** The `LLMgineToolAdapter` object over a live `MCPManager`. */
module LlmgineAdapter {
  import opened Values
  import opened Protocol
  import ServerRegistry
  import opened McpManager
  import opened ToolAdapter

  class LLMgineToolAdapter {
    const manager: MCPManager

    constructor (manager: MCPManager)
      ensures this.manager == manager
    {
      this.manager := manager;
    }

    /** `list_available_tools`. The `try`/`except` around it never fires:
        `list_all_tools` already turns each server's failure into an empty list. */
    method ListAvailableTools() returns (tools: seq<ToolInfo>)
      requires manager.Valid()
      modifies manager, manager.clients.Values
      ensures manager.Valid()
      ensures manager.model == ServerRegistry.ListAll(old(manager.model)).1
      ensures tools == Infos(ServerRegistry.ListAll(old(manager.model)).0)
      ensures manager.clients == old(manager.clients)
    {
      var listing := manager.ListAllTools();
      tools := DescribeListing(listing);
    }

    /** The nested loop of `list_available_tools` over a listing. */
    static method DescribeListing(listing: seq<ServerRegistry.ServerTools>) returns (tools: seq<ToolInfo>)
      ensures tools == Infos(listing)
    {
      tools := [];
      var i := 0;
      while i < |listing|
        invariant 0 <= i <= |listing|
        invariant tools == Infos(listing[..i])
      {
        var st := listing[i];
        var j := 0;
        while j < |st.tools|
          invariant 0 <= j <= |st.tools|
          invariant tools == Infos(listing[..i]) + Row(st.server, st.tools[..j], ListedInfo)
        {
          assert st.tools[..j + 1][..j] == st.tools[..j];
          tools := tools + [ListedInfo(st.server, st.tools[j])];
          j := j + 1;
        }
        assert st.tools[..j] == st.tools;
        assert listing[..i + 1][..i] == listing[..i];
        i := i + 1;
      }
      assert listing[..i] == listing;
    }

    /** `get_all_openai_schemas`. */
    method GetAllOpenAiSchemas() returns (schemas: seq<FunctionSchema>)
      requires manager.Valid()
      modifies manager, manager.clients.Values
      ensures manager.Valid()
      ensures manager.model == ServerRegistry.ListAll(old(manager.model)).1
      ensures schemas == Schemas(ServerRegistry.ListAll(old(manager.model)).0)
      ensures manager.clients == old(manager.clients)
    {
      var listing := manager.ListAllTools();
      schemas := ConvertListing(listing);
    }

    /** The nested loop of `get_all_openai_schemas`, converting each tool. */
    static method ConvertListing(listing: seq<ServerRegistry.ServerTools>) returns (schemas: seq<FunctionSchema>)
      ensures schemas == Schemas(listing)
    {
      schemas := [];
      var i := 0;
      while i < |listing|
        invariant 0 <= i <= |listing|
        invariant schemas == Schemas(listing[..i])
      {
        var st := listing[i];
        var j := 0;
        while j < |st.tools|
          invariant 0 <= j <= |st.tools|
          invariant schemas == Schemas(listing[..i]) + Row(st.server, st.tools[..j], SchemaEntry)
        {
          assert st.tools[..j + 1][..j] == st.tools[..j];
          schemas := schemas + [ConvertToOpenAiSchema(st.tools[j], st.server)];
          j := j + 1;
        }
        assert st.tools[..j] == st.tools;
        assert listing[..i + 1][..i] == listing[..i];
        i := i + 1;
      }
      assert listing[..i] == listing;
    }

    /** `_format_tool_result`: the loop collecting each item's text. */
    method FormatToolResult(result: Option<CallToolResult>, server: string, tool: string) returns (e: ExecResult)
      ensures e == FormatResult(result, server, tool)
    {
      if result.None? || result.value.content == [] {
        return Formatted(true, NoContent, server, tool);
      }
      var content := result.value.content;
      var texts: seq<string> := [];
      var i := 0;
      while i < |content|
        invariant 0 <= i <= |content|
        invariant texts == ItemTexts(content[..i])
      {
        assert content[..i + 1][..i] == content[..i];
        match content[i] {
          case TextContent(t) =>
            texts := texts + [t];
          case OtherContent(s) =>
            texts := texts + [s];
        }
        i := i + 1;
      }
      assert content[..i] == content;
      var formatted := if texts != [] then Text.Join("\n", texts) else "No result";
      e := Formatted(!result.value.isError, formatted, server, tool);
    }

    method ExecuteTool(full: string, arguments: Json, answer: Answer) returns (e: ExecResult)
      requires manager.Valid()
      modifies manager, manager.clients.Values
      ensures manager.Valid()
      ensures (e, manager.model) == ToolAdapter.ExecuteTool(old(manager.model), full, arguments, answer)
      ensures manager.clients == old(manager.clients)
    {
      var (server, tool) := ParseToolName(full);
      var res;
      if server != "" {
        res := manager.CallMcp(server, tool, arguments, answer);
      } else {
        res := manager.CallAnyMcp(tool, arguments, answer);
      }
      if res.Raises? {
        return Failed(res.msg);
      }
      e := FormatToolResult(res.value, server, tool);
    }

    method GetToolInfo(server: string, tool: string) returns (info: Option<ToolInfo>)
      requires manager.Valid()
      modifies manager, manager.clients.Values
      ensures manager.Valid()
      ensures (info, manager.model) == ToolAdapter.GetToolInfo(old(manager.model), server, tool)
    {
      if server !in manager.clients {
        return None;
      }
      var found := manager.LookupOne(server, tool);
      if found.Ok? && found.value.Some? {
        var t := found.value.value;
        info := Some(ToolInfo(server, t.name, t.description, t.inputSchema, true));
      } else {
        info := None;
      }
    }
  }
}
