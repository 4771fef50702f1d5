/** The adapter that turns the tools of a `SimpleMCPClient` into local
    tool functions (`MCPToolAdapter`), as values: the schema it publishes
    for a tool, the text it makes of a call result, and the wrapper
    function it builds for each tool. */
module McpAdapter {
  import opened Values
  import opened Protocol
  import Text
  import SimpleClient

  /** The description used for a tool that has none (or an empty one). */
  function DefaultDescription(tool: string): string {
    "MCP tool: " + tool
  }

  /** `convert_mcp_tool_to_schema`: the tool keeps its own name; its
      description or the default one; its input schema or an empty one. */
  function ConvertMcpToolToSchema(tool: Tool): (s: FunctionSchema)
    ensures s.kind == "function" && s.name == tool.name
    ensures s.description == StrOr(tool.description, DefaultDescription(tool.name))
    ensures s.parameters == JsonOr(tool.inputSchema, EmptyParameters())
  {
    FunctionSchema("function", tool.name, StrOr(tool.description, DefaultDescription(tool.name)),
                   JsonOr(tool.inputSchema, EmptyParameters()))
  }

  /** The non-empty `text` of each text item, in order. */
  function NonEmptyTexts(content: seq<Content>): seq<string> {
    if content == [] then []
    else
      var last := content[|content| - 1];
      NonEmptyTexts(content[..|content| - 1]) + (if last.TextContent? && last.text != "" then [last.text] else [])
  }

  /** The collected texts are exactly the non-empty texts of the items:
      nothing is invented and nothing non-empty is dropped. */
  lemma {:induction false} NonEmptyTextsMembers(content: seq<Content>)
    ensures forall t :: t in NonEmptyTexts(content) <==>
              t != "" && exists k :: 0 <= k < |content| && content[k] == TextContent(t)
  {
    if content != [] {
      var n := |content| - 1;
      NonEmptyTextsMembers(content[..n]);
      forall t
        ensures t in NonEmptyTexts(content) <==> t != "" && exists k :: 0 <= k < |content| && content[k] == TextContent(t)
      {
        if t != "" && exists k :: 0 <= k < |content| && content[k] == TextContent(t) {
          var k :| 0 <= k < |content| && content[k] == TextContent(t);
          if k < n {
            assert content[..n][k] == TextContent(t);
          }
        }
        if t in NonEmptyTexts(content[..n]) {
          var k :| 0 <= k < n && content[..n][k] == TextContent(t);
          assert content[k] == TextContent(t);
        }
      }
    }
  }

  /** `_extract_text_content`: the non-empty texts joined by spaces, or the
      result's own rendering when there are none. */
  function ExtractText(result: CallToolResult): string {
    var texts := NonEmptyTexts(result.content);
    if result.content != [] && texts != [] then Text.Join(" ", texts) else result.shown
  }

  /** The rendering is used exactly when no item carries a non-empty text. */
  lemma ExtractTextFallsBack(result: CallToolResult)
    ensures NonEmptyTexts(result.content) == [] <==>
              forall k :: 0 <= k < |result.content| ==> !(result.content[k].TextContent? && result.content[k].text != "")
    ensures NonEmptyTexts(result.content) == [] ==> ExtractText(result) == result.shown
    ensures NonEmptyTexts(result.content) != [] ==> ExtractText(result) == Text.Join(" ", NonEmptyTexts(result.content))
  {
    NonEmptyTextsMembers(result.content);
    if NonEmptyTexts(result.content) != [] {
      var t := NonEmptyTexts(result.content)[0];
      assert t in NonEmptyTexts(result.content);
    }
  }

  /** The text returned when there is no result at all. */
  const NoResult: string := "No result"

  /** `_convert_result_to_string`: "No result" for no result; an error
      result is its extracted text behind "Error: "; any other result is its
      extracted text. */
  function ConvertResultToString(result: Option<CallToolResult>): (s: string)
    ensures result.None? ==> s == NoResult
    ensures result.Some? && result.value.isError ==> s == "Error: " + ExtractText(result.value)
    ensures result.Some? && !result.value.isError ==> s == ExtractText(result.value)
  {
    match result
    case None => NoResult
    case Some(res) => if res.isError then "Error: " + ExtractText(res) else ExtractText(res)
  }

  /** The function `create_mcp_tool_function(tool_name)` makes: its
      `__name__`, its `__doc__`, and the tool it calls. */
  datatype McpToolFunction = McpToolFunction(name: string, doc: string, tool: string)

  function CreateMcpToolFunction(tool: string): (f: McpToolFunction)
    ensures f.name == tool && f.tool == tool
    ensures f.doc == DefaultDescription(tool)
  {
    McpToolFunction(tool, DefaultDescription(tool), tool)
  }

  /** Calling the wrapper with keyword arguments `kwargs`: the client's
      `call_tool` with the arguments as an object; an exception becomes the
      text "Error: " and its message, and the wrapper never raises. */
  function Invoke(c: SimpleClient.SimpleConn, f: McpToolFunction, kwargs: map<string, Json>, answer: Answer): (s: string)
  {
    match SimpleClient.CallTool(c, f.tool, JObj(kwargs), answer)
    case Raises(m) => "Error: " + m
    case Ok(r) => ConvertResultToString(r)
  }

  /** A wrapper over a client without a live session answers with the
      client's refusal; over a live one it renders the worker's answer for
      the wrapped tool. */
  lemma InvokeReachesWorker(c: SimpleClient.SimpleConn, tool: string, kwargs: map<string, Json>, answer: Answer)
    ensures !(c.connected && c.hasSession) ==>
              Invoke(c, CreateMcpToolFunction(tool), kwargs, answer) == "Error: " + SimpleClient.NotConnected(c.name)
    ensures c.connected && c.hasSession && answer(c.name, tool, JObj(kwargs)).Ok? ==>
              Invoke(c, CreateMcpToolFunction(tool), kwargs, answer)
              == ConvertResultToString(answer(c.name, tool, JObj(kwargs)).value)
    ensures c.connected && c.hasSession && answer(c.name, tool, JObj(kwargs)).Raises? ==>
              Invoke(c, CreateMcpToolFunction(tool), kwargs, answer)
              == "Error: " + answer(c.name, tool, JObj(kwargs)).msg
  {
  }
}

/** The `MCPToolAdapter` object over one `SimpleMCPClient`. */
module McpToolAdapterClass {
  import opened Values
  import opened Protocol
  import Text
  import SimpleMcpClient
  import opened McpAdapter

  class MCPToolAdapter {
    const client: SimpleMcpClient.SimpleMCPClient

    constructor (client: SimpleMcpClient.SimpleMCPClient)
      ensures this.client == client
    {
      this.client := client;
    }

    /** The wrapper's call: reads the client's state, changes nothing. */
    method CallWrapper(f: McpToolFunction, kwargs: map<string, Json>, answer: Answer) returns (s: string)
      ensures s == Invoke(client.View(), f, kwargs, answer)
    {
      var r := client.CallTool(f.tool, JObj(kwargs), answer);
      if r.Raises? {
        return "Error: " + r.msg;
      }
      s := ConvertResult(r.value);
    }

    static method ConvertResult(result: Option<CallToolResult>) returns (s: string)
      ensures s == ConvertResultToString(result)
    {
      if result.None? {
        return NoResult;
      }
      var text := ExtractTextContent(result.value);
      s := if result.value.isError then "Error: " + text else text;
    }

    /** `_extract_text_content`: the loop collecting non-empty texts. */
    static method ExtractTextContent(result: CallToolResult) returns (s: string)
      ensures s == ExtractText(result)
    {
      var content := result.content;
      var parts: seq<string> := [];
      var i := 0;
      while i < |content|
        invariant 0 <= i <= |content|
        invariant parts == NonEmptyTexts(content[..i])
      {
        assert content[..i + 1][..i] == content[..i];
        if content[i].TextContent? && content[i].text != "" {
          parts := parts + [content[i].text];
        }
        i := i + 1;
      }
      assert content[..i] == content;
      s := if content != [] && parts != [] then Text.Join(" ", parts) else result.shown;
    }
  }
}
