/** The shapes exchanged with worker servers over the Model Context Protocol,
    and the behaviour of a worker process as the gateway can observe it. */
module Protocol {
  import opened Values

  /** A tool descriptor as a worker lists it: `{name, description, inputSchema}`. */
  datatype Tool = Tool(name: string, description: Option<string>, inputSchema: Json)

  /** One item of a call result's `content`: a text item (it has `text`),
      or any other item, which only has its `str()` rendering. */
  datatype Content = TextContent(text: string) | OtherContent(shown: string)

  /** `CallToolResult`: content items, the `isError` flag, and the result's
      own `str()` rendering, which the gateway falls back to. */
  datatype CallToolResult = CallToolResult(content: seq<Content>, isError: bool, shown: string)

  /** How an attempt to launch a worker and open its session ends: the
      process and session come up, the process or stream cannot be created,
      or the session is created but its initialisation handshake fails. */
  datatype ConnectOutcome = Connects | SpawnFails(msg: string) | HandshakeFails(msg: string)

  /** The observable behaviour of one launched worker process: how its
      connection attempt ends, what its session answers to a catalogue
      request (the same answer to every such request), and whether releasing
      its process and stream raises. */
  datatype Worker = Worker(connect: ConnectOutcome, catalogue: Fallible<seq<Tool>>, closeFails: bool)

  /** What the worker serving server `server` answers when session
      `call_tool(tool, arguments)` is sent to it: a result (the library types
      it as optional) or an exception. */
  type Answer = (string, string, Json) -> Fallible<Option<CallToolResult>>

  /** A function-calling schema `{type, function: {name, description, parameters}}`;
      `kind` is the value under `type`. */
  datatype FunctionSchema = FunctionSchema(kind: string, name: string, description: string, parameters: Json)

  /** `{"type": "object", "properties": properties, "required": required}`. */
  function ObjectSchema(properties: map<string, Json>, required: seq<string>): (j: Json)
    ensures j.JObj? && j.fields.Keys == {"type", "properties", "required"}
    ensures j.fields["type"] == JStr("object") && j.fields["properties"] == JObj(properties)
    ensures j.fields["required"].JArr? && |j.fields["required"].items| == |required|
    ensures forall i :: 0 <= i < |required| ==> j.fields["required"].items[i] == JStr(required[i])
  {
    JObj(map["type" := JStr("object"),
             "properties" := JObj(properties),
             "required" := JArr(seq(|required|, i requires 0 <= i < |required| => JStr(required[i])))])
  }

  /** The parameters schema used when a tool declares none (or an empty one):
      an object with no properties and nothing required. */
  function EmptyParameters(): Json {
    ObjectSchema(map[], [])
  }
}
