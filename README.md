# A verified model of the llmgine MCP tool gateway

This project models the tool-execution gateway of llmgine's MCP integration in Dafny. The gateway routes a named tool call to one of two places:

- an in-process Python function registered with the `ToolManager`;
- a tool of an external worker server that speaks the Model Context Protocol (MCP), reached through the `MCPManager` and its `MCPClient`s.

The model keeps the sequential bookkeeping of the Python code:

- the insertion-ordered dictionaries of active clients and registered functions;
- the connection state of each client and its catalogue cache;
- server-qualified tool names and their parsing;
- schema inference from a parameter list;
- the normalisation of call results;
- local-first dispatch;
- the refresh of the combined schema list.

Each stateful Python class is modelled twice:

- A value module holds a datatype for its state and one function per operation, giving the outcome together with the new state. This covers `Connection`, `ServerRegistry`, `SimpleClient`, `LocalTools`, `ToolAdapter`, `McpAdapter` and `Gateway`. The lemmas about the system are stated and proved here.
- A class module holds a Dafny `class` with the Python object's fields. These are `McpClient`, `McpManager`, `SimpleMcpClient`, `LocalToolManager`, `LlmgineAdapter`, `McpToolAdapterClass` and `EnhancedManager`. Each method updates the fields in place, with the loops of the source. Its contract ties the result and the new state to the value function of the old state, e.g. `ensures (ok, model) == ServerRegistry.Start(old(model), …)`.

What the outside world does becomes an explicit parameter:

- A launched worker process is a `Worker` record. It says whether the connection comes up, what the session answers to a catalogue request, and whether releasing the process raises.
- A worker's reply to a tool call is an `Answer` function.
- `json.loads` is a `Decoder` function.
- A registered Python function is a `LocalTool`. It has a name, a docstring, an explicit parameter list in place of `inspect.signature`, and what it returns or raises for given arguments.
- Exceptions are values of `Fallible<T>`: `Ok(v)` or `Raises(msg)`.

Files:

- `values.dfy`: options, exceptions, JSON-like values and Python truthiness.
- `protocol.dfy`: MCP shapes and the worker oracle.
- `text.dfy`: `strip`, `find`, `join` and first line.
- `connection.dfy`: `MCPClient`.
- `registry.dfy`: `MCPManager`.
- `simple_client.dfy`: `SimpleMCPClient`.
- `mcp_adapter.dfy`: `MCPToolAdapter`.
- `tool_adapter.dfy`: `LLMgineToolAdapter`.
- `local_tools.dfy`: `ToolManager`.
- `gateway.dfy`: `EnhancedToolManager`, `MCPServerConfig` and `create_enhanced_tool_manager_with_servers`.

## Model

| member | source | states |
|---|---|---|
| Values.Falsy | src/llmgine/llm/tools/tool_manager.py:164 | defined by its body, no contract of its own: Python truthiness (`not v`) of a JSON-like value; its uses are stated by `Values.EmptyObject`, `Values.JsonOr` and `LocalTools.ParseArguments` |
| Values.EmptyObject | src/llmgine/llm/tools/tool_manager.py:157 | `{}` is an object and is falsy |
| Values.OrEmpty | src/any_mcp/managers/manager.py:62 | `env or {}`: `{}` for a missing environment, the environment itself otherwise |
| Values.StrOr | src/any_mcp/integration/tool_adapter.py:50 | `s or default` on an optional string: the default exactly when the string is missing or empty |
| Values.JsonOr | src/llmgine/llm/tools/tool_manager.py:164-165 | `v or default`: the default exactly when the value is falsy |
| Protocol.ObjectSchema | src/llmgine/llm/tools/tool_manager.py:126-130 | an object schema has exactly the keys type, properties and required; its type is "object", and its `required` array holds the required names, entry i being the i-th name |
| Text.TrimStartSpec | src/llmgine/llm/tools/tool_manager.py:110 | `lstrip` cuts an all-whitespace prefix and stops at the first other character |
| Text.TrimEndSpec | src/llmgine/llm/tools/tool_manager.py:110 | `rstrip` cuts an all-whitespace suffix and stops at the last other character |
| Text.Strip | src/llmgine/llm/tools/tool_manager.py:110 | defined by its body, no contract of its own: `str.strip()`; stated by `Text.StripIsSlice` and `Text.StripEmptyIffBlank` |
| Text.StripIsSlice | src/llmgine/llm/tools/tool_manager.py:110 | `strip()` is a slice of its input with only whitespace cut away on either side, and it neither begins nor ends with whitespace |
| Text.StripEmptyIffBlank | src/llmgine/llm/tools/tool_manager.py:156 | `s.strip() == ""` exactly when every character of `s` is whitespace |
| Text.TrimStartOfBlank | src/llmgine/llm/tools/tool_manager.py:156 | an all-whitespace string strips to nothing |
| Text.Find | src/llmgine/llm/tools/tool_manager.py:107-108 | `find` returns -1 or an index at or after `start` where the pattern occurs, and the pattern occurs at no earlier index from `start` |
| Text.FindIs | src/llmgine/llm/tools/tool_manager.py:107-108 | the search stops at the first occurrence at or after `start` |
| Text.FindChar | src/any_mcp/integration/tool_adapter.py:117-118 | for a one-character pattern, the search fails exactly when the character is absent, and otherwise it stops at the character's first occurrence |
| Text.Join | src/llmgine/llm/tools/mcp_adapter.py:83 | defined by its body, no contract of its own: `sep.join(parts)`; stated by `Text.JoinSnoc` |
| Text.JoinSnoc | src/llmgine/llm/tools/mcp_adapter.py:83 | joining one more part appends the separator and that part |
| Text.FirstLine | src/llmgine/llm/tools/tool_manager.py:125 | the first line is a newline-free prefix of the docstring, ended by the docstring's first newline or by its end |
| Connection.Fresh | src/any_mcp/core/client.py:32-37 | a new client is disconnected, has no session and no cache |
| Connection.Connect | src/any_mcp/core/client.py:51-83 | `connect` never raises; it succeeds exactly when the worker's session comes up, the `_connected` flag agrees with the result, a failed handshake leaves the session assigned and the cache is untouched |
| Connection.ListTools | src/any_mcp/core/client.py:92-108 | refused without a live session; served from the cache without asking the session; otherwise the session's answer, cached when it succeeds; only the cache changes |
| Connection.FirstNamed | src/any_mcp/core/client.py:147-150 | defined by its body, no contract of its own: the first tool of the listing with that name; stated by `Connection.FirstNamedIsFirst` |
| Connection.FirstNamedIsFirst | src/any_mcp/core/client.py:147-150 | the linear search finds nothing exactly when no tool has the name, and otherwise a tool of that name that no earlier tool shares |
| Connection.GetTool | src/any_mcp/core/client.py:146-150 | `get_tool` raises what the listing raises, and otherwise gives the listing's first tool of that name |
| Connection.CallTool | src/any_mcp/core/client.py:121-134 | refused without a live session; otherwise the tool name and arguments reach the worker unchanged and its answer or exception is returned |
| Connection.NotConnected | src/any_mcp/core/client.py:93 | defined by its body, no contract of its own: the `RuntimeError` text for a call without a live session (also at client.py:122); its use is stated by `Connection.ListTools` and `Connection.CallTool` |
| Connection.ClearCache | src/any_mcp/core/client.py:156-158 | only the cache is reset |
| Connection.Disconnect | src/any_mcp/core/client.py:162-175 | never raises; a connected client ends disconnected without session or cache; a disconnected client, or one whose release raised, is unchanged |
| Connection.ListingIsStable | src/any_mcp/core/client.py:97-104 | listing twice gives the same answer and state as listing once |
| Connection.CachedListingIgnoresWorker | src/any_mcp/core/client.py:97-98 | with a catalogue cached, the session is not consulted: any worker gives the same listing |
| Connection.ClearedCacheQueriesSession | src/any_mcp/core/client.py:156-158 | after `clear_tools_cache` the next listing asks the session again |
| Connection.DisconnectIdempotent | src/any_mcp/core/client.py:163 | disconnecting twice is disconnecting once |
| Connection.ConnectedLookupReachesWorker | src/any_mcp/core/client.py:51-104 | after a successful connect, a lookup finds the first tool of that name in the worker's catalogue |
| McpClient.MCPClient.constructor | src/any_mcp/core/client.py:32-37 | the new object's state is `Connection.Fresh` |
| McpClient.MCPClient.Connect | src/any_mcp/core/client.py:51-83 | the fields change as `Connection.Connect` says and the result is its result |
| McpClient.MCPClient.ListTools | src/any_mcp/core/client.py:92-108 | result and new fields as `Connection.ListTools` says |
| McpClient.MCPClient.CallTool | src/any_mcp/core/client.py:121-134 | result as `Connection.CallTool` says, no field changes |
| McpClient.MCPClient.GetTool | src/any_mcp/core/client.py:146-150 | the early-exit search loop gives `Connection.GetTool`'s result and state |
| McpClient.MCPClient.IsConnected | src/any_mcp/core/client.py:152-154 | the `_connected` flag |
| McpClient.MCPClient.ClearToolsCache | src/any_mcp/core/client.py:156-158 | the state `Connection.ClearCache` gives |
| McpClient.MCPClient.Disconnect | src/any_mcp/core/client.py:160-175 | the state `Connection.Disconnect` gives |
| ServerRegistry.Empty | src/any_mcp/managers/manager.py:30-32 | a new manager has no active client and no stored configuration |
| ServerRegistry.AppendKeepsValid | src/any_mcp/managers/manager.py:69-70 | adding a ready client under a new name, last, keeps the registry well formed |
| ServerRegistry.UpdateKeepsValid | src/any_mcp/managers/manager.py:119-121 | replacing an active client's state by a ready state of the same server keeps the registry well formed |
| ServerRegistry.Without | src/any_mcp/managers/manager.py:99 | `del` removes exactly that key from the key order, keeps the order duplicate-free, and changes nothing for an absent key |
| ServerRegistry.WithoutRemovesOne | src/any_mcp/managers/manager.py:99 | deleting the key at index k closes the gap it leaves and keeps the other keys in order |
| ServerRegistry.WithoutLast | src/any_mcp/managers/manager.py:99 | deleting the key added last gives back the earlier order |
| ServerRegistry.Start | src/any_mcp/managers/manager.py:53-79 | an active name gives true and no change; otherwise `{command, args, env or {}}` is stored, and the result is true exactly when the connection comes up; on success the client is appended last; on failure no client is added and the stored configuration is kept; well-formedness is preserved |
| ServerRegistry.Stop | src/any_mcp/managers/manager.py:91-104 | always true; an inactive name changes nothing; an active name loses its client, its place in the order and its configuration, and every other entry is kept; well-formedness is preserved |
| ServerRegistry.StopUndoesStart | src/any_mcp/managers/manager.py:53-104 | stopping a server just started gives back the earlier order and clients, without its configuration |
| ServerRegistry.ToolsOrEmpty | src/any_mcp/managers/manager.py:121-126 | a listing's tools, or `[]` when it raised |
| ServerRegistry.ListAll | src/any_mcp/managers/manager.py:110-128 | defined by its loop function, no contract of its own; its listing and state are stated by `ServerRegistry.ListAllIsolatesFaults` |
| ServerRegistry.Listed | src/any_mcp/managers/manager.py:119-121 | the registry after each active client was listed once: same order, names and configurations, each client as one listing leaves it |
| ServerRegistry.ListFromSpec | src/any_mcp/managers/manager.py:117-128 | the loop appends, per server of the order, that server's own listing, and leaves each listed client as one listing leaves it |
| ServerRegistry.ListAllIsolatesFaults | src/any_mcp/managers/manager.py:117-128 | one entry per active server in registration order; a successful listing shows its tools, a raising one shows `[]`, and neither affects another entry; the active servers are unchanged |
| ServerRegistry.ListAllEntries | src/any_mcp/managers/manager.py:117-128 | entry i is server i with the tools of its own listing |
| ServerRegistry.ListAllState | src/any_mcp/managers/manager.py:117-128 | `list_all_tools` leaves the registry as `Listed` describes |
| ServerRegistry.ListAllTwice | src/any_mcp/managers/manager.py:117-128 | listing all servers again gives the same listing and state |
| ServerRegistry.HealthFromSpec | src/any_mcp/managers/manager.py:201-212 | the loop records, per server, whether its listing succeeded, keeping the other records |
| ServerRegistry.Health | src/any_mcp/managers/manager.py:194-212 | defined by its loop function, no contract of its own; its report and state are stated by `ServerRegistry.HealthReportsEachServer` |
| ServerRegistry.HealthReportsEachServer | src/any_mcp/managers/manager.py:201-212 | the keys are exactly the active servers; a server is healthy exactly when it holds a catalogue or its worker answers; clients are left as listing leaves them |
| ServerRegistry.FindFromKeepsClients | src/any_mcp/managers/manager.py:158-166 | the search changes nothing but the caches of the clients it asks |
| ServerRegistry.FindTool | src/any_mcp/managers/manager.py:158-166 | `find_tool` keeps the order and configurations and the registry well formed |
| ServerRegistry.FindFromIsFirstOffer | src/any_mcp/managers/manager.py:158-166 | the search loop finds what the reference definition (first server that offers the tool) finds |
| ServerRegistry.FirstOffer | src/any_mcp/managers/manager.py:158-166 | defined by its body, no contract of its own: the reference search, the first server in registration order whose client offers the tool; stated by `ServerRegistry.FirstOfferNone` and `ServerRegistry.FirstOfferSome`, and tied to the loop by `ServerRegistry.FindFromIsFirstOffer` |
| ServerRegistry.FirstOfferNone | src/any_mcp/managers/manager.py:166 | the reference search finds nothing exactly when no server offers the tool |
| ServerRegistry.FirstOfferSome | src/any_mcp/managers/manager.py:158-162 | a found server is the first, in order, that offers the tool, with the tool it offers |
| ServerRegistry.FindToolFirstMatch | src/any_mcp/managers/manager.py:158-166 | `find_tool` reports the first active server in registration order whose client offers the tool (skipping servers that raise), and nothing when none does |
| ServerRegistry.NotFound | src/any_mcp/managers/manager.py:181 | the text of the error |
| ServerRegistry.NotActive | src/any_mcp/managers/manager.py:143 | defined by its body, no contract of its own: the text of the error `call_mcp` raises for a server that is not active; its use is stated by `ToolAdapter.ExecuteQualified` and `Gateway.QualifiedMcpCall` |
| ServerRegistry.CallMcp | src/any_mcp/managers/manager.py:142-146 | raises for an inactive server; otherwise the call reaches that server's worker unchanged |
| ServerRegistry.CallAnyMcp | src/any_mcp/managers/manager.py:179-184 | raises when `find_tool` finds nothing; otherwise the call goes to the server found |
| ServerRegistry.FindToolIsActive | src/any_mcp/managers/manager.py:183-184 | the server `find_tool` reports is active |
| ServerRegistry.IsServerActive | src/any_mcp/managers/manager.py:190-192 | defined by its body, no contract of its own: registered and connected; stated by `ServerRegistry.ActiveIffRegistered` |
| ServerRegistry.ActiveIffRegistered | src/any_mcp/managers/manager.py:190-192 | in a well-formed registry a server is active exactly when it is registered |
| ServerRegistry.Restart | src/any_mcp/managers/manager.py:224-226 | no stored configuration gives false and no change |
| ServerRegistry.RestartRelaunches | src/any_mcp/managers/manager.py:224-242 | a restart reports the new connection's outcome, stores the configuration again unchanged, and on success moves the server to the end of the order, bound to the new connected client; on failure the server is gone from the clients; every other client is kept unchanged |
| ServerRegistry.RestartRecoversHealth | src/any_mcp/managers/manager.py:201-242 | an unhealthy server restarted onto a worker that answers becomes healthy |
| ServerRegistry.FailedStartCanRestart | src/any_mcp/managers/manager.py:59-79 | the configuration kept after a failed start lets a later restart bring the server up |
| McpManager.MCPManager.constructor | src/any_mcp/managers/manager.py:30-32 | a new manager represents the empty registry |
| McpManager.MCPManager.StartMcp | src/any_mcp/managers/manager.py:53-79 | result and new registry as `ServerRegistry.Start` says; existing client objects are kept and a new one is fresh |
| McpManager.MCPManager.Adopt | src/any_mcp/managers/manager.py:69-70 | the connected client is stored last under its name, with its configuration |
| McpManager.MCPManager.Launch | src/any_mcp/managers/manager.py:66-67 | a new client object, told to connect, in the state `Connection.Connect` gives |
| McpManager.MCPManager.StopMcp | src/any_mcp/managers/manager.py:91-104 | result and new registry as `ServerRegistry.Stop` says; the removed client object was told to disconnect; the others are kept |
| McpManager.MCPManager.Unregister | src/any_mcp/managers/manager.py:99-101 | the server's entries leave both maps and the order; no client object changes |
| McpManager.MCPManager.ListOne | src/any_mcp/managers/manager.py:121 | one listing of one active client, recorded in the registry |
| McpManager.MCPManager.LookupOne | src/any_mcp/managers/manager.py:160 | one `get_tool` of one active client, recorded in the registry |
| McpManager.MCPManager.ListAllTools | src/any_mcp/managers/manager.py:117-128 | the loop gives `ServerRegistry.ListAll`'s listing and state |
| McpManager.MCPManager.HealthCheck | src/any_mcp/managers/manager.py:201-212 | the loop gives `ServerRegistry.Health`'s report and state |
| McpManager.MCPManager.FindTool | src/any_mcp/managers/manager.py:158-166 | the early-exit loop gives `ServerRegistry.FindTool`'s result and state |
| McpManager.MCPManager.CallMcp | src/any_mcp/managers/manager.py:142-146 | result as `ServerRegistry.CallMcp` says |
| McpManager.MCPManager.CallAnyMcp | src/any_mcp/managers/manager.py:179-184 | result and state as `ServerRegistry.CallAnyMcp` says |
| McpManager.MCPManager.GetActiveServers | src/any_mcp/managers/manager.py:186-188 | the active names in registration order |
| McpManager.MCPManager.IsServerActive | src/any_mcp/managers/manager.py:190-192 | registered and connected |
| McpManager.MCPManager.RestartServer | src/any_mcp/managers/manager.py:224-242 | result and state as `ServerRegistry.Restart` says |
| McpManager.MCPManager.Cleanup | src/any_mcp/managers/manager.py:249-253 | every active client is stopped in turn, then both maps are empty |
| SimpleClient.Fresh | src/llmgine/llm/tools/mcp_client.py:22-27 | a new client is disconnected, has no session and no tools |
| SimpleClient.Start | src/llmgine/llm/tools/mcp_client.py:29-66 | `start` never raises; it succeeds exactly when the session comes up and the catalogue request is answered; the connected flag agrees with the result; on success the tools are the catalogue; on failure the tools are kept |
| SimpleClient.CallTool | src/llmgine/llm/tools/mcp_client.py:72-83 | refused unless connected with a session; otherwise the worker's answer |
| SimpleClient.NotConnected | src/llmgine/llm/tools/mcp_client.py:75 | defined by its body, no contract of its own: the `RuntimeError` text for a call without a live session; its use is stated by `SimpleClient.CallTool` |
| SimpleClient.Stop | src/llmgine/llm/tools/mcp_client.py:85-92 | a no-op on an unconnected client; a clean stop leaves no connection, session or tools; a release that raises makes `stop` raise with the state unchanged |
| SimpleClient.StartedClientServes | src/llmgine/llm/tools/mcp_client.py:56-61 | after a successful start the tools are the catalogue and calls reach the worker |
| SimpleClient.FailedStartRefusesCalls | src/llmgine/llm/tools/mcp_client.py:63-66 | after a failed start every call is refused |
| SimpleClient.StopAfterStart | src/llmgine/llm/tools/mcp_client.py:85-92 | a clean stop after a start lists nothing and refuses calls, and a second stop does nothing |
| SimpleMcpClient.SimpleMCPClient.constructor | src/llmgine/llm/tools/mcp_client.py:22-27 | the new object's state is `SimpleClient.Fresh` |
| SimpleMcpClient.SimpleMCPClient.Start | src/llmgine/llm/tools/mcp_client.py:29-66 | result and fields as `SimpleClient.Start` says |
| SimpleMcpClient.SimpleMCPClient.GetTools | src/llmgine/llm/tools/mcp_client.py:68-70 | the loaded tool list |
| SimpleMcpClient.SimpleMCPClient.CallTool | src/llmgine/llm/tools/mcp_client.py:72-83 | result as `SimpleClient.CallTool` says |
| SimpleMcpClient.SimpleMCPClient.Stop | src/llmgine/llm/tools/mcp_client.py:85-92 | outcome and fields as `SimpleClient.Stop` says |
| SimpleMcpClient.SimpleMCPClient.IsConnected | src/llmgine/llm/tools/mcp_client.py:94-96 | the `_connected` flag |
| McpAdapter.DefaultDescription | src/llmgine/llm/tools/mcp_adapter.py:30 | defined by its body, no contract of its own: "MCP tool: {name}"; its use is stated by `McpAdapter.ConvertMcpToolToSchema` |
| McpAdapter.ConvertMcpToolToSchema | src/llmgine/llm/tools/mcp_adapter.py:23-37 | the schema is a function with the bare tool name, the tool's description or "MCP tool: {name}", and its input schema or an empty object schema |
| McpAdapter.NonEmptyTextsMembers | src/llmgine/llm/tools/mcp_adapter.py:77-80 | the collected texts are exactly the non-empty texts of the text items |
| McpAdapter.ExtractText | src/llmgine/llm/tools/mcp_adapter.py:72-90 | defined by its body, no contract of its own; stated by `McpAdapter.ExtractTextFallsBack` |
| McpAdapter.ExtractTextFallsBack | src/llmgine/llm/tools/mcp_adapter.py:72-86 | the result's rendering is used exactly when no item carries a non-empty text; otherwise the texts are joined by single spaces |
| McpAdapter.ConvertResultToString | src/llmgine/llm/tools/mcp_adapter.py:60-70 | "No result" for no result; an error result is "Error: " and its extracted text; any other result is its extracted text |
| McpAdapter.CreateMcpToolFunction | src/llmgine/llm/tools/mcp_adapter.py:39-58 | the wrapper's name is the tool's name, its doc is "MCP tool: {name}", and it calls that tool |
| McpAdapter.Invoke | src/llmgine/llm/tools/mcp_adapter.py:41-56 | defined by its body, no contract of its own; stated by `McpAdapter.InvokeReachesWorker` |
| McpAdapter.InvokeReachesWorker | src/llmgine/llm/tools/mcp_adapter.py:41-52 | the wrapper forwards the keyword arguments unchanged, renders the answer, turns every exception (the client's refusal included) into "Error: {msg}", and never raises |
| McpToolAdapterClass.MCPToolAdapter.constructor | src/llmgine/llm/tools/mcp_adapter.py:20-21 | the adapter keeps its client |
| McpToolAdapterClass.MCPToolAdapter.CallWrapper | src/llmgine/llm/tools/mcp_adapter.py:41-52 | the wrapper's call gives `McpAdapter.Invoke`'s text |
| McpToolAdapterClass.MCPToolAdapter.ConvertResult | src/llmgine/llm/tools/mcp_adapter.py:60-70 | gives `McpAdapter.ConvertResultToString` |
| McpToolAdapterClass.MCPToolAdapter.ExtractTextContent | src/llmgine/llm/tools/mcp_adapter.py:72-86 | the collecting loop gives `McpAdapter.ExtractText` |
| ToolAdapter.QualifiedName | src/any_mcp/integration/tool_adapter.py:75 | defined by its body, no contract of its own: `{server}_{tool}`; that parsing recovers both parts is stated by `ToolAdapter.ParseQualified` |
| ToolAdapter.ParseToolName | src/any_mcp/integration/tool_adapter.py:107-122 | a name without `_` parses to `("", name)`; otherwise the server part has no `_` and `server + "_" + tool` is the name |
| ToolAdapter.ParseQualified | src/any_mcp/integration/tool_adapter.py:107-122 | for a server name without `_`, parsing the qualified name gives back the server and the tool |
| ToolAdapter.UnderscoredServerIsMisparsed | src/any_mcp/integration/tool_adapter.py:107-122 | for a server name with `_`, parsing a qualified name never gives back that server |
| ToolAdapter.MisparsedExample | src/any_mcp/integration/tool_adapter.py:117-119 | tool `add` of server `my_server` parses as tool `server_add` of server `my` |
| ToolAdapter.DefaultDescription | src/any_mcp/integration/tool_adapter.py:76 | defined by its body, no contract of its own: "Tool {name} from {server}"; its use is stated by `ToolAdapter.ConvertToOpenAiSchema` and `ToolAdapter.InfosDescribeListing` |
| ToolAdapter.ConvertToOpenAiSchema | src/any_mcp/integration/tool_adapter.py:61-83 | the schema is a function named `server_tool`, described by the tool's description or "Tool {name} from {server}", and has the tool's input schema or an empty object schema |
| ToolAdapter.ListedInfo | src/any_mcp/integration/tool_adapter.py:47-53 | defined by its body, no contract of its own: the `tool_info` dict of one listed tool (server, name, description or the default, input schema, available); stated by `ToolAdapter.InfosDescribeListing` |
| ToolAdapter.Row | src/any_mcp/integration/tool_adapter.py:46-54 | one entry per tool of a server |
| ToolAdapter.RowIndex | src/any_mcp/integration/tool_adapter.py:46-54 | entry j is made from tool j |
| ToolAdapter.FlattenAppend | src/any_mcp/integration/tool_adapter.py:45-54 | the nested loop over two listings in a row is the two loops one after the other |
| ToolAdapter.FlattenOne | src/any_mcp/integration/tool_adapter.py:45-54 | a one-server listing gives that server's row |
| ToolAdapter.FlattenMembers | src/any_mcp/integration/tool_adapter.py:45-54 | every entry comes from some tool of some listed server, and every such tool has its entry |
| ToolAdapter.Infos | src/any_mcp/integration/tool_adapter.py:33-59 | defined by `Flatten`, no contract of its own; stated by `ToolAdapter.InfosDescribeListing` |
| ToolAdapter.Schemas | src/any_mcp/integration/tool_adapter.py:85-105 | defined by `Flatten`, no contract of its own; stated by `ToolAdapter.SchemasMatchInfos` |
| ToolAdapter.InfosDescribeListing | src/any_mcp/integration/tool_adapter.py:40-59 | every description is available, has a description, and names a listed server and one of its tools; every listed tool is described |
| ToolAdapter.SchemasMatchInfos | src/any_mcp/integration/tool_adapter.py:40-105 | the schemas and the descriptions agree entry by entry: the k-th schema is the k-th described tool qualified by its server, with the same description |
| ToolAdapter.ItemText | src/any_mcp/integration/tool_adapter.py:176-179 | defined by its body, no contract of its own: an item's `text`, or its `str()`; stated by `ToolAdapter.ItemTexts` |
| ToolAdapter.ItemTexts | src/any_mcp/integration/tool_adapter.py:174-179 | one text per content item: its text, or its rendering |
| ToolAdapter.FormatResult | src/any_mcp/integration/tool_adapter.py:159-195 | always a formatted result naming the server and tool it was given; its success flag and text are stated by `ToolAdapter.FormatResultMeaning` |
| ToolAdapter.FormatResultMeaning | src/any_mcp/integration/tool_adapter.py:171-195 | the result names the server and tool; no content gives success with the fixed text; otherwise success is `not isError`, and the text is the items' texts joined by newlines |
| ToolAdapter.Outcome | src/any_mcp/integration/tool_adapter.py:149-157 | an exception becomes `{success: False, result: None, error}`; a result is formatted |
| ToolAdapter.ExecuteTool | src/any_mcp/integration/tool_adapter.py:124-157 | keeps the registry well formed |
| ToolAdapter.ExecuteQualified | src/any_mcp/integration/tool_adapter.py:139-144 | a qualified name of an active server reaches that server's worker with the bare tool name and changes nothing; an inactive server fails with the manager's error text |
| ToolAdapter.ExecuteUnqualified | src/any_mcp/integration/tool_adapter.py:139-147 | a name without `_` goes to the first server offering it, or fails with the not-found text |
| ToolAdapter.ExecuteLeadingUnderscore | src/any_mcp/integration/tool_adapter.py:117-147 | a name starting with `_` parses to the empty server and the rest, and goes to the first server offering that rest, or fails with the not-found text |
| ToolAdapter.GetToolInfo | src/any_mcp/integration/tool_adapter.py:218-220 | nothing for an inactive server, and the registry stays well formed |
| ToolAdapter.GetToolInfoIffOffered | src/any_mcp/integration/tool_adapter.py:222-237 | for an active server, a description is returned exactly when the server offers the tool, and it names that server and tool |
| LlmgineAdapter.LLMgineToolAdapter.constructor | src/any_mcp/integration/tool_adapter.py:30-31 | the adapter keeps its manager |
| LlmgineAdapter.LLMgineToolAdapter.ListAvailableTools | src/any_mcp/integration/tool_adapter.py:33-59 | the descriptions of the manager's listing, with the manager left as listing leaves it |
| LlmgineAdapter.LLMgineToolAdapter.DescribeListing | src/any_mcp/integration/tool_adapter.py:45-54 | the nested loop gives `ToolAdapter.Infos` |
| LlmgineAdapter.LLMgineToolAdapter.GetAllOpenAiSchemas | src/any_mcp/integration/tool_adapter.py:85-105 | the schemas of the manager's listing, with the manager left as listing leaves it |
| LlmgineAdapter.LLMgineToolAdapter.ConvertListing | src/any_mcp/integration/tool_adapter.py:97-100 | the nested loop gives `ToolAdapter.Schemas` |
| LlmgineAdapter.LLMgineToolAdapter.FormatToolResult | src/any_mcp/integration/tool_adapter.py:159-195 | the collecting loop gives `ToolAdapter.FormatResult` |
| LlmgineAdapter.LLMgineToolAdapter.ExecuteTool | src/any_mcp/integration/tool_adapter.py:124-157 | result and manager state as `ToolAdapter.ExecuteTool` says |
| LlmgineAdapter.LLMgineToolAdapter.GetToolInfo | src/any_mcp/integration/tool_adapter.py:207-237 | result and manager state as `ToolAdapter.GetToolInfo` says |
| LocalTools.UnionAlternative | src/llmgine/llm/tools/tool_manager.py:82-101 | a Union alternative chooses only a JSON type name |
| LocalTools.UnionChoice | src/llmgine/llm/tools/tool_manager.py:79-101 | a Union is always typed by a JSON type name |
| LocalTools.ParamType | src/llmgine/llm/tools/tool_manager.py:54-101 | the type table always gives a JSON type name |
| LocalTools.UnionFirstMatch | src/llmgine/llm/tools/tool_manager.py:79-101 | a Union takes the type of its first alternative that chooses one, and is "string" when none does |
| LocalTools.OptionalIsItsAlternative | src/llmgine/llm/tools/tool_manager.py:75-101 | `Optional[X]`, either way round, is typed as `X` |
| LocalTools.ToolDoc | src/llmgine/llm/tools/tool_manager.py:44 | the docstring, or "Function {name}", is never empty |
| LocalTools.ParamDescription | src/llmgine/llm/tools/tool_manager.py:103-110 | defined by its body, no contract of its own; stated by `LocalTools.ParamDescriptionReadsLine` and `LocalTools.ParamDescriptionDefaults` |
| LocalTools.ParamDescriptionReadsLine | src/llmgine/llm/tools/tool_manager.py:103-110 | when the first occurrence of `:param x:` is followed by `text` and a newline, the description is `text` stripped, whatever precedes the marker |
| LocalTools.ParamDescriptionColonFree | src/llmgine/llm/tools/tool_manager.py:103-110 | the same for a marker with no colon before it, which is then necessarily the first |
| LocalTools.ParamDescriptionAfter | src/llmgine/llm/tools/tool_manager.py:103-110 | a parameter documented after other text, such as an earlier `:param` line for another name, is read back as its own text stripped |
| LocalTools.ParamDescriptionSecondLine | src/llmgine/llm/tools/tool_manager.py:103-110 | the docstring `:param x: a\n:param y: b\n` describes `y` as `b` |
| LocalTools.MarkerHoldsName | src/llmgine/llm/tools/tool_manager.py:106-107 | the marker for a name cannot start where the name's first letter is not seven characters later |
| LocalTools.MarkerFirstAt | src/llmgine/llm/tools/tool_manager.py:106-107 | a marker starting with a colon is first found right after a colon-free prefix |
| LocalTools.NewlineAfter | src/llmgine/llm/tools/tool_manager.py:108 | the first newline after the marker ends the text written there |
| LocalTools.ParamDescriptionDefaults | src/llmgine/llm/tools/tool_manager.py:104-109 | without the marker, or with no newline after it, the description is "{name} parameter" |
| LocalTools.Properties | src/llmgine/llm/tools/tool_manager.py:112-115 | never has a `self` key; its keys and entries are stated by `LocalTools.PropertiesKeys` and `LocalTools.PropertiesEntries` |
| LocalTools.Required | src/llmgine/llm/tools/tool_manager.py:117-119 | never longer than the parameter list and never names `self`; its order and members are stated by `LocalTools.RequiredAppend` and `LocalTools.RequiredMembers` |
| LocalTools.PropertiesKeys | src/llmgine/llm/tools/tool_manager.py:49-115 | `properties` has exactly one key per parameter other than `self` |
| LocalTools.PropertiesEntries | src/llmgine/llm/tools/tool_manager.py:112-115 | a parameter has its own type and description entry |
| LocalTools.RequiredAppend | src/llmgine/llm/tools/tool_manager.py:117-119 | `required` keeps the declaration order |
| LocalTools.RequiredOne | src/llmgine/llm/tools/tool_manager.py:49-119 | a single parameter is required exactly when it has no default and is not `self` |
| LocalTools.RequiredMembers | src/llmgine/llm/tools/tool_manager.py:117-119 | a name is required exactly when a parameter of that name other than `self` has no default |
| LocalTools.ToolSchema | src/llmgine/llm/tools/tool_manager.py:41-132 | the schema is a function with the function's name; its description is the first line of the docstring (or of "Function {name}"), and its parameters are the object schema of `Properties` and `Required` |
| LocalTools.UndocumentedDescription | src/llmgine/llm/tools/tool_manager.py:125 | a function without a docstring is described as "Function {name}" |
| LocalTools.ArgumentText | src/llmgine/llm/tools/tool_manager.py:155 | `isinstance(arguments, str)`: text is given exactly for text arguments and for a decoded string value, and it is that string |
| LocalTools.ParseArguments | src/llmgine/llm/tools/tool_manager.py:155-165 | a blank string is `{}`; another string is decoded, and a decoding error is raised on; a value that is not a string is used as it is; a falsy result becomes `{}` |
| LocalTools.StringValueIsText | src/llmgine/llm/tools/tool_manager.py:155-159 | a decoded string value is parsed exactly as the same text is |
| LocalTools.DecodedStringRunsFunction | src/llmgine/llm/tools/tool_manager.py:155-175 | the decoded string `"{}"` runs the function with no arguments, its value or exception text being the result |
| LocalTools.ExecutionError | src/llmgine/llm/tools/tool_manager.py:175 | the text of the error |
| LocalTools.ToolNotFound | src/llmgine/llm/tools/tool_manager.py:149 | defined by its body, no contract of its own: the text for an unregistered name; its use is stated by `LocalTools.ExecuteToolCall` |
| LocalTools.TypeName | src/llmgine/llm/tools/tool_manager.py:168-171 | defined by its body, no contract of its own: Python's type name of a value, as the `**` error names it |
| LocalTools.NotAMapping | src/llmgine/llm/tools/tool_manager.py:168-171 | defined by its body, no contract of its own: the `TypeError` text of `func(**args)` for arguments that are not a mapping; its use is stated by `LocalTools.ExecuteToolCall` |
| LocalTools.ExecuteToolCall | src/llmgine/llm/tools/tool_manager.py:146-175 | an unknown name gives the not-found text; otherwise the arguments are parsed, and a parsing failure gives the execution-error text; parsed arguments that are not an object give the execution-error text of the `**` type error without running the function; with an object, the function runs on its fields as keyword arguments, its own value is returned unchanged, and an exception it raises becomes "Error executing {name}: {msg}"; nothing is raised |
| LocalTools.ExecuteAll | src/llmgine/llm/tools/tool_manager.py:138-144 | one result per call; result i is stated by `LocalTools.ExecuteAllPerCall` |
| LocalTools.ExecuteAllPerCall | src/llmgine/llm/tools/tool_manager.py:138-144 | one result per call, result i being that of call i |
| LocalTools.EmptyRegistry | src/llmgine/llm/tools/tool_manager.py:28-29 | a new registry has no function and no schema |
| LocalTools.Register | src/llmgine/llm/tools/tool_manager.py:32-39 | the name maps to the new function, replacing an earlier one, which keeps its place; one schema is appended, even for a name registered before; well-formedness is preserved |
| LocalTools.ReRegistering | src/llmgine/llm/tools/tool_manager.py:34-39 | registering a name twice leaves one entry, the later function, but two more schemas, and a call runs the later function |
| LocalTools.ParseToolsToList | src/llmgine/llm/tools/tool_manager.py:134-136 | `None` exactly when there is no schema, otherwise the schema list |
| LocalToolManager.ToolManager.constructor | src/llmgine/llm/tools/tool_manager.py:25-30 | an empty registry and no MCP client |
| LocalToolManager.ToolManager.RegisterTool | src/llmgine/llm/tools/tool_manager.py:32-39 | the state `LocalTools.Register` gives |
| LocalToolManager.ToolManager.SetSchemas | src/llmgine/llm/tools/enhanced_tool_manager.py:118 | only the schema list is replaced |
| LocalToolManager.ToolManager.GenerateToolSchema | src/llmgine/llm/tools/tool_manager.py:41-132 | the parameter loop gives `LocalTools.ToolSchema` |
| LocalToolManager.ToolManager.ResolveType | src/llmgine/llm/tools/tool_manager.py:54-101 | the early-exit loop over a Union gives `LocalTools.ParamType` |
| LocalToolManager.ToolManager.ParseToolsToList | src/llmgine/llm/tools/tool_manager.py:134-136 | gives `LocalTools.ParseToolsToList` |
| LocalToolManager.ToolManager.ExecuteToolCall | src/llmgine/llm/tools/tool_manager.py:146-175 | gives `LocalTools.ExecuteToolCall` |
| LocalToolManager.ToolManager.ExecuteToolCalls | src/llmgine/llm/tools/tool_manager.py:138-144 | the sequential loop gives `LocalTools.ExecuteAll` |
| LocalToolManager.ToolManager.CleanupMcpServers | src/llmgine/llm/tools/tool_manager.py:235-244 | every client is stopped as `SimpleClient.Stop` says, then the dict is cleared; the local functions are unchanged |
| Gateway.Fresh | src/llmgine/llm/tools/enhanced_tool_manager.py:39-52 | a new manager: no local function, no MCP system, an empty cache |
| Gateway.InitializeMcp | src/llmgine/llm/tools/enhanced_tool_manager.py:54-71 | always true; an empty MCP manager the first time, the existing one afterwards |
| Gateway.InitializeIdempotent | src/llmgine/llm/tools/enhanced_tool_manager.py:61-62 | initialising twice is initialising once; an existing manager is kept |
| Gateway.LocalSchemas | src/llmgine/llm/tools/enhanced_tool_manager.py:128-139 | one schema per local function |
| Gateway.LocalSchemasStep | src/llmgine/llm/tools/enhanced_tool_manager.py:132-135 | one more function adds its schema at the end |
| Gateway.LocalSchemaAt | src/llmgine/llm/tools/enhanced_tool_manager.py:132-135 | the i-th local schema is that of the i-th registered function |
| Gateway.Refresh | src/llmgine/llm/tools/enhanced_tool_manager.py:108-121 | without an MCP system nothing changes; a refresh keeps the local functions and well-formedness |
| Gateway.RefreshSpec | src/llmgine/llm/tools/enhanced_tool_manager.py:115-121 | the schema list becomes the local schemas followed by the MCP schemas; the cache describes the same listing; the active servers and their order are unchanged |
| Gateway.RefreshedSchemas | src/llmgine/llm/tools/enhanced_tool_manager.py:108-139 | after a refresh, the schema list holds exactly one schema per local function, in registration order, with no name twice, followed by one schema per cached MCP tool, each qualified by its server |
| Gateway.Layout | src/llmgine/llm/tools/enhanced_tool_manager.py:118-121 | the same layout for any listing |
| Gateway.SchemaBehindLocal | src/llmgine/llm/tools/enhanced_tool_manager.py:118 | behind the local schemas, the k-th MCP schema matches the k-th cache entry |
| Gateway.McpAnswerText | src/llmgine/llm/tools/enhanced_tool_manager.py:185-190 | an exception gives "Error: {msg}"; no content gives the fixed text; a normal result gives its texts; a result marked as an error gives only the generic text |
| Gateway.ExecuteMcpTool | src/llmgine/llm/tools/enhanced_tool_manager.py:165-194 | keeps the local functions, the cache and well-formedness; its result for every route is stated by `Gateway.QualifiedMcpCall` (a non-empty server part), `Gateway.LeadingUnderscoreMcpCall` (an empty one) and `Gateway.BareMcpCall` (no `_`) |
| Gateway.ExecuteToolCall | src/llmgine/llm/tools/enhanced_tool_manager.py:150-163 | keeps the local functions, the cache and well-formedness |
| Gateway.LocalToolsComeFirst | src/llmgine/llm/tools/enhanced_tool_manager.py:152-163 | a local function is always called locally, touching no server; otherwise the MCP path is taken if it exists, and failing both the name is not found |
| Gateway.QualifiedMcpCall | src/llmgine/llm/tools/enhanced_tool_manager.py:165-194 | a qualified name that is not local changes no state; for an active server it reaches that server's worker with the bare tool name and the parsed arguments; for an inactive server the text is "Error: " and the manager's not-active error; unparsable arguments give the MCP parsing error |
| Gateway.BareMcpCall | src/llmgine/llm/tools/enhanced_tool_manager.py:165-194 | a name without `_` that is not local goes to the first active server offering it, with the parsed arguments, and the result names no server; when no server offers it the text is "Error: " and the not-found error; only the caches the search fills change; unparsable arguments give the MCP parsing error |
| Gateway.ExecuteAll | src/llmgine/llm/tools/tool_manager.py:138-144 | the inherited batch dispatched through this manager: one result per call, the local functions and the cache kept |
| Gateway.ExecuteAllStep | src/llmgine/llm/tools/tool_manager.py:140-143 | one more call runs on the state the earlier calls left, and its result is appended |
| Gateway.ExecuteAllPerCall | src/llmgine/llm/tools/tool_manager.py:138-144 | result i is that of `execute_tool_call` on call i, in the state calls 0..i-1 left |
| Gateway.LocalBatch | src/llmgine/llm/tools/tool_manager.py:138-144 | without an MCP system a batch is exactly the inherited batch of local calls and changes nothing |
| Gateway.LeadingUnderscoreMcpCall | src/llmgine/llm/tools/enhanced_tool_manager.py:165-194 | a name `_tool` that is not local goes, as `tool`, to the first active server offering `tool`, and the result names no server; when no server offers it the text is "Error: " and the not-found error for `tool`; only the caches the search fills change; unparsable arguments give the MCP parsing error |
| Gateway.McpExecutionError | src/llmgine/llm/tools/enhanced_tool_manager.py:194 | defined by its body, no contract of its own: the text for an MCP call whose arguments do not parse; its use is stated by `Gateway.QualifiedMcpCall`, `Gateway.BareMcpCall` and `Gateway.LeadingUnderscoreMcpCall` |
| Gateway.McpText | src/llmgine/llm/tools/enhanced_tool_manager.py:185-190 | defined by its body, no contract of its own; what it gives for each answer is stated by `Gateway.McpAnswerText` |
| Gateway.IsMcpToolIff | src/llmgine/llm/tools/enhanced_tool_manager.py:232-237 | a name is an MCP tool exactly when some cached tool has it as its bare or its qualified name |
| Gateway.IsMcpTool | src/llmgine/llm/tools/enhanced_tool_manager.py:232-237 | defined by its body, no contract of its own; its meaning is stated by `Gateway.IsMcpToolIff` |
| Gateway.IsLocalTool | src/llmgine/llm/tools/enhanced_tool_manager.py:239-241 | a name in the local functions dict (no contract of its own) |
| Gateway.RefreshPublishesListedTools | src/llmgine/llm/tools/enhanced_tool_manager.py:108-121 | after a refresh every listed tool has its schema and cache entry and is recognised by its bare and its qualified name |
| Gateway.RefreshPublishesSchema | src/llmgine/llm/tools/enhanced_tool_manager.py:115-118 | after a refresh every listed tool's schema is published |
| Gateway.ParseToolsToList | src/llmgine/llm/tools/enhanced_tool_manager.py:196-198 | the schema list itself, never `None` |
| Gateway.ListAllTools | src/llmgine/llm/tools/enhanced_tool_manager.py:200-223 | the local names, the cache, one connected flag per active server (all set) and the number of schemas |
| Gateway.GetMcpServerStatus | src/llmgine/llm/tools/enhanced_tool_manager.py:225-230 | nothing without an MCP system; otherwise one health flag per active server, set exactly when its listing succeeds |
| Gateway.Cleanup | src/llmgine/llm/tools/enhanced_tool_manager.py:243-247 | the MCP manager is emptied; the local functions, the schemas and the cache are kept |
| Gateway.StaleCacheAfterCleanup | src/llmgine/llm/tools/enhanced_tool_manager.py:243-247 | after a cleanup the cache still names the tools, but a call of a qualified name fails: the server is no longer active |
| Gateway.AddMcpServer | src/llmgine/llm/tools/enhanced_tool_manager.py:77-106 | initialises the MCP system and keeps the local functions and well-formedness |
| Gateway.AddMcpServerSpec | src/llmgine/llm/tools/enhanced_tool_manager.py:90-106 | the result is exactly `start_mcp`'s; only a successful start refreshes; a failed start leaves the schemas and the cache as they were |
| Gateway.AddedServerIsPublished | src/llmgine/llm/tools/enhanced_tool_manager.py:99-106 | each tool of a server that connects and answers is published with a schema, a cache entry, and its qualified name |
| Gateway.StartedServerIsListedLast | src/any_mcp/managers/manager.py:117-128 | a server that was just started, connects and answers is listed last, with its catalogue |
| Gateway.NewServerConfig | src/llmgine/llm/tools/enhanced_tool_manager.py:250-257 | the fields as given, a missing environment stored as `{}` |
| Gateway.Add | src/llmgine/llm/tools/enhanced_tool_manager.py:282-287 | adding one configured server leaves an MCP system |
| Gateway.AddAll | src/llmgine/llm/tools/enhanced_tool_manager.py:280-287 | the loop keeps well-formedness and the MCP system |
| Gateway.CreateWithServers | src/llmgine/llm/tools/enhanced_tool_manager.py:260-289 | the new manager has an MCP system and no local function |
| Gateway.AddAllKeepsLocal | src/llmgine/llm/tools/enhanced_tool_manager.py:280-287 | adding servers never touches the local functions |
| Gateway.AddAllActivates | src/llmgine/llm/tools/enhanced_tool_manager.py:280-287 | distinct new servers that all connect are activated, appended in the list's order |
| Gateway.AddAllStep | src/llmgine/llm/tools/enhanced_tool_manager.py:281-287 | the last server is appended behind those added before it |
| Gateway.AddAppends | src/llmgine/llm/tools/enhanced_tool_manager.py:282-287 | a new server that connects is appended to the order |
| Gateway.AddActivates | src/llmgine/llm/tools/enhanced_tool_manager.py:282-287 | one more server that connects, under a new name, is appended |
| Gateway.NamesOf | src/llmgine/llm/tools/enhanced_tool_manager.py:281 | the k-th name is that of the k-th configuration |
| Gateway.CreateActivatesEachServer | src/llmgine/llm/tools/enhanced_tool_manager.py:260-289 | a manager created with distinct servers that all connect has exactly those servers active, in the list's order |
| EnhancedManager.EnhancedToolManager.constructor | src/llmgine/llm/tools/enhanced_tool_manager.py:39-52 | the new object's state is `Gateway.Fresh` |
| EnhancedManager.EnhancedToolManager.InitializeMcp | src/llmgine/llm/tools/enhanced_tool_manager.py:54-75 | result and state as `Gateway.InitializeMcp` says; once initialised, neither the manager object nor the adapter object is replaced; the first call creates both, the adapter working on the new manager |
| EnhancedManager.EnhancedToolManager.AddMcpServer | src/llmgine/llm/tools/enhanced_tool_manager.py:77-106 | result and state as `Gateway.AddMcpServer` says |
| EnhancedManager.EnhancedToolManager.AddServers | src/llmgine/llm/tools/enhanced_tool_manager.py:280-287 | the loop gives `Gateway.AddAll`'s state |
| EnhancedManager.EnhancedToolManager.AddConfigured | src/llmgine/llm/tools/enhanced_tool_manager.py:282-287 | one configured server added: `Gateway.Add`'s state |
| EnhancedManager.EnhancedToolManager.StartServer | src/llmgine/llm/tools/enhanced_tool_manager.py:99-106 | the start's result, and a refresh only on success |
| EnhancedManager.EnhancedToolManager.RefreshMcpTools | src/llmgine/llm/tools/enhanced_tool_manager.py:108-126 | the state `Gateway.Refresh` gives |
| EnhancedManager.EnhancedToolManager.PublishSchemas | src/llmgine/llm/tools/enhanced_tool_manager.py:115-118 | the schema list becomes the local schemas followed by the adapter's MCP schemas |
| EnhancedManager.EnhancedToolManager.McpSchemas | src/llmgine/llm/tools/enhanced_tool_manager.py:115 | the adapter's schemas of a fresh listing |
| EnhancedManager.EnhancedToolManager.CacheTools | src/llmgine/llm/tools/enhanced_tool_manager.py:121 | the cache becomes the adapter's descriptions of a fresh listing |
| EnhancedManager.EnhancedToolManager.GetLocalSchemas | src/llmgine/llm/tools/enhanced_tool_manager.py:128-139 | the loop gives `Gateway.LocalSchemas` |
| EnhancedManager.EnhancedToolManager.RegisterTool | src/llmgine/llm/tools/enhanced_tool_manager.py:141-144 | the inherited registration, nothing else |
| EnhancedManager.EnhancedToolManager.ExecuteToolCall | src/llmgine/llm/tools/enhanced_tool_manager.py:150-163 | result and state as `Gateway.ExecuteToolCall` says |
| EnhancedManager.EnhancedToolManager.ExecuteToolCalls | src/llmgine/llm/tools/tool_manager.py:138-144 | the sequential loop gives `Gateway.ExecuteAll`'s results and state |
| EnhancedManager.EnhancedToolManager.ExecuteMcpTool | src/llmgine/llm/tools/enhanced_tool_manager.py:165-194 | result and state as `Gateway.ExecuteMcpTool` says |
| EnhancedManager.EnhancedToolManager.ParseToolsToList | src/llmgine/llm/tools/enhanced_tool_manager.py:196-198 | gives `Gateway.ParseToolsToList` |
| EnhancedManager.EnhancedToolManager.ListAllTools | src/llmgine/llm/tools/enhanced_tool_manager.py:200-223 | gives `Gateway.ListAllTools` |
| EnhancedManager.EnhancedToolManager.GetMcpServerStatus | src/llmgine/llm/tools/enhanced_tool_manager.py:225-230 | result and state as `Gateway.GetMcpServerStatus` says |
| EnhancedManager.EnhancedToolManager.IsMcpTool | src/llmgine/llm/tools/enhanced_tool_manager.py:232-237 | gives `Gateway.IsMcpTool` of the cache |
| EnhancedManager.EnhancedToolManager.IsLocalTool | src/llmgine/llm/tools/enhanced_tool_manager.py:239-241 | registered as a local function |
| EnhancedManager.EnhancedToolManager.Cleanup | src/llmgine/llm/tools/enhanced_tool_manager.py:243-247 | the state `Gateway.Cleanup` gives |
| EnhancedManager.CreateWithServers | src/llmgine/llm/tools/enhanced_tool_manager.py:260-289 | a fresh manager in the state `Gateway.CreateWithServers` gives |

## Left out

- Process spawning, the stdio transport and the `ClientSession` handshake (src/any_mcp/core/client.py:55-73; src/llmgine/llm/tools/mcp_client.py:35-57). Foreign I/O in the `mcp` library; each launch's outcome is the `Worker` record passed in, and each call's reply is the `Answer` function.
- `async`/`await` scheduling and `asyncio.sleep(1)` in `restart_server`. Every coroutine runs to completion in program order, and the sleep changes no state.
- The fire-and-forget `asyncio.create_task(self._refresh_mcp_tools())` in `EnhancedToolManager.register_tool`. A background task has no place in a sequential model. `RefreshMcpTools` is the explicit step that task would run.
- `json.loads`. It is the `Decoder` parameter, giving a value or the text of the error it raises.
- `inspect.signature` and `inspect.getdoc`. They are replaced by the explicit `Param` list and the `doc` field of `LocalTool`. Calling an arbitrary callable with `**args` is replaced by the tool's `run` function on the argument object's fields; the `TypeError` that `**` raises for a non-mapping names the function by its registered name, where Python uses its `__qualname__`.
- Floating-point values are not among the modelled JSON values.
- `ToolManager.register_mcp_server` and `chat_history_to_messages`. They are not part of the modelled core, so nothing in the model adds to `mcp_clients`; `cleanup_mcp_servers` is modelled over whatever clients it holds.
- `get_default_mcp_servers`. A constant list of one demo configuration.
- Logging, `__repr__`, and the async context-manager methods.
- src/llmgine/llm/tools/toolCall.py is not part of this model. A tool call is modelled as `ToolCall(id, name, arguments)`.
- src/llmgine/llm/tools/mcp_tool_manager.py is not part of this model. It calls `MCPManager` methods that do not exist.
- The demo programs, the chat engine and the demo calculator worker are also outside the model.
- `except` branches that cannot fire in the modelled code are not modelled:
  - in `initialize_mcp` and `start_mcp`, the object construction and the dict updates do not raise, and `connect` catches its own exceptions;
  - `stop_mcp`: `disconnect` swallows its own errors;
  - `list_available_tools` and `get_all_openai_schemas`: `list_all_tools` already turns each failure into `[]`;
  - `_refresh_mcp_tools`: nothing it calls raises;
  - `_get_local_schemas`: schema generation does not raise on the modelled parameters;
  - `_format_tool_result`: its "Failed to format result" path;
  - `_extract_text_content`: its exception handler.
- The `if not self.mcp_manager` branch of `add_mcp_server` is unreachable, because `initialize_mcp` always sets the manager first.
- The insertion order of `_server_configs`, of the `health_check` result and of the `mcp_servers` dict in `list_all_tools` is not modelled; all three are plain maps (`Gateway.ListAllTools` gives `mcp_servers` by key, not in the `active_clients` order it follows in the source).
- A worker answers every catalogue request alike: `Worker.catalogue` is one fixed answer, where a real session may fail one request and succeed at the next. The source caches only a listing that succeeds, so a failed listing is asked of the session again. Three results rest on this assumption: `Connection.ListingIsStable` and `ServerRegistry.ListAllTwice` for a server whose listing failed, and the cache clause of `Gateway.RefreshSpec` and `Gateway.RefreshedSchemas`. Without the assumption, `_refresh_mcp_tools` (src/llmgine/llm/tools/enhanced_tool_manager.py:115-121) lists twice, so a server whose first listing raises and whose second answers leaves cached tools that have no published schema; the model does not capture that case.
- `is_server_active`'s `is_connected()` check always holds. Only clients whose `connect` succeeded are stored, and nothing else disconnects a stored client.
- McpManager.MCPManager.Cleanup: its contract states only the emptied registry. It does not state that each removed client object was told to disconnect; `StopMcp`, which it calls for every active server, states that.
- EnhancedManager.EnhancedToolManager.Cleanup: weaker in the same way, since it delegates to `McpManager.MCPManager.Cleanup`.
- A server name containing `_` cannot be reached by its qualified tool names. This behaviour of the source is kept and stated as a counterexample (`ToolAdapter.UnderscoredServerIsMisparsed`, `ToolAdapter.MisparsedExample`), not corrected.
