/** One server connection (`MCPClient`) as a value: the `_connected` flag,
    whether a session object is held, and the cached tool catalogue. Each
    function gives an operation's outcome together with the new state. */
module Connection {
  import opened Values
  import opened Protocol

  /** The state of an `MCPClient`: its server name, the worker process its
      connection reaches, `_connected`, `session is not None`, `_tools_cache`. */
  datatype Conn = Conn(name: string, worker: Worker, connected: bool, hasSession: bool, cache: Option<seq<Tool>>)

  /** `MCPClient(name)` before `connect`. */
  function Fresh(name: string, worker: Worker): (c: Conn)
    ensures c.name == name && c.worker == worker
    ensures !c.connected && !c.hasSession && c.cache.None?
  {
    Conn(name, worker, false, false, None)
  }

  /** The guard of `list_tools` and `call_tool`: connected and holding a session. */
  predicate Ready(c: Conn) {
    c.connected && c.hasSession
  }

  /** The text of the `RuntimeError` raised when a call finds no live session. */
  function NotConnected(name: string): string {
    "Not connected to MCP server " + name
  }

  /** `connect`: never raises; it reports success exactly when the worker's
      session comes up, and the `_connected` flag then agrees with the result.
      A failed handshake leaves the session object assigned. */
  function Connect(c: Conn): (r: (bool, Conn))
    ensures r.0 <==> c.worker.connect.Connects?
    ensures r.0 <==> r.1.connected
    ensures r.0 ==> Ready(r.1)
    ensures c.worker.connect.SpawnFails? ==> r.1.hasSession == c.hasSession
    ensures c.worker.connect.HandshakeFails? ==> r.1.hasSession
    ensures r.1.name == c.name && r.1.worker == c.worker && r.1.cache == c.cache
  {
    match c.worker.connect
    case Connects => (true, c.(connected := true, hasSession := true))
    case SpawnFails(_) => (false, c.(connected := false))
    case HandshakeFails(_) => (false, c.(connected := false, hasSession := true))
  }

  /** `list_tools`: refused without a live session; served from the cache
      when one is held, without asking the session; otherwise the session's
      answer, which is cached when it succeeds. Only the cache ever changes. */
  function ListTools(c: Conn): (r: (Fallible<seq<Tool>>, Conn))
    ensures !Ready(c) ==> r == (Raises(NotConnected(c.name)), c)
    ensures Ready(c) && c.cache.Some? ==> r == (Ok(c.cache.value), c)
    ensures Ready(c) && c.cache.None? ==> r.0 == c.worker.catalogue
    ensures r.0.Ok? ==> r.1 == c.(cache := Some(r.0.value))
    ensures r.0.Raises? ==> r.1 == c
  {
    if !Ready(c) then (Raises(NotConnected(c.name)), c)
    else if c.cache.Some? then (Ok(c.cache.value), c)
    else match c.worker.catalogue
      case Ok(tools) => (Ok(tools), c.(cache := Some(tools)))
      case Raises(m) => (Raises(m), c)
  }

  /** The first tool of `tools` named `name`, if any. */
  function FirstNamed(tools: seq<Tool>, name: string): Option<Tool> {
    if tools == [] then None
    else if tools[0].name == name then Some(tools[0])
    else FirstNamed(tools[1..], name)
  }

  /** `FirstNamed` finds nothing exactly when no tool has that name, and
      otherwise a tool with that name that no earlier tool shares. */
  lemma {:induction false} FirstNamedIsFirst(tools: seq<Tool>, name: string)
    ensures FirstNamed(tools, name).None? <==> forall k :: 0 <= k < |tools| ==> tools[k].name != name
    ensures FirstNamed(tools, name).Some? ==>
              exists k :: 0 <= k < |tools| && tools[k] == FirstNamed(tools, name).value
                          && tools[k].name == name
                          && forall j :: 0 <= j < k ==> tools[j].name != name
  {
    if tools != [] && tools[0].name != name {
      var r := FirstNamed(tools[1..], name);
      FirstNamedIsFirst(tools[1..], name);
      assert forall k :: 1 <= k < |tools| ==> tools[k] == tools[1..][k - 1];
      if r.Some? {
        var k :| 0 <= k < |tools[1..]| && tools[1..][k] == r.value && tools[1..][k].name == name
                 && forall j :: 0 <= j < k ==> tools[1..][j].name != name;
        assert tools[k + 1] == r.value;
      }
    }
  }

  /** `get_tool`: the listing's first tool with that name; a listing that
      raises makes `get_tool` raise the same exception. */
  function GetTool(c: Conn, name: string): (r: (Fallible<Option<Tool>>, Conn))
    ensures r.1 == ListTools(c).1
    ensures ListTools(c).0.Raises? ==> r.0 == Raises(ListTools(c).0.msg)
    ensures ListTools(c).0.Ok? ==> r.0 == Ok(FirstNamed(ListTools(c).0.value, name))
  {
    var (listing, c') := ListTools(c);
    match listing
    case Ok(tools) => (Ok(FirstNamed(tools, name)), c')
    case Raises(m) => (Raises(m), c')
  }

  /** `call_tool`: refused without a live session; otherwise the tool name
      and the arguments reach the worker unchanged and its answer is returned. */
  function CallTool(c: Conn, tool: string, arguments: Json, answer: Answer): (r: Fallible<Option<CallToolResult>>)
    ensures !Ready(c) ==> r == Raises(NotConnected(c.name))
    ensures Ready(c) ==> r == answer(c.name, tool, arguments)
  {
    if !Ready(c) then Raises(NotConnected(c.name)) else answer(c.name, tool, arguments)
  }

  /** `clear_tools_cache`. */
  function ClearCache(c: Conn): (r: Conn)
    ensures r.cache.None? && r == c.(cache := None)
  {
    c.(cache := None)
  }

  /** `disconnect`: never raises. A connected client whose process and stream
      are released ends disconnected, without a session and without a cache;
      a disconnected client is left as it is, and so is one whose release
      raised (the exception is logged and swallowed). */
  function Disconnect(c: Conn): (r: Conn)
    ensures !c.connected ==> r == c
    ensures c.connected && !c.worker.closeFails ==> !r.connected && !r.hasSession && r.cache.None?
    ensures c.connected && c.worker.closeFails ==> r == c
    ensures r.name == c.name && r.worker == c.worker
  {
    if c.connected && !c.worker.closeFails then c.(connected := false, hasSession := false, cache := None)
    else c
  }

  /** Listing again gives the same answer and changes nothing: after a
      successful listing the second answer comes from the cache; after a
      failed one the client is as it was, and the session is asked again.
      That it fails again rests on the model's worker answering every
      catalogue request alike. */
  lemma ListingIsStable(c: Conn)
    ensures ListTools(ListTools(c).1) == ListTools(c)
  {
  }

  /** Once a catalogue is cached the worker is no longer consulted: the same
      client over any other worker lists the same tools. */
  lemma CachedListingIgnoresWorker(c: Conn, w: Worker)
    requires Ready(c) && c.cache.Some?
    ensures ListTools(c.(worker := w)).0 == ListTools(c).0 == Ok(c.cache.value)
  {
  }

  /** After `clear_tools_cache` the next listing asks the session again. */
  lemma ClearedCacheQueriesSession(c: Conn)
    requires Ready(c)
    ensures ListTools(ClearCache(c)).0 == c.worker.catalogue
  {
  }

  /** `disconnect` twice is `disconnect` once. */
  lemma DisconnectIdempotent(c: Conn)
    ensures Disconnect(Disconnect(c)) == Disconnect(c)
  {
  }

  /** A successful connection on a fresh client makes every later listing and
      lookup reach the worker's catalogue. */
  lemma ConnectedLookupReachesWorker(name: string, worker: Worker, tool: string)
    requires worker.connect.Connects? && worker.catalogue.Ok?
    ensures GetTool(Connect(Fresh(name, worker)).1, tool).0 == Ok(FirstNamed(worker.catalogue.value, tool))
  {
  }
}

/** The `MCPClient` object: its fields, updated in place by each operation
    exactly as the `Connection` functions say. */
module McpClient {
  import opened Values
  import opened Protocol
  import Connection

  class MCPClient {
    const serverName: string
    /** The worker process this client's connection reaches (the session oracle). */
    const worker: Worker
    var connected: bool
    var hasSession: bool
    var toolsCache: Option<seq<Tool>>

    ghost function View(): Connection.Conn
      reads this
    {
      Connection.Conn(serverName, worker, connected, hasSession, toolsCache)
    }

    constructor (serverName: string, worker: Worker)
      ensures View() == Connection.Fresh(serverName, worker)
    {
      this.serverName := serverName;
      this.worker := worker;
      connected := false;
      hasSession := false;
      toolsCache := None;
    }

    /** `connect(command, args, env)`; the launch parameters reach only the
        transport, whose outcome is the worker's. */
    method Connect(command: string, args: seq<string>, env: Option<map<string, string>>) returns (ok: bool)
      modifies this
      ensures (ok, View()) == Connection.Connect(old(View()))
    {
      match worker.connect
      case Connects =>
        hasSession := true;
        connected := true;
        ok := true;
      case SpawnFails(_) =>
        connected := false;
        ok := false;
      case HandshakeFails(_) =>
        hasSession := true;
        connected := false;
        ok := false;
    }

    method ListTools() returns (r: Fallible<seq<Tool>>)
      modifies this
      ensures (r, View()) == Connection.ListTools(old(View()))
    {
      if !connected || !hasSession {
        return Raises(Connection.NotConnected(serverName));
      }
      if toolsCache.Some? {
        return Ok(toolsCache.value);
      }
      match worker.catalogue
      case Raises(m) =>
        r := Raises(m);
      case Ok(tools) =>
        toolsCache := Some(tools);
        r := Ok(tools);
    }

    method CallTool(name: string, arguments: Json, answer: Answer) returns (r: Fallible<Option<CallToolResult>>)
      ensures r == Connection.CallTool(View(), name, arguments, answer)
    {
      if !connected || !hasSession {
        return Raises(Connection.NotConnected(serverName));
      }
      r := answer(serverName, name, arguments);
    }

    /** `get_tool`: a linear search of the listing. */
    method GetTool(name: string) returns (r: Fallible<Option<Tool>>)
      modifies this
      ensures (r, View()) == Connection.GetTool(old(View()), name)
    {
      var listing := ListTools();
      if listing.Raises? {
        return Raises(listing.msg);
      }
      var tools := listing.value;
      var i := 0;
      while i < |tools|
        invariant 0 <= i <= |tools|
        invariant Connection.FirstNamed(tools[i..], name) == Connection.FirstNamed(tools, name)
      {
        if tools[i].name == name {
          return Ok(Some(tools[i]));
        }
        assert tools[i..][1..] == tools[i + 1..];
        i := i + 1;
      }
      r := Ok(None);
    }

    function IsConnected(): (b: bool)
      reads this
      ensures b == View().connected
    {
      connected
    }

    method ClearToolsCache()
      modifies this
      ensures View() == Connection.ClearCache(old(View()))
    {
      toolsCache := None;
    }

    method Disconnect()
      modifies this
      ensures View() == Connection.Disconnect(old(View()))
    {
      if connected {
        // exit_stack.aclose(); an exception from it is logged and swallowed
        if !worker.closeFails {
          connected := false;
          hasSession := false;
          toolsCache := None;
        }
      }
    }
  }
}
