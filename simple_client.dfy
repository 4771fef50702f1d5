/** The single-server client of the local tool manager (`SimpleMCPClient`)
    as a value: the `_connected` flag, whether a session object is held,
    and the tool list loaded when the server starts. */
module SimpleClient {
  import opened Values
  import opened Protocol

  /** The state of a `SimpleMCPClient`: its server name, the worker process
      its launches reach, `_connected`, `session is not None` and `_tools`. */
  datatype SimpleConn = SimpleConn(name: string, worker: Worker, connected: bool, hasSession: bool, tools: seq<Tool>)

  /** `SimpleMCPClient(server_name)`. */
  function Fresh(name: string, worker: Worker): (c: SimpleConn)
    ensures c.name == name && c.worker == worker
    ensures !c.connected && !c.hasSession && c.tools == []
  {
    SimpleConn(name, worker, false, false, [])
  }

  /** `start`: never raises. It succeeds exactly when the process and the
      session come up and the first catalogue request is answered; the
      catalogue is then the client's tool list. On failure `_connected` is
      false and the tool list is kept; a session object created before the
      failure stays assigned. */
  function Start(c: SimpleConn): (r: (bool, SimpleConn))
    ensures r.0 <==> c.worker.connect.Connects? && c.worker.catalogue.Ok?
    ensures r.0 <==> r.1.connected
    ensures r.0 ==> r.1.hasSession && r.1.tools == c.worker.catalogue.value
    ensures !r.0 ==> r.1.tools == c.tools
    ensures c.worker.connect.SpawnFails? ==> r.1.hasSession == c.hasSession
    ensures !c.worker.connect.SpawnFails? ==> r.1.hasSession
    ensures r.1.name == c.name && r.1.worker == c.worker
  {
    match c.worker.connect
    case SpawnFails(_) => (false, c.(connected := false))
    case HandshakeFails(_) => (false, c.(hasSession := true, connected := false))
    case Connects =>
      match c.worker.catalogue
      case Ok(tools) => (true, c.(hasSession := true, tools := tools, connected := true))
      case Raises(_) => (false, c.(hasSession := true, connected := false))
  }

  /** The text of the `RuntimeError` raised by a call without a live session. */
  function NotConnected(name: string): string {
    "MCP server " + name + " not connected"
  }

  /** `call_tool`: refused unless connected and holding a session;
      otherwise the worker's answer, an exception being re-raised. */
  function CallTool(c: SimpleConn, tool: string, arguments: Json, answer: Answer)
    : (r: Fallible<Option<CallToolResult>>)
    ensures !(c.connected && c.hasSession) ==> r == Raises(NotConnected(c.name))
    ensures c.connected && c.hasSession ==> r == answer(c.name, tool, arguments)
  {
    if !c.connected || !c.hasSession then Raises(NotConnected(c.name))
    else answer(c.name, tool, arguments)
  }

  /** `stop`: nothing happens to a client that is not connected. A
      connected client whose process and stream are released ends
      disconnected with no session and no tools; when the release raises,
      `stop` raises too (reported as `true`) and the state is untouched. */
  function Stop(c: SimpleConn): (r: (bool, SimpleConn))
    ensures !c.connected ==> r == (false, c)
    ensures c.connected && c.worker.closeFails ==> r == (true, c)
    ensures c.connected && !c.worker.closeFails ==>
              !r.0 && !r.1.connected && !r.1.hasSession && r.1.tools == []
    ensures r.1.name == c.name && r.1.worker == c.worker
  {
    if !c.connected then (false, c)
    else if c.worker.closeFails then (true, c)
    else (false, c.(connected := false, hasSession := false, tools := []))
  }

  /** After a successful start the client lists the worker's catalogue and
      its calls reach the worker. */
  lemma StartedClientServes(c: SimpleConn, tool: string, arguments: Json, answer: Answer)
    requires Start(c).0
    ensures Start(c).1.tools == c.worker.catalogue.value
    ensures CallTool(Start(c).1, tool, arguments, answer) == answer(c.name, tool, arguments)
  {
  }

  /** After a failed start every call is refused. */
  lemma FailedStartRefusesCalls(c: SimpleConn, tool: string, arguments: Json, answer: Answer)
    requires !Start(c).0
    ensures CallTool(Start(c).1, tool, arguments, answer) == Raises(NotConnected(c.name))
  {
  }

  /** A clean stop after a successful start leaves a client that refuses
      calls and lists nothing; stopping it again does nothing. */
  lemma StopAfterStart(c: SimpleConn, tool: string, arguments: Json, answer: Answer)
    requires Start(c).0 && !c.worker.closeFails
    ensures Stop(Start(c).1).1.tools == []
    ensures CallTool(Stop(Start(c).1).1, tool, arguments, answer) == Raises(NotConnected(c.name))
    ensures Stop(Stop(Start(c).1).1) == (false, Stop(Start(c).1).1)
  {
  }
}

/** The `SimpleMCPClient` object, its fields updated in place as the
    `SimpleClient` functions say. */
module SimpleMcpClient {
  import opened Values
  import opened Protocol
  import SimpleClient

  class SimpleMCPClient {
    const serverName: string
    /** The worker process this client's launches reach. */
    const worker: Worker
    var connected: bool
    var hasSession: bool
    var tools: seq<Tool>

    ghost function View(): SimpleClient.SimpleConn
      reads this
    {
      SimpleClient.SimpleConn(serverName, worker, connected, hasSession, tools)
    }

    constructor (serverName: string, worker: Worker)
      ensures View() == SimpleClient.Fresh(serverName, worker)
    {
      this.serverName := serverName;
      this.worker := worker;
      connected := false;
      hasSession := false;
      tools := [];
    }

    /** `start(command, args, env)`; the launch parameters reach only the
        transport, whose outcome is the worker's. */
    method Start(command: string, args: seq<string>, env: Option<map<string, string>>) returns (ok: bool)
      modifies this
      ensures (ok, View()) == SimpleClient.Start(old(View()))
    {
      if worker.connect.SpawnFails? {
        connected := false;
        return false;
      }
      hasSession := true;
      if worker.connect.HandshakeFails? || worker.catalogue.Raises? {
        connected := false;
        return false;
      }
      tools := worker.catalogue.value;
      connected := true;
      ok := true;
    }

    function GetTools(): (ts: seq<Tool>)
      reads this
      ensures ts == View().tools
    {
      tools
    }

    method CallTool(name: string, arguments: Json, answer: Answer) returns (r: Fallible<Option<CallToolResult>>)
      ensures r == SimpleClient.CallTool(View(), name, arguments, answer)
    {
      if !connected || !hasSession {
        return Raises(SimpleClient.NotConnected(serverName));
      }
      r := answer(serverName, name, arguments);
    }

    /** `stop`; `raised` reports that releasing the process raised. */
    method Stop() returns (raised: bool)
      modifies this
      ensures (raised, View()) == SimpleClient.Stop(old(View()))
    {
      raised := false;
      if connected {
        if worker.closeFails {
          return true;
        }
        connected := false;
        hasSession := false;
        tools := [];
      }
    }

    function IsConnected(): (b: bool)
      reads this
      ensures b == View().connected
    {
      connected
    }
  }
}
