/** The connection registry (`MCPManager`) as a value: the active clients
    keyed by server name in registration order, and the stored launch
    configurations. Each function gives an operation's outcome together with
    the new registry. */
module ServerRegistry {
  import opened Values
  import opened Protocol
  import Connection

  /** A stored launch configuration `{command, args, env}`. */
  datatype ServerConfig = ServerConfig(command: string, args: seq<string>, env: map<string, string>)

  /** `active_clients`, as its keys in insertion order plus the client of each
      key, and `_server_configs`, whose order is never observed. */
  datatype Registry = Registry(order: seq<string>, clients: map<string, Connection.Conn>, configs: map<string, ServerConfig>)

  /** One entry of the `list_all_tools` result: a server and its tools. */
  datatype ServerTools = ServerTools(server: string, tools: seq<Tool>)

  /** A freshly created manager, and the state `cleanup` leaves. */
  function Empty(): (r: Registry)
    ensures r.order == [] && r.clients == map[] && r.configs == map[]
  {
    Registry([], map[], map[])
  }

  /** What the manager keeps true: the key order lists each active name once
      and nothing else, and every active client is the connected client of
      that very server (only clients whose `connect` succeeded are stored). */
  ghost predicate Valid(r: Registry) {
    && Distinct(r.order)
    && (forall n :: n in r.clients <==> n in r.order)
    && (forall n :: n in r.clients ==> r.clients[n].name == n && Connection.Ready(r.clients[n]))
  }

  /** Adding a ready client under a new name, after the others, keeps a
      registry well formed. */
  lemma AppendKeepsValid(r: Registry, n: string, c: Connection.Conn, config: ServerConfig)
    requires Valid(r) && n !in r.clients && c.name == n && Connection.Ready(c)
    ensures Valid(Registry(r.order + [n], r.clients[n := c], r.configs[n := config]))
  {
    assert n !in r.order;
    forall i, j | 0 <= i < j < |r.order + [n]|
      ensures (r.order + [n])[i] != (r.order + [n])[j]
    {
      assert (r.order + [n])[i] == r.order[i];
      if j < |r.order| {
        assert (r.order + [n])[j] == r.order[j];
      }
    }
  }

  /** Replacing the state of an active client by a ready state of the same
      server keeps a registry well formed. */
  lemma UpdateKeepsValid(r: Registry, n: string, c: Connection.Conn)
    requires Valid(r) && n in r.clients && c.name == n && Connection.Ready(c)
    ensures Valid(r.(clients := r.clients[n := c]))
  {
  }

  /** The key order after `del d[x]`. */
  function Without(s: seq<string>, x: string): (r: seq<string>)
    ensures forall y :: y in r <==> y in s && y != x
    ensures Distinct(s) ==> Distinct(r)
    ensures x !in s ==> r == s
  {
    if s == [] then []
    else if s[0] == x then Without(s[1..], x)
    else
      var t := Without(s[1..], x);
      assert Distinct(s) ==> Distinct([s[0]] + t) by {
        if Distinct(s) {
          DistinctTail(s);
          DistinctCons(s[0], t);
        }
      }
      [s[0]] + t
  }

  lemma DistinctTail(s: seq<string>)
    requires Distinct(s) && s != []
    ensures Distinct(s[1..]) && s[0] !in s[1..]
  {
    forall j | 0 <= j < |s[1..]|
      ensures s[1..][j] != s[0]
    {
      assert s[1..][j] == s[j + 1];
    }
  }

  lemma DistinctCons(a: string, t: seq<string>)
    requires Distinct(t) && a !in t
    ensures Distinct([a] + t)
  {
    forall i, j | 0 <= i < j < |[a] + t|
      ensures ([a] + t)[i] != ([a] + t)[j]
    {
      assert ([a] + t)[j] == t[j - 1];
      if i > 0 {
        assert ([a] + t)[i] == t[i - 1];
      }
    }
  }

  /** Deleting a key that occurs once, at index `k`, closes the gap it leaves. */
  lemma {:induction false} WithoutRemovesOne(s: seq<string>, k: nat)
    requires Distinct(s) && k < |s|
    ensures Without(s, s[k]) == s[..k] + s[k + 1..]
  {
    var t := s[1..];
    DistinctTail(s);
    if k == 0 {
      assert s[..k] + s[k + 1..] == t;
    } else {
      assert t[k - 1] == s[k] && s[0] != s[k];
      WithoutRemovesOne(t, k - 1);
      assert Without(s, s[k]) == [s[0]] + Without(t, s[k]);
      assert t[..k - 1] == s[1..k] && t[k..] == s[k + 1..];
      assert s[..k] + s[k + 1..] == [s[0]] + (s[1..k] + s[k + 1..]);
    }
  }

  /** Deleting the key that was added last gives back the earlier order. */
  lemma {:induction false} WithoutLast(s: seq<string>, x: string)
    requires x !in s
    ensures Without(s + [x], x) == s
  {
    if s == [] {
      assert [x][1..] == [];
    } else {
      assert (s + [x])[1..] == s[1..] + [x];
      WithoutLast(s[1..], x);
    }
  }

  /** `start_mcp`. A name that is already active gives true and no change.
      Otherwise the configuration `{command, args, env or {}}` is stored first,
      and a fresh client for `worker` is connected: on success it becomes the
      last active client; on failure the result is false, no client is added,
      and the stored configuration is kept. */
  function Start(r: Registry, name: string, command: string, args: seq<string>,
                 env: Option<map<string, string>>, worker: Worker): (res: (bool, Registry))
    ensures name in r.clients ==> res == (true, r)
    ensures name !in r.clients ==>
              && res.1.configs == r.configs[name := ServerConfig(command, args, OrEmpty(env))]
              && (res.0 <==> worker.connect.Connects?)
    ensures name !in r.clients && res.0 ==>
              && res.1.order == r.order + [name]
              && res.1.clients == r.clients[name := Connection.Conn(name, worker, true, true, None)]
    ensures name !in r.clients && !res.0 ==> res.1.order == r.order && res.1.clients == r.clients
    ensures Valid(r) ==> Valid(res.1)
  {
    if name in r.clients then (true, r)
    else
      var configs := r.configs[name := ServerConfig(command, args, OrEmpty(env))];
      var (ok, c) := Connection.Connect(Connection.Fresh(name, worker));
      if ok then (true, Registry(r.order + [name], r.clients[name := c], configs))
      else (false, r.(configs := configs))
  }

  /** `stop_mcp`. It always reports true: `disconnect` swallows its own
      errors. An inactive name changes nothing; an active one loses its
      client, its place in the order and its stored configuration, and every
      other entry is left as it was. */
  function Stop(r: Registry, name: string): (res: (bool, Registry))
    ensures res.0
    ensures name !in r.clients ==> res.1 == r
    ensures name in r.clients ==>
              && res.1.clients == r.clients - {name}
              && res.1.configs == r.configs - {name}
              && res.1.order == Without(r.order, name)
    ensures Valid(r) ==> Valid(res.1)
  {
    if name !in r.clients then (true, r)
    else (true, Registry(Without(r.order, name), r.clients - {name}, r.configs - {name}))
  }

  /** Stopping a server that was just started removes it again: the earlier
      order and clients come back, and only its configuration entry is gone. */
  lemma StopUndoesStart(r: Registry, name: string, command: string, args: seq<string>,
                        env: Option<map<string, string>>, worker: Worker)
    requires Valid(r) && name !in r.clients
    requires Start(r, name, command, args, env, worker).0
    ensures Stop(Start(r, name, command, args, env, worker).1, name).1 == r.(configs := r.configs - {name})
  {
    WithoutLast(r.order, name);
    assert r.clients[name := Connection.Conn(name, worker, true, true, None)] - {name} == r.clients;
  }

  /** The tools a listing yields, or `[]` when it raised. */
  function ToolsOrEmpty(l: Fallible<seq<Tool>>): (tools: seq<Tool>)
    ensures l.Ok? ==> tools == l.value
    ensures l.Raises? ==> tools == []
  {
    if l.Ok? then l.value else []
  }

  /** The registry after every active client has been listed once: the
      reference for what `list_all_tools` and `health_check` leave behind. */
  function Listed(r: Registry): (r': Registry)
    ensures r'.order == r.order && r'.configs == r.configs && r'.clients.Keys == r.clients.Keys
    ensures forall n :: n in r.clients ==> r'.clients[n] == Connection.ListTools(r.clients[n]).1
    ensures Valid(r) ==> Valid(r')
  {
    r.(clients := map n | n in r.clients :: Connection.ListTools(r.clients[n]).1)
  }

  /** The `list_all_tools` loop over the servers of `order`: each entry is
      appended to `acc` as its server is listed, threading the clients whose
      caches fill as they are asked. */
  function ListFrom(order: seq<string>, clients: map<string, Connection.Conn>, acc: seq<ServerTools>)
    : (res: (seq<ServerTools>, map<string, Connection.Conn>))
    requires forall n :: n in order ==> n in clients
    ensures res.1.Keys == clients.Keys
  {
    if order == [] then (acc, clients)
    else
      var (listing, c) := Connection.ListTools(clients[order[0]]);
      ListFrom(order[1..], clients[order[0] := c], acc + [ServerTools(order[0], ToolsOrEmpty(listing))])
  }

  /** `list_all_tools`. */
  function ListAll(r: Registry): (seq<ServerTools>, Registry)
    requires Valid(r)
  {
    var (listing, clients) := ListFrom(r.order, r.clients, []);
    (listing, r.(clients := clients))
  }

  /** The loop appends, for each server of a duplicate-free order, that
      server's own listing as asked of its client before the loop began, and
      leaves each listed client as one listing leaves it. */
  lemma {:induction false} ListFromSpec(order: seq<string>, clients: map<string, Connection.Conn>, acc: seq<ServerTools>)
    requires Distinct(order) && forall n :: n in order ==> n in clients
    ensures |ListFrom(order, clients, acc).0| == |acc| + |order|
    ensures ListFrom(order, clients, acc).0[..|acc|] == acc
    ensures forall k :: 0 <= k < |order| ==>
              ListFrom(order, clients, acc).0[|acc| + k]
              == ServerTools(order[k], ToolsOrEmpty(Connection.ListTools(clients[order[k]]).0))
    ensures forall n :: n in clients ==>
              ListFrom(order, clients, acc).1[n]
              == if n in order then Connection.ListTools(clients[n]).1 else clients[n]
  {
    if order != [] {
      var (listing, c) := Connection.ListTools(clients[order[0]]);
      var clients' := clients[order[0] := c];
      var acc' := acc + [ServerTools(order[0], ToolsOrEmpty(listing))];
      DistinctTail(order);
      ListFromSpec(order[1..], clients', acc');
      var res := ListFrom(order, clients, acc);
      assert res == ListFrom(order[1..], clients', acc');
      assert res.0[..|acc|] == res.0[..|acc'|][..|acc|];
      forall k | 1 <= k < |order|
        ensures res.0[|acc| + k] == ServerTools(order[k], ToolsOrEmpty(Connection.ListTools(clients[order[k]]).0))
      {
        assert order[1..][k - 1] == order[k] && order[k] != order[0];
        assert res.0[|acc| + k] == res.0[|acc'| + (k - 1)];
      }
      assert res.0[|acc|] == res.0[..|acc'|][|acc|];
    }
  }

  /** `list_all_tools` gives one entry per active server in registration
      order. A server whose listing succeeds shows its tools, one whose
      listing raises shows `[]`, and neither affects any other entry. Which
      servers are active is unchanged; only catalogue caches fill, exactly as
      one listing of each client fills them. */
  lemma ListAllIsolatesFaults(r: Registry)
    requires Valid(r)
    ensures |ListAll(r).0| == |r.order|
    ensures forall i :: 0 <= i < |r.order| ==>
              && ListAll(r).0[i].server == r.order[i]
              && (Connection.ListTools(r.clients[r.order[i]]).0.Ok? ==>
                    ListAll(r).0[i].tools == Connection.ListTools(r.clients[r.order[i]]).0.value)
              && (Connection.ListTools(r.clients[r.order[i]]).0.Raises? ==> ListAll(r).0[i].tools == [])
    ensures ListAll(r).1 == Listed(r) && Valid(ListAll(r).1)
  {
    ListAllEntries(r);
    ListAllState(r);
  }

  lemma ListAllEntries(r: Registry)
    requires Valid(r)
    ensures |ListAll(r).0| == |r.order|
    ensures forall i :: 0 <= i < |r.order| ==>
              ListAll(r).0[i] == ServerTools(r.order[i], ToolsOrEmpty(Connection.ListTools(r.clients[r.order[i]]).0))
  {
    var empty: seq<ServerTools> := [];
    ListFromSpec(r.order, r.clients, empty);
    var res := ListFrom(r.order, r.clients, empty);
    assert ListAll(r).0 == res.0;
    forall i | 0 <= i < |r.order|
      ensures res.0[i] == ServerTools(r.order[i], ToolsOrEmpty(Connection.ListTools(r.clients[r.order[i]]).0))
    {
      assert res.0[i] == res.0[|empty| + i];
    }
  }

  lemma ListAllState(r: Registry)
    requires Valid(r)
    ensures ListAll(r).1 == Listed(r)
  {
    var empty: seq<ServerTools> := [];
    ListFromSpec(r.order, r.clients, empty);
    var res := ListFrom(r.order, r.clients, empty);
    assert ListAll(r).1 == r.(clients := res.1);
    forall n | n in r.clients
      ensures res.1[n] == Listed(r).clients[n]
    {
      assert n in r.order;
    }
    assert res.1 == Listed(r).clients;
  }

  /** Listing all servers a second time gives the same listing and leaves
      the registry as the first listing left it. For a server whose listing
      failed this rests on the model's worker answering every catalogue
      request alike. */
  lemma ListAllTwice(r: Registry)
    requires Valid(r)
    ensures Valid(ListAll(r).1)
    ensures ListAll(ListAll(r).1) == ListAll(r)
  {
    ListAllIsolatesFaults(r);
    var r1 := ListAll(r).1;
    ListAllIsolatesFaults(r1);
    forall n | n in r.clients
      ensures Connection.ListTools(r1.clients[n]) == Connection.ListTools(r.clients[n])
    {
      Connection.ListingIsStable(r.clients[n]);
    }
    assert Listed(r1).clients == r1.clients;
    var l0 := ListAll(r).0;
    var l1 := ListAll(r1).0;
    forall i | 0 <= i < |l0|
      ensures l1[i] == l0[i]
    {
      var c := r.clients[r.order[i]];
      assert Connection.ListTools(r1.clients[r1.order[i]]).0 == Connection.ListTools(c).0;
    }
    assert l1 == l0;
  }

  /** The `health_check` loop over the servers of `order`, recording in
      `acc` whether each server's listing succeeded. */
  function HealthFrom(order: seq<string>, clients: map<string, Connection.Conn>, acc: map<string, bool>)
    : (res: (map<string, bool>, map<string, Connection.Conn>))
    requires forall n :: n in order ==> n in clients
    ensures res.1.Keys == clients.Keys
  {
    if order == [] then (acc, clients)
    else
      var (listing, c) := Connection.ListTools(clients[order[0]]);
      HealthFrom(order[1..], clients[order[0] := c], acc[order[0] := listing.Ok?])
  }

  /** `health_check`. */
  function Health(r: Registry): (map<string, bool>, Registry)
    requires Valid(r)
  {
    var (health, clients) := HealthFrom(r.order, r.clients, map[]);
    (health, r.(clients := clients))
  }

  /** The loop records, for each server of a duplicate-free order, whether
      its client's listing succeeded, keeps the earlier records of other
      names, and leaves each listed client as one listing leaves it. */
  lemma {:induction false} HealthFromSpec(order: seq<string>, clients: map<string, Connection.Conn>, acc: map<string, bool>)
    requires Distinct(order) && forall n :: n in order ==> n in clients
    ensures forall n :: n in HealthFrom(order, clients, acc).0 <==> n in acc || n in order
    ensures forall n :: n in HealthFrom(order, clients, acc).0 ==>
              HealthFrom(order, clients, acc).0[n]
              == if n in order then Connection.ListTools(clients[n]).0.Ok? else acc[n]
    ensures forall n :: n in clients ==>
              HealthFrom(order, clients, acc).1[n]
              == if n in order then Connection.ListTools(clients[n]).1 else clients[n]
  {
    if order != [] {
      var (listing, c) := Connection.ListTools(clients[order[0]]);
      var clients' := clients[order[0] := c];
      DistinctTail(order);
      HealthFromSpec(order[1..], clients', acc[order[0] := listing.Ok?]);
      assert forall n :: n in order <==> n == order[0] || n in order[1..];
    }
  }

  /** `health_check` has exactly the active servers as keys; a server is
      healthy when its listing succeeds, that is when it holds a catalogue
      or its worker answers the catalogue request, whatever the other
      servers do. It leaves the clients as `list_all_tools` does. */
  lemma HealthReportsEachServer(r: Registry)
    requires Valid(r)
    ensures Health(r).0.Keys == r.clients.Keys
    ensures forall n :: n in r.clients ==>
              (Health(r).0[n] <==> r.clients[n].cache.Some? || r.clients[n].worker.catalogue.Ok?)
    ensures Health(r).1 == Listed(r) && Valid(Health(r).1)
  {
    HealthFromSpec(r.order, r.clients, map[]);
  }

  /** The client answers `get_tool(name)` with a tool (it neither raises nor finds nothing). */
  predicate Offers(c: Connection.Conn, name: string) {
    var t := Connection.GetTool(c, name).0;
    t.Ok? && t.value.Some?
  }

  /** The `find_tool` loop over the servers of `order`, threading the clients
      whose caches fill as they are asked. */
  function FindFrom(order: seq<string>, clients: map<string, Connection.Conn>, name: string)
    : (res: (Option<(string, Tool)>, map<string, Connection.Conn>))
    requires forall n :: n in order ==> n in clients
    ensures res.1.Keys == clients.Keys
  {
    if order == [] then (None, clients)
    else
      var (found, c) := Connection.GetTool(clients[order[0]], name);
      var clients' := clients[order[0] := c];
      if found.Ok? && found.value.Some? then (Some((order[0], found.value.value)), clients')
      else FindFrom(order[1..], clients', name)
  }

  /** The search changes nothing but the caches of the clients it asks. */
  lemma {:induction false} FindFromKeepsClients(order: seq<string>, clients: map<string, Connection.Conn>, name: string)
    requires forall n :: n in order ==> n in clients
    ensures forall n :: n in clients ==> FindFrom(order, clients, name).1[n] == clients[n].(cache := FindFrom(order, clients, name).1[n].cache)
    ensures forall n :: n in clients && Connection.Ready(clients[n]) ==> Connection.Ready(FindFrom(order, clients, name).1[n])
  {
    if order != [] {
      var c := Connection.GetTool(clients[order[0]], name).1;
      FindFromKeepsClients(order[1..], clients[order[0] := c], name);
    }
  }

  /** `find_tool`. */
  function FindTool(r: Registry, name: string): (res: (Option<(string, Tool)>, Registry))
    requires Valid(r)
    ensures res.1.order == r.order && res.1.configs == r.configs && Valid(res.1)
  {
    FindFromKeepsClients(r.order, r.clients, name);
    var (found, clients) := FindFrom(r.order, r.clients, name);
    (found, r.(clients := clients))
  }

  /** The reference definition of the search: the first server of `order`
      whose client offers the tool, with that tool, asking each client in
      its given state. */
  function FirstOffer(order: seq<string>, clients: map<string, Connection.Conn>, name: string)
    : Option<(string, Tool)>
    requires forall n :: n in order ==> n in clients
  {
    if order == [] then None
    else if Offers(clients[order[0]], name) then
      Some((order[0], Connection.GetTool(clients[order[0]], name).0.value.value))
    else FirstOffer(order[1..], clients, name)
  }

  /** The search loop finds what the reference definition finds: as no
      server is asked twice, the caches it fills along the way never
      change an answer. */
  lemma {:induction false} FindFromIsFirstOffer(order: seq<string>, clients: map<string, Connection.Conn>,
                                                base: map<string, Connection.Conn>, name: string)
    requires Distinct(order)
    requires forall n :: n in order ==> n in clients && n in base && clients[n] == base[n]
    ensures FindFrom(order, clients, name).0 == FirstOffer(order, base, name)
  {
    if order != [] {
      var c := Connection.GetTool(clients[order[0]], name).1;
      DistinctTail(order);
      FindFromIsFirstOffer(order[1..], clients[order[0] := c], base, name);
    }
  }

  /** The reference search finds nothing exactly when no server offers the tool. */
  lemma {:induction false} FirstOfferNone(order: seq<string>, clients: map<string, Connection.Conn>, name: string)
    requires forall n :: n in order ==> n in clients
    ensures FirstOffer(order, clients, name).None? <==>
              forall k :: 0 <= k < |order| ==> !Offers(clients[order[k]], name)
  {
    if order != [] && !Offers(clients[order[0]], name) {
      FirstOfferNone(order[1..], clients, name);
      assert forall k :: 0 < k < |order| ==> order[1..][k - 1] == order[k];
    }
  }

  /** When the reference search finds something, it is the first server,
      in order, that offers the tool, together with the tool that server offers. */
  lemma {:induction false} FirstOfferSome(order: seq<string>, clients: map<string, Connection.Conn>, name: string)
    requires forall n :: n in order ==> n in clients
    requires FirstOffer(order, clients, name).Some?
    ensures exists k :: 0 <= k < |order|
                        && order[k] == FirstOffer(order, clients, name).value.0
                        && Offers(clients[order[k]], name)
                        && Connection.GetTool(clients[order[k]], name).0.value.value
                           == FirstOffer(order, clients, name).value.1
                        && forall j :: 0 <= j < k ==> !Offers(clients[order[j]], name)
  {
    if !Offers(clients[order[0]], name) {
      var rest := order[1..];
      FirstOfferSome(rest, clients, name);
      var f := FirstOffer(rest, clients, name);
      var k :| 0 <= k < |rest| && rest[k] == f.value.0
               && Offers(clients[rest[k]], name)
               && Connection.GetTool(clients[rest[k]], name).0.value.value == f.value.1
               && forall j :: 0 <= j < k ==> !Offers(clients[rest[j]], name);
      assert forall j :: 0 < j <= k ==> rest[j - 1] == order[j];
      assert order[k + 1] == f.value.0;
    }
  }

  /** `find_tool` reports the first active server, in registration order,
      whose client offers the tool, and nothing when none does. */
  lemma FindToolFirstMatch(r: Registry, name: string)
    requires Valid(r)
    ensures FindTool(r, name).0.None? <==> forall k :: 0 <= k < |r.order| ==> !Offers(r.clients[r.order[k]], name)
    ensures FindTool(r, name).0.Some? ==>
              exists k :: 0 <= k < |r.order|
                          && r.order[k] == FindTool(r, name).0.value.0
                          && Offers(r.clients[r.order[k]], name)
                          && Connection.GetTool(r.clients[r.order[k]], name).0.value.value == FindTool(r, name).0.value.1
                          && forall j :: 0 <= j < k ==> !Offers(r.clients[r.order[j]], name)
  {
    FindFromIsFirstOffer(r.order, r.clients, r.clients, name);
    FirstOfferNone(r.order, r.clients, name);
    if FirstOffer(r.order, r.clients, name).Some? {
      FirstOfferSome(r.order, r.clients, name);
    }
  }

  /** The text of the `ValueError` for a call to a server that is not active. */
  function NotActive(server: string): string {
    "MCP server " + server + " is not active"
  }

  /** The text of the `ValueError` when no active server has the tool. */
  function NotFound(tool: string): string {
    "Tool " + tool + " not found in any active MCP server"
  }

  /** `call_mcp`: refused for a server that is not active; otherwise the
      tool name and arguments reach that server's worker unchanged. */
  function CallMcp(r: Registry, server: string, tool: string, arguments: Json, answer: Answer)
    : (res: Fallible<Option<CallToolResult>>)
    ensures server !in r.clients ==> res == Raises(NotActive(server))
    ensures Valid(r) && server in r.clients ==> res == answer(server, tool, arguments)
  {
    if server !in r.clients then Raises(NotActive(server))
    else Connection.CallTool(r.clients[server], tool, arguments, answer)
  }

  /** `call_any_mcp`: refused when `find_tool` finds nothing; otherwise the
      call goes to the server it found. */
  function CallAnyMcp(r: Registry, tool: string, arguments: Json, answer: Answer)
    : (res: (Fallible<Option<CallToolResult>>, Registry))
    requires Valid(r)
    ensures res.1 == FindTool(r, tool).1
    ensures FindTool(r, tool).0.None? ==> res.0 == Raises(NotFound(tool))
    ensures FindTool(r, tool).0.Some? ==> res.0 == answer(FindTool(r, tool).0.value.0, tool, arguments)
  {
    var (found, r') := FindTool(r, tool);
    if found.None? then (Raises(NotFound(tool)), r')
    else
      FindToolIsActive(r, tool);
      (CallMcp(r', found.value.0, tool, arguments, answer), r')
  }

  /** A server that `find_tool` reports is active. */
  lemma FindToolIsActive(r: Registry, tool: string)
    requires Valid(r) && FindTool(r, tool).0.Some?
    ensures FindTool(r, tool).0.value.0 in FindTool(r, tool).1.clients
  {
    FindToolFirstMatch(r, tool);
  }

  /** `is_server_active`. */
  predicate IsServerActive(r: Registry, name: string) {
    name in r.clients && r.clients[name].connected
  }

  /** In a valid registry a server is active exactly when it is registered. */
  lemma ActiveIffRegistered(r: Registry, name: string)
    requires Valid(r)
    ensures IsServerActive(r, name) <==> name in r.order
  {
  }

  /** `restart_server`: false and no change without a stored configuration;
      otherwise `stop_mcp` and then `start_mcp` with the stored command,
      arguments and environment. The `asyncio.sleep(1)` between them changes
      nothing. */
  function Restart(r: Registry, name: string, worker: Worker): (res: (bool, Registry))
    ensures name !in r.configs ==> res == (false, r)
  {
    if name !in r.configs then (false, r)
    else
      var cfg := r.configs[name];
      var (_, r1) := Stop(r, name);
      Start(r1, name, cfg.command, cfg.args, Some(cfg.env), worker)
  }

  /** A restart relaunches the server from its stored configuration: the
      result is that of the new connection, the configuration is stored
      again unchanged, and on success the server is re-registered last in
      the order, behind every server that was active before, bound to the
      new connection; every other client is kept as it was. */
  lemma {:induction false} RestartRelaunches(r: Registry, name: string, worker: Worker)
    requires Valid(r) && name in r.configs
    ensures Restart(r, name, worker).0 <==> worker.connect.Connects?
    ensures Restart(r, name, worker).1.configs == r.configs
    ensures Restart(r, name, worker).0 ==> Restart(r, name, worker).1.order == Without(r.order, name) + [name]
    ensures !Restart(r, name, worker).0 ==> Restart(r, name, worker).1.order == Without(r.order, name)
    ensures Restart(r, name, worker).0 ==>
              Restart(r, name, worker).1.clients == (r.clients - {name})[name := Connection.Conn(name, worker, true, true, None)]
    ensures !Restart(r, name, worker).0 ==> Restart(r, name, worker).1.clients == r.clients - {name}
  {
    var r1 := Stop(r, name).1;
    assert name !in r1.clients;
    assert r1.clients == r.clients - {name};
    assert r1.configs[name := r.configs[name]] == r.configs;
  }

  /** A server whose worker has stopped answering (no catalogue cached and
      the catalogue request raising) reports unhealthy; restarting it onto a
      worker that comes up and answers makes it healthy again. */
  lemma RestartRecoversHealth(r: Registry, name: string, worker: Worker)
    requires Valid(r) && name in r.clients && name in r.configs
    requires r.clients[name].cache.None? && r.clients[name].worker.catalogue.Raises?
    requires worker.connect.Connects? && worker.catalogue.Ok?
    ensures name in Health(r).0 && !Health(r).0[name]
    ensures Valid(Restart(r, name, worker).1) && name in Restart(r, name, worker).1.clients
    ensures name in Health(Restart(r, name, worker).1).0 && Health(Restart(r, name, worker).1).0[name]
  {
    RestartRelaunches(r, name, worker);
    HealthReportsEachServer(r);
    HealthReportsEachServer(Restart(r, name, worker).1);
  }

  /** A failed start keeps the configuration, so the server can later be
      restarted without being started again by hand. */
  lemma FailedStartCanRestart(r: Registry, name: string, command: string, args: seq<string>,
                              env: Option<map<string, string>>, worker: Worker, later: Worker)
    requires Valid(r) && name !in r.clients
    requires !Start(r, name, command, args, env, worker).0 && later.connect.Connects?
    ensures Restart(Start(r, name, command, args, env, worker).1, name, later).0
    ensures name in Restart(Start(r, name, command, args, env, worker).1, name, later).1.clients
  {
  }
}

/** The `MCPManager` object: the ordered `active_clients` dictionary of
    client objects and the stored configurations, updated in place exactly
    as the `ServerRegistry` functions say. */
module McpManager {
  import opened Values
  import opened Protocol
  import Connection
  import opened ServerRegistry
  import opened McpClient

  class MCPManager {
    /** The keys of `active_clients` in insertion order. */
    var order: seq<string>
    var clients: map<string, MCPClient>
    var configs: map<string, ServerConfig>
    /** The registry these objects represent. */
    ghost var model: Registry

    /** No client object serves two server names. */
    ghost predicate Injective()
      reads this
    {
      forall a, b :: a in clients && b in clients && a != b ==> clients[a] != clients[b]
    }

    ghost predicate Valid()
      reads this, clients.Values
    {
      && Injective()
      && model.order == order && model.configs == configs && model.clients.Keys == clients.Keys
      && (forall n :: n in clients ==> clients[n].View() == model.clients[n])
      && ServerRegistry.Valid(model)
    }

    constructor ()
      ensures Valid() && model == Empty() && clients == map[]
    {
      order := [];
      clients := map[];
      configs := map[];
      model := Empty();
    }

    method StartMcp(name: string, command: string, args: seq<string>,
                    env: Option<map<string, string>>, worker: Worker) returns (ok: bool)
      requires Valid()
      modifies this
      ensures Valid()
      ensures (ok, model) == ServerRegistry.Start(old(model), name, command, args, env, worker)
      ensures forall n :: n in old(clients) ==> n in clients && clients[n] == old(clients)[n]
      ensures forall n :: n in clients ==> n in old(clients) || fresh(clients[n])
    {
      if name in clients {
        return true;
      }
      var client;
      var config := ServerConfig(command, args, OrEmpty(env));
      client, ok := Launch(name, command, args, env, worker);
      if ok {
        Adopt(name, client, config);
      } else {
        configs := configs[name := config];
        model := model.(configs := configs);
      }
    }

    /** The successful end of `start_mcp`: the connected client is stored
        under its name, after the others, with its configuration. */
    method Adopt(name: string, client: MCPClient, config: ServerConfig)
      requires Valid() && name !in clients && client !in clients.Values
      requires client.View().name == name && Connection.Ready(client.View())
      modifies this
      ensures Valid()
      ensures order == old(order) + [name] && clients == old(clients)[name := client]
      ensures configs == old(configs)[name := config]
      ensures model == Registry(old(model).order + [name], old(model).clients[name := client.View()],
                                old(model).configs[name := config])
    {
      AppendKeepsValid(model, name, client.View(), config);
      clients := clients[name := client];
      order := order + [name];
      configs := configs[name := config];
      model := Registry(model.order + [name], model.clients[name := client.View()], model.configs[name := config]);
      forall m | m in clients
        ensures clients[m].View() == model.clients[m]
      {
        if m != name {
          assert clients[m] == old(clients)[m];
        }
      }
    }

    /** A new `MCPClient` for `name`, told to connect. */
    static method Launch(name: string, command: string, args: seq<string>,
                         env: Option<map<string, string>>, worker: Worker) returns (client: MCPClient, ok: bool)
      ensures fresh(client)
      ensures (ok, client.View()) == Connection.Connect(Connection.Fresh(name, worker))
    {
      client := new MCPClient(name, worker);
      ok := client.Connect(command, args, env);
    }

    /** `stop_mcp`; the client that is removed has been told to disconnect. */
    method StopMcp(name: string) returns (ok: bool)
      requires Valid()
      modifies this, if name in clients then {clients[name]} else {}
      ensures Valid()
      ensures (ok, model) == ServerRegistry.Stop(old(model), name)
      ensures name in old(clients) ==> old(clients)[name].View() == Connection.Disconnect(old(clients[name].View()))
      ensures forall n :: n in clients ==> n in old(clients) && clients[n] == old(clients)[n]
    {
      if name !in clients {
        return true;
      }
      var client := clients[name];
      Unregister(name);
      client.Disconnect();
      ok := true;
    }

    /** The bookkeeping half of `stop_mcp`: the server's entries leave both
        maps and the order; no client object changes. */
    method Unregister(name: string)
      requires Valid() && name in clients
      modifies this
      ensures Valid() && model == ServerRegistry.Stop(old(model), name).1
      ensures clients == old(clients) - {name} && old(clients)[name] !in clients.Values
    {
      ghost var res := ServerRegistry.Stop(model, name);
      assert ServerRegistry.Valid(res.1) && res.1.clients == model.clients - {name};
      ghost var client := clients[name];
      assert forall n :: n in clients && n != name ==> clients[n] != client;
      clients := clients - {name};
      order := Without(order, name);
      configs := configs - {name};
      model := res.1;
      forall m | m in clients
        ensures clients[m].View() == model.clients[m]
      {
        assert clients[m] == old(clients)[m];
      }
      assert client !in clients.Values;
    }

    /** A step that changed only the client of active server `n`, leaving
        it ready, and recorded its new state in the model keeps the manager
        well formed. */
    twostate lemma StepKeepsValid(n: string)
      requires old(Valid()) && n in clients
      requires clients == old(clients) && order == old(order) && configs == old(configs)
      requires forall m :: m in clients && m != n ==> unchanged(clients[m])
      requires model == old(model).(clients := old(model).clients[n := clients[n].View()])
      requires clients[n].View().name == n && Connection.Ready(clients[n].View())
      ensures Valid()
    {
      UpdateKeepsValid(old(model), n, clients[n].View());
      forall m | m in clients
        ensures clients[m].View() == model.clients[m]
      {
        if m != n {
          assert clients[m].View() == old(clients[m].View());
        }
      }
    }

    /** Asks the client of active server `n` for its listing. */
    method ListOne(n: string) returns (r: Fallible<seq<Tool>>)
      requires Valid() && n in clients
      modifies this, clients[n]
      ensures Valid() && order == old(order) && clients == old(clients) && configs == old(configs)
      ensures r == Connection.ListTools(old(model).clients[n]).0
      ensures model == old(model).(clients := old(model).clients[n := Connection.ListTools(old(model).clients[n]).1])
    {
      ghost var res := Connection.ListTools(model.clients[n]);
      var c := clients[n];
      assert forall m :: m in clients && m != n ==> clients[m] != c;
      r := c.ListTools();
      model := model.(clients := model.clients[n := res.1]);
      StepKeepsValid(n);
    }

    /** Asks the client of active server `n` for its tool `name`. */
    method LookupOne(n: string, name: string) returns (r: Fallible<Option<Tool>>)
      requires Valid() && n in clients
      modifies this, clients[n]
      ensures Valid() && order == old(order) && clients == old(clients) && configs == old(configs)
      ensures r == Connection.GetTool(old(model).clients[n], name).0
      ensures model == old(model).(clients := old(model).clients[n := Connection.GetTool(old(model).clients[n], name).1])
    {
      ghost var res := Connection.GetTool(model.clients[n], name);
      var c := clients[n];
      assert forall m :: m in clients && m != n ==> clients[m] != c;
      r := c.GetTool(name);
      model := model.(clients := model.clients[n := res.1]);
      StepKeepsValid(n);
    }

    /** `list_all_tools`: a listing is asked of every active client in turn. */
    method ListAllTools() returns (listing: seq<ServerTools>)
      requires Valid()
      modifies this, clients.Values
      ensures Valid() && clients == old(clients)
      ensures (listing, model) == ServerRegistry.ListAll(old(model))
    {
      ghost var goal := ServerRegistry.ListFrom(order, model.clients, []);
      listing := [];
      var i := 0;
      while i < |order|
        invariant 0 <= i <= |order| && Valid()
        invariant order == old(order) && clients == old(clients) && configs == old(configs)
        invariant model == old(model).(clients := model.clients)
        invariant ServerRegistry.ListFrom(order[i..], model.clients, listing) == goal
      {
        var tools := ListOne(order[i]);
        listing := listing + [ServerTools(order[i], ToolsOrEmpty(tools))];
        assert order[i..][1..] == order[i + 1..];
        i := i + 1;
      }
    }

    /** `health_check`. */
    method HealthCheck() returns (health: map<string, bool>)
      requires Valid()
      modifies this, clients.Values
      ensures Valid() && clients == old(clients)
      ensures (health, model) == ServerRegistry.Health(old(model))
    {
      ghost var goal := ServerRegistry.HealthFrom(order, model.clients, map[]);
      health := map[];
      var i := 0;
      while i < |order|
        invariant 0 <= i <= |order| && Valid()
        invariant order == old(order) && clients == old(clients) && configs == old(configs)
        invariant model == old(model).(clients := model.clients)
        invariant ServerRegistry.HealthFrom(order[i..], model.clients, health) == goal
      {
        var tools := ListOne(order[i]);
        health := health[order[i] := tools.Ok?];
        assert order[i..][1..] == order[i + 1..];
        i := i + 1;
      }
    }

    /** `find_tool`: the active clients are asked in order until one has the tool. */
    method FindTool(name: string) returns (found: Option<(string, Tool)>)
      requires Valid()
      modifies this, clients.Values
      ensures Valid()
      ensures (found, model) == ServerRegistry.FindTool(old(model), name)
      ensures clients == old(clients)
    {
      ghost var goal := ServerRegistry.FindFrom(order, model.clients, name);
      var i := 0;
      while i < |order|
        invariant 0 <= i <= |order| && Valid()
        invariant order == old(order) && clients == old(clients) && configs == old(configs)
        invariant model == old(model).(clients := model.clients)
        invariant ServerRegistry.FindFrom(order[i..], model.clients, name) == goal
      {
        var lookup := LookupOne(order[i], name);
        if lookup.Ok? && lookup.value.Some? {
          return Some((order[i], lookup.value.value));
        }
        assert order[i..][1..] == order[i + 1..];
        i := i + 1;
      }
      found := None;
    }

    method CallMcp(server: string, tool: string, arguments: Json, answer: Answer)
      returns (r: Fallible<Option<CallToolResult>>)
      requires Valid()
      ensures r == ServerRegistry.CallMcp(model, server, tool, arguments, answer)
    {
      if server !in clients {
        return Raises(NotActive(server));
      }
      r := clients[server].CallTool(tool, arguments, answer);
    }

    method CallAnyMcp(tool: string, arguments: Json, answer: Answer)
      returns (r: Fallible<Option<CallToolResult>>)
      requires Valid()
      modifies this, clients.Values
      ensures Valid()
      ensures (r, model) == ServerRegistry.CallAnyMcp(old(model), tool, arguments, answer)
      ensures clients == old(clients)
    {
      var found := FindTool(tool);
      if found.None? {
        return Raises(NotFound(tool));
      }
      r := CallMcp(found.value.0, tool, arguments, answer);
    }

    function GetActiveServers(): (names: seq<string>)
      reads this, clients.Values
      requires Valid()
      ensures names == model.order
    {
      order
    }

    function IsServerActive(name: string): (b: bool)
      reads this, clients.Values
      requires Valid()
      ensures b == ServerRegistry.IsServerActive(model, name)
    {
      name in clients && clients[name].IsConnected()
    }

    /** `restart_server`; `worker` is the process the new launch reaches. */
    method RestartServer(name: string, worker: Worker) returns (ok: bool)
      requires Valid()
      modifies this, clients.Values
      ensures Valid()
      ensures (ok, model) == ServerRegistry.Restart(old(model), name, worker)
    {
      if name !in configs {
        return false;
      }
      var cfg := configs[name];
      var _ := StopMcp(name);
      ok := StartMcp(name, cfg.command, cfg.args, Some(cfg.env), worker);
    }

    /** `cleanup`: every active client is stopped, then both maps are emptied. */
    method Cleanup()
      requires Valid()
      modifies this, clients.Values
      ensures Valid() && model == Empty()
    {
      while order != []
        invariant Valid()
        invariant forall n :: n in clients ==> n in old(clients) && clients[n] == old(clients)[n]
        decreases |order|
      {
        WithoutRemovesOne(order, 0);
        var _ := StopMcp(order[0]);
      }
      clients := map[];
      configs := map[];
      model := Empty();
    }
  }
}
