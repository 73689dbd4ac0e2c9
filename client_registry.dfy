/**
 * The MCP client's global state: the list of connected servers and the map
 * from tool name to server name. connect_to_server fills the map from the
 * tools a server lists, main keeps the servers that connected, and
 * find_server_for_tool / execute_tool route a tool call through the map and
 * then through the list.
 *
 * The SSE client is not modelled: what a server does when the client
 * connects is a ConnectReply, and what call_tool does is the parameter
 * `call`.
 */
module ClientRegistry {
  import opened Text
  import opened ClientCli

  /** A connected server. `tools` holds the names of the tools it listed. */
  datatype Connection = Connection(name: string, kind: string, host: string, port: int, tools: seq<string>)

  /** How connect_to_server ends for one configured server. */
  datatype ConnectReply =
    | InitFailed                   // initialize returned false
    | Threw                        // the client, initialize or get_tools threw
    | Listed(tools: seq<string>)   // get_tools returned these tool names

  /** The JSON arguments of a tool call: {} when none were typed, else the parsed text. */
  datatype Args = EmptyObject | Json(text: string)

  /** What call_tool did: returned a JSON result, or threw. */
  datatype CallReply = Returned(result: string) | CallThrew(message: string)

  /** What execute_tool reports. */
  datatype ToolOutcome = NotFound | Called(server: string, reply: CallReply)

  /**
   * The map after `tool_to_server_map[tool] = name` for each listed tool in
   * turn. Every listed tool ends up mapped to `name`; every other entry is
   * kept.
   */
  function Registered(m: map<string, string>, tools: seq<string>, name: string): (r: map<string, string>)
    decreases |tools|
    ensures r.Keys == m.Keys + set t | t in tools
    ensures forall t :: t in tools ==> r[t] == name
    ensures forall t :: t in m && t !in tools ==> r[t] == m[t]
  {
    if tools == [] then m
    else
      var r := Registered(m[tools[0] := name], tools[1..], name);
      assert forall t :: t in tools <==> t == tools[0] || t in tools[1..];
      r
  }

  /** The connection main keeps for a configuration the server accepted. */
  function ConnectionOf(config: ServerConfig, tools: seq<string>): Connection {
    Connection(config.name, config.kind, config.host, config.port, tools)
  }

  /** The servers main keeps after trying the first `n` configurations; `reply(i)` is how configuration `i` went. */
  function ConnectedAfter(configs: seq<ServerConfig>, reply: nat -> ConnectReply, n: nat): (r: seq<Connection>)
    requires n <= |configs|
    ensures |r| <= n
  {
    if n == 0 then []
    else
      ConnectedAfter(configs, reply, n - 1)
      + (match reply(n - 1) case Listed(tools) => [ConnectionOf(configs[n - 1], tools)] case _ => [])
  }

  /** The tool map after trying the first `n` configurations, starting from `m`. */
  function MapAfter(m: map<string, string>, configs: seq<ServerConfig>, reply: nat -> ConnectReply, n: nat): map<string, string>
    requires n <= |configs|
  {
    if n == 0 then m
    else
      var before := MapAfter(m, configs, reply, n - 1);
      match reply(n - 1)
      case Listed(tools) => Registered(before, tools, configs[n - 1].name)
      case _ => before
  }

  /** Every mapped tool names a server in `connected`, and some server of that name lists the tool. */
  ghost predicate Consistent(connected: seq<Connection>, m: map<string, string>) {
    forall t :: t in m ==> exists c :: c in connected && c.name == m[t] && t in c.tools
  }

  /** The first server in `connected` named `name`, by index. */
  function FirstNamed(connected: seq<Connection>, name: string): (r: Option<nat>)
    ensures r.Some? ==> r.value < |connected| && connected[r.value].name == name
    ensures forall i :: 0 <= i < |connected| && (r.None? || i < r.value) ==> connected[i].name != name
  {
    if connected == [] then None
    else if connected[0].name == name then Some(0)
    else match FirstNamed(connected[1..], name)
      case None => None
      case Some(i) => Some(i + 1)
  }

  /** find_server_for_tool: the map gives a server name, then the list is searched for it. */
  function Lookup(connected: seq<Connection>, m: map<string, string>, tool: string): (r: Option<nat>)
    ensures tool !in m ==> r.None?
    ensures tool in m ==> r == FirstNamed(connected, m[tool])
  {
    if tool !in m then None else FirstNamed(connected, m[tool])
  }

  /**
   * What execute_tool reports: no call is made when the lookup fails;
   * otherwise the tool is called on the server found, and an exception
   * from the call is reported rather than propagated.
   */
  function Routed(connected: seq<Connection>, m: map<string, string>, tool: string, args: Args,
                  call: (Connection, string, Args) -> CallReply): (o: ToolOutcome)
    ensures o.NotFound? <==> Lookup(connected, m, tool).None?
    ensures o.Called? ==>
              var i := Lookup(connected, m, tool).value;
              o == Called(connected[i].name, call(connected[i], tool, args))
  {
    match Lookup(connected, m, tool)
    case None => NotFound
    case Some(i) => Called(connected[i].name, call(connected[i], tool, args))
  }

  /** Adding a server that lists some tools, and registering them under its name, keeps the map consistent. */
  lemma ConnectKeepsConsistent(connected: seq<Connection>, m: map<string, string>, c: Connection)
    requires Consistent(connected, m)
    ensures Consistent(connected + [c], Registered(m, c.tools, c.name))
  {
    var m' := Registered(m, c.tools, c.name);
    forall t | t in m'
      ensures exists d :: d in connected + [c] && d.name == m'[t] && t in d.tools
    {
      if t in c.tools {
        assert c in connected + [c];
      } else {
        var d :| d in connected && d.name == m[t] && t in d.tools;
        assert d in connected + [d];
        assert d in connected + [c];
      }
    }
  }

  /**
   * A later server listing the same tool overwrites the mapping: a tool maps
   * to the name of the last server that connected and listed it.
   */
  lemma {:induction false} LaterServerWins(m: map<string, string>, configs: seq<ServerConfig>, reply: nat -> ConnectReply,
                                           n: nat, j: nat, t: string)
    requires j < n <= |configs|
    requires reply(j).Listed? && t in reply(j).tools
    requires forall i :: j < i < n ==> !(reply(i).Listed? && t in reply(i).tools)
    decreases n
    ensures t in MapAfter(m, configs, reply, n) && MapAfter(m, configs, reply, n)[t] == configs[j].name
  {
    if n - 1 > j {
      LaterServerWins(m, configs, reply, n - 1, j, t);
    }
  }

  /** A tool no connected server listed keeps its old mapping, or stays unmapped. */
  lemma {:induction false} UnlistedToolUntouched(m: map<string, string>, configs: seq<ServerConfig>, reply: nat -> ConnectReply,
                                                 n: nat, t: string)
    requires n <= |configs|
    requires forall i :: 0 <= i < n ==> !(reply(i).Listed? && t in reply(i).tools)
    decreases n
    ensures (t in MapAfter(m, configs, reply, n)) == (t in m)
    ensures t in m ==> MapAfter(m, configs, reply, n)[t] == m[t]
  {
    if n > 0 {
      UnlistedToolUntouched(m, configs, reply, n - 1, t);
    }
  }

  /** No server is kept, and main returns 1, exactly when every configured server failed to connect. */
  lemma {:induction false} NoneConnected(configs: seq<ServerConfig>, reply: nat -> ConnectReply, n: nat)
    requires n <= |configs|
    decreases n
    ensures ConnectedAfter(configs, reply, n) == [] <==> forall i :: 0 <= i < n ==> !reply(i).Listed?
  {
    if n > 0 {
      NoneConnected(configs, reply, n - 1);
    }
  }

  /** The servers kept are those whose connection succeeded, each with the tools it listed. */
  lemma {:induction false} KeptAreConnected(configs: seq<ServerConfig>, reply: nat -> ConnectReply, n: nat)
    requires n <= |configs|
    decreases n
    ensures forall c :: c in ConnectedAfter(configs, reply, n) ==>
              exists i :: 0 <= i < n && reply(i).Listed? && c == ConnectionOf(configs[i], reply(i).tools)
    ensures forall i :: 0 <= i < n && reply(i).Listed? ==> ConnectionOf(configs[i], reply(i).tools) in ConnectedAfter(configs, reply, n)
  {
    if n > 0 {
      KeptAreConnected(configs, reply, n - 1);
    }
  }

  /** In a consistent registry a lookup finds a server exactly when the tool is mapped. */
  lemma LookupFindsMapped(connected: seq<Connection>, m: map<string, string>, tool: string)
    requires Consistent(connected, m)
    ensures Lookup(connected, m, tool).Some? <==> tool in m
  {
    if tool in m {
      var c :| c in connected && c.name == m[tool] && tool in c.tools;
      var i :| 0 <= i < |connected| && connected[i] == c;
    }
  }

  /** With distinct server names, the server a lookup finds is one that lists the tool. */
  lemma LookupFindsLister(connected: seq<Connection>, m: map<string, string>, tool: string)
    requires Consistent(connected, m)
    requires forall i, j :: 0 <= i < j < |connected| ==> connected[i].name != connected[j].name
    requires tool in m
    ensures Lookup(connected, m, tool).Some?
    ensures tool in connected[Lookup(connected, m, tool).value].tools
  {
    var c :| c in connected && c.name == m[tool] && tool in c.tools;
    var i :| 0 <= i < |connected| && connected[i] == c;
    var k := Lookup(connected, m, tool).value;
    assert !(i < k) && !(k < i);
  }

  /**
   * Two configured servers with the same name: the map names the second for
   * its tool, but the lookup returns the first, which does not list it.
   */
  lemma SameNameMisroutes()
    ensures var connected := [Connection("a", "x", "h", 1, ["p"]), Connection("a", "y", "h", 2, ["q"])];
            var m := map["p" := "a", "q" := "a"];
            && Consistent(connected, m)
            && Lookup(connected, m, "q") == Some(0)
            && "q" !in connected[0].tools
  {
    var connected := [Connection("a", "x", "h", 1, ["p"]), Connection("a", "y", "h", 2, ["q"])];
    var m := map["p" := "a", "q" := "a"];
    assert connected[0] in connected && connected[1] in connected;
    assert "q" != "p";
  }

  /** The globals connected_servers and tool_to_server_map. */
  class Registry {
    var connected: seq<Connection>
    var toolToServer: map<string, string>

    ghost predicate Valid()
      reads this
    {
      Consistent(connected, toolToServer)
    }

    /** Both globals start empty. */
    constructor ()
      ensures connected == [] && toolToServer == map[]
      ensures Valid()
    {
      connected := [];
      toolToServer := map[];
    }

    /**
     * connect_to_server: the connection always carries the configured name
     * and type; only when the server listed its tools does it succeed and
     * register every listed tool under the server's name.
     */
    method ConnectToServer(config: ServerConfig, reply: ConnectReply) returns (ok: bool, server: Connection)
      modifies this`toolToServer
      ensures ok <==> reply.Listed?
      ensures server == ConnectionOf(config, if reply.Listed? then reply.tools else [])
      ensures toolToServer == if reply.Listed? then Registered(old(toolToServer), reply.tools, config.name)
                              else old(toolToServer)
    {
      server := Connection(config.name, config.kind, config.host, config.port, []);
      match reply {
        case InitFailed =>
          return false, server;
        case Threw =>
          return false, server;
        case Listed(tools) =>
          server := server.(tools := tools);
          for i := 0 to |tools|
            invariant Registered(toolToServer, tools[i..], server.name) == Registered(old(toolToServer), tools, config.name)
          {
            assert tools[i..][1..] == tools[i + 1..];
            toolToServer := toolToServer[tools[i] := server.name];
          }
          return true, server;
      }
    }

    /**
     * The connect loop of main: every configuration is tried in order and
     * the servers that connected are kept, in that order. `ok` is false,
     * and main returns 1, when no server is connected.
     */
    method ConnectAll(configs: seq<ServerConfig>, reply: nat -> ConnectReply) returns (ok: bool)
      requires Valid()
      modifies this
      ensures Valid()
      ensures connected == old(connected) + ConnectedAfter(configs, reply, |configs|)
      ensures toolToServer == MapAfter(old(toolToServer), configs, reply, |configs|)
      ensures ok <==> connected != []
    {
      for i := 0 to |configs|
        invariant Valid()
        invariant connected == old(connected) + ConnectedAfter(configs, reply, i)
        invariant toolToServer == MapAfter(old(toolToServer), configs, reply, i)
      {
        ghost var before := toolToServer;
        var connectedOk, server := ConnectToServer(configs[i], reply(i));
        if connectedOk {
          ConnectKeepsConsistent(connected, before, server);
          connected := connected + [server];
        }
      }
      ok := connected != [];
    }

    /** find_server_for_tool: the index of the server found, None for a null result. */
    method FindServerForTool(tool: string) returns (r: Option<nat>)
      ensures r == Lookup(connected, toolToServer, tool)
    {
      if tool !in toolToServer {
        return None;
      }
      var name := toolToServer[tool];
      for i := 0 to |connected|
        invariant forall k :: 0 <= k < i ==> connected[k].name != name
      {
        if connected[i].name == name {
          return Some(i);
        }
      }
      return None;
    }

    /** execute_tool: the lookup, then the call on the server found. */
    method ExecuteTool(tool: string, args: Args, call: (Connection, string, Args) -> CallReply) returns (outcome: ToolOutcome)
      ensures outcome == Routed(connected, toolToServer, tool, args, call)
    {
      var found := FindServerForTool(tool);
      if found.None? {
        return NotFound;
      }
      var server := connected[found.value];
      outcome := Called(server.name, call(server, tool, args));
    }
  }
}
