/** tool_fabric.py: a registry of tools built from YAML configuration. Each tool owns a
    list of MCP clients; `ToolFabric` keeps two dictionaries keyed by tool name, the
    tool instances and the callables handed to agents, and updates them in place when
    tools are added or removed.

    The YAML document is given as typed configuration records, in which a key absent
    from the YAML is `None`. The foreign step of starting a tool (`subprocess.Popen` for
    an MCP-based tool, `importlib.import_module` and `getattr` for an internal one) is
    abstracted to whether it raised. */
module Fabric {
  import opened Wrappers
  import opened Exceptions
  import opened JsonValue

  /** One entry of a tool's `mcp_clients` list. */
  datatype ClientConfig = ClientConfig(
    name: Option<string>,
    host: Option<string>,
    port: Option<int>,
    protocol: Option<string>,
    authToken: Option<string>,
    enabled: Option<bool>)

  /** One entry of the document's `tools` list. `mcpClients` is [] when the key is absent. */
  datatype ToolConfig = ToolConfig(
    name: Option<string>,
    command: Option<seq<string>>,
    pyModule: Option<string>,
    pyFunction: Option<string>,
    mcpClients: seq<ClientConfig>)

  /** The two tool classes: `MCPBasedTool` and `InternalFunctionTool`. */
  datatype ToolKind = McpBased | InternalFunction

  /** `create_tool`: which tool class a configuration selects. A "command" key selects
      the MCP-based tool whatever else is present; otherwise both "module" and
      "function" select the internal tool; otherwise ValueError. Every branch reads
      `cfg["name"]`, so a nameless configuration raises KeyError. */
  function CreateTool(cfg: ToolConfig): (r: Result<ToolKind, PyError>)
    ensures r == Success(McpBased) <==> cfg.command.Some? && cfg.name.Some?
    ensures r == Success(InternalFunction) <==>
              cfg.command.None? && cfg.pyModule.Some? && cfg.pyFunction.Some? && cfg.name.Some?
    ensures cfg.name.None? ==> r == Failure(KeyError("name"))
    ensures r.Failure? && cfg.name.Some? ==> r.error == ValueError("Unknown tool type for " + cfg.name.value)
  {
    if cfg.command.Some? then
      if cfg.name.Some? then Success(McpBased) else Failure(KeyError("name"))
    else if cfg.pyModule.Some? && cfg.pyFunction.Some? then
      if cfg.name.Some? then Success(InternalFunction) else Failure(KeyError("name"))
    else if cfg.name.Some? then
      Failure(ValueError("Unknown tool type for " + cfg.name.value))
    else
      Failure(KeyError("name"))
  }

  // ---------------------------------------------------------------------------
  // MCP clients

  /** The observable state of an MCP client. */
  datatype ClientView = ClientView(
    name: string, host: string, port: int, protocol: string, token: Option<string>, connected: bool)

  /** `cfg.get("enabled", True)`. */
  predicate Enabled(c: ClientConfig) {
    c.enabled.GetOr(true)
  }

  /** The keys `MCPClient(...)` reads with `cfg[...]` are all present. */
  predicate Complete(c: ClientConfig) {
    c.name.Some? && c.host.Some? && c.port.Some?
  }

  /** The first missing key, in the order the constructor's arguments are evaluated. */
  function MissingKey(c: ClientConfig): string
    requires !Complete(c)
  {
    if c.name.None? then "name" else if c.host.None? then "host" else "port"
  }

  /** The client built from a configuration and connected; the protocol defaults to stdio. */
  function ConnectedClient(c: ClientConfig): ClientView
    requires Complete(c)
  {
    ClientView(c.name.value, c.host.value, c.port.value, c.protocol.GetOr("stdio"), c.authToken, true)
  }

  /** The enabled configurations, in order. */
  function EnabledConfigs(cfgs: seq<ClientConfig>): (r: seq<ClientConfig>)
    ensures |r| <= |cfgs|
    ensures forall k :: 0 <= k < |r| ==> r[k] in cfgs && Enabled(r[k])
    ensures forall c :: c in cfgs && Enabled(c) ==> c in r
    ensures |cfgs| == 1 ==> r == if Enabled(cfgs[0]) then cfgs else []
  {
    if cfgs == [] then []
    else if Enabled(cfgs[0]) then [cfgs[0]] + EnabledConfigs(cfgs[1..])
    else EnabledConfigs(cfgs[1..])
  }

  /** Filtering keeps the configuration order and every duplicate: the enabled
      configurations of a concatenation are those of each part, in turn. */
  lemma {:induction false} EnabledConfigsAppend(x: seq<ClientConfig>, y: seq<ClientConfig>)
    ensures EnabledConfigs(x + y) == EnabledConfigs(x) + EnabledConfigs(y)
  {
    if x == [] {
      assert x + y == y;
    } else {
      assert (x + y)[0] == x[0];
      assert (x + y)[1..] == x[1..] + y;
      EnabledConfigsAppend(x[1..], y);
    }
  }

  /** What `_attach_mcp_clients` does with a list of client configurations: the clients
      it appends, in order, and the KeyError that stops it part-way, if any. */
  function AttachSpec(cfgs: seq<ClientConfig>): (seq<ClientView>, Option<PyError>)
  {
    if cfgs == [] then ([], None)
    else if !Enabled(cfgs[0]) then AttachSpec(cfgs[1..])
    else if !Complete(cfgs[0]) then ([], Some(KeyError(MissingKey(cfgs[0]))))
    else
      var rest := AttachSpec(cfgs[1..]);
      ([ConnectedClient(cfgs[0])] + rest.0, rest.1)
  }

  /** Attaching succeeds exactly when every enabled configuration has its name, host
      and port; it then appends one connected client per enabled configuration, in
      configuration order. */
  lemma {:induction false} AttachAll(cfgs: seq<ClientConfig>)
    ensures AttachSpec(cfgs).1 == None <==> forall c :: c in cfgs && Enabled(c) ==> Complete(c)
    ensures AttachSpec(cfgs).1 == None ==>
      |AttachSpec(cfgs).0| == |EnabledConfigs(cfgs)| &&
      forall k :: 0 <= k < |EnabledConfigs(cfgs)| ==>
        Complete(EnabledConfigs(cfgs)[k]) && AttachSpec(cfgs).0[k] == ConnectedClient(EnabledConfigs(cfgs)[k])
  {
    if cfgs != [] {
      var c, rest := cfgs[0], cfgs[1..];
      AttachAll(rest);
      assert cfgs == [c] + rest;
      assert forall x :: x in cfgs <==> x == c || x in rest;
      if Enabled(c) && Complete(c) {
        assert EnabledConfigs(cfgs) == [c] + EnabledConfigs(rest);
        assert AttachSpec(cfgs).0 == [ConnectedClient(c)] + AttachSpec(rest).0;
      }
    }
  }

  /** Every client attaching appends is connected, there is at most one per enabled
      configuration, and the only exception is a KeyError for one of the keys the
      client constructor reads with `cfg[...]`. */
  lemma {:induction false} AttachSpecShape(cfgs: seq<ClientConfig>)
    ensures |AttachSpec(cfgs).0| <= |EnabledConfigs(cfgs)|
    ensures forall k :: 0 <= k < |AttachSpec(cfgs).0| ==> AttachSpec(cfgs).0[k].connected
    ensures AttachSpec(cfgs).1.Some? ==>
      AttachSpec(cfgs).1.value.KeyError? && AttachSpec(cfgs).1.value.key in {"name", "host", "port"}
  {
    if cfgs != [] {
      AttachSpecShape(cfgs[1..]);
    }
  }

  class MCPClient {
    const name: string
    const host: string
    const port: int
    const protocol: string
    const token: Option<string>
    var connected: bool
    var stopHealth: bool
    /** The payloads `send` has written out (its "SEND" lines), in order. */
    var delivered: seq<Json>
    /** The tool that created the client. */
    ghost const owner: Tool

    function View(): ClientView
      reads this
    {
      ClientView(name, host, port, protocol, token, connected)
    }

    /** A new client is disconnected and has sent nothing. */
    constructor (name: string, host: string, port: int, protocol: string, token: Option<string>, ghost owner: Tool)
      ensures View() == ClientView(name, host, port, protocol, token, false) && this.owner == owner
      ensures !stopHealth && delivered == []
    {
      this.name := name;
      this.host := host;
      this.port := port;
      this.protocol := protocol;
      this.token := token;
      this.owner := owner;
      connected := false;
      stopHealth := false;
      delivered := [];
    }

    method Connect()
      modifies this
      ensures connected
      ensures stopHealth == old(stopHealth) && delivered == old(delivered)
    {
      connected := true;
    }

    /** Writes the payload out when connected; does nothing otherwise. */
    method Send(payload: Json)
      modifies this
      ensures connected == old(connected) && stopHealth == old(stopHealth)
      ensures delivered == if old(connected) then old(delivered) + [payload] else old(delivered)
    {
      if connected {
        delivered := delivered + [payload];
      }
    }

    /** Marks the client disconnected and tells its health check to stop. */
    method Disconnect()
      modifies this
      ensures !connected && stopHealth
      ensures delivered == old(delivered)
    {
      connected := false;
      stopHealth := true;
    }
  }

  // ---------------------------------------------------------------------------
  // Tools

  /** Whether `start` makes a foreign call before attaching clients: the module import
      of an internal tool, or the process launch of an MCP-based tool whose command is
      non-empty. */
  predicate HasForeignStart(kind: ToolKind, cfg: ToolConfig) {
    kind == InternalFunction || cfg.command.GetOr([]) != []
  }

  /** What `start` does: the clients it appends and the exception it raises, if any. */
  function StartSpec(kind: ToolKind, cfg: ToolConfig, launchOk: bool): (r: (seq<ClientView>, Option<PyError>))
    ensures r.1 == Some(ForeignError) <==> HasForeignStart(kind, cfg) && !launchOk
    ensures r.1 == Some(ForeignError) ==> r.0 == []
    ensures r.1 != Some(ForeignError) ==> r == AttachSpec(cfg.mcpClients)
  {
    AttachSpecShape(cfg.mcpClients);
    if HasForeignStart(kind, cfg) && !launchOk then ([], Some(ForeignError))
    else AttachSpec(cfg.mcpClients)
  }

  /** The message the MCP-based tool's callable sends: `{"action": action, "payload": payload or {}}`. */
  function ActionMessage(action: string, payload: Json): (m: Json)
    ensures m.Object? && m.fields.Keys == {"action", "payload"}
    ensures m.fields["action"] == Str(action)
    ensures Truthy(payload) ==> m.fields["payload"] == payload
    ensures !Truthy(payload) ==> m.fields["payload"] == Object(map[])
  {
    Object(map["action" := Str(action), "payload" := if Truthy(payload) then payload else Object(map[])])
  }

  /** `BaseTool` with its two subclasses; `kind` says which. */
  class Tool {
    const name: string
    const kind: ToolKind
    const config: ToolConfig
    var mcpClients: seq<MCPClient>

    /** Every client was created by this tool, and none is in the list twice. */
    ghost predicate Valid()
      reads this
    {
      && (forall k :: 0 <= k < |mcpClients| ==> mcpClients[k].owner == this)
      && (forall i, j :: 0 <= i < j < |mcpClients| ==> mcpClients[i] != mcpClients[j])
    }

    constructor (name: string, kind: ToolKind, config: ToolConfig)
      ensures this.name == name && this.kind == kind && this.config == config
      ensures mcpClients == [] && Valid()
    {
      this.name := name;
      this.kind := kind;
      this.config := config;
      mcpClients := [];
    }

    /** `_attach_mcp_clients`: appends a connected client per enabled configuration, in
        order, stopping with KeyError at an enabled one that lacks a required key;
        clients appended before that stay appended and connected. */
    method AttachClients() returns (err: Option<PyError>)
      requires Valid()
      modifies this
      ensures Valid()
      ensures err == AttachSpec(config.mcpClients).1
      ensures |mcpClients| == |old(mcpClients)| + |AttachSpec(config.mcpClients).0|
      ensures mcpClients[..|old(mcpClients)|] == old(mcpClients)
      ensures forall k :: |old(mcpClients)| <= k < |mcpClients| ==>
        fresh(mcpClients[k]) && mcpClients[k].delivered == [] &&
        mcpClients[k].View() == AttachSpec(config.mcpClients).0[k - |old(mcpClients)|]
    {
      var cfgs := config.mcpClients;
      ghost var base := |mcpClients|;
      ghost var added: seq<ClientView> := [];
      var i := 0;
      assert cfgs[i..] == cfgs;
      while i < |cfgs|
        invariant 0 <= i <= |cfgs|
        invariant Valid()
        invariant |mcpClients| == base + |added| && mcpClients[..base] == old(mcpClients)
        invariant forall k :: base <= k < |mcpClients| ==>
          fresh(mcpClients[k]) && mcpClients[k].delivered == [] && mcpClients[k].View() == added[k - base]
        invariant AttachSpec(cfgs).0 == added + AttachSpec(cfgs[i..]).0
        invariant AttachSpec(cfgs).1 == AttachSpec(cfgs[i..]).1
      {
        var c := cfgs[i];
        assert cfgs[i..][0] == c && cfgs[i..][1..] == cfgs[i + 1..];
        if !Enabled(c) {
          i := i + 1;
        } else if !Complete(c) {
          return Some(KeyError(MissingKey(c)));
        } else {
          var client := new MCPClient(c.name.value, c.host.value, c.port.value, c.protocol.GetOr("stdio"), c.authToken, this);
          client.Connect();
          assert client.View() == ConnectedClient(c);
          mcpClients := mcpClients + [client];
          assert (added + [client.View()]) + AttachSpec(cfgs[i + 1..]).0
              == added + ([ConnectedClient(c)] + AttachSpec(cfgs[i + 1..]).0);
          added := added + [client.View()];
          i := i + 1;
        }
      }
      assert cfgs[i..] == [];
      return None;
    }

    /** `start`: the foreign step first, then the clients. */
    method Start(launchOk: bool) returns (err: Option<PyError>)
      requires Valid()
      modifies this
      ensures Valid()
      ensures err == StartSpec(kind, config, launchOk).1
      ensures |mcpClients| == |old(mcpClients)| + |StartSpec(kind, config, launchOk).0|
      ensures mcpClients[..|old(mcpClients)|] == old(mcpClients)
      ensures forall k :: |old(mcpClients)| <= k < |mcpClients| ==>
        fresh(mcpClients[k]) && mcpClients[k].delivered == [] &&
        mcpClients[k].View() == StartSpec(kind, config, launchOk).0[k - |old(mcpClients)|]
    {
      if HasForeignStart(kind, config) && !launchOk {
        return Some(ForeignError);
      }
      err := AttachClients();
    }

    /** `stop`: disconnects every client. */
    method Stop()
      modifies mcpClients
      ensures forall k :: 0 <= k < |mcpClients| ==>
        !mcpClients[k].connected && mcpClients[k].stopHealth && mcpClients[k].delivered == old(mcpClients[k].delivered)
    {
      var i := 0;
      while i < |mcpClients|
        invariant 0 <= i <= |mcpClients|
        invariant forall k :: 0 <= k < i ==> !mcpClients[k].connected && mcpClients[k].stopHealth
        invariant forall k :: 0 <= k < |mcpClients| ==> mcpClients[k].delivered == old(mcpClients[k].delivered)
      {
        mcpClients[i].Disconnect();
        i := i + 1;
      }
    }

    /** The callable of an MCP-based tool: sends one action message to every client in
        list order (a disconnected client drops it) and reports the action. */
    method CallAction(action: string, payload: Json) returns (r: string)
      requires Valid() && kind == McpBased
      modifies mcpClients
      ensures r == "[" + name + "] " + action + " executed"
      ensures forall k :: 0 <= k < |mcpClients| ==>
        mcpClients[k].connected == old(mcpClients[k].connected) &&
        mcpClients[k].delivered == old(mcpClients[k].delivered) +
          (if old(mcpClients[k].connected) then [ActionMessage(action, payload)] else [])
    {
      var message := ActionMessage(action, payload);
      var i := 0;
      while i < |mcpClients|
        invariant 0 <= i <= |mcpClients|
        invariant forall k :: 0 <= k < |mcpClients| ==> mcpClients[k].connected == old(mcpClients[k].connected)
        invariant forall k :: 0 <= k < i ==>
          mcpClients[k].delivered == old(mcpClients[k].delivered) + (if old(mcpClients[k].connected) then [message] else [])
        invariant forall k :: i <= k < |mcpClients| ==> mcpClients[k].delivered == old(mcpClients[k].delivered)
      {
        mcpClients[i].Send(message);
        i := i + 1;
      }
      r := "[" + name + "] " + action + " executed";
    }

    /** The callable of an internal tool, given what the wrapped Python function did:
        when it returned a value, sends `{"result": value}` to every client and returns
        the value; when it raised, sends nothing and raises the same. */
    method CallFunction(call: Result<Json, PyError>) returns (r: Result<Json, PyError>)
      requires Valid() && kind == InternalFunction
      modifies mcpClients
      ensures r == call
      ensures forall k :: 0 <= k < |mcpClients| ==>
        mcpClients[k].connected == old(mcpClients[k].connected) &&
        mcpClients[k].delivered == old(mcpClients[k].delivered) +
          (if call.Success? && old(mcpClients[k].connected) then [Object(map["result" := call.value])] else [])
    {
      if call.Failure? {
        return call;
      }
      var message := Object(map["result" := call.value]);
      var i := 0;
      while i < |mcpClients|
        invariant 0 <= i <= |mcpClients|
        invariant forall k :: 0 <= k < |mcpClients| ==> mcpClients[k].connected == old(mcpClients[k].connected)
        invariant forall k :: 0 <= k < i ==>
          mcpClients[k].delivered == old(mcpClients[k].delivered) + (if old(mcpClients[k].connected) then [message] else [])
        invariant forall k :: i <= k < |mcpClients| ==> mcpClients[k].delivered == old(mcpClients[k].delivered)
      {
        mcpClients[i].Send(message);
        i := i + 1;
      }
      return call;
    }
  }

  /** The callable `to_tool()` returns: a closure over the tool instance. */
  datatype ToolHandle = ActionTool(owner: Tool) | FunctionTool(owner: Tool)

  /** `instance.to_tool()`. */
  function ToTool(t: Tool): (h: ToolHandle)
    ensures h.owner == t
    ensures h.ActionTool? <==> t.kind == McpBased
  {
    if t.kind == McpBased then ActionTool(t) else FunctionTool(t)
  }

  // ---------------------------------------------------------------------------
  // The registry, as data

  /** The exception `add_tool(cfg)` raises, if any. */
  function AddError(cfg: ToolConfig, launchOk: bool): Option<PyError> {
    match CreateTool(cfg)
    case Failure(e) => Some(e)
    case Success(kind) => StartSpec(kind, cfg, launchOk).1
  }

  /** The configurations registered by name after `add_tool(cfg)`. */
  function AddSpec(reg: map<string, ToolConfig>, cfg: ToolConfig, launchOk: bool): map<string, ToolConfig> {
    if AddError(cfg, launchOk).None? then reg[cfg.name.value := cfg] else reg
  }

  /** The configurations registered after `setup` adds `cfgs[i..]` in order, and the
      exception that stops it, if any. `launchOk(k)` is whether the foreign start step
      of the k-th configuration raised nothing. */
  function SetupSpec(reg: map<string, ToolConfig>, cfgs: seq<ToolConfig>, launchOk: nat -> bool, i: nat)
    : (map<string, ToolConfig>, Option<PyError>)
    decreases |cfgs| - i
  {
    if i >= |cfgs| then (reg, None)
    else if AddError(cfgs[i], launchOk(i)).Some? then (reg, AddError(cfgs[i], launchOk(i)))
    else SetupSpec(AddSpec(reg, cfgs[i], launchOk(i)), cfgs, launchOk, i + 1)
  }

  /** The last configuration in `cfgs` with name `n`, if any. */
  function LastNamed(cfgs: seq<ToolConfig>, n: string): Option<ToolConfig> {
    if cfgs == [] then None
    else
      var later := LastNamed(cfgs[1..], n);
      if later.Some? then later else if cfgs[0].name == Some(n) then Some(cfgs[0]) else None
  }

  /** After a setup that raised nothing, a name is registered exactly when it was
      before or some configuration carries it, and with duplicate names the last
      configuration wins. */
  lemma {:induction false} SetupLastWins(reg: map<string, ToolConfig>, cfgs: seq<ToolConfig>, launchOk: nat -> bool, i: nat, n: string)
    requires i <= |cfgs|
    requires SetupSpec(reg, cfgs, launchOk, i).1 == None
    decreases |cfgs| - i
    ensures var out := SetupSpec(reg, cfgs, launchOk, i).0;
      && (n in out <==> n in reg || LastNamed(cfgs[i..], n).Some?)
      && (n in out ==> out[n] == if LastNamed(cfgs[i..], n).Some? then LastNamed(cfgs[i..], n).value else reg[n])
  {
    if i < |cfgs| {
      assert cfgs[i..][0] == cfgs[i] && cfgs[i..][1..] == cfgs[i + 1..];
      SetupLastWins(AddSpec(reg, cfgs[i], launchOk(i)), cfgs, launchOk, i + 1, n);
    }
  }

  /** A configuration that fails stops setup: what the configurations before it
      registered stays, nothing after it is added, and its exception is raised. */
  lemma {:induction false} SetupStopsAtFailure(reg: map<string, ToolConfig>, cfgs: seq<ToolConfig>, launchOk: nat -> bool, i: nat, k: nat)
    requires i <= k < |cfgs| && AddError(cfgs[k], launchOk(k)).Some?
    requires SetupSpec(reg, cfgs[..k], launchOk, i).1 == None
    decreases k - i
    ensures SetupSpec(reg, cfgs, launchOk, i) == (SetupSpec(reg, cfgs[..k], launchOk, i).0, AddError(cfgs[k], launchOk(k)))
  {
    if i < k {
      assert cfgs[..k][i] == cfgs[i];
      SetupStopsAtFailure(AddSpec(reg, cfgs[i], launchOk(i)), cfgs, launchOk, i + 1, k);
    }
  }

  // ---------------------------------------------------------------------------
  // The registry, as an object

  /** The configuration of each tool in a name-to-tool map. */
  function ConfigsOf(instances: map<string, Tool>): map<string, ToolConfig> {
    map n | n in instances :: instances[n].config
  }

  class ToolFabric {
    var toolInstances: map<string, Tool>
    var tools: map<string, ToolHandle>
    /** `self.config`'s tool list, once a document is loaded; before that the attribute
        does not exist. */
    var config: Option<seq<ToolConfig>>
    const configPath: Option<string>

    /** Both dictionaries have the same keys; each callable is its instance's, each
        instance sits under its own name, and no client belongs to two tools. */
    ghost predicate Valid()
      reads this, toolInstances.Values
    {
      && toolInstances.Keys == tools.Keys
      && forall n :: n in toolInstances ==>
           && tools[n] == ToTool(toolInstances[n])
           && toolInstances[n].name == n
           && toolInstances[n].config.name == Some(n)
           && toolInstances[n].Valid()
    }

    /** Two registered tools share no client: each client is owned by the tool that
        created it, and two names hold two different tools. */
    lemma NoSharedClients(n: string, m: string)
      requires Valid() && n in toolInstances && m in toolInstances && n != m
      ensures forall i, j :: 0 <= i < |toolInstances[n].mcpClients| && 0 <= j < |toolInstances[m].mcpClients| ==>
        toolInstances[n].mcpClients[i] != toolInstances[m].mcpClients[j]
    {
      assert toolInstances[n] != toolInstances[m] by {
        assert toolInstances[n].name == n && toolInstances[m].name == m;
      }
    }

    /** The configuration each registered name was added with. */
    function Registered(): map<string, ToolConfig>
      reads this
    {
      ConfigsOf(toolInstances)
    }

    /** `ToolFabric(config_path)`: empty registries; the document is loaded only when a
        non-empty path is given. */
    constructor (configPath: Option<string>, document: seq<ToolConfig>)
      ensures Valid() && toolInstances == map[] && tools == map[]
      ensures this.configPath == configPath
      ensures config == if configPath.Some? && configPath.value != "" then Some(document) else None
    {
      toolInstances := map[];
      tools := map[];
      this.configPath := configPath;
      config := if configPath.Some? && configPath.value != "" then Some(document) else None;
    }

    /** `load_from_yaml`, given the document's tool list. */
    method LoadFromYaml(document: seq<ToolConfig>)
      modifies this
      ensures config == Some(document)
      ensures toolInstances == old(toolInstances) && tools == old(tools)
    {
      config := Some(document);
    }

    /** `add_tool`: creates and starts the tool before touching either dictionary, so a
        failure registers nothing; on success both dictionaries map the name to the new
        tool, replacing any earlier one, and no other name changes. */
    method AddTool(cfg: ToolConfig, launchOk: bool) returns (err: Option<PyError>)
      requires Valid()
      modifies this
      ensures Valid() && config == old(config)
      ensures err == AddError(cfg, launchOk)
      ensures Registered() == AddSpec(old(Registered()), cfg, launchOk)
      ensures err.Some? ==> toolInstances == old(toolInstances) && tools == old(tools)
      ensures err.None? ==> cfg.name.Some?
      ensures err.None? ==>
        var n := cfg.name.value;
        && n in toolInstances
        && fresh(toolInstances[n])
        && toolInstances[n].kind == CreateTool(cfg).value
        && toolInstances == old(toolInstances)[n := toolInstances[n]]
        && tools == old(tools)[n := ToTool(toolInstances[n])]
        && |toolInstances[n].mcpClients| == |StartSpec(CreateTool(cfg).value, cfg, launchOk).0|
        && forall k :: 0 <= k < |toolInstances[n].mcpClients| ==>
             toolInstances[n].mcpClients[k].View() == StartSpec(CreateTool(cfg).value, cfg, launchOk).0[k]
    {
      match CreateTool(cfg) {
        case Failure(e) =>
          return Some(e);
        case Success(kind) =>
          var n := cfg.name.value;
          var instance := new Tool(n, kind, cfg);
          err := instance.Start(launchOk);
          if err.None? {
            toolInstances := toolInstances[n := instance];
            tools := tools[n := ToTool(instance)];
            assert Registered() == old(Registered())[n := cfg];
          }
      }
    }

    /** `remove_tool`: nothing happens for an unknown name; otherwise the tool is
        stopped (its clients disconnected) and the name leaves both dictionaries, every
        other entry unchanged. */
    method RemoveTool(name: string)
      requires Valid()
      modifies this, if name in toolInstances then toolInstances[name].mcpClients else []
      ensures Valid() && config == old(config)
      ensures toolInstances == old(toolInstances) - {name}
      ensures tools == old(tools) - {name}
      ensures Registered() == old(Registered()) - {name}
      ensures forall m :: m in toolInstances ==> unchanged(toolInstances[m].mcpClients)
      ensures name in old(toolInstances) ==>
        var clients := old(toolInstances)[name].mcpClients;
        forall k :: 0 <= k < |clients| ==> !clients[k].connected && clients[k].stopHealth
    {
      if name in toolInstances {
        var removed := toolInstances[name];
        var others := toolInstances - {name};
        forall m | m in others ensures forall k :: 0 <= k < |others[m].mcpClients| ==> others[m].mcpClients[k] !in removed.mcpClients {
          assert others[m] != removed by { assert others[m].name == m; }
        }
        assert ConfigsOf(others) == ConfigsOf(toolInstances) - {name};
        removed.Stop();
        // Stopping touches only the removed tool's clients: the tools themselves stay.
        assert forall m :: m in others ==> unchanged(others[m]);
        toolInstances := others;
        tools := tools - {name};
      }
    }

    /** `setup`: adds the document's tools in order and returns the callables; the
        first failure stops it and is raised, with the tools before it registered.
        Without a loaded document `self.config` does not exist. */
    method Setup(launchOk: nat -> bool) returns (r: Result<map<string, ToolHandle>, PyError>)
      requires Valid()
      modifies this
      ensures Valid() && config == old(config)
      ensures old(config).None? ==>
        && r == Failure(AttributeError("'ToolFabric' object has no attribute 'config'"))
        && toolInstances == old(toolInstances) && tools == old(tools)
      ensures old(config).Some? ==>
        var (reg, err) := SetupSpec(old(Registered()), old(config).value, launchOk, 0);
        && Registered() == reg
        && (r.Success? <==> err.None?)
        && (r.Failure? ==> err == Some(r.error))
      ensures r.Success? ==> r.value == tools
    {
      if config.None? {
        return Failure(AttributeError("'ToolFabric' object has no attribute 'config'"));
      }
      var cfgs := config.value;
      ghost var spec := SetupSpec(Registered(), cfgs, launchOk, 0);
      var i := 0;
      while i < |cfgs|
        invariant 0 <= i <= |cfgs|
        invariant Valid() && config == old(config)
        invariant spec == SetupSpec(Registered(), cfgs, launchOk, i)
      {
        var err := AddTool(cfgs[i], launchOk(i));
        if err.Some? {
          return Failure(err.value);
        }
        i := i + 1;
      }
      return Success(tools);
    }
  }
}
