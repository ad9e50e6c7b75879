/**
 * The Model Context Protocol client: one `McpServer` per configured tool server, talking
 * JSON-RPC 2.0 over the server's stdin/stdout, and the `McpService` registry that starts
 * the servers, routes a tool call to the first server advertising the tool and converts
 * the advertised tools into the LLM's tool format.
 *
 * The subprocess is abstract: whether it could be spawned is a parameter, the pipe to its
 * stdin is the list of lines sent so far, and what one read from its stdout gave is a
 * `Reply`: end of stream, a line that is not JSON, or a decoded JSON object.
 */
module Mcp {
  import opened Wrappers
  import opened Json

  /** What reading one line of the server's stdout gave. */
  datatype Reply =
    | EndOfStream                       // `readline()` returned ""
    | Undecodable                       // `json.loads` raised
    | Message(response: seq<Member>)    // a decoded JSON object

  datatype McpError =
    | NotRunning(server: string)
    | NoResponse(server: string)
    | DecodeError(server: string)
    | ToolError(error: Value)
    | ToolNotFound(tool: string)
    | MissingName(descriptor: Value)          // `tool["name"]` raised
    | MissingConfigKey(key: string)     // `config["name"]` or `config["command"]` raised
  {
    /** The text of the `RuntimeError` / `ValueError` raised for the failures whose text is fixed. */
    function Text(): string
      requires NotRunning? || NoResponse? || ToolNotFound?
    {
      match this
      case NotRunning(s) => "MCP server '" + s + "' is not running"
      case NoResponse(s) => "No response from MCP server '" + s + "'"
      case ToolNotFound(t) => "Tool '" + t + "' not found in any MCP server"
    }
  }

  /** The spawned process; `stdinOpen` is whether it has a stdin pipe. */
  datatype Process = Process(stdinOpen: bool)

  // ===== Requests (JSON-RPC 2.0, section 4) =====

  /** A request object: "jsonrpc" is "2.0", "id" a number and "method" a string; "params",
      when present, is a structured value. */
  predicate IsRequest(v: Value) {
    && v.Dict?
    && UniqueKeys(v.members)
    && Get(v.members, "jsonrpc") == Some(Str("2.0"))
    && Get(v.members, "id").Some? && Get(v.members, "id").value.Int?
    && Get(v.members, "method").Some? && Get(v.members, "method").value.Str?
    && (Get(v.members, "params").Some? ==>
          Get(v.members, "params").value.Dict? || Get(v.members, "params").value.List?)
  }

  /** Looking a key up in a dict that starts with a given member. */
  lemma GetFirst(m: Member, rest: seq<Member>)
    requires UniqueKeys(rest) && Get(rest, m.key).None?
    ensures UniqueKeys([m] + rest)
    ensures forall k :: Get([m] + rest, k) == if k == m.key then Some(m.value) else Get(rest, k)
  {
    var ms := [m] + rest;
    assert ms[1..] == rest;
    forall i, j | 0 <= i < j < |ms| ensures ms[i].key != ms[j].key {
      if i == 0 {
        assert ms[j] == rest[j - 1];
      } else {
        assert ms[i] == rest[i - 1] && ms[j] == rest[j - 1];
      }
    }
  }

  function RequestObject(id: int, methodName: string, params: Option<Value>): (v: Value)
    requires params.Some? ==> params.value.Dict? || params.value.List?
    ensures IsRequest(v)
    ensures Get(v.members, "id") == Some(Int(id)) && Get(v.members, "method") == Some(Str(methodName))
    ensures Get(v.members, "params") == params
  {
    var tail := if params.Some? then [Member("params", params.value)] else [];
    var ms := [Member("jsonrpc", Str("2.0"))] + ([Member("id", Int(id))] + ([Member("method", Str(methodName))] + tail));
    assert UniqueKeys(tail);
    GetFirst(Member("method", Str(methodName)), tail);
    GetFirst(Member("id", Int(id)), [Member("method", Str(methodName))] + tail);
    GetFirst(Member("jsonrpc", Str("2.0")), [Member("id", Int(id))] + ([Member("method", Str(methodName))] + tail));
    Dict(ms)
  }

  /** The three requests the client sends. */
  datatype Rpc =
    | Initialize
    | ToolsList
    | ToolsCall(toolName: string, arguments: seq<Member>)
  {
    /** The request object: ids 1, 2 and 3, methods `initialize`, `tools/list` and
        `tools/call`; `initialize` announces protocol version 2024-11-05 and the client
        `xantus` 0.1.0, `tools/call` carries the tool name and its arguments. */
    function Request(): (v: Value)
      ensures IsRequest(v)
      ensures Get(v.members, "method") == Some(Str(match this
                                                   case Initialize => "initialize"
                                                   case ToolsList => "tools/list"
                                                   case ToolsCall(_, _) => "tools/call"))
      ensures ToolsList? <==> Get(v.members, "params").None?
      ensures ToolsCall? ==>
                Get(v.members, "params") == Some(Dict([Member("name", Str(toolName)), Member("arguments", Dict(arguments))]))
    {
      match this
      case Initialize =>
        RequestObject(1, "initialize", Some(Dict([
          Member("protocolVersion", Str("2024-11-05")),
          Member("capabilities", Dict([Member("tools", Dict([])), Member("resources", Dict([]))])),
          Member("clientInfo", Dict([Member("name", Str("xantus")), Member("version", Str("0.1.0"))]))])))
      case ToolsList => RequestObject(2, "tools/list", None)
      case ToolsCall(name, args) =>
        RequestObject(3, "tools/call", Some(Dict([Member("name", Str(name)), Member("arguments", Dict(args))])))
    }
  }

  /** `json.dumps(request) + "\n"`: what one request writes to the server's stdin, a single
      line whose only line break is the final one. */
  function Frame(request: Value): (line: string)
    ensures |line| > 1 && line[|line| - 1] == '\n'
    ensures forall i :: 0 <= i < |line| - 1 ==> line[i] != '\n' && line[i] != '\r'
    ensures line[..|line| - 1] == Dumps(request)
  {
    var text := Dumps(request);
    assert forall i :: 0 <= i < |text| ==> ' ' <= text[i] <= '~';
    text + "\n"
  }

  // ===== Responses (JSON-RPC 2.0, section 5) =====

  /** A response object as the protocol defines it: exactly one of "result" and "error". */
  predicate IsResponse(response: seq<Member>) {
    Get(response, "result").Some? != Get(response, "error").Some?
  }

  /** How `MCPServer.call_tool` reads a response: "result" is checked first and returned;
      otherwise an "error" member raises; with neither the call returns None. */
  function ToolCallOutcome(response: seq<Member>): (r: Result<Option<Value>, McpError>)
    ensures r.Ok? && r.value.Some? <==> Get(response, "result").Some?
    ensures r.Ok? && r.value.Some? ==> r.value == Get(response, "result")
    ensures r.Err? <==> Get(response, "result").None? && Get(response, "error").Some?
    ensures r.Err? ==> r.error == ToolError(Get(response, "error").value)
    ensures r == Ok(None) <==> Get(response, "result").None? && Get(response, "error").None?
  {
    match Get(response, "result")
    case Some(result) => Ok(Some(result))
    case None =>
      match Get(response, "error")
      case Some(e) => Err(ToolError(e))
      case None => Ok(None)
  }

  /** On a response that follows the protocol, the call succeeds exactly when the server
      sent a result, and then with that result. */
  lemma ProtocolResponseOutcome(response: seq<Member>)
    requires IsResponse(response)
    ensures ToolCallOutcome(response).Ok? <==> Get(response, "result").Some?
    ensures ToolCallOutcome(response).Ok? ==> ToolCallOutcome(response).value == Get(response, "result")
  {
  }

  /** The tool list in a `tools/list` response, when its "result" holds a "tools" list. */
  function ToolsIn(response: seq<Member>): (r: Option<seq<Value>>)
    ensures r.Some? <==> Get(response, "result").Some? &&
                         Field(Get(response, "result").value, "tools").Some? &&
                         Field(Get(response, "result").value, "tools").value.List?
    ensures r.Some? ==> Field(Get(response, "result").value, "tools") == Some(List(r.value))
  {
    match Get(response, "result")
    case Some(result) =>
      (match Field(result, "tools")
       case Some(List(ts)) => Some(ts)
       case _ => None)
    case None => None
  }

  /** `self.tools` after `_list_tools`: replaced by the listed tools when the reply holds
      them, and left as it was after any other reply or failure. */
  function ListedTools(before: seq<Value>, reply: Reply): seq<Value> {
    if reply.Message? && ToolsIn(reply.response).Some? then ToolsIn(reply.response).value else before
  }

  // ===== Tool conversion =====

  /** A tool in the format the LLM's tool-calling API takes. */
  datatype ClaudeTool = ClaudeTool(name: Value, description: Value, inputSchema: Value)

  /** `{"type": "object", "properties": {}, "required": []}`. */
  const DefaultInputSchema: Value :=
    Dict([Member("type", Str("object")), Member("properties", Dict([])), Member("required", List([]))])

  /** One advertised tool converted: `name` copied (its absence raises), `description`
      defaulting to "" and `input_schema` to the empty object schema when the descriptor
      lacks them. */
  function ConvertTool(tool: Value): (r: Result<ClaudeTool, McpError>)
    ensures r.Ok? <==> Field(tool, "name").Some?
    ensures r.Err? ==> r.error == MissingName(tool)
    ensures r.Ok? ==> r.value.name == Field(tool, "name").value
    ensures r.Ok? ==> r.value.description == (if Field(tool, "description").Some? then Field(tool, "description").value else Str(""))
    ensures r.Ok? ==> r.value.inputSchema == (if Field(tool, "inputSchema").Some? then Field(tool, "inputSchema").value else DefaultInputSchema)
  {
    match Field(tool, "name")
    case None => Err(MissingName(tool))
    case Some(name) =>
      Ok(ClaudeTool(name, Field(tool, "description").GetOr(Str("")), Field(tool, "inputSchema").GetOr(DefaultInputSchema)))
  }

  /** The converted list of a server's tools: one entry per tool, in order, or the error
      of the first tool that has no name. */
  function ClaudeTools(tools: seq<Value>): (r: Result<seq<ClaudeTool>, McpError>)
    ensures r.Ok? <==> forall i :: 0 <= i < |tools| ==> ConvertTool(tools[i]).Ok?
    ensures r.Ok? ==> |r.value| == |tools|
    ensures r.Ok? ==> forall i :: 0 <= i < |tools| ==> ConvertTool(tools[i]) == Ok(r.value[i])
  {
    if tools == [] then Ok([])
    else
      match ConvertTool(tools[0])
      case Err(e) => Err(e)
      case Ok(t) =>
        assert forall i :: 1 <= i < |tools| ==> tools[1..][i - 1] == tools[i];
        match ClaudeTools(tools[1..])
        case Err(e) => Err(e)
        case Ok(ts) => Ok([t] + ts)
  }

  /** The conversion stops at the first tool without a name. */
  lemma {:induction false} ClaudeToolsStopAt(tools: seq<Value>, k: nat)
    requires k < |tools| && ConvertTool(tools[k]).Err?
    requires forall j :: 0 <= j < k ==> ConvertTool(tools[j]).Ok?
    ensures ClaudeTools(tools) == Err(ConvertTool(tools[k]).error)
  {
    if k > 0 {
      assert forall j :: 0 <= j < k - 1 ==> tools[1..][j] == tools[j + 1];
      ClaudeToolsStopAt(tools[1..], k - 1);
    }
  }

  /** When every tool converts, the conversion is the list of the converted tools. */
  lemma {:induction false} ClaudeToolsAll(tools: seq<Value>, converted: seq<ClaudeTool>)
    requires |converted| == |tools|
    requires forall i :: 0 <= i < |tools| ==> ConvertTool(tools[i]) == Ok(converted[i])
    ensures ClaudeTools(tools) == Ok(converted)
  {
    if tools != [] {
      var tail, rest := tools[1..], converted[1..];
      forall i | 0 <= i < |tail| ensures ConvertTool(tail[i]) == Ok(rest[i]) {
        assert tail[i] == tools[i + 1] && rest[i] == converted[i + 1];
      }
      ClaudeToolsAll(tail, rest);
      assert ConvertTool(tools[0]) == Ok(converted[0]);
      assert converted == [converted[0]] + rest;
    }
  }

  /** The converted lists of several servers, concatenated in server order. */
  function AllClaudeTools(lists: seq<seq<Value>>): Result<seq<ClaudeTool>, McpError> {
    if lists == [] then Ok([])
    else
      match AllClaudeTools(lists[..|lists| - 1])
      case Err(e) => Err(e)
      case Ok(before) =>
        match ClaudeTools(lists[|lists| - 1])
        case Err(e) => Err(e)
        case Ok(last) => Ok(before + last)
  }

  function TotalTools(lists: seq<seq<Value>>): nat {
    if lists == [] then 0 else TotalTools(lists[..|lists| - 1]) + |lists[|lists| - 1]|
  }

  /** The concatenated list has one entry per advertised tool of every server. */
  lemma {:induction false} AllClaudeToolsLength(lists: seq<seq<Value>>)
    requires AllClaudeTools(lists).Ok?
    ensures |AllClaudeTools(lists).value| == TotalTools(lists)
  {
    if lists != [] {
      AllClaudeToolsLength(lists[..|lists| - 1]);
    }
  }

  // ===== Routing =====

  /** `any(t["name"] == name for t in tools)`: true at the first tool of that name; a tool
      without a name reached before it raises. */
  function Advertises(tools: seq<Value>, name: string): (r: Result<bool, McpError>)
    ensures r == Ok(true) ==> exists i :: 0 <= i < |tools| && Field(tools[i], "name") == Some(Str(name))
    ensures r == Ok(false) <==> forall i :: 0 <= i < |tools| ==>
      Field(tools[i], "name").Some? && Field(tools[i], "name") != Some(Str(name))
    ensures r.Err? ==> r.error.MissingName?
  {
    if tools == [] then Ok(false)
    else
      match Field(tools[0], "name")
      case None => Err(MissingName(tools[0]))
      case Some(n) =>
        if n == Str(name) then Ok(true)
        else
          var rest := Advertises(tools[1..], name);
          assert forall i :: 1 <= i < |tools| ==> tools[1..][i - 1] == tools[i];
          rest
  }

  /** The server a tool call goes to, given the servers' tool lists in registration order:
      the index of the first whose tools include the name, the error of a scan that raised
      before it, or "not found". */
  function RouteTool(lists: seq<seq<Value>>, name: string): (r: Result<nat, McpError>)
    ensures r.Ok? ==> r.value < |lists|
  {
    if lists == [] then Err(ToolNotFound(name))
    else
      match Advertises(lists[0], name)
      case Err(e) => Err(e)
      case Ok(true) => Ok(0)
      case Ok(false) =>
        match RouteTool(lists[1..], name)
        case Ok(i) => Ok(i + 1)
        case Err(e) => Err(e)
  }

  /** A routed call goes to a server that has the tool, and no earlier server has it. */
  lemma {:induction false} RouteToolFirst(lists: seq<seq<Value>>, name: string)
    requires RouteTool(lists, name).Ok?
    ensures Advertises(lists[RouteTool(lists, name).value], name) == Ok(true)
    ensures forall j :: 0 <= j < RouteTool(lists, name).value ==> Advertises(lists[j], name) == Ok(false)
  {
    if Advertises(lists[0], name) == Ok(false) {
      var tail := lists[1..];
      RouteToolFirst(tail, name);
      var i := RouteTool(tail, name).value;
      assert RouteTool(lists, name).value == i + 1;
      assert lists[i + 1] == tail[i];
      forall j | 0 <= j < i + 1 ensures Advertises(lists[j], name) == Ok(false) {
        if j > 0 {
          assert lists[j] == tail[j - 1];
        }
      }
    }
  }

  /** The call fails with "not found" exactly when every server's tools lack the name. */
  lemma {:induction false} RouteToolNotFound(lists: seq<seq<Value>>, name: string)
    ensures RouteTool(lists, name) == Err(ToolNotFound(name)) <==>
            forall j :: 0 <= j < |lists| ==> Advertises(lists[j], name) == Ok(false)
  {
    if lists != [] {
      var tail := lists[1..];
      RouteToolNotFound(tail, name);
      assert forall j :: 1 <= j < |lists| ==> lists[j] == tail[j - 1];
    }
  }

  // ===== One server =====

  /** How a server is started: whether the process could be spawned, and the replies to
      `initialize` and `tools/list`. */
  datatype StartEnv = StartEnv(spawned: bool, initializeReply: Reply, listReply: Reply)

  /** `_list_tools` stores a `result.tools` that has no `len()`: None, a bool or a number.
      The log line at the end of `start()` then raises. */
  predicate ToolsWithoutLength(reply: Reply) {
    && reply.Message? && Get(reply.response, "result").Some?
    && var tools := Field(Get(reply.response, "result").value, "tools");
       tools.Some? && (tools.value.Null? || tools.value.Bool? || tools.value.Int? || tools.value.Float?)
  }

  /** `start()` returns True exactly when the process spawned, `initialize` got a JSON
      reply (what that reply says is not looked at) and the tools it then holds have a
      length. */
  predicate StartSucceeds(env: StartEnv) {
    env.spawned && env.initializeReply.Message? && !ToolsWithoutLength(env.listReply)
  }

  class McpServer {
    const name: string
    const command: string
    const args: seq<string>
    var process: Option<Process>
    var tools: seq<Value>
    var resources: seq<Value>
    /** Every request written to the process's stdin so far, each as the one line
        `Frame(rpc.Request())`. */
    var sent: seq<Rpc>

    /** `MCPServer(name, command, args)`: `args or []`, no process, no tools yet. */
    constructor (name: string, command: string, args: Option<seq<string>>)
      ensures this.name == name && this.command == command && this.args == args.GetOr([])
      ensures process == None && tools == [] && resources == [] && sent == []
    {
      this.name := name;
      this.command := command;
      this.args := args.GetOr([]);
      process := None;
      tools := [];
      resources := [];
      sent := [];
    }

    predicate Running()
      reads this
    {
      process.Some? && process.value.stdinOpen
    }

    /** What `_send_request` returns or raises for a given read from stdout. */
    function Exchange(reply: Reply): (r: Result<seq<Member>, McpError>)
      reads this
      ensures !Running() ==> r == Err(NotRunning(name))
      ensures Running() ==> (r.Ok? <==> reply.Message?)
      ensures Running() && reply.Message? ==> r == Ok(reply.response)
      ensures Running() && reply.EndOfStream? ==> r == Err(NoResponse(name))
    {
      if !Running() then Err(NotRunning(name))
      else
        match reply
        case EndOfStream => Err(NoResponse(name))
        case Undecodable => Err(DecodeError(name))
        case Message(response) => Ok(response)
    }

    /** `_send_request`: refuses when there is no process or stdin; otherwise writes the
        request as one JSON line and reads one reply line, which must not be empty. */
    method SendRequest(rpc: Rpc, reply: Reply) returns (r: Result<seq<Member>, McpError>)
      modifies this`sent
      ensures r == old(Exchange(reply))
      ensures sent == if old(Running()) then old(sent) + [rpc] else old(sent)
    {
      if !Running() {
        return Err(NotRunning(name));
      }
      sent := sent + [rpc];
      match reply {
        case EndOfStream => r := Err(NoResponse(name));
        case Undecodable => r := Err(DecodeError(name));
        case Message(response) => r := Ok(response);
      }
    }

    /** `_list_tools`: any exception is caught and logged. */
    method ListTools(reply: Reply)
      modifies this`sent, this`tools
      ensures tools == if old(Running()) then ListedTools(old(tools), reply) else old(tools)
      ensures sent == if old(Running()) then old(sent) + [ToolsList] else old(sent)
    {
      var response := SendRequest(ToolsList, reply);
      if response.Ok? {
        var listed := ToolsIn(response.value);
        if listed.Some? {
          tools := listed.value;
        }
      }
    }

    /** `start()`: spawns the process, sends `initialize`, lists the tools and logs their
        number; any exception makes it return False. */
    method Start(env: StartEnv) returns (ok: bool)
      modifies this`process, this`sent, this`tools
      ensures ok == StartSucceeds(env)
      ensures !env.spawned ==> process == old(process) && sent == old(sent) && tools == old(tools)
      ensures env.spawned ==> process == Some(Process(true))
      ensures env.spawned ==> sent == old(sent) + [Rpc.Initialize] +
                                         (if env.initializeReply.Message? then [ToolsList] else [])
      ensures tools == if env.spawned && env.initializeReply.Message? then ListedTools(old(tools), env.listReply)
                       else old(tools)
    {
      if !env.spawned {
        return false;
      }
      process := Some(Process(true));
      var init := SendRequest(Rpc.Initialize, env.initializeReply);
      if init.Err? {
        return false;
      }
      ListTools(env.listReply);
      // `len(self.tools)` in the success message
      ok := !ToolsWithoutLength(env.listReply);
    }

    /** `call_tool`: sends `tools/call` and reads the reply with `ToolCallOutcome`;
        transport failures propagate. */
    method CallTool(toolName: string, arguments: seq<Member>, reply: Reply) returns (r: Result<Option<Value>, McpError>)
      modifies this`sent
      ensures r == match old(Exchange(reply))
                   case Err(e) => Err(e)
                   case Ok(response) => ToolCallOutcome(response)
      ensures sent == if old(Running()) then old(sent) + [ToolsCall(toolName, arguments)] else old(sent)
    {
      var response := SendRequest(ToolsCall(toolName, arguments), reply);
      match response {
        case Err(e) => r := Err(e);
        case Ok(resp) => r := ToolCallOutcome(resp);
      }
    }

    /** `get_tools_for_claude`: the append loop over the advertised tools. */
    method GetToolsForClaude() returns (r: Result<seq<ClaudeTool>, McpError>)
      ensures r == ClaudeTools(tools)
      ensures r.Ok? ==> |r.value| == |tools|
    {
      var converted: seq<ClaudeTool> := [];
      for k := 0 to |tools|
        invariant |converted| == k
        invariant forall i :: 0 <= i < k ==> ConvertTool(tools[i]) == Ok(converted[i])
      {
        var tool := ConvertTool(tools[k]);
        if tool.Err? {
          ClaudeToolsStopAt(tools, k);
          return Err(tool.error);
        }
        converted := converted + [tool.value];
      }
      ClaudeToolsAll(tools, converted);
      r := Ok(converted);
    }

    /** `stop()`: the process is terminated (killed after a timeout) and dropped. */
    method Stop()
      modifies this`process
      ensures process == None
    {
      process := None;
    }
  }

  // ===== The registry =====

  /** One entry of the configured server list: `config["name"]`, `config["command"]` and
      `config.get("args", [])`, each absent when the configuration dict lacks it. */
  datatype ServerSpec = ServerSpec(name: Option<string>, command: Option<string>, args: Option<seq<string>>)

  /** The registration order after starting the servers of `specs` in turn: a server that
      started is added under its name (keeping its place when the name is taken); the scan
      stops at the first entry that lacks a name or a command. */
  function RegisteredNames(order: seq<string>, specs: seq<ServerSpec>, envs: seq<StartEnv>): seq<string>
    requires |specs| == |envs|
    decreases |specs|
  {
    if specs == [] || specs[0].name.None? || specs[0].command.None? then order
    else
      var n := specs[0].name.value;
      var next := if StartSucceeds(envs[0]) && n !in order then order + [n] else order;
      RegisteredNames(next, specs[1..], envs[1..])
  }

  /** `initialize` raises a KeyError for the first entry without a name or command. */
  function InitializeOutcome(specs: seq<ServerSpec>): (r: Result<(), McpError>)
    ensures r.Ok? <==> forall i :: 0 <= i < |specs| ==> specs[i].name.Some? && specs[i].command.Some?
  {
    if specs == [] then Ok(())
    else if specs[0].name.None? then Err(MissingConfigKey("name"))
    else if specs[0].command.None? then Err(MissingConfigKey("command"))
    else
      var rest := InitializeOutcome(specs[1..]);
      assert forall i :: 1 <= i < |specs| ==> specs[1..][i - 1] == specs[i];
      rest
  }

  /** The position of the first entry without a name or a command, where `initialize`
      raises, or the length of the list when every entry has both. */
  function FirstIncomplete(specs: seq<ServerSpec>): (k: nat)
    ensures k <= |specs|
    ensures forall i :: 0 <= i < k ==> specs[i].name.Some? && specs[i].command.Some?
    ensures k < |specs| ==> specs[k].name.None? || specs[k].command.None?
  {
    if specs == [] || specs[0].name.None? || specs[0].command.None? then 0
    else
      var rest := FirstIncomplete(specs[1..]);
      assert forall i :: 1 <= i <= rest ==> specs[i] == specs[1..][i - 1];
      1 + rest
  }

  /** The first incomplete entry is the one after the complete ones. */
  lemma {:induction false} FirstIncompleteIs(specs: seq<ServerSpec>, k: nat)
    requires k <= |specs| && forall i :: 0 <= i < k ==> specs[i].name.Some? && specs[i].command.Some?
    requires k < |specs| ==> specs[k].name.None? || specs[k].command.None?
    ensures FirstIncomplete(specs) == k
  {
    if k > 0 {
      FirstIncompleteIs(specs[1..], k - 1);
    }
  }

  /** `initialize` raises for the entry `FirstIncomplete` finds, naming the key it
      lacks first, and succeeds when there is none. */
  lemma {:induction false} InitializeOutcomeAt(specs: seq<ServerSpec>)
    ensures var k := FirstIncomplete(specs);
            InitializeOutcome(specs) ==
              if k == |specs| then Ok(())
              else if specs[k].name.None? then Err(MissingConfigKey("name"))
              else Err(MissingConfigKey("command"))
  {
    if specs != [] && specs[0].name.Some? && specs[0].command.Some? {
      InitializeOutcomeAt(specs[1..]);
      assert specs[1..][FirstIncomplete(specs[1..])..] == specs[FirstIncomplete(specs)..];
    }
  }

  /** The entry starts a server that registers under `n`. */
  predicate StartsAs(spec: ServerSpec, env: StartEnv, n: string) {
    spec.name == Some(n) && StartSucceeds(env)
  }

  /** For each name some of the first `k` entries start a server under, the last such
      entry: the one whose server holds the name once they have all been started. */
  function LatestStarts(specs: seq<ServerSpec>, envs: seq<StartEnv>, k: nat): (m: map<string, nat>)
    requires |specs| == |envs| && k <= |specs|
    ensures forall n | n in m :: m[n] < k && StartsAs(specs[m[n]], envs[m[n]], n)
  {
    if k == 0 then map[]
    else
      var m := LatestStarts(specs, envs, k - 1);
      if specs[k - 1].name.Some? && StartSucceeds(envs[k - 1]) then m[specs[k - 1].name.value := k - 1] else m
  }

  /** `LatestStarts` holds a name exactly when some of the entries starts under it. */
  lemma {:induction false} LatestStartsHas(specs: seq<ServerSpec>, envs: seq<StartEnv>, k: nat, n: string)
    requires |specs| == |envs| && k <= |specs|
    ensures n in LatestStarts(specs, envs, k) <==> exists i :: 0 <= i < k && StartsAs(specs[i], envs[i], n)
  {
    if k > 0 {
      LatestStartsHas(specs, envs, k - 1, n);
      if !StartsAs(specs[k - 1], envs[k - 1], n) {
        assert n in LatestStarts(specs, envs, k) <==> n in LatestStarts(specs, envs, k - 1);
        if exists i :: 0 <= i < k && StartsAs(specs[i], envs[i], n) {
          var i :| 0 <= i < k && StartsAs(specs[i], envs[i], n);
          assert i < k - 1;
        }
      }
    }
  }

  /** The entry `LatestStarts` gives a name is the last one that starts under it. */
  lemma {:induction false} LatestStartsIsLast(specs: seq<ServerSpec>, envs: seq<StartEnv>, k: nat, n: string)
    requires |specs| == |envs| && k <= |specs| && n in LatestStarts(specs, envs, k)
    ensures forall i :: LatestStarts(specs, envs, k)[n] < i < k ==> !StartsAs(specs[i], envs[i], n)
  {
    if !StartsAs(specs[k - 1], envs[k - 1], n) {
      var earlier := LatestStarts(specs, envs, k - 1);
      assert n in earlier && LatestStarts(specs, envs, k)[n] == earlier[n];
      LatestStartsIsLast(specs, envs, k - 1, n);
    }
  }

  /** The names `initialize` registers a started server under, each with the entry it
      was started from. */
  function StartedServers(specs: seq<ServerSpec>, envs: seq<StartEnv>): (m: map<string, nat>)
    requires |specs| == |envs|
    ensures forall n | n in m :: m[n] < |specs|
  {
    LatestStarts(specs, envs, FirstIncomplete(specs))
  }

  /** A name is registered after `initialize` exactly when it was registered before or
      some entry before the first incomplete one started a server under it. */
  lemma {:induction false} RegisteredNamesMembers(order: seq<string>, specs: seq<ServerSpec>, envs: seq<StartEnv>, n: string)
    requires |specs| == |envs|
    ensures n in RegisteredNames(order, specs, envs) <==>
              n in order || exists i :: 0 <= i < FirstIncomplete(specs) && StartsAs(specs[i], envs[i], n)
    decreases |specs|
  {
    if specs != [] && specs[0].name.Some? && specs[0].command.Some? {
      var n0 := specs[0].name.value;
      var next := if StartSucceeds(envs[0]) && n0 !in order then order + [n0] else order;
      var tail, tailEnvs := specs[1..], envs[1..];
      RegisteredNamesMembers(next, tail, tailEnvs, n);
      var fi := FirstIncomplete(specs);
      assert fi == FirstIncomplete(tail) + 1;
      assert n in next <==> n in order || StartsAs(specs[0], envs[0], n);
      if exists i :: 0 <= i < FirstIncomplete(tail) && StartsAs(tail[i], tailEnvs[i], n) {
        var i :| 0 <= i < FirstIncomplete(tail) && StartsAs(tail[i], tailEnvs[i], n);
        assert StartsAs(specs[i + 1], envs[i + 1], n);
      }
      if exists i :: 0 <= i < fi && StartsAs(specs[i], envs[i], n) {
        var i :| 0 <= i < fi && StartsAs(specs[i], envs[i], n);
        if i > 0 {
          assert StartsAs(tail[i - 1], tailEnvs[i - 1], n);
        }
      }
    }
  }

  /** The registration order after `initialize` holds the old names and exactly the
      names `StartedServers` gives a new server. */
  lemma RegisteredNamesAreStarted(order: seq<string>, specs: seq<ServerSpec>, envs: seq<StartEnv>, n: string)
    requires |specs| == |envs|
    ensures n in RegisteredNames(order, specs, envs) <==> n in order || n in StartedServers(specs, envs)
  {
    RegisteredNamesMembers(order, specs, envs, n);
    LatestStartsHas(specs, envs, FirstIncomplete(specs), n);
  }

  /** The state `StartServer` leaves a server in when it starts from this entry. */
  predicate StartedAs(server: McpServer, spec: ServerSpec, env: StartEnv)
    reads server
  {
    && spec.command.Some? && server.command == spec.command.value && server.args == spec.args.GetOr([])
    && server.Running() && server.tools == ListedTools([], env.listReply)
    && server.sent == [Rpc.Initialize, ToolsList]
  }

  /** What the registry holds once the first `k` entries have been started over the
      registry `before`, `created[i]` being the server made for entry i: the names are
      the old ones and those the entries started servers under; a name some entry started
      under holds the last such entry's server, and every other name the server it held. */
  ghost predicate Registry(servers: map<string, McpServer>, before: map<string, McpServer>, created: seq<McpServer>,
                           specs: seq<ServerSpec>, envs: seq<StartEnv>, k: nat)
    requires |specs| == |envs| && k <= |specs| && |created| == k
  {
    var latest := LatestStarts(specs, envs, k);
    && servers.Keys == before.Keys + latest.Keys
    && (forall n | n in servers && n !in latest :: n in before && servers[n] == before[n])
    && (forall n | n in latest :: servers[n] == created[latest[n]])
  }

  /** Starting entry `k` keeps `Registry`: the name it starts under, if it starts, now
      holds its server. */
  lemma RegistryStep(servers: map<string, McpServer>, next: map<string, McpServer>, before: map<string, McpServer>,
                     created: seq<McpServer>, started: McpServer, specs: seq<ServerSpec>, envs: seq<StartEnv>, k: nat)
    requires |specs| == |envs| && k < |specs| && |created| == k && specs[k].name.Some?
    requires Registry(servers, before, created, specs, envs, k)
    requires next == if StartSucceeds(envs[k]) then servers[specs[k].name.value := started] else servers
    ensures Registry(next, before, created + [started], specs, envs, k + 1)
  {
    var made := created + [started];
    assert forall i :: 0 <= i < k ==> made[i] == created[i];
    assert made[k] == started;
  }

  /** When every entry that started left its server in the state `StartedAs` gives,
      every name `Registry` gives a new server holds its entry's server in that state. */
  lemma RegistryStarted(servers: map<string, McpServer>, before: map<string, McpServer>, created: seq<McpServer>,
                        specs: seq<ServerSpec>, envs: seq<StartEnv>, k: nat)
    requires |specs| == |envs| && k <= |specs| && |created| == k
    requires Registry(servers, before, created, specs, envs, k)
    requires forall i | 0 <= i < k && StartSucceeds(envs[i]) :: StartedAs(created[i], specs[i], envs[i])
    ensures forall n | n in LatestStarts(specs, envs, k) ::
              var j := LatestStarts(specs, envs, k)[n];
              servers[n] == created[j] && StartedAs(servers[n], specs[j], envs[j])
  {
  }

  predicate Distinct(s: seq<string>) {
    forall i, j :: 0 <= i < j < |s| ==> s[i] != s[j]
  }

  class McpService {
    /** The keys of `servers` in insertion order. */
    var names: seq<string>
    var servers: map<string, McpServer>
    var initialized: bool

    ghost predicate Valid()
      reads this
    {
      && Distinct(names)
      && (forall n :: n in names <==> n in servers)
      && (forall n | n in servers :: servers[n].name == n)
    }

    constructor ()
      ensures Valid() && names == [] && servers == map[] && !initialized
    {
      names := [];
      servers := map[];
      initialized := false;
    }

    /** The registered servers' tool lists, in registration order. */
    function ToolLists(): (lists: seq<seq<Value>>)
      reads this, servers.Values
      requires Valid()
      ensures |lists| == |names|
      ensures forall i :: 0 <= i < |names| ==> lists[i] == servers[names[i]].tools
    {
      var ns, ss := names, servers;
      seq(|ns|, i reads ss.Values requires 0 <= i < |ns| && ns[i] in ss => ss[ns[i]].tools)
    }

    /** One iteration of `initialize`: the server is created and started, and registered
        under its name when it started. */
    method StartServer(name: string, command: string, args: Option<seq<string>>, env: StartEnv)
      returns (server: McpServer)
      requires Valid()
      modifies this
      ensures Valid() && initialized == old(initialized)
      ensures names == if StartSucceeds(env) && name !in old(names) then old(names) + [name] else old(names)
      ensures servers == if StartSucceeds(env) then old(servers)[name := server] else old(servers)
      ensures fresh(server) && server.name == name && server.command == command && server.args == args.GetOr([])
      ensures StartSucceeds(env) ==> server.Running() && server.tools == ListedTools([], env.listReply)
      ensures StartSucceeds(env) ==> server.sent == [Rpc.Initialize, ToolsList]
    {
      server := new McpServer(name, command, args);
      var started := server.Start(env);
      if started {
        if name !in servers {
          names := names + [name];
        }
        servers := servers[name := server];
      }
    }

    /** The state of `initialize` after its first `k` entries, begun with the registration
        order `order` and the registry `origin`, `created[i]` being the server made for
        entry i: the order is the one `RegisteredNames` gives, the registry the one
        `Registry` gives, and every server that started is in the state `StartedAs` gives. */
    ghost predicate InitProgress(specs: seq<ServerSpec>, envs: seq<StartEnv>, k: nat, order: seq<string>,
                                 origin: map<string, McpServer>, created: seq<McpServer>)
      reads this, created
    {
      && Valid() && |specs| == |envs| && k <= |specs| && |created| == k
      && RegisteredNames(order, specs, envs) == RegisteredNames(names, specs[k..], envs[k..])
      && Registry(servers, origin, created, specs, envs, k)
      && (forall i | 0 <= i < k && StartSucceeds(envs[i]) :: StartedAs(created[i], specs[i], envs[i]))
    }

    /** Once the loop of `initialize` reaches the first incomplete entry, the order, the
        registry and the started servers are what `initialize` promises. */
    lemma InitDone(specs: seq<ServerSpec>, envs: seq<StartEnv>, k: nat, order: seq<string>,
                   origin: map<string, McpServer>, created: seq<McpServer>)
      requires InitProgress(specs, envs, k, order, origin, created) && k == FirstIncomplete(specs)
      ensures names == RegisteredNames(order, specs, envs)
      ensures servers.Keys == origin.Keys + StartedServers(specs, envs).Keys
      ensures forall n | n in servers && n !in StartedServers(specs, envs) :: n in origin && servers[n] == origin[n]
      ensures forall n | n in StartedServers(specs, envs) ::
                && servers[n] == created[StartedServers(specs, envs)[n]]
                && StartedAs(servers[n], specs[StartedServers(specs, envs)[n]], envs[StartedServers(specs, envs)[n]])
    {
      RegistryStarted(servers, origin, created, specs, envs, k);
    }

    /** Entry `k` of the loop of `initialize`: the entry's server is created and started,
        and `made` adds it to the servers made so far. */
    method StartEntry(specs: seq<ServerSpec>, envs: seq<StartEnv>, k: nat, ghost order: seq<string>,
                      ghost origin: map<string, McpServer>, ghost created: seq<McpServer>)
      returns (ghost made: seq<McpServer>)
      requires InitProgress(specs, envs, k, order, origin, created)
      requires k < |specs| && specs[k].name.Some? && specs[k].command.Some?
      modifies this
      ensures InitProgress(specs, envs, k + 1, order, origin, made)
      ensures initialized == old(initialized)
      ensures made == created + [made[k]] && fresh(made[k])
    {
      var spec := specs[k];
      assert specs[k..][1..] == specs[k + 1..] && envs[k..][1..] == envs[k + 1..];
      ghost var before, registered := names, servers;
      var server := StartServer(spec.name.value, spec.command.value, spec.args, envs[k]);
      assert RegisteredNames(before, specs[k..], envs[k..]) == RegisteredNames(names, specs[k + 1..], envs[k + 1..]);
      RegistryStep(registered, servers, origin, created, server, specs, envs, k);
      made := created + [server];
      assert forall i | 0 <= i < k :: made[i] == created[i];
    }

    /** The loop of `initialize`: entries are started in order up to the first one that
        lacks its name or its command, which is entry `k`. */
    method StartEntries(specs: seq<ServerSpec>, envs: seq<StartEnv>) returns (k: nat)
      requires Valid() && |specs| == |envs|
      modifies this
      ensures k == FirstIncomplete(specs) && initialized == old(initialized)
      ensures Valid()
      ensures names == RegisteredNames(old(names), specs, envs)
      ensures servers.Keys == old(servers).Keys + StartedServers(specs, envs).Keys
      ensures forall n | n in servers && n !in StartedServers(specs, envs) :: n in old(servers) && servers[n] == old(servers)[n]
      ensures forall n | n in StartedServers(specs, envs) ::
                StartedAs(servers[n], specs[StartedServers(specs, envs)[n]], envs[StartedServers(specs, envs)[n]])
      ensures forall n | n in StartedServers(specs, envs) :: fresh(servers[n])
    {
      k := 0;
      ghost var created: seq<McpServer> := [];
      while k < |specs| && specs[k].name.Some? && specs[k].command.Some?
        invariant InitProgress(specs, envs, k, old(names), old(servers), created)
        invariant initialized == old(initialized)
        invariant forall i :: 0 <= i < k ==> specs[i].name.Some? && specs[i].command.Some?
        invariant fresh(created)
      {
        created := StartEntry(specs, envs, k, old(names), old(servers), created);
        k := k + 1;
      }
      FirstIncompleteIs(specs, k);
      InitDone(specs, envs, k, old(names), old(servers), created);
    }

    /** `initialize`: every configured server is created and started; those that start are
        registered under their name; the service is marked initialized at the end. */
    method Initialize(specs: seq<ServerSpec>, envs: seq<StartEnv>) returns (r: Result<(), McpError>)
      requires Valid() && |specs| == |envs|
      modifies this
      ensures Valid()
      ensures r == InitializeOutcome(specs)
      ensures names == RegisteredNames(old(names), specs, envs)
      ensures initialized == (r.Ok? || old(initialized))
      ensures servers.Keys == old(servers).Keys + StartedServers(specs, envs).Keys
      ensures forall n | n in servers && n !in StartedServers(specs, envs) :: n in old(servers) && servers[n] == old(servers)[n]
      ensures forall n | n in StartedServers(specs, envs) ::
                StartedAs(servers[n], specs[StartedServers(specs, envs)[n]], envs[StartedServers(specs, envs)[n]])
      ensures forall n | n in StartedServers(specs, envs) :: fresh(servers[n])
    {
      var k := StartEntries(specs, envs);
      InitializeOutcomeAt(specs);
      r := if k == |specs| then Ok(())
           else if specs[k].name.None? then Err(MissingConfigKey("name"))
           else Err(MissingConfigKey("command"));
      initialized := initialized || r.Ok?;
    }

    /** `get_all_tools_for_claude`: the servers' converted lists, concatenated in
        registration order. */
    method GetAllToolsForClaude() returns (r: Result<seq<ClaudeTool>, McpError>)
      requires Valid()
      ensures r == AllClaudeTools(ToolLists())
      ensures r.Ok? ==> |r.value| == TotalTools(ToolLists())
    {
      var lists := ToolLists();
      var all: seq<ClaudeTool> := [];
      for k := 0 to |names|
        invariant AllClaudeTools(lists[..k]) == Ok(all)
      {
        var server := servers[names[k]];
        assert server.tools == lists[k];
        var converted := server.GetToolsForClaude();
        AllClaudeToolsStep(lists, k, all);
        if converted.Err? {
          FirstErrorPersists(lists, k + 1);
          return Err(converted.error);
        }
        all := all + converted.value;
      }
      assert lists[..|names|] == lists;
      AllClaudeToolsLength(lists);
      r := Ok(all);
    }

    /** `call_tool`: the call goes to the first registered server whose tools include the
        name; when none does it fails with "Tool '{name}' not found in any MCP server". */
    method CallTool(toolName: string, arguments: seq<Member>, reply: Reply) returns (r: Result<Option<Value>, McpError>)
      requires Valid()
      modifies servers.Values
      ensures Valid() && ToolLists() == old(ToolLists())
      ensures var route := RouteTool(ToolLists(), toolName);
              && (route.Err? ==> r == Err(route.error))
              && (route.Ok? ==> r == match old(servers[names[route.value]].Exchange(reply))
                                     case Err(e) => Err(e)
                                     case Ok(response) => ToolCallOutcome(response))
      ensures forall n | n in servers :: servers[n].process == old(servers[n].process)
      ensures var route := RouteTool(ToolLists(), toolName);
              forall n | n in servers ::
                servers[n].sent == if route.Ok? && n == names[route.value] && old(servers[n].Running())
                                   then old(servers[n].sent) + [ToolsCall(toolName, arguments)]
                                   else old(servers[n].sent)
    {
      var lists := ToolLists();
      var route := FindServer(lists, toolName);
      if route.Err? {
        return Err(route.error);
      }
      var server := servers[names[route.value]];
      r := server.CallTool(toolName, arguments, reply);
      assert forall i | 0 <= i < |names| :: servers[names[i]].tools == lists[i];
    }

    /** `shutdown`: every server is stopped, the registry emptied and the flag cleared. */
    method Shutdown()
      requires Valid()
      modifies this, servers.Values
      ensures Valid() && names == [] && servers == map[] && !initialized
      ensures forall s :: s in old(servers.Values) ==> s.process == None
      ensures forall s :: s in old(servers.Values) ==> s.tools == old(s.tools) && s.sent == old(s.sent)
    {
      var k := 0;
      while k < |names|
        invariant 0 <= k <= |names|
        invariant Valid() && names == old(names) && servers == old(servers)
        invariant forall n | n in servers && n in names[..k] :: servers[n].process == None
        invariant forall n | n in servers :: servers[n].tools == old(servers[n].tools) && servers[n].sent == old(servers[n].sent)
      {
        assert names[..k + 1] == names[..k] + [names[k]];
        servers[names[k]].Stop();
        k := k + 1;
      }
      assert names[..k] == names;
      names := [];
      servers := map[];
      initialized := false;
    }
  }

  /** The `for server in self.servers.values(): if any(...)` scan of `call_tool`, over the
      servers' tool lists in registration order: the index of the first server whose tools
      include the name. */
  method FindServer(lists: seq<seq<Value>>, toolName: string) returns (r: Result<nat, McpError>)
    ensures r == RouteTool(lists, toolName)
  {
    for k := 0 to |lists|
      invariant forall j :: 0 <= j < k ==> Advertises(lists[j], toolName) == Ok(false)
    {
      var found := Advertises(lists[k], toolName);
      if found != Ok(false) {
        RouteAt(lists, toolName, k);
        if found.Err? {
          return Err(found.error);
        }
        return Ok(k);
      }
    }
    RouteToolNotFound(lists, toolName);
    r := Err(ToolNotFound(toolName));
  }

  /** One more server's converted list extends the concatenation, or its error ends it. */
  lemma AllClaudeToolsStep(lists: seq<seq<Value>>, k: nat, before: seq<ClaudeTool>)
    requires k < |lists| && AllClaudeTools(lists[..k]) == Ok(before)
    ensures AllClaudeTools(lists[..k + 1]) ==
      match ClaudeTools(lists[k])
      case Err(e) => Err(e)
      case Ok(next) => Ok(before + next)
  {
    assert lists[..k + 1][..k] == lists[..k];
  }

  /** Once a prefix of the servers fails to convert, so does every longer prefix. */
  lemma {:induction false} FirstErrorPersists(lists: seq<seq<Value>>, k: nat)
    requires k <= |lists| && AllClaudeTools(lists[..k]).Err?
    ensures AllClaudeTools(lists) == AllClaudeTools(lists[..k])
    decreases |lists| - k
  {
    if k < |lists| {
      assert lists[..k + 1][..k] == lists[..k];
      FirstErrorPersists(lists, k + 1);
    } else {
      assert lists[..k] == lists;
    }
  }

  /** When the servers before `k` do not have the tool and the scan of server `k` ends
      (finding the tool or raising), that outcome decides the route. */
  lemma {:induction false} RouteAt(lists: seq<seq<Value>>, name: string, k: nat)
    requires k < |lists| && Advertises(lists[k], name) != Ok(false)
    requires forall j :: 0 <= j < k ==> Advertises(lists[j], name) == Ok(false)
    ensures RouteTool(lists, name) ==
      if Advertises(lists[k], name).Ok? then Ok(k) else Err(Advertises(lists[k], name).error)
  {
    if k > 0 {
      assert Advertises(lists[0], name) == Ok(false);
      var tail := lists[1..];
      assert tail[k - 1] == lists[k];
      assert forall j :: 0 <= j < k - 1 ==> tail[j] == lists[j + 1];
      RouteAt(tail, name, k - 1);
    }
  }
}
