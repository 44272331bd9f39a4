/** The tool surface of the extended server (src/index-extended.ts): the
    ListTools answer and the CallTool dispatch by tool name, with thrown
    errors turned into error results. */
module ExtendedServer {
  import opened Wrappers
  import opened Js

  /** The five SSH tools, each with its own handler. */
  datatype Tool = ConnectVm | ExecuteCommand | QueryDatabase | CreateTunnel | Disconnect

  function ToolName(t: Tool): string {
    match t
    case ConnectVm => "ssh-connect-vm"
    case ExecuteCommand => "ssh-execute-command"
    case QueryDatabase => "ssh-query-database"
    case CreateTunnel => "ssh-create-tunnel"
    case Disconnect => "ssh-disconnect"
  }

  /** A tool description as listed: its name, its description and the
      arguments its input schema requires. */
  datatype ToolSpec = ToolSpec(name: string, description: string, required: seq<string>)

  /** The entry `SSH_TOOLS` holds for a tool. */
  function Describe(t: Tool): (d: ToolSpec)
    ensures d.name == ToolName(t)
  {
    ToolSpec(ToolName(t), Description(t), RequiredArguments(t))
  }

  function Description(t: Tool): string {
    match t
    case ConnectVm => "Connect to a Google Compute Engine VM via SSH"
    case ExecuteCommand => "Execute a command on a connected VM via SSH"
    case QueryDatabase => "Query a database through SSH tunnel"
    case CreateTunnel => "Create an SSH tunnel to a remote service"
    case Disconnect => "Disconnect the current SSH session"
  }

  /** The `required` list of the tool's input schema. */
  function RequiredArguments(t: Tool): seq<string> {
    match t
    case ConnectVm => ["projectId", "zone", "instanceName"]
    case ExecuteCommand => ["command"]
    case QueryDatabase => ["dbType", "host", "port", "database", "username", "password", "query"]
    case CreateTunnel => ["localPort", "remoteHost", "remotePort"]
    case Disconnect => []
  }

  /** The tools in the order `SSH_TOOLS` lists them. */
  const ListedOrder: seq<Tool> := [ConnectVm, ExecuteCommand, QueryDatabase, CreateTunnel, Disconnect]

  /** The `switch (name)` of the CallTool handler. */
  function Route(name: string): (r: Option<Tool>)
    ensures r.Some? ==> ToolName(r.value) == name
    ensures r.None? ==> forall t: Tool :: ToolName(t) != name
  {
    if name == "ssh-connect-vm" then Some(ConnectVm)
    else if name == "ssh-execute-command" then Some(ExecuteCommand)
    else if name == "ssh-query-database" then Some(QueryDatabase)
    else if name == "ssh-create-tunnel" then Some(CreateTunnel)
    else if name == "ssh-disconnect" then Some(Disconnect)
    else None
  }

  /** Every tool's name routes to that tool and to no other. */
  lemma RouteInvertsToolName(t: Tool, name: string)
    ensures Route(ToolName(t)) == Some(t)
    ensures Route(name) == Some(t) <==> name == ToolName(t)
  {
  }

  /** The ListTools answer: `SSH_TOOLS`, the description of each tool in
      `ListedOrder`. */
  function ListTools(): (r: seq<ToolSpec>)
    ensures |r| == |ListedOrder| && forall i :: 0 <= i < |r| ==> r[i] == Describe(ListedOrder[i])
  {
    seq(|ListedOrder|, i requires 0 <= i < |ListedOrder| => Describe(ListedOrder[i]))
  }


  /** ListTools describes every tool the server has. */
  lemma ListsEveryTool()
    ensures forall t: Tool :: Describe(t) in ListTools()
  {
    var r := ListTools();
    forall t: Tool
      ensures Describe(t) in r
    {
      var i := ToolIndex(t);
      assert r[i] == Describe(ListedOrder[i]);
    }
  }

  /** The position of a tool in `ListedOrder`. */
  function ToolIndex(t: Tool): (i: nat)
    ensures i < |ListedOrder| && ListedOrder[i] == t
  {
    match t
    case ConnectVm => 0
    case ExecuteCommand => 1
    case QueryDatabase => 2
    case CreateTunnel => 3
    case Disconnect => 4
  }

  /** Every name ListTools lists is dispatched by the CallTool switch to the
      handler of the tool it describes, so no two entries share a handler. */
  lemma ListedNamesRoute()
    ensures forall i :: 0 <= i < |ListTools()| ==> Route(ListTools()[i].name) == Some(ListedOrder[i])
  {
    var r := ListTools();
    forall i | 0 <= i < |r|
      ensures Route(r[i].name) == Some(ListedOrder[i])
    {
      RouteInvertsToolName(ListedOrder[i], "");
    }
  }

  /** No two ListTools entries share a name, so a CallTool name never
      stands for two listed tools. */
  lemma ListedOnce()
    ensures forall i, j :: 0 <= i < j < |ListTools()| ==> ListTools()[i].name != ListTools()[j].name
  {
    ListedNamesRoute();
  }

  /** How a handler's call ended: with a value, or with something thrown. */
  datatype HandlerOutcome = Returned(value: Json) | Threw(thrown: Thrown)

  /** `{ error: true, message }`. */
  function ErrorResult(message: string): Json {
    JObject([("error", JBool(true)), ("message", JString(message))])
  }

  /** The handler a CallTool request invoked, if any, and what it answered. */
  datatype Dispatch = Dispatch(invoked: Option<Tool>, result: Json)

  /** The CallTool handler. `run(t)` is how the handler of tool `t` ends for
      this request's arguments. */
  function CallTool(name: string, run: Tool -> HandlerOutcome): (d: Dispatch)
    ensures d.invoked.Some? <==> exists t: Tool :: ToolName(t) == name
    ensures d.invoked.Some? ==> ToolName(d.invoked.value) == name
    ensures d.invoked.None? ==> d.result == ErrorResult("Unknown tool: " + name)
    ensures d.invoked.Some? && run(d.invoked.value).Returned? ==> d.result == run(d.invoked.value).value
    ensures d.invoked.Some? && run(d.invoked.value).Threw? ==>
              d.result == ErrorResult(MessageOr(run(d.invoked.value).thrown, "Unknown error occurred"))
  {
    match Route(name)
    case None => Dispatch(None, ErrorResult("Unknown tool: " + name))
    case Some(t) =>
      match run(t)
      case Returned(v) => Dispatch(Some(t), v)
      case Threw(e) => Dispatch(Some(t), ErrorResult(MessageOr(e, "Unknown error occurred")))
  }

  /** A thrown `Error` becomes an error result carrying its message rather
      than propagating; anything else thrown becomes "Unknown error occurred". */
  lemma ThrownBecomesErrorResult(t: Tool, run: Tool -> HandlerOutcome)
    requires run(t).Threw?
    ensures CallTool(ToolName(t), run).invoked == Some(t)
    ensures run(t).thrown.ErrorObject? ==>
              CallTool(ToolName(t), run).result == ErrorResult(run(t).thrown.message)
    ensures run(t).thrown.OtherValue? ==>
              CallTool(ToolName(t), run).result == ErrorResult("Unknown error occurred")
  {
    RouteInvertsToolName(t, ToolName(t));
  }
}
