/** MoodleMcpClient: the lazily started connection to the Moodle MCP server and the
    check applied to every tool reply.  The child process and the MCP SDK session are
    identities only; whether the process hands out its pipes, whether `connect` fails
    and what the server answers are parameters of the operations. */
module McpClient {
  import opened Wrappers
  import opened JsValues

  /** An outbound tool input: field name to value (a field set to undefined is absent,
      as JSON.stringify drops it). */
  type Payload = map<string, Js>

  /** A thrown value: whether it is an Error instance, its `message` ("" when it has
      none) and its JSON.stringify text. */
  datatype Fault = Fault(isError: bool, message: string, json: string)

  /** The `{name, input}` parameters of an MCP tools/call request. */
  datatype ToolRequest = ToolRequest(name: string, input: Payload)

  /** One entry of a reply's `content` array: its `type` and its `text`. */
  datatype ContentItem = ContentItem(kind: string, text: string)

  /** A tools/call reply; `content` may be missing. */
  datatype ToolResponse = ToolResponse(content: Option<seq<ContentItem>>)

  /** What the SDK's callTool does with a request: it resolves with a reply or rejects. */
  datatype CallOutcome = Replied(response: ToolResponse) | Rejected(fault: Fault)

  function UnexpectedFormat(toolName: string): Fault {
    Fault(true, "[MyMoodleMcpClient] Unexpected response format from MCP tool " + toolName, "{}")
  }

  const PipeFault: Fault :=
    Fault(true, "[MyMoodleMcpClient] Failed to get stdin/stdout for MCP Server process", "{}")

  /** The reply check of callMcpTool: the text of the first content item when there is
      one and its type is "text", otherwise the "Unexpected response format" error. */
  function ReplyText(toolName: string, response: ToolResponse): (r: Result<string, Fault>)
    ensures r.Success? <==>
      response.content.Some? && |response.content.value| > 0
      && response.content.value[0].kind == "text"
    ensures r.Success? ==> r.value == response.content.value[0].text
    ensures r.Failure? ==> r.error == UnexpectedFormat(toolName)
  {
    match response.content
    case None => Failure(UnexpectedFormat(toolName))
    case Some(items) =>
      if |items| > 0 && items[0].kind == "text" then Success(items[0].text)
      else Failure(UnexpectedFormat(toolName))
  }

  /** Only the first content item is looked at. */
  lemma ReplyIgnoresLaterItems(toolName: string, first: ContentItem, rest: seq<ContentItem>)
    ensures ReplyText(toolName, ToolResponse(Some([first] + rest)))
         == ReplyText(toolName, ToolResponse(Some([first])))
  {
  }

  /** A rejection of callTool propagates; a reply goes through the reply check. */
  function Settle(toolName: string, outcome: CallOutcome): (r: Result<string, Fault>)
    ensures outcome.Rejected? ==> r == Failure(outcome.fault)
    ensures outcome.Replied? ==> r == ReplyText(toolName, outcome.response)
  {
    match outcome
    case Rejected(f) => Failure(f)
    case Replied(response) => ReplyText(toolName, response)
  }

  /** Whether a call reaches the SDK's callTool: the session already existed, or a new
      process handed out its pipes and connect succeeded. */
  predicate Reaches(connected: bool, pipesOpen: bool, connectFault: Option<Fault>) {
    connected || (pipesOpen && connectFault.None?)
  }

  /** What the SDK's callTool does with a request, given whether the session it goes
      through completed its connect handshake (false for a session whose connect failed). */
  type Server = (bool, ToolRequest) -> CallOutcome

  /** What callMcpTool resolves with, in terms of what it found and what happened:
      `connected` says a session was held and `ready` whether that session's handshake
      completed. */
  function CallResult(connected: bool, ready: bool, pipesOpen: bool, connectFault: Option<Fault>,
                      request: ToolRequest, reply: Server): (r: Result<string, Fault>)
    ensures connected ==> r == Settle(request.name, reply(ready, request))
    ensures !connected && pipesOpen && connectFault.None? ==>
      r == Settle(request.name, reply(true, request))
    ensures !connected && !pipesOpen ==> r == Failure(PipeFault)
    ensures !connected && pipesOpen && connectFault.Some? ==> r == Failure(connectFault.value)
  {
    if connected then Settle(request.name, reply(ready, request))
    else if !pipesOpen then Failure(PipeFault)
    else if connectFault.Some? then Failure(connectFault.value)
    else Settle(request.name, reply(true, request))
  }

  /** A spawned `node <script>` child process. */
  class ServerProcess {
    const script: string
    var killed: bool

    constructor(script: string)
      ensures this.script == script && !killed
    {
      this.script := script;
      killed := false;
    }

    method Kill()
      modifies this
      ensures killed
    {
      killed := true;
    }
  }

  /** An MCP SDK client session; `handshaken` records whether its connect resolved. */
  class SdkClient {
    const name: string
    const version: string
    var handshaken: bool

    constructor()
      ensures name == "MyClient" && version == "1.0.0" && !handshaken
    {
      name := "MyClient";
      version := "1.0.0";
      handshaken := false;
    }
  }

  class MoodleMcpClient {
    var client: SdkClient?
    var mcpServerProcess: ServerProcess?
    const mcpServerScriptPath: string
    /** Every process spawned so far, oldest first. */
    ghost var spawned: seq<ServerProcess>
    /** Every request handed to callTool so far, oldest first. */
    ghost var sent: seq<ToolRequest>

    /** A session is only held while a live process is held, the held process is the
        latest one spawned, and every process runs the configured script. */
    ghost predicate Valid()
      reads this, mcpServerProcess
    {
      (client != null ==> mcpServerProcess != null && !mcpServerProcess.killed)
      && (mcpServerProcess != null ==> |spawned| > 0 && mcpServerProcess == spawned[|spawned| - 1])
      && (forall p :: p in spawned ==> p.script == mcpServerScriptPath)
    }

    /** Whether a session is held and its connect resolved. */
    function Ready(): bool
      reads this, client
    {
      client != null && client.handshaken
    }

    constructor(absolutePath: string)
      ensures Valid()
      ensures client == null && mcpServerProcess == null
      ensures mcpServerScriptPath == absolutePath
      ensures spawned == [] && sent == []
    {
      mcpServerScriptPath := absolutePath;
      client := null;
      mcpServerProcess := null;
      spawned := [];
      sent := [];
    }

    /** startAndConnect: reuse the held session, or spawn a process and open a session.
        The session is stored before connect settles, so a failed connect leaves it held. */
    method StartAndConnect(pipesOpen: bool, connectFault: Option<Fault>)
      returns (r: Result<SdkClient, Fault>)
      requires Valid()
      modifies this
      ensures Valid()
      ensures sent == old(sent)
      ensures old(client) != null ==>
        r == Success(old(client)) && client == old(client)
        && mcpServerProcess == old(mcpServerProcess) && spawned == old(spawned)
      ensures old(client) == null ==>
        mcpServerProcess != null && fresh(mcpServerProcess)
        && spawned == old(spawned) + [mcpServerProcess]
      ensures old(client) == null && !pipesOpen ==> client == null && r == Failure(PipeFault)
      ensures old(client) == null && pipesOpen ==>
        client != null && fresh(client) && client.handshaken == connectFault.None?
        && r == (if connectFault.None? then Success(client) else Failure(connectFault.value))
    {
      if client != null {
        return Success(client);
      }
      var p := new ServerProcess(mcpServerScriptPath);
      mcpServerProcess := p;
      spawned := spawned + [p];
      if !pipesOpen {
        return Failure(PipeFault);
      }
      var session := new SdkClient();
      client := session;
      match connectFault
      case None =>
        session.handshaken := true;
        r := Success(session);
      case Some(f) => r := Failure(f);
    }

    /** callMcpTool: connect if needed, send exactly `{name: toolName, input}`, and
        check the reply. */
    method CallMcpTool(toolName: string, input: Payload, pipesOpen: bool,
                       connectFault: Option<Fault>, reply: Server)
      returns (r: Result<string, Fault>)
      requires Valid()
      modifies this
      ensures Valid()
      ensures old(client) != null ==>
        client == old(client) && mcpServerProcess == old(mcpServerProcess) && spawned == old(spawned)
        && Ready() == old(Ready())
      ensures old(client) == null ==>
        mcpServerProcess != null && fresh(mcpServerProcess)
        && spawned == old(spawned) + [mcpServerProcess] && (client != null <==> pipesOpen)
        && Ready() == (pipesOpen && connectFault.None?)
      ensures sent == old(sent)
        + (if Reaches(old(client) != null, pipesOpen, connectFault) then [ToolRequest(toolName, input)] else [])
      ensures r == CallResult(old(client) != null, old(Ready()), pipesOpen, connectFault,
                              ToolRequest(toolName, input), reply)
    {
      var session := StartAndConnect(pipesOpen, connectFault);
      if session.Failure? {
        return Failure(session.error);
      }
      var request := ToolRequest(toolName, input);
      sent := sent + [request];
      r := Settle(toolName, reply(session.value.handshaken, request));
    }

    /** The `exit` listener of a spawned process: it forgets the session and nothing else;
        the process reference stays until the next spawn overwrites it. */
    method OnProcessExit()
      requires Valid()
      modifies this`client
      ensures Valid()
      ensures client == null
    {
      client := null;
    }

    /** The `error` listener of a spawned process, without its rethrow. */
    method OnProcessError()
      requires Valid()
      modifies this`client
      ensures Valid()
      ensures client == null
    {
      client := null;
    }

    /** shutdown: forget the session, kill the held process if there is one, forget it. */
    method Shutdown()
      requires Valid()
      modifies this`client, this`mcpServerProcess, mcpServerProcess
      ensures Valid()
      ensures client == null && mcpServerProcess == null
      ensures old(mcpServerProcess) != null ==> old(mcpServerProcess).killed
    {
      if client != null {
        client := null;
      }
      if mcpServerProcess != null {
        mcpServerProcess.Kill();
        mcpServerProcess := null;
      }
    }
  }

  /** Once a process has handed out its pipes the session is held, even when connect
      failed, so a second call spawns nothing more and goes to callTool on that session,
      which never completed its handshake when the first connect failed. */
  method TwoCallsSpawnOnce(c: MoodleMcpClient, first: ToolRequest, second: ToolRequest,
                           connectFault: Option<Fault>, reply: Server)
    returns (a: Result<string, Fault>, b: Result<string, Fault>)
    requires c.Valid()
    modifies c
    ensures c.Valid()
    ensures |c.spawned| <= |old(c.spawned)| + 1
    ensures old(c.client) != null ==> b == Settle(second.name, reply(old(c.Ready()), second))
    ensures old(c.client) == null ==> b == Settle(second.name, reply(connectFault.None?, second))
  {
    a := c.CallMcpTool(first.name, first.input, true, connectFault, reply);
    b := c.CallMcpTool(second.name, second.input, true, None, reply);
  }

  /** After shutdown the next call spawns a new process for the same script. */
  method CallAfterShutdown(c: MoodleMcpClient, request: ToolRequest, pipesOpen: bool,
                           connectFault: Option<Fault>, reply: Server)
    returns (r: Result<string, Fault>)
    requires c.Valid()
    modifies c, c.mcpServerProcess
    ensures c.Valid()
    ensures |c.spawned| == |old(c.spawned)| + 1
    ensures c.mcpServerProcess != null && c.mcpServerProcess.script == c.mcpServerScriptPath
    ensures r == CallResult(false, false, pipesOpen, connectFault, request, reply)
  {
    c.Shutdown();
    r := c.CallMcpTool(request.name, request.input, pipesOpen, connectFault, reply);
  }

  /** After the process exits the next call spawns again. */
  method CallAfterExit(c: MoodleMcpClient, request: ToolRequest, pipesOpen: bool,
                       connectFault: Option<Fault>, reply: Server)
    returns (r: Result<string, Fault>)
    requires c.Valid()
    modifies c
    ensures c.Valid()
    ensures |c.spawned| == |old(c.spawned)| + 1
    ensures r == CallResult(false, false, pipesOpen, connectFault, request, reply)
  {
    c.OnProcessExit();
    r := c.CallMcpTool(request.name, request.input, pipesOpen, connectFault, reply);
  }
}
