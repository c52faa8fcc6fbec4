/**
 * utils/mcp_manager_legacy.py `MCPConnectionManager`: the bookkeeping of
 * one user session's MCP connections. Four dicts are kept per server name:
 * the connection task, the session, the tool list and the connection
 * context. Tasks and sessions are opaque handles here; what a connection
 * task does once it runs arrives as an event (`OnConnected`, `OnFailed`).
 */
module LegacyManager {
  import opened Wrappers
  import PyDict
  import opened Messages
  import opened McpSession

  /** Opaque handles for an `asyncio` task and a client session. */
  type Task = nat
  type Session = nat

  /** A `call_tool` the session is asked to run: tool name and arguments as given. */
  datatype Forward = Forward(session: Session, tool: string, arguments: Json)

  /** A notification from a server, as the message handler sees it. */
  datatype Notification =
    | LoggingMessage(data: string)
    | ProgressMessage(message: Option<string>, progress: string, total: Option<string>)
    | OtherNotification

  /** What the handler does with one: print a log line, or call `on_progress`. */
  datatype Effect =
    | LogLine(line: string)
    | ProgressCallback(server: string, message: Option<string>, progress: string, total: Option<string>)

  class ConnectionManager {
    const id: string
    const hasOnProgress: bool
    const hasOnElicit: bool
    var connectionTasks: map<string, Task>
    var sessions: map<string, Session>
    var tools: Catalog
    var connections: map<string, nat>
    var shutdownSet: bool
    /** The handle the next `asyncio.create_task` returns. */
    var nextTask: Task

    /**
     * `tools` is a dict (no server twice), and a session or a tool list is
     * only ever held for a server whose connection task is recorded.
     */
    ghost predicate Valid()
      reads this
    {
      && PyDict.Valid(tools)
      && sessions.Keys <= connectionTasks.Keys
      && (forall k :: PyDict.Has(tools, k) ==> k in connectionTasks)
    }

    constructor(id: string, hasOnProgress: bool, hasOnElicit: bool)
      ensures Valid()
      ensures this.id == id && this.hasOnProgress == hasOnProgress && this.hasOnElicit == hasOnElicit
      ensures connectionTasks == map[] && sessions == map[] && tools == [] && connections == map[]
      ensures !shutdownSet
    {
      this.id := id;
      this.hasOnProgress := hasOnProgress;
      this.hasOnElicit := hasOnElicit;
      connectionTasks := map[];
      sessions := map[];
      tools := [];
      connections := map[];
      shutdownSet := false;
      nextTask := 0;
    }

    /** `remove_connection`: a known name leaves all four dicts; an unknown one changes nothing. */
    method RemoveConnection(name: string)
      requires Valid()
      modifies this
      ensures Valid()
      ensures name in old(connectionTasks) ==>
        && connectionTasks == old(connectionTasks) - {name}
        && sessions == old(sessions) - {name}
        && tools == PyDict.Del(old(tools), name)
        && connections == old(connections) - {name}
      ensures name !in old(connectionTasks) ==>
        connectionTasks == old(connectionTasks) && sessions == old(sessions) && tools == old(tools) && connections == old(connections)
      ensures shutdownSet == old(shutdownSet) && nextTask == old(nextTask)
    {
      if name in connectionTasks {
        connectionTasks := connectionTasks - {name};
        if name in sessions {
          sessions := sessions - {name};
        }
        PyDict.DelSpec(tools, name);
        if PyDict.Has(tools, name) {
          tools := PyDict.Del(tools, name);
        }
        if name in connections {
          connections := connections - {name};
        }
      }
    }

    /** `add_connection`: any earlier connection of that name is removed first, then a new task is recorded. */
    method AddConnection(name: string)
      requires Valid()
      modifies this
      ensures Valid()
      ensures connectionTasks == old(connectionTasks)[name := old(nextTask)]
      ensures name in old(connectionTasks) ==>
        sessions == old(sessions) - {name} && tools == PyDict.Del(old(tools), name) && connections == old(connections) - {name}
      ensures name !in old(connectionTasks) ==>
        sessions == old(sessions) && tools == old(tools) && connections == old(connections)
      ensures nextTask == old(nextTask) + 1 && shutdownSet == old(shutdownSet)
      ensures !IsConnected(name)
    {
      if name in connectionTasks {
        RemoveConnection(name);
      }
      connectionTasks := connectionTasks[name := nextTask];
      nextTask := nextTask + 1;
    }

    /** `get_tools_from_session`: `[]` for a server without a session. */
    function GetToolsFromSession(name: string, listing: Listing): (r: seq<ToolInfo>)
      reads this
      ensures name !in sessions ==> r == []
      ensures name in sessions ==> r == ToolsOf(listing)
    {
      if name !in sessions then [] else ToolsOf(listing)
    }

    /**
     * The task of `name` got its session initialised: the session and the
     * tools it lists are stored, and those tools go to `on_connect`.
     */
    method OnConnected(name: string, session: Session, listing: Listing) returns (published: seq<ToolInfo>)
      requires Valid() && name in connectionTasks
      modifies this
      ensures Valid()
      ensures sessions == old(sessions)[name := session]
      ensures published == ToolsOf(listing) && tools == PyDict.Put(old(tools), name, published)
      ensures connectionTasks == old(connectionTasks) && connections == old(connections)
      ensures shutdownSet == old(shutdownSet) && nextTask == old(nextTask)
    {
      sessions := sessions[name := session];
      published := GetToolsFromSession(name, listing);
      PyDict.PutSpec(tools, name, published);
      tools := PyDict.Put(tools, name, published);
    }

    /** The task of `name` raised: it removes its own connection, as `remove_connection` does. */
    method OnFailed(name: string)
      requires Valid()
      modifies this
      ensures Valid()
      ensures name in old(connectionTasks) ==>
        && connectionTasks == old(connectionTasks) - {name}
        && sessions == old(sessions) - {name}
        && tools == PyDict.Del(old(tools), name)
        && connections == old(connections) - {name}
      ensures name !in old(connectionTasks) ==>
        connectionTasks == old(connectionTasks) && sessions == old(sessions) && tools == old(tools) && connections == old(connections)
    {
      RemoveConnection(name);
    }

    /** `update_tools`: refresh, in catalog order, the list of every server that has a session. */
    method UpdateTools(listing: string -> Listing)
      requires Valid()
      modifies this
      ensures Valid()
      ensures tools == UpdatedTools(old(tools), sessions.Keys, listing)
      ensures sessions == old(sessions) && connectionTasks == old(connectionTasks) && connections == old(connections)
    {
      ghost var before := tools;
      var t := tools;
      var i := 0;
      while i < |t|
        invariant 0 <= i <= |t| == |before|
        invariant forall j :: 0 <= j < |t| ==> t[j].0 == before[j].0
        invariant forall j :: 0 <= j < i ==> t[j] == UpdatedTools(before, sessions.Keys, listing)[j]
        invariant forall j :: i <= j < |t| ==> t[j] == before[j]
        invariant unchanged(this)
      {
        var name := t[i].0;
        if name in sessions {
          var refreshed := GetToolsFromSession(name, listing(name));
          PyDict.PutAt(t, i, refreshed);
          t := PyDict.Put(t, name, refreshed);
        }
        i := i + 1;
      }
      assert t == UpdatedTools(before, sessions.Keys, listing);
      UpdatedToolsSpec(before, sessions.Keys, listing);
      tools := t;
    }

    /** `call_tool`: a server without a session raises; otherwise name and arguments go to its session unchanged. */
    function CallTool(server: string, tool: string, arguments: Json): (r: Result<Forward, string>)
      reads this
      ensures r.Err? <==> server !in sessions
      ensures r.Err? ==> r.error == NotConnectedMessage(server)
      ensures r.Ok? ==> r.value.session == sessions[server] && r.value.tool == tool && r.value.arguments == arguments
    {
      if server !in sessions then Err(NotConnectedMessage(server))
      else Ok(Forward(sessions[server], tool, arguments))
    }

    /** `shutdown`: set the event, remove every connection, then clear all four dicts. */
    method Shutdown()
      requires Valid()
      modifies this
      ensures Valid()
      ensures shutdownSet
      ensures connectionTasks == map[] && sessions == map[] && tools == [] && connections == map[]
    {
      shutdownSet := true;
      var pending := connectionTasks.Keys;
      while pending != {}
        invariant Valid() && shutdownSet
        decreases pending
      {
        var name :| name in pending;
        RemoveConnection(name);
        pending := pending - {name};
      }
      sessions := map[];
      tools := [];
      connections := map[];
      connectionTasks := map[];
    }

    /** `is_connected` */
    predicate IsConnected(name: string)
      reads this
    {
      name in sessions && name in connectionTasks
    }

    /** `list_roots_request`: always the one session folder root, `file://{id}`. */
    function ListRootsRequest(): (r: seq<Root>)
      reads this
      ensures |r| == 1 && r[0].uri == "file://" + id && r[0].name == "user_session_folder"
    {
      [Root("file://" + id, "user_session_folder")]
    }

    /**
     * The handler `_create_message_handler(name)` returns: a log line tagged
     * with the server name, or progress forwarded to `on_progress` under that
     * name when a callback is set; anything else is ignored. This log line is
     * the one `print` the model keeps, because it is what the handler does.
     */
    function MessageHandler(name: string, n: Notification): (r: seq<Effect>)
      reads this
      ensures |r| <= 1
      ensures n.LoggingMessage? ==> r == [LogLine("📡 [" + name + "] " + n.data)]
      ensures forall e :: e in r && e.ProgressCallback? ==> e.server == name
      ensures n.ProgressMessage? && hasOnProgress ==> r == [ProgressCallback(name, n.message, n.progress, n.total)]
      ensures n.OtherNotification? || (n.ProgressMessage? && !hasOnProgress) ==> r == []
    {
      match n
      case LoggingMessage(data) => [LogLine("📡 [" + name + "] " + data)]
      case ProgressMessage(message, progress, total) =>
        if hasOnProgress then [ProgressCallback(name, message, progress, total)] else []
      case OtherNotification => []
    }

    /** `elicitation_request`: the action `on_elicit` chose, or no answer (None) without a callback. */
    function ElicitationRequest(action: string): (r: Option<string>)
      reads this
      ensures r.Some? <==> hasOnElicit
      ensures r.Some? ==> r.value == action
    {
      if hasOnElicit then Some(action) else None
    }
  }

  /** With the bookkeeping consistent, "connected" means exactly "has a session", which is what `call_tool` checks. */
  lemma ConnectedIffCallable(m: ConnectionManager, name: string, tool: string, arguments: Json)
    requires m.Valid()
    ensures m.IsConnected(name) <==> m.CallTool(name, tool, arguments).Ok?
    ensures !m.IsConnected(name) ==> m.CallTool(name, tool, arguments) == Err(NotConnectedMessage(name))
  {
  }
}
