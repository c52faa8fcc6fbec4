/**
 * utils/mcp_manager.py `MCPConnectionManager`: the FastMCP-based manager.
 * Its connection bookkeeping follows the legacy manager, except that a
 * failed connection only forgets its session and tool list and keeps its
 * task entry. It also keeps the list of roots the user can expose.
 */
module Manager {
  import opened Wrappers
  import Text
  import PyDict
  import opened Messages
  import opened McpSession

  type Task = nat
  type Session = nat

  /**
   * The file system as the roots code sees it: `os.path.exists`,
   * `os.path.abspath`, `os.getcwd()` (None when it raises) and `os.sep`.
   */
  datatype Fs = Fs(pathExists: string -> bool, abspath: string -> string, cwd: Option<string>, sep: char)

  /** One entry of `roots_config["roots"]`: its `path` and `name` keys, if present. */
  datatype RootConfig = RootConfig(path: Option<string>, name: Option<string>)

  /** `os.path.basename` */
  function Basename(fs: Fs, p: string): (r: string)
    ensures fs.sep !in r
  {
    Text.AfterLast(p, fs.sep)
  }

  /** `file://` followed by the path with every separator written as `/`. */
  function RootUri(fs: Fs, abs: string): (r: string)
    ensures Text.StartsWith(r, "file://") && |r| == 7 + |abs|
    ensures fs.sep != '/' ==> fs.sep !in r[7..]
  {
    "file://" + Text.ReplaceChar(abs, fs.sep, '/')
  }

  /** The name of a root added without one: the directory's name, or the whole path for a root directory. */
  function DefaultName(fs: Fs, abs: string): (r: string)
    ensures r != "" || abs == ""
  {
    var b := Basename(fs, abs);
    if b != "" then b else abs
  }

  /** The root a path gives: its URI and the given name, or the default one when none is given. */
  function MakeRoot(fs: Fs, path: string, name: Option<string>): (r: Root)
    ensures r.uri == RootUri(fs, fs.abspath(path))
    ensures name.Some? && name.value != "" ==> r.name == name.value
    ensures name.None? || name.value == "" ==> r.name == DefaultName(fs, fs.abspath(path))
  {
    var abs := fs.abspath(path);
    Root(RootUri(fs, abs), if name.Some? && name.value != "" then name.value else DefaultName(fs, abs))
  }

  predicate HasUri(roots: seq<Root>, uri: string)
  {
    exists r :: r in roots && r.uri == uri
  }

  /** No two roots share a URI. */
  predicate UrisDistinct(roots: seq<Root>)
  {
    forall i, j :: 0 <= i < j < |roots| ==> roots[i].uri != roots[j].uri
  }

  /** A configuration entry with a non-empty path that exists (`os.path.exists`: a file passes as well as a directory). */
  predicate Admitted(fs: Fs, c: RootConfig)
  {
    c.path.Some? && c.path.value != "" && fs.pathExists(fs.abspath(c.path.value))
  }

  /** `_add_root_from_config`: append the entry's root unless it is not admitted or its URI is already listed. */
  function AddFromConfig(fs: Fs, roots: seq<Root>, c: RootConfig): (r: seq<Root>)
    ensures UrisDistinct(roots) ==> UrisDistinct(r)
    ensures Admitted(fs, c) && !HasUri(roots, MakeRoot(fs, c.path.value, c.name).uri) ==> r == roots + [MakeRoot(fs, c.path.value, c.name)]
    ensures !Admitted(fs, c) || HasUri(roots, MakeRoot(fs, c.path.value, c.name).uri) ==> r == roots
  {
    if !Admitted(fs, c) then roots
    else
      var root := MakeRoot(fs, c.path.value, c.name);
      if HasUri(roots, root.uri) then roots else roots + [root]
  }

  /** The roots the configuration entries give, in order, before any default. */
  function ConfigRoots(fs: Fs, configs: seq<RootConfig>): seq<Root>
  {
    if |configs| == 0 then []
    else AddFromConfig(fs, ConfigRoots(fs, configs[..|configs| - 1]), configs[|configs| - 1])
  }

  /**
   * The configured roots are exactly the admitted entries, one per URI:
   * each listed root has the URI of an admitted entry, and each admitted
   * entry's URI is listed.
   */
  lemma {:induction false} ConfigRootsSpec(fs: Fs, configs: seq<RootConfig>)
    ensures UrisDistinct(ConfigRoots(fs, configs))
    ensures forall r :: r in ConfigRoots(fs, configs) ==>
      exists c :: c in configs && Admitted(fs, c) && MakeRoot(fs, c.path.value, c.name) == r
    ensures forall c :: c in configs && Admitted(fs, c) ==>
      HasUri(ConfigRoots(fs, configs), MakeRoot(fs, c.path.value, c.name).uri)
  {
    if |configs| > 0 {
      var init := configs[..|configs| - 1];
      var last := configs[|configs| - 1];
      ConfigRootsSpec(fs, init);
      assert configs == init + [last];
      var prev := ConfigRoots(fs, init);
      assert ConfigRoots(fs, configs) == AddFromConfig(fs, prev, last);
      forall c | c in configs && Admitted(fs, c)
        ensures HasUri(ConfigRoots(fs, configs), MakeRoot(fs, c.path.value, c.name).uri)
      {
        if c in init {
          var x :| x in prev && x.uri == MakeRoot(fs, c.path.value, c.name).uri;
          assert x in ConfigRoots(fs, configs);
        } else {
          assert c == last;
          if !HasUri(prev, MakeRoot(fs, c.path.value, c.name).uri) {
            assert ConfigRoots(fs, configs)[|prev|] == MakeRoot(fs, c.path.value, c.name);
          } else {
            var x :| x in prev && x.uri == MakeRoot(fs, c.path.value, c.name).uri;
            assert x in ConfigRoots(fs, configs);
          }
        }
      }
    }
  }

  /** The root listed when the configuration gives none: the working directory. */
  function CwdRoot(fs: Fs, cwd: string): (r: Root)
    ensures r.uri == RootUri(fs, cwd)
    ensures r.name == "當前工作目錄 (" + Basename(fs, cwd) + ")"
  {
    Root(RootUri(fs, cwd), "當前工作目錄 (" + Basename(fs, cwd) + ")")
  }

  /** `_initialize_roots`, as a value: the roots and the roots capability. */
  function InitialRoots(fs: Fs, configs: seq<RootConfig>): (r: (seq<Root>, bool))
  {
    var roots := ConfigRoots(fs, configs);
    if roots != [] then (roots, true)
    else if fs.cwd.None? then ([], false)
    else ([CwdRoot(fs, fs.cwd.value)], true)
  }

  /**
   * Some root is always listed unless the working directory cannot be
   * read, which is the one case that switches the roots capability off.
   */
  lemma InitialRootsSpec(fs: Fs, configs: seq<RootConfig>)
    ensures UrisDistinct(InitialRoots(fs, configs).0)
    ensures InitialRoots(fs, configs).0 == [] <==> !InitialRoots(fs, configs).1
    ensures !InitialRoots(fs, configs).1 <==> fs.cwd.None? && forall c :: c in configs ==> !Admitted(fs, c)
    ensures (exists c :: c in configs && Admitted(fs, c)) ==> InitialRoots(fs, configs).0 == ConfigRoots(fs, configs)
  {
    ConfigRootsSpec(fs, configs);
    var roots := ConfigRoots(fs, configs);
    if exists c :: c in configs && Admitted(fs, c) {
      var c :| c in configs && Admitted(fs, c);
      assert HasUri(roots, MakeRoot(fs, c.path.value, c.name).uri);
    } else {
      FirstIsMember(roots);
    }
  }

  lemma FirstIsMember(roots: seq<Root>)
    ensures roots == [] || roots[0] in roots
  {
  }

  /** `remove_root`'s comprehension: the roots whose URI differs, in order. */
  function WithoutUri(roots: seq<Root>, uri: string): (r: seq<Root>)
    ensures forall x :: x in r <==> x in roots && x.uri != uri
    ensures |r| <= |roots|
    ensures UrisDistinct(roots) ==> UrisDistinct(r)
  {
    if |roots| == 0 then []
    else
      var rest := WithoutUri(roots[..|roots| - 1], uri);
      var last := roots[|roots| - 1];
      assert roots == roots[..|roots| - 1] + [last];
      if last.uri == uri then rest
      else
        assert UrisDistinct(roots) ==> forall x :: x in rest ==> x.uri != last.uri by {
          if UrisDistinct(roots) {
            forall x | x in rest ensures x.uri != last.uri {
              var i :| 0 <= i < |roots| - 1 && roots[i] == x;
            }
          }
        }
        rest + [last]
  }

  /** Removing a URI that is listed takes out exactly one root when URIs are distinct. */
  lemma {:induction false} WithoutUriCount(roots: seq<Root>, uri: string)
    requires UrisDistinct(roots)
    ensures |WithoutUri(roots, uri)| == (if HasUri(roots, uri) then |roots| - 1 else |roots|)
  {
    if |roots| > 0 {
      var init := roots[..|roots| - 1];
      var last := roots[|roots| - 1];
      assert roots == init + [last];
      assert UrisDistinct(init);
      WithoutUriCount(init, uri);
      if last.uri == uri {
        assert last in roots;
        assert !HasUri(init, uri) by {
          forall x | x in init ensures x.uri != uri {
            var i :| 0 <= i < |init| && init[i] == x;
          }
        }
      } else {
        assert HasUri(roots, uri) <==> HasUri(init, uri);
      }
    }
  }

  class ConnectionManager {
    const id: string
    var connectionTasks: map<string, Task>
    var sessions: map<string, Session>
    var tools: Catalog
    var connections: map<string, nat>
    var shutdownSet: bool
    var nextTask: Task
    var availableRoots: seq<Root>
    var rootsCapability: bool

    /** The tool dict has no server twice; sessions and tool lists belong to recorded tasks; root URIs are distinct. */
    ghost predicate Valid()
      reads this
    {
      && PyDict.Valid(tools)
      && sessions.Keys <= connectionTasks.Keys
      && (forall k :: PyDict.Has(tools, k) ==> k in connectionTasks)
      && UrisDistinct(availableRoots)
    }

    /** `__init__`, which ends by `_initialize_roots`. */
    constructor(id: string, fs: Fs, configs: seq<RootConfig>)
      ensures Valid()
      ensures this.id == id
      ensures connectionTasks == map[] && sessions == map[] && tools == [] && connections == map[] && !shutdownSet
      ensures (availableRoots, rootsCapability) == InitialRoots(fs, configs)
    {
      this.id := id;
      connectionTasks := map[];
      sessions := map[];
      tools := [];
      connections := map[];
      shutdownSet := false;
      nextTask := 0;
      availableRoots := [];
      rootsCapability := true;
      new;
      InitializeRoots(fs, configs);
    }

    /** `_add_root_from_config` */
    method AddRootFromConfig(fs: Fs, c: RootConfig)
      requires Valid()
      modifies this
      ensures Valid()
      ensures availableRoots == AddFromConfig(fs, old(availableRoots), c)
      ensures rootsCapability == old(rootsCapability)
      ensures unchanged(this`shutdownSet) && unchanged(this`connectionTasks) && unchanged(this`sessions) && unchanged(this`tools) && unchanged(this`connections)
    {
      if c.path.None? || c.path.value == "" {
        return;
      }
      var abs := fs.abspath(c.path.value);
      if !fs.pathExists(abs) {
        return;
      }
      var uri := RootUri(fs, abs);
      var name := if c.name.Some? && c.name.value != "" then c.name.value else DefaultName(fs, abs);
      var i := 0;
      var found := false;
      while i < |availableRoots|
        invariant 0 <= i <= |availableRoots|
        invariant found <==> exists j :: 0 <= j < i && availableRoots[j].uri == uri
      {
        if availableRoots[i].uri == uri {
          found := true;
        }
        i := i + 1;
      }
      if !found {
        availableRoots := availableRoots + [Root(uri, name)];
      }
    }

    /** `_initialize_roots`: the configured roots, else the working directory; no readable one turns the capability off. */
    method InitializeRoots(fs: Fs, configs: seq<RootConfig>)
      requires Valid() && availableRoots == [] && rootsCapability
      modifies this
      ensures Valid()
      ensures (availableRoots, rootsCapability) == InitialRoots(fs, configs)
      ensures unchanged(this`shutdownSet) && unchanged(this`connectionTasks) && unchanged(this`sessions) && unchanged(this`tools) && unchanged(this`connections)
    {
      var i := 0;
      while i < |configs|
        invariant 0 <= i <= |configs|
        invariant Valid() && rootsCapability
        invariant availableRoots == ConfigRoots(fs, configs[..i])
        invariant unchanged(this`shutdownSet) && unchanged(this`connectionTasks) && unchanged(this`sessions) && unchanged(this`tools) && unchanged(this`connections)
      {
        AddRootFromConfig(fs, configs[i]);
        assert configs[..i + 1][..i] == configs[..i];
        i := i + 1;
      }
      assert configs[..i] == configs;
      if availableRoots == [] {
        if fs.cwd.None? {
          rootsCapability := false;
        } else {
          availableRoots := [CwdRoot(fs, fs.cwd.value)];
        }
      }
    }

    /**
     * `add_root`. A new root is appended and then `asyncio.create_task`
     * schedules the change notification; outside a running event loop that
     * call raises, so the root stays appended while the answer is False.
     */
    method AddRoot(fs: Fs, path: string, name: Option<string>, loopRunning: bool) returns (ok: bool)
      requires Valid()
      modifies this
      ensures Valid()
      ensures var root := MakeRoot(fs, path, name);
        && (fs.pathExists(fs.abspath(path)) && !HasUri(old(availableRoots), root.uri) ==> availableRoots == old(availableRoots) + [root])
        && (!fs.pathExists(fs.abspath(path)) || HasUri(old(availableRoots), root.uri) ==> availableRoots == old(availableRoots))
        && (ok <==> fs.pathExists(fs.abspath(path)) && !HasUri(old(availableRoots), root.uri) && loopRunning)
      ensures rootsCapability == old(rootsCapability)
      ensures unchanged(this`shutdownSet) && unchanged(this`connectionTasks) && unchanged(this`sessions) && unchanged(this`tools) && unchanged(this`connections)
    {
      var abs := fs.abspath(path);
      if !fs.pathExists(abs) {
        return false;
      }
      var root := MakeRoot(fs, path, name);
      var i := 0;
      while i < |availableRoots|
        invariant 0 <= i <= |availableRoots|
        invariant forall j :: 0 <= j < i ==> availableRoots[j].uri != root.uri
      {
        if availableRoots[i].uri == root.uri {
          return false;
        }
        i := i + 1;
      }
      availableRoots := availableRoots + [root];
      ok := loopRunning;
    }

    /** `remove_root`: drop the root with that URI; True only when one was dropped and the notification could be scheduled. */
    method RemoveRoot(uri: string, loopRunning: bool) returns (ok: bool)
      requires Valid()
      modifies this
      ensures Valid()
      ensures availableRoots == WithoutUri(old(availableRoots), uri)
      ensures HasUri(old(availableRoots), uri) ==> |availableRoots| == |old(availableRoots)| - 1
      ensures ok <==> HasUri(old(availableRoots), uri) && loopRunning
      ensures rootsCapability == old(rootsCapability)
      ensures unchanged(this`shutdownSet) && unchanged(this`connectionTasks) && unchanged(this`sessions) && unchanged(this`tools) && unchanged(this`connections)
    {
      var originalCount := |availableRoots|;
      WithoutUriCount(availableRoots, uri);
      availableRoots := WithoutUri(availableRoots, uri);
      ok := |availableRoots| < originalCount && loopRunning;
    }

    /** `list_roots`: a copy of the roots, in order. */
    function ListRoots(): (r: seq<Root>)
      reads this
      requires Valid()
      ensures r == availableRoots
      ensures UrisDistinct(r)
      ensures forall x :: x in r <==> x in availableRoots
    {
      availableRoots
    }

    /** The roots handed to each FastMCP client: the session folder only, whatever `available_roots` holds. */
    function ClientRoots(): (r: seq<string>)
      reads this
      ensures r == ["file://" + id]
    {
      ["file://" + id]
    }

    /** `remove_connection`, as in the legacy manager. */
    method RemoveConnection(name: string)
      requires Valid()
      modifies this
      ensures Valid()
      ensures name in old(connectionTasks) ==>
        && connectionTasks == old(connectionTasks) - {name}
        && sessions == old(sessions) - {name}
        && tools == PyDict.Del(old(tools), name)
        && connections == old(connections) - {name}
      ensures name !in old(connectionTasks) ==>
        connectionTasks == old(connectionTasks) && sessions == old(sessions) && tools == old(tools) && connections == old(connections)
      ensures shutdownSet == old(shutdownSet) && nextTask == old(nextTask)
      ensures availableRoots == old(availableRoots) && rootsCapability == old(rootsCapability)
    {
      if name in connectionTasks {
        connectionTasks := connectionTasks - {name};
        if name in sessions {
          sessions := sessions - {name};
        }
        PyDict.DelSpec(tools, name);
        if PyDict.Has(tools, name) {
          tools := PyDict.Del(tools, name);
        }
        if name in connections {
          connections := connections - {name};
        }
      }
    }

    /** `add_connection` */
    method AddConnection(name: string)
      requires Valid()
      modifies this
      ensures Valid()
      ensures connectionTasks == old(connectionTasks)[name := old(nextTask)]
      ensures name in old(connectionTasks) ==>
        sessions == old(sessions) - {name} && tools == PyDict.Del(old(tools), name) && connections == old(connections) - {name}
      ensures name !in old(connectionTasks) ==>
        sessions == old(sessions) && tools == old(tools) && connections == old(connections)
      ensures nextTask == old(nextTask) + 1 && shutdownSet == old(shutdownSet)
      ensures availableRoots == old(availableRoots) && rootsCapability == old(rootsCapability)
      ensures !IsConnected(name)
    {
      if name in connectionTasks {
        RemoveConnection(name);
      }
      connectionTasks := connectionTasks[name := nextTask];
      nextTask := nextTask + 1;
    }

    /**
     * The task of `name` connected, through the FastMCP client or through
     * the fallback session: the session and its tools are stored and the
     * tools go to `on_connect`.
     */
    method OnConnected(name: string, session: Session, listing: Listing) returns (published: seq<ToolInfo>)
      requires Valid() && name in connectionTasks
      modifies this
      ensures Valid()
      ensures sessions == old(sessions)[name := session]
      ensures published == ToolsOf(listing) && tools == PyDict.Put(old(tools), name, published)
      ensures connectionTasks == old(connectionTasks) && connections == old(connections)
      ensures availableRoots == old(availableRoots) && rootsCapability == old(rootsCapability)
    {
      sessions := sessions[name := session];
      published := ToolsOf(listing);
      PyDict.PutSpec(tools, name, published);
      tools := PyDict.Put(tools, name, published);
    }

    /**
     * The task of `name` failed with both connection methods: its session
     * and tool list are dropped, but its task entry stays, so the server
     * is no longer connected and a later `add_connection` replaces it.
     */
    method OnFailed(name: string)
      requires Valid()
      modifies this
      ensures Valid()
      ensures sessions == old(sessions) - {name} && tools == PyDict.Del(old(tools), name)
      ensures connectionTasks == old(connectionTasks) && connections == old(connections)
      ensures availableRoots == old(availableRoots) && rootsCapability == old(rootsCapability)
      ensures !IsConnected(name)
    {
      sessions := sessions - {name};
      PyDict.DelSpec(tools, name);
      tools := PyDict.Del(tools, name);
    }

    /** `update_tools` */
    method UpdateTools(listing: string -> Listing)
      requires Valid()
      modifies this
      ensures Valid()
      ensures tools == UpdatedTools(old(tools), sessions.Keys, listing)
      ensures sessions == old(sessions) && connectionTasks == old(connectionTasks) && connections == old(connections)
      ensures availableRoots == old(availableRoots) && rootsCapability == old(rootsCapability)
    {
      ghost var before := tools;
      var t := tools;
      var i := 0;
      while i < |t|
        invariant 0 <= i <= |t| == |before|
        invariant forall j :: 0 <= j < |t| ==> t[j].0 == before[j].0
        invariant forall j :: 0 <= j < i ==> t[j] == UpdatedTools(before, sessions.Keys, listing)[j]
        invariant forall j :: i <= j < |t| ==> t[j] == before[j]
        invariant unchanged(this)
      {
        var name := t[i].0;
        if name in sessions {
          var refreshed := ToolsOf(listing(name));
          PyDict.PutAt(t, i, refreshed);
          t := PyDict.Put(t, name, refreshed);
        }
        i := i + 1;
      }
      assert t == UpdatedTools(before, sessions.Keys, listing);
      UpdatedToolsSpec(before, sessions.Keys, listing);
      tools := t;
    }

    /** `call_tool` */
    function CallTool(server: string, tool: string, arguments: Json): (r: Result<(Session, string, Json), string>)
      reads this
      ensures r.Err? <==> server !in sessions
      ensures r.Err? ==> r.error == NotConnectedMessage(server)
      ensures r.Ok? ==> r.value == (sessions[server], tool, arguments)
    {
      if server !in sessions then Err(NotConnectedMessage(server))
      else Ok((sessions[server], tool, arguments))
    }

    /** `shutdown` */
    method Shutdown()
      requires Valid()
      modifies this
      ensures Valid() && shutdownSet
      ensures connectionTasks == map[] && sessions == map[] && tools == [] && connections == map[]
      ensures availableRoots == old(availableRoots) && rootsCapability == old(rootsCapability)
    {
      shutdownSet := true;
      var pending := connectionTasks.Keys;
      while pending != {}
        invariant Valid() && shutdownSet
        invariant availableRoots == old(availableRoots) && rootsCapability == old(rootsCapability)
        decreases pending
      {
        var name :| name in pending;
        RemoveConnection(name);
        pending := pending - {name};
      }
      sessions := map[];
      tools := [];
      connections := map[];
      connectionTasks := map[];
    }

    /** `is_connected` */
    predicate IsConnected(name: string)
      reads this
    {
      name in sessions && name in connectionTasks
    }
  }

  /** With the bookkeeping consistent, a server is connected exactly when `call_tool` accepts it. */
  lemma ConnectedIffCallable(m: ConnectionManager, name: string, tool: string, arguments: Json)
    requires m.Valid()
    ensures m.IsConnected(name) <==> m.CallTool(name, tool, arguments).Ok?
    ensures !m.IsConnected(name) ==> m.CallTool(name, tool, arguments) == Err(NotConnectedMessage(name))
  {
  }
}
