/**
 * The table of tool servers a chat session may connect to
 * (utils/mcp_servers_config.py), and the copy of it the chat app adjusts
 * once at chat start (chainlit_app/app.py).
 */
module ServersConfig {
  import opened Wrappers
  import PyDict

  /** One server's entry; `env` values are `None` where the environment variable is unset. */
  datatype ServerConfig = ServerConfig(
    name: string,
    transport: string,
    command: string,
    args: seq<string>,
    url: Option<string>,
    env: Option<PyDict.Dict<Option<string>>>,
    enabled: bool,
    description: string)

  const ServerNames: seq<string> := ["user_custom_prompt", "buildin", "sequentialthinking", "playwright", "tavily"]

  const BrowserDescription := "一個使用Playwright提供瀏覽器自動化功能的模型上下文協定 (MCP) 伺服器。該伺服器使 LLM 能夠透過結構化的可訪問性快照與網頁進行交互，而無需使用螢幕截圖或視覺調整的模型。"

  /** The entries of `get_mcp_servers_config(file_folder)`, in order; `tavilyKey` is `os.getenv('TAVILY_API_KEY')`. */
  function Entries(fileFolder: string, tavilyKey: Option<string>): seq<(string, ServerConfig)>
  {
    [ ("user_custom_prompt", ServerConfig("我自訂的提示詞", "stdio", "./.venv/Scripts/python.exe",
        ["./mcp_servers/user_custom_prompt.py"], None, None, true, "")),
      ("buildin", ServerConfig("內建工具組", "http", "./.venv/Scripts/python.exe",
        ["./mcp_servers/buildin_http.py"], Some("http://localhost:8000/mcp-buildin/mcp/"),
        Some([("ROOT_FOLDER", Some(fileFolder))]), true, "")),
      ("sequentialthinking", ServerConfig("Sequential Thinking", "stdio", "npx",
        ["-y", "@modelcontextprotocol/server-sequential-thinking"], None, None, false,
        "將複雜問題分解為可管理的步驟，隨著理解的加深，修改並完善想法。")),
      ("playwright", ServerConfig("瀏覽器自動化", "stdio", "npx",
        ["-y", "@playwright/mcp@latest", "--isolated", "--headless", "--viewport-size=1920, 1080",
         "--output-dir=" + fileFolder], None, None, true, BrowserDescription)),
      ("tavily", ServerConfig("網路搜尋", "stdio", "npx",
        ["-y", "tavily-mcp@0.1.3"], None, Some([("TAVILY_API_KEY", tavilyKey)]), true, BrowserDescription)) ]
  }

  /** `get_mcp_servers_config`: a new dict on every call, built from the folder alone (and the API key). */
  function McpServersConfig(fileFolder: string, tavilyKey: Option<string>): (r: PyDict.Dict<ServerConfig>)
    ensures PyDict.Valid(r) && PyDict.Keys(r) == ServerNames
    ensures forall i :: 0 <= i < |r| ==> (r[i].1.transport == "http" <==> r[i].0 == "buildin")
    ensures forall i :: 0 <= i < |r| ==> (r[i].1.url.Some? <==> r[i].0 == "buildin")
    ensures forall i :: 0 <= i < |r| ==> (!r[i].1.enabled <==> r[i].0 == "sequentialthinking")
  {
    var r := Entries(fileFolder, tavilyKey);
    assert PyDict.Keys(r) == ServerNames;
    r
  }

  /** The table points buildin's `ROOT_FOLDER` and playwright's output directory at the folder. */
  lemma ConfigUsesFolder(fileFolder: string, tavilyKey: Option<string>)
    ensures var r := McpServersConfig(fileFolder, tavilyKey);
      && PyDict.Has(r, "buildin") && PyDict.Has(r, "playwright")
      && PyDict.Get(r, "buildin").env == Some([("ROOT_FOLDER", Some(fileFolder))])
      && var a := PyDict.Get(r, "playwright").args; |a| > 0 && a[|a| - 1] == "--output-dir=" + fileFolder
  {
    var r := McpServersConfig(fileFolder, tavilyKey);
    PyDict.IndexOfUnique(r, 1);
    PyDict.IndexOfUnique(r, 3);
  }

  /** The servers switched on when a chat starts: those whose entry is enabled. */
  function InitiallyEnabled(config: PyDict.Dict<ServerConfig>): (r: seq<string>)
    ensures |r| <= |config|
    ensures forall n :: n in r ==> exists i :: 0 <= i < |config| && config[i].0 == n && config[i].1.enabled
    ensures forall i :: 0 <= i < |config| && config[i].1.enabled ==> config[i].0 in r
  {
    if config == [] then []
    else
      var rest := InitiallyEnabled(config[1..]);
      assert forall n :: n in rest ==> exists i :: 0 <= i < |config| && config[i].0 == n && config[i].1.enabled by {
        forall n | n in rest ensures exists i :: 0 <= i < |config| && config[i].0 == n && config[i].1.enabled {
          var j :| 0 <= j < |config[1..]| && config[1..][j].0 == n && config[1..][j].1.enabled;
          assert config[j + 1] == config[1..][j];
        }
      }
      assert forall i :: 1 <= i < |config| && config[i].1.enabled ==> config[i].0 in rest by {
        forall i | 1 <= i < |config| && config[i].1.enabled ensures config[i].0 in rest {
          assert config[1..][i - 1] == config[i];
        }
      }
      if config[0].1.enabled then [config[0].0] + rest else rest
  }

  /** A new session starts with every server but sequential thinking. */
  lemma DefaultServers(fileFolder: string, tavilyKey: Option<string>)
    ensures var on := InitiallyEnabled(McpServersConfig(fileFolder, tavilyKey));
      forall n :: n in on <==> n in ServerNames && n != "sequentialthinking"
  {
    var r := McpServersConfig(fileFolder, tavilyKey);
    var on := InitiallyEnabled(r);
    forall n | n in ServerNames && n != "sequentialthinking" ensures n in on {
      var i :| 0 <= i < |ServerNames| && ServerNames[i] == n;
      assert r[i].0 == n;
    }
  }

  /**
   * The copy `start` connects with (chainlit_app/app.py:208-217): playwright
   * gets a second `--output-dir`, buildin's `ROOT_FOLDER` is set to the
   * folder; the table has no `filesystem` entry to extend.
   */
  function StartConfig(fileFolder: string, tavilyKey: Option<string>): (r: PyDict.Dict<ServerConfig>)
  {
    var c := McpServersConfig(fileFolder, tavilyKey);
    ConfigUsesFolder(fileFolder, tavilyKey);
    var p := PyDict.Get(c, "playwright");
    var c1 := PyDict.Put(c, "playwright", p.(args := p.args + ["--output-dir=" + fileFolder]));
    PyDict.PutSpec(c, "playwright", p.(args := p.args + ["--output-dir=" + fileFolder]));
    var b := PyDict.Get(c1, "buildin");
    var env := if b.env.Some? && b.env.value != [] then b.env.value else [];
    PyDict.Put(c1, "buildin", b.(env := Some(PyDict.Put(env, "ROOT_FOLDER", Some(fileFolder)))))
  }

  /**
   * Every call builds a new table, so the adjustment made at chat start is
   * not seen by a later reconnection from the settings handler: the start
   * copy passes playwright the folder twice, the re-read table once, and the
   * two tables agree on everything else.
   */
  lemma StartAdjustmentNotShared(fileFolder: string, tavilyKey: Option<string>)
    ensures var s := StartConfig(fileFolder, tavilyKey);
      var c := McpServersConfig(fileFolder, tavilyKey);
      && PyDict.Keys(s) == PyDict.Keys(c)
      && PyDict.Get(s, "playwright").args == PyDict.Get(c, "playwright").args + ["--output-dir=" + fileFolder]
      && (forall i :: 0 <= i < |s| && s[i].0 != "playwright" ==> s[i] == c[i])
  {
    var c := McpServersConfig(fileFolder, tavilyKey);
    StartConfigIs(fileFolder, tavilyKey);
    assert c[3].0 == "playwright" && PyDict.Keys(c)[3] == ServerNames[3];
    var p := c[3].1;
    PyDict.ReplaceAt(c, 3, p.(args := p.args + ["--output-dir=" + fileFolder]));
  }

  /** The start copy is the table with playwright's entry replaced in place, one more argument at the end. */
  lemma StartConfigIs(fileFolder: string, tavilyKey: Option<string>)
    ensures var c := McpServersConfig(fileFolder, tavilyKey);
      var p := c[3].1;
      StartConfig(fileFolder, tavilyKey) == c[3 := ("playwright", p.(args := p.args + ["--output-dir=" + fileFolder]))]
  {
    var c := McpServersConfig(fileFolder, tavilyKey);
    ConfigUsesFolder(fileFolder, tavilyKey);
    var p := PyDict.Get(c, "playwright");
    assert PyDict.IndexOf(c, "playwright") == 3 by { PyDict.IndexOfUnique(c, 3); }
    var c1 := PyDict.Put(c, "playwright", p.(args := p.args + ["--output-dir=" + fileFolder]));
    PyDict.PutAt(c, 3, p.(args := p.args + ["--output-dir=" + fileFolder]));
    assert PyDict.IndexOf(c1, "buildin") == 1 by { PyDict.IndexOfUnique(c1, 1); }
    var b := PyDict.Get(c1, "buildin");
    assert b == c[1].1;
    var env := [("ROOT_FOLDER", Some(fileFolder))];
    assert PyDict.Put(env, "ROOT_FOLDER", Some(fileFolder)) == env by { PyDict.PutAt(env, 0, Some(fileFolder)); }
    PyDict.PutAt(c1, 1, b);
    assert c1[1 := ("buildin", b)] == c1;
  }
}
