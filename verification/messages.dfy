/**
 * The values both chat front ends exchange with the model and the tool
 * servers: the conversation history, the tool catalog of a connection
 * manager, tool results and the request settings. Also the shared pieces of
 * the tool round trip: building the `tools` request parameter, finding the
 * server that offers a tool, calling it, and turning the result into the
 * text of a tool message.
 */
module Messages {
  import opened Wrappers
  import opened Text
  import PyDict

  /** A JSON value as `json.loads` produces it (parsing itself is a parameter of the model). */
  datatype Json =
    | JNull
    | JBool(b: bool)
    | JInt(i: int)
    | JStr(s: string)
    | JList(items: seq<Json>)
    | JObject(fields: seq<(string, Json)>)

  /** A tool as a connection manager records it: `{"name", "description", "input_schema"}`. */
  datatype ToolInfo = ToolInfo(name: string, description: Option<string>, inputSchema: Json)

  /** One element of the request's `tools`: `{"type": "function", "function": {name, description, parameters}}`. */
  datatype FunctionTool = FunctionTool(name: string, description: Option<string>, parameters: Json)

  /** An item of a `CallToolResult`'s content: text, or any other kind (image, resource, ...). */
  datatype ContentItem = TextContent(text: string) | OtherContent(kind: string)

  /** What `execute_tool` gives back: the server's result, or an `{"error": ...}` dict. */
  datatype ToolValue = CallToolResult(content: seq<ContentItem>) | ErrorDict(error: string)

  /** A part of a multi-part message; an image part stands for the base64 data URL of that file. */
  datatype Part = TextPart(text: string) | ImagePart(file: string)

  /** One entry of an assistant message's `tool_calls`. */
  datatype CallRecord = CallRecord(id: string, name: string, arguments: string)

  /** A history entry, by role and content shape. */
  datatype Message =
    | SystemText(content: string)
    | UserParts(parts: seq<Part>)
    | AssistantText(content: string)
    | AssistantCalls(calls: seq<CallRecord>)
    | AssistantParts(parts: seq<Part>)
    | ToolResult(toolCallId: string, content: string)

  /** A manager's `tools`: server name to its tool list, in insertion order. */
  type Catalog = PyDict.Dict<seq<ToolInfo>>

  /** A value of a request-settings dict. */
  datatype Setting =
    | SText(text: string)
    | SInt(n: int)
    | SDecimal(literal: string)
    | SBool(flag: bool)
    | SFunctionTools(tools: seq<FunctionTool>)

  type Settings = PyDict.Dict<Setting>

  /** `get_model_setting()` (and ui/chat.py's `MODEL_SETTING`): a fresh dict each call. */
  function ModelSetting(): (s: Settings)
    ensures PyDict.Valid(s) && PyDict.Keys(s) == ["model", "temperature", "stream"]
    ensures PyDict.Has(s, "model") && PyDict.Has(s, "stream")
    ensures PyDict.Get(s, "model") == SText("gpt-4o-mini") && PyDict.Get(s, "stream") == SBool(true)
  {
    var s := [("model", SText("gpt-4o-mini")), ("temperature", SInt(1)), ("stream", SBool(true))];
    PyDict.IndexOfUnique(s, 0);
    PyDict.IndexOfUnique(s, 2);
    s
  }

  /** `format_tools_for_openai`: one function entry per tool, in order, its parameters the tool's input schema. */
  function FormatTools(tools: seq<ToolInfo>): (r: seq<FunctionTool>)
    ensures |r| == |tools|
    ensures forall i :: 0 <= i < |tools| ==>
      r[i].name == tools[i].name && r[i].description == tools[i].description && r[i].parameters == tools[i].inputSchema
  {
    seq(|tools|, i requires 0 <= i < |tools| => FunctionTool(tools[i].name, tools[i].description, tools[i].inputSchema))
  }

  /** All tools of all servers, server by server in catalog order (`all_tools.extend(...)`). */
  function AllTools(catalog: Catalog): (r: seq<ToolInfo>)
    ensures forall t :: t in r <==> exists i :: 0 <= i < |catalog| && t in catalog[i].1
    decreases |catalog|
  {
    if |catalog| == 0 then []
    else
      var rest := AllTools(catalog[1..]);
      assert forall i :: 1 <= i < |catalog| ==> catalog[i] == catalog[1..][i - 1];
      catalog[0].1 + rest
  }

  /**
   * The request settings of a turn: the base settings, plus `tools` and
   * `tool_choice: "auto"` exactly when the catalog holds at least one tool.
   */
  function ChatParams(base: Settings, catalog: Catalog): (r: Settings)
  {
    var all := AllTools(catalog);
    if |all| > 0 then PyDict.Put(PyDict.Put(base, "tools", SFunctionTools(FormatTools(all))), "tool_choice", SText("auto"))
    else base
  }

  /** The catalog lists no tool at all exactly when every server's list is empty. */
  lemma {:induction false} AllToolsEmpty(catalog: Catalog)
    ensures |AllTools(catalog)| == 0 <==> forall i :: 0 <= i < |catalog| ==> |catalog[i].1| == 0
    decreases |catalog|
  {
    if |catalog| > 0 {
      AllToolsEmpty(catalog[1..]);
      assert forall i :: 1 <= i < |catalog| ==> catalog[i] == catalog[1..][i - 1];
    }
  }

  /** Tools are attached exactly when some server offers a tool, with one schema entry per tool. */
  lemma ChatParamsTools(base: Settings, catalog: Catalog)
    requires PyDict.Valid(base) && !PyDict.Has(base, "tools") && !PyDict.Has(base, "tool_choice")
    ensures var r := ChatParams(base, catalog);
      && PyDict.Valid(r)
      && (PyDict.Has(r, "tools") <==> exists i :: 0 <= i < |catalog| && |catalog[i].1| > 0)
      && (PyDict.Has(r, "tools") ==> PyDict.Get(r, "tools") == SFunctionTools(FormatTools(AllTools(catalog)))
                                     && PyDict.Has(r, "tool_choice") && PyDict.Get(r, "tool_choice") == SText("auto"))
  {
    var all := AllTools(catalog);
    AllToolsEmpty(catalog);
    if |all| > 0 {
      var v := SFunctionTools(FormatTools(all));
      var b1 := PyDict.Put(base, "tools", v);
      PyDict.PutSpec(base, "tools", v);
      PyDict.PutSpec(b1, "tool_choice", SText("auto"));
      assert PyDict.Has(b1, "tools") && PyDict.Get(b1, "tools") == v;
    }
  }

  /** The tool list has a tool with that name. */
  predicate Offers(tools: seq<ToolInfo>, name: string)
  {
    exists t :: t in tools && t.name == name
  }

  /** The first server, in catalog order, whose tool list has a tool named `name`. */
  function ResolveServer(catalog: Catalog, name: string): (r: Option<nat>)
    ensures r.None? <==> forall i :: 0 <= i < |catalog| ==> !Offers(catalog[i].1, name)
    ensures r.Some? ==> r.value < |catalog| && Offers(catalog[r.value].1, name)
                        && forall j :: 0 <= j < r.value ==> !Offers(catalog[j].1, name)
    decreases |catalog|
  {
    if |catalog| == 0 then None
    else if Offers(catalog[0].1, name) then Some(0)
    else
      match ResolveServer(catalog[1..], name)
      case None =>
        assert forall i :: 1 <= i < |catalog| ==> catalog[i] == catalog[1..][i - 1];
        None
      case Some(k) =>
        assert forall j :: 1 <= j < k + 1 ==> catalog[j] == catalog[1..][j - 1];
        Some(k + 1)
  }

  /** The reply of a server's `call_tool`, when the call is made. */
  datatype Reply = Returned(content: seq<ContentItem>) | Raised(message: string) | Cancelled

  /** `execute_tool` either returns a value or lets a cancellation through. */
  datatype ExecOutcome = Value(value: ToolValue) | CancelledError

  function NotFoundMessage(name: string): string
  {
    "Tool '" + name + "' not found in any connected MCP server"
  }

  /** The message of the exception `call_tool` raises for a server without a session. */
  function NotConnectedMessage(server: string): string
  {
    "MCP server " + server + " 未連線"
  }

  function CallErrorMessage(name: string, detail: string): string
  {
    "Error calling tool '" + name + "': " + detail
  }

  /**
   * `execute_tool`: pick the first server offering the tool (a server whose
   * name is empty counts as none, as `if not mcp_name` reads it); call it
   * through the manager, which raises for a server without a session; any
   * exception becomes an error dict, a cancellation passes through.
   */
  function ExecuteTool(catalog: Catalog, sessions: set<string>, name: string, reply: Reply): (r: ExecOutcome)
    ensures r.CancelledError? ==> reply.Cancelled?
    ensures ResolveServer(catalog, name).None? ==> r == Value(ErrorDict(NotFoundMessage(name)))
    ensures ResolveServer(catalog, name).Some? && catalog[ResolveServer(catalog, name).value].0 != "" ==>
      var server := catalog[ResolveServer(catalog, name).value].0;
      r == if server !in sessions then Value(ErrorDict(CallErrorMessage(name, NotConnectedMessage(server))))
           else match reply
                case Returned(content) => Value(CallToolResult(content))
                case Raised(msg) => Value(ErrorDict(CallErrorMessage(name, msg)))
                case Cancelled => CancelledError
  {
    match ResolveServer(catalog, name)
    case None => Value(ErrorDict(NotFoundMessage(name)))
    case Some(i) =>
      var server := catalog[i].0;
      if server == "" then Value(ErrorDict(NotFoundMessage(name)))
      else if server !in sessions then Value(ErrorDict(CallErrorMessage(name, NotConnectedMessage(server))))
      else match reply
        case Returned(content) => Value(CallToolResult(content))
        case Raised(msg) => Value(ErrorDict(CallErrorMessage(name, msg)))
        case Cancelled => CancelledError
  }

  /** The texts of the text items, in order. */
  function TextsOf(items: seq<ContentItem>): (r: seq<string>)
    ensures |r| <= |items|
    ensures |r| == 0 <==> forall i :: 0 <= i < |items| ==> !items[i].TextContent?
    ensures forall i :: 0 <= i < |items| && items[i].TextContent? ==> items[i].text in r
    ensures |items| == 1 ==> r == if items[0].TextContent? then [items[0].text] else []
    decreases |items|
  {
    if |items| == 0 then []
    else
      var rest := TextsOf(items[1..]);
      assert forall i :: 1 <= i < |items| ==> items[i] == items[1..][i - 1];
      if items[0].TextContent? then [items[0].text] + rest else rest
  }

  /** `str({"error": e})` */
  function ErrorDictText(e: string): string
  {
    "{'error': " + Repr(e) + "}"
  }

  /**
   * `format_calltoolresult_content`: the text items joined by newlines; when
   * there is none, `str(result)` (`show` stands for a result's own `str`).
   */
  function FormatResult(v: ToolValue, show: seq<ContentItem> -> string): (r: string)
  {
    match v
    case CallToolResult(items) =>
      var texts := TextsOf(items);
      if |texts| > 0 then Join(texts, "\n") else show(items)
    case ErrorDict(e) => ErrorDictText(e)
  }

  /** An error dict's text names its message so that it reads back unchanged. */
  lemma ErrorDictTextReadsBack(e: string)
    ensures var t := ErrorDictText(e);
      StartsWith(t, "{'error': ") && Unrepr(t[10..|t| - 1]) == Some(e)
  {
    var t := ErrorDictText(e);
    assert t[10..|t| - 1] == Repr(e);
    ReprRoundTrip(e);
  }

  /** A result made of text items only is exactly their newline join; any text item hides the others. */
  lemma {:induction false} FormatResultOfTexts(texts: seq<string>, show: seq<ContentItem> -> string)
    requires |texts| > 0
    ensures FormatResult(CallToolResult(seq(|texts|, i requires 0 <= i < |texts| => TextContent(texts[i]))), show) == Join(texts, "\n")
  {
    TextsOfAllText(texts);
  }

  lemma {:induction false} TextsOfAllText(texts: seq<string>)
    ensures TextsOf(seq(|texts|, i requires 0 <= i < |texts| => TextContent(texts[i]))) == texts
    decreases |texts|
  {
    var items := seq(|texts|, i requires 0 <= i < |texts| => TextContent(texts[i]));
    if |texts| > 0 {
      var tail := seq(|texts| - 1, i requires 0 <= i < |texts| - 1 => TextContent(texts[1..][i]));
      assert items[1..] == tail;
      TextsOfAllText(texts[1..]);
      assert [texts[0]] + texts[1..] == texts;
    }
  }

  /** The texts of two runs of items are those of the first run followed by those of the second. */
  lemma {:induction false} TextsOfAppend(a: seq<ContentItem>, b: seq<ContentItem>)
    ensures TextsOf(a + b) == TextsOf(a) + TextsOf(b)
    decreases |a|
  {
    if |a| == 0 {
      assert a + b == b;
    } else {
      var ab := a + b;
      var h := TextsOf([a[0]]);
      assert TextsOf(ab) == h + TextsOf(a[1..] + b) by {
        assert ab[0] == a[0] && ab[1..] == a[1..] + b;
        TextsOfCons(ab);
      }
      assert TextsOf(a[1..] + b) == TextsOf(a[1..]) + TextsOf(b) by {
        TextsOfAppend(a[1..], b);
      }
      assert TextsOf(a) == h + TextsOf(a[1..]) by {
        TextsOfCons(a);
      }
      var t1, t2 := TextsOf(a[1..]), TextsOf(b);
      assert h + (t1 + t2) == (h + t1) + t2;
    }
  }

  lemma TextsOfCons(items: seq<ContentItem>)
    requires |items| > 0
    ensures TextsOf(items) == TextsOf([items[0]]) + TextsOf(items[1..])
  {
  }

  /** A result mixing kinds of items: the others are skipped and the texts keep their order around them. */
  lemma FormatResultSkipsOthers(a: seq<ContentItem>, kind: string, b: seq<ContentItem>, show: seq<ContentItem> -> string)
    requires TextsOf(a) + TextsOf(b) != []
    ensures FormatResult(CallToolResult(a + [OtherContent(kind)] + b), show) == Join(TextsOf(a) + TextsOf(b), "\n")
  {
    var items := a + [OtherContent(kind)] + b;
    TextsOfAppend(a, [OtherContent(kind)]);
    TextsOfAppend(a + [OtherContent(kind)], b);
    assert TextsOf([OtherContent(kind)]) == [];
    assert TextsOf(a + [OtherContent(kind)]) == TextsOf(a);
    assert TextsOf(items) == TextsOf(a) + TextsOf(b);
  }
}
