/**
 * `register_mcp_tool`, the same code in mcp_servers/user_custom_prompt.py
 * and mcp_servers/buildin.py: a prompt becomes a tool of the server that
 * takes no arguments and returns a fixed text. The name is checked, the
 * text is written as a Python literal with `repr`, and the generated
 * function is executed into a namespace whose `mcp` decorator registers it
 * with the server.
 */
module PromptTools {
  import opened Wrappers
  import opened Text

  const InvalidNameMessage := "函數名稱不合法，請使用英文、數字、底線組合，且不得以數字開頭"

  predicate IsIdentStart(c: char)
  {
    ('a' <= c <= 'z') || ('A' <= c <= 'Z') || c == '_'
  }

  predicate IsIdentChar(c: char)
  {
    IsIdentStart(c) || IsDigit(c)
  }

  /** The intended rule: an ASCII letter or underscore, then letters, digits and underscores, and nothing else. */
  predicate IsIdentifier(s: string)
  {
    |s| > 0 && IsIdentStart(s[0]) && forall i :: 1 <= i < |s| ==> IsIdentChar(s[i])
  }

  /**
   * The check as written, `re.match(r'^[a-zA-Z_][a-zA-Z0-9_]*$', s)`:
   * without MULTILINE, `$` also matches just before a final newline, so an
   * identifier followed by one "\n" passes too.
   */
  predicate ValidatorAsWritten(s: string)
  {
    IsIdentifier(s) || (|s| > 1 && s[|s| - 1] == '\n' && IsIdentifier(s[..|s| - 1]))
  }

  /** A name with a trailing newline gets past the check. */
  lemma TrailingNewlinePasses()
    ensures ValidatorAsWritten("prompt_1\n") && !IsIdentifier("prompt_1\n")
  {
    var s := "prompt_1\n";
    assert s[..|s| - 1] == "prompt_1";
  }

  /** The intended rule accepts exactly the names the check accepts that hold no newline. */
  lemma IdentifierIsValidatorWithoutNewline(s: string)
    ensures IsIdentifier(s) <==> ValidatorAsWritten(s) && '\n' !in s
  {
    if ValidatorAsWritten(s) && !IsIdentifier(s) {
      assert s[|s| - 1] == '\n';
    }
  }

  /** Every accepted name is a non-empty ASCII word that does not start with a digit: Chinese names are refused. */
  lemma IdentifierIsAscii(s: string)
    requires IsIdentifier(s)
    ensures forall i :: 0 <= i < |s| ==> s[i] < '\U{80}'
    ensures !IsDigit(s[0])
  {
  }

  /** Python's reserved words, which cannot name a `def`. */
  const Keywords: set<string> := {
    "False", "None", "True", "and", "as", "assert", "async", "await", "break", "class", "continue",
    "def", "del", "elif", "else", "except", "finally", "for", "from", "global", "if", "import", "in",
    "is", "lambda", "nonlocal", "not", "or", "pass", "raise", "return", "try", "while", "with", "yield"}

  /** A name `def` can take: an identifier that is neither a reserved word nor `__debug__`, which cannot be assigned. */
  predicate Definable(name: string)
  {
    IsIdentifier(name) && name !in Keywords && name != "__debug__"
  }

  /**
   * A description the generated docstring keeps as written: it cannot
   * close the triple quotes early and holds no backslash escape.
   */
  predicate DocstringSafe(d: string)
  {
    '\\' !in d && !Contains(d, "\"\"\"") && (d == "" || d[|d| - 1] != '"')
  }

  /** A registered prompt tool: its name, description and the literal its body returns. */
  datatype PromptTool = PromptTool(name: string, description: string, literal: string)

  /** What the tool returns when called: the value of its literal. */
  function Returns(t: PromptTool): Option<string>
  {
    Unrepr(t.literal)
  }

  /**
   * Why registration did not happen. `Rebound(n)`: the name `n` the code
   * looks up is bound to an earlier prompt tool, so using it raises
   * AttributeError or TypeError.
   */
  datatype RegisterError =
    | InvalidName(message: string)
    | SyntaxError
    | NameError
    | UnsafeDescription
    | Rebound(binding: string)

  /**
   * The names `register_mcp_tool` looks up in its own module while it
   * runs, whatever the namespace: `re` (line 13), `repr` (line 16) and
   * `exec` (line 28), and `globals` (line 11) when no namespace is given.
   */
  function ModuleNames(defaultNamespace: bool): (r: set<string>)
    ensures "re" in r && "repr" in r && "exec" in r
    ensures "globals" in r <==> defaultNamespace
  {
    {"re", "repr", "exec"} + (if defaultNamespace then {"globals"} else {})
  }

  /**
   * The outcome of one call, from the names already bound to prompt tools:
   * `moduleBound` in the module's globals, `nsBound` in the namespace the
   * code runs in, and whether `mcp` there still names a server. Each step
   * fails in the order the code takes them.
   */
  function Registration(name: string, describe: string, returnString: string, defaultNamespace: bool,
                        moduleBound: set<string>, nsServer: bool, nsBound: set<string>): (r: Result<PromptTool, RegisterError>)
    ensures r.Ok? <==> Definable(name) && DocstringSafe(describe) && nsServer && ModuleNames(defaultNamespace) !! moduleBound
    ensures r.Ok? ==> r.value.name == name && r.value.description == describe && Returns(r.value) == Some(returnString)
    ensures r == Err(InvalidName(InvalidNameMessage)) <==>
      !ValidatorAsWritten(name) && "ValueError" !in moduleBound && "re" !in moduleBound && !(defaultNamespace && "globals" in moduleBound)
    ensures r == Err(SyntaxError) <==> ValidatorAsWritten(name) && !Definable(name) && ModuleNames(defaultNamespace) !! moduleBound
    ensures r.Err? && r.error.Rebound? ==> r.error.binding in moduleBound + nsBound
    ensures r == Err(NameError) <==>
      Definable(name) && DocstringSafe(describe) && ModuleNames(defaultNamespace) !! moduleBound && !nsServer && "mcp" !in nsBound
  {
    if defaultNamespace && "globals" in moduleBound then Err(Rebound("globals"))
    else if "re" in moduleBound then Err(Rebound("re"))
    else if !ValidatorAsWritten(name) then
      if "ValueError" in moduleBound then Err(Rebound("ValueError")) else Err(InvalidName(InvalidNameMessage))
    else if "repr" in moduleBound then Err(Rebound("repr"))
    else if "exec" in moduleBound then Err(Rebound("exec"))
    else if !Definable(name) then Err(SyntaxError)
    else if !DocstringSafe(describe) then Err(UnsafeDescription)
    else if !nsServer then
      if "mcp" in nsBound then Err(Rebound("mcp")) else Err(NameError)
    else
      ReprRoundTrip(returnString);
      Ok(PromptTool(name, describe, Repr(returnString)))
  }

  /** A FastMCP server: the tools its `tool()` decorator has registered. */
  class ToolServer {
    var tools: map<string, PromptTool>

    constructor()
      ensures tools == map[]
    {
      tools := map[];
    }
  }

  /**
   * A namespace the code runs in: the names bound to prompt tools, and the
   * server `mcp` names there (none when `mcp` is unbound or names a tool).
   */
  class Namespace {
    var entries: map<string, PromptTool>
    var server: ToolServer?

    constructor(server: ToolServer?)
      ensures entries == map[] && this.server == server
    {
      entries := map[];
      this.server := server;
    }
  }

  /**
   * `register_mcp_tool(func_name, describe, return_string, namespace)`;
   * `globals` is the module's own namespace, which also holds the names
   * the code looks up. The tool is registered with the server `mcp` names
   * and then bound under its name, so a tool called `mcp` leaves the
   * namespace without a server.
   */
  method RegisterMcpTool(name: string, describe: string, returnString: string, namespace: Namespace?, globals: Namespace)
    returns (r: Result<PromptTool, RegisterError>)
    modifies if namespace == null then globals else namespace
    modifies if namespace == null then globals.server else namespace.server
    ensures var ns := if namespace == null then globals else namespace;
      && r == Registration(name, describe, returnString, namespace == null,
                           old(globals.entries.Keys), old(ns.server) != null, old(ns.entries.Keys))
      && (r.Err? ==> ns.entries == old(ns.entries) && ns.server == old(ns.server)
                     && (ns.server != null ==> ns.server.tools == old(ns.server.tools)))
      && (r.Ok? ==>
           && old(ns.server) != null
           && ns.entries == old(ns.entries)[name := r.value]
           && ns.server == (if name == "mcp" then null else old(ns.server))
           && old(ns.server).tools == old(ns.server.tools)[name := r.value])
  {
    var ns := if namespace == null then globals else namespace;
    var moduleBound := globals.entries.Keys;
    if namespace == null && "globals" in moduleBound {
      return Err(Rebound("globals"));
    }
    if "re" in moduleBound {
      return Err(Rebound("re"));
    }
    if !ValidatorAsWritten(name) {
      if "ValueError" in moduleBound {
        return Err(Rebound("ValueError"));
      }
      return Err(InvalidName(InvalidNameMessage));
    }
    if "repr" in moduleBound {
      return Err(Rebound("repr"));
    }
    var safeReturn := Repr(returnString);
    if "exec" in moduleBound {
      return Err(Rebound("exec"));
    }
    if !Definable(name) {
      return Err(SyntaxError);
    }
    if !DocstringSafe(describe) {
      return Err(UnsafeDescription);
    }
    var server := ns.server;
    if server == null {
      if "mcp" in ns.entries {
        return Err(Rebound("mcp"));
      }
      return Err(NameError);
    }
    var tool := PromptTool(name, describe, safeReturn);
    server.tools := server.tools[name := tool];
    ns.entries := ns.entries[name := tool];
    if name == "mcp" {
      ns.server := null;
    }
    r := Ok(tool);
  }

  /** The tool registered for a proper name, in an untouched module, returns the prompt text unchanged. */
  lemma RegisteredToolReturnsPrompt(name: string, describe: string, returnString: string, defaultNamespace: bool)
    requires Definable(name) && DocstringSafe(describe)
    ensures Registration(name, describe, returnString, defaultNamespace, {}, true, {}) == Ok(PromptTool(name, describe, Repr(returnString)))
    ensures Returns(PromptTool(name, describe, Repr(returnString))) == Some(returnString)
  {
    IdentifierIsValidatorWithoutNewline(name);
    ReprRoundTrip(returnString);
  }

  /** `__debug__` gets past the name check but not past the compiler. */
  lemma DebugNameRefused(describe: string, returnString: string, defaultNamespace: bool)
    ensures ValidatorAsWritten("__debug__")
    ensures Registration("__debug__", describe, returnString, defaultNamespace, {}, true, {}) == Err(SyntaxError)
  {
    assert IsIdentifier("__debug__");
  }

  /**
   * Once a tool called `mcp` is bound in a namespace, every later
   * registration there that reaches the decorator fails; with the module's
   * own namespace, a tool called `re` stops every later registration.
   */
  lemma ReboundNamesBreakLaterCalls(name: string, describe: string, returnString: string, defaultNamespace: bool,
                                    moduleBound: set<string>, nsBound: set<string>)
    ensures "mcp" in nsBound ==> Registration(name, describe, returnString, defaultNamespace, moduleBound, false, nsBound).Err?
    ensures "mcp" in nsBound && Definable(name) && DocstringSafe(describe) && ModuleNames(defaultNamespace) !! moduleBound ==>
      Registration(name, describe, returnString, defaultNamespace, moduleBound, false, nsBound) == Err(Rebound("mcp"))
    ensures "re" in moduleBound ==> Registration(name, describe, returnString, defaultNamespace, moduleBound, true, nsBound).Err?
    ensures "re" in moduleBound && "globals" !in moduleBound ==>
      Registration(name, describe, returnString, defaultNamespace, moduleBound, true, nsBound) == Err(Rebound("re"))
  {
  }
}
