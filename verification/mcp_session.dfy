/**
 * What a connection manager gets from a server session: the tool list of
 * `list_tools()` and the roots it answers with. Both managers turn the
 * listing into catalog entries the same way.
 */
module McpSession {
  import opened Wrappers
  import PyDict
  import opened Messages

  /** A tool as the server lists it. */
  datatype McpTool = McpTool(name: string, description: Option<string>, inputSchema: Json)

  /** The answer of `list_tools()`: the tools, or the message of the exception it raised. */
  type Listing = Result<seq<McpTool>, string>

  /** An MCP root: `{"uri": ..., "name": ...}`. */
  datatype Root = Root(uri: string, name: string)

  /**
   * `get_tools_from_session` once the session exists: each listed tool, in
   * order, as `{name, description, input_schema}`; a failed listing gives `[]`.
   */
  function ToolsOf(listing: Listing): (r: seq<ToolInfo>)
    ensures listing.Err? ==> r == []
    ensures listing.Ok? ==> |r| == |listing.value|
    ensures listing.Ok? ==> forall i :: 0 <= i < |r| ==>
      r[i].name == listing.value[i].name && r[i].description == listing.value[i].description && r[i].inputSchema == listing.value[i].inputSchema
  {
    match listing
    case Err(_) => []
    case Ok(ts) => seq(|ts|, i requires 0 <= i < |ts| => ToolInfo(ts[i].name, ts[i].description, ts[i].inputSchema))
  }

  /** Every tool the server lists can be resolved by name in the catalog entry built from it. */
  lemma ListedToolsOffered(listing: Listing, i: nat)
    requires listing.Ok? && i < |listing.value|
    ensures Offers(ToolsOf(listing), listing.value[i].name)
  {
    assert ToolsOf(listing)[i].name == listing.value[i].name;
  }

  /**
   * `update_tools`: every catalog entry whose server has a session is
   * replaced by a fresh listing of that server; the others stay.
   */
  function UpdatedTools(tools: Catalog, sessions: set<string>, listing: string -> Listing): (r: Catalog)
    ensures |r| == |tools|
  {
    seq(|tools|, i requires 0 <= i < |tools| =>
      if tools[i].0 in sessions then (tools[i].0, ToolsOf(listing(tools[i].0))) else tools[i])
  }

  /** Refreshing never adds or drops a server nor moves one, and only touches servers with a session. */
  lemma UpdatedToolsSpec(tools: Catalog, sessions: set<string>, listing: string -> Listing)
    requires PyDict.Valid(tools)
    ensures var r := UpdatedTools(tools, sessions, listing);
      && PyDict.Valid(r)
      && PyDict.Keys(r) == PyDict.Keys(tools)
      && (forall k :: PyDict.Has(r, k) <==> PyDict.Has(tools, k))
      && (forall k :: PyDict.Has(tools, k) ==> PyDict.Get(r, k) == if k in sessions then ToolsOf(listing(k)) else PyDict.Get(tools, k))
  {
    var r := UpdatedTools(tools, sessions, listing);
    assert forall i :: 0 <= i < |r| ==> r[i].0 == tools[i].0;
    assert PyDict.Keys(r) == PyDict.Keys(tools);
    forall k | PyDict.Has(tools, k)
      ensures PyDict.Has(r, k) && PyDict.Get(r, k) == if k in sessions then ToolsOf(listing(k)) else PyDict.Get(tools, k)
    {
      var i := PyDict.IndexOf(tools, k);
      PyDict.IndexOfUnique(r, i);
    }
    forall k | PyDict.Has(r, k) ensures PyDict.Has(tools, k) {
      var i := PyDict.IndexOf(r, k);
      assert tools[i].0 == k;
    }
  }
}
