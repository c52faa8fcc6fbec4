/**
 * Rebuilding tool calls from a streamed completion. Each chunk's first
 * choice carries a delta: a piece of response text and pieces of tool calls,
 * each tagged with the index of the call it belongs to. A call's name is
 * overwritten by every non-empty name piece and its arguments are the
 * concatenation of its argument pieces. A piece whose index is at or past the
 * number of calls so far adds ONE empty call first, so an index that skips
 * ahead makes the following list access fail with `IndexError`.
 */
module Stream {
  import opened Wrappers

  /** One element of a delta's `tool_calls`; an absent name or arguments piece is "" (both are falsy). */
  datatype ToolCallDelta = ToolCallDelta(index: nat, name: string, arguments: string)

  /** A chunk without choices, or the delta of its first choice (absent content is ""). */
  datatype Chunk = NoChoices | Delta(content: string, toolCalls: seq<ToolCallDelta>)

  /** A call under construction: `{"name": ..., "arguments": ...}`. */
  datatype Fragment = Fragment(name: string, arguments: string)

  /** The message of Python's `IndexError` on a list. */
  const IndexErrorMessage: string := "list index out of range"

  /** The piece touches its call: it has a name or an arguments piece. */
  predicate HasPiece(d: ToolCallDelta)
  {
    d.name != "" || d.arguments != ""
  }

  /** The calls after one tool-call piece, or None when the list access raises. */
  function ApplyDelta(fs: seq<Fragment>, d: ToolCallDelta): (r: Option<seq<Fragment>>)
  {
    var grown := if d.index >= |fs| then fs + [Fragment("", "")] else fs;
    if !HasPiece(d) then Some(grown)
    else if d.index >= |grown| then None
    else
      var f := grown[d.index];
      Some(grown[d.index := Fragment(if d.name != "" then d.name else f.name, f.arguments + d.arguments)])
  }

  /** The calls after a sequence of pieces, applied in arrival order. */
  function RunDeltas(ds: seq<ToolCallDelta>): Option<seq<Fragment>>
    decreases |ds|
  {
    if |ds| == 0 then Some([])
    else
      match RunDeltas(ds[..|ds| - 1])
      case None => None
      case Some(fs) => ApplyDelta(fs, ds[|ds| - 1])
  }

  /** The number of calls the pieces create: one for each piece at or past the count so far. */
  function Count(ds: seq<ToolCallDelta>): nat
    decreases |ds|
  {
    if |ds| == 0 then 0
    else
      var c := Count(ds[..|ds| - 1]);
      if ds[|ds| - 1].index >= c then c + 1 else c
  }

  /** The concatenation, in arrival order, of the arguments pieces with index `k`. */
  function ArgsFor(ds: seq<ToolCallDelta>, k: nat): string
    decreases |ds|
  {
    if |ds| == 0 then ""
    else ArgsFor(ds[..|ds| - 1], k) + (if ds[|ds| - 1].index == k then ds[|ds| - 1].arguments else "")
  }

  /** The last non-empty name piece with index `k`, or "" when there is none. */
  function LastName(ds: seq<ToolCallDelta>, k: nat): string
    decreases |ds|
  {
    if |ds| == 0 then ""
    else if ds[|ds| - 1].index == k && ds[|ds| - 1].name != "" then ds[|ds| - 1].name
    else LastName(ds[..|ds| - 1], k)
  }

  /**
   * When no access fails, there is one call per created index, and call `k`
   * has the last name piece and all arguments pieces sent with index `k`;
   * no piece is lost at an index past the calls.
   */
  lemma {:induction false} RunDeltasSpec(ds: seq<ToolCallDelta>)
    ensures RunDeltas(ds).Some? ==>
      var fs := RunDeltas(ds).value;
      && |fs| == Count(ds)
      && (forall k :: 0 <= k < |fs| ==> fs[k] == Fragment(LastName(ds, k), ArgsFor(ds, k)))
      && (forall k: nat :: k >= |fs| ==> LastName(ds, k) == "" && ArgsFor(ds, k) == "")
    decreases |ds|
  {
    if |ds| > 0 {
      var p := ds[..|ds| - 1];
      var d := ds[|ds| - 1];
      RunDeltasSpec(p);
    }
  }

  /** A piece lands past the calls so far (at an index more than one beyond them). */
  predicate GapAt(ds: seq<ToolCallDelta>, p: nat)
    requires p < |ds|
  {
    HasPiece(ds[p]) && ds[p].index > Count(ds[..p])
  }

  /** The accumulation fails exactly when some piece skips past the next free index. */
  lemma {:induction false} RunDeltasFails(ds: seq<ToolCallDelta>)
    ensures RunDeltas(ds).None? <==> exists p: nat :: p < |ds| && GapAt(ds, p)
    decreases |ds|
  {
    if |ds| > 0 {
      var n := |ds| - 1;
      var pre := ds[..n];
      RunDeltasFails(pre);
      RunDeltasSpec(pre);
      assert forall p: nat :: p < n ==> ds[..p] == pre[..p] && ds[p] == pre[p];
      assert ds[..n] == pre;
      if RunDeltas(pre).Some? {
        var fs := RunDeltas(pre).value;
        assert !exists p: nat :: p < n && GapAt(pre, p);
        assert RunDeltas(ds) == ApplyDelta(fs, ds[n]);
        if RunDeltas(ds).None? {
          assert GapAt(ds, n);
        } else {
          forall p: nat | p < |ds| ensures !GapAt(ds, p) {
            if p < n {
              assert !GapAt(pre, p);
            }
          }
        }
      } else {
        var p: nat :| p < n && GapAt(pre, p);
        assert GapAt(ds, p);
      }
    }
  }

  /** A piece for call 1 before any call exists raises. */
  lemma GapRaises(name: string)
    requires name != ""
    ensures RunDeltas([ToolCallDelta(1, name, "")]) == None
  {
    assert [ToolCallDelta(1, name, "")][..0] == [];
  }

  /** Once an access has failed, later pieces do not matter. */
  lemma {:induction false} RunDeltasNonePersists(ds: seq<ToolCallDelta>, more: seq<ToolCallDelta>)
    requires RunDeltas(ds).None?
    ensures RunDeltas(ds + more).None?
    decreases |more|
  {
    if |more| > 0 {
      RunDeltasNonePersists(ds, more[..|more| - 1]);
      assert (ds + more)[..|ds + more| - 1] == ds + more[..|more| - 1];
    } else {
      assert ds + more == ds;
    }
  }

  /** All tool-call pieces of the chunks, in order (chunks without choices carry none). */
  function Deltas(chunks: seq<Chunk>): seq<ToolCallDelta>
    decreases |chunks|
  {
    if |chunks| == 0 then []
    else
      var last := chunks[|chunks| - 1];
      Deltas(chunks[..|chunks| - 1]) + (if last.Delta? then last.toolCalls else [])
  }

  /** The streamed response text: the concatenation of the content pieces. */
  function TextOf(chunks: seq<Chunk>): string
    decreases |chunks|
  {
    if |chunks| == 0 then ""
    else
      var last := chunks[|chunks| - 1];
      TextOf(chunks[..|chunks| - 1]) + (if last.Delta? then last.content else "")
  }

  lemma {:induction false} DeltasAppend(a: seq<Chunk>, b: seq<Chunk>)
    ensures Deltas(a + b) == Deltas(a) + Deltas(b)
    decreases |b|
  {
    if |b| > 0 {
      DeltasAppend(a, b[..|b| - 1]);
      assert (a + b)[..|a + b| - 1] == a + b[..|b| - 1];
      assert (a + b)[|a + b| - 1] == b[|b| - 1];
    } else {
      assert a + b == a;
    }
  }

  /**
   * What reading a whole stream gives: the text and the calls, or the
   * `IndexError` that escapes. With `skipEmpty` (chainlit_app/app.py) chunks
   * without choices are skipped; without it (ui/chat.py) such a chunk fails
   * at `chunk.choices[0]`.
   */
  function Collect(chunks: seq<Chunk>, skipEmpty: bool): Result<(string, seq<Fragment>), string>
  {
    if !skipEmpty && NoChoices in chunks then Err(IndexErrorMessage)
    else match RunDeltas(Deltas(chunks))
      case None => Err(IndexErrorMessage)
      case Some(fs) => Ok((TextOf(chunks), fs))
  }

  /** The body of the inner loop for one tool-call piece: `tool_calls.append`, then the two list updates. */
  method ApplyPiece(calls: seq<Fragment>, d: ToolCallDelta) returns (r: Option<seq<Fragment>>)
    ensures r == ApplyDelta(calls, d)
    ensures r.Some? ==> |r.value| == (if d.index >= |calls| then |calls| + 1 else |calls|)
  {
    var cs := calls;
    if d.index >= |cs| {
      cs := cs + [Fragment("", "")];
    }
    if d.name != "" {
      if d.index >= |cs| {
        return None;
      }
      cs := cs[d.index := cs[d.index].(name := d.name)];
    }
    if d.arguments != "" {
      if d.index >= |cs| {
        return None;
      }
      cs := cs[d.index := cs[d.index].(arguments := cs[d.index].arguments + d.arguments)];
    }
    ghost var grown := if d.index >= |calls| then calls + [Fragment("", "")] else calls;
    if HasPiece(d) {
      ghost var f := grown[d.index];
      assert f.arguments + "" == f.arguments;
      assert cs == grown[d.index := Fragment(if d.name != "" then d.name else f.name, f.arguments + d.arguments)];
    } else {
      assert cs == grown;
    }
    r := Some(cs);
  }

  /** The inner loop over one delta's tool-call pieces, after the pieces `done` that built `calls0`; None when an access raises. */
  method ApplyPieces(calls0: seq<Fragment>, ghost done: seq<ToolCallDelta>, tcs: seq<ToolCallDelta>) returns (r: Option<seq<Fragment>>)
    requires RunDeltas(done) == Some(calls0)
    ensures r == RunDeltas(done + tcs)
  {
    var calls := calls0;
    var j := 0;
    assert done + tcs[..0] == done;
    while j < |tcs|
      invariant 0 <= j <= |tcs|
      invariant RunDeltas(done + tcs[..j]) == Some(calls)
    {
      ghost var ds := done + tcs[..j + 1];
      assert ds[..|ds| - 1] == done + tcs[..j];
      var next := ApplyPiece(calls, tcs[j]);
      if next.None? {
        RunDeltasNonePersists(ds, tcs[j + 1..]);
        assert ds + tcs[j + 1..] == done + tcs;
        return None;
      }
      calls := next.value;
      j := j + 1;
    }
    assert tcs[..j] == tcs;
    r := Some(calls);
  }

  /** The `async for chunk in stream` loop; the inner loop over a delta's pieces is `ApplyPieces`. */
  method CollectStream(chunks: seq<Chunk>, skipEmpty: bool) returns (r: Result<(string, seq<Fragment>), string>)
    ensures r == Collect(chunks, skipEmpty)
  {
    var text := "";
    var calls: seq<Fragment> := [];
    var i := 0;
    while i < |chunks|
      invariant 0 <= i <= |chunks|
      invariant text == TextOf(chunks[..i])
      invariant RunDeltas(Deltas(chunks[..i])) == Some(calls)
      invariant !skipEmpty ==> forall k :: 0 <= k < i ==> chunks[k].Delta?
    {
      var chunk := chunks[i];
      ChunkStep(chunks, i);
      if chunk.NoChoices? {
        if !skipEmpty {
          CollectFails(chunks, skipEmpty, i);
          return Err(IndexErrorMessage);
        }
        assert Deltas(chunks[..i + 1]) == Deltas(chunks[..i]);
      } else {
        text := text + chunk.content;
        var next := ApplyPieces(calls, Deltas(chunks[..i]), chunk.toolCalls);
        if next.None? {
          FailureReachesEnd(chunks, i);
          CollectFails(chunks, skipEmpty, i);
          return Err(IndexErrorMessage);
        }
        calls := next.value;
      }
      i := i + 1;
    }
    assert chunks[..i] == chunks;
    assert !skipEmpty ==> NoChoices !in chunks;
    r := Ok((text, calls));
  }

  /** A chunk without choices that is not skipped, or a failing access, makes the stream fail. */
  lemma CollectFails(chunks: seq<Chunk>, skipEmpty: bool, i: nat)
    requires i < |chunks|
    requires (!skipEmpty && chunks[i].NoChoices?) || RunDeltas(Deltas(chunks)).None?
    ensures Collect(chunks, skipEmpty) == Err(IndexErrorMessage)
  {
    if !skipEmpty && chunks[i].NoChoices? {
      assert NoChoices in chunks;
    }
  }

  /** How the prefix summaries grow by one chunk. */
  lemma ChunkStep(chunks: seq<Chunk>, i: nat)
    requires i < |chunks|
    ensures Deltas(chunks[..i + 1]) == Deltas(chunks[..i]) + (if chunks[i].Delta? then chunks[i].toolCalls else [])
    ensures TextOf(chunks[..i + 1]) == TextOf(chunks[..i]) + (if chunks[i].Delta? then chunks[i].content else "")
  {
    assert chunks[..i + 1][..i] == chunks[..i];
  }

  /** A failure within the first i + 1 chunks makes the whole stream fail. */
  lemma FailureReachesEnd(chunks: seq<Chunk>, i: nat)
    requires i < |chunks| && RunDeltas(Deltas(chunks[..i + 1])).None?
    ensures RunDeltas(Deltas(chunks)).None?
  {
    RunDeltasNonePersists(Deltas(chunks[..i + 1]), Deltas(chunks[i + 1..]));
    assert chunks == chunks[..i + 1] + chunks[i + 1..];
    DeltasAppend(chunks[..i + 1], chunks[i + 1..]);
  }
}
