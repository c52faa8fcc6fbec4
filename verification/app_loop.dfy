/**
 * chainlit_app/app.py `process_llm_response`: ask the model, stream its
 * answer, and while it asks for tools, record ONE assistant message carrying
 * all the calls of the round, run them in order and record one tool message
 * per call; stop when a round asks for no tool.
 *
 * The model's answers are a script: the r-th request is answered by
 * `streams[r]`. Tool execution, JSON parsing and the conversation folder are
 * parameters of the world; the history is returned rather than mutated.
 */
module AppLoop {
  import opened Wrappers
  import opened Text
  import opened Messages
  import opened Stream
  import opened Workspace

  /** Everything outside the loop, fixed for one call of `process_llm_response`. */
  datatype World = World(
    streams: seq<seq<Chunk>>,
    catalog: Catalog,
    sessions: set<string>,
    parse: string -> Result<Json, string>,
    reply: (nat, nat) -> Reply,
    show: seq<ContentItem> -> string,
    before: (nat, nat) -> Folder,
    after: (nat, nat) -> Folder,
    readError: string -> Option<string>)

  /** How a turn ends: no tool call asked for, an exception escaped, or the script ran out. */
  datatype End = Done | Failed(error: string) | OutOfScript

  /** `f"call_{base_call_id}_{i}"` */
  function CallId(b: nat, i: nat): string
  {
    "call_" + NatToString(b) + "_" + NatToString(i)
  }

  /** Different (position, index) pairs give different ids. */
  lemma CallIdInjective(a: nat, b: nat, c: nat, d: nat)
    requires CallId(a, b) == CallId(c, d)
    ensures a == c && b == d
  {
    var A, B, C, D := NatToString(a), NatToString(b), NatToString(c), NatToString(d);
    var s := CallId(a, b);
    assert s == "call_" + A + "_" + B;
    assert s == "call_" + C + "_" + D;
    // The first '_' after the prefix ends both counters.
    assert forall k :: 5 <= k < 5 + |A| ==> s[k] == A[k - 5] && s[k] != '_';
    assert forall k :: 5 <= k < 5 + |C| ==> s[k] == C[k - 5] && s[k] != '_';
    assert s[5 + |A|] == '_' && s[5 + |C|] == '_';
    assert |A| == |C|;
    assert A == s[5..5 + |A|] == C;
    assert B == s[6 + |A|..] == D;
    NatToStringInjective(a, c);
    NatToStringInjective(b, d);
  }

  /** The `tool_calls` of the round's assistant message: call i gets id `call_b_i`. */
  function Records(b: nat, calls: seq<Fragment>): (r: seq<CallRecord>)
    ensures |r| == |calls|
    ensures forall i :: 0 <= i < |calls| ==> r[i] == CallRecord(CallId(b, i), calls[i].name, calls[i].arguments)
  {
    seq(|calls|, i requires 0 <= i < |calls| => CallRecord(CallId(b, i), calls[i].name, calls[i].arguments))
  }

  /**
   * The content of call i's tool message: the formatted result, the
   * cancellation notice, or the error of any other exception (here only a
   * JSON parse failure reaches it, since `execute_tool` turns call errors
   * into an error dict).
   */
  function ToolContent(w: World, round: nat, i: nat, call: Fragment): (r: string)
  {
    match w.parse(call.arguments)
    case Err(msg) => "Error executing tool " + call.name + ": " + msg
    case Ok(_) =>
      match ExecuteTool(w.catalog, w.sessions, call.name, w.reply(round, i))
      case CancelledError => "Tool " + call.name + " was cancelled by user"
      case Value(v) => FormatResult(v, w.show)
  }

  /** The tool message content of every call of the round, in order. */
  function Contents(w: World, round: nat, calls: seq<Fragment>): (r: seq<string>)
    ensures |r| == |calls| && forall i :: 0 <= i < |calls| ==> r[i] == ToolContent(w, round, i, calls[i])
  {
    seq(|calls|, i requires 0 <= i < |calls| => ToolContent(w, round, i, calls[i]))
  }

  /** The tool messages for the first calls: call j answered under `call_b_j`. */
  function ToolMsgs(b: nat, contents: seq<string>): (r: seq<Message>)
    ensures |r| == |contents|
    ensures forall j :: 0 <= j < |contents| ==> r[j] == ToolResult(CallId(b, j), contents[j])
  {
    seq(|contents|, j requires 0 <= j < |contents| => ToolResult(CallId(b, j), contents[j]))
  }

  /** The exception the folder check after call j raises, if any (`append_to_history` is False here). */
  function FilesError(w: World, round: nat, j: nat): Option<string>
  {
    var before := if w.before(round, j).Missing? then [] else SnapshotOf(w.before(round, j).entries);
    match CheckNewFiles(before, w.after(round, j), false, w.readError, [])
    case Err(msg) => Some(msg)
    case Ok(_) => None
  }

  /** The outcome of the folder check after each of the first `n` calls of the round. */
  function Checks(w: World, round: nat, n: nat): (r: seq<Option<string>>)
    ensures |r| == n && forall j :: 0 <= j < n ==> r[j] == FilesError(w, round, j)
  {
    seq(n, j requires 0 <= j < n => FilesError(w, round, j))
  }

  /** The first check that raised, with its message. */
  function FirstFailure(checks: seq<Option<string>>): (r: Option<(nat, string)>)
    ensures r.Some? ==> r.value.0 < |checks|
    decreases |checks|
  {
    if |checks| == 0 then None
    else match FirstFailure(checks[..|checks| - 1])
      case Some(f) => Some(f)
      case None =>
        match checks[|checks| - 1]
        case Some(msg) => Some((|checks| - 1, msg))
        case None => None
  }

  /** The first failure is a failing check with none before it; no failure means every check passed. */
  lemma {:induction false} FirstFailureSpec(checks: seq<Option<string>>)
    ensures var r := FirstFailure(checks);
      && (r.Some? ==> checks[r.value.0] == Some(r.value.1) && forall j :: 0 <= j < r.value.0 ==> checks[j].None?)
      && (r.None? <==> forall j :: 0 <= j < |checks| ==> checks[j].None?)
    decreases |checks|
  {
    if |checks| > 0 {
      var pre := checks[..|checks| - 1];
      FirstFailureSpec(pre);
      assert forall j :: 0 <= j < |pre| ==> pre[j] == checks[j];
    }
  }

  /** A failing check at i, with none before it, is the first failure of every longer run of checks. */
  lemma {:induction false} FirstFailureAt(checks: seq<Option<string>>, i: nat)
    requires i < |checks| && FirstFailure(checks[..i]).None? && checks[i].Some?
    ensures FirstFailure(checks) == Some((i, checks[i].value))
    decreases |checks|
  {
    if |checks| == i + 1 {
      assert checks[..|checks| - 1] == checks[..i];
    } else {
      var pre := checks[..|checks| - 1];
      assert pre[..i] == checks[..i];
      FirstFailureAt(pre, i);
    }
  }

  /** One more passing check leaves no failure. */
  lemma FirstFailureSnoc(checks: seq<Option<string>>, i: nat)
    requires i < |checks| && FirstFailure(checks[..i]).None? && checks[i].None?
    ensures FirstFailure(checks[..i + 1]).None?
  {
    assert checks[..i + 1][..i] == checks[..i];
  }

  lemma ToolMsgsSnoc(b: nat, contents: seq<string>, i: nat)
    requires i < |contents|
    ensures ToolMsgs(b, contents[..i + 1]) == ToolMsgs(b, contents[..i]) + [ToolResult(CallId(b, i), contents[i])]
  {
  }

  /** The history and ending of a turn from request number `round` on. */
  function Turn(w: World, h: seq<Message>, round: nat): (seq<Message>, End)
    decreases |w.streams| - round, 1
  {
    if round >= |w.streams| then (h, OutOfScript)
    else match Collect(w.streams[round], true)
      case Err(e) => (h, Failed(e))
      case Ok((text, calls)) =>
        var h1 := if IsBlank(text) then h else h + [AssistantText(text)];
        if |calls| == 0 then (h1, Done)
        else ToolRound(w, h1, round, calls, Contents(w, round, calls), FirstFailure(Checks(w, round, |calls|)))
  }

  /**
   * A round that asks for tools, after its text: the assistant message with
   * all the calls at b = |h1|, then one tool message per call up to the
   * first failing folder check, which ends the turn; without one, the next
   * request.
   */
  function ToolRound(w: World, h1: seq<Message>, round: nat, calls: seq<Fragment>, contents: seq<string>,
                     failure: Option<(nat, string)>): (seq<Message>, End)
    requires round < |w.streams| && (failure.Some? ==> failure.value.0 < |contents|)
    decreases |w.streams| - round, 0
  {
    var b := |h1|;
    var h2 := h1 + [AssistantCalls(Records(b, calls))];
    match failure
    case Some((j, msg)) => (h2 + ToolMsgs(b, contents[..j + 1]), Failed(msg))
    case None => Turn(w, h2 + ToolMsgs(b, contents), round + 1)
  }

  /** One tool call of the round: its tool message content, then the folder check. */
  method RunCall(w: World, round: nat, i: nat, call: Fragment) returns (content: string, error: Option<string>)
    ensures content == ToolContent(w, round, i, call) && error == FilesError(w, round, i)
  {
    var existing := GetFilesState(w.before(round, i));
    match w.parse(call.arguments) {
      case Err(msg) =>
        content := "Error executing tool " + call.name + ": " + msg;
      case Ok(_) =>
        var outcome := ExecuteTool(w.catalog, w.sessions, call.name, w.reply(round, i));
        if outcome.CancelledError? {
          content := "Tool " + call.name + " was cancelled by user";
        } else {
          content := FormatResult(outcome.value, w.show);
        }
    }
    var check := CheckNewFiles(existing, w.after(round, i), false, w.readError, []);
    error := if check.Err? then Some(check.error) else None;
  }

  /** The calls of one round, in order, each answered by a tool message under `call_b_i`; the first failing folder check stops them. */
  method RunCalls(w: World, round: nat, calls: seq<Fragment>, b: nat, h2: seq<Message>) returns (h: seq<Message>, failure: Option<(nat, string)>)
    ensures failure == FirstFailure(Checks(w, round, |calls|))
    ensures failure.Some? ==> h == h2 + ToolMsgs(b, Contents(w, round, calls)[..failure.value.0 + 1])
    ensures failure.None? ==> h == h2 + ToolMsgs(b, Contents(w, round, calls))
  {
    h := h2;
    ghost var contents := Contents(w, round, calls);
    ghost var checks := Checks(w, round, |calls|);
    var i := 0;
    while i < |calls|
      invariant 0 <= i <= |calls|
      invariant h == h2 + ToolMsgs(b, contents[..i])
      invariant FirstFailure(checks[..i]).None?
    {
      var content, error := RunCall(w, round, i, calls[i]);
      assert content == contents[i] && error == checks[i];
      ToolMsgsSnoc(b, contents, i);
      h := h + [ToolResult(CallId(b, i), content)];
      if error.Some? {
        FirstFailureAt(checks, i);
        return h, Some((i, error.value));
      }
      FirstFailureSnoc(checks, i);
      i := i + 1;
    }
    assert contents[..i] == contents;
    assert checks[..i] == checks;
    failure := None;
  }

  /** One request: either the turn ends here (`stop` holds how) or it goes on with the next request. */
  method RunRound(w: World, h0: seq<Message>, round: nat) returns (h: seq<Message>, stop: Option<End>)
    requires round < |w.streams|
    ensures stop.Some? ==> Turn(w, h0, round) == (h, stop.value)
    ensures stop.None? ==> Turn(w, h0, round) == Turn(w, h, round + 1)
  {
    var collected := CollectStream(w.streams[round], true);
    if collected.Err? {
      return h0, Some(Failed(collected.error));
    }
    var (text, calls) := collected.value;
    h := h0;
    if !IsBlank(text) {
      h := h + [AssistantText(text)];
    }
    if |calls| == 0 {
      return h, Some(Done);
    }
    var b := |h|;
    var failure;
    h, failure := RunCalls(w, round, calls, b, h + [AssistantCalls(Records(b, calls))]);
    stop := if failure.Some? then Some(Failed(failure.value.1)) else None;
  }

  /** `process_llm_response` */
  method ProcessLlmResponse(w: World, history: seq<Message>) returns (h: seq<Message>, end: End)
    ensures (h, end) == Turn(w, history, 0)
  {
    h := history;
    var round := 0;
    while round < |w.streams|
      invariant Turn(w, h, round) == Turn(w, history, 0)
      decreases |w.streams| - round
    {
      var stop;
      h, stop := RunRound(w, h, round);
      if stop.Some? {
        return h, stop.value;
      }
      round := round + 1;
    }
    end := OutOfScript;
  }

  // The pairing of tool calls and tool messages.

  /** Position `p` holds an assistant tool-call message with at least `i + 1` calls. */
  ghost predicate RecordAt(h: seq<Message>, p: int, i: int)
  {
    0 <= p < |h| && h[p].AssistantCalls? && 0 <= i < |h[p].calls|
  }

  /** Position `q` holds a tool message. */
  ghost predicate ToolAt(h: seq<Message>, q: int)
  {
    0 <= q < |h| && h[q].ToolResult?
  }

  /** The calls of the assistant message at position p are named `call_p_0`, `call_p_1`, ... */
  ghost predicate IdsByPosition(h: seq<Message>)
  {
    forall p, i {:trigger RecordAt(h, p, i)} :: RecordAt(h, p, i) ==> h[p].calls[i].id == CallId(p, i)
  }

  /** Every tool message answers a call recorded before it. */
  ghost predicate ToolsAnswerEarlier(h: seq<Message>)
  {
    forall q {:trigger ToolAt(h, q)} :: ToolAt(h, q) ==>
      exists p, i :: p < q && RecordAt(h, p, i) && h[p].calls[i].id == h[q].toolCallId
  }

  /** No two tool messages answer the same call. */
  ghost predicate ToolIdsDistinct(h: seq<Message>)
  {
    forall q1, q2 {:trigger ToolAt(h, q1), ToolAt(h, q2)} :: q1 < q2 && ToolAt(h, q1) && ToolAt(h, q2) ==>
      h[q1].toolCallId != h[q2].toolCallId
  }

  /** Every recorded call has a tool message after it. */
  ghost predicate AllAnswered(h: seq<Message>)
  {
    forall p, i {:trigger RecordAt(h, p, i)} :: RecordAt(h, p, i) ==>
      exists q :: p < q < |h| && h[q].ToolResult? && h[q].toolCallId == h[p].calls[i].id
  }

  ghost predicate WellPaired(h: seq<Message>)
  {
    IdsByPosition(h) && ToolsAnswerEarlier(h) && ToolIdsDistinct(h)
  }

  /** Appending a message that is neither a call nor a tool message keeps the pairing. */
  lemma AppendPlain(h: seq<Message>, m: Message)
    requires !m.AssistantCalls? && !m.ToolResult?
    ensures WellPaired(h) ==> WellPaired(h + [m])
    ensures AllAnswered(h) ==> AllAnswered(h + [m])
  {
    var h' := h + [m];
    forall p, i ensures RecordAt(h', p, i) == RecordAt(h, p, i) {
      if 0 <= p < |h| { assert h'[p] == h[p]; }
    }
    forall q ensures ToolAt(h', q) == ToolAt(h, q) {
      if 0 <= q < |h| { assert h'[q] == h[q]; }
    }
    if AllAnswered(h) {
      forall p, i | RecordAt(h', p, i)
        ensures exists q :: p < q < |h'| && h'[q].ToolResult? && h'[q].toolCallId == h'[p].calls[i].id
      {
        assert RecordAt(h, p, i);
        var q :| p < q < |h| && h[q].ToolResult? && h[q].toolCallId == h[p].calls[i].id;
        assert h'[q] == h[q];
      }
    }
    if WellPaired(h) {
      forall q | ToolAt(h', q)
        ensures exists p, i :: p < q && RecordAt(h', p, i) && h'[p].calls[i].id == h'[q].toolCallId
      {
        assert ToolAt(h, q);
        var p, i :| p < q && RecordAt(h, p, i) && h[p].calls[i].id == h[q].toolCallId;
        assert RecordAt(h', p, i);
      }
    }
  }

  /** `h'` is `h` followed by the round's assistant message (at b = |h|) and the answers to its first m calls. */
  ghost predicate Extends(h: seq<Message>, h': seq<Message>, calls: seq<Fragment>, m: nat)
  {
    var b := |h|;
    && m <= |calls| && |h'| == b + 1 + m
    && (forall k :: 0 <= k < b ==> h'[k] == h[k])
    && h'[b] == AssistantCalls(Records(b, calls))
    && (forall q :: b < q < |h'| ==> h'[q].ToolResult? && h'[q].toolCallId == CallId(b, q - b - 1))
  }

  lemma ExtendsShape(h: seq<Message>, calls: seq<Fragment>, contents: seq<string>, m: nat)
    requires m <= |calls| && m <= |contents|
    ensures Extends(h, h + [AssistantCalls(Records(|h|, calls))] + ToolMsgs(|h|, contents[..m]), calls, m)
  {
    var b := |h|;
    var h' := h + [AssistantCalls(Records(b, calls))] + ToolMsgs(b, contents[..m]);
    forall q | b < q < |h'| ensures h'[q].ToolResult? && h'[q].toolCallId == CallId(b, q - b - 1) {
      assert h'[q] == ToolMsgs(b, contents[..m])[q - b - 1];
    }
  }

  lemma ExtendIds(h: seq<Message>, h': seq<Message>, calls: seq<Fragment>, m: nat)
    requires Extends(h, h', calls, m) && IdsByPosition(h)
    ensures IdsByPosition(h')
  {
    forall p, i | RecordAt(h', p, i) ensures h'[p].calls[i].id == CallId(p, i) {
      if p < |h| {
        assert RecordAt(h, p, i);
      }
    }
  }

  lemma ExtendEarlier(h: seq<Message>, h': seq<Message>, calls: seq<Fragment>, m: nat)
    requires Extends(h, h', calls, m) && ToolsAnswerEarlier(h)
    ensures ToolsAnswerEarlier(h')
  {
    var b := |h|;
    forall q | ToolAt(h', q)
      ensures exists p, i :: p < q && RecordAt(h', p, i) && h'[p].calls[i].id == h'[q].toolCallId
    {
      if q < b {
        assert ToolAt(h, q);
        var p, i :| p < q && RecordAt(h, p, i) && h[p].calls[i].id == h[q].toolCallId;
        assert RecordAt(h', p, i);
      } else {
        assert RecordAt(h', b, q - b - 1);
      }
    }
  }

  lemma ExtendDistinct(h: seq<Message>, h': seq<Message>, calls: seq<Fragment>, m: nat)
    requires Extends(h, h', calls, m) && WellPaired(h)
    ensures ToolIdsDistinct(h')
  {
    var b := |h|;
    forall q1, q2 | q1 < q2 && ToolAt(h', q1) && ToolAt(h', q2)
      ensures h'[q1].toolCallId != h'[q2].toolCallId
    {
      if q2 < b {
        assert ToolAt(h, q1) && ToolAt(h, q2);
      } else if q1 > b {
        if CallId(b, q1 - b - 1) == CallId(b, q2 - b - 1) {
          CallIdInjective(b, q1 - b - 1, b, q2 - b - 1);
        }
      } else {
        assert ToolAt(h, q1);
        var p, i :| p < q1 && RecordAt(h, p, i) && h[p].calls[i].id == h[q1].toolCallId;
        assert h[p].calls[i].id == CallId(p, i);
        if CallId(p, i) == CallId(b, q2 - b - 1) {
          CallIdInjective(p, i, b, q2 - b - 1);
        }
      }
    }
  }

  lemma ExtendAnswered(h: seq<Message>, h': seq<Message>, calls: seq<Fragment>)
    requires Extends(h, h', calls, |calls|) && AllAnswered(h)
    ensures AllAnswered(h')
  {
    var b := |h|;
    forall p, i | RecordAt(h', p, i)
      ensures exists q :: p < q < |h'| && h'[q].ToolResult? && h'[q].toolCallId == h'[p].calls[i].id
    {
      if p < b {
        assert RecordAt(h, p, i);
        var q :| p < q < |h| && h[q].ToolResult? && h[q].toolCallId == h[p].calls[i].id;
        assert h'[q] == h[q];
      } else {
        assert h'[b + 1 + i].toolCallId == CallId(b, i);
      }
    }
  }

  /**
   * A round that records its calls at position b = |h| and answers the first
   * m of them keeps the pairing; when it answers all of them, every call in
   * the history stays answered.
   */
  lemma RoundKeepsPairing(h: seq<Message>, calls: seq<Fragment>, contents: seq<string>, m: nat)
    requires WellPaired(h)
    requires m <= |calls| && m <= |contents|
    ensures var b := |h|;
      var h' := h + [AssistantCalls(Records(b, calls))] + ToolMsgs(b, contents[..m]);
      && WellPaired(h')
      && (AllAnswered(h) && m == |calls| ==> AllAnswered(h'))
  {
    var b := |h|;
    var h' := h + [AssistantCalls(Records(b, calls))] + ToolMsgs(b, contents[..m]);
    ExtendsShape(h, calls, contents, m);
    ExtendIds(h, h', calls, m);
    ExtendEarlier(h, h', calls, m);
    ExtendDistinct(h, h', calls, m);
    if AllAnswered(h) && m == |calls| {
      ExtendAnswered(h, h', calls);
    }
  }

  /**
   * Every turn keeps the pairing of calls and tool messages: ids follow
   * positions (so they are pairwise distinct), each tool message answers an
   * earlier call, no call is answered twice, and a turn that ends normally
   * leaves every call answered.
   */
  lemma {:induction false} TurnKeepsPairing(w: World, h: seq<Message>, round: nat)
    requires WellPaired(h)
    ensures WellPaired(Turn(w, h, round).0)
    ensures AllAnswered(h) && Turn(w, h, round).1 == Done ==> AllAnswered(Turn(w, h, round).0)
    decreases |w.streams| - round, 1
  {
    if round < |w.streams| {
      match Collect(w.streams[round], true)
      case Err(e) =>
      case Ok((text, calls)) =>
        var h1 := if IsBlank(text) then h else h + [AssistantText(text)];
        AppendPlain(h, AssistantText(text));
        if |calls| > 0 {
          ToolRoundKeepsPairing(w, h1, round, calls, Contents(w, round, calls), FirstFailure(Checks(w, round, |calls|)));
        }
    }
  }

  /** A round that asks for tools keeps the pairing, through the rest of the turn. */
  lemma {:induction false} ToolRoundKeepsPairing(w: World, h1: seq<Message>, round: nat, calls: seq<Fragment>,
                                                 contents: seq<string>, failure: Option<(nat, string)>)
    requires round < |w.streams| && |contents| == |calls| && (failure.Some? ==> failure.value.0 < |contents|)
    requires WellPaired(h1)
    ensures WellPaired(ToolRound(w, h1, round, calls, contents, failure).0)
    ensures AllAnswered(h1) && ToolRound(w, h1, round, calls, contents, failure).1 == Done ==>
      AllAnswered(ToolRound(w, h1, round, calls, contents, failure).0)
    decreases |w.streams| - round, 0
  {
    var b := |h1|;
    match failure
    case Some((j, msg)) =>
      RoundKeepsPairing(h1, calls, contents, j + 1);
    case None =>
      RoundKeepsPairing(h1, calls, contents, |calls|);
      assert contents[..|calls|] == contents;
      TurnKeepsPairing(w, h1 + [AssistantCalls(Records(b, calls))] + ToolMsgs(b, contents), round + 1);
  }

  /** A round with tool calls appends exactly one assistant message carrying all of them, then their answers. */
  lemma RoundShape(w: World, h: seq<Message>, round: nat)
    requires round < |w.streams| && Collect(w.streams[round], true).Ok?
    requires var (text, calls) := Collect(w.streams[round], true).value; IsBlank(text) && |calls| > 0
    requires FirstFailure(Checks(w, round, |Collect(w.streams[round], true).value.1|)).None?
    ensures var calls := Collect(w.streams[round], true).value.1;
      Turn(w, h, round) == Turn(w, h + [AssistantCalls(Records(|h|, calls))] + ToolMsgs(|h|, Contents(w, round, calls)), round + 1)
  {
  }

  /** A stream without tool calls ends the turn, adding its text only when it is not blank. */
  lemma NoCallsEndsTurn(w: World, h: seq<Message>, round: nat)
    requires round < |w.streams| && Collect(w.streams[round], true).Ok?
    requires |Collect(w.streams[round], true).value.1| == 0
    ensures var text := Collect(w.streams[round], true).value.0;
      Turn(w, h, round) == (if IsBlank(text) then h else h + [AssistantText(text)], Done)
  {
  }
}
