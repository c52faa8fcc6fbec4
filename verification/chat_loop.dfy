/**
 * ui/chat.py `process_llm_response`, the older loop. Every tool call whose
 * arguments parse gets an assistant message of its own with id `call_n`
 * (n the history length before it), answered by the tool message right
 * after it under `call_{len - 1}`; new images the call produced follow as
 * one user message. Unlike chainlit_app/app.py, a chunk without choices
 * raises, a call whose arguments do not parse leaves no trace in the
 * history, and a cancellation is not caught.
 */
module ChatLoop {
  import opened Wrappers
  import opened Text
  import opened Messages
  import opened Stream
  import opened Workspace

  /**
   * Everything outside the loop. `before(r, i)` and `after(r, i)` list the
   * conversation folder around call i of request r (None: no folder).
   */
  datatype World = World(
    streams: seq<seq<Chunk>>,
    catalog: Catalog,
    sessions: set<string>,
    parse: string -> Result<Json, string>,
    reply: (nat, nat) -> Reply,
    show: seq<ContentItem> -> string,
    before: (nat, nat) -> Option<seq<string>>,
    after: (nat, nat) -> Option<seq<string>>,
    readable: string -> bool)

  /** How a turn ends; `CancelledTurn` is a cancellation escaping the loop. */
  datatype End = Done | Failed(error: string) | CancelledTurn | OutOfScript

  /** `f"call_{n}"` */
  function ChatCallId(n: nat): string
  {
    "call_" + NatToString(n)
  }

  lemma ChatCallIdInjective(m: nat, n: nat)
    requires ChatCallId(m) == ChatCallId(n)
    ensures m == n
  {
    assert NatToString(m) == ChatCallId(m)[5..];
    assert NatToString(n) == ChatCallId(n)[5..];
    NatToStringInjective(m, n);
  }

  function SetOf(s: seq<string>): (r: set<string>)
    ensures forall x :: x in r <==> x in s
  {
    set x | x in s
  }

  /** What `check_and_process_new_images` adds after call i: nothing, or one user message of image parts. */
  function ImagesAfter(w: World, round: nat, i: nat): (r: seq<Message>)
    ensures |r| <= 1 && (|r| == 1 ==> r[0].UserParts?)
  {
    match w.after(round, i)
    case None => []
    case Some(current) =>
      var existing := if w.before(round, i).None? then {} else SetOf(w.before(round, i).value);
      var order := NewImageOrder(existing, current);
      if order == [] then [] else [UserParts(ReadableParts(order, w.readable))]
  }

  /** How one tool call ends, before anything is appended to the history. */
  datatype StepKind =
    | ArgsUnparsed                                   // `json.loads` raised: the call is skipped
    | CallCancelled                                  // the cancellation escapes the loop
    | Answered(content: string, images: seq<Message>)  // the tool message, then the new images

  /** Only the as-written loop lets a cancellation through; the images are at most one plain user message. */
  predicate Fits(k: StepKind, answerCancel: bool)
  {
    && (k.CallCancelled? ==> !answerCancel)
    && (k.Answered? ==> |k.images| <= 1 && (|k.images| == 1 ==> k.images[0].UserParts?))
  }

  /**
   * The outcome of call i: its arguments parse or not, then `execute_tool`.
   * `answerCancel` selects the corrected behaviour, which answers a
   * cancelled call with a notice as chainlit_app/app.py does.
   */
  function Kind(w: World, round: nat, i: nat, call: Fragment, answerCancel: bool): (k: StepKind)
    ensures Fits(k, answerCancel)
  {
    match w.parse(call.arguments)
    case Err(_) => ArgsUnparsed
    case Ok(_) =>
      match ExecuteTool(w.catalog, w.sessions, call.name, w.reply(round, i))
      case CancelledError =>
        if answerCancel then Answered("Tool " + call.name + " was cancelled by user", ImagesAfter(w, round, i))
        else CallCancelled
      case Value(v) => Answered(FormatResult(v, w.show), ImagesAfter(w, round, i))
  }

  /** The assistant message recording a call: one call under `call_{len(history)}`. */
  function CallMessage(h: seq<Message>, call: Fragment): Message
  {
    AssistantCalls([CallRecord(ChatCallId(|h|), call.name, call.arguments)])
  }

  /** The outcomes of a round's calls, call i decided at index i. */
  function Kinds(w: World, round: nat, calls: seq<Fragment>, answerCancel: bool): (ks: seq<StepKind>)
    ensures |ks| == |calls|
    ensures forall i :: 0 <= i < |calls| ==> ks[i] == Kind(w, round, i, calls[i], answerCancel)
    ensures forall i :: 0 <= i < |ks| ==> Fits(ks[i], answerCancel)
  {
    seq(|calls|, i requires 0 <= i < |calls| => Kind(w, round, i, calls[i], answerCancel))
  }

  /** One tool call with outcome k: the history after it, and whether a cancellation ended the turn there. */
  function CallStep(h: seq<Message>, k: StepKind, call: Fragment): (seq<Message>, bool)
  {
    match k
    case ArgsUnparsed => (h, false)
    case CallCancelled => (h + [CallMessage(h, call)], true)
    case Answered(content, images) =>
      var h1 := h + [CallMessage(h, call)];
      (h1 + [ToolResult(ChatCallId(|h1| - 1), content)] + images, false)
  }

  /** The first n calls of the round, in order, stopping at a cancellation. */
  function Calls(kinds: seq<StepKind>, calls: seq<Fragment>, n: nat, h: seq<Message>): (seq<Message>, bool)
    requires n <= |kinds| && n <= |calls|
    decreases n
  {
    if n == 0 then (h, false)
    else
      var r := Calls(kinds, calls, n - 1, h);
      if r.1 then r else CallStep(r.0, kinds[n - 1], calls[n - 1])
  }

  /** The history and ending of a turn from request number `round` on. */
  function Turn(w: World, h: seq<Message>, round: nat, answerCancel: bool): (seq<Message>, End)
    decreases |w.streams| - round, 1
  {
    if round >= |w.streams| then (h, OutOfScript)
    else match Collect(w.streams[round], false)
      case Err(e) => (h, Failed(e))
      case Ok((text, calls)) =>
        var h1 := if IsBlank(text) then h else h + [AssistantText(text)];
        if |calls| == 0 then (h1, Done)
        else CallsRound(w, h1, round, calls, Kinds(w, round, calls, answerCancel), answerCancel)
  }

  /** The rest of a turn once request `round` streamed calls whose outcomes are `kinds`. */
  function CallsRound(w: World, h1: seq<Message>, round: nat, calls: seq<Fragment>, kinds: seq<StepKind>, answerCancel: bool): (seq<Message>, End)
    requires round < |w.streams| && |kinds| == |calls|
    decreases |w.streams| - round, 0
  {
    var (h2, aborted) := Calls(kinds, calls, |calls|, h1);
    if aborted then (h2, CancelledTurn) else Turn(w, h2, round + 1, answerCancel)
  }

  /** One call as ui/chat.py runs it. */
  method RunCall(w: World, round: nat, i: nat, call: Fragment, h0: seq<Message>) returns (h: seq<Message>, aborted: bool)
    ensures (h, aborted) == CallStep(h0, Kind(w, round, i, call, false), call)
  {
    h, aborted := h0, false;
    var existing: set<string> := if w.before(round, i).None? then {} else SetOf(w.before(round, i).value);
    if w.parse(call.arguments).Err? {
      assert Kind(w, round, i, call, false) == ArgsUnparsed;
      return;
    }
    h := h + [CallMessage(h, call)];
    var outcome := ExecuteTool(w.catalog, w.sessions, call.name, w.reply(round, i));
    if outcome.CancelledError? {
      assert Kind(w, round, i, call, false) == CallCancelled;
      assert (h, true) == CallStep(h0, CallCancelled, call);
      return h, true;
    }
    var content := FormatResult(outcome.value, w.show);
    h := h + [ToolResult(ChatCallId(|h| - 1), content)];
    h := CheckImages(w, round, i, existing, h);
    ghost var k := Answered(content, ImagesAfter(w, round, i));
    assert (h, false) == CallStep(h0, k, call);
    assert Kind(w, round, i, call, false) == k;
  }

  /** `check_and_process_new_images(existing_files)` after call i. */
  method CheckImages(w: World, round: nat, i: nat, existing: set<string>, h0: seq<Message>) returns (h: seq<Message>)
    requires existing == if w.before(round, i).None? then {} else SetOf(w.before(round, i).value)
    ensures h == h0 + ImagesAfter(w, round, i)
  {
    var current := w.after(round, i);
    var currentNames := if current.None? then [] else current.value;
    var order := NewImageOrder(existing, currentNames);
    h := CheckNewImages(current.Some?, existing, SetOf(currentNames), order, w.readable, h0);
    assert order == [] <==> NewImages(existing, SetOf(currentNames)) == {} by {
      if order != [] {
        assert order[0] in NewImages(existing, SetOf(currentNames));
      }
    }
  }

  /** The calls of one round, in order. */
  method RunCalls(w: World, round: nat, calls: seq<Fragment>, h0: seq<Message>) returns (h: seq<Message>, aborted: bool)
    ensures (h, aborted) == Calls(Kinds(w, round, calls, false), calls, |calls|, h0)
  {
    ghost var kinds := Kinds(w, round, calls, false);
    h, aborted := h0, false;
    var i := 0;
    while i < |calls|
      invariant 0 <= i <= |calls|
      invariant (h, false) == Calls(kinds, calls, i, h0)
    {
      ghost var before := h;
      h, aborted := RunCall(w, round, i, calls[i], h);
      assert (h, aborted) == CallStep(before, kinds[i], calls[i]);
      if aborted {
        AbortStays(kinds, calls, i + 1, |calls|, h0);
        return;
      }
      i := i + 1;
    }
  }

  /** Once a cancellation ended the round, later calls change nothing. */
  lemma {:induction false} AbortStays(kinds: seq<StepKind>, calls: seq<Fragment>, k: nat, n: nat, h0: seq<Message>)
    requires k <= n <= |kinds| && n <= |calls| && Calls(kinds, calls, k, h0).1
    ensures Calls(kinds, calls, n, h0) == Calls(kinds, calls, k, h0)
    decreases n
  {
    if n > k {
      AbortStays(kinds, calls, k, n - 1, h0);
    }
  }

  /** One request of the turn: either the turn ends here (`stop` holds how) or it goes on. */
  method RunRound(w: World, h0: seq<Message>, round: nat) returns (h: seq<Message>, stop: Option<End>)
    requires round < |w.streams|
    ensures stop.Some? ==> Turn(w, h0, round, false) == (h, stop.value)
    ensures stop.None? ==> Turn(w, h0, round, false) == Turn(w, h, round + 1, false)
  {
    var collected := CollectStream(w.streams[round], false);
    if collected.Err? {
      return h0, Some(Failed(collected.error));
    }
    var (text, calls) := collected.value;
    h := h0;
    if !IsBlank(text) {
      h := h + [AssistantText(text)];
    }
    if |calls| == 0 {
      return h, Some(Done);
    }
    var aborted;
    h, aborted := RunCalls(w, round, calls, h);
    stop := if aborted then Some(CancelledTurn) else None;
  }

  /** `process_llm_response` */
  method ProcessLlmResponse(w: World, history: seq<Message>) returns (h: seq<Message>, end: End)
    ensures (h, end) == Turn(w, history, 0, false)
  {
    h := history;
    var round := 0;
    while round < |w.streams|
      invariant Turn(w, h, round, false) == Turn(w, history, 0, false)
      decreases |w.streams| - round
    {
      var stop;
      h, stop := RunRound(w, h, round);
      if stop.Some? {
        return h, stop.value;
      }
      round := round + 1;
    }
    end := OutOfScript;
  }

  // The pairing of each call with the tool message after it.

  /** Position p holds a one-call assistant message `call_p`, answered at p + 1 under the same id. */
  ghost predicate AnsweredNext(h: seq<Message>, p: int)
  {
    && 0 <= p && p + 1 < |h|
    && h[p].AssistantCalls? && |h[p].calls| == 1 && h[p].calls[0].id == ChatCallId(p)
    && h[p + 1].ToolResult? && h[p + 1].toolCallId == ChatCallId(p)
  }

  /** If position p holds a call, it is answered right after it. */
  ghost predicate CallAnswered(h: seq<Message>, p: int)
    requires 0 <= p < |h|
  {
    h[p].AssistantCalls? ==> AnsweredNext(h, p)
  }

  /** If position q holds a tool message, it answers the call right before it, at or after `from`. */
  ghost predicate ToolAnswers(h: seq<Message>, from: nat, q: int)
    requires 0 <= q < |h|
  {
    h[q].ToolResult? ==> from < q && AnsweredNext(h, q - 1)
  }

  /** From position `from` on, every call is answered right after it and every tool message answers the call right before it. */
  ghost predicate Paired(h: seq<Message>, from: nat)
  {
    forall p :: from <= p < |h| ==> CallAnswered(h, p) && ToolAnswers(h, from, p)
  }

  lemma PairedEmpty(h: seq<Message>)
    ensures Paired(h, |h|)
  {
  }

  lemma PairedPlain(h: seq<Message>, from: nat, m: Message)
    requires Paired(h, from) && from <= |h| && !m.AssistantCalls? && !m.ToolResult?
    ensures Paired(h + [m], from)
  {
    var h' := h + [m];
    forall p | from <= p < |h'| ensures CallAnswered(h', p) && ToolAnswers(h', from, p) {
      if p < |h| {
        assert CallAnswered(h, p) && ToolAnswers(h, from, p);
        assert h'[p] == h[p];
        if h[p].AssistantCalls? { assert AnsweredNext(h, p); assert h'[p + 1] == h[p + 1]; }
        if h[p].ToolResult? { assert AnsweredNext(h, p - 1); assert h'[p - 1] == h[p - 1]; }
      }
    }
  }

  lemma PairedPair(h: seq<Message>, from: nat, call: Fragment, content: string)
    requires Paired(h, from) && from <= |h|
    ensures Paired(h + [AssistantCalls([CallRecord(ChatCallId(|h|), call.name, call.arguments)]), ToolResult(ChatCallId(|h|), content)], from)
  {
    var b := |h|;
    var h' := h + [AssistantCalls([CallRecord(ChatCallId(b), call.name, call.arguments)]), ToolResult(ChatCallId(b), content)];
    assert AnsweredNext(h', b);
    forall p | from <= p < |h'| ensures CallAnswered(h', p) && ToolAnswers(h', from, p) {
      if p < b {
        assert CallAnswered(h, p) && ToolAnswers(h, from, p);
        assert h'[p] == h[p];
        if h[p].AssistantCalls? { assert AnsweredNext(h, p); assert h'[p + 1] == h[p + 1]; }
        if h[p].ToolResult? { assert AnsweredNext(h, p - 1); assert h'[p - 1] == h[p - 1]; }
      }
    }
  }

  /** The images notice is plain: no call, no tool message. */
  lemma ImagesPlain(h: seq<Message>, images: seq<Message>, from: nat)
    requires Paired(h, from) && from <= |h|
    requires |images| <= 1 && (|images| == 1 ==> images[0].UserParts?)
    ensures Paired(h + images, from)
  {
    if images != [] {
      PairedPlain(h, from, images[0]);
      assert h + images == h + [images[0]];
    } else {
      assert h + images == h;
    }
  }

  /**
   * A call keeps the pairing, unless (as written) a cancellation ends the
   * turn with the call's assistant message left without its answer.
   */
  lemma CallStepPairs(h: seq<Message>, k: StepKind, call: Fragment, from: nat, answerCancel: bool)
    requires Paired(h, from) && from <= |h| && Fits(k, answerCancel)
    ensures StepShape(h, from, CallStep(h, k, call), CallMessage(h, call), answerCancel)
  {
    if k.Answered? {
      var pair := h + [CallMessage(h, call), ToolResult(ChatCallId(|h|), k.content)];
      assert h + [CallMessage(h, call)] + [ToolResult(ChatCallId(|h + [CallMessage(h, call)]| - 1), k.content)] == pair;
      PairedPair(h, from, call, k.content);
      ImagesPlain(pair, k.images, from);
      assert (pair + k.images)[..|h|] == h;
    } else if k.CallCancelled? {
      assert (h + [CallMessage(h, call)])[..|h|] == h;
    } else {
      assert h[..|h|] == h;
    }
  }

  /** What one call leaves after `h`: `h` kept, paired, unless a cancellation left only the call message `a`. */
  ghost predicate StepShape(h: seq<Message>, from: nat, r: (seq<Message>, bool), a: Message, answerCancel: bool)
  {
    && |h| <= |r.0| && r.0[..|h|] == h
    && (!r.1 ==> Paired(r.0, from))
    && (r.1 ==> !answerCancel && r.0 == h + [a])
  }

  /** What a run of calls leaves after `h`: `h` kept, paired, unless a cancellation left one unanswered call at the end. */
  ghost predicate CallsShape(h: seq<Message>, from: nat, r: (seq<Message>, bool), answerCancel: bool)
  {
    && |h| <= |r.0| && r.0[..|h|] == h
    && (!r.1 ==> Paired(r.0, from))
    && (r.1 ==> !answerCancel && |h| < |r.0| && Paired(r.0[..|r.0| - 1], from) && r.0[|r.0| - 1].AssistantCalls?)
  }

  /** One more call after a run that kept the pairing keeps the shape. */
  lemma CallsShapeStep(h: seq<Message>, r1: (seq<Message>, bool), r2: (seq<Message>, bool), a: Message, from: nat, answerCancel: bool)
    requires CallsShape(h, from, r1, answerCancel) && !r1.1
    requires StepShape(r1.0, from, r2, a, answerCancel) && a.AssistantCalls?
    ensures CallsShape(h, from, r2, answerCancel)
  {
    PrefixOfPrefix(h, r1.0, r2.0);
    if r2.1 {
      assert r2.0[..|r2.0| - 1] == r1.0;
    }
  }

  /** The call after a run of calls, skipped once the run was cancelled, keeps the shape of the run. */
  lemma CallsShapeNext(h: seq<Message>, r1: (seq<Message>, bool), k: StepKind, call: Fragment, from: nat, answerCancel: bool)
    requires CallsShape(h, from, r1, answerCancel) && from <= |h| && Fits(k, answerCancel)
    ensures CallsShape(h, from, if r1.1 then r1 else CallStep(r1.0, k, call), answerCancel)
  {
    if !r1.1 {
      CallStepPairs(r1.0, k, call, from, answerCancel);
      CallsShapeStep(h, r1, CallStep(r1.0, k, call), CallMessage(r1.0, call), from, answerCancel);
    }
  }

  /** The first n calls keep the pairing, up to a cancellation that leaves exactly one call unanswered at the end. */
  lemma {:induction false} CallsPair(kinds: seq<StepKind>, calls: seq<Fragment>, n: nat, h: seq<Message>, from: nat, answerCancel: bool)
    requires n <= |kinds| && n <= |calls| && Paired(h, from) && from <= |h|
    requires forall i :: 0 <= i < |kinds| ==> Fits(kinds[i], answerCancel)
    ensures CallsShape(h, from, Calls(kinds, calls, n, h), answerCancel)
    decreases n
  {
    if n > 0 {
      CallsPair(kinds, calls, n - 1, h, from, answerCancel);
      CallsShapeNext(h, Calls(kinds, calls, n - 1, h), kinds[n - 1], calls[n - 1], from, answerCancel);
    } else {
      assert h[..|h|] == h;
    }
  }

  /**
   * What a turn from history h leaves: h kept as a prefix; the pairing kept
   * from `from` on, except that a cancelled turn ends with one unanswered call.
   */
  ghost predicate KeepsPairing(h: seq<Message>, from: nat, r: (seq<Message>, End), answerCancel: bool)
  {
    && |h| <= |r.0| && r.0[..|h|] == h
    && (r.1 != CancelledTurn ==> Paired(r.0, from))
    && (r.1 == CancelledTurn ==> !answerCancel && |h| < |r.0| && Paired(r.0[..|r.0| - 1], from) && r.0[|r.0| - 1].AssistantCalls?)
  }

  /**
   * A turn that ends in any way but a cancellation leaves every new call
   * answered right after it under its own id; a cancelled turn (possible
   * only as written) leaves the paired history plus one unanswered call.
   */
  lemma {:induction false} TurnPairs(w: World, h: seq<Message>, round: nat, from: nat, answerCancel: bool)
    requires Paired(h, from) && from <= |h|
    ensures KeepsPairing(h, from, Turn(w, h, round, answerCancel), answerCancel)
    decreases |w.streams| - round, 1
  {
    if round < |w.streams| && Collect(w.streams[round], false).Ok? {
      var (text, calls) := Collect(w.streams[round], false).value;
      var h1 := if IsBlank(text) then h else h + [AssistantText(text)];
      if !IsBlank(text) {
        PairedPlain(h, from, AssistantText(text));
      }
      assert h1[..|h|] == h;
      if |calls| > 0 {
        var kinds := Kinds(w, round, calls, answerCancel);
        assert Turn(w, h, round, answerCancel) == CallsRound(w, h1, round, calls, kinds, answerCancel);
        CallsRoundPairs(w, h, h1, round, calls, kinds, from, answerCancel);
      }
    }
  }

  /** The rest of a turn after a round's calls keeps what TurnPairs promises, from the history before the round. */
  lemma {:induction false} CallsRoundPairs(w: World, h: seq<Message>, h1: seq<Message>, round: nat, calls: seq<Fragment>,
                                           kinds: seq<StepKind>, from: nat, answerCancel: bool)
    requires round < |w.streams| && |kinds| == |calls|
    requires forall i :: 0 <= i < |kinds| ==> Fits(kinds[i], answerCancel)
    requires Paired(h1, from) && from <= |h| <= |h1| && h1[..|h|] == h
    ensures KeepsPairing(h, from, CallsRound(w, h1, round, calls, kinds, answerCancel), answerCancel)
    decreases |w.streams| - round, 0
  {
    CallsPair(kinds, calls, |calls|, h1, from, answerCancel);
    var (h2, aborted) := Calls(kinds, calls, |calls|, h1);
    PrefixOfPrefix(h, h1, h2);
    if !aborted {
      assert CallsRound(w, h1, round, calls, kinds, answerCancel) == Turn(w, h2, round + 1, answerCancel);
      TurnPairs(w, h2, round + 1, from, answerCancel);
      KeepsPairingFromLonger(h, h2, from, Turn(w, h2, round + 1, answerCancel), answerCancel);
    }
  }

  /** What a turn keeps from a longer history it started from, it keeps from any prefix of that history. */
  lemma KeepsPairingFromLonger(h: seq<Message>, h2: seq<Message>, from: nat, r: (seq<Message>, End), answerCancel: bool)
    requires |h| <= |h2| && h2[..|h|] == h && KeepsPairing(h2, from, r, answerCancel)
    ensures KeepsPairing(h, from, r, answerCancel)
  {
    PrefixOfPrefix(h, h2, r.0);
  }

  lemma PrefixOfPrefix(a: seq<Message>, b: seq<Message>, c: seq<Message>)
    requires |a| <= |b| <= |c| && b[..|a|] == a && c[..|b|] == b
    ensures c[..|a|] == a
  {
    assert c[..|a|] == c[..|b|][..|a|];
  }

  /** The corrected loop never ends on a cancellation, and every call it records is answered right after it. */
  lemma CorrectedTurnPairs(w: World, h: seq<Message>)
    ensures var (h', end) := Turn(w, h, 0, true);
      end != CancelledTurn && |h| <= |h'| && h'[..|h|] == h && Paired(h', |h|)
  {
    PairedEmpty(h);
    TurnPairs(w, h, 0, |h|, true);
  }

  /** A request whose one streamed call `t({})` goes to a server that cancels it. */
  function CancelWorld(): World
  {
    World([[Delta("", [ToolCallDelta(0, "t", "{}")])]],
          [("s", [ToolInfo("t", None, JNull)])], {"s"},
          _ => Ok(JNull), (_, _) => Cancelled, _ => "",
          (_, _) => None, (_, _) => None, _ => true)
  }

  lemma CancelWorldStream()
    ensures Collect(CancelWorld().streams[0], false) == Ok(("", [Fragment("t", "{}")]))
  {
    var chunks := CancelWorld().streams[0];
    assert Deltas(chunks) == [ToolCallDelta(0, "t", "{}")];
    assert TextOf(chunks) == "";
    var ds := Deltas(chunks);
    assert ds[..0] == [];
    assert "" + "{}" == "{}";
    assert RunDeltas(ds) == ApplyDelta([], ds[0]);
    var none: seq<Fragment> := [];
    assert none + [Fragment("", "")] == [Fragment("", "")];
    assert [Fragment("", "")][0 := Fragment("t", "{}")] == [Fragment("t", "{}")];
    assert RunDeltas(ds) == Some([Fragment("t", "{}")]);
  }

  lemma CancelWorldStep()
    ensures Kind(CancelWorld(), 0, 0, Fragment("t", "{}"), false) == CallCancelled
  {
    var w := CancelWorld();
    assert Offers(w.catalog[0].1, "t");
    assert ResolveServer(w.catalog, "t") == Some(0);
    assert NatToString(0) == "0";
    assert ChatCallId(0) == "call_0";
    assert w.parse("{}") == Ok(JNull);
    assert ExecuteTool(w.catalog, w.sessions, "t", w.reply(0, 0)) == CancelledError;
  }

  /**
   * As written, one cancelled call leaves the history ending in an
   * assistant tool-call message that no tool message answers.
   */
  lemma CancelLeavesCallUnanswered()
    ensures Turn(CancelWorld(), [], 0, false) == ([AssistantCalls([CallRecord("call_0", "t", "{}")])], CancelledTurn)
    ensures !Paired(Turn(CancelWorld(), [], 0, false).0, 0)
  {
    var w := CancelWorld();
    CancelWorldStream();
    CancelWorldStep();
    var calls := [Fragment("t", "{}")];
    var h' := [AssistantCalls([CallRecord("call_0", "t", "{}")])];
    var kinds := Kinds(w, 0, calls, false);
    assert kinds[0] == CallCancelled;
    assert ChatCallId(0) == "call_0" by { assert NatToString(0) == "0"; }
    assert [] + [CallMessage([], calls[0])] == h';
    assert Calls(kinds, calls, 0, []) == ([], false);
    assert Calls(kinds, calls, 1, []) == (h', true);
    assert IsBlank("");
    assert Turn(w, [], 0, false) == (h', CancelledTurn);
    assert !AnsweredNext(h', 0);
    assert !CallAnswered(h', 0);
  }
}
