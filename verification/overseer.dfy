/**
 * chainlit_app/overseer.py: the supervisor model's inputs and outputs. The
 * tool trace compresses a conversation into tagged lines capped in length;
 * the report renderer turns the supervisor's JSON verdict into the text
 * shown to the user; a reply that is not JSON becomes a fixed verdict.
 */
module Overseer {
  import opened Wrappers
  import opened Text
  import PyDict
  import opened Messages

  /**
   * A history entry as the trace builder reads it: its `role` (None when
   * the key is missing), the text of its `content` (None when missing),
   * its `tool_calls` and its `tool_call_id`.
   */
  datatype Entry = Entry(role: Option<string>, content: Option<string>, toolCalls: seq<CallRecord>, toolCallId: Option<string>)

  /** Tool output longer than this is cut. */
  const ToolContentLimit := 1000
  const TruncationMark := "...[truncated]"
  /** `max_chars` when the caller gives none. */
  const DefaultMaxChars := 12000

  /** A tool output as it enters the trace: at most 1000 characters of it, marked when cut. */
  function Truncate(c: string): (r: string)
    ensures |c| <= ToolContentLimit ==> r == c
    ensures |c| > ToolContentLimit ==> |r| == ToolContentLimit + |TruncationMark| && r[..ToolContentLimit] == c[..ToolContentLimit] && r[ToolContentLimit..] == TruncationMark
  {
    if |c| > ToolContentLimit then c[..ToolContentLimit] + TruncationMark else c
  }

  function CallLine(c: CallRecord): string
  {
    "[assistant->tool_call] " + c.name + "(" + c.arguments + ")"
  }

  function CallLines(calls: seq<CallRecord>): (r: seq<string>)
    ensures |r| == |calls|
    ensures forall i :: 0 <= i < |calls| ==> r[i] == CallLine(calls[i])
  {
    seq(|calls|, i requires 0 <= i < |calls| => CallLine(calls[i]))
  }

  /** The lines one entry contributes: user, assistant and tool entries only. */
  function EntryLines(e: Entry): (r: seq<string>)
    ensures e.role != Some("user") && e.role != Some("assistant") && e.role != Some("tool") ==> r == []
    ensures e.role == Some("user") || e.role == Some("tool") ==> |r| == 1
    ensures e.role == Some("assistant") ==>
      |r| == |e.toolCalls| + (if e.content.Some? && e.content.value != "" then 1 else 0)
  {
    match e.role
    case Some(role) =>
      if role == "user" then ["[user] " + (if e.content.Some? then e.content.value else "")]
      else if role == "assistant" then
        (if e.content.Some? && e.content.value != "" then ["[assistant] " + e.content.value] else [])
        + CallLines(e.toolCalls)
      else if role == "tool" then
        ["[tool#" + (if e.toolCallId.Some? then e.toolCallId.value else "") + "] "
          + Truncate(if e.content.Some? then e.content.value else "")]
      else []
    case None => []
  }

  /** The trace lines of a history, entry by entry. */
  function TraceLines(h: seq<Entry>): seq<string>
  {
    if |h| == 0 then [] else TraceLines(h[..|h| - 1]) + EntryLines(h[|h| - 1])
  }

  /** Lines keep history order: the trace of a concatenation is the concatenation of the traces. */
  lemma {:induction false} TraceLinesAppend(h1: seq<Entry>, h2: seq<Entry>)
    ensures TraceLines(h1 + h2) == TraceLines(h1) + TraceLines(h2)
    decreases |h2|
  {
    if |h2| > 0 {
      var init := h2[..|h2| - 1];
      assert (h1 + h2)[..|h1 + h2| - 1] == h1 + init;
      TraceLinesAppend(h1, init);
    } else {
      assert h1 + h2 == h1;
    }
  }

  /** Entries of any other role (system prompts, for one) leave the trace as it is. */
  lemma OtherRolesIgnored(h1: seq<Entry>, e: Entry, h2: seq<Entry>)
    requires e.role != Some("user") && e.role != Some("assistant") && e.role != Some("tool")
    ensures TraceLines(h1 + [e] + h2) == TraceLines(h1 + h2)
  {
    TraceLinesAppend(h1 + [e], h2);
    TraceLinesAppend(h1, [e]);
    TraceLinesAppend(h1, h2);
    TraceLinesSingle(e);
    assert EntryLines(e) == [];
    assert TraceLines(h1) + [] == TraceLines(h1);
  }

  lemma TraceLinesSingle(e: Entry)
    ensures TraceLines([e]) == EntryLines(e)
  {
    assert [e][..0] == [];
  }

  /** Python's `s[start:]` for any integer start: negative counts from the end, both ends clamped. */
  function SliceFrom(s: string, start: int): (r: string)
    ensures |r| <= |s| && r == s[|s| - |r|..]
    ensures start >= 0 ==> |r| == if start <= |s| then |s| - start else 0
    ensures start < 0 ==> |r| == if -start <= |s| then -start else |s|
  {
    if start >= 0 then (if start <= |s| then s[start..] else "")
    else if -start <= |s| then s[|s| + start..]
    else s
  }

  /** Lines 92-93 as written: a trace longer than `max_chars` becomes `trace[-max_chars:]`. */
  function TailAsWritten(trace: string, maxChars: int): (r: string)
  {
    if |trace| > maxChars then SliceFrom(trace, -maxChars) else trace
  }

  /** The intended cap: a trace that fits is kept, a longer one keeps its last `max_chars` characters (none for a limit below one). */
  function Tail(trace: string, maxChars: int): (r: string)
    ensures |r| <= |trace| && r == trace[|trace| - |r|..]
    ensures |trace| <= maxChars ==> r == trace
    ensures |trace| > maxChars ==> |r| == if maxChars < 0 then 0 else maxChars
  {
    if |trace| <= maxChars then trace
    else if maxChars <= 0 then ""
    else trace[|trace| - maxChars..]
  }

  /** For every positive limit the code does what is intended: the result is never longer than the limit. */
  lemma TailAgrees(trace: string, maxChars: int)
    requires maxChars >= 1
    ensures TailAsWritten(trace, maxChars) == Tail(trace, maxChars)
    ensures |TailAsWritten(trace, maxChars)| <= maxChars
  {
  }

  /** A limit of zero: `trace[-0:]` is `trace[0:]`, so a non-empty trace comes back whole. */
  lemma ZeroLimitKeepsWholeTrace(trace: string)
    requires |trace| > 0
    ensures TailAsWritten(trace, 0) == trace
    ensures |TailAsWritten(trace, 0)| > 0 && Tail(trace, 0) == ""
  {
  }

  /** The trace `build_tool_trace` returns: the joined lines, cut to `trace[-max_chars:]` when longer than `max_chars`. */
  function ToolTrace(h: seq<Entry>, maxChars: int): (r: string)
  {
    TailAsWritten(Join(TraceLines(h), "\n"), maxChars)
  }

  /** The inner loop over an assistant entry's `tool_calls`: one line per call, in order. */
  method AppendCalls(buf: seq<string>, calls: seq<CallRecord>) returns (buf': seq<string>)
    ensures buf' == buf + CallLines(calls)
  {
    buf' := buf;
    var j := 0;
    while j < |calls|
      invariant 0 <= j <= |calls|
      invariant buf' == buf + CallLines(calls[..j])
    {
      assert CallLines(calls[..j + 1]) == CallLines(calls[..j]) + [CallLine(calls[j])];
      buf' := buf' + [CallLine(calls[j])];
      j := j + 1;
    }
    assert calls[..j] == calls;
  }

  /** One pass of the loop over the history: the lines of one entry are appended to `buf`. */
  method AppendEntry(buf: seq<string>, e: Entry) returns (buf': seq<string>)
    ensures buf' == buf + EntryLines(e)
  {
    buf' := buf;
    if e.role == Some("user") {
      buf' := buf' + ["[user] " + (if e.content.Some? then e.content.value else "")];
    } else if e.role == Some("assistant") {
      ghost var text := if e.content.Some? && e.content.value != "" then ["[assistant] " + e.content.value] else [];
      if e.content.Some? && e.content.value != "" {
        buf' := buf' + ["[assistant] " + e.content.value];
      }
      assert buf' == buf + text;
      buf' := AppendCalls(buf', e.toolCalls);
      assert EntryLines(e) == text + CallLines(e.toolCalls);
    } else if e.role == Some("tool") {
      var tcid := if e.toolCallId.Some? then e.toolCallId.value else "";
      var content := if e.content.Some? then e.content.value else "";
      if |content| > ToolContentLimit {
        content := content[..ToolContentLimit] + TruncationMark;
      }
      assert content == Truncate(if e.content.Some? then e.content.value else "");
      buf' := buf' + ["[tool#" + tcid + "] " + content];
    } else {
      assert EntryLines(e) == [];
    }
  }

  /** `build_tool_trace`: collect the lines in history order, join them, then cap the length. */
  method BuildToolTrace(h: seq<Entry>, maxChars: int) returns (trace: string)
    ensures trace == ToolTrace(h, maxChars)
  {
    var buf: seq<string> := [];
    var i := 0;
    while i < |h|
      invariant 0 <= i <= |h|
      invariant buf == TraceLines(h[..i])
    {
      assert h[..i + 1][..i] == h[..i];
      buf := AppendEntry(buf, h[i]);
      i := i + 1;
    }
    assert h[..i] == h;
    trace := Join(buf, "\n");
    if |trace| > maxChars {
      trace := SliceFrom(trace, -maxChars);
    }
  }

  /** The trace `run_overseer` sends, with the default limit: never more than 12000 characters, the latest ones kept, as the intended cap gives it. */
  lemma DefaultTraceBounded(h: seq<Entry>)
    ensures var full := Join(TraceLines(h), "\n");
      var t := ToolTrace(h, DefaultMaxChars);
      && |t| <= DefaultMaxChars
      && t == full[|full| - |t|..]
      && (|full| <= DefaultMaxChars ==> t == full)
      && t == Tail(full, DefaultMaxChars)
  {
    var full := Join(TraceLines(h), "\n");
    TailAgrees(full, DefaultMaxChars);
    assert ToolTrace(h, DefaultMaxChars) == TailAsWritten(full, DefaultMaxChars);
  }

  /** `get_overseer_model_setting`: the base settings with model and temperature replaced and `stream` removed. */
  function OverseerModelSetting(): (s: Settings)
  {
    PyDict.Del(PyDict.Put(PyDict.Put(ModelSetting(), "model", SText("gpt-4o-mini")), "temperature", SDecimal("0.2")), "stream")
  }

  /** The supervisor is asked without streaming, with gpt-4o-mini at temperature 0.2. */
  lemma OverseerModelSettingSpec()
    ensures var s := OverseerModelSetting();
      && PyDict.Valid(s)
      && !PyDict.Has(s, "stream")
      && PyDict.Has(s, "model") && PyDict.Get(s, "model") == SText("gpt-4o-mini")
      && PyDict.Has(s, "temperature") && PyDict.Get(s, "temperature") == SDecimal("0.2")
  {
    var s0 := ModelSetting();
    PyDict.PutSpec(s0, "model", SText("gpt-4o-mini"));
    var s1 := PyDict.Put(s0, "model", SText("gpt-4o-mini"));
    PyDict.PutSpec(s1, "temperature", SDecimal("0.2"));
    var s2 := PyDict.Put(s1, "temperature", SDecimal("0.2"));
    PyDict.DelSpec(s2, "stream");
  }

  /** One `tried_paths` element; `why` may be missing. */
  datatype TriedPath = TriedPath(approach: string, result: string, why: Option<string>)

  /** One `next_actions` element; `proposed_tool` and `proposed_args` are shown as their `str`, `None` when missing. */
  datatype NextAction = NextAction(rationale: string, proposedTool: Option<string>, proposedArgs: Option<string>)

  /** `loop_or_blocker_detected` */
  datatype LoopInfo = LoopInfo(detected: bool, reason: Option<string>, suggestion: Option<string>)

  /**
   * A supervisor verdict. Text fields are shown only when truthy, so an
   * empty and a missing one are the same here (""); `status` is shown as
   * `None` when missing.
   */
  datatype Report = Report(
    status: Option<string>,
    progressSummary: string,
    missing: seq<string>,
    tried: seq<TriedPath>,
    nextActions: seq<NextAction>,
    loopOrBlocker: Option<LoopInfo>,
    askUser: string,
    finalRecommendation: string)

  /** `str(x)` for an optional string: the string, or `None`. */
  function Show(o: Option<string>): string
  {
    if o.Some? then o.value else "None"
  }

  /** The verdict `run_overseer` returns when the reply is not JSON. */
  function FallbackReport(): (r: Report)
    ensures r.status == Some("terminate")
    ensures r.loopOrBlocker.Some? && r.loopOrBlocker.value.detected && r.loopOrBlocker.value.reason == Some("invalid_json")
    ensures r.missing == [] && r.tried == [] && r.nextActions == [] && r.askUser == ""
  {
    Report(Some("terminate"), "Overseer 回傳非 JSON，無法解析。", [], [], [],
      Some(LoopInfo(true, Some("invalid_json"), Some("請重新嘗試"))), "", "請求使用者或系統重試 Overseer 程序。")
  }

  /** The end of `run_overseer`: the parsed reply, or the fallback when there is no content or it does not parse. */
  function OverseerVerdict(content: Option<string>, parse: string -> Option<Report>): (r: Report)
    ensures content.Some? && parse(content.value).Some? ==> r == parse(content.value).value
    ensures content.None? || parse(content.value).None? ==> r == FallbackReport()
  {
    if content.Some? && parse(content.value).Some? then parse(content.value).value else FallbackReport()
  }

  const StatusHead := "🔎 Overseer 狀態："
  const SummaryHead := "📌 進度總結："
  const MissingHead := "🧭 尚未完成/遺漏的子任務："
  const TriedHead := "🧪 已嘗試方法："
  const NextHead := "➡️ 建議的下一步："
  const LoopHead := "⚠️ 阻塞/死循環偵測："
  const AskHead := "🙋 需要使用者補充："
  const FinalHead := "🧭 給使用者的最終建議："
  const Bullet := "  - "

  function TriedLine(p: TriedPath): string
  {
    Bullet + p.approach + " → " + p.result + "（原因：" + (if p.why.Some? then p.why.value else "") + "）"
  }

  function ActionLine(a: NextAction): string
  {
    Bullet + a.rationale + " | tool: " + Show(a.proposedTool) + " args: " + Show(a.proposedArgs)
  }

  function MissingLines(ms: seq<string>): (r: seq<string>)
    ensures |r| == |ms| && forall i :: 0 <= i < |ms| ==> r[i] == Bullet + ms[i]
  {
    seq(|ms|, i requires 0 <= i < |ms| => Bullet + ms[i])
  }

  function TriedLines(ps: seq<TriedPath>): (r: seq<string>)
    ensures |r| == |ps| && forall i :: 0 <= i < |ps| ==> r[i] == TriedLine(ps[i])
  {
    seq(|ps|, i requires 0 <= i < |ps| => TriedLine(ps[i]))
  }

  function ActionLines(as_: seq<NextAction>): (r: seq<string>)
    ensures |r| == |as_| && forall i :: 0 <= i < |as_| ==> r[i] == ActionLine(as_[i])
  {
    seq(|as_|, i requires 0 <= i < |as_| => ActionLine(as_[i]))
  }

  /** A heading followed by its items, or nothing when there are none. */
  function Section(head: string, items: seq<string>): seq<string>
  {
    if |items| > 0 then [head] + items else []
  }

  function LineIf(cond: bool, line: string): seq<string>
  {
    if cond then [line] else []
  }

  function LoopLine(lp: LoopInfo): string
  {
    LoopHead + Show(lp.reason) + " → 建議：" + Show(lp.suggestion)
  }

  function LoopLines(r: Report): seq<string>
  {
    if LoopDetected(r) then [LoopLine(r.loopOrBlocker.value)] else []
  }

  predicate LoopDetected(r: Report)
  {
    r.loopOrBlocker.Some? && r.loopOrBlocker.value.detected
  }

  /** The lines `render_overseer_for_user` joins. */
  function RenderLines(r: Report): seq<string>
  {
    [StatusHead + Show(r.status)]
    + LineIf(r.progressSummary != "", SummaryHead + r.progressSummary)
    + Section(MissingHead, MissingLines(r.missing))
    + Section(TriedHead, TriedLines(r.tried))
    + Section(NextHead, ActionLines(r.nextActions))
    + LoopLines(r)
    + LineIf(r.askUser != "", AskHead + r.askUser)
    + LineIf(r.finalRecommendation != "", FinalHead + r.finalRecommendation)
  }

  /** The loop over `missing_or_interrupted_subtasks`, behind its heading. */
  method AppendMissing(lines: seq<string>, ms: seq<string>) returns (lines': seq<string>)
    ensures lines' == lines + Section(MissingHead, MissingLines(ms))
  {
    lines' := lines;
    if |ms| > 0 {
      lines' := lines' + [MissingHead];
      ghost var before := lines';
      for i := 0 to |ms|
        invariant lines' == before + MissingLines(ms[..i])
      {
        assert MissingLines(ms[..i + 1]) == MissingLines(ms[..i]) + [Bullet + ms[i]];
        lines' := lines' + [Bullet + ms[i]];
      }
      assert ms[..|ms|] == ms;
    }
  }

  /** The loop over `tried_paths`, behind its heading. */
  method AppendTried(lines: seq<string>, ps: seq<TriedPath>) returns (lines': seq<string>)
    ensures lines' == lines + Section(TriedHead, TriedLines(ps))
  {
    lines' := lines;
    if |ps| > 0 {
      lines' := lines' + [TriedHead];
      ghost var before := lines';
      for i := 0 to |ps|
        invariant lines' == before + TriedLines(ps[..i])
      {
        assert TriedLines(ps[..i + 1]) == TriedLines(ps[..i]) + [TriedLine(ps[i])];
        lines' := lines' + [TriedLine(ps[i])];
      }
      assert ps[..|ps|] == ps;
    }
  }

  /** The loop over `next_actions`, behind its heading. */
  method AppendActions(lines: seq<string>, as_: seq<NextAction>) returns (lines': seq<string>)
    ensures lines' == lines + Section(NextHead, ActionLines(as_))
  {
    lines' := lines;
    if |as_| > 0 {
      lines' := lines' + [NextHead];
      ghost var before := lines';
      for i := 0 to |as_|
        invariant lines' == before + ActionLines(as_[..i])
      {
        assert ActionLines(as_[..i + 1]) == ActionLines(as_[..i]) + [ActionLine(as_[i])];
        lines' := lines' + [ActionLine(as_[i])];
      }
      assert as_[..|as_|] == as_;
    }
  }

  /** `render_overseer_for_user`, appending line by line as the source does. */
  method RenderOverseerForUser(r: Report) returns (text: string)
    ensures text == Join(RenderLines(r), "\n")
  {
    var lines := [StatusHead + Show(r.status)];
    if r.progressSummary != "" {
      lines := lines + [SummaryHead + r.progressSummary];
    }
    ghost var l1 := lines;
    lines := AppendMissing(lines, r.missing);
    ghost var l2 := lines;
    lines := AppendTried(lines, r.tried);
    ghost var l3 := lines;
    lines := AppendActions(lines, r.nextActions);
    ghost var l4 := lines;
    if r.loopOrBlocker.Some? && r.loopOrBlocker.value.detected {
      lines := lines + [LoopLine(r.loopOrBlocker.value)];
    }
    ghost var l5 := lines;
    if r.askUser != "" {
      lines := lines + [AskHead + r.askUser];
    }
    ghost var l6 := lines;
    if r.finalRecommendation != "" {
      lines := lines + [FinalHead + r.finalRecommendation];
    }
    assert l1 == [StatusHead + Show(r.status)] + LineIf(r.progressSummary != "", SummaryHead + r.progressSummary);
    assert l5 == l4 + LoopLines(r);
    assert l6 == l5 + LineIf(r.askUser != "", AskHead + r.askUser);
    assert lines == l6 + LineIf(r.finalRecommendation != "", FinalHead + r.finalRecommendation);
    text := Join(lines, "\n");
  }

  /** Some line of `lines` begins with `p`. */
  predicate HasLine(lines: seq<string>, p: string)
  {
    exists i :: 0 <= i < |lines| && StartsWith(lines[i], p)
  }

  /** Every line begins with one of `heads`. */
  ghost predicate Leads(lines: seq<string>, heads: set<string>)
  {
    forall i :: 0 <= i < |lines| ==> LedBy(lines[i], heads)
  }

  ghost predicate LedBy(l: string, heads: set<string>)
  {
    exists h :: h in heads && StartsWith(l, h)
  }

  /** Two prefixes no line can both begin with: they differ in their first or third character. */
  predicate Clash(h: string, p: string)
  {
    (|h| > 0 && |p| > 0 && h[0] != p[0]) || (|h| > 2 && |p| > 2 && h[2] != p[2])
  }

  lemma NoLineLedBy(lines: seq<string>, heads: set<string>, p: string)
    requires Leads(lines, heads)
    requires forall h :: h in heads ==> Clash(h, p)
    ensures !HasLine(lines, p)
  {
    forall i | 0 <= i < |lines| ensures !StartsWith(lines[i], p) {
      var h :| h in heads && StartsWith(lines[i], h);
      assert Clash(h, p);
    }
  }

  lemma LeadsConcat(a: seq<string>, b: seq<string>, heads: set<string>)
    requires Leads(a, heads) && Leads(b, heads)
    ensures Leads(a + b, heads)
  {
    forall i | 0 <= i < |a + b| ensures LedBy((a + b)[i], heads) {
      if i < |a| {
        assert LedBy(a[i], heads);
        assert (a + b)[i] == a[i];
      } else {
        assert LedBy(b[i - |a|], heads);
        assert (a + b)[i] == b[i - |a|];
      }
    }
  }

  lemma LeadsOne(h: string, x: string, heads: set<string>)
    requires h in heads
    ensures Leads([h + x], heads)
  {
    assert StartsWith([h + x][0], h) by {
      assert (h + x)[..|h|] == h;
    }
  }

  lemma LeadsSection(head: string, items: seq<string>, heads: set<string>)
    requires head in heads && Bullet in heads
    requires forall i :: 0 <= i < |items| ==> StartsWith(items[i], Bullet)
    ensures Leads(Section(head, items), heads)
  {
    if |items| > 0 {
      LeadsOne(head, "", heads);
      assert head + "" == head;
      assert Leads(items, heads) by {
        forall i | 0 <= i < |items| ensures LedBy(items[i], heads) {
          assert StartsWith(items[i], Bullet);
        }
      }
      LeadsConcat([head], items, heads);
    }
  }

  lemma BulletLeads(ms: seq<string>, ps: seq<TriedPath>, as_: seq<NextAction>)
    ensures forall i :: 0 <= i < |ms| ==> StartsWith(MissingLines(ms)[i], Bullet)
    ensures forall i :: 0 <= i < |ps| ==> StartsWith(TriedLines(ps)[i], Bullet)
    ensures forall i :: 0 <= i < |as_| ==> StartsWith(ActionLines(as_)[i], Bullet)
  {
    forall i | 0 <= i < |ms| ensures StartsWith(MissingLines(ms)[i], Bullet) {
      BulletPrefix(ms[i]);
    }
    forall i | 0 <= i < |ps| ensures StartsWith(TriedLines(ps)[i], Bullet) {
      var p := ps[i];
      BulletPrefix(p.approach + " → " + p.result + "（原因：" + (if p.why.Some? then p.why.value else "") + "）");
    }
    forall i | 0 <= i < |as_| ensures StartsWith(ActionLines(as_)[i], Bullet) {
      var a := as_[i];
      BulletPrefix(a.rationale + " | tool: " + Show(a.proposedTool) + " args: " + Show(a.proposedArgs));
    }
  }

  lemma BulletPrefix(rest: string)
    ensures StartsWith(Bullet + rest, Bullet)
  {
    assert (Bullet + rest)[..|Bullet|] == Bullet;
  }

  lemma HasLineConcat(a: seq<string>, b: seq<string>, p: string)
    ensures HasLine(a + b, p) <==> HasLine(a, p) || HasLine(b, p)
  {
    if HasLine(a, p) {
      var i :| 0 <= i < |a| && StartsWith(a[i], p);
      assert (a + b)[i] == a[i];
    }
    if HasLine(b, p) {
      var i :| 0 <= i < |b| && StartsWith(b[i], p);
      assert (a + b)[|a| + i] == b[i];
    }
    if HasLine(a + b, p) {
      var i :| 0 <= i < |a + b| && StartsWith((a + b)[i], p);
      if i < |a| {
        assert (a + b)[i] == a[i];
      } else {
        assert (a + b)[i] == b[i - |a|];
      }
    }
  }

  /** The eight groups of lines of a rendered verdict, in order. */
  function RenderParts(r: Report): (parts: seq<seq<string>>)
    ensures |parts| == 8
  {
    [ [StatusHead + Show(r.status)],
      LineIf(r.progressSummary != "", SummaryHead + r.progressSummary),
      Section(MissingHead, MissingLines(r.missing)),
      Section(TriedHead, TriedLines(r.tried)),
      Section(NextHead, ActionLines(r.nextActions)),
      LoopLines(r),
      LineIf(r.askUser != "", AskHead + r.askUser),
      LineIf(r.finalRecommendation != "", FinalHead + r.finalRecommendation) ]
  }

  function Flatten(parts: seq<seq<string>>): seq<string>
  {
    if |parts| == 0 then [] else Flatten(parts[..|parts| - 1]) + parts[|parts| - 1]
  }

  lemma RenderIsParts(r: Report)
    ensures RenderLines(r) == Flatten(RenderParts(r))
  {
    var ps := RenderParts(r);
    assert Flatten(ps[..1]) == ps[0] by { assert ps[..1][..0] == []; }
    assert Flatten(ps[..2]) == Flatten(ps[..1]) + ps[1] by { assert ps[..2][..1] == ps[..1]; }
    assert Flatten(ps[..3]) == Flatten(ps[..2]) + ps[2] by { assert ps[..3][..2] == ps[..2]; }
    assert Flatten(ps[..4]) == Flatten(ps[..3]) + ps[3] by { assert ps[..4][..3] == ps[..3]; }
    assert Flatten(ps[..5]) == Flatten(ps[..4]) + ps[4] by { assert ps[..5][..4] == ps[..4]; }
    assert Flatten(ps[..6]) == Flatten(ps[..5]) + ps[5] by { assert ps[..6][..5] == ps[..5]; }
    assert Flatten(ps[..7]) == Flatten(ps[..6]) + ps[6] by { assert ps[..7][..6] == ps[..6]; }
    assert Flatten(ps) == Flatten(ps[..7]) + ps[7] by { assert ps[..7] == ps[..|ps| - 1]; }
  }

  /** A line begins with `p` in a flattened list exactly when it does in one of the groups. */
  lemma {:induction false} HasLineFlatten(parts: seq<seq<string>>, p: string)
    ensures HasLine(Flatten(parts), p) <==> exists k :: 0 <= k < |parts| && HasLine(parts[k], p)
  {
    if |parts| > 0 {
      var init := parts[..|parts| - 1];
      HasLineFlatten(init, p);
      HasLineConcat(Flatten(init), parts[|parts| - 1], p);
      if exists k :: 0 <= k < |parts| && HasLine(parts[k], p) {
        var k :| 0 <= k < |parts| && HasLine(parts[k], p);
        if k < |parts| - 1 {
          assert init[k] == parts[k];
        }
      }
      if exists k :: 0 <= k < |init| && HasLine(init[k], p) {
        var k :| 0 <= k < |init| && HasLine(init[k], p);
        assert parts[k] == init[k];
      }
    }
  }

  /** What lines each group can begin with. */
  function PartHeads(k: nat): set<string>
  {
    if k == 0 then {StatusHead}
    else if k == 1 then {SummaryHead}
    else if k == 2 then {MissingHead, Bullet}
    else if k == 3 then {TriedHead, Bullet}
    else if k == 4 then {NextHead, Bullet}
    else if k == 5 then {LoopHead}
    else if k == 6 then {AskHead}
    else {FinalHead}
  }

  lemma PartsLed(r: Report, k: nat)
    requires k < 8
    ensures Leads(RenderParts(r)[k], PartHeads(k))
  {
    var ps := RenderParts(r);
    BulletLeads(r.missing, r.tried, r.nextActions);
    if k == 0 {
      LeadsOne(StatusHead, Show(r.status), PartHeads(k));
    } else if k == 1 {
      if r.progressSummary != "" { LeadsOne(SummaryHead, r.progressSummary, PartHeads(k)); }
    } else if k == 2 {
      LeadsSection(MissingHead, MissingLines(r.missing), PartHeads(k));
    } else if k == 3 {
      LeadsSection(TriedHead, TriedLines(r.tried), PartHeads(k));
    } else if k == 4 {
      LeadsSection(NextHead, ActionLines(r.nextActions), PartHeads(k));
    } else if k == 5 {
      if LoopDetected(r) {
        var lp := r.loopOrBlocker.value;
        assert LoopLine(lp) == LoopHead + (Show(lp.reason) + " → 建議：" + Show(lp.suggestion));
        LeadsOne(LoopHead, Show(lp.reason) + " → 建議：" + Show(lp.suggestion), PartHeads(k));
      }
    } else if k == 6 {
      if r.askUser != "" { LeadsOne(AskHead, r.askUser, PartHeads(k)); }
    } else {
      if r.finalRecommendation != "" { LeadsOne(FinalHead, r.finalRecommendation, PartHeads(k)); }
    }
  }

  /** No line of group `k` begins with the heading of another group. */
  lemma OnlyPartLeads(r: Report, k: nat, p: string, own: nat)
    requires k < 8 && 1 <= own < 8 && k != own
    requires p == Heading(own)
    ensures !HasLine(RenderParts(r)[k], p)
  {
    PartsLed(r, k);
    NoLineLedBy(RenderParts(r)[k], PartHeads(k), p);
  }

  function Heading(own: nat): string
    requires own < 8
  {
    [StatusHead, SummaryHead, MissingHead, TriedHead, NextHead, LoopHead, AskHead, FinalHead][own]
  }

  /** A heading other than the status begins a line exactly when its own group is not empty. */
  lemma HeadingIff(r: Report, own: nat)
    requires 1 <= own < 8
    ensures HasLine(RenderLines(r), Heading(own)) <==> |RenderParts(r)[own]| > 0
  {
    RenderIsParts(r);
    var ps := RenderParts(r);
    var p := Heading(own);
    HasLineFlatten(ps, p);
    forall k | 0 <= k < 8 && k != own
      ensures !HasLine(ps[k], p)
    {
      OnlyPartLeads(r, k, p, own);
    }
    PartsLed(r, own);
    if |ps[own]| > 0 {
      assert StartsWith(ps[own][0], p);
    }
  }

  /**
   * The rendered verdict always opens with its status, and every other
   * section appears exactly when its field is truthy; the loop warning
   * appears exactly when a loop or blocker was detected.
   */
  lemma RenderSections(r: Report)
    ensures RenderLines(r)[0] == StatusHead + Show(r.status)
    ensures HasLine(RenderLines(r), SummaryHead) <==> r.progressSummary != ""
    ensures HasLine(RenderLines(r), MissingHead) <==> |r.missing| > 0
    ensures HasLine(RenderLines(r), TriedHead) <==> |r.tried| > 0
    ensures HasLine(RenderLines(r), NextHead) <==> |r.nextActions| > 0
    ensures HasLine(RenderLines(r), LoopHead) <==> LoopDetected(r)
    ensures HasLine(RenderLines(r), AskHead) <==> r.askUser != ""
    ensures HasLine(RenderLines(r), FinalHead) <==> r.finalRecommendation != ""
  {
    HeadingIff(r, 1);
    HeadingIff(r, 2);
    HeadingIff(r, 3);
    HeadingIff(r, 4);
    HeadingIff(r, 5);
    HeadingIff(r, 6);
    HeadingIff(r, 7);
  }

  /** A reply that is not JSON is shown as four lines: status terminate, its summary, the invalid-JSON warning and the retry advice. */
  lemma FallbackRendering()
    ensures RenderLines(FallbackReport()) == [
      StatusHead + "terminate",
      SummaryHead + "Overseer 回傳非 JSON，無法解析。",
      LoopHead + "invalid_json → 建議：請重新嘗試",
      FinalHead + "請求使用者或系統重試 Overseer 程序。"]
  {
    var r := FallbackReport();
    assert LoopLine(r.loopOrBlocker.value) == LoopHead + "invalid_json → 建議：請重新嘗試";
  }
}
