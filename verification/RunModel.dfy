/** One agent's run, folded from its event stream (tui_kit/run_model.py,
    tui_kit/contracts.py). */
module RunModel {
  import opened Options

  const TEXT_CAP := 8000
  const SUMMARY_CAP := 120
  const PREVIEW_CAP := 200

  datatype ToolStatus = Running | Done | Failed

  datatype Block =
    | Prose(agent: string, text: string)
    | Thinking(agent: string, text: string)
    | Call(agent: string, index: int, model: string, finished: bool, duration: real)
    | Tool(agent: string, tool: string, input: string, status: ToolStatus, duration: real, error: string,
           summary: Option<string>, repeats: nat, delegate: string, preview: string, sequence: int)

  datatype RunStatus = Idle | Live | Ended | Crashed

  datatype RunState = RunState(
    status: RunStatus,
    runId: string,
    agent: string,
    startedAt: real,
    endedAt: real,
    tokens: int,
    blocks: seq<Block>,
    prompt: string,
    model: string,
    callIndex: int,
    error: string,
    attached: bool,
    lastKind: string)

  const NO_RUN := RunState(Idle, "", "", 0.0, 0.0, 0, [], "", "", 0, "", true, "")

  datatype Item =
    | TokenDelta(run: string, agent: string, text: string, kind: string)
    | ToolSummaryReady(run: string, agent: string, tool: string, input: string, summary: string)
    | RunStarted(run: string, agent: string)
    | RunFinished(run: string, agent: string)
    | RunFailed(run: string, agent: string, errorType: string, message: string)
    | LLMCallStarted(run: string, agent: string, index: int, model: string, prompt: string)
    | LLMCallFinished(run: string, agent: string, duration: real, tokens: int)
    | ToolCallStarted(run: string, agent: string, tool: string, input: string, delegate: string)
    | ToolCallFinished(run: string, agent: string, tool: string, duration: real, output: string, input: string, sequence: int)
    | ToolCallFailed(run: string, agent: string, tool: string, duration: real, errorType: string, input: string, sequence: int)
    | Unknown(agent: string)   // any other object; an empty agent if it has none

  /** An item and the clock reading it is folded at. */
  datatype Timed = Timed(item: Item, now: real)

  /** How much of a text block is kept: all of it, or its last characters. */
  datatype Cap = Unlimited | Last(n: nat)

  function Keep(text: string, cap: Cap): string {
    if cap.Unlimited? || |text| <= cap.n then text else text[|text| - cap.n..]
  }

  function Replace(text: string, old0: char, new0: char): (r: string)
    ensures |r| == |text|
  {
    seq(|text|, i requires 0 <= i < |text| => if text[i] == old0 then new0 else text[i])
  }

  function Head(text: string, n: nat): string {
    if |text| <= n then text else text[..n]
  }

  function NormalizeInput(raw: string): string {
    Head(Replace(raw, '\n', '\U{2424}'), SUMMARY_CAP)
  }

  function MakePreview(raw: string): string {
    Head(Replace(raw, '\n', ' '), PREVIEW_CAP)
  }

  function AppendText(blocks: seq<Block>, thinking: bool, text: string, agent: string, cap: Cap): seq<Block> {
    var n := |blocks|;
    if n > 0 && blocks[n - 1].Prose? && !thinking then
      blocks[n - 1 := blocks[n - 1].(text := Keep(blocks[n - 1].text + text, cap))]
    else if n > 0 && blocks[n - 1].Thinking? && thinking then
      blocks[n - 1 := blocks[n - 1].(text := Keep(blocks[n - 1].text + text, cap))]
    else blocks + [if thinking then Thinking(agent, Keep(text, cap)) else Prose(agent, Keep(text, cap))]
  }

  /** A finished call of the tool that has no summary yet. */
  predicate Unsummarized(b: Block, tool: string, input: string) {
    b.Tool? && b.tool == tool && b.input == input && !b.status.Running? && b.summary.None?
  }

  predicate RunningTool(b: Block, tool: string) {
    b.Tool? && b.tool == tool && b.status.Running?
  }

  /** The last entry `which` accepts. */
  function FindLast<T>(xs: seq<T>, which: T -> bool): (r: Option<nat>)
    ensures r.Some? ==> r.value < |xs| && which(xs[r.value])
    ensures r.Some? ==> forall j | r.value < j < |xs| :: !which(xs[j])
    ensures r.None? ==> forall x | x in xs :: !which(x)
  {
    if xs == [] then None
    else if which(xs[|xs| - 1]) then Some(|xs| - 1)
    else FindLast(xs[..|xs| - 1], which)
  }

  /** The running block a result belongs to: the last with the same input, else the last
      of that tool. */
  function Receiver(blocks: seq<Block>, tool: string, input: string): (r: Option<nat>)
    ensures r.Some? ==> r.value < |blocks| && RunningTool(blocks[r.value], tool)
    ensures r.None? ==> forall b | b in blocks :: !RunningTool(b, tool)
  {
    var wanted := if input == "" then "" else NormalizeInput(input);
    var exact := if wanted == "" then None
                 else FindLast(blocks, b => RunningTool(b, tool) && b.input == wanted);
    if exact.Some? then exact else FindLast(blocks, b => RunningTool(b, tool))
  }

  /** The trailing block, if this call repeats it exactly and it is not running. */
  predicate IsRepeat(blocks: seq<Block>, tool: string, input: string, delegate: string) {
    blocks != [] &&
    var last := blocks[|blocks| - 1];
    last.Tool? && last.tool == tool && last.input == input && last.delegate == delegate && !last.status.Running?
  }

  function StartTool(blocks: seq<Block>, tool: string, input: string, delegate: string, agent: string): seq<Block> {
    if IsRepeat(blocks, tool, input, delegate) then
      var last := blocks[|blocks| - 1];
      blocks[|blocks| - 1 := last.(status := Running, repeats := last.repeats + 1, summary := None)]
    else blocks + [Tool(agent, tool, input, Running, 0.0, "", None, 1, delegate, "", 0)]
  }

  function ApplyItem(s: RunState, item: Item, now: real, cap: Cap): RunState {
    match item
    case TokenDelta(run, agent, text, kind) =>
      if !s.status.Live? || run != s.runId then s else
        var k := if kind == "" then "text" else kind;
        s.(blocks := AppendText(s.blocks, k == "thinking", text, agent, cap), tokens := s.tokens + 1, lastKind := k)
    case ToolSummaryReady(run, _, tool, input, summary) =>
      if run != s.runId then s else
        var i := FindLast(s.blocks, b => Unsummarized(b, tool, input));
        if i.None? then s else s.(blocks := s.blocks[i.value := s.blocks[i.value].(summary := Some(summary))])
    case RunStarted(run, agent) => NO_RUN.(status := Live, runId := run, agent := agent, startedAt := now)
    case Unknown(_) => s
    case _ => if item.run != s.runId then s else ApplyOwn(s, item, now)
  }

  /** The arms for items of the current run. */
  function ApplyOwn(s: RunState, item: Item, now: real): RunState {
    match item
    case LLMCallStarted(_, agent, index, model, prompt) =>
      s.(prompt := prompt, model := model, callIndex := index,
         blocks := s.blocks + [Call(agent, index, model, false, 0.0)])
    case LLMCallFinished(_, _, duration, tokens) =>
      var n := |s.blocks|;
      if n > 0 && s.blocks[n - 1].Call?
      then s.(tokens := tokens, blocks := s.blocks[n - 1 := s.blocks[n - 1].(finished := true, duration := duration)])
      else s.(tokens := tokens)
    case RunFinished(_, _) => s.(status := Ended, endedAt := now)
    case RunFailed(_, _, errorType, message) =>
      s.(status := Crashed, endedAt := now, error := errorType + ": " + message)
    case ToolCallStarted(_, agent, tool, input, delegate) =>
      s.(blocks := StartTool(s.blocks, tool, NormalizeInput(input), delegate, agent))
    case ToolCallFinished(_, _, tool, duration, output, input, sequence) =>
      var i := Receiver(s.blocks, tool, input);
      if i.None? then s else
        s.(blocks := s.blocks[i.value := s.blocks[i.value].(status := Done, duration := duration,
                                                           preview := MakePreview(output), sequence := sequence)])
    case ToolCallFailed(_, _, tool, duration, errorType, input, sequence) =>
      var i := Receiver(s.blocks, tool, input);
      if i.None? then s else
        s.(blocks := s.blocks[i.value := s.blocks[i.value].(status := Failed, duration := duration,
                                                           error := errorType, sequence := sequence)])
    case _ => s
  }

  function Fold(items: seq<Timed>, cap: Cap): RunState {
    if items == [] then NO_RUN
    else ApplyItem(Fold(items[..|items| - 1], cap), items[|items| - 1].item, items[|items| - 1].now, cap)
  }

  /** Parallel calls of one tool: a result that carries its call's input goes to that call,
      whatever else is running. */
  lemma ResultsFindTheirCall(blocks: seq<Block>, tool: string, input: string, i: nat)
    requires input != "" && i < |blocks|
    requires RunningTool(blocks[i], tool) && blocks[i].input == NormalizeInput(input)
    requires forall j | 0 <= j < |blocks| && j != i && RunningTool(blocks[j], tool) :: blocks[j].input != NormalizeInput(input)
    ensures Receiver(blocks, tool, input) == Some(i)
  {
    var wanted := NormalizeInput(input);
    assert |wanted| > 0;
    var exact := FindLast(blocks, b => RunningTool(b, tool) && b.input == wanted);
    assert blocks[i] in blocks;
  }

  /** A result without an input goes to the last running call of its tool. */
  lemma PlainResultsTakeTheLast(blocks: seq<Block>, tool: string, i: nat)
    requires i < |blocks| && RunningTool(blocks[i], tool)
    requires forall j | i < j < |blocks| :: !RunningTool(blocks[j], tool)
    ensures Receiver(blocks, tool, "") == Some(i)
  {
    var last := FindLast(blocks, b => RunningTool(b, tool));
    assert blocks[i] in blocks;
  }

  // Blocks are only ever appended, and never change kind.

  predicate SameKind(a: Block, b: Block) {
    a.Prose? == b.Prose? && a.Thinking? == b.Thinking? && a.Call? == b.Call?
  }

  lemma OwnBlocksStay(s: RunState, item: Item, now: real)
    ensures var s' := ApplyOwn(s, item, now);
            && s'.runId == s.runId && |s.blocks| <= |s'.blocks| <= |s.blocks| + 1
            && forall i | 0 <= i < |s.blocks| :: SameKind(s.blocks[i], s'.blocks[i])
  {
  }

  /** Within a run, every block stays where it is and what it is. */
  lemma BlocksStay(s: RunState, item: Item, now: real, cap: Cap)
    requires !item.RunStarted?
    ensures var s' := ApplyItem(s, item, now, cap);
            && s'.runId == s.runId && |s.blocks| <= |s'.blocks| <= |s.blocks| + 1
            && forall i | 0 <= i < |s.blocks| :: SameKind(s.blocks[i], s'.blocks[i])
  {
    if !item.TokenDelta? && !item.ToolSummaryReady? {
      OwnBlocksStay(s, item, now);
    }
  }

  // Running tools are conserved.

  function RunningCount(blocks: seq<Block>, tool: string): nat {
    if blocks == [] then 0
    else RunningCount(blocks[..|blocks| - 1], tool) + if RunningTool(blocks[|blocks| - 1], tool) then 1 else 0
  }

  lemma {:induction false} CountAfterUpdate(blocks: seq<Block>, tool: string, i: nat, b: Block)
    requires i < |blocks|
    ensures RunningCount(blocks[i := b], tool) ==
              RunningCount(blocks, tool) - (if RunningTool(blocks[i], tool) then 1 else 0)
                + (if RunningTool(b, tool) then 1 else 0)
  {
    var n := |blocks| - 1;
    if i < n {
      CountAfterUpdate(blocks[..n], tool, i, b);
      assert blocks[i := b][..n] == blocks[..n][i := b];
    } else {
      assert blocks[i := b][..n] == blocks[..n];
    }
  }

  lemma {:induction false} CountZero(blocks: seq<Block>, tool: string)
    ensures RunningCount(blocks, tool) == 0 <==> forall b | b in blocks :: !RunningTool(b, tool)
  {
    if blocks != [] {
      var front, last := blocks[..|blocks| - 1], blocks[|blocks| - 1];
      CountZero(front, tool);
      assert blocks == front + [last];
    }
  }

  lemma CountAfterAppend(blocks: seq<Block>, tool: string, b: Block)
    ensures RunningCount(blocks + [b], tool) == RunningCount(blocks, tool) + if RunningTool(b, tool) then 1 else 0
  {
    assert (blocks + [b])[..|blocks|] == blocks;
  }

  /** The run a stream is in, by its starts alone. */
  function CurrentRun(items: seq<Timed>): string {
    if items == [] then ""
    else if items[|items| - 1].item.RunStarted? then items[|items| - 1].item.run
    else CurrentRun(items[..|items| - 1])
  }

  /** Calls of a tool under way, by its starts and results alone. */
  function Outstanding(items: seq<Timed>, tool: string): nat {
    if items == [] then 0 else
      var before, item := Outstanding(items[..|items| - 1], tool), items[|items| - 1].item;
      if item.RunStarted? then 0
      else if item.Unknown? || item.run != CurrentRun(items[..|items| - 1]) then before
      else if item.ToolCallStarted? && item.tool == tool then before + 1
      else if (item.ToolCallFinished? || item.ToolCallFailed?) && item.tool == tool then
        if before == 0 then 0 else before - 1
      else before
  }

  lemma ResultsLowerByOne(blocks: seq<Block>, tool: string, i: nat, b: Block, other: string)
    requires i < |blocks| && RunningTool(blocks[i], tool) && b.Tool? && b.tool == tool && !b.status.Running?
    ensures RunningCount(blocks[i := b], other) == RunningCount(blocks, other) - if other == tool then 1 else 0
  {
    CountAfterUpdate(blocks, other, i, b);
  }

  lemma StartsRaiseByOne(blocks: seq<Block>, tool: string, input: string, delegate: string, agent: string, other: string)
    ensures RunningCount(StartTool(blocks, tool, input, delegate, agent), other)
              == RunningCount(blocks, other) + if other == tool then 1 else 0
  {
    if IsRepeat(blocks, tool, input, delegate) {
      var last := blocks[|blocks| - 1];
      CountAfterUpdate(blocks, other, |blocks| - 1, last.(status := Running, repeats := last.repeats + 1, summary := None));
    } else {
      CountAfterAppend(blocks, other, Tool(agent, tool, input, Running, 0.0, "", None, 1, delegate, "", 0));
    }
  }

  lemma TextLeavesCount(blocks: seq<Block>, thinking: bool, text: string, agent: string, cap: Cap, tool: string)
    ensures RunningCount(AppendText(blocks, thinking, text, agent, cap), tool) == RunningCount(blocks, tool)
  {
    var after := AppendText(blocks, thinking, text, agent, cap);
    if |after| == |blocks| {
      CountAfterUpdate(blocks, tool, |blocks| - 1, after[|blocks| - 1]);
    } else {
      CountAfterAppend(blocks, tool, after[|blocks|]);
    }
  }

  lemma ResultCount(s: RunState, item: Item, now: real, tool: string)
    requires item.ToolCallFinished? || item.ToolCallFailed?
    ensures RunningCount(ApplyOwn(s, item, now).blocks, tool)
              == if item.tool == tool && RunningCount(s.blocks, tool) > 0
                 then RunningCount(s.blocks, tool) - 1 else RunningCount(s.blocks, tool)
  {
    var i := Receiver(s.blocks, item.tool, item.input);
    CountZero(s.blocks, tool);
    if i.Some? {
      ResultsLowerByOne(s.blocks, item.tool, i.value, ApplyOwn(s, item, now).blocks[i.value], tool);
    }
  }

  lemma SummaryLeavesCount(s: RunState, item: Item, now: real, cap: Cap, tool: string)
    requires item.ToolSummaryReady?
    ensures RunningCount(ApplyItem(s, item, now, cap).blocks, tool) == RunningCount(s.blocks, tool)
  {
    var i := FindLast(s.blocks, b => Unsummarized(b, item.tool, item.input));
    if item.run == s.runId && i.Some? {
      CountAfterUpdate(s.blocks, tool, i.value, s.blocks[i.value].(summary := Some(item.summary)));
    }
  }

  lemma CallsLeaveCount(s: RunState, item: Item, now: real, tool: string)
    requires item.LLMCallStarted? || item.LLMCallFinished? || item.RunFinished? || item.RunFailed?
    ensures RunningCount(ApplyOwn(s, item, now).blocks, tool) == RunningCount(s.blocks, tool)
  {
    var n := |s.blocks|;
    if item.LLMCallStarted? {
      CountAfterAppend(s.blocks, tool, Call(item.agent, item.index, item.model, false, 0.0));
    } else if item.LLMCallFinished? && n > 0 && s.blocks[n - 1].Call? {
      CountAfterUpdate(s.blocks, tool, n - 1, s.blocks[n - 1].(finished := true, duration := item.duration));
    }
  }

  lemma StepCount(s: RunState, item: Item, now: real, cap: Cap, tool: string)
    requires !item.RunStarted? && !item.Unknown? && item.run == s.runId
    requires !item.ToolCallFinished? && !item.ToolCallFailed?
    ensures RunningCount(ApplyItem(s, item, now, cap).blocks, tool)
              == RunningCount(s.blocks, tool) + if item.ToolCallStarted? && item.tool == tool then 1 else 0
  {
    if item.TokenDelta? {
      TextLeavesCount(s.blocks, item.kind == "thinking", item.text, item.agent, cap, tool);
    } else if item.ToolSummaryReady? {
      SummaryLeavesCount(s, item, now, cap, tool);
    } else if item.ToolCallStarted? {
      StartsRaiseByOne(s.blocks, item.tool, NormalizeInput(item.input), item.delegate, item.agent, tool);
    } else {
      CallsLeaveCount(s, item, now, tool);
    }
  }

  /** However repeats and parallel calls of one tool interleave, its running blocks number
      its starts less its results, floored at zero, since the run began. */
  lemma {:induction false} ToolBlocksConserved(items: seq<Timed>, cap: Cap, tool: string)
    ensures RunningCount(Fold(items, cap).blocks, tool) == Outstanding(items, tool)
    ensures Fold(items, cap).runId == CurrentRun(items)
  {
    if items != [] {
      var front, last := items[..|items| - 1], items[|items| - 1];
      ToolBlocksConserved(front, cap, tool);
      var s, item := Fold(front, cap), last.item;
      if !item.RunStarted? && !item.Unknown? && item.run == s.runId {
        if item.ToolCallFinished? || item.ToolCallFailed? {
          ResultCount(s, item, last.now, tool);
        } else {
          StepCount(s, item, last.now, cap, tool);
        }
      }
    }
  }
}
