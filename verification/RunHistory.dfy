/** What a run state says about its run, against the events alone (tui_kit/run_model.py:123-211):
    which call each tool block stands for and how it ended, the model calls, and the fields. */
module RunHistory {
  import opened Options
  import opened RunModel
  import opened Transcript

  // Texts cut to size.

  predicate EndsWith(text: string, tail: string) {
    |tail| <= |text| && text[|text| - |tail|..] == tail
  }

  /** The last `n` characters of a text, or all of it. */
  lemma KeepsTheTail(text: string, n: nat)
    ensures EndsWith(text, Keep(text, Last(n))) && Keep(text, Unlimited) == text
    ensures |Keep(text, Last(n))| == if |text| < n then |text| else n
  {
  }

  /** `cut` is `raw` with every line break shown as `mark`, up to `cap` characters. */
  predicate OneLine(cut: string, raw: string, mark: char, cap: nat) {
    && |cut| == (if |raw| < cap then |raw| else cap)
    && forall i | 0 <= i < |cut| :: cut[i] == if raw[i] == '\n' then mark else raw[i]
  }

  lemma CutToOneLine(raw: string)
    ensures OneLine(NormalizeInput(raw), raw, '\U{2424}', 120) && OneLine(MakePreview(raw), raw, ' ', 200)
  {
  }

  // Tool calls.

  /** A call as it was started, and the result it got. */
  datatype Made = Made(start: Item, result: Option<Item>)

  predicate IsResult(item: Item) {
    item.ToolCallFinished? || item.ToolCallFailed?
  }

  /** Whether an item belongs to the run the stream is in. */
  predicate IsOwn(before: seq<Timed>, item: Item) {
    !item.RunStarted? && !item.Unknown? && item.run == CurrentRun(before)
  }

  predicate Under(c: Made, tool: string) {
    c.start.ToolCallStarted? && c.result.None? && c.start.tool == tool
  }

  predicate UnderWith(c: Made, tool: string, wanted: string) {
    Under(c, tool) && NormalizeInput(c.start.input) == wanted
  }

  /** The call a result answers: the last one under way with its input, else the last of its tool. */
  function Answers(calls: seq<Made>, tool: string, input: string): Option<nat> {
    var wanted := if input == "" then "" else NormalizeInput(input);
    var exact := if wanted == "" then None else FindLast(calls, c => UnderWith(c, tool, wanted));
    if exact.Some? then exact else FindLast(calls, c => Under(c, tool))
  }

  function Answered(calls: seq<Made>, item: Item): seq<Made>
    requires IsResult(item)
  {
    var i := Answers(calls, item.tool, item.input);
    if i.None? then calls else calls[i.value := calls[i.value].(result := Some(item))]
  }

  /** The calls of the current run with their results, by starts and results alone. */
  function Calls(items: seq<Timed>): seq<Made> {
    if items == [] then [] else
      var front, item := items[..|items| - 1], items[|items| - 1].item;
      if item.RunStarted? then [] else if IsOwn(front, item) then NowCalls(Calls(front), item) else Calls(front)
  }

  function NowCalls(calls: seq<Made>, item: Item): seq<Made> {
    if item.ToolCallStarted? then calls + [Made(item, None)]
    else if IsResult(item) then Answered(calls, item)
    else calls
  }

  /** A block that shows a call: under way, or ended the way its result says, with what the
      result brought. */
  predicate Shows(b: Block, c: Made) {
    && b.Tool? && c.start.ToolCallStarted?
    && b.tool == c.start.tool && b.input == NormalizeInput(c.start.input) && b.delegate == c.start.delegate
    && match c.result {
         case None => b.status.Running? && b.summary.None?
         case Some(r) =>
           && IsResult(r) && r.tool == b.tool
           && b.duration == r.duration && b.sequence == r.sequence
           && (r.ToolCallFinished? ==> b.status.Done? && b.preview == MakePreview(r.output))
           && (r.ToolCallFailed? ==> b.status.Failed? && b.error == r.errorType)
       }
  }

  /** Which call each block shows; -1 where it is no tool block. The blocks stand in the order of
      their calls, and no call under way is missing. */
  ghost predicate Told(blocks: seq<Block>, calls: seq<Made>, at: seq<int>) {
    && |at| == |blocks|
    && (forall j | 0 <= j < |at| :: at[j] < |calls| && (blocks[j].Tool? <==> at[j] >= 0))
    && (forall j | 0 <= j < |at| && at[j] >= 0 :: Shows(blocks[j], calls[at[j]]))
    && Rising(at)
    && (forall k | 0 <= k < |calls| && calls[k].result.None? :: k in at)
    && (calls != [] ==> |calls| - 1 in at)
  }

  ghost predicate Rising(at: seq<int>) {
    forall i, j | 0 <= i < j < |at| && at[i] >= 0 && at[j] >= 0 :: at[i] < at[j]
  }

  /** The last place that shows a hit shows the last hit, if every hit is shown. */
  lemma SameLast(at: seq<int>, hits: set<int>, b: Option<nat>, c: Option<nat>)
    requires Rising(at) && forall k | k in hits :: k >= 0 && k in at
    requires b.Some? ==> b.value < |at| && at[b.value] in hits && forall j | b.value < j < |at| :: at[j] !in hits
    requires b.None? ==> forall j | 0 <= j < |at| :: at[j] !in hits
    requires c.Some? ==> c.value in hits && forall k | k in hits :: k <= c.value
    requires c.None? ==> hits == {}
    ensures (b.None? <==> c.None?) && (b.Some? ==> at[b.value] == c.value)
  {
    if c.Some? {
      var j :| 0 <= j < |at| && at[j] == c.value;
      assert forall i | j < i < |at| && at[i] >= 0 :: at[j] < at[i];
    }
  }

  /** Searching the blocks and searching the calls find the same. */
  lemma FindBoth(blocks: seq<Block>, calls: seq<Made>, at: seq<int>, p: Block -> bool, q: Made -> bool)
    requires |at| == |blocks| && Rising(at) && forall j | 0 <= j < |at| :: at[j] < |calls|
    requires forall j | 0 <= j < |at| :: p(blocks[j]) <==> at[j] >= 0 && q(calls[at[j]])
    requires forall k | 0 <= k < |calls| && q(calls[k]) :: k in at
    ensures var b, c := FindLast(blocks, p), FindLast(calls, q);
            (b.None? <==> c.None?) && (b.Some? ==> at[b.value] == c.value)
  {
    var hits := set k: int | 0 <= k < |calls| && q(calls[k]);
    assert forall j | 0 <= j < |at| :: p(blocks[j]) <==> at[j] in hits;
    assert forall j | 0 <= j < |blocks| :: blocks[j] in blocks;
    assert forall k | 0 <= k < |calls| :: calls[k] in calls;
    SameLast(at, hits, FindLast(blocks, p), FindLast(calls, q));
  }

  lemma SameReceiver(blocks: seq<Block>, calls: seq<Made>, at: seq<int>, tool: string, input: string)
    requires Told(blocks, calls, at)
    ensures var b, c := Receiver(blocks, tool, input), Answers(calls, tool, input);
            (b.None? <==> c.None?) && (b.Some? ==> at[b.value] == c.value)
  {
    var wanted := if input == "" then "" else NormalizeInput(input);
    var p, q := (b: Block) => RunningTool(b, tool), (c: Made) => Under(c, tool);
    FindBoth(blocks, calls, at, p, q);
    if wanted != "" {
      var pw, qw := (b: Block) => RunningTool(b, tool) && b.input == wanted, (c: Made) => UnderWith(c, tool, wanted);
      FindBoth(blocks, calls, at, pw, qw);
    }
  }

  // What each kind of item does to the account.

  lemma MoreOther(blocks: seq<Block>, calls: seq<Made>, at: seq<int>, b: Block)
    requires Told(blocks, calls, at) && !b.Tool?
    ensures Told(blocks + [b], calls, at + [-1])
  {
    assert forall k | k in at :: k in at + [-1];
  }

  lemma OtherChanged(blocks: seq<Block>, calls: seq<Made>, at: seq<int>, i: nat, b: Block)
    requires Told(blocks, calls, at) && i < |blocks| && !b.Tool? && !blocks[i].Tool?
    ensures Told(blocks[i := b], calls, at)
  {
  }

  lemma ToolChanged(blocks: seq<Block>, calls: seq<Made>, at: seq<int>, i: nat, b: Block)
    requires Told(blocks, calls, at) && i < |blocks| && b.Tool? && blocks[i].Tool? && Shows(b, calls[at[i]])
    ensures Told(blocks[i := b], calls, at)
  {
  }

  lemma MoreCalls(blocks: seq<Block>, calls: seq<Made>, at: seq<int>, b: Block, c: Made)
    requires Told(blocks, calls, at) && b.Tool? && Shows(b, c)
    ensures Told(blocks + [b], calls + [c], at + [|calls|])
  {
    var at' := at + [|calls|];
    assert forall k | k in at :: k in at';
    assert at'[|at|] == |calls|;
  }

  lemma CalledAgain(blocks: seq<Block>, calls: seq<Made>, at: seq<int>, b: Block, c: Made)
    requires Told(blocks, calls, at) && blocks != [] && b.Tool? && Shows(b, c)
    requires blocks[|blocks| - 1].Tool? && !blocks[|blocks| - 1].status.Running?
    ensures Told(blocks[|blocks| - 1 := b], calls + [c], at[|blocks| - 1 := |calls|])
  {
    var n := |blocks| - 1;
    var at' := at[n := |calls|];
    assert at'[n] == |calls|;
    forall k | 0 <= k < |calls| && calls[k].result.None?
      ensures k in at'
    {
      var j :| 0 <= j < |at| && at[j] == k;
      assert j != n && at'[j] == k;
    }
  }

  lemma CallAnswered(blocks: seq<Block>, calls: seq<Made>, at: seq<int>, i: nat, b: Block, c: Made)
    requires Told(blocks, calls, at) && i < |blocks| && blocks[i].Tool? && b.Tool? && Shows(b, c) && c.result.Some?
    ensures Told(blocks[i := b], calls[at[i] := c], at)
  {
    assert forall j | 0 <= j < |at| && j != i && at[j] >= 0 :: at[j] != at[i];
  }

  lemma StartTold(blocks: seq<Block>, calls: seq<Made>, at: seq<int>, item: Item) returns (at': seq<int>)
    requires Told(blocks, calls, at) && item.ToolCallStarted?
    ensures Told(StartTool(blocks, item.tool, NormalizeInput(item.input), item.delegate, item.agent), calls + [Made(item, None)], at')
  {
    var input := NormalizeInput(item.input);
    var after := StartTool(blocks, item.tool, input, item.delegate, item.agent);
    if IsRepeat(blocks, item.tool, input, item.delegate) {
      at' := at[|blocks| - 1 := |calls|];
      CalledAgain(blocks, calls, at, after[|blocks| - 1], Made(item, None));
    } else {
      at' := at + [|calls|];
      MoreCalls(blocks, calls, at, after[|blocks|], Made(item, None));
    }
  }

  lemma ResultTold(s: RunState, calls: seq<Made>, at: seq<int>, item: Item, now: real)
    requires Told(s.blocks, calls, at) && IsResult(item)
    ensures Told(ApplyOwn(s, item, now).blocks, Answered(calls, item), at)
  {
    SameReceiver(s.blocks, calls, at, item.tool, item.input);
    var i := Receiver(s.blocks, item.tool, item.input);
    if i.Some? {
      var c := calls[at[i.value]].(result := Some(item));
      CallAnswered(s.blocks, calls, at, i.value, ApplyOwn(s, item, now).blocks[i.value], c);
    }
  }

  lemma TextTold(blocks: seq<Block>, calls: seq<Made>, at: seq<int>, thinking: bool, text: string, agent: string, cap: Cap)
    returns (at': seq<int>)
    requires Told(blocks, calls, at)
    ensures Told(AppendText(blocks, thinking, text, agent, cap), calls, at')
  {
    var after := AppendText(blocks, thinking, text, agent, cap);
    if |after| == |blocks| {
      at' := at;
      OtherChanged(blocks, calls, at, |blocks| - 1, after[|blocks| - 1]);
    } else {
      at' := at + [-1];
      MoreOther(blocks, calls, at, after[|blocks|]);
    }
  }

  lemma SummaryTold(s: RunState, calls: seq<Made>, at: seq<int>, item: Item, now: real, cap: Cap)
    requires Told(s.blocks, calls, at) && item.ToolSummaryReady?
    ensures Told(ApplyItem(s, item, now, cap).blocks, calls, at)
  {
    var i := FindLast(s.blocks, b => Unsummarized(b, item.tool, item.input));
    if item.run == s.runId && i.Some? {
      ToolChanged(s.blocks, calls, at, i.value, ApplyItem(s, item, now, cap).blocks[i.value]);
    }
  }

  lemma CallTold(s: RunState, calls: seq<Made>, at: seq<int>, item: Item, now: real) returns (at': seq<int>)
    requires Told(s.blocks, calls, at) && (item.LLMCallStarted? || item.LLMCallFinished?)
    ensures Told(ApplyOwn(s, item, now).blocks, calls, at')
  {
    var after := ApplyOwn(s, item, now).blocks;
    at' := at;
    if item.LLMCallStarted? {
      at' := at + [-1];
      MoreOther(s.blocks, calls, at, Call(item.agent, item.index, item.model, false, 0.0));
    } else if s.blocks != [] && s.blocks[|s.blocks| - 1].Call? {
      OtherChanged(s.blocks, calls, at, |s.blocks| - 1, after[|s.blocks| - 1]);
    }
  }

  lemma OwnTold(s: RunState, calls: seq<Made>, at: seq<int>, item: Item, now: real) returns (at': seq<int>)
    requires Told(s.blocks, calls, at) && !item.ToolCallStarted? && !IsResult(item)
    ensures Told(ApplyOwn(s, item, now).blocks, calls, at')
  {
    if item.LLMCallStarted? || item.LLMCallFinished? {
      at' := CallTold(s, calls, at, item, now);
    } else {
      at' := at;
    }
  }

  lemma StepTold(s: RunState, calls: seq<Made>, at: seq<int>, item: Item, now: real, cap: Cap) returns (at': seq<int>)
    requires Told(s.blocks, calls, at)
    requires !item.RunStarted? && !item.ToolCallStarted? && !IsResult(item)
    ensures Told(ApplyItem(s, item, now, cap).blocks, calls, at')
  {
    at' := at;
    if item.TokenDelta? && s.status.Live? && item.run == s.runId {
      at' := TextTold(s.blocks, calls, at, item.kind == "thinking", item.text, item.agent, cap);
    } else if item.ToolSummaryReady? {
      SummaryTold(s, calls, at, item, now, cap);
    } else if !item.TokenDelta? && !item.Unknown? && item.run == s.runId {
      at' := OwnTold(s, calls, at, item, now);
    }
  }

  lemma OwnStepTold(s: RunState, calls: seq<Made>, at: seq<int>, item: Item, now: real, cap: Cap) returns (at': seq<int>)
    requires Told(s.blocks, calls, at) && !item.RunStarted? && !item.Unknown? && item.run == s.runId
    ensures Told(ApplyItem(s, item, now, cap).blocks, NowCalls(calls, item), at')
  {
    if item.ToolCallStarted? {
      at' := StartTold(s.blocks, calls, at, item);
    } else if IsResult(item) {
      at' := at;
      ResultTold(s, calls, at, item, now);
    } else {
      at' := StepTold(s, calls, at, item, now, cap);
    }
  }

  /** Over any stream, each tool block shows one of the run's calls: it is done exactly when that
      call's result was a finish, failed exactly when it was a failure, and running while there
      is none; the blocks stand in call order, and every call under way has one. */
  lemma {:induction false} OutcomesAreTold(items: seq<Timed>, cap: Cap) returns (at: seq<int>)
    ensures Told(Fold(items, cap).blocks, Calls(items), at)
  {
    if items == [] {
      at := [];
    } else {
      var front, last := items[..|items| - 1], items[|items| - 1];
      var s, item := Fold(front, cap), last.item;
      at := OutcomesAreTold(front, cap);
      ToolBlocksConserved(front, cap, "");
      if item.RunStarted? {
        at := [];
      } else if IsOwn(front, item) {
        at := OwnStepTold(s, Calls(front), at, item, last.now, cap);
      } else {
        StrangerLeavesBlocks(s, item, last.now, cap);
      }
    }
  }

  /** A summary goes to the last ended call of its tool and input that has none, and nowhere else. */
  lemma SummaryFindsItsCall(s: RunState, item: Item, now: real, cap: Cap, i: nat)
    requires item.ToolSummaryReady? && item.run == s.runId
    requires i < |s.blocks| && Unsummarized(s.blocks[i], item.tool, item.input)
    requires forall j | i < j < |s.blocks| :: !Unsummarized(s.blocks[j], item.tool, item.input)
    ensures ApplyItem(s, item, now, cap) == s.(blocks := s.blocks[i := s.blocks[i].(summary := Some(item.summary))])
  {
    var last := FindLast(s.blocks, b => Unsummarized(b, item.tool, item.input));
    assert s.blocks[i] in s.blocks;
  }

  // Every call is counted once.

  function TotalRepeats(blocks: seq<Block>): nat {
    if blocks == [] then 0
    else TotalRepeats(blocks[..|blocks| - 1]) + RepeatsOf(blocks[|blocks| - 1])
  }

  function RepeatsOf(b: Block): nat {
    if b.Tool? then b.repeats else 0
  }

  lemma TotalMore(blocks: seq<Block>, b: Block)
    ensures TotalRepeats(blocks + [b]) == TotalRepeats(blocks) + RepeatsOf(b)
  {
    assert (blocks + [b])[..|blocks|] == blocks;
  }

  lemma {:induction false} TotalAfterUpdate(blocks: seq<Block>, i: nat, b: Block)
    requires i < |blocks|
    ensures TotalRepeats(blocks[i := b]) == TotalRepeats(blocks) - RepeatsOf(blocks[i]) + RepeatsOf(b)
  {
    var n := |blocks| - 1;
    if i < n {
      TotalAfterUpdate(blocks[..n], i, b);
      assert blocks[i := b][..n] == blocks[..n][i := b];
    } else {
      assert blocks[i := b][..n] == blocks[..n];
    }
  }

  lemma StartCounted(blocks: seq<Block>, tool: string, input: string, delegate: string, agent: string)
    ensures TotalRepeats(StartTool(blocks, tool, input, delegate, agent)) == TotalRepeats(blocks) + 1
  {
    if IsRepeat(blocks, tool, input, delegate) {
      TotalAfterUpdate(blocks, |blocks| - 1, StartTool(blocks, tool, input, delegate, agent)[|blocks| - 1]);
    } else {
      TotalMore(blocks, Tool(agent, tool, input, Running, 0.0, "", None, 1, delegate, "", 0));
    }
  }

  lemma TextCounted(blocks: seq<Block>, thinking: bool, text: string, agent: string, cap: Cap)
    ensures TotalRepeats(AppendText(blocks, thinking, text, agent, cap)) == TotalRepeats(blocks)
  {
    var after := AppendText(blocks, thinking, text, agent, cap);
    if |after| == |blocks| {
      TotalAfterUpdate(blocks, |blocks| - 1, after[|blocks| - 1]);
    } else {
      TotalMore(blocks, after[|blocks|]);
    }
  }

  lemma ResultCounted(s: RunState, item: Item, now: real)
    requires IsResult(item)
    ensures TotalRepeats(ApplyOwn(s, item, now).blocks) == TotalRepeats(s.blocks)
  {
    var i := Receiver(s.blocks, item.tool, item.input);
    if i.Some? {
      TotalAfterUpdate(s.blocks, i.value, ApplyOwn(s, item, now).blocks[i.value]);
    }
  }

  lemma SummaryCounted(s: RunState, item: Item, now: real, cap: Cap)
    requires item.ToolSummaryReady?
    ensures TotalRepeats(ApplyItem(s, item, now, cap).blocks) == TotalRepeats(s.blocks)
  {
    var i := FindLast(s.blocks, b => Unsummarized(b, item.tool, item.input));
    if item.run == s.runId && i.Some? {
      TotalAfterUpdate(s.blocks, i.value, s.blocks[i.value].(summary := Some(item.summary)));
    }
  }

  lemma CallCounted(s: RunState, item: Item, now: real)
    requires item.LLMCallStarted? || item.LLMCallFinished?
    ensures TotalRepeats(ApplyOwn(s, item, now).blocks) == TotalRepeats(s.blocks)
  {
    if item.LLMCallStarted? {
      TotalMore(s.blocks, Call(item.agent, item.index, item.model, false, 0.0));
    } else if s.blocks != [] && s.blocks[|s.blocks| - 1].Call? {
      TotalAfterUpdate(s.blocks, |s.blocks| - 1, s.blocks[|s.blocks| - 1].(finished := true, duration := item.duration));
    }
  }

  lemma StepCounted(s: RunState, item: Item, now: real, cap: Cap)
    requires !item.RunStarted?
    ensures TotalRepeats(ApplyItem(s, item, now, cap).blocks)
              == TotalRepeats(s.blocks) + if item.ToolCallStarted? && item.run == s.runId then 1 else 0
  {
    if item.TokenDelta? {
      TextCounted(s.blocks, item.kind == "thinking", item.text, item.agent, cap);
    } else if item.ToolSummaryReady? {
      SummaryCounted(s, item, now, cap);
    } else if item.ToolCallStarted? {
      StartCounted(s.blocks, item.tool, NormalizeInput(item.input), item.delegate, item.agent);
    } else if IsResult(item) {
      ResultCounted(s, item, now);
    } else if item.LLMCallStarted? || item.LLMCallFinished? {
      CallCounted(s, item, now);
    }
  }

  lemma CallsGrow(items: seq<Timed>)
    requires items != [] && !items[|items| - 1].item.RunStarted?
    ensures var front, item := items[..|items| - 1], items[|items| - 1].item;
            |Calls(items)| == |Calls(front)| + if IsOwn(front, item) && item.ToolCallStarted? then 1 else 0
  {
  }

  /** The repeat counts of the tool blocks add up to the calls made. */
  lemma {:induction false} EveryCallCounts(items: seq<Timed>, cap: Cap)
    ensures TotalRepeats(Fold(items, cap).blocks) == |Calls(items)|
  {
    if items != [] {
      var front, last := items[..|items| - 1], items[|items| - 1];
      EveryCallCounts(front, cap);
      ToolBlocksConserved(front, cap, "");
      if !last.item.RunStarted? {
        CallsGrow(items);
        StepCounted(Fold(front, cap), last.item, last.now, cap);
      }
    }
  }

  // Model calls.

  /** A model call as it was started, and what finished it. */
  datatype Round = Round(start: Item, end: Option<Item>)

  /** Whether the last thing shown is a model call, once this item of the run is in. */
  function NowLast(last: bool, speaking: bool, item: Item): bool {
    item.LLMCallStarted? || (last && !item.ToolCallStarted? && !(item.TokenDelta? && speaking))
  }

  /** The last block there is shows a model call: nothing was said and no tool called since. */
  predicate CallIsLast(items: seq<Timed>) {
    items != [] &&
    var front, item := items[..|items| - 1], items[|items| - 1].item;
    !item.RunStarted? &&
    if IsOwn(front, item) then NowLast(CallIsLast(front), Speaking(front), item) else CallIsLast(front)
  }

  function NowRounds(rounds: seq<Round>, last: bool, item: Item): seq<Round> {
    if item.LLMCallStarted? then rounds + [Round(item, None)]
    else if item.LLMCallFinished? && last && rounds != [] then
      rounds[|rounds| - 1 := rounds[|rounds| - 1].(end := Some(item))]
    else rounds
  }

  /** The model calls of the current run; a finish counts while nothing else has been heard. */
  function Rounds(items: seq<Timed>): seq<Round> {
    if items == [] then [] else
      var front, item := items[..|items| - 1], items[|items| - 1].item;
      if item.RunStarted? then []
      else if IsOwn(front, item) then NowRounds(Rounds(front), CallIsLast(front), item)
      else Rounds(front)
  }

  /** The block of a model call. */
  function CallBlock(r: Round): Block {
    if !r.start.LLMCallStarted? then Prose("", "")
    else match r.end
      case Some(e) => Call(r.start.agent, r.start.index, r.start.model, true, if e.LLMCallFinished? then e.duration else 0.0)
      case None => Call(r.start.agent, r.start.index, r.start.model, false, 0.0)
  }

  function CallBlocks(rounds: seq<Round>): seq<Block> {
    if rounds == [] then [] else CallBlocks(rounds[..|rounds| - 1]) + [CallBlock(rounds[|rounds| - 1])]
  }

  function CallsOf(blocks: seq<Block>): seq<Block> {
    if blocks == [] then []
    else CallsOf(blocks[..|blocks| - 1]) + if blocks[|blocks| - 1].Call? then [blocks[|blocks| - 1]] else []
  }

  lemma CallsOfMore(blocks: seq<Block>, b: Block)
    ensures CallsOf(blocks + [b]) == CallsOf(blocks) + if b.Call? then [b] else []
  {
    assert (blocks + [b])[..|blocks|] == blocks;
  }

  lemma {:induction false} CallsOfSame(a: seq<Block>, b: seq<Block>)
    requires |a| == |b| && forall i | 0 <= i < |a| :: (a[i].Call? || b[i].Call? ==> a[i] == b[i])
    ensures CallsOf(a) == CallsOf(b)
  {
    if a != [] {
      CallsOfSame(a[..|a| - 1], b[..|b| - 1]);
    }
  }

  lemma CallBlocksMore(rounds: seq<Round>, r: Round)
    ensures CallBlocks(rounds + [r]) == CallBlocks(rounds) + [CallBlock(r)]
  {
    assert (rounds + [r])[..|rounds|] == rounds;
  }

  predicate EndsOnCall(blocks: seq<Block>) {
    blocks != [] && blocks[|blocks| - 1].Call?
  }

  lemma TextCalls(blocks: seq<Block>, thinking: bool, text: string, agent: string, cap: Cap)
    ensures var after := AppendText(blocks, thinking, text, agent, cap);
            CallsOf(after) == CallsOf(blocks) && !EndsOnCall(after)
  {
    var after := AppendText(blocks, thinking, text, agent, cap);
    if |after| == |blocks| {
      CallsOfSame(blocks, after);
    } else {
      CallsOfMore(blocks, after[|blocks|]);
    }
  }

  lemma StartCalls(blocks: seq<Block>, tool: string, input: string, delegate: string, agent: string)
    ensures var after := StartTool(blocks, tool, input, delegate, agent);
            CallsOf(after) == CallsOf(blocks) && !EndsOnCall(after)
  {
    if IsRepeat(blocks, tool, input, delegate) {
      CallsOfSame(blocks, StartTool(blocks, tool, input, delegate, agent));
    } else {
      CallsOfMore(blocks, Tool(agent, tool, input, Running, 0.0, "", None, 1, delegate, "", 0));
    }
  }

  /** Items that add no block and finish no model call. */
  lemma OtherCalls(s: RunState, item: Item, now: real, cap: Cap)
    requires IsResult(item) || item.ToolSummaryReady? || item.RunFinished? || item.RunFailed? || item.Unknown?
    ensures var after := ApplyItem(s, item, now, cap).blocks;
            CallsOf(after) == CallsOf(s.blocks) && EndsOnCall(after) == EndsOnCall(s.blocks)
  {
    CallsOfSame(s.blocks, ApplyItem(s, item, now, cap).blocks);
  }

  lemma {:induction false} LastCall(blocks: seq<Block>, rounds: seq<Round>, b: Block, end: Item)
    requires EndsOnCall(blocks) && CallsOf(blocks) == CallBlocks(rounds) && end.LLMCallFinished?
    requires b == blocks[|blocks| - 1].(finished := true, duration := end.duration)
    ensures rounds != []
    ensures CallsOf(blocks[|blocks| - 1 := b]) == CallBlocks(rounds[|rounds| - 1 := rounds[|rounds| - 1].(end := Some(end))])
  {
    var n := |blocks| - 1;
    assert blocks[n := b][..n] == blocks[..n];
    assert rounds != [];
    var r, k := rounds[|rounds| - 1 := rounds[|rounds| - 1].(end := Some(end))], |rounds| - 1;
    assert r[..k] == rounds[..k];
    assert CallsOf(blocks)[|CallsOf(blocks)| - 1] == blocks[n] == CallBlock(rounds[k]);
    assert CallsOf(blocks[..n]) == CallsOf(blocks)[..|CallsOf(blocks)| - 1] == CallBlocks(rounds[..k]);
  }

  lemma CallStarts(s: RunState, rounds: seq<Round>, item: Item, now: real)
    requires CallsOf(s.blocks) == CallBlocks(rounds) && item.LLMCallStarted?
    ensures var after := ApplyOwn(s, item, now).blocks;
            CallsOf(after) == CallBlocks(rounds + [Round(item, None)]) && EndsOnCall(after)
  {
    CallsOfMore(s.blocks, Call(item.agent, item.index, item.model, false, 0.0));
    CallBlocksMore(rounds, Round(item, None));
  }

  lemma CallFinishes(s: RunState, rounds: seq<Round>, item: Item, now: real)
    requires CallsOf(s.blocks) == CallBlocks(rounds) && item.LLMCallFinished?
    ensures EndsOnCall(s.blocks) ==> rounds != []
    ensures var after := ApplyOwn(s, item, now).blocks;
            && EndsOnCall(after) == EndsOnCall(s.blocks)
            && CallsOf(after) == CallBlocks(if !EndsOnCall(s.blocks) then rounds
                                            else rounds[|rounds| - 1 := rounds[|rounds| - 1].(end := Some(item))])
  {
    if EndsOnCall(s.blocks) {
      LastCall(s.blocks, rounds, s.blocks[|s.blocks| - 1].(finished := true, duration := item.duration), item);
    }
  }

  lemma OwnCalls(s: RunState, rounds: seq<Round>, item: Item, now: real, cap: Cap)
    requires CallsOf(s.blocks) == CallBlocks(rounds) && !item.Unknown? && item.run == s.runId
    requires !item.RunStarted? && !item.TokenDelta?
    ensures var after := ApplyItem(s, item, now, cap).blocks;
            && CallsOf(after) == CallBlocks(NowRounds(rounds, EndsOnCall(s.blocks), item))
            && EndsOnCall(after) == NowLast(EndsOnCall(s.blocks), s.status.Live?, item)
  {
    if item.ToolCallStarted? {
      StartCalls(s.blocks, item.tool, NormalizeInput(item.input), item.delegate, item.agent);
    } else if item.LLMCallStarted? {
      CallStarts(s, rounds, item, now);
    } else if item.LLMCallFinished? {
      CallFinishes(s, rounds, item, now);
    } else {
      OtherCalls(s, item, now, cap);
    }
  }

  /** What a delta of the run, and a call's start, do to the blocks. */
  lemma DeltaBlocks(s: RunState, item: Item, now: real, cap: Cap)
    requires item.TokenDelta? && item.run == s.runId
    ensures ApplyItem(s, item, now, cap).blocks
              == if s.status.Live? then AppendText(s.blocks, item.kind == "thinking", item.text, item.agent, cap) else s.blocks
  {
  }

  lemma StartBlocks(s: RunState, item: Item, now: real, cap: Cap)
    requires item.ToolCallStarted? && item.run == s.runId
    ensures ApplyItem(s, item, now, cap).blocks
              == StartTool(s.blocks, item.tool, NormalizeInput(item.input), item.delegate, item.agent)
  {
  }

  lemma DeltaCalls(s: RunState, item: Item, now: real, cap: Cap)
    requires item.TokenDelta? && item.run == s.runId
    ensures var after := ApplyItem(s, item, now, cap).blocks;
            CallsOf(after) == CallsOf(s.blocks) && EndsOnCall(after) == NowLast(EndsOnCall(s.blocks), s.status.Live?, item)
  {
    DeltaBlocks(s, item, now, cap);
    TextCalls(s.blocks, item.kind == "thinking", item.text, item.agent, cap);
  }

  lemma StrangerLeavesBlocks(s: RunState, item: Item, now: real, cap: Cap)
    requires !item.RunStarted? && (item.Unknown? || item.run != s.runId)
    ensures ApplyItem(s, item, now, cap) == s
  {
  }

  lemma RoundStep(s: RunState, front: seq<Timed>, item: Item, now: real, cap: Cap)
    requires s.runId == CurrentRun(front) && (s.status.Live? <==> Speaking(front)) && IsOwn(front, item)
    requires CallsOf(s.blocks) == CallBlocks(Rounds(front)) && (EndsOnCall(s.blocks) <==> CallIsLast(front))
    ensures var after := ApplyItem(s, item, now, cap).blocks;
            && CallsOf(after) == CallBlocks(NowRounds(Rounds(front), CallIsLast(front), item))
            && EndsOnCall(after) == NowLast(CallIsLast(front), Speaking(front), item)
  {
    if item.TokenDelta? {
      DeltaCalls(s, item, now, cap);
    } else {
      OwnCalls(s, Rounds(front), item, now, cap);
    }
  }

  /** Over any stream, the model calls shown are those started in the current run, in order, each
      with its model and index; one is finished, with the duration reported, exactly when a
      finish came before anything else was said or called. */
  lemma {:induction false} RoundsAreTold(items: seq<Timed>, cap: Cap)
    ensures CallsOf(Fold(items, cap).blocks) == CallBlocks(Rounds(items))
    ensures EndsOnCall(Fold(items, cap).blocks) <==> CallIsLast(items)
  {
    if items != [] {
      var front, last := items[..|items| - 1], items[|items| - 1];
      var s, item := Fold(front, cap), last.item;
      RoundsAreTold(front, cap);
      ToolBlocksConserved(front, cap, "");
      LiveIsSpeaking(front, cap);
      if IsOwn(front, item) {
        RoundStep(s, front, item, last.now, cap);
      } else if !item.RunStarted? {
        StrangerLeavesBlocks(s, item, last.now, cap);
      }
    }
  }

  lemma {:induction false} LiveIsSpeaking(items: seq<Timed>, cap: Cap)
    ensures Fold(items, cap).status.Live? <==> Speaking(items)
  {
    FoldShortened(items, cap);
    StatusTracksStream(items);
  }

  // The fields of the run.

  /** The last item of the current run that `which` accepts. */
  function Latest(items: seq<Timed>, which: Item -> bool): Option<Timed> {
    if items == [] then None else
      var front, last := items[..|items| - 1], items[|items| - 1];
      if last.item.RunStarted? then None
      else if IsOwn(front, last.item) && which(last.item) then Some(last)
      else Latest(front, which)
  }

  function LatestStart(items: seq<Timed>): Option<Timed> {
    if items == [] then None
    else if items[|items| - 1].item.RunStarted? then Some(items[|items| - 1])
    else LatestStart(items[..|items| - 1])
  }

  const ENDS := (item: Item) => item.RunFinished? || item.RunFailed?
  const FAILURES := (item: Item) => item.RunFailed?
  const CALLS := (item: Item) => item.LLMCallStarted?

  /** What the last end of the run says of it. */
  ghost predicate EndTold(s: RunState, start: Option<Timed>, end: Option<Timed>) {
    match end
    case Some(e) =>
      && s.endedAt == e.now && (e.item.RunFinished? || e.item.RunFailed?)
      && (if e.item.RunFinished? then s.status.Ended? else s.status.Crashed?)
    case None => s.endedAt == 0.0 && (if start.Some? then s.status.Live? else s.status.Idle?)
  }

  ghost predicate RunTold(s: RunState, start: Option<Timed>) {
    match start
    case Some(b) => b.item.RunStarted? && s.runId == b.item.run && s.agent == b.item.agent && s.startedAt == b.now
    case None => s.runId == "" && s.agent == "" && s.startedAt == 0.0
  }

  ghost predicate FailureTold(s: RunState, failure: Option<Timed>) {
    match failure
    case Some(f) => f.item.RunFailed? && s.error == f.item.errorType + ": " + f.item.message
    case None => s.error == ""
  }

  ghost predicate CallFieldsTold(s: RunState, call: Option<Timed>) {
    match call
    case Some(c) =>
      c.item.LLMCallStarted? && s.prompt == c.item.prompt && s.model == c.item.model && s.callIndex == c.item.index
    case None => s.prompt == "" && s.model == "" && s.callIndex == 0
  }

  /** Deltas counted since the last finished model call, on top of what that call reported. */
  function Tokens(items: seq<Timed>): int {
    if items == [] then 0 else
      var front, item := items[..|items| - 1], items[|items| - 1].item;
      if item.RunStarted? then 0
      else if !IsOwn(front, item) then Tokens(front)
      else if item.LLMCallFinished? then item.tokens
      else if item.TokenDelta? && Speaking(front) then Tokens(front) + 1
      else Tokens(front)
  }

  /** The kind of the last delta counted; one that names none is text. */
  function HeardKind(items: seq<Timed>): string {
    if items == [] then "" else
      var front, item := items[..|items| - 1], items[|items| - 1].item;
      if item.RunStarted? then ""
      else if item.TokenDelta? && IsOwn(front, item) && Speaking(front) then if item.kind == "" then "text" else item.kind
      else HeardKind(front)
  }

  ghost predicate FieldsTold(s: RunState, items: seq<Timed>) {
    && RunTold(s, LatestStart(items)) && EndTold(s, LatestStart(items), Latest(items, ENDS))
    && FailureTold(s, Latest(items, FAILURES)) && CallFieldsTold(s, Latest(items, CALLS))
    && s.tokens == Tokens(items) && s.lastKind == HeardKind(items) && s.attached
  }

  lemma LatestMore(front: seq<Timed>, last: Timed, which: Item -> bool)
    requires IsOwn(front, last.item)
    ensures Latest(front + [last], which) == if which(last.item) then Some(last) else Latest(front, which)
    ensures LatestStart(front + [last]) == LatestStart(front)
  {
    assert (front + [last])[..|front|] == front;
  }

  lemma EndStep(s: RunState, start: Option<Timed>, end: Option<Timed>, last: Timed, cap: Cap)
    requires EndTold(s, start, end) && !last.item.RunStarted? && !last.item.Unknown? && last.item.run == s.runId
    ensures EndTold(ApplyItem(s, last.item, last.now, cap), start, if ENDS(last.item) then Some(last) else end)
  {
  }

  lemma StartStep(s: RunState, start: Option<Timed>, last: Timed, cap: Cap)
    requires RunTold(s, start) && !last.item.RunStarted?
    ensures RunTold(ApplyItem(s, last.item, last.now, cap), start)
    ensures ApplyItem(s, last.item, last.now, cap).attached == s.attached
  {
  }

  lemma FailureStep(s: RunState, failure: Option<Timed>, last: Timed, cap: Cap)
    requires FailureTold(s, failure) && !last.item.RunStarted? && !last.item.Unknown? && last.item.run == s.runId
    ensures FailureTold(ApplyItem(s, last.item, last.now, cap), if FAILURES(last.item) then Some(last) else failure)
  {
  }

  lemma CallFieldsStep(s: RunState, call: Option<Timed>, last: Timed, cap: Cap)
    requires CallFieldsTold(s, call) && !last.item.RunStarted? && !last.item.Unknown? && last.item.run == s.runId
    ensures CallFieldsTold(ApplyItem(s, last.item, last.now, cap), if CALLS(last.item) then Some(last) else call)
  {
  }

  lemma TokensStep(s: RunState, front: seq<Timed>, last: Timed, cap: Cap)
    requires s.tokens == Tokens(front) && s.lastKind == HeardKind(front) && s.runId == CurrentRun(front) && (s.status.Live? <==> Speaking(front))
    requires IsOwn(front, last.item)
    ensures ApplyItem(s, last.item, last.now, cap).tokens == Tokens(front + [last])
    ensures ApplyItem(s, last.item, last.now, cap).lastKind == HeardKind(front + [last])
  {
    assert (front + [last])[..|front|] == front;
  }

  lemma OwnFields(s: RunState, front: seq<Timed>, last: Timed, cap: Cap)
    requires FieldsTold(s, front) && s.runId == CurrentRun(front) && (s.status.Live? <==> Speaking(front))
    requires IsOwn(front, last.item)
    ensures FieldsTold(ApplyItem(s, last.item, last.now, cap), front + [last])
  {
    LatestMore(front, last, ENDS);
    LatestMore(front, last, FAILURES);
    LatestMore(front, last, CALLS);
    StartStep(s, LatestStart(front), last, cap);
    EndStep(s, LatestStart(front), Latest(front, ENDS), last, cap);
    FailureStep(s, Latest(front, FAILURES), last, cap);
    CallFieldsStep(s, Latest(front, CALLS), last, cap);
    TokensStep(s, front, last, cap);
  }

  lemma OtherFields(s: RunState, front: seq<Timed>, last: Timed, cap: Cap)
    requires FieldsTold(s, front) && s.runId == CurrentRun(front) && !IsOwn(front, last.item)
    ensures FieldsTold(ApplyItem(s, last.item, last.now, cap), front + [last])
  {
    assert (front + [last])[..|front|] == front;
  }

  /** Over any stream: the run, its agent and its start are those of the last start; it has ended
      exactly if the last end of that run was a finish, crashed if it was a failure, at the time
      of that end; the error, the prompt, the model and the call are the last ones reported in the
      run; and the tokens are those of the last finished model call and one for each delta since. */
  lemma {:induction false} FieldsAreTold(items: seq<Timed>, cap: Cap)
    ensures FieldsTold(Fold(items, cap), items)
  {
    if items != [] {
      var front, last := items[..|items| - 1], items[|items| - 1];
      FieldsAreTold(front, cap);
      ToolBlocksConserved(front, cap, "");
      LiveIsSpeaking(front, cap);
      assert items == front + [last];
      if IsOwn(front, last.item) {
        OwnFields(Fold(front, cap), front, last, cap);
      } else {
        OtherFields(Fold(front, cap), front, last, cap);
      }
    }
  }

  // Paragraphs.

  predicate Twins(a: Block, b: Block) {
    (a.Prose? && b.Prose?) || (a.Thinking? && b.Thinking?)
  }

  /** No text block follows one of its own kind. */
  ghost predicate NoTwins(blocks: seq<Block>) {
    forall i | 0 < i < |blocks| :: !Twins(blocks[i - 1], blocks[i])
  }

  lemma TextNoTwins(blocks: seq<Block>, thinking: bool, text: string, agent: string, cap: Cap)
    requires NoTwins(blocks)
    ensures NoTwins(AppendText(blocks, thinking, text, agent, cap))
  {
  }

  lemma OtherNoTwins(blocks: seq<Block>, after: seq<Block>)
    requires NoTwins(blocks) && |blocks| <= |after| <= |blocks| + 1
    requires forall i | 0 <= i < |blocks| :: SameKind(blocks[i], after[i])
    requires |after| > |blocks| ==> after[|blocks|].Call? || after[|blocks|].Tool?
    ensures NoTwins(after)
  {
  }

  lemma NewBlockIsNoText(s: RunState, item: Item, now: real, cap: Cap)
    requires !item.RunStarted? && !item.TokenDelta?
    ensures var after := ApplyItem(s, item, now, cap).blocks;
            |after| > |s.blocks| ==> after[|s.blocks|].Call? || after[|s.blocks|].Tool?
  {
  }

  /** Deltas of one kind go on in one block until something else is shown. */
  lemma {:induction false} TextStaysTogether(items: seq<Timed>, cap: Cap)
    ensures NoTwins(Fold(items, cap).blocks)
  {
    if items != [] {
      var front, last := items[..|items| - 1], items[|items| - 1];
      var s, item := Fold(front, cap), last.item;
      TextStaysTogether(front, cap);
      if item.TokenDelta? {
        TextNoTwins(s.blocks, item.kind == "thinking", item.text, item.agent, cap);
      } else if !item.RunStarted? {
        BlocksStay(s, item, last.now, cap);
        NewBlockIsNoText(s, item, last.now, cap);
        OtherNoTwins(s.blocks, ApplyItem(s, item, last.now, cap).blocks);
      }
    }
  }

  // Repeats.

  /** Whether the last thing shown is a tool call, once this item of the run is in. */
  function NowTool(last: bool, speaking: bool, item: Item): bool {
    item.ToolCallStarted? || (last && !item.LLMCallStarted? && !(item.TokenDelta? && speaking))
  }

  /** The last block there is shows a tool call. */
  predicate ToolIsLast(items: seq<Timed>) {
    items != [] &&
    var front, item := items[..|items| - 1], items[|items| - 1].item;
    !item.RunStarted? &&
    if IsOwn(front, item) then NowTool(ToolIsLast(front), Speaking(front), item) else ToolIsLast(front)
  }

  /** A start that says again what the last call said, once that one has its result and nothing
      else has been shown since. */
  predicate SaysAgain(items: seq<Timed>, item: Item) {
    ToolIsLast(items) && item.ToolCallStarted? && Calls(items) != [] &&
    var c := Calls(items)[|Calls(items)| - 1];
    c.result.Some? && c.start.ToolCallStarted? && c.start.tool == item.tool
    && NormalizeInput(c.start.input) == NormalizeInput(item.input) && c.start.delegate == item.delegate
  }

  /** The starts of the run that are no repeats. */
  function Openings(items: seq<Timed>): nat {
    if items == [] then 0 else
      var front, item := items[..|items| - 1], items[|items| - 1].item;
      if item.RunStarted? then 0
      else if IsOwn(front, item) && item.ToolCallStarted? && !SaysAgain(front, item) then Openings(front) + 1
      else Openings(front)
  }

  predicate EndsOnTool(blocks: seq<Block>) {
    blocks != [] && blocks[|blocks| - 1].Tool?
  }

  function ToolCount(blocks: seq<Block>): nat {
    if blocks == [] then 0
    else ToolCount(blocks[..|blocks| - 1]) + if blocks[|blocks| - 1].Tool? then 1 else 0
  }

  lemma ToolCountMore(blocks: seq<Block>, b: Block)
    ensures ToolCount(blocks + [b]) == ToolCount(blocks) + if b.Tool? then 1 else 0
  {
    assert (blocks + [b])[..|blocks|] == blocks;
  }

  lemma {:induction false} ToolCountSame(a: seq<Block>, b: seq<Block>)
    requires |a| == |b| && forall i | 0 <= i < |a| :: a[i].Tool? == b[i].Tool?
    ensures ToolCount(a) == ToolCount(b)
  {
    if a != [] {
      ToolCountSame(a[..|a| - 1], b[..|b| - 1]);
    }
  }

  /** The last block, if it shows a call, shows the newest. */
  lemma NewestIsLast(blocks: seq<Block>, calls: seq<Made>, at: seq<int>)
    requires Told(blocks, calls, at) && EndsOnTool(blocks)
    ensures calls != [] && Shows(blocks[|blocks| - 1], calls[|calls| - 1])
  {
    var n := |blocks| - 1;
    assert at[n] >= 0;
    var j :| 0 <= j < |at| && at[j] == |calls| - 1;
  }

  /** A block is opened again by exactly the starts that repeat its call. */
  lemma RepeatsAreTold(blocks: seq<Block>, front: seq<Timed>, at: seq<int>, item: Item)
    requires Told(blocks, Calls(front), at) && item.ToolCallStarted? && (EndsOnTool(blocks) <==> ToolIsLast(front))
    ensures IsRepeat(blocks, item.tool, NormalizeInput(item.input), item.delegate) <==> SaysAgain(front, item)
  {
    if EndsOnTool(blocks) {
      NewestIsLast(blocks, Calls(front), at);
    }
  }

  lemma StartOpens(blocks: seq<Block>, tool: string, input: string, delegate: string, agent: string)
    ensures var after := StartTool(blocks, tool, input, delegate, agent);
            && EndsOnTool(after)
            && ToolCount(after) == ToolCount(blocks) + if IsRepeat(blocks, tool, input, delegate) then 0 else 1
  {
    if IsRepeat(blocks, tool, input, delegate) {
      ToolCountSame(blocks, StartTool(blocks, tool, input, delegate, agent));
    } else {
      ToolCountMore(blocks, Tool(agent, tool, input, Running, 0.0, "", None, 1, delegate, "", 0));
    }
  }

  lemma TextOpensNoTool(blocks: seq<Block>, thinking: bool, text: string, agent: string, cap: Cap)
    ensures var after := AppendText(blocks, thinking, text, agent, cap);
            !EndsOnTool(after) && ToolCount(after) == ToolCount(blocks)
  {
    var after := AppendText(blocks, thinking, text, agent, cap);
    if |after| == |blocks| {
      ToolCountSame(blocks, after);
    } else {
      ToolCountMore(blocks, after[|blocks|]);
    }
  }

  lemma CallOpensNoTool(s: RunState, item: Item, now: real)
    requires item.LLMCallStarted?
    ensures var after := ApplyOwn(s, item, now).blocks;
            !EndsOnTool(after) && ToolCount(after) == ToolCount(s.blocks)
  {
    ToolCountMore(s.blocks, Call(item.agent, item.index, item.model, false, 0.0));
  }

  lemma OthersOpenNothing(s: RunState, item: Item, now: real, cap: Cap)
    requires IsResult(item) || item.ToolSummaryReady? || item.RunFinished? || item.RunFailed? || item.LLMCallFinished?
    ensures var after := ApplyItem(s, item, now, cap).blocks;
            EndsOnTool(after) == EndsOnTool(s.blocks) && ToolCount(after) == ToolCount(s.blocks)
  {
    ToolCountSame(s.blocks, ApplyItem(s, item, now, cap).blocks);
  }

  lemma OpeningStep(s: RunState, item: Item, now: real, cap: Cap)
    requires !item.RunStarted? && !item.Unknown? && item.run == s.runId
    ensures var after := ApplyItem(s, item, now, cap).blocks;
            && EndsOnTool(after) == NowTool(EndsOnTool(s.blocks), s.status.Live?, item)
            && ToolCount(after) == ToolCount(s.blocks) +
                 if item.ToolCallStarted? && !IsRepeat(s.blocks, item.tool, NormalizeInput(item.input), item.delegate) then 1 else 0
  {
    if item.TokenDelta? {
      DeltaBlocks(s, item, now, cap);
      TextOpensNoTool(s.blocks, item.kind == "thinking", item.text, item.agent, cap);
    } else if item.ToolCallStarted? {
      StartBlocks(s, item, now, cap);
      StartOpens(s.blocks, item.tool, NormalizeInput(item.input), item.delegate, item.agent);
    } else if item.LLMCallStarted? {
      CallOpensNoTool(s, item, now);
    } else {
      OthersOpenNothing(s, item, now, cap);
    }
  }

  lemma OpeningsAdd(front: seq<Timed>, last: Timed)
    requires IsOwn(front, last.item)
    ensures var items, item := front + [last], last.item;
            && Openings(items) == Openings(front) + (if item.ToolCallStarted? && !SaysAgain(front, item) then 1 else 0)
            && ToolIsLast(items) == NowTool(ToolIsLast(front), Speaking(front), item)
  {
    assert (front + [last])[..|front|] == front;
  }

  /** There is one tool block for every call that does not say again what the last thing shown, an
      ended call, said. */
  lemma {:induction false} RepeatsGoOn(items: seq<Timed>, cap: Cap)
    ensures ToolCount(Fold(items, cap).blocks) == Openings(items)
    ensures EndsOnTool(Fold(items, cap).blocks) <==> ToolIsLast(items)
  {
    if items != [] {
      var front, last := items[..|items| - 1], items[|items| - 1];
      var s, item := Fold(front, cap), last.item;
      RepeatsGoOn(front, cap);
      ToolBlocksConserved(front, cap, "");
      if IsOwn(front, item) {
        var at := OutcomesAreTold(front, cap);
        LiveIsSpeaking(front, cap);
        OpeningStep(s, item, last.now, cap);
        if item.ToolCallStarted? {
          RepeatsAreTold(s.blocks, front, at, item);
        }
        assert items == front + [last];
        OpeningsAdd(front, last);
      } else if !item.RunStarted? {
        StrangerLeavesBlocks(s, item, last.now, cap);
      }
    }
  }

  /** A block is signed by the agent whose item opened it, for good. */
  lemma BlocksAreSigned(s: RunState, item: Item, now: real, cap: Cap)
    requires !item.RunStarted?
    ensures var after := ApplyItem(s, item, now, cap).blocks;
            && |s.blocks| <= |after| <= |s.blocks| + 1
            && (forall i | 0 <= i < |s.blocks| :: after[i].agent == s.blocks[i].agent)
            && (|after| > |s.blocks| ==> after[|s.blocks|].agent == item.agent)
  {
    BlocksStay(s, item, now, cap);
  }
}
