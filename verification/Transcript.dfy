/** What the text blocks of a run hold (tui_kit/run_model.py:111-130): the deltas, joined,
    each block cut to its last characters. */
module Transcript {
  import opened RunModel

  predicate IsText(b: Block, thinking: bool) {
    if thinking then b.Thinking? else b.Prose?
  }

  function Shorten(b: Block, cap: Cap): Block {
    if b.Prose? || b.Thinking? then b.(text := Keep(b.text, cap)) else b
  }

  function ShortenAll(blocks: seq<Block>, cap: Cap): (r: seq<Block>)
    ensures |r| == |blocks| && forall i | 0 <= i < |r| :: r[i] == Shorten(blocks[i], cap)
  {
    seq(|blocks|, i requires 0 <= i < |blocks| => Shorten(blocks[i], cap))
  }

  function Shortened(s: RunState, cap: Cap): RunState {
    s.(blocks := ShortenAll(s.blocks, cap))
  }

  lemma KeepTwice(text: string, more: string, cap: Cap)
    ensures Keep(Keep(text, cap) + more, cap) == Keep(text + more, cap)
  {
    if cap.Last? && |text| > cap.n {
      var cut := |text| - cap.n;
      assert text + more == text[..cut] + (text[cut..] + more);
    }
  }

  lemma AppendShortened(blocks: seq<Block>, thinking: bool, text: string, agent: string, cap: Cap)
    ensures AppendText(ShortenAll(blocks, cap), thinking, text, agent, cap)
              == ShortenAll(AppendText(blocks, thinking, text, agent, Unlimited), cap)
  {
    var n := |blocks|;
    if n > 0 && IsText(blocks[n - 1], thinking) {
      KeepTwice(blocks[n - 1].text, text, cap);
      ShortenAt(blocks, cap, n - 1, blocks[n - 1].(text := blocks[n - 1].text + text));
    } else {
      ShortenMore(blocks, cap, if thinking then Thinking(agent, text) else Prose(agent, text));
    }
  }

  lemma ShortenAt(blocks: seq<Block>, cap: Cap, i: nat, b: Block)
    requires i < |blocks|
    ensures ShortenAll(blocks[i := b], cap) == ShortenAll(blocks, cap)[i := Shorten(b, cap)]
  {
  }

  lemma ShortenMore(blocks: seq<Block>, cap: Cap, b: Block)
    ensures ShortenAll(blocks + [b], cap) == ShortenAll(blocks, cap) + [Shorten(b, cap)]
  {
  }

  lemma {:induction false} FindShortened(blocks: seq<Block>, cap: Cap, which: Block -> bool)
    requires forall b | b in blocks :: which(Shorten(b, cap)) == which(b)
    ensures FindLast(ShortenAll(blocks, cap), which) == FindLast(blocks, which)
  {
    if blocks != [] {
      var front := blocks[..|blocks| - 1];
      assert ShortenAll(blocks, cap)[..|blocks| - 1] == ShortenAll(front, cap);
      assert blocks[|blocks| - 1] in blocks;
      FindShortened(front, cap, which);
    }
  }

  lemma ReceiverShortened(blocks: seq<Block>, cap: Cap, tool: string, input: string)
    ensures Receiver(ShortenAll(blocks, cap), tool, input) == Receiver(blocks, tool, input)
  {
    var wanted := NormalizeInput(input);
    FindShortened(blocks, cap, b => RunningTool(b, tool) && b.input == wanted);
    FindShortened(blocks, cap, b => RunningTool(b, tool));
  }

  lemma ResultShortened(s: RunState, item: Item, now: real, cap: Cap)
    requires item.ToolCallFinished? || item.ToolCallFailed?
    ensures ApplyOwn(Shortened(s, cap), item, now) == Shortened(ApplyOwn(s, item, now), cap)
  {
    ReceiverShortened(s.blocks, cap, item.tool, item.input);
    assert ApplyOwn(Shortened(s, cap), item, now).blocks == ShortenAll(ApplyOwn(s, item, now).blocks, cap);
  }

  lemma StartShortened(blocks: seq<Block>, cap: Cap, tool: string, input: string, delegate: string, agent: string)
    ensures StartTool(ShortenAll(blocks, cap), tool, input, delegate, agent)
              == ShortenAll(StartTool(blocks, tool, input, delegate, agent), cap)
  {
  }

  lemma CallShortened(s: RunState, item: Item, now: real, cap: Cap)
    requires item.LLMCallStarted? || item.LLMCallFinished?
    ensures ApplyOwn(Shortened(s, cap), item, now) == Shortened(ApplyOwn(s, item, now), cap)
  {
    var n := |s.blocks|;
    if item.LLMCallStarted? {
      ShortenMore(s.blocks, cap, Call(item.agent, item.index, item.model, false, 0.0));
    } else if n > 0 && s.blocks[n - 1].Call? {
      ShortenAt(s.blocks, cap, n - 1, s.blocks[n - 1].(finished := true, duration := item.duration));
    }
  }

  lemma OwnShortened(s: RunState, item: Item, now: real, cap: Cap)
    requires !item.ToolCallFinished? && !item.ToolCallFailed?
    ensures ApplyOwn(Shortened(s, cap), item, now) == Shortened(ApplyOwn(s, item, now), cap)
  {
    if item.ToolCallStarted? {
      StartShortened(s.blocks, cap, item.tool, NormalizeInput(item.input), item.delegate, item.agent);
    } else if item.LLMCallStarted? || item.LLMCallFinished? {
      CallShortened(s, item, now, cap);
    }
  }

  lemma SummaryShortened(s: RunState, item: Item, now: real, cap: Cap)
    requires item.ToolSummaryReady?
    ensures ApplyItem(Shortened(s, cap), item, now, cap) == Shortened(ApplyItem(s, item, now, Unlimited), cap)
  {
    FindShortened(s.blocks, cap, b => Unsummarized(b, item.tool, item.input));
    assert ApplyItem(Shortened(s, cap), item, now, cap).blocks
        == ShortenAll(ApplyItem(s, item, now, Unlimited).blocks, cap);
  }

  lemma DeltaShortened(s: RunState, item: Item, now: real, cap: Cap)
    requires item.TokenDelta?
    ensures ApplyItem(Shortened(s, cap), item, now, cap) == Shortened(ApplyItem(s, item, now, Unlimited), cap)
  {
    AppendShortened(s.blocks, item.kind == "thinking", item.text, item.agent, cap);
  }

  /** Cutting as the text arrives is the same as cutting at the end. */
  lemma StepShortened(s: RunState, item: Item, now: real, cap: Cap)
    ensures ApplyItem(Shortened(s, cap), item, now, cap) == Shortened(ApplyItem(s, item, now, Unlimited), cap)
  {
    if item.TokenDelta? {
      DeltaShortened(s, item, now, cap);
    } else if item.ToolSummaryReady? {
      SummaryShortened(s, item, now, cap);
    } else if item.RunStarted? {
      assert ShortenAll([], cap) == [];
    } else if item.ToolCallFinished? || item.ToolCallFailed? {
      ResultShortened(s, item, now, cap);
    } else {
      OwnShortened(s, item, now, cap);
    }
  }

  lemma {:induction false} FoldShortened(items: seq<Timed>, cap: Cap)
    ensures Fold(items, cap) == Shortened(Fold(items, Unlimited), cap)
  {
    if items != [] {
      var last := items[|items| - 1];
      FoldShortened(items[..|items| - 1], cap);
      StepShortened(Fold(items[..|items| - 1], Unlimited), last.item, last.now, cap);
    }
  }

  /** Whether the run is under way, by its starts and ends alone. */
  predicate Speaking(items: seq<Timed>) {
    items != [] &&
    var before, item := items[..|items| - 1], items[|items| - 1].item;
    item.RunStarted? ||
    (Speaking(before) && !((item.RunFinished? || item.RunFailed?) && item.run == CurrentRun(before)))
  }

  /** The deltas of one kind heard since the run began, joined. */
  function Heard(items: seq<Timed>, thinking: bool): string {
    if items == [] then "" else
      var before, item := items[..|items| - 1], items[|items| - 1].item;
      if item.RunStarted? then ""
      else if item.TokenDelta? && Speaking(before) && item.run == CurrentRun(before)
              && (item.kind == "thinking") == thinking then Heard(before, thinking) + item.text
      else Heard(before, thinking)
  }

  function TextOf(b: Block, thinking: bool): string {
    if IsText(b, thinking) then b.text else ""
  }

  function Said(blocks: seq<Block>, thinking: bool): string {
    if blocks == [] then ""
    else Said(blocks[..|blocks| - 1], thinking) + TextOf(blocks[|blocks| - 1], thinking)
  }

  lemma SaidMore(blocks: seq<Block>, b: Block, thinking: bool)
    ensures Said(blocks + [b], thinking) == Said(blocks, thinking) + TextOf(b, thinking)
  {
    assert (blocks + [b])[..|blocks|] == blocks;
  }

  lemma {:induction false} SaidSame(a: seq<Block>, b: seq<Block>, thinking: bool)
    requires |a| == |b| && forall i | 0 <= i < |a| :: TextOf(a[i], thinking) == TextOf(b[i], thinking)
    ensures Said(a, thinking) == Said(b, thinking)
  {
    if a != [] {
      SaidSame(a[..|a| - 1], b[..|b| - 1], thinking);
    }
  }

  lemma TextGrows(b: Block, text: string, kind: bool, thinking: bool)
    requires IsText(b, kind)
    ensures TextOf(b.(text := b.text + text), thinking) == TextOf(b, thinking) + if kind == thinking then text else ""
  {
  }

  lemma Join(a: string, b: string, c: string)
    ensures a + (b + c) == (a + b) + c
  {
  }

  /** What is said once the last block is replaced. */
  lemma SaidPut(blocks: seq<Block>, b: Block, thinking: bool)
    requires blocks != []
    ensures Said(blocks[|blocks| - 1 := b], thinking) == Said(blocks[..|blocks| - 1], thinking) + TextOf(b, thinking)
  {
    assert blocks[|blocks| - 1 := b][..|blocks| - 1] == blocks[..|blocks| - 1];
  }

  lemma GrowSaid(blocks: seq<Block>, kind: bool, text: string, thinking: bool)
    requires blocks != [] && IsText(blocks[|blocks| - 1], kind)
    ensures var last := blocks[|blocks| - 1];
            Said(blocks[|blocks| - 1 := last.(text := last.text + text)], thinking)
              == Said(blocks, thinking) + if kind == thinking then text else ""
  {
    var last := blocks[|blocks| - 1];
    SaidPut(blocks, last.(text := last.text + text), thinking);
    TextGrows(last, text, kind, thinking);
    Join(Said(blocks[..|blocks| - 1], thinking), TextOf(last, thinking), if kind == thinking then text else "");
  }

  lemma AppendSaid(blocks: seq<Block>, kind: bool, text: string, agent: string, thinking: bool)
    ensures Said(AppendText(blocks, kind, text, agent, Unlimited), thinking)
              == Said(blocks, thinking) + if kind == thinking then text else ""
  {
    var n := |blocks|;
    if n > 0 && IsText(blocks[n - 1], kind) {
      GrowSaid(blocks, kind, text, thinking);
    } else {
      SaidMore(blocks, if kind then Thinking(agent, text) else Prose(agent, text), thinking);
    }
  }

  lemma UpdateSaid(blocks: seq<Block>, i: nat, b: Block, thinking: bool)
    requires i < |blocks| && TextOf(b, thinking) == TextOf(blocks[i], thinking)
    ensures Said(blocks[i := b], thinking) == Said(blocks, thinking)
  {
    SaidSame(blocks, blocks[i := b], thinking);
  }

  lemma StartSaid(blocks: seq<Block>, tool: string, input: string, delegate: string, agent: string, thinking: bool)
    ensures Said(StartTool(blocks, tool, input, delegate, agent), thinking) == Said(blocks, thinking)
  {
    var after := StartTool(blocks, tool, input, delegate, agent);
    if IsRepeat(blocks, tool, input, delegate) {
      UpdateSaid(blocks, |blocks| - 1, after[|blocks| - 1], thinking);
    } else {
      SaidMore(blocks, after[|blocks|], thinking);
    }
  }

  lemma ResultSaid(s: RunState, item: Item, now: real, thinking: bool)
    requires item.ToolCallFinished? || item.ToolCallFailed?
    ensures Said(ApplyOwn(s, item, now).blocks, thinking) == Said(s.blocks, thinking)
  {
    var i := Receiver(s.blocks, item.tool, item.input);
    if i.Some? {
      UpdateSaid(s.blocks, i.value, ApplyOwn(s, item, now).blocks[i.value], thinking);
    }
  }

  lemma CallStartedSaid(s: RunState, item: Item, now: real, thinking: bool)
    requires item.LLMCallStarted?
    ensures Said(ApplyOwn(s, item, now).blocks, thinking) == Said(s.blocks, thinking)
  {
    SaidMore(s.blocks, Call(item.agent, item.index, item.model, false, 0.0), thinking);
  }

  /** A block put in place of the last one, neither of them text. */
  lemma SilentPut(blocks: seq<Block>, b: Block, thinking: bool)
    requires blocks != [] && blocks[|blocks| - 1].Call? && b.Call?
    ensures Said(blocks[|blocks| - 1 := b], thinking) == Said(blocks, thinking)
  {
    SaidPut(blocks, b, thinking);
  }

  lemma CallFinishedSaid(s: RunState, item: Item, now: real, thinking: bool)
    requires item.LLMCallFinished?
    ensures Said(ApplyOwn(s, item, now).blocks, thinking) == Said(s.blocks, thinking)
  {
    if s.blocks != [] && s.blocks[|s.blocks| - 1].Call? {
      SilentPut(s.blocks, s.blocks[|s.blocks| - 1].(finished := true, duration := item.duration), thinking);
    }
  }

  /** The other arms leave what was said alone. */
  lemma OwnSaid(s: RunState, item: Item, now: real, thinking: bool)
    ensures Said(ApplyOwn(s, item, now).blocks, thinking) == Said(s.blocks, thinking)
  {
    if item.ToolCallStarted? {
      StartSaid(s.blocks, item.tool, NormalizeInput(item.input), item.delegate, item.agent, thinking);
    } else if item.ToolCallFinished? || item.ToolCallFailed? {
      ResultSaid(s, item, now, thinking);
    } else if item.LLMCallStarted? {
      CallStartedSaid(s, item, now, thinking);
    } else if item.LLMCallFinished? {
      CallFinishedSaid(s, item, now, thinking);
    }
  }

  lemma StepSaid(s: RunState, item: Item, now: real, thinking: bool)
    requires !item.RunStarted?
    ensures Said(ApplyItem(s, item, now, Unlimited).blocks, thinking)
              == if item.TokenDelta? && s.status.Live? && item.run == s.runId && (item.kind == "thinking") == thinking
                 then Said(s.blocks, thinking) + item.text else Said(s.blocks, thinking)
  {
    if item.TokenDelta? {
      AppendSaid(s.blocks, item.kind == "thinking", item.text, item.agent, thinking);
    } else if item.ToolSummaryReady? {
      SaidSame(s.blocks, ApplyItem(s, item, now, Unlimited).blocks, thinking);
    } else if !item.Unknown? && item.run == s.runId {
      OwnSaid(s, item, now, thinking);
    }
  }

  lemma StepStatus(s: RunState, item: Item, now: real)
    ensures var s' := ApplyItem(s, item, now, Unlimited);
            && s'.runId == (if item.RunStarted? then item.run else s.runId)
            && (s'.status.Live? <==>
                item.RunStarted? || (s.status.Live? && !((item.RunFinished? || item.RunFailed?) && item.run == s.runId)))
  {
  }

  lemma {:induction false} StatusTracksStream(items: seq<Timed>)
    ensures Fold(items, Unlimited).status.Live? <==> Speaking(items)
    ensures Fold(items, Unlimited).runId == CurrentRun(items)
  {
    if items != [] {
      StatusTracksStream(items[..|items| - 1]);
      StepStatus(Fold(items[..|items| - 1], Unlimited), items[|items| - 1].item, items[|items| - 1].now);
    }
  }

  /** With no cap, the blocks of each kind hold exactly what was heard of that kind. */
  lemma {:induction false} NothingHeardIsLost(items: seq<Timed>, thinking: bool)
    ensures Said(Fold(items, Unlimited).blocks, thinking) == Heard(items, thinking)
  {
    if items != [] {
      var before, last := items[..|items| - 1], items[|items| - 1];
      NothingHeardIsLost(before, thinking);
      StatusTracksStream(before);
      if !last.item.RunStarted? {
        StepSaid(Fold(before, Unlimited), last.item, last.now, thinking);
      }
    }
  }
}
