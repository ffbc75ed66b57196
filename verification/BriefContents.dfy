/** What a drafted brief says, and which drafts become briefs (novelizer/agents/intents.py:660-707),
    in terms of what was asked for. */
module BriefContents {
  import opened Options
  import opened Briefs

  // Ids.

  predicate AllBlank(s: string) {
    forall i | 0 <= i < |s| :: Blank(s[i])
  }

  /** `s` begins and ends on a character that shows. */
  predicate Bare(s: string) {
    s != "" ==> !Blank(s[0]) && !Blank(s[|s| - 1])
  }

  /** `middle` is `s` without some blanks at its ends. */
  ghost predicate Strips(s: string, left: string, middle: string, right: string) {
    s == left + middle + right && AllBlank(left) && AllBlank(right)
  }

  lemma {:induction false} StripLeftIs(s: string) returns (left: string)
    ensures s == left + StripLeft(s) && AllBlank(left)
    ensures StripLeft(s) != "" ==> !Blank(StripLeft(s)[0])
  {
    if s != "" && Blank(s[0]) {
      var rest := StripLeftIs(s[1..]);
      left := [s[0]] + rest;
    } else {
      left := "";
    }
  }

  lemma {:induction false} StripRightIs(s: string) returns (right: string)
    ensures s == StripRight(s) + right && AllBlank(right)
    ensures StripRight(s) != "" ==> !Blank(StripRight(s)[|StripRight(s)| - 1]) && StripRight(s)[0] == s[0]
  {
    if s != "" && Blank(s[|s| - 1]) {
      var rest := StripRightIs(s[..|s| - 1]);
      right := rest + [s[|s| - 1]];
    } else {
      right := "";
    }
  }

  /** Stripping takes the blanks at both ends and nothing else. */
  lemma StripIs(s: string) returns (left: string, right: string)
    ensures Strips(s, left, Strip(s), right) && Bare(Strip(s))
  {
    left := StripLeftIs(s);
    right := StripRightIs(StripLeft(s));
  }

  /** A text strips to nothing exactly when it is blank all through. */
  lemma StripsToNothing(s: string)
    ensures Strip(s) == "" <==> AllBlank(s)
  {
    var left, right := StripIs(s);
    var middle := Strip(s);
    if middle != "" {
      assert s[|left|] == middle[0];
    } else {
      assert s == left + right;
    }
  }

  predicate Lowered(low: string, s: string) {
    && |low| == |s|
    && forall i | 0 <= i < |s| :: low[i] == if 'A' <= s[i] <= 'Z' then s[i] - 'A' + 'a' else s[i]
  }

  /** A normalized id is the raw one in lower case without the blanks at its ends, and
      normalizing it again changes nothing. */
  lemma NormalizedIs(raw: string) returns (left: string, middle: string, right: string)
    ensures Strips(raw, left, middle, right) && Bare(middle)
    ensures Lowered(NormalizeId(raw), middle)
    ensures NormalizeId(NormalizeId(raw)) == NormalizeId(raw)
  {
    left, right := StripIs(raw);
    middle := Strip(raw);
    var id := NormalizeId(raw);
    BareStaysBare(id);
    assert Lower(id) == id;
  }

  lemma BareStaysBare(s: string)
    requires Bare(s)
    ensures Strip(s) == s
  {
  }

  // Citations.

  /** `at` are the places of the citations that are active once normalized, and `kept` are those
      citations, normalized. */
  ghost predicate KeptAt(cited: seq<string>, active: set<string>, kept: seq<string>, at: seq<nat>) {
    && |at| == |kept|
    && (forall k | 0 <= k < |at| :: at[k] < |cited| && kept[k] == NormalizeId(cited[at[k]]) && kept[k] in active)
    && (forall j, k | 0 <= j < k < |at| :: at[j] < at[k])
    && (forall i | 0 <= i < |cited| && NormalizeId(cited[i]) in active :: i in at)
  }

  ghost predicate Keeps(cited: seq<string>, active: set<string>, kept: seq<string>) {
    exists at :: KeptAt(cited, active, kept, at)
  }

  lemma KeptOne(cited: seq<string>, active: set<string>, kept: seq<string>, at: seq<nat>, c: string)
    requires KeptAt(cited, active, kept, at)
    ensures NormalizeId(c) in active ==> KeptAt(cited + [c], active, kept + [NormalizeId(c)], at + [|cited|])
    ensures NormalizeId(c) !in active ==> KeptAt(cited + [c], active, kept, at)
  {
    var at' := at + [|cited|];
    assert at'[|at|] == |cited| && forall i | i in at :: i in at';
  }

  /** The citations kept are those active, each as often as it is cited, in the order cited. */
  lemma {:induction false} ActiveKeeps(cited: seq<string>, active: set<string>) returns (at: seq<nat>)
    ensures KeptAt(cited, active, Active(cited, active), at)
  {
    if cited == [] {
      at := [];
    } else {
      var front, last := cited[..|cited| - 1], cited[|cited| - 1];
      var before := ActiveKeeps(front, active);
      KeptOne(front, active, Active(front, active), before, last);
      assert cited == front + [last];
      at := if NormalizeId(last) in active then before + [|front|] else before;
    }
  }

  function TimesCited(cited: seq<string>, id: string): nat {
    if cited == [] then 0
    else TimesCited(cited[..|cited| - 1], id) + if NormalizeId(cited[|cited| - 1]) == id then 1 else 0
  }

  lemma {:induction false} ActiveAsOften(cited: seq<string>, active: set<string>, id: string)
    ensures multiset(Active(cited, active))[id] == if id in active then TimesCited(cited, id) else 0
  {
    if cited != [] {
      ActiveAsOften(cited[..|cited| - 1], active, id);
    }
  }

  /** Of the briefs listed for an ordinal the pass knows the last. */
  lemma {:induction false} IndexTakesTheLast(open: seq<Listed>, i: nat)
    requires i < |open| && forall j | i < j < |open| :: open[j].ordinal != open[i].ordinal
    ensures open[i].ordinal in ByOrdinal(open) && ByOrdinal(open)[open[i].ordinal] == open[i].id
  {
    if i < |open| - 1 {
      IndexTakesTheLast(open[..|open| - 1], i);
    }
  }

  // What is in the table.

  /** A plan as it was asked for, with its citations cut to the active ones. */
  ghost predicate AsAsked(plan: Plan, asked: Plan, ctx: Context) {
    && Keeps(asked.threads, ctx.threads, plan.threads)
    && Keeps(asked.beats, ctx.beats, plan.beats)
    && Keeps(asked.promises, ctx.promises, plan.promises)
    && plan.(threads := asked.threads, beats := asked.beats, promises := asked.promises) == asked
  }

  lemma TrimmedIsAsAsked(asked: Plan, ctx: Context)
    ensures AsAsked(Trimmed(asked, ctx), asked, ctx)
  {
    var threads := ActiveKeeps(asked.threads, ctx.threads);
    var beats := ActiveKeeps(asked.beats, ctx.beats);
    var promises := ActiveKeeps(asked.promises, ctx.promises);
  }

  /** A draft worth committing: it plans a chapter not yet drafted, and its goal says something. */
  predicate WorthDrafting(plan: Plan, ctx: Context) {
    plan.ordinal >= 1 && plan.ordinal > ctx.drafted && !AllBlank(plan.goal)
  }

  lemma {:induction false} MintedAt(intents: seq<Intent>, ids: seq<string>, ctx: Context, i: nat)
    requires |ids| == |intents| && i < |ids| && forall j, k | 0 <= j < k < |ids| :: ids[j] != ids[k]
    ensures ids[i] in Minted(intents, ids, ctx) <==> intents[i].Draft? && Accepted(intents[i], ctx)
  {
    var n := |ids| - 1;
    if i < n {
      MintedAt(intents[..n], ids[..n], ctx, i);
    } else {
      assert forall j | 0 <= j < n :: ids[..n][j] != ids[n];
    }
  }

  /** Exactly the drafts worth it become briefs, and each says what was asked: the same plan,
      citing exactly the active ones among the threads, beats and promises cited, as often and in
      the order they were, normalized. */
  lemma BriefsAreAsAsked(t0: Table, open: seq<Listed>, intents: seq<Intent>, ids: seq<string>, ctx: Context, i: nat)
    requires MayRun(t0, open, intents, ids) && i < |intents| && intents[i].Draft?
    ensures var t := After(t0, open, intents, ids, ctx);
            && (ids[i] in t <==> WorthDrafting(intents[i].plan, ctx))
            && (ids[i] in t ==> AsAsked(t[ids[i]].plan, intents[i].plan, ctx))
  {
    OnlyDraftsAreAdded(t0, open, intents, ids, ctx, ids[i]);
    MintedAt(intents, ids, ctx, i);
    StripsToNothing(intents[i].plan.goal);
    if Accepted(intents[i], ctx) {
      DraftsAreKept(t0, open, intents, ids, ctx, i);
      TrimmedIsAsAsked(intents[i].plan, ctx);
    }
  }

  // The story of one brief.

  predicate Drafts(e: Event, id: string) {
    e.Drafted? && e.id == id
  }

  predicate Closes(e: Event, id: string) {
    !e.Drafted? && e.id == id
  }

  /** Where a brief is drafted first. */
  function DraftedAt(events: seq<Event>, id: string): Option<nat> {
    if events == [] then None
    else if DraftedAt(events[..|events| - 1], id).Some? then DraftedAt(events[..|events| - 1], id)
    else if Drafts(events[|events| - 1], id) then Some(|events| - 1)
    else None
  }

  /** Where it is closed first after that. */
  function ClosedAt(events: seq<Event>, id: string): Option<nat> {
    if events == [] || DraftedAt(events[..|events| - 1], id).None? then None
    else if ClosedAt(events[..|events| - 1], id).Some? then ClosedAt(events[..|events| - 1], id)
    else if Closes(events[|events| - 1], id) then Some(|events| - 1)
    else None
  }

  function Closed(plan: Plan, e: Event): Brief {
    match e
    case Replaced(_, successor) => Brief(plan, Superseded, successor, "")
    case Written(_, chapter) => Brief(plan, Fulfilled, "", chapter)
    case Drafted(_, _) => Brief(plan, Open, "", "")
  }

  /** What its events make of a brief. */
  ghost predicate Tells(t: Table, id: string, events: seq<Event>) {
    match DraftedAt(events, id)
    case None => id !in t
    case Some(d) =>
      && d < |events| && Drafts(events[d], id) && id in t
      && match ClosedAt(events, id)
         case None => t[id] == Brief(events[d].plan, Open, "", "")
         case Some(c) => d < c < |events| && Closes(events[c], id) && t[id] == Closed(events[d].plan, events[c])
  }

  /** A brief is there once drafted, with the plan it was drafted with first, and open until the
      first event after that closes it; how it is closed and by whom is what that event says. */
  lemma {:induction false} BriefsTellTheirStory(events: seq<Event>, id: string)
    ensures Tells(ProjectAll(map[], events), id, events)
  {
    if events != [] {
      var front, last := events[..|events| - 1], events[|events| - 1];
      BriefsTellTheirStory(front, id);
      assert forall i | 0 <= i < |front| :: events[i] == front[i];
    }
  }

  // Between the events of a pass.

  lemma TakeAdds(p: Progress, intent: Intent, id: string, ctx: Context)
    ensures var p' := Take(p, intent, id, ctx);
            || p'.events == p.events
            || (exists e: Event :: p'.events == p.events + [e])
            || (exists a: Event, b: Event :: !a.Drafted? && p'.events == p.events + [a, b])
  {
    if Accepted(intent, ctx) && intent.Draft? {
      var o, new1 := intent.plan.ordinal, Drafted(id, Trimmed(intent.plan, ctx));
      if o in p.byOrdinal {
        var a := Replaced(p.byOrdinal[o], id);
        assert p.events + [a] + [new1] == p.events + [a, new1];
      } else {
        assert p.events + [] + [new1] == p.events + [new1];
      }
    }
  }

  lemma {:induction false} BetweenTwo(t0: Table, before: seq<Event>, after: seq<Event>, k: nat)
    requires |before| < k <= |after|
    requires (exists e: Event :: after == before + [e]) || (exists a: Event, b: Event :: !a.Drafted? && after == before + [a, b])
    requires OneOpen(ProjectAll(t0, before)) && OneOpen(ProjectAll(t0, after))
    ensures OneOpen(ProjectAll(t0, after[..k]))
  {
    if k == |after| {
      assert after[..k] == after;
    } else {
      var a: Event, b: Event :| !a.Drafted? && after == before + [a, b];
      assert after[..k] == before + [a];
      ProjectOne(t0, before, a);
      CloseKeepsOneOpen(ProjectAll(t0, before), a);
    }
  }

  /** However far the projector has got in the events of a pass, one brief is open per ordinal:
      a brief gives way before the one that takes over is drafted. */
  lemma {:induction false} OneOpenThroughout(t0: Table, open: seq<Listed>, intents: seq<Intent>, ids: seq<string>, ctx: Context, k: nat)
    requires MayRun(t0, open, intents, ids)
    requires k <= |TakeAll(ByOrdinal(open), intents, ids, ctx).events|
    ensures OneOpen(ProjectAll(t0, TakeAll(ByOrdinal(open), intents, ids, ctx).events[..k]))
  {
    var events := TakeAll(ByOrdinal(open), intents, ids, ctx).events;
    if intents == [] {
      assert events[..k] == [];
      OneOpenPerOrdinal(t0, open, intents, ids, ctx);
    } else {
      var n := |intents| - 1;
      var p := TakeAll(ByOrdinal(open), intents[..n], ids[..n], ctx);
      TakeAdds(p, intents[n], ids[n], ctx);
      if k <= |p.events| {
        OneOpenThroughout(t0, open, intents[..n], ids[..n], ctx, k);
        assert events[..k] == p.events[..k];
      } else {
        OneOpenPerOrdinal(t0, open, intents[..n], ids[..n], ctx);
        OneOpenPerOrdinal(t0, open, intents, ids, ctx);
        BetweenTwo(t0, p.events, events, k);
      }
    }
  }
}
