/** Chapter briefs: the events a planning pass commits (novelizer/agents/intents.py:626-719)
    and the table they project to (novelizer/canon/projections/outline.py:111-153). */
module Briefs {
  import opened Options

  datatype Status = Open | Superseded | Fulfilled

  datatype Plan = Plan(ordinal: int, goal: string, pov: string, threads: seq<string>, beats: seq<string>,
                       promises: seq<string>, valueShift: string, outcome: string, synopsis: string)

  datatype Brief = Brief(plan: Plan, status: Status, supersededBy: string, fulfilledBy: string)

  /** The chapter_briefs table, by brief id. */
  type Table = map<string, Brief>

  datatype Intent = Draft(plan: Plan) | Supersede(id: string)

  datatype Event = Drafted(id: string, plan: Plan) | Replaced(id: string, successor: string) | Written(id: string, chapter: string)

  // Ids.

  predicate Blank(c: char) {
    c in " \t\n\r\U{000B}\U{000C}"
  }

  function StripLeft(s: string): string {
    if s != "" && Blank(s[0]) then StripLeft(s[1..]) else s
  }

  function StripRight(s: string): string {
    if s != "" && Blank(s[|s| - 1]) then StripRight(s[..|s| - 1]) else s
  }

  function Strip(s: string): string {
    StripRight(StripLeft(s))
  }

  function Lower(s: string): string {
    seq(|s|, i requires 0 <= i < |s| => if 'A' <= s[i] <= 'Z' then s[i] - 'A' + 'a' else s[i])
  }

  function NormalizeId(raw: string): string {
    Lower(Strip(raw))
  }

  /** The cited ids that are active, normalized. */
  function Active(cited: seq<string>, active: set<string>): (r: seq<string>)
    ensures forall t | t in r :: t in active
  {
    if cited == [] then [] else
      var front, id := Active(cited[..|cited| - 1], active), NormalizeId(cited[|cited| - 1]);
      if id in active then front + [id] else front
  }

  // The pass.

  datatype Context = Context(openIds: set<string>, drafted: int,
                             threads: set<string>, beats: set<string>, promises: set<string>)

  function Trimmed(plan: Plan, ctx: Context): Plan {
    plan.(threads := Active(plan.threads, ctx.threads), beats := Active(plan.beats, ctx.beats),
          promises := Active(plan.promises, ctx.promises))
  }

  predicate Accepted(intent: Intent, ctx: Context) {
    match intent
    case Draft(plan) => plan.ordinal > 0 && plan.ordinal > ctx.drafted && Strip(plan.goal) != ""
    case Supersede(id) => NormalizeId(id) in ctx.openIds
  }

  /** The open brief the pass knows for each ordinal, and the events so far. */
  datatype Progress = Progress(byOrdinal: map<int, string>, events: seq<Event>)

  function Take(p: Progress, intent: Intent, id: string, ctx: Context): Progress {
    if !Accepted(intent, ctx) then p else
      match intent
      case Supersede(cited) => p.(events := p.events + [Replaced(NormalizeId(cited), "")])
      case Draft(plan) =>
        Progress(p.byOrdinal[plan.ordinal := id],
                 p.events + (if plan.ordinal in p.byOrdinal then [Replaced(p.byOrdinal[plan.ordinal], id)] else [])
                 + [Drafted(id, Trimmed(plan, ctx))])
  }

  /** `ids[i]` is the id minted for the i-th intent, if it drafts. */
  function TakeAll(start: map<int, string>, intents: seq<Intent>, ids: seq<string>, ctx: Context): Progress
    requires |ids| == |intents|
  {
    if intents == [] then Progress(start, []) else
      var n := |intents| - 1;
      Take(TakeAll(start, intents[..n], ids[..n], ctx), intents[n], ids[n], ctx)
  }

  /** A brief as the caller lists it. */
  datatype Listed = Listed(id: string, ordinal: int)

  function IdsOf(open: seq<Listed>): set<string> {
    set i | 0 <= i < |open| :: open[i].id
  }

  function ByOrdinal(open: seq<Listed>): map<int, string> {
    if open == [] then map[] else ByOrdinal(open[..|open| - 1])[open[|open| - 1].ordinal := open[|open| - 1].id]
  }

  method ActiveOf(cited: seq<string>, active: set<string>) returns (r: seq<string>)
    ensures r == Active(cited, active)
  {
    r := [];
    for i := 0 to |cited|
      invariant r == Active(cited[..i], active)
    {
      assert cited[..i + 1][..i] == cited[..i];
      if NormalizeId(cited[i]) in active {
        r := r + [NormalizeId(cited[i])];
      }
    }
    assert cited[..|cited|] == cited;
  }

  method IndexByOrdinal(open: seq<Listed>) returns (index: map<int, string>)
    ensures index == ByOrdinal(open)
  {
    index := map[];
    for i := 0 to |open|
      invariant index == ByOrdinal(open[..i])
    {
      assert open[..i + 1][..i] == open[..i];
      index := index[open[i].ordinal := open[i].id];
    }
    assert open[..|open|] == open;
  }

  method CommitBriefIntents(intents: seq<Intent>, ids: seq<string>, open: seq<Listed>, drafted: int,
                            threads: set<string>, beats: set<string>, promises: set<string>)
    returns (events: seq<Event>)
    requires |ids| == |intents|
    ensures events == TakeAll(ByOrdinal(open), intents, ids, Context(IdsOf(open), drafted, threads, beats, promises)).events
  {
    var openById := IdsOf(open);
    var openByOrdinal := IndexByOrdinal(open);
    ghost var ctx, start := Context(openById, drafted, threads, beats, promises), openByOrdinal;
    events := [];
    for i := 0 to |intents|
      invariant Progress(openByOrdinal, events) == TakeAll(start, intents[..i], ids[..i], ctx)
    {
      assert intents[..i + 1][..i] == intents[..i] && ids[..i + 1][..i] == ids[..i];
      match intents[i]
      case Draft(plan) =>
        if plan.ordinal <= 0 || plan.ordinal <= drafted {
          continue;
        }
        if Strip(plan.goal) == "" {
          continue;
        }
        var touched := ActiveOf(plan.threads, threads);
        var hit := ActiveOf(plan.beats, beats);
        var progressed := ActiveOf(plan.promises, promises);
        var id := ids[i];
        if plan.ordinal in openByOrdinal {
          events := events + [Replaced(openByOrdinal[plan.ordinal], id)];
        }
        events := events + [Drafted(id, plan.(threads := touched, beats := hit, promises := progressed))];
        openByOrdinal := openByOrdinal[plan.ordinal := id];
      case Supersede(cited) =>
        var id := NormalizeId(cited);
        if id !in openById {
          continue;
        }
        events := events + [Replaced(id, "")];
    }
    assert intents[..|intents|] == intents && ids[..|ids|] == ids;
  }

  // The projection.

  /** A drafted id is written once; only an open brief closes. */
  function Project(t: Table, e: Event): Table {
    match e
    case Drafted(id, plan) => if id in t then t else t[id := Brief(plan, Open, "", "")]
    case Replaced(id, successor) =>
      if id in t && t[id].status.Open? then t[id := t[id].(status := Superseded, supersededBy := successor)] else t
    case Written(id, chapter) =>
      if id in t && t[id].status.Open? then t[id := t[id].(status := Fulfilled, fulfilledBy := chapter)] else t
  }

  function ProjectAll(t: Table, events: seq<Event>): Table {
    if events == [] then t else Project(ProjectAll(t, events[..|events| - 1]), events[|events| - 1])
  }

  predicate IsOpen(t: Table, id: string) {
    id in t && t[id].status.Open?
  }

  ghost predicate OneOpen(t: Table) {
    forall a, b {:trigger IsOpen(t, a), IsOpen(t, b)} | IsOpen(t, a) && IsOpen(t, b) ::
      t[a].plan.ordinal == t[b].plan.ordinal ==> a == b
  }

  predicate InTable(t: Table, b: Listed) {
    b.id in t && t[b.id].plan.ordinal == b.ordinal
  }

  /** The list may be older than the table: every listed brief is there, open or closed since,
      and no ordinal is listed under two ids. */
  ghost predicate Known(t: Table, open: seq<Listed>) {
    && (forall i {:trigger open[i]} | 0 <= i < |open| :: InTable(t, open[i]))
    && (forall i, j {:trigger open[i], open[j]} | 0 <= i < |open| && 0 <= j < |open| ::
          open[i].ordinal == open[j].ordinal ==> open[i].id == open[j].id)
  }

  /** And no open brief is missing from it. */
  ghost predicate Lists(t: Table, open: seq<Listed>) {
    Known(t, open) && forall id {:trigger IsOpen(t, id)} | IsOpen(t, id) :: id in IdsOf(open)
  }

  /** A closed brief never changes again. */
  lemma {:induction false} Absorbing(t: Table, events: seq<Event>, id: string)
    requires id in t && !IsOpen(t, id)
    ensures id in ProjectAll(t, events) && ProjectAll(t, events)[id] == t[id]
  {
    if events != [] {
      Absorbing(t, events[..|events| - 1], id);
    }
  }

  lemma {:induction false} ProjectMore(t: Table, a: seq<Event>, b: seq<Event>)
    ensures ProjectAll(t, a + b) == ProjectAll(ProjectAll(t, a), b)
  {
    if b == [] {
      assert a + b == a;
    } else {
      assert (a + b)[..|a + b| - 1] == a + b[..|b| - 1];
      ProjectMore(t, a, b[..|b| - 1]);
    }
  }

  lemma ProjectOne(t: Table, a: seq<Event>, e: Event)
    ensures ProjectAll(t, a + [e]) == Project(ProjectAll(t, a), e)
  {
    assert (a + [e])[..|a|] == a;
  }

  // A pass, worked on the table directly.

  /** The table and the pass's index, side by side. */
  datatype Desk = Desk(table: Table, byOrdinal: map<int, string>)

  /** Closes the brief the index has for an ordinal, if any. */
  function MakeRoom(d: Desk, ordinal: int, id: string): Table {
    if ordinal in d.byOrdinal then Project(d.table, Replaced(d.byOrdinal[ordinal], id)) else d.table
  }

  function Work(d: Desk, intent: Intent, id: string, ctx: Context): Desk {
    if !Accepted(intent, ctx) then d else
      match intent
      case Supersede(cited) => d.(table := Project(d.table, Replaced(NormalizeId(cited), "")))
      case Draft(plan) =>
        Desk(Project(MakeRoom(d, plan.ordinal, id), Drafted(id, Trimmed(plan, ctx))), d.byOrdinal[plan.ordinal := id])
  }

  function WorkAll(d: Desk, intents: seq<Intent>, ids: seq<string>, ctx: Context): Desk
    requires |ids| == |intents|
  {
    if intents == [] then d else
      var n := |intents| - 1;
      Work(WorkAll(d, intents[..n], ids[..n], ctx), intents[n], ids[n], ctx)
  }

  lemma TakeIsWork(t0: Table, p: Progress, intent: Intent, id: string, ctx: Context)
    ensures var p' := Take(p, intent, id, ctx);
            Work(Desk(ProjectAll(t0, p.events), p.byOrdinal), intent, id, ctx)
              == Desk(ProjectAll(t0, p'.events), p'.byOrdinal)
  {
    if Accepted(intent, ctx) {
      match intent
      case Supersede(cited) => ProjectOne(t0, p.events, Replaced(NormalizeId(cited), ""));
      case Draft(plan) =>
        var room := if plan.ordinal in p.byOrdinal then p.events + [Replaced(p.byOrdinal[plan.ordinal], id)] else p.events;
        if plan.ordinal in p.byOrdinal {
          ProjectOne(t0, p.events, Replaced(p.byOrdinal[plan.ordinal], id));
        } else {
          assert p.events + [] == p.events;
        }
        ProjectOne(t0, room, Drafted(id, Trimmed(plan, ctx)));
    }
  }

  /** Projecting a pass's events is working the pass on the table. */
  lemma {:induction false} PassIsWork(t0: Table, start: map<int, string>, intents: seq<Intent>, ids: seq<string>, ctx: Context)
    requires |ids| == |intents|
    ensures var p := TakeAll(start, intents, ids, ctx);
            WorkAll(Desk(t0, start), intents, ids, ctx) == Desk(ProjectAll(t0, p.events), p.byOrdinal)
  {
    if intents != [] {
      var n := |intents| - 1;
      PassIsWork(t0, start, intents[..n], ids[..n], ctx);
      TakeIsWork(t0, TakeAll(start, intents[..n], ids[..n], ctx), intents[n], ids[n], ctx);
    }
  }

  // What one step of the pass keeps.

  /** The index holds every open brief under its ordinal. */
  ghost predicate Tracks(d: Desk) {
    && (forall id {:trigger IsOpen(d.table, id)} | IsOpen(d.table, id) ::
          d.table[id].plan.ordinal in d.byOrdinal && d.byOrdinal[d.table[id].plan.ordinal] == id)
    && (forall o {:trigger d.byOrdinal[o]} | o in d.byOrdinal :: InTable(d.table, Listed(d.byOrdinal[o], o)))
  }

  /** Existing briefs keep their plans, and `added` are the ids new to the table. */
  ghost predicate Grows(t: Table, after: Table, added: set<string>) {
    after.Keys == t.Keys + added && forall id | id in t :: after[id].plan == t[id].plan
  }

  function Superseding(b: Brief, successor: string): Brief {
    b.(status := Superseded, supersededBy := successor)
  }

  lemma GrowsTwice(a: Table, b: Table, c: Table, first: set<string>, second: set<string>)
    requires Grows(a, b, first) && Grows(b, c, second)
    ensures Grows(a, c, first + second)
  {
  }

  lemma ClosingEffect(t: Table, closing: Event)
    requires !closing.Drafted?
    ensures Grows(t, Project(t, closing), {})
    ensures forall x :: IsOpen(Project(t, closing), x) <==> IsOpen(t, x) && x != closing.id
  {
  }

  /** What an accepted draft does: the open brief of its ordinal gives way to the new one. */
  lemma DraftEffect(d: Desk, plan: Plan, id: string, ctx: Context)
    requires Tracks(d) && id !in d.table && Accepted(Draft(plan), ctx)
    ensures var t, after := d.table, Work(d, Draft(plan), id, ctx).table;
            && Grows(t, after, {id}) && after[id] == Brief(Trimmed(plan, ctx), Open, "", "")
            && forall x :: IsOpen(after, x) <==> x == id || (IsOpen(t, x) && t[x].plan.ordinal != plan.ordinal)
  {
    var room := MakeRoom(d, plan.ordinal, id);
    if plan.ordinal in d.byOrdinal {
      ClosingEffect(d.table, Replaced(d.byOrdinal[plan.ordinal], id));
    }
    forall x
      ensures IsOpen(room, x) <==> IsOpen(d.table, x) && d.table[x].plan.ordinal != plan.ordinal
    {
      if plan.ordinal in d.byOrdinal && x == d.byOrdinal[plan.ordinal] {
        assert InTable(d.table, Listed(x, plan.ordinal));
      }
    }
  }

  /** The brief an accepted draft takes over from points to it. */
  lemma ReplacedPointsOn(d: Desk, plan: Plan, id: string, ctx: Context, x: string)
    requires Tracks(d) && id !in d.table && Accepted(Draft(plan), ctx)
    requires IsOpen(d.table, x) && d.table[x].plan.ordinal == plan.ordinal
    ensures var after := Work(d, Draft(plan), id, ctx).table; x in after && after[x] == Superseding(d.table[x], id)
  {
  }

  /** A brief a citation supersedes points nowhere. */
  lemma SupersededPointsNowhere(d: Desk, cited: string, id: string, ctx: Context)
    requires NormalizeId(cited) in ctx.openIds && IsOpen(d.table, NormalizeId(cited))
    ensures Work(d, Supersede(cited), id, ctx).table
              == d.table[NormalizeId(cited) := Superseding(d.table[NormalizeId(cited)], "")]
  {
  }

  lemma DraftTracks(d: Desk, after: Table, ordinal: int, id: string)
    requires Tracks(d) && Grows(d.table, after, {id}) && id !in d.table && after[id].plan.ordinal == ordinal
    requires forall x :: IsOpen(after, x) <==> x == id || (IsOpen(d.table, x) && d.table[x].plan.ordinal != ordinal)
    ensures Tracks(Desk(after, d.byOrdinal[ordinal := id]))
  {
  }

  lemma CloseTracks(d: Desk, closing: Event)
    requires Tracks(d) && !closing.Drafted?
    ensures Tracks(d.(table := Project(d.table, closing)))
  {
    ClosingEffect(d.table, closing);
  }

  function Mints(intent: Intent, id: string, ctx: Context): set<string> {
    if intent.Draft? && Accepted(intent, ctx) then {id} else {}
  }

  lemma WorkTracks(d: Desk, intent: Intent, id: string, ctx: Context)
    requires Tracks(d) && id !in d.table
    ensures Tracks(Work(d, intent, id, ctx))
    ensures Grows(d.table, Work(d, intent, id, ctx).table, Mints(intent, id, ctx))
  {
    if Accepted(intent, ctx) {
      match intent
      case Supersede(cited) =>
        CloseTracks(d, Replaced(NormalizeId(cited), ""));
        ClosingEffect(d.table, Replaced(NormalizeId(cited), ""));
      case Draft(plan) =>
        DraftEffect(d, plan, id, ctx);
        DraftTracks(d, Work(d, intent, id, ctx).table, plan.ordinal, id);
    }
  }

  // The pass begins: the index of a list.

  lemma {:induction false} IndexHolds(open: seq<Listed>, o: int)
    ensures o in ByOrdinal(open) <==> exists i :: 0 <= i < |open| && open[i].ordinal == o
    ensures o in ByOrdinal(open) ==> exists i :: 0 <= i < |open| && open[i] == Listed(ByOrdinal(open)[o], o)
  {
    if open != [] {
      var front, last := open[..|open| - 1], open[|open| - 1];
      IndexHolds(front, o);
      assert open == front + [last];
      if last.ordinal == o {
        assert open[|open| - 1] == Listed(last.id, o);
      } else if o in ByOrdinal(front) {
        var i :| 0 <= i < |front| && front[i] == Listed(ByOrdinal(front)[o], o);
        assert open[i] == front[i];
      }
    }
  }

  lemma OpenIsIndexed(t: Table, open: seq<Listed>, id: string)
    requires Lists(t, open) && IsOpen(t, id)
    ensures t[id].plan.ordinal in ByOrdinal(open) && ByOrdinal(open)[t[id].plan.ordinal] == id
  {
    var o := t[id].plan.ordinal;
    assert id in IdsOf(open);
    var i :| 0 <= i < |open| && open[i].id == id;
    IndexHolds(open, o);
    var j :| 0 <= j < |open| && open[j] == Listed(ByOrdinal(open)[o], o);
    assert open[i].ordinal == open[j].ordinal;
  }

  lemma StartTracks(t: Table, open: seq<Listed>)
    requires Lists(t, open)
    ensures Tracks(Desk(t, ByOrdinal(open)))
  {
    var index := ByOrdinal(open);
    forall id | IsOpen(t, id)
      ensures t[id].plan.ordinal in index && index[t[id].plan.ordinal] == id
    {
      OpenIsIndexed(t, open, id);
    }
    forall o | o in index
      ensures InTable(t, Listed(index[o], o))
    {
      IndexHolds(open, o);
      var j :| 0 <= j < |open| && open[j] == Listed(index[o], o);
    }
  }

  // A whole pass.

  /** The ids minted are new and different. */
  ghost predicate Fresh(t: Table, ids: seq<string>) {
    (forall i | 0 <= i < |ids| :: ids[i] !in t) && forall i, j | 0 <= i < j < |ids| :: ids[i] != ids[j]
  }

  /** The ids minted by the accepted drafts. */
  function Minted(intents: seq<Intent>, ids: seq<string>, ctx: Context): (r: set<string>)
    requires |ids| == |intents|
    ensures forall x | x in r :: x in ids
  {
    if intents == [] then {} else
      var n := |ids| - 1;
      assert ids == ids[..n] + [ids[n]];
      Minted(intents[..n], ids[..n], ctx) + Mints(intents[n], ids[n], ctx)
  }

  lemma LastIsFresh(t0: Table, t: Table, added: set<string>, ids: seq<string>)
    requires ids != [] && Fresh(t0, ids) && Grows(t0, t, added)
    requires forall x | x in added :: x in ids[..|ids| - 1]
    ensures ids[|ids| - 1] !in t
  {
    var n := |ids| - 1;
    assert forall i | 0 <= i < n :: ids[..n][i] == ids[i] != ids[n];
  }

  lemma FreshBefore(t: Table, ids: seq<string>)
    requires Fresh(t, ids) && ids != []
    ensures Fresh(t, ids[..|ids| - 1])
  {
  }

  /** The desk before the last intent, and what holds of it. */
  ghost predicate Standing(d0: Desk, intents: seq<Intent>, ids: seq<string>, ctx: Context)
    requires |ids| == |intents|
  {
    Tracks(WorkAll(d0, intents, ids, ctx)) && Grows(d0.table, WorkAll(d0, intents, ids, ctx).table, Minted(intents, ids, ctx))
  }

  lemma StandsOn(d0: Desk, intents: seq<Intent>, ids: seq<string>, ctx: Context)
    requires |ids| == |intents| > 0 && Fresh(d0.table, ids) && Standing(d0, intents[..|ids| - 1], ids[..|ids| - 1], ctx)
    ensures Standing(d0, intents, ids, ctx)
    ensures ids[|ids| - 1] !in WorkAll(d0, intents[..|ids| - 1], ids[..|ids| - 1], ctx).table
  {
    var n := |ids| - 1;
    var d, before := WorkAll(d0, intents[..n], ids[..n], ctx), Minted(intents[..n], ids[..n], ctx);
    LastIsFresh(d0.table, d.table, before, ids);
    WorkTracks(d, intents[n], ids[n], ctx);
    GrowsTwice(d0.table, d.table, Work(d, intents[n], ids[n], ctx).table, before, Mints(intents[n], ids[n], ctx));
  }

  /** All along a pass the index tracks the table, and only minted ids are added to it. */
  lemma {:induction false} PassStands(d0: Desk, intents: seq<Intent>, ids: seq<string>, ctx: Context)
    requires |ids| == |intents| && Fresh(d0.table, ids) && Tracks(d0)
    ensures Standing(d0, intents, ids, ctx)
  {
    if intents != [] {
      FreshBefore(d0.table, ids);
      PassStands(d0, intents[..|ids| - 1], ids[..|ids| - 1], ctx);
      StandsOn(d0, intents, ids, ctx);
    }
  }

  /** The table after a pass on the list `open`. */
  function After(t0: Table, open: seq<Listed>, intents: seq<Intent>, ids: seq<string>, ctx: Context): Table
    requires |ids| == |intents|
  {
    ProjectAll(t0, TakeAll(ByOrdinal(open), intents, ids, ctx).events)
  }

  /** What a pass may assume: a list that covers the open briefs, perhaps an old one, and new ids. */
  ghost predicate MayRun(t0: Table, open: seq<Listed>, intents: seq<Intent>, ids: seq<string>) {
    |ids| == |intents| && Fresh(t0, ids) && Lists(t0, open)
  }

  lemma AfterStands(t0: Table, open: seq<Listed>, intents: seq<Intent>, ids: seq<string>, ctx: Context)
    requires MayRun(t0, open, intents, ids)
    ensures Standing(Desk(t0, ByOrdinal(open)), intents, ids, ctx)
    ensures WorkAll(Desk(t0, ByOrdinal(open)), intents, ids, ctx).table == After(t0, open, intents, ids, ctx)
  {
    StartTracks(t0, open);
    PassStands(Desk(t0, ByOrdinal(open)), intents, ids, ctx);
    PassIsWork(t0, ByOrdinal(open), intents, ids, ctx);
  }

  lemma TrackedIsOneOpen(d: Desk)
    requires Tracks(d)
    ensures OneOpen(d.table)
  {
  }

  /** After a pass there is one open brief per ordinal, whatever is drafted twice, superseded,
      or superseded and drafted again, and whatever was closed since the list was polled. */
  lemma OneOpenPerOrdinal(t0: Table, open: seq<Listed>, intents: seq<Intent>, ids: seq<string>, ctx: Context)
    requires MayRun(t0, open, intents, ids)
    ensures OneOpen(After(t0, open, intents, ids, ctx))
  {
    AfterStands(t0, open, intents, ids, ctx);
    TrackedIsOneOpen(WorkAll(Desk(t0, ByOrdinal(open)), intents, ids, ctx));
  }

  /** The table gains exactly the accepted drafts, and no plan in it changes. */
  lemma OnlyDraftsAreAdded(t0: Table, open: seq<Listed>, intents: seq<Intent>, ids: seq<string>, ctx: Context, x: string)
    requires MayRun(t0, open, intents, ids)
    ensures x in After(t0, open, intents, ids, ctx) <==> x in t0 || x in Minted(intents, ids, ctx)
    ensures x in t0 ==> After(t0, open, intents, ids, ctx)[x].plan == t0[x].plan
  {
    AfterStands(t0, open, intents, ids, ctx);
  }

  // Which briefs are open in the end.

  /** The last accepted draft of each ordinal. */
  function Newest(intents: seq<Intent>, ids: seq<string>, ctx: Context): map<int, string>
    requires |ids| == |intents|
  {
    if intents == [] then map[] else
      var n := |ids| - 1;
      var before := Newest(intents[..n], ids[..n], ctx);
      if intents[n].Draft? && Accepted(intents[n], ctx) then before[intents[n].plan.ordinal := ids[n]] else before
  }

  predicate Cited(intents: seq<Intent>, id: string) {
    exists i :: 0 <= i < |intents| && intents[i].Supersede? && NormalizeId(intents[i].id) == id
  }

  predicate Leads(newest: map<int, string>, id: string) {
    exists o :: o in newest && newest[o] == id
  }

  /** The last draft of its ordinal, or an open brief nobody drafted over or cited. */
  predicate Survives(t0: Table, newest: map<int, string>, cited: bool, id: string) {
    Leads(newest, id) || (IsOpen(t0, id) && t0[id].plan.ordinal !in newest && !cited)
  }

  lemma CitedMore(intents: seq<Intent>, last: Intent, id: string)
    ensures Cited(intents + [last], id) <==> Cited(intents, id) || (last.Supersede? && NormalizeId(last.id) == id)
  {
    var more := intents + [last];
    assert more[|intents|] == last;
    forall i | 0 <= i < |intents| ensures more[i] == intents[i] {
    }
  }

  lemma {:induction false} IndexIsNewest(d0: Desk, intents: seq<Intent>, ids: seq<string>, ctx: Context)
    requires |ids| == |intents|
    ensures WorkAll(d0, intents, ids, ctx).byOrdinal == d0.byOrdinal + Newest(intents, ids, ctx)
  {
    if intents != [] {
      var n := |ids| - 1;
      IndexIsNewest(d0, intents[..n], ids[..n], ctx);
    }
  }

  lemma {:induction false} LeadersAreMinted(intents: seq<Intent>, ids: seq<string>, ctx: Context)
    requires |ids| == |intents|
    ensures forall o | o in Newest(intents, ids, ctx) :: Newest(intents, ids, ctx)[o] in Minted(intents, ids, ctx)
  {
    if intents != [] {
      LeadersAreMinted(intents[..|ids| - 1], ids[..|ids| - 1], ctx);
    }
  }

  lemma LeadersAreNew(t0: Table, intents: seq<Intent>, ids: seq<string>, ctx: Context, x: string)
    requires |ids| == |intents| && Fresh(t0, ids) && Leads(Newest(intents, ids, ctx), x)
    ensures x !in t0
  {
    LeadersAreMinted(intents, ids, ctx);
    assert x in ids;
  }

  /** Drafting over an ordinal: the newcomer survives, its rivals do not. */
  lemma SurvivesDraft(t0: Table, d: Desk, start: map<int, string>, newest: map<int, string>, cited: bool,
                      ordinal: int, id: string, x: string)
    requires Tracks(d) && d.byOrdinal == start + newest && id !in d.table && !IsOpen(t0, id)
    requires x in t0 && x in d.table ==> d.table[x].plan == t0[x].plan
    requires IsOpen(d.table, x) <==> Survives(t0, newest, cited, x)
    ensures Survives(t0, newest[ordinal := id], cited, x) <==>
              x == id || (IsOpen(d.table, x) && d.table[x].plan.ordinal != ordinal)
  {
    var after := newest[ordinal := id];
    assert after[ordinal] == id;
    if o :| o in newest && newest[o] == x {
      assert d.byOrdinal[o] == x;
      assert o != ordinal ==> after[o] == x;
    }
  }

  /** One more intent, seen from the desk and from the list of intents. */
  lemma OpenStep(t0: Table, d: Desk, start: map<int, string>, newest: map<int, string>, cited: bool,
                 intent: Intent, id: string, ctx: Context, x: string)
    requires Tracks(d) && d.byOrdinal == start + newest && id !in d.table && !IsOpen(t0, id)
    requires x in t0 && x in d.table ==> d.table[x].plan == t0[x].plan
    requires IsOpen(t0, x) ==> x in ctx.openIds
    requires Leads(newest, x) ==> x !in ctx.openIds
    requires IsOpen(d.table, x) <==> Survives(t0, newest, cited, x)
    ensures IsOpen(Work(d, intent, id, ctx).table, x) <==>
              Survives(t0, if intent.Draft? && Accepted(intent, ctx) then newest[intent.plan.ordinal := id] else newest,
                       cited || (intent.Supersede? && NormalizeId(intent.id) == x), x)
  {
    if intent.Draft? {
      if Accepted(intent, ctx) {
        DraftEffect(d, intent.plan, id, ctx);
        SurvivesDraft(t0, d, start, newest, cited, intent.plan.ordinal, id, x);
      }
    } else if Accepted(intent, ctx) {
      ClosingEffect(d.table, Replaced(NormalizeId(intent.id), ""));
    }
  }

  lemma {:induction false} OpenWhileWorking(t0: Table, open: seq<Listed>, intents: seq<Intent>, ids: seq<string>,
                                            ctx: Context, x: string)
    requires MayRun(t0, open, intents, ids) && ctx.openIds == IdsOf(open)
    ensures IsOpen(WorkAll(Desk(t0, ByOrdinal(open)), intents, ids, ctx).table, x) <==>
              Survives(t0, Newest(intents, ids, ctx), Cited(intents, x), x)
  {
    if intents != [] {
      var n, d0 := |ids| - 1, Desk(t0, ByOrdinal(open));
      FreshBefore(t0, ids);
      OpenWhileWorking(t0, open, intents[..n], ids[..n], ctx, x);
      StepFacts(t0, open, intents, ids, ctx, x);
      IndexIsNewest(d0, intents[..n], ids[..n], ctx);
      OpenStep(t0, WorkAll(d0, intents[..n], ids[..n], ctx), ByOrdinal(open), Newest(intents[..n], ids[..n], ctx),
               Cited(intents[..n], x), intents[n], ids[n], ctx, x);
      CitedMore(intents[..n], intents[n], x);
      assert intents == intents[..n] + [intents[n]];
    }
  }

  /** What `OpenStep` asks of the desk before the last intent. */
  lemma StepFacts(t0: Table, open: seq<Listed>, intents: seq<Intent>, ids: seq<string>, ctx: Context, x: string)
    requires MayRun(t0, open, intents, ids) && ids != [] && ctx.openIds == IdsOf(open)
    ensures var n := |ids| - 1; var d := WorkAll(Desk(t0, ByOrdinal(open)), intents[..n], ids[..n], ctx);
            && Tracks(d) && ids[n] !in d.table && !IsOpen(t0, ids[n])
            && (x in t0 && x in d.table ==> d.table[x].plan == t0[x].plan)
            && (IsOpen(t0, x) ==> x in ctx.openIds)
            && (Leads(Newest(intents[..n], ids[..n], ctx), x) ==> x !in ctx.openIds)
  {
    var n, d0 := |ids| - 1, Desk(t0, ByOrdinal(open));
    FreshBefore(t0, ids);
    StartTracks(t0, open);
    PassStands(d0, intents[..n], ids[..n], ctx);
    StandsOn(d0, intents, ids, ctx);
    if Leads(Newest(intents[..n], ids[..n], ctx), x) {
      LeadersAreNew(t0, intents[..n], ids[..n], ctx, x);
    }
  }

  /** The briefs open after a pass, exactly: the last accepted draft of each ordinal, and the
      open ones neither drafted over nor cited. */
  lemma OpenExactly(t0: Table, open: seq<Listed>, intents: seq<Intent>, ids: seq<string>, ctx: Context, x: string)
    requires MayRun(t0, open, intents, ids) && ctx.openIds == IdsOf(open)
    ensures IsOpen(After(t0, open, intents, ids, ctx), x) <==>
              Survives(t0, Newest(intents, ids, ctx), Cited(intents, x), x)
  {
    OpenWhileWorking(t0, open, intents, ids, ctx, x);
    AfterStands(t0, open, intents, ids, ctx);
  }

  // A list that misses open briefs.

  /** The open briefs a list does not name. */
  predicate Missed(t: Table, open: seq<Listed>, id: string) {
    IsOpen(t, id) && id !in IdsOf(open)
  }

  /** The table without them. */
  function Rest(t: Table, open: seq<Listed>): Table {
    map id | id in t && !Missed(t, open, id) :: t[id]
  }

  lemma {:induction false} IndexIsListed(open: seq<Listed>)
    ensures forall o | o in ByOrdinal(open) :: ByOrdinal(open)[o] in IdsOf(open)
  {
    forall o | o in ByOrdinal(open)
      ensures ByOrdinal(open)[o] in IdsOf(open)
    {
      IndexHolds(open, o);
      var j :| 0 <= j < |open| && open[j] == Listed(ByOrdinal(open)[o], o);
    }
  }

  ghost predicate Concern(events: seq<Event>, ids: set<string>) {
    forall e | e in events :: e.id in ids
  }

  /** A pass's events concern the briefs listed and the briefs minted. */
  lemma {:induction false} EventsConcern(start: map<int, string>, intents: seq<Intent>, ids: seq<string>, ctx: Context, all: set<string>)
    requires |ids| == |intents| && ctx.openIds <= all
    requires (forall o | o in start :: start[o] in all) && forall x | x in ids :: x in all
    ensures Concern(TakeAll(start, intents, ids, ctx).events, all)
    ensures forall o | o in TakeAll(start, intents, ids, ctx).byOrdinal :: TakeAll(start, intents, ids, ctx).byOrdinal[o] in all
  {
    if intents != [] {
      var n := |ids| - 1;
      assert ids == ids[..n] + [ids[n]];
      EventsConcern(start, intents[..n], ids[..n], ctx, all);
    }
  }

  /** Briefs no event concerns stay, and the rest of the table does not depend on them. */
  lemma {:induction false} Framed(t: Table, part: Table, events: seq<Event>, ids: set<string>, x: string)
    requires Concern(events, ids)
    requires forall id | id in ids :: (id in t <==> id in part) && (id in t ==> t[id] == part[id])
    ensures x !in ids ==> (x in ProjectAll(t, events) <==> x in t) && (x in t ==> ProjectAll(t, events)[x] == t[x])
    ensures x in ids ==> (x in ProjectAll(t, events) <==> x in ProjectAll(part, events))
    ensures x in ids && x in ProjectAll(t, events) ==> ProjectAll(t, events)[x] == ProjectAll(part, events)[x]
  {
    if events != [] {
      var front, e := events[..|events| - 1], events[|events| - 1];
      assert events == front + [e];
      assert e in events;
      Framed(t, part, front, ids, x);
      Framed(t, part, front, ids, e.id);
    }
  }

  lemma RestMayRun(t: Table, open: seq<Listed>, intents: seq<Intent>, ids: seq<string>)
    requires |ids| == |intents| && Fresh(t, ids) && Known(t, open)
    ensures MayRun(Rest(t, open), open, intents, ids)
  {
    forall i | 0 <= i < |open|
      ensures InTable(Rest(t, open), open[i])
    {
      assert open[i].id in IdsOf(open);
    }
    forall id | IsOpen(Rest(t, open), id)
      ensures id in IdsOf(open)
    {
      assert IsOpen(t, id);
    }
  }

  /** A missed brief stays open; every other fares as if it were not there. */
  lemma MissedStays(t: Table, open: seq<Listed>, intents: seq<Intent>, ids: seq<string>, ctx: Context, x: string)
    requires |ids| == |intents| && Fresh(t, ids) && Known(t, open) && ctx.openIds == IdsOf(open)
    ensures var after, rest := After(t, open, intents, ids, ctx), After(Rest(t, open), open, intents, ids, ctx);
            && (IsOpen(after, x) <==> Missed(t, open, x) || IsOpen(rest, x))
            && (Missed(t, open, x) ==> after[x] == t[x] && !IsOpen(rest, x))
            && (IsOpen(rest, x) ==> x in rest && after[x] == rest[x])
  {
    var all := IdsOf(open) + set i | 0 <= i < |ids| :: ids[i];
    var part := Rest(t, open);
    var events := TakeAll(ByOrdinal(open), intents, ids, ctx).events;
    IndexIsListed(open);
    EventsConcern(ByOrdinal(open), intents, ids, ctx, all);
    Framed(t, part, events, all, x);
    Framed(part, part, events, all, x);
    assert Missed(t, open, x) ==> x in t;
  }

  lemma {:induction false} LeaderIsDraft(intents: seq<Intent>, ids: seq<string>, ctx: Context, o: int) returns (i: nat)
    requires |ids| == |intents| && o in Newest(intents, ids, ctx)
    ensures i < |intents| && intents[i].Draft? && Accepted(intents[i], ctx)
    ensures ids[i] == Newest(intents, ids, ctx)[o] && intents[i].plan.ordinal == o
  {
    var n := |ids| - 1;
    if intents[n].Draft? && Accepted(intents[n], ctx) && intents[n].plan.ordinal == o {
      i := n;
    } else {
      i := LeaderIsDraft(intents[..n], ids[..n], ctx, o);
    }
  }

  /** The last draft of an ordinal is open afterwards, under that ordinal. */
  lemma LeaderIsOpen(t: Table, open: seq<Listed>, intents: seq<Intent>, ids: seq<string>, ctx: Context, o: int)
    requires MayRun(t, open, intents, ids) && ctx.openIds == IdsOf(open) && o in Newest(intents, ids, ctx)
    ensures var after, x := After(t, open, intents, ids, ctx), Newest(intents, ids, ctx)[o];
            IsOpen(after, x) && after[x].plan.ordinal == o > ctx.drafted
  {
    var i := LeaderIsDraft(intents, ids, ctx, o);
    OpenExactly(t, open, intents, ids, ctx, ids[i]);
    DraftsAreKept(t, open, intents, ids, ctx, i);
  }

  /** Whoever is open after a pass leads its ordinal, or was open before on an ordinal nobody
      drafted. */
  lemma OpenByOrdinal(t: Table, open: seq<Listed>, intents: seq<Intent>, ids: seq<string>, ctx: Context, x: string)
    requires MayRun(t, open, intents, ids) && ctx.openIds == IdsOf(open) && IsOpen(After(t, open, intents, ids, ctx), x)
    ensures var o := After(t, open, intents, ids, ctx)[x].plan.ordinal;
            o in Newest(intents, ids, ctx) || (IsOpen(t, x) && t[x].plan.ordinal == o)
  {
    OpenExactly(t, open, intents, ids, ctx, x);
    OnlyDraftsAreAdded(t, open, intents, ids, ctx, x);
    if o :| o in Newest(intents, ids, ctx) && Newest(intents, ids, ctx)[o] == x {
      LeaderIsOpen(t, open, intents, ids, ctx, o);
    }
  }

  /** With a list that misses open briefs, a pass keeps one open brief per ordinal exactly when
      it drafts over none of the ordinals missed. */
  lemma OneOpenExactly(t: Table, open: seq<Listed>, intents: seq<Intent>, ids: seq<string>, ctx: Context)
    requires |ids| == |intents| && Fresh(t, ids) && Known(t, open) && OneOpen(t) && ctx.openIds == IdsOf(open)
    ensures OneOpen(After(t, open, intents, ids, ctx)) <==>
              forall id {:trigger Missed(t, open, id)} | Missed(t, open, id) :: t[id].plan.ordinal !in Newest(intents, ids, ctx)
  {
    var after, part := After(t, open, intents, ids, ctx), Rest(t, open);
    RestMayRun(t, open, intents, ids);
    if id :| Missed(t, open, id) && t[id].plan.ordinal in Newest(intents, ids, ctx) {
      var x := Newest(intents, ids, ctx)[t[id].plan.ordinal];
      LeaderIsOpen(part, open, intents, ids, ctx, t[id].plan.ordinal);
      MissedStays(t, open, intents, ids, ctx, x);
      MissedStays(t, open, intents, ids, ctx, id);
      assert IsOpen(after, x) && IsOpen(after, id);
    } else {
      forall a, b | IsOpen(after, a) && IsOpen(after, b) && after[a].plan.ordinal == after[b].plan.ordinal
        ensures a == b
      {
        SameOrdinalSame(t, open, intents, ids, ctx, a, b);
      }
    }
  }

  lemma SameOrdinalSame(t: Table, open: seq<Listed>, intents: seq<Intent>, ids: seq<string>, ctx: Context, a: string, b: string)
    requires |ids| == |intents| && Fresh(t, ids) && Known(t, open) && OneOpen(t) && ctx.openIds == IdsOf(open)
    requires forall id {:trigger Missed(t, open, id)} | Missed(t, open, id) :: t[id].plan.ordinal !in Newest(intents, ids, ctx)
    requires var after := After(t, open, intents, ids, ctx);
             IsOpen(after, a) && IsOpen(after, b) && after[a].plan.ordinal == after[b].plan.ordinal
    ensures a == b
  {
    var part := Rest(t, open);
    RestMayRun(t, open, intents, ids);
    MissedStays(t, open, intents, ids, ctx, a);
    MissedStays(t, open, intents, ids, ctx, b);
    if Missed(t, open, a) || Missed(t, open, b) {
      if !Missed(t, open, a) {
        OpenByOrdinal(part, open, intents, ids, ctx, a);
      } else if !Missed(t, open, b) {
        OpenByOrdinal(part, open, intents, ids, ctx, b);
      }
      assert IsOpen(t, a) && IsOpen(t, b);
    } else {
      OneOpenPerOrdinal(part, open, intents, ids, ctx);
    }
  }

  /** The shortest such pass: a list polled before the last draft was projected, and a draft
      for the same chapter. */
  lemma PollBehindTheLog(plan: Plan, ctx: Context)
    requires Accepted(Draft(plan), ctx) && ctx.openIds == {}
    ensures var t := map["a" := Brief(plan, Open, "", "")];
            OneOpen(t) && !OneOpen(After(t, [], [Draft(plan)], ["b"], ctx))
  {
    var t := map["a" := Brief(plan, Open, "", "")];
    assert [Draft(plan)][..0] == [];
    assert Newest([Draft(plan)], ["b"], ctx) == map[plan.ordinal := "b"];
    assert Missed(t, [], "a");
    OneOpenExactly(t, [], [Draft(plan)], ["b"], ctx);
  }

  // What is drafted.

  /** Plans the future, has a goal, and cites only what is active. */
  predicate Sound(plan: Plan, ctx: Context) {
    && plan.ordinal > 0 && plan.ordinal > ctx.drafted && Strip(plan.goal) != ""
    && (forall t | t in plan.threads :: t in ctx.threads)
    && (forall b | b in plan.beats :: b in ctx.beats)
    && (forall p | p in plan.promises :: p in ctx.promises)
  }

  lemma TrimmedIsSound(plan: Plan, ctx: Context)
    requires Accepted(Draft(plan), ctx)
    ensures Sound(Trimmed(plan, ctx), ctx)
  {
  }

  ghost predicate Holds(t: Table, id: string, plan: Plan) {
    id in t && t[id].plan == plan
  }

  lemma HoldsOn(t: Table, after: Table, added: set<string>, id: string, plan: Plan)
    requires Holds(t, id, plan) && Grows(t, after, added)
    ensures Holds(after, id, plan)
  {
  }

  lemma DraftIsPut(d: Desk, plan: Plan, id: string, ctx: Context)
    requires Tracks(d) && id !in d.table && Accepted(Draft(plan), ctx)
    ensures Holds(Work(d, Draft(plan), id, ctx).table, id, Trimmed(plan, ctx))
  {
    DraftEffect(d, plan, id, ctx);
  }

  lemma BeforeLast(d0: Desk, intents: seq<Intent>, ids: seq<string>, ctx: Context)
    requires |ids| == |intents| > 0 && Fresh(d0.table, ids) && Tracks(d0)
    ensures var n := |ids| - 1; var d := WorkAll(d0, intents[..n], ids[..n], ctx);
            Fresh(d0.table, ids[..n]) && Tracks(d) && ids[n] !in d.table
  {
    FreshBefore(d0.table, ids);
    PassStands(d0, intents[..|ids| - 1], ids[..|ids| - 1], ctx);
    StandsOn(d0, intents, ids, ctx);
  }

  lemma WorkHolds(d: Desk, intent: Intent, id: string, ctx: Context, x: string, plan: Plan)
    requires Tracks(d) && id !in d.table && Holds(d.table, x, plan)
    ensures Holds(Work(d, intent, id, ctx).table, x, plan)
  {
    WorkTracks(d, intent, id, ctx);
    HoldsOn(d.table, Work(d, intent, id, ctx).table, Mints(intent, id, ctx), x, plan);
  }

  lemma {:induction false} DraftsArePut(d0: Desk, intents: seq<Intent>, ids: seq<string>, ctx: Context,
                                        i: nat, x: string, plan: Plan)
    requires |ids| == |intents| && Fresh(d0.table, ids) && Tracks(d0)
    requires i < |intents| && intents[i] == Draft(plan) && Accepted(Draft(plan), ctx) && ids[i] == x
    ensures Holds(WorkAll(d0, intents, ids, ctx).table, x, Trimmed(plan, ctx))
  {
    var n := |ids| - 1;
    BeforeLast(d0, intents, ids, ctx);
    if i < n {
      DraftsArePut(d0, intents[..n], ids[..n], ctx, i, x, plan);
      WorkHolds(WorkAll(d0, intents[..n], ids[..n], ctx), intents[n], ids[n], ctx, x, Trimmed(plan, ctx));
    } else {
      DraftIsPut(WorkAll(d0, intents[..n], ids[..n], ctx), plan, x, ctx);
    }
  }

  /** Every accepted draft is in the table as it was drafted, and sound, whatever follows it. */
  lemma DraftsAreKept(t0: Table, open: seq<Listed>, intents: seq<Intent>, ids: seq<string>, ctx: Context, i: nat)
    requires MayRun(t0, open, intents, ids)
    requires i < |intents| && intents[i].Draft? && Accepted(intents[i], ctx)
    ensures var t := After(t0, open, intents, ids, ctx);
            Holds(t, ids[i], Trimmed(intents[i].plan, ctx)) && Sound(t[ids[i]].plan, ctx)
  {
    StartTracks(t0, open);
    DraftsArePut(Desk(t0, ByOrdinal(open)), intents, ids, ctx, i, ids[i], intents[i].plan);
    AfterStands(t0, open, intents, ids, ctx);
    TrimmedIsSound(intents[i].plan, ctx);
  }

  // Polling, reaping and committing.

  /** What a poll returns: the open briefs and no others. */
  ghost predicate Polled(t: Table, open: seq<Listed>) {
    && (forall i {:trigger open[i]} | 0 <= i < |open| :: IsOpen(t, open[i].id) && InTable(t, open[i]))
    && (forall id {:trigger IsOpen(t, id)} | IsOpen(t, id) :: id in IdsOf(open))
  }

  lemma PollLists(t: Table, open: seq<Listed>)
    requires OneOpen(t) && Polled(t, open)
    ensures Lists(t, open)
  {
  }

  /** A list stays good enough while briefs close. */
  lemma ListsOn(t: Table, open: seq<Listed>, closing: Event)
    requires Lists(t, open) && !closing.Drafted?
    ensures Lists(Project(t, closing), open)
  {
    ClosingEffect(t, closing);
  }

  lemma CloseKeepsOneOpen(t: Table, closing: Event)
    requires OneOpen(t) && !closing.Drafted?
    ensures OneOpen(Project(t, closing))
  {
    ClosingEffect(t, closing);
  }

  predicate OnlyClose(events: seq<Event>) {
    forall e | e in events :: !e.Drafted?
  }

  lemma {:induction false} ListsThrough(t: Table, open: seq<Listed>, closings: seq<Event>)
    requires Lists(t, open) && OnlyClose(closings)
    ensures Lists(ProjectAll(t, closings), open)
  {
    if closings != [] {
      var front, last := closings[..|closings| - 1], closings[|closings| - 1];
      assert closings == front + [last];
      assert last in closings;
      ListsThrough(t, open, front);
      ListsOn(ProjectAll(t, front), open, last);
    }
  }

  /** The stale briefs of a list, superseded. */
  function Reaping(open: seq<Listed>, drafted: int): seq<Event> {
    if open == [] then [] else
      var front, last := Reaping(open[..|open| - 1], drafted), open[|open| - 1];
      if last.ordinal <= drafted then front + [Replaced(last.id, "")] else front
  }

  method ReapStaleOpenBriefs(open: seq<Listed>, drafted: int) returns (events: seq<Event>)
    ensures events == Reaping(open, drafted)
  {
    events := [];
    for i := 0 to |open|
      invariant events == Reaping(open[..i], drafted)
    {
      assert open[..i + 1][..i] == open[..i];
      if open[i].ordinal <= drafted {
        events := events + [Replaced(open[i].id, "")];
      }
    }
    assert open[..|open|] == open;
  }

  lemma {:induction false} ReapingCloses(t: Table, open: seq<Listed>, drafted: int, x: string)
    ensures OnlyClose(Reaping(open, drafted))
    ensures IsOpen(ProjectAll(t, Reaping(open, drafted)), x) ==> IsOpen(t, x)
    ensures (exists i :: 0 <= i < |open| && open[i].id == x && open[i].ordinal <= drafted) ==>
              !IsOpen(ProjectAll(t, Reaping(open, drafted)), x)
  {
    if open != [] {
      var front, last := open[..|open| - 1], open[|open| - 1];
      var reaped := Reaping(front, drafted);
      ReapingCloses(t, front, drafted, x);
      if last.ordinal <= drafted {
        ProjectOne(t, reaped, Replaced(last.id, ""));
        ClosingEffect(ProjectAll(t, reaped), Replaced(last.id, ""));
      }
      if i :| 0 <= i < |open| && open[i].id == x && open[i].ordinal <= drafted {
        assert i < |front| ==> front[i] == open[i];
      }
    }
  }

  /** Plans never change, so a list keeps naming the ordinals of its briefs. */
  lemma {:induction false} ReapedIsAhead(t: Table, open: seq<Listed>, drafted: int, x: string)
    requires Lists(t, open) && IsOpen(ProjectAll(t, Reaping(open, drafted)), x)
    ensures x in t && t[x].plan.ordinal > drafted
    ensures ProjectAll(t, Reaping(open, drafted))[x].plan == t[x].plan
  {
    ReapingCloses(t, open, drafted, x);
    PlansStay(t, Reaping(open, drafted), x);
    assert x in IdsOf(open);
    var i :| 0 <= i < |open| && open[i].id == x;
    assert InTable(t, open[i]);
  }

  lemma {:induction false} PlansStay(t: Table, events: seq<Event>, x: string)
    requires x in t
    ensures x in ProjectAll(t, events) && ProjectAll(t, events)[x].plan == t[x].plan
  {
    if events != [] {
      PlansStay(t, events[..|events| - 1], x);
    }
  }

  /** A planning commit as the plotter makes it: reap the polled list, then pass that same
      list on. One brief is open per ordinal, and every open brief plans a chapter ahead. */
  lemma PlansAreAhead(t: Table, open: seq<Listed>, intents: seq<Intent>, ids: seq<string>, ctx: Context, x: string)
    requires MayRun(t, open, intents, ids) && ctx.openIds == IdsOf(open)
    ensures var reaped := ProjectAll(t, Reaping(open, ctx.drafted)); var after := After(reaped, open, intents, ids, ctx);
            OneOpen(after) && (IsOpen(after, x) ==> after[x].plan.ordinal > ctx.drafted)
  {
    var reaped := ProjectAll(t, Reaping(open, ctx.drafted));
    ReapingCloses(t, open, ctx.drafted, x);
    ListsThrough(t, open, Reaping(open, ctx.drafted));
    FreshThrough(t, Reaping(open, ctx.drafted), ids);
    OneOpenPerOrdinal(reaped, open, intents, ids, ctx);
    OpenExactly(reaped, open, intents, ids, ctx, x);
    OnlyDraftsAreAdded(reaped, open, intents, ids, ctx, x);
    if o :| o in Newest(intents, ids, ctx) && Newest(intents, ids, ctx)[o] == x {
      LeaderIsOpen(reaped, open, intents, ids, ctx, o);
    } else if IsOpen(reaped, x) {
      ReapedIsAhead(t, open, ctx.drafted, x);
    }
  }

  lemma {:induction false} FreshThrough(t: Table, closings: seq<Event>, ids: seq<string>)
    requires Fresh(t, ids) && OnlyClose(closings)
    ensures Fresh(ProjectAll(t, closings), ids)
  {
    if closings != [] {
      var front, last := closings[..|closings| - 1], closings[|closings| - 1];
      assert closings == front + [last];
      assert last in closings;
      FreshThrough(t, front, ids);
      ClosingEffect(ProjectAll(t, front), last);
    }
  }

  // Whole runs.

  /** The table, and the list the planner polled and has yet to commit on. */
  datatype Planning = Planning(table: Table, polled: Option<seq<Listed>>)

  /** What happens to the briefs: a poll, one closing event at any time (reaped, superseded,
      or its chapter written), or the commit on the list polled last. */
  datatype Act =
    | Poll(open: seq<Listed>)
    | Close(event: Event)
    | Commit(intents: seq<Intent>, ids: seq<string>, ctx: Context)

  ghost predicate Lawful(s: Planning, act: Act) {
    match act
    case Poll(open) => Polled(s.table, open)
    case Close(event) => !event.Drafted?
    case Commit(intents, ids, ctx) =>
      s.polled.Some? && |ids| == |intents| && Fresh(s.table, ids) && ctx.openIds == IdsOf(s.polled.value)
  }

  function Perform(s: Planning, act: Act): Planning
    requires act.Commit? ==> s.polled.Some? && |act.ids| == |act.intents|
  {
    match act
    case Poll(open) => s.(polled := Some(open))
    case Close(event) => s.(table := Project(s.table, event))
    case Commit(intents, ids, ctx) => Planning(After(s.table, s.polled.value, intents, ids, ctx), None)
  }

  /** A run of acts from one state to another. */
  ghost predicate Reaches(s: Planning, acts: seq<Act>, last: Planning)
    decreases |acts|
  {
    if acts == [] then last == s
    else Lawful(s, acts[0]) && Reaches(Perform(s, acts[0]), acts[1..], last)
  }

  ghost predicate Orderly(s: Planning) {
    OneOpen(s.table) && (s.polled.Some? ==> Lists(s.table, s.polled.value))
  }

  lemma ActKeepsOrder(s: Planning, act: Act)
    requires Orderly(s) && Lawful(s, act)
    ensures Orderly(Perform(s, act))
  {
    match act
    case Poll(open) => PollLists(s.table, open);
    case Close(event) =>
      CloseKeepsOneOpen(s.table, event);
      if s.polled.Some? {
        ListsOn(s.table, s.polled.value, event);
      }
    case Commit(intents, ids, ctx) => OneOpenPerOrdinal(s.table, s.polled.value, intents, ids, ctx);
  }

  lemma ActAbsorbs(s: Planning, act: Act, id: string)
    requires Lawful(s, act) && id in s.table && !IsOpen(s.table, id)
    ensures id in Perform(s, act).table && Perform(s, act).table[id] == s.table[id]
  {
    if act.Commit? {
      Absorbing(s.table, TakeAll(ByOrdinal(s.polled.value), act.intents, act.ids, act.ctx).events, id);
    }
  }

  /** However polls, closings and commits follow one another, briefs closing between a poll and
      its commit included, no ordinal ever has two open briefs. */
  lemma {:induction false} NeverTwoOpen(s: Planning, acts: seq<Act>, last: Planning)
    requires Orderly(s) && Reaches(s, acts, last)
    ensures OneOpen(last.table)
    decreases |acts|
  {
    if acts != [] {
      ActKeepsOrder(s, acts[0]);
      NeverTwoOpen(Perform(s, acts[0]), acts[1..], last);
    }
  }

  /** And a closed brief stays exactly as it was. */
  lemma {:induction false} ClosedForGood(s: Planning, acts: seq<Act>, last: Planning, id: string)
    requires Reaches(s, acts, last) && id in s.table && !IsOpen(s.table, id)
    ensures id in last.table && last.table[id] == s.table[id]
    decreases |acts|
  {
    if acts != [] {
      ActAbsorbs(s, acts[0], id);
      ClosedForGood(Perform(s, acts[0]), acts[1..], last, id);
    }
  }
}
