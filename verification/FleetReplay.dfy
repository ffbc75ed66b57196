/** Whole streams folded into the fleet (tui_kit/fleet_model.py, tui_kit/run_model.py:214-240). */
module FleetReplay {
  import opened MergedList
  import opened RunModel
  import Transcript
  import opened FleetModel

  // What an entry's place stands for never changes.

  predicate SameEntry(a: Entry<Block>, b: Entry<Block>) {
    a.agent == b.agent && a.run == b.run && a.index == b.index
  }

  ghost predicate Extends(a: seq<Entry<Block>>, b: seq<Entry<Block>>) {
    |a| <= |b| && forall j | 0 <= j < |a| :: SameEntry(a[j], b[j])
  }

  ghost predicate KindsStay(a: seq<Entry<Block>>, b: seq<Entry<Block>>) {
    |a| <= |b| && forall j | 0 <= j < |a| :: SameKind(a[j].block, b[j].block)
  }

  /** Whatever arrives, entries keep their place, agent, run and index. */
  lemma OnlyAppends(fleet: Fleet, item: Item, now: real)
    ensures Extends(fleet.entries, ApplyFleet(fleet, item, now).entries)
  {
    if item.agent != "" {
      var s := ApplyItem(StateOf(fleet, item.agent), item, now, CAP);
      forall j | 0 <= j < |fleet.entries|
        ensures SameEntry(fleet.entries[j], Merged(fleet.entries, item.agent, s.runId, s.blocks)[j])
      {
        RefreshAt(fleet.entries, item.agent, s.runId, s.blocks, j);
      }
    }
  }

  /** The run's entry at `j` shows the block of its place. */
  lemma ShowsItsBlock(entries: seq<Entry<Block>>, agent: string, s: RunState, j: nat)
    requires j < |entries| && Owns(entries[j], agent, s.runId)
    requires Own(entries, agent, s.runId) == Tail(agent, s.runId, s.blocks, 0)
    ensures var place := |Own(entries[..j], agent, s.runId)|;
            place < |s.blocks| && entries[j].block == s.blocks[place]
  {
    assert entries == entries[..j + 1] + entries[j + 1..];
    OwnOfSum(entries[..j + 1], entries[j + 1..], agent, s.runId);
    OwnGrows(entries, agent, s.runId, j);
    assert Own(entries, agent, s.runId)[|Own(entries[..j], agent, s.runId)|] == entries[j];
  }

  /** In an agreeing fleet no entry's block changes kind, unless a run restarts on old entries. */
  lemma KindsNeverChange(fleet: Fleet, item: Item, now: real)
    requires Agree(fleet) && StartsClean(fleet, item)
    ensures KindsStay(fleet.entries, ApplyFleet(fleet, item, now).entries)
  {
    var agent := item.agent;
    if agent != "" {
      var was := StateOf(fleet, agent);
      var s := ApplyItem(was, item, now, CAP);
      assert Matches(fleet, agent);
      if !item.RunStarted? {
        BlocksStay(was, item, now, CAP);
      }
      forall j | 0 <= j < |fleet.entries|
        ensures SameKind(fleet.entries[j].block, Merged(fleet.entries, agent, s.runId, s.blocks)[j].block)
      {
        RefreshAt(fleet.entries, agent, s.runId, s.blocks, j);
        if Owns(fleet.entries[j], agent, s.runId) && !item.RunStarted? {
          ShowsItsBlock(fleet.entries, agent, was, j);
        }
      }
    }
  }

  // Whole streams.

  function FleetOf(items: seq<Timed>): Fleet {
    if items == [] then Fleet(map[], [])
    else ApplyFleet(FleetOf(items[..|items| - 1]), items[|items| - 1].item, items[|items| - 1].now)
  }

  /** The item is of this agent and carries this run id. */
  predicate Names(item: Item, agent: string, run: string) {
    !item.Unknown? && item.agent == agent && item.run == run
  }

  /** Each start carries a run id its agent has not used before. */
  predicate FreshStarts(items: seq<Timed>) {
    items == [] ||
    var front, last := items[..|items| - 1], items[|items| - 1].item;
    FreshStarts(front) &&
    (last.RunStarted? && last.agent != "" ==> forall t | t in front :: !Names(t.item, last.agent, last.run))
  }

  predicate CleanStarts(items: seq<Timed>) {
    items == [] ||
    (CleanStarts(items[..|items| - 1]) && StartsClean(FleetOf(items[..|items| - 1]), items[|items| - 1].item))
  }

  ghost predicate AlwaysAgree(items: seq<Timed>) {
    Agree(FleetOf(items)) && (items != [] ==> AlwaysAgree(items[..|items| - 1]))
  }

  lemma EmptyFleetAgrees()
    ensures Agree(FleetOf([]))
  {
    forall a ensures Matches(FleetOf([]), a) {
    }
  }

  /** A stream agrees throughout exactly when no start lands on a run that has entries. */
  lemma {:induction false} AgreementExactly(items: seq<Timed>)
    ensures AlwaysAgree(items) <==> CleanStarts(items)
  {
    if items == [] {
      EmptyFleetAgrees();
    } else {
      var front, last := items[..|items| - 1], items[|items| - 1];
      AgreementExactly(front);
      if AlwaysAgree(front) {
        StepAgrees(FleetOf(front), last.item, last.now);
      }
    }
  }

  /** A run id used twice by one agent breaks the agreement. */
  lemma RestartedRunDisagrees()
    ensures var start, call := Timed(RunStarted("r", "a"), 0.0), Timed(LLMCallStarted("r", "a", 1, "m", ""), 1.0);
            AlwaysAgree([start, call]) && !Agree(FleetOf([start, call, start]))
  {
    var start, call := Timed(RunStarted("r", "a"), 0.0), Timed(LLMCallStarted("r", "a", 1, "m", ""), 1.0);
    var one, two, three := [start], [start, call], [start, call, start];
    assert one[..0] == [] && two[..1] == one && three[..2] == two;
    FreshStreamsAgree(two);
    var fleet := FleetOf(two);
    assert Matches(fleet, "a");
    assert |StateOf(fleet, "a").blocks| == 1;
    StepAgrees(fleet, start.item, start.now);
  }

  lemma StrangersChangeNothing(was: RunState, item: Item, now: real)
    requires item.Unknown? || item.run != ApplyItem(was, item, now, CAP).runId
    ensures ApplyItem(was, item, now, CAP) == was
  {
  }

  /** Only an item that names a run opens its first entry. */
  lemma NamelessOpensNothing(fleet: Fleet, item: Item, now: real, agent: string, run: string)
    requires Agree(fleet) && Own(fleet.entries, agent, run) == [] && !Names(item, agent, run)
    ensures Own(ApplyFleet(fleet, item, now).entries, agent, run) == []
  {
    var was := StateOf(fleet, item.agent);
    var s := ApplyItem(was, item, now, CAP);
    if item.agent != agent || s.runId != run {
      OthersUnmoved(fleet.entries, item.agent, s.runId, s.blocks, agent, run);
    } else {
      StrangersChangeNothing(was, item, now);
      assert Matches(fleet, agent);
      OwnOfMerged(fleet.entries, agent, was.runId, was.blocks);
    }
  }

  lemma {:induction false} EntriesHaveSource(items: seq<Timed>, agent: string, run: string)
    requires AlwaysAgree(items) && forall t | t in items :: !Names(t.item, agent, run)
    ensures Own(FleetOf(items).entries, agent, run) == []
  {
    if items != [] {
      var front, last := items[..|items| - 1], items[|items| - 1];
      assert last in items;
      EntriesHaveSource(front, agent, run);
      NamelessOpensNothing(FleetOf(front), last.item, last.now, agent, run);
    }
  }

  /** Fresh run ids are enough: every fleet along the stream agrees with its runs. */
  lemma {:induction false} FreshStreamsAgree(items: seq<Timed>)
    requires FreshStarts(items)
    ensures AlwaysAgree(items)
  {
    if items == [] {
      EmptyFleetAgrees();
    } else {
      var front, last := items[..|items| - 1], items[|items| - 1];
      FreshStreamsAgree(front);
      if last.item.RunStarted? && last.item.agent != "" {
        EntriesHaveSource(front, last.item.agent, last.item.run);
      }
      StepAgrees(FleetOf(front), last.item, last.now);
    }
  }

  /** A place keeps its meaning over two stretches if it does over each. */
  lemma GoodForBoth(a: seq<Entry<Block>>, b: seq<Entry<Block>>, c: seq<Entry<Block>>)
    requires Extends(a, b) && KindsStay(a, b) && Extends(b, c) && KindsStay(b, c)
    ensures Extends(a, c) && KindsStay(a, c)
  {
  }

  /** Over a whole fresh stream an entry's place, once taken, means the same block for good. */
  lemma {:induction false} PlacesAreForGood(items: seq<Timed>, n: nat)
    requires FreshStarts(items) && n <= |items|
    ensures Extends(FleetOf(items[..n]).entries, FleetOf(items).entries)
    ensures KindsStay(FleetOf(items[..n]).entries, FleetOf(items).entries)
  {
    if n == |items| {
      assert items[..n] == items;
    } else {
      var front, last := items[..|items| - 1], items[|items| - 1];
      assert front[..n] == items[..n];
      PlacesAreForGood(front, n);
      FreshStreamsAgree(items);
      AgreementExactly(items);
      OnlyAppends(FleetOf(front), last.item, last.now);
      KindsNeverChange(FleetOf(front), last.item, last.now);
      GoodForBoth(FleetOf(items[..n]).entries, FleetOf(front).entries, FleetOf(items).entries);
    }
  }

  // One agent's events never touch another's run.

  function Only(items: seq<Timed>, agent: string): seq<Timed> {
    if items == [] then [] else
      var front, last := Only(items[..|items| - 1], agent), items[|items| - 1];
      if last.item.agent == agent then front + [last] else front
  }

  lemma StateAfter(fleet: Fleet, item: Item, now: real, agent: string)
    requires agent != "" && "" !in fleet.states
    ensures var after := ApplyFleet(fleet, item, now);
            && StateOf(after, agent)
                 == (if item.agent == agent then ApplyItem(StateOf(fleet, agent), item, now, CAP) else StateOf(fleet, agent))
            && (agent in after.states <==> agent in fleet.states || item.agent == agent)
            && "" !in after.states
  {
  }

  lemma OnlyMore(items: seq<Timed>, agent: string)
    requires items != []
    ensures var front, last := items[..|items| - 1], items[|items| - 1];
            if last.item.agent == agent
            then Fold(Only(items, agent), CAP) == ApplyItem(Fold(Only(front, agent), CAP), last.item, last.now, CAP)
                 && Only(items, agent) != []
            else Only(items, agent) == Only(front, agent)
  {
    var only := Only(items, agent);
    if items[|items| - 1].item.agent == agent {
      assert only[..|only| - 1] == Only(items[..|items| - 1], agent);
    }
  }

  /** In any interleaving, an agent's state is the fold of its own events. */
  lemma {:induction false} StatesAreSeparate(items: seq<Timed>, agent: string)
    requires agent != ""
    ensures StateOf(FleetOf(items), agent) == Fold(Only(items, agent), CAP)
    ensures agent in FleetOf(items).states <==> Only(items, agent) != []
    ensures "" !in FleetOf(items).states
  {
    if items != [] {
      var front, last := items[..|items| - 1], items[|items| - 1];
      StatesAreSeparate(front, agent);
      StateAfter(FleetOf(front), last.item, last.now, agent);
      OnlyMore(items, agent);
    }
  }

  /** An agent's state is its own events folded without any cap, each text then cut to its last
      8000 characters. */
  lemma StatesHoldTheLastOfEachText(items: seq<Timed>, agent: string)
    requires agent != ""
    ensures StateOf(FleetOf(items), agent) == Transcript.Shortened(Fold(Only(items, agent), Unlimited), Last(8000))
  {
    StatesAreSeparate(items, agent);
    Transcript.FoldShortened(Only(items, agent), CAP);
  }

  // The two replays.

  function Stamped(items: seq<Item>, now: real): (r: seq<Timed>)
    ensures |r| == |items| && forall i | 0 <= i < |items| :: r[i] == Timed(items[i], now)
  {
    seq(|items|, i requires 0 <= i < |items| => Timed(items[i], now))
  }

  function Detach(s: RunState): RunState {
    if s.status.Live? then s.(attached := false) else s
  }

  function DetachAll(states: map<string, RunState>): map<string, RunState> {
    map a | a in states :: Detach(states[a])
  }

  function Seeded(items: seq<Item>, now: real): RunState {
    Detach(Fold(Stamped(items, now), CAP))
  }

  /** Grouping a stream by agent, keeping order. */
  function Mine(items: seq<Item>, agent: string): seq<Item> {
    if items == [] then [] else
      var front, last := Mine(items[..|items| - 1], agent), items[|items| - 1];
      if last.agent == agent then front + [last] else front
  }

  function Agents(items: seq<Item>): set<string> {
    set i | 0 <= i < |items| && items[i].agent != "" :: items[i].agent
  }

  function Grouped(items: seq<Item>): map<string, seq<Item>> {
    map a | a in Agents(items) :: Mine(items, a)
  }

  function SeededGroups(items: seq<Item>, now: real): map<string, RunState> {
    map a | a in Agents(items) :: Seeded(Mine(items, a), now)
  }

  lemma StampMore(items: seq<Item>, now: real)
    requires items != []
    ensures Stamped(items, now)[..|items| - 1] == Stamped(items[..|items| - 1], now)
  {
  }

  method SeedState(recent: seq<Item>, now: real) returns (s: RunState)
    ensures s == Seeded(recent, now)
  {
    s := NO_RUN;
    for i := 0 to |recent|
      invariant s == Fold(Stamped(recent[..i], now), CAP)
    {
      StampMore(recent[..i + 1], now);
      assert recent[..i + 1][..i] == recent[..i];
      s := ApplyItem(s, recent[i], now, CAP);
    }
    assert recent[..|recent|] == recent;
    if s.status.Live? {
      s := s.(attached := false);
    }
  }

  lemma GroupMore(items: seq<Item>)
    requires items != []
    ensures var front, last := items[..|items| - 1], items[|items| - 1];
            Grouped(items) == if last.agent == "" then Grouped(front)
              else Grouped(front)[last.agent := Mine(front, last.agent) + [last]]
  {
    var front, last := items[..|items| - 1], items[|items| - 1];
    assert Agents(items) == Agents(front) + if last.agent == "" then {} else {last.agent} by {
      assert items[|items| - 1] == last;
      assert forall i | 0 <= i < |front| :: front[i] == items[i];
    }
  }

  lemma {:induction false} MineIsEmpty(items: seq<Item>, agent: string)
    requires agent != ""
    ensures agent in Agents(items) <==> Mine(items, agent) != []
  {
    if items != [] {
      var front, last := items[..|items| - 1], items[|items| - 1];
      MineIsEmpty(front, agent);
      assert Agents(items) == Agents(front) + if last.agent == "" then {} else {last.agent} by {
        assert items[|items| - 1] == last;
        assert forall i | 0 <= i < |front| :: front[i] == items[i];
      }
    }
  }

  method GroupByAgent(recent: seq<Item>) returns (groups: map<string, seq<Item>>)
    ensures groups == Grouped(recent)
  {
    groups := map[];
    for i := 0 to |recent|
      invariant groups == Grouped(recent[..i])
    {
      var agent := recent[i].agent;
      GroupMore(recent[..i + 1]);
      assert recent[..i + 1][..i] == recent[..i];
      if agent != "" {
        MineIsEmpty(recent[..i], agent);
        groups := groups[agent := (if agent in groups then groups[agent] else []) + [recent[i]]];
      }
    }
    assert recent[..|recent|] == recent;
  }

  method SeedStates(recent: seq<Item>, now: real) returns (states: map<string, RunState>)
    ensures states == SeededGroups(recent, now)
  {
    var groups := GroupByAgent(recent);
    states := map[];
    var left := groups.Keys;
    while left != {}
      invariant left <= groups.Keys && states.Keys == groups.Keys - left
      invariant forall a | a in states :: states[a] == Seeded(Mine(recent, a), now)
    {
      var a :| a in left;
      var s := SeedState(groups[a], now);
      states := states[a := s];
      left := left - {a};
    }
  }

  method SeedFleet(recent: seq<Item>, now: real) returns (fleet: Fleet)
    ensures fleet == Fleet(DetachAll(FleetOf(Stamped(recent, now)).states), FleetOf(Stamped(recent, now)).entries)
  {
    fleet := Fleet(map[], []);
    for i := 0 to |recent|
      invariant fleet == FleetOf(Stamped(recent[..i], now))
    {
      StampMore(recent[..i + 1], now);
      assert recent[..i + 1][..i] == recent[..i];
      var item := recent[i];
      if item.agent != "" {
        fleet := SetRunState(fleet, item.agent, ApplyItem(StateOf(fleet, item.agent), item, now, CAP));
      }
    }
    assert recent[..|recent|] == recent;
    fleet := Fleet(DetachAll(fleet.states), fleet.entries);
  }

  lemma {:induction false} OnlyIsMine(items: seq<Item>, now: real, agent: string)
    ensures Only(Stamped(items, now), agent) == Stamped(Mine(items, agent), now)
  {
    if items != [] {
      var front := items[..|items| - 1];
      StampMore(items, now);
      OnlyIsMine(front, now, agent);
    }
  }

  lemma {:induction false} FoldIsAttached(items: seq<Timed>, cap: Cap)
    ensures Fold(items, cap).attached
  {
    if items != [] {
      FoldIsAttached(items[..|items| - 1], cap);
    }
  }

  /** What a replay restores is the fold of the events as they were, and attached to its stream
      exactly when the run is not live. */
  lemma ReplayedIsFold(recent: seq<Item>, now: real)
    ensures var s := Seeded(recent, now);
            s.(attached := true) == Fold(Stamped(recent, now), CAP) && (s.attached <==> !s.status.Live?)
  {
    FoldIsAttached(Stamped(recent, now), CAP);
  }

  /** The one-pass fleet replay restores the same runs as replaying each agent by itself. */
  lemma ReplaysAgree(recent: seq<Item>, now: real)
    ensures DetachAll(FleetOf(Stamped(recent, now)).states) == SeededGroups(recent, now)
  {
    var fleet := FleetOf(Stamped(recent, now));
    StatesAreSeparate(Stamped(recent, now), "a");
    forall a | a != ""
      ensures a in fleet.states <==> a in Agents(recent)
      ensures a in fleet.states ==> fleet.states[a] == Fold(Stamped(Mine(recent, a), now), CAP)
    {
      StatesAreSeparate(Stamped(recent, now), a);
      OnlyIsMine(recent, now, a);
      MineIsEmpty(recent, a);
    }
  }
}
