/** Many agents' runs, one state each, and the merged list of their blocks
    (tui_kit/fleet_model.py:36-73). */
module FleetModel {
  import opened MergedList
  import opened RunModel

  const CAP := Last(TEXT_CAP)

  datatype Fleet = Fleet(states: map<string, RunState>, entries: seq<Entry<Block>>)

  function WithRun(fleet: Fleet, agent: string, s: RunState): Fleet {
    Fleet(fleet.states[agent := s], Merged(fleet.entries, agent, s.runId, s.blocks))
  }

  method SetRunState(fleet: Fleet, agent: string, s: RunState) returns (r: Fleet)
    ensures r == WithRun(fleet, agent, s)
  {
    var positions := Positions(fleet.entries, agent, s.runId);
    PutsAreRefresh(fleet.entries, agent, s.runId, s.blocks);
    var entries := RefreshInPlace(fleet.entries, positions, s.blocks);
    TailIsNew(agent, s.runId, s.blocks, |positions|);
    var tail := NewTail(agent, s.runId, s.blocks, |positions|);
    entries := entries + tail;
    r := Fleet(fleet.states[agent := s], entries);
  }

  function StateOf(fleet: Fleet, agent: string): RunState {
    if agent in fleet.states then fleet.states[agent] else NO_RUN
  }

  function ApplyFleet(fleet: Fleet, item: Item, now: real): Fleet {
    if item.agent == "" then fleet
    else WithRun(fleet, item.agent, ApplyItem(StateOf(fleet, item.agent), item, now, CAP))
  }

  /** The merged list holds each agent's current run, in order, at its own positions. */
  ghost predicate Agree(fleet: Fleet) {
    forall a :: Matches(fleet, a)
  }

  ghost predicate Matches(fleet: Fleet, agent: string) {
    var s := StateOf(fleet, agent);
    Own(fleet.entries, agent, s.runId) == Tail(agent, s.runId, s.blocks, 0)
  }

  /** A started run has no entries yet. */
  predicate StartsClean(fleet: Fleet, item: Item) {
    item.RunStarted? && item.agent != "" ==> Own(fleet.entries, item.agent, item.run) == []
  }

  /** Agreement survives an item exactly when it does not restart a run that has entries. */
  lemma StepAgrees(fleet: Fleet, item: Item, now: real)
    requires Agree(fleet)
    ensures Agree(ApplyFleet(fleet, item, now)) <==> StartsClean(fleet, item)
  {
    var agent := item.agent;
    if agent != "" {
      var was := StateOf(fleet, agent);
      var s := ApplyItem(was, item, now, CAP);
      var after := ApplyFleet(fleet, item, now);
      assert Matches(fleet, agent);
      forall a | a != agent ensures Matches(after, a) {
        assert Matches(fleet, a);
        OthersUnmoved(fleet.entries, agent, s.runId, s.blocks, a, StateOf(fleet, a).runId);
      }
      if item.RunStarted? {
        OwnOfMerged(fleet.entries, agent, s.runId, s.blocks);
        assert Matches(after, agent) <==> Own(fleet.entries, agent, item.run) == [];
      } else {
        BlocksStay(was, item, now, CAP);
        OwnFollow(fleet.entries, agent, s.runId, was.blocks, s.blocks);
        assert Matches(after, agent);
      }
    }
  }
}
