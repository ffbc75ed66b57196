/** The merged list of many runs' blocks and its reconciliation with one run, in place
    (tui_kit/fleet_model.py:25-63). */
module MergedList {

  datatype Entry<B> = Entry(agent: string, run: string, index: nat, block: B)

  predicate Owns<B>(e: Entry<B>, agent: string, run: string) {
    e.agent == agent && e.run == run
  }

  /** The entries of one run, in order. */
  function Own<B>(entries: seq<Entry<B>>, agent: string, run: string): seq<Entry<B>> {
    if entries == [] then [] else
      var front, last := Own(entries[..|entries| - 1], agent, run), entries[|entries| - 1];
      if Owns(last, agent, run) then front + [last] else front
  }

  /** An entry of the run takes the block of its place among the run's entries. */
  function Refreshed<B>(e: Entry<B>, place: nat, agent: string, run: string, blocks: seq<B>): Entry<B> {
    if Owns(e, agent, run) && place < |blocks| then e.(block := blocks[place]) else e
  }

  function Refresh<B>(entries: seq<Entry<B>>, agent: string, run: string, blocks: seq<B>): (r: seq<Entry<B>>)
    ensures |r| == |entries|
  {
    if entries == [] then [] else
      var front, last := entries[..|entries| - 1], entries[|entries| - 1];
      Refresh(front, agent, run, blocks) + [Refreshed(last, |Own(front, agent, run)|, agent, run, blocks)]
  }

  function Tail<B>(agent: string, run: string, blocks: seq<B>, from: nat): (r: seq<Entry<B>>)
    ensures |r| == if from <= |blocks| then |blocks| - from else 0
    ensures forall i | 0 <= i < |r| :: r[i] == Entry(agent, run, from + i, blocks[from + i])
  {
    if from >= |blocks| then []
    else seq(|blocks| - from, i requires 0 <= i < |blocks| - from =>
             Entry(agent, run, from + i, blocks[from + i]))
  }

  function Merged<B>(entries: seq<Entry<B>>, agent: string, run: string, blocks: seq<B>): seq<Entry<B>> {
    Refresh(entries, agent, run, blocks) + Tail(agent, run, blocks, |Own(entries, agent, run)|)
  }

  // The in-place reconciliation.

  lemma {:induction false} RefreshAt<B>(entries: seq<Entry<B>>, agent: string, run: string, blocks: seq<B>, j: nat)
    requires j < |entries|
    ensures Refresh(entries, agent, run, blocks)[j]
              == Refreshed(entries[j], |Own(entries[..j], agent, run)|, agent, run, blocks)
  {
    var n := |entries| - 1;
    if j < n {
      RefreshAt(entries[..n], agent, run, blocks, j);
      assert entries[..n][..j] == entries[..j];
    }
  }

  lemma OwnGrows<B>(entries: seq<Entry<B>>, agent: string, run: string, j: nat)
    requires j < |entries|
    ensures Own(entries[..j + 1], agent, run)
              == Own(entries[..j], agent, run) + if Owns(entries[j], agent, run) then [entries[j]] else []
  {
    assert entries[..j + 1][..j] == entries[..j];
  }

  /** Where the first entries of a run sit. */
  function PositionsOf<B>(entries: seq<Entry<B>>, agent: string, run: string, upto: nat): (r: seq<nat>)
    requires upto <= |entries|
    ensures forall k | 0 <= k < |r| :: r[k] < upto
  {
    if upto == 0 then [] else
      PositionsOf(entries, agent, run, upto - 1) + if Owns(entries[upto - 1], agent, run) then [upto - 1] else []
  }

  ghost predicate NoneOwned<B>(entries: seq<Entry<B>>, agent: string, run: string, lo: nat, hi: nat) {
    hi <= |entries| && forall k | lo <= k < hi :: !Owns(entries[k], agent, run)
  }

  /** Just behind the first `i` positions. */
  function Behind(positions: seq<nat>, i: nat): nat
    requires i <= |positions|
  {
    if i == 0 then 0 else positions[i - 1] + 1
  }

  lemma {:induction false} NoneBehindLast<B>(entries: seq<Entry<B>>, agent: string, run: string, upto: nat)
    requires upto <= |entries|
    ensures var p := PositionsOf(entries, agent, run, upto);
            Behind(p, |p|) <= upto && NoneOwned(entries, agent, run, Behind(p, |p|), upto)
  {
    if upto > 0 {
      NoneBehindLast(entries, agent, run, upto - 1);
    }
  }

  /** From one position to the next there is nothing of the run. */
  lemma {:induction false} NextPosition<B>(entries: seq<Entry<B>>, agent: string, run: string, upto: nat, i: nat)
    requires upto <= |entries| && i < |PositionsOf(entries, agent, run, upto)|
    ensures var p := PositionsOf(entries, agent, run, upto);
            && Behind(p, i) <= p[i] < upto && Owns(entries[p[i]], agent, run)
            && NoneOwned(entries, agent, run, Behind(p, i), p[i])
  {
    var before := PositionsOf(entries, agent, run, upto - 1);
    if i < |before| {
      NextPosition(entries, agent, run, upto - 1, i);
    } else {
      NoneBehindLast(entries, agent, run, upto - 1);
    }
  }

  method Positions<B>(entries: seq<Entry<B>>, agent: string, run: string) returns (positions: seq<nat>)
    ensures positions == PositionsOf(entries, agent, run, |entries|)
  {
    positions := [];
    for j := 0 to |entries|
      invariant positions == PositionsOf(entries, agent, run, j)
    {
      if entries[j].agent == agent && entries[j].run == run {
        positions := positions + [j];
      }
    }
  }

  /** Up to `cut` the entries are refreshed, and `count` of them are the run's. */
  ghost predicate RefreshedTo<B>(was: seq<Entry<B>>, entries: seq<Entry<B>>, agent: string, run: string, blocks: seq<B>,
                                 cut: nat, count: nat) {
    && cut <= |was| == |entries| && |Own(was[..cut], agent, run)| == count
    && forall k {:trigger entries[k]} | 0 <= k < |was| ::
         entries[k] == if k < cut then Refresh(was, agent, run, blocks)[k] else was[k]
  }

  lemma RefreshOne<B>(was: seq<Entry<B>>, entries: seq<Entry<B>>, agent: string, run: string, blocks: seq<B>,
                      j: nat, count: nat)
    requires j < |was| && RefreshedTo(was, entries, agent, run, blocks, j, count)
    ensures entries[j] == was[j]
    ensures RefreshedTo(was, entries[j := Refreshed(was[j], count, agent, run, blocks)], agent, run, blocks, j + 1,
                        if Owns(was[j], agent, run) then count + 1 else count)
  {
    RefreshAt(was, agent, run, blocks, j);
    OwnGrows(was, agent, run, j);
  }

  /** Entries of other runs need no refreshing. */
  lemma {:induction false} RefreshSkips<B>(was: seq<Entry<B>>, entries: seq<Entry<B>>, agent: string, run: string, blocks: seq<B>,
                                           cut: nat, count: nat, j: nat)
    requires RefreshedTo(was, entries, agent, run, blocks, cut, count) && cut <= j
    requires NoneOwned(was, agent, run, cut, j)
    ensures RefreshedTo(was, entries, agent, run, blocks, j, count)
    decreases j - cut
  {
    if cut < j {
      RefreshOne(was, entries, agent, run, blocks, cut, count);
      assert entries[cut := was[cut]] == entries;
      RefreshSkips(was, entries, agent, run, blocks, cut + 1, count, j);
    }
  }

  /** The first `count` of the run's entries are refreshed. */
  ghost predicate CountRefreshed<B>(was: seq<Entry<B>>, entries: seq<Entry<B>>, agent: string, run: string, blocks: seq<B>,
                                    count: nat) {
    var positions := PositionsOf(was, agent, run, |was|);
    count <= |positions| && |entries| == |was| && RefreshedTo(was, entries, agent, run, blocks, Behind(positions, count), count)
  }

  /** One turn of the loop over the positions. */
  function PutBlock<B(==)>(entries: seq<Entry<B>>, j: nat, blocks: seq<B>, i: nat): seq<Entry<B>>
    requires j < |entries|
  {
    if i < |blocks| && entries[j].block != blocks[i] then entries[j := entries[j].(block := blocks[i])] else entries
  }

  lemma PutIsRefresh<B>(entries: seq<Entry<B>>, j: nat, i: nat, agent: string, run: string, blocks: seq<B>)
    requires j < |entries| && Owns(entries[j], agent, run)
    ensures PutBlock(entries, j, blocks, i) == entries[j := Refreshed(entries[j], i, agent, run, blocks)]
  {
    assert entries[j := entries[j]] == entries;
  }

  /** The first `count` turns of the loop. */
  function PutBlocks<B(==)>(was: seq<Entry<B>>, positions: seq<nat>, blocks: seq<B>, count: nat): (r: seq<Entry<B>>)
    requires count <= |positions| && forall k | 0 <= k < |positions| :: positions[k] < |was|
    ensures |r| == |was|
  {
    if count == 0 then was
    else PutBlock(PutBlocks(was, positions, blocks, count - 1), positions[count - 1], blocks, count - 1)
  }

  lemma PutNext<B>(was: seq<Entry<B>>, entries: seq<Entry<B>>, agent: string, run: string, blocks: seq<B>, i: nat)
    requires CountRefreshed(was, entries, agent, run, blocks, i) && i < |PositionsOf(was, agent, run, |was|)|
    ensures var j := PositionsOf(was, agent, run, |was|)[i];
            j < |entries| && CountRefreshed(was, PutBlock(entries, j, blocks, i), agent, run, blocks, i + 1)
  {
    var positions := PositionsOf(was, agent, run, |was|);
    NextPosition(was, agent, run, |was|, i);
    RefreshSkips(was, entries, agent, run, blocks, Behind(positions, i), i, positions[i]);
    RefreshOne(was, entries, agent, run, blocks, positions[i], i);
    PutIsRefresh(entries, positions[i], i, agent, run, blocks);
  }

  lemma {:induction false} PutsRefresh<B>(was: seq<Entry<B>>, agent: string, run: string, blocks: seq<B>, count: nat)
    requires count <= |PositionsOf(was, agent, run, |was|)|
    ensures CountRefreshed(was, PutBlocks(was, PositionsOf(was, agent, run, |was|), blocks, count), agent, run, blocks, count)
  {
    if count > 0 {
      PutsRefresh(was, agent, run, blocks, count - 1);
      PutNext(was, PutBlocks(was, PositionsOf(was, agent, run, |was|), blocks, count - 1), agent, run, blocks, count - 1);
    }
  }

  /** All the turns of the loop refresh the list. */
  lemma PutsAreRefresh<B>(was: seq<Entry<B>>, agent: string, run: string, blocks: seq<B>)
    ensures var positions := PositionsOf(was, agent, run, |was|);
            && |positions| == |Own(was, agent, run)|
            && PutBlocks(was, positions, blocks, |positions|) == Refresh(was, agent, run, blocks)
  {
    var positions := PositionsOf(was, agent, run, |was|);
    PutsRefresh(was, agent, run, blocks, |positions|);
    NoneBehindLast(was, agent, run, |was|);
    var entries := PutBlocks(was, positions, blocks, |positions|);
    RefreshSkips(was, entries, agent, run, blocks, Behind(positions, |positions|), |positions|, |was|);
    assert was[..|was|] == was;
  }

  method RefreshInPlace<B(==)>(was: seq<Entry<B>>, positions: seq<nat>, blocks: seq<B>) returns (entries: seq<Entry<B>>)
    requires forall k | 0 <= k < |positions| :: positions[k] < |was|
    ensures entries == PutBlocks(was, positions, blocks, |positions|)
  {
    entries := was;
    for i := 0 to |positions|
      invariant entries == PutBlocks(was, positions, blocks, i)
    {
      var j := positions[i];
      if i < |blocks| && entries[j].block != blocks[i] {
        entries := entries[j := entries[j].(block := blocks[i])];
      }
    }
  }

  /** The entries for blocks `from` up to `to`, one behind the other. */
  function NewEntries<B>(agent: string, run: string, blocks: seq<B>, from: nat, to: nat): seq<Entry<B>>
    requires to <= |blocks|
  {
    if to <= from then [] else NewEntries(agent, run, blocks, from, to - 1) + [Entry(agent, run, to - 1, blocks[to - 1])]
  }

  lemma {:induction false} NewEntriesAre<B>(agent: string, run: string, blocks: seq<B>, from: nat, to: nat)
    requires from <= to <= |blocks|
    ensures NewEntries(agent, run, blocks, from, to) == Tail(agent, run, blocks, from)[..to - from]
  {
    if from < to {
      NewEntriesAre(agent, run, blocks, from, to - 1);
    }
  }

  lemma TailIsNew<B>(agent: string, run: string, blocks: seq<B>, from: nat)
    ensures Tail(agent, run, blocks, from) == NewEntries(agent, run, blocks, from, |blocks|)
  {
    if from <= |blocks| {
      NewEntriesAre(agent, run, blocks, from, |blocks|);
    }
  }

  method NewTail<B>(agent: string, run: string, blocks: seq<B>, from: nat) returns (tail: seq<Entry<B>>)
    ensures tail == NewEntries(agent, run, blocks, from, |blocks|)
  {
    tail := [];
    var i := from;
    while i < |blocks|
      invariant i <= |blocks| ==> tail == NewEntries(agent, run, blocks, from, i)
      invariant i > |blocks| ==> i == from && tail == []
      invariant from <= i
    {
      tail := tail + [Entry(agent, run, i, blocks[i])];
      i := i + 1;
    }
  }

  lemma {:induction false} OwnOfSum<B>(a: seq<Entry<B>>, b: seq<Entry<B>>, agent: string, run: string)
    ensures Own(a + b, agent, run) == Own(a, agent, run) + Own(b, agent, run)
  {
    if b == [] {
      assert a + b == a;
    } else {
      assert (a + b)[..|a + b| - 1] == a + b[..|b| - 1];
      OwnOfSum(a, b[..|b| - 1], agent, run);
    }
  }

  lemma {:induction false} OwnOfAlike<B>(entries: seq<Entry<B>>, owner: string, ownRun: string, agent: string, run: string)
    requires forall e | e in entries :: Owns(e, owner, ownRun)
    ensures Own(entries, agent, run) == if agent == owner && run == ownRun then entries else []
  {
    if entries != [] {
      var front := entries[..|entries| - 1];
      assert entries[|entries| - 1] in entries;
      forall e | e in front ensures Owns(e, owner, ownRun) {
        assert e in entries;
      }
      OwnOfAlike(front, owner, ownRun, agent, run);
    }
  }

  /** One more entry of a run, refreshed by its place there. */
  ghost predicate PlaceByPlace<B>(was: seq<Entry<B>>, now: seq<Entry<B>>, agent: string, run: string, blocks: seq<B>) {
    |now| == |was| && forall k | 0 <= k < |was| :: now[k] == Refreshed(was[k], k, agent, run, blocks)
  }

  lemma PlacesGrow<B>(was: seq<Entry<B>>, now: seq<Entry<B>>, agent: string, run: string, blocks: seq<B>, e: Entry<B>)
    requires PlaceByPlace(was, now, agent, run, blocks)
    ensures PlaceByPlace(was + [e], now + [Refreshed(e, |was|, agent, run, blocks)], agent, run, blocks)
  {
  }

  /** Refreshing changes blocks of the one run only, each by its place. */
  lemma {:induction false} OwnOfRefresh<B>(entries: seq<Entry<B>>, agent: string, run: string, blocks: seq<B>,
                                           other: string, otherRun: string)
    ensures PlaceByPlace(Own(entries, other, otherRun), Own(Refresh(entries, agent, run, blocks), other, otherRun),
                         agent, run, blocks)
  {
    if entries != [] {
      var front, last := entries[..|entries| - 1], entries[|entries| - 1];
      var r := Refreshed(last, |Own(front, agent, run)|, agent, run, blocks);
      OwnOfRefresh(front, agent, run, blocks, other, otherRun);
      assert Refresh(entries, agent, run, blocks)[..|entries| - 1] == Refresh(front, agent, run, blocks);
      if Owns(last, other, otherRun) {
        assert r == Refreshed(last, |Own(front, other, otherRun)|, agent, run, blocks);
        PlacesGrow(Own(front, other, otherRun), Own(Refresh(front, agent, run, blocks), other, otherRun),
                   agent, run, blocks, last);
      }
    }
  }

  lemma OwnOfMerged<B>(entries: seq<Entry<B>>, agent: string, run: string, blocks: seq<B>)
    ensures var was, now := Own(entries, agent, run), Own(Merged(entries, agent, run, blocks), agent, run);
            && |now| >= |was| && PlaceByPlace(was, now[..|was|], agent, run, blocks)
            && now[|was|..] == Tail(agent, run, blocks, |was|)
  {
    var tail := Tail(agent, run, blocks, |Own(entries, agent, run)|);
    OwnOfRefresh(entries, agent, run, blocks, agent, run);
    OwnOfAlike(tail, agent, run, agent, run);
    OwnOfSum(Refresh(entries, agent, run, blocks), tail, agent, run);
  }

  lemma OthersUnmoved<B>(entries: seq<Entry<B>>, agent: string, run: string, blocks: seq<B>, other: string, otherRun: string)
    requires other != agent || otherRun != run
    ensures Own(Merged(entries, agent, run, blocks), other, otherRun) == Own(entries, other, otherRun)
  {
    var tail := Tail(agent, run, blocks, |Own(entries, agent, run)|);
    var was, now := Own(entries, other, otherRun), Own(Refresh(entries, agent, run, blocks), other, otherRun);
    OwnOfRefresh(entries, agent, run, blocks, other, otherRun);
    OwnOfAlike(tail, agent, run, other, otherRun);
    OwnOfSum(Refresh(entries, agent, run, blocks), tail, other, otherRun);
    forall k | 0 <= k < |was| ensures now[k] == was[k] {
      OwnAreOwned(entries, other, otherRun, was[k]);
    }
  }

  lemma {:induction false} OwnAreOwned<B>(entries: seq<Entry<B>>, agent: string, run: string, e: Entry<B>)
    ensures e in Own(entries, agent, run) <==> e in entries && Owns(e, agent, run)
  {
    if entries != [] {
      assert entries == entries[..|entries| - 1] + [entries[|entries| - 1]];
      OwnAreOwned(entries[..|entries| - 1], agent, run, e);
    }
  }

  lemma FollowPlaces<B>(before: seq<Entry<B>>, after: seq<Entry<B>>, agent: string, run: string, was: seq<B>, blocks: seq<B>)
    requires before == Tail(agent, run, was, 0) && |was| <= |blocks|
    requires |after| >= |before| && PlaceByPlace(before, after[..|before|], agent, run, blocks)
    requires after[|before|..] == Tail(agent, run, blocks, |before|)
    ensures after == Tail(agent, run, blocks, 0)
  {
    var n := |before|;
    forall k | 0 <= k < |after| ensures after[k] == Tail(agent, run, blocks, 0)[k] {
      if k < n {
        assert after[k] == after[..n][k] == Refreshed(before[k], k, agent, run, blocks);
      } else {
        assert after[k] == after[n..][k - n];
      }
    }
  }

  /** The run's own entries follow its blocks as long as no block is lost. */
  lemma OwnFollow<B>(entries: seq<Entry<B>>, agent: string, run: string, was: seq<B>, blocks: seq<B>)
    requires Own(entries, agent, run) == Tail(agent, run, was, 0) && |was| <= |blocks|
    ensures Own(Merged(entries, agent, run, blocks), agent, run) == Tail(agent, run, blocks, 0)
  {
    OwnOfMerged(entries, agent, run, blocks);
    FollowPlaces(Own(entries, agent, run), Own(Merged(entries, agent, run, blocks), agent, run), agent, run, was, blocks);
  }
}
