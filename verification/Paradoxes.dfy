/** The causal-paradox detector (novelizer/brain/paradoxes.py): which declared edges lie
    on a cycle, and which edges contradict the chapter order. */
module Paradoxes {
  import opened Digraph
  import Tarjan

  datatype CausalEdge = CausalEdge(cause: Id, effect: Id, note: string)

  datatype Reason = Ordering | Cycle

  datatype Candidate = Candidate(cause: Id, effect: Id, note: string, reason: Reason)

  /** The adjacency lists the declared edges give rise to, duplicates kept. */
  function Adjacency(edges: seq<CausalEdge>): Graph {
    if edges == [] then map[] else
      var g, e := Adjacency(edges[..|edges| - 1]), edges[|edges| - 1];
      g[e.cause := Succ(g, e.cause) + [e.effect]]
  }

  ghost predicate Declared(edges: seq<CausalEdge>, u: Id, v: Id) {
    exists e :: e in edges && e.cause == u && e.effect == v
  }

  /** The edge (u, v) closes a cycle: its effect leads back to its cause. */
  ghost predicate OnCycle(edges: seq<CausalEdge>, u: Id, v: Id) {
    Reach(Adjacency(edges), v, u)
  }

  lemma {:induction false} AdjacencyIsDeclared(edges: seq<CausalEdge>, u: Id, v: Id)
    ensures v in Succ(Adjacency(edges), u) <==> Declared(edges, u, v)
  {
    if edges != [] {
      var front, e := edges[..|edges| - 1], edges[|edges| - 1];
      AdjacencyIsDeclared(front, u, v);
      assert edges == front + [e];
      if e.cause == u && e.effect == v {
        assert e in edges;
      }
    }
  }

  function TimesDeclared(edges: seq<CausalEdge>, u: Id, v: Id): nat {
    if edges == [] then 0 else
      var e := edges[|edges| - 1];
      TimesDeclared(edges[..|edges| - 1], u, v) + if e.cause == u && e.effect == v then 1 else 0
  }

  /** An edge declared more than once is listed as often. */
  lemma {:induction false} AdjacencyAsOften(edges: seq<CausalEdge>, u: Id, v: Id)
    ensures multiset(Succ(Adjacency(edges), u))[v] == TimesDeclared(edges, u, v)
  {
    if edges != [] {
      AdjacencyAsOften(edges[..|edges| - 1], u, v);
    }
  }

  method BuildAdjacency(edges: seq<CausalEdge>) returns (adjacency: Graph)
    ensures adjacency == Adjacency(edges)
  {
    adjacency := map[];
    for i := 0 to |edges|
      invariant adjacency == Adjacency(edges[..i])
    {
      var e := edges[i];
      assert edges[..i + 1][..i] == edges[..i];
      if e.cause !in adjacency {
        adjacency := adjacency[e.cause := []];
      }
      adjacency := adjacency[e.cause := adjacency[e.cause] + [e.effect]];
    }
    assert edges[..|edges|] == edges;
  }

  /** The nodes of `within` that carry a component id. */
  function Carriers(sccOf: map<Id, nat>, within: set<Id>, id: nat): set<Id> {
    set w | w in within && w in sccOf && sccOf[w] == id
  }

  function Tally(size: map<nat, nat>, id: nat): nat {
    if id in size then size[id] else 0
  }

  ghost predicate Tallied(sccOf: map<Id, nat>, done: set<Id>, size: map<nat, nat>) {
    forall id {:trigger Tally(size, id)} :: Tally(size, id) == |Carriers(sccOf, done, id)|
  }

  lemma CarriersAdd(sccOf: map<Id, nat>, within: set<Id>, u: Id, id: nat)
    requires u in sccOf && u !in within
    ensures Carriers(sccOf, within + {u}, id) == Carriers(sccOf, within, id) + if sccOf[u] == id then {u} else {}
  {
  }

  lemma TallyAdd(sccOf: map<Id, nat>, done: set<Id>, size: map<nat, nat>, u: Id)
    requires u in sccOf && u !in done && Tallied(sccOf, done, size)
    ensures Tallied(sccOf, done + {u}, size[sccOf[u] := Tally(size, sccOf[u]) + 1])
  {
    var size' := size[sccOf[u] := Tally(size, sccOf[u]) + 1];
    forall id: nat
      ensures Tally(size', id) == |Carriers(sccOf, done + {u}, id)|
    {
      CarriersAdd(sccOf, done, u, id);
      assert Tally(size, id) == |Carriers(sccOf, done, id)|;
    }
  }

  /** How many nodes carry each component id. */
  method ComponentSizes(sccOf: map<Id, nat>) returns (size: map<nat, nat>)
    ensures Tallied(sccOf, sccOf.Keys, size)
  {
    size := map[];
    var todo := sccOf.Keys;
    ghost var done: set<Id> := {};
    while todo != {}
      invariant todo !! done && todo + done == sccOf.Keys
      invariant Tallied(sccOf, done, size)
      decreases todo
    {
      var u :| u in todo;
      TallyAdd(sccOf, done, size, u);
      size := size[sccOf[u] := Tally(size, sccOf[u]) + 1];
      todo, done := todo - {u}, done + {u};
    }
    assert done == sccOf.Keys;
  }

  /** Two different nodes with the same id make that component larger than one. */
  lemma SharedIdIsLarge(sccOf: map<Id, nat>, u: Id, v: Id)
    requires u in sccOf && v in sccOf && u != v && sccOf[u] == sccOf[v]
    ensures |Carriers(sccOf, sccOf.Keys, sccOf[u])| > 1
  {
    var same := Carriers(sccOf, sccOf.Keys, sccOf[u]);
    assert {u, v} <= same;
    assert |same - {u, v}| == |same| - |{u, v}|;
  }

  lemma DeclaredMore(some: seq<CausalEdge>, e: CausalEdge)
    ensures forall u, v :: Declared(some + [e], u, v) <==> Declared(some, u, v) || (u == e.cause && v == e.effect)
  {
    forall u, v
      ensures Declared(some + [e], u, v) <==> Declared(some, u, v) || (u == e.cause && v == e.effect)
    {
      assert (some + [e])[|some|] == e;
      if d :| d in some + [e] && d.cause == u && d.effect == v {
        assert d in some || d == e;
      }
    }
  }

  /** Exactly the declared edges that lie on a cycle, self-edges included. */
  method CycleEdges(edges: seq<CausalEdge>) returns (cyclic: set<(Id, Id)>)
    ensures forall u, v :: (u, v) in cyclic <==> Declared(edges, u, v) && OnCycle(edges, u, v)
  {
    var adjacency := BuildAdjacency(edges);
    var sccOf := Tarjan.StronglyConnectedComponents(adjacency);
    var sccSize := ComponentSizes(sccOf);
    cyclic := {};
    for i := 0 to |edges|
      invariant forall u, v :: (u, v) in cyclic <==> Declared(edges[..i], u, v) && OnCycle(edges, u, v)
    {
      var e := edges[i];
      var u, v := e.cause, e.effect;
      assert edges[..i + 1] == edges[..i] + [e];
      assert e in edges;
      EdgeVerdict(edges, sccOf, e);
      if u == v {
        cyclic := cyclic + {(u, v)};
      } else if u in sccOf && v in sccOf && sccOf[u] == sccOf[v] && Tally(sccSize, sccOf[u]) > 1 {
        cyclic := cyclic + {(u, v)};
      }
      DeclaredMore(edges[..i], e);
    }
    assert edges[..|edges|] == edges;
  }

  /** The test on component ids decides whether an edge closes a cycle. */
  lemma EdgeVerdict(edges: seq<CausalEdge>, sccOf: map<Id, nat>, e: CausalEdge)
    requires e in edges && sccOf.Keys == Nodes(Adjacency(edges))
    requires forall u, v {:trigger sccOf[u], sccOf[v]} | u in sccOf && v in sccOf ::
               sccOf[u] == sccOf[v] <==> Mutual(Adjacency(edges), u, v)
    ensures e.cause in sccOf && e.effect in sccOf
    ensures OnCycle(edges, e.cause, e.effect) <==> sccOf[e.cause] == sccOf[e.effect]
    ensures e.cause == e.effect ==> OnCycle(edges, e.cause, e.effect)
    ensures e.cause != e.effect && sccOf[e.cause] == sccOf[e.effect] ==>
              |Carriers(sccOf, sccOf.Keys, sccOf[e.cause])| > 1
  {
    var g := Adjacency(edges);
    AdjacencyIsDeclared(edges, e.cause, e.effect);
    ReachEdge(g, e.cause, e.effect);
    ReachSelf(g, e.cause);
    assert e.cause in g && e.effect in g[e.cause];
    assert e.cause in sccOf && e.effect in sccOf;
    if e.cause != e.effect && sccOf[e.cause] == sccOf[e.effect] {
      SharedIdIsLarge(sccOf, e.cause, e.effect);
    }
  }

  /** The position a chapter is listed at; of several, the last, as in a dictionary
      comprehension over the list. */
  function Position(order: seq<Id>, c: Id): int
    ensures -1 <= Position(order, c) < |order|
    ensures Position(order, c) >= 0 <==> c in order
    ensures c in order ==> order[Position(order, c)] == c
    ensures forall j | Position(order, c) < j < |order| :: order[j] != c
  {
    if order == [] then -1
    else if order[|order| - 1] == c then |order| - 1
    else Position(order[..|order| - 1], c)
  }

  ghost predicate Backward(order: seq<Id>, e: CausalEdge) {
    0 <= Position(order, e.effect) <= Position(order, e.cause)
  }

  ghost predicate Flagged(edges: seq<CausalEdge>, order: seq<Id>, e: CausalEdge) {
    Backward(order, e) || OnCycle(edges, e.cause, e.effect)
  }

  /** One candidate for each flagged occurrence among `some`, in order. */
  ghost function Report(edges: seq<CausalEdge>, order: seq<Id>, some: seq<CausalEdge>): seq<Candidate> {
    if some == [] then [] else
      var front, e := some[..|some| - 1], some[|some| - 1];
      Report(edges, order, front) +
      if Flagged(edges, order, e)
      then [Candidate(e.cause, e.effect, e.note, if Backward(order, e) then Ordering else Cycle)]
      else []
  }

  lemma {:induction false} ReportIsEmpty(edges: seq<CausalEdge>, order: seq<Id>, some: seq<CausalEdge>)
    ensures Report(edges, order, some) == [] <==> forall e | e in some :: !Flagged(edges, order, e)
  {
    if some != [] {
      ReportIsEmpty(edges, order, some[..|some| - 1]);
      assert some == some[..|some| - 1] + [some[|some| - 1]];
    }
  }

  /** One candidate for each place of `at`: that edge, with the reason it was flagged for. */
  ghost predicate Listed(edges: seq<CausalEdge>, order: seq<Id>, some: seq<CausalEdge>, found: seq<Candidate>, at: seq<nat>) {
    && |at| == |found|
    && (forall k | 0 <= k < |at| ::
          at[k] < |some| && Flagged(edges, order, some[at[k]]) && Names(found[k], some[at[k]])
          && (found[k].reason.Ordering? <==> Backward(order, some[at[k]])))
    && (forall j, k | 0 <= j < k < |at| :: at[j] < at[k])
    && (forall i | 0 <= i < |some| && Flagged(edges, order, some[i]) :: i in at)
  }

  predicate Names(c: Candidate, e: CausalEdge) {
    c.cause == e.cause && c.effect == e.effect && c.note == e.note
  }

  lemma ListedMore(edges: seq<CausalEdge>, order: seq<Id>, some: seq<CausalEdge>, found: seq<Candidate>, at: seq<nat>,
                   e: CausalEdge, c: Candidate)
    requires Listed(edges, order, some, found, at)
    ensures !Flagged(edges, order, e) ==> Listed(edges, order, some + [e], found, at)
    ensures Flagged(edges, order, e) && Names(c, e) && (c.reason.Ordering? <==> Backward(order, e)) ==>
              Listed(edges, order, some + [e], found + [c], at + [|some|])
  {
    var at' := at + [|some|];
    assert at'[|at|] == |some| && forall i | i in at :: i in at';
  }

  lemma ReportMore(edges: seq<CausalEdge>, order: seq<Id>, some: seq<CausalEdge>, e: CausalEdge)
    ensures Report(edges, order, some + [e]) == Report(edges, order, some) +
              if Flagged(edges, order, e)
              then [Candidate(e.cause, e.effect, e.note, if Backward(order, e) then Ordering else Cycle)] else []
  {
    assert (some + [e])[..|some|] == some;
  }

  lemma ListedReport(edges: seq<CausalEdge>, order: seq<Id>, some: seq<CausalEdge>, at: seq<nat>, e: CausalEdge)
    requires Listed(edges, order, some, Report(edges, order, some), at)
    ensures Listed(edges, order, some + [e], Report(edges, order, some + [e]),
                   if Flagged(edges, order, e) then at + [|some|] else at)
  {
    var c := Candidate(e.cause, e.effect, e.note, if Backward(order, e) then Ordering else Cycle);
    ListedMore(edges, order, some, Report(edges, order, some), at, e, c);
    ReportMore(edges, order, some, e);
    assert Report(edges, order, some) + [] == Report(edges, order, some);
  }

  lemma ListedOn(edges: seq<CausalEdge>, order: seq<Id>, some: seq<CausalEdge>, before: seq<nat>) returns (at: seq<nat>)
    requires some != []
    requires Listed(edges, order, some[..|some| - 1], Report(edges, order, some[..|some| - 1]), before)
    ensures Listed(edges, order, some, Report(edges, order, some), at)
  {
    var front, e := some[..|some| - 1], some[|some| - 1];
    assert some == front + [e];
    ListedReport(edges, order, front, before, e);
    at := if Flagged(edges, order, e) then before + [|front|] else before;
  }

  lemma NothingListed(edges: seq<CausalEdge>, order: seq<Id>)
    ensures Listed(edges, order, [], Report(edges, order, []), [])
  {
  }

  /** The report, place by place: exactly the flagged edges, each once and in the order declared;
      the reason is "ordering" exactly for those that go backward or stay, "cycle" for the rest. */
  lemma {:induction false} ReportIsInOrder(edges: seq<CausalEdge>, order: seq<Id>, some: seq<CausalEdge>) returns (at: seq<nat>)
    ensures Listed(edges, order, some, Report(edges, order, some), at)
  {
    if some == [] {
      at := [];
      NothingListed(edges, order);
    } else {
      at := ReportIsInOrder(edges, order, some[..|some| - 1]);
      at := ListedOn(edges, order, some, at);
    }
  }

  method IndexChapters(order: seq<Id>) returns (index: map<Id, nat>)
    ensures index.Keys == set c | c in order
    ensures forall c | c in index :: index[c] == Position(order, c)
  {
    index := map[];
    for i := 0 to |order|
      invariant index.Keys == set c | c in order[..i]
      invariant forall c | c in index :: index[c] == Position(order[..i], c)
    {
      assert order[..i + 1][..i] == order[..i];
      index := index[order[i] := i];
    }
    assert order[..|order|] == order;
  }

  /** What the reporting loop finds, by the index and the pairs it is given. */
  function Found(index: map<Id, nat>, cyclicPairs: set<(Id, Id)>, some: seq<CausalEdge>): seq<Candidate> {
    if some == [] then [] else
      var front, e := Found(index, cyclicPairs, some[..|some| - 1]), some[|some| - 1];
      if e.cause in index && e.effect in index && index[e.effect] <= index[e.cause]
      then front + [Candidate(e.cause, e.effect, e.note, Ordering)]
      else if (e.cause, e.effect) in cyclicPairs then front + [Candidate(e.cause, e.effect, e.note, Cycle)]
      else front
  }

  /** The index and the pairs say of an edge what they should. */
  ghost predicate Tells(edges: seq<CausalEdge>, order: seq<Id>, index: map<Id, nat>, cyclicPairs: set<(Id, Id)>, e: CausalEdge) {
    && (Backward(order, e) <==> e.cause in index && e.effect in index && index[e.effect] <= index[e.cause])
    && (OnCycle(edges, e.cause, e.effect) <==> (e.cause, e.effect) in cyclicPairs)
  }

  lemma {:induction false} FoundIsReport(edges: seq<CausalEdge>, order: seq<Id>, index: map<Id, nat>,
                                         cyclicPairs: set<(Id, Id)>, some: seq<CausalEdge>)
    requires forall e | e in some :: Tells(edges, order, index, cyclicPairs, e)
    ensures Found(index, cyclicPairs, some) == Report(edges, order, some)
  {
    if some != [] {
      FoundIsReport(edges, order, index, cyclicPairs, some[..|some| - 1]);
      assert Tells(edges, order, index, cyclicPairs, some[|some| - 1]);
    }
  }

  lemma LookupTells(edges: seq<CausalEdge>, order: seq<Id>, index: map<Id, nat>, cyclicPairs: set<(Id, Id)>, e: CausalEdge)
    requires index.Keys == set c | c in order
    requires forall c | c in index :: index[c] == Position(order, c)
    requires (e.cause, e.effect) in cyclicPairs <==> OnCycle(edges, e.cause, e.effect)
    ensures Tells(edges, order, index, cyclicPairs, e)
  {
  }

  method FindParadoxes(edges: seq<CausalEdge>, chapterOrder: seq<Id>) returns (candidates: seq<Candidate>)
    ensures candidates == Report(edges, chapterOrder, edges)
  {
    var index := IndexChapters(chapterOrder);
    var cyclicPairs := CycleEdges(edges);
    forall e | e in edges ensures Tells(edges, chapterOrder, index, cyclicPairs, e) {
      assert Declared(edges, e.cause, e.effect);
      LookupTells(edges, chapterOrder, index, cyclicPairs, e);
    }
    FoundIsReport(edges, chapterOrder, index, cyclicPairs, edges);
    candidates := Flag(edges, index, cyclicPairs);
  }

  /** The reporting loop. */
  method Flag(edges: seq<CausalEdge>, index: map<Id, nat>, cyclicPairs: set<(Id, Id)>) returns (candidates: seq<Candidate>)
    ensures candidates == Found(index, cyclicPairs, edges)
  {
    candidates := [];
    for i := 0 to |edges|
      invariant candidates == Found(index, cyclicPairs, edges[..i])
    {
      var e := edges[i];
      assert edges[..i + 1][..i] == edges[..i];
      if e.cause in index && e.effect in index && index[e.effect] <= index[e.cause] {
        candidates := candidates + [Candidate(e.cause, e.effect, e.note, Ordering)];
      } else if (e.cause, e.effect) in cyclicPairs {
        candidates := candidates + [Candidate(e.cause, e.effect, e.note, Cycle)];
      }
    }
    assert edges[..|edges|] == edges;
  }

  ghost predicate Acyclic(edges: seq<CausalEdge>) {
    forall p :: !IsCycle(Adjacency(edges), p)
  }

  /** Both ends of every edge are listed chapters. */
  ghost predicate Placed(edges: seq<CausalEdge>, order: seq<Id>) {
    forall e | e in edges :: e.cause in order && e.effect in order
  }

  /** The detector is silent exactly on acyclic, forward graphs. */
  lemma SilentIffConsistent(edges: seq<CausalEdge>, order: seq<Id>)
    ensures Report(edges, order, edges) == [] <==>
              Acyclic(edges) && forall e | e in edges :: !Backward(order, e)
  {
    ReportIsEmpty(edges, order, edges);
    var g := Adjacency(edges);
    CycleIffBackEdge(g);
    forall u, v
      ensures v in Succ(g, u) <==> Declared(edges, u, v)
    {
      AdjacencyIsDeclared(edges, u, v);
    }
    forall e | e in edges
      ensures e.effect in Succ(g, e.cause)
    {
      assert Declared(edges, e.cause, e.effect);
    }
    if e :| e in edges && OnCycle(edges, e.cause, e.effect) {
      assert e.effect in Succ(g, e.cause) && Reach(g, e.effect, e.cause);
    }
  }

  /** Every step of a cycle is flagged under its own edge, whatever else is. */
  lemma EveryCycleEdgeIsFlagged(edges: seq<CausalEdge>, order: seq<Id>, p: seq<Id>, i: nat, e: CausalEdge)
    requires IsCycle(Adjacency(edges), p) && i < |p| - 1
    requires e in edges && e.cause == p[i] && e.effect == p[i + 1]
    ensures Flagged(edges, order, e)
    ensures exists c :: c in Report(edges, order, edges) && c.cause == e.cause && c.effect == e.effect && c.note == e.note
  {
    var g := Adjacency(edges);
    SubPath(g, p, i + 1, |p| - 1);
    SubPath(g, p, 0, i);
    ReachTrans(g, p[i + 1], p[|p| - 1], p[i]);
    ReportHas(edges, order, edges, e);
  }

  lemma SubPath(g: Graph, p: seq<Id>, i: nat, j: nat)
    requires IsPath(g, p) && i <= j < |p|
    ensures Reach(g, p[i], p[j])
  {
    var q := p[i..j + 1];
    forall k | 0 <= k < |q| - 1
      ensures Hop(g, q, k)
    {
      assert Hop(g, p, i + k);
    }
    assert Connects(g, q, p[i], p[j]);
  }

  lemma {:induction false} ReportHas(edges: seq<CausalEdge>, order: seq<Id>, some: seq<CausalEdge>, e: CausalEdge)
    requires e in some && Flagged(edges, order, e)
    ensures exists c :: c in Report(edges, order, some) && c.cause == e.cause && c.effect == e.effect && c.note == e.note
  {
    var front, last := some[..|some| - 1], some[|some| - 1];
    assert some == front + [last];
    var r := Report(edges, order, some);
    if e in front {
      ReportHas(edges, order, front, e);
      var c :| c in Report(edges, order, front) && c.cause == e.cause && c.effect == e.effect && c.note == e.note;
      assert c in r;
    } else {
      assert r[|r| - 1] in r;
    }
  }

  /** When every edge is between listed chapters, going forward already rules out cycles:
      only ordering can be at fault. */
  lemma ForwardIsEnough(edges: seq<CausalEdge>, order: seq<Id>)
    requires Placed(edges, order)
    ensures Report(edges, order, edges) == [] <==> forall e | e in edges :: !Backward(order, e)
  {
    SilentIffConsistent(edges, order);
    if forall e | e in edges :: !Backward(order, e) {
      forall p
        ensures !IsCycle(Adjacency(edges), p)
      {
        if IsCycle(Adjacency(edges), p) {
          PathClimbs(edges, order, p);
        }
      }
    }
  }

  /** Along a path of forward edges the chapter positions strictly rise. */
  lemma PathClimbs(edges: seq<CausalEdge>, order: seq<Id>, p: seq<Id>)
    requires Placed(edges, order) && forall e | e in edges :: !Backward(order, e)
    requires IsPath(Adjacency(edges), p) && |p| >= 2
    ensures Position(order, p[0]) < Position(order, p[|p| - 1])
  {
    var g := Adjacency(edges);
    for i := 1 to |p|
      invariant i > 1 ==> Position(order, p[0]) < Position(order, p[i - 1])
    {
      assert Hop(g, p, i - 1);
      AdjacencyIsDeclared(edges, p[i - 1], p[i]);
      var e :| e in edges && e.cause == p[i - 1] && e.effect == p[i];
      assert !Backward(order, e);
    }
  }
}
