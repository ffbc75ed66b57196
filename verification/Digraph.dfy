/** Directed graphs as adjacency lists, and reachability along them.

    Only what the paradox detector's correctness needs: reachability is reflexive
    and transitive, and never leaves a set of nodes that is closed under successors. */
module Digraph {

  type Id = string

  /** The dictionary of outgoing edges; a node without an entry has none. */
  type Graph = map<Id, seq<Id>>

  function Succ(g: Graph, u: Id): seq<Id> {
    if u in g then g[u] else []
  }

  /** Every key and every neighbour. */
  function Nodes(g: Graph): set<Id> {
    g.Keys + set u, v | u in g && v in g[u] :: v
  }

  /** `p` follows an edge from position `i`. */
  ghost predicate Hop(g: Graph, p: seq<Id>, i: nat)
    requires i + 1 < |p|
  {
    p[i + 1] in Succ(g, p[i])
  }

  ghost predicate IsPath(g: Graph, p: seq<Id>) {
    && p != []
    && forall i {:trigger Hop(g, p, i)} | 0 <= i < |p| - 1 :: Hop(g, p, i)
  }

  ghost predicate Connects(g: Graph, p: seq<Id>, u: Id, v: Id) {
    IsPath(g, p) && p[0] == u && p[|p| - 1] == v
  }

  /** `v` can be reached from `u` along zero or more edges. */
  ghost predicate Reach(g: Graph, u: Id, v: Id) {
    exists p :: Connects(g, p, u, v)
  }

  ghost predicate Mutual(g: Graph, u: Id, v: Id) {
    Reach(g, u, v) && Reach(g, v, u)
  }

  /** A cycle: a path of at least one edge that ends where it began. */
  ghost predicate IsCycle(g: Graph, p: seq<Id>) {
    IsPath(g, p) && |p| >= 2 && p[0] == p[|p| - 1]
  }

  lemma ReachSelf(g: Graph, u: Id)
    ensures Reach(g, u, u)
  {
    assert Connects(g, [u], u, u);
  }

  lemma ReachEdge(g: Graph, u: Id, v: Id)
    requires v in Succ(g, u)
    ensures Reach(g, u, v)
  {
    assert Connects(g, [u, v], u, v);
  }

  lemma ReachTrans(g: Graph, u: Id, v: Id, w: Id)
    requires Reach(g, u, v) && Reach(g, v, w)
    ensures Reach(g, u, w)
  {
    var p :| Connects(g, p, u, v);
    var q :| Connects(g, q, v, w);
    var r := p + q[1..];
    forall i | 0 <= i < |r| - 1
      ensures Hop(g, r, i)
    {
      if i < |p| - 1 {
        assert Hop(g, p, i);
      } else {
        assert Hop(g, q, i - (|p| - 1));
      }
    }
    assert Connects(g, r, u, w);
  }

  /** Nothing outside a successor-closed set is reachable from inside it. */
  lemma ClosedTraps(g: Graph, closed: set<Id>, u: Id, v: Id)
    requires forall x, y | x in closed && y in Succ(g, x) :: y in closed
    requires u in closed && Reach(g, u, v)
    ensures v in closed
  {
    var p :| Connects(g, p, u, v);
    for i := 0 to |p| - 1
      invariant p[i] in closed
    {
      assert Hop(g, p, i);
    }
  }

  /** A graph has a cycle exactly when one of its edges can be walked back. */
  lemma CycleIffBackEdge(g: Graph)
    ensures (exists p :: IsCycle(g, p)) <==> (exists u, v :: v in Succ(g, u) && Reach(g, v, u))
  {
    if p :| IsCycle(g, p) {
      assert Hop(g, p, 0);
      forall i | 0 <= i < |p| - 2 ensures Hop(g, p[1..], i) {
        assert Hop(g, p, i + 1);
      }
      assert Connects(g, p[1..], p[1], p[0]);
    }
    if u, v :| v in Succ(g, u) && Reach(g, v, u) {
      var q :| Connects(g, q, v, u);
      var p := [u] + q;
      forall i | 0 <= i < |p| - 1
        ensures Hop(g, p, i)
      {
        if i > 0 {
          assert Hop(g, q, i - 1);
        }
      }
      assert IsCycle(g, p);
    }
  }
}
