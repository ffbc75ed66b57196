/** Tarjan's strongly connected components, as the paradox detector runs it
    (novelizer/brain/paradoxes.py, `_strongly_connected_components`).

    The dictionaries, the stack and the two counters the Python closure mutates are
    fields here. The proof is about a `Trail`, the value of those fields at one
    moment, together with the set of `gray` nodes: those whose `strongconnect` call
    is still running. */
module Tarjan {
  import opened Digraph

  datatype Trail = Trail(
    indices: map<Id, nat>,
    lowlink: map<Id, nat>,
    onStack: set<Id>,
    stack: seq<Id>,
    sccOf: map<Id, nat>,
    indexCounter: nat,
    sccCounter: nat)

  /** The bookkeeping half of the invariant: who is where. */
  ghost predicate Tidy(g: Graph, t: Trail, gray: set<Id>) {
    && (forall v | v in t.indices :: v in Nodes(g) && v in t.lowlink && (v in t.onStack || v in t.sccOf))
    && (forall v | v in t.lowlink :: v in t.indices)
    && (forall v | v in t.onStack :: v in t.indices && v !in t.sccOf)
    && (forall v | v in t.sccOf :: v in t.indices)
    && (forall v | v in gray :: v in t.onStack)
    && (forall v | v in t.indices :: t.indices[v] < t.indexCounter)
    && (forall v {:trigger t.sccOf[v]} | v in t.sccOf :: t.sccOf[v] < t.sccCounter)
  }

  /** `stack` lists exactly `members`, in the order they were visited. */
  ghost predicate Stacked(stack: seq<Id>, members: set<Id>, indices: map<Id, nat>) {
    if stack == [] then members == {} else
      var top, rest := stack[|stack| - 1], stack[..|stack| - 1];
      && top in members && top in indices
      && (forall v | v in members && v != top :: v in indices && indices[v] < indices[top])
      && Stacked(rest, members - {top}, indices)
  }

  lemma {:induction false} StackedFrame(stack: seq<Id>, members: set<Id>, indices: map<Id, nat>, indices': map<Id, nat>)
    requires Stacked(stack, members, indices)
    requires forall v | v in members && v in indices :: v in indices' && indices'[v] == indices[v]
    ensures Stacked(stack, members, indices')
  {
    if stack != [] {
      StackedFrame(stack[..|stack| - 1], members - {stack[|stack| - 1]}, indices, indices');
    }
  }

  /** Finished nodes have no unvisited successor, and numbered components are closed
      and exact. */
  ghost predicate Settled(g: Graph, t: Trail, gray: set<Id>) {
    && (forall v, w {:trigger w in Succ(g, v)} | v in t.indices && v !in gray && w in Succ(g, v) :: w in t.indices)
    && (forall v, w {:trigger w in Succ(g, v)} | v in t.sccOf && w in Succ(g, v) :: w in t.sccOf)
    && (forall u, v {:trigger t.sccOf[u], t.sccOf[v]} | u in t.sccOf && v in t.sccOf :: t.sccOf[u] == t.sccOf[v] <==> Mutual(g, u, v))
  }

  /** The stack is a chain of reachability: whatever was visited earlier reaches
      whatever was visited later. */
  ghost predicate Chained(g: Graph, t: Trail)
    requires forall v | v in t.onStack :: v in t.indices
  {
    forall u, v {:trigger Reach(g, u, v)} | u in t.onStack && v in t.onStack && t.indices[u] <= t.indices[v] :: Reach(g, u, v)
  }

  /** `v` reaches a running call that began no later than `v` was visited. */
  ghost predicate Anchored(g: Graph, t: Trail, gray: set<Id>, v: Id) {
    exists x {:trigger Reach(g, v, x)} :: x in gray && x in t.indices && v in t.indices && t.indices[x] <= t.indices[v] && Reach(g, v, x)
  }

  ghost predicate Inv(g: Graph, t: Trail, gray: set<Id>) {
    && Tidy(g, t, gray)
    && Settled(g, t, gray)
    && Chained(g, t)
    && (forall v {:trigger Anchored(g, t, gray, v)} | v in t.onStack :: Anchored(g, t, gray, v))
  }

  /** What a run of the algorithm never takes back. */
  ghost predicate Extends(t: Trail, t': Trail) {
    && (forall v | v in t.indices :: v in t'.indices && t'.indices[v] == t.indices[v])
    && (forall v | v in t.lowlink :: v in t'.lowlink && t'.lowlink[v] == t.lowlink[v])
    && (forall v | v in t.sccOf :: v in t'.sccOf && t'.sccOf[v] == t.sccOf[v])
    && t.onStack <= t'.onStack
    && t.stack <= t'.stack
    && t.indexCounter <= t'.indexCounter
    && (forall v | v in t'.onStack && v !in t.onStack :: v in t'.indices && t.indexCounter <= t'.indices[v])
  }

  /** `low` is the index of some node on the stack that `v` reaches. */
  ghost predicate LowWitness(g: Graph, t: Trail, v: Id, low: nat) {
    exists y {:trigger Reach(g, v, y)} :: y in t.onStack && y in t.indices && t.indices[y] == low && Reach(g, v, y)
  }

  /** An edge into `y` is no reason for a low-link under `low`: either `y` is not in
      `base`, the stack below the current call, or it was visited at `low` or later. */
  ghost predicate Covered(t: Trail, base: set<Id>, y: Id, low: nat) {
    y in base && y in t.indices ==> low <= t.indices[y]
  }

  /** Every edge out of a node stacked since `t0`, `node` aside, is covered. */
  ghost predicate AboveCovered(g: Graph, t0: Trail, t: Trail, node: Id, low: nat) {
    forall w, y {:trigger y in Succ(g, w)} | w in t.onStack && w !in t0.onStack && w != node && y in Succ(g, w) ::
      Covered(t, t0.onStack, y, low)
  }

  /** Where `strongconnect(node)`, called at `t0`, stands once its first `k` neighbours
      are done. */
  ghost predicate Scanned(g: Graph, t0: Trail, t: Trail, node: Id, k: nat)
    requires k <= |Succ(g, node)|
  {
    && node !in t0.indices
    && node in t.onStack && node in t.indices && node in t.lowlink
    && t.indices[node] == t0.indexCounter
    && t.lowlink[node] <= t.indices[node]
    && LowWitness(g, t, node, t.lowlink[node])
    && (forall j {:trigger Succ(g, node)[j]} | 0 <= j < k ::
          Succ(g, node)[j] in t.indices && Covered(t, t0.onStack, Succ(g, node)[j], t.lowlink[node]))
    && AboveCovered(g, t0, t, node, t.lowlink[node])
  }

  /** What `strongconnect(node)`, called at `t0`, leaves to its caller. */
  ghost predicate Returned(g: Graph, t0: Trail, t: Trail, node: Id) {
    && node !in t0.indices
    && node in t.indices && node in t.lowlink
    && t0.indexCounter <= t.indices[node]
    && t.lowlink[node] <= t.indices[node]
    && (if node in t.onStack then LowWitness(g, t, node, t.lowlink[node]) else t.lowlink[node] == t.indices[node])
    && (forall w, y {:trigger y in Succ(g, w)} | w in t.onStack && w !in t0.onStack && y in Succ(g, w) ::
          Covered(t, t0.onStack, y, t.lowlink[node]))
  }

  // Opening a call: the node goes on the stack.

  function Push(t: Trail, node: Id): Trail {
    t.(indices := t.indices[node := t.indexCounter],
       lowlink := t.lowlink[node := t.indexCounter],
       indexCounter := t.indexCounter + 1,
       stack := t.stack + [node],
       onStack := t.onStack + {node})
  }

  lemma PushKeepsStacked(stack: seq<Id>, members: set<Id>, indices: map<Id, nat>, node: Id, counter: nat)
    requires Stacked(stack, members, indices) && node !in members && node !in indices
    requires forall v | v in members :: v in indices && indices[v] < counter
    ensures Stacked(stack + [node], members + {node}, indices[node := counter])
  {
    StackedFrame(stack, members, indices, indices[node := counter]);
    assert (stack + [node])[..|stack|] == stack && members + {node} - {node} == members;
  }

  lemma PushKeepsTidy(g: Graph, t: Trail, gray: set<Id>, node: Id)
    requires Tidy(g, t, gray) && node in Nodes(g) && node !in t.indices
    ensures Tidy(g, Push(t, node), gray + {node})
  {
  }

  lemma PushExtends(g: Graph, t: Trail, node: Id)
    requires node !in t.indices && node !in t.lowlink
    ensures Extends(t, Push(t, node))
  {
  }

  lemma PushKeepsChained(g: Graph, t: Trail, node: Id)
    requires node !in t.indices && forall v | v in t.onStack :: v in t.indices
    requires Chained(g, t)
    requires forall v | v in t.indices :: t.indices[v] < t.indexCounter
    requires forall x | x in t.onStack :: Reach(g, x, node)
    ensures Chained(g, Push(t, node))
  {
    ReachSelf(g, node);
  }

  lemma PushKeepsAnchor(g: Graph, t: Trail, gray: set<Id>, node: Id, v: Id)
    requires Anchored(g, t, gray, v) && node !in t.indices
    requires forall x | x in gray :: Reach(g, x, node)
    ensures Anchored(g, Push(t, node), gray + {node}, v) && Reach(g, v, node)
  {
    var x :| x in gray && x in t.indices && v in t.indices && t.indices[x] <= t.indices[v] && Reach(g, v, x);
    ReachTrans(g, v, x, node);
  }

  lemma PushKeepsInv(g: Graph, t: Trail, gray: set<Id>, node: Id)
    requires Inv(g, t, gray) && node in Nodes(g) && node !in t.indices
    requires forall x | x in gray :: Reach(g, x, node)
    ensures Inv(g, Push(t, node), gray + {node})
    ensures Extends(t, Push(t, node))
  {
    PushKeepsTidy(g, t, gray, node);
    PushExtends(g, t, node);
    forall v | v in t.onStack
      ensures Anchored(g, Push(t, node), gray + {node}, v) && Reach(g, v, node)
    {
      PushKeepsAnchor(g, t, gray, node, v);
    }
    PushKeepsChained(g, t, node);
    ReachSelf(g, node);
    assert Anchored(g, Push(t, node), gray + {node}, node);
  }

  lemma PushStartsScan(g: Graph, t: Trail, node: Id)
    requires node !in t.indices
    ensures Scanned(g, t, Push(t, node), node, 0)
  {
    ReachSelf(g, node);
  }

  // Scanning neighbours.

  function Lower(t: Trail, node: Id, low: nat): Trail
    requires node in t.lowlink
  {
    t.(lowlink := t.lowlink[node := if low < t.lowlink[node] then low else t.lowlink[node]])
  }

  /** Lowering a low-link touches nothing else the invariant speaks of. */
  lemma LowerKeepsInv(g: Graph, t: Trail, gray: set<Id>, node: Id, low: nat)
    requires Inv(g, t, gray) && node in t.lowlink
    ensures Inv(g, Lower(t, node, low), gray)
  {
    var t' := Lower(t, node, low);
    assert Tidy(g, t', gray);
    forall v | v in t'.onStack
      ensures Anchored(g, t', gray, v)
    {
      assert Anchored(g, t, gray, v);
    }
  }

  /** A neighbour that is already on the stack. */
  lemma SeeOnStack(g: Graph, t0: Trail, t: Trail, node: Id, k: nat)
    requires k < |Succ(g, node)| && Scanned(g, t0, t, node, k)
    requires Succ(g, node)[k] in t.onStack && Succ(g, node)[k] in t.indices
    ensures Scanned(g, t0, Lower(t, node, t.indices[Succ(g, node)[k]]), node, k + 1)
  {
    ReachEdge(g, node, Succ(g, node)[k]);
  }

  /** A neighbour whose component is already numbered. */
  lemma SeeNumbered(g: Graph, t0: Trail, t: Trail, node: Id, k: nat)
    requires k < |Succ(g, node)| && Scanned(g, t0, t, node, k)
    requires Succ(g, node)[k] in t.indices && Succ(g, node)[k] !in t0.onStack
    ensures Scanned(g, t0, t, node, k + 1)
  {
  }

  /** A neighbour that a nested call, from `t` to `t1`, has just explored. */
  lemma SeeExplored(g: Graph, t0: Trail, t: Trail, t1: Trail, node: Id, k: nat)
    requires k < |Succ(g, node)| && Scanned(g, t0, t, node, k)
    requires Extends(t0, t) && Extends(t, t1) && t.indices[node] < t.indexCounter
    requires forall v | v in t0.onStack :: v in t0.indices
    requires Returned(g, t, t1, Succ(g, node)[k])
    ensures Scanned(g, t0, Lower(t1, node, t1.lowlink[Succ(g, node)[k]]), node, k + 1)
  {
    var y := Succ(g, node)[k];
    ReachEdge(g, node, y);
    if y in t1.onStack {
      var z :| z in t1.onStack && z in t1.indices && t1.indices[z] == t1.lowlink[y] && Reach(g, y, z);
      ReachTrans(g, node, y, z);
    }
  }

  // Closing a call without a component: the node turns black and stays on the stack.

  lemma CloseAnchored(g: Graph, t: Trail, gray: set<Id>, node: Id, v: Id)
    requires node in t.indices && v in t.onStack
    requires forall x {:trigger Anchored(g, t, gray + {node}, x)} | x in t.onStack :: Anchored(g, t, gray + {node}, x)
    requires exists low: nat :: low < t.indices[node] && LowWitness(g, t, node, low)
    ensures Anchored(g, t, gray, v)
  {
    assert Anchored(g, t, gray + {node}, v);
    var x :| x in gray + {node} && x in t.indices && t.indices[x] <= t.indices[v] && Reach(g, v, x);
    if x == node {
      var low: nat :| low < t.indices[node] && LowWitness(g, t, node, low);
      var y :| y in t.onStack && y in t.indices && t.indices[y] == low && Reach(g, node, y);
      assert Anchored(g, t, gray + {node}, y);
      var z :| z in gray + {node} && z in t.indices && t.indices[z] <= t.indices[y] && Reach(g, y, z);
      ReachTrans(g, v, node, y);
      ReachTrans(g, v, y, z);
    }
  }

  /** After the scan every neighbour is visited and every edge leaving the new part of
      the stack is covered. */
  lemma ClosedSuccessors(g: Graph, t0: Trail, t: Trail, node: Id)
    requires Scanned(g, t0, t, node, |Succ(g, node)|)
    ensures forall y | y in Succ(g, node) :: y in t.indices
    ensures forall w, y {:trigger y in Succ(g, w)} | w in t.onStack && w !in t0.onStack && y in Succ(g, w) ::
              Covered(t, t0.onStack, y, t.lowlink[node])
  {
    forall y | y in Succ(g, node)
      ensures y in t.indices && Covered(t, t0.onStack, y, t.lowlink[node])
    {
      var j :| 0 <= j < |Succ(g, node)| && Succ(g, node)[j] == y;
    }
  }

  lemma CloseSettled(g: Graph, t: Trail, gray: set<Id>, node: Id)
    requires Settled(g, t, gray + {node})
    requires forall y | y in Succ(g, node) :: y in t.indices
    ensures Settled(g, t, gray)
  {
  }

  lemma CloseAllAnchored(g: Graph, t: Trail, gray: set<Id>, node: Id)
    requires node in t.indices
    requires forall v {:trigger Anchored(g, t, gray + {node}, v)} | v in t.onStack :: Anchored(g, t, gray + {node}, v)
    requires exists low: nat :: low < t.indices[node] && LowWitness(g, t, node, low)
    ensures forall v {:trigger Anchored(g, t, gray, v)} | v in t.onStack :: Anchored(g, t, gray, v)
  {
    forall v | v in t.onStack
      ensures Anchored(g, t, gray, v)
    {
      CloseAnchored(g, t, gray, node, v);
    }
  }

  lemma CloseWithoutComponent(g: Graph, t0: Trail, t: Trail, gray: set<Id>, node: Id)
    requires Inv(g, t, gray + {node}) && Scanned(g, t0, t, node, |Succ(g, node)|)
    requires t.lowlink[node] < t.indices[node]
    ensures Inv(g, t, gray) && Returned(g, t0, t, node)
  {
    ClosedSuccessors(g, t0, t, node);
    CloseSettled(g, t, gray, node);
    CloseAllAnchored(g, t, gray, node);
  }

  // Closing a call with a component: everything stacked since the call is popped.

  /** The trail after everything outside `base` has been popped and numbered. */
  function Number(t: Trail, base: set<Id>, stack: seq<Id>): Trail {
    t.(stack := stack,
       onStack := base,
       sccOf := map v | v in t.onStack + t.sccOf.Keys && v !in base ::
                  if v in t.sccOf then t.sccOf[v] else t.sccCounter,
       sccCounter := t.sccCounter + 1)
  }

  /** What makes the popped nodes a component: they all reach each other, and no edge
      leads from them back down the stack. */
  ghost predicate IsComponent(g: Graph, t: Trail, base: set<Id>, node: Id) {
    && (forall v {:trigger Mutual(g, node, v)} | v in t.onStack && v !in base :: Mutual(g, node, v))
    && (forall v, w {:trigger w in Succ(g, v)} | v in t.onStack && v !in base && w in Succ(g, v) ::
          w in t.indices && w !in base)
  }

  /** The nodes stacked since the call, at or above `node`, reach it and are reached
      from it. */
  lemma StackedTogether(g: Graph, t: Trail, gray: set<Id>, node: Id, v: Id)
    requires forall x | x in t.onStack :: x in t.indices
    requires Chained(g, t) && Anchored(g, t, gray + {node}, v)
    requires node in t.onStack && v in t.onStack && t.indices[node] <= t.indices[v]
    requires forall x | x in gray :: Reach(g, x, node)
    ensures Mutual(g, node, v)
  {
    assert Reach(g, node, v);
    var x :| x in gray + {node} && x in t.indices && t.indices[x] <= t.indices[v] && Reach(g, v, x);
    if x != node {
      ReachTrans(g, v, x, node);
    }
  }

  lemma NoEdgeDown(g: Graph, t0: Trail, t: Trail, node: Id, v: Id, w: Id)
    requires Scanned(g, t0, t, node, |Succ(g, node)|)
    requires v in t.onStack && v !in t0.onStack && w in Succ(g, v)
    requires w in t0.onStack ==> w in t.indices && t.indices[w] < t.indices[node]
    requires t.lowlink[node] == t.indices[node]
    ensures w !in t0.onStack
  {
    ClosedSuccessors(g, t0, t, node);
    assert Covered(t, t0.onStack, w, t.lowlink[node]);
  }

  lemma FindComponent(g: Graph, t0: Trail, t: Trail, gray: set<Id>, node: Id)
    requires Scanned(g, t0, t, node, |Succ(g, node)|) && Extends(t0, t)
    requires forall x | x in t.onStack :: x in t.indices
    requires Settled(g, t, gray + {node}) && Chained(g, t) && gray <= t0.onStack
    requires forall v {:trigger Anchored(g, t, gray + {node}, v)} | v in t.onStack :: Anchored(g, t, gray + {node}, v)
    requires forall v | v in t0.onStack :: v in t0.indices && t0.indices[v] < t0.indexCounter
    requires t.lowlink[node] == t.indices[node]
    requires forall x | x in gray :: Reach(g, x, node)
    ensures IsComponent(g, t, t0.onStack, node)
  {
    ClosedSuccessors(g, t0, t, node);
    forall v | v in t.onStack && v !in t0.onStack
      ensures Mutual(g, node, v)
    {
      assert Anchored(g, t, gray + {node}, v);
      StackedTogether(g, t, gray, node, v);
    }
    forall v, w | v in t.onStack && v !in t0.onStack && w in Succ(g, v)
      ensures w in t.indices && w !in t0.onStack
    {
      NoEdgeDown(g, t0, t, node, v, w);
    }
  }

  /** Popping and numbering keeps the bookkeeping in order. */
  lemma NumberKeepsTidy(g: Graph, t: Trail, gray: set<Id>, base: set<Id>, stack: seq<Id>)
    requires Tidy(g, t, gray) && gray <= base <= t.onStack
    ensures Tidy(g, Number(t, base, stack), gray)
  {
  }

  /** A node numbered earlier cannot reach the new component. */
  lemma OldCannotReach(g: Graph, t: Trail, gray: set<Id>, u: Id, v: Id)
    requires Settled(g, t, gray) && v in t.sccOf && u !in t.sccOf
    ensures !Reach(g, v, u)
  {
    if Reach(g, v, u) {
      ClosedTraps(g, t.sccOf.Keys, v, u);
    }
  }

  lemma NumberIsExact(g: Graph, t: Trail, gray: set<Id>, base: set<Id>, stack: seq<Id>, node: Id, u: Id, v: Id)
    requires Settled(g, t, gray) && IsComponent(g, t, base, node)
    requires forall x {:trigger t.sccOf[x]} | x in t.sccOf :: t.sccOf[x] < t.sccCounter
    requires u in Number(t, base, stack).sccOf && v in Number(t, base, stack).sccOf
    ensures Number(t, base, stack).sccOf[u] == Number(t, base, stack).sccOf[v] <==> Mutual(g, u, v)
  {
    if u in t.sccOf && v !in t.sccOf {
      OldCannotReach(g, t, gray, v, u);
    } else if u !in t.sccOf && v in t.sccOf {
      OldCannotReach(g, t, gray, u, v);
    } else if u !in t.sccOf {
      assert Mutual(g, node, u) && Mutual(g, node, v);
      ReachTrans(g, u, node, v);
      ReachTrans(g, v, node, u);
    }
  }

  lemma NumberKeepsSettled(g: Graph, t: Trail, gray: set<Id>, base: set<Id>, stack: seq<Id>, node: Id)
    requires Tidy(g, t, gray + {node}) && Settled(g, t, gray + {node}) && IsComponent(g, t, base, node)
    requires node in t.onStack && node !in base && gray <= base <= t.onStack
    ensures Settled(g, Number(t, base, stack), gray)
  {
    var t' := Number(t, base, stack);
    forall v, w | v in t'.sccOf && w in Succ(g, v)
      ensures w in t'.sccOf
    {
      if v !in t.sccOf {
        assert w in t.indices && w !in base;
      }
    }
    forall u, v | u in Number(t, base, stack).sccOf && v in Number(t, base, stack).sccOf
      ensures Number(t, base, stack).sccOf[u] == Number(t, base, stack).sccOf[v] <==> Mutual(g, u, v)
    {
      NumberIsExact(g, t, gray + {node}, base, stack, node, u, v);
    }
  }

  lemma NumberKeepsAnchored(g: Graph, t: Trail, gray: set<Id>, base: set<Id>, stack: seq<Id>, node: Id, v: Id)
    requires Anchored(g, t, gray + {node}, v)
    requires node in t.indices && v in t.indices && t.indices[v] < t.indices[node]
    ensures Anchored(g, Number(t, base, stack), gray, v)
  {
    var x :| x in gray + {node} && x in t.indices && t.indices[x] <= t.indices[v] && Reach(g, v, x);
  }

  lemma CloseWithComponent(g: Graph, t0: Trail, t: Trail, gray: set<Id>, node: Id)
    requires Inv(g, t, gray + {node}) && Scanned(g, t0, t, node, |Succ(g, node)|) && Extends(t0, t)
    requires forall v | v in t0.onStack :: v in t0.indices && t0.indices[v] < t0.indexCounter
    requires gray <= t0.onStack && t.lowlink[node] == t.indices[node]
    requires forall x | x in gray :: Reach(g, x, node)
    ensures Inv(g, Number(t, t0.onStack, t0.stack), gray)
    ensures Returned(g, t0, Number(t, t0.onStack, t0.stack), node)
    ensures Extends(t0, Number(t, t0.onStack, t0.stack))
  {
    FindComponent(g, t0, t, gray, node);
    NumberKeepsTidy(g, t, gray, t0.onStack, t0.stack);
    NumberKeepsSettled(g, t, gray, t0.onStack, t0.stack, node);
    forall v | v in t0.onStack
      ensures Anchored(g, Number(t, t0.onStack, t0.stack), gray, v)
    {
      assert Anchored(g, t, gray + {node}, v);
      NumberKeepsAnchored(g, t, gray, t0.onStack, t0.stack, node, v);
    }
  }

  lemma ExtendsTrans(t0: Trail, t1: Trail, t2: Trail)
    requires Extends(t0, t1) && Extends(t1, t2)
    ensures Extends(t0, t2)
  {
  }

  lemma {:induction false} StackedLength(stack: seq<Id>, members: set<Id>, indices: map<Id, nat>)
    requires Stacked(stack, members, indices)
    ensures |stack| == |members|
  {
    if stack != [] {
      StackedLength(stack[..|stack| - 1], members - {stack[|stack| - 1]}, indices);
    }
  }

  /** Two prefixes of one stack with the same members are the same stack. */
  lemma SamePrefix(a: seq<Id>, b: seq<Id>, whole: seq<Id>, members: set<Id>, ia: map<Id, nat>, ib: map<Id, nat>)
    requires a <= whole && b <= whole
    requires Stacked(a, members, ia) && Stacked(b, members, ib)
    ensures a == b
  {
    StackedLength(a, members, ia);
    StackedLength(b, members, ib);
  }

  lemma ReachThrough(g: Graph, gray: set<Id>, node: Id, next: Id)
    requires next in Succ(g, node)
    requires forall x | x in gray :: Reach(g, x, node)
    ensures forall x | x in gray + {node} :: Reach(g, x, next)
  {
    ReachEdge(g, node, next);
    forall x | x in gray
      ensures Reach(g, x, next)
    {
      ReachTrans(g, x, node, next);
    }
  }

  lemma LowerExtends(t0: Trail, t: Trail, node: Id, low: nat)
    requires Extends(t0, t) && node in t.lowlink && node !in t0.lowlink
    ensures Extends(t0, Lower(t, node, low))
  {
  }

  lemma ExploreStep(g: Graph, t0: Trail, t: Trail, t1: Trail, gray: set<Id>, node: Id, k: nat)
    requires k < |Succ(g, node)| && Scanned(g, t0, t, node, k) && Extends(t0, t)
    requires Tidy(g, t, gray + {node}) && node !in t0.lowlink
    requires forall v | v in t0.onStack :: v in t0.indices
    requires Inv(g, t1, gray + {node}) && Extends(t, t1) && Returned(g, t, t1, Succ(g, node)[k])
    ensures var t2 := Lower(t1, node, t1.lowlink[Succ(g, node)[k]]);
            Inv(g, t2, gray + {node}) && Extends(t0, t2) && Scanned(g, t0, t2, node, k + 1)
  {
    var low := t1.lowlink[Succ(g, node)[k]];
    ExtendsTrans(t0, t, t1);
    SeeExplored(g, t0, t, t1, node, k);
    LowerKeepsInv(g, t1, gray + {node}, node, low);
    LowerExtends(t0, t1, node, low);
  }

  lemma OnStackStep(g: Graph, t0: Trail, t: Trail, gray: set<Id>, node: Id, k: nat)
    requires k < |Succ(g, node)| && Scanned(g, t0, t, node, k) && Extends(t0, t)
    requires Inv(g, t, gray + {node}) && node !in t0.lowlink
    requires Succ(g, node)[k] in t.onStack
    ensures var t2 := Lower(t, node, t.indices[Succ(g, node)[k]]);
            Inv(g, t2, gray + {node}) && Extends(t0, t2) && Scanned(g, t0, t2, node, k + 1)
  {
    var low := t.indices[Succ(g, node)[k]];
    SeeOnStack(g, t0, t, node, k);
    LowerKeepsInv(g, t, gray + {node}, node, low);
    LowerExtends(t0, t, node, low);
  }

  lemma NumberNothing(t: Trail)
    requires forall v | v in t.onStack :: v !in t.sccOf
    ensures Number(t, t.onStack, t.stack) == t.(sccCounter := t.sccCounter + 1)
  {
  }

  /** Where the popping loop stands: from `t`, all but the lowest entries are popped and
      numbered, and `node` is still to come. */
  ghost predicate Popping(t: Trail, t0: Trail, node: Id, now: Trail) {
    && now == Number(t, now.onStack, now.stack)
    && now.stack <= t.stack
    && Stacked(now.stack, now.onStack, t.indices)
    && t0.onStack <= now.onStack <= t.onStack
    && node in now.onStack
  }

  function PopTop(t: Trail, sccId: nat): Trail
    requires t.stack != []
  {
    var w := t.stack[|t.stack| - 1];
    t.(stack := t.stack[..|t.stack| - 1], onStack := t.onStack - {w}, sccOf := t.sccOf[w := sccId])
  }

  lemma PopStep(t: Trail, t0: Trail, node: Id, now: Trail)
    requires Popping(t, t0, node, now)
    requires forall v | v in t.onStack :: v in t.indices && v !in t.sccOf
    requires node in t.onStack
    requires forall v | v in t.onStack :: v in t0.onStack <==> t.indices[v] < t.indices[node]
    ensures now.stack != []
    ensures var now' := PopTop(now, t.sccCounter);
            && now' == Number(t, now'.onStack, now'.stack)
            && now'.stack <= t.stack
            && Stacked(now'.stack, now'.onStack, t.indices)
            && (if now.stack[|now.stack| - 1] == node then now'.onStack == t0.onStack else Popping(t, t0, node, now'))
  {
    var now' := PopTop(now, t.sccCounter);
    assert now'.sccOf == Number(t, now'.onStack, now'.stack).sccOf;
  }

  /** One pop: the last one leaves exactly what was below the call. */
  lemma PopTurn(t: Trail, t0: Trail, node: Id, now: Trail)
    requires Popping(t, t0, node, now)
    requires Stacked(t0.stack, t0.onStack, t0.indices) && t0.stack <= t.stack
    requires forall v | v in t.onStack :: v in t.indices && v !in t.sccOf
    requires node in t.onStack
    requires forall v | v in t.onStack :: v in t0.onStack <==> t.indices[v] < t.indices[node]
    ensures now.stack != []
    ensures var now' := PopTop(now, t.sccCounter);
            if now.stack[|now.stack| - 1] == node
            then now' == Number(t, t0.onStack, t0.stack) && Stacked(now'.stack, now'.onStack, t.indices)
            else Popping(t, t0, node, now')
  {
    PopStep(t, t0, node, now);
    if now.stack[|now.stack| - 1] == node {
      SamePrefix(t0.stack, now.stack[..|now.stack| - 1], t.stack, t0.onStack, t0.indices, t.indices);
    }
  }

  lemma StartScan(g: Graph, t: Trail, gray: set<Id>, node: Id)
    requires Inv(g, t, gray) && Stacked(t.stack, t.onStack, t.indices)
    requires node in Nodes(g) && node !in t.indices
    requires forall x | x in gray :: Reach(g, x, node)
    ensures Inv(g, Push(t, node), gray + {node}) && Extends(t, Push(t, node))
    ensures Stacked(Push(t, node).stack, Push(t, node).onStack, Push(t, node).indices)
    ensures Scanned(g, t, Push(t, node), node, 0)
  {
    PushKeepsInv(g, t, gray, node);
    PushKeepsStacked(t.stack, t.onStack, t.indices, node, t.indexCounter);
    PushStartsScan(g, t, node);
  }

  /** The closure `_strongly_connected_components` builds: one dictionary of edges and
      the mutable bookkeeping its nested function shares. */
  class Components {
    const adjacency: Graph
    var indices: map<Id, nat>
    var lowlink: map<Id, nat>
    var onStack: set<Id>
    var stack: seq<Id>
    var sccOf: map<Id, nat>
    var indexCounter: nat
    var sccCounter: nat

    constructor (adjacency: Graph)
      ensures this.adjacency == adjacency && Valid({})
      ensures indices == map[] && onStack == {}
    {
      this.adjacency := adjacency;
      indices, lowlink, onStack, stack, sccOf := map[], map[], {}, [], map[];
      indexCounter, sccCounter := 0, 0;
    }

    ghost function Now(): Trail
      reads this
    {
      Trail(indices, lowlink, onStack, stack, sccOf, indexCounter, sccCounter)
    }

    ghost predicate Valid(gray: set<Id>)
      reads this
    {
      Inv(adjacency, Now(), gray) && Stacked(stack, onStack, indices)
    }

    /** `strongconnect(node)` has been opened from `t0` and has seen `k` neighbours. */
    ghost predicate Scanning(t0: Trail, node: Id, gray: set<Id>, k: nat)
      requires k <= |Succ(adjacency, node)|
      reads this
    {
      && Valid(gray + {node})
      && Extends(t0, Now())
      && Scanned(adjacency, t0, Now(), node, k)
    }

    method StrongConnect(node: Id, ghost gray: set<Id>)
      requires Valid(gray) && node in Nodes(adjacency) && node !in indices
      requires forall x | x in gray :: Reach(adjacency, x, node)
      modifies this
      ensures Valid(gray) && Extends(old(Now()), Now())
      ensures Returned(adjacency, old(Now()), Now(), node)
      decreases Nodes(adjacency) - indices.Keys, 1
    {
      ghost var t0 := Now();
      StartScan(adjacency, t0, gray, node);
      Enter(node);
      for k := 0 to |Succ(adjacency, node)|
        invariant Scanning(t0, node, gray, k)
      {
        Visit(node, k, gray, t0);
      }
      ghost var t := Now();
      if lowlink[node] == indices[node] {
        CloseWithComponent(adjacency, t0, t, gray, node);
        PopComponent(node, t0);
      } else {
        CloseWithoutComponent(adjacency, t0, t, gray, node);
      }
    }

    method Enter(node: Id)
      modifies this
      ensures Now() == Push(old(Now()), node)
    {
      indices := indices[node := indexCounter];
      lowlink := lowlink[node := indexCounter];
      indexCounter := indexCounter + 1;
      stack := stack + [node];
      onStack := onStack + {node};
    }

    method LowerTo(node: Id, low: nat)
      requires node in lowlink
      modifies this
      ensures Now() == Lower(old(Now()), node, low)
    {
      lowlink := lowlink[node := if low < lowlink[node] then low else lowlink[node]];
    }

    /** One turn of the loop over the neighbours. */
    method Visit(node: Id, k: nat, ghost gray: set<Id>, ghost t0: Trail)
      requires k < |Succ(adjacency, node)| && Scanning(t0, node, gray, k)
      requires forall x | x in gray :: Reach(adjacency, x, node)
      requires forall v | v in t0.onStack :: v in t0.indices
      requires node !in t0.lowlink
      modifies this
      ensures Scanning(t0, node, gray, k + 1)
      decreases Nodes(adjacency) - indices.Keys, 2
    {
      var neighbor := Succ(adjacency, node)[k];
      ghost var t := Now();
      if neighbor !in indices {
        ReachThrough(adjacency, gray, node, neighbor);
        StrongConnect(neighbor, gray + {node});
        ghost var t1 := Now();
        ExploreStep(adjacency, t0, t, t1, gray, node, k);
        LowerTo(node, lowlink[neighbor]);
      } else if neighbor in onStack {
        OnStackStep(adjacency, t0, t, gray, node, k);
        LowerTo(node, indices[neighbor]);
      } else {
        SeeNumbered(adjacency, t0, t, node, k);
      }
    }

    /** Pops the stack down to and including `node`, numbering what comes off. */
    method PopComponent(node: Id, ghost t0: Trail)
      requires Stacked(stack, onStack, indices) && Stacked(t0.stack, t0.onStack, t0.indices)
      requires t0.stack <= stack && t0.onStack <= onStack && node in onStack
      requires forall v | v in onStack :: v in indices && v !in sccOf
      requires forall v | v in onStack :: v in t0.onStack <==> indices[v] < indices[node]
      modifies this
      ensures Now() == Number(old(Now()), t0.onStack, t0.stack)
      ensures Stacked(stack, onStack, indices)
    {
      ghost var t := Now();
      NumberNothing(t);
      var sccId := sccCounter;
      sccCounter := sccCounter + 1;
      while true
        invariant Popping(t, t0, node, Now())
        decreases |stack|
      {
        PopTurn(t, t0, node, Now());
        var w := Pop(sccId);
        if w == node {
          break;
        }
      }
    }

    method Pop(sccId: nat) returns (w: Id)
      requires stack != []
      modifies this
      ensures w == old(stack)[|old(stack)| - 1] && Now() == PopTop(old(Now()), sccId)
    {
      w := stack[|stack| - 1];
      stack := stack[..|stack| - 1];
      onStack := onStack - {w};
      sccOf := sccOf[w := sccId];
    }
  }

  /** With no call running, nothing is left on the stack. */
  lemma StackDrained(g: Graph, t: Trail)
    requires Inv(g, t, {})
    ensures t.onStack == {} && t.indices.Keys == t.sccOf.Keys
  {
    assert forall v | v in t.onStack :: Anchored(g, t, {}, v);
    assert forall v :: !Anchored(g, t, {}, v);
  }

  /** The components of a graph: every node gets an id, and two nodes get the same id
      exactly when each reaches the other. The roots are taken in any order. */
  method StronglyConnectedComponents(adjacency: Graph) returns (sccOf: map<Id, nat>)
    ensures sccOf.Keys == Nodes(adjacency)
    ensures forall u, v {:trigger sccOf[u], sccOf[v]} | u in sccOf && v in sccOf ::
              sccOf[u] == sccOf[v] <==> Mutual(adjacency, u, v)
  {
    var c := new Components(adjacency);
    var todo := Nodes(adjacency);
    while todo != {}
      invariant c.Valid({}) && c.adjacency == adjacency
      invariant todo <= Nodes(adjacency) <= todo + c.indices.Keys
      decreases todo
    {
      var node :| node in todo;
      todo := todo - {node};
      if node !in c.indices {
        c.StrongConnect(node, {});
      }
    }
    StackDrained(adjacency, c.Now());
    sccOf := c.sccOf;
  }
}
