/** Which unmined chapters the Character Keeper reads in one pass
    (novelizer/agents/character_keeper.py:182-196, 247-271). */
module Keeper {
  import opened TextWindows

  datatype Chapter = Chapter(id: string, prose: string)

  function Cost(chapters: seq<Chapter>): nat {
    if chapters == [] then 0
    else Cost(chapters[..|chapters| - 1]) + Estimate(chapters[|chapters| - 1].prose)
  }

  /** The chapters taken are the oldest `n`, and no later one is both reached and fits. */
  ghost predicate Greedy(unmined: seq<Chapter>, budget: int, n: nat) {
    && n <= |unmined| && (unmined != [] ==> n >= 1)
    && (forall k | 1 < k <= n :: Cost(unmined[..k]) <= budget)
    && (n < |unmined| ==> Cost(unmined[..n + 1]) > budget)
  }

  method SelectUnmined(unmined: seq<Chapter>, budget: int) returns (selected: seq<Chapter>)
    ensures selected <= unmined && Greedy(unmined, budget, |selected|)
  {
    selected := [];
    var spent := 0;
    for i := 0 to |unmined|
      invariant selected == unmined[..i] && spent == Cost(selected)
      invariant forall k | 1 < k <= i :: Cost(unmined[..k]) <= budget
    {
      var cost := Estimate(unmined[i].prose);
      assert unmined[..i + 1][..i] == unmined[..i];
      if selected != [] && spent + cost > budget {
        break;
      }
      selected := selected + [unmined[i]];
      spent := spent + cost;
    }
  }

  lemma {:induction false} CostGrows(chapters: seq<Chapter>, k: nat)
    requires k <= |chapters|
    ensures Cost(chapters[..k]) <= Cost(chapters)
    ensures k < |chapters| ==> Estimate(chapters[k].prose) + Cost(chapters[..k]) <= Cost(chapters)
  {
    if k == |chapters| {
      assert chapters[..k] == chapters;
    } else {
      var front := chapters[..|chapters| - 1];
      assert front[..k] == chapters[..k];
      if k < |front| {
        CostGrows(front, k);
      }
    }
  }

  /** The greedy choice is the only one of its kind. */
  lemma GreedyIsUnique(unmined: seq<Chapter>, budget: int, m: nat, n: nat)
    requires Greedy(unmined, budget, m) && Greedy(unmined, budget, n)
    ensures m == n
  {
  }

  /** A chapter is split exactly when it has two characters and costs more than the budget. */
  lemma SplitExactly(prose: string, budget: int)
    ensures |Windows(prose, budget, Estimate)| > 1 <==> |prose| > 1 && Estimate(prose) > budget
  {
    var total := Estimate(prose);
    if prose != "" && total > budget {
      var size := WindowChars(|prose|, total, budget);
      SizeBelowLength(|prose|, total, budget);
      assert |prose| > size <==> |prose| > 1;
    }
  }

  /** The runner gets one split chapter alone, or whole chapters joined: a split chapter is
      never joined with another, and joined chapters fit the budget together. */
  lemma SplitChaptersStandAlone(unmined: seq<Chapter>, budget: int, n: nat)
    requires Greedy(unmined, budget, n)
    ensures n > 1 ==> Cost(unmined[..n]) <= budget
    ensures n > 1 ==> forall c | c in unmined[..n] :: |Windows(c.prose, budget, Estimate)| == 1
  {
    if n > 1 {
      var chosen := unmined[..n];
      forall c | c in chosen ensures |Windows(c.prose, budget, Estimate)| == 1 {
        var k: nat :| k < n && chosen[k] == c;
        CostGrows(chosen, k);
        SplitExactly(c.prose, budget);
      }
    }
  }

  /** An oversize chapter at the head is chosen, and chosen alone. */
  lemma OversizeGoesAlone(unmined: seq<Chapter>, budget: int, n: nat)
    requires Greedy(unmined, budget, n) && unmined != [] && Estimate(unmined[0].prose) > budget
    ensures n == 1
  {
    CostGrows(unmined[..n], 0);
  }

  // Draining a backlog.

  /** Passes over a fixed backlog, each stamping what it chose, and the backlog left. */
  ghost predicate Passes(unmined: seq<Chapter>, budget: int, passes: seq<seq<Chapter>>, left: seq<Chapter>) {
    if passes == [] then left == unmined
    else passes[0] <= unmined && Greedy(unmined, budget, |passes[0]|)
         && Passes(unmined[|passes[0]|..], budget, passes[1..], left)
  }

  function Flatten(passes: seq<seq<Chapter>>): seq<Chapter> {
    if passes == [] then [] else passes[0] + Flatten(passes[1..])
  }

  /** However small the budget, chapters are read once each, in order, and as many passes as
      there are chapters read them all. */
  lemma {:induction false} BacklogDrains(unmined: seq<Chapter>, budget: int, passes: seq<seq<Chapter>>, left: seq<Chapter>)
    requires Passes(unmined, budget, passes, left)
    ensures Flatten(passes) + left == unmined
    ensures |passes| >= |unmined| ==> left == []
  {
    if passes != [] {
      BacklogDrains(unmined[|passes[0]|..], budget, passes[1..], left);
    }
  }
}
