/** How one scheduler tick fills its free slots (agent_kit/scheduler.py, `_aged` and the
    scoring half of `tick`): scores grow with the time an agent has waited, the sort is
    stable and descending, and the best positive scores win. */
module Ranking {

  type Name = string

  datatype Scored = Scored(score: real, name: Name)

  /** `since` is the agent's last dispatch, or the scheduler's first tick. */
  function Aged(horizon: real, readiness: real, since: real, now: real): (r: real)
    ensures readiness <= 0.0 ==> r <= 0.0
    ensures readiness > 0.0 ==> r >= readiness
  {
    if horizon <= 0.0 || readiness <= 0.0 then readiness else
      var waited := if now - since > 0.0 then now - since else 0.0;
      BoostIsPositive(readiness, waited, horizon);
      readiness * (1.0 + waited / horizon)
  }

  lemma BoostIsPositive(readiness: real, waited: real, horizon: real)
    requires horizon > 0.0 && waited >= 0.0 && readiness >= 0.0
    ensures waited / horizon >= 0.0 && readiness * (1.0 + waited / horizon) >= readiness
  {
    var boost := waited / horizon;
    assert boost * horizon == waited;
    assert boost < 0.0 ==> boost * horizon < 0.0;
    assert readiness * boost >= 0.0;
  }

  /** Waiting counts in horizons: after `k` of them a score stands at (1 + k) times its readiness. */
  lemma AgingIsLinear(horizon: real, readiness: real, since: real, k: real)
    requires horizon > 0.0 && k >= 0.0
    ensures Aged(horizon, readiness, since, since + k * horizon)
              == if readiness > 0.0 then (1.0 + k) * readiness else readiness
  {
    assert k * horizon >= 0.0;
    assert k * horizon / horizon == k;
  }

  /** Without a horizon, or before any wait, a score is the readiness. */
  lemma NothingToAge(horizon: real, readiness: real, since: real, now: real)
    requires horizon <= 0.0 || now <= since
    ensures Aged(horizon, readiness, since, now) == readiness
  {
    assert horizon > 0.0 ==> 0.0 / horizon == 0.0;
  }

  predicate Descending(s: seq<Scored>) {
    forall i, j | 0 <= i < j < |s| :: s[i].score >= s[j].score
  }

  /** Puts `x` behind every entry of at least its score. */
  function Insert(s: seq<Scored>, x: Scored): seq<Scored> {
    if s == [] || s[|s| - 1].score >= x.score then s + [x]
    else Insert(s[..|s| - 1], x) + [s[|s| - 1]]
  }

  /** The stable descending sort. */
  function Rank(s: seq<Scored>): seq<Scored> {
    if s == [] then [] else Insert(Rank(s[..|s| - 1]), s[|s| - 1])
  }

  lemma {:induction false} InsertKeeps(s: seq<Scored>, x: Scored)
    ensures multiset(Insert(s, x)) == multiset(s) + multiset{x}
    ensures forall e | e in Insert(s, x) :: e in s || e == x
  {
    if s != [] && s[|s| - 1].score < x.score {
      InsertKeeps(s[..|s| - 1], x);
      assert s == s[..|s| - 1] + [s[|s| - 1]];
    }
  }

  lemma {:induction false} InsertSorts(s: seq<Scored>, x: Scored)
    requires Descending(s)
    ensures Descending(Insert(s, x))
  {
    if s != [] && s[|s| - 1].score < x.score {
      var front, last := s[..|s| - 1], s[|s| - 1];
      InsertSorts(front, x);
      InsertKeeps(front, x);
      forall e | e in Insert(front, x)
        ensures e.score >= last.score
      {
        if e != x {
          var i :| 0 <= i < |front| && front[i] == e;
          assert s[i].score >= s[|s| - 1].score;
        }
      }
    }
  }

  lemma {:induction false} RankSorts(s: seq<Scored>)
    ensures Descending(Rank(s))
  {
    if s != [] {
      RankSorts(s[..|s| - 1]);
      InsertSorts(Rank(s[..|s| - 1]), s[|s| - 1]);
    }
  }

  lemma LastCounts(s: seq<Scored>)
    requires s != []
    ensures multiset(s) == multiset(s[..|s| - 1]) + multiset{s[|s| - 1]}
  {
    assert s == s[..|s| - 1] + [s[|s| - 1]];
  }

  lemma {:induction false} RankKeeps(s: seq<Scored>)
    ensures multiset(Rank(s)) == multiset(s)
  {
    if s != [] {
      RankKeeps(s[..|s| - 1]);
      InsertKeeps(Rank(s[..|s| - 1]), s[|s| - 1]);
      LastCounts(s);
    }
  }

  function NamesOf(s: seq<Scored>): (r: seq<Name>)
    ensures |r| == |s| && forall i | 0 <= i < |s| :: r[i] == s[i].name
  {
    seq(|s|, i requires 0 <= i < |s| => s[i].name)
  }

  predicate Distinct(s: seq<Name>) {
    s == [] || (Distinct(s[..|s| - 1]) && s[|s| - 1] !in s[..|s| - 1])
  }

  lemma {:induction false} DistinctAt(s: seq<Name>, i: nat, j: nat)
    requires Distinct(s) && i < j < |s|
    ensures s[i] != s[j]
  {
    var n := |s| - 1;
    if j < n {
      DistinctAt(s[..n], i, j);
    } else {
      assert s[i] == s[..n][i];
    }
  }

  lemma DistinctMore(s: seq<Name>, n: Name)
    requires Distinct(s) && n !in s
    ensures Distinct(s + [n])
  {
    assert (s + [n])[..|s|] == s;
  }

  ghost predicate Before(s: seq<Scored>, a: Scored, b: Scored) {
    exists i, j :: 0 <= i < j < |s| && s[i] == a && s[j] == b
  }

  /** `a` outranks `b`: a higher score, or the same score and an earlier place in line. */
  ghost predicate Ahead(s: seq<Scored>, a: Scored, b: Scored) {
    a.score > b.score || (a.score == b.score && Before(s, a, b))
  }

  ghost predicate Ordered(s: seq<Scored>, r: seq<Scored>) {
    forall i, j | 0 <= i < j < |r| :: Ahead(s, r[i], r[j])
  }

  lemma {:induction false} InsertKeepsOrder(line: seq<Scored>, s: seq<Scored>, x: Scored)
    requires Descending(s) && Ordered(line, s)
    requires forall e | e in s :: Before(line, e, x)
    ensures Ordered(line, Insert(s, x))
  {
    if s != [] && s[|s| - 1].score < x.score {
      var front, last := s[..|s| - 1], s[|s| - 1];
      forall i, j | 0 <= i < j < |front| ensures Ahead(line, front[i], front[j]) {
        assert Ahead(line, s[i], s[j]);
      }
      InsertKeepsOrder(line, front, x);
      InsertKeeps(front, x);
      var r := Insert(front, x);
      forall e | e in r
        ensures Ahead(line, e, last)
      {
        if e in front {
          var i :| 0 <= i < |front| && front[i] == e;
          assert Ahead(line, s[i], s[|s| - 1]);
        }
      }
    }
  }

  /** The sort is stable: equal scores keep their place in line. */
  lemma {:induction false} RankIsStable(s: seq<Scored>)
    ensures Ordered(s, Rank(s))
  {
    if s != [] {
      var front, x := s[..|s| - 1], s[|s| - 1];
      var r := Rank(front);
      RankIsStable(front);
      RankSorts(front);
      RankKeeps(front);
      forall i, j | 0 <= i < j < |r|
        ensures Ahead(s, r[i], r[j])
      {
        assert Ahead(front, r[i], r[j]);
        if a, b :| 0 <= a < b < |front| && front[a] == r[i] && front[b] == r[j] {
          assert s[a] == r[i] && s[b] == r[j];
        }
      }
      forall e | e in r
        ensures Before(s, e, x)
      {
        assert e in multiset(front);
        var a :| 0 <= a < |front| && front[a] == e;
        assert s[a] == e && s[|s| - 1] == x;
      }
      InsertKeepsOrder(s, r, x);
    }
  }

  /** The loop that spends the slots left over from an override. */
  function TopUp(ranked: seq<Scored>, slots: nat): seq<Name> {
    if ranked == [] || slots == 0 then []
    else if ranked[0].score > 0.0 then [ranked[0].name] + TopUp(ranked[1..], slots - 1)
    else TopUp(ranked[1..], slots)
  }

  /** How many scores are positive. */
  function Positives(s: seq<Scored>): nat {
    if s == [] then 0 else Positives(s[..|s| - 1]) + if s[|s| - 1].score > 0.0 then 1 else 0
  }

  lemma PositivesMore(s: seq<Scored>, x: Scored)
    ensures Positives(s + [x]) == Positives(s) + if x.score > 0.0 then 1 else 0
  {
    assert (s + [x])[..|s|] == s;
  }

  lemma {:induction false} PositivesFirst(s: seq<Scored>)
    requires s != []
    ensures Positives(s) == (if s[0].score > 0.0 then 1 else 0) + Positives(s[1..])
  {
    var n := |s| - 1;
    if n > 0 {
      PositivesFirst(s[..n]);
      assert s[..n][1..] == s[1..][..n - 1];
    }
  }

  lemma {:induction false} InsertCounts(s: seq<Scored>, x: Scored)
    ensures Positives(Insert(s, x)) == Positives(s) + if x.score > 0.0 then 1 else 0
  {
    if s == [] || s[|s| - 1].score >= x.score {
      PositivesMore(s, x);
    } else {
      InsertCounts(s[..|s| - 1], x);
      PositivesMore(Insert(s[..|s| - 1], x), s[|s| - 1]);
    }
  }

  lemma {:induction false} RankCounts(s: seq<Scored>)
    ensures Positives(Rank(s)) == Positives(s)
  {
    if s != [] {
      RankCounts(s[..|s| - 1]);
      InsertCounts(Rank(s[..|s| - 1]), s[|s| - 1]);
    }
  }

  lemma {:induction false} TopUpCounts(ranked: seq<Scored>, slots: nat)
    ensures |TopUp(ranked, slots)| == if Positives(ranked) < slots then Positives(ranked) else slots
  {
    if ranked != [] && slots > 0 {
      PositivesFirst(ranked);
      TopUpCounts(ranked[1..], if ranked[0].score > 0.0 then slots - 1 else slots);
    }
  }

  /** As many are taken as are positive, or as there are slots. */
  lemma PicksAreMany(s: seq<Scored>, slots: nat)
    ensures |TopUp(Rank(s), slots)| == if Positives(s) < slots then Positives(s) else slots
  {
    RankCounts(s);
    TopUpCounts(Rank(s), slots);
  }

  lemma DescendingRest(s: seq<Scored>)
    requires Descending(s) && s != []
    ensures Descending(s[1..]) && forall i | 0 <= i < |s| :: s[i].score <= s[0].score
  {
  }

  lemma {:induction false} NothingPositive(ranked: seq<Scored>, slots: nat)
    requires forall i | 0 <= i < |ranked| :: ranked[i].score <= 0.0
    ensures TopUp(ranked, slots) == [] && Taken(ranked, slots, 0)
  {
    if ranked != [] && slots > 0 {
      NothingPositive(ranked[1..], slots);
    }
  }

  lemma NamesOfFirst(s: seq<Scored>, m: nat)
    requires s != [] && m < |s|
    ensures NamesOf(s[..m + 1]) == [s[0].name] + NamesOf(s[1..][..m])
  {
  }

  /** How far the loop gets on a descending list. */
  predicate Taken(ranked: seq<Scored>, slots: nat, m: nat) {
    && m <= |ranked| && m <= slots
    && (forall i | 0 <= i < m :: ranked[i].score > 0.0)
    && (m == slots || forall i | m <= i < |ranked| :: ranked[i].score <= 0.0)
  }

  lemma TakenMore(ranked: seq<Scored>, slots: nat, m: nat)
    requires ranked != [] && slots > 0 && ranked[0].score > 0.0 && Taken(ranked[1..], slots - 1, m)
    ensures Taken(ranked, slots, m + 1)
  {
    assert forall i | 0 < i < |ranked| :: ranked[i] == ranked[1..][i - 1];
  }

  /** On a descending list that is a prefix: `m` entries, all positive, and only lack of
      slots or of positive scores stops it. */
  lemma {:induction false} TopUpIsPrefix(ranked: seq<Scored>, slots: nat) returns (m: nat)
    requires Descending(ranked)
    ensures Taken(ranked, slots, m) && TopUp(ranked, slots) == NamesOf(ranked[..m])
  {
    if ranked == [] || slots == 0 {
      m := 0;
    } else {
      DescendingRest(ranked);
      if ranked[0].score > 0.0 {
        var rest := TopUpIsPrefix(ranked[1..], slots - 1);
        m := rest + 1;
        TakenMore(ranked, slots, rest);
        NamesOfFirst(ranked, rest);
      } else {
        m := 0;
        NothingPositive(ranked, slots);
      }
    }
  }

  /** No two entries carry the same name. */
  ghost predicate Keyed(s: seq<Scored>) {
    forall i, j | 0 <= i < j < |s| :: s[i].name != s[j].name
  }

  /** Names apart are names without repeats. */
  lemma {:induction false} KeyedIsDistinct(s: seq<Scored>)
    ensures Keyed(s) <==> Distinct(NamesOf(s))
  {
    if s != [] {
      var n := |s| - 1;
      KeyedIsDistinct(s[..n]);
      assert NamesOf(s)[..n] == NamesOf(s[..n]);
      if Keyed(s) {
        assert forall i | 0 <= i < n :: NamesOf(s[..n])[i] == s[i].name != s[n].name;
      } else {
        var i, j :| 0 <= i < j < |s| && s[i].name == s[j].name;
        assert j < n ==> s[..n][i].name == s[..n][j].name;
        assert j == n ==> NamesOf(s[..n])[i] == s[n].name;
      }
    }
  }

  lemma {:induction false} InsertKeepsKeyed(s: seq<Scored>, x: Scored)
    requires Descending(s) && Keyed(s) && forall e | e in s :: e.name != x.name
    ensures Keyed(Insert(s, x))
  {
    if s != [] && s[|s| - 1].score < x.score {
      InsertKeepsKeyed(s[..|s| - 1], x);
      InsertKeeps(s[..|s| - 1], x);
      assert forall e | e in s[..|s| - 1] :: e.name != s[|s| - 1].name;
    }
  }

  lemma {:induction false} RankKeepsKeyed(s: seq<Scored>)
    requires Keyed(s)
    ensures Keyed(Rank(s))
  {
    if s != [] {
      var front := s[..|s| - 1];
      RankKeepsKeyed(front);
      RankSorts(front);
      RankKeeps(front);
      SameMembers(front, Rank(front));
      assert forall e | e in front :: e.name != s[|s| - 1].name;
      InsertKeepsKeyed(Rank(front), s[|s| - 1]);
    }
  }

  lemma SameMembers(s: seq<Scored>, r: seq<Scored>)
    requires multiset(s) == multiset(r)
    ensures forall e :: e in s <==> e in r
  {
    forall e
      ensures e in s <==> e in r
    {
      assert e in s <==> e in multiset(s);
      assert e in r <==> e in multiset(r);
    }
  }

  /** The entries taken and the entries passed over, out of the sorted line. */
  ghost predicate Cut(s: seq<Scored>, r: seq<Scored>, m: nat, picks: seq<Name>, slots: nat) {
    && m <= |r| && m <= slots && picks == NamesOf(r[..m])
    && Keyed(r) && Ordered(s, r)
    && (forall e :: e in s <==> e in r)
    && (forall i | 0 <= i < m :: r[i].score > 0.0)
    && (m == slots || forall i | m <= i < |r| :: r[i].score <= 0.0)
  }

  lemma TakenPlace(s: seq<Scored>, r: seq<Scored>, m: nat, picks: seq<Name>, slots: nat, e: Scored) returns (i: nat)
    requires Cut(s, r, m, picks, slots) && e in s
    ensures i < |r| && r[i] == e && (e.name in picks <==> i < m)
  {
    i :| 0 <= i < |r| && r[i] == e;
    if i < m {
      assert picks[i] == e.name;
    } else {
      assert forall j | 0 <= j < m :: r[j].name != r[i].name;
    }
  }

  lemma CutTick(s: seq<Scored>, slots: nat) returns (m: nat)
    requires Keyed(s)
    ensures Cut(s, Rank(s), m, TopUp(Rank(s), slots), slots)
  {
    RankSorts(s);
    RankKeeps(s);
    m := TopUpIsPrefix(Rank(s), slots);
    RankIsStable(s);
    RankKeepsKeyed(s);
    SameMembers(s, Rank(s));
  }

  /** Each name taken stands for a positive score, once, and there is a slot for each. */
  lemma PicksArePositive(s: seq<Scored>, slots: nat)
    requires Keyed(s)
    ensures var picks := TopUp(Rank(s), slots);
            && |picks| <= slots && Distinct(picks)
            && forall n | n in picks :: exists e :: e in s && e.name == n && e.score > 0.0
  {
    var m := CutTick(s, slots);
    var r, picks := Rank(s), TopUp(Rank(s), slots);
    KeyedIsDistinct(r[..m]);
    forall n | n in picks
      ensures exists e :: e in s && e.name == n && e.score > 0.0
    {
      var i :| 0 <= i < m && picks[i] == n;
      assert r[i] in s;
    }
  }

  /** Nobody passed over outranks anybody taken, and somebody positive is passed over
      only when the slots have run out. */
  lemma PicksAreTheBest(s: seq<Scored>, slots: nat, p: Scored, q: Scored)
    requires Keyed(s) && p in s && q in s
    requires q.score > 0.0 && q.name !in TopUp(Rank(s), slots)
    ensures |TopUp(Rank(s), slots)| == slots
    ensures p.name in TopUp(Rank(s), slots) ==> Ahead(s, p, q)
  {
    var m := CutTick(s, slots);
    var r, picks := Rank(s), TopUp(Rank(s), slots);
    var j := TakenPlace(s, r, m, picks, slots, q);
    var i := TakenPlace(s, r, m, picks, slots, p);
    assert i < j ==> Ahead(s, r[i], r[j]);
  }
}
