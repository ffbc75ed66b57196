/** What one whole tick decides (agent_kit/scheduler.py:198-228), over score questions
    interleaved with runs that start, get their permit or end, and with cap changes. */
module Tick {
  import opened Options
  import opened Ranking
  import opened Scheduling

  /** The override, if it can be dispatched. */
  function Preferred(s: State, override: Option<Name>, ready: set<Name>): seq<Name> {
    if override.Some? && override.value in Eligible(s.roster, ready, s.inFlight.Keys) then [override.value] else []
  }

  /** The other eligible agents, in roster order. */
  function Contenders(s: State, override: Option<Name>, ready: set<Name>): seq<Name> {
    var eligible := Eligible(s.roster, ready, s.inFlight.Keys);
    if override.Some? && override.value in eligible then Without(eligible, override.value) else eligible
  }

  /** An agent's reading, aged by what the state knows of its last dispatch. */
  function ScoreOf(s: State, now: real, n: Name, reading: real): Scored {
    Scored(Aged(s.horizon, reading, Since(s, n, now), now), n)
  }

  /** The agents with their readings, one for one. */
  function Scores(s: State, now: real, line: seq<Name>, readings: seq<real>): seq<Scored> {
    if line == [] || readings == [] then []
    else [ScoreOf(s, now, line[0], readings[0])] + Scores(s, now, line[1..], readings[1..])
  }

  lemma {:induction false} ScoresAt(s: State, now: real, line: seq<Name>, readings: seq<real>)
    requires |line| == |readings|
    ensures var scores := Scores(s, now, line, readings);
            && |scores| == |line| && NamesOf(scores) == line
            && forall i | 0 <= i < |line| :: scores[i] == ScoreOf(s, now, line[i], readings[i])
  {
    if line != [] {
      ScoresAt(s, now, line[1..], readings[1..]);
    }
  }

  /** What aging looks at. */
  predicate SameClock(a: State, b: State) {
    a.horizon == b.horizon && a.lastDispatch == b.lastDispatch && a.startedAt == b.startedAt
  }

  lemma {:induction false} ClockDecidesScores(a: State, b: State, now: real, line: seq<Name>, readings: seq<real>)
    requires SameClock(a, b)
    ensures Scores(a, now, line, readings) == Scores(b, now, line, readings)
  {
    if line != [] && readings != [] {
      ClockDecidesScores(a, b, now, line[1..], readings[1..]);
    }
  }

  /** The readiness answers of a stretch, in order. */
  function Readings(steps: seq<Step>): seq<real> {
    if steps == [] then []
    else (if steps[0].AgentScores? then [steps[0].readiness] else []) + Readings(steps[1..])
  }

  /** The stretch holds `missing` readings, ends with the last, and no tick is given up in it. */
  predicate Asks(steps: seq<Step>, missing: nat) {
    if missing == 0 then steps == []
    else steps != [] && !steps[0].TickAborts? && Asks(steps[1..], if steps[0].AgentScores? then missing - 1 else missing)
  }

  /** The decision on a list of scores. */
  function Decision(now: real, free: nat, chosen: seq<Name>, scores: seq<Scored>): Phase
    requires |chosen| <= free
  {
    Line(now, chosen + TopUp(Rank(scores), free - |chosen|))
  }

  /** Runs and cap changes go on while the tick asks; they do not reach it. */
  lemma OthersDoNotReach(s: State, step: Step)
    requires Safe(s) && s.phase.Scoring? && Enabled(s, step) && !step.AgentScores? && !step.TickAborts?
    ensures Apply(s, step).phase == s.phase && SameClock(s, Apply(s, step))
  {
  }

  lemma ReadingCounts(s: State, readiness: real)
    requires Safe(s) && Enabled(s, AgentScores(readiness))
    ensures var p, s' := s.phase, Apply(s, AgentScores(readiness));
            var scored := p.scored + [ScoreOf(s, p.now, p.pending[0], readiness)];
            && SameClock(s, s')
            && s'.phase == if p.pending[1..] != [] then Scoring(p.now, p.free, p.chosen, p.pending[1..], scored)
                           else Decision(p.now, p.free, p.chosen, scored)
  {
  }

  /** From the first question to the decision, in any company: the tick decides on what was
      scored before and on every agent still pending, by its reading. */
  lemma {:induction false} AsksOn(s: State, steps: seq<Step>)
    requires Safe(s) && s.phase.Scoring? && s.phase.pending != []
    requires Legal(s, steps) && Asks(steps, |s.phase.pending|)
    ensures var p := s.phase;
            |Readings(steps)| == |p.pending| &&
            Run(s, steps).phase
              == Decision(p.now, p.free, p.chosen, p.scored + Scores(s, p.now, p.pending, Readings(steps)))
    decreases |steps|
  {
    var p, step, rest := s.phase, steps[0], steps[1..];
    var s' := Apply(s, step);
    if step.AgentScores? {
      var x := ScoreOf(s, p.now, p.pending[0], step.readiness);
      ReadingCounts(s, step.readiness);
      ClockDecidesScores(s, s', p.now, p.pending[1..], Readings(rest));
      ReadingsSplit(s, p.now, p.pending, step.readiness, Readings(rest), p.scored);
      if p.pending[1..] != [] {
        AsksOn(s', rest);
      }
    } else {
      OthersDoNotReach(s, step);
      assert Readings(steps) == Readings(rest);
      ClockDecidesScores(s, s', p.now, p.pending, Readings(rest));
      AsksOn(s', rest);
    }
  }

  lemma ReadingsSplit(s: State, now: real, pending: seq<Name>, reading: real, readings: seq<real>, scored: seq<Scored>)
    requires pending != []
    ensures scored + Scores(s, now, pending, [reading] + readings)
              == (scored + [ScoreOf(s, now, pending[0], reading)]) + Scores(s, now, pending[1..], readings)
    ensures pending[1..] == [] ==>
              scored + Scores(s, now, pending, [reading] + readings) == scored + [ScoreOf(s, now, pending[0], reading)]
  {
    assert ([reading] + readings)[1..] == readings;
  }

  lemma TickOpens(s: State, override: Option<Name>, ready: set<Name>)
    requires Safe(s) && s.phase.AwaitingOverride?
    ensures var s1 := Apply(s, OverrideAnswers(override, ready));
            var chosen, line := Preferred(s, override, ready), Contenders(s, override, ready);
            && SameClock(s, s1)
            && s1.phase == if line == [] || |chosen| == s.phase.free then Line(s.phase.now, chosen)
                           else Scoring(s.phase.now, s.phase.free, chosen, line, [])
  {
    assert Rank([]) == [];
    assert Preferred(s, override, ready) + [] == Preferred(s, override, ready);
  }

  /** How many agents the tick asks: the contenders, unless the override took the only slot. */
  function Questions(s: State, override: Option<Name>, ready: set<Name>): nat
    requires s.phase.AwaitingOverride?
  {
    if |Preferred(s, override, ready)| < s.phase.free then |Contenders(s, override, ready)| else 0
  }

  /** A tick whose readings all came in, whatever ran beside it. */
  ghost predicate Complete(s: State, override: Option<Name>, ready: set<Name>, steps: seq<Step>) {
    && Safe(s) && s.phase.AwaitingOverride?
    && Legal(Apply(s, OverrideAnswers(override, ready)), steps) && Asks(steps, Questions(s, override, ready))
  }

  /** The aged scores of a complete tick. */
  function TickScores(s: State, override: Option<Name>, ready: set<Name>, steps: seq<Step>): seq<Scored>
    requires s.phase.AwaitingOverride?
  {
    Scores(s, s.phase.now, Contenders(s, override, ready), Readings(steps))
  }

  function QueueOf(p: Phase): seq<Name> {
    if p.Dispatching? then p.queue else []
  }

  lemma DecisionQueue(now: real, free: nat, chosen: seq<Name>, scores: seq<Scored>)
    requires |chosen| <= free
    ensures QueueOf(Decision(now, free, chosen, scores)) == chosen + TopUp(Rank(scores), free - |chosen|)
  {
  }

  /** The queue the tick ends in. */
  function TickQueue(s: State, override: Option<Name>, ready: set<Name>, steps: seq<Step>): seq<Name>
    requires Safe(s) && s.phase.AwaitingOverride? && Legal(Apply(s, OverrideAnswers(override, ready)), steps)
  {
    QueueOf(Run(Apply(s, OverrideAnswers(override, ready)), steps).phase)
  }

  /** With nobody to ask the choice is the decision. */
  lemma NoQuestion(s: State, override: Option<Name>, ready: set<Name>)
    requires Safe(s) && s.phase.AwaitingOverride? && Questions(s, override, ready) == 0
    ensures Scores(s, s.phase.now, Contenders(s, override, ready), []) == []
    ensures Apply(s, OverrideAnswers(override, ready)).phase
              == Decision(s.phase.now, s.phase.free, Preferred(s, override, ready), [])
  {
    TickOpens(s, override, ready);
    var chosen := Preferred(s, override, ready);
    assert chosen + TopUp(Rank([]), s.phase.free - |chosen|) == chosen;
  }

  /** The tick decides on exactly the eligible agents, in roster order, each by its aged score:
      the override, then the stable top of the positive ones. */
  lemma TickDecides(s: State, override: Option<Name>, ready: set<Name>, steps: seq<Step>)
    requires Complete(s, override, ready, steps)
    ensures Run(Apply(s, OverrideAnswers(override, ready)), steps).phase
              == Decision(s.phase.now, s.phase.free, Preferred(s, override, ready), TickScores(s, override, ready, steps))
    ensures |Readings(steps)| == Questions(s, override, ready)
  {
    var s1 := Apply(s, OverrideAnswers(override, ready));
    TickOpens(s, override, ready);
    if Questions(s, override, ready) == 0 {
      NoQuestion(s, override, ready);
      return;
    }
    AsksOn(s1, steps);
    ClockDecidesScores(s, s1, s.phase.now, Contenders(s, override, ready), Readings(steps));
    assert [] + TickScores(s, override, ready, steps) == TickScores(s, override, ready, steps);
  }

  /** The contenders are the ready agents not in flight, each once, without the override. */
  lemma ContendersAre(s: State, override: Option<Name>, ready: set<Name>)
    requires Distinct(s.roster)
    ensures Distinct(Contenders(s, override, ready))
    ensures forall n :: n in Contenders(s, override, ready) <==>
              n in s.roster && n in ready && n !in s.inFlight && n !in Preferred(s, override, ready)
  {
    EligibleAreFree(s.roster, ready, s.inFlight.Keys);
    if override.Some? && override.value in Eligible(s.roster, ready, s.inFlight.Keys) {
      WithoutDrops(Eligible(s.roster, ready, s.inFlight.Keys), override.value);
    }
  }

  /** One list names its members in the order of another. */
  ghost predicate InOrderOf(names: seq<Name>, roster: seq<Name>) {
    exists at: seq<nat> :: Places(names, roster, at)
  }

  ghost predicate Places(names: seq<Name>, roster: seq<Name>, at: seq<nat>) {
    && |at| == |names| && (forall k | 0 <= k < |at| :: at[k] < |roster| && roster[at[k]] == names[k])
    && forall j, k | 0 <= j < k < |at| :: at[j] < at[k]
  }

  lemma PlacesMore(names: seq<Name>, roster: seq<Name>, at: seq<nat>, n: Name)
    requires Places(names, roster, at)
    ensures Places(names, roster + [n], at) && Places(names + [n], roster + [n], at + [|roster|])
  {
  }

  lemma {:induction false} EligibleInOrder(roster: seq<Name>, ready: set<Name>, busy: set<Name>) returns (at: seq<nat>)
    ensures Places(Eligible(roster, ready, busy), roster, at)
  {
    if roster == [] {
      at := [];
    } else {
      var front, n := roster[..|roster| - 1], roster[|roster| - 1];
      at := EligibleInOrder(front, ready, busy);
      PlacesMore(Eligible(front, ready, busy), front, at, n);
      assert roster == front + [n];
      at := if n in ready && n !in busy then at + [|front|] else at;
    }
  }

  lemma PlacesCut(names: seq<Name>, roster: seq<Name>, at: seq<nat>)
    requires names != [] && Places(names, roster, at)
    ensures Places(names[..|names| - 1], roster, at[..|names| - 1])
  {
  }

  lemma PlacesAgain(names: seq<Name>, roster: seq<Name>, at: seq<nat>, n: Name, i: nat)
    requires Places(names, roster, at) && i < |roster| && roster[i] == n && forall k | 0 <= k < |at| :: at[k] < i
    ensures Places(names + [n], roster, at + [i])
  {
  }

  lemma {:induction false} WithoutInOrder(names: seq<Name>, roster: seq<Name>, n: Name, at: seq<nat>) returns (rest: seq<nat>)
    requires Places(names, roster, at)
    ensures Places(Without(names, n), roster, rest)
    ensures names != [] ==> forall k | 0 <= k < |rest| :: rest[k] <= at[|names| - 1]
  {
    if names == [] {
      rest := [];
    } else {
      var m := |names| - 1;
      PlacesCut(names, roster, at);
      rest := WithoutInOrder(names[..m], roster, n, at[..m]);
      assert forall k | 0 <= k < |rest| :: rest[k] < at[m];
      if names[m] != n {
        PlacesAgain(Without(names[..m], n), roster, rest, names[m], at[m]);
        rest := rest + [at[m]];
      }
    }
  }

  /** The contenders stand in roster order, which is what an equal score is decided by. */
  lemma ContendersInOrder(s: State, override: Option<Name>, ready: set<Name>)
    ensures InOrderOf(Contenders(s, override, ready), s.roster)
  {
    var eligible := Eligible(s.roster, ready, s.inFlight.Keys);
    var at := EligibleInOrder(s.roster, ready, s.inFlight.Keys);
    if override.Some? && override.value in eligible {
      var rest := WithoutInOrder(eligible, s.roster, override.value, at);
    }
  }

  /** What a queue, an override and scores have to do with one another. */
  ghost predicate Served(queue: seq<Name>, chosen: seq<Name>, scores: seq<Scored>, free: nat) {
    && |chosen| <= free && queue == chosen + TopUp(Rank(scores), free - |chosen|)
    && Distinct(NamesOf(scores)) && Apart(chosen, NamesOf(scores))
  }

  lemma ScoresFit(s: State, override: Option<Name>, ready: set<Name>, steps: seq<Step>)
    requires s.phase.AwaitingOverride? && |Readings(steps)| == |Contenders(s, override, ready)| && Distinct(s.roster)
    ensures var scores := TickScores(s, override, ready, steps);
            Distinct(NamesOf(scores)) && Apart(Preferred(s, override, ready), NamesOf(scores))
  {
    ContendersAre(s, override, ready);
    ScoresAt(s, s.phase.now, Contenders(s, override, ready), Readings(steps));
  }

  lemma TickServes(s: State, override: Option<Name>, ready: set<Name>, steps: seq<Step>)
    requires Complete(s, override, ready, steps) && Distinct(s.roster)
    requires |Readings(steps)| == |Contenders(s, override, ready)|
    ensures Served(TickQueue(s, override, ready, steps), Preferred(s, override, ready),
                   TickScores(s, override, ready, steps), s.phase.free)
  {
    TickDecides(s, override, ready, steps);
    DecisionQueue(s.phase.now, s.phase.free, Preferred(s, override, ready), TickScores(s, override, ready, steps));
    ScoresFit(s, override, ready, steps);
  }

  lemma TickScoreIs(s: State, override: Option<Name>, ready: set<Name>, steps: seq<Step>, i: nat)
    requires s.phase.AwaitingOverride? && i < |Contenders(s, override, ready)| == |Readings(steps)|
    ensures |TickScores(s, override, ready, steps)| == |Readings(steps)|
    ensures TickScores(s, override, ready, steps)[i]
              == ScoreOf(s, s.phase.now, Contenders(s, override, ready)[i], Readings(steps)[i])
  {
    ScoresAt(s, s.phase.now, Contenders(s, override, ready), Readings(steps));
  }

  lemma ScoreSign(s: State, now: real, n: Name, reading: real)
    ensures ScoreOf(s, now, n, reading).name == n
    ensures ScoreOf(s, now, n, reading).score > 0.0 <==> reading > 0.0
  {
  }

  lemma BestAreServed(queue: seq<Name>, chosen: seq<Name>, scores: seq<Scored>, free: nat, i: nat, j: nat)
    requires Served(queue, chosen, scores, free)
    requires i < |scores| && j < |scores| && scores[j].score > 0.0 && scores[j].name !in queue
    ensures |queue| == free && (scores[i].name in queue ==> Ahead(scores, scores[i], scores[j]))
  {
    DistinctIsKeyed(scores);
    assert NamesOf(scores)[i] == scores[i].name;
    PicksAreTheBest(scores, free - |chosen|, scores[i], scores[j]);
  }

  lemma IdleAreNot(queue: seq<Name>, chosen: seq<Name>, scores: seq<Scored>, free: nat, i: nat)
    requires Served(queue, chosen, scores, free) && i < |scores| && scores[i].score <= 0.0
    ensures scores[i].name !in queue
  {
    assert NamesOf(scores)[i] == scores[i].name;
    assert scores[i] in scores;
    NotPickedUnlessPositive(scores, scores[i], free - |chosen|);
  }

  /** A contender with something to do is passed over by a tick only when every free slot is
      spent, and then by agents that outrank it: a higher aged score, or the same and an
      earlier place on the roster. */
  lemma TickPicksTheBest(s: State, override: Option<Name>, ready: set<Name>, steps: seq<Step>, i: nat, j: nat)
    requires Complete(s, override, ready, steps) && Distinct(s.roster)
    requires var line := Contenders(s, override, ready);
             && i < |line| && j < |line| == |Readings(steps)| && Readings(steps)[j] > 0.0
             && line[j] !in TickQueue(s, override, ready, steps)
    ensures |TickQueue(s, override, ready, steps)| == s.phase.free
    ensures var scores := TickScores(s, override, ready, steps);
            && |scores| == |Contenders(s, override, ready)|
            && (Contenders(s, override, ready)[i] in TickQueue(s, override, ready, steps) ==>
                  Ahead(scores, scores[i], scores[j]))
  {
    var line, readings := Contenders(s, override, ready), Readings(steps);
    TickServes(s, override, ready, steps);
    TickScoreIs(s, override, ready, steps, i);
    TickScoreIs(s, override, ready, steps, j);
    ScoreSign(s, s.phase.now, line[i], readings[i]);
    ScoreSign(s, s.phase.now, line[j], readings[j]);
    BestAreServed(TickQueue(s, override, ready, steps), Preferred(s, override, ready),
                  TickScores(s, override, ready, steps), s.phase.free, i, j);
  }

  /** A contender with nothing to do is not dispatched by any tick, however long it has waited. */
  lemma TickLeavesTheIdle(s: State, override: Option<Name>, ready: set<Name>, steps: seq<Step>, i: nat)
    requires Complete(s, override, ready, steps) && Distinct(s.roster)
    requires i < |Contenders(s, override, ready)| == |Readings(steps)| && Readings(steps)[i] <= 0.0
    ensures Contenders(s, override, ready)[i] !in TickQueue(s, override, ready, steps)
  {
    TickServes(s, override, ready, steps);
    TickScoreIs(s, override, ready, steps, i);
    ScoreSign(s, s.phase.now, Contenders(s, override, ready)[i], Readings(steps)[i]);
    IdleAreNot(TickQueue(s, override, ready, steps), Preferred(s, override, ready),
               TickScores(s, override, ready, steps), s.phase.free, i);
  }
}
