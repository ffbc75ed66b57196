/** No agent with work is starved (agent_kit/scheduler.py, `_aged` and `tick`).

    The argument counts rivals: each tick that passes the waiting agent over must spend a
    slot on a rival that has not been dispatched since the wait was long enough, and
    there are only so many of those. It runs over the same steps as dispatch safety, with
    runs starting and ending in between. */
module Fairness {
  import opened Options
  import opened Ranking
  import opened Scheduling

  /** The agent under watch: from `start`, for `span`, always eligible with a readiness of
      at least `need`. */
  datatype Watch = Watch(agent: Name, need: real, start: real, span: real)

  /** The aged score that a rival dispatched since `start` cannot exceed. */
  function Bar(w: Watch, horizon: real): real
    requires horizon > 0.0
  {
    1.0 + w.span / horizon
  }

  lemma DivideMonotone(a: real, b: real, k: real)
    requires k > 0.0
    ensures a <= b ==> a / k <= b / k
    ensures a < b ==> a / k < b / k
  {
    var x, y := a / k, b / k;
    assert x * k == a && y * k == b;
    assert x > y ==> x * k > y * k;
    assert x == y ==> a == b;
  }

  lemma MultiplyMonotone(a: real, b: real, k: real)
    requires a <= b && k >= 0.0
    ensures a * k <= b * k
  {
    assert (b - a) * k >= 0.0;
  }

  lemma Cancel(x: real, y: real, k: real)
    requires k > 0.0 && x * k == y * k
    ensures x == y
  {
    assert (x - y) * k == x * k - y * k;
    assert x > y ==> (x - y) * k > 0.0;
    assert x < y ==> (y - x) * k > 0.0;
  }

  lemma OnePlusQuotient(x: real, k: real)
    requires k > 0.0
    ensures 1.0 + x / k == (k + x) / k
  {
    var q, r := x / k, (k + x) / k;
    assert q * k == x && r * k == k + x;
    assert (1.0 + q) * k == k + q * k;
    Cancel(1.0 + q, r, k);
  }

  lemma PullOut(a: real, b: real, k: real)
    requires k > 0.0
    ensures a * (b / k) == (a * b) / k
  {
    var q, r := b / k, (a * b) / k;
    assert q * k == b && r * k == a * b;
    assert (a * q) * k == a * (q * k);
    Cancel(a * q, r, k);
  }

  lemma ServedScoresLow(w: Watch, horizon: real, readiness: real, since: real, now: real)
    requires horizon > 0.0 && 0.0 <= readiness <= 1.0
    requires w.start <= since && now <= w.start + w.span && w.span >= 0.0
    ensures Aged(horizon, readiness, since, now) <= Bar(w, horizon)
  {
    var waited := if now - since > 0.0 then now - since else 0.0;
    DivideMonotone(waited, w.span, horizon);
    BoostIsPositive(1.0, waited, horizon);
    var boost := 1.0 + waited / horizon;
    MultiplyMonotone(readiness, 1.0, boost);
    assert 1.0 * boost == boost;
    assert boost >= 0.0;
    if readiness > 0.0 {
      assert Aged(horizon, readiness, since, now) == readiness * (1.0 + waited / horizon);
      assert readiness * boost <= boost;
    }
  }

  /** The wait that suffices, multiplied out. */
  lemma LongWait(w: Watch, horizon: real, waited: real)
    requires horizon > 0.0 && w.need > 0.0
    requires waited > (horizon + w.span) / w.need - horizon
    ensures w.need * (horizon + waited) > horizon + w.span
  {
    var q := (horizon + w.span) / w.need;
    assert q * w.need == horizon + w.span;
    assert (horizon + waited - q) * w.need > 0.0;
  }

  lemma WaitingScoresHigh(w: Watch, horizon: real, readiness: real, since: real, now: real)
    requires horizon > 0.0 && 0.0 < w.need <= readiness && w.start <= now && since <= w.start
    requires w.start - since > (horizon + w.span) / w.need - horizon
    ensures Aged(horizon, readiness, since, now) > Bar(w, horizon)
  {
    var waited := now - since;
    LongWait(w, horizon, waited);
    OnePlusQuotient(waited, horizon);
    OnePlusQuotient(w.span, horizon);
    DivideMonotone(0.0, horizon + waited, horizon);
    MultiplyMonotone(w.need, readiness, (horizon + waited) / horizon);
    PullOut(w.need, horizon + waited, horizon);
    DivideMonotone(horizon + w.span, w.need * (horizon + waited), horizon);
    calc {
      Aged(horizon, readiness, since, now);
      readiness * ((horizon + waited) / horizon);
    >= w.need * ((horizon + waited) / horizon);
      (w.need * (horizon + waited)) / horizon;
    >  (horizon + w.span) / horizon;
    }
  }

  /** The conditions of the promise, step by step: the gate is open, nobody overrides, the
      ticks fall within the span, readiness is between 0 and 1, and the watched agent is
      eligible with enough to do. Caps, permits and run endings are unrestricted. */
  ghost predicate Watched(w: Watch, s: State, step: Step) {
    match step
    case TickStarts(now) => w.start <= now <= w.start + w.span
    case GateAnswers(open) => open
    case OverrideAnswers(override, ready) => override.None? && w.agent in ready
    case AgentScores(readiness) =>
      0.0 <= readiness <= 1.0 &&
      (s.phase.Scoring? && s.phase.pending != [] && s.phase.pending[0] == w.agent ==> readiness >= w.need)
    case _ => true
  }

  ghost predicate WatchedRun(w: Watch, s: State, steps: seq<Step>)
    requires Legal(s, steps)
    decreases |steps|
  {
    steps == [] || (Watched(w, s, steps[0]) && WatchedRun(w, Apply(s, steps[0]), steps[1..]))
  }

  /** The step that completes a tick's scores, so that its free slots are spent. */
  predicate IsDecision(s: State, step: Step) {
    step.AgentScores? && s.phase.Scoring? && |s.phase.pending| == 1
  }

  /** The ticks of a run that found a free slot and spent it. */
  function Decisions(s: State, steps: seq<Step>): nat
    requires Legal(s, steps)
    decreases |steps|
  {
    if steps == [] then 0
    else (if IsDecision(s, steps[0]) then 1 else 0) + Decisions(Apply(s, steps[0]), steps[1..])
  }

  /** Dispatched since `start`, or in line in the current tick. */
  predicate Picked(w: Watch, s: State, n: Name) {
    || (n in s.lastDispatch && s.lastDispatch[n] >= w.start)
    || (s.phase.Dispatching? && n in s.phase.queue)
  }

  /** The rivals that have had their turn. */
  function Served(w: Watch, s: State): set<Name> {
    set n | n in s.roster && n != w.agent && Picked(w, s, n)
  }

  /** What the run keeps true until the watched agent is picked. */
  ghost predicate Waiting(w: Watch, since: real, s: State) {
    && Timely(w, s)
    && s.horizon > 0.0 && Distinct(s.roster) && w.agent in s.roster
    && w.agent !in s.inFlight
    && (if w.agent in s.lastDispatch then s.lastDispatch[w.agent] == since else s.startedAt == Some(since))
    && (s.phase.Scoring? ==> FairScores(w, s))
    && (s.phase.Dispatching? ==> w.agent !in s.phase.queue)
  }

  /** The tick under way began within the span, and a dispatch once stamped counts. */
  ghost predicate Timely(w: Watch, s: State) {
    && Safe(s)
    && (s.phase.Idle? || w.start <= s.phase.now <= w.start + w.span)
    && (s.phase.Dispatching? && s.phase.stamped ==>
          s.phase.queue[0] in s.lastDispatch && s.lastDispatch[s.phase.queue[0]] >= w.start)
  }

  /** The scores so far: the watched agent above the bar, the served rivals not. */
  ghost predicate FairScores(w: Watch, s: State)
    requires s.phase.Scoring? && s.horizon > 0.0
  {
    && s.phase.chosen == []
    && Distinct(s.phase.pending + NamesOf(s.phase.scored))
    && (forall n | n in s.phase.pending + NamesOf(s.phase.scored) :: n in s.roster)
    && w.agent in s.phase.pending + NamesOf(s.phase.scored)
    && (forall e | e in s.phase.scored ::
          if e.name == w.agent then e.score > Bar(w, s.horizon)
          else Picked(w, s, e.name) ==> e.score <= Bar(w, s.horizon))
  }

  ghost predicate Patient(w: Watch, since: real, horizon: real) {
    && horizon > 0.0 && 0.0 < w.need <= 1.0 && w.span >= 0.0
    && since <= w.start
    && w.start - since > (horizon + w.span) / w.need - horizon
  }

  /** Scoring one more agent keeps the scores fair. */
  lemma ScoreIsFair(w: Watch, since: real, s: State, readiness: real)
    requires Patient(w, since, s.horizon) && Waiting(w, since, s)
    requires s.phase.Scoring? && s.phase.pending != [] && Watched(w, s, AgentScores(readiness))
    ensures var n := s.phase.pending[0];
            var score := Aged(s.horizon, readiness, Since(s, n, s.phase.now), s.phase.now);
            if n == w.agent then score > Bar(w, s.horizon)
            else Picked(w, s, n) ==> score <= Bar(w, s.horizon)
  {
    var n, now := s.phase.pending[0], s.phase.now;
    if n == w.agent {
      WaitingScoresHigh(w, s.horizon, readiness, since, now);
    } else if Picked(w, s, n) {
      ServedScoresLow(w, s.horizon, readiness, s.lastDispatch[n], now);
    }
  }

  lemma TimelyStays(w: Watch, s: State, step: Step)
    requires Timely(w, s) && Enabled(s, step) && Watched(w, s, step)
    ensures Timely(w, Apply(s, step))
  {
    if step.AgentScores? {
      NextPhaseSameTick(s, step.readiness);
    }
  }

  /** Whoever has been picked stays picked. */
  lemma PickedStays(w: Watch, s: State, step: Step, n: Name)
    requires Timely(w, s) && Enabled(s, step) && Watched(w, s, step) && Picked(w, s, n)
    ensures Picked(w, Apply(s, step), n)
  {
  }

  lemma ServedGrows(w: Watch, s: State, step: Step)
    requires Timely(w, s) && Enabled(s, step) && Watched(w, s, step)
    ensures Served(w, s) <= Served(w, Apply(s, step)) && |Served(w, s)| <= |Served(w, Apply(s, step))|
  {
    forall n | n in Served(w, s)
      ensures n in Served(w, Apply(s, step))
    {
      PickedStays(w, s, step, n);
    }
    Subset(Served(w, s), Served(w, Apply(s, step)));
  }

  lemma Subset(a: set<Name>, b: set<Name>)
    requires a <= b
    ensures |a| <= |b| && (a != b ==> |a| < |b|)
  {
    assert b == a + (b - a);
    if a != b {
      assert |b - a| > 0;
    }
  }

  /** A decision that passes `agent` over picks somebody outside `served`, when only
      `served` scores at or under the bar and the agent is above it. */
  lemma PassedOverForANewRival(scored: seq<Scored>, slots: nat, agent: Name, bar: real, served: set<Name>) returns (rival: Name)
    requires slots >= 1 && bar >= 0.0
    requires Distinct(NamesOf(scored)) && agent in NamesOf(scored) && agent !in TopUp(Rank(scored), slots)
    requires forall e | e in scored :: e.name == agent ==> e.score > bar
    requires forall e | e in scored :: e.name in served ==> e.score <= bar
    ensures rival in TopUp(Rank(scored), slots) && rival in NamesOf(scored)
    ensures rival != agent && rival !in served
  {
    var picks := TopUp(Rank(scored), slots);
    var i :| 0 <= i < |scored| && NamesOf(scored)[i] == agent;
    var own := scored[i];
    DistinctIsKeyed(scored);
    PicksComeFromScored(scored, slots);
    PicksAreTheBest(scored, slots, own, own);
    rival := picks[0];
    assert rival in picks && rival in NamesOf(scored);
    var j :| 0 <= j < |scored| && NamesOf(scored)[j] == rival;
    var e := scored[j];
    PicksAreTheBest(scored, slots, e, own);
    assert Ahead(scored, e, own);
  }

  function LastScored(s: State, readiness: real): seq<Scored>
    requires Enabled(s, AgentScores(readiness))
  {
    var p := s.phase;
    p.scored + [Scored(Aged(s.horizon, readiness, Since(s, p.pending[0], p.now), p.now), p.pending[0])]
  }

  lemma DecisionOutcome(s: State, readiness: real)
    requires Safe(s) && IsDecision(s, AgentScores(readiness)) && s.phase.chosen == []
    ensures Apply(s, AgentScores(readiness)) ==
              s.(phase := Line(s.phase.now, TopUp(Rank(LastScored(s, readiness)), s.phase.free)))
  {
    var picks := TopUp(Rank(LastScored(s, readiness)), s.phase.free);
    assert [] + picks == picks;
  }

  lemma FairToTheEnd(w: Watch, since: real, s: State, readiness: real)
    requires Patient(w, since, s.horizon) && Waiting(w, since, s)
    requires IsDecision(s, AgentScores(readiness)) && Watched(w, s, AgentScores(readiness))
    ensures var scored := LastScored(s, readiness);
            && Distinct(NamesOf(scored)) && w.agent in NamesOf(scored)
            && (forall n | n in NamesOf(scored) :: n in s.roster)
            && (forall e | e in scored :: e.name == w.agent ==> e.score > Bar(w, s.horizon))
            && (forall e | e in scored :: e.name in Served(w, s) ==> e.score <= Bar(w, s.horizon))
  {
    ScoreIsFair(w, since, s, readiness);
    var scored := LastScored(s, readiness);
    ScoredInPlace(s.phase.pending, s.phase.scored, scored[|scored| - 1]);
  }

  lemma SomebodyNewIsServed(w: Watch, s: State, s': State, rival: Name)
    requires Served(w, s) <= Served(w, s') && rival in Served(w, s') && rival !in Served(w, s)
    ensures |Served(w, s')| >= |Served(w, s)| + 1
  {
    Subset(Served(w, s), Served(w, s'));
  }

  /** A decision step, while the agent waits: it is picked, or a new rival is served. */
  lemma DecisionServes(w: Watch, since: real, s: State, readiness: real)
    requires Patient(w, since, s.horizon) && Waiting(w, since, s)
    requires IsDecision(s, AgentScores(readiness)) && Watched(w, s, AgentScores(readiness))
    requires !Picked(w, Apply(s, AgentScores(readiness)), w.agent)
    ensures |Served(w, Apply(s, AgentScores(readiness)))| >= |Served(w, s)| + 1
  {
    var s' := Apply(s, AgentScores(readiness));
    var scored := LastScored(s, readiness);
    DecisionOutcome(s, readiness);
    FairToTheEnd(w, since, s, readiness);
    BoostIsPositive(1.0, w.span, s.horizon);
    var rival := PassedOverForANewRival(scored, s.phase.free, w.agent, Bar(w, s.horizon), Served(w, s));
    assert rival in s.roster && Picked(w, s', rival);
    ServedGrows(w, s, AgentScores(readiness));
    SomebodyNewIsServed(w, s, s', rival);
  }

  lemma DecisionKeepsWaiting(w: Watch, since: real, s: State, readiness: real)
    requires Waiting(w, since, s)
    requires IsDecision(s, AgentScores(readiness)) && Watched(w, s, AgentScores(readiness))
    requires !Picked(w, Apply(s, AgentScores(readiness)), w.agent)
    ensures Waiting(w, since, Apply(s, AgentScores(readiness)))
  {
    DecisionOutcome(s, readiness);
    TimelyStays(w, s, AgentScores(readiness));
  }

  /** When the last pending name is scored, the scored names are the same names. */
  lemma ScoredInPlace(pending: seq<Name>, scored: seq<Scored>, last: Scored)
    requires |pending| == 1 && pending[0] == last.name && Distinct(pending + NamesOf(scored))
    ensures Distinct(NamesOf(scored + [last]))
    ensures forall n :: n in NamesOf(scored + [last]) <==> n in pending + NamesOf(scored)
  {
    DistinctParts(pending, NamesOf(scored));
    assert NamesOf(scored + [last]) == NamesOf(scored) + pending;
    DistinctParts(NamesOf(scored), pending);
  }

  lemma OtherScoreKeepsWaiting(w: Watch, since: real, s: State, readiness: real)
    requires Patient(w, since, s.horizon) && Waiting(w, since, s)
    requires Enabled(s, AgentScores(readiness)) && |s.phase.pending| > 1 && Watched(w, s, AgentScores(readiness))
    ensures Waiting(w, since, Apply(s, AgentScores(readiness)))
  {
    var p := s.phase;
    var next := Scored(Aged(s.horizon, readiness, Since(s, p.pending[0], p.now), p.now), p.pending[0]);
    ScoreIsFair(w, since, s, readiness);
    RotateNames(p.pending, NamesOf(p.scored));
    assert NamesOf(p.scored + [next]) == NamesOf(p.scored) + [p.pending[0]];
    assert NextPhase(s, readiness) == Scoring(p.now, p.free, p.chosen, p.pending[1..], p.scored + [next]);
  }

  lemma OverrideKeepsWaiting(w: Watch, since: real, s: State, override: Option<Name>, ready: set<Name>)
    requires Waiting(w, since, s)
    requires Enabled(s, OverrideAnswers(override, ready)) && Watched(w, s, OverrideAnswers(override, ready))
    ensures Waiting(w, since, Apply(s, OverrideAnswers(override, ready)))
  {
    var eligible := Eligible(s.roster, ready, s.inFlight.Keys);
    EligibleAreFree(s.roster, ready, s.inFlight.Keys);
    assert eligible + NamesOf([]) == eligible;
  }

  lemma RunsKeepWaiting(w: Watch, since: real, s: State, step: Step)
    requires Waiting(w, since, s) && Enabled(s, step) && Watched(w, s, step)
    requires step.RunStarts? || step.PermitGranted? || step.RunEnds? || step.CapChanges?
    ensures Waiting(w, since, Apply(s, step))
  {
    TimelyStays(w, s, step);
  }

  lemma TicksKeepWaiting(w: Watch, since: real, s: State, step: Step)
    requires Waiting(w, since, s) && Enabled(s, step) && Watched(w, s, step)
    requires step.TickStarts? || step.GateAnswers? || step.TickAborts?
    ensures Waiting(w, since, Apply(s, step))
  {
    TimelyStays(w, s, step);
  }

  lemma DispatchKeepsWaiting(w: Watch, since: real, s: State, step: Step)
    requires Waiting(w, since, s) && Enabled(s, step) && Watched(w, s, step)
    requires step.Stamps? || step.Launches?
    ensures Waiting(w, since, Apply(s, step))
  {
    TimelyStays(w, s, step);
  }

  lemma OtherStepsKeepWaiting(w: Watch, since: real, s: State, step: Step)
    requires Waiting(w, since, s) && Enabled(s, step) && Watched(w, s, step)
    requires !step.AgentScores? && !step.OverrideAnswers?
    ensures Waiting(w, since, Apply(s, step))
  {
    if step.Stamps? || step.Launches? {
      DispatchKeepsWaiting(w, since, s, step);
    } else if step.TickStarts? || step.GateAnswers? || step.TickAborts? {
      TicksKeepWaiting(w, since, s, step);
    } else {
      RunsKeepWaiting(w, since, s, step);
    }
  }

  lemma StepWhileWaiting(w: Watch, since: real, s: State, step: Step)
    requires Patient(w, since, s.horizon) && Waiting(w, since, s)
    requires Enabled(s, step) && Watched(w, s, step)
    ensures var s' := Apply(s, step);
            Picked(w, s', w.agent) ||
            (Waiting(w, since, s') && |Served(w, s')| >= |Served(w, s)| + if IsDecision(s, step) then 1 else 0)
  {
    match step
    case AgentScores(readiness) =>
      if IsDecision(s, step) {
        if !Picked(w, Apply(s, step), w.agent) {
          DecisionServes(w, since, s, readiness);
          DecisionKeepsWaiting(w, since, s, readiness);
        }
      } else {
        OtherScoreKeepsWaiting(w, since, s, readiness);
        ServedGrows(w, s, step);
      }
    case OverrideAnswers(override, ready) =>
      OverrideKeepsWaiting(w, since, s, override, ready);
      ServedGrows(w, s, step);
    case _ =>
      OtherStepsKeepWaiting(w, since, s, step);
      ServedGrows(w, s, step);
  }

  /** What one step brings, as the run below uses it. */
  lemma StepOutcome(w: Watch, since: real, s: State, step: Step)
    requires Patient(w, since, s.horizon) && Waiting(w, since, s)
    requires Enabled(s, step) && Watched(w, s, step)
    ensures var s' := Apply(s, step);
            && Timely(w, s') && s'.roster == s.roster && s'.horizon == s.horizon
            && (Picked(w, s', w.agent) ||
                (Waiting(w, since, s') && |Served(w, s')| >= |Served(w, s)| + if IsDecision(s, step) then 1 else 0))
  {
    TimelyStays(w, s, step);
    StepWhileWaiting(w, since, s, step);
  }

  lemma {:induction false} RunWhileWaiting(w: Watch, since: real, s: State, steps: seq<Step>)
    requires Patient(w, since, s.horizon) && Waiting(w, since, s)
    requires Legal(s, steps) && WatchedRun(w, s, steps)
    ensures Picked(w, Run(s, steps), w.agent) || |Served(w, Run(s, steps))| >= |Served(w, s)| + Decisions(s, steps)
    ensures Run(s, steps).roster == s.roster
    decreases |steps|
  {
    if steps != [] {
      StepOutcome(w, since, s, steps[0]);
      if Picked(w, Apply(s, steps[0]), w.agent) {
        PickedStaysOver(w, Apply(s, steps[0]), steps[1..]);
      } else {
        RunWhileWaiting(w, since, Apply(s, steps[0]), steps[1..]);
      }
    }
  }

  lemma {:induction false} PickedStaysOver(w: Watch, s: State, steps: seq<Step>)
    requires Timely(w, s) && Picked(w, s, w.agent) && Legal(s, steps) && WatchedRun(w, s, steps)
    ensures Picked(w, Run(s, steps), w.agent) && Run(s, steps).roster == s.roster
    decreases |steps|
  {
    if steps != [] {
      TimelyStays(w, s, steps[0]);
      PickedStays(w, s, steps[0], w.agent);
      PickedStaysOver(w, Apply(s, steps[0]), steps[1..]);
    }
  }

  lemma RivalsAreFew(w: Watch, s: State)
    requires w.agent in s.roster
    ensures |Served(w, s)| < |s.roster|
  {
    var all := set n | n in s.roster;
    RosterSize(s.roster);
    Subset(Served(w, s), all - {w.agent});
  }

  lemma {:induction false} RosterSize(roster: seq<Name>)
    ensures |set n | n in roster| <= |roster|
  {
    if roster != [] {
      var front, last := roster[..|roster| - 1], roster[|roster| - 1];
      RosterSize(front);
      assert roster == front + [last];
      assert (set n | n in roster) == (set n | n in front) + {last};
    }
  }

  /** Bounded waiting: an agent that has waited more than (horizon + span) / need - horizon
      is picked by the time as many ticks have spent a free slot as there are agents,
      however runs, permits and caps interleave with the ticks. */
  lemma NobodyStarves(w: Watch, since: real, s: State, steps: seq<Step>)
    requires Patient(w, since, s.horizon)
    requires s.phase.Idle? && Distinct(s.roster) && w.agent in s.roster && w.agent !in s.inFlight
    requires if w.agent in s.lastDispatch then s.lastDispatch[w.agent] == since else s.startedAt == Some(since)
    requires Legal(s, steps) && WatchedRun(w, s, steps)
    requires Decisions(s, steps) >= |s.roster|
    ensures Picked(w, Run(s, steps), w.agent)
  {
    RunWhileWaiting(w, since, s, steps);
    RivalsAreFew(w, Run(s, steps));
  }
}
