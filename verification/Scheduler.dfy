/** The dispatch protocol (agent_kit/scheduler.py): one ticker filling slots, many runs
    coming and going, interleaved at every await.

    A tick is cut at its awaits: the start, the gate's answer, the override's answer,
    one stretch per readiness score, and two per dispatch. Between any two of them a run
    may start, get its permit, or end. */
module Scheduling {
  import opened Options
  import opened Ranking

  /** A task in the in-flight table: not yet begun, queued on a permit, or at work. */
  datatype Stage = Created | Queued | Executing

  datatype Phase =
    | Idle
    | AwaitingGate(now: real, free: nat)
    | AwaitingOverride(now: real, free: nat)
    | Scoring(now: real, free: nat, chosen: seq<Name>, pending: seq<Name>, scored: seq<Scored>)
    | Dispatching(now: real, queue: seq<Name>, stamped: bool)

  datatype State = State(
    roster: seq<Name>,
    horizon: real,
    pooled: bool,
    cap: int,
    startedAt: Option<real>,
    inFlight: map<Name, Stage>,
    awaitingPool: set<Name>,
    lastDispatch: map<Name, real>,
    runCount: map<Name, nat>,
    phase: Phase)

  datatype Step =
    | TickStarts(now: real)
    | GateAnswers(open: bool)   // no gate, and a gate that raised, both answer open
    | OverrideAnswers(override: Option<Name>, ready: set<Name>)  // `ready`: unpaused and past both ladders
    | AgentScores(readiness: real)
    | TickAborts                // the override's provider or a readiness raised
    | Stamps                    // records the dispatch time
    | Launches                  // puts the run in flight
    | RunStarts(name: Name)
    | PermitGranted(name: Name)
    | RunEnds(name: Name)       // returned, raised, or was cancelled while queued
    | CapChanges(cap: int)

  function Fresh(roster: seq<Name>, horizon: real, pooled: bool, cap: int): State {
    State(roster, horizon, pooled, cap, None, map[], {}, map[], map[], Idle)
  }

  predicate Enabled(s: State, step: Step) {
    match step
    case TickStarts(_) => s.phase.Idle?
    case GateAnswers(_) => s.phase.AwaitingGate?
    case OverrideAnswers(_, _) => s.phase.AwaitingOverride?
    case AgentScores(_) => s.phase.Scoring? && s.phase.pending != []
    case TickAborts => s.phase.AwaitingOverride? || s.phase.Scoring?
    case Stamps => s.phase.Dispatching? && s.phase.queue != [] && !s.phase.stamped
    case Launches => s.phase.Dispatching? && s.phase.queue != [] && s.phase.stamped
    case RunStarts(n) => n in s.inFlight && s.inFlight[n].Created?
    case PermitGranted(n) => n in s.inFlight && s.inFlight[n].Queued?
    case RunEnds(n) => n in s.inFlight && !s.inFlight[n].Created?
    case CapChanges(_) => true
  }

  /** The moment an agent's wait is counted from. */
  function Since(s: State, n: Name, now: real): real {
    if n in s.lastDispatch then s.lastDispatch[n]
    else if s.startedAt.Some? then s.startedAt.value else now
  }

  function StartTick(s: State, now: real): State {
    var started := s.(startedAt := if s.startedAt.None? then Some(now) else s.startedAt);
    var free := s.cap - |s.inFlight|;
    if free <= 0 then started else started.(phase := AwaitingGate(now, free))
  }

  /** The roster's agents that can be dispatched, in roster order. */
  function Eligible(roster: seq<Name>, ready: set<Name>, busy: set<Name>): seq<Name> {
    if roster == [] then [] else
      var front, n := Eligible(roster[..|roster| - 1], ready, busy), roster[|roster| - 1];
      if n in ready && n !in busy then front + [n] else front
  }

  function Without(names: seq<Name>, n: Name): seq<Name> {
    if names == [] then [] else
      var front, last := Without(names[..|names| - 1], n), names[|names| - 1];
      if last == n then front else front + [last]
  }

  function Line(now: real, queue: seq<Name>): Phase {
    if queue == [] then Idle else Dispatching(now, queue, false)
  }

  /** Keeps asking for scores while any are outstanding, then decides. */
  function Decide(now: real, free: nat, chosen: seq<Name>, pending: seq<Name>, scored: seq<Scored>): Phase
    requires |chosen| <= free
  {
    if pending != [] then Scoring(now, free, chosen, pending, scored)
    else Line(now, chosen + TopUp(Rank(scored), free - |chosen|))
  }

  function ChooseFrom(now: real, free: nat, override: Option<Name>, eligible: seq<Name>): Phase
    requires free >= 1
  {
    if eligible == [] then Idle
    else if override.Some? && override.value in eligible then
      if free == 1 then Line(now, [override.value])
      else Decide(now, free, [override.value], Without(eligible, override.value), [])
    else Decide(now, free, [], eligible, [])
  }

  /** One readiness more: the next question, or the decision. */
  function NextPhase(s: State, readiness: real): Phase
    requires Enabled(s, AgentScores(readiness)) && |s.phase.chosen| <= s.phase.free
  {
    var p := s.phase;
    var score := Aged(s.horizon, readiness, Since(s, p.pending[0], p.now), p.now);
    Decide(p.now, p.free, p.chosen, p.pending[1..], p.scored + [Scored(score, p.pending[0])])
  }

  function Apply(s: State, step: Step): State
    requires Enabled(s, step) && Safe(s)
  {
    match step
    case TickStarts(now) => StartTick(s, now)
    case GateAnswers(open) =>
      s.(phase := if open then AwaitingOverride(s.phase.now, s.phase.free) else Idle)
    case OverrideAnswers(override, ready) =>
      s.(phase := ChooseFrom(s.phase.now, s.phase.free, override, Eligible(s.roster, ready, s.inFlight.Keys)))
    case AgentScores(readiness) => s.(phase := NextPhase(s, readiness))
    case TickAborts => s.(phase := Idle)
    case Stamps =>
      s.(lastDispatch := s.lastDispatch[s.phase.queue[0] := s.phase.now],
         phase := s.phase.(stamped := true))
    case Launches =>
      s.(inFlight := s.inFlight[s.phase.queue[0] := Created],
         phase := Line(s.phase.now, s.phase.queue[1..]))
    case RunStarts(n) =>
      if s.pooled
      then s.(inFlight := s.inFlight[n := Queued], awaitingPool := s.awaitingPool + {n})
      else s.(inFlight := s.inFlight[n := Executing])
    case PermitGranted(n) =>
      s.(inFlight := s.inFlight[n := Executing], awaitingPool := s.awaitingPool - {n})
    case RunEnds(n) =>
      s.(inFlight := s.inFlight - {n}, awaitingPool := s.awaitingPool - {n},
         runCount := s.runCount[n := 1 + if n in s.runCount then s.runCount[n] else 0])
    case CapChanges(cap) => s.(cap := cap)
  }

  /** The shape a phase always has. */
  predicate Safe(s: State) {
    match s.phase
    case Idle => true
    case AwaitingGate(_, free) => free >= 1
    case AwaitingOverride(_, free) => free >= 1
    case Scoring(_, free, chosen, _, _) => |chosen| < free
    case Dispatching(_, queue, _) => queue != []
  }

  // Dispatch safety.

  /** The names a phase is about to dispatch or still considers. */
  function Candidates(p: Phase): seq<Name> {
    match p
    case Scoring(_, _, chosen, pending, scored) => chosen + pending + NamesOf(scored)
    case Dispatching(_, queue, _) => queue
    case _ => []
  }

  /** The slots a phase has set aside. */
  function Reserved(p: Phase): nat {
    match p
    case Idle => 0
    case AwaitingGate(_, free) => free
    case AwaitingOverride(_, free) => free
    case Scoring(_, free, _, _, _) => free
    case Dispatching(_, queue, _) => |queue|
  }

  /** Names that may still be dispatched: no repeats, none of them busy, all on the roster. */
  ghost predicate Spare(names: seq<Name>, roster: seq<Name>, busy: set<Name>) {
    Distinct(names) && forall n | n in names :: n in roster && n !in busy
  }

  ghost predicate OnRoster(inFlight: map<Name, Stage>, roster: seq<Name>) {
    forall n | n in inFlight :: n in roster
  }

  /** Exactly the runs queued on a permit are marked as waiting for the pool. */
  ghost predicate Marked(inFlight: map<Name, Stage>, awaitingPool: set<Name>) {
    forall n :: n in awaitingPool <==> n in inFlight && inFlight[n].Queued?
  }

  /** At every await, for a bound on all the caps so far: slots taken and set aside stay
      within it, nobody in flight is a candidate again, and exactly the runs queued on a
      permit are marked as waiting for the pool. */
  ghost predicate Inv(s: State, bound: nat) {
    && Safe(s)
    && Distinct(s.roster) && s.cap <= bound
    && |s.inFlight| + Reserved(s.phase) <= bound
    && Spare(Candidates(s.phase), s.roster, s.inFlight.Keys)
    && OnRoster(s.inFlight, s.roster)
    && Marked(s.inFlight, s.awaitingPool)
  }

  ghost predicate Apart(a: seq<Name>, b: seq<Name>) {
    forall n | n in a :: n !in b
  }

  lemma {:induction false} EligibleAreFree(roster: seq<Name>, ready: set<Name>, busy: set<Name>)
    requires Distinct(roster)
    ensures var e := Eligible(roster, ready, busy);
            Distinct(e) && forall n :: n in e <==> n in roster && n in ready && n !in busy
  {
    if roster != [] {
      var front, last := roster[..|roster| - 1], roster[|roster| - 1];
      EligibleAreFree(front, ready, busy);
      DistinctMore(Eligible(front, ready, busy), last);
      assert roster == front + [last];
    }
  }

  lemma {:induction false} WithoutDrops(names: seq<Name>, n: Name)
    requires Distinct(names)
    ensures var w := Without(names, n);
            Distinct(w) && forall m :: m in w <==> m in names && m != n
  {
    if names != [] {
      var front, last := names[..|names| - 1], names[|names| - 1];
      WithoutDrops(front, n);
      DistinctMore(Without(front, n), last);
      assert names == front + [last];
    }
  }

  lemma DistinctIsKeyed(s: seq<Scored>)
    requires Distinct(NamesOf(s))
    ensures Keyed(s)
  {
    KeyedIsDistinct(s);
  }

  lemma {:induction false} DistinctParts(a: seq<Name>, b: seq<Name>)
    ensures Distinct(a + b) <==> Distinct(a) && Distinct(b) && Apart(a, b)
  {
    if b == [] {
      assert a + b == a;
    } else {
      var front, last := b[..|b| - 1], b[|b| - 1];
      DistinctParts(a, front);
      assert (a + b)[..|a + b| - 1] == a + front;
      assert b == front + [last];
      assert last in a + front <==> last in a || last in front;
    }
  }

  lemma DistinctSwap(a: seq<Name>, b: seq<Name>)
    requires Distinct(a + b)
    ensures Distinct(b + a)
  {
    DistinctParts(a, b);
    DistinctParts(b, a);
  }

  /** Moving the first name behind all others. */
  lemma RotateNames(pending: seq<Name>, names: seq<Name>)
    requires pending != [] && Distinct(pending + names)
    ensures Distinct(pending[1..] + (names + [pending[0]]))
    ensures forall m :: m in pending[1..] + (names + [pending[0]]) <==> m in pending + names
  {
    var n, rest := pending[0], pending[1..];
    assert pending + names == [n] + (rest + names);
    DistinctSwap([n], rest + names);
    assert rest + names + [n] == rest + (names + [n]);
  }

  /** The picks come from the scored names and repeat none. */
  lemma PicksComeFromScored(scored: seq<Scored>, slots: nat)
    requires Distinct(NamesOf(scored))
    ensures var picks := TopUp(Rank(scored), slots);
            |picks| <= slots && Distinct(picks) && forall n | n in picks :: n in NamesOf(scored)
  {
    DistinctIsKeyed(scored);
    PicksArePositive(scored, slots);
    forall n | n in TopUp(Rank(scored), slots)
      ensures n in NamesOf(scored)
    {
      var e :| e in scored && e.name == n && e.score > 0.0;
      var i :| 0 <= i < |scored| && scored[i] == e;
      assert NamesOf(scored)[i] == n;
    }
  }

  lemma SpareSplit(a: seq<Name>, b: seq<Name>, roster: seq<Name>, busy: set<Name>)
    requires Spare(a + b, roster, busy)
    ensures Spare(a, roster, busy) && Spare(b, roster, busy) && Apart(a, b)
  {
    DistinctParts(a, b);
  }

  lemma SpareJoin(a: seq<Name>, b: seq<Name>, roster: seq<Name>, busy: set<Name>)
    requires Spare(a, roster, busy) && Spare(b, roster, busy) && Apart(a, b)
    ensures Spare(a + b, roster, busy)
  {
    DistinctParts(a, b);
  }

  lemma PicksAreSpare(scored: seq<Scored>, slots: nat, roster: seq<Name>, busy: set<Name>, chosen: seq<Name>)
    requires Spare(NamesOf(scored), roster, busy) && Apart(chosen, NamesOf(scored))
    ensures var picks := TopUp(Rank(scored), slots);
            |picks| <= slots && Spare(picks, roster, busy) && Apart(chosen, picks)
  {
    PicksComeFromScored(scored, slots);
  }

  lemma ChosenAndPicks(free: nat, chosen: seq<Name>, scored: seq<Scored>, roster: seq<Name>, busy: set<Name>)
    requires |chosen| < free && Spare(chosen + NamesOf(scored), roster, busy)
    ensures var queue := chosen + TopUp(Rank(scored), free - |chosen|);
            Spare(queue, roster, busy) && |queue| <= free
  {
    SpareSplit(chosen, NamesOf(scored), roster, busy);
    PicksAreSpare(scored, free - |chosen|, roster, busy, chosen);
    SpareJoin(chosen, TopUp(Rank(scored), free - |chosen|), roster, busy);
  }

  lemma LineFits(now: real, queue: seq<Name>, free: nat, roster: seq<Name>, busy: set<Name>)
    requires Spare(queue, roster, busy) && |queue| <= free
    ensures FitPhase(Line(now, queue), free, roster, busy)
  {
  }

  /** The decision: the override first, then the best of the scored, within the slots. */
  lemma DecideIsSafe(now: real, free: nat, chosen: seq<Name>, pending: seq<Name>, scored: seq<Scored>,
                     roster: seq<Name>, busy: set<Name>)
    requires |chosen| < free && Spare(chosen + pending + NamesOf(scored), roster, busy)
    ensures FitPhase(Decide(now, free, chosen, pending, scored), free, roster, busy)
  {
    if pending == [] {
      assert chosen + pending + NamesOf(scored) == chosen + NamesOf(scored);
      ChosenAndPicks(free, chosen, scored, roster, busy);
      LineFits(now, chosen + TopUp(Rank(scored), free - |chosen|), free, roster, busy);
    }
  }

  /** A phase that stays within its slots and names spare agents only. */
  ghost predicate FitPhase(p: Phase, free: nat, roster: seq<Name>, busy: set<Name>) {
    && Spare(Candidates(p), roster, busy) && Reserved(p) <= free
    && (p.Scoring? ==> |p.chosen| < p.free) && (p.Dispatching? ==> p.queue != [])
    && !p.AwaitingGate? && !p.AwaitingOverride?
  }

  lemma ChooseIsSafe(now: real, free: nat, override: Option<Name>, eligible: seq<Name>, roster: seq<Name>, busy: set<Name>)
    requires free >= 1 && Spare(eligible, roster, busy)
    ensures FitPhase(ChooseFrom(now, free, override, eligible), free, roster, busy)
  {
    if eligible != [] {
      if override.Some? && override.value in eligible {
        var rest := Without(eligible, override.value);
        WithoutDrops(eligible, override.value);
        if free > 1 {
          assert [override.value][..0] == [];
          SpareJoin([override.value], rest, roster, busy);
          assert [override.value] + rest + NamesOf([]) == [override.value] + rest;
          DecideIsSafe(now, free, [override.value], rest, [], roster, busy);
        }
      } else {
        assert [] + eligible + NamesOf([]) == eligible;
        DecideIsSafe(now, free, [], eligible, [], roster, busy);
      }
    }
  }

  /** A phase that stays within the slots and names only spare agents may replace another. */
  lemma PhaseKeepsInv(s: State, p: Phase, bound: nat)
    requires Inv(s, bound) && Safe(s.(phase := p))
    requires Spare(Candidates(p), s.roster, s.inFlight.Keys) && Reserved(p) <= Reserved(s.phase)
    ensures Inv(s.(phase := p), bound)
  {
  }

  lemma StartKeepsInv(s: State, now: real, bound: nat)
    requires Inv(s, bound) && s.phase.Idle?
    ensures Inv(StartTick(s, now), bound)
  {
  }

  lemma NextPhaseFits(s: State, readiness: real)
    requires Enabled(s, AgentScores(readiness)) && |s.phase.chosen| < s.phase.free
    requires Spare(Candidates(s.phase), s.roster, s.inFlight.Keys)
    ensures FitPhase(NextPhase(s, readiness), s.phase.free, s.roster, s.inFlight.Keys)
  {
    var p := s.phase;
    var score := Aged(s.horizon, readiness, Since(s, p.pending[0], p.now), p.now);
    RotateKeepsSpare(p.chosen, p.pending, p.scored, score, s.roster, s.inFlight.Keys);
    DecideIsSafe(p.now, p.free, p.chosen, p.pending[1..], p.scored + [Scored(score, p.pending[0])],
                 s.roster, s.inFlight.Keys);
  }

  /** The phases a choice leads to keep the tick's time, and nothing is stamped yet. */
  predicate SameTick(p: Phase, now: real) {
    p.Idle? || (p.now == now && (p.Dispatching? ==> !p.stamped))
  }

  lemma NextPhaseSameTick(s: State, readiness: real)
    requires Enabled(s, AgentScores(readiness)) && |s.phase.chosen| <= s.phase.free
    ensures SameTick(NextPhase(s, readiness), s.phase.now)
  {
  }

  lemma ScoreKeepsInv(s: State, readiness: real, bound: nat)
    requires Inv(s, bound) && Enabled(s, AgentScores(readiness))
    ensures Inv(Apply(s, AgentScores(readiness)), bound)
  {
    NextPhaseFits(s, readiness);
    PhaseKeepsInv(s, NextPhase(s, readiness), bound);
  }

  lemma ChoiceKeepsInv(s: State, override: Option<Name>, ready: set<Name>, bound: nat)
    requires Inv(s, bound) && s.phase.AwaitingOverride?
    ensures Inv(Apply(s, OverrideAnswers(override, ready)), bound)
  {
    var eligible := Eligible(s.roster, ready, s.inFlight.Keys);
    EligibleAreFree(s.roster, ready, s.inFlight.Keys);
    ChooseIsSafe(s.phase.now, s.phase.free, override, eligible, s.roster, s.inFlight.Keys);
    PhaseKeepsInv(s, ChooseFrom(s.phase.now, s.phase.free, override, eligible), bound);
  }

  /** Scoring an agent moves it from the pending names to the scored ones. */
  lemma RotateKeepsSpare(chosen: seq<Name>, pending: seq<Name>, scored: seq<Scored>, score: real,
                         roster: seq<Name>, busy: set<Name>)
    requires pending != [] && Spare(chosen + pending + NamesOf(scored), roster, busy)
    ensures Spare(chosen + pending[1..] + NamesOf(scored + [Scored(score, pending[0])]), roster, busy)
  {
    var n, rest, names := pending[0], pending[1..], NamesOf(scored);
    assert NamesOf(scored + [Scored(score, n)]) == names + [n];
    assert chosen + pending + names == chosen + (([n] + rest) + names);
    SpareSplit(chosen, ([n] + rest) + names, roster, busy);
    assert ([n] + rest) + names == [n] + (rest + names);
    SpareSplit([n], rest + names, roster, busy);
    SpareJoin(rest + names, [n], roster, busy);
    SpareJoin(chosen, (rest + names) + [n], roster, busy);
    assert chosen + ((rest + names) + [n]) == chosen + rest + (names + [n]);
  }

  lemma QueueMovesOn(queue: seq<Name>, roster: seq<Name>, busy: set<Name>)
    requires queue != [] && Spare(queue, roster, busy)
    ensures Spare(queue[1..], roster, busy) && queue[0] in roster && queue[0] !in busy && queue[0] !in queue[1..]
  {
    assert queue == [queue[0]] + queue[1..];
    SpareSplit([queue[0]], queue[1..], roster, busy);
  }

  lemma CreateMarks(inFlight: map<Name, Stage>, awaitingPool: set<Name>, roster: seq<Name>, n: Name)
    requires OnRoster(inFlight, roster) && Marked(inFlight, awaitingPool) && n in roster && n !in inFlight
    ensures OnRoster(inFlight[n := Created], roster) && Marked(inFlight[n := Created], awaitingPool)
    ensures |inFlight[n := Created]| == |inFlight| + 1
    ensures inFlight[n := Created].Keys == inFlight.Keys + {n}
  {
    assert inFlight[n := Created].Keys == inFlight.Keys + {n};
  }

  lemma StillSpare(names: seq<Name>, roster: seq<Name>, busy: set<Name>, n: Name)
    requires Spare(names, roster, busy) && n !in names
    ensures Spare(names, roster, busy + {n})
  {
  }

  /** A run may be put in flight for a spare agent that is no longer in line, if a slot is left. */
  lemma CreateKeepsInv(s: State, n: Name, bound: nat)
    requires Inv(s, bound) && |s.inFlight| + Reserved(s.phase) + 1 <= bound
    requires n in s.roster && n !in s.inFlight && n !in Candidates(s.phase)
    ensures Inv(s.(inFlight := s.inFlight[n := Created]), bound)
  {
    CreateMarks(s.inFlight, s.awaitingPool, s.roster, n);
    StillSpare(Candidates(s.phase), s.roster, s.inFlight.Keys, n);
  }

  lemma LaunchKeepsInv(s: State, bound: nat)
    requires Inv(s, bound) && Enabled(s, Launches)
    ensures Inv(Apply(s, Launches), bound)
  {
    var rest := Line(s.phase.now, s.phase.queue[1..]);
    QueueMovesOn(s.phase.queue, s.roster, s.inFlight.Keys);
    PhaseKeepsInv(s, rest, bound);
    CreateKeepsInv(s.(phase := rest), s.phase.queue[0], bound);
  }

  lemma StageMarks(inFlight: map<Name, Stage>, awaitingPool: set<Name>, roster: seq<Name>, n: Name, stage: Stage)
    requires OnRoster(inFlight, roster) && Marked(inFlight, awaitingPool) && n in inFlight
    ensures OnRoster(inFlight[n := stage], roster)
    ensures Marked(inFlight[n := stage], if stage.Queued? then awaitingPool + {n} else awaitingPool - {n})
    ensures inFlight[n := stage].Keys == inFlight.Keys && |inFlight[n := stage]| == |inFlight|
  {
    assert inFlight[n := stage].Keys == inFlight.Keys;
  }

  lemma StageKeepsInv(s: State, n: Name, stage: Stage, bound: nat)
    requires Inv(s, bound) && n in s.inFlight
    ensures Inv(s.(inFlight := s.inFlight[n := stage],
                   awaitingPool := if stage.Queued? then s.awaitingPool + {n} else s.awaitingPool - {n}), bound)
  {
    StageMarks(s.inFlight, s.awaitingPool, s.roster, n, stage);
  }

  lemma EndMarks(inFlight: map<Name, Stage>, awaitingPool: set<Name>, roster: seq<Name>, n: Name)
    requires OnRoster(inFlight, roster) && Marked(inFlight, awaitingPool) && n in inFlight
    ensures OnRoster(inFlight - {n}, roster) && Marked(inFlight - {n}, awaitingPool - {n})
    ensures (inFlight - {n}).Keys == inFlight.Keys - {n} && |inFlight - {n}| == |inFlight| - 1
  {
    assert (inFlight - {n}).Keys == inFlight.Keys - {n};
  }

  lemma EndKeepsInv(s: State, n: Name, bound: nat)
    requires Inv(s, bound) && n in s.inFlight && !s.inFlight[n].Created?
    ensures Inv(Apply(s, RunEnds(n)), bound)
  {
    EndMarks(s.inFlight, s.awaitingPool, s.roster, n);
  }

  lemma BeginKeepsInv(s: State, n: Name, bound: nat)
    requires Inv(s, bound) && n in s.inFlight && s.inFlight[n].Created?
    ensures Inv(Apply(s, RunStarts(n)), bound)
  {
    StageKeepsInv(s, n, if s.pooled then Queued else Executing, bound);
    assert n !in s.awaitingPool;
    assert s.awaitingPool - {n} == s.awaitingPool;
  }

  predicate Legal(s: State, steps: seq<Step>)
    decreases |steps|
  {
    steps == [] || (Safe(s) && Enabled(s, steps[0]) && Legal(Apply(s, steps[0]), steps[1..]))
  }

  function Run(s: State, steps: seq<Step>): State
    requires Legal(s, steps)
    decreases |steps|
  {
    if steps == [] then s else Run(Apply(s, steps[0]), steps[1..])
  }

  ghost predicate CapsWithin(steps: seq<Step>, bound: nat) {
    forall step | step in steps && step.CapChanges? :: step.cap <= bound
  }

  lemma StepKeepsInv(s: State, step: Step, bound: nat)
    requires Inv(s, bound) && Enabled(s, step)
    requires step.CapChanges? ==> step.cap <= bound
    ensures Inv(Apply(s, step), bound)
  {
    match step
    case Stamps => PhaseKeepsInv(s, s.phase.(stamped := true), bound);
    case Launches => LaunchKeepsInv(s, bound);
    case TickStarts(now) => StartKeepsInv(s, now, bound);
    case GateAnswers(open) =>
      PhaseKeepsInv(s, if open then AwaitingOverride(s.phase.now, s.phase.free) else Idle, bound);
    case OverrideAnswers(override, ready) => ChoiceKeepsInv(s, override, ready, bound);
    case AgentScores(readiness) => ScoreKeepsInv(s, readiness, bound);
    case TickAborts => PhaseKeepsInv(s, Idle, bound);
    case RunStarts(n) => BeginKeepsInv(s, n, bound);
    case PermitGranted(n) => StageKeepsInv(s, n, Executing, bound);
    case RunEnds(n) => EndKeepsInv(s, n, bound);
    case CapChanges(_) =>
  }

  /** Over every interleaving: never more runs than the largest cap there has been, no
      agent in flight twice, and the pool's waiting list always accurate. */
  lemma {:induction false} DispatchIsSafe(s: State, steps: seq<Step>, bound: nat)
    requires Inv(s, bound) && Legal(s, steps) && CapsWithin(steps, bound)
    ensures Inv(Run(s, steps), bound)
    decreases |steps|
  {
    if steps != [] {
      StepKeepsInv(s, steps[0], bound);
      assert forall step | step in steps[1..] :: step in steps;
      DispatchIsSafe(Apply(s, steps[0]), steps[1..], bound);
    }
  }

  /** From a fresh scheduler: the status rows "running" and "waiting on pool" split the
      in-flight runs between them at every await. */
  lemma StatusPartitions(roster: seq<Name>, horizon: real, pooled: bool, cap: int, steps: seq<Step>, bound: nat)
    requires Distinct(roster) && cap <= bound
    requires Legal(Fresh(roster, horizon, pooled, cap), steps) && CapsWithin(steps, bound)
    ensures var s := Run(Fresh(roster, horizon, pooled, cap), steps);
            && |s.inFlight| <= bound
            && s.awaitingPool <= s.inFlight.Keys
            && (forall n | n in s.inFlight :: n in s.awaitingPool <==> s.inFlight[n].Queued?)
  {
    DispatchIsSafe(Fresh(roster, horizon, pooled, cap), steps, bound);
  }

  function Endings(steps: seq<Step>, n: Name): nat {
    if steps == [] then 0 else (if steps[0] == RunEnds(n) then 1 else 0) + Endings(steps[1..], n)
  }

  function RunsOf(s: State, n: Name): nat {
    if n in s.runCount then s.runCount[n] else 0
  }

  lemma StepCountsRuns(s: State, step: Step, n: Name)
    requires Safe(s) && Enabled(s, step)
    ensures RunsOf(Apply(s, step), n) == RunsOf(s, n) + if step == RunEnds(n) then 1 else 0
  {
  }

  /** The run count an agent reports is the number of its runs that have ended, in whatever way. */
  lemma {:induction false} RunCountIsExact(s: State, steps: seq<Step>, n: Name)
    requires Legal(s, steps)
    ensures RunsOf(Run(s, steps), n) == RunsOf(s, n) + Endings(steps, n)
    decreases |steps|
  {
    if steps != [] {
      StepCountsRuns(s, steps[0], n);
      RunCountIsExact(Apply(s, steps[0]), steps[1..], n);
    }
  }

  lemma NotPickedUnlessPositive(scored: seq<Scored>, e: Scored, slots: nat)
    requires Distinct(NamesOf(scored)) && e in scored && e.score <= 0.0
    ensures e.name !in TopUp(Rank(scored), slots)
  {
    DistinctIsKeyed(scored);
    PicksArePositive(scored, slots);
    assert forall x | x in scored && x.name == e.name :: x == e;
  }

  /** A phase that will dispatch `n` before anybody else. */
  predicate First(p: Phase, n: Name) {
    (p.Dispatching? && p.queue != [] && p.queue[0] == n) || (p.Scoring? && p.chosen == [n] && n !in p.pending)
  }

  /** An eligible override takes the first slot, whatever it would score. */
  lemma OverrideGoesFirst(now: real, free: nat, override: Name, eligible: seq<Name>)
    requires free >= 1 && Distinct(eligible) && override in eligible
    ensures First(ChooseFrom(now, free, Some(override), eligible), override)
  {
    WithoutDrops(eligible, override);
  }

  /** No answer of the gate in these steps is "open". */
  predicate GateShut(steps: seq<Step>) {
    forall step | step in steps && step.GateAnswers? :: !step.open
  }

  /** While the gate stays closed nobody is dispatched, overrides included, and the runs in
      flight go on. */
  lemma {:induction false} ClosedGateHoldsAll(s: State, steps: seq<Step>)
    requires (s.phase.Idle? || s.phase.AwaitingGate?) && Legal(s, steps) && GateShut(steps)
    ensures Run(s, steps).inFlight.Keys <= s.inFlight.Keys
    ensures Run(s, steps).lastDispatch == s.lastDispatch
    decreases |steps|
  {
    if steps != [] {
      var s' := Apply(s, steps[0]);
      assert steps[0] in steps && forall step | step in steps[1..] :: step in steps;
      ClosedGateStep(s, steps[0]);
      ClosedGateHoldsAll(s', steps[1..]);
    }
  }

  lemma ClosedGateStep(s: State, step: Step)
    requires (s.phase.Idle? || s.phase.AwaitingGate?) && Safe(s) && Enabled(s, step)
    requires step.GateAnswers? ==> !step.open
    ensures var s' := Apply(s, step);
            && (s'.phase.Idle? || s'.phase.AwaitingGate?)
            && s'.inFlight.Keys <= s.inFlight.Keys && s'.lastDispatch == s.lastDispatch
  {
    match step
    case RunStarts(n) => assert s.inFlight[n := if s.pooled then Queued else Executing].Keys == s.inFlight.Keys;
    case PermitGranted(n) => assert s.inFlight[n := Executing].Keys == s.inFlight.Keys;
    case RunEnds(n) => assert (s.inFlight - {n}).Keys <= s.inFlight.Keys;
    case _ =>
  }

  /** The loop that spends the free slots on a ranked list. */
  method FillSlots(chosen: seq<Name>, ranked: seq<Scored>, free: nat) returns (toDispatch: seq<Name>)
    requires |chosen| <= free
    ensures toDispatch == chosen + TopUp(ranked, free - |chosen|)
  {
    toDispatch := chosen;
    var i := 0;
    while i < |ranked|
      invariant 0 <= i <= |ranked| && |toDispatch| <= free
      invariant toDispatch + TopUp(ranked[i..], free - |toDispatch|) == chosen + TopUp(ranked, free - |chosen|)
    {
      if |toDispatch| >= free {
        assert TopUp(ranked[i..], 0) == [];
        return;
      }
      assert ranked[i..][1..] == ranked[i + 1..];
      if ranked[i].score > 0.0 {
        var n := ranked[i].name;
        assert toDispatch + ([n] + TopUp(ranked[i + 1..], free - |toDispatch| - 1))
            == (toDispatch + [n]) + TopUp(ranked[i + 1..], free - |toDispatch| - 1);
        toDispatch := toDispatch + [n];
      }
      i := i + 1;
    }
    assert ranked[i..] == [];
  }

  /** The scheduler object; `phase` holds the locals of the tick that is suspended. */
  class Scheduler {
    const roster: seq<Name>
    const horizon: real
    const pooled: bool
    var cap: int
    var startedAt: Option<real>
    var inFlight: map<Name, Stage>
    var awaitingPool: set<Name>
    var lastDispatch: map<Name, real>
    var runCount: map<Name, nat>
    var phase: Phase
    ghost var most: nat   // the largest cap so far

    constructor (roster: seq<Name>, horizon: real, pooled: bool, cap: int)
      requires Distinct(roster)
      ensures Valid() && Now() == Fresh(roster, horizon, pooled, cap)
    {
      most := if cap > 0 then cap else 0;
      this.roster, this.horizon, this.pooled, this.cap := roster, horizon, pooled, cap;
      startedAt, inFlight, awaitingPool, lastDispatch, runCount, phase := None, map[], {}, map[], map[], Idle;
    }

    function Now(): State
      reads this
    {
      State(roster, horizon, pooled, cap, startedAt, inFlight, awaitingPool, lastDispatch, runCount, phase)
    }

    ghost predicate Valid()
      reads this
    {
      Inv(Now(), most)
    }

    method StartTicking(now: real)
      requires Valid() && Enabled(Now(), TickStarts(now))
      modifies this
      ensures Valid() && Now() == Apply(old(Now()), TickStarts(now)) && most == old(most)
    {
      StepKeepsInv(Now(), TickStarts(now), most);
      CountSlots(now);
    }

    method CountSlots(now: real)
      requires Safe(Now()) && Enabled(Now(), TickStarts(now))
      modifies this
      ensures Now() == Apply(old(Now()), TickStarts(now)) && most == old(most)
    {
      if startedAt.None? {
        startedAt := Some(now);
      }
      var free := cap - |inFlight|;
      if free <= 0 {
        return;
      }
      phase := AwaitingGate(now, free);
    }

    method HearGate(open: bool)
      requires Valid() && Enabled(Now(), GateAnswers(open))
      modifies this
      ensures Valid() && Now() == Apply(old(Now()), GateAnswers(open)) && most == old(most)
    {
      StepKeepsInv(Now(), GateAnswers(open), most);
      phase := if open then AwaitingOverride(phase.now, phase.free) else Idle;
    }

    method HearOverride(override: Option<Name>, ready: set<Name>)
      requires Valid() && Enabled(Now(), OverrideAnswers(override, ready))
      modifies this
      ensures Valid() && Now() == Apply(old(Now()), OverrideAnswers(override, ready)) && most == old(most)
    {
      StepKeepsInv(Now(), OverrideAnswers(override, ready), most);
      Choose(override, ready);
    }

    /** The eligible agents, the override first. */
    method Choose(override: Option<Name>, ready: set<Name>)
      requires Safe(Now()) && Enabled(Now(), OverrideAnswers(override, ready))
      modifies this
      ensures Now() == Apply(old(Now()), OverrideAnswers(override, ready)) && most == old(most)
    {
      var eligible := [];
      for i := 0 to |roster|
        invariant Now() == old(Now())
        invariant eligible == Eligible(roster[..i], ready, inFlight.Keys)
      {
        assert roster[..i + 1][..i] == roster[..i];
        if roster[i] in ready && roster[i] !in inFlight {
          eligible := eligible + [roster[i]];
        }
      }
      assert roster[..|roster|] == roster;
      if eligible == [] {
        phase := Idle;
        return;
      }
      var toDispatch := [];
      if override.Some? && override.value in eligible {
        toDispatch := [override.value];
        var rest := [];
        for i := 0 to |eligible|
          invariant Now() == old(Now())
          invariant rest == Without(eligible[..i], override.value)
        {
          assert eligible[..i + 1][..i] == eligible[..i];
          if eligible[i] != override.value {
            rest := rest + [eligible[i]];
          }
        }
        assert eligible[..|eligible|] == eligible;
        eligible := rest;
      }
      if |toDispatch| < phase.free {
        AskOrDecide(phase.now, phase.free, toDispatch, eligible, []);
      } else {
        phase := Line(phase.now, toDispatch);
      }
    }

    method HearScore(readiness: real)
      requires Valid() && Enabled(Now(), AgentScores(readiness))
      modifies this
      ensures Valid() && Now() == Apply(old(Now()), AgentScores(readiness)) && most == old(most)
    {
      StepKeepsInv(Now(), AgentScores(readiness), most);
      AddScore(readiness);
    }

    method AddScore(readiness: real)
      requires Safe(Now()) && Enabled(Now(), AgentScores(readiness))
      modifies this
      ensures Now() == Apply(old(Now()), AgentScores(readiness)) && most == old(most)
    {
      var n := phase.pending[0];
      var score := Aged(horizon, readiness, Since(Now(), n, phase.now), phase.now);
      AskOrDecide(phase.now, phase.free, phase.chosen, phase.pending[1..], phase.scored + [Scored(score, n)]);
    }

    /** Suspends for the next score, or sorts the scores and fills the slots. */
    method AskOrDecide(now: real, free: nat, chosen: seq<Name>, pending: seq<Name>, scored: seq<Scored>)
      requires |chosen| < free
      modifies this
      ensures Now() == old(Now()).(phase := Decide(now, free, chosen, pending, scored)) && most == old(most)
    {
      if pending != [] {
        phase := Scoring(now, free, chosen, pending, scored);
        return;
      }
      var toDispatch := FillSlots(chosen, Rank(scored), free);
      phase := Line(now, toDispatch);
    }

    method Stamp()
      requires Valid() && Enabled(Now(), Stamps)
      modifies this
      ensures Valid() && Now() == Apply(old(Now()), Stamps) && most == old(most)
    {
      StepKeepsInv(Now(), Stamps, most);
      lastDispatch := lastDispatch[phase.queue[0] := phase.now];
      phase := phase.(stamped := true);
    }

    method Launch()
      requires Valid() && Enabled(Now(), Launches)
      modifies this
      ensures Valid() && Now() == Apply(old(Now()), Launches) && most == old(most)
    {
      StepKeepsInv(Now(), Launches, most);
      inFlight := inFlight[phase.queue[0] := Created];
      phase := Line(phase.now, phase.queue[1..]);
    }

    method BeginRun(n: Name)
      requires Valid() && Enabled(Now(), RunStarts(n))
      modifies this
      ensures Valid() && Now() == Apply(old(Now()), RunStarts(n)) && most == old(most)
    {
      StepKeepsInv(Now(), RunStarts(n), most);
      MarkBegun(n);
    }

    method MarkBegun(n: Name)
      requires Safe(Now()) && Enabled(Now(), RunStarts(n))
      modifies this
      ensures Now() == Apply(old(Now()), RunStarts(n)) && most == old(most)
    {
      if pooled {
        awaitingPool := awaitingPool + {n};
        inFlight := inFlight[n := Queued];
      } else {
        inFlight := inFlight[n := Executing];
      }
    }

    method TakePermit(n: Name)
      requires Valid() && Enabled(Now(), PermitGranted(n))
      modifies this
      ensures Valid() && Now() == Apply(old(Now()), PermitGranted(n)) && most == old(most)
    {
      StepKeepsInv(Now(), PermitGranted(n), most);
      awaitingPool := awaitingPool - {n};
      inFlight := inFlight[n := Executing];
    }

    method EndRun(n: Name)
      requires Valid() && Enabled(Now(), RunEnds(n))
      modifies this
      ensures Valid() && Now() == Apply(old(Now()), RunEnds(n)) && most == old(most)
    {
      StepKeepsInv(Now(), RunEnds(n), most);
      Forget(n);
    }

    /** The `finally` of a run. */
    method Forget(n: Name)
      requires Safe(Now()) && Enabled(Now(), RunEnds(n))
      modifies this
      ensures Now() == Apply(old(Now()), RunEnds(n)) && most == old(most)
    {
      inFlight := inFlight - {n};
      awaitingPool := awaitingPool - {n};
      runCount := runCount[n := (if n in runCount then runCount[n] else 0) + 1];
    }

    /** A tick is given up where it stands. */
    method Abort()
      requires Valid() && Enabled(Now(), TickAborts)
      modifies this
      ensures Valid() && Now() == Apply(old(Now()), TickAborts) && most == old(most)
    {
      StepKeepsInv(Now(), TickAborts, most);
      phase := Idle;
    }

    /** A live change of the cap. */
    method SetCap(value: int)
      requires Valid()
      modifies this
      ensures Valid() && Now() == Apply(old(Now()), CapChanges(value))
      ensures most == if value > old(most) then value else old(most)
    {
      cap := value;
      most := if value > most then value else most;
    }
  }
}
