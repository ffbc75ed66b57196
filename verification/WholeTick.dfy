/** A tick from its start to its last launch (agent_kit/scheduler.py:162-250), in any company
    of runs that start, get their permit or end, and of cap changes. */
module WholeTick {
  import opened Options
  import opened Ranking
  import opened Scheduling
  import opened Tick

  /** What may happen beside a tick. */
  predicate Aside(step: Step) {
    step.RunStarts? || step.PermitGranted? || step.RunEnds? || step.CapChanges?
  }

  predicate Company(steps: seq<Step>) {
    steps == [] || (Aside(steps[0]) && Company(steps[1..]))
  }

  /** The agents whose run ends in a stretch. */
  function EndedIn(steps: seq<Step>): set<Name> {
    if steps == [] then {} else Gone(steps[0]) + EndedIn(steps[1..])
  }

  function Gone(step: Step): set<Name> {
    if step.RunEnds? then {step.name} else {}
  }

  ghost predicate Does(s: State, step: Step, s': State) {
    Safe(s) && Enabled(s, step) && s' == Apply(s, step)
  }

  ghost predicate Reaches(s: State, steps: seq<Step>, s': State) {
    Legal(s, steps) && s' == Run(s, steps)
  }

  /** Nobody has been put in flight, and nothing was stamped: only the runs that ended are gone. */
  ghost predicate OnlyEnded(s: State, s': State, ended: set<Name>) {
    && s'.inFlight.Keys == s.inFlight.Keys - ended
    && s'.roster == s.roster && SameClock(s, s')
  }

  lemma OnlyEndedTwice(a: State, b: State, c: State, first: set<Name>, second: set<Name>)
    requires OnlyEnded(a, b, first) && OnlyEnded(b, c, second)
    ensures OnlyEnded(a, c, first + second)
  {
  }

  lemma AsideStep(s: State, step: Step)
    requires Safe(s) && Enabled(s, step) && Aside(step)
    ensures var s' := Apply(s, step);
            s'.phase == s.phase && OnlyEnded(s, s', Gone(step))
  {
    match step
    case RunStarts(n) => assert s.inFlight[n := if s.pooled then Queued else Executing].Keys == s.inFlight.Keys;
    case PermitGranted(n) => assert s.inFlight[n := Executing].Keys == s.inFlight.Keys;
    case RunEnds(n) => assert (s.inFlight - {n}).Keys == s.inFlight.Keys - {n};
    case CapChanges(_) =>
  }

  lemma {:induction false} CompanyPasses(s: State, steps: seq<Step>)
    requires Safe(s) && Legal(s, steps) && Company(steps)
    ensures Run(s, steps).phase == s.phase && OnlyEnded(s, Run(s, steps), EndedIn(steps))
    decreases |steps|
  {
    if steps != [] {
      AsideStep(s, steps[0]);
      CompanyPasses(Apply(s, steps[0]), steps[1..]);
      OnlyEndedTwice(s, Apply(s, steps[0]), Run(s, steps), Gone(steps[0]), EndedIn(steps[1..]));
    }
  }

  // The gate.

  /** From the clock reading to the gate's answer, and on to the override question. */
  ghost predicate Opens(s: State, now: real, before: seq<Step>, between: seq<Step>, s': State) {
    exists a, b, c :: Does(s, TickStarts(now), a) && Reaches(a, before, b) && Does(b, GateAnswers(true), c) && Reaches(c, between, s')
  }

  function Free(s: State): int {
    s.cap - |s.inFlight|
  }

  function Begun(s: State, now: real): State {
    s.(startedAt := if s.startedAt.None? then Some(now) else s.startedAt)
  }

  lemma TickBegins(s: State, now: real)
    requires s.phase.Idle? && Free(s) >= 1
    ensures Apply(s, TickStarts(now)) == Begun(s, now).(phase := AwaitingGate(now, Free(s)))
  {
  }

  lemma GateAnswered(s: State, now: real, free: nat)
    requires Safe(s) && s.phase == AwaitingGate(now, free)
    ensures Apply(s, GateAnswers(true)).phase == AwaitingOverride(now, free)
    ensures OnlyEnded(s, Apply(s, GateAnswers(true)), {})
  {
  }

  /** A tick that finds a slot free and the gate open gets to the override question with all the
      slots that were free when it started; only a scheduler's first tick sets its start. */
  lemma {:induction false} GateOpens(s: State, now: real, before: seq<Step>, between: seq<Step>, s': State)
    requires s.phase.Idle? && Free(s) >= 1
    requires Opens(s, now, before, between, s') && Company(before) && Company(between)
    ensures s'.phase == AwaitingOverride(now, Free(s)) && OnlyEnded(Begun(s, now), s', EndedIn(before) + EndedIn(between))
  {
    var a, b, c :| Does(s, TickStarts(now), a) && Reaches(a, before, b) && Does(b, GateAnswers(true), c) && Reaches(c, between, s');
    TickBegins(s, now);
    CompanyPasses(a, before);
    GateAnswered(b, now, Free(s));
    CompanyPasses(c, between);
    OnlyEndedTwice(Begun(s, now), b, c, EndedIn(before), {});
    OnlyEndedTwice(Begun(s, now), c, s', EndedIn(before), EndedIn(between));
  }

  /** With no slot free, a gate that answers shut, or a provider or readiness that raises, a tick
      is over at once and changes nothing but the scheduler's start. */
  lemma NothingToDo(s: State, now: real)
    requires Safe(s)
    ensures s.phase.Idle? && Free(s) <= 0 ==> Apply(s, TickStarts(now)) == Begun(s, now)
    ensures s.phase.AwaitingGate? ==> Apply(s, GateAnswers(false)) == s.(phase := Idle)
    ensures s.phase.AwaitingOverride? || s.phase.Scoring? ==> Apply(s, TickAborts) == s.(phase := Idle)
  {
  }

  // Where a wait is counted from.

  /** The time of the first tick. */
  function FirstTick(steps: seq<Step>): Option<real> {
    if steps == [] then None
    else if FirstTick(steps[..|steps| - 1]).Some? then FirstTick(steps[..|steps| - 1])
    else if steps[|steps| - 1].TickStarts? then Some(steps[|steps| - 1].now)
    else None
  }

  lemma StartStep(s: State, step: Step)
    requires Safe(s) && Enabled(s, step)
    ensures Apply(s, step).startedAt == if s.startedAt.None? && step.TickStarts? then Some(step.now) else s.startedAt
  {
  }

  lemma {:induction false} LastRun(s: State, steps: seq<Step>)
    requires steps != [] && Legal(s, steps)
    ensures var front := steps[..|steps| - 1];
            Legal(s, front) && Does(Run(s, front), steps[|steps| - 1], Run(s, steps))
    decreases |steps|
  {
    var front := steps[..|steps| - 1];
    if front == [] {
      assert steps[1..] == [];
    } else {
      LastRun(Apply(s, steps[0]), steps[1..]);
      assert steps[1..][..|steps| - 2] == front[1..];
    }
  }

  /** Before its first dispatch an agent's wait is counted from the scheduler's first tick. */
  lemma {:induction false} WaitsFromTheFirstTick(roster: seq<Name>, horizon: real, pooled: bool, cap: int, steps: seq<Step>)
    requires Legal(Fresh(roster, horizon, pooled, cap), steps)
    ensures var s := Run(Fresh(roster, horizon, pooled, cap), steps);
            && s.startedAt == FirstTick(steps)
            && forall n, now | n !in s.lastDispatch && FirstTick(steps).Some? :: Since(s, n, now) == FirstTick(steps).value
  {
    if steps != [] {
      LastRun(Fresh(roster, horizon, pooled, cap), steps);
      WaitsFromTheFirstTick(roster, horizon, pooled, cap, steps[..|steps| - 1]);
      StartStep(Run(Fresh(roster, horizon, pooled, cap), steps[..|steps| - 1]), steps[|steps| - 1]);
    }
  }

  // A run's stages, and the cap.

  /** The last cap set, or `cap` if none was. */
  function CapAfter(cap: int, steps: seq<Step>): int
    decreases |steps|
  {
    if steps == [] then cap else CapAfter(if steps[0].CapChanges? then steps[0].cap else cap, steps[1..])
  }

  lemma CapStep(s: State, step: Step)
    requires Safe(s) && Enabled(s, step)
    ensures Apply(s, step).cap == if step.CapChanges? then step.cap else s.cap
    ensures Apply(s, step).pooled == s.pooled && Apply(s, step).roster == s.roster && Apply(s, step).horizon == s.horizon
  {
  }

  /** The cap in force is the last one set. */
  lemma {:induction false} CapIsTheLast(s: State, steps: seq<Step>)
    requires Legal(s, steps)
    ensures Run(s, steps).cap == CapAfter(s.cap, steps)
    decreases |steps|
  {
    if steps != [] {
      CapStep(s, steps[0]);
      CapIsTheLast(Apply(s, steps[0]), steps[1..]);
    }
  }

  /** Where a run stands after a step that does not end it. */
  function Onward(stage: Stage, pooled: bool, n: Name, step: Step): Stage {
    if step == RunStarts(n) then if pooled then Queued else Executing
    else if step == PermitGranted(n) then Executing
    else stage
  }

  function StageAfter(stage: Stage, pooled: bool, n: Name, steps: seq<Step>): Stage
    decreases |steps|
  {
    if steps == [] then stage else StageAfter(Onward(stage, pooled, n, steps[0]), pooled, n, steps[1..])
  }

  lemma StageStep(s: State, step: Step, n: Name)
    requires Safe(s) && Enabled(s, step) && n in s.inFlight && step != RunEnds(n) && n !in QueueOf(s.phase)
    ensures var s' := Apply(s, step); n in s'.inFlight && s'.inFlight[n] == Onward(s.inFlight[n], s.pooled, n, step)
  {
  }

  /** From its launch to its end a run is waiting to begin, then, under a pool, queued until its
      permit comes, then at work; nothing that happens to others moves it. */
  lemma {:induction false} StagesAreTold(s: State, steps: seq<Step>, n: Name, bound: nat)
    requires Inv(s, bound) && Legal(s, steps) && CapsWithin(steps, bound) && n in s.inFlight && RunEnds(n) !in steps
    ensures var s' := Run(s, steps);
            n in s'.inFlight && s'.inFlight[n] == StageAfter(s.inFlight[n], s.pooled, n, steps)
    decreases |steps|
  {
    if steps != [] {
      StepKeepsInv(s, steps[0], bound);
      StageStep(s, steps[0], n);
      CapStep(s, steps[0]);
      assert forall step | step in steps[1..] :: step in steps;
      StagesAreTold(Apply(s, steps[0]), steps[1..], n, bound);
    }
  }

  // The questions.

  lemma OnlyEndedStill(s: State)
    ensures OnlyEnded(s, s, {})
  {
  }

  lemma AskedStep(s: State, step: Step)
    requires Safe(s) && s.phase.Scoring? && Enabled(s, step) && !step.TickAborts?
    ensures OnlyEnded(s, Apply(s, step), Gone(step))
  {
    if !step.AgentScores? {
      AsideStep(s, step);
    }
  }

  lemma AskedMoves(s: State, step: Step)
    requires Safe(s) && s.phase.Scoring? && Enabled(s, step) && !step.TickAborts?
    ensures var p, p' := s.phase, Apply(s, step).phase;
            if !step.AgentScores? then p' == p
            else p.pending[1..] != [] ==> p'.Scoring? && p'.pending == p.pending[1..]
  {
    if step.AgentScores? {
      ReadingCounts(s, step.readiness);
    } else {
      OthersDoNotReach(s, step);
    }
  }

  lemma {:induction false} AsksPass(s: State, steps: seq<Step>)
    requires Safe(s) && Legal(s, steps)
    requires s.phase.Scoring? && s.phase.pending != [] && Asks(steps, |s.phase.pending|)
    ensures OnlyEnded(s, Run(s, steps), EndedIn(steps))
    decreases |steps|
  {
    var step, rest := steps[0], steps[1..];
    var s' := Apply(s, step);
    AskedStep(s, step);
    AskedMoves(s, step);
    if rest == [] {
      OnlyEndedStill(s');
    } else {
      AsksPass(s', rest);
    }
    OnlyEndedTwice(s, s', Run(s', rest), Gone(step), EndedIn(rest));
  }

  // The launches.

  /** The stretch holds `missing` launches and ends with the last. */
  predicate Sends(steps: seq<Step>, missing: nat) {
    if missing == 0 then steps == []
    else steps != [] && Sends(steps[1..], if steps[0].Launches? then missing - 1 else missing)
  }

  /** What launching `queue` makes of a state; `stamping` are those not stamped before. */
  ghost predicate Sent(s: State, s': State, queue: seq<Name>, stamping: seq<Name>, now: real, ended: set<Name>) {
    && s'.phase.Idle?
    && (forall n :: n in s'.inFlight <==> (n in s.inFlight || n in queue) && n !in ended)
    && (forall n :: n in s'.lastDispatch <==> n in s.lastDispatch || n in stamping)
    && (forall n | n in s'.lastDispatch ::
          s'.lastDispatch[n] == if n in stamping then now else s.lastDispatch[n])
  }

  function Unstamped(p: Phase): seq<Name>
    requires p.Dispatching? && p.queue != []
  {
    if p.stamped then p.queue[1..] else p.queue
  }

  lemma SentAside(s: State, s1: State, s': State, queue: seq<Name>, stamping: seq<Name>, now: real, gone: set<Name>, ended: set<Name>)
    requires OnlyEnded(s, s1, gone) && Sent(s1, s', queue, stamping, now, ended)
    requires (forall n | n in queue :: n !in s.inFlight) && gone <= s.inFlight.Keys
    ensures Sent(s, s', queue, stamping, now, gone + ended)
  {
  }

  lemma SentStamped(s: State, s': State, now: real, ended: set<Name>)
    requires Safe(s) && Enabled(s, Stamps) && now == s.phase.now && Distinct(s.phase.queue)
    requires Sent(Apply(s, Stamps), s', s.phase.queue, s.phase.queue[1..], now, ended)
    ensures Sent(s, s', s.phase.queue, s.phase.queue, now, ended)
  {
    var queue := s.phase.queue;
    assert queue == [queue[0]] + queue[1..];
    DistinctParts([queue[0]], queue[1..]);
  }

  lemma SentLaunched(s: State, s': State, now: real, ended: set<Name>)
    requires Safe(s) && Enabled(s, Launches)
    requires Sent(Apply(s, Launches), s', s.phase.queue[1..], s.phase.queue[1..], now, ended)
    ensures Sent(s, s', s.phase.queue, s.phase.queue[1..], now, ended)
  {
    var queue := s.phase.queue;
    assert queue == [queue[0]] + queue[1..];
  }

  /** Nobody in line is in flight, and nobody is in line twice. */
  ghost predicate Lined(s: State) {
    s.phase.Dispatching? ==> Distinct(s.phase.queue) && forall n | n in s.phase.queue :: n !in s.inFlight
  }

  lemma LaunchKeepsLine(s: State)
    requires Safe(s) && Lined(s) && Enabled(s, Launches)
    ensures Lined(Apply(s, Launches))
  {
    var queue := s.phase.queue;
    assert queue == [queue[0]] + queue[1..];
    DistinctParts([queue[0]], queue[1..]);
  }

  lemma NobodyLeft(s: State, now: real)
    requires s.phase.Idle?
    ensures Sent(s, s, [], [], now, {})
  {
  }

  /** What a state with agents in line promises of every stretch that launches them all. */
  ghost predicate Delivers(s: State, s': State, ended: set<Name>) {
    if s.phase.Dispatching? then s.phase.queue != [] && Sent(s, s', s.phase.queue, Unstamped(s.phase), s.phase.now, ended)
    else s.phase.Idle? && s' == s && ended == {}
  }

  lemma SendsStamp(s: State, s': State, ended: set<Name>)
    requires Safe(s) && Lined(s) && Enabled(s, Stamps) && Delivers(Apply(s, Stamps), s', ended)
    ensures Delivers(s, s', ended)
  {
    SentStamped(s, s', s.phase.now, ended);
  }

  lemma SendsLaunch(s: State, s': State, ended: set<Name>)
    requires Safe(s) && Lined(s) && Enabled(s, Launches) && Delivers(Apply(s, Launches), s', ended)
    ensures Delivers(s, s', ended)
  {
    if s.phase.queue[1..] == [] {
      NobodyLeft(s', s.phase.now);
    }
    SentLaunched(s, s', s.phase.now, ended);
  }

  lemma SendsAside(s: State, step: Step, s': State, ended: set<Name>)
    requires Safe(s) && Lined(s) && s.phase.Dispatching? && Enabled(s, step) && Aside(step)
    requires Delivers(Apply(s, step), s', ended)
    ensures Delivers(s, s', Gone(step) + ended)
  {
    AsideStep(s, step);
    SentAside(s, Apply(s, step), s', s.phase.queue, Unstamped(s.phase), s.phase.now, Gone(step), ended);
  }

  lemma AsideKeepsLine(s: State, step: Step)
    requires Safe(s) && Lined(s) && s.phase.Dispatching? && Enabled(s, step) && Aside(step)
    ensures Lined(Apply(s, step))
  {
    AsideStep(s, step);
  }

  lemma StampKeepsLine(s: State)
    requires Safe(s) && Lined(s) && Enabled(s, Stamps)
    ensures Lined(Apply(s, Stamps))
  {
  }

  function InLine(p: Phase): nat {
    if p.Dispatching? then |p.queue| else 0
  }

  lemma LaunchShortens(s: State)
    requires Safe(s) && Enabled(s, Launches)
    ensures var p := Apply(s, Launches).phase; (p.Dispatching? || p.Idle?) && InLine(p) == InLine(s.phase) - 1
  {
  }

  /** From the decision to the last launch: everybody in line is put in flight and stamped with
      the tick's time; a run may end before the tick does. */
  lemma {:induction false} SendsAll(s: State, steps: seq<Step>)
    requires Safe(s) && (s.phase.Dispatching? || s.phase.Idle?) && Lined(s)
    requires Legal(s, steps) && Sends(steps, InLine(s.phase))
    ensures Delivers(s, Run(s, steps), EndedIn(steps))
    decreases |steps|
  {
    if s.phase.Dispatching? {
      var step, rest := steps[0], steps[1..];
      if step.Stamps? {
        StampKeepsLine(s);
        SendsAll(Apply(s, step), rest);
        SendsStamp(s, Run(s, steps), EndedIn(rest));
      } else if step.Launches? {
        LaunchKeepsLine(s);
        LaunchShortens(s);
        SendsAll(Apply(s, step), rest);
        SendsLaunch(s, Run(s, steps), EndedIn(rest));
      } else {
        AsideKeepsLine(s, step);
        AsideStep(s, step);
        SendsAll(Apply(s, step), rest);
        SendsAside(s, step, Run(s, steps), EndedIn(rest));
      }
    }
  }

  // All of it.

  /** The readings above zero. */
  function AboveZero(readings: seq<real>): nat {
    if readings == [] then 0 else (if readings[0] > 0.0 then 1 else 0) + AboveZero(readings[1..])
  }

  lemma {:induction false} ScoresCount(s: State, now: real, line: seq<Name>, readings: seq<real>)
    requires |readings| == |line| || readings == []
    ensures Positives(Scores(s, now, line, readings)) == AboveZero(readings)
  {
    if line != [] && readings != [] {
      var scores := Scores(s, now, line, readings);
      ScoresCount(s, now, line[1..], readings[1..]);
      ScoreSign(s, now, line[0], readings[0]);
      PositivesFirst(scores);
      assert scores[1..] == Scores(s, now, line[1..], readings[1..]);
    }
  }

  /** How many agents a tick asks that has `free` slots at the override question. */
  function Asked(s: State, free: nat, override: Option<Name>, ready: set<Name>): nat {
    if |Preferred(s, override, ready)| < free then |Contenders(s, override, ready)| else 0
  }

  /** Whom it dispatches: the override, then the stable top of the positive scores. */
  function Picked(s: State, now: real, free: nat, override: Option<Name>, ready: set<Name>, readings: seq<real>): seq<Name>
    requires free >= 1
  {
    AskedOnly(s, override, ready);
    LinedUp(s, now, free, Preferred(s, override, ready), Contenders(s, override, ready), readings)
  }

  /** The agents chosen beforehand, then the stable top of those asked. */
  function LinedUp(s: State, now: real, free: nat, chosen: seq<Name>, line: seq<Name>, readings: seq<real>): seq<Name>
    requires |chosen| <= free
  {
    chosen + TopUp(Rank(Scores(s, now, line, readings)), free - |chosen|)
  }

  lemma AskedOnly(s: State, override: Option<Name>, ready: set<Name>)
    ensures |Preferred(s, override, ready)| <= 1
  {
  }

  lemma AllOrNone(s: State, free: nat, override: Option<Name>, ready: set<Name>, readings: seq<real>)
    requires |readings| == Asked(s, free, override, ready)
    ensures |readings| == |Contenders(s, override, ready)| || readings == []
  {
  }

  function Fewer(a: nat, b: nat): nat {
    if a < b then a else b
  }

  lemma {:induction false} LinedUpCount(s: State, now: real, free: nat, chosen: seq<Name>, line: seq<Name>, readings: seq<real>)
    requires |chosen| <= free && (|readings| == |line| || readings == [])
    ensures |LinedUp(s, now, free, chosen, line, readings)| == Fewer(|chosen| + AboveZero(readings), free)
  {
    ScoresCount(s, now, line, readings);
    PicksAreMany(Scores(s, now, line, readings), free - |chosen|);
  }

  /** Every slot is used while there is somebody to use it. */
  lemma {:induction false} PickedCount(s: State, now: real, free: nat, override: Option<Name>, ready: set<Name>, readings: seq<real>)
    requires free >= 1 && |readings| == Asked(s, free, override, ready)
    ensures |Picked(s, now, free, override, ready, readings)|
              == Fewer(|Preferred(s, override, ready)| + AboveZero(readings), free)
  {
    AskedOnly(s, override, ready);
    AllOrNone(s, free, override, ready, readings);
    LinedUpCount(s, now, free, Preferred(s, override, ready), Contenders(s, override, ready), readings);
  }

  ghost predicate AllFree(names: seq<Name>, s: State, ready: set<Name>) {
    Distinct(names) && forall n | n in names :: n in s.roster && n in ready && n !in s.inFlight
  }

  lemma PreferredIsFree(s: State, override: Option<Name>, ready: set<Name>)
    requires Distinct(s.roster)
    ensures AllFree(Preferred(s, override, ready), s, ready)
  {
    EligibleAreFree(s.roster, ready, s.inFlight.Keys);
  }

  lemma ContendersAreFree(s: State, override: Option<Name>, ready: set<Name>)
    requires Distinct(s.roster)
    ensures AllFree(Contenders(s, override, ready), s, ready)
    ensures Apart(Preferred(s, override, ready), Contenders(s, override, ready))
  {
    ContendersAre(s, override, ready);
  }

  lemma {:induction false} TopIsFree(scores: seq<Scored>, slots: nat, line: seq<Name>, chosen: seq<Name>, s: State, ready: set<Name>)
    requires (NamesOf(scores) == line || scores == []) && AllFree(line, s, ready) && Apart(chosen, line)
    ensures AllFree(TopUp(Rank(scores), slots), s, ready) && Apart(chosen, TopUp(Rank(scores), slots))
  {
    PicksComeFromScored(scores, slots);
  }

  lemma {:induction false} BothFree(a: seq<Name>, b: seq<Name>, s: State, ready: set<Name>)
    requires AllFree(a, s, ready) && AllFree(b, s, ready) && Apart(a, b)
    ensures AllFree(a + b, s, ready)
  {
    DistinctParts(a, b);
  }

  lemma {:induction false} LinedUpAreFree(s: State, now: real, free: nat, chosen: seq<Name>, line: seq<Name>,
                                         readings: seq<real>, ready: set<Name>)
    requires |chosen| <= free && (|readings| == |line| || readings == [])
    requires AllFree(line, s, ready) && AllFree(chosen, s, ready) && Apart(chosen, line)
    ensures AllFree(LinedUp(s, now, free, chosen, line, readings), s, ready)
  {
    var scores := Scores(s, now, line, readings);
    NamesAreAsked(s, now, line, readings);
    TopIsFree(scores, free - |chosen|, line, chosen, s, ready);
    BothFree(chosen, TopUp(Rank(scores), free - |chosen|), s, ready);
  }

  lemma {:induction false} PickedAreFree(s: State, now: real, free: nat, override: Option<Name>, ready: set<Name>, readings: seq<real>)
    requires free >= 1 && |readings| == Asked(s, free, override, ready) && Distinct(s.roster)
    ensures AllFree(Picked(s, now, free, override, ready, readings), s, ready)
  {
    AskedOnly(s, override, ready);
    AllOrNone(s, free, override, ready, readings);
    PreferredIsFree(s, override, ready);
    ContendersAreFree(s, override, ready);
    LinedUpAreFree(s, now, free, Preferred(s, override, ready), Contenders(s, override, ready), readings, ready);
  }

  lemma NamesAreAsked(s: State, now: real, line: seq<Name>, readings: seq<real>)
    requires |readings| == |line| || readings == []
    ensures NamesOf(Scores(s, now, line, readings)) == if readings == [] then [] else line
  {
    if readings != [] {
      ScoresAt(s, now, line, readings);
    }
  }

  /** From the override question to the decision. */
  ghost predicate Decides(s: State, override: Option<Name>, ready: set<Name>, asks: seq<Step>, s': State) {
    exists a :: Does(s, OverrideAnswers(override, ready), a) && Reaches(a, asks, s')
  }

  lemma {:induction false} AsksTouchNobody(s: State, override: Option<Name>, ready: set<Name>, asks: seq<Step>, s': State)
    requires s.phase.AwaitingOverride? && Decides(s, override, ready, asks, s') && Asks(asks, Questions(s, override, ready))
    ensures OnlyEnded(s, s', EndedIn(asks)) && forall n | n in EndedIn(asks) :: n in s.inFlight
  {
    var a :| Does(s, OverrideAnswers(override, ready), a) && Reaches(a, asks, s');
    TickOpens(s, override, ready);
    if Questions(s, override, ready) != 0 {
      AsksPass(a, asks);
      EndedWereThere(a, asks);
      OnlyEndedTwice(s, a, s', {}, EndedIn(asks));
    }
  }

  lemma LineStands(s: State, s': State, picked: seq<Name>, now: real, ready: set<Name>, ended: set<Name>)
    requires s'.phase == Line(now, picked) && OnlyEnded(s, s', ended) && AllFree(picked, s, ready)
    ensures Lined(s') && InLine(s'.phase) == |picked|
  {
  }

  /** The tick stands before its launches. */
  lemma {:induction false} DecidedAt(s: State, override: Option<Name>, ready: set<Name>, asks: seq<Step>, s': State, picked: seq<Name>)
    requires s.phase.AwaitingOverride? && Safe(s) && Distinct(s.roster)
    requires Decides(s, override, ready, asks, s') && Asks(asks, Questions(s, override, ready))
    requires picked == Picked(s, s.phase.now, s.phase.free, override, ready, Readings(asks))
    ensures |Readings(asks)| == Questions(s, override, ready)
    ensures s'.phase == Line(s.phase.now, picked)
  {
    var a :| Does(s, OverrideAnswers(override, ready), a) && Reaches(a, asks, s');
    TickDecides(s, override, ready, asks);
    PickedIsDecision(s, override, ready, asks);
  }

  lemma {:induction false} PickedIsDecision(s: State, override: Option<Name>, ready: set<Name>, asks: seq<Step>)
    requires s.phase.AwaitingOverride? && Safe(s)
    ensures Decision(s.phase.now, s.phase.free, Preferred(s, override, ready), TickScores(s, override, ready, asks))
              == Line(s.phase.now, Picked(s, s.phase.now, s.phase.free, override, ready, Readings(asks)))
  {
  }

  /** What a tick has done once it is over, given whom it picked and whose runs have ended since. */
  ghost predicate Ticked(s: State, s': State, picked: seq<Name>, now: real, earlier: set<Name>, later: set<Name>) {
    && s'.phase.Idle?
    && (forall n :: n in s'.inFlight <==> ((n in s.inFlight && n !in earlier) || n in picked) && n !in later)
    && (forall n :: n in s'.lastDispatch <==> n in s.lastDispatch || n in picked)
    && (forall n | n in s'.lastDispatch :: s'.lastDispatch[n] == if n in picked then now else s.lastDispatch[n])
  }

  lemma {:induction false} SentIsTicked(at: State, at': State, s': State, picked: seq<Name>, now: real, asking: set<Name>, sending: set<Name>)
    requires OnlyEnded(at, at', asking) && Delivers(at', s', sending)
    requires at'.phase == Line(now, picked) && forall n | n in picked :: n !in at.inFlight
    requires forall n | n in asking :: n in at.inFlight
    ensures Ticked(at, s', picked, now, {}, asking + sending)
  {
  }

  lemma {:induction false} TickedSince(s: State, at: State, s': State, picked: seq<Name>, now: real, earlier: set<Name>, later: set<Name>)
    requires OnlyEnded(s, at, earlier) && Ticked(at, s', picked, now, {}, later)
    ensures Ticked(s, s', picked, now, earlier, later)
  {
  }

  lemma {:induction false} EndedWereThere(s: State, steps: seq<Step>)
    requires s.phase.Scoring? && s.phase.pending != [] && Legal(s, steps) && Asks(steps, |s.phase.pending|)
    ensures forall n | n in EndedIn(steps) :: n in s.inFlight
    decreases |steps|
  {
    var step, rest := steps[0], steps[1..];
    AskedStep(s, step);
    AskedMoves(s, step);
    if rest != [] {
      EndedWereThere(Apply(s, step), rest);
    }
  }

  /** The second half: from the override question on. */
  lemma {:induction false} QuestionToEnd(s: State, override: Option<Name>, ready: set<Name>, asks: seq<Step>, mid: State,
                      sends: seq<Step>, s': State, picked: seq<Name>)
    requires s.phase.AwaitingOverride? && Safe(s) && Distinct(s.roster)
    requires Decides(s, override, ready, asks, mid) && Asks(asks, Questions(s, override, ready))
    requires picked == Picked(s, s.phase.now, s.phase.free, override, ready, Readings(asks))
    requires Reaches(mid, sends, s') && Sends(sends, |picked|)
    ensures Ticked(s, s', picked, s.phase.now, {}, EndedIn(asks) + EndedIn(sends))
    ensures |Readings(asks)| == Questions(s, override, ready)
  {
    AsksTouchNobody(s, override, ready, asks, mid);
    DecidedAt(s, override, ready, asks, mid, picked);
    PickedAreFree(s, s.phase.now, s.phase.free, override, ready, Readings(asks));
    LineStands(s, mid, picked, s.phase.now, ready, EndedIn(asks));
    SendsAll(mid, sends);
    SentIsTicked(s, mid, s', picked, s.phase.now, EndedIn(asks), EndedIn(sends));
  }

  /** A whole tick, however many runs start, end or get their permit beside it, and whatever the
      cap does meanwhile. One that starts with slots free and finds the gate open dispatches the
      override and the stable top of the other eligible agents; each is stamped with the tick's
      time, and nobody else is touched. */
  lemma {:induction false} TickDispatches(s: State, now: real, before: seq<Step>, between: seq<Step>, at: State,
                       override: Option<Name>, ready: set<Name>, asks: seq<Step>, mid: State,
                       sends: seq<Step>, s': State, picked: seq<Name>)
    requires s.phase.Idle? && Free(s) >= 1 && Distinct(s.roster)
    requires Opens(s, now, before, between, at) && Company(before) && Company(between)
    requires Decides(at, override, ready, asks, mid) && Asks(asks, Asked(at, Free(s), override, ready))
    requires picked == Picked(at, now, Free(s), override, ready, Readings(asks))
    requires Reaches(mid, sends, s') && Sends(sends, |picked|)
    ensures Ticked(s, s', picked, now, EndedIn(before) + EndedIn(between), EndedIn(asks) + EndedIn(sends))
    ensures |Readings(asks)| == Asked(at, Free(s), override, ready)
  {
    GateOpens(s, now, before, between, at);
    QuestionToEnd(at, override, ready, asks, mid, sends, s', picked);
    TickedSince(Begun(s, now), at, s', picked, now, EndedIn(before) + EndedIn(between), EndedIn(asks) + EndedIn(sends));
  }

  lemma LineCount(now: real, picked: seq<Name>)
    ensures InLine(Line(now, picked)) == |picked|
  {
  }

  lemma {:induction false} QuestionIsFull(s: State, now: real, free: nat, override: Option<Name>, ready: set<Name>,
                                          asks: seq<Step>, mid: State, picked: seq<Name>)
    requires s.phase == AwaitingOverride(now, free) && Safe(s) && Distinct(s.roster)
    requires Decides(s, override, ready, asks, mid) && Asks(asks, Asked(s, free, override, ready))
    requires picked == Picked(s, now, free, override, ready, Readings(asks))
    ensures mid.phase == Line(now, picked)
    ensures InLine(mid.phase) == Fewer(|Preferred(s, override, ready)| + AboveZero(Readings(asks)), free)
  {
    DecidedAt(s, override, ready, asks, mid, picked);
    PickedCount(s, now, free, override, ready, Readings(asks));
    LineCount(now, picked);
  }

  /** Such a tick uses every slot it found while anybody is left to use it. */
  lemma {:induction false} TickIsFull(s: State, now: real, before: seq<Step>, between: seq<Step>, at: State,
                                      override: Option<Name>, ready: set<Name>, asks: seq<Step>, mid: State)
    requires s.phase.Idle? && Free(s) >= 1 && Distinct(s.roster)
    requires Opens(s, now, before, between, at) && Company(before) && Company(between)
    requires Decides(at, override, ready, asks, mid) && Asks(asks, Asked(at, Free(s), override, ready))
    ensures mid.phase == Line(now, Picked(at, now, Free(s), override, ready, Readings(asks)))
    ensures InLine(mid.phase) == Fewer(|Preferred(at, override, ready)| + AboveZero(Readings(asks)), Free(s))
  {
    GateOpens(s, now, before, between, at);
    QuestionIsFull(at, now, Free(s), override, ready, asks, mid, Picked(at, now, Free(s), override, ready, Readings(asks)));
  }
}
