/** The two backoff ladders of an agent (agent_kit/base.py). Delays are exact reals. */
module Backoff {
  import opened Options

  const FAIL_BASE := 2.0
  const FAIL_CAP := 60.0
  const IDLE_BASE := 5.0
  const IDLE_CAP := 300.0

  function Pow2(n: nat): (r: real)
    ensures r >= 1.0
  {
    if n == 0 then 1.0 else 2.0 * Pow2(n - 1)
  }

  /** `ceil(log2(x))` for x > 1, and 0 below. */
  function CeilLog2(x: real): nat
    requires x > 0.0
    decreases x.Floor
  {
    if x <= 1.0 then 0 else
      assert x / 2.0 < x;
      1 + CeilLog2(x / 2.0)
  }

  function Lesser(a: real, b: real): real {
    if a < b then a else b
  }

  /** The unclamped ladder: base, twice base, four times base, and so on. */
  function Rung(base: real, n: nat): real {
    base * Pow2(n)
  }

  /** The exponent is clamped before it is used. */
  function LadderDelay(base: real, cap: real, streak: int): real
    requires base > 0.0 && cap > 0.0
  {
    if streak <= 0 then 0.0 else
      var doublings := if cap > base then CeilLog2(cap / base) else 0;
      Lesser(Rung(base, if streak - 1 < doublings then streak - 1 else doublings), cap)
  }

  lemma {:induction false} CeilLog2Exact(x: real)
    requires x > 0.0
    ensures Pow2(CeilLog2(x)) >= x
    ensures forall n: nat | n < CeilLog2(x) :: Pow2(n) < x
    decreases x.Floor
  {
    if x > 1.0 {
      CeilLog2Exact(x / 2.0);
      forall n: nat | n < CeilLog2(x)
        ensures Pow2(n) < x
      {
        if n > 0 {
          assert Pow2(n - 1) < x / 2.0;
        }
      }
    }
  }

  lemma {:induction false} Pow2Monotone(m: nat, n: nat)
    requires m <= n
    ensures Pow2(m) <= Pow2(n)
  {
    if m < n {
      Pow2Monotone(m, n - 1);
    }
  }

  lemma Grow(a: real, b: real, k: real)
    requires k > 0.0 && a <= b
    ensures k * a <= k * b
  {
    assert k * (b - a) >= 0.0;
  }

  lemma RungsClimb(base: real, m: nat, n: nat)
    requires base > 0.0 && m <= n
    ensures Rung(base, m) <= Rung(base, n) && Rung(base, 0) == base
  {
    Pow2Monotone(m, n);
    Grow(Pow2(m), Pow2(n), base);
  }

  lemma RungAgainstCap(rung: real, base: real, cap: real)
    requires base > 0.0
    ensures base * rung >= cap <==> rung >= cap / base
  {
    var x := cap / base;
    assert x * base == cap;
    assert (rung - x) * base == base * rung - cap;
    assert rung < x ==> (rung - x) * base < 0.0;
    assert rung >= x ==> (rung - x) * base >= 0.0;
  }

  /** The step of the ladder at which the cap is reached. */
  function Top(base: real, cap: real): nat
    requires base > 0.0 && cap > 0.0
  {
    1 + if cap > base then CeilLog2(cap / base) else 0
  }

  /** A rung is at or over the cap exactly from the top step on. */
  lemma RungReachesCap(base: real, cap: real, n: nat)
    requires base > 0.0 && cap > 0.0
    ensures Rung(base, n) >= cap <==> n + 1 >= Top(base, cap)
  {
    RungAgainstCap(Pow2(n), base, cap);
    RungAgainstCap(1.0, base, cap);
    assert base * 1.0 == base;
    if cap > base {
      var d := CeilLog2(cap / base);
      CeilLog2Exact(cap / base);
      if n >= d {
        Pow2Monotone(d, n);
      }
    }
  }

  /** Clamping the exponent changes no delay: it is `base * 2^(streak - 1)`, at most the
      cap, for every streak. */
  lemma ClampIsHarmless(base: real, cap: real, streak: int)
    requires base > 0.0 && cap > 0.0 && streak >= 1
    ensures LadderDelay(base, cap, streak) == Lesser(Rung(base, streak - 1), cap)
  {
    var top := Top(base, cap);
    if streak > top {
      RungReachesCap(base, cap, top - 1);
      RungReachesCap(base, cap, streak - 1);
      assert LadderDelay(base, cap, streak) == Lesser(Rung(base, top - 1), cap);
    }
  }

  /** The cap is reached at the top step and not one earlier. */
  lemma CapReachedExactly(base: real, cap: real, streak: int)
    requires base > 0.0 && cap > 0.0 && streak >= 1
    ensures LadderDelay(base, cap, streak) == cap <==> streak >= Top(base, cap)
  {
    ClampIsHarmless(base, cap, streak);
    RungReachesCap(base, cap, streak - 1);
  }

  lemma LadderClimbs(base: real, cap: real, s: int, t: int)
    requires base > 0.0 && cap > 0.0 && s <= t
    ensures 0.0 <= LadderDelay(base, cap, s) <= LadderDelay(base, cap, t) <= cap
  {
    if t >= 1 {
      ClampIsHarmless(base, cap, t);
      RungsClimb(base, 0, t - 1);
      if s >= 1 {
        ClampIsHarmless(base, cap, s);
        RungsClimb(base, 0, s - 1);
        RungsClimb(base, s - 1, t - 1);
      }
    }
  }

  /** The two real ladders: 2, 4, 8, 16, 32, then 60 from the sixth failure on; 5, 10, 20,
      40, 80, 160, then 300 from the seventh quiet run on. */
  lemma TheLadders()
    ensures Top(FAIL_BASE, FAIL_CAP) == 6 && Top(IDLE_BASE, IDLE_CAP) == 7
    ensures Delays(FAIL_BASE, FAIL_CAP, 6) == [2.0, 4.0, 8.0, 16.0, 32.0, 60.0]
    ensures Delays(IDLE_BASE, IDLE_CAP, 7) == [5.0, 10.0, 20.0, 40.0, 80.0, 160.0, 300.0]
    ensures forall n | n >= 6 :: LadderDelay(FAIL_BASE, FAIL_CAP, n) == 60.0
    ensures forall n | n >= 7 :: LadderDelay(IDLE_BASE, IDLE_CAP, n) == 300.0
  {
    assert CeilLog2(30.0) == 1 + CeilLog2(15.0);
    assert CeilLog2(15.0) == 1 + CeilLog2(7.5);
    assert CeilLog2(7.5) == 1 + CeilLog2(3.75);
    assert CeilLog2(3.75) == 1 + CeilLog2(1.875);
    assert CeilLog2(1.875) == 1 + CeilLog2(0.9375);
    assert CeilLog2(60.0) == 1 + CeilLog2(30.0);
    TwoPowers();
    forall n | 1 <= n ensures LadderDelay(FAIL_BASE, FAIL_CAP, n) == Lesser(Rung(FAIL_BASE, n - 1), FAIL_CAP)
    {
      ClampIsHarmless(FAIL_BASE, FAIL_CAP, n);
    }
    forall n | 1 <= n ensures LadderDelay(IDLE_BASE, IDLE_CAP, n) == Lesser(Rung(IDLE_BASE, n - 1), IDLE_CAP)
    {
      ClampIsHarmless(IDLE_BASE, IDLE_CAP, n);
    }
    forall n | n >= 6 ensures LadderDelay(FAIL_BASE, FAIL_CAP, n) == 60.0 {
      CapReachedExactly(FAIL_BASE, FAIL_CAP, n);
    }
    forall n | n >= 7 ensures LadderDelay(IDLE_BASE, IDLE_CAP, n) == 300.0 {
      CapReachedExactly(IDLE_BASE, IDLE_CAP, n);
    }
  }

  /** The delays of the first `n` steps. */
  function Delays(base: real, cap: real, n: nat): seq<real>
    requires base > 0.0 && cap > 0.0
  {
    seq(n, i requires 0 <= i < n => LadderDelay(base, cap, i + 1))
  }

  lemma TwoPowers()
    ensures Pow2(0) == 1.0 && Pow2(1) == 2.0 && Pow2(2) == 4.0 && Pow2(3) == 8.0 && Pow2(4) == 16.0 && Pow2(5) == 32.0
  {
    assert Pow2(2) == 2.0 * Pow2(1);
    assert Pow2(4) == 2.0 * Pow2(3);
  }

  // The agent's own history.

  /** What an agent's ladders react to. `quiet` is the probe's verdict that the run
      produced nothing; `Passed` is `note_pass`, inside or outside a run. */
  datatype Event =
    | Passed(now: real)
    | Finished(now: real, declaredPass: bool, quiet: bool)
    | Failed(now: real)
    | Cancelled

  datatype Ladders = Ladders(failUntil: real, failStreak: nat, idleUntil: real, idleStreak: nat)

  const REST := Ladders(0.0, 0, 0.0, 0)

  function AdvanceIdle(l: Ladders, now: real): Ladders {
    l.(idleStreak := l.idleStreak + 1, idleUntil := now + LadderDelay(IDLE_BASE, IDLE_CAP, l.idleStreak + 1))
  }

  function AdvanceFail(l: Ladders, now: real): Ladders {
    l.(failStreak := l.failStreak + 1, failUntil := now + LadderDelay(FAIL_BASE, FAIL_CAP, l.failStreak + 1))
  }

  function After(l: Ladders, e: Event): Ladders {
    match e
    case Passed(now) => AdvanceIdle(l, now)
    case Failed(now) => AdvanceFail(l, now)
    case Cancelled => l
    case Finished(now, declaredPass, quiet) =>
      var l1 := l.(failStreak := 0, failUntil := 0.0);
      if declaredPass then l1
      else if quiet then AdvanceIdle(l1, now)
      else l1.(idleStreak := 0, idleUntil := 0.0)
  }

  function History(events: seq<Event>): Ladders {
    if events == [] then REST else After(History(events[..|events| - 1]), events[|events| - 1])
  }

  /** Failures since the last run that finished. */
  function RecentFailures(events: seq<Event>): nat {
    if events == [] || events[|events| - 1].Finished? then 0
    else RecentFailures(events[..|events| - 1]) + if events[|events| - 1].Failed? then 1 else 0
  }

  /** Passes and quiet runs since the last run that made progress. */
  function RecentQuiet(events: seq<Event>): nat {
    if events == [] then 0 else
      var front, e := events[..|events| - 1], events[|events| - 1];
      match e
      case Passed(_) => RecentQuiet(front) + 1
      case Finished(_, declaredPass, quiet) =>
        if declaredPass then RecentQuiet(front) else if quiet then RecentQuiet(front) + 1 else 0
      case _ => RecentQuiet(front)
  }

  /** When the last failure was, if any since the last finished run. */
  function LastFailure(events: seq<Event>): Option<real> {
    if events == [] || events[|events| - 1].Finished? then None
    else if events[|events| - 1].Failed? then Some(events[|events| - 1].now)
    else LastFailure(events[..|events| - 1])
  }

  /** When the last quiet verdict was, if any since the last run that made progress. */
  function LastQuiet(events: seq<Event>): Option<real> {
    if events == [] then None else
      var front, e := events[..|events| - 1], events[|events| - 1];
      match e
      case Passed(now) => Some(now)
      case Finished(now, declaredPass, quiet) =>
        if declaredPass then LastQuiet(front) else if quiet then Some(now) else None
      case _ => LastQuiet(front)
  }

  /** Over any history, the streaks count what their names say and each deadline is its last
      cause plus the delay its streak calls for. The ladders are independent: a failure never
      moves the idle one, and a cancellation moves neither. */
  lemma {:induction false} StreaksCount(events: seq<Event>)
    ensures var l := History(events);
            && l.failStreak == RecentFailures(events)
            && l.idleStreak == RecentQuiet(events)
            && (if LastFailure(events).None? then l.failStreak == 0 && l.failUntil == 0.0
                else l.failStreak >= 1 &&
                     l.failUntil == LastFailure(events).value + LadderDelay(FAIL_BASE, FAIL_CAP, l.failStreak))
            && (if LastQuiet(events).None? then l.idleStreak == 0 && l.idleUntil == 0.0
                else l.idleStreak >= 1 &&
                     l.idleUntil == LastQuiet(events).value + LadderDelay(IDLE_BASE, IDLE_CAP, l.idleStreak))
  {
    if events != [] {
      StreaksCount(events[..|events| - 1]);
    }
  }

  datatype Hold = BackingOff(wait: real) | AwaitingProgress(wait: real)

  /** The three readings of the ladders agree at every moment: dispatchable, no hold, no
      wait; the wait ends the moment both deadlines have passed, and the hold that is reported is
      the later one. */
  lemma ReadingsAgree(a: Agent, now: real)
    ensures a.Ready(now) <==> a.HoldAt(now) == None
    ensures a.Ready(now) <==> a.SecondsUntilReady(now) == 0.0
    ensures a.HoldAt(now).Some? ==> a.HoldAt(now).value.wait == a.SecondsUntilReady(now) > 0.0
    ensures a.HoldAt(now).Some? ==> (a.HoldAt(now).value.BackingOff? <==> a.failUntil >= a.idleUntil)
    ensures a.Ready(now) <==> now >= a.failUntil && now >= a.idleUntil
    ensures forall later | later >= now :: a.Ready(later) <==> later >= now + a.SecondsUntilReady(now)
  {
  }

  class Agent {
    var failUntil: real
    var failStreak: nat
    var idleUntil: real
    var idleStreak: nat

    constructor ()
      ensures State() == REST
    {
      failUntil, failStreak, idleUntil, idleStreak := 0.0, 0, 0.0, 0;
    }

    function State(): Ladders
      reads this
    {
      Ladders(failUntil, failStreak, idleUntil, idleStreak)
    }

    predicate Ready(now: real)
      reads this
    {
      now >= if failUntil > idleUntil then failUntil else idleUntil
    }

    function SecondsUntilReady(now: real): real
      reads this
    {
      var wait := if failUntil - now > idleUntil - now then failUntil - now else idleUntil - now;
      if wait > 0.0 then wait else 0.0
    }

    function HoldAt(now: real): Option<Hold>
      reads this
    {
      var fail, idle := failUntil - now, idleUntil - now;
      if fail <= 0.0 && idle <= 0.0 then None
      else Some(if fail >= idle then BackingOff(fail) else AwaitingProgress(idle))
    }

    method NotePass(now: real)
      modifies this
      ensures State() == After(old(State()), Passed(now))
    {
      idleStreak := idleStreak + 1;
      idleUntil := now + LadderDelay(IDLE_BASE, IDLE_CAP, idleStreak);
    }

    /** The arms of `run_once` that end a run; a declared pass has already been noted. */
    method EndRun(outcome: Event)
      requires !outcome.Passed?
      modifies this
      ensures State() == After(old(State()), outcome)
    {
      match outcome
      case Cancelled =>
      case Failed(now) =>
        failStreak := failStreak + 1;
        failUntil := now + LadderDelay(FAIL_BASE, FAIL_CAP, failStreak);
      case Finished(now, declaredPass, quiet) =>
        failStreak, failUntil := 0, 0.0;
        if declaredPass {
          return;
        }
        if quiet {
          idleStreak := idleStreak + 1;
          idleUntil := now + LadderDelay(IDLE_BASE, IDLE_CAP, idleStreak);
        } else {
          idleStreak, idleUntil := 0, 0.0;
        }
    }
  }
}
