/** The shared LLM permit pool (agent_kit/pool.py): a resizable limiter with additive
    increase and multiplicative decrease, over an asyncio condition.

    Every coroutine runs alone between two awaits, and the condition's lock is never
    held across one, so each stretch of `slot()` is one step here: the first check, a
    re-check after a notification, and the release. A notification sent by
    `_wake_waiters` is a task of its own and may run any number of steps later.

    Only a run that holds a permit signals a 429 or a success: both callers do so inside
    `slot()` (agent_kit/scheduler.py:316-325, novelizer/store/drain.py:87-95). */
module AdaptivePool {

  type TaskId = nat

  datatype Pool = Pool(
    recoverAfter: int,
    cooldown: real,
    size: int,
    limit: int,
    active: int,
    streak: int,
    cooldownUntil: real,
    condition: bool,        // the condition exists: somebody has tried to acquire
    waiters: set<TaskId>,   // parked in the condition's wait
    woken: set<TaskId>,     // notified, about to re-check
    holders: set<TaskId>,   // inside the body, permit in hand
    wake: bool,             // the referenced wake task has yet to run
    orphans: nat)           // earlier wake tasks, no longer referenced: each may run or be collected

  datatype Step =
    | Arrive(task: TaskId)
    | Recheck(task: TaskId)
    | Release(task: TaskId)
    | Abandon(task: TaskId)     // cancelled while it waits
    | WakeRuns
    | OrphanRuns
    | OrphanCollected
    | RateLimited(now: real)
    | Succeeded
    | Resize(value: int)

  function Fresh(size: int, recoverAfter: int, cooldown: real): Pool {
    Pool(recoverAfter, cooldown, size, size, 0, 0, 0.0, false, {}, {}, {}, false, 0)
  }

  predicate Enabled(s: Pool, step: Step) {
    match step
    case Arrive(t) => t !in s.waiters + s.woken + s.holders
    case Recheck(t) => t in s.woken
    case Release(t) => t in s.holders
    case WakeRuns => s.wake
    case OrphanRuns => s.orphans > 0
    case OrphanCollected => s.orphans > 0
    case Abandon(t) => t in s.waiters + s.woken
    case RateLimited(_) => s.holders != {}
    case Succeeded => s.holders != {}
    case Resize(_) => true
  }

  /** `wait_for(_active < _limit)` at the moment the predicate is evaluated. */
  function Admit(s: Pool, t: TaskId): Pool {
    if s.active < s.limit
    then s.(active := s.active + 1, holders := s.holders + {t}, condition := true)
    else s.(waiters := s.waiters + {t}, condition := true)
  }

  function NotifyAll(s: Pool): Pool {
    s.(woken := s.woken + s.waiters, waiters := {})
  }

  function WakeWaiters(s: Pool): Pool {
    if !s.condition then s
    else s.(wake := true, orphans := s.orphans + if s.wake then 1 else 0)
  }

  /** A 429 that the cooldown window does not absorb. */
  predicate Bites(s: Pool, now: real) {
    !(s.cooldown > 0.0 && now < s.cooldownUntil)
  }

  function NoteRateLimited(s: Pool, now: real): Pool {
    if !Bites(s, now) then s
    else s.(limit := if s.limit / 2 > 1 then s.limit / 2 else 1,
            cooldownUntil := now + s.cooldown,
            streak := 0)
  }

  function NoteSuccess(s: Pool): Pool {
    if s.limit >= s.size then s.(streak := 0)
    else if s.streak + 1 >= s.recoverAfter then
      WakeWaiters(s.(limit := if s.limit + 1 < s.size then s.limit + 1 else s.size, streak := 0))
    else s.(streak := s.streak + 1)
  }

  function SetSize(s: Pool, value: int): Pool {
    s.(size := value, limit := if value < s.limit then value else s.limit)
  }

  function Apply(s: Pool, step: Step): Pool
    requires Enabled(s, step)
  {
    match step
    case Arrive(t) => Admit(s, t)
    case Recheck(t) => Admit(s.(woken := s.woken - {t}), t)
    case Release(t) => NotifyAll(s.(active := s.active - 1, holders := s.holders - {t}))
    case WakeRuns => NotifyAll(s.(wake := false))
    case OrphanRuns => NotifyAll(s.(orphans := s.orphans - 1))
    case OrphanCollected => s.(orphans := s.orphans - 1)
    case Abandon(t) => s.(waiters := s.waiters - {t}, woken := s.woken - {t})
    case RateLimited(now) => NoteRateLimited(s, now)
    case Succeeded => NoteSuccess(s)
    case Resize(value) => SetSize(s, value)
  }

  /** Every step of the run is possible where it is taken. */
  predicate Legal(s: Pool, steps: seq<Step>)
    decreases |steps|
  {
    steps == [] || (Enabled(s, steps[0]) && Legal(Apply(s, steps[0]), steps[1..]))
  }

  function Run(s: Pool, steps: seq<Step>): Pool
    requires Legal(s, steps)
    decreases |steps|
  {
    if steps == [] then s else Run(Apply(s, steps[0]), steps[1..])
  }

  // What holds in every reachable state.

  ghost predicate PermitsCounted(s: Pool) {
    && s.active == |s.holders|
    && s.waiters !! s.woken && s.waiters !! s.holders && s.woken !! s.holders
  }

  /** Free capacity never goes unnoticed: whoever is parked beside it is about to be
      notified by the wake task the pool keeps a reference to. */
  ghost predicate NoLostWakeup(s: Pool) {
    s.waiters != {} && s.active < s.limit ==> s.wake
  }

  /** What holds whatever the sizes. */
  ghost predicate Sound(s: Pool) {
    PermitsCounted(s) && NoLostWakeup(s) && (s.waiters != {} ==> s.condition)
  }

  ghost predicate Bounded(s: Pool) {
    && 1 <= s.limit <= s.size
    && 0 <= s.streak < s.recoverAfter
  }

  predicate SizesPositive(steps: seq<Step>) {
    forall step | step in steps && step.Resize? :: step.value >= 1
  }

  lemma AdmitKeepsSound(s: Pool, t: TaskId)
    requires Sound(s) && t !in s.waiters + s.woken + s.holders
    ensures Sound(Admit(s, t))
  {
  }

  lemma NotifyKeepsSound(s: Pool)
    requires PermitsCounted(s)
    ensures Sound(NotifyAll(s))
  {
  }

  /** A 429 can only lift a limit below one, and then a permit is out and the lift frees none;
      a success that lifts the limit leaves a wake pending. */
  lemma SignalKeepsSound(s: Pool, step: Step)
    requires Sound(s) && Enabled(s, step) && (step.RateLimited? || step.Succeeded? || step.Resize?)
    ensures Sound(Apply(s, step))
  {
    if step.RateLimited? {
      assert |s.holders| >= 1;
    }
  }

  lemma StepKeepsSound(s: Pool, step: Step)
    requires Sound(s) && Enabled(s, step)
    ensures Sound(Apply(s, step))
  {
    match step
    case Arrive(t) => AdmitKeepsSound(s, t);
    case Recheck(t) => AdmitKeepsSound(s.(woken := s.woken - {t}), t);
    case Release(t) => NotifyKeepsSound(s.(active := s.active - 1, holders := s.holders - {t}));
    case WakeRuns => NotifyKeepsSound(s.(wake := false));
    case OrphanRuns => NotifyKeepsSound(s.(orphans := s.orphans - 1));
    case OrphanCollected =>
    case Abandon(_) =>
    case _ => SignalKeepsSound(s, step);
  }

  /** Over any run, with any sizes: permits are counted exactly and no wakeup is ever lost. */
  lemma {:induction false} RunKeepsSound(s: Pool, steps: seq<Step>)
    requires Sound(s) && Legal(s, steps)
    ensures Sound(Run(s, steps))
    decreases |steps|
  {
    if steps != [] {
      StepKeepsSound(s, steps[0]);
      RunKeepsSound(Apply(s, steps[0]), steps[1..]);
    }
  }

  lemma EveryReachablePoolIsSound(size: int, recoverAfter: int, cooldown: real, steps: seq<Step>)
    requires Legal(Fresh(size, recoverAfter, cooldown), steps)
    ensures Sound(Run(Fresh(size, recoverAfter, cooldown), steps))
  {
    RunKeepsSound(Fresh(size, recoverAfter, cooldown), steps);
  }

  lemma StepKeepsBounded(s: Pool, step: Step)
    requires Bounded(s) && Enabled(s, step) && (step.Resize? ==> step.value >= 1)
    ensures Bounded(Apply(s, step))
  {
  }

  /** While every size set is at least one, the limit stays between one and the size, and the
      streak under `recoverAfter`. */
  lemma {:induction false} RunKeepsBounded(s: Pool, steps: seq<Step>)
    requires Bounded(s) && Legal(s, steps) && SizesPositive(steps)
    ensures Bounded(Run(s, steps))
    decreases |steps|
  {
    if steps != [] {
      StepKeepsBounded(s, steps[0]);
      assert forall step | step in steps[1..] :: step in steps;
      RunKeepsBounded(Apply(s, steps[0]), steps[1..]);
    }
  }

  lemma EveryReachablePoolIsBounded(size: int, recoverAfter: int, cooldown: real, steps: seq<Step>)
    requires size >= 1 && recoverAfter >= 1
    requires Legal(Fresh(size, recoverAfter, cooldown), steps) && SizesPositive(steps)
    ensures Bounded(Run(Fresh(size, recoverAfter, cooldown), steps))
  {
    RunKeepsBounded(Fresh(size, recoverAfter, cooldown), steps);
  }

  // A new pool.

  function Arrivals(tasks: seq<TaskId>): seq<Step> {
    if tasks == [] then [] else [Arrive(tasks[0])] + Arrivals(tasks[1..])
  }

  predicate Apart(tasks: seq<TaskId>) {
    tasks == [] || (tasks[0] !in tasks[1..] && Apart(tasks[1..]))
  }

  /** All of `tasks` have been let in, and nothing else has changed. */
  ghost predicate Filled(s: Pool, s': Pool, tasks: seq<TaskId>) {
    && s'.holders == s.holders + (set t | t in tasks) && s'.active == s.active + |tasks|
    && s'.limit == s.limit && s'.waiters == s.waiters && s'.woken == s.woken
  }

  lemma FirstLetIn(s: Pool, s': Pool, tasks: seq<TaskId>)
    requires tasks != [] && s.active < s.limit && Filled(Admit(s, tasks[0]), s', tasks[1..])
    ensures Filled(s, s', tasks)
  {
    assert tasks == [tasks[0]] + tasks[1..];
  }

  lemma ArrivalsFirst(tasks: seq<TaskId>)
    requires tasks != []
    ensures Arrivals(tasks)[0] == Arrive(tasks[0]) && Arrivals(tasks)[1..] == Arrivals(tasks[1..])
  {
  }

  lemma {:induction false} RoomForAll(s: Pool, tasks: seq<TaskId>)
    requires s.active + |tasks| <= s.limit && Apart(tasks) && s.waiters == {} && s.woken == {}
    requires forall t | t in tasks :: t !in s.holders
    ensures Legal(s, Arrivals(tasks)) && Filled(s, Run(s, Arrivals(tasks)), tasks)
    decreases |tasks|
  {
    if tasks != [] {
      var s1 := Admit(s, tasks[0]);
      ArrivalsFirst(tasks);
      assert Enabled(s, Arrive(tasks[0])) && Apply(s, Arrive(tasks[0])) == s1;
      RoomForAll(s1, tasks[1..]);
      FirstLetIn(s, Run(s1, Arrivals(tasks[1..])), tasks);
    }
  }

  /** A new pool lets as many in as its size, and parks the next. */
  lemma NewPoolAdmitsItsSize(size: nat, recoverAfter: int, cooldown: real, tasks: seq<TaskId>, next: TaskId)
    requires |tasks| <= size && Apart(tasks) && next !in tasks
    ensures var s := Fresh(size, recoverAfter, cooldown);
            && Legal(s, Arrivals(tasks))
            && var s' := Run(s, Arrivals(tasks));
               && s'.holders == (set t | t in tasks) && Enabled(s', Arrive(next))
               && (next in Apply(s', Arrive(next)).holders <==> |tasks| < size)
  {
    RoomForAll(Fresh(size, recoverAfter, cooldown), tasks);
  }

  // Who is inside, who waits.

  /** Tasks come by arriving and leave by releasing or being cancelled. */
  function Moved(tasks: set<TaskId>, step: Step): set<TaskId> {
    match step
    case Arrive(t) => tasks + {t}
    case Release(t) => tasks - {t}
    case Abandon(t) => tasks - {t}
    case _ => tasks
  }

  function Present(tasks: set<TaskId>, steps: seq<Step>): set<TaskId>
    decreases |steps|
  {
    if steps == [] then tasks else Present(Moved(tasks, steps[0]), steps[1..])
  }

  function Tasks(s: Pool): set<TaskId> {
    s.waiters + s.woken + s.holders
  }

  lemma AdmitKeepsTasks(s: Pool, t: TaskId)
    ensures Tasks(Admit(s, t)) == Tasks(s) + {t} && s.holders <= Admit(s, t).holders
  {
  }

  lemma NotifyKeepsTasks(s: Pool)
    ensures Tasks(NotifyAll(s)) == Tasks(s) && NotifyAll(s).holders == s.holders
  {
  }

  lemma SignalKeepsTasks(s: Pool, step: Step)
    requires Enabled(s, step) && (step.RateLimited? || step.Succeeded? || step.Resize?)
    ensures Tasks(Apply(s, step)) == Tasks(s) && Apply(s, step).holders == s.holders
  {
  }

  lemma OneLeaves(mine: set<TaskId>, others: set<TaskId>, t: TaskId)
    requires t in mine && mine !! others
    ensures (mine - {t}) + others == (mine + others) - {t}
  {
  }

  lemma ReleaseKeepsTasks(s: Pool, t: TaskId)
    requires PermitsCounted(s) && t in s.holders
    ensures Tasks(s.(active := s.active - 1, holders := s.holders - {t})) == Tasks(s) - {t}
  {
    OneLeaves(s.holders, s.waiters + s.woken, t);
  }

  lemma AbandonKeepsTasks(s: Pool, t: TaskId)
    requires PermitsCounted(s) && t in s.waiters + s.woken
    ensures Tasks(s.(waiters := s.waiters - {t}, woken := s.woken - {t})) == Tasks(s) - {t}
  {
    assert (s.waiters - {t}) + (s.woken - {t}) == (s.waiters + s.woken) - {t};
    OneLeaves(s.waiters + s.woken, s.holders, t);
  }

  lemma RecheckKeepsTasks(s: Pool, t: TaskId)
    requires PermitsCounted(s) && t in s.woken
    ensures Tasks(s.(woken := s.woken - {t})) + {t} == Tasks(s)
  {
    OneLeaves(s.woken, s.waiters + s.holders, t);
  }

  lemma StepKeepsTasks(s: Pool, step: Step)
    requires PermitsCounted(s) && Enabled(s, step)
    ensures Tasks(Apply(s, step)) == Moved(Tasks(s), step)
  {
    match step
    case Arrive(t) => AdmitKeepsTasks(s, t);
    case Recheck(t) =>
      RecheckKeepsTasks(s, t);
      AdmitKeepsTasks(s.(woken := s.woken - {t}), t);
    case Release(t) =>
      ReleaseKeepsTasks(s, t);
      NotifyKeepsTasks(s.(active := s.active - 1, holders := s.holders - {t}));
    case Abandon(t) => AbandonKeepsTasks(s, t);
    case WakeRuns => NotifyKeepsTasks(s.(wake := false));
    case OrphanRuns => NotifyKeepsTasks(s.(orphans := s.orphans - 1));
    case OrphanCollected =>
    case _ => SignalKeepsTasks(s, step);
  }

  lemma StepKeepsHolders(s: Pool, step: Step)
    requires Enabled(s, step)
    ensures forall t | t in s.holders && step != Release(t) :: t in Apply(s, step).holders
  {
    if step.RateLimited? || step.Succeeded? || step.Resize? {
      SignalKeepsTasks(s, step);
    }
  }

  /** No task is lost on the way in or out: whoever came and has not left waits or is inside. */
  lemma {:induction false} NobodyIsLost(s: Pool, steps: seq<Step>)
    requires Sound(s) && Legal(s, steps)
    ensures Tasks(Run(s, steps)) == Present(Tasks(s), steps)
    decreases |steps|
  {
    if steps != [] {
      StepKeepsTasks(s, steps[0]);
      StepKeepsSound(s, steps[0]);
      NobodyIsLost(Apply(s, steps[0]), steps[1..]);
    }
  }

  /** A permit is only ever given back by its own holder. */
  lemma {:induction false} HoldersStay(s: Pool, steps: seq<Step>, t: TaskId)
    requires Legal(s, steps) && t in s.holders && Release(t) !in steps
    ensures t in Run(s, steps).holders
    decreases |steps|
  {
    if steps != [] {
      StepKeepsHolders(s, steps[0]);
      HoldersStay(Apply(s, steps[0]), steps[1..], t);
    }
  }

  /** Every release and every wake task that runs, referenced or not, has all parked tasks check
      again. */
  lemma EveryWakeReachesAll(s: Pool, step: Step, t: TaskId)
    requires Enabled(s, step) && (step.Release? || step.WakeRuns? || step.OrphanRuns?) && t in s.waiters
    ensures t in Apply(s, step).woken && Apply(s, step).waiters == {}
    ensures Legal(Apply(s, step), [Recheck(t)])
  {
    assert [Recheck(t)][1..] == [];
  }

  /** The pending wake is enough: once it has run, any parked task's own re-check gets
      the free permit. */
  lemma PendingWakeAdmits(s: Pool, t: TaskId)
    requires Sound(s) && t in s.waiters && s.active < s.limit
    ensures Legal(s, [WakeRuns, Recheck(t)])
    ensures t in Run(s, [WakeRuns, Recheck(t)]).holders
  {
    var s1 := Apply(s, WakeRuns);
    assert [WakeRuns, Recheck(t)][1..] == [Recheck(t)];
    assert Enabled(s1, Recheck(t));
    assert Run(s1, [Recheck(t)]) == Apply(s1, Recheck(t));
  }

  // The pool that can never admit anybody again.

  /** Nobody is inside to signal, and nobody can get in. */
  predicate Dead(s: Pool) {
    s.limit < 1 && s.holders == {}
  }

  /** Some step of the run hands out a permit. */
  predicate Admits(s: Pool, steps: seq<Step>)
    requires Legal(s, steps)
    decreases |steps|
  {
    steps != [] && (Apply(s, steps[0]).active > s.active || Admits(Apply(s, steps[0]), steps[1..]))
  }

  lemma DeadStaysDead(s: Pool, step: Step)
    requires PermitsCounted(s) && Dead(s) && Enabled(s, step)
    ensures PermitsCounted(Apply(s, step)) && Dead(Apply(s, step)) && Apply(s, step).active == 0
  {
  }

  lemma {:induction false} DeadForGood(s: Pool, steps: seq<Step>)
    requires PermitsCounted(s) && Dead(s) && Legal(s, steps)
    ensures !Admits(s, steps) && Run(s, steps).holders == {}
    decreases |steps|
  {
    if steps != [] {
      DeadStaysDead(s, steps[0]);
      DeadForGood(Apply(s, steps[0]), steps[1..]);
    }
  }

  /** A run can go on to hand out a permit. */
  ghost predicate Revivable(s: Pool) {
    exists steps :: Legal(s, steps) && Admits(s, steps)
  }

  lemma RevivableBefore(s: Pool, step: Step)
    requires Enabled(s, step) && Revivable(Apply(s, step))
    ensures Revivable(s)
  {
    var rest :| Legal(Apply(s, step), rest) && Admits(Apply(s, step), rest);
    var steps := [step] + rest;
    assert steps[0] == step && steps[1..] == rest;
    assert Legal(s, steps) && Admits(s, steps);
  }

  lemma {:induction false} Newcomer(tasks: set<TaskId>) returns (t: TaskId)
    ensures forall x | x in tasks :: x < t
  {
    if tasks == {} {
      t := 0;
    } else {
      var x :| x in tasks;
      var rest := Newcomer(tasks - {x});
      t := if x < rest then rest else x + 1;
      assert forall y | y in tasks :: y == x || y in tasks - {x};
    }
  }

  lemma IdleAdmits(s: Pool)
    requires s.active < s.limit
    ensures Revivable(s)
  {
    var t := Newcomer(s.waiters + s.woken + s.holders);
    var steps := [Arrive(t)];
    assert steps[1..] == [];
    assert Legal(s, steps) && Admits(s, steps);
  }

  /** With holders and a positive limit, releases make room for the next arrival. */
  lemma {:induction false} ReleasesAdmit(s: Pool)
    requires PermitsCounted(s) && s.limit >= 1
    ensures Revivable(s)
    decreases |s.holders|
  {
    if s.active < s.limit {
      IdleAdmits(s);
    } else {
      var t :| t in s.holders;
      ReleasesAdmit(Apply(s, Release(t)));
      RevivableBefore(s, Release(t));
    }
  }

  /** Exactly the pool with a limit below one and nobody inside is dead for good: whatever
      sizes are set later, it never hands out a permit again. */
  lemma DeadExactly(s: Pool)
    requires PermitsCounted(s)
    ensures Revivable(s) <==> !Dead(s)
  {
    if Dead(s) {
      forall steps | Legal(s, steps) ensures !Admits(s, steps) {
        DeadForGood(s, steps);
      }
    } else if s.limit >= 1 {
      ReleasesAdmit(s);
    } else {
      var signal := RateLimited(s.cooldownUntil);
      ReleasesAdmit(Apply(s, signal));
      RevivableBefore(s, signal);
    }
  }

  /** The shortest way there: an idle pool is resized to nothing, and raised again in vain. */
  lemma ResizedToNothing(value: int)
    ensures var steps := [Resize(0), Resize(value)];
            Legal(Fresh(4, 5, 5.0), steps) && !Revivable(Run(Fresh(4, 5, 5.0), steps))
  {
    var s0 := Fresh(4, 5, 5.0);
    var s1 := Apply(s0, Resize(0));
    assert [Resize(0), Resize(value)][1..] == [Resize(value)];
    assert Run(s1, [Resize(value)]) == Apply(s1, Resize(value));
    DeadExactly(Apply(s1, Resize(value)));
  }

  /** An acquire never takes the count over the limit in force, and at or over the limit
      the count cannot rise. */
  lemma AcquireRespectsLimit(s: Pool, step: Step)
    requires Enabled(s, step) && Apply(s, step).active > s.active
    ensures Apply(s, step).active == s.active + 1 <= s.limit == Apply(s, step).limit
    ensures step.Arrive? || step.Recheck?
  {
  }

  // The decrease: at most one per cooldown.

  lemma {:induction false} CooldownOnlyGrows(s: Pool, steps: seq<Step>)
    requires Legal(s, steps) && s.cooldown > 0.0
    ensures Run(s, steps).cooldownUntil >= s.cooldownUntil && Run(s, steps).cooldown == s.cooldown
    decreases |steps|
  {
    if steps != [] {
      CooldownOnlyGrows(Apply(s, steps[0]), steps[1..]);
    }
  }

  /** A 429 halves a limit, never below one; a limit already below one is lifted to it. */
  lemma RateLimitHalves(s: Pool, now: real)
    requires Bites(s, now)
    ensures var limit := NoteRateLimited(s, now).limit;
            limit >= 1 && (s.limit >= 2 ==> 2 * limit <= s.limit <= 2 * limit + 1) && (s.limit < 2 ==> limit == 1)
  {
  }

  /** Two 429s that both bite are at least a cooldown apart, whatever happens between. */
  lemma HalvingsAreSpaced(s: Pool, t1: real, between: seq<Step>, t2: real)
    requires s.cooldown > 0.0 && Enabled(s, RateLimited(t1)) && Bites(s, t1)
    requires Legal(Apply(s, RateLimited(t1)), between)
    requires Bites(Run(Apply(s, RateLimited(t1)), between), t2)
    ensures t2 >= t1 + s.cooldown
  {
    CooldownOnlyGrows(Apply(s, RateLimited(t1)), between);
  }

  /** No 429 of the run bites. */
  predicate Spared(s: Pool, steps: seq<Step>)
    requires Legal(s, steps)
    decreases |steps|
  {
    steps == [] || ((steps[0].RateLimited? ==> !Bites(s, steps[0].now)) && Spared(Apply(s, steps[0]), steps[1..]))
  }

  lemma {:induction false} SparedKeepsCooldown(s: Pool, steps: seq<Step>)
    requires Legal(s, steps) && Spared(s, steps)
    ensures Run(s, steps).cooldownUntil == s.cooldownUntil && Run(s, steps).cooldown == s.cooldown
    decreases |steps|
  {
    if steps != [] {
      SparedKeepsCooldown(Apply(s, steps[0]), steps[1..]);
    }
  }

  /** After a 429 that bites, the next one bites exactly if a cooldown has passed or there is none. */
  lemma NextBitesExactly(s: Pool, t1: real, between: seq<Step>, t2: real)
    requires Enabled(s, RateLimited(t1)) && Bites(s, t1)
    requires Legal(Apply(s, RateLimited(t1)), between) && Spared(Apply(s, RateLimited(t1)), between)
    ensures Bites(Run(Apply(s, RateLimited(t1)), between), t2) <==> s.cooldown <= 0.0 || t2 >= t1 + s.cooldown
  {
    SparedKeepsCooldown(Apply(s, RateLimited(t1)), between);
  }

  // The increase: exactly one per `recoverAfter` consecutive successes.

  function Successes(steps: seq<Step>): nat {
    if steps == [] then 0 else (if steps[0].Succeeded? then 1 else 0) + Successes(steps[1..])
  }

  /** Free of resizing and of 429s, but for those the cooldown absorbs; permits may come and go. */
  predicate Calm(s: Pool, steps: seq<Step>)
    requires Legal(s, steps)
    decreases |steps|
  {
    steps == [] || (!Disturbs(s, steps[0]) && Calm(Apply(s, steps[0]), steps[1..]))
  }

  predicate Disturbs(s: Pool, step: Step) {
    step.Resize? || (step.RateLimited? && Bites(s, step.now))
  }

  lemma DivisionIsUnique(n: int, r: int, q: int, m: int)
    requires 0 <= m < r && n == q * r + m
    ensures n / r == q && n % r == m
  {
    var d: int := n / r - q;
    assert d * r == m - n % r;
    assert d >= 1 ==> d * r >= r;
    assert d <= -1 ==> d * r <= -r;
  }

  lemma QuotientAtLeast(n: int, r: int, k: int)
    requires r >= 1
    ensures n / r >= k <==> n >= r * k
  {
    var d: int := n / r - k;
    assert n == r * k + d * r + n % r;
    assert d >= 0 ==> d * r >= 0;
    assert d <= -1 ==> d * r <= -r;
  }

  lemma NextQuotient(n: nat, r: nat)
    requires r >= 1
    ensures if n % r + 1 == r then (n + 1) / r == n / r + 1 && (n + 1) % r == 0
            else (n + 1) / r == n / r && (n + 1) % r == n % r + 1
  {
    var q, m := n / r, n % r;
    if m + 1 == r {
      assert n + 1 == (q + 1) * r + 0;
      DivisionIsUnique(n + 1, r, q + 1, 0);
    } else {
      DivisionIsUnique(n + 1, r, q, m + 1);
    }
  }

  /** Where `n` successes take a pool that started at `limit` with an empty streak. */
  predicate ClimbedTo(s: Pool, limit: int, size: int, recoverAfter: int, n: nat)
    requires recoverAfter >= 1
  {
    var lifted := limit + n / recoverAfter;
    && s.limit == (if lifted < size then lifted else size)
    && s.streak == (if lifted < size then n % recoverAfter else 0)
    && s.size == size && s.recoverAfter == recoverAfter
  }

  lemma ClimbStep(s: Pool, step: Step, limit: int, n: nat)
    requires s.recoverAfter >= 1 && limit <= s.size && ClimbedTo(s, limit, s.size, s.recoverAfter, n)
    requires Enabled(s, step) && !Disturbs(s, step)
    ensures ClimbedTo(Apply(s, step), limit, s.size, s.recoverAfter, n + if step.Succeeded? then 1 else 0)
  {
    NextQuotient(n, s.recoverAfter);
  }

  /** A climb goes on through any calm run. */
  lemma {:induction false} ClimbsOn(s: Pool, steps: seq<Step>, limit: int, n: nat)
    requires s.recoverAfter >= 1 && limit <= s.size && ClimbedTo(s, limit, s.size, s.recoverAfter, n)
    requires Legal(s, steps) && Calm(s, steps)
    ensures ClimbedTo(Run(s, steps), limit, s.size, s.recoverAfter, n + Successes(steps))
    decreases |steps|
  {
    if steps != [] {
      ClimbStep(s, steps[0], limit, n);
      ClimbsOn(Apply(s, steps[0]), steps[1..], limit, n + if steps[0].Succeeded? then 1 else 0);
    }
  }

  /** From an empty streak, `n` successes lift the limit by `n / recoverAfter`, up to the
      size and no further. */
  lemma ClimbExactly(s: Pool, steps: seq<Step>)
    requires s.limit <= s.size && s.streak == 0 && s.recoverAfter >= 1
    requires Legal(s, steps) && Calm(s, steps)
    ensures ClimbedTo(Run(s, steps), s.limit, s.size, s.recoverAfter, Successes(steps))
  {
    DivisionIsUnique(0, s.recoverAfter, 0, 0);
    ClimbsOn(s, steps, s.limit, 0);
  }

  /** Below the size, a streak under way counts towards the next lift. */
  lemma ClimbFromStreak(s: Pool, steps: seq<Step>)
    requires s.limit < s.size && 0 <= s.streak < s.recoverAfter
    requires Legal(s, steps) && Calm(s, steps)
    ensures ClimbedTo(Run(s, steps), s.limit, s.size, s.recoverAfter, s.streak + Successes(steps))
  {
    DivisionIsUnique(s.streak, s.recoverAfter, 0, s.streak);
    ClimbsOn(s, steps, s.limit, s.streak);
  }

  /** Full recovery takes exactly `recoverAfter * (size - limit)` successes. */
  lemma RecoveryTakesExactly(s: Pool, steps: seq<Step>)
    requires s.limit <= s.size && s.streak == 0 && s.recoverAfter >= 1
    requires Legal(s, steps) && Calm(s, steps)
    ensures Run(s, steps).limit == s.size <==> Successes(steps) >= s.recoverAfter * (s.size - s.limit)
  {
    ClimbExactly(s, steps);
    QuotientAtLeast(Successes(steps), s.recoverAfter, s.size - s.limit);
  }

  /** Where a 429 that bites takes the limit. */
  function Halved(limit: int): int {
    if limit >= 2 then limit / 2 else 1
  }

  /** After a 429 that bites, whatever the streak before it, recovery starts over: the limit is
      the halved one and a lift for every `recoverAfter` successes since, and it takes exactly
      `recoverAfter * (size - halved)` of them to be back at the size. */
  lemma ClimbAfterRateLimit(s: Pool, now: real, steps: seq<Step>)
    requires s.limit <= s.size && s.size >= 1 && s.recoverAfter >= 1
    requires Enabled(s, RateLimited(now)) && Bites(s, now)
    requires Legal(Apply(s, RateLimited(now)), steps) && Calm(Apply(s, RateLimited(now)), steps)
    ensures var after := Run(Apply(s, RateLimited(now)), steps);
            && ClimbedTo(after, Halved(s.limit), s.size, s.recoverAfter, Successes(steps))
            && (after.limit == s.size <==> Successes(steps) >= s.recoverAfter * (s.size - Halved(s.limit)))
  {
    var s1 := Apply(s, RateLimited(now));
    ClimbExactly(s1, steps);
    RecoveryTakesExactly(s1, steps);
  }

  // Resizing.

  /** Free of signals; permits and sizes may change. */
  predicate Unsignalled(steps: seq<Step>) {
    steps == [] || (!steps[0].RateLimited? && !steps[0].Succeeded? && Unsignalled(steps[1..]))
  }

  /** The last size set, or `size` if none was. */
  function SizeAfter(size: int, steps: seq<Step>): int
    decreases |steps|
  {
    if steps == [] then size else SizeAfter(if steps[0].Resize? then steps[0].value else size, steps[1..])
  }

  /** The smallest of `limit` and the sizes set. */
  function LeastSize(limit: int, steps: seq<Step>): int
    decreases |steps|
  {
    if steps == [] then limit
    else LeastSize(if steps[0].Resize? && steps[0].value < limit then steps[0].value else limit, steps[1..])
  }

  lemma {:induction false} LeastSizeIsLeast(limit: int, steps: seq<Step>)
    ensures LeastSize(limit, steps) <= limit
    ensures forall step | step in steps && step.Resize? :: LeastSize(limit, steps) <= step.value
    ensures LeastSize(limit, steps) == limit || exists step :: step in steps && step.Resize? && step.value == LeastSize(limit, steps)
    decreases |steps|
  {
    if steps != [] {
      LeastSizeIsLeast(if steps[0].Resize? && steps[0].value < limit then steps[0].value else limit, steps[1..]);
      assert steps == [steps[0]] + steps[1..];
      assert LeastSize(limit, steps) == limit || steps[0] in steps;
    }
  }

  lemma UnsignalledStep(s: Pool, step: Step)
    requires Enabled(s, step) && !step.RateLimited? && !step.Succeeded?
    ensures var s' := Apply(s, step);
            && s'.size == (if step.Resize? then step.value else s.size)
            && s'.limit == (if step.Resize? && step.value < s.limit then step.value else s.limit)
            && s'.streak == s.streak && s'.cooldownUntil == s.cooldownUntil && s'.recoverAfter == s.recoverAfter
  {
  }

  /** Without signals the limit falls to the smallest size set and no further, raising a size
      gives nothing back, and the streak goes on. */
  lemma {:induction false} ResizesOnlyClamp(s: Pool, steps: seq<Step>)
    requires Legal(s, steps) && Unsignalled(steps)
    ensures var s' := Run(s, steps);
            && s'.size == SizeAfter(s.size, steps) && s'.limit == LeastSize(s.limit, steps)
            && s'.streak == s.streak && s'.cooldownUntil == s.cooldownUntil && s'.recoverAfter == s.recoverAfter
    decreases |steps|
  {
    if steps != [] {
      UnsignalledStep(s, steps[0]);
      ResizesOnlyClamp(Apply(s, steps[0]), steps[1..]);
    }
  }

  /** A streak does not outlive a success at the ceiling: however far the size is raised after
      it, the climb from there counts from that success. */
  lemma CeilingForgets(s: Pool, resizes: seq<Step>, steps: seq<Step>)
    requires s.limit >= s.size && s.recoverAfter >= 1 && Enabled(s, Succeeded)
    requires Legal(Apply(s, Succeeded), resizes) && Unsignalled(resizes)
    requires LeastSize(s.limit, resizes) <= SizeAfter(s.size, resizes)
    requires Legal(Run(Apply(s, Succeeded), resizes), steps) && Calm(Run(Apply(s, Succeeded), resizes), steps)
    ensures ClimbedTo(Run(Run(Apply(s, Succeeded), resizes), steps), LeastSize(s.limit, resizes),
                      SizeAfter(s.size, resizes), s.recoverAfter, Successes(steps))
  {
    ResizesOnlyClamp(Apply(s, Succeeded), resizes);
    ClimbExactly(Run(Apply(s, Succeeded), resizes), steps);
  }

  /** Below the ceiling a streak does outlive a resize that leaves room above the limit. */
  lemma ResizeKeepsStreak(s: Pool, resizes: seq<Step>, steps: seq<Step>)
    requires 0 <= s.streak < s.recoverAfter && Legal(s, resizes) && Unsignalled(resizes)
    requires LeastSize(s.limit, resizes) < SizeAfter(s.size, resizes)
    requires Legal(Run(s, resizes), steps) && Calm(Run(s, resizes), steps)
    ensures ClimbedTo(Run(Run(s, resizes), steps), LeastSize(s.limit, resizes),
                      SizeAfter(s.size, resizes), s.recoverAfter, s.streak + Successes(steps))
  {
    var s' := Run(s, resizes);
    ResizesOnlyClamp(s, resizes);
    ClimbFromStreak(s', steps);
  }

  /** The pool object. The three task sets are what the condition and the running bodies
      hold between them. */
  class Pooled {
    const recoverAfter: int
    const cooldown: real
    var size: int
    var limit: int
    var active: int
    var streak: int
    var cooldownUntil: real
    var condition: bool
    var waiters: set<TaskId>
    var woken: set<TaskId>
    var holders: set<TaskId>
    var wakeTask: bool
    var orphans: nat

    constructor (size: int, recoverAfter: int, cooldown: real)
      ensures Valid() && Now() == Fresh(size, recoverAfter, cooldown)
    {
      this.recoverAfter, this.cooldown := recoverAfter, cooldown;
      this.size, limit, active, streak, cooldownUntil := size, size, 0, 0, 0.0;
      condition, wakeTask, orphans := false, false, 0;
      waiters, woken, holders := {}, {}, {};
    }

    /** Permits are counted, and nobody is parked beside free capacity unnoticed. */
    ghost predicate Valid()
      reads this
    {
      Sound(Now())
    }

    function Now(): Pool
      reads this
    {
      Pool(recoverAfter, cooldown, size, limit, active, streak, cooldownUntil,
           condition, waiters, woken, holders, wakeTask, orphans)
    }

    /** Evaluates the predicate: enter, or park. */
    method TakeOrPark(task: TaskId) returns (admitted: bool)
      modifies this
      ensures Now() == Admit(old(Now()), task)
      ensures admitted <==> old(active) < old(limit)
    {
      condition := true;
      admitted := active < limit;
      if admitted {
        active := active + 1;
        holders := holders + {task};
      } else {
        waiters := waiters + {task};
      }
    }

    /** The stretch of `slot()` up to the first await. */
    method Enter(task: TaskId) returns (admitted: bool)
      requires Valid() && Enabled(Now(), Arrive(task))
      modifies this
      ensures Valid() && Now() == Apply(old(Now()), Arrive(task))
      ensures admitted <==> task in holders
    {
      StepKeepsSound(Now(), Arrive(task));
      admitted := TakeOrPark(task);
    }

    /** A notified waiter evaluates the predicate again. */
    method Resume(task: TaskId) returns (admitted: bool)
      requires Valid() && Enabled(Now(), Recheck(task))
      modifies this
      ensures Valid() && Now() == Apply(old(Now()), Recheck(task))
      ensures admitted <==> task in holders
    {
      StepKeepsSound(Now(), Recheck(task));
      woken := woken - {task};
      admitted := TakeOrPark(task);
    }

    /** The `finally` of `slot()`, whether the body returned or raised. */
    method Exit(task: TaskId)
      requires Valid() && Enabled(Now(), Release(task))
      modifies this
      ensures Valid() && Now() == Apply(old(Now()), Release(task))
    {
      StepKeepsSound(Now(), Release(task));
      active := active - 1;
      holders := holders - {task};
      Notify();
    }

    /** The wait is cancelled. */
    method GiveUp(task: TaskId)
      requires Valid() && Enabled(Now(), Abandon(task))
      modifies this
      ensures Valid() && Now() == Apply(old(Now()), Abandon(task))
    {
      StepKeepsSound(Now(), Abandon(task));
      waiters := waiters - {task};
      woken := woken - {task};
    }

    method Notify()
      modifies this
      ensures Now() == NotifyAll(old(Now()))
    {
      woken := woken + waiters;
      waiters := {};
    }

    method WakeLater()
      modifies this
      ensures Now() == WakeWaiters(old(Now()))
    {
      if !condition {
        return;
      }
      if wakeTask {
        orphans := orphans + 1;
      }
      wakeTask := true;
    }

    method NoteRateLimit(now: real)
      requires Valid() && Enabled(Now(), RateLimited(now))
      modifies this
      ensures Valid() && Now() == Apply(old(Now()), RateLimited(now))
    {
      StepKeepsSound(Now(), RateLimited(now));
      if cooldown > 0.0 && now < cooldownUntil {
        return;
      }
      limit := if limit / 2 > 1 then limit / 2 else 1;
      cooldownUntil := now + cooldown;
      streak := 0;
    }

    method NoteSucceeded()
      requires Valid() && Enabled(Now(), Succeeded)
      modifies this
      ensures Valid() && Now() == Apply(old(Now()), Succeeded)
    {
      StepKeepsSound(Now(), Succeeded);
      if limit >= size {
        streak := 0;
        return;
      }
      streak := streak + 1;
      if streak >= recoverAfter {
        limit := if limit + 1 < size then limit + 1 else size;
        streak := 0;
        WakeLater();
      }
    }

    method ResizeTo(value: int)
      requires Valid()
      modifies this
      ensures Valid() && Now() == Apply(old(Now()), Resize(value))
    {
      StepKeepsSound(Now(), Resize(value));
      size := value;
      limit := if value < limit then value else limit;
    }
  }
}
