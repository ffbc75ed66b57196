# A verified model of the novelizer agent runtime

This project models the parts of the repository whose correctness is hardest to see from
reading one function, and proves what they are for. It is plain Dafny 4.11; `dafny verify
dfyconfig.toml` checks all of it.

**Causal paradoxes** (`Digraph`, `Tarjan`, `Paradoxes`). The recursive Tarjan of the
paradox detector is a class with the same mutable bookkeeping; its method is proved to
number two chapters alike exactly when each reaches the other, whatever order the roots
come in. On top, the edges reported as cyclic are exactly those whose effect leads back to
their cause, and the detector is silent exactly on acyclic graphs whose edges all go
forward.

**Dispatch** (`AdaptivePool`, `Ranking`, `Scheduling`, `Tick`, `WholeTick`, `Fairness`,
`Backoff`). The LLM pool and the scheduler are step systems, one step for each stretch of
code between two awaits, so a theorem over all step sequences is a theorem over all
interleavings. Beside each stands the class whose methods perform the steps in place and
keep the invariant. Proved: no lost wakeup and exact permit counts for any sizes, AIMD
bounds and the exact climb after a 429, dispatch within the cap, whole ticks from the
clock reading to the last launch (a tick that finds slots free and the gate open puts in
flight exactly the override and the stable top-k of the eligible agents, whatever runs
beside it), and bounded waiting. The backoff ladders are proved against their unclamped
form and against the history of runs.

**Log, projection, cache** (`EventStore`, `Projection`, `LogRun`, `GenerationCache`). A
connection is its committed state plus the transaction it may have left open; what the
database answers to each attempt is an input. Proved: one row per append under retry,
exactly-once projection over a growing log, the exact condition for runs of appends and
passes to keep the tables faithful to the log, and soundness of the lock-free double-read
cache for any number of concurrent calls whose builds straddle commits.

**Live view** (`RunModel`, `Transcript`, `RunHistory`, `MergedList`, `FleetModel`,
`FleetReplay`). The run's event machine, the text blocks, the merged list edited in place,
and both replays. Proved: what a run state shows is what its events say (each call ended
the way its result says, the model calls, the fields), running tool blocks are conserved,
text blocks hold what was heard, the merged list agrees with every agent's run for every
interleaving, and the two replays restore the same runs.

**Budgets** (`TextWindows`, `Keeper`). Window coverage, windows and overlaps as long as
the budget allows, the exact condition for the cutting loop to end, the exact condition
for every window to fit its budget, and what one Keeper pass selects.

**Plans** (`Congestion`, `Briefs`, `BriefContents`). The interval sweep yields the
connected components of overlap; polls, reapings, finished chapters and planning commits
on lists polled earlier keep one open brief per chapter ordinal, and every brief says what
was asked for.

## Results that are not plain confirmations

- A pool whose limit falls below one with nobody inside never hands out a permit again,
  whatever sizes are set later: only a holder signals, and nobody can become one.
  `llm_pool_size` has no lower bound and is set live (`novelizer/runtime.py:582-586`).
  `AdaptivePool.ResizedToNothing` is the run, `AdaptivePool.DeadExactly` the exact condition.
- A commit that fails for good after the cursor moved in its transaction leaves the projector
  reading its own open transaction: the next pass skips that event
  (`Projection.FailedCommitLosesAnEvent`). On the append side the same failure leaves a row
  that only the store's connection shows, and the projector reads through that connection: a
  row that is not in the log is projected (`LogRun.UncommittedRowIsProjected`). Once either
  has happened the tables never match the log again; `LogRun.FaithfulExactly` with
  `LogRun.TroubleBeforehand` says exactly when it happens, by what a pass starts from.
- The cache never stores or serves a torn view, but a call whose build straddles a commit
  returns its own torn build once (`GenerationCache.TornBuildIsReturnedOnce`): exactly when
  two of its reads saw different databases (`GenerationCache.TornExactly`).
- A planning pass only appends (`novelizer/canon/committer.py:20-21`) and polls the projected
  table. Run again before the projector has caught up, it leaves two open briefs for one
  chapter (`Briefs.PollBehindTheLog`): exactly when it drafts over an open brief its list
  misses (`Briefs.OneOpenExactly`).
- The fail ladder reaches its cap at the sixth failure in a row; the comment at
  `agent_kit/base.py:39` says five (`Backoff.TheLadders`).
- A run id an agent uses twice breaks the merged list (`FleetReplay.RestartedRunDisagrees`);
  `FleetReplay.AgreementExactly` says when it stays right.

## Model

| member | source | states |
|---|---|---|
| Digraph.CycleIffBackEdge | novelizer/brain/paradoxes.py:71-84 | A graph is acyclic exactly when no edge's target reaches its source. |
| Tarjan.StronglyConnectedComponents | novelizer/brain/paradoxes.py:23-68 | Every key and every neighbour gets an id, and two nodes share an id exactly when each reaches the other, for any order of the roots. |
| Tarjan.Components.constructor | novelizer/brain/paradoxes.py:29-35 | The bookkeeping starts out empty and valid. |
| Tarjan.Components.StrongConnect | novelizer/brain/paradoxes.py:37-59 | From any valid bookkeeping with unfinished calls that reach the node, the call finishes the node, keeps every invariant, and leaves it on the stack only with a path to something older. |
| Tarjan.Components.Visit | novelizer/brain/paradoxes.py:44-49 | One turn over a neighbour keeps the account of what the lowlink has seen. |
| Tarjan.Components.PopComponent | novelizer/brain/paradoxes.py:51-59 | The popped nodes are exactly those above the stack the call began with, all under one new id. |
| Tarjan.Components.Enter | novelizer/brain/paradoxes.py:38-42 | Numbers the node and pushes it. |
| Tarjan.Components.LowerTo | novelizer/brain/paradoxes.py:47-49 | Lowers one lowlink and nothing else. |
| Tarjan.Components.Pop | novelizer/brain/paradoxes.py:55-57 | Takes the top of the stack and gives it the id. |
| Tarjan.FindComponent | novelizer/brain/paradoxes.py:51-59 | When lowlink equals index, the nodes above reach each other and no edge leads from them down the stack. |
| Tarjan.CloseWithComponent | novelizer/brain/paradoxes.py:51-59 | Numbering such a component keeps ids equal exactly for mutually reaching nodes. |
| Tarjan.CloseWithoutComponent | novelizer/brain/paradoxes.py:51 | Otherwise the node stays on the stack anchored to an older one. |
| Tarjan.StackDrained | novelizer/brain/paradoxes.py:61-68 | With no call running the stack is empty and every explored node is numbered. |
| Paradoxes.AdjacencyIsDeclared | novelizer/brain/paradoxes.py:85-87 | The adjacency lists hold exactly the declared edges. |
| Paradoxes.BuildAdjacency | novelizer/brain/paradoxes.py:85-87 | The loop builds those lists. |
| Paradoxes.AdjacencyAsOften | novelizer/brain/paradoxes.py:85-87 | An edge declared more than once is listed as often. |
| Paradoxes.ComponentSizes | novelizer/brain/paradoxes.py:90-92 | Each id is counted by the number of nodes that carry it. |
| Paradoxes.EdgeVerdict | novelizer/brain/paradoxes.py:95-100 | The test on ids decides whether an edge closes a cycle, self-edges included. |
| Paradoxes.CycleEdges | novelizer/brain/paradoxes.py:71-101 | The result holds exactly the declared pairs whose effect reaches their cause. |
| Paradoxes.IndexChapters | novelizer/brain/paradoxes.py:115 | Each chapter is mapped to the last position it is listed at. |
| Paradoxes.FindParadoxes | novelizer/brain/paradoxes.py:104-131 | One candidate for each flagged edge occurrence, in input order, "ordering" taking precedence over "cycle". |
| Paradoxes.ReportIsInOrder | novelizer/brain/paradoxes.py:116-131 | Place by place, the report is exactly the flagged edges, each occurrence once and in the order declared, with reason "ordering" exactly for those that go backward or stay. |
| Paradoxes.SilentIffConsistent | novelizer/brain/paradoxes.py:104-131 | No candidates exactly when the declared graph is acyclic and no edge between listed chapters goes backward or stays. |
| Paradoxes.EveryCycleEdgeIsFlagged | novelizer/brain/paradoxes.py:104-109 | Every edge of every cycle has its own candidate. |
| Paradoxes.ForwardIsEnough | novelizer/brain/paradoxes.py:104-131 | Between listed chapters, going strictly forward already rules out cycles. |
| AdaptivePool.EveryReachablePoolIsSound | agent_kit/pool.py:118-184 | Over every run of a pool, with any sizes: `active` is the number of permit holders, and a waiter beside free capacity has been woken or has a wake pending. |
| AdaptivePool.EveryReachablePoolIsBounded | agent_kit/pool.py:66-78 | Over every run with sizes of at least one, 1 <= limit <= size and the streak stays under `recover_after`. |
| AdaptivePool.RunKeepsSound | agent_kit/pool.py:118-184 | The same counts and no lost wakeup from any state where they hold. |
| AdaptivePool.PendingWakeAdmits | agent_kit/pool.py:90-141 | Once the pending wake has run, any parked waiter's own re-check gets the free permit. |
| AdaptivePool.EveryWakeReachesAll | agent_kit/pool.py:109-141 | Every release and every wake task that runs has all parked tasks check again. |
| AdaptivePool.NobodyIsLost | agent_kit/pool.py:118-141 | Over every run, the tasks waiting or inside are those that have arrived and neither released nor been cancelled. |
| AdaptivePool.HoldersStay | agent_kit/pool.py:133-141 | A permit is given back by its own holder only. |
| AdaptivePool.NewPoolAdmitsItsSize | agent_kit/pool.py:35-64 | A new pool lets in as many tasks as its size and parks the next. |
| AdaptivePool.DeadForGood | agent_kit/pool.py:118-141 | With a limit below one and nobody inside, no run admits anybody, whatever sizes it sets. |
| AdaptivePool.DeadExactly | agent_kit/pool.py:118-184 | A pool can go on to hand out a permit exactly when it is not in that state. |
| AdaptivePool.ResizedToNothing | agent_kit/pool.py:70-78 | An idle pool resized to zero is in it, and no later size brings it back. |
| AdaptivePool.AcquireRespectsLimit | agent_kit/pool.py:127-132 | `active` rises only by an acquire, by one, and never over the limit in force. |
| AdaptivePool.RateLimitHalves | agent_kit/pool.py:150-159 | An effective 429 halves the limit, never below one. |
| AdaptivePool.CooldownOnlyGrows | agent_kit/pool.py:150-156 | No step shortens a cooldown that is running. |
| AdaptivePool.HalvingsAreSpaced | agent_kit/pool.py:143-159 | Two effective 429s are at least a cooldown apart, whatever happens between. |
| AdaptivePool.NextBitesExactly | agent_kit/pool.py:143-159 | After an effective 429 the next one is effective exactly if a cooldown has passed or there is none. |
| AdaptivePool.ClimbExactly | agent_kit/pool.py:161-184 | From an empty streak, n successes lift the limit by n / `recover_after`, up to the size, through any permit traffic and absorbed 429s. |
| AdaptivePool.ClimbFromStreak | agent_kit/pool.py:161-184 | Below the size, a streak under way counts towards the next lift. |
| AdaptivePool.RecoveryTakesExactly | agent_kit/pool.py:161-184 | Full recovery takes exactly `recover_after` * (size - limit) successes. |
| AdaptivePool.ClimbAfterRateLimit | agent_kit/pool.py:150-184 | After an effective 429, whatever the streak before it, n successes stand at the halved limit + n / `recover_after`, and full recovery takes exactly `recover_after` * (size - halved limit) of them. |
| AdaptivePool.ResizesOnlyClamp | agent_kit/pool.py:66-78 | Without signals the limit falls to the smallest size set and no further, raising a size gives nothing back, and the streak goes on. |
| AdaptivePool.CeilingForgets | agent_kit/pool.py:161-178 | A streak does not outlive a success at the ceiling: after any resizes the climb counts from that success. |
| AdaptivePool.ResizeKeepsStreak | agent_kit/pool.py:66-78 | Below the ceiling a streak outlives any resizes that leave room. |
| AdaptivePool.Pooled.constructor | agent_kit/pool.py:35-64 | A new pool is empty and at its size. |
| AdaptivePool.Pooled.Enter | agent_kit/pool.py:127-132 | An arriving task takes a permit or parks: the arrive step, invariant kept. |
| AdaptivePool.Pooled.TakeOrPark | agent_kit/pool.py:127-132 | One evaluation of the wait predicate admits exactly when the count is under the limit. |
| AdaptivePool.Pooled.Resume | agent_kit/pool.py:131-132 | A notified waiter re-checks for itself: the re-check step, invariant kept. |
| AdaptivePool.Pooled.GiveUp | agent_kit/pool.py:131-132 | A cancelled waiter leaves the wait: the abandon step, invariant kept. |
| AdaptivePool.Pooled.Exit | agent_kit/pool.py:133-141 | A body that returned or raised gives its permit back and wakes everyone: the release step. |
| AdaptivePool.Pooled.WakeLater | agent_kit/pool.py:90-116 | A wake is left pending unless nobody can be waiting. |
| AdaptivePool.Pooled.NoteRateLimit | agent_kit/pool.py:143-159 | Performs the 429 step. |
| AdaptivePool.Pooled.NoteSucceeded | agent_kit/pool.py:161-184 | Performs the success step. |
| AdaptivePool.Pooled.ResizeTo | agent_kit/pool.py:70-78 | Performs the resize step. |
| Ranking.Aged | agent_kit/scheduler.py:121-134 | Aging never lowers a positive score and never makes a non-positive one positive. |
| Ranking.AgingIsLinear | agent_kit/scheduler.py:121-134 | After k horizons of waiting a positive readiness counts exactly (1 + k) times. |
| Ranking.NothingToAge | agent_kit/scheduler.py:131-134 | Without a horizon, or before any wait, a score is the readiness. |
| Ranking.RankIsStable | agent_kit/scheduler.py:218 | The sort is descending and keeps equal scores in line. |
| Ranking.PicksArePositive | agent_kit/scheduler.py:216-228 | The picks are distinct, fit the slots, and each stands for a positive score. |
| Ranking.PicksAreTheBest | agent_kit/scheduler.py:216-228 | Of a scored list, a positive scorer is passed over only when the slots run out, and then every pick outranks it by score or by place in line. |
| Ranking.PicksAreMany | agent_kit/scheduler.py:224-228 | As many are picked as score above zero, or as there are slots. |
| Ranking.TopUpIsPrefix | agent_kit/scheduler.py:224-228 | On the sorted list the loop takes a prefix of positive scores. |
| Scheduling.DispatchIsSafe | agent_kit/scheduler.py:162-250 | Over every interleaving of ticks, runs, permits and cap changes: slots taken and set aside stay within the largest cap so far, nobody in flight or in line is dispatched again, the waiting mark is exact. |
| Scheduling.StatusPartitions | agent_kit/scheduler.py:136-160 | From a fresh scheduler "running" and "waiting on pool" partition the in-flight runs at every await. |
| Scheduling.NotPickedUnlessPositive | agent_kit/scheduler.py:224-228 | Of a scored list, an agent without a positive score is never picked. |
| Tick.TickDecides | agent_kit/scheduler.py:198-228 | From the override's answer to the decision, whatever runs start, end or change the cap between the questions: the queue is the override followed by the top-up from the stably sorted aged scores of all other eligible agents, one reading for each. |
| Tick.ContendersAre | agent_kit/scheduler.py:199-216 | The agents asked are exactly the ready ones not in flight, each once, without the override. |
| Tick.ContendersInOrder | agent_kit/scheduler.py:199-216 | They are asked in roster order, which decides between equal scores. |
| Tick.TickPicksTheBest | agent_kit/scheduler.py:216-228 | A tick passes over an agent with positive readiness only when all free slots are spent, and every asked agent it picks has a higher aged score, or the same and an earlier place on the roster. |
| Tick.TickLeavesTheIdle | agent_kit/scheduler.py:57-60 | No tick dispatches an asked agent whose readiness is not positive, however long it has waited. |
| WholeTick.GateOpens | agent_kit/scheduler.py:167-198 | A tick that starts with slots free and hears an open gate stands at the override question with its own time and all those slots, whatever runs end or start meanwhile. |
| WholeTick.NothingToDo | agent_kit/scheduler.py:171-197 | Without a free slot, behind a shut gate, or when a provider or readiness raises, the tick is over and nobody is dispatched. |
| WholeTick.TickDispatches | agent_kit/scheduler.py:162-250 | A whole tick in any company: the in-flight set gains exactly the override and the stable top of the positive scores of the other eligible agents, less the runs that end meanwhile; each is stamped with the tick's time and no other stamp moves. |
| WholeTick.TickIsFull | agent_kit/scheduler.py:216-228 | It dispatches min(slots free at its start, override and agents with positive readiness) agents. |
| WholeTick.SendsAll | agent_kit/scheduler.py:230-250 | From the decision to the last launch everybody in line is stamped and put in flight, once. |
| WholeTick.WaitsFromTheFirstTick | agent_kit/scheduler.py:133 | Before its first dispatch an agent's wait counts from the scheduler's first tick. |
| WholeTick.StagesAreTold | agent_kit/scheduler.py:299-317 | A run waits to begin, then under a pool is queued until its own permit comes, then works; nothing that happens to others moves it. |
| WholeTick.CapIsTheLast | novelizer/runtime.py:577-581 | The cap in force is the last one set. |
| Scheduling.OverrideGoesFirst | agent_kit/scheduler.py:207-216 | An eligible override takes the first slot, whatever it would score. |
| Scheduling.ClosedGateHoldsAll | agent_kit/scheduler.py:174-197 | Over any run in which the gate never answers open, nobody is dispatched, overrides included, and runs in flight go on. |
| Scheduling.RunCountIsExact | agent_kit/scheduler.py:331-339 | The run count is the number of runs ended, in whatever way. |
| Scheduling.DecideIsSafe | agent_kit/scheduler.py:207-228 | The override and the picks together fit the slots and repeat nobody. |
| Scheduling.FillSlots | agent_kit/scheduler.py:224-228 | The loop appends the top-up to what the override took. |
| Scheduling.Scheduler.StartTicking | agent_kit/scheduler.py:167-173 | Performs the step that opens a tick. |
| Scheduling.Scheduler.HearGate | agent_kit/scheduler.py:185-197 | Performs the gate step. |
| Scheduling.Scheduler.HearOverride | agent_kit/scheduler.py:198-216 | Collects the eligible agents and takes the override first: the override step. |
| Scheduling.Scheduler.HearScore | agent_kit/scheduler.py:217 | Ages one readiness and goes on: the score step. |
| Scheduling.Scheduler.AskOrDecide | agent_kit/scheduler.py:216-228 | Waits for the next score or decides the tick. |
| Scheduling.Scheduler.Stamp | agent_kit/scheduler.py:233-236 | Resets the age at dispatch. |
| Scheduling.Scheduler.Launch | agent_kit/scheduler.py:242-249 | Puts the run in flight. |
| Scheduling.Scheduler.BeginRun | agent_kit/scheduler.py:299-316 | The run begins, queued when there is a pool. |
| Scheduling.Scheduler.TakePermit | agent_kit/scheduler.py:316-317 | The permit clears the waiting mark. |
| Scheduling.Scheduler.EndRun | agent_kit/scheduler.py:331-342 | The run leaves every table and is counted. |
| Scheduling.Scheduler.Abort | agent_kit/scheduler.py:344-351 | A tick whose override provider or readiness raised is given up where it stands. |
| Scheduling.Scheduler.SetCap | novelizer/runtime.py:577-581 | A live cap change: what runs goes on, and the invariant holds under the larger of the caps so far. |
| Fairness.NobodyStarves | agent_kit/scheduler.py:51-64 | An agent with readiness >= need that has waited more than (horizon + span) / need - horizon is picked by the time as many ticks have spent a free slot as there are agents, all rivals' readiness in [0, 1]. |
| Fairness.WaitingScoresHigh | agent_kit/scheduler.py:121-134 | Such an agent scores above 1 + span / horizon. |
| Fairness.ServedScoresLow | agent_kit/scheduler.py:121-134 | A rival dispatched within the span scores at most that. |
| Fairness.DecisionServes | agent_kit/scheduler.py:216-228 | Each tick that spends a slot picks the agent or a rival that had not been served. |
| Fairness.RunWhileWaiting | agent_kit/scheduler.py:162-250 | Over any run, the agent is picked or one more rival is served for each such tick. |
| Backoff.ClampIsHarmless | agent_kit/base.py:56-68 | The clamped delay is min(base * 2^(streak - 1), cap) for every streak, base and cap. |
| Backoff.CapReachedExactly | agent_kit/base.py:56-68 | The cap is reached from step 1 + ceil(log2(cap / base)) on and not before. |
| Backoff.LadderClimbs | agent_kit/base.py:56-68 | Delays never shrink along the ladder and stay within the cap. |
| Backoff.TheLadders | agent_kit/base.py:37-53 | The fail ladder is 2, 4, 8, 16, 32, then 60 from the sixth failure on; the idle one 5, 10, 20, 40, 80, 160, then 300 from the seventh quiet run on. |
| Backoff.StreaksCount | agent_kit/base.py:188-235 | Over any history each streak counts its events since the last reset, each deadline is the last cause plus its delay, and neither ladder moves the other. |
| Backoff.ReadingsAgree | agent_kit/base.py:142-172 | Ready is both deadlines passed; no hold and zero wait are the same moment, the wait ends exactly when the agent is ready, and a hold reports the later deadline, the fail ladder on a tie. |
| Backoff.Agent.NotePass | agent_kit/base.py:174-191 | Advances the idle ladder only. |
| Backoff.Agent.EndRun | agent_kit/base.py:278-335 | Each way a run ends moves the ladders as its history entry says. |
| EventStore.Deciding | novelizer/canon/db.py:20-30 | The retry loop stops at the first attempt that is not a lock, or at the last one. |
| EventStore.FirstThatIsNoLock | novelizer/canon/db.py:20-30 | The first attempt that is no lock decides, at once if it is another error; four locks are final. |
| EventStore.StoredExactly | novelizer/canon/db.py:20-30 | A request is stored exactly if one of its first four attempts stores it and all before ran into a lock. |
| EventStore.Store.Insert | novelizer/canon/event_store.py:62-83 | However many attempts it takes, a stored event is in the log once, at the end; one not stored is not in the log. |
| EventStore.OneRowPerAppend | novelizer/canon/event_store.py:62-87 | A run of appends adds one row for each accepted request, in order, with its id, kind and payload, numbered on from the last. |
| EventStore.SinceIsSuffix | novelizer/canon/event_store.py:108-121 | What a reader gets and what lies behind it make up the log. |
| EventStore.ViewIsTheLog | novelizer/canon/event_store.py:67-75 | The store's own queries show the log except after a commit that failed for good. |
| Projection.PassCommitsExactly | novelizer/canon/projector.py:162-175 | Whatever fails, a pass commits exactly the events at the front that went through, with the cursor at the last of them. |
| Projection.AppliedExactly | novelizer/canon/projector.py:186-208 | An event goes through exactly if one of its first four attempts applies it and all before ran into a lock. |
| Projection.CleanPassIsFaithful | novelizer/canon/projector.py:186-208 | A pass from a clean connection keeps tables = fold of the events up to the cursor. |
| Projection.RunIsFaithful | novelizer/canon/projector.py:162-220 | Over any run of passes reading a growing log, with raises, locks and retries, none of them starting dirty: the committed tables are the fold of exactly the events up to the committed cursor. |
| Projection.FaithfulOnLongerLog | novelizer/canon/projector.py:186-196 | Appends behind the cursor's reach do not disturb that. |
| Projection.StuckEventStaysPut | novelizer/canon/projector.py:163-168 | A permanently failing event never has its prefix applied again. |
| Projection.CursorStampsTables | novelizer/canon/projector.py:210-220 | Every committed change moves the cursor up; an unknown event type moves only the cursor. |
| Projection.DirtyExactly | novelizer/canon/projector.py:197-208 | A pass ends with the cursor moved in an open transaction exactly when a commit failed for good. |
| Projection.OnlyDirtyPassesLoseEvents | novelizer/canon/projector.py:137-139 | With handlers that write every event down, a pass leaves faithful tables faithful exactly unless it starts with the cursor moved in an open transaction, has something to read, and the first of it goes through. |
| Projection.FailedCommitLosesAnEvent | novelizer/canon/projector.py:137-139 | The shortest run that does. |
| Projection.Projector.Apply | novelizer/canon/projector.py:186-208 | The retried transaction has the effect of its deciding attempt alone. |
| Projection.Projector.CatchUpOnce | novelizer/canon/projector.py:162-175 | Applies events in order and stops at the first that fails. |
| LogRun.UntroubledRunsFollow | novelizer/canon/projector.py:165 | Over any run of appends and passes that read the log through the store's own connection, any handlers: while no pass is in trouble the tables are the fold of the log up to the cursor. |
| LogRun.TroubleBeforehand | novelizer/canon/projector.py:162-175 | Trouble shows before the pass: its first unread event will go through, and the projector is dirty, or all unread events will go through up to a row the log does not hold. |
| LogRun.FaithfulExactly | novelizer/canon/projector.py:162-208 | With handlers that write every event down and new ids, the tables end faithful exactly when no pass of the run was in trouble: what is lost, or written without being in the log, is never made good. |
| LogRun.UncommittedRowIsProjected | novelizer/canon/event_store.py:62-87 | An append whose commit fails for good, then a pass: the row is in the tables and not in the log. |
| GenerationCache.CacheIsSound | novelizer/canon_fs/generation.py:40-63 | Under every interleaving the stored value is the view of the database at exactly the stored generation, and every hit or verified build is the view at a generation current during its call. |
| GenerationCache.AnswersWereCurrent | novelizer/canon_fs/generation.py:40-63 | From a cold start, every hit and every verified build returned one database's view that was current at some moment of that call. |
| GenerationCache.HitMatchesOwnStamp | novelizer/canon_fs/generation.py:50-58 | A late store of an older generation is harmless: a call is answered only from the generation it read itself. |
| GenerationCache.WarmCacheAnswers | novelizer/canon_fs/generation.py:56-58 | While the entry is of the current generation, until the next commit or store, whoever calls is given the stored value and reads nothing. |
| GenerationCache.QuietCallsVerify | novelizer/canon_fs/generation.py:59-63 | While nothing is committed every call that returns is a hit or verified. |
| GenerationCache.BuildsAreKept | novelizer/canon_fs/generation.py:60-62 | A build is stored exactly when no commit disturbed its call. |
| GenerationCache.TornBuildIsReturnedOnce | novelizer/canon_fs/generation.py:59-63 | A build that straddles a commit may return a view no database had; it is never stored. |
| GenerationCache.TornExactly | novelizer/canon_fs/generation.py:43-63 | For reads that tell databases apart, what a call built and returned is one database's view exactly when all its reads saw the same database. |
| GenerationCache.ProjectorCommits | novelizer/canon_fs/generation.py:11-15 | What the projector commits is a step to a higher generation or nothing. |
| GenerationCache.Cache.Probe | novelizer/canon_fs/generation.py:56-58 | Answers exactly when the entry carries the generation read. |
| GenerationCache.Cache.Settle | novelizer/canon_fs/generation.py:59-63 | Stores exactly when the generation did not move, returns the build either way. |
| RunModel.ToolBlocksConserved | tui_kit/run_model.py:168-210 | Per tool, running blocks number the run's starts less its results, floored at zero, however repeats and parallel calls interleave. |
| RunModel.ResultsFindTheirCall | tui_kit/run_model.py:186-198 | A result with an input goes to the running call with that input, whatever else runs. |
| RunModel.PlainResultsTakeTheLast | tui_kit/run_model.py:186-198 | A result without one goes to the last running call of its tool. |
| RunModel.BlocksStay | tui_kit/run_model.py:82-87 | Within a run blocks are only appended, one at a time, and never change kind. |
| RunHistory.OutcomesAreTold | tui_kit/run_model.py:168-210 | Over any stream each tool block shows one call of the run, in call order: running while it has no result, done exactly if its result was a finish, with that duration, sequence and preview, failed exactly if it was a failure, with that error; every call under way is shown. |
| RunHistory.RepeatsGoOn | tui_kit/run_model.py:168-185 | There is a block for every call that does not say again what the last thing shown, an ended call, said. |
| RunHistory.EveryCallCounts | tui_kit/run_model.py:168-185 | The repeat counts add up to the calls made. |
| RunHistory.SummaryFindsItsCall | tui_kit/run_model.py:131-141 | A summary goes to the last ended call of its tool and input that has none, and nowhere else. |
| RunHistory.RoundsAreTold | tui_kit/run_model.py:150-162 | The model calls shown are those started in the run, in order; one is finished, with its duration, exactly when a finish came before anything else was said or called. |
| RunHistory.FieldsAreTold | tui_kit/run_model.py:124-167 | Over any stream: the run and its start are those of the last start; ended or crashed, and when, is what its last end says; error, prompt, model and call are the last reported; tokens count deltas since the last finished model call on top of it. |
| RunHistory.TextStaysTogether | tui_kit/run_model.py:111-120 | No text block follows one of its own kind. |
| RunHistory.BlocksAreSigned | tui_kit/run_model.py:111-185 | A block is signed by the agent whose item opened it, for good. |
| RunHistory.KeepsTheTail | tui_kit/run_model.py:111-120 | A cut text is its last characters, all of it if it is no longer than the cap. |
| RunHistory.CutToOneLine | tui_kit/run_model.py:18-24 | Inputs are cut to 120 characters, previews to 200, line breaks replaced one for one. |
| Transcript.FoldShortened | tui_kit/run_model.py:111-120 | Cutting text blocks to the cap as deltas arrive equals cutting the uncapped fold once at the end. |
| Transcript.NothingHeardIsLost | tui_kit/run_model.py:111-130 | Uncapped, the prose blocks hold exactly the text deltas heard since the run began while it was running, in order; likewise thinking. |
| MergedList.Positions | tui_kit/fleet_model.py:53-54 | Lists where the run's entries sit, in order. |
| MergedList.RefreshInPlace | tui_kit/fleet_model.py:55-57 | Edits the list in place, one position after another. |
| MergedList.PutsAreRefresh | tui_kit/fleet_model.py:53-57 | Those edits give each entry of the run the block of its place among them and touch nothing else. |
| MergedList.NewTail | tui_kit/fleet_model.py:58-60 | One new entry for each block that had none, in order. |
| MergedList.TailIsNew | tui_kit/fleet_model.py:58-60 | They are exactly the run's blocks from there on, each at its own index. |
| MergedList.OwnOfMerged | tui_kit/fleet_model.py:42-63 | After reconciling, the run's entries are its old ones refreshed by place, then the new ones. |
| MergedList.OthersUnmoved | tui_kit/fleet_model.py:42-50 | Every other run's entries are as they were. |
| FleetModel.SetRunState | tui_kit/fleet_model.py:42-63 | The method with its loops computes the merge. |
| FleetModel.StepAgrees | tui_kit/fleet_model.py:66-73 | If every agent's entries match its run, they still do after an event exactly when it does not start a run that already has entries. |
| FleetReplay.AgreementExactly | tui_kit/fleet_model.py:42-73 | A whole stream keeps list and runs in agreement throughout exactly when no start lands on a run with entries. |
| FleetReplay.FreshStreamsAgree | tui_kit/fleet_model.py:42-73 | Run ids fresh per agent are enough. |
| FleetReplay.RestartedRunDisagrees | tui_kit/fleet_model.py:53-57 | A run id used twice breaks it. |
| FleetReplay.OnlyAppends | tui_kit/fleet_model.py:12-14 | Whatever arrives, an entry keeps its place, agent, run and index. |
| FleetReplay.KindsNeverChange | tui_kit/run_model.py:82-87 | In an agreeing fleet no entry's block changes kind. |
| FleetReplay.PlacesAreForGood | tui_kit/fleet_model.py:12-14 | Over a whole fresh stream a place, once taken, means the same block for good. |
| FleetReplay.StatesAreSeparate | tui_kit/fleet_model.py:66-73 | In any interleaving an agent's state is the fold of its own events alone. |
| FleetReplay.StatesHoldTheLastOfEachText | tui_kit/fleet_model.py:66-73 | An agent's state is its own events folded uncapped, each text then cut to its last 8000 characters. |
| FleetReplay.SeedState | tui_kit/run_model.py:214-222 | Replays one agent's events and marks a running run detached. |
| FleetReplay.ReplayedIsFold | tui_kit/run_model.py:214-222 | What a replay restores is the fold of the events, attached exactly when the run is not live. |
| FleetReplay.GroupByAgent | tui_kit/run_model.py:235-239 | Groups events by agent in order, dropping those with none. |
| FleetReplay.SeedStates | tui_kit/run_model.py:231-240 | Every agent's group replayed by itself. |
| FleetReplay.SeedFleet | tui_kit/fleet_model.py:81-90 | The one-pass replay of the merged stream, running runs detached. |
| FleetReplay.ReplaysAgree | tui_kit/fleet_model.py:81-90 | Both replays restore the same runs, for every stream. |
| TextWindows.ChunkProse | novelizer/text_chunk.py:4-15 | The loop yields the windows of the recursive cut. |
| TextWindows.StopsExactly | novelizer/text_chunk.py:8-14 | On a text longer than a window the loop ends exactly when the overlap is smaller than the window. |
| TextWindows.RejoinIsText | novelizer/text_chunk.py:4-15 | Dropping each later window's overlap and joining gives the text back. |
| TextWindows.WindowsOverlap | novelizer/text_chunk.py:4-15 | Every window fits, each later one adds a character and starts with the end of the one before. |
| TextWindows.OverlapChars | novelizer/brain/context_assembly.py:46-48 | The overlap is always smaller than the window. |
| TextWindows.AssembleVerbatim | novelizer/brain/context_assembly.py:36-50 | The windows, numbered, for any estimator. |
| TextWindows.NothingIsCutOff | novelizer/brain/context_assembly.py:36-50 | Whatever the budget and the estimator, the windows give the text back. |
| TextWindows.WindowsUseTheBudget | novelizer/brain/context_assembly.py:44-50 | Over budget, every window but the last is as long as the budget allows, each next one repeats an overlap as long as a quarter of it allows, and there are as many windows as that takes and no more. |
| TextWindows.WindowsAreNumbered | novelizer/brain/context_assembly.py:42-50 | A text within budget is one window; windows are numbered in order and carry their count. |
| TextWindows.EstimateRoundsUp | novelizer/brain/context_assembly.py:19-23 | The estimate is the length over four, rounded up. |
| TextWindows.WindowsFitExactly | novelizer/brain/context_assembly.py:22-50 | With the heuristic estimator every window is within the budget exactly when the budget is at least one, or the text is empty and the budget zero. |
| Keeper.SelectUnmined | novelizer/agents/character_keeper.py:182-196 | A prefix of the backlog, not empty unless the backlog is, within budget beyond its first chapter, and as long as that allows. |
| Keeper.GreedyIsUnique | novelizer/agents/character_keeper.py:182-196 | That describes one prefix only. |
| Keeper.SplitExactly | novelizer/brain/context_assembly.py:41-49 | A chapter is split exactly when it has two characters and costs more than the budget. |
| Keeper.SplitChaptersStandAlone | novelizer/agents/character_keeper.py:247-271 | Chapters chosen together fit the budget together and none of them is split. |
| Keeper.OversizeGoesAlone | novelizer/agents/character_keeper.py:247-252 | An oversize chapter at the head is chosen alone. |
| Keeper.BacklogDrains | novelizer/agents/character_keeper.py:152-157 | Stamping passes read a fixed backlog once each, in order, and as many passes as chapters read it all. |
| Congestion.WindowsAreLive | novelizer/brain/resolution_pacing.py:26-32 | A window with an upper end of at least one is listed once for every planted or touched thread and every unrevealed secret set on it, and never otherwise. |
| Congestion.MergeSpans | novelizer/brain/resolution_pacing.py:36-44 | The sweep loop computes the recursive merge. |
| Congestion.CongestedWindows | novelizer/brain/resolution_pacing.py:21-45 | Filter, sort, sweep, and the final filter. |
| Congestion.SpansAreComponents | novelizer/brain/resolution_pacing.py:35-44 | For proper windows in any order the spans are apart and sorted, cover every window, have their ends on members, count their members, and link them all. |
| Congestion.SameSpanIffLinked | novelizer/brain/resolution_pacing.py:38-43 | Two windows share a span exactly when a chain of overlapping windows joins them. |
| Congestion.EveryWindowCounts | novelizer/brain/resolution_pacing.py:37-44 | The counts sum to the number of windows. |
| Congestion.CrowdsAreReported | novelizer/brain/resolution_pacing.py:45 | A window is reported exactly when more than the limit of windows are linked to it. |
| Congestion.ReportIsInOrder | novelizer/brain/resolution_pacing.py:44-45 | Reported are exactly the spans over the limit, each ending before the next begins. |
| Briefs.CommitBriefIntents | novelizer/agents/intents.py:656-719 | The loop emits the events of the recursive pass. |
| Briefs.ActiveOf | novelizer/agents/intents.py:669-677 | The loop keeps the citations that are active once normalized. |
| BriefContents.ActiveKeeps | novelizer/agents/intents.py:669-677 | Kept are exactly the citations that are active once normalized, each at its own place, in the order cited. |
| BriefContents.ActiveAsOften | novelizer/agents/intents.py:669-677 | An active id is kept as often as it is cited, any other never. |
| BriefContents.BriefsAreAsAsked | novelizer/agents/intents.py:660-707 | After a pass exactly the drafts with a future ordinal and a goal that says something are in the table, each with the plan asked for and its active citations, kept as above. |
| BriefContents.OneOpenThroughout | novelizer/agents/intents.py:686-704 | However far the projector has got in a pass's events one brief is open per ordinal: a brief gives way before its successor is drafted. |
| BriefContents.BriefsTellTheirStory | novelizer/canon/projections/outline.py:111-153 | A brief has the plan it was drafted with first, and is closed by the first closing event after that, the way that event says. |
| BriefContents.NormalizedIs | novelizer/agents/intents.py:669-677 | A normalized id is the raw one in lower case without the blanks at its ends; normalizing twice changes nothing. |
| BriefContents.StripsToNothing | novelizer/agents/intents.py:667-669 | A goal strips to nothing exactly when it is blank all through. |
| Briefs.IndexByOrdinal | novelizer/agents/intents.py:657 | Indexes the open briefs by ordinal, the last one winning. |
| BriefContents.IndexTakesTheLast | novelizer/agents/intents.py:657 | Of the briefs listed for an ordinal the pass knows the last. |
| Briefs.DraftEffect | novelizer/agents/intents.py:687-707 | An accepted draft adds one open brief and closes exactly the open one of its ordinal. |
| Briefs.ReplacedPointsOn | novelizer/agents/intents.py:688-693 | The brief it replaces points to it. |
| Briefs.SupersededPointsNowhere | novelizer/agents/intents.py:716-719 | A cited brief is closed and points nowhere. |
| Briefs.PassIsWork | novelizer/agents/intents.py:656-719 | Projecting the events of a pass is working its intents on the table one after another. |
| Briefs.OneOpenPerOrdinal | novelizer/agents/intents.py:642-648 | After any intents a table has one open brief per ordinal, even when briefs on the list were closed since it was polled. |
| Briefs.OpenExactly | novelizer/agents/intents.py:656-719 | The briefs open afterwards are exactly the last accepted draft of each ordinal and the ones open before, neither drafted over nor cited; the list may be old. |
| Briefs.OneOpenExactly | novelizer/agents/intents.py:656-719 | On a list that misses open briefs, a pass keeps one open brief per ordinal exactly when it drafts over no ordinal missed. |
| Briefs.PollBehindTheLog | novelizer/canon/committer.py:20-21 | A list polled before the last draft was projected and one more draft for its chapter: two open briefs. |
| Briefs.DraftsAreKept | novelizer/agents/intents.py:660-704 | Every accepted draft is in the table as drafted: future ordinal, a goal that is not blank, active citations only. |
| Briefs.OnlyDraftsAreAdded | novelizer/agents/intents.py:656-719 | The table gains exactly the accepted drafts and no plan in it changes. |
| Briefs.Absorbing | novelizer/canon/projections/outline.py:131-153 | A closed brief never changes again. |
| Briefs.ReapStaleOpenBriefs | novelizer/agents/plotter.py:275-296 | The loop supersedes the listed briefs whose chapter is drafted, in order. |
| Briefs.PlansAreAhead | novelizer/agents/plotter.py:214-252 | After a planning commit, which reaps and then passes the same polled list on, one brief is open per ordinal and every open brief plans a chapter ahead. |
| Briefs.NeverTwoOpen | novelizer/agents/intents.py:642-648 | However polls, closings and commits follow one another, briefs that close between a poll and its commit included, no ordinal ever has two open briefs. |
| Briefs.ClosedForGood | novelizer/canon/projections/outline.py:131-153 | Over any such run a closed brief stays as it was closed. |

## Assumptions

- Floats are reals; `int(x * ratio)` is the exact floor. Ids are strings, minted ids are
  inputs required to be new and different.
- Code between two awaits is one step, and any step may follow any other. The pool's
  condition lock is never held across a suspension, so taking it is part of a step.
- Only tasks that hold a permit signal the pool, as both callers do
  (`agent_kit/scheduler.py:316-325`, `novelizer/store/drain.py:87-95`).
- One planner, and brief events are not gated into proposals. That the projected table is
  caught up when the planner polls is assumed by `Briefs.NeverTwoOpen` and not by
  `Briefs.OneOpenExactly`.
- Agent names are unique; one ticker; one projector per file, never reset; the cache reads
  committed generations, a build never returns `None`, and every change of the read model
  is a projector commit.
- A transaction takes effect whole or not at all; a connection's own queries see its open
  transaction. Handlers are arbitrary deterministic functions of tables and event.
- `lo <= hi` for the windows of the congestion theorems, which the commit helpers enforce
  (`novelizer/agents/intents.py:772`).
- The bounded-waiting theorem has the gate open, no override, and the watched agent eligible
  whenever a tick looks; caps, permits and run ends are unrestricted.

## Left out

- LLM calls, prompts, middleware, embeddings, Postgres, widgets, CLI, settings and EPUB: input, output or libraries outside the repository.
- Telemetry and the eligibility report of a tick: they change no state the model has, and emitters that raise are not modelled.
- `_last_error`, `_last_completed`, pausing and the contents of a status row beyond its two run flags: easy members.
- Cancellation inside the release of a permit, or of a task that has not begun: the source leaves the name in flight in the second case.
- More than one projector, and `_reset_state`: the cursor is read outside the applying transaction, and a reset takes it back.
- The projection handlers other than the chapter-brief ones, and the columns of an event row beyond sequence, id, type and payload.
- `assemble_advisory` and the prompt text the Keeper builds: string packing with easy members only.
- `running_states`, `primary_state`, vitals lines and the other formatters of the live view: easy members.
- The other `commit_*_intents` helpers: validation branches without shared state.
- Briefs.NormalizeId: strips and lower-cases ASCII only, where the source follows Unicode.
- Transcript.FoldShortened: holds for any cap; a cap of zero, which the source's slice would read as no cap, is not the source's constant.
- Overrides in the bounded-waiting theorem: an override takes its slot before scoring and can keep taking the only free one.
