/** The projector (novelizer/canon/projector.py): events are folded into tables one
    transaction at a time, the replay cursor moving in the same transaction.

    Handlers are arbitrary functions of the tables and the event. What the database and
    the handler do on each attempt is an input. */
module Projection {
  import opened Options
  import opened EventStore

  /** Tables of any type, and the position they claim to include everything up to. */
  datatype Snapshot<T> = Snapshot(tables: T, cursor: nat)

  /** The projector's connection: what is committed, and the transaction left open. */
  datatype Conn<T> = Conn(committed: Snapshot<T>, open: Option<Snapshot<T>>)

  type Handlers<!T> = map<string, (T, Event) -> T>

  /** How one attempt at one event ends. */
  datatype Attempted<T> =
    | BeginFailed(locked: bool)
    | HandlerFailed(partial: T, locked: bool)  // some of its writes are in the open transaction
    | CommitFailed(locked: bool)               // all writes and the cursor are, uncommitted
    | Applied

  /** The outcome of each attempt at each event, by sequence number and attempt. */
  type Weather<!T> = (nat, nat) -> Attempted<T>

  /** A query through the connection sees its open transaction. */
  function OwnView<T>(c: Conn<T>): Snapshot<T> {
    if c.open.Some? then c.open.value else c.committed
  }

  /** An event type without a handler changes nothing. */
  function Project<T>(handlers: Handlers<T>, tables: T, e: Event): T {
    if e.kind in handlers then handlers[e.kind](tables, e) else tables
  }

  function Fold<T>(handlers: Handlers<T>, tables: T, events: seq<Event>): T {
    if events == [] then tables
    else Project(handlers, Fold(handlers, tables, events[..|events| - 1]), events[|events| - 1])
  }

  function Attempt<T>(handlers: Handlers<T>, c: Conn<T>, e: Event, a: Attempted<T>): Conn<T> {
    var after := Snapshot(Project(handlers, c.committed.tables, e), e.sequence);
    match a
    case BeginFailed(_) => c.(open := None)
    case HandlerFailed(partial, _) => c.(open := Some(Snapshot(partial, c.committed.cursor)))
    case CommitFailed(_) => c.(open := Some(after))
    case Applied => Conn(after, None)
  }

  predicate Retries<T>(a: Attempted<T>, attempt: nat) {
    !a.Applied? && a.locked && attempt < ATTEMPTS
  }

  /** `retry_locked` around one event's transaction, from a given attempt on. */
  function LastAttempt<T>(weather: Weather<T>, sequence: nat, attempt: nat): (k: nat)
    requires 1 <= attempt <= ATTEMPTS
    ensures attempt <= k <= ATTEMPTS && !Retries(weather(sequence, k), k)
    ensures forall i | attempt <= i < k :: Retries(weather(sequence, i), i)
    decreases ATTEMPTS - attempt
  {
    if Retries(weather(sequence, attempt), attempt) then LastAttempt(weather, sequence, attempt + 1) else attempt
  }

  function Verdict<T>(weather: Weather<T>, e: Event): Attempted<T> {
    weather(e.sequence, LastAttempt(weather, e.sequence, 1))
  }

  predicate Locked<T>(a: Attempted<T>) {
    !a.Applied? && a.locked
  }

  /** The first attempt that is no lock gives the verdict, at once if it is an error of another
      kind; four locks in a row are final. */
  lemma FirstThatIsNoLock<T>(weather: Weather<T>, e: Event, k: nat)
    requires 1 <= k <= 4 && (forall i | 1 <= i < k :: Locked(weather(e.sequence, i)))
    requires k == 4 || !Locked(weather(e.sequence, k))
    ensures Verdict(weather, e) == weather(e.sequence, k)
  {
    var d := LastAttempt(weather, e.sequence, 1);
    assert k < d ==> Retries(weather(e.sequence, k), k);
  }

  /** An event goes through exactly if one of its first four attempts applies it and all before
      that one ran into a lock. */
  lemma AppliedExactly<T>(weather: Weather<T>, e: Event)
    ensures Verdict(weather, e).Applied? <==>
              exists k | 1 <= k <= 4 :: weather(e.sequence, k).Applied? && forall i | 1 <= i < k :: Locked(weather(e.sequence, i))
  {
    var d := LastAttempt(weather, e.sequence, 1);
    assert forall i | 1 <= i < d :: Retries(weather(e.sequence, i), i) ==> Locked(weather(e.sequence, i));
    if k :| 1 <= k <= 4 && weather(e.sequence, k).Applied? && forall i | 1 <= i < k :: Locked(weather(e.sequence, i)) {
      FirstThatIsNoLock(weather, e, k);
    }
  }

  /** One event, all its attempts: only the deciding one leaves a trace. */
  function ApplyOne<T>(handlers: Handlers<T>, c: Conn<T>, e: Event, weather: Weather<T>): Conn<T> {
    Attempt(handlers, c, e, Verdict(weather, e))
  }

  /** Events in order until one of them is not applied. */
  function ApplyEach<T>(handlers: Handlers<T>, c: Conn<T>, events: seq<Event>, weather: Weather<T>): Conn<T>
    decreases |events|
  {
    if events == [] then c
    else
      var c1 := ApplyOne(handlers, c, events[0], weather);
      if Verdict(weather, events[0]).Applied? then ApplyEach(handlers, c1, events[1..], weather) else c1
  }

  /** `catch_up`: read the cursor through the connection, fetch what lies beyond, apply. */
  function CatchUp<T>(handlers: Handlers<T>, c: Conn<T>, log: seq<Event>, weather: Weather<T>): Conn<T> {
    ApplyEach(handlers, c, EventsSince(log, OwnView(c).cursor), weather)
  }

  /** The events at the front that go through. */
  function Through<T>(events: seq<Event>, weather: Weather<T>): (n: nat)
    ensures n <= |events|
  {
    if events == [] || !Verdict(weather, events[0]).Applied? then 0 else 1 + Through(events[1..], weather)
  }

  lemma {:induction false} FoldSplit<T>(handlers: Handlers<T>, tables: T, a: seq<Event>, b: seq<Event>)
    ensures Fold(handlers, tables, a + b) == Fold(handlers, Fold(handlers, tables, a), b)
  {
    if b == [] {
      assert a + b == a;
    } else {
      assert (a + b)[..|a + b| - 1] == a + b[..|b| - 1];
      FoldSplit(handlers, tables, a, b[..|b| - 1]);
    }
  }

  /** What a pass commits, whatever the weather: the tables gain exactly the events that
      went through, and the cursor is at the last of them. */
  lemma {:induction false} PassCommitsExactly<T>(handlers: Handlers<T>, c: Conn<T>, events: seq<Event>, weather: Weather<T>)
    ensures var c' := ApplyEach(handlers, c, events, weather);
            var done := events[..Through(events, weather)];
            && c'.committed.tables == Fold(handlers, c.committed.tables, done)
            && c'.committed.cursor == (if done == [] then c.committed.cursor else done[|done| - 1].sequence)
    decreases |events|
  {
    if events != [] && Verdict(weather, events[0]).Applied? {
      var e, rest := events[0], events[1..];
      var c1 := ApplyOne(handlers, c, e, weather);
      PassCommitsExactly(handlers, c1, rest, weather);
      var n := Through(rest, weather);
      assert events[..n + 1] == [e] + rest[..n];
      FoldSplit(handlers, c.committed.tables, [e], rest[..n]);
      assert [e][..0] == [];
      assert Fold(handlers, c.committed.tables, [e]) == Project(handlers, c.committed.tables, e);
    }
  }

  /** The tables are the fold of exactly the events up to the cursor, each once. */
  ghost predicate Faithful<T>(handlers: Handlers<T>, start: T, s: Snapshot<T>, log: seq<Event>) {
    s.tables == Fold(handlers, start, log[..Seen(log, s.cursor)])
  }

  /** A transaction left open after the cursor had moved in it. */
  predicate Dirty<T>(c: Conn<T>) {
    c.open.Some? && c.open.value.cursor != c.committed.cursor
  }

  /** Growing the log at the end leaves a faithful snapshot faithful. */
  lemma FaithfulOnLongerLog<T>(handlers: Handlers<T>, start: T, s: Snapshot<T>, log: seq<Event>, more: seq<Event>)
    requires Ascending(log) && Ascending(log + more) && Faithful(handlers, start, s, log)
    requires forall e | e in more :: e.sequence > s.cursor
    ensures Faithful(handlers, start, s, log + more)
  {
    SinceIsSuffix(log, s.cursor);
    SinceIsSuffix(log + more, s.cursor);
    var n := Seen(log, s.cursor);
    assert forall i | 0 <= i < |log + more| :: (log + more)[i].sequence <= s.cursor <==> i < n by {
      forall i | 0 <= i < |log + more|
        ensures (log + more)[i].sequence <= s.cursor <==> i < n
      {
        if i >= |log| {
          assert (log + more)[i] in more;
        }
      }
    }
    SeenIs(log + more, s.cursor, n);
    assert (log + more)[..n] == log[..n];
  }

  /** The position in an ascending log is pinned down by what lies on either side. */
  lemma SeenIs(log: seq<Event>, cursor: nat, n: nat)
    requires Ascending(log) && n <= |log|
    requires forall i | 0 <= i < |log| :: log[i].sequence <= cursor <==> i < n
    ensures Seen(log, cursor) == n
  {
    SinceIsSuffix(log, cursor);
    var m := Seen(log, cursor);
    assert m < |log| ==> !(log[m].sequence <= cursor);
    assert n < |log| ==> !(log[n].sequence <= cursor);
  }

  /** In an ascending log, the events up to the one at `i` are those before position i + 1. */
  lemma PositionOf(log: seq<Event>, i: nat)
    requires Ascending(log) && i < |log|
    ensures forall j | 0 <= j < |log| :: log[j].sequence <= log[i].sequence <==> j < i + 1
  {
    forall j | 0 <= j < |log|
      ensures log[j].sequence <= log[i].sequence <==> j < i + 1
    {
      if j < i {
        assert Earlier(log, j, i);
      } else if j > i {
        assert Earlier(log, i, j);
      }
    }
  }

  /** Where a reader stands after taking `n` more events of those it had not seen. */
  lemma SeenMoves(log: seq<Event>, cursor: nat, n: nat)
    requires Ascending(log) && n <= |EventsSince(log, cursor)|
    ensures var next := if n == 0 then cursor else EventsSince(log, cursor)[n - 1].sequence;
            && next >= cursor && Seen(log, next) == Seen(log, cursor) + n
    ensures log[..Seen(log, cursor)] + EventsSince(log, cursor)[..n] == log[..Seen(log, cursor) + n]
  {
    SinceIsSuffix(log, cursor);
    var k := Seen(log, cursor);
    if n > 0 {
      assert EventsSince(log, cursor)[n - 1] == log[k + n - 1];
      PositionOf(log, k + n - 1);
      SeenIs(log, log[k + n - 1].sequence, k + n);
    }
  }

  /** A clean pass keeps the committed tables faithful, under any failures. */
  lemma CleanPassIsFaithful<T>(handlers: Handlers<T>, start: T, c: Conn<T>, log: seq<Event>, weather: Weather<T>)
    requires Ascending(log) && !Dirty(c) && Faithful(handlers, start, c.committed, log)
    ensures Faithful(handlers, start, CatchUp(handlers, c, log, weather).committed, log)
    ensures CatchUp(handlers, c, log, weather).committed.cursor >= c.committed.cursor
  {
    var events := EventsSince(log, c.committed.cursor);
    var n := Through(events, weather);
    PassCommitsExactly(handlers, c, events, weather);
    FoldSplit(handlers, start, log[..Seen(log, c.committed.cursor)], events[..n]);
    SeenMoves(log, c.committed.cursor, n);
  }

  lemma TailIsLater(events: seq<Event>)
    requires Ascending(events) && events != []
    ensures Ascending(events[1..]) && forall e | e in events[1..] :: e.sequence > events[0].sequence
  {
    AscendingPart(events, 1, |events|);
    assert events[1..|events|] == events[1..];
    forall e | e in events[1..]
      ensures e.sequence > events[0].sequence
    {
      var i :| 0 <= i < |events[1..]| && events[1..][i] == e;
      assert Earlier(events, 0, i + 1);
    }
  }

  /** How a pass ends dirty: on an event whose commit failed for good. */
  lemma {:induction false} DirtyExactly<T>(handlers: Handlers<T>, c: Conn<T>, events: seq<Event>, weather: Weather<T>)
    requires Ascending(events) && forall e | e in events :: e.sequence > c.committed.cursor
    ensures var n := Through(events, weather);
            Dirty(ApplyEach(handlers, c, events, weather)) <==>
              if n < |events| then Verdict(weather, events[n]).CommitFailed? else n == 0 && Dirty(c)
    decreases |events|
  {
    if events != [] && Verdict(weather, events[0]).Applied? {
      TailIsLater(events);
      DirtyExactly(handlers, ApplyOne(handlers, c, events[0], weather), events[1..], weather);
    }
  }

  // Whole runs.

  /** One call of `catch_up`: how much of the log it could see, and how things went. */
  datatype Pass<!T> = Pass(visible: nat, weather: Weather<T>)

  function RunPasses<T>(handlers: Handlers<T>, c: Conn<T>, all: seq<Event>, passes: seq<Pass<T>>): Conn<T>
    requires forall p | p in passes :: p.visible <= |all|
  {
    if passes == [] then c else
      var front, p := passes[..|passes| - 1], passes[|passes| - 1];
      CatchUp(handlers, RunPasses(handlers, c, all, front), all[..p.visible], p.weather)
  }

  /** The log only grows between passes. */
  ghost predicate Growing<T>(all: seq<Event>, passes: seq<Pass<T>>) {
    && (forall p | p in passes :: p.visible <= |all|)
    && (forall i, j | 0 <= i <= j < |passes| :: passes[i].visible <= passes[j].visible)
  }

  /** No pass begins on a connection whose last commit failed for good. */
  ghost predicate StartsClean<T>(handlers: Handlers<T>, c: Conn<T>, all: seq<Event>, passes: seq<Pass<T>>)
    requires forall p | p in passes :: p.visible <= |all|
  {
    forall i | 0 <= i < |passes| :: !Dirty(RunPasses(handlers, c, all, passes[..i]))
  }

  lemma SeenInPrefix(all: seq<Event>, m: nat, cursor: nat)
    requires Ascending(all) && m <= |all| && Seen(all, cursor) <= m
    ensures Ascending(all[..m]) && Seen(all[..m], cursor) == Seen(all, cursor)
  {
    AscendingPart(all, 0, m);
    SinceIsSuffix(all, cursor);
    SeenIs(all[..m], cursor, Seen(all, cursor));
  }

  /** A pass over a visible prefix moves the cursor within it, over the next `n` events. */
  lemma PrefixMoves(all: seq<Event>, m: nat, cursor: nat, n: nat)
    requires Ascending(all) && m <= |all| && Seen(all, cursor) <= m
    requires n <= |EventsSince(all[..m], cursor)|
    ensures Seen(all, Reached(EventsSince(all[..m], cursor), n, cursor)) == Seen(all, cursor) + n <= m
    ensures all[..Seen(all, cursor)] + EventsSince(all[..m], cursor)[..n] == all[..Seen(all, cursor) + n]
  {
    var k := Seen(all, cursor);
    SeenInPrefix(all, m, cursor);
    SinceIsSuffix(all[..m], cursor);
    if n > 0 {
      var next := EventsSince(all[..m], cursor)[n - 1];
      assert next == all[k + n - 1];
      PositionOf(all, k + n - 1);
      SeenIs(all, next.sequence, k + n);
    }
  }

  function Reached(events: seq<Event>, n: nat, cursor: nat): nat
    requires n <= |events|
  {
    if n == 0 then cursor else events[n - 1].sequence
  }

  lemma CleanPassCommits<T>(handlers: Handlers<T>, c: Conn<T>, log: seq<Event>, weather: Weather<T>)
    requires !Dirty(c)
    ensures var events := EventsSince(log, c.committed.cursor); var n := Through(events, weather);
            CatchUp(handlers, c, log, weather).committed
              == Snapshot(Fold(handlers, c.committed.tables, events[..n]), Reached(events, n, c.committed.cursor))
  {
    PassCommitsExactly(handlers, c, EventsSince(log, c.committed.cursor), weather);
  }

  lemma FaithfulAdvance<T>(handlers: Handlers<T>, start: T, s: Snapshot<T>, s': Snapshot<T>, all: seq<Event>, done: seq<Event>)
    requires Faithful(handlers, start, s, all) && s'.tables == Fold(handlers, s.tables, done)
    requires all[..Seen(all, s.cursor)] + done == all[..Seen(all, s'.cursor)]
    ensures Faithful(handlers, start, s', all)
  {
    FoldSplit(handlers, start, all[..Seen(all, s.cursor)], done);
  }

  lemma PassOnPrefix<T>(handlers: Handlers<T>, start: T, c: Conn<T>, all: seq<Event>, m: nat, weather: Weather<T>)
    requires Ascending(all) && m <= |all| && !Dirty(c)
    requires Faithful(handlers, start, c.committed, all) && Seen(all, c.committed.cursor) <= m
    ensures var c' := CatchUp(handlers, c, all[..m], weather);
            Faithful(handlers, start, c'.committed, all) && Seen(all, c'.committed.cursor) <= m
  {
    var events := EventsSince(all[..m], c.committed.cursor);
    var n := Through(events, weather);
    CleanPassCommits(handlers, c, all[..m], weather);
    PrefixMoves(all, m, c.committed.cursor, n);
    FaithfulAdvance(handlers, start, c.committed,
                    Snapshot(Fold(handlers, c.committed.tables, events[..n]), Reached(events, n, c.committed.cursor)),
                    all, events[..n]);
  }

  /** Exactly-once projection: over any passes, with handlers raising, locks at BEGIN and
      retried transactions, the committed tables are the fold of exactly the events up to
      the committed cursor. */
  lemma {:induction false} RunIsFaithful<T>(handlers: Handlers<T>, start: T, all: seq<Event>, passes: seq<Pass<T>>)
    requires Ascending(all) && (forall e | e in all :: e.sequence >= 1) && Growing(all, passes)
    requires StartsClean(handlers, Conn(Snapshot(start, 0), None), all, passes)
    ensures var c := RunPasses(handlers, Conn(Snapshot(start, 0), None), all, passes);
            && Faithful(handlers, start, c.committed, all)
            && Seen(all, c.committed.cursor) <= if passes == [] then 0 else passes[|passes| - 1].visible
  {
    var c0 := Conn(Snapshot(start, 0), None);
    if passes == [] {
      SeenIs(all, 0, 0);
      assert all[..0] == [];
    } else {
      var front, p := passes[..|passes| - 1], passes[|passes| - 1];
      assert forall i | 0 <= i < |front| :: front[..i] == passes[..i];
      assert forall q | q in front :: q in passes;
      RunIsFaithful(handlers, start, all, front);
      assert passes[..|front|] == front;
      PassOnPrefix(handlers, start, RunPasses(handlers, c0, all, front), all, p.visible, p.weather);
    }
  }

  lemma NextUnread(all: seq<Event>, m: nat, cursor: nat)
    requires Ascending(all) && Seen(all, cursor) < m <= |all|
    ensures EventsSince(all[..m], cursor) != [] && EventsSince(all[..m], cursor)[0] == all[Seen(all, cursor)]
  {
    SeenInPrefix(all, m, cursor);
    SinceIsSuffix(all[..m], cursor);
  }

  lemma StuckAtOnce<T>(handlers: Handlers<T>, c: Conn<T>, events: seq<Event>, weather: Weather<T>)
    requires events != [] && (Verdict(weather, events[0]).HandlerFailed? || Verdict(weather, events[0]).BeginFailed?)
    ensures ApplyEach(handlers, c, events, weather).committed == c.committed
    ensures !Dirty(ApplyEach(handlers, c, events, weather))
  {
  }

  lemma StuckPass<T>(handlers: Handlers<T>, c: Conn<T>, all: seq<Event>, p: Pass<T>, k: nat)
    requires Ascending(all) && !Dirty(c) && k == Seen(all, c.committed.cursor) < p.visible <= |all|
    requires Verdict(p.weather, all[k]).HandlerFailed? || Verdict(p.weather, all[k]).BeginFailed?
    ensures var c' := CatchUp(handlers, c, all[..p.visible], p.weather);
            c'.committed == c.committed && !Dirty(c')
  {
    NextUnread(all, p.visible, c.committed.cursor);
    StuckAtOnce(handlers, c, EventsSince(all[..p.visible], c.committed.cursor), p.weather);
  }

  /** An event that keeps failing is retried alone: passes that meet it first leave the
      committed tables and the cursor where they are. */
  lemma {:induction false} StuckEventStaysPut<T>(handlers: Handlers<T>, c: Conn<T>, all: seq<Event>, passes: seq<Pass<T>>, k: nat)
    requires Ascending(all) && Growing(all, passes) && !Dirty(c)
    requires k == Seen(all, c.committed.cursor) < |all|
    requires forall p | p in passes ::
               p.visible > k && (Verdict(p.weather, all[k]).HandlerFailed? || Verdict(p.weather, all[k]).BeginFailed?)
    ensures RunPasses(handlers, c, all, passes).committed == c.committed
    ensures !Dirty(RunPasses(handlers, c, all, passes))
  {
    if passes != [] {
      var front, p := passes[..|passes| - 1], passes[|passes| - 1];
      assert forall q | q in front :: q in passes;
      assert forall i, j | 0 <= i <= j < |front| :: front[i] == passes[i] && front[j] == passes[j];
      StuckEventStaysPut(handlers, c, all, front, k);
      assert p in passes;
      StuckPass(handlers, RunPasses(handlers, c, all, front), all, p, k);
    }
  }

  /** Every committed change moves the cursor up, so the cursor stamps the tables. */
  lemma CursorStampsTables<T>(handlers: Handlers<T>, c: Conn<T>, e: Event, weather: Weather<T>)
    requires e.sequence > c.committed.cursor
    ensures var c' := ApplyOne(handlers, c, e, weather);
            c'.committed == c.committed || c'.committed.cursor > c.committed.cursor
    ensures e.kind !in handlers && Verdict(weather, e).Applied? ==>
              ApplyOne(handlers, c, e, weather).committed == Snapshot(c.committed.tables, e.sequence)
  {
  }

  // The pass that starts dirty.

  /** Handlers that write every event down, so the tables show which ones they contain. */
  ghost predicate Recording(handlers: Handlers<seq<Event>>, log: seq<Event>) {
    forall e | e in log :: e.kind in handlers && forall t :: handlers[e.kind](t, e) == t + [e]
  }

  lemma {:induction false} RecordingFolds(handlers: Handlers<seq<Event>>, tables: seq<Event>, events: seq<Event>)
    requires Recording(handlers, events)
    ensures Fold(handlers, tables, events) == tables + events
  {
    if events != [] {
      var front, e := events[..|events| - 1], events[|events| - 1];
      assert events == front + [e];
      RecordingFolds(handlers, tables, front);
    }
  }

  /** The pass starts dirty, and the first event it reads goes through. */
  predicate Skips<T>(c: Conn<T>, log: seq<Event>, weather: Weather<T>) {
    Dirty(c) && EventsSince(log, c.open.value.cursor) != []
    && Verdict(weather, EventsSince(log, c.open.value.cursor)[0]).Applied?
  }

  /** Exactly when a pass breaks the promise. The event whose commit failed is then behind the
      cursor and in no table. */
  lemma OnlyDirtyPassesLoseEvents(handlers: Handlers<seq<Event>>, c: Conn<seq<Event>>, log: seq<Event>, weather: Weather<seq<Event>>)
    requires Ascending(log) && Recording(handlers, log)
    requires Faithful(handlers, [], c.committed, log)
    requires Dirty(c) ==> Seen(log, c.committed.cursor) < Seen(log, c.open.value.cursor)
    ensures Faithful(handlers, [], CatchUp(handlers, c, log, weather).committed, log) <==> !Skips(c, log, weather)
  {
    if !Dirty(c) {
      CleanPassIsFaithful(handlers, [], c, log, weather);
    } else {
      var old0, from := c.committed.cursor, c.open.value.cursor;
      var events := EventsSince(log, from);
      var n := Through(events, weather);
      PassCommitsExactly(handlers, c, events, weather);
      SeenMoves(log, from, n);
      if n > 0 {
        var next := events[n - 1].sequence;
        SinceIsSuffix(log, from);
        RecordingFolds(handlers, [], log[..Seen(log, old0)]);
        RecordingFolds(handlers, c.committed.tables, events[..n]);
        RecordingFolds(handlers, [], log[..Seen(log, next)]);
        assert |log[..Seen(log, old0)] + events[..n]| < |log[..Seen(log, next)]|;
        SinceIsSuffix(log, old0);
      }
    }
  }

  /** The shortest such run: the first event's commit fails, the next pass projects the
      second, and the first is never applied. */
  lemma FailedCommitLosesAnEvent()
    ensures var handlers: Handlers<seq<Event>> := map["k" := (t: seq<Event>, e: Event) => t + [e]];
            var e1, e2 := Event(1, "a", "k", ""), Event(2, "b", "k", "");
            var bad: Weather<seq<Event>> := (s, k) => Attempted.CommitFailed(false);
            var good: Weather<seq<Event>> := (s, k) => Applied;
            var c1 := CatchUp(handlers, Conn(Snapshot([], 0), None), [e1], bad);
            var c2 := CatchUp(handlers, c1, [e1, e2], good);
            c2.committed == Snapshot([e2], 2)
  {
    var handlers: Handlers<seq<Event>> := map["k" := (t: seq<Event>, e: Event) => t + [e]];
    var e1, e2 := Event(1, "a", "k", ""), Event(2, "b", "k", "");
    var good: Weather<seq<Event>> := (s, k) => Applied;
    var bad: Weather<seq<Event>> := (s, k) => Attempted.CommitFailed(false);
    assert [e1][..0] == [] && [e1, e2][..1] == [e1] && [e2][1..] == [];
    assert EventsSince([e1], 0) == [e1] && EventsSince([e1], 1) == [];
    assert EventsSince([e1, e2], 1) == [e2];
    var c0 := Conn(Snapshot([], 0), None);
    var c1 := ApplyOne(handlers, c0, e1, bad);
    assert c1 == Conn(Snapshot([], 0), Some(Snapshot([e1], 1)));
    assert CatchUp(handlers, c0, [e1], bad) == c1;
    var c2 := ApplyOne(handlers, c1, e2, good);
    assert c2.committed == Snapshot([e2], 2);
    assert ApplyEach(handlers, c2, [], good) == c2;
  }

  /** The projector object. */
  class Projector<!T> {
    const handlers: Handlers<T>
    var committed: Snapshot<T>
    var open: Option<Snapshot<T>>

    constructor (handlers: Handlers<T>, start: T)
      ensures Now() == Conn(Snapshot(start, 0), None) && this.handlers == handlers
    {
      this.handlers := handlers;
      committed, open := Snapshot(start, 0), None;
    }

    function Now(): Conn<T>
      reads this
    {
      Conn(committed, open)
    }

    /** `_apply`: one transaction for the event and the cursor, retried while locked. */
    method Apply(e: Event, weather: Weather<T>) returns (applied: bool)
      modifies this
      ensures Now() == ApplyOne(handlers, old(Now()), e, weather)
      ensures applied <==> Verdict(weather, e).Applied?
    {
      var attempt := 1;
      while true
        invariant 1 <= attempt <= ATTEMPTS && committed == old(committed)
        invariant LastAttempt(weather, e.sequence, attempt) == LastAttempt(weather, e.sequence, 1)
        decreases ATTEMPTS - attempt
      {
        open := None;
        var answer := weather(e.sequence, attempt);
        match answer {
          case BeginFailed(_) =>
          case HandlerFailed(partial, _) =>
            open := Some(Snapshot(partial, committed.cursor));
          case CommitFailed(_) =>
            open := Some(Snapshot(Project(handlers, committed.tables, e), e.sequence));
          case Applied =>
            committed := Snapshot(Project(handlers, committed.tables, e), e.sequence);
            return true;
        }
        if !answer.locked || attempt == ATTEMPTS {
          return false;
        }
        attempt := attempt + 1;
      }
    }

    /** `catch_up`: stops at the first event that is not applied. */
    method CatchUpOnce(log: seq<Event>, weather: Weather<T>) returns (raised: bool)
      modifies this
      ensures Now() == CatchUp(handlers, old(Now()), log, weather)
      ensures raised <==> Through(EventsSince(log, OwnView(old(Now())).cursor), weather)
                            < |EventsSince(log, OwnView(old(Now())).cursor)|
    {
      var events := EventsSince(log, OwnView(Now()).cursor);
      for i := 0 to |events|
        invariant ApplyEach(handlers, Now(), events[i..], weather) == CatchUp(handlers, old(Now()), log, weather)
        invariant Through(events, weather) == i + Through(events[i..], weather)
      {
        assert events[i..][0] == events[i] && events[i..][1..] == events[i + 1..];
        var applied := Apply(events[i], weather);
        if !applied {
          return true;
        }
      }
      return false;
    }
  }
}
