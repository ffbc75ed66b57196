/** The event log and the projector side by side: appends and passes in any order, the
    projector reading the log through the store's own connection
    (novelizer/canon/event_store.py, novelizer/canon/projector.py:162-208). */
module LogRun {
  import opened Options
  import opened EventStore
  import opened Projection

  datatype World<T> = World(journal: Journal, conn: Conn<T>)

  datatype Step<!T> =
    | Append(request: Request)
    | CatchUpNow(weather: Weather<T>)

  function Fresh<T>(start: T): World<T> {
    World(EMPTY, Conn(Snapshot(start, 0), None))
  }

  function Apply<T>(handlers: Handlers<T>, w: World<T>, step: Step<T>): World<T> {
    match step
    case Append(request) => w.(journal := Served(w.journal, request))
    case CatchUpNow(weather) => w.(conn := CatchUp(handlers, w.conn, View(w.journal), weather))
  }

  function Run<T>(handlers: Handlers<T>, w: World<T>, steps: seq<Step<T>>): World<T> {
    if steps == [] then w else Apply(handlers, Run(handlers, w, steps[..|steps| - 1]), steps[|steps| - 1])
  }

  /** What a pass would read. */
  function Unread<T>(w: World<T>): seq<Event> {
    EventsSince(View(w.journal), OwnView(w.conn).cursor)
  }

  /** The pass goes wrong: it applies something while the projector's own cursor is ahead of
      what is committed, or it applies a row that only the store's connection shows. */
  predicate Trouble<T>(w: World<T>, weather: Weather<T>) {
    && Through(Unread(w), weather) > 0
    && (Dirty(w.conn) || (View(w.journal) != w.journal.rows && Through(Unread(w), weather) == |Unread(w)|))
  }

  predicate Untroubled<T>(handlers: Handlers<T>, w: World<T>, steps: seq<Step<T>>) {
    steps == [] ||
    (Untroubled(handlers, w, steps[..|steps| - 1]) &&
     (steps[|steps| - 1].CatchUpNow? ==>
        !Trouble(Run(handlers, w, steps[..|steps| - 1]), steps[|steps| - 1].weather)))
  }

  /** Trouble can be told before the pass: something is unread, its first event will go through,
      and the projector is dirty or every event will go through up to a row not in the log. */
  lemma TroubleBeforehand<T>(w: World<T>, weather: Weather<T>)
    ensures Trouble(w, weather) <==>
              && Unread(w) != [] && Verdict(weather, Unread(w)[0]).Applied?
              && (Dirty(w.conn) || (View(w.journal) != w.journal.rows &&
                                    forall e | e in Unread(w) :: Verdict(weather, e).Applied?))
  {
    ThroughAll(Unread(w), weather);
  }

  lemma {:induction false} ThroughAll<T>(events: seq<Event>, weather: Weather<T>)
    ensures Through(events, weather) == |events| <==> forall e | e in events :: Verdict(weather, e).Applied?
  {
    if events != [] {
      ThroughAll(events[1..], weather);
      assert events == [events[0]] + events[1..];
    }
  }

  // The shape of the log.

  /** Sequence numbers count the rows. */
  ghost predicate Numbered(rows: seq<Event>) {
    forall i {:trigger rows[i]} | 0 <= i < |rows| :: rows[i].sequence == i + 1
  }

  /** The store's own view is the log, or the log and one row that was never committed. */
  ghost predicate Shaped(j: Journal) {
    && Numbered(j.rows) && j.next == |j.rows| + 1
    && (View(j) == j.rows || (exists e: Event :: View(j) == j.rows + [e] && e.sequence == j.next))
  }

  lemma AppendKeepsShape(j: Journal, r: Request)
    requires Shaped(j)
    ensures Shaped(Served(j, r))
    ensures Served(j, r).rows == j.rows || Served(j, r).rows == j.rows + [NewRow(j, r.id, r.kind, r.payload)]
  {
    var row := NewRow(j, r.id, r.kind, r.payload);
    assert Numbered(j.rows + [row]);
  }

  lemma ViewIsNumbered(j: Journal)
    requires Shaped(j)
    ensures Numbered(View(j)) && j.rows <= View(j) && |View(j)| <= |j.rows| + 1
  {
  }

  lemma NumberedIsAscending(rows: seq<Event>)
    requires Numbered(rows)
    ensures Ascending(rows)
  {
    forall i, j | 0 <= i < j < |rows| ensures Earlier(rows, i, j) {
      assert rows[i].sequence == i + 1 && rows[j].sequence == j + 1;
    }
  }

  lemma NumberedSince(rows: seq<Event>, cursor: nat)
    requires Numbered(rows)
    ensures EventsSince(rows, cursor) == (if cursor <= |rows| then rows[cursor..] else [])
    ensures Seen(rows, cursor) == if cursor <= |rows| then cursor else |rows|
  {
    NumberedIsAscending(rows);
    SinceIsSuffix(rows, cursor);
    var n := Seen(rows, cursor);
    assert n < |rows| ==> rows[n].sequence == n + 1;
    assert n > 0 ==> rows[n - 1].sequence == n;
  }

  // What a pass does, in those numbers.

  /** Where the projector reads from. */
  function From<T>(w: World<T>): nat {
    OwnView(w.conn).cursor
  }

  ghost predicate Sane<T>(w: World<T>) {
    && Shaped(w.journal) && w.conn.committed.cursor <= |w.journal.rows| + 1
    && (Dirty(w.conn) ==> w.conn.committed.cursor < From(w) <= |w.journal.rows| + 1)
  }

  lemma UnreadIs<T>(w: World<T>)
    requires Sane(w)
    ensures Unread(w) == if From(w) <= |View(w.journal)| then View(w.journal)[From(w)..] else []
    ensures From(w) >= w.conn.committed.cursor && (!Dirty(w.conn) ==> From(w) == w.conn.committed.cursor)
    ensures forall i | 0 <= i < |Unread(w)| :: Unread(w)[i].sequence == From(w) + i + 1
    ensures Ascending(Unread(w))
  {
    ViewIsNumbered(w.journal);
    NumberedSince(View(w.journal), From(w));
    NumberedIsAscending(View(w.journal));
    if From(w) <= |View(w.journal)| {
      AscendingPart(View(w.journal), From(w), |View(w.journal)|);
      assert View(w.journal)[From(w)..|View(w.journal)|] == View(w.journal)[From(w)..];
    }
  }

  /** A pass that ends on a failed commit has its cursor at that event. */
  lemma {:induction false} DirtyAt<T>(handlers: Handlers<T>, c: Conn<T>, events: seq<Event>, weather: Weather<T>)
    requires Through(events, weather) < |events| && Verdict(weather, events[Through(events, weather)]).CommitFailed?
    ensures var c' := ApplyEach(handlers, c, events, weather);
            c'.open.Some? && c'.open.value.cursor == events[Through(events, weather)].sequence
    decreases |events|
  {
    if Verdict(weather, events[0]).Applied? {
      DirtyAt(handlers, ApplyOne(handlers, c, events[0], weather), events[1..], weather);
    }
  }

  lemma {:induction false} NothingRead<T>(handlers: Handlers<T>, c: Conn<T>, weather: Weather<T>)
    ensures ApplyEach(handlers, c, [], weather) == c
  {
  }

  /** What a pass commits. */
  lemma PassMoves<T>(handlers: Handlers<T>, w: World<T>, weather: Weather<T>)
    requires Sane(w)
    ensures var w' := Apply(handlers, w, CatchUpNow(weather)); var n := Through(Unread(w), weather);
            && w'.journal == w.journal
            && w'.conn.committed.tables == Fold(handlers, w.conn.committed.tables, Unread(w)[..n])
            && w'.conn.committed.cursor == if n == 0 then w.conn.committed.cursor else From(w) + n
  {
    UnreadIs(w);
    PassCommitsExactly(handlers, w.conn, Unread(w), weather);
  }

  lemma PassKeepsSane<T>(handlers: Handlers<T>, w: World<T>, weather: Weather<T>)
    requires Sane(w)
    ensures Sane(Apply(handlers, w, CatchUpNow(weather)))
  {
    var events, n := Unread(w), Through(Unread(w), weather);
    var w' := Apply(handlers, w, CatchUpNow(weather));
    UnreadIs(w);
    ViewIsNumbered(w.journal);
    PassMoves(handlers, w, weather);
    EventsLieAhead(w);
    DirtyExactly(handlers, w.conn, events, weather);
    if n < |events| {
      if Dirty(w'.conn) {
        DirtyAt(handlers, w.conn, events, weather);
      }
    } else if events == [] {
      NothingRead(handlers, w.conn, weather);
    }
  }

  lemma EventsLieAhead<T>(w: World<T>)
    requires Sane(w)
    ensures forall e | e in Unread(w) :: e.sequence > From(w) >= w.conn.committed.cursor
  {
    UnreadIs(w);
  }

  lemma StepKeepsSane<T>(handlers: Handlers<T>, w: World<T>, step: Step<T>)
    requires Sane(w)
    ensures Sane(Apply(handlers, w, step))
  {
    match step
    case Append(request) => AppendKeepsShape(w.journal, request);
    case CatchUpNow(weather) => PassKeepsSane(handlers, w, weather);
  }

  lemma {:induction false} RunIsSane<T>(handlers: Handlers<T>, start: T, steps: seq<Step<T>>)
    ensures Sane(Run(handlers, Fresh(start), steps))
  {
    if steps != [] {
      RunIsSane(handlers, start, steps[..|steps| - 1]);
      StepKeepsSane(handlers, Run(handlers, Fresh(start), steps[..|steps| - 1]), steps[|steps| - 1]);
    }
  }

  // Without trouble the tables follow the log.

  ghost predicate Follows<T>(handlers: Handlers<T>, start: T, w: World<T>) {
    && Sane(w) && w.conn.committed.cursor <= |w.journal.rows|
    && w.conn.committed.tables == Fold(handlers, start, w.journal.rows[..w.conn.committed.cursor])
  }

  lemma FollowsIsFaithful<T>(handlers: Handlers<T>, start: T, w: World<T>)
    requires Follows(handlers, start, w)
    ensures Faithful(handlers, start, w.conn.committed, w.journal.rows)
  {
    NumberedSince(w.journal.rows, w.conn.committed.cursor);
  }

  lemma AppendFollows<T>(handlers: Handlers<T>, start: T, w: World<T>, r: Request)
    requires Follows(handlers, start, w)
    ensures Follows(handlers, start, Apply(handlers, w, Append(r)))
  {
    AppendKeepsShape(w.journal, r);
    var row := NewRow(w.journal, r.id, r.kind, r.payload);
    assert (w.journal.rows + [row])[..w.conn.committed.cursor] == w.journal.rows[..w.conn.committed.cursor];
  }

  lemma ReadRowsOnly<T>(w: World<T>, n: nat)
    requires Sane(w) && !Dirty(w.conn) && w.conn.committed.cursor <= |w.journal.rows|
    requires n <= |Unread(w)| && (View(w.journal) != w.journal.rows && n > 0 ==> n < |Unread(w)|)
    ensures var k := w.conn.committed.cursor;
            k + n <= |w.journal.rows| && Unread(w)[..n] == w.journal.rows[k..k + n]
  {
    UnreadIs(w);
    ViewIsNumbered(w.journal);
    var k, v := w.conn.committed.cursor, View(w.journal);
    assert v[k..][..n] == v[k..k + n];
  }

  lemma FoldFurther<T>(handlers: Handlers<T>, start: T, rows: seq<Event>, k: nat, n: nat)
    requires k + n <= |rows|
    ensures Fold(handlers, Fold(handlers, start, rows[..k]), rows[k..k + n]) == Fold(handlers, start, rows[..k + n])
  {
    FoldSplit(handlers, start, rows[..k], rows[k..k + n]);
    assert rows[..k] + rows[k..k + n] == rows[..k + n];
  }

  lemma FollowsFurther<T>(handlers: Handlers<T>, start: T, w: World<T>, w': World<T>, n: nat)
    requires Follows(handlers, start, w) && Sane(w') && w'.journal == w.journal
    requires var k, rows := w.conn.committed.cursor, w.journal.rows;
             && k + n <= |rows| && w'.conn.committed.cursor == k + n
             && w'.conn.committed.tables == Fold(handlers, w.conn.committed.tables, rows[k..k + n])
    ensures Follows(handlers, start, w')
  {
    FoldFurther(handlers, start, w.journal.rows, w.conn.committed.cursor, n);
  }

  lemma IdlePassFollows<T>(handlers: Handlers<T>, start: T, w: World<T>, weather: Weather<T>)
    requires Follows(handlers, start, w) && Through(Unread(w), weather) == 0
    ensures Follows(handlers, start, Apply(handlers, w, CatchUpNow(weather)))
  {
    PassKeepsSane(handlers, w, weather);
    PassMoves(handlers, w, weather);
    assert Unread(w)[..0] == [];
  }

  lemma BusyPassFollows<T>(handlers: Handlers<T>, start: T, w: World<T>, weather: Weather<T>, n: nat)
    requires Follows(handlers, start, w) && !Dirty(w.conn) && n == Through(Unread(w), weather) > 0
    requires View(w.journal) != w.journal.rows ==> n < |Unread(w)|
    ensures Follows(handlers, start, Apply(handlers, w, CatchUpNow(weather)))
  {
    PassKeepsSane(handlers, w, weather);
    PassMoves(handlers, w, weather);
    CleanFrom(w);
    ReadRowsOnly(w, n);
    FollowsFurther(handlers, start, w, Apply(handlers, w, CatchUpNow(weather)), n);
  }

  lemma CleanFrom<T>(w: World<T>)
    requires !Dirty(w.conn)
    ensures From(w) == w.conn.committed.cursor
  {
  }

  lemma PassFollows<T>(handlers: Handlers<T>, start: T, w: World<T>, weather: Weather<T>)
    requires Follows(handlers, start, w) && !Trouble(w, weather)
    ensures Follows(handlers, start, Apply(handlers, w, CatchUpNow(weather)))
  {
    var n := Through(Unread(w), weather);
    if n == 0 {
      IdlePassFollows(handlers, start, w, weather);
    } else {
      BusyPassFollows(handlers, start, w, weather, n);
    }
  }

  /** Over any run of appends and passes, with rows that fail, commits that fail, handlers that
      raise and locks: as long as no pass is in trouble, the committed tables are the fold of
      exactly the log's events up to the committed cursor. */
  lemma {:induction false} UntroubledRunsFollow<T>(handlers: Handlers<T>, start: T, steps: seq<Step<T>>)
    requires Untroubled(handlers, Fresh(start), steps)
    ensures Follows(handlers, start, Run(handlers, Fresh(start), steps))
    ensures Faithful(handlers, start, Run(handlers, Fresh(start), steps).conn.committed, Run(handlers, Fresh(start), steps).journal.rows)
  {
    if steps == [] {
      assert EMPTY.rows[..0] == [];
    } else {
      var front, last := steps[..|steps| - 1], steps[|steps| - 1];
      UntroubledRunsFollow(handlers, start, front);
      match last {
        case Append(request) => AppendFollows(handlers, start, Run(handlers, Fresh(start), front), request);
        case CatchUpNow(weather) => PassFollows(handlers, start, Run(handlers, Fresh(start), front), weather);
      }
    }
    FollowsIsFaithful(handlers, start, Run(handlers, Fresh(start), steps));
  }

  // With trouble they never do again.

  type Record = seq<Event>

  /** The ids asked for so far. */
  function Used(steps: seq<Step<Record>>): set<string> {
    if steps == [] then {} else
      var last := steps[|steps| - 1];
      Used(steps[..|steps| - 1]) + if last.Append? then {last.request.id} else {}
  }

  /** Every append brings a new id, and its handler writes the event down. */
  ghost predicate Recorded(handlers: Handlers<Record>, steps: seq<Step<Record>>) {
    steps == [] ||
    (Recorded(handlers, steps[..|steps| - 1]) &&
     var last := steps[|steps| - 1];
     last.Append? ==> last.request.id !in Used(steps[..|steps| - 1]) && Writes(handlers, last.request.kind))
  }

  ghost predicate Writes(handlers: Handlers<Record>, kind: string) {
    kind in handlers && forall t, e :: handlers[kind](t, e) == t + [e]
  }

  ghost predicate HasId(rows: seq<Event>, id: string) {
    exists e :: e in rows && e.id == id
  }

  /** Whatever the trouble: ids in view have been asked for, and a row in view that is not in the
      log has an id the log has not; the tables lie behind their cursor. */
  ghost predicate Kept(handlers: Handlers<Record>, w: World<Record>, used: set<string>) {
    && Sane(w)
    && (forall e | e in View(w.journal) :: e.id in used && Writes(handlers, e.kind))
    && (View(w.journal) != w.journal.rows ==> !HasId(w.journal.rows, View(w.journal)[|View(w.journal)| - 1].id))
    && (forall e | e in w.conn.committed.tables :: e.sequence <= w.conn.committed.cursor)
  }

  /** A row of the log that the cursor has passed is in no table. */
  ghost predicate Lost(w: World<Record>, k: nat) {
    k < |w.journal.rows| && k + 1 <= w.conn.committed.cursor && w.journal.rows[k] !in w.conn.committed.tables
  }

  /** A table holds an event whose id was used and is not in the log. */
  ghost predicate Phantom(w: World<Record>, used: set<string>, e: Event) {
    e in w.conn.committed.tables && e.id in used && !HasId(w.journal.rows, e.id)
  }

  ghost predicate Broken(w: World<Record>, used: set<string>) {
    (exists k: nat :: Lost(w, k)) || (exists e :: Phantom(w, used, e))
  }

  lemma {:induction false} FoldWrites(handlers: Handlers<Record>, tables: Record, events: seq<Event>)
    requires forall e | e in events :: Writes(handlers, e.kind)
    ensures Fold(handlers, tables, events) == tables + events
  {
    if events != [] {
      var front, e := events[..|events| - 1], events[|events| - 1];
      assert events == front + [e];
      FoldWrites(handlers, tables, front);
    }
  }

  /** The events a pass goes through come from the view, in their numbers. */
  lemma ReadFromView(w: World<Record>, n: nat)
    requires Sane(w) && n <= |Unread(w)|
    ensures forall e | e in Unread(w)[..n] :: e in View(w.journal) && From(w) < e.sequence <= From(w) + n
  {
    UnreadIs(w);
    var events, v := Unread(w), View(w.journal);
    forall e | e in events[..n]
      ensures e in v && From(w) < e.sequence <= From(w) + n
    {
      var i :| 0 <= i < n && events[..n][i] == e;
      assert events[i] == v[From(w) + i];
    }
  }

  /** A pass of writing handlers appends what it went through. */
  lemma PassWrites(handlers: Handlers<Record>, w: World<Record>, used: set<string>, weather: Weather<Record>)
    requires Kept(handlers, w, used)
    ensures var w' := Apply(handlers, w, CatchUpNow(weather)); var n := Through(Unread(w), weather);
            && w'.journal == w.journal
            && w'.conn.committed.tables == w.conn.committed.tables + Unread(w)[..n]
            && w'.conn.committed.cursor == (if n == 0 then w.conn.committed.cursor else From(w) + n)
            && (forall e | e in Unread(w)[..n] :: e in View(w.journal) && From(w) < e.sequence <= From(w) + n)
  {
    var n := Through(Unread(w), weather);
    ReadFromView(w, n);
    PassMoves(handlers, w, weather);
    FoldWrites(handlers, w.conn.committed.tables, Unread(w)[..n]);
  }

  lemma PassKeeps(handlers: Handlers<Record>, w: World<Record>, used: set<string>, weather: Weather<Record>)
    requires Kept(handlers, w, used)
    ensures Kept(handlers, Apply(handlers, w, CatchUpNow(weather)), used)
  {
    PassKeepsSane(handlers, w, weather);
    PassWrites(handlers, w, used, weather);
    UnreadIs(w);
  }

  lemma AppendKeeps(handlers: Handlers<Record>, w: World<Record>, used: set<string>, r: Request)
    requires Kept(handlers, w, used) && r.id !in used && Writes(handlers, r.kind)
    ensures Kept(handlers, Apply(handlers, w, Append(r)), used + {r.id})
  {
    var j, j' := w.journal, Served(w.journal, r);
    var row := NewRow(j, r.id, r.kind, r.payload);
    AppendKeepsShape(j, r);
    ViewIsNumbered(j);
    forall e | e in j.rows ensures e in View(j) {
      var i :| 0 <= i < |j.rows| && j.rows[i] == e;
      assert View(j)[i] == e;
    }
    assert View(j') == j'.rows || View(j') == j.rows + [row];
  }

  lemma LostStays(handlers: Handlers<Record>, w: World<Record>, used: set<string>, step: Step<Record>, k: nat)
    requires Kept(handlers, w, used) && Lost(w, k)
    ensures Lost(Apply(handlers, w, step), k)
  {
    match step
    case Append(r) => AppendKeepsShape(w.journal, r);
    case CatchUpNow(weather) =>
      PassWrites(handlers, w, used, weather);
      UnreadIs(w);
      assert w.journal.rows[k].sequence == k + 1;
  }

  lemma PhantomStays(handlers: Handlers<Record>, w: World<Record>, used: set<string>, step: Step<Record>, e: Event)
    requires Kept(handlers, w, used) && Phantom(w, used, e)
    requires step.Append? ==> step.request.id !in used
    ensures Phantom(Apply(handlers, w, step), used + (if step.Append? then {step.request.id} else {}), e)
  {
    match step
    case Append(r) => AppendKeepsShape(w.journal, r);
    case CatchUpNow(weather) => PassWrites(handlers, w, used, weather);
  }

  /** The skipped event: its commit had failed, and the next pass starts behind it. */
  lemma DirtyPassLoses(handlers: Handlers<Record>, w: World<Record>, used: set<string>, weather: Weather<Record>)
    requires Kept(handlers, w, used) && Dirty(w.conn) && Through(Unread(w), weather) > 0
    ensures Lost(Apply(handlers, w, CatchUpNow(weather)), From(w) - 1)
  {
    UnreadIs(w);
    ViewIsNumbered(w.journal);
    PassWrites(handlers, w, used, weather);
    assert w.journal.rows[From(w) - 1].sequence == From(w);
  }

  /** The row that was never in the log is written down. */
  lemma PhantomPassWrites(handlers: Handlers<Record>, w: World<Record>, used: set<string>, weather: Weather<Record>)
    requires Kept(handlers, w, used) && View(w.journal) != w.journal.rows
    requires Through(Unread(w), weather) == |Unread(w)| > 0
    ensures Phantom(Apply(handlers, w, CatchUpNow(weather)), used, View(w.journal)[|View(w.journal)| - 1])
  {
    UnreadIs(w);
    ViewIsNumbered(w.journal);
    PassWrites(handlers, w, used, weather);
    var v, events := View(w.journal), Unread(w);
    assert events[..|events|] == events && events[|events| - 1] == v[|v| - 1];
    assert v[|v| - 1] in v && events[|events| - 1] in events;
  }

  lemma RowsInView(j: Journal, n: nat)
    requires Shaped(j) && n <= |j.rows|
    ensures forall e | e in j.rows[..n] :: e in j.rows && e in View(j)
  {
    ViewIsNumbered(j);
    forall e | e in j.rows[..n] ensures e in j.rows && e in View(j) {
      var i :| 0 <= i < n && j.rows[..n][i] == e;
      assert j.rows[i] == e && View(j)[i] == e;
    }
  }

  lemma FaithfulIsPrefix(handlers: Handlers<Record>, w: World<Record>, used: set<string>)
    requires Kept(handlers, w, used) && Faithful(handlers, [], w.conn.committed, w.journal.rows)
    ensures var rows, k := w.journal.rows, w.conn.committed.cursor;
            w.conn.committed.tables == rows[..if k <= |rows| then k else |rows|]
  {
    var rows, n := w.journal.rows, Seen(w.journal.rows, w.conn.committed.cursor);
    NumberedSince(rows, w.conn.committed.cursor);
    RowsInView(w.journal, n);
    FoldWrites(handlers, [], rows[..n]);
    assert [] + rows[..n] == rows[..n];
  }

  lemma FaithfulHasRow(handlers: Handlers<Record>, w: World<Record>, used: set<string>, i: nat)
    requires Kept(handlers, w, used) && i < |w.journal.rows| && i < w.conn.committed.cursor
    ensures Faithful(handlers, [], w.conn.committed, w.journal.rows) ==> w.journal.rows[i] in w.conn.committed.tables
  {
    if Faithful(handlers, [], w.conn.committed, w.journal.rows) {
      FaithfulIsPrefix(handlers, w, used);
      assert w.conn.committed.tables[i] == w.journal.rows[i];
    }
  }

  lemma FaithfulHasNoOther(handlers: Handlers<Record>, w: World<Record>, used: set<string>, e: Event)
    requires Kept(handlers, w, used) && e in w.conn.committed.tables
    ensures Faithful(handlers, [], w.conn.committed, w.journal.rows) ==> HasId(w.journal.rows, e.id)
  {
    if Faithful(handlers, [], w.conn.committed, w.journal.rows) {
      FaithfulIsPrefix(handlers, w, used);
      var i :| 0 <= i < |w.conn.committed.tables| && w.conn.committed.tables[i] == e;
      assert w.journal.rows[i] in w.journal.rows && w.journal.rows[i].id == e.id;
    }
  }

  lemma BrokenIsUnfaithful(handlers: Handlers<Record>, w: World<Record>, used: set<string>)
    requires Kept(handlers, w, used) && Broken(w, used)
    ensures !Faithful(handlers, [], w.conn.committed, w.journal.rows)
  {
    if i: nat :| Lost(w, i) {
      FaithfulHasRow(handlers, w, used, i);
    } else {
      var e :| Phantom(w, used, e);
      FaithfulHasNoOther(handlers, w, used, e);
    }
  }

  lemma StepKeeps(handlers: Handlers<Record>, w: World<Record>, used: set<string>, step: Step<Record>)
    requires Kept(handlers, w, used)
    requires step.Append? ==> step.request.id !in used && Writes(handlers, step.request.kind)
    ensures Kept(handlers, Apply(handlers, w, step), used + if step.Append? then {step.request.id} else {})
  {
    match step
    case Append(r) => AppendKeeps(handlers, w, used, r);
    case CatchUpNow(weather) =>
      PassKeeps(handlers, w, used, weather);
      assert used + {} == used;
  }

  lemma {:induction false} RunKeeps(handlers: Handlers<Record>, steps: seq<Step<Record>>)
    requires Recorded(handlers, steps)
    ensures Kept(handlers, Run(handlers, Fresh([]), steps), Used(steps))
  {
    if steps != [] {
      var front := steps[..|steps| - 1];
      RunKeeps(handlers, front);
      StepKeeps(handlers, Run(handlers, Fresh([]), front), Used(front), steps[|steps| - 1]);
    }
  }

  lemma BrokenStays(handlers: Handlers<Record>, w: World<Record>, used: set<string>, step: Step<Record>)
    requires Kept(handlers, w, used) && Broken(w, used) && (step.Append? ==> step.request.id !in used)
    ensures Broken(Apply(handlers, w, step), used + if step.Append? then {step.request.id} else {})
  {
    if k: nat :| Lost(w, k) {
      LostStays(handlers, w, used, step, k);
    } else {
      var e :| Phantom(w, used, e);
      PhantomStays(handlers, w, used, step, e);
    }
  }

  lemma TroubleBreaks(handlers: Handlers<Record>, w: World<Record>, used: set<string>, weather: Weather<Record>)
    requires Kept(handlers, w, used) && Trouble(w, weather)
    ensures Broken(Apply(handlers, w, CatchUpNow(weather)), used)
  {
    if Dirty(w.conn) {
      DirtyPassLoses(handlers, w, used, weather);
    } else {
      PhantomPassWrites(handlers, w, used, weather);
    }
  }

  lemma {:induction false} TroubledRunsBreak(handlers: Handlers<Record>, steps: seq<Step<Record>>)
    requires Recorded(handlers, steps) && !Untroubled(handlers, Fresh([]), steps)
    ensures Broken(Run(handlers, Fresh([]), steps), Used(steps))
  {
    var front, last := steps[..|steps| - 1], steps[|steps| - 1];
    var w := Run(handlers, Fresh([]), front);
    RunKeeps(handlers, front);
    if !Untroubled(handlers, Fresh([]), front) {
      TroubledRunsBreak(handlers, front);
      BrokenStays(handlers, w, Used(front), last);
    } else {
      TroubleBreaks(handlers, w, Used(front), last.weather);
      assert Used(front) + {} == Used(front);
    }
  }

  /** For handlers that write every event down: the tables are the log up to the cursor exactly
      when no pass of the run was in trouble. An event once lost, or written without being in
      the log, is never made good. */
  lemma FaithfulExactly(handlers: Handlers<Record>, steps: seq<Step<Record>>)
    requires Recorded(handlers, steps)
    ensures var w := Run(handlers, Fresh([]), steps);
            Faithful(handlers, [], w.conn.committed, w.journal.rows) <==> Untroubled(handlers, Fresh([]), steps)
  {
    if Untroubled(handlers, Fresh([]), steps) {
      UntroubledRunsFollow(handlers, [], steps);
    } else {
      RunKeeps(handlers, steps);
      TroubledRunsBreak(handlers, steps);
      BrokenIsUnfaithful(handlers, Run(handlers, Fresh([]), steps), Used(steps));
    }
  }

  lemma UncommittedIsShown(r: Request)
    requires r.answers(1) == EventStore.CommitFailed(false)
    ensures var e := Event(1, r.id, r.kind, r.payload);
            Served(EMPTY, r) == Journal([], 1, Some([e])) && EventsSince([e], 0) == [e]
  {
    var e := Event(1, r.id, r.kind, r.payload);
    assert [] + [e] == [e] && [e][..0] == [];
  }

  lemma OneApplied(handlers: Handlers<Record>, e: Event, good: Weather<Record>)
    requires Writes(handlers, e.kind) && forall s, k :: good(s, k) == Applied
    ensures ApplyEach(handlers, Conn(Snapshot([], 0), None), [e], good).committed == Snapshot([e], e.sequence)
  {
    assert [] + [e] == [e] && [e][1..] == [];
  }

  /** The shortest run in trouble on the store's side: an append whose commit fails for good,
      and a pass that projects the row all the same. */
  lemma UncommittedRowIsProjected(handlers: Handlers<Record>, r: Request, good: Weather<Record>)
    requires Writes(handlers, r.kind) && r.answers(1) == EventStore.CommitFailed(false)
    requires forall s, k :: good(s, k) == Applied
    ensures var w := Run(handlers, Fresh([]), [Append(r), CatchUpNow(good)]);
            w.journal.rows == [] && w.conn.committed == Snapshot([Event(1, r.id, r.kind, r.payload)], 1)
  {
    var steps: seq<Step<Record>> := [Append(r), CatchUpNow(good)];
    assert steps[..1] == [Append(r)] && steps[..1][..0] == [];
    assert Run(handlers, Fresh([]), steps[..1]) == Apply(handlers, Fresh([]), Append(r));
    UncommittedIsShown(r);
    OneApplied(handlers, Event(1, r.id, r.kind, r.payload), good);
  }
}
