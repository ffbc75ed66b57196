/** The view cache keyed by the projection generation (novelizer/canon_fs/generation.py),
    with any number of concurrent `get()` calls and a projector committing between any
    two of their awaits.

    A build is a number of separate reads, each of which may depend on what the earlier
    ones returned; a view is what all of them return from one unchanging database. */
module GenerationCache {
  import opened Options
  import EventStore
  import Projection

  type Reader<!D, !V> = (seq<V>, D) -> V

  /** The first `k` reads of a build, all from the database `db`. */
  function ViewOf<D, V>(read: Reader<D, V>, db: D, k: nat): (v: seq<V>)
    ensures |v| == k
  {
    if k == 0 then [] else
      var before := ViewOf(read, db, k - 1);
      before + [read(before, db)]
  }

  datatype How = Hit | Verified | Unverified

  /** One call of `get()`. `begun` is the generation when it was called, `stamp` the one
      it read first. */
  datatype Call<V> =
    | Called(begun: nat)
    | Stamped(begun: nat, stamp: nat)
    | Building(begun: nat, stamp: nat, parts: seq<V>)
    | Checked(begun: nat, stamp: nat, built: seq<V>, unmoved: bool)
    | Returned(begun: nat, stamp: nat, value: seq<V>, how: How)

  /** The one entry the cache holds. */
  datatype Entry<V> = Entry(generation: nat, value: seq<V>)

  /** Every database there has been by generation, the current one, the cache, the calls. */
  datatype State<D, V> = State(
    history: map<nat, D>,
    generation: nat,
    entry: Option<Entry<V>>,
    calls: map<nat, Call<V>>)

  datatype Step<D> =
    | Commit(generation: nat, db: D)
    | Get(id: nat)
    | ReadStamp(id: nat)
    | Consult(id: nat)
    | ReadPart(id: nat)
    | ReadStampAgain(id: nat)
    | Finish(id: nat)

  /** A build of `n` reads; every commit moves the generation up. */
  predicate Enabled<D, V>(s: State<D, V>, n: nat, step: Step<D>) {
    match step
    case Commit(generation, _) => generation > s.generation
    case Get(id) => id !in s.calls
    case ReadStamp(id) => id in s.calls && s.calls[id].Called?
    case Consult(id) => id in s.calls && s.calls[id].Stamped?
    case ReadPart(id) => id in s.calls && s.calls[id].Building? && |s.calls[id].parts| < n
    case ReadStampAgain(id) => id in s.calls && s.calls[id].Building? && |s.calls[id].parts| == n
    case Finish(id) => id in s.calls && s.calls[id].Checked?
  }

  /** The value to return at once, if the entry carries this stamp. */
  function Lookup<V>(entry: Option<Entry<V>>, stamp: nat): Option<seq<V>> {
    if entry.Some? && entry.value.generation == stamp then Some(entry.value.value) else None
  }

  function Apply<D, V>(s: State<D, V>, read: Reader<D, V>, n: nat, step: Step<D>): State<D, V>
    requires Enabled(s, n, step) && s.generation in s.history
  {
    match step
    case Commit(generation, db) => s.(history := s.history[generation := db], generation := generation)
    case Get(id) => s.(calls := s.calls[id := Called(s.generation)])
    case ReadStamp(id) => s.(calls := s.calls[id := Stamped(s.calls[id].begun, s.generation)])
    case Consult(id) =>
      var c := s.calls[id];
      var found := Lookup(s.entry, c.stamp);
      s.(calls := s.calls[id := if found.Some? then Returned(c.begun, c.stamp, found.value, Hit)
                                else Building(c.begun, c.stamp, [])])
    case ReadPart(id) =>
      var c := s.calls[id];
      s.(calls := s.calls[id := c.(parts := c.parts + [read(c.parts, s.history[s.generation])])])
    case ReadStampAgain(id) =>
      var c := s.calls[id];
      s.(calls := s.calls[id := Checked(c.begun, c.stamp, c.parts, s.generation == c.stamp)])
    case Finish(id) =>
      var c := s.calls[id];
      s.(entry := if c.unmoved then Some(Entry(c.stamp, c.built)) else s.entry,
         calls := s.calls[id := Returned(c.begun, c.stamp, c.built, if c.unmoved then Verified else Unverified)])
  }

  /** `value` is the whole view of the database of `generation`. */
  ghost predicate Exact<D, V>(s: State<D, V>, read: Reader<D, V>, n: nat, generation: nat, value: seq<V>) {
    generation in s.history && value == ViewOf(read, s.history[generation], n)
  }

  /** A generation that was current at some moment since the call began. */
  ghost predicate CurrentDuring<D, V>(s: State<D, V>, begun: nat, stamp: nat) {
    stamp in s.history && begun <= stamp <= s.generation
  }

  ghost predicate CallInv<D, V>(s: State<D, V>, read: Reader<D, V>, n: nat, c: Call<V>) {
    match c
    case Called(begun) => begun <= s.generation
    case Stamped(begun, stamp) => CurrentDuring(s, begun, stamp)
    case Building(begun, stamp, parts) =>
      && CurrentDuring(s, begun, stamp) && |parts| <= n
      && (s.generation == stamp ==> parts == ViewOf(read, s.history[stamp], |parts|))
    case Checked(begun, stamp, built, unmoved) =>
      CurrentDuring(s, begun, stamp) && (unmoved ==> Exact(s, read, n, stamp, built))
    case Returned(begun, stamp, value, how) =>
      CurrentDuring(s, begun, stamp) && (how.Unverified? || Exact(s, read, n, stamp, value))
  }

  /** The stored value is always the view at exactly the stored generation, and every hit
      and every verified build returned the view at a generation current during its call. */
  ghost predicate Inv<D, V>(s: State<D, V>, read: Reader<D, V>, n: nat) {
    && s.generation in s.history
    && (forall g | g in s.history :: g <= s.generation)
    && (s.entry.Some? ==> Exact(s, read, n, s.entry.value.generation, s.entry.value.value))
    && (forall id {:trigger s.calls[id]} | id in s.calls :: CallInv(s, read, n, s.calls[id]))
  }

  function Start<D, V>(db: D): State<D, V> {
    State(map[0 := db], 0, None, map[])
  }

  predicate Legal<D, V>(s: State<D, V>, read: Reader<D, V>, n: nat, steps: seq<Step<D>>)
    decreases |steps|
  {
    steps == [] ||
    (s.generation in s.history && Enabled(s, n, steps[0]) && Legal(Apply(s, read, n, steps[0]), read, n, steps[1..]))
  }

  function Run<D, V>(s: State<D, V>, read: Reader<D, V>, n: nat, steps: seq<Step<D>>): State<D, V>
    requires Legal(s, read, n, steps)
    decreases |steps|
  {
    if steps == [] then s else Run(Apply(s, read, n, steps[0]), read, n, steps[1..])
  }

  lemma CommitKeepsCalls<D, V>(s: State<D, V>, read: Reader<D, V>, n: nat, step: Step<D>, c: Call<V>)
    requires step.Commit? && Enabled(s, n, step) && Inv(s, read, n) && CallInv(s, read, n, c)
    ensures CallInv(Apply(s, read, n, step), read, n, c)
  {
  }

  lemma CallMoves<D, V>(s: State<D, V>, read: Reader<D, V>, n: nat, step: Step<D>)
    requires !step.Commit? && Enabled(s, n, step) && Inv(s, read, n)
    ensures CallInv(s, read, n, Apply(s, read, n, step).calls[step.id])
  {
    if !step.Get? {
      assert CallInv(s, read, n, s.calls[step.id]);
    }
  }

  lemma OtherCallsStay<D, V>(s: State<D, V>, read: Reader<D, V>, n: nat, step: Step<D>, id: nat)
    requires !step.Commit? && Enabled(s, n, step) && Inv(s, read, n) && id in s.calls && id != step.id
    ensures id in Apply(s, read, n, step).calls && CallInv(Apply(s, read, n, step), read, n, Apply(s, read, n, step).calls[id])
  {
    assert CallInv(s, read, n, s.calls[id]);
  }

  /** Only a verified build is stored. */
  lemma EntryStaysExact<D, V>(s: State<D, V>, read: Reader<D, V>, n: nat, step: Step<D>)
    requires Enabled(s, n, step) && Inv(s, read, n)
    ensures var s' := Apply(s, read, n, step);
            s'.entry.Some? ==> Exact(s', read, n, s'.entry.value.generation, s'.entry.value.value)
  {
    if step.Finish? {
      assert CallInv(s, read, n, s.calls[step.id]);
    }
  }

  lemma HistoryGrows<D, V>(s: State<D, V>, read: Reader<D, V>, n: nat, step: Step<D>)
    requires Enabled(s, n, step) && Inv(s, read, n)
    ensures var s' := Apply(s, read, n, step);
            s'.generation in s'.history && forall g | g in s'.history :: g <= s'.generation
  {
  }

  lemma CallStays<D, V>(s: State<D, V>, read: Reader<D, V>, n: nat, step: Step<D>, id: nat)
    requires Enabled(s, n, step) && Inv(s, read, n) && id in Apply(s, read, n, step).calls
    ensures CallInv(Apply(s, read, n, step), read, n, Apply(s, read, n, step).calls[id])
  {
    if step.Commit? {
      CommitKeepsCalls(s, read, n, step, s.calls[id]);
    } else if id == step.id {
      CallMoves(s, read, n, step);
    } else {
      OtherCallsStay(s, read, n, step, id);
    }
  }

  lemma StepKeepsInv<D, V>(s: State<D, V>, read: Reader<D, V>, n: nat, step: Step<D>)
    requires Inv(s, read, n) && Enabled(s, n, step)
    ensures Inv(Apply(s, read, n, step), read, n)
  {
    HistoryGrows(s, read, n, step);
    EntryStaysExact(s, read, n, step);
    forall id | id in Apply(s, read, n, step).calls
      ensures CallInv(Apply(s, read, n, step), read, n, Apply(s, read, n, step).calls[id])
    {
      CallStays(s, read, n, step, id);
    }
  }

  /** The cache is sound under every interleaving. */
  lemma {:induction false} CacheIsSound<D, V>(s: State<D, V>, read: Reader<D, V>, n: nat, steps: seq<Step<D>>)
    requires Inv(s, read, n) && Legal(s, read, n, steps)
    ensures Inv(Run(s, read, n, steps), read, n)
    decreases |steps|
  {
    if steps != [] {
      StepKeepsInv(s, read, n, steps[0]);
      CacheIsSound(Apply(s, read, n, steps[0]), read, n, steps[1..]);
    }
  }

  /** From a cold start: whatever the cache answered, or verified, was the view of one
      database that was the current one at some moment of that call. */
  lemma AnswersWereCurrent<D, V>(db: D, read: Reader<D, V>, n: nat, steps: seq<Step<D>>, id: nat)
    requires Legal(Start(db), read, n, steps)
    requires var s := Run(Start(db), read, n, steps);
             id in s.calls && s.calls[id].Returned? && !s.calls[id].how.Unverified?
    ensures var s := Run(Start(db), read, n, steps);
            var c := s.calls[id];
            && c.begun <= c.stamp <= s.generation && c.stamp in s.history
            && c.value == ViewOf(read, s.history[c.stamp], n)
  {
    CacheIsSound(Start(db), read, n, steps);
    assert CallInv(Run(Start(db), read, n, steps), read, n, Run(Start(db), read, n, steps).calls[id]);
  }

  /** Storing late is harmless: whatever older verified entry lands over a newer one, a
      call is answered from it only if it read that very generation itself. */
  lemma HitMatchesOwnStamp<D, V>(s: State<D, V>, read: Reader<D, V>, n: nat, id: nat)
    requires Inv(s, read, n) && Enabled(s, n, Consult(id))
    ensures var c := Apply(s, read, n, Consult(id)).calls[id];
            c.Returned? ==> Exact(s, read, n, s.calls[id].stamp, c.value) && c.stamp == s.calls[id].stamp
  {
  }

  // When the cache answers, and when it is filled.

  predicate NoCommits<D>(steps: seq<Step<D>>) {
    steps == [] || (!steps[0].Commit? && NoCommits(steps[1..]))
  }

  /** A call that no commit has disturbed so far. */
  predicate Undisturbed<D, V>(s: State<D, V>, id: nat) {
    id in s.calls ==>
      match s.calls[id]
      case Called(_) => true
      case Stamped(_, stamp) => stamp == s.generation
      case Building(_, stamp, _) => stamp == s.generation
      case Checked(_, _, _, unmoved) => unmoved
      case Returned(_, _, _, how) => !how.Unverified?
  }

  lemma UndisturbedStep<D, V>(s: State<D, V>, read: Reader<D, V>, n: nat, step: Step<D>, id: nat)
    requires s.generation in s.history && Enabled(s, n, step) && !step.Commit? && Undisturbed(s, id)
    ensures Undisturbed(Apply(s, read, n, step), id)
  {
  }

  /** While nothing is committed every call that returns is a hit or verified. */
  lemma {:induction false} QuietCallsVerify<D, V>(s: State<D, V>, read: Reader<D, V>, n: nat, steps: seq<Step<D>>, id: nat)
    requires Legal(s, read, n, steps) && NoCommits(steps) && Undisturbed(s, id)
    ensures Undisturbed(Run(s, read, n, steps), id)
    decreases |steps|
  {
    if steps != [] {
      UndisturbedStep(s, read, n, steps[0], id);
      QuietCallsVerify(Apply(s, read, n, steps[0]), read, n, steps[1..], id);
    }
  }

  /** The cache takes a call's build exactly when that call was not disturbed, and keeps what it
      has otherwise. */
  lemma BuildsAreKept<D, V>(s: State<D, V>, read: Reader<D, V>, n: nat, id: nat)
    requires s.generation in s.history && Enabled(s, n, Finish(id))
    ensures var c, s' := s.calls[id], Apply(s, read, n, Finish(id));
            s'.entry == if Undisturbed(s, id) then Some(Entry(c.stamp, c.built)) else s.entry
  {
  }

  /** The entry is the one of the current generation. */
  ghost predicate Warm<D, V>(s: State<D, V>, entry: Entry<V>) {
    s.entry == Some(entry) && entry.generation == s.generation
  }

  /** Nothing is committed and nobody stores. */
  predicate Still<D>(steps: seq<Step<D>>) {
    steps == [] || (!steps[0].Commit? && !steps[0].Finish? && Still(steps[1..]))
  }

  /** A call that will be answered, or was, without a read. */
  ghost predicate Served<D, V>(s: State<D, V>, entry: Entry<V>, id: nat) {
    id in s.calls ==>
      match s.calls[id]
      case Called(_) => true
      case Stamped(_, stamp) => stamp == entry.generation
      case Returned(_, stamp, value, how) => stamp == entry.generation && value == entry.value && how.Hit?
      case _ => false
  }

  lemma ServedStep<D, V>(s: State<D, V>, read: Reader<D, V>, n: nat, step: Step<D>, entry: Entry<V>, id: nat)
    requires s.generation in s.history && Enabled(s, n, step) && !step.Commit? && !step.Finish?
    requires Warm(s, entry) && Served(s, entry, id)
    ensures Warm(Apply(s, read, n, step), entry) && Served(Apply(s, read, n, step), entry, id) && step != ReadPart(id)
  {
  }

  /** A warm cache answers: until the next commit or store, whoever calls is given the stored
      value and reads nothing of the database. */
  lemma {:induction false} WarmCacheAnswers<D, V>(s: State<D, V>, read: Reader<D, V>, n: nat, steps: seq<Step<D>>, entry: Entry<V>, id: nat)
    requires Legal(s, read, n, steps) && Still(steps) && Warm(s, entry) && Served(s, entry, id)
    ensures Served(Run(s, read, n, steps), entry, id) && ReadsOf(s, read, n, steps, id) == []
    decreases |steps|
  {
    if steps != [] {
      ServedStep(s, read, n, steps[0], entry, id);
      WarmCacheAnswers(Apply(s, read, n, steps[0]), read, n, steps[1..], entry, id);
    }
  }

  // When an answer is torn.

  /** A build whose reads see these databases, one after the other. */
  function Built<D, V>(read: Reader<D, V>, dbs: seq<D>): (v: seq<V>)
    ensures |v| == |dbs|
  {
    if dbs == [] then [] else
      var before := Built(read, dbs[..|dbs| - 1]);
      before + [read(before, dbs[|dbs| - 1])]
  }

  /** The databases a call reads from along a run. */
  function ReadsOf<D, V>(s: State<D, V>, read: Reader<D, V>, n: nat, steps: seq<Step<D>>, id: nat): seq<D>
    requires Legal(s, read, n, steps)
    decreases |steps|
  {
    if steps == [] then []
    else (if steps[0] == ReadPart(id) then [s.history[s.generation]] else [])
         + ReadsOf(Apply(s, read, n, steps[0]), read, n, steps[1..], id)
  }

  /** What a call has built so far; nothing if it was answered from the cache. */
  function Progress<D, V>(s: State<D, V>, id: nat): seq<V> {
    if id !in s.calls then [] else
      match s.calls[id]
      case Building(_, _, parts) => parts
      case Checked(_, _, built, _) => built
      case Returned(_, _, value, how) => if how.Hit? then [] else value
      case _ => []
  }

  predicate IsHit<D, V>(s: State<D, V>, id: nat) {
    id in s.calls && s.calls[id].Returned? && s.calls[id].how.Hit?
  }

  predicate IsDone<D, V>(s: State<D, V>, id: nat) {
    id in s.calls && (s.calls[id].Checked? || s.calls[id].Returned?)
  }

  lemma StepBuilds<D, V>(s: State<D, V>, read: Reader<D, V>, n: nat, step: Step<D>, id: nat)
    requires Enabled(s, n, step) && s.generation in s.history
    ensures var s' := Apply(s, read, n, step);
            && Progress(s', id) == Progress(s, id)
                 + (if step == ReadPart(id) then [read(Progress(s, id), s.history[s.generation])] else [])
            && (IsHit(s, id) ==> IsHit(s', id))
            && (IsDone(s', id) && !IsHit(s', id) && !IsDone(s, id) ==> |Progress(s', id)| == n)
            && (IsDone(s, id) ==> IsDone(s', id) && Progress(s', id) == Progress(s, id))
  {
  }

  /** Built from what was built before, with these databases. */
  function BuiltOn<D, V>(read: Reader<D, V>, parts: seq<V>, dbs: seq<D>): seq<V>
    decreases |dbs|
  {
    if dbs == [] then parts else BuiltOn(read, parts + [read(parts, dbs[0])], dbs[1..])
  }

  lemma {:induction false} BuiltInSteps<D, V>(read: Reader<D, V>, before: seq<D>, dbs: seq<D>)
    ensures BuiltOn(read, Built(read, before), dbs) == Built(read, before + dbs)
    decreases |dbs|
  {
    if dbs == [] {
      assert before + dbs == before;
    } else {
      assert (before + [dbs[0]])[..|before|] == before;
      assert before + dbs == (before + [dbs[0]]) + dbs[1..];
      BuiltInSteps(read, before + [dbs[0]], dbs[1..]);
    }
  }

  /** Whatever a call that was not a hit has built, it built from the databases it read. */
  lemma {:induction false} RunBuilds<D, V>(s: State<D, V>, read: Reader<D, V>, n: nat, steps: seq<Step<D>>, id: nat)
    requires Legal(s, read, n, steps)
    requires IsDone(s, id) && !IsHit(s, id) ==> |Progress(s, id)| == n
    ensures var f := Run(s, read, n, steps);
            && Progress(f, id) == BuiltOn(read, Progress(s, id), ReadsOf(s, read, n, steps, id))
            && (IsDone(f, id) && !IsHit(f, id) ==> |Progress(f, id)| == n)
    decreases |steps|
  {
    if steps != [] {
      StepBuilds(s, read, n, steps[0], id);
      RunBuilds(Apply(s, read, n, steps[0]), read, n, steps[1..], id);
      if steps[0] == ReadPart(id) {
        BuiltOnFirst(read, Progress(s, id), s.history[s.generation],
                     ReadsOf(Apply(s, read, n, steps[0]), read, n, steps[1..], id));
      } else {
        assert ReadsOf(s, read, n, steps, id) == ReadsOf(Apply(s, read, n, steps[0]), read, n, steps[1..], id);
      }
    }
  }

  lemma BuiltOnFirst<D, V>(read: Reader<D, V>, parts: seq<V>, db: D, dbs: seq<D>)
    ensures BuiltOn(read, parts, [db] + dbs) == BuiltOn(read, parts + [read(parts, db)], dbs)
  {
    assert ([db] + dbs)[1..] == dbs;
  }

  /** A read that tells databases apart. */
  ghost predicate Telling<D(!new), V(!new)>(read: Reader<D, V>) {
    forall parts, a, b {:trigger read(parts, a), read(parts, b)} :: read(parts, a) == read(parts, b) ==> a == b
  }

  lemma {:induction false} ViewIsUniform<D(!new), V(!new)>(read: Reader<D, V>, dbs: seq<D>, db: D)
    requires Telling(read)
    ensures Built(read, dbs) == ViewOf(read, db, |dbs|) <==> forall i | 0 <= i < |dbs| :: dbs[i] == db
  {
    if dbs != [] {
      var k := |dbs| - 1;
      var before, view := Built(read, dbs[..k]), ViewOf(read, db, k);
      ViewIsUniform(read, dbs[..k], db);
      assert Built(read, dbs) == before + [read(before, dbs[k])] && ViewOf(read, db, |dbs|) == view + [read(view, db)];
      if Built(read, dbs) == ViewOf(read, db, |dbs|) {
        assert before == Built(read, dbs)[..k] == view;
        assert read(before, dbs[k]) == Built(read, dbs)[k] == read(view, db);
      }
    }
  }

  /** From a cold start, with reads that tell databases apart: what a call built and returned is
      the view of one database exactly when all its reads saw the same one. */
  lemma TornExactly<D(!new), V(!new)>(db: D, read: Reader<D, V>, n: nat, steps: seq<Step<D>>, id: nat)
    requires Telling(read) && Legal(Start(db), read, n, steps)
    requires var s := Run(Start(db), read, n, steps); IsDone(s, id) && s.calls[id].Returned? && !IsHit(s, id)
    ensures var value, dbs := Run(Start(db), read, n, steps).calls[id].value, ReadsOf(Start(db), read, n, steps, id);
            && |dbs| == n
            && ((exists d :: value == ViewOf(read, d, n)) <==> forall i, j | 0 <= i < n && 0 <= j < n :: dbs[i] == dbs[j])
  {
    var dbs := ReadsOf(Start(db), read, n, steps, id);
    RunBuilds(Start(db), read, n, steps, id);
    BuiltInSteps(read, [], dbs);
    assert [] + dbs == dbs;
    var value := Run(Start(db), read, n, steps).calls[id].value;
    assert value == Built(read, dbs);
    if d :| value == ViewOf(read, d, n) {
      ViewIsUniform(read, dbs, d);
    }
    if forall i, j | 0 <= i < n && 0 <= j < n :: dbs[i] == dbs[j] {
      ViewIsUniform(read, dbs, if n > 0 then dbs[0] else db);
    }
  }

  /** The only call there is, before each step of a build that straddles a commit. */
  function TornCall(k: nat): Call<int> {
    match k
    case 0 => Called(0)
    case 1 => Stamped(0, 0)
    case 2 => Building(0, 0, [])
    case 3 => Building(0, 0, [5])
    case 4 => Building(0, 0, [5])
    case 5 => Building(0, 0, [5, 7])
    case 6 => Checked(0, 0, [5, 7], false)
    case _ => Returned(0, 0, [5, 7], Unverified)
  }

  function TornState(k: nat): State<int, int> {
    if k <= 3 then State(map[0 := 5], 0, None, map[0 := TornCall(k)])
    else State(map[0 := 5, 1 := 7], 1, None, map[0 := TornCall(k)])
  }

  function TornSteps(): seq<Step<int>> {
    [ReadStamp(0), Consult(0), ReadPart(0), Commit(1, 7), ReadPart(0), ReadStampAgain(0), Finish(0)]
  }

  lemma TornStep(read: Reader<int, int>, k: nat)
    requires k < 7 && forall parts, db :: read(parts, db) == db
    ensures TornState(k).generation in TornState(k).history && Enabled(TornState(k), 2, TornSteps()[k])
    ensures Apply(TornState(k), read, 2, TornSteps()[k]) == TornState(k + 1)
  {
    var s' := Apply(TornState(k), read, 2, TornSteps()[k]);
    assert k == 2 ==> [] + [read([], 5)] == [5];
    assert k == 4 ==> [5] + [read([5], 7)] == [5, 7];
    assert s'.calls == map[0 := TornCall(k + 1)];
    assert s'.history == TornState(k + 1).history;
  }

  lemma {:induction false} TornRun(read: Reader<int, int>, k: nat)
    requires k <= 7 && forall parts, db :: read(parts, db) == db
    ensures Legal(TornState(k), read, 2, TornSteps()[k..]) && Run(TornState(k), read, 2, TornSteps()[k..]) == TornState(7)
    decreases 7 - k
  {
    if k < 7 {
      TornStep(read, k);
      assert TornSteps()[k..][1..] == TornSteps()[k + 1..];
      TornRun(read, k + 1);
    }
  }

  /** A call that builds across a commit may return a mixture that no database ever was;
      it goes to that caller only and is never stored. */
  lemma TornBuildIsReturnedOnce(read: Reader<int, int>)
    requires forall parts, db :: read(parts, db) == db
    ensures Legal(Start(5), read, 2, [Get(0)] + TornSteps())
    ensures var s: State<int, int> := Run(Start(5), read, 2, [Get(0)] + TornSteps());
            && s.calls == map[0 := Returned(0, 0, [5, 7], Unverified)] && s.entry == None
            && forall g | g in s.history :: ViewOf(read, s.history[g], 2) != [5, 7]
  {
    assert ([Get(0)] + TornSteps())[1..] == TornSteps()[0..];
    TornRun(read, 0);
    assert ViewOf(read, 5, 2)[0] == ViewOf(read, 5, 2)[1];
    assert ViewOf(read, 7, 2)[0] == ViewOf(read, 7, 2)[1];
  }

  /** The projector supplies the commits: each event it applies either changes nothing or
      is a commit step at a higher generation. */
  lemma ProjectorCommits<T, V>(s: State<T, V>, n: nat, handlers: Projection.Handlers<T>, c: Projection.Conn<T>,
                               e: EventStore.Event, weather: Projection.Weather<T>)
    requires s.generation == c.committed.cursor < e.sequence
    ensures var c' := Projection.ApplyOne(handlers, c, e, weather).committed;
            c' == c.committed || Enabled(s, n, Commit(c'.cursor, c'.tables))
  {
    Projection.CursorStampsTables(handlers, c, e, weather);
  }

  /** The cache object: the two stretches of `get()` that touch it. */
  class Cache<V> {
    var generation: Option<nat>
    var value: seq<V>

    constructor ()
      ensures Holding() == None
    {
      generation, value := None, [];
    }

    function Holding(): Option<Entry<V>>
      reads this
    {
      if generation.Some? then Some(Entry(generation.value, value)) else None
    }

    /** After the first read of the generation. */
    method Probe(stamp: nat) returns (found: Option<seq<V>>)
      ensures found == Lookup(Holding(), stamp)
    {
      if generation == Some(stamp) {
        return Some(value);
      }
      return None;
    }

    /** After the second: store only what was built at one generation. */
    method Settle(stamp: nat, now: nat, built: seq<V>) returns (result: seq<V>)
      modifies this
      ensures Holding() == if now == stamp then Some(Entry(stamp, built)) else old(Holding())
      ensures result == built
    {
      if now == stamp {
        generation := Some(stamp);
        value := built;
      }
      return built;
    }
  }
}
