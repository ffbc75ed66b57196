/** The append-only event log (novelizer/canon/event_store.py) and the bounded retry
    under every write (novelizer/canon/db.py).

    A connection is its committed rows and the transaction it may have left open. What
    the database answers to each attempt is an input. */
module EventStore {
  import opened Options

  const ATTEMPTS := 4

  datatype Event = Event(sequence: nat, id: string, kind: string, payload: string)

  /** How one attempt at an append ends. */
  datatype Answer =
    | Stored
    | InsertFailed(locked: bool)   // no row written
    | CommitFailed(locked: bool)   // the row is written, in a transaction still open

  /** `next` is the autoincrement counter; it moves with the transaction that writes. */
  datatype Journal = Journal(rows: seq<Event>, next: nat, open: Option<seq<Event>>)

  const EMPTY := Journal([], 1, None)

  /** What a query on this connection sees. */
  function View(j: Journal): seq<Event> {
    if j.open.Some? then j.open.value else j.rows
  }

  function NewRow(j: Journal, id: string, kind: string, payload: string): Event {
    Event(j.next, id, kind, payload)
  }

  /** One attempt: roll back what an earlier one left open, insert, commit. */
  function Attempt(j: Journal, row: Event, answer: Answer): Journal {
    match answer
    case Stored => Journal(j.rows + [row], j.next + 1, None)
    case InsertFailed(_) => j.(open := Some(j.rows))
    case CommitFailed(_) => j.(open := Some(j.rows + [row]))
  }

  predicate Retries(answer: Answer, attempt: nat) {
    !answer.Stored? && answer.locked && attempt < ATTEMPTS
  }

  /** The attempt that `retry_locked` stops at: the first that is not a lock, or the last. */
  function Deciding(answers: nat -> Answer, attempt: nat): (k: nat)
    requires 1 <= attempt <= ATTEMPTS
    ensures attempt <= k <= ATTEMPTS
    ensures !Retries(answers(k), k) && forall i | attempt <= i < k :: Retries(answers(i), i)
    decreases ATTEMPTS - attempt
  {
    if Retries(answers(attempt), attempt) then Deciding(answers, attempt + 1) else attempt
  }

  /** Sequence numbers rise along the rows and stay under the counter. */
  ghost predicate Ascending(rows: seq<Event>) {
    forall i, j {:trigger Earlier(rows, i, j)} | 0 <= i < j < |rows| :: Earlier(rows, i, j)
  }

  ghost predicate Earlier(rows: seq<Event>, i: nat, j: nat)
    requires i < |rows| && j < |rows|
  {
    rows[i].sequence < rows[j].sequence
  }

  lemma AscendingPart(rows: seq<Event>, lo: nat, hi: nat)
    requires Ascending(rows) && lo <= hi <= |rows|
    ensures Ascending(rows[lo..hi])
  {
    forall i, j | 0 <= i < j < hi - lo
      ensures Earlier(rows[lo..hi], i, j)
    {
      assert Earlier(rows, lo + i, lo + j);
    }
  }

  lemma AscendingMore(rows: seq<Event>, last: Event)
    requires Ascending(rows) && forall e | e in rows :: e.sequence < last.sequence
    ensures Ascending(rows + [last])
  {
    forall i, j | 0 <= i < j < |rows| + 1
      ensures Earlier(rows + [last], i, j)
    {
      if j < |rows| {
        assert Earlier(rows, i, j);
      }
    }
  }

  ghost predicate Valid(j: Journal) {
    Ascending(j.rows) && forall e | e in j.rows :: e.sequence < j.next
  }

  class Store {
    var rows: seq<Event>
    var next: nat
    var open: Option<seq<Event>>

    constructor ()
      ensures Now() == EMPTY && Valid(Now())
    {
      rows, next, open := [], 1, None;
    }

    function Now(): Journal
      reads this
    {
      Journal(rows, next, open)
    }

    /** `_insert` under the write lock: however many attempts it takes, a stored event is
        in the log once, at the end; one that is not stored is not in the log at all. */
    method Insert(id: string, kind: string, payload: string, answers: nat -> Answer) returns (stored: Option<Event>)
      requires Valid(Now())
      modifies this
      ensures Valid(Now())
      ensures stored.Some? <==> answers(Deciding(answers, 1)).Stored?
      ensures stored.Some? ==> stored.value == NewRow(old(Now()), id, kind, payload)
      ensures rows == old(rows) + if stored.Some? then [stored.value] else []
      ensures Now() == Attempt(old(Now()), NewRow(old(Now()), id, kind, payload), answers(Deciding(answers, 1)))
    {
      var row := Event(next, id, kind, payload);
      var attempt := 1;
      while true
        invariant 1 <= attempt <= ATTEMPTS && Deciding(answers, attempt) == Deciding(answers, 1)
        invariant rows == old(rows) && next == old(next)
        decreases ATTEMPTS - attempt
      {
        open := None;
        match answers(attempt) {
          case Stored =>
            AscendingMore(rows, row);
            rows, next := rows + [row], next + 1;
            return Some(row);
          case InsertFailed(locked) =>
            open := Some(rows);
            if !locked || attempt == ATTEMPTS {
              return None;
            }
          case CommitFailed(locked) =>
            open := Some(rows + [row]);
            if !locked || attempt == ATTEMPTS {
              return None;
            }
        }
        attempt := attempt + 1;
      }
    }
  }

  // A run of appends.

  datatype Request = Request(id: string, kind: string, payload: string, answers: nat -> Answer)

  function Served(j: Journal, r: Request): Journal {
    Attempt(j, NewRow(j, r.id, r.kind, r.payload), r.answers(Deciding(r.answers, 1)))
  }

  function AppendAll(j: Journal, requests: seq<Request>): Journal {
    if requests == [] then j
    else Served(AppendAll(j, requests[..|requests| - 1]), requests[|requests| - 1])
  }

  predicate Accepted(r: Request) {
    r.answers(Deciding(r.answers, 1)).Stored?
  }

  /** An attempt that ran into a lock. */
  predicate Locked(answer: Answer) {
    !answer.Stored? && answer.locked
  }

  /** The first attempt that is no lock decides, at once if it is an error of another kind; four
      locks in a row are final. */
  lemma FirstThatIsNoLock(answers: nat -> Answer, k: nat)
    requires 1 <= k <= 4 && (forall i | 1 <= i < k :: Locked(answers(i))) && (k == 4 || !Locked(answers(k)))
    ensures Deciding(answers, 1) == k
  {
    var d := Deciding(answers, 1);
    assert k < d ==> Retries(answers(k), k);
  }

  /** A request is stored exactly if one of its first four attempts stores it and all before that
      one ran into a lock. */
  lemma StoredExactly(r: Request)
    ensures Accepted(r) <==> exists k | 1 <= k <= 4 :: r.answers(k).Stored? && forall i | 1 <= i < k :: Locked(r.answers(i))
  {
    var d := Deciding(r.answers, 1);
    assert forall i | 1 <= i < d :: Retries(r.answers(i), i) ==> Locked(r.answers(i));
    if k :| 1 <= k <= 4 && r.answers(k).Stored? && forall i | 1 <= i < k :: Locked(r.answers(i)) {
      FirstThatIsNoLock(r.answers, k);
    }
  }

  /** The rows the requests stand for: one for each that is accepted, numbered from `next`. */
  function RowsOf(next: nat, requests: seq<Request>): seq<Event> {
    if requests == [] then [] else
      var front, r := RowsOf(next, requests[..|requests| - 1]), requests[|requests| - 1];
      if Accepted(r) then front + [Event(next + |front|, r.id, r.kind, r.payload)] else front
  }

  lemma ServedStep(j: Journal, r: Request)
    requires Valid(j)
    ensures var j' := Served(j, r);
            Valid(j') && if Accepted(r) then j'.rows == j.rows + [NewRow(j, r.id, r.kind, r.payload)] && j'.next == j.next + 1
                         else j'.rows == j.rows && j'.next == j.next
  {
    AscendingMore(j.rows, NewRow(j, r.id, r.kind, r.payload));
  }

  /** Exactly one row for each accepted request, in request order and with what it asked to
      store, after the old rows, under consecutive numbers that no old row has. */
  lemma {:induction false} OneRowPerAppend(j: Journal, requests: seq<Request>)
    requires Valid(j)
    ensures var j' := AppendAll(j, requests);
            Valid(j') && j'.rows == j.rows + RowsOf(j.next, requests) && j'.next == j.next + |RowsOf(j.next, requests)|
  {
    if requests != [] {
      var front := requests[..|requests| - 1];
      OneRowPerAppend(j, front);
      ServedStep(AppendAll(j, front), requests[|requests| - 1]);
    }
  }

  // Reading.

  /** `events_since`: rows after a sequence number, in order. */
  function EventsSince(rows: seq<Event>, sequence: nat): seq<Event> {
    if rows == [] then [] else
      var front, last := EventsSince(rows[..|rows| - 1], sequence), rows[|rows| - 1];
      if last.sequence > sequence then front + [last] else front
  }

  /** How many rows a reader at `sequence` has behind it. */
  function Seen(rows: seq<Event>, sequence: nat): (n: nat)
    ensures n <= |rows|
  {
    if rows == [] then 0
    else Seen(rows[..|rows| - 1], sequence) + if rows[|rows| - 1].sequence <= sequence then 1 else 0
  }

  lemma LastIsLargest(rows: seq<Event>, sequence: nat)
    requires Ascending(rows) && rows != [] && rows[|rows| - 1].sequence <= sequence
    ensures forall i | 0 <= i < |rows| :: rows[i].sequence <= sequence
  {
    forall i | 0 <= i < |rows| ensures rows[i].sequence <= sequence {
      if i < |rows| - 1 {
        assert Earlier(rows, i, |rows| - 1);
      }
    }
  }

  lemma {:induction false} AllSeen(rows: seq<Event>, sequence: nat)
    requires forall i | 0 <= i < |rows| :: rows[i].sequence <= sequence
    ensures EventsSince(rows, sequence) == [] && Seen(rows, sequence) == |rows|
  {
    if rows != [] {
      AllSeen(rows[..|rows| - 1], sequence);
    }
  }

  /** Rows split at `n`: behind it what a reader at `sequence` has seen, from it on what it reads. */
  ghost predicate SplitAt(rows: seq<Event>, sequence: nat, n: nat) {
    && n <= |rows| && EventsSince(rows, sequence) == rows[n..] && Seen(rows, sequence) == n
    && forall i | 0 <= i < |rows| :: rows[i].sequence <= sequence <==> i < n
  }

  lemma SplitGrows(front: seq<Event>, last: Event, sequence: nat, n: nat)
    requires SplitAt(front, sequence, n) && last.sequence > sequence
    ensures SplitAt(front + [last], sequence, n)
  {
    var rows := front + [last];
    assert rows[..|front|] == front && rows[|front|] == last;
    assert rows[n..] == front[n..] + [last];
  }

  lemma {:induction false} SplitSomewhere(rows: seq<Event>, sequence: nat)
    requires Ascending(rows)
    ensures SplitAt(rows, sequence, Seen(rows, sequence))
  {
    if rows != [] {
      var front, last := rows[..|rows| - 1], rows[|rows| - 1];
      if last.sequence <= sequence {
        LastIsLargest(rows, sequence);
        AllSeen(rows, sequence);
      } else {
        AscendingPart(rows, 0, |rows| - 1);
        SplitSomewhere(front, sequence);
        SplitGrows(front, last, sequence, Seen(front, sequence));
        assert rows == front + [last];
      }
    }
  }

  /** On an ascending log the query is a suffix: what is read and what is behind make up
      the log. */
  lemma SinceIsSuffix(rows: seq<Event>, sequence: nat)
    requires Ascending(rows)
    ensures EventsSince(rows, sequence) == rows[Seen(rows, sequence)..]
    ensures forall i | 0 <= i < |rows| :: rows[i].sequence <= sequence <==> i < Seen(rows, sequence)
  {
    SplitSomewhere(rows, sequence);
  }

  /** A commit that fails for good leaves its row visible to this connection's own
      queries, although it is not in the log; no other outcome does. */
  lemma ViewIsTheLog(j: Journal, r: Request)
    ensures View(Served(j, r)) == Served(j, r).rows <==> !r.answers(Deciding(r.answers, 1)).CommitFailed?
  {
    var row := NewRow(j, r.id, r.kind, r.payload);
    assert |j.rows + [row]| != |j.rows|;
  }
}
