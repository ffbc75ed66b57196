/** Merging the resolution windows of threads and secrets into spans
    (novelizer/brain/resolution_pacing.py:21-45). */
module Congestion {

  datatype ThreadState = Planted | Touched | PaidOff | Abandoned

  datatype Thread = Thread(state: ThreadState, lo: int, hi: int)

  datatype Secret = Secret(revealed: bool, lo: int, hi: int)

  datatype Window = Window(lo: int, hi: int)

  datatype Span = Span(lo: int, hi: int, count: nat)

  predicate Terminal(state: ThreadState) {
    state.PaidOff? || state.Abandoned?
  }

  predicate Live(t: Thread) {
    !Terminal(t.state) && t.hi > 0
  }

  predicate Hidden(s: Secret) {
    !s.revealed && s.hi > 0
  }

  function ThreadWindows(threads: seq<Thread>): seq<Window> {
    if threads == [] then [] else
      var t := threads[|threads| - 1];
      ThreadWindows(threads[..|threads| - 1]) + if Live(t) then [Window(t.lo, t.hi)] else []
  }

  function SecretWindows(secrets: seq<Secret>): seq<Window> {
    if secrets == [] then [] else
      var s := secrets[|secrets| - 1];
      SecretWindows(secrets[..|secrets| - 1]) + if Hidden(s) then [Window(s.lo, s.hi)] else []
  }

  predicate ThreadOn(t: Thread, w: Window) {
    (t.state.Planted? || t.state.Touched?) && t.hi >= 1 && t.lo == w.lo && t.hi == w.hi
  }

  predicate SecretOn(s: Secret, w: Window) {
    !s.revealed && s.hi >= 1 && s.lo == w.lo && s.hi == w.hi
  }

  /** The open threads set on a window, and the unrevealed secrets. */
  function ThreadsOn(threads: seq<Thread>, w: Window): set<nat> {
    set i | 0 <= i < |threads| && ThreadOn(threads[i], w)
  }

  function SecretsOn(secrets: seq<Secret>, w: Window): set<nat> {
    set i | 0 <= i < |secrets| && SecretOn(secrets[i], w)
  }

  lemma ListedMore(ws: seq<Window>, v: Window, w: Window)
    ensures multiset(ws + [v])[w] == multiset(ws)[w] + if v == w then 1 else 0
  {
  }

  lemma ThreadsOnMore(threads: seq<Thread>, t: Thread, w: Window)
    ensures |ThreadsOn(threads + [t], w)| == |ThreadsOn(threads, w)| + if ThreadOn(t, w) then 1 else 0
  {
    assert ThreadsOn(threads + [t], w) == ThreadsOn(threads, w) + if ThreadOn(t, w) then {|threads|} else {};
  }

  lemma SecretsOnMore(secrets: seq<Secret>, s: Secret, w: Window)
    ensures |SecretsOn(secrets + [s], w)| == |SecretsOn(secrets, w)| + if SecretOn(s, w) then 1 else 0
  {
    assert SecretsOn(secrets + [s], w) == SecretsOn(secrets, w) + if SecretOn(s, w) then {|secrets|} else {};
  }

  lemma ThreadStep(threads: seq<Thread>, t: Thread, w: Window)
    ensures multiset(ThreadWindows(threads + [t]))[w] == multiset(ThreadWindows(threads))[w] + if ThreadOn(t, w) then 1 else 0
  {
    assert (threads + [t])[..|threads|] == threads;
    assert ThreadWindows(threads) + [] == ThreadWindows(threads);
    ListedMore(ThreadWindows(threads), Window(t.lo, t.hi), w);
  }

  lemma SecretStep(secrets: seq<Secret>, s: Secret, w: Window)
    ensures multiset(SecretWindows(secrets + [s]))[w] == multiset(SecretWindows(secrets))[w] + if SecretOn(s, w) then 1 else 0
  {
    assert (secrets + [s])[..|secrets|] == secrets;
    assert SecretWindows(secrets) + [] == SecretWindows(secrets);
    ListedMore(SecretWindows(secrets), Window(s.lo, s.hi), w);
  }

  lemma {:induction false} ThreadsListed(threads: seq<Thread>, w: Window)
    ensures multiset(ThreadWindows(threads))[w] == |ThreadsOn(threads, w)|
  {
    if threads == [] {
      assert ThreadsOn([], w) == {};
    } else {
      var front, t := threads[..|threads| - 1], threads[|threads| - 1];
      ThreadsListed(front, w);
      ThreadsOnMore(front, t, w);
      ThreadStep(front, t, w);
      assert threads == front + [t];
    }
  }

  lemma {:induction false} SecretsListed(secrets: seq<Secret>, w: Window)
    ensures multiset(SecretWindows(secrets))[w] == |SecretsOn(secrets, w)|
  {
    if secrets == [] {
      assert SecretsOn([], w) == {};
    } else {
      var front, s := secrets[..|secrets| - 1], secrets[|secrets| - 1];
      SecretsListed(front, w);
      SecretsOnMore(front, s, w);
      SecretStep(front, s, w);
      assert secrets == front + [s];
    }
  }

  /** A window is listed once for every open thread and every unrevealed secret set on it. */
  lemma WindowsAreLive(threads: seq<Thread>, secrets: seq<Secret>, w: Window)
    ensures multiset(ThreadWindows(threads) + SecretWindows(secrets))[w] == |ThreadsOn(threads, w)| + |SecretsOn(secrets, w)|
  {
    ThreadsListed(threads, w);
    SecretsListed(secrets, w);
  }

  /** The order of pairs. */
  predicate AtMost(a: Window, b: Window) {
    a.lo < b.lo || (a.lo == b.lo && a.hi <= b.hi)
  }

  predicate Sorted(ws: seq<Window>) {
    |ws| <= 1 || (Sorted(ws[..|ws| - 1]) && AtMost(ws[|ws| - 2], ws[|ws| - 1]))
  }

  function Insert(ws: seq<Window>, w: Window): (r: seq<Window>)
    requires Sorted(ws)
    ensures Sorted(r) && |r| == |ws| + 1
    ensures r[|r| - 1] == w || (ws != [] && r[|r| - 1] == ws[|ws| - 1])
  {
    if ws == [] || AtMost(ws[|ws| - 1], w) then
      assert (ws + [w])[..|ws|] == ws;
      ws + [w]
    else
      var front, last := Insert(ws[..|ws| - 1], w), ws[|ws| - 1];
      assert (front + [last])[..|front|] == front;
      front + [last]
  }

  function Sort(ws: seq<Window>): (r: seq<Window>)
    ensures Sorted(r) && |r| == |ws|
  {
    if ws == [] then [] else Insert(Sort(ws[..|ws| - 1]), ws[|ws| - 1])
  }

  predicate Inside(w: Window, s: Span) {
    s.lo <= w.lo && w.hi <= s.hi
  }

  function CountInside(ws: seq<Window>, s: Span): nat {
    if ws == [] then 0 else CountInside(ws[..|ws| - 1], s) + if Inside(ws[|ws| - 1], s) then 1 else 0
  }

  lemma InFrontOrLast(ws: seq<Window>, v: Window)
    requires ws != []
    ensures v in ws <==> v in ws[..|ws| - 1] || v == ws[|ws| - 1]
  {
    assert ws == ws[..|ws| - 1] + [ws[|ws| - 1]];
  }

  lemma {:induction false} InsertKeeps(ws: seq<Window>, w: Window, v: Window)
    requires Sorted(ws)
    ensures v in Insert(ws, w) <==> v in ws || v == w
  {
    if ws != [] && !AtMost(ws[|ws| - 1], w) {
      InsertKeeps(ws[..|ws| - 1], w, v);
      InFrontOrLast(ws, v);
    }
  }

  lemma {:induction false} InsertCounts(ws: seq<Window>, w: Window, s: Span)
    requires Sorted(ws)
    ensures CountInside(Insert(ws, w), s) == CountInside(ws, s) + if Inside(w, s) then 1 else 0
  {
    if ws == [] || AtMost(ws[|ws| - 1], w) {
      assert (ws + [w])[..|ws|] == ws;
    } else {
      var front, last := ws[..|ws| - 1], ws[|ws| - 1];
      InsertCounts(front, w, s);
      assert (Insert(front, w) + [last])[..|ws|] == Insert(front, w);
    }
  }

  /** Sorting loses no window and invents none. */
  lemma {:induction false} SortKeeps(ws: seq<Window>, v: Window)
    ensures v in Sort(ws) <==> v in ws
  {
    if ws != [] {
      SortKeeps(ws[..|ws| - 1], v);
      InsertKeeps(Sort(ws[..|ws| - 1]), ws[|ws| - 1], v);
      InFrontOrLast(ws, v);
    }
  }

  lemma {:induction false} SortCounts(ws: seq<Window>, s: Span)
    ensures CountInside(Sort(ws), s) == CountInside(ws, s)
  {
    if ws != [] {
      SortCounts(ws[..|ws| - 1], s);
      InsertCounts(Sort(ws[..|ws| - 1]), ws[|ws| - 1], s);
    }
  }

  /** The spans of sorted windows, before the final filter. */
  function Merge(ws: seq<Window>): (spans: seq<Span>)
    ensures ws != [] ==> spans != []
  {
    if ws == [] then []
    else if |ws| == 1 then [Span(ws[0].lo, ws[0].hi, 1)]
    else
      var before, w := Merge(ws[..|ws| - 1]), ws[|ws| - 1];
      var current := before[|before| - 1];
      if w.lo <= current.hi then before[|before| - 1 := Widen(current, w)]
      else before + [Span(w.lo, w.hi, 1)]
  }

  function Widen(s: Span, w: Window): Span {
    Span(s.lo, if s.hi >= w.hi then s.hi else w.hi, s.count + 1)
  }

  method MergeSpans(ws: seq<Window>) returns (spans: seq<Span>)
    requires ws != []
    ensures spans == Merge(ws)
  {
    spans := [];
    var lo, hi, count := ws[0].lo, ws[0].hi, 1;
    assert ws[..1] == [ws[0]];
    for i := 1 to |ws|
      invariant Merge(ws[..i]) == spans + [Span(lo, hi, count)]
    {
      var w := ws[i];
      assert ws[..i + 1][..i] == ws[..i];
      if w.lo <= hi {
        hi, count := if hi >= w.hi then hi else w.hi, count + 1;
      } else {
        spans := spans + [Span(lo, hi, count)];
        lo, hi, count := w.lo, w.hi, 1;
      }
    }
    assert ws[..|ws|] == ws;
    spans := spans + [Span(lo, hi, count)];
  }

  function Crowded(spans: seq<Span>, most: int): seq<Span> {
    if spans == [] then []
    else (if spans[0].count > most then [spans[0]] else []) + Crowded(spans[1..], most)
  }

  method CongestedWindows(threads: seq<Thread>, secrets: seq<Secret>, most: int) returns (spans: seq<Span>)
    ensures spans == Crowded(Merge(Sort(ThreadWindows(threads) + SecretWindows(secrets))), most)
  {
    var windows := ThreadWindows(threads) + SecretWindows(secrets);
    if windows == [] {
      return [];
    }
    var all := MergeSpans(Sort(windows));
    spans := Crowded(all, most);
  }

  // What the spans mean.

  predicate Overlap(a: Window, b: Window) {
    a.lo <= b.hi && b.lo <= a.hi
  }

  /** A chain of overlapping windows of the list. */
  ghost predicate Chain(ws: seq<Window>, path: seq<Window>) {
    path != [] && path[0] in ws &&
    (|path| > 1 ==> Overlap(path[0], path[1]) && Chain(ws, path[1..]))
  }

  ghost predicate Linked(ws: seq<Window>, a: Window, b: Window) {
    exists path :: Chain(ws, path) && path[0] == a && path[|path| - 1] == b
  }

  lemma LinkSelf(ws: seq<Window>, a: Window)
    requires a in ws
    ensures Linked(ws, a, a)
  {
    assert Chain(ws, [a]);
  }

  lemma LinkStep(ws: seq<Window>, a: Window, b: Window, c: Window)
    requires a in ws && Overlap(a, b) && Linked(ws, b, c)
    ensures Linked(ws, a, c)
  {
    var path :| Chain(ws, path) && path[0] == b && path[|path| - 1] == c;
    assert ([a] + path)[1..] == path;
    assert Chain(ws, [a] + path);
  }

  lemma {:induction false} LinkJoin(ws: seq<Window>, path: seq<Window>, c: Window)
    requires Chain(ws, path) && Linked(ws, path[|path| - 1], c)
    ensures Linked(ws, path[0], c)
  {
    if |path| > 1 {
      LinkJoin(ws, path[1..], c);
      LinkStep(ws, path[0], path[1], c);
    }
  }

  lemma LinkTrans(ws: seq<Window>, a: Window, b: Window, c: Window)
    requires Linked(ws, a, b) && Linked(ws, b, c)
    ensures Linked(ws, a, c)
  {
    var path :| Chain(ws, path) && path[0] == a && path[|path| - 1] == b;
    LinkJoin(ws, path, c);
  }

  lemma {:induction false} ChainGrows(ws: seq<Window>, more: seq<Window>, path: seq<Window>)
    requires Chain(ws, path) && forall w | w in ws :: w in more
    ensures Chain(more, path)
  {
    if |path| > 1 {
      ChainGrows(ws, more, path[1..]);
    }
  }

  lemma LinkGrows(ws: seq<Window>, more: seq<Window>, a: Window, b: Window)
    requires Linked(ws, a, b) && forall w | w in ws :: w in more
    ensures Linked(more, a, b)
  {
    var path :| Chain(ws, path) && path[0] == a && path[|path| - 1] == b;
    ChainGrows(ws, more, path);
  }

  predicate Proper(ws: seq<Window>) {
    forall w | w in ws :: w.lo <= w.hi
  }

  /** Sorted, with a gap between any two spans. */
  predicate Apart(spans: seq<Span>) {
    forall i, j | 0 <= i < j < |spans| :: spans[i].hi < spans[j].lo
  }

  ghost predicate Held(w: Window, spans: seq<Span>) {
    exists i :: 0 <= i < |spans| && Inside(w, spans[i])
  }

  ghost predicate Covers(ws: seq<Window>, spans: seq<Span>) {
    forall w {:trigger Held(w, spans)} | w in ws :: Held(w, spans)
  }

  ghost predicate Tight(ws: seq<Window>, s: Span) {
    (exists w :: w in ws && Inside(w, s) && w.lo == s.lo) && (exists w :: w in ws && Inside(w, s) && w.hi == s.hi)
  }

  ghost predicate AllLinked(ws: seq<Window>, s: Span) {
    forall a, b {:trigger Linked(ws, a, b)} | a in ws && b in ws && Inside(a, s) && Inside(b, s) :: Linked(ws, a, b)
  }

  /** A span is one component: tight around its windows, counting them, all linked. */
  ghost predicate Component(ws: seq<Window>, s: Span) {
    s.lo <= s.hi && Tight(ws, s) && AllLinked(ws, s) && s.count == CountInside(ws, s)
  }

  ghost predicate Merged(ws: seq<Window>, spans: seq<Span>) {
    Apart(spans) && Covers(ws, spans) && forall i {:trigger Component(ws, spans[i])} | 0 <= i < |spans| :: Component(ws, spans[i])
  }

  lemma {:induction false} LastIsLargest(ws: seq<Window>, v: Window)
    requires Sorted(ws) && v in ws
    ensures v.lo <= ws[|ws| - 1].lo
  {
    InFrontOrLast(ws, v);
    if v in ws[..|ws| - 1] {
      LastIsLargest(ws[..|ws| - 1], v);
    }
  }

  lemma {:induction false} CountSame(ws: seq<Window>, s: Span, t: Span)
    requires forall v | v in ws :: Inside(v, s) <==> Inside(v, t)
    ensures CountInside(ws, s) == CountInside(ws, t)
  {
    if ws != [] {
      assert ws[|ws| - 1] in ws;
      CountSame(ws[..|ws| - 1], s, t);
    }
  }

  lemma {:induction false} CountNone(ws: seq<Window>, s: Span)
    requires forall v | v in ws :: !Inside(v, s)
    ensures CountInside(ws, s) == 0
  {
    if ws != [] {
      assert ws[|ws| - 1] in ws;
      CountNone(ws[..|ws| - 1], s);
    }
  }

  lemma CountMore(ws: seq<Window>, w: Window, s: Span)
    ensures CountInside(ws + [w], s) == CountInside(ws, s) + if Inside(w, s) then 1 else 0
  {
    assert (ws + [w])[..|ws|] == ws;
  }

  /** A window outside a component leaves it as it is. */
  lemma ComponentStays(ws: seq<Window>, w: Window, s: Span)
    requires Component(ws, s) && !Inside(w, s)
    ensures Component(ws + [w], s)
  {
    CountMore(ws, w, s);
    forall a, b | a in ws + [w] && b in ws + [w] && Inside(a, s) && Inside(b, s)
      ensures Linked(ws + [w], a, b)
    {
      LinkGrows(ws, ws + [w], a, b);
    }
  }

  /** Two windows of a component it widens over are linked through its rightmost one. */
  lemma WidenLinks(ws: seq<Window>, w: Window, s: Span, u: Window, a: Window)
    requires AllLinked(ws, s) && u in ws && Inside(u, s) && Overlap(u, w)
    requires a == w || (a in ws && Inside(a, s))
    ensures Linked(ws + [w], a, w) && Linked(ws + [w], w, a)
  {
    var more := ws + [w];
    LinkSelf(more, w);
    if a != w {
      LinkGrows(ws, more, a, u);
      LinkGrows(ws, more, u, a);
      LinkStep(more, u, w, w);
      LinkTrans(more, a, u, w);
      LinkStep(more, w, u, a);
    }
  }

  lemma WidenAllLinked(ws: seq<Window>, w: Window, s: Span, u: Window)
    requires AllLinked(ws, s) && u in ws && Inside(u, s) && Overlap(u, w)
    requires forall v | v in ws :: Inside(v, Widen(s, w)) <==> Inside(v, s)
    ensures AllLinked(ws + [w], Widen(s, w))
  {
    forall a, b | a in ws + [w] && b in ws + [w] && Inside(a, Widen(s, w)) && Inside(b, Widen(s, w))
      ensures Linked(ws + [w], a, b)
    {
      WidenLinks(ws, w, s, u, a);
      WidenLinks(ws, w, s, u, b);
      LinkTrans(ws + [w], a, w, b);
    }
  }

  lemma ComponentWidens(ws: seq<Window>, w: Window, s: Span)
    requires Component(ws, s) && s.lo <= w.lo <= s.hi && w.lo <= w.hi
    requires forall v | v in ws :: v.lo <= w.lo
    requires forall v | v in ws :: Inside(v, Widen(s, w)) <==> Inside(v, s)
    ensures Component(ws + [w], Widen(s, w))
  {
    var right :| right in ws && Inside(right, s) && right.hi == s.hi;
    var left :| left in ws && Inside(left, s) && left.lo == s.lo;
    var more, wide := ws + [w], Widen(s, w);
    WidenAllLinked(ws, w, s, right);
    CountMore(ws, w, wide);
    CountSame(ws, wide, s);
    assert left in more && Inside(left, wide);
    assert right in more && w in more && Inside(right, wide) && Inside(w, wide);
  }

  lemma ComponentOpens(ws: seq<Window>, w: Window)
    requires w.lo <= w.hi && forall v | v in ws :: !Inside(v, Span(w.lo, w.hi, 1))
    ensures Component(ws + [w], Span(w.lo, w.hi, 1))
  {
    var s := Span(w.lo, w.hi, 1);
    CountMore(ws, w, s);
    CountNone(ws, s);
    LinkSelf(ws + [w], w);
    assert w in ws + [w] && Inside(w, s);
  }

  /** A window starting no earlier than the rest is outside every span but the last. */
  lemma BeforeLast(ws: seq<Window>, spans: seq<Span>, v: Window, lo: int)
    requires Merged(ws, spans) && Proper(ws) && v in ws && spans != []
    requires lo >= spans[|spans| - 1].lo && v.lo >= lo
    ensures Inside(v, spans[|spans| - 1])
  {
    assert Held(v, spans);
    var i :| 0 <= i < |spans| && Inside(v, spans[i]);
    assert v.lo <= v.hi;
  }

  lemma MergeStep(ws: seq<Window>, spans: seq<Span>, w: Window)
    requires Merged(ws, spans) && Proper(ws) && w.lo <= w.hi && spans != []
    requires forall v | v in ws :: v.lo <= w.lo
    ensures var current := spans[|spans| - 1];
            Merged(ws + [w], if w.lo <= current.hi then spans[|spans| - 1 := Widen(current, w)]
                             else spans + [Span(w.lo, w.hi, 1)])
  {
    var n := |spans| - 1;
    var current := spans[n];
    assert Component(ws, current);
    var left :| left in ws && Inside(left, current) && left.lo == current.lo;
    forall i | 0 <= i < n ensures Component(ws + [w], spans[i]) {
      assert Component(ws, spans[i]);
      assert spans[i].hi < current.lo;
      ComponentStays(ws, w, spans[i]);
    }
    if w.lo <= current.hi {
      forall v | v in ws ensures Inside(v, Widen(current, w)) <==> Inside(v, current) {
        if v.lo >= current.lo {
          BeforeLast(ws, spans, v, current.lo);
        }
      }
      ComponentWidens(ws, w, current);
      CoversWidened(ws, spans, w);
    } else {
      forall v | v in ws ensures !Inside(v, Span(w.lo, w.hi, 1)) {
        if v.lo >= w.lo {
          BeforeLast(ws, spans, v, w.lo);
        }
      }
      ComponentOpens(ws, w);
      ComponentStays(ws, w, current);
      CoversOpened(ws, spans, w);
    }
  }

  lemma CoversWidened(ws: seq<Window>, spans: seq<Span>, w: Window)
    requires Covers(ws, spans) && spans != [] && spans[|spans| - 1].lo <= w.lo
    ensures Covers(ws + [w], spans[|spans| - 1 := Widen(spans[|spans| - 1], w)])
  {
    var n := |spans| - 1;
    var wide := spans[n := Widen(spans[n], w)];
    assert Inside(w, wide[n]);
    forall v | v in ws ensures Held(v, wide) {
      assert Held(v, spans);
      var i :| 0 <= i < |spans| && Inside(v, spans[i]);
      assert Inside(v, wide[i]);
    }
  }

  lemma CoversOpened(ws: seq<Window>, spans: seq<Span>, w: Window)
    requires Covers(ws, spans)
    ensures Covers(ws + [w], spans + [Span(w.lo, w.hi, 1)])
  {
    var more := spans + [Span(w.lo, w.hi, 1)];
    assert Inside(w, more[|spans|]);
    forall v | v in ws ensures Held(v, more) {
      assert Held(v, spans);
      var i :| 0 <= i < |spans| && Inside(v, spans[i]);
      assert Inside(v, more[i]);
    }
  }

  lemma MergeOne(w: Window)
    requires w.lo <= w.hi
    ensures Merged([w], [Span(w.lo, w.hi, 1)])
  {
    assert [] + [w] == [w];
    ComponentOpens([], w);
    CoversOpened([], [], w);
    assert [] + [Span(w.lo, w.hi, 1)] == [Span(w.lo, w.hi, 1)];
  }

  lemma FrontStartsEarlier(ws: seq<Window>)
    requires Sorted(ws) && Proper(ws) && ws != []
    ensures Proper(ws[..|ws| - 1]) && ws[|ws| - 1].lo <= ws[|ws| - 1].hi
    ensures forall v | v in ws[..|ws| - 1] :: v.lo <= ws[|ws| - 1].lo
  {
    assert ws[|ws| - 1] in ws;
    forall v | v in ws[..|ws| - 1]
      ensures v.lo <= v.hi && v.lo <= ws[|ws| - 1].lo
    {
      InFrontOrLast(ws, v);
      LastIsLargest(ws, v);
    }
  }

  /** The sweep over sorted windows yields the components. */
  lemma {:induction false} MergeIsMerged(ws: seq<Window>)
    requires Sorted(ws) && Proper(ws)
    ensures Merged(ws, Merge(ws))
  {
    if |ws| == 1 {
      assert ws[0] in ws;
      MergeOne(ws[0]);
      assert ws == [ws[0]];
    } else if |ws| > 1 {
      var front, w := ws[..|ws| - 1], ws[|ws| - 1];
      FrontStartsEarlier(ws);
      MergeIsMerged(front);
      MergeStep(front, Merge(front), w);
      assert ws == front + [w];
    }
  }

  lemma ComponentTransfers(ws: seq<Window>, other: seq<Window>, s: Span)
    requires Component(ws, s) && CountInside(ws, s) == CountInside(other, s)
    requires forall v :: v in ws <==> v in other
    ensures Component(other, s)
  {
    forall a, b | a in other && b in other && Inside(a, s) && Inside(b, s)
      ensures Linked(other, a, b)
    {
      LinkGrows(ws, other, a, b);
    }
  }

  /** For windows in any order, the spans are the components of overlap: apart, in order,
      each tight around its members and counting them. */
  lemma SpansAreComponents(ws: seq<Window>)
    requires Proper(ws)
    ensures Merged(ws, Merge(Sort(ws)))
  {
    var spans := Merge(Sort(ws));
    forall v
      ensures v in Sort(ws) <==> v in ws
    {
      SortKeeps(ws, v);
    }
    MergeIsMerged(Sort(ws));
    forall i | 0 <= i < |spans| ensures Component(ws, spans[i]) {
      assert Component(Sort(ws), spans[i]);
      SortCounts(ws, spans[i]);
      ComponentTransfers(Sort(ws), ws, spans[i]);
    }
    forall w | w in ws ensures Held(w, spans) {
      assert w in Sort(ws);
    }
  }

  lemma OverlapStays(ws: seq<Window>, spans: seq<Span>, i: nat, a: Window, b: Window)
    requires Merged(ws, spans) && i < |spans| && a.lo <= a.hi && b.lo <= b.hi
    requires b in ws && Overlap(a, b) && Inside(a, spans[i])
    ensures Inside(b, spans[i])
  {
    assert Held(b, spans);
    var j :| 0 <= j < |spans| && Inside(b, spans[j]);
  }

  lemma {:induction false} ChainIn(ws: seq<Window>, path: seq<Window>)
    requires Chain(ws, path)
    ensures path[|path| - 1] in ws
  {
    if |path| > 1 {
      ChainIn(ws, path[1..]);
    }
  }

  lemma {:induction false} ChainStays(ws: seq<Window>, spans: seq<Span>, i: nat, path: seq<Window>)
    requires Merged(ws, spans) && Proper(ws) && i < |spans|
    requires Chain(ws, path) && Inside(path[0], spans[i])
    ensures Inside(path[|path| - 1], spans[i])
  {
    if |path| > 1 {
      OverlapStays(ws, spans, i, path[0], path[1]);
      ChainStays(ws, spans, i, path[1..]);
    }
  }

  /** Two windows fall in one span exactly when a chain of overlapping windows joins them. */
  lemma SameSpanIffLinked(ws: seq<Window>, i: nat, a: Window, b: Window)
    requires Proper(ws) && a in ws && b in ws
    requires i < |Merge(Sort(ws))| && Inside(a, Merge(Sort(ws))[i])
    ensures Inside(b, Merge(Sort(ws))[i]) <==> Linked(ws, a, b)
  {
    var spans := Merge(Sort(ws));
    SpansAreComponents(ws);
    assert Component(ws, spans[i]);
    if Linked(ws, a, b) {
      var path :| Chain(ws, path) && path[0] == a && path[|path| - 1] == b;
      ChainStays(ws, spans, i, path);
    }
  }

  function Total(spans: seq<Span>): nat {
    if spans == [] then 0 else Total(spans[..|spans| - 1]) + spans[|spans| - 1].count
  }

  /** Every window is counted in one span and once. */
  lemma {:induction false} EveryWindowCounts(ws: seq<Window>)
    ensures Total(Merge(ws)) == |ws|
  {
    if |ws| == 1 {
      assert Merge(ws)[..0] == [];
    } else if |ws| > 1 {
      var before, w := Merge(ws[..|ws| - 1]), ws[|ws| - 1];
      EveryWindowCounts(ws[..|ws| - 1]);
      assert before[|before| - 1 := Widen(before[|before| - 1], w)][..|before| - 1] == before[..|before| - 1];
      assert (before + [Span(w.lo, w.hi, 1)])[..|before|] == before;
    }
  }

  /** How many entries of the list are linked to `v`. */
  ghost function CountLinked(list: seq<Window>, ws: seq<Window>, v: Window): nat {
    if list == [] then 0
    else CountLinked(list[..|list| - 1], ws, v) + if Linked(ws, v, list[|list| - 1]) then 1 else 0
  }

  lemma {:induction false} CountByLinks(list: seq<Window>, ws: seq<Window>, i: nat, v: Window)
    requires Proper(ws) && v in ws && i < |Merge(Sort(ws))| && Inside(v, Merge(Sort(ws))[i])
    requires forall w | w in list :: w in ws
    ensures CountLinked(list, ws, v) == CountInside(list, Merge(Sort(ws))[i])
  {
    if list != [] {
      assert list[|list| - 1] in list;
      CountByLinks(list[..|list| - 1], ws, i, v);
      SameSpanIffLinked(ws, i, v, list[|list| - 1]);
    }
  }

  lemma {:induction false} CrowdedOnly(spans: seq<Span>, most: int, s: Span)
    ensures s in Crowded(spans, most) <==> s in spans && s.count > most
  {
    if spans != [] {
      CrowdedOnly(spans[1..], most, s);
      assert spans == [spans[0]] + spans[1..];
    }
  }

  lemma {:induction false} CrowdedApart(spans: seq<Span>, most: int)
    requires Apart(spans)
    ensures Apart(Crowded(spans, most))
  {
    if spans != [] {
      var rest := Crowded(spans[1..], most);
      CrowdedApart(spans[1..], most);
      forall i | 0 <= i < |rest|
        ensures spans[0].hi < rest[i].lo
      {
        CrowdedOnly(spans[1..], most, rest[i]);
        var j :| 0 <= j < |spans[1..]| && spans[1..][j] == rest[i];
        assert spans[j + 1] == rest[i];
      }
    }
  }

  /** What is reported: exactly the spans that hold more than `most` windows, each once, each
      ending before the next begins. */
  lemma ReportIsInOrder(ws: seq<Window>, most: int)
    requires Proper(ws)
    ensures var reported := Crowded(Merge(Sort(ws)), most);
            Apart(reported) && forall s :: s in reported <==> s in Merge(Sort(ws)) && s.count > most
  {
    SpansAreComponents(ws);
    CrowdedApart(Merge(Sort(ws)), most);
    forall s
      ensures s in Crowded(Merge(Sort(ws)), most) <==> s in Merge(Sort(ws)) && s.count > most
    {
      CrowdedOnly(Merge(Sort(ws)), most, s);
    }
  }

  lemma OneSpan(ws: seq<Window>, spans: seq<Span>, i: nat, j: nat, v: Window)
    requires Merged(ws, spans) && v.lo <= v.hi && i < |spans| && j < |spans|
    requires Inside(v, spans[i]) && Inside(v, spans[j])
    ensures i == j
  {
  }

  /** A window is reported exactly when more than `most` windows are linked to it. */
  lemma CrowdsAreReported(ws: seq<Window>, most: int, v: Window)
    requires Proper(ws) && v in ws
    ensures (exists s :: s in Crowded(Merge(Sort(ws)), most) && Inside(v, s)) <==> CountLinked(ws, ws, v) > most
  {
    var spans := Merge(Sort(ws));
    SpansAreComponents(ws);
    assert Held(v, spans);
    var i: nat :| i < |spans| && Inside(v, spans[i]);
    CountOf(ws, i, v);
    CrowdedOnly(spans, most, spans[i]);
    if s :| s in Crowded(spans, most) && Inside(v, s) {
      CrowdedOnly(spans, most, s);
      var j: nat :| j < |spans| && spans[j] == s;
      OneSpan(ws, spans, i, j, v);
    }
  }

  lemma CountOf(ws: seq<Window>, i: nat, v: Window)
    requires Proper(ws) && v in ws && i < |Merge(Sort(ws))| && Inside(v, Merge(Sort(ws))[i])
    ensures Merge(Sort(ws))[i].count == CountLinked(ws, ws, v)
  {
    SpansAreComponents(ws);
    assert Component(ws, Merge(Sort(ws))[i]);
    CountByLinks(ws, ws, i, v);
  }
}
