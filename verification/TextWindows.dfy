/** Overlapping windows over a text (novelizer/text_chunk.py) and how the budget sizes them
    (novelizer/brain/context_assembly.py:15-50). */
module TextWindows {

  /** What the cutting loop yields: a full window, then the rest from `overlap` characters
      before its end. */
  function Cut(text: string, size: nat, overlap: nat): (r: seq<string>)
    requires |text| > size ==> overlap < size
    ensures |r| >= 1
    decreases |text|
  {
    if |text| <= size then [text] else [text[..size]] + Cut(text[size - overlap..], size, overlap)
  }

  lemma Regroup(chunks: seq<string>, next: string, rest: seq<string>)
    ensures (chunks + [next]) + rest == chunks + ([next] + rest)
  {
  }

  /** One turn of the cutting loop: the last chunk, or a full one and the rest. */
  lemma CutOn(text: string, size: nat, overlap: nat, start: nat, chunks: seq<string>, all: seq<string>)
    requires overlap < size && start < |text| && chunks + Cut(text[start..], size, overlap) == all
    ensures start + size >= |text| ==> chunks + [text[start..|text|]] == all
    ensures start + size < |text| ==>
              (chunks + [text[start..start + size]]) + Cut(text[start + size - overlap..], size, overlap) == all
  {
    var left := text[start..];
    assert left == text[start..|text|];
    if start + size < |text| {
      assert left[..size] == text[start..start + size];
      assert left[size - overlap..] == text[start + size - overlap..];
      assert |left| > size;
      assert Cut(left, size, overlap) == [left[..size]] + Cut(left[size - overlap..], size, overlap);
      Regroup(chunks, text[start..start + size], Cut(text[start + size - overlap..], size, overlap));
    }
  }

  method ChunkProse(text: string, size: nat, overlap: nat) returns (chunks: seq<string>)
    requires |text| > size ==> overlap < size
    ensures chunks == Cut(text, size, overlap)
  {
    if |text| <= size {
      return [text];
    }
    chunks := [];
    ghost var all := Cut(text, size, overlap);
    assert text[0..] == text && [] + all == all;
    var start := 0;
    while start < |text|
      invariant start < |text| && chunks + Cut(text[start..], size, overlap) == all
      decreases |text| - start
    {
      var end := start + size;
      CutOn(text, size, overlap, start, chunks, all);
      chunks := chunks + [text[start..if end <= |text| then end else |text|]];
      if end >= |text| {
        break;
      }
      start := end - overlap;
    }
  }

  /** Whether the loop, started at `start`, stops within `fuel` rounds. */
  predicate Stops(length: nat, size: nat, overlap: nat, start: int, fuel: nat)
    decreases fuel
  {
    fuel > 0 &&
    (start >= length || start + size >= length || Stops(length, size, overlap, start + size - overlap, fuel - 1))
  }

  lemma {:induction false} Stalls(length: nat, size: nat, overlap: nat, start: int, fuel: nat)
    requires start + size < length && overlap >= size
    ensures !Stops(length, size, overlap, start, fuel)
    decreases fuel
  {
    if fuel > 0 {
      Stalls(length, size, overlap, start + size - overlap, fuel - 1);
    }
  }

  ghost predicate EventuallyStops(length: nat, size: nat, overlap: nat, start: int) {
    exists fuel: nat :: Stops(length, size, overlap, start, fuel)
  }

  lemma {:induction false} Advances(length: nat, size: nat, overlap: nat, start: nat)
    requires overlap < size
    ensures EventuallyStops(length, size, overlap, start)
    decreases length - start
  {
    if start >= length || start + size >= length {
      assert Stops(length, size, overlap, start, 1);
    } else {
      Advances(length, size, overlap, start + size - overlap);
      var fuel: nat :| Stops(length, size, overlap, start + size - overlap, fuel);
      assert Stops(length, size, overlap, start, fuel + 1);
    }
  }

  /** The loop ends exactly when the overlap is smaller than the window. */
  lemma StopsExactly(length: nat, size: nat, overlap: nat)
    requires length > size
    ensures EventuallyStops(length, size, overlap, 0) <==> overlap < size
  {
    if overlap < size {
      Advances(length, size, overlap, 0);
    } else {
      forall fuel: nat ensures !Stops(length, size, overlap, 0, fuel) {
        Stalls(length, size, overlap, 0, fuel);
      }
    }
  }

  /** Joins windows again, dropping the overlap from each but the first. */
  function Rejoin(windows: seq<string>, overlap: nat): string {
    if windows == [] then "" else windows[0] + Rest(windows[1..], overlap)
  }

  function Rest(windows: seq<string>, overlap: nat): string {
    if windows == [] then ""
    else (if |windows[0]| >= overlap then windows[0][overlap..] else "") + Rest(windows[1..], overlap)
  }

  /** Dropping the overlaps and joining gives the text back. */
  lemma {:induction false} RejoinIsText(text: string, size: nat, overlap: nat)
    requires |text| > size ==> overlap < size
    ensures Rejoin(Cut(text, size, overlap), overlap) == text
    decreases |text|
  {
    var windows := Cut(text, size, overlap);
    if |text| <= size {
      assert windows[1..] == [];
    } else {
      var rest := text[size - overlap..];
      RejoinIsText(rest, size, overlap);
      FirstIsLongEnough(text, size, overlap);
      var tail := Cut(rest, size, overlap);
      assert windows[1..] == tail;
      assert Rest(tail, overlap) == tail[0][overlap..] + Rest(tail[1..], overlap);
      assert rest == tail[0] + Rest(tail[1..], overlap);
      assert rest[overlap..] == tail[0][overlap..] + Rest(tail[1..], overlap);
      assert rest[overlap..] == text[size..];
      assert text == text[..size] + text[size..];
    }
  }

  lemma FirstIsLongEnough(text: string, size: nat, overlap: nat)
    requires |text| > size && overlap < size
    ensures |Cut(text[size - overlap..], size, overlap)[0]| > overlap
  {
  }

  /** Every window fits, and every later one adds a character and repeats the end of the one before. */
  lemma {:induction false} WindowsOverlap(text: string, size: nat, overlap: nat, k: nat)
    requires |text| > size ==> overlap < size
    requires k < |Cut(text, size, overlap)|
    ensures var w := Cut(text, size, overlap);
            && |w[k]| <= size
            && (k > 0 ==> |w[k]| > overlap && |w[k - 1]| == size && w[k][..overlap] == w[k - 1][size - overlap..])
    decreases |text|
  {
    var w := Cut(text, size, overlap);
    if |text| > size && k > 0 {
      var rest := text[size - overlap..];
      var tail := Cut(rest, size, overlap);
      WindowsOverlap(rest, size, overlap, k - 1);
      assert w[k] == tail[k - 1];
      if k == 1 {
        FirstIsLongEnough(text, size, overlap);
        assert tail[0] <= rest;
        assert rest[..overlap] == text[..size][size - overlap..];
      } else {
        assert w[k - 1] == tail[k - 2];
      }
    }
  }

  // Sizing by budget.

  /** A quarter token a character, rounded up. */
  function Estimate(text: string): nat {
    (|text| + 3) / 4
  }

  /** The estimate is the length in tokens of four characters, rounded up. */
  lemma EstimateRoundsUp(text: string)
    ensures 4 * (Estimate(text) - 1) < |text| <= 4 * Estimate(text)
  {
  }

  function Largest(a: int, b: int): int { if a >= b then a else b }

  function Smallest(a: int, b: int): int { if a <= b then a else b }

  /** `total` is the estimator's count of the whole text. */
  function WindowChars(length: nat, total: nat, budget: int): (r: nat)
    requires total > 0
    ensures r >= 1
  {
    Largest(1, budget * length / total)
  }

  function OverlapChars(length: nat, total: nat, budget: int): (r: nat)
    requires total > 0
    ensures r < WindowChars(length, total, budget)
  {
    Smallest(Largest(0, budget / 4 * length / total), WindowChars(length, total, budget) - 1)
  }

  datatype Window = Window(text: string, index: nat, total: nat)

  function Numbered(parts: seq<string>): (r: seq<Window>)
    ensures |r| == |parts| && forall i | 0 <= i < |r| :: r[i] == Window(parts[i], i, |parts|)
  {
    seq(|parts|, i requires 0 <= i < |parts| => Window(parts[i], i, |parts|))
  }

  /** The windows of a text; an estimator counts at least one token in a text that is not empty. */
  function Windows(text: string, budget: int, estimate: string -> nat): seq<Window>
    requires text != "" ==> estimate(text) > 0
  {
    var total := estimate(text);
    if text == "" || total <= budget then [Window(text, 0, 1)]
    else Numbered(Cut(text, WindowChars(|text|, total, budget), OverlapChars(|text|, total, budget)))
  }

  method AssembleVerbatim(text: string, budget: int, estimate: string -> nat) returns (windows: seq<Window>)
    requires text != "" ==> estimate(text) > 0
    ensures windows == Windows(text, budget, estimate)
  {
    var total := estimate(text);
    if text == "" || total <= budget {
      return [Window(text, 0, 1)];
    }
    var size := WindowChars(|text|, total, budget);
    var overlap := OverlapChars(|text|, total, budget);
    var parts := ChunkProse(text, size, overlap);
    windows := Numbered(parts);
  }

  function Texts(windows: seq<Window>): (r: seq<string>)
    ensures |r| == |windows| && forall i | 0 <= i < |r| :: r[i] == windows[i].text
  {
    seq(|windows|, i requires 0 <= i < |windows| => windows[i].text)
  }

  /** Whatever the budget and the estimator, no character is lost or made up. */
  lemma NothingIsCutOff(text: string, budget: int, estimate: string -> nat)
    requires text != "" ==> estimate(text) > 0
    ensures var total := if text == "" then 1 else estimate(text);
            Rejoin(Texts(Windows(text, budget, estimate)), OverlapChars(|text|, total, budget)) == text
  {
    var total := if text == "" then 1 else estimate(text);
    var size, overlap := WindowChars(|text|, total, budget), OverlapChars(|text|, total, budget);
    if text == "" || total <= budget {
      assert Texts(Windows(text, budget, estimate)) == [text];
      assert [text][1..] == [];
    } else {
      RejoinIsText(text, size, overlap);
      assert Texts(Windows(text, budget, estimate)) == Cut(text, size, overlap);
    }
  }

  lemma QuotientAtMost(a: int, total: nat, most: int)
    requires total > 0 && a <= most * total
    ensures a / total <= most
  {
    var d := a / total - most;
    assert d * total == a / total * total - most * total <= 0;
    assert d >= 1 ==> d * total >= total;
  }

  lemma ProductAtMost(budget: nat, a: int, b: int)
    requires a <= b
    ensures budget * a <= budget * b
  {
  }

  lemma RatioIsAtMostFour(length: nat, total: nat, budget: nat)
    requires total > 0 && length <= 4 * total
    ensures budget * length / total <= 4 * budget
  {
    ProductAtMost(budget, length, 4 * total);
    assert budget * (4 * total) == (4 * budget) * total;
    QuotientAtMost(budget * length, total, 4 * budget);
  }

  /** With the heuristic estimator every window is within the budget exactly when the budget
      admits one token, or there is nothing to estimate. */
  lemma WindowsFitExactly(text: string, budget: int)
    ensures (forall w | w in Windows(text, budget, Estimate) :: Estimate(w.text) <= budget)
              <==> budget >= 1 || (text == "" && budget == 0)
  {
    var windows := Windows(text, budget, Estimate);
    var total := Estimate(text);
    assert windows[0] in windows;
    if text != "" && total > budget {
      var size, overlap := WindowChars(|text|, total, budget), OverlapChars(|text|, total, budget);
      var parts := Cut(text, size, overlap);
      if budget >= 1 {
        RatioIsAtMostFour(|text|, total, budget);
        forall w | w in windows ensures Estimate(w.text) <= budget {
          WindowsOverlap(text, size, overlap, w.index);
        }
      } else {
        assert windows[0].text == parts[0] && |parts[0]| >= 1;
      }
    }
  }

  // How much of the budget the windows use.

  /** `most` is the largest length whose share of the text's tokens is within the budget. */
  predicate Fills(most: int, length: nat, total: nat, budget: int) {
    most * total <= budget * length < (most + 1) * total
  }

  lemma QuotientFills(length: nat, total: nat, budget: int)
    requires total > 0
    ensures Fills(budget * length / total, length, total, budget)
  {
    var a, q := budget * length, budget * length / total;
    assert a == q * total + a % total;
    assert (q + 1) * total == q * total + total;
  }

  /** Every window but the last is as long as the budget allows; one character is the least. */
  ghost predicate FullWindow(size: nat, length: nat, total: nat, budget: int) {
    Fills(size, length, total, budget) || (size == 1 && budget * length < total)
  }

  /** The overlap is as long as a quarter of the budget allows, or all but one character. */
  ghost predicate FullOverlap(overlap: nat, size: nat, length: nat, total: nat, budget: int) {
    || Fills(overlap, length, total, budget / 4)
    || (overlap == 0 && budget / 4 * length < 0)
    || (overlap == size - 1 && size * total <= budget / 4 * length)
  }

  lemma SizeIsFull(length: nat, total: nat, budget: int)
    requires total > 0
    ensures FullWindow(WindowChars(length, total, budget), length, total, budget)
  {
    QuotientFills(length, total, budget);
    if budget * length / total < 1 {
      QuotientBelow(budget * length, total, 1);
    }
  }

  lemma QuotientBelow(a: int, total: nat, q: int)
    requires total > 0
    ensures a / total < q <==> a < q * total
  {
    var d := a / total - q;
    assert a == q * total + d * total + a % total;
    assert d >= 0 ==> d * total >= 0;
    assert d <= -1 ==> (d + 1) * total <= 0;
  }

  lemma OverlapIsFull(length: nat, total: nat, budget: int)
    requires total > 0
    ensures FullOverlap(OverlapChars(length, total, budget), WindowChars(length, total, budget), length, total, budget)
  {
    var size, overlap := WindowChars(length, total, budget), OverlapChars(length, total, budget);
    QuotientFills(length, total, budget / 4);
    QuotientBelow(budget / 4 * length, total, 0);
    QuotientBelow(budget / 4 * length, total, size);
  }

  /** How many windows there are: the last step, and no earlier one, reaches the end. */
  lemma {:induction false} CutCount(text: string, size: nat, overlap: nat)
    requires |text| > size && overlap < size
    ensures var n := |Cut(text, size, overlap)|;
            n >= 2 && size + (n - 2) * (size - overlap) < |text| <= size + (n - 1) * (size - overlap)
    decreases |text|
  {
    var rest := text[size - overlap..];
    var n := |Cut(rest, size, overlap)|;
    assert |Cut(text, size, overlap)| == n + 1;
    if |rest| > size {
      CutCount(rest, size, overlap);
      assert (n - 1) * (size - overlap) == (n - 2) * (size - overlap) + (size - overlap);
      assert n * (size - overlap) == (n - 1) * (size - overlap) + (size - overlap);
    }
  }

  /** The windows of a cut: full but for the last, each next one starting with the overlap, and
      no more of them than it takes. */
  ghost predicate Chained(w: seq<string>, length: nat, size: nat, overlap: nat, k: nat)
    requires k < |w|
  {
    && |w[k]| <= size && (k + 1 < |w| ==> |w[k]| == size)
    && overlap < size && (k > 0 ==> |w[k]| > overlap && |w[k - 1]| == size && w[k][..overlap] == w[k - 1][size - overlap..])
    && size + (|w| - 2) * (size - overlap) < length <= size + (|w| - 1) * (size - overlap)
  }

  lemma CutIsChained(text: string, size: nat, overlap: nat, k: nat)
    requires |text| > size && overlap < size && k < |Cut(text, size, overlap)|
    ensures |Cut(text, size, overlap)| >= 2 && Chained(Cut(text, size, overlap), |text|, size, overlap, k)
  {
    CutCount(text, size, overlap);
    WindowsOverlap(text, size, overlap, k);
    if k + 1 < |Cut(text, size, overlap)| {
      WindowsOverlap(text, size, overlap, k + 1);
    }
  }

  lemma FirstIsFull(w: seq<string>, length: nat, size: nat, overlap: nat)
    requires |w| >= 2 && Chained(w, length, size, overlap, 0)
    ensures |w[0]| == size
  {
  }

  lemma OverBudget(text: string, budget: int, estimate: string -> nat)
    requires text != "" && estimate(text) > 0 && estimate(text) > budget
    ensures Texts(Windows(text, budget, estimate))
              == Cut(text, WindowChars(|text|, estimate(text), budget), OverlapChars(|text|, estimate(text), budget))
  {
  }

  lemma SizeBelowLength(length: nat, total: nat, budget: int)
    requires length > 0 && total > budget && total > 0
    ensures length > 1 ==> WindowChars(length, total, budget) < length
  {
    var q := budget * length / total;
    assert q * total <= budget * length;
    assert budget * length < total * length;
    assert q >= length ==> q * total >= length * total;
  }

  /** The windows of a text over its budget: all but the last are as long as the budget allows,
      each next one repeats an overlap of a quarter of the budget, and there are no more of them
      than it takes. */
  lemma WindowsUseTheBudget(text: string, budget: int, estimate: string -> nat, k: nat)
    requires |text| > 1 && estimate(text) > budget && estimate(text) > 0
    requires k < |Windows(text, budget, estimate)|
    ensures var w, total := Texts(Windows(text, budget, estimate)), estimate(text);
            var size, overlap := |w[0]|, OverlapChars(|text|, total, budget);
            && |w| >= 2 && Chained(w, |text|, size, overlap, k)
            && FullWindow(size, |text|, total, budget) && FullOverlap(overlap, size, |text|, total, budget)
  {
    var total := estimate(text);
    var size, overlap := WindowChars(|text|, total, budget), OverlapChars(|text|, total, budget);
    OverBudget(text, budget, estimate);
    SizeBelowLength(|text|, total, budget);
    SizeIsFull(|text|, total, budget);
    OverlapIsFull(|text|, total, budget);
    CutIsChained(text, size, overlap, 0);
    FirstIsFull(Cut(text, size, overlap), |text|, size, overlap);
    CutIsChained(text, size, overlap, k);
  }

  /** A text within its budget is one window, and windows are numbered through. */
  lemma WindowsAreNumbered(text: string, budget: int, estimate: string -> nat, k: nat)
    requires (text != "" ==> estimate(text) > 0) && k < |Windows(text, budget, estimate)|
    ensures var w := Windows(text, budget, estimate); w[k].index == k && w[k].total == |w|
    ensures text == "" || estimate(text) <= budget ==> Texts(Windows(text, budget, estimate)) == [text]
  {
  }
}
