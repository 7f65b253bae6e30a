/** What the window splitter guarantees: small whole-rune chunks in order, and
    exactly when no visible byte of the text is lost. */
module SplitCoverage {
  import opened Text
  import opened Splitter

  // ---------------------------------------------------------- one window

  lemma {:induction false} LastBreakFound(body: seq<Byte>, i: nat, low: nat, otherwise: nat)
    requires i < |body| && low <= i
    ensures var b := LastBreak(body, i, low, otherwise);
      b == otherwise || (low < b <= i && Break(body[b]))
    decreases i
  {
    if i > low && !Break(body[i]) { LastBreakFound(body, i - 1, low, otherwise); }
  }

  /** A break byte stands alone, so it is a rune start. */
  lemma BreakAligned(body: seq<Byte>, b: nat)
    requires b < |body| && Break(body[b])
    ensures Aligned(body, b) == b
  {
  }

  /** Where a window may end: at the end of the text, at a break byte among the
      last hundred, or else less than a rune short of the budget. */
  predicate EndsAt(body: seq<Byte>, start: nat, budget: nat, e: nat) {
    if start + budget >= |body| then e == |body|
    else
      || (start < e <= start + budget && e >= start + budget - 99 && Break(body[e]))
      || (e == Aligned(body, start + budget) && start + budget - 3 <= e <= start + budget && Start(body[e]))
  }

  lemma EndCases(body: seq<Byte>, start: nat, budget: nat)
    requires WellFormed(body) && start < |body|
    ensures EndsAt(body, start, budget, WindowEnd(body, start, budget))
  {
    var end := start + budget;
    if end < |body| {
      LastBreakFound(body, end, Low(start, end), end);
      var b := LastBreak(body, end, Low(start, end), end);
      if b != end { BreakAligned(body, b); } else { AlignedNear(body, end); }
    }
  }

  /** With a budget of four bytes a window takes its first rune at least. */
  lemma EndGrows(body: seq<Byte>, start: nat, budget: nat, e: nat)
    requires WellFormed(body) && start < |body| && Start(body[start]) && budget >= 4 && EndsAt(body, start, budget, e)
    ensures start + RuneLength(body[start]) <= e <= |body|
  {
    assert RuneAt(body, start);
    var next := start + RuneLength(body[start]);
    if start + budget < |body| {
      AlignedMonotone(body, next, start + budget);
      assert Aligned(body, next) == next;
    }
  }

  /** The gap a window can leave before the next one is at most its own break byte. */
  predicate KeepsUp(budget: nat, step: nat) {
    budget - step >= 101 || (step <= 2 && budget - step >= 3)
  }

  /** The arithmetic of a window that begins with the rune of `offset`, of `len` bytes. */
  lemma Reaches(budget: nat, step: nat, offset: int, start: int, len: int, e: int)
    requires KeepsUp(budget, step) && start <= offset < start + len && offset - 3 <= start && start + len <= e
    ensures offset + step <= start + budget
    ensures e >= start + budget - 99 ==> offset + step <= e + 1
  {
  }

  lemma NextKeepsUp(body: seq<Byte>, budget: nat, step: nat, offset: nat, start: nat, len: nat, e: nat)
    requires KeepsUp(budget, step) && offset < |body| && start <= offset < start + len && offset - 3 <= start
    requires start + len <= e < |body| && EndsAt(body, start, budget, e)
    ensures Aligned(body, offset + step) <= e || (Aligned(body, offset + step) == e + 1 && Break(body[e]))
  {
    Reaches(budget, step, offset, start, len, e);
    var next := Aligned(body, offset + step);
    assert next <= offset + step by { AlignedBelow(body, offset + step); }
    assert next <= Aligned(body, start + budget) by { AlignedMonotone(body, offset + step, start + budget); }
  }

  lemma NextStarts(body: seq<Byte>, budget: nat, step: nat, offset: nat)
    requires WellFormed(body) && 0 < step && KeepsUp(budget, step) && offset < |body|
    ensures var w := Window(body, budget, offset); var next := Aligned(body, offset + step);
      && w.from < w.to <= |body|
      && (w.to < |body| ==> next <= w.to || (next == w.to + 1 && Break(body[w.to])))
  {
    var start := Aligned(body, offset);
    var e := WindowEnd(body, start, budget);
    AlignedNear(body, offset);
    EndCases(body, start, budget);
    EndGrows(body, start, budget, e);
    if e < |body| { NextKeepsUp(body, budget, step, offset, start, RuneLength(body[start]), e); }
  }

  // --------------------------------------------------------------- coverage

  ghost predicate CoveredBy(spans: seq<Span>, p: nat) {
    exists s :: s in spans && s.from <= p < s.to
  }

  /** Every byte that is not white space lies in some chunk. */
  ghost predicate Covers(body: seq<Byte>, budget: int, overlap: int) {
    forall p :: 0 <= p < |body| && !Space(body[p]) ==> CoveredBy(Spans(body, budget, overlap), p)
  }

  lemma {:induction false} TrimLeftKeeps(body: seq<Byte>, s: Span, p: nat)
    requires s.from <= p < s.to <= |body| && !Space(body[p])
    ensures SpanLeft(body, s).from <= p
    decreases s.to - s.from
  {
    if Space(body[s.from]) { TrimLeftKeeps(body, Span(s.from + 1, s.to), p); }
  }

  lemma {:induction false} TrimRightKeeps(body: seq<Byte>, s: Span, p: nat)
    requires s.from <= p < s.to <= |body| && !Space(body[p])
    ensures p < SpanRight(body, s).to
    decreases s.to - s.from
  {
    if Space(body[s.to - 1]) { TrimRightKeeps(body, Span(s.from, s.to - 1), p); }
  }

  lemma WindowCovers(body: seq<Byte>, budget: nat, offset: nat, p: nat)
    requires Window(body, budget, offset).from <= p < Window(body, budget, offset).to <= |body| && !Space(body[p])
    ensures CoveredBy(Kept(TrimmedWindow(body, budget, offset)), p)
  {
    var w := Window(body, budget, offset);
    TrimLeftKeeps(body, w, p);
    TrimRightKeeps(body, SpanLeft(body, w), p);
    assert SpanTrim(body, w) in Kept(TrimmedWindow(body, budget, offset));
  }

  lemma CoveredEarlier(a: seq<Span>, b: seq<Span>, p: nat)
    requires CoveredBy(a, p) || CoveredBy(b, p)
    ensures CoveredBy(a + b, p)
  {
    if CoveredBy(a, p) {
      var s :| s in a && s.from <= p < s.to;
      assert s in a + b;
    } else {
      var s :| s in b && s.from <= p < s.to;
      assert s in a + b;
    }
  }

  /** A visible byte past a window is not before the next one. */
  lemma NotSkipped(body: seq<Byte>, budget: nat, step: nat, offset: nat, p: nat)
    requires WellFormed(body) && 0 < step && KeepsUp(budget, step) && offset < |body|
    requires Window(body, budget, offset).to <= p < |body| && !Space(body[p])
    ensures Aligned(body, offset + step) <= p
  {
    NextStarts(body, budget, step, offset);
  }

  ghost predicate Reached(body: seq<Byte>, budget: nat, step: nat, offset: nat, p: nat)
    requires step > 0
  {
    CoveredBy(Cuts(body, budget, step, offset), p)
  }

  lemma ReachedNow(body: seq<Byte>, budget: nat, step: nat, offset: nat, p: nat)
    requires WellFormed(body) && 0 < step && KeepsUp(budget, step) && offset < |body|
    requires Window(body, budget, offset).from <= p < |body| && !Space(body[p])
    requires p >= Window(body, budget, offset).to ==> Reached(body, budget, step, offset + step, p)
    ensures Reached(body, budget, step, offset, p)
  {
    var w := Window(body, budget, offset);
    NextStarts(body, budget, step, offset);
    CutsOnce(body, budget, step, offset);
    if p < w.to { WindowCovers(body, budget, offset, p); }
    CoveredEarlier(Kept(TrimmedWindow(body, budget, offset)), if w.to >= |body| then [] else Cuts(body, budget, step, offset + step), p);
  }

  lemma {:induction false} CutsCover(body: seq<Byte>, budget: nat, step: nat, offset: nat, p: nat)
    requires WellFormed(body) && 0 < step && KeepsUp(budget, step)
    requires Aligned(body, offset) <= p < |body| && !Space(body[p])
    ensures Reached(body, budget, step, offset, p)
    decreases |body| - offset
  {
    if Window(body, budget, offset).to <= p {
      NotSkipped(body, budget, step, offset, p);
      CutsCover(body, budget, step, offset + step, p);
    }
    ReachedNow(body, budget, step, offset, p);
  }

  lemma CoversIfKeepsUp(body: seq<Byte>, budget: int, overlap: int)
    requires WellFormed(body) && (budget <= 0 || KeepsUp(budget, Step(budget, overlap)))
    ensures Covers(body, budget, overlap)
  {
    forall p | 0 <= p < |body| && !Space(body[p]) ensures CoveredBy(Spans(body, budget, overlap), p) {
      if budget <= 0 || |body| <= budget {
        assert Span(0, |body|) in Spans(body, budget, overlap);
      } else {
        CutsCover(body, budget, Step(budget, overlap), 0, p);
      }
    }
  }

  // ------------------------------------------------- size, boundaries, order

  lemma {:induction false} TrimLeftShape(body: seq<Byte>, s: Span)
    requires WellFormed(body) && s.from <= s.to <= |body| && Boundary(body, s.from)
    ensures var t := SpanLeft(body, s); Boundary(body, t.from) && (t.from < t.to ==> !Space(body[t.from]))
    decreases s.to - s.from
  {
    if s.from < s.to && Space(body[s.from]) {
      assert RuneAt(body, s.from);
      TrimLeftShape(body, Span(s.from + 1, s.to));
    }
  }

  lemma {:induction false} TrimRightShape(body: seq<Byte>, s: Span)
    requires s.from <= s.to <= |body| && Boundary(body, s.to)
    ensures var t := SpanRight(body, s); Boundary(body, t.to) && (t.from < t.to ==> !Space(body[t.to - 1]))
    decreases s.to - s.from
  {
    if s.from < s.to && Space(body[s.to - 1]) { TrimRightShape(body, Span(s.from, s.to - 1)); }
  }

  /** A chunk: at most `budget` bytes, whole runes, no white space at either end. */
  ghost predicate GoodSpan(body: seq<Byte>, budget: nat, s: Span) {
    && s.from < s.to <= |body| && s.to - s.from <= budget
    && Boundary(body, s.from) && Boundary(body, s.to) && !Space(body[s.from]) && !Space(body[s.to - 1])
  }

  lemma WindowShape(body: seq<Byte>, budget: nat, offset: nat)
    requires WellFormed(body) && offset < |body|
    ensures var w := Window(body, budget, offset);
      Boundary(body, w.from) && Boundary(body, w.to) && w.from <= |body| && w.to <= |body| && w.to <= w.from + budget
  {
    AlignedNear(body, offset);
    EndCases(body, Aligned(body, offset), budget);
  }

  lemma {:induction false} KeptIsGood(body: seq<Byte>, budget: nat, offset: nat, s: Span)
    requires WellFormed(body) && offset < |body| && Window(body, budget, offset).from < Window(body, budget, offset).to
    requires s in Kept(TrimmedWindow(body, budget, offset))
    ensures GoodSpan(body, budget, s) && Aligned(body, offset) <= s.from
  {
    var w := Window(body, budget, offset);
    WindowShape(body, budget, offset);
    TrimLeftShape(body, w);
    TrimRightShape(body, SpanLeft(body, w));
  }

  ghost predicate AllGood(body: seq<Byte>, budget: nat, low: nat, spans: seq<Span>) {
    forall s :: s in spans ==> GoodSpan(body, budget, s) && low <= s.from
  }

  lemma AllGoodJoin(body: seq<Byte>, budget: nat, low: nat, next: nat, a: seq<Span>, b: seq<Span>)
    requires AllGood(body, budget, low, a) && AllGood(body, budget, next, b) && low <= next
    ensures AllGood(body, budget, low, a + b)
  {
    forall s | s in a + b ensures GoodSpan(body, budget, s) && low <= s.from { assert s in a || s in b; }
  }

  lemma AllKeptGood(body: seq<Byte>, budget: nat, offset: nat)
    requires WellFormed(body) && offset < |body| && Window(body, budget, offset).from < Window(body, budget, offset).to
    ensures AllGood(body, budget, Aligned(body, offset), Kept(TrimmedWindow(body, budget, offset)))
  {
    forall s | s in Kept(TrimmedWindow(body, budget, offset)) ensures GoodSpan(body, budget, s) && Aligned(body, offset) <= s.from {
      KeptIsGood(body, budget, offset, s);
    }
  }

  /** The chunks of one window and those that follow. */
  lemma AllGoodOnce(body: seq<Byte>, budget: nat, low: nat, next: nat, w: Span, kept: seq<Span>, rest: seq<Span>, spans: seq<Span>)
    requires spans == if w.to <= w.from then [] else kept + if w.to >= |body| then [] else rest
    requires w.from < w.to ==> AllGood(body, budget, low, kept)
    requires AllGood(body, budget, next, rest) && low <= next
    ensures AllGood(body, budget, low, spans)
  {
    if w.from < w.to < |body| {
      AllGoodJoin(body, budget, low, next, kept, rest);
    } else if w.from < w.to {
      assert kept + [] == kept;
    }
  }

  ghost predicate CutsGood(body: seq<Byte>, budget: nat, step: nat, offset: nat)
    requires step > 0
  {
    AllGood(body, budget, Aligned(body, offset), Cuts(body, budget, step, offset))
  }

  lemma GoodStep(body: seq<Byte>, budget: nat, step: nat, offset: nat)
    requires WellFormed(body) && step > 0 && offset < |body| && CutsGood(body, budget, step, offset + step)
    ensures CutsGood(body, budget, step, offset)
  {
    var w := Window(body, budget, offset);
    CutsOnce(body, budget, step, offset);
    if w.from < w.to { AllKeptGood(body, budget, offset); }
    AlignedMonotone(body, offset, offset + step);
    AllGoodOnce(body, budget, Aligned(body, offset), Aligned(body, offset + step), w, Kept(TrimmedWindow(body, budget, offset)),
                Cuts(body, budget, step, offset + step), Cuts(body, budget, step, offset));
  }

  lemma {:induction false} CutsAreGood(body: seq<Byte>, budget: nat, step: nat, offset: nat)
    requires WellFormed(body) && step > 0
    ensures CutsGood(body, budget, step, offset)
    decreases |body| - offset
  {
    if offset < |body| {
      CutsAreGood(body, budget, step, offset + step);
      GoodStep(body, budget, step, offset);
    }
  }

  ghost predicate Ordered(spans: seq<Span>) {
    forall i, j :: 0 <= i < j < |spans| ==> spans[i].from <= spans[j].from
  }

  lemma FirstVisible(body: seq<Byte>, budget: nat, offset: nat, t: Span, s: Span)
    requires t in Kept(TrimmedWindow(body, budget, offset)) && Window(body, budget, offset).to <= |body|
    requires Aligned(body, offset) <= s.from < |body| && !Space(body[s.from])
    ensures t.from <= s.from
  {
    var w := Window(body, budget, offset);
    if s.from < w.to && w.from < w.to { TrimLeftKeeps(body, w, s.from); }
  }

  predicate Continues(body: seq<Byte>, budget: nat, offset: nat) {
    offset < |body| && Window(body, budget, offset).from < Window(body, budget, offset).to < |body|
  }

  lemma OrderedAfter(body: seq<Byte>, budget: nat, offset: nat, low: nat, rest: seq<Span>)
    requires Continues(body, budget, offset) && Aligned(body, offset) <= low
    requires Ordered(rest) && AllGood(body, budget, low, rest)
    ensures Ordered(Kept(TrimmedWindow(body, budget, offset)) + rest)
  {
    var kept := Kept(TrimmedWindow(body, budget, offset));
    forall t, s | t in kept && s in rest ensures t.from <= s.from {
      assert GoodSpan(body, budget, s);
      FirstVisible(body, budget, offset, t, s);
    }
    OrderedJoin(kept, rest);
  }

  lemma OrderedStep(body: seq<Byte>, budget: nat, step: nat, offset: nat)
    requires step > 0 && Ordered(Cuts(body, budget, step, offset + step))
    requires AllGood(body, budget, Aligned(body, offset + step), Cuts(body, budget, step, offset + step))
    ensures Ordered(Cuts(body, budget, step, offset))
  {
    if Continues(body, budget, offset) {
      CutsOnce(body, budget, step, offset);
      AlignedMonotone(body, offset, offset + step);
      OrderedAfter(body, budget, offset, Aligned(body, offset + step), Cuts(body, budget, step, offset + step));
    } else {
      CutsShort(body, budget, step, offset);
    }
  }

  lemma {:induction false} CutsOrdered(body: seq<Byte>, budget: nat, step: nat, offset: nat)
    requires WellFormed(body) && step > 0
    ensures Ordered(Cuts(body, budget, step, offset))
    decreases |body| - offset
  {
    if offset < |body| {
      var next := offset + step;
      assert Ordered(Cuts(body, budget, step, next)) by { CutsOrdered(body, budget, step, next); }
      CutsAreGood(body, budget, step, next);
      OrderedStep(body, budget, step, offset);
    } else {
      assert Cuts(body, budget, step, offset) == [];
    }
  }

  lemma CutsShort(body: seq<Byte>, budget: nat, step: nat, offset: nat)
    requires step > 0 && !Continues(body, budget, offset)
    ensures |Cuts(body, budget, step, offset)| <= 1
  {
  }

  lemma OrderedJoin(kept: seq<Span>, rest: seq<Span>)
    requires |kept| <= 1 && Ordered(rest) && forall t, s :: t in kept && s in rest ==> t.from <= s.from
    ensures Ordered(kept + rest)
  {
    var all := kept + rest;
    forall i, j | 0 <= i < j < |all| ensures all[i].from <= all[j].from {
      assert all[j] in rest;
      if i < |kept| { assert all[i] in kept; }
    }
  }

  /** The chunks of a text that does not fit the budget. */
  lemma ChunksAreGood(body: seq<Byte>, budget: int, overlap: int)
    requires WellFormed(body) && 0 < budget < |body|
    ensures Ordered(Spans(body, budget, overlap))
    ensures forall s :: s in Spans(body, budget, overlap) ==> GoodSpan(body, budget, s)
  {
    CutsOrdered(body, budget, Step(budget, overlap), 0);
    CutsAreGood(body, budget, Step(budget, overlap), 0);
  }

  // -------------------------------------------------------------- lost bytes

  predicate InWindow(body: seq<Byte>, budget: nat, offset: nat, p: nat) {
    Window(body, budget, offset).from <= p < Window(body, budget, offset).to
  }

  lemma KeptInside(body: seq<Byte>, budget: nat, offset: nat, s: Span)
    requires s in Kept(TrimmedWindow(body, budget, offset)) && Window(body, budget, offset).from < Window(body, budget, offset).to
    ensures Window(body, budget, offset).from <= s.from && s.to <= Window(body, budget, offset).to
  {
    EndsWithin(body, Window(body, budget, offset).from, budget);
  }

  /** A covered byte lies in the first window, or in a chunk cut later. */
  lemma HolderOnce(body: seq<Byte>, budget: nat, step: nat, offset: nat, p: nat)
    requires step > 0 && Reached(body, budget, step, offset, p)
    ensures offset < |body| && (InWindow(body, budget, offset, p) || Reached(body, budget, step, offset + step, p))
  {
    CutsOnce(body, budget, step, offset);
    var s :| s in Cuts(body, budget, step, offset) && s.from <= p < s.to;
    if s in Kept(TrimmedWindow(body, budget, offset)) { KeptInside(body, budget, offset, s); }
  }

  /** The window that a covered byte was cut from. */
  lemma {:induction false} Holder(body: seq<Byte>, budget: nat, step: nat, offset: nat, p: nat) returns (o: nat)
    requires step > 0 && Reached(body, budget, step, offset, p)
    ensures o >= offset && !Missed(body, budget, o, p)
    decreases |body| - offset
  {
    HolderOnce(body, budget, step, offset, p);
    o := offset;
    if !InWindow(body, budget, offset, p) { o := Holder(body, budget, step, offset + step, p); }
  }

  ghost predicate Missed(body: seq<Byte>, budget: nat, offset: nat, p: nat) {
    !InWindow(body, budget, offset, p)
  }

  ghost predicate MissedFrom(body: seq<Byte>, budget: nat, offset: nat, p: nat) {
    forall o: nat :: o >= offset ==> Missed(body, budget, o, p)
  }

  lemma NotReachedHere(body: seq<Byte>, budget: nat, step: nat, offset: nat, p: nat)
    requires step > 0 && Missed(body, budget, offset, p) && !Reached(body, budget, step, offset + step, p)
    ensures !Reached(body, budget, step, offset, p)
  {
    if Reached(body, budget, step, offset, p) { HolderOnce(body, budget, step, offset, p); }
  }

  lemma NotReachedFrom(body: seq<Byte>, budget: nat, step: nat, offset: nat, p: nat)
    requires step > 0 && MissedFrom(body, budget, offset, p)
    ensures !Reached(body, budget, step, offset, p)
  {
    if Reached(body, budget, step, offset, p) {
      var o := Holder(body, budget, step, offset, p);
    }
  }

  lemma Uncovered(body: seq<Byte>, budget: nat, overlap: int, p: nat)
    requires 0 < budget < |body| && p < |body| && !Space(body[p])
    requires !Reached(body, budget, Step(budget, overlap), 0, p)
    ensures !Covers(body, budget, overlap)
  {
    assert !CoveredBy(Spans(body, budget, overlap), p);
  }

  /** A budget below four bytes cannot take a four-byte rune. */
  lemma LosesTinyBudget(budget: nat, overlap: int) returns (body: seq<Byte>)
    requires 0 < budget <= 3
    ensures WellFormed(body) && !Covers(body, budget, overlap)
  {
    body := [0xF0 as char, 0x90 as char, 0x90 as char, 0x90 as char];
    assert RuneAt(body, 0);
    assert Aligned(body, budget) == 0 by {
      assert Aligned(body, 1) == 0 && Aligned(body, 2) == 0 && Aligned(body, 3) == 0;
    }
    assert WindowEnd(body, 0, budget) == 0 by {
      LastBreakFound(body, budget, Low(0, budget), budget);
    }
    CutsOnce(body, budget, Step(budget, overlap), 0);
    assert Spans(body, budget, overlap) == [];
    assert !CoveredBy(Spans(body, budget, overlap), 0);
  }

  /** A four-byte rune from `r` on, a space at `w`, and otherwise letters. */
  function Sample(r: nat, w: nat, n: nat): (body: seq<Byte>)
    ensures |body| == n
  {
    seq(n, i => if i == r then 0xF0 as char else if r < i <= r + 3 then 0x90 as char else if i == w then ' ' else 'x')
  }

  lemma TextWellFormed(r: nat, w: nat, n: nat)
    requires r + 4 <= w < n
    ensures WellFormed(Sample(r, w, n))
  {
    var body := Sample(r, w, n);
    forall i | 0 <= i < n && Start(body[i]) ensures RuneAt(body, i) {
      assert i + RuneLength(body[i]) == n || Start(body[i + RuneLength(body[i])]);
    }
  }

  lemma TextAligned(r: nat, w: nat, n: nat, i: nat)
    requires r + 4 <= w < n && i < n
    ensures Aligned(Sample(r, w, n), i) == if r <= i <= r + 3 then r else i
  {
    var body := Sample(r, w, n);
    if r < i <= r + 3 {
      assert !Start(body[i]);
      TextAligned(r, w, n, i - 1);
    }
  }

  lemma {:induction false} TextBreak(r: nat, w: nat, n: nat, i: nat, low: nat, otherwise: nat)
    requires r + 4 <= w < n && i < n && low <= i
    ensures LastBreak(Sample(r, w, n), i, low, otherwise) == if low < w <= i then w else otherwise
    decreases i
  {
    if i > low && i != w { TextBreak(r, w, n, i - 1, low, otherwise); }
  }

  /** Where a window of that text ends, when the end of the text is out of reach. */
  lemma TextWindow(r: nat, w: nat, n: nat, offset: nat, budget: nat)
    requires r + 4 <= w < n && offset + budget < n
    ensures var win := Window(Sample(r, w, n), budget, offset);
      var start := if r <= offset <= r + 3 then r else offset;
      && win.from == start
      && win.to == if start < w <= start + budget && w > start + budget - 100 then w
                   else if r <= start + budget <= r + 3 then r else start + budget
  {
    var body := Sample(r, w, n);
    TextAligned(r, w, n, offset);
    var start := if r <= offset <= r + 3 then r else offset;
    TextBreak(r, w, n, start + budget, Low(start, start + budget), start + budget);
    TextAligned(r, w, n, start + budget);
    TextAligned(r, w, n, w);
  }

  /** Where the sample's space goes, for a rune of four bytes at `step - 3`. */
  function SpaceAt(budget: nat, step: nat): nat
    requires step >= 3
  {
    step - 3 + if budget - 99 > 4 then budget - 99 else 4
  }

  lemma MissedBy(budget: nat, step: nat, n: nat, offset: nat)
    requires budget >= 4 && step >= 3 && budget - step <= 100 && n == 2 * step + budget + 10
    requires offset == 0 || offset == step || offset >= 2 * step
    ensures SpaceAt(budget, step) + 1 < n
    ensures Missed(Sample(step - 3, SpaceAt(budget, step), n), budget, offset, SpaceAt(budget, step) + 1)
  {
    if offset <= step {
      TextWindow(step - 3, SpaceAt(budget, step), n, offset, budget);
    } else {
      TextLater(step - 3, SpaceAt(budget, step), n, offset);
    }
  }

  lemma {:induction false} MissedTwice(body: seq<Byte>, budget: nat, step: nat, offset: nat, p: nat)
    requires step > 0 && Missed(body, budget, offset, p) && MissedFrom(body, budget, offset + step, p)
    ensures !Reached(body, budget, step, offset, p)
  {
    NotReachedFrom(body, budget, step, offset + step, p);
    NotReachedHere(body, budget, step, offset, p);
  }

  lemma {:induction false} MissedThrice(body: seq<Byte>, budget: nat, step: nat, offset: nat, p: nat)
    requires step > 0 && Missed(body, budget, offset, p) && Missed(body, budget, offset + step, p)
    requires MissedFrom(body, budget, offset + step + step, p)
    ensures !Reached(body, budget, step, offset, p)
  {
    MissedTwice(body, budget, step, offset + step, p);
    NotReachedHere(body, budget, step, offset, p);
  }

  /** No window holds the byte: not one of the first three, not a later one. */
  lemma {:induction false} NeverReached(body: seq<Byte>, budget: nat, step: nat, p: nat)
    requires step > 0 && Missed(body, budget, 0, p) && Missed(body, budget, step, p) && Missed(body, budget, step + step, p)
    requires MissedFrom(body, budget, step + step + step, p)
    ensures !Reached(body, budget, step, 0, p)
  {
    MissedThrice(body, budget, step, step, p);
    NotReachedHere(body, budget, step, 0, p);
  }

  lemma {:induction false} SampleMissed(budget: nat, step: nat, n: nat)
    requires budget >= 4 && step >= 3 && budget - step <= 100 && n == 2 * step + budget + 10
    ensures SpaceAt(budget, step) + 1 < n && !Reached(Sample(step - 3, SpaceAt(budget, step), n), budget, step, 0, SpaceAt(budget, step) + 1)
  {
    var body, p := Sample(step - 3, SpaceAt(budget, step), n), SpaceAt(budget, step) + 1;
    MissedBy(budget, step, n, 0);
    MissedBy(budget, step, n, step);
    MissedBy(budget, step, n, step + step);
    forall o: nat | o >= step + step + step ensures Missed(body, budget, o, p) { MissedBy(budget, step, n, o); }
    NeverReached(body, budget, step, p);
  }

  lemma {:induction false} SampleUncovered(budget: nat, overlap: int, step: nat, n: nat, body: seq<Byte>)
    requires budget >= 4 && step == Step(budget, overlap) >= 3 && budget - step <= 100 && n == 2 * step + budget + 10
    requires body == Sample(step - 3, SpaceAt(budget, step), n)
    ensures WellFormed(body) && !Covers(body, budget, overlap)
  {
    assert WellFormed(body) by { TextWellFormed(step - 3, SpaceAt(budget, step), n); }
    assert !Covers(body, budget, overlap) by {
      SampleMissed(budget, step, n);
      Uncovered(body, budget, overlap, SpaceAt(budget, step) + 1);
    }
  }

  /** The second window begins three bytes before its offset, at a four-byte rune,
      and ends early at a space; the third begins beyond the letter after it. */
  lemma {:induction false} LosesBetweenWindows(budget: nat, overlap: int) returns (body: seq<Byte>)
    requires budget >= 4 && Step(budget, overlap) >= 3 && budget - Step(budget, overlap) <= 100
    ensures WellFormed(body) && !Covers(body, budget, overlap)
  {
    var step := Step(budget, overlap);
    body := Sample(step - 3, SpaceAt(budget, step), 2 * step + budget + 10);
    SampleUncovered(budget, overlap, step, 2 * step + budget + 10, body);
  }

  lemma TextLater(r: nat, w: nat, n: nat, offset: nat)
    requires r + 4 <= w < n && r + 4 <= offset
    ensures Aligned(Sample(r, w, n), offset) == if offset < n then offset else n
  {
    if offset < n { TextAligned(r, w, n, offset); }
  }

  /** With a budget of four and a step of two a rune hides the byte after it. */
  lemma LosesAtFour(budget: nat, overlap: int) returns (body: seq<Byte>)
    requires budget == 4 && Step(budget, overlap) == 2
    ensures WellFormed(body) && !Covers(body, budget, overlap)
  {
    var r, w, n := 1, 20, 30;
    body := Sample(r, w, n);
    TextWellFormed(r, w, n);
    assert !Reached(body, budget, 2, 0, 5) by {
      forall o: nat | o == 0 || o == 2 || o == 4 || o >= 6 ensures Missed(body, budget, o, 5) {
        if o < 6 { TextWindow(r, w, n, o, budget); } else { TextLater(r, w, n, o); }
      }
      NeverReached(body, budget, 2, 5);
    }
    Uncovered(body, budget, overlap, 5);
  }

  ghost predicate CoversEveryText(budget: int, overlap: int) {
    forall body :: WellFormed(body) ==> Covers(body, budget, overlap)
  }

  lemma FailsHow(budget: nat, step: nat)
    requires 0 < step && !KeepsUp(budget, step)
    ensures budget <= 3 || (step >= 3 && budget - step <= 100) || (budget == 4 && step == 2)
  {
  }

  lemma LosesSomeText(budget: int, overlap: int) returns (body: seq<Byte>)
    requires budget > 0 && !KeepsUp(budget, Step(budget, overlap))
    ensures WellFormed(body) && !Covers(body, budget, overlap)
  {
    FailsHow(budget, Step(budget, overlap));
    if budget <= 3 {
      body := LosesTinyBudget(budget, overlap);
    } else if Step(budget, overlap) >= 3 {
      body := LosesBetweenWindows(budget, overlap);
    } else {
      body := LosesAtFour(budget, overlap);
    }
  }

  /** No visible byte of any well-formed text is lost exactly when the windows keep
      up: they overlap by 101 bytes, or (for tiny budgets) advance by at most two
      with three to spare. A budget that is not positive cuts nothing. */
  lemma CoversEveryTextIff(budget: int, overlap: int)
    ensures CoversEveryText(budget, overlap) <==> budget <= 0 || KeepsUp(budget, Step(budget, overlap))
  {
    if budget <= 0 || KeepsUp(budget, Step(budget, overlap)) {
      forall body | WellFormed(body) ensures Covers(body, budget, overlap) {
        CoversIfKeepsUp(body, budget, overlap);
      }
    } else {
      var body := LosesSomeText(budget, overlap);
    }
  }

  /** In the range the chunker uses, a budget of at least 200 and a smaller overlap,
      the condition is an overlap of at least 101 bytes. */
  lemma CoversInUseIff(budget: int, overlap: int)
    requires budget >= 200 && overlap < budget
    ensures CoversEveryText(budget, overlap) <==> overlap >= 101
  {
    CoversEveryTextIff(budget, overlap);
  }
}
