/** The window splitter (splitTextByBudget in internal/rag/skeleton.go, with
    AlignRuneStart of internal/textfmt) over UTF-8 bytes. A byte is a
    char, so a text is an ordinary string. */
module Splitter {
  import opened Common
  import opened Text

  type Byte = char

  // ------------------------------------------------------------------- runes

  /** utf8.RuneStart: anything but a continuation byte. */
  predicate Start(b: Byte) {
    !(0x80 <= b as int < 0xC0)
  }

  function RuneLength(b: Byte): nat {
    if b as int < 0xC0 then 1 else if b as int < 0xE0 then 2 else if b as int < 0xF0 then 3 else 4
  }

  predicate Boundary(body: seq<Byte>, p: int) {
    p == |body| || (0 <= p < |body| && Start(body[p]))
  }

  /** The first two bytes of a longer rune in UTF-8: no overlong form, no surrogate,
      nothing beyond U+10FFFF. */
  predicate Legal(lead: Byte, second: Byte) {
    && 0xC2 <= lead as int <= 0xF4
    && (lead as int == 0xE0 ==> second as int >= 0xA0) && (lead as int == 0xED ==> (second as int) < 0xA0)
    && (lead as int == 0xF0 ==> second as int >= 0x90) && (lead as int == 0xF4 ==> (second as int) < 0x90)
  }

  /** A whole rune stands at `i`. */
  predicate RuneAt(body: seq<Byte>, i: nat)
    requires i < |body|
  {
    var next := i + RuneLength(body[i]);
    && next <= |body| && Boundary(body, next) && (forall j :: i < j < next ==> !Start(body[j]))
    && if next == i + 1 then (body[i] as int) < 0x80 else Legal(body[i], body[i + 1])
  }

  /** Valid UTF-8: the bytes fall into whole runes. */
  ghost predicate WellFormed(body: seq<Byte>) {
    Boundary(body, 0) && forall i {:trigger RuneAt(body, i)} :: 0 <= i < |body| && Start(body[i]) ==> RuneAt(body, i)
  }

  /** The greatest rune start at or before `i`. */
  method AlignRuneStart(s: seq<Byte>, i: int) returns (r: nat)
    ensures r == Aligned(s, i)
  {
    if i <= 0 {
      return 0;
    }
    if i >= |s| {
      return |s|;
    }
    r := i;
    while r > 0 && !Start(s[r])
      invariant r < |s| && Aligned(s, r) == Aligned(s, i)
    {
      r := r - 1;
    }
  }

  function Aligned(s: seq<Byte>, i: int): (r: nat)
    ensures r <= |s|
    decreases i
  {
    if i <= 0 then 0 else if i >= |s| then |s| else if Start(s[i]) then i else Aligned(s, i - 1)
  }

  lemma {:induction false} NoStartAbove(s: seq<Byte>, i: nat, j: nat)
    requires i < |s|
    ensures Aligned(s, i) < j <= i ==> !Start(s[j])
  {
    if 0 < i && !Start(s[i]) && j < i { NoStartAbove(s, i - 1, j); }
  }

  lemma {:induction false} AlignedStarts(s: seq<Byte>, i: nat)
    requires WellFormed(s)
    ensures Boundary(s, Aligned(s, i)) && (i < |s| ==> Aligned(s, i) <= i)
  {
    if 0 < i < |s| && !Start(s[i]) { AlignedStarts(s, i - 1); }
  }

  /** The rune that `i` falls into starts at most three bytes before it. */
  lemma AlignedNear(s: seq<Byte>, i: nat)
    requires WellFormed(s) && i < |s|
    ensures var r := Aligned(s, i);
      && r < |s| && Start(s[r]) && r <= i < r + RuneLength(s[r]) && r + RuneLength(s[r]) <= |s| && i - 3 <= r
  {
    AlignedStarts(s, i);
    var r := Aligned(s, i);
    assert RuneAt(s, r);
    NoStartAbove(s, i, r + RuneLength(s[r]));
  }

  lemma {:induction false} AlignedMonotone(s: seq<Byte>, i: int, j: int)
    requires i <= j
    ensures Aligned(s, i) <= Aligned(s, j)
    decreases j - i
  {
    AlignedBelow(s, i);
    if i < j {
      AlignedMonotone(s, i, j - 1);
      AlignedBelow(s, j - 1);
    }
  }

  lemma {:induction false} AlignedBelow(s: seq<Byte>, i: int)
    ensures 0 <= i ==> Aligned(s, i) <= i
    decreases i
  {
    if 0 < i < |s| && !Start(s[i]) { AlignedBelow(s, i - 1); }
  }

  // ----------------------------------------------------------------- windows

  datatype Span = Span(from: nat, to: nat)

  predicate Break(b: Byte) {
    b == ' ' || b == '\n'
  }

  /** The last break byte in (low, i], or `otherwise`. */
  function LastBreak(body: seq<Byte>, i: int, low: nat, otherwise: nat): nat
    requires i < |body|
    decreases i
  {
    if i <= low then otherwise else if Break(body[i]) then i else LastBreak(body, i - 1, low, otherwise)
  }

  function Low(start: nat, end: nat): nat {
    if end - 100 > start then end - 100 else start
  }

  function WindowEnd(body: seq<Byte>, start: nat, budget: nat): nat {
    var end := start + budget;
    if end >= |body| then |body| else Aligned(body, LastBreak(body, end, Low(start, end), end))
  }

  function Window(body: seq<Byte>, budget: nat, offset: nat): Span {
    var start := Aligned(body, offset);
    Span(start, WindowEnd(body, start, budget))
  }

  function Step(budget: nat, overlap: int): int {
    if budget - overlap <= 0 then budget else budget - overlap
  }

  /** strings.TrimSpace, on a span. */
  function SpanLeft(body: seq<Byte>, s: Span): (t: Span)
    requires s.from <= s.to <= |body|
    ensures s.from <= t.from <= t.to == s.to
    decreases s.to - s.from
  {
    if s.from < s.to && Space(body[s.from]) then SpanLeft(body, Span(s.from + 1, s.to)) else s
  }

  function SpanRight(body: seq<Byte>, s: Span): (t: Span)
    requires s.from <= s.to <= |body|
    ensures s.from == t.from <= t.to <= s.to
    decreases s.to - s.from
  {
    if s.from < s.to && Space(body[s.to - 1]) then SpanRight(body, Span(s.from, s.to - 1)) else s
  }

  function SpanTrim(body: seq<Byte>, s: Span): (t: Span)
    requires s.from <= s.to <= |body|
    ensures s.from <= t.from <= t.to <= s.to
  {
    SpanRight(body, SpanLeft(body, s))
  }

  /** The spans of the chunks cut from `offset` on. */
  function Cuts(body: seq<Byte>, budget: nat, step: nat, offset: nat): seq<Span>
    requires step > 0
    decreases |body| - offset
  {
    if offset >= |body| then []
    else
      var w := Window(body, budget, offset);
      if w.to <= w.from then []
      else
        EndsWithin(body, w.from, budget);
        Kept(SpanTrim(body, w)) + (if w.to >= |body| then [] else Cuts(body, budget, step, offset + step))
  }

  lemma CutsOnce(body: seq<Byte>, budget: nat, step: nat, offset: nat)
    requires step > 0 && offset < |body|
    ensures var w := Window(body, budget, offset);
      Cuts(body, budget, step, offset) ==
      if w.to <= w.from then []
      else Kept(TrimmedWindow(body, budget, offset)) + if w.to >= |body| then [] else Cuts(body, budget, step, offset + step)
  {
  }

  function TrimmedWindow(body: seq<Byte>, budget: nat, offset: nat): Span
  {
    var w := Window(body, budget, offset);
    if w.to <= w.from then w
    else
      EndsWithin(body, w.from, budget);
      SpanTrim(body, w)
  }

  /** A blank chunk is not kept. */
  function Kept(t: Span): seq<Span> {
    if t.from < t.to then [t] else []
  }

  /** The spans of the whole text: those cut so far and those from `offset` on. */
  function Ahead(body: seq<Byte>, budget: nat, step: nat, offset: nat, done: seq<Span>): seq<Span>
    requires step > 0
  {
    done + Cuts(body, budget, step, offset)
  }

  ghost predicate Remaining(body: seq<Byte>, budget: nat, step: nat, offset: nat, spans: seq<Span>, done: seq<Span>)
    requires step > 0
  {
    spans == Ahead(body, budget, step, offset, done)
  }

  // The equalities of a round, named, so that each step of its proof sees one of them.

  ghost predicate Joined(spans: seq<Span>, done: seq<Span>, rest: seq<Span>) {
    spans == done + rest
  }

  /** The cuts of a text: those of one window, and those of the windows after it. */
  ghost predicate Parted(cuts: seq<Span>, w: Span, n: nat, kept: seq<Span>, rest: seq<Span>) {
    cuts == if w.to <= w.from then [] else kept + if w.to >= n then [] else rest
  }

  ghost predicate AreCuts(body: seq<Byte>, budget: nat, step: nat, offset: nat, cuts: seq<Span>)
    requires step > 0
  {
    cuts == Cuts(body, budget, step, offset)
  }

  lemma RemainingIs(body: seq<Byte>, budget: nat, step: nat, offset: nat, spans: seq<Span>, done: seq<Span>) returns (cuts: seq<Span>)
    requires step > 0 && Remaining(body, budget, step, offset, spans, done)
    ensures Joined(spans, done, cuts) && AreCuts(body, budget, step, offset, cuts)
  {
    cuts := Cuts(body, budget, step, offset);
  }

  lemma RemainingFrom(body: seq<Byte>, budget: nat, step: nat, offset: nat, spans: seq<Span>, done: seq<Span>, cuts: seq<Span>)
    requires step > 0 && Joined(spans, done, cuts) && AreCuts(body, budget, step, offset, cuts)
    ensures Remaining(body, budget, step, offset, spans, done)
  {
  }

  lemma CutsBy(body: seq<Byte>, budget: nat, step: nat, offset: nat, w: Span, kept: seq<Span>, cuts: seq<Span>) returns (rest: seq<Span>)
    requires step > 0 && offset < |body| && w == Window(body, budget, offset)
    requires kept == Kept(TrimmedWindow(body, budget, offset)) && AreCuts(body, budget, step, offset, cuts)
    ensures Parted(cuts, w, |body|, kept, rest) && AreCuts(body, budget, step, offset + step, rest)
  {
    rest := Cuts(body, budget, step, offset + step);
    CutsOnce(body, budget, step, offset);
  }

  lemma CutsAt(body: seq<Byte>, budget: nat, step: nat, offset: nat, next: nat, cuts: seq<Span>)
    requires step > 0 && next == offset + step && AreCuts(body, budget, step, offset + step, cuts)
    ensures AreCuts(body, budget, step, next, cuts)
  {
  }

  lemma CutsNext(body: seq<Byte>, budget: nat, step: nat, offset: nat, w: Span, kept: seq<Span>, cuts: seq<Span>, next: nat)
    returns (rest: seq<Span>)
    requires step > 0 && offset < |body| && w == Window(body, budget, offset) && next == offset + step
    requires kept == Kept(TrimmedWindow(body, budget, offset)) && AreCuts(body, budget, step, offset, cuts)
    ensures Parted(cuts, w, |body|, kept, rest) && AreCuts(body, budget, step, next, rest)
  {
    rest := CutsBy(body, budget, step, offset, w, kept, cuts);
    CutsAt(body, budget, step, offset, next, rest);
  }

  lemma SpansGrow(spans: seq<Span>, done: seq<Span>, kept: seq<Span>, cuts: seq<Span>, rest: seq<Span>, w: Span, n: nat, more: seq<Span>)
    requires Joined(spans, done, cuts) && Joined(more, done, kept) && Parted(cuts, w, n, kept, rest)
    ensures w.to <= w.from ==> spans == done
    ensures w.from < w.to && w.to >= n ==> spans == more
    ensures w.from < w.to < n ==> Joined(spans, more, rest)
  {
    if w.from < w.to < n {
      Regrouped(done, kept, rest);
    } else if w.from < w.to {
      assert kept + [] == kept;
    }
  }

  lemma Advance(body: seq<Byte>, budget: nat, step: nat, offset: nat, spans: seq<Span>, done: seq<Span>, w: Span, kept: seq<Span>,
                next: nat, more: seq<Span>)
    requires step > 0 && offset < |body| && Remaining(body, budget, step, offset, spans, done) && next == offset + step
    requires w == Window(body, budget, offset) && kept == Kept(TrimmedWindow(body, budget, offset)) && Joined(more, done, kept)
    ensures w.to <= w.from ==> spans == done
    ensures w.from < w.to && w.to >= |body| ==> spans == more
    ensures w.from < w.to < |body| ==> Remaining(body, budget, step, next, spans, more)
  {
    var cuts := RemainingIs(body, budget, step, offset, spans, done);
    var rest := CutsNext(body, budget, step, offset, w, kept, cuts, next);
    SpansGrow(spans, done, kept, cuts, rest, w, |body|, more);
    if w.from < w.to < |body| { RemainingFrom(body, budget, step, next, spans, more, rest); }
  }

  lemma CutGrows(body: seq<Byte>, spans: seq<Span>, chunks: seq<seq<Byte>>, t: Span, chunk: seq<Byte>, more: seq<Span>, grown: seq<seq<Byte>>)
    requires CutFrom(body, spans, chunks) && IsText(body, t, chunk)
    requires more == spans + Kept(t) && grown == if |chunk| > 0 then chunks + [chunk] else chunks
    ensures CutFrom(body, more, grown)
  {
    forall i | 0 <= i < |more| ensures IsText(body, more[i], grown[i]) {
      if i < |spans| { assert IsText(body, spans[i], chunks[i]); }
    }
  }

  lemma EndsWithin(body: seq<Byte>, start: nat, budget: nat)
    ensures WindowEnd(body, start, budget) <= |body|
  {
  }

  function Spans(body: seq<Byte>, budget: int, overlap: int): seq<Span> {
    if budget <= 0 || |body| <= budget then [Span(0, |body|)] else Cuts(body, budget, Step(budget, overlap), 0)
  }

  ghost predicate CutFrom(body: seq<Byte>, spans: seq<Span>, chunks: seq<seq<Byte>>) {
    |chunks| == |spans| && forall i {:trigger IsText(body, spans[i], chunks[i])} :: 0 <= i < |spans| ==> IsText(body, spans[i], chunks[i])
  }

  predicate IsText(body: seq<Byte>, s: Span, chunk: seq<Byte>) {
    s.from <= s.to <= |body| && chunk == body[s.from..s.to]
  }

  method SplitTextByBudget(body: seq<Byte>, budget: int, overlap: int) returns (chunks: seq<seq<Byte>>)
    ensures CutFrom(body, Spans(body, budget, overlap), chunks)
  {
    if budget <= 0 || |body| <= budget {
      chunks := [body];
      assert body[0..|body|] == body;
      return;
    }
    var step := budget - overlap;
    if step <= 0 {
      step := budget;
    }
    CutStarts(body, budget, step);
    chunks := CutWindows(body, budget, step, Cuts(body, budget, step, 0));
  }

  /** The chunks so far, and that what is left to cut gives the rest. */
  ghost predicate Going(body: seq<Byte>, budget: nat, step: nat, offset: nat, spans: seq<Span>, done: seq<Span>, chunks: seq<seq<Byte>>)
    requires step > 0
  {
    Remaining(body, budget, step, offset, spans, done) && CutFrom(body, done, chunks)
  }

  lemma CutStarts(body: seq<Byte>, budget: nat, step: nat)
    requires step > 0
    ensures Going(body, budget, step, 0, Cuts(body, budget, step, 0), [], [])
  {
    assert [] + Cuts(body, budget, step, 0) == Cuts(body, budget, step, 0);
  }

  /** One round of the loop: either the spans are complete, or the loop goes on. */
  lemma CutRound(body: seq<Byte>, budget: nat, step: nat, offset: nat, spans: seq<Span>, done: seq<Span>, chunks: seq<seq<Byte>>,
                 w: Span, chunk: seq<Byte>, next: nat, more: seq<Span>, grown: seq<seq<Byte>>)
    requires step > 0 && offset < |body| && Going(body, budget, step, offset, spans, done, chunks) && next == offset + step
    requires w == Window(body, budget, offset) && (w.from < w.to ==> IsText(body, TrimmedWindow(body, budget, offset), chunk))
    requires more == done + Kept(TrimmedWindow(body, budget, offset)) && grown == if |chunk| > 0 then chunks + [chunk] else chunks
    ensures if w.to <= w.from then CutFrom(body, spans, chunks)
            else if w.to >= |body| then CutFrom(body, spans, grown)
            else Going(body, budget, step, next, spans, more, grown)
  {
    Advance(body, budget, step, offset, spans, done, w, Kept(TrimmedWindow(body, budget, offset)), next, more);
    if w.from < w.to { CutGrows(body, done, chunks, TrimmedWindow(body, budget, offset), chunk, more, grown); }
  }

  lemma CutAll(body: seq<Byte>, budget: nat, step: nat, offset: nat, spans: seq<Span>, done: seq<Span>, chunks: seq<seq<Byte>>)
    requires step > 0 && offset >= |body| && Going(body, budget, step, offset, spans, done, chunks)
    ensures CutFrom(body, spans, chunks)
  {
    assert done + [] == done;
  }

  /** One window of the loop; `over` when it was the last. */
  method CutNext(body: seq<Byte>, budget: nat, step: nat, offset: nat, chunks: seq<seq<Byte>>, ghost spans: seq<Span>, ghost done: seq<Span>)
    returns (over: bool, next: nat, grown: seq<seq<Byte>>, ghost more: seq<Span>)
    requires step > 0 && offset < |body| && Going(body, budget, step, offset, spans, done, chunks)
    ensures next == offset + step
    ensures if over then CutFrom(body, spans, grown) else Going(body, budget, step, next, spans, more, grown)
  {
    var w, chunk := CutWindow(body, budget, offset);
    next, more := offset + step, done + Kept(TrimmedWindow(body, budget, offset));
    grown := if |chunk| > 0 then chunks + [chunk] else chunks;
    CutRound(body, budget, step, offset, spans, done, chunks, w, chunk, next, more, grown);
    if w.to <= w.from {
      return true, next, chunks, more;
    }
    over := w.to >= |body|;
  }

  method CutWindows(body: seq<Byte>, budget: nat, step: nat, ghost spans: seq<Span>) returns (chunks: seq<seq<Byte>>)
    requires step > 0 && Going(body, budget, step, 0, spans, [], [])
    ensures CutFrom(body, spans, chunks)
  {
    chunks := [];
    ghost var done: seq<Span> := [];
    var offset := 0;
    while offset < |body|
      invariant Going(body, budget, step, offset, spans, done, chunks)
    {
      var over;
      over, offset, chunks, done := CutNext(body, budget, step, offset, chunks, spans, done);
      if over {
        return;
      }
    }
    CutAll(body, budget, step, offset, spans, done, chunks);
  }

  method CutWindow(body: seq<Byte>, budget: nat, offset: nat) returns (w: Span, chunk: seq<Byte>)
    ensures w == Window(body, budget, offset)
    ensures w.from < w.to ==> IsText(body, TrimmedWindow(body, budget, offset), chunk)
  {
    var start := AlignRuneStart(body, offset);
    var end := FindEnd(body, start, budget);
    w, chunk := Span(start, end), [];
    if start < end {
      EndsWithin(body, start, budget);
      chunk := TrimSpace(body, start, end);
    }
  }

  method FindEnd(body: seq<Byte>, start: nat, budget: nat) returns (end: nat)
    requires start <= |body|
    ensures end == WindowEnd(body, start, budget)
  {
    end := start + budget;
    if end > |body| {
      end := |body|;
    }
    if end < |body| {
      var breakPoint := end;
      var i := end;
      while i > end - 100 && i > start
        invariant i <= end && breakPoint == end
        invariant LastBreak(body, end, Low(start, end), end) == LastBreak(body, i, Low(start, end), end)
      {
        if Break(body[i]) {
          breakPoint := i;
          break;
        }
        i := i - 1;
      }
      end := AlignRuneStart(body, breakPoint);
    }
  }

  method TrimSpace(body: seq<Byte>, start: nat, end: nat) returns (text: seq<Byte>)
    requires start <= end <= |body|
    ensures text == body[SpanTrim(body, Span(start, end)).from..SpanTrim(body, Span(start, end)).to]
  {
    var a, b := start, end;
    while a < b && Space(body[a])
      invariant start <= a <= b == end && SpanLeft(body, Span(start, end)) == SpanLeft(body, Span(a, b))
    {
      a := a + 1;
    }
    while a < b && Space(body[b - 1])
      invariant a <= b <= end && SpanRight(body, SpanLeft(body, Span(start, end))) == SpanRight(body, Span(a, b))
    {
      b := b - 1;
    }
    text := body[a..b];
  }
}
