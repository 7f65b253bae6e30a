/** The breadcrumb printed at the head of a chunk and its parser (formatBreadcrumb,
    ExtractBreadcrumb and SectionKey in internal/rag/skeleton.go). */
module Breadcrumb {
  import opened Text

  const SEP: string := " > "

  // ------------------------------------------------------------------- print

  /** Blank segments go, and so do repetitions of the segment before. */
  function CleanedFrom(path: seq<string>, prev: string): seq<string> {
    if path == [] then []
    else
      var part := Trim(path[0]);
      if part == [] || part == prev then CleanedFrom(path[1..], prev) else [part] + CleanedFrom(path[1..], part)
  }

  function Cleaned(path: seq<string>): seq<string> {
    CleanedFrom(path, [])
  }

  function SectionKey(path: seq<string>): string {
    Join(path, SEP)
  }

  function Format(path: seq<string>): string {
    if Cleaned(path) == [] then [] else "[" + SectionKey(Cleaned(path)) + "]"
  }

  lemma CleanNext(cleaned: seq<string>, path: seq<string>, i: nat, prev: string)
    requires i < |path|
    ensures var part := Trim(path[i]);
      cleaned + CleanedFrom(path[i..], prev) ==
      if part == [] || part == prev then cleaned + CleanedFrom(path[i + 1..], prev)
      else (cleaned + [part]) + CleanedFrom(path[i + 1..], part)
  {
    assert path[i..][1..] == path[i + 1..];
    var part := Trim(path[i]);
    assert cleaned + ([part] + CleanedFrom(path[i + 1..], part)) == (cleaned + [part]) + CleanedFrom(path[i + 1..], part);
  }

  method FormatBreadcrumb(path: seq<string>) returns (s: string)
    ensures s == Format(path)
  {
    var cleaned: seq<string>, prev: string := [], [];
    for i := 0 to |path|
      invariant Cleaned(path) == cleaned + CleanedFrom(path[i..], prev)
    {
      var part := Trim(path[i]);
      CleanNext(cleaned, path, i, prev);
      if part == [] || part == prev {
        continue;
      }
      cleaned := cleaned + [part];
      prev := part;
    }
    assert Cleaned(path) == cleaned;
    if cleaned == [] {
      return [];
    }
    s := "[" + SectionKey(cleaned) + "]";
  }

  predicate Segment(s: string) {
    s != [] && Trimmed(s)
  }

  lemma {:induction false} CleanedSegments(path: seq<string>, prev: string)
    ensures forall i :: 0 <= i < |CleanedFrom(path, prev)| ==> Segment(CleanedFrom(path, prev)[i])
  {
    if path != [] {
      var part := Trim(path[0]);
      CleanedSegments(path[1..], prev);
      CleanedSegments(path[1..], part);
    }
  }

  // ------------------------------------------------------------------- parse

  predicate SepAt(s: string, i: nat) {
    i + 3 <= |s| && s[i] == ' ' && s[i + 1] == '>' && s[i + 2] == ' '
  }

  /** The first separator, or the length. */
  function SepIndex(s: string): (i: nat)
    ensures i <= |s| && (i < |s| ==> SepAt(s, i)) && forall j: nat :: j < i ==> !SepAt(s, j)
  {
    SepIndexFrom(s, 0)
  }

  function SepIndexFrom(s: string, k: nat): (i: nat)
    requires k <= |s|
    ensures k <= i <= |s| && (i < |s| ==> SepAt(s, i)) && forall j: nat :: k <= j < i ==> !SepAt(s, j)
    decreases |s| - k
  {
    if k == |s| || SepAt(s, k) then k else SepIndexFrom(s, k + 1)
  }

  /** strings.Split */
  function Split(s: string): seq<string>
    decreases |s|
  {
    var i := SepIndex(s);
    if i == |s| then [s] else [s[..i]] + Split(s[i + 3..])
  }

  function CleanParts(parts: seq<string>): seq<string> {
    if parts == [] then [] else (if Trim(parts[0]) == [] then [] else [Trim(parts[0])]) + CleanParts(parts[1..])
  }

  function WithoutNewlines(s: string): string {
    if s != [] && s[0] == '\n' then WithoutNewlines(s[1..]) else s
  }

  datatype Extracted = NoBreadcrumb | Found(path: seq<string>, body: string)

  function Extract(content: string): Extracted {
    if |content| < 2 || content[0] != '[' then NoBreadcrumb
    else
      var end := IndexOf(content, ']');
      if end == |content| then NoBreadcrumb
      else
        assert end > 0;
        var inner := content[1..end];
        if Blank(inner) || CleanParts(Split(inner)) == [] then NoBreadcrumb
        else Found(CleanParts(Split(inner)), WithoutNewlines(content[end + 1..]))
  }

  // -------------------------------------------------------------- round trip

  /** No separator can be read inside a segment, or across the start of the one
      printed after it. */
  predicate Separable(parts: seq<string>) {
    forall i :: 0 <= i < |parts| ==> SegmentAlone(parts[i], i == |parts| - 1)
  }

  predicate SegmentAlone(part: string, last: bool) {
    var shown := if last then part else part + " >";
    SepIndex(shown) == |shown|
  }

  predicate Bracketless(parts: seq<string>) {
    forall i :: 0 <= i < |parts| ==> ']' !in parts[i]
  }

  ghost predicate AllSegments(parts: seq<string>) {
    forall i :: 0 <= i < |parts| ==> Segment(parts[i])
  }

  lemma SepIndexIs(s: string, i: nat)
    requires i <= |s| && (i < |s| ==> SepAt(s, i)) && forall j: nat :: j < i ==> !SepAt(s, j)
    ensures SepIndex(s) == i
  {
  }

  /** The first separator of a printed path ends its first segment exactly when that
      segment stands alone. */
  lemma FirstSeparator(part: string, rest: string)
    ensures SepIndex(part + SEP + rest) <= |part|
    ensures SepIndex(part + SEP + rest) == |part| <==> SegmentAlone(part, false)
  {
    var s, shown := part + SEP + rest, part + " >";
    assert SepAt(s, |part|);
    forall j: nat | j < |part| ensures SepAt(s, j) <==> SepAt(shown, j) {
    }
    var i := SepIndex(s);
    if i < |part| {
      assert SepAt(shown, i);
    } else {
      SepIndexIs(shown, |shown|);
    }
  }

  lemma CutSegment(part: string, i: nat)
    requires Segment(part) && 0 < i < |part|
    ensures Trim(part[..i]) != [] && Trim(part[..i]) != part
  {
    TrimShrinks(part[..i]);
    TrimKeepsVisible(part[..i]);
  }

  lemma {:induction false} TrimLeftShrinks(s: string)
    ensures |TrimLeft(s)| <= |s|
  {
    if s != [] && Space(s[0]) { TrimLeftShrinks(s[1..]); }
  }

  lemma TrimShrinks(s: string)
    ensures |Trim(s)| <= |s|
  {
    TrimLeftShrinks(s);
  }

  lemma TrimKeepsVisible(s: string)
    requires s != [] && !Space(s[0])
    ensures Trim(s) != []
  {
    TrimRightKeeps(s);
  }

  lemma {:induction false} TrimRightKeeps(s: string)
    requires s != [] && !Space(s[0])
    ensures TrimRight(s) != []
  {
    if Space(s[|s| - 1]) { TrimRightKeeps(s[..|s| - 1]); }
  }

  /** Splitting a joined path gives it back exactly when it is separable. */
  lemma {:induction false} SplitJoinIff(parts: seq<string>)
    requires parts != [] && AllSegments(parts)
    ensures Separable(parts) ==> Split(Join(parts, SEP)) == parts
    ensures CleanParts(Split(Join(parts, SEP))) == parts <==> Separable(parts)
  {
    var part, rest := parts[0], parts[1..];
    assert Segment(part);
    TrimmedStays(part);
    if rest == [] {
      assert parts == [part];
      assert Separable(parts) <==> SegmentAlone(part, true);
      var i := SepIndex(part);
      if i < |part| {
        CutFirst(part, i, Split(part[i + 3..]));
      } else {
        assert CleanParts([part]) == [part] + CleanParts([]);
      }
    } else {
      var s := part + SEP + Join(rest, SEP);
      FirstSeparator(part, Join(rest, SEP));
      assert Separable(parts) <==> SegmentAlone(part, false) && Separable(rest) by { SeparableFirst(parts); }
      var i := SepIndex(s);
      if i < |part| {
        assert s[..i] == part[..i];
        CutFirst(part, i, Split(s[i + 3..]));
      } else {
        assert s[..i] == part && s[i + 3..] == Join(rest, SEP);
        SplitJoinIff(rest);
        assert parts == [part] + rest;
        var tail := Split(Join(rest, SEP));
        assert Split(s) == [part] + tail;
        assert CleanParts([part] + tail) == [part] + CleanParts(tail) by { assert ([part] + tail)[1..] == tail; }
      }
    }
  }

  lemma SeparableFirst(parts: seq<string>)
    requires |parts| > 1
    ensures Separable(parts) <==> SegmentAlone(parts[0], false) && Separable(parts[1..])
  {
    var rest := parts[1..];
    forall i | 0 <= i < |rest| ensures SegmentAlone(rest[i], i == |rest| - 1) <==> SegmentAlone(parts[i + 1], i + 1 == |parts| - 1) {
    }
    if Separable(rest) && SegmentAlone(parts[0], false) {
      forall i | 0 <= i < |parts| ensures SegmentAlone(parts[i], i == |parts| - 1) {
        if i > 0 { assert SegmentAlone(rest[i - 1], i - 1 == |rest| - 1); }
      }
    }
    if Separable(parts) {
      assert SegmentAlone(parts[0], 0 == |parts| - 1);
      forall i | 0 <= i < |rest| ensures SegmentAlone(rest[i], i == |rest| - 1) {
        assert SegmentAlone(parts[i + 1], i + 1 == |parts| - 1);
      }
    }
  }

  lemma CutFirst(part: string, i: nat, tail: seq<string>)
    requires Segment(part) && i < |part| && (i == 0 ==> part[0] == ' ')
    ensures CleanParts([part[..i]] + tail) != [] && CleanParts([part[..i]] + tail)[0] != part
  {
    CutSegment(part, i);
  }

  lemma {:induction false} IndexWithin(a: string, b: string, c: char)
    requires c in a
    ensures IndexOf(a + b, c) < |a|
  {
    if a[0] != c {
      assert (a + b)[1..] == a[1..] + b;
      IndexWithin(a[1..], b, c);
    }
  }

  lemma {:induction false} BracketInJoin(parts: seq<string>)
    ensures ']' in Join(parts, SEP) <==> !Bracketless(parts)
  {
    if |parts| > 1 {
      BracketInJoin(parts[1..]);
      assert Bracketless(parts) <==> ']' !in parts[0] && Bracketless(parts[1..]) by {
        forall i | 0 < i < |parts| ensures ']' in parts[i] <==> ']' in parts[1..][i - 1] {
        }
      }
      assert ']' in SEP <==> false;
    }
  }

  /** What extraction reads is never longer than the text it reads it from. */
  lemma {:induction false} ReadNoLonger(s: string)
    ensures |Join(CleanParts(Split(s)), SEP)| <= |s|
    decreases |s|
  {
    var i := SepIndex(s);
    if i == |s| {
      TrimShrinks(s);
      assert CleanParts([s]) == (if Trim(s) == [] then [] else [Trim(s)]) + CleanParts([]);
    } else {
      ReadNoLonger(s[i + 3..]);
      TrimShrinks(s[..i]);
      var tail := Split(s[i + 3..]);
      assert ([s[..i]] + tail)[1..] == tail;
      JoinGrows(Trim(s[..i]), CleanParts(tail));
    }
  }

  lemma JoinGrows(first: string, rest: seq<string>)
    ensures |Join((if first == [] then [] else [first]) + rest, SEP)| <= |first| + 3 + |Join(rest, SEP)|
  {
    if first == [] { assert [] + rest == rest; } else { assert ([first] + rest)[1..] == rest; }
  }

  /** A chunk with the breadcrumb of `path` before `piece`. */
  function Printed(path: seq<string>, piece: string): string {
    Format(path) + "\n\n" + piece
  }

  /** Extraction undoes printing exactly when every title stands alone between
      separators, none holds a closing bracket, and the piece does not begin with
      a newline. */
  lemma ExtractPrintedIff(path: seq<string>, piece: string)
    requires Cleaned(path) != []
    ensures Extract(Printed(path, piece)) == Found(Cleaned(path), piece) <==>
            Separable(Cleaned(path)) && Bracketless(Cleaned(path)) && (piece == [] || piece[0] != '\n')
  {
    var parts := Cleaned(path);
    CleanedSegments(path, []);
    BracketInJoin(parts);
    if Bracketless(parts) {
      ExtractWhole(parts, piece);
    } else {
      ExtractCut(parts, piece);
    }
  }

  lemma {:induction false} WithoutNewlinesIff(piece: string)
    ensures WithoutNewlines("\n\n" + piece) == piece <==> piece == [] || piece[0] != '\n'
  {
    var s := "\n\n" + piece;
    assert s[1..] == "\n" + piece && s[1..][1..] == piece;
    assert WithoutNewlines(s) == WithoutNewlines(s[1..]) == WithoutNewlines(piece);
    if piece != [] && piece[0] == '\n' { NewlinesShrink(piece[1..]); }
  }

  lemma {:induction false} NewlinesShrink(s: string)
    ensures |WithoutNewlines(s)| <= |s|
  {
    if s != [] && s[0] == '\n' { NewlinesShrink(s[1..]); }
  }

  lemma ExtractInner(inner: string, piece: string)
    requires ']' !in inner && !Blank(inner)
    ensures Extract("[" + inner + "]" + "\n\n" + piece) ==
      if CleanParts(Split(inner)) == [] then NoBreadcrumb else Found(CleanParts(Split(inner)), WithoutNewlines("\n\n" + piece))
  {
    var content := "[" + inner + "]" + "\n\n" + piece;
    assert content == ("[" + inner) + [']'] + ("\n\n" + piece);
    IndexOfFirst("[" + inner, "\n\n" + piece, ']');
    assert content[1..|inner| + 1] == inner && content[|inner| + 2..] == "\n\n" + piece;
  }

  lemma ExtractWhole(parts: seq<string>, piece: string)
    requires parts != [] && AllSegments(parts) && ']' !in Join(parts, SEP)
    ensures Extract("[" + Join(parts, SEP) + "]" + "\n\n" + piece) == Found(parts, piece) <==>
            Separable(parts) && (piece == [] || piece[0] != '\n')
  {
    JoinVisible(parts);
    ExtractInner(Join(parts, SEP), piece);
    SplitJoinIff(parts);
    WithoutNewlinesIff(piece);
  }

  lemma JoinVisible(parts: seq<string>)
    requires parts != [] && AllSegments(parts)
    ensures !Blank(Join(parts, SEP))
  {
    assert Segment(parts[0]);
    TrimKeepsVisible(Join(parts, SEP));
  }

  lemma ExtractCut(parts: seq<string>, piece: string)
    requires parts != [] && ']' in Join(parts, SEP)
    ensures Extract("[" + Join(parts, SEP) + "]" + "\n\n" + piece) != Found(parts, piece)
  {
    var inner := Join(parts, SEP);
    var content := "[" + inner + "]" + "\n\n" + piece;
    assert content == ("[" + inner) + ("]" + "\n\n" + piece);
    IndexWithin("[" + inner, "]" + "\n\n" + piece, ']');
    var end := IndexOf(content, ']');
    ReadNoLonger(content[1..end]);
  }

  /** Titles free of both characters are safe. */
  lemma PlainTitlesAreSafe(parts: seq<string>)
    requires forall i :: 0 <= i < |parts| ==> '>' !in parts[i]
    ensures Separable(parts)
  {
    forall i | 0 <= i < |parts| ensures SegmentAlone(parts[i], i == |parts| - 1) {
      var shown := if i == |parts| - 1 then parts[i] else parts[i] + " >";
      assert forall j :: 0 <= j < |shown| - 1 ==> shown[j] != '>';
      SepIndexIs(shown, |shown|);
    }
  }
}
