/** The body of a merged record (mergeContent and ContentContains in
    internal/memory/helpers.go). Bytes are chars; letter case is ASCII. */
module Merge {
  import opened Common
  import opened Text
  import opened Splitter

  const MAX_MERGED: nat := 100000
  const TRUNCATED: string := "\n[truncated: merged content exceeded size limit]"

  datatype Note = Note(title: string, content: string)

  predicate OccursAt(s: string, part: string, i: nat) {
    i + |part| <= |s| && s[i..i + |part|] == part
  }

  /** strings.Contains */
  ghost predicate Contains(s: string, part: string) {
    exists i: nat :: OccursAt(s, part, i)
  }

  /** Merging `dup` into `primary` adds no text. */
  ghost predicate ContentContains(primary: string, dup: string) {
    Trim(dup) == [] || Contains(Lower(Trim(primary)), Lower(Trim(dup)))
  }

  method FindPart(s: string, part: string) returns (found: bool)
    ensures found == Contains(s, part)
  {
    var i := 0;
    while i + |part| <= |s|
      invariant forall j: nat :: j < i ==> !OccursAt(s, part, j)
    {
      if s[i..i + |part|] == part {
        assert OccursAt(s, part, i);
        return true;
      }
      i := i + 1;
    }
    return false;
  }

  method CheckContains(primary: string, dup: string) returns (contained: bool)
    ensures contained == ContentContains(primary, dup)
  {
    var d := Trim(dup);
    if d == "" {
      return true;
    }
    contained := FindPart(Lower(Trim(primary)), Lower(d));
  }

  /** The text a duplicate adds. */
  function Addition(n: Note): string {
    var heading := if Trim(n.title) != [] then "\n\nMerged note from " + Trim(n.title) + ":\n" else "\n\nMerged note:\n";
    heading + Trim(n.content)
  }

  /** Where a body over the limit is cut: at a rune start, with room for the suffix. */
  function Cut(content: string): string {
    content[..Aligned(content, MAX_MERGED - |TRUNCATED|)] + TRUNCATED
  }

  datatype Merged = Merged(content: string, truncated: bool)

  ghost function MergeFrom(content: string, notes: seq<Note>): Merged
    decreases |notes|
  {
    if notes == [] then Merged(content, false)
    else if ContentContains(content, notes[0].content) then MergeFrom(content, notes[1..])
    else
      var grown := content + Addition(notes[0]);
      if |grown| > MAX_MERGED then Merged(Cut(grown), true) else MergeFrom(grown, notes[1..])
  }

  ghost function MergeOf(primary: string, notes: seq<Note>): Merged {
    MergeFrom(Trim(primary), notes)
  }

  lemma PresentNext(duplicates: seq<Option<Note>>, i: nat)
    requires i < |duplicates|
    ensures var now, next := Present(duplicates[i..]), Present(duplicates[i + 1..]);
      if duplicates[i].None? then now == next else now != [] && now[0] == duplicates[i].value && now[1..] == next
  {
    assert duplicates[i..][1..] == duplicates[i + 1..];
  }

  method MergeContent(primary: string, duplicates: seq<Option<Note>>) returns (content: string)
    ensures content == MergeOf(primary, Present(duplicates)).content
  {
    content := Trim(primary);
    assert duplicates[0..] == duplicates;
    for i := 0 to |duplicates|
      invariant MergeOf(primary, Present(duplicates)) == MergeFrom(content, Present(duplicates[i..]))
    {
      PresentNext(duplicates, i);
      if duplicates[i].None? {
        continue;
      }
      var duplicate := duplicates[i].value;
      var contained := CheckContains(content, duplicate.content);
      if contained {
        continue;
      }
      content := content + Addition(duplicate);
      if |content| > MAX_MERGED {
        var cut := AlignRuneStart(content, MAX_MERGED - |TRUNCATED|);
        content := content[..cut] + TRUNCATED;
        return;
      }
    }
  }

  /** The duplicates that could be read. */
  function Present(duplicates: seq<Option<Note>>): seq<Note> {
    if duplicates == [] then []
    else (if duplicates[0].Some? then [duplicates[0].value] else []) + Present(duplicates[1..])
  }

  // --------------------------------------------------------------- guarantees

  /** In every case the body is no longer than the limit or the trimmed primary. */
  lemma {:induction false} MergedLength(content: string, notes: seq<Note>)
    ensures |MergeFrom(content, notes).content| <= if |content| > MAX_MERGED then |content| else MAX_MERGED
    decreases |notes|
  {
    if notes != [] {
      if ContentContains(content, notes[0].content) {
        MergedLength(content, notes[1..]);
      } else {
        var grown := content + Addition(notes[0]);
        if |grown| > MAX_MERGED {
          CutLength(grown);
        } else {
          MergedLength(grown, notes[1..]);
        }
      }
    }
  }

  lemma CutLength(content: string)
    requires |content| > MAX_MERGED
    ensures |Cut(content)| <= MAX_MERGED
  {
    assert |TRUNCATED| < 100;
    AlignedBelow(content, MAX_MERGED - |TRUNCATED|);
  }

  /** Without truncation the body starts with the trimmed primary. */
  lemma {:induction false} StartsWithPrimary(content: string, notes: seq<Note>)
    requires !MergeFrom(content, notes).truncated
    ensures content <= MergeFrom(content, notes).content
    decreases |notes|
  {
    if notes != [] {
      if ContentContains(content, notes[0].content) {
        StartsWithPrimary(content, notes[1..]);
      } else {
        StartsWithPrimary(content + Addition(notes[0]), notes[1..]);
      }
    }
  }

  lemma {:induction false} TrimLeftKeepsTail(a: string, t: string)
    requires t != [] && !Space(t[0])
    ensures TrimLeft(a + t) == TrimLeft(a) + t
  {
    if a == [] {
      assert a + t == t;
    } else if Space(a[0]) {
      assert (a + t)[1..] == a[1..] + t;
      TrimLeftKeepsTail(a[1..], t);
    }
  }

  /** Trimming keeps a visible tail whole. */
  lemma TrimKeepsTail(a: string, t: string)
    requires t != [] && Trimmed(t)
    ensures Trim(a + t) == TrimLeft(a) + t
  {
    TrimLeftKeepsTail(a, t);
  }

  lemma {:induction false} TrimLeftKeepsMore(c: string, x: string)
    requires TrimLeft(c) != []
    ensures TrimLeft(c + x) == TrimLeft(c) + x
  {
    if Space(c[0]) {
      assert (c + x)[1..] == c[1..] + x;
      TrimLeftKeepsMore(c[1..], x);
    }
  }

  lemma {:induction false} TrimRightGrows(l: string, x: string)
    ensures TrimRight(l) <= TrimRight(l + x)
  {
    if x == [] {
      assert l + x == l;
    } else if Space(x[|x| - 1]) {
      assert (l + x)[..|l + x| - 1] == l + x[..|x| - 1];
      TrimRightGrows(l, x[..|x| - 1]);
    }
  }

  lemma TrimGrows(c: string, x: string)
    requires Trim(c) != []
    ensures Trim(c) <= Trim(c + x)
  {
    TrimLeftKeepsMore(c, x);
    TrimRightGrows(TrimLeft(c), x);
  }

  /** Adding text after a body keeps what it contains. */
  lemma ContainsGrows(c: string, x: string, dup: string)
    requires ContentContains(c, dup)
    ensures ContentContains(c + x, dup)
  {
    var d := Lower(Trim(dup));
    if Trim(dup) != [] {
      var i: nat :| OccursAt(Lower(Trim(c)), d, i);
      TrimGrows(c, x);
      assert OccursAt(Lower(Trim(c + x)), d, i);
    }
  }

  lemma AdditionIsContained(c: string, n: Note)
    requires Trim(n.content) != []
    ensures ContentContains(c + Addition(n), n.content)
  {
    var t, all := Trim(n.content), c + Addition(n);
    var before := all[..|all| - |t|];
    assert all == before + t;
    TailIsContained(before, t);
  }

  lemma TailIsContained(before: string, t: string)
    requires t != [] && Trimmed(t)
    ensures Contains(Lower(Trim(before + t)), Lower(t))
  {
    TrimKeepsTail(before, t);
    LowerJoin(TrimLeft(before), t);
    assert OccursAt(Lower(Trim(before + t)), Lower(t), |TrimLeft(before)|);
  }

  /** Without truncation the body contains every duplicate, up to letter case. */
  lemma {:induction false} ContainsEveryDuplicate(content: string, notes: seq<Note>, k: nat)
    requires !MergeFrom(content, notes).truncated && k < |notes|
    ensures ContentContains(MergeFrom(content, notes).content, notes[k].content)
    decreases |notes|
  {
    var first := notes[0];
    var next := if ContentContains(content, first.content) then content else content + Addition(first);
    if !ContentContains(content, first.content) { AdditionIsContained(content, first); }
    if k > 0 {
      ContainsEveryDuplicate(next, notes[1..], k - 1);
    } else {
      StartsWithPrimary(next, notes[1..]);
      var result := MergeFrom(next, notes[1..]).content;
      assert result == next + result[|next|..];
      ContainsGrows(next, result[|next|..], first.content);
    }
  }

  lemma {:induction false} NothingToAdd(content: string, notes: seq<Note>)
    requires forall k :: 0 <= k < |notes| ==> ContentContains(content, notes[k].content)
    ensures MergeFrom(content, notes) == Merged(content, false)
  {
    if notes != [] { NothingToAdd(content, notes[1..]); }
  }

  lemma {:induction false} ResultTrimmed(content: string, notes: seq<Note>)
    requires Trimmed(content) && content != [] && !MergeFrom(content, notes).truncated
    ensures Trimmed(MergeFrom(content, notes).content) && MergeFrom(content, notes).content != []
    decreases |notes|
  {
    if notes != [] {
      if ContentContains(content, notes[0].content) {
        ResultTrimmed(content, notes[1..]);
      } else {
        ResultTrimmed(content + Addition(notes[0]), notes[1..]);
      }
    }
  }

  ghost predicate AllBlank(notes: seq<Note>) {
    forall k :: 0 <= k < |notes| ==> Trim(notes[k].content) == []
  }

  /** With a blank primary the first visible duplicate leaves the body starting with
      a newline. */
  lemma {:induction false} BlankPrimary(notes: seq<Note>)
    requires !MergeFrom([], notes).truncated
    ensures if AllBlank(notes) then MergeFrom([], notes).content == [] else !Trimmed(MergeFrom([], notes).content)
  {
    if notes != [] {
      if Trim(notes[0].content) == [] {
        BlankPrimary(notes[1..]);
        assert AllBlank(notes) <==> AllBlank(notes[1..]) by {
          forall k | 0 <= k < |notes| - 1 ensures notes[1..][k] == notes[k + 1] {
          }
          if AllBlank(notes[1..]) {
            forall k | 0 <= k < |notes| ensures Trim(notes[k].content) == [] {
              if k > 0 { assert Trim(notes[1..][k - 1].content) == []; }
            }
          }
        }
      } else {
        NotContainedInNothing(notes[0].content);
        var grown := [] + Addition(notes[0]);
        StartsWithPrimary(grown, notes[1..]);
        assert grown[0] == '\n';
      }
    }
  }

  lemma NotContainedInNothing(dup: string)
    requires Trim(dup) != []
    ensures !ContentContains([], dup)
  {
    assert Trim([]) == [];
    forall i: nat ensures !OccursAt(Lower([]), Lower(Trim(dup)), i) {
    }
  }

  /** Without truncation, merging the same duplicates into the result again changes
      nothing exactly when the primary had text or no duplicate had any: a body
      that began blank starts with a newline, which the next merge trims. */
  lemma MergeAgainIff(primary: string, notes: seq<Note>)
    requires !MergeOf(primary, notes).truncated
    ensures MergeOf(MergeOf(primary, notes).content, notes) == MergeOf(primary, notes) <==>
            Trim(primary) != [] || AllBlank(notes)
  {
    var result := MergeOf(primary, notes).content;
    TrimmedStays(Trim(result));
    forall k | 0 <= k < |notes| ensures ContentContains(Trim(result), notes[k].content) {
      ContainsEveryDuplicate(Trim(primary), notes, k);
    }
    NothingToAdd(Trim(result), notes);
    if Trim(primary) != [] {
      ResultTrimmed(Trim(primary), notes);
      TrimmedStays(result);
    } else {
      BlankPrimary(notes);
      if AllBlank(notes) { assert Trim([]) == []; }
    }
  }
}
