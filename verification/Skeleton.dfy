/** The Markdown outline parser (parseMarkdownSkeleton in internal/rag/skeleton.go).
    The header pattern is a given function from a line to a level and a title. */
module Skeleton {
  import opened Common
  import opened Text

  datatype Heading = Heading(level: nat, title: string)

  /** `content` holds the section's lines; the code joins them with newlines. */
  datatype Section = Section(level: nat, title: string, path: seq<string>, content: seq<string>)

  datatype Fence = Backticks | Tildes

  function Mark(f: Fence): string {
    match f case Backticks => "```" case Tildes => "~~~"
  }

  /** The fence a line opens. */
  function Opening(trimmed: string): Option<Fence> {
    if HasPrefix(trimmed, Mark(Backticks)) then Some(Backticks)
    else if HasPrefix(trimmed, Mark(Tildes)) then Some(Tildes)
    else None
  }

  /** The fence open after a line, given the one open before it. */
  function FenceAfter(fence: Option<Fence>, line: string): Option<Fence> {
    if fence.None? then Opening(Trim(line))
    else if HasPrefix(Trim(line), Mark(fence.value)) then None
    else fence
  }

  /** A line is taken for a heading only outside fences, and a line that opens or
      closes one never is. */
  function HeadingAt(fence: Option<Fence>, line: string, header: string -> Option<Heading>): Option<Heading> {
    if fence.Some? || Opening(Trim(line)).Some? then None else header(line)
  }

  // -------------------------------------------------------------- the outline

  /** The headings of a text in order, and its body lines grouped: those before the
      first heading, then those after each. */
  datatype Outline = Outline(headings: seq<Heading>, groups: seq<seq<string>>, fence: Option<Fence>)

  function Outlined(lines: seq<string>, header: string -> Option<Heading>): (o: Outline)
    ensures |o.groups| == |o.headings| + 1
  {
    if lines == [] then Outline([], [[]], None)
    else
      var before := Outlined(lines[..|lines| - 1], header);
      var line := lines[|lines| - 1];
      var heading := HeadingAt(before.fence, line, header);
      (if heading.Some? then WithHeading(before, heading.value) else WithLine(before, line)).(fence := FenceAfter(before.fence, line))
  }

  function WithHeading(o: Outline, h: Heading): (p: Outline)
    ensures |p.groups| == |o.groups| + 1 && |p.headings| == |o.headings| + 1
  {
    o.(headings := o.headings + [h], groups := o.groups + [[]])
  }

  function WithLine(o: Outline, line: string): (p: Outline)
    requires o.groups != []
    ensures |p.groups| == |o.groups| && p.headings == o.headings
  {
    var n := |o.groups| - 1;
    o.(groups := o.groups[..n] + [o.groups[n] + [line]])
  }

  /** The nearest heading before index `k` whose level is below `level`. */
  function Nearest(hs: seq<Heading>, k: nat, level: nat): (n: Option<nat>)
    requires k <= |hs|
    ensures n.Some? ==> n.value < k && hs[n.value].level < level
    ensures forall j :: (if n.Some? then n.value else -1) < j < k ==> hs[j].level >= level
  {
    if k == 0 then None else if hs[k - 1].level < level then Some(k - 1) else Nearest(hs, k - 1, level)
  }

  /** A heading with its chain of nearest earlier headings of smaller level. */
  function Chain(hs: seq<Heading>, k: nat): (c: seq<nat>)
    requires k < |hs|
    ensures c != [] && c[|c| - 1] == k && forall i :: 0 <= i < |c| ==> c[i] <= k
  {
    var parent := Nearest(hs, k, hs[k].level);
    (if parent.Some? then Chain(hs, parent.value) else []) + [k]
  }

  function Titles(hs: seq<Heading>, chain: seq<nat>): (t: seq<string>)
    requires forall i :: 0 <= i < |chain| ==> chain[i] < |hs|
    ensures |t| == |chain|
  {
    seq(|chain|, i requires 0 <= i < |chain| => hs[chain[i]].title)
  }

  function PathOf(title: string, hs: seq<Heading>, k: nat): seq<string>
    requires k < |hs|
  {
    [title] + Titles(hs, Chain(hs, k))
  }

  lemma {:induction false} ChainClimbs(hs: seq<Heading>, k: nat)
    requires k < |hs|
    ensures forall i, j :: 0 <= i < j < |Chain(hs, k)| ==>
      Chain(hs, k)[i] < Chain(hs, k)[j] && hs[Chain(hs, k)[i]].level < hs[Chain(hs, k)[j]].level
  {
    var parent := Nearest(hs, k, hs[k].level);
    if parent.Some? {
      ChainClimbs(hs, parent.value);
    }
  }

  /** The section of group `g`, if it has any text. */
  function SectionOf(title: string, o: Outline, g: nat): Section
    requires g < |o.groups| == |o.headings| + 1
  {
    if g == 0 then Section(0, title, [title], o.groups[0])
    else Section(o.headings[g - 1].level, o.headings[g - 1].title, PathOf(title, o.headings, g - 1), o.groups[g])
  }

  predicate AllBlank(lines: seq<string>) {
    forall i :: 0 <= i < |lines| ==> Blank(lines[i])
  }

  /** The sections of the first `n` groups. */
  function Sections(title: string, o: Outline, n: nat): seq<Section>
    requires n <= |o.groups| == |o.headings| + 1
  {
    if n == 0 then []
    else Sections(title, o, n - 1) + if AllBlank(o.groups[n - 1]) then [] else [SectionOf(title, o, n - 1)]
  }

  function RootTitle(docTitle: string): string {
    if Trim(docTitle) == [] then "document" else Trim(docTitle)
  }

  // ------------------------------------------------------ chains and prefixes

  lemma {:induction false} NearestStable(hs: seq<Heading>, more: seq<Heading>, k: nat, level: nat)
    requires k <= |hs|
    ensures Nearest(hs + more, k, level) == Nearest(hs, k, level)
  {
    if k > 0 && hs[k - 1].level >= level { NearestStable(hs, more, k - 1, level); }
  }

  lemma {:induction false} ChainStable(hs: seq<Heading>, more: seq<Heading>, k: nat)
    requires k < |hs|
    ensures Chain(hs + more, k) == Chain(hs, k)
  {
    NearestStable(hs, more, k, hs[k].level);
    var parent := Nearest(hs, k, hs[k].level);
    if parent.Some? { ChainStable(hs, more, parent.value); }
  }

  lemma PathStable(title: string, hs: seq<Heading>, more: seq<Heading>, k: nat)
    requires k < |hs|
    ensures PathOf(title, hs + more, k) == PathOf(title, hs, k)
  {
    ChainStable(hs, more, k);
    assert Titles(hs + more, Chain(hs, k)) == Titles(hs, Chain(hs, k));
  }

  lemma {:induction false} NearestFrom(hs: seq<Heading>, k: nat, j: nat, level: nat)
    requires j <= k <= |hs| && forall i :: j <= i < k ==> hs[i].level >= level
    ensures Nearest(hs, k, level) == Nearest(hs, j, level)
  {
    if j < k { NearestFrom(hs, k - 1, j, level); }
  }

  function ChainOf(hs: seq<Heading>, at: Option<nat>): seq<nat>
    requires at.Some? ==> at.value < |hs|
  {
    if at.Some? then Chain(hs, at.value) else []
  }

  /** Popping a frame that is not above `level` moves to its parent, which has the
      same nearest heading below `level`. */
  lemma PopOne(hs: seq<Heading>, k: nat, level: nat)
    requires k < |hs| && hs[k].level >= level
    ensures var parent := Nearest(hs, k, hs[k].level);
      && Chain(hs, k)[..|Chain(hs, k)| - 1] == ChainOf(hs, parent)
      && Nearest(hs, k + 1, level) == if parent.Some? then Nearest(hs, parent.value + 1, level) else None
  {
    var parent := Nearest(hs, k, hs[k].level);
    NearestFrom(hs, k + 1, if parent.Some? then parent.value + 1 else 0, level);
  }

  // --------------------------------------------------------------- the parser

  predicate IsFrame(s: Section, title: string, hs: seq<Heading>, k: nat) {
    k < |hs| && s == Section(hs[k].level, hs[k].title, PathOf(title, hs, k), [])
  }

  /** The stack holds a chain of headings, each with its path. */
  ghost predicate FramesAre(stack: seq<Section>, title: string, hs: seq<Heading>, c: seq<nat>) {
    |stack| == |c| && forall i :: 0 <= i < |c| ==> IsFrame(stack[i], title, hs, c[i])
  }

  function Last(hs: seq<Heading>): Option<nat> {
    if hs == [] then None else Some(|hs| - 1)
  }

  lemma FramesDrop(stack: seq<Section>, title: string, hs: seq<Heading>, c: seq<nat>, d: seq<nat>)
    requires FramesAre(stack, title, hs, c) && c != [] && d == c[..|c| - 1]
    ensures FramesAre(stack[..|stack| - 1], title, hs, d)
  {
    forall i | 0 <= i < |d| ensures IsFrame(stack[i], title, hs, d[i]) { assert IsFrame(stack[i], title, hs, c[i]); }
  }

  lemma TopFrame(stack: seq<Section>, title: string, hs: seq<Heading>, at: Option<nat>)
    requires (at.Some? ==> at.value < |hs|) && FramesAre(stack, title, hs, ChainOf(hs, at))
    ensures stack == [] <==> at.None?
    ensures at.Some? ==> stack[|stack| - 1].level == hs[at.value].level
  {
    if at.Some? { assert IsFrame(stack[|stack| - 1], title, hs, at.value); }
  }

  /** While frames are popped: the stack is the chain of `at`, and the nearest heading
      below `level` is still to be found from there. */
  ghost predicate Popping(stack: seq<Section>, title: string, hs: seq<Heading>, at: Option<nat>, level: nat) {
    && (at.Some? ==> at.value < |hs|)
    && FramesAre(stack, title, hs, ChainOf(hs, at))
    && (stack == [] <==> at.None?)
    && (at.Some? ==> stack[|stack| - 1].level == hs[at.value].level)
    && Nearest(hs, |hs|, level) == if at.Some? then Nearest(hs, at.value + 1, level) else None
  }

  lemma StartPopping(stack: seq<Section>, title: string, hs: seq<Heading>, level: nat)
    requires FramesAre(stack, title, hs, ChainOf(hs, Last(hs)))
    ensures Popping(stack, title, hs, Last(hs), level)
  {
    TopFrame(stack, title, hs, Last(hs));
  }

  lemma PopFrame(stack: seq<Section>, title: string, hs: seq<Heading>, k: nat, level: nat)
    requires k < |hs| && Popping(stack, title, hs, Some(k), level) && hs[k].level >= level
    ensures Popping(stack[..|stack| - 1], title, hs, Nearest(hs, k, hs[k].level), level)
  {
    var parent := Nearest(hs, k, hs[k].level);
    PopOne(hs, k, level);
    FramesDrop(stack, title, hs, Chain(hs, k), ChainOf(hs, parent));
    TopFrame(stack[..|stack| - 1], title, hs, parent);
  }

  lemma DonePopping(stack: seq<Section>, title: string, hs: seq<Heading>, at: Option<nat>, level: nat)
    requires Popping(stack, title, hs, at, level) && (at.Some? ==> hs[at.value].level < level)
    ensures FramesAre(stack, title, hs, ChainOf(hs, Nearest(hs, |hs|, level)))
  {
  }

  method PopStack(stack0: seq<Section>, level: nat, ghost title: string, ghost hs: seq<Heading>) returns (stack: seq<Section>)
    requires FramesAre(stack0, title, hs, ChainOf(hs, Last(hs)))
    ensures FramesAre(stack, title, hs, ChainOf(hs, Nearest(hs, |hs|, level)))
  {
    stack := stack0;
    ghost var at := Last(hs);
    StartPopping(stack, title, hs, level);
    while |stack| > 0 && stack[|stack| - 1].level >= level
      invariant Popping(stack, title, hs, at, level)
      decreases |stack|
    {
      PopFrame(stack, title, hs, at.value, level);
      at := Nearest(hs, at.value, hs[at.value].level);
      stack := stack[..|stack| - 1];
    }
    DonePopping(stack, title, hs, at, level);
  }

  method OpenTitles(stack: seq<Section>, title: string) returns (path: seq<string>)
    ensures |path| == |stack| + 1 && path[0] == title && forall j :: 0 <= j < |stack| ==> path[j + 1] == stack[j].title
  {
    path := [title];
    for i := 0 to |stack|
      invariant |path| == i + 1 && path[0] == title
      invariant forall j :: 0 <= j < i ==> path[j + 1] == stack[j].title
    {
      path := path + [stack[i].title];
    }
  }

  /** The path is the root title, the titles of the ancestors still open, and the new title. */
  method PushHeading(stack0: seq<Section>, h: Heading, title: string, ghost hs: seq<Heading>) returns (stack: seq<Section>)
    requires FramesAre(stack0, title, hs, ChainOf(hs, Nearest(hs, |hs|, h.level)))
    ensures FramesAre(stack, title, hs + [h], ChainOf(hs + [h], Some(|hs|)))
    ensures |stack| == |stack0| + 1 && stack0 < stack && stack[|stack0|].level == h.level && stack[|stack0|].title == h.title
  {
    var open := OpenTitles(stack0, title);
    var path := open + [h.title];
    stack := stack0 + [Section(h.level, h.title, path, [])];
    FramesPush(stack0, path, title, hs, h);
  }

  lemma {:induction false} FramesPush(stack0: seq<Section>, path: seq<string>, title: string, hs: seq<Heading>, h: Heading)
    requires FramesAre(stack0, title, hs, ChainOf(hs, Nearest(hs, |hs|, h.level)))
    requires |path| == |stack0| + 2 && path[0] == title && path[|stack0| + 1] == h.title
    requires forall j :: 0 <= j < |stack0| ==> path[j + 1] == stack0[j].title
    ensures FramesAre(stack0 + [Section(h.level, h.title, path, [])], title, hs + [h], ChainOf(hs + [h], Some(|hs|)))
  {
    var c := ChainOf(hs, Nearest(hs, |hs|, h.level));
    PushedPath(stack0, path, title, hs, h);
    PushedChain(hs, h);
    FramesExtend(stack0, title, hs, h, c, Section(h.level, h.title, path, []));
  }

  lemma {:induction false} FramesExtend(stack0: seq<Section>, title: string, hs: seq<Heading>, h: Heading, c: seq<nat>, s: Section)
    requires FramesAre(stack0, title, hs, c) && IsFrame(s, title, hs + [h], |hs|)
    ensures FramesAre(stack0 + [s], title, hs + [h], c + [|hs|])
  {
    forall i | 0 <= i < |c| + 1 ensures IsFrame((stack0 + [s])[i], title, hs + [h], (c + [|hs|])[i]) {
      if i < |c| { FrameStays(stack0[i], title, hs, h, c[i]); }
    }
  }

  lemma FrameStays(s: Section, title: string, hs: seq<Heading>, h: Heading, k: nat)
    requires IsFrame(s, title, hs, k)
    ensures IsFrame(s, title, hs + [h], k)
  {
    PathStable(title, hs, [h], k);
  }

  lemma FrameTitles(stack: seq<Section>, title: string, hs: seq<Heading>, c: seq<nat>)
    requires FramesAre(stack, title, hs, c)
    ensures forall i :: 0 <= i < |c| ==> c[i] < |hs| && stack[i].title == hs[c[i]].title
  {
    forall i | 0 <= i < |c| ensures c[i] < |hs| && stack[i].title == hs[c[i]].title { assert IsFrame(stack[i], title, hs, c[i]); }
  }

  lemma PushedPath(stack0: seq<Section>, path: seq<string>, title: string, hs: seq<Heading>, h: Heading)
    requires FramesAre(stack0, title, hs, ChainOf(hs, Nearest(hs, |hs|, h.level)))
    requires |path| == |stack0| + 2 && path[0] == title && path[|stack0| + 1] == h.title
    requires forall j :: 0 <= j < |stack0| ==> path[j + 1] == stack0[j].title
    ensures path == PathOf(title, hs + [h], |hs|)
  {
    var c := ChainOf(hs, Nearest(hs, |hs|, h.level));
    PushedChain(hs, h);
    FrameTitles(stack0, title, hs, c);
    PathExtends(title, hs, h, c, path);
  }

  lemma PathExtends(title: string, hs: seq<Heading>, h: Heading, c: seq<nat>, path: seq<string>)
    requires |path| == |c| + 2 && path[0] == title && path[|c| + 1] == h.title
    requires forall i :: 0 <= i < |c| ==> c[i] < |hs| && path[i + 1] == hs[c[i]].title
    ensures path == [title] + Titles(hs + [h], c + [|hs|])
  {
    var all, d := hs + [h], c + [|hs|];
    forall i | 0 <= i < |d| ensures path[i + 1] == all[d[i]].title {
      if i < |c| { assert path[i + 1] == hs[c[i]].title; }
    }
  }

  lemma PushedChain(hs: seq<Heading>, h: Heading)
    ensures Chain(hs + [h], |hs|) == ChainOf(hs, Nearest(hs, |hs|, h.level)) + [|hs|]
  {
    var parent := Nearest(hs, |hs|, h.level);
    NearestStable(hs, [h], |hs|, h.level);
    if parent.Some? { ChainStable(hs, [h], parent.value); }
  }

  /** closeCurrent: a body of white space only leaves no section. */
  method CloseCurrent(sections0: seq<Section>, stack: seq<Section>, body: seq<string>, title: string, ghost o: Outline)
    returns (sections: seq<Section>)
    requires |o.groups| == |o.headings| + 1 && body == o.groups[|o.headings|]
    requires FramesAre(stack, title, o.headings, ChainOf(o.headings, Last(o.headings)))
    requires sections0 == Sections(title, o, |o.headings|)
    ensures sections == Sections(title, o, |o.groups|)
  {
    sections := sections0;
    SectionsClose(stack, body, title, o);
    var blank := IsBlank(body);
    if blank {
      return;
    }
    if |stack| == 0 {
      sections := sections + [Section(0, title, [title], body)];
    } else {
      sections := sections + [stack[|stack| - 1].(content := body)];
    }
  }

  lemma SectionsClose(stack: seq<Section>, body: seq<string>, title: string, o: Outline)
    requires |o.groups| == |o.headings| + 1 && body == o.groups[|o.headings|]
    requires FramesAre(stack, title, o.headings, ChainOf(o.headings, Last(o.headings)))
    ensures Sections(title, o, |o.groups|) ==
            if AllBlank(body) then Sections(title, o, |o.headings|)
            else Sections(title, o, |o.headings|) + [if stack == [] then Section(0, title, [title], body) else stack[|stack| - 1].(content := body)]
  {
    if o.headings != [] { assert IsFrame(stack[|stack| - 1], title, o.headings, |o.headings| - 1); }
  }

  method IsBlank(body: seq<string>) returns (blank: bool)
    ensures blank == AllBlank(body)
  {
    for i := 0 to |body|
      invariant forall j :: 0 <= j < i ==> Blank(body[j])
    {
      if !Blank(body[i]) {
        return false;
      }
    }
    return true;
  }

  lemma {:induction false} SectionsStable(title: string, o: Outline, p: Outline, more: seq<Heading>, n: nat)
    requires n <= |o.groups| == |o.headings| + 1 && p.headings == o.headings + more && |p.groups| == |p.headings| + 1
    requires forall i :: 0 <= i < n ==> p.groups[i] == o.groups[i]
    ensures Sections(title, p, n) == Sections(title, o, n)
  {
    if n > 0 {
      SectionsStable(title, o, p, more, n - 1);
      SectionStable(title, o, p, more, n - 1);
    }
  }

  lemma SectionStable(title: string, o: Outline, p: Outline, more: seq<Heading>, g: nat)
    requires g < |o.groups| == |o.headings| + 1 && p.headings == o.headings + more && |p.groups| == |p.headings| + 1
    requires p.groups[g] == o.groups[g]
    ensures SectionOf(title, p, g) == SectionOf(title, o, g)
  {
    if g > 0 { PathStable(title, o.headings, more, g - 1); }
  }

  /** The parser's variables after the lines outlined by `o`. */
  ghost predicate At(title: string, o: Outline, sections: seq<Section>, stack: seq<Section>, body: seq<string>) {
    && |o.groups| == |o.headings| + 1 && body == o.groups[|o.headings|]
    && sections == Sections(title, o, |o.headings|)
    && FramesAre(stack, title, o.headings, ChainOf(o.headings, Last(o.headings)))
  }

  method TakeHeading(sections0: seq<Section>, stack0: seq<Section>, body: seq<string>, title: string, h: Heading, ghost o: Outline)
    returns (sections: seq<Section>, stack: seq<Section>)
    requires At(title, o, sections0, stack0, body)
    ensures At(title, WithHeading(o, h), sections, stack, [])
  {
    sections := CloseCurrent(sections0, stack0, body, title, o);
    stack := PopStack(stack0, h.level, title, o.headings);
    stack := PushHeading(stack, h, title, o.headings);
    AtHeading(title, o, h, sections, stack);
  }

  lemma AtHeading(title: string, o: Outline, h: Heading, sections: seq<Section>, stack: seq<Section>)
    requires |o.groups| == |o.headings| + 1 && sections == Sections(title, o, |o.groups|)
    requires FramesAre(stack, title, o.headings + [h], ChainOf(o.headings + [h], Some(|o.headings|)))
    ensures At(title, WithHeading(o, h), sections, stack, [])
  {
    SectionsStable(title, o, WithHeading(o, h), [h], |o.groups|);
  }

  lemma TakeLine(title: string, o: Outline, sections: seq<Section>, stack: seq<Section>, body: seq<string>, line: string)
    requires At(title, o, sections, stack, body)
    ensures At(title, WithLine(o, line), sections, stack, body + [line])
  {
    assert o.headings == o.headings + [];
    SectionsStable(title, o, WithLine(o, line), [], |o.headings|);
  }

  lemma {:induction false} FenceFree(title: string, o: Outline, fence: Option<Fence>, n: nat)
    requires n <= |o.groups| == |o.headings| + 1
    ensures Sections(title, o.(fence := fence), n) == Sections(title, o, n)
  {
    if n > 0 { FenceFree(title, o, fence, n - 1); }
  }

  method ParseMarkdownSkeleton(lines: seq<string>, docTitle: string, header: string -> Option<Heading>) returns (sections: seq<Section>)
    ensures var o := Outlined(lines, header); sections == Sections(RootTitle(docTitle), o, |o.groups|)
  {
    var title := RootTitle(docTitle);
    var stack: seq<Section>, body: seq<string>, fence: Option<Fence> := [], [], None;
    sections := [];
    ghost var o := Outlined([], header);
    for i := 0 to |lines|
      invariant o == Outlined(lines[..i], header) && fence == o.fence
      invariant At(title, o, sections, stack, body)
    {
      assert lines[..i + 1][..i] == lines[..i];
      var heading := HeadingAt(fence, lines[i], header);
      fence := FenceAfter(fence, lines[i]);
      ghost var p: Outline;
      if heading.Some? {
        sections, stack := TakeHeading(sections, stack, body, title, heading.value, o);
        body, p := [], WithHeading(o, heading.value);
      } else {
        TakeLine(title, o, sections, stack, body, lines[i]);
        body, p := body + [lines[i]], WithLine(o, lines[i]);
      }
      FenceFree(title, p, fence, |p.headings|);
      o := p.(fence := fence);
    }
    assert lines[..|lines|] == lines;
    sections := CloseCurrent(sections, stack, body, title, o);
  }

  // ------------------------------------------------------ what a reader gets

  /** The stack's levels always strictly increase. */
  lemma StackClimbs(stack: seq<Section>, title: string, hs: seq<Heading>)
    requires FramesAre(stack, title, hs, ChainOf(hs, Last(hs)))
    ensures forall i, j :: 0 <= i < j < |stack| ==> stack[i].level < stack[j].level
  {
    if hs != [] {
      var c := Chain(hs, |hs| - 1);
      ChainClimbs(hs, |hs| - 1);
      forall i | 0 <= i < |stack| ensures c[i] < |hs| && stack[i].level == hs[c[i]].level { assert IsFrame(stack[i], title, hs, c[i]); }
    }
  }

  /** `p` is the nearest heading before `k` with a smaller level. */
  ghost predicate IsParent(hs: seq<Heading>, p: nat, k: nat) {
    p < k < |hs| && hs[p].level < hs[k].level && forall j :: p < j < k ==> hs[j].level >= hs[k].level
  }

  /** A chain links each heading to the nearest earlier one of smaller level, and
      starts at a heading that has none. */
  lemma {:induction false} ChainIsNearest(hs: seq<Heading>, k: nat)
    requires k < |hs|
    ensures var c := Chain(hs, k);
      && (forall i :: 0 <= i < |c| - 1 ==> IsParent(hs, c[i], c[i + 1]))
      && (forall j :: 0 <= j < c[0] ==> hs[j].level >= hs[c[0]].level)
  {
    var parent := Nearest(hs, k, hs[k].level);
    if parent.Some? {
      ChainIsNearest(hs, parent.value);
      var c, d := Chain(hs, k), Chain(hs, parent.value);
      assert c == d + [k];
      forall i | 0 <= i < |c| - 1 ensures IsParent(hs, c[i], c[i + 1]) {
        if i < |d| - 1 { assert IsParent(hs, d[i], d[i + 1]); }
      }
    }
  }

  /** The lines that are not headings, in order. */
  function BodyLines(lines: seq<string>, header: string -> Option<Heading>): seq<string> {
    if lines == [] then []
    else
      var line := lines[|lines| - 1];
      BodyLines(lines[..|lines| - 1], header)
        + if HeadingAt(Outlined(lines[..|lines| - 1], header).fence, line, header).Some? then [] else [line]
  }

  function Visible(lines: seq<string>): seq<string> {
    if lines == [] then [] else Visible(lines[..|lines| - 1]) + if Blank(lines[|lines| - 1]) then [] else [lines[|lines| - 1]]
  }

  function Flat(groups: seq<seq<string>>): seq<string> {
    if groups == [] then [] else Flat(groups[..|groups| - 1]) + groups[|groups| - 1]
  }

  function Contents(sections: seq<Section>): seq<seq<string>> {
    seq(|sections|, i requires 0 <= i < |sections| => sections[i].content)
  }

  lemma {:induction false} VisibleJoin(a: seq<string>, b: seq<string>)
    ensures Visible(a + b) == Visible(a) + Visible(b)
  {
    if b == [] {
      assert a + b == a;
    } else {
      VisibleJoin(a, b[..|b| - 1]);
      assert (a + b)[..|a + b| - 1] == a + b[..|b| - 1];
    }
  }

  lemma {:induction false} NothingVisible(lines: seq<string>)
    requires AllBlank(lines)
    ensures Visible(lines) == []
  {
    if lines != [] { NothingVisible(lines[..|lines| - 1]); }
  }

  lemma FlatMore(groups: seq<seq<string>>, g: seq<string>)
    ensures Flat(groups + [g]) == Flat(groups) + g
  {
    assert (groups + [g])[..|groups|] == groups;
  }

  lemma {:induction false} GroupsHoldTheBody(lines: seq<string>, header: string -> Option<Heading>)
    ensures Flat(Outlined(lines, header).groups) == BodyLines(lines, header)
  {
    if lines == [] {
      FlatMore([], []);
      assert [] + [[]] == Outlined(lines, header).groups;
    } else {
      var rest, line := lines[..|lines| - 1], lines[|lines| - 1];
      var o := Outlined(rest, header);
      GroupsHoldTheBody(rest, header);
      FlatMore(o.groups, []);
      FlatLast(o.groups, line);
    }
  }

  lemma FlatLast(groups: seq<seq<string>>, line: string)
    requires groups != []
    ensures var n := |groups| - 1; Flat(groups[..n] + [groups[n] + [line]]) == Flat(groups) + [line]
  {
    var n := |groups| - 1;
    FlatMore(groups[..n], groups[n] + [line]);
    Regrouped(Flat(groups[..n]), groups[n], [line]);
  }

  lemma OneMoreGroup(before: seq<Section>, done: seq<seq<string>>, g: seq<string>, more: seq<Section>)
    requires Visible(Flat(Contents(before))) == Visible(Flat(done))
    requires if AllBlank(g) then more == [] else |more| == 1 && more[0].content == g
    ensures Visible(Flat(Contents(before + more))) == Visible(Flat(done + [g]))
  {
    FlatMore(done, g);
    VisibleJoin(Flat(done), g);
    if AllBlank(g) {
      NothingVisible(g);
      assert before + more == before;
    } else {
      assert Contents(before + more) == Contents(before) + [g];
      FlatMore(Contents(before), g);
      VisibleJoin(Flat(Contents(before)), g);
    }
  }

  lemma {:induction false} SectionsHoldTheGroups(title: string, o: Outline, n: nat)
    requires n <= |o.groups| == |o.headings| + 1
    ensures Visible(Flat(Contents(Sections(title, o, n)))) == Visible(Flat(o.groups[..n]))
  {
    if n > 0 {
      SectionsHoldTheGroups(title, o, n - 1);
      var g := o.groups[n - 1];
      assert o.groups[..n] == o.groups[..n - 1] + [g];
      OneMoreGroup(Sections(title, o, n - 1), o.groups[..n - 1], g, if AllBlank(g) then [] else [SectionOf(title, o, n - 1)]);
    }
  }

  /** The sections' contents, read one after the other, are the text's non-blank
      body lines, fenced ones included: none lost, repeated or reordered. */
  lemma SectionsHoldTheBody(lines: seq<string>, docTitle: string, header: string -> Option<Heading>)
    ensures var o := Outlined(lines, header);
      Visible(Flat(Contents(Sections(RootTitle(docTitle), o, |o.groups|)))) == Visible(BodyLines(lines, header))
  {
    var o := Outlined(lines, header);
    SectionsHoldTheGroups(RootTitle(docTitle), o, |o.groups|);
    GroupsHoldTheBody(lines, header);
    assert o.groups[..|o.groups|] == o.groups;
  }
}
