/** Chunking a document by sections (splitMarkdownWithBreadcrumbs in
    internal/rag/skeleton.go) and reading a section back from its chunks
    (ExpandSection in internal/rag/rag.go). */
module SectionExpansion {
  import opened Common
  import opened Text
  import opened Skeleton
  import opened Breadcrumb
  import opened Splitter
  import opened SplitCoverage

  datatype ChunkConfig = ChunkConfig(chunkSize: int, overlap: int, keepNoise: bool)

  /** The section's lines, each with its newline, and then trimmed. */
  function Lines(content: seq<string>): string {
    if content == [] then [] else content[0] + "\n" + Lines(content[1..])
  }

  function BodyOf(s: Section): string {
    Trim(Lines(s.content))
  }

  /** The title patterns of sections that are dropped are a given predicate. */
  predicate Noisy(path: seq<string>, noisy: string -> bool) {
    exists i :: 1 <= i < |path| && noisy(path[i])
  }

  predicate Dropped(s: Section, cfg: ChunkConfig, noisy: string -> bool) {
    BodyOf(s) == [] || (!cfg.keepNoise && Noisy(s.path, noisy))
  }

  function BudgetLeft(s: Section, cfg: ChunkConfig): int {
    cfg.chunkSize - |Format(s.path)|
  }

  predicate Labelled(s: Section, cfg: ChunkConfig) {
    BudgetLeft(s, cfg) >= 200 && Format(s.path) != []
  }

  function BudgetOf(s: Section, cfg: ChunkConfig): int {
    if BudgetLeft(s, cfg) < 200 then cfg.chunkSize else BudgetLeft(s, cfg)
  }

  /** The pieces of a section: what the splitter makes of its body. */
  ghost predicate IsCut(s: Section, cfg: ChunkConfig, noisy: string -> bool, pieces: seq<string>) {
    if Dropped(s, cfg, noisy) then pieces == []
    else CutFrom(BodyOf(s), Spans(BodyOf(s), BudgetOf(s, cfg), cfg.overlap), pieces)
  }

  function ChunkText(s: Section, cfg: ChunkConfig, piece: string): string {
    if Labelled(s, cfg) then Printed(s.path, piece) else piece
  }

  function ChunkTexts(s: Section, cfg: ChunkConfig, pieces: seq<string>): seq<string> {
    seq(|pieces|, i requires 0 <= i < |pieces| => ChunkText(s, cfg, pieces[i]))
  }

  function AllChunks(sections: seq<Section>, cfg: ChunkConfig, pieces: seq<seq<string>>): seq<string>
    requires |pieces| == |sections|
  {
    if sections == [] then []
    else
      var n := |sections| - 1;
      AllChunks(sections[..n], cfg, pieces[..n]) + ChunkTexts(sections[n], cfg, pieces[n])
  }

  ghost predicate AllCut(sections: seq<Section>, cfg: ChunkConfig, noisy: string -> bool, pieces: seq<seq<string>>) {
    |pieces| == |sections| && forall i :: 0 <= i < |sections| ==> IsCut(sections[i], cfg, noisy, pieces[i])
  }

  /** The chunks of the sections, in order: each section's pieces, labelled. */
  ghost predicate ChunksOf(sections: seq<Section>, cfg: ChunkConfig, noisy: string -> bool, chunks: seq<string>) {
    exists pieces :: AllCut(sections, cfg, noisy, pieces) && chunks == AllChunks(sections, cfg, pieces)
  }

  method SplitSections(sections: seq<Section>, cfg: ChunkConfig, noisy: string -> bool) returns (chunks: seq<string>)
    ensures ChunksOf(sections, cfg, noisy, chunks)
  {
    ghost var pieces: seq<seq<string>> := [];
    chunks := [];
    for i := 0 to |sections|
      invariant ChunkedInto(sections[..i], cfg, noisy, pieces, chunks)
    {
      var cut := CutSection(sections[i], cfg, noisy);
      var texts := LabelPieces(sections[i], cfg, cut);
      AddChunks(sections, i, cfg, noisy, pieces, chunks, cut, texts);
      chunks, pieces := chunks + texts, pieces + [cut];
    }
    assert sections[..|sections|] == sections;
    assert ChunkedInto(sections, cfg, noisy, pieces, chunks);
  }

  lemma {:induction false} AddChunks(sections: seq<Section>, i: nat, cfg: ChunkConfig, noisy: string -> bool, pieces: seq<seq<string>>,
                  chunks: seq<string>, cut: seq<string>, texts: seq<string>)
    requires i < |sections| && ChunkedInto(sections[..i], cfg, noisy, pieces, chunks)
    requires IsCut(sections[i], cfg, noisy, cut) && texts == ChunkTexts(sections[i], cfg, cut)
    ensures ChunkedInto(sections[..i + 1], cfg, noisy, pieces + [cut], chunks + texts)
  {
    assert sections[..i + 1] == sections[..i] + [sections[i]];
    AddSection(sections[..i], cfg, noisy, pieces, sections[i], cut);
  }

  ghost predicate ChunkedInto(sections: seq<Section>, cfg: ChunkConfig, noisy: string -> bool, pieces: seq<seq<string>>, chunks: seq<string>) {
    AllCut(sections, cfg, noisy, pieces) && chunks == AllChunks(sections, cfg, pieces)
  }

  lemma AddSection(sections: seq<Section>, cfg: ChunkConfig, noisy: string -> bool, pieces: seq<seq<string>>, s: Section, cut: seq<string>)
    requires AllCut(sections, cfg, noisy, pieces) && IsCut(s, cfg, noisy, cut)
    ensures AllCut(sections + [s], cfg, noisy, pieces + [cut])
    ensures AllChunks(sections + [s], cfg, pieces + [cut]) == AllChunks(sections, cfg, pieces) + ChunkTexts(s, cfg, cut)
  {
    assert (sections + [s])[..|sections|] == sections && (pieces + [cut])[..|pieces|] == pieces;
    forall i | 0 <= i < |sections| + 1 ensures IsCut((sections + [s])[i], cfg, noisy, (pieces + [cut])[i]) {
      if i < |sections| { assert IsCut(sections[i], cfg, noisy, pieces[i]); }
    }
  }

  method CutSection(s: Section, cfg: ChunkConfig, noisy: string -> bool) returns (pieces: seq<string>)
    ensures IsCut(s, cfg, noisy, pieces)
  {
    var body := BodyOf(s);
    if body == [] {
      return [];
    }
    if !cfg.keepNoise && Noisy(s.path, noisy) {
      return [];
    }
    var breadcrumb := FormatBreadcrumb(s.path);
    var budget := cfg.chunkSize - |breadcrumb|;
    if budget < 200 {
      budget := cfg.chunkSize;
    }
    pieces := SplitTextByBudget(body, budget, cfg.overlap);
  }

  method LabelPieces(s: Section, cfg: ChunkConfig, pieces: seq<string>) returns (chunks: seq<string>)
    ensures chunks == ChunkTexts(s, cfg, pieces)
  {
    var breadcrumb := FormatBreadcrumb(s.path);
    if cfg.chunkSize - |breadcrumb| < 200 {
      breadcrumb := "";
    }
    chunks := [];
    for i := 0 to |pieces|
      invariant chunks == ChunkTexts(s, cfg, pieces[..i])
    {
      assert pieces[..i + 1][..i] == pieces[..i];
      if breadcrumb == "" {
        chunks := chunks + [pieces[i]];
      } else {
        chunks := chunks + [breadcrumb + "\n\n" + pieces[i]];
      }
    }
    assert pieces[..|pieces|] == pieces;
  }

  // --------------------------------------------------------- one section's text

  /** A piece has text, and no white space at either end. */
  lemma PieceIsSegment(s: Section, cfg: ChunkConfig, noisy: string -> bool, pieces: seq<string>, i: nat)
    requires IsCut(s, cfg, noisy, pieces) && i < |pieces| && WellFormed(BodyOf(s))
    ensures Segment(pieces[i])
  {
    var body, budget := BodyOf(s), BudgetOf(s, cfg);
    var spans := Spans(body, budget, cfg.overlap);
    assert IsText(body, spans[i], pieces[i]);
    if 0 < budget < |body| {
      ChunksAreGood(body, budget, cfg.overlap);
      assert GoodSpan(body, budget, spans[i]);
    } else {
      assert pieces[i] == body;
    }
  }

  /** A chunk exceeds the chunk size by two bytes at most: the blank line between
      the breadcrumb and the piece is not accounted for. */
  lemma ChunkBound(s: Section, cfg: ChunkConfig, noisy: string -> bool, pieces: seq<string>, i: nat)
    requires IsCut(s, cfg, noisy, pieces) && i < |pieces| && WellFormed(BodyOf(s)) && cfg.chunkSize > 0
    ensures |ChunkText(s, cfg, pieces[i])| <= cfg.chunkSize + if Labelled(s, cfg) then 2 else 0
  {
    var body, budget := BodyOf(s), BudgetOf(s, cfg);
    var spans := Spans(body, budget, cfg.overlap);
    assert IsText(body, spans[i], pieces[i]);
    if budget < |body| {
      ChunksAreGood(body, budget, cfg.overlap);
      assert GoodSpan(body, budget, spans[i]);
    }
  }

  /** A labelled section that fits into one chunk makes it too long exactly when its
      text comes within two bytes of the budget. */
  lemma OversizeIff(s: Section, cfg: ChunkConfig, noisy: string -> bool, pieces: seq<string>)
    requires IsCut(s, cfg, noisy, pieces) && Labelled(s, cfg) && !Dropped(s, cfg, noisy) && |BodyOf(s)| <= BudgetOf(s, cfg)
    ensures |pieces| == 1
    ensures |ChunkText(s, cfg, pieces[0])| > cfg.chunkSize <==> |BodyOf(s)| > BudgetOf(s, cfg) - 2
  {
    assert IsText(BodyOf(s), Spans(BodyOf(s), BudgetOf(s, cfg), cfg.overlap)[0], pieces[0]);
  }

  function Letters(n: nat): (t: string)
    ensures |t| == n && forall i :: 0 <= i < n ==> t[i] == 'x'
  {
    seq(n, i => 'x')
  }

  /** Such a section: before the first heading of a document with a one-letter title,
      a line that uses up the budget. */
  lemma OversizeSection(chunkSize: nat, overlap: int, noisy: string -> bool, pieces: seq<string>)
    requires chunkSize >= 203
    requires IsCut(Section(0, "T", ["T"], [Letters(chunkSize - 3)]), ChunkConfig(chunkSize, overlap, true), noisy, pieces)
    ensures |pieces| == 1
    ensures |ChunkText(Section(0, "T", ["T"], [Letters(chunkSize - 3)]), ChunkConfig(chunkSize, overlap, true), pieces[0])| == chunkSize + 2
  {
    var s, cfg := Section(0, "T", ["T"], [Letters(chunkSize - 3)]), ChunkConfig(chunkSize, overlap, true);
    assert Format(s.path) == "[T]" by {
      TrimmedStays("T");
      assert ["T"][1..] == [];
      assert Cleaned(["T"]) == ["T"];
    }
    assert BodyOf(s) == Letters(chunkSize - 3) by {
      assert s.content[1..] == [];
      assert Lines(s.content) == s.content[0] + "\n";
      TrimPadded(s.content[0], "\n");
    }
    OversizeIff(s, cfg, noisy, pieces);
    assert IsText(BodyOf(s), Spans(BodyOf(s), BudgetOf(s, cfg), cfg.overlap)[0], pieces[0]);
  }

  // ----------------------------------------------------------------- expansion

  /** The bodies of the chunks whose breadcrumb is `key`. */
  function Expand(chunks: seq<string>, key: string): seq<string> {
    FlatMap(chunks, chunk => Matching(chunk, key))
  }

  function Matching(chunk: string, key: string): seq<string> {
    var e := Extract(chunk);
    if e.Found? && SectionKey(e.path) == key then [e.body] else []
  }

  /** `listing` is what the store returns for the document; None for a blank path
      or key. */
  method ExpandSection(docPath: string, sectionKey: string, listing: seq<string>) returns (bodies: Option<seq<string>>)
    ensures bodies == if Blank(docPath) || Blank(sectionKey) then None else Some(Expand(listing, Trim(sectionKey)))
  {
    var key := Trim(sectionKey);
    if Trim(docPath) == "" || key == "" {
      return None;
    }
    var found := [];
    for i := 0 to |listing|
      invariant found == Expand(listing[..i], key)
    {
      assert listing[..i + 1][..i] == listing[..i];
      var e := Extract(listing[i]);
      if e.NoBreadcrumb? || SectionKey(e.path) != key {
        continue;
      }
      found := found + [e.body];
    }
    assert listing[..|listing|] == listing;
    bodies := Some(found);
  }

  /** A path whose breadcrumb can be read back. */
  predicate Readable(path: seq<string>) {
    Cleaned(path) != [] && Separable(Cleaned(path)) && Bracketless(Cleaned(path))
  }

  /** Different readable breadcrumbs have different keys. */
  lemma KeyTellsPath(a: seq<string>, b: seq<string>)
    requires Readable(a) && Readable(b)
    ensures SectionKey(Cleaned(a)) == SectionKey(Cleaned(b)) <==> Cleaned(a) == Cleaned(b)
  {
    CleanedSegments(a, []);
    CleanedSegments(b, []);
    SplitJoinIff(Cleaned(a));
    SplitJoinIff(Cleaned(b));
  }

  lemma MatchOne(s: Section, cfg: ChunkConfig, piece: string, path: seq<string>)
    requires Labelled(s, cfg) && Readable(s.path) && Readable(path) && Segment(piece)
    ensures Cleaned(s.path) == Cleaned(path) ==> Matching(ChunkText(s, cfg, piece), SectionKey(Cleaned(path))) == [piece]
    ensures Cleaned(s.path) != Cleaned(path) ==> Matching(ChunkText(s, cfg, piece), SectionKey(Cleaned(path))) == []
  {
    ExtractPrintedIff(s.path, piece);
    KeyTellsPath(s.path, path);
  }

  lemma ExpandOwn(s: Section, cfg: ChunkConfig, pieces: seq<string>, path: seq<string>)
    requires Labelled(s, cfg) && Readable(s.path) && Readable(path)
    requires forall i :: 0 <= i < |pieces| ==> Segment(pieces[i])
    ensures Expand(ChunkTexts(s, cfg, pieces), SectionKey(Cleaned(path))) == if Cleaned(s.path) == Cleaned(path) then pieces else []
  {
    var chunks, key := ChunkTexts(s, cfg, pieces), SectionKey(Cleaned(path));
    forall i | 0 <= i < |chunks|
      ensures Cleaned(s.path) == Cleaned(path) ==> Matching(chunks[i], key) == [pieces[i]]
      ensures Cleaned(s.path) != Cleaned(path) ==> Matching(chunks[i], key) == []
    {
      assert Segment(pieces[i]);
      MatchOne(s, cfg, pieces[i], path);
    }
    var f := (chunk: string) => Matching(chunk, key);
    if Cleaned(s.path) == Cleaned(path) { FlatMapOnes(chunks, pieces, f); } else { FlatMapNone(chunks, f); }
  }

  /** The pieces of all sections with the same breadcrumb as `path`, in document order. */
  function PiecesOf(sections: seq<Section>, pieces: seq<seq<string>>, path: seq<string>): seq<string>
    requires |pieces| == |sections|
  {
    if sections == [] then []
    else
      var n := |sections| - 1;
      PiecesOf(sections[..n], pieces[..n], path) + if Cleaned(sections[n].path) == Cleaned(path) then pieces[n] else []
  }

  /** Expanding a section's key over the chunks in document order returns exactly the
      untouched pieces of the sections with that breadcrumb, in order. */
  lemma {:induction false} ExpansionIsExact(sections: seq<Section>, cfg: ChunkConfig, noisy: string -> bool, pieces: seq<seq<string>>,
                                            path: seq<string>)
    requires AllCut(sections, cfg, noisy, pieces) && Readable(path)
    requires forall i :: 0 <= i < |sections| ==> Expandable(sections[i], cfg)
    ensures Expand(AllChunks(sections, cfg, pieces), SectionKey(Cleaned(path))) == PiecesOf(sections, pieces, path)
  {
    if sections != [] {
      var n, key := |sections| - 1, SectionKey(Cleaned(path));
      assert AllCut(sections[..n], cfg, noisy, pieces[..n]) by {
        forall i | 0 <= i < n ensures IsCut(sections[..n][i], cfg, noisy, pieces[..n][i]) { assert IsCut(sections[i], cfg, noisy, pieces[i]); }
      }
      ExpansionIsExact(sections[..n], cfg, noisy, pieces[..n], path);
      FlatMapJoin(AllChunks(sections[..n], cfg, pieces[..n]), ChunkTexts(sections[n], cfg, pieces[n]), chunk => Matching(chunk, key));
      assert IsCut(sections[n], cfg, noisy, pieces[n]) && Expandable(sections[n], cfg);
      forall i | 0 <= i < |pieces[n]| ensures Segment(pieces[n][i]) { PieceIsSegment(sections[n], cfg, noisy, pieces[n], i); }
      ExpandOwn(sections[n], cfg, pieces[n], path);
    }
  }

  /** A section in valid UTF-8 whose breadcrumb is readable and leaves enough budget. */
  ghost predicate Expandable(s: Section, cfg: ChunkConfig) {
    Labelled(s, cfg) && Readable(s.path) && WellFormed(BodyOf(s))
  }
}
