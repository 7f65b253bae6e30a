/** Documents on disk and the change calculation of incremental indexing
    (collectDocuments in internal/rag/documents.go, calculateIndexChanges in
    internal/rag/indexer.go). */
module IndexChanges {
  import opened VectorIndex


  // ------------------------------------------------------------- documents

  datatype File = File(hash: string, modTime: int)
  datatype Piece = Piece(content: string, title: string)

  /** The files on disk, and the fixed chunker: what a path's text, known by its
      collision-free hash, is cut into. */
  datatype Corpus = Corpus(files: map<Path, File>, chunking: (Path, string) -> seq<Piece>)
  {
    function Pieces(p: Path): seq<Piece>
      requires p in files
    {
      chunking(p, files[p].hash)
    }

    predicate Has(id: ChunkId) {
      id.path in files && id.index < |Pieces(id.path)|
    }

    function At(id: ChunkId): Document
      requires Has(id)
    {
      var piece := Pieces(id.path)[id.index];
      Document(id, piece.content, piece.title, files[id.path].modTime, files[id.path].hash)
    }

    /** What a completed run records about a file. */
    function Info(p: Path): FileInfo
      requires p in files && |Pieces(p)| > 0
    {
      FileInfo(files[p].hash, files[p].modTime, |Pieces(p)[0].content|, |Pieces(p)|)
    }

    function Restrict(paths: set<Path>): Corpus {
      this.(files := map p | p in files && p in paths :: files[p])
    }
  }

  datatype Document = Document(id: ChunkId, content: string, title: string, lastModified: int, fileHash: string)

  ghost predicate Distinct(docs: seq<Document>) {
    forall i, j :: 0 <= i < j < |docs| ==> docs[i].id != docs[j].id
  }

  /** Nothing of a file comes before its first piece. */
  ghost predicate HeadFirst(docs: seq<Document>) {
    forall i, j :: 0 <= i < j < |docs| && docs[j].id.index == 0 ==> docs[i].id.path != docs[j].id.path
  }

  /** `docs` is what collecting the corpus yields: every piece of every file
      once, in whatever order the files were visited. */
  ghost predicate Collected(docs: seq<Document>, c: Corpus) {
    && (forall p :: p in c.files ==> |c.Pieces(p)| > 0)
    && (forall d :: d in docs ==> c.Has(d.id) && d == c.At(d.id))
    && (forall id :: c.Has(id) ==> c.At(id) in docs)
    && Distinct(docs)
    && HeadFirst(docs)
  }

  // ----------------------------------------------------- change calculation

  function OfPath(docs: seq<Document>, p: Path): (r: seq<Document>)
  {
    if docs == [] then []
    else
      var rest := OfPath(docs[..|docs| - 1], p);
      if docs[|docs| - 1].id.path == p then rest + [docs[|docs| - 1]] else rest
  }

  lemma {:induction false} OfPathMembers(docs: seq<Document>, p: Path)
    ensures forall d :: d in OfPath(docs, p) <==> d in docs && d.id.path == p
  {
    if docs != [] {
      OfPathMembers(docs[..|docs| - 1], p);
      assert docs == docs[..|docs| - 1] + [docs[|docs| - 1]];
    }
  }

  lemma {:induction false} OfPathDistinct(docs: seq<Document>, p: Path)
    requires Distinct(docs)
    ensures Distinct(OfPath(docs, p))
  {
    if docs != [] {
      var n := |docs| - 1;
      OfPathDistinct(docs[..n], p);
      OfPathMembers(docs[..n], p);
      forall d | d in docs[..n] ensures d.id != docs[n].id {
        var i :| 0 <= i < n && docs[i] == d;
      }
    }
  }

  lemma {:induction false} OfPathHead(docs: seq<Document>, p: Path)
    requires HeadFirst(docs)
    ensures HeadFirst(OfPath(docs, p))
  {
    if docs != [] {
      var n := |docs| - 1;
      OfPathHead(docs[..n], p);
      OfPathMembers(docs[..n], p);
      forall d | d in docs[..n] && docs[n].id.index == 0 ensures d.id.path != docs[n].id.path {
        var i :| 0 <= i < n && docs[i] == d;
      }
    }
  }

  /** Whether an incremental run re-indexes a file. */
  predicate Changed(c: Corpus, tracked: Files, p: Path)
    requires p in c.files
  {
    p !in tracked || tracked[p].hash != c.files[p].hash || tracked[p].modTime < c.files[p].modTime
  }

  function AddPaths(c: Corpus, tracked: Files, rebuild: bool): set<Path> {
    set p | p in c.files && (rebuild || Changed(c, tracked, p))
  }

  function RemovePaths(c: Corpus, tracked: Files, rebuild: bool): set<Path> {
    set p | p in tracked && (rebuild || p !in c.files)
  }

  method GroupByPath(docs: seq<Document>) returns (byPath: map<Path, seq<Document>>)
    ensures forall p :: p in byPath <==> OfPath(docs, p) != []
    ensures forall p :: p in byPath ==> byPath[p] == OfPath(docs, p)
  {
    byPath := map[];
    for i := 0 to |docs|
      invariant forall p :: p in byPath <==> OfPath(docs[..i], p) != []
      invariant forall p :: p in byPath ==> byPath[p] == OfPath(docs[..i], p)
    {
      assert docs[..i + 1][..i] == docs[..i];
      var p := docs[i].id.path;
      byPath := byPath[p := (if p in byPath then byPath[p] else []) + [docs[i]]];
    }
    assert docs[..|docs|] == docs;
  }

  /** The files of `done` that an incremental run re-indexes. */
  ghost function Chosen(c: Corpus, tracked: Files, done: set<Path>): set<Path> {
    set p | p in done && p in c.files && Changed(c, tracked, p)
  }

  method CalculateIndexChanges(docs: seq<Document>, tracked: Files, rebuild: bool, ghost c: Corpus)
    returns (toAdd: seq<Document>, toRemove: set<Path>)
    requires Collected(docs, c)
    ensures Collected(toAdd, c.Restrict(AddPaths(c, tracked, rebuild)))
    ensures toRemove == RemovePaths(c, tracked, rebuild)
  {
    if rebuild {
      assert c.Restrict(AddPaths(c, tracked, rebuild)) == c;
      return docs, tracked.Keys;
    }
    var byPath := GroupByPath(docs);
    GroupsAreFiles(docs, c, byPath);
    toRemove := set p | p in tracked && p !in byPath;
    toAdd := AddChanged(docs, tracked, byPath, c);
    assert Chosen(c, tracked, byPath.Keys) == AddPaths(c, tracked, rebuild);
  }

  method AddChanged(ghost docs: seq<Document>, tracked: Files, byPath: map<Path, seq<Document>>, ghost c: Corpus)
    returns (toAdd: seq<Document>)
    requires Collected(docs, c) && byPath.Keys == c.files.Keys
    requires forall p :: p in byPath ==> byPath[p] == OfPath(docs, p)
    ensures Collected(toAdd, c.Restrict(Chosen(c, tracked, byPath.Keys)))
  {
    toAdd := [];
    var todo := byPath.Keys;
    ghost var done: set<Path> := {};
    NothingChosen(c, tracked);
    while todo != {}
      invariant todo !! done && todo + done == byPath.Keys
      invariant Collected(toAdd, c.Restrict(Chosen(c, tracked, done)))
    {
      var p :| p in todo;
      toAdd := ConsiderFile(docs, tracked, c, done, toAdd, p, byPath[p]);
      todo, done := todo - {p}, done + {p};
    }
    assert done == byPath.Keys;
  }

  method ConsiderFile(ghost docs: seq<Document>, tracked: Files, ghost c: Corpus, ghost done: set<Path>,
                      toAdd0: seq<Document>, p: Path, group: seq<Document>)
    returns (toAdd: seq<Document>)
    requires Collected(docs, c) && p in c.files && p !in done && group == OfPath(docs, p)
    requires Collected(toAdd0, c.Restrict(Chosen(c, tracked, done)))
    ensures Collected(toAdd, c.Restrict(Chosen(c, tracked, done + {p})))
  {
    FirstOfFile(docs, c, p);
    toAdd := toAdd0;
    if p !in tracked || tracked[p].hash != group[0].fileHash || tracked[p].modTime < group[0].lastModified {
      AppendFile(docs, c, toAdd, Chosen(c, tracked, done), p);
      toAdd := toAdd + group;
      assert Chosen(c, tracked, done + {p}) == Chosen(c, tracked, done) + {p};
    } else {
      assert Chosen(c, tracked, done + {p}) == Chosen(c, tracked, done);
    }
  }

  lemma NothingChosen(c: Corpus, tracked: Files)
    ensures Collected([], c.Restrict(Chosen(c, tracked, {})))
  {
    assert c.Restrict(Chosen(c, tracked, {})).files == map[];
  }

  lemma FirstOfFile(docs: seq<Document>, c: Corpus, p: Path)
    requires Collected(docs, c) && p in c.files
    ensures OfPath(docs, p) != []
    ensures OfPath(docs, p)[0] == c.At(ChunkId(p, 0))
  {
    OfPathMembers(docs, p);
    OfPathHead(docs, p);
    assert c.Has(ChunkId(p, 0));
    var group := OfPath(docs, p);
    assert c.At(ChunkId(p, 0)) in group;
    var j :| 0 <= j < |group| && group[j] == c.At(ChunkId(p, 0));
    assert group[0] in group;
  }

  lemma GroupsAreFiles(docs: seq<Document>, c: Corpus, byPath: map<Path, seq<Document>>)
    requires Collected(docs, c)
    requires forall p :: p in byPath <==> OfPath(docs, p) != []
    ensures byPath.Keys == c.files.Keys
  {
    forall p ensures p in byPath <==> p in c.files {
      if p in c.files { FirstOfFile(docs, c, p); }
      if p in byPath {
        OfPathMembers(docs, p);
        assert OfPath(docs, p)[0] in OfPath(docs, p);
      }
    }
  }

  lemma AppendFile(docs: seq<Document>, c: Corpus, toAdd: seq<Document>, added: set<Path>, p: Path)
    requires Collected(docs, c) && p in c.files && p !in added
    requires Collected(toAdd, c.Restrict(added))
    ensures Collected(toAdd + OfPath(docs, p), c.Restrict(added + {p}))
  {
    OfPathMembers(docs, p);
    FirstOfFile(docs, c, p);
    AppendedMembers(docs, c, toAdd, added, p);
    OfPathDistinct(docs, p);
    OfPathHead(docs, p);
    AppendedDistinct(toAdd, OfPath(docs, p), p);
    AppendedHead(toAdd, OfPath(docs, p), p);
  }

  lemma AppendedMembers(docs: seq<Document>, c: Corpus, toAdd: seq<Document>, added: set<Path>, p: Path)
    requires Collected(docs, c) && p in c.files
    requires Collected(toAdd, c.Restrict(added))
    requires forall d :: d in OfPath(docs, p) <==> d in docs && d.id.path == p
    ensures var bigger := c.Restrict(added + {p});
            && (forall id :: bigger.Has(id) ==> bigger.At(id) in toAdd + OfPath(docs, p))
            && (forall d :: d in toAdd + OfPath(docs, p) ==> bigger.Has(d.id) && d == bigger.At(d.id))
  {
    var group, bigger := OfPath(docs, p), c.Restrict(added + {p});
    forall id | bigger.Has(id) ensures bigger.At(id) in toAdd + group {
      if id.path == p {
        assert c.Has(id) && c.At(id) in group;
      } else {
        assert c.Restrict(added).Has(id) && c.Restrict(added).At(id) in toAdd;
      }
    }
    forall d | d in toAdd + group ensures bigger.Has(d.id) && d == bigger.At(d.id) {
      assert d in toAdd || d in group;
    }
  }

  lemma AppendedDistinct(toAdd: seq<Document>, group: seq<Document>, p: Path)
    requires Distinct(toAdd) && Distinct(group)
    requires forall d :: d in toAdd ==> d.id.path != p
    requires forall d :: d in group ==> d.id.path == p
    ensures Distinct(toAdd + group)
  {
    var more := toAdd + group;
    forall i, j | 0 <= i < j < |more| ensures more[i].id != more[j].id {
      if i < |toAdd| <= j {
        assert more[i] in toAdd && more[j] in group;
      }
    }
  }

  lemma AppendedHead(toAdd: seq<Document>, group: seq<Document>, p: Path)
    requires HeadFirst(toAdd) && HeadFirst(group)
    requires forall d :: d in toAdd ==> d.id.path != p
    requires forall d :: d in group ==> d.id.path == p
    ensures HeadFirst(toAdd + group)
  {
    var more := toAdd + group;
    forall i, j | 0 <= i < j < |more| && more[j].id.index == 0 ensures more[i].id.path != more[j].id.path {
      if i < |toAdd| <= j {
        assert more[i] in toAdd && more[j] in group;
      }
    }
  }
}
