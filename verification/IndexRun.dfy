/** One indexing run: IndexDocuments of internal/rag/indexer.go.

    `RunMayEnd` describes what any run may leave behind, whichever store calls
    fail and wherever the process is cut off; the method is proved to stay
    within it. What follows from it over whole histories is in IndexHistory. */
module IndexRun {
  import opened Common
  import opened VectorIndex
  import opened IndexChanges
  import opened IndexBatches

  const CHUNKER := "skeleton-v1"

  // ------------------------------------------------------- the batch loop

  ghost predicate StoredAs(chunks: Chunks, d: Document, reuse: map<string, string>, model: string) {
    d.id in chunks && chunks[d.id] == ChunkOf(d, VectorOf(d, reuse, model))
  }

  /** After some documents: those of files without a failure are stored, and no
      chunk of a file outside `area` has been touched. */
  ghost predicate Progress(done: seq<Document>, base: Chunks, chunks: Chunks, failed: set<Path>, area: set<Path>,
                           reuse: map<string, string>, model: string)
  {
    && (forall d :: d in done && d.id.path !in failed ==> StoredAs(chunks, d, reuse, model))
    && (forall id: ChunkId :: id.path !in area ==> SameAt(base, chunks, id))
  }

  /** Until a model has answered, every stored document kept its old vector. */
  ghost predicate ModelKnown(done: seq<Document>, failed: set<Path>, reuse: map<string, string>, model: string) {
    model == "" ==> forall d :: d in done && d.id.path !in failed ==> d.content in reuse
  }

  lemma BatchProgress(toAdd: seq<Document>, k: nat, n: nat, r: BatchResult, base: Chunks, before: Chunks, after: Chunks,
                      failed: set<Path>, more: set<Path>, area: set<Path>, reuse: map<string, string>,
                      model: string, next: string)
    requires Distinct(toAdd) && BatchOf(toAdd, k, n, r, more) && failed <= more
    requires Progress(toAdd[..k], base, before, failed, area, reuse, model)
    requires Written(before, after, toAdd[k..n], r, reuse)
    requires PathsIn(toAdd) <= area
    requires next == (if r.modelId == "" then model else r.modelId)
    requires model == next || (model == "" && ModelKnown(toAdd[..k], failed, reuse, model))
    requires r.modelId == next || Reused(toAdd[k..n], r, reuse)
    ensures Progress(toAdd[..n], base, after, more, area, reuse, next)
  {
    assert toAdd[..n] == toAdd[..k] + toAdd[k..n];
    forall d | d in toAdd[..n] && d.id.path !in more ensures StoredAs(after, d, reuse, next) {
      if d in toAdd[..k] {
        EarlierNotWritten(toAdd, k, n, r, d);
        assert StoredAs(before, d, reuse, model);
      } else {
        assert d.id in r.failed ==> d.id.path in PathsOf(r.failed);
        assert d.id in r.success;
      }
    }
    forall id | id in r.success ensures id.path in area {
      var d :| d in toAdd[k..n] && d.id == id;
      assert d in toAdd;
    }
  }

  lemma EarlierNotWritten(toAdd: seq<Document>, k: nat, n: nat, r: BatchResult, d: Document)
    requires Distinct(toAdd) && k <= n <= |toAdd| && Partitioned(toAdd[k..n], r) && d in toAdd[..k]
    ensures d.id !in r.success
  {
    var i :| 0 <= i < k && toAdd[i] == d;
    forall e | e in toAdd[k..n] ensures e.id != d.id {
      var j :| 0 <= j < n - k && toAdd[k..n][j] == e;
      assert toAdd[k + j] == e;
    }
  }

  method CountChunks(toAdd: seq<Document>, ghost c: Corpus) returns (counts: map<Path, nat>, byId: map<ChunkId, Document>)
    requires Collected(toAdd, c)
    ensures Counted(counts, c) && ById(toAdd, byId)
  {
    counts, byId := map[], map[];
    for i := 0 to |toAdd|
      invariant forall p :: (if p in counts then counts[p] else 0) == |OfPath(toAdd[..i], p)|
      invariant ById(toAdd[..i], byId)
    {
      assert toAdd[..i + 1] == toAdd[..i] + [toAdd[i]];
      assert toAdd[..i + 1][..i] == toAdd[..i];
      var p := toAdd[i].id.path;
      counts := counts[p := (if p in counts then counts[p] else 0) + 1];
      IdKept(toAdd, i, byId);
      byId := byId[toAdd[i].id := toAdd[i]];
    }
    assert toAdd[..|toAdd|] == toAdd;
    forall p | p in c.files ensures p in counts && counts[p] == |c.Pieces(p)| {
      PiecesCounted(toAdd, c, p);
    }
  }

  lemma IdKept(docs: seq<Document>, n: nat, byId: map<ChunkId, Document>)
    requires n < |docs| && Distinct(docs) && ById(docs[..n], byId)
    ensures ById(docs[..n + 1], byId[docs[n].id := docs[n]])
  {
    NewId(docs, n);
    assert docs[..n + 1] == docs[..n] + [docs[n]];
  }

  lemma PiecesCounted(toAdd: seq<Document>, c: Corpus, p: Path)
    requires Collected(toAdd, c) && p in c.files
    ensures |OfPath(toAdd, p)| == |c.Pieces(p)| > 0
  {
    OfPathMembers(toAdd, p);
    OfPathDistinct(toAdd, p);
    var group, n := OfPath(toAdd, p), |c.Pieces(p)|;
    DistinctIds(group);
    IdsBelow(p, n);
    forall id ensures id in Ids(group) <==> id.path == p && id.index < n {
      if id.path == p && id.index < n {
        assert c.Has(id) && c.At(id) in group;
      }
    }
    assert Ids(group) == Below(p, n);
  }

  function Ids(docs: seq<Document>): set<ChunkId> {
    set d | d in docs :: d.id
  }

  function Below(p: Path, n: nat): set<ChunkId> {
    set i | 0 <= i < n :: ChunkId(p, i)
  }

  lemma {:induction false} DistinctIds(docs: seq<Document>)
    requires Distinct(docs)
    ensures |Ids(docs)| == |docs|
  {
    if docs != [] {
      var n := |docs| - 1;
      DistinctIds(docs[..n]);
      NewId(docs, n);
      assert docs == docs[..n] + [docs[n]];
      assert Ids(docs) == Ids(docs[..n]) + {docs[n].id};
    }
  }

  lemma {:induction false} IdsBelow(p: Path, n: nat)
    ensures |Below(p, n)| == n
  {
    if n > 0 {
      IdsBelow(p, n - 1);
      assert Below(p, n) == Below(p, n - 1) + {ChunkId(p, n - 1)};
    }
  }

  datatype BatchLoop = BatchLoop(failed: set<Path>, upserts: Files, model: string)

  /** The batch loop of step "add": batches of fifty, in order. */
  method EmbedAll(store: VectorStore, toAdd: seq<Document>, reuse: map<string, string>, keywordOnly: bool, ghost c: Corpus)
    returns (status: Status, out: BatchLoop)
    requires Collected(toAdd, c) && (keywordOnly ==> reuse == map[])
    modifies store
    ensures store.files == old(store.files) && store.meta == old(store.meta)
    ensures status.Ok? ==> Tracked(PathsIn(toAdd), c, out.failed, out.upserts)
    ensures status.Ok? ==> Progress(toAdd, old(store.chunks), store.chunks, out.failed, PathsIn(toAdd), reuse, out.model)
    ensures status.Ok? && !keywordOnly ==> ModelKnown(toAdd, out.failed, reuse, out.model)
    ensures status.Ok? && keywordOnly ==> out.model == ""
  {
    var counts, byId := CountChunks(toAdd, c);
    out := BatchLoop({}, map[], "");
    var start := 0;
    while start < |toAdd|
      invariant start <= |toAdd|
      invariant store.files == old(store.files) && store.meta == old(store.meta)
      invariant Tracked(PathsIn(toAdd[..start]), c, out.failed, out.upserts)
      invariant Progress(toAdd[..start], old(store.chunks), store.chunks, out.failed, PathsIn(toAdd), reuse, out.model)
      invariant !keywordOnly ==> ModelKnown(toAdd[..start], out.failed, reuse, out.model)
      invariant keywordOnly ==> out.model == ""
    {
      var end := if start + BATCH_SIZE > |toAdd| then |toAdd| else start + BATCH_SIZE;
      status, out := RunBatch(store, toAdd, start, end, reuse, keywordOnly, counts, byId, out, old(store.chunks), c);
      if !status.Ok? {
        return;
      }
      start := end;
    }
    status := Ok;
    assert toAdd[..|toAdd|] == toAdd;
  }

  method RunBatch(store: VectorStore, toAdd: seq<Document>, start: nat, end: nat, reuse: map<string, string>, keywordOnly: bool,
                  counts: map<Path, nat>, byId: map<ChunkId, Document>, before: BatchLoop, ghost base: Chunks, ghost c: Corpus)
    returns (status: Status, out: BatchLoop)
    requires Collected(toAdd, c) && (keywordOnly ==> reuse == map[]) && start <= end <= |toAdd|
    requires Counted(counts, c) && ById(toAdd, byId)
    requires Tracked(PathsIn(toAdd[..start]), c, before.failed, before.upserts)
    requires Progress(toAdd[..start], base, store.chunks, before.failed, PathsIn(toAdd), reuse, before.model)
    requires if keywordOnly then before.model == "" else ModelKnown(toAdd[..start], before.failed, reuse, before.model)
    modifies store
    ensures store.files == old(store.files) && store.meta == old(store.meta)
    ensures status.Ok? ==> Tracked(PathsIn(toAdd[..end]), c, out.failed, out.upserts)
    ensures status.Ok? ==> Progress(toAdd[..end], base, store.chunks, out.failed, PathsIn(toAdd), reuse, out.model)
    ensures status.Ok? ==> if keywordOnly then out.model == "" else ModelKnown(toAdd[..end], out.failed, reuse, out.model)
  {
    out := before;
    var r: BatchResult;
    status, r := StoreBatch(store, toAdd, start, end, reuse, keywordOnly);
    if !status.Ok? {
      return;
    }
    var model := before.model;
    if r.modelId != "" {
      if model == "" {
        model := r.modelId;
      } else if model != r.modelId {
        return Failed, out;
      }
    }
    var failed, upserts := RecordFailures(r.failed, before.failed, before.upserts);
    FailuresTracked(PathsIn(toAdd[..start]), c, before.failed, before.upserts, r);
    upserts := RecordSuccesses(toAdd, start, end, r, byId, counts, failed, upserts, c);
    BatchProgress(toAdd, start, end, r, base, old(store.chunks), store.chunks, before.failed, failed, PathsIn(toAdd), reuse, before.model, model);
    if !keywordOnly {
      ModelStillKnown(toAdd, start, end, r, before.failed, failed, reuse, before.model, model);
    }
    out := BatchLoop(failed, upserts, model);
  }

  method StoreBatch(store: VectorStore, toAdd: seq<Document>, start: nat, end: nat, reuse: map<string, string>, keywordOnly: bool)
    returns (status: Status, r: BatchResult)
    requires Distinct(toAdd) && (keywordOnly ==> reuse == map[]) && start <= end <= |toAdd|
    modifies store
    ensures store.files == old(store.files) && store.meta == old(store.meta)
    ensures status.Ok? ==> BatchOf(toAdd, start, end, r, PathsOf(r.failed))
    ensures status.Ok? ==> Written(old(store.chunks), store.chunks, toAdd[start..end], r, reuse)
    ensures status.Ok? ==> if keywordOnly then r.modelId == "" else r.modelId == "" ==> Reused(toAdd[start..end], r, reuse)
  {
    if keywordOnly {
      status, r := IndexKeywordOnly(store, toAdd[start..end]);
    } else {
      status, r := IndexBatch(store, toAdd[start..end], reuse);
    }
  }

  lemma FailuresTracked(known: set<Path>, c: Corpus, failed: set<Path>, upserts: Files, r: BatchResult)
    requires Tracked(known, c, failed, upserts)
    ensures Tracked(known, c, failed + PathsOf(r.failed), upserts - PathsOf(r.failed))
  {
  }

  lemma ModelStillKnown(toAdd: seq<Document>, k: nat, n: nat, r: BatchResult, failed: set<Path>, more: set<Path>,
                        reuse: map<string, string>, model: string, next: string)
    requires BatchOf(toAdd, k, n, r, more) && failed <= more
    requires ModelKnown(toAdd[..k], failed, reuse, model)
    requires next == (if r.modelId == "" then model else r.modelId)
    requires r.modelId == "" ==> Reused(toAdd[k..n], r, reuse)
    ensures ModelKnown(toAdd[..n], more, reuse, next)
  {
    assert toAdd[..n] == toAdd[..k] + toAdd[k..n];
    if next == "" {
      forall d | d in toAdd[..n] && d.id.path !in more ensures d.content in reuse {
        assert d.id in r.failed ==> d.id.path in PathsOf(r.failed);
      }
    }
  }

  // ------------------------------------------------------- one whole run

  datatype Outcome = Done(cleaned: bool) | Error | Cut

  predicate MustRebuild(meta: Meta) {
    meta.phase == Dirty || (meta.chunker != "" && meta.chunker != CHUNKER)
  }

  ghost predicate Matches(chunk: Chunk, d: Document) {
    chunk.content == d.content && chunk.title == d.title && chunk.lastModified == d.lastModified
  }

  /** What a run met: whether the tracked files could be read, whether it rebuilt, the
      model behind each text whose vector it could reuse, and the model that answered
      its batches, "" if none did. */
  datatype Course = Course(read: bool, rebuild: bool, reuse: map<string, string>, model: string)

  /** A failed read of the tracked files counts as an empty index. */
  function Seen(s: State, how: Course): Files {
    if how.read then s.files else map[]
  }

  function Adds(s: State, c: Corpus, how: Course): set<Path> {
    AddPaths(c, Seen(s, how), how.rebuild)
  }

  function Removes(s: State, c: Corpus, how: Course): set<Path> {
    RemovePaths(c, Seen(s, how), how.rebuild)
  }

  /** The files table after the final commit. */
  ghost predicate FilesCommitted(s: State, c: Corpus, how: Course, t: State) {
    var add, remove := Adds(s, c, how), Removes(s, c, how);
    && t.files.Keys == (s.files.Keys - remove) + add
    && (forall p :: p in add ==> |c.Pieces(p)| > 0 && t.files[p] == c.Info(p))
    && (forall p :: p in t.files && p !in add ==> t.files[p] == s.files[p])
  }

  /** The chunks after the final commit: re-indexed files hold their pieces,
      removed files nothing, all others what they held. */
  ghost predicate ChunksCommitted(s: State, c: Corpus, how: Course, t: State) {
    var add, remove := Adds(s, c, how), Removes(s, c, how);
    && (forall id: ChunkId :: id.path in add && c.Has(id) ==> id in t.chunks && Matches(t.chunks[id], c.At(id)))
    && (forall id: ChunkId :: id.path !in add && id.path in remove ==> id !in t.chunks)
    && (forall id: ChunkId :: id.path !in add && id.path !in remove ==> SameAt(s.chunks, t.chunks, id))
  }

  /** Some stored chunk of this text has this vector. */
  ghost predicate CarriedOver(s: State, content: string, v: Vector) {
    exists id :: id in s.chunks && s.chunks[id].content == content && s.chunks[id].vector == v
  }

  /** The vectors of the re-indexed pieces: reused by content, or the answering model's. */
  ghost predicate VectorsCommitted(s: State, c: Corpus, how: Course, t: State) {
    && t.meta.model == (if how.model == "" then s.meta.model else how.model)
    && (how.rebuild ==> how.reuse == map[])
    && (forall content :: content in how.reuse ==> CarriedOver(s, content, Of(how.reuse[content])))
    && forall id: ChunkId :: id.path in Adds(s, c, how) && c.Has(id) && id in t.chunks ==>
         && t.chunks[id].vector == VectorOf(c.At(id), how.reuse, how.model)
         && (how.model == "" ==> s.meta.model == "" || c.At(id).content in how.reuse)
  }

  ghost predicate Committed(s: State, c: Corpus, how: Course, t: State) {
    && (MustRebuild(s.meta) ==> how.rebuild)
    && t.meta.phase == Ready && t.meta.chunker == CHUNKER
    && FilesCommitted(s, c, how, t)
    && ChunksCommitted(s, c, how, t)
    && VectorsCommitted(s, c, how, t)
  }

  /** Every way a run over corpus `c` may leave the store. */
  ghost predicate RunMayEnd(s: State, c: Corpus, how: Course, t: State, outcome: Outcome) {
    match outcome
    case Cut => t == s || t.meta.phase == Dirty || Committed(s, c, how, t)
    case Error => t == s || t.meta.phase == Dirty
    case Done(cleaned) =>
      exists u :: Committed(s, c, how, u) && t == if cleaned then Cleaned(u) else u
  }

  method RemoveAll(store: VectorStore, paths: set<Path>) returns (status: Status)
    modifies store
    ensures store.files == old(store.files) && store.meta == old(store.meta)
    ensures forall id: ChunkId :: id.path !in paths ==> SameAt(old(store.chunks), store.chunks, id)
    ensures status.Ok? ==> forall id :: id in store.chunks ==> id.path !in paths
  {
    var todo := paths;
    status := Ok;
    while todo != {}
      invariant todo <= paths
      invariant store.files == old(store.files) && store.meta == old(store.meta)
      invariant forall id: ChunkId :: id.path !in paths ==> SameAt(old(store.chunks), store.chunks, id)
      invariant forall id :: id in store.chunks && id.path in paths ==> id.path in todo
    {
      var p :| p in todo;
      todo := todo - {p};
      status := store.DeleteByDocPath(p);
      if !status.Ok? {
        return;
      }
    }
  }

  /** Clears the files about to be re-indexed; a failed deletion is only logged. */
  method ClearAll(store: VectorStore, paths: set<Path>) returns (status: Status)
    modifies store
    ensures store.files == old(store.files) && store.meta == old(store.meta)
    ensures forall id: ChunkId :: id.path !in paths ==> SameAt(old(store.chunks), store.chunks, id)
    ensures status != Failed
  {
    var todo := paths;
    while todo != {}
      invariant todo <= paths
      invariant store.files == old(store.files) && store.meta == old(store.meta)
      invariant forall id: ChunkId :: id.path !in paths ==> SameAt(old(store.chunks), store.chunks, id)
    {
      var p :| p in todo;
      todo := todo - {p};
      status := store.DeleteByDocPath(p);
      if status.Interrupted? {
        return;
      }
    }
    status := Ok;
  }

  /** Content to model, from the chunks the files still hold; a file whose chunks
      cannot be read contributes nothing. */
  method LoadReuse(store: VectorStore, paths: set<Path>) returns (reuse: map<string, string>)
    ensures forall content :: content in reuse ==> CarriedOver(store.Now(), content, Of(reuse[content]))
  {
    reuse := map[];
    var todo := paths;
    while todo != {}
      invariant forall content :: content in reuse ==> CarriedOver(store.Now(), content, Of(reuse[content]))
    {
      var p :| p in todo;
      todo := todo - {p};
      var status, found := store.ChunksByDocPath(p);
      if !status.Ok? {
        continue;
      }
      var ids := found.Keys;
      while ids != {}
        invariant ids <= found.Keys
        invariant forall content :: content in reuse ==> CarriedOver(store.Now(), content, Of(reuse[content]))
      {
        var id :| id in ids;
        ids := ids - {id};
        if found[id].vector.Of? {
          assert id in store.Now().chunks && store.Now().chunks[id] == found[id];
          reuse := reuse[found[id].content := found[id].vector.model];
        }
      }
    }
  }

  datatype Settings = Settings(root: string, allowRootChange: bool, keywordFallback: bool)

  datatype Plan = Refuse | Proceed(rebuild: bool, keywordOnly: bool)

  /** Decides, before anything is written, whether and how to run. `probe` is
      the model the embedder currently answers with, if it answers. */
  function PlanRun(meta: Meta, docs: nat, files: nat, removals: nat, settings: Settings, probe: Option<string>): (plan: Plan)
    ensures plan.Proceed? && MustRebuild(meta) ==> plan.rebuild
    ensures plan.Proceed? && plan.keywordOnly ==> meta.model == ""
    ensures plan.Proceed? && !settings.allowRootChange && meta.root != settings.root ==> removals * 2 <= files
    ensures plan.Proceed? ==> docs > 0 || files > 0 || MustRebuild(meta)
  {
    if meta.model != "" && docs > 0 && probe.None? then Refuse
    else
      var modelChanged := meta.model != "" && docs > 0 && probe.Some? && probe.value != meta.model;
      var fallback := settings.keywordFallback && meta.model == "" && docs > 0;
      var keywordOnly := fallback && probe.None?;
      var modelArrived := fallback && probe.Some? && meta.keywordOnly;
      var rebuild := MustRebuild(meta) || modelChanged || modelArrived;
      if !settings.allowRootChange && meta.root != settings.root && removals * 2 > files then Refuse
      else if docs == 0 && files == 0 && !rebuild then Refuse
      else Proceed(rebuild, keywordOnly)
  }

  method IndexDocuments(store: VectorStore, docs: seq<Document>, settings: Settings, probe: Option<string>, ghost c: Corpus)
    returns (outcome: Outcome, ghost how: Course)
    requires Collected(docs, c)
    modifies store
    ensures RunMayEnd(old(store.Now()), c, how, store.Now(), outcome)
  {
    ghost var s := store.Now();
    var previous := store.meta;
    var reading, tracked := store.GetAllIndexedFiles();
    how := Course(reading.Ok?, false, map[], "");
    if reading.Interrupted? {
      return Cut, how;
    }
    var _, gone := CalculateIndexChanges(docs, tracked, false, c);
    var plan := PlanRun(previous, |docs|, |tracked|, |gone|, settings, probe);
    if plan.Refuse? {
      return Error, how;
    }
    var toAdd, toRemove := CalculateIndexChanges(docs, tracked, plan.rebuild, c);
    var status, loop, reuse := Execute(store, toAdd, toRemove, plan, c, s, tracked);
    if !status.Ok? {
      return if status.Failed? then Error else Cut, how;
    }
    how := Course(reading.Ok?, plan.rebuild, reuse, loop.model);
    outcome := Finish(store, toAdd, toRemove, plan, settings.root, loop, c, s, how);
  }

  /** What is known of a run that has stored its last batch. */
  ghost predicate Executed(s: State, seen: Files, c: Corpus, plan: Plan, toAdd: seq<Document>, toRemove: set<Path>,
                           reuse: map<string, string>, loop: BatchLoop, chunks: Chunks)
    requires plan.Proceed?
  {
    && toRemove == RemovePaths(c, seen, plan.rebuild)
    && Collected(toAdd, c.Restrict(AddPaths(c, seen, plan.rebuild)))
    && (plan.keywordOnly ==> s.meta.model == "" && loop.model == "")
    && (forall content :: content in reuse ==> !plan.rebuild && CarriedOver(s, content, Of(reuse[content])))
    && (plan.keywordOnly ==> reuse == map[])
    && Tracked(PathsIn(toAdd), c.Restrict(AddPaths(c, seen, plan.rebuild)), loop.failed, loop.upserts)
    && (forall d :: d in toAdd && d.id.path !in loop.failed ==> StoredAs(chunks, d, reuse, loop.model))
    && (!plan.keywordOnly ==> ModelKnown(toAdd, loop.failed, reuse, loop.model))
    && (forall id: ChunkId :: id.path !in PathsIn(toAdd) ==>
          if id.path in toRemove then id !in chunks else SameAt(s.chunks, chunks, id))
  }

  /** From the dirty mark to the last batch. */
  method Execute(store: VectorStore, toAdd: seq<Document>, toRemove: set<Path>, plan: Plan, ghost c: Corpus, ghost s: State,
                 ghost seen: Files)
    returns (status: Status, loop: BatchLoop, ghost reuse: map<string, string>)
    requires s == store.Now() && plan.Proceed? && (plan.keywordOnly ==> s.meta.model == "")
    requires toRemove == RemovePaths(c, seen, plan.rebuild)
    requires Collected(toAdd, c.Restrict(AddPaths(c, seen, plan.rebuild)))
    modifies store
    ensures store.files == s.files
    ensures store.Now() == s || store.meta == s.meta.(phase := Dirty)
    ensures status.Ok? ==> store.meta == s.meta.(phase := Dirty)
    ensures status.Ok? ==> Executed(s, seen, c, plan, toAdd, toRemove, reuse, loop, store.chunks)
  {
    loop, reuse := BatchLoop({}, map[], ""), map[];
    status := store.CommitIndexState(store.meta.(phase := Dirty), {}, map[]);
    if !status.Ok? {
      return;
    }
    assert store.files == s.files;
    status := RemoveAll(store, toRemove);
    if !status.Ok? {
      return;
    }
    ghost var cleared := store.Now();
    var known: map<string, string> := map[];
    if !plan.rebuild && !plan.keywordOnly {
      known := LoadReuse(store, PathsIn(toAdd));
      ReuseCarried(s, cleared, toRemove, known);
    }
    reuse := known;
    status := ClearAll(store, PathsIn(toAdd));
    if !status.Ok? {
      return;
    }
    ghost var base := store.chunks;
    status, loop := EmbedAll(store, toAdd, known, plan.keywordOnly, c.Restrict(AddPaths(c, seen, plan.rebuild)));
    if status.Ok? {
      Untouched(s.chunks, cleared.chunks, base, store.chunks, toRemove, PathsIn(toAdd));
    }
  }

  lemma ReuseCarried(s: State, cleared: State, toRemove: set<Path>, reuse: map<string, string>)
    requires forall id: ChunkId :: id.path !in toRemove ==> SameAt(s.chunks, cleared.chunks, id)
    requires forall id :: id in cleared.chunks ==> id.path !in toRemove
    requires forall content :: content in reuse ==> CarriedOver(cleared, content, Of(reuse[content]))
    ensures forall content :: content in reuse ==> CarriedOver(s, content, Of(reuse[content]))
  {
    forall content | content in reuse ensures CarriedOver(s, content, Of(reuse[content])) {
      assert CarriedOver(cleared, content, Of(reuse[content]));
      var k :| k in cleared.chunks && cleared.chunks[k].content == content && cleared.chunks[k].vector == Of(reuse[content]);
      assert SameAt(s.chunks, cleared.chunks, k);
    }
  }

  lemma Untouched(start: Chunks, cleared: Chunks, base: Chunks, end: Chunks, toRemove: set<Path>, area: set<Path>)
    requires forall id: ChunkId :: id.path !in toRemove ==> SameAt(start, cleared, id)
    requires forall id :: id in cleared ==> id.path !in toRemove
    requires forall id: ChunkId :: id.path !in area ==> SameAt(cleared, base, id)
    requires forall id: ChunkId :: id.path !in area ==> SameAt(base, end, id)
    ensures forall id: ChunkId :: id.path !in area ==>
              if id.path in toRemove then id !in end else SameAt(start, end, id)
  {
    forall id: ChunkId | id.path !in area
      ensures if id.path in toRemove then id !in end else SameAt(start, end, id)
    {
      assert SameAt(cleared, base, id) && SameAt(base, end, id);
    }
  }

  /** The final commit and the orphan sweep. */
  method Finish(store: VectorStore, ghost toAdd: seq<Document>, toRemove: set<Path>, plan: Plan, root: string, loop: BatchLoop,
                ghost c: Corpus, ghost s: State, ghost how: Course)
    returns (outcome: Outcome)
    requires plan.Proceed? && (MustRebuild(s.meta) ==> plan.rebuild) && how.rebuild == plan.rebuild && how.model == loop.model
    requires store.files == s.files && store.meta == s.meta.(phase := Dirty)
    requires Executed(s, Seen(s, how), c, plan, toAdd, toRemove, how.reuse, loop, store.chunks)
    modifies store
    ensures RunMayEnd(s, c, how, store.Now(), outcome)
  {
    var next := Meta(if loop.failed == {} then Ready else Dirty, if loop.model == "" then store.meta.model else loop.model,
                     CHUNKER, root, plan.keywordOnly);
    var status := store.CommitIndexState(next, toRemove + loop.failed, loop.upserts);
    if !status.Ok? {
      return if status.Failed? then Error else Cut;
    }
    ghost var u := store.Now();
    if loop.failed == {} {
      assert toRemove + loop.failed == toRemove;
      CommitHolds(s, c, plan, toAdd, toRemove, how, loop, u);
    }
    status := store.CleanOrphans();
    if status.Interrupted? {
      return Cut;
    }
    return if loop.failed != {} then Error else Done(status.Ok?);
  }

  lemma PathsAdded(toAdd: seq<Document>, c: Corpus, add: set<Path>)
    requires Collected(toAdd, c.Restrict(add)) && add <= c.files.Keys
    ensures PathsIn(toAdd) == add
    ensures forall p :: p in add ==> |c.Pieces(p)| > 0
  {
    var part := c.Restrict(add);
    forall p | p in add ensures p in PathsIn(toAdd) && |c.Pieces(p)| > 0 {
      assert p in part.files && |part.Pieces(p)| > 0;
      assert part.Has(ChunkId(p, 0)) && part.At(ChunkId(p, 0)) in toAdd;
    }
  }

  /** A run without failed files commits what `Committed` says. */
  lemma CommitHolds(s: State, c: Corpus, plan: Plan, toAdd: seq<Document>, toRemove: set<Path>, how: Course, loop: BatchLoop, t: State)
    requires plan.Proceed? && (MustRebuild(s.meta) ==> plan.rebuild) && loop.failed == {}
    requires how.rebuild == plan.rebuild && how.model == loop.model
    requires Executed(s, Seen(s, how), c, plan, toAdd, toRemove, how.reuse, loop, t.chunks)
    requires t.files == (s.files - toRemove) + loop.upserts
    requires t.meta.phase == Ready && t.meta.chunker == CHUNKER
    requires t.meta.model == (if loop.model == "" then s.meta.model else loop.model)
    ensures Committed(s, c, how, t)
  {
    PathsAdded(toAdd, c, Adds(s, c, how));
    CommitFiles(s, c, how, loop.upserts, t);
    forall id: ChunkId | id.path in Adds(s, c, how) && c.Has(id)
      ensures id in t.chunks && t.chunks[id] == ChunkOf(c.At(id), VectorOf(c.At(id), how.reuse, how.model))
      ensures how.model == "" ==> s.meta.model == "" || c.At(id).content in how.reuse
    {
      CommitPiece(s, c, plan, toAdd, toRemove, how, loop, t, id);
    }
  }

  lemma CommitFiles(s: State, c: Corpus, how: Course, upserts: Files, t: State)
    requires Tracked(Adds(s, c, how), c.Restrict(Adds(s, c, how)), {}, upserts)
    requires t.files == (s.files - Removes(s, c, how)) + upserts
    ensures FilesCommitted(s, c, how, t)
  {
    forall p | p in Adds(s, c, how) ensures |c.Pieces(p)| > 0 && t.files[p] == c.Info(p) {
      assert upserts[p] == c.Restrict(Adds(s, c, how)).Info(p);
    }
  }

  lemma CommitPiece(s: State, c: Corpus, plan: Plan, toAdd: seq<Document>, toRemove: set<Path>, how: Course, loop: BatchLoop,
                    t: State, id: ChunkId)
    requires plan.Proceed? && loop.failed == {} && how.rebuild == plan.rebuild && how.model == loop.model
    requires Executed(s, Seen(s, how), c, plan, toAdd, toRemove, how.reuse, loop, t.chunks)
    requires id.path in Adds(s, c, how) && c.Has(id)
    ensures id in t.chunks && t.chunks[id] == ChunkOf(c.At(id), VectorOf(c.At(id), how.reuse, how.model))
    ensures how.model == "" ==> s.meta.model == "" || c.At(id).content in how.reuse
  {
    var part := c.Restrict(Adds(s, c, how));
    assert part.Has(id) && part.At(id) in toAdd;
    assert StoredAs(t.chunks, part.At(id), how.reuse, loop.model);
  }
}
