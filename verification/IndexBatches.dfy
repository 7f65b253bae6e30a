/** Embedding and storing documents batch by batch: indexDocuments and
    indexKeywordOnly of internal/rag/vectorservice.go, and the batch loop of
    IndexDocuments with its per-file success tracking. */
module IndexBatches {
  import opened Common
  import opened VectorIndex
  import opened IndexChanges

  const BATCH_SIZE := 50

  datatype BatchResult = BatchResult(modelId: string, success: seq<ChunkId>, failed: seq<ChunkId>)

  function ChunkOf(d: Document, v: Vector): Chunk {
    Chunk(d.content, d.title, d.lastModified, v)
  }

  /** The vector a document ends up with: its old one when the content is
      unchanged, otherwise a fresh one. `reuse` maps content to the model that
      embedded it. */
  function VectorOf(d: Document, reuse: map<string, string>, modelId: string): Vector {
    if d.content in reuse then Of(reuse[d.content]) else if modelId == "" then Absent else Of(modelId)
  }

  ghost predicate Partitioned(docs: seq<Document>, r: BatchResult) {
    && (forall id :: id in r.success || id in r.failed ==> exists d :: d in docs && d.id == id)
    && (forall d :: d in docs ==> (d.id in r.success <==> d.id !in r.failed))
  }

  /** Successes are listed in document order: by the time one is listed, every
      earlier document of the batch has been listed or has failed. */
  ghost predicate InOrder(docs: seq<Document>, r: BatchResult) {
    forall i, j, k :: 0 <= i < k < |docs| && 0 <= j < |r.success| && docs[k].id == r.success[j] ==>
      docs[i].id in r.failed || docs[i].id in r.success[..j]
  }

  /** Every stored document of the batch brought its old vector along. */
  ghost predicate Reused(docs: seq<Document>, r: BatchResult, reuse: map<string, string>) {
    forall d :: d in docs && d.id in r.success ==> d.content in reuse
  }

  ghost predicate Written(before: Chunks, after: Chunks, docs: seq<Document>, r: BatchResult, reuse: map<string, string>) {
    && (forall d :: d in docs && d.id in r.success ==> d.id in after && after[d.id] == ChunkOf(d, VectorOf(d, reuse, r.modelId)))
    && (forall id :: id !in r.success ==> SameAt(before, after, id))
  }

  ghost predicate SameAt(before: Chunks, after: Chunks, id: ChunkId) {
    (id in after <==> id in before) && (id in before ==> after[id] == before[id])
  }

  datatype Embedded = Refused | Vectors(modelId: string, present: seq<bool>)

  /** The embedder: it may refuse the batch, answer with fewer vectors than
      texts, or leave single vectors out. */
  method BatchEmbed(texts: seq<string>) returns (r: Embedded)
    ensures r.Vectors? ==> r.modelId != ""
  {
    var modelId: string := *;
    var present: seq<bool> := *;
    r := if modelId == "" then Refused else Vectors(modelId, present);
  }

  /** Chunks whose content is in `reuse` keep their vector; the rest go to the
      embedder. The result lists, for every position, a vector or none. */
  method EmbedDocuments(docs: seq<Document>, reuse: map<string, string>)
    returns (refused: bool, modelId: string, vectors: seq<Option<Vector>>)
    ensures !refused ==> |vectors| == |docs|
    ensures !refused ==> forall i :: 0 <= i < |docs| && vectors[i].Some? ==> vectors[i].value == VectorOf(docs[i], reuse, modelId)
    ensures !refused ==> forall i :: 0 <= i < |docs| && docs[i].content in reuse ==> vectors[i].Some?
    ensures !refused && modelId == "" ==> forall i :: 0 <= i < |docs| && vectors[i].Some? ==> docs[i].content in reuse
    ensures refused || modelId != "" ==> exists i :: 0 <= i < |docs| && docs[i].content !in reuse
  {
    refused, modelId := false, "";
    vectors := [];
    var texts: seq<string>, embedAt: seq<nat> := [], [];
    for i := 0 to |docs|
      invariant |vectors| == i && |texts| == |embedAt|
      invariant forall k :: 0 <= k < |embedAt| ==> embedAt[k] < i && docs[embedAt[k]].content !in reuse
      invariant forall k :: 0 <= k < i ==>
                  if docs[k].content in reuse then vectors[k] == Some(Of(reuse[docs[k].content])) else vectors[k] == None
    {
      if docs[i].content in reuse {
        vectors := vectors + [Some(Of(reuse[docs[i].content]))];
      } else {
        vectors := vectors + [None];
        texts, embedAt := texts + [docs[i].content], embedAt + [i];
      }
    }
    if |texts| == 0 {
      return;
    }
    assert docs[embedAt[0]].content !in reuse;
    var batch := BatchEmbed(texts);
    if batch.Refused? {
      refused := true;
      return;
    }
    modelId := batch.modelId;
    for pos := 0 to |embedAt|
      invariant |vectors| == |docs|
      invariant forall k :: 0 <= k < |docs| && vectors[k].Some? ==> vectors[k].value == VectorOf(docs[k], reuse, modelId)
      invariant forall k :: 0 <= k < |docs| && docs[k].content in reuse ==> vectors[k].Some?
    {
      if pos < |batch.present| && batch.present[pos] {
        vectors := vectors[embedAt[pos] := Some(Of(modelId))];
      }
    }
  }

  method IndexBatch(store: VectorStore, docs: seq<Document>, reuse: map<string, string>)
    returns (status: Status, result: BatchResult)
    requires Distinct(docs)
    modifies store
    ensures store.files == old(store.files) && store.meta == old(store.meta)
    ensures status.Ok? ==> Partitioned(docs, result) && InOrder(docs, result) && Written(old(store.chunks), store.chunks, docs, result, reuse)
    ensures !status.Ok? ==> store.chunks == old(store.chunks)
    ensures status.Ok? && result.modelId == "" ==> Reused(docs, result, reuse)
    ensures status.Ok? && (result.failed != [] || result.modelId != "") ==> exists d :: d in docs && d.content !in reuse
  {
    var batch: Chunks;
    batch, result := PrepareBatch(docs, reuse);
    status := Ok;
    if |batch| > 0 {
      status := store.Upsert(batch);
    }
    if status.Ok? {
      PutWritten(old(store.chunks), store.chunks, batch, docs, result, reuse);
    }
  }

  method PrepareBatch(docs: seq<Document>, reuse: map<string, string>) returns (batch: Chunks, result: BatchResult)
    requires Distinct(docs)
    ensures Partitioned(docs, result) && InOrder(docs, result) && Assembled(batch, docs, result, reuse)
    ensures result.failed != [] || result.modelId != "" ==> exists d :: d in docs && d.content !in reuse
    ensures result.modelId == "" ==> Reused(docs, result, reuse)
  {
    var refused, modelId, vectors := EmbedDocuments(docs, reuse);
    if refused {
      var i :| 0 <= i < |docs| && docs[i].content !in reuse;
      assert docs[i] in docs;
      AllIdsMembers(docs);
      return map[], BatchResult("", [], AllIds(docs));
    }
    batch, result := Assemble(docs, modelId, vectors, reuse);
    forall d | d in docs && d.id in result.success && modelId == "" ensures d.content in reuse {
      var i :| 0 <= i < |docs| && docs[i] == d;
    }
    if result.failed != [] {
      assert result.failed[0] in result.failed;
      var d :| d in docs && d.id == result.failed[0];
      var i :| 0 <= i < |docs| && docs[i] == d;
    }
    if modelId != "" {
      var i :| 0 <= i < |docs| && docs[i].content !in reuse;
      assert docs[i] in docs;
    }
  }

  ghost predicate Assembled(batch: Chunks, docs: seq<Document>, r: BatchResult, reuse: map<string, string>) {
    && (forall id :: id in batch <==> id in r.success)
    && (forall d :: d in docs && d.id in batch ==> batch[d.id] == ChunkOf(d, VectorOf(d, reuse, r.modelId)))
  }

  lemma PutWritten(before: Chunks, after: Chunks, batch: Chunks, docs: seq<Document>, r: BatchResult, reuse: map<string, string>)
    requires Assembled(batch, docs, r, reuse) && after == before + batch
    ensures Written(before, after, docs, r, reuse)
  {
  }

  function AllIds(docs: seq<Document>): (ids: seq<ChunkId>) {
    seq(|docs|, i requires 0 <= i < |docs| => docs[i].id)
  }

  lemma AllIdsMembers(docs: seq<Document>)
    ensures forall id :: id in AllIds(docs) <==> exists d :: d in docs && d.id == id
  {
    forall d | d in docs ensures d.id in AllIds(docs) {
      var i :| 0 <= i < |docs| && docs[i] == d;
      assert AllIds(docs)[i] == d.id;
    }
  }

  method Assemble(docs: seq<Document>, modelId: string, vectors: seq<Option<Vector>>, reuse: map<string, string>)
    returns (batch: Chunks, result: BatchResult)
    requires Distinct(docs) && |vectors| == |docs|
    requires forall i :: 0 <= i < |docs| && vectors[i].Some? ==> vectors[i].value == VectorOf(docs[i], reuse, modelId)
    ensures result.modelId == modelId
    ensures Partitioned(docs, result) && InOrder(docs, result)
    ensures Assembled(batch, docs, result, reuse)
    ensures forall i :: 0 <= i < |docs| ==> (docs[i].id in result.success <==> vectors[i].Some?)
  {
    batch := map[];
    result := BatchResult(modelId, [], []);
    for i := 0 to |docs|
      invariant result.modelId == modelId
      invariant Partitioned(docs[..i], result) && InOrder(docs[..i], result)
      invariant Assembled(batch, docs[..i], result, reuse)
      invariant forall k :: 0 <= k < i ==> (docs[k].id in result.success <==> vectors[k].Some?)
    {
      NewId(docs, i);
      KeepOrder(docs, i, result);
      KeepParts(docs, i, result);
      AddToBatch(docs, i, result, batch, reuse, VectorOf(docs[i], reuse, modelId));
      if vectors[i].None? {
        result := result.(failed := result.failed + [docs[i].id]);
      } else {
        batch := batch[docs[i].id := ChunkOf(docs[i], vectors[i].value)];
        result := result.(success := result.success + [docs[i].id]);
      }
    }
    assert docs[..|docs|] == docs;
  }

  lemma KeepParts(docs: seq<Document>, n: nat, r: BatchResult)
    requires n < |docs| && Distinct(docs) && Partitioned(docs[..n], r)
    ensures docs[n].id !in r.success && docs[n].id !in r.failed
    ensures Partitioned(docs[..n + 1], r.(failed := r.failed + [docs[n].id]))
    ensures Partitioned(docs[..n + 1], r.(success := r.success + [docs[n].id]))
  {
    NewId(docs, n);
    assert docs[..n + 1] == docs[..n] + [docs[n]];
  }

  lemma AddToBatch(docs: seq<Document>, n: nat, r: BatchResult, batch: Chunks, reuse: map<string, string>, v: Vector)
    requires n < |docs| && Distinct(docs) && docs[n].id !in r.success
    requires Assembled(batch, docs[..n], r, reuse) && v == VectorOf(docs[n], reuse, r.modelId)
    ensures Assembled(batch, docs[..n + 1], r, reuse)
    ensures Assembled(batch[docs[n].id := ChunkOf(docs[n], v)], docs[..n + 1], r.(success := r.success + [docs[n].id]), reuse)
  {
    NewId(docs, n);
    assert docs[..n + 1] == docs[..n] + [docs[n]];
  }

  lemma NewId(docs: seq<Document>, i: nat)
    requires Distinct(docs) && i < |docs|
    ensures forall d :: d in docs[..i] ==> d.id != docs[i].id
  {
    forall d | d in docs[..i] ensures d.id != docs[i].id {
      var k :| 0 <= k < i && docs[k] == d;
    }
  }

  lemma KeepOrder(docs: seq<Document>, n: nat, r: BatchResult)
    requires n < |docs| && Distinct(docs)
    requires Partitioned(docs[..n], r) && InOrder(docs[..n], r)
    ensures InOrder(docs[..n + 1], r.(failed := r.failed + [docs[n].id]))
    ensures InOrder(docs[..n + 1], r.(success := r.success + [docs[n].id]))
  {
    NewId(docs, n);
    var more := docs[..n + 1];
    forall j | 0 <= j < |r.success| ensures r.success[j] != docs[n].id {
      assert r.success[j] in r.success;
      var d :| d in docs[..n] && d.id == r.success[j];
    }
    forall i, j, k | 0 <= i < k < |more| && 0 <= j < |r.success| && more[k].id == r.success[j]
      ensures docs[i].id in r.failed || docs[i].id in r.success[..j]
    {
      assert k < n && docs[..n][i] == docs[i] && docs[..n][k] == docs[k];
    }
    var s := r.success + [docs[n].id];
    forall i, j, k | 0 <= i < k < |more| && 0 <= j < |s| && more[k].id == s[j]
      ensures docs[i].id in r.failed || docs[i].id in s[..j]
    {
      if j < |r.success| {
        assert s[..j] == r.success[..j];
      } else {
        assert s[..j] == r.success;
        assert docs[i] in docs[..n];
      }
    }
  }

  method IndexKeywordOnly(store: VectorStore, docs: seq<Document>) returns (status: Status, result: BatchResult)
    requires Distinct(docs)
    modifies store
    ensures store.files == old(store.files) && store.meta == old(store.meta)
    ensures status.Ok? ==> Partitioned(docs, result) && InOrder(docs, result) && Written(old(store.chunks), store.chunks, docs, result, map[])
    ensures status.Ok? ==> result.failed == [] && result.modelId == ""
    ensures !status.Ok? ==> store.chunks == old(store.chunks)
  {
    var batch: Chunks;
    batch, result := Assemble(docs, "", seq(|docs|, i => Some(Absent)), map[]);
    forall d | d in docs ensures d.id in result.success {
      var i :| 0 <= i < |docs| && docs[i] == d;
    }
    NoneFailed(docs, result);
    status := store.Upsert(batch);
    if status.Ok? {
      PutWritten(old(store.chunks), store.chunks, batch, docs, result, map[]);
    }
  }

  lemma NoneFailed(docs: seq<Document>, r: BatchResult)
    requires Partitioned(docs, r)
    ensures (forall d :: d in docs ==> d.id in r.success) <==> r.failed == []
  {
    if r.failed != [] {
      assert r.failed[0] in r.failed;
      var d :| d in docs && d.id == r.failed[0];
      assert d.id !in r.success;
    }
  }

  // ------------------------------------------------- per-file bookkeeping

  function PathsIn(docs: seq<Document>): set<Path> {
    set d | d in docs :: d.id.path
  }

  /** What the run plans to record: every file processed so far (`known`)
      without a failed chunk, with the facts of that file. */
  ghost predicate Tracked(known: set<Path>, c: Corpus, failed: set<Path>, upserts: Files) {
    && upserts.Keys == known - failed
    && (forall p :: p in upserts ==> p in c.files && |c.Pieces(p)| > 0 && upserts[p] == c.Info(p))
  }

  function PathsOf(ids: seq<ChunkId>): set<Path> {
    set id | id in ids :: id.path
  }

  method RecordFailures(ids: seq<ChunkId>, failed0: set<Path>, upserts0: Files) returns (failed: set<Path>, upserts: Files)
    ensures failed == failed0 + PathsOf(ids)
    ensures upserts == upserts0 - PathsOf(ids)
  {
    failed, upserts := failed0, upserts0;
    for i := 0 to |ids|
      invariant failed == failed0 + PathsOf(ids[..i])
      invariant upserts == upserts0 - PathsOf(ids[..i])
    {
      assert ids[..i + 1] == ids[..i] + [ids[i]];
      assert PathsOf(ids[..i + 1]) == PathsOf(ids[..i]) + {ids[i].path};
      failed := failed + {ids[i].path};
      upserts := upserts - {ids[i].path};
    }
    assert ids[..|ids|] == ids;
  }

  /** One batch of the run, `toAdd[k..n]`, and how it ended. */
  ghost predicate BatchOf(toAdd: seq<Document>, k: nat, n: nat, r: BatchResult, failed: set<Path>) {
    && k <= n <= |toAdd|
    && Partitioned(toAdd[k..n], r)
    && InOrder(toAdd[k..n], r)
    && PathsOf(r.failed) <= failed
  }

  method RecordSuccesses(toAdd: seq<Document>, ghost k: nat, ghost n: nat, r: BatchResult, byId: map<ChunkId, Document>,
                         counts: map<Path, nat>, failed: set<Path>, upserts0: Files, ghost c: Corpus)
    returns (upserts: Files)
    requires Collected(toAdd, c) && BatchOf(toAdd, k, n, r, failed)
    requires ById(toAdd, byId) && Counted(counts, c)
    requires Tracked(PathsIn(toAdd[..k]), c, failed, upserts0)
    ensures Tracked(PathsIn(toAdd[..n]), c, failed, upserts)
  {
    upserts := upserts0;
    for j := 0 to |r.success|
      invariant Tracked(PathsIn(toAdd[..k]) + PathsOf(r.success[..j]), c, failed, upserts)
    {
      upserts := RecordOne(toAdd, k, n, r, byId, counts, failed, upserts, c, j);
    }
    assert r.success[..|r.success|] == r.success;
    BatchPaths(toAdd, k, n, r, failed);
  }

  ghost predicate ById(toAdd: seq<Document>, byId: map<ChunkId, Document>) {
    forall d :: d in toAdd ==> d.id in byId && byId[d.id] == d
  }

  ghost predicate Counted(counts: map<Path, nat>, c: Corpus) {
    forall p :: p in c.files ==> p in counts && counts[p] == |c.Pieces(p)|
  }

  method RecordOne(toAdd: seq<Document>, ghost k: nat, ghost n: nat, r: BatchResult, byId: map<ChunkId, Document>,
                   counts: map<Path, nat>, failed: set<Path>, upserts0: Files, ghost c: Corpus, j: nat)
    returns (upserts: Files)
    requires Collected(toAdd, c) && BatchOf(toAdd, k, n, r, failed) && j < |r.success|
    requires ById(toAdd, byId) && Counted(counts, c)
    requires Tracked(PathsIn(toAdd[..k]) + PathsOf(r.success[..j]), c, failed, upserts0)
    ensures Tracked(PathsIn(toAdd[..k]) + PathsOf(r.success[..j + 1]), c, failed, upserts)
  {
    var id := r.success[j];
    SuccessDocument(toAdd, k, n, r, id, byId);
    var doc := byId[id];
    MorePaths(r.success, j);
    upserts := upserts0;
    if id.path in failed || id.path in upserts {
      return;
    }
    if doc.id.index > 0 {
      LaterPieceIsKnown(toAdd, k, n, r, j, failed, c, doc);
    }
    FoundDocument(toAdd, k, n, c, doc);
    var info := FileInfo(doc.fileHash, doc.lastModified, |doc.content|, counts[id.path]);
    assert info == c.Info(id.path);
    upserts := upserts[id.path := info];
  }

  lemma MorePaths(ids: seq<ChunkId>, j: nat)
    requires j < |ids|
    ensures PathsOf(ids[..j + 1]) == PathsOf(ids[..j]) + {ids[j].path}
  {
    assert ids[..j + 1] == ids[..j] + [ids[j]];
  }

  lemma SuccessDocument(toAdd: seq<Document>, k: nat, n: nat, r: BatchResult, id: ChunkId, byId: map<ChunkId, Document>)
    requires k <= n <= |toAdd| && Partitioned(toAdd[k..n], r) && id in r.success && ById(toAdd, byId)
    ensures id in byId && byId[id] in toAdd[k..n] && byId[id].id == id
  {
    var d :| d in toAdd[k..n] && d.id == id;
    assert d in toAdd;
  }

  lemma FoundDocument(toAdd: seq<Document>, k: nat, n: nat, c: Corpus, doc: Document)
    requires Collected(toAdd, c) && k <= n <= |toAdd| && doc in toAdd[k..n]
    ensures c.Has(doc.id) && |c.Pieces(doc.id.path)| > 0 && doc == c.At(doc.id)
  {
    assert doc in toAdd;
  }

  /** By the time a later piece of a file is listed as a success, the file is
      known already; so a file is recorded when its first piece comes by. */
  lemma LaterPieceIsKnown(toAdd: seq<Document>, k: nat, n: nat, r: BatchResult, j: nat, failed: set<Path>,
                          c: Corpus, doc: Document)
    requires Collected(toAdd, c) && BatchOf(toAdd, k, n, r, failed)
    requires j < |r.success| && doc in toAdd[k..n] && doc.id == r.success[j] && doc.id.index > 0
    ensures doc.id.path in failed + PathsIn(toAdd[..k]) + PathsOf(r.success[..j])
  {
    var pos :| 0 <= pos < n - k && toAdd[k..n][pos] == doc;
    var i := HeadPosition(toAdd, c, k + pos);
    EarlierIsKnown(toAdd, k, n, r, j, failed, i, k + pos);
  }

  lemma HeadPosition(toAdd: seq<Document>, c: Corpus, pos: nat) returns (i: nat)
    requires Collected(toAdd, c) && pos < |toAdd| && toAdd[pos].id.index > 0
    ensures i < pos && toAdd[i].id.path == toAdd[pos].id.path
  {
    var head := ChunkId(toAdd[pos].id.path, 0);
    assert toAdd[pos] in toAdd;
    assert c.Has(head) && c.At(head) in toAdd;
    i :| 0 <= i < |toAdd| && toAdd[i] == c.At(head);
  }

  lemma EarlierIsKnown(toAdd: seq<Document>, k: nat, n: nat, r: BatchResult, j: nat, failed: set<Path>, i: nat, pos: nat)
    requires BatchOf(toAdd, k, n, r, failed)
    requires i < pos < n && k <= pos && j < |r.success| && toAdd[pos].id == r.success[j]
    ensures toAdd[i].id.path in failed + PathsIn(toAdd[..k]) + PathsOf(r.success[..j])
  {
    if i < k {
      assert toAdd[i] in toAdd[..k];
    } else {
      assert toAdd[k..n][i - k] == toAdd[i] && toAdd[k..n][pos - k] == toAdd[pos];
      assert toAdd[i].id in r.failed || toAdd[i].id in r.success[..j];
    }
  }

  lemma BatchPaths(toAdd: seq<Document>, k: nat, n: nat, r: BatchResult, failed: set<Path>)
    requires BatchOf(toAdd, k, n, r, failed)
    ensures PathsIn(toAdd[..n]) - failed == PathsIn(toAdd[..k]) + PathsOf(r.success) - failed
  {
    assert toAdd[..n] == toAdd[..k] + toAdd[k..n];
    forall p | p !in failed
      ensures p in PathsIn(toAdd[..n]) <==> p in PathsIn(toAdd[..k]) || p in PathsOf(r.success)
    {
      if p in PathsIn(toAdd[..n]) {
        var d :| d in toAdd[..n] && d.id.path == p;
        assert d.id in r.failed ==> d.id.path in PathsOf(r.failed);
      }
      if p in PathsOf(r.success) {
        var id :| id in r.success && id.path == p;
        var d :| d in toAdd[k..n] && d.id == id;
        assert d in toAdd[..n];
      }
    }
  }
}
