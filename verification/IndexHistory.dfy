/** What indexing promises over any history of runs: every store a run can leave
    behind is recoverable, and the next run that completes brings it to what a
    rebuild from scratch would hold. */
module IndexHistory {
  import opened Common
  import opened VectorIndex
  import opened IndexChanges
  import opened IndexBatches
  import opened IndexRun

  type Chunking = (Path, string) -> seq<Piece>

  /** The record of a tracked file is truthful: all pieces of the text it was
      hashed from are stored. Further, stray chunks are not excluded. */
  ghost predicate Truthful(s: State, chunking: Chunking, p: Path)
    requires p in s.files
  {
    var info, pieces := s.files[p], chunking(p, s.files[p].hash);
    && |pieces| > 0
    && info.chunkCount == |pieces| && info.size == |pieces[0].content|
    && forall i :: 0 <= i < |pieces| ==> Piecewise(s, ChunkId(p, i), pieces[i], info.modTime)
  }

  ghost predicate Piecewise(s: State, id: ChunkId, piece: Piece, modTime: int) {
    id in s.chunks && s.chunks[id].content == piece.content && s.chunks[id].title == piece.title
      && s.chunks[id].lastModified == modTime
  }

  /** Either the next run will rebuild everything, or every record is truthful. */
  ghost predicate Recoverable(s: State, chunking: Chunking) {
    MustRebuild(s.meta) || forall p :: p in s.files ==> Truthful(s, chunking, p)
  }

  /** A tracked file that is gone from disk, in a run that could not read the
      tracked files: nothing of it is removed. */
  predicate Overlooked(s: State, c: Corpus, how: Course, p: Path) {
    !how.read && p in s.files && p !in c.files
  }

  lemma OverlookedIsKept(s: State, c: Corpus, how: Course, t: State, p: Path)
    requires Committed(s, c, how, t) && Overlooked(s, c, how, p)
    ensures p in t.files && t.files[p] == s.files[p]
    ensures forall i: nat :: SameAt(s.chunks, t.chunks, ChunkId(p, i))
    ensures Truthful(t, c.chunking, p) <==> Truthful(s, c.chunking, p)
  {
    forall i: nat ensures SameAt(s.chunks, t.chunks, ChunkId(p, i)) {
      assert ChunkId(p, i).path !in Adds(s, c, how) && ChunkId(p, i).path !in Removes(s, c, how);
    }
    SameTruth(s, t, c.chunking, p);
  }

  lemma SameTruth(s: State, t: State, chunking: Chunking, p: Path)
    requires p in s.files && p in t.files && t.files[p] == s.files[p]
    requires forall i: nat :: SameAt(s.chunks, t.chunks, ChunkId(p, i))
    ensures Truthful(t, chunking, p) <==> Truthful(s, chunking, p)
  {
    forall i | 0 <= i < |chunking(p, s.files[p].hash)|
      ensures Piecewise(t, ChunkId(p, i), chunking(p, s.files[p].hash)[i], s.files[p].modTime) <==>
              Piecewise(s, ChunkId(p, i), chunking(p, s.files[p].hash)[i], s.files[p].modTime)
    {
      assert SameAt(s.chunks, t.chunks, ChunkId(p, i));
    }
  }

  lemma ReindexedIsTruthful(s: State, c: Corpus, how: Course, t: State, p: Path)
    requires Committed(s, c, how, t) && p in Adds(s, c, how)
    ensures p in t.files && Truthful(t, c.chunking, p)
  {
    forall i | 0 <= i < |c.Pieces(p)| ensures Piecewise(t, ChunkId(p, i), c.Pieces(p)[i], t.files[p].modTime) {
      assert c.Has(ChunkId(p, i));
    }
  }

  /** A commit leaves every record truthful but those it overlooked. */
  lemma CommitIsTruthful(s: State, c: Corpus, how: Course, t: State, p: Path)
    requires Recoverable(s, c.chunking) && Committed(s, c, how, t) && p in t.files && !Overlooked(s, c, how, p)
    ensures Truthful(t, c.chunking, p)
  {
    if p in Adds(s, c, how) {
      ReindexedIsTruthful(s, c, how, t, p);
    } else {
      assert Truthful(s, c.chunking, p);
      assert forall i: nat :: SameAt(s.chunks, t.chunks, ChunkId(p, i)) by {
        forall i: nat ensures SameAt(s.chunks, t.chunks, ChunkId(p, i)) { assert ChunkId(p, i).path == p; }
      }
      SameTruth(s, t, c.chunking, p);
    }
  }

  /** The orphan sweep neither breaks nor mends a record. */
  lemma CleaningKeepsTruth(u: State, chunking: Chunking, p: Path)
    requires p in u.files
    ensures Truthful(Cleaned(u), chunking, p) <==> Truthful(u, chunking, p)
  {
    var info, pieces := u.files[p], chunking(p, u.files[p].hash);
    if |pieces| > 0 && info.chunkCount == |pieces| {
      forall i | 0 <= i < |pieces|
        ensures Piecewise(Cleaned(u), ChunkId(p, i), pieces[i], info.modTime) <==> Piecewise(u, ChunkId(p, i), pieces[i], info.modTime)
      {
        assert Expected(u.files, ChunkId(p, i));
      }
    }
  }

  /** The records the run overlooked, if any, were truthful. */
  ghost predicate OverlookedTruthful(s: State, c: Corpus, how: Course) {
    forall p :: Overlooked(s, c, how, p) ==> Truthful(s, c.chunking, p)
  }

  /** However a run ends - completed, failed or cut off before any store call -
      the store stays recoverable, unless the tracked files could not be read and
      one that is gone from disk had no truthful record. */
  lemma RunKeepsRecoverable(s: State, c: Corpus, how: Course, t: State, outcome: Outcome)
    requires Recoverable(s, c.chunking) && RunMayEnd(s, c, how, t, outcome)
    requires OverlookedTruthful(s, c, how)
    ensures Recoverable(t, c.chunking)
  {
    if outcome.Done? {
      DoneRecoverableIff(s, c, how, t, outcome.cleaned);
    } else if Committed(s, c, how, t) {
      CommitRecoverableIff(s, c, how, t, t);
    }
  }

  /** After a run that returned without error that exception is exact. */
  lemma DoneRecoverableIff(s: State, c: Corpus, how: Course, t: State, cleaned: bool)
    requires Recoverable(s, c.chunking) && RunMayEnd(s, c, how, t, Done(cleaned))
    ensures Recoverable(t, c.chunking) <==> OverlookedTruthful(s, c, how)
  {
    var u :| Committed(s, c, how, u) && t == if cleaned then Cleaned(u) else u;
    CommitRecoverableIff(s, c, how, u, t);
  }

  lemma CommitRecoverableIff(s: State, c: Corpus, how: Course, u: State, t: State)
    requires Recoverable(s, c.chunking) && Committed(s, c, how, u) && (t == u || t == Cleaned(u))
    ensures Recoverable(t, c.chunking) <==> OverlookedTruthful(s, c, how)
  {
    forall p | p in u.files
      ensures Truthful(t, c.chunking, p) <==> (Overlooked(s, c, how, p) ==> Truthful(s, c.chunking, p))
    {
      CleaningKeepsTruth(u, c.chunking, p);
      if Overlooked(s, c, how, p) { OverlookedIsKept(s, c, how, u, p); } else { CommitIsTruthful(s, c, how, u, p); }
    }
    forall p | Overlooked(s, c, how, p) ensures p in u.files { OverlookedIsKept(s, c, how, u, p); }
  }

  // -------------------------------------------------------------- histories

  /** One run of a history: the files it saw and how it went. */
  datatype Run = Run(files: map<Path, File>, how: Course, outcome: Outcome)

  /** Runs in sequence, none of which overlooked a record that was not truthful. */
  ghost predicate History(states: seq<State>, runs: seq<Run>, chunking: Chunking) {
    && |states| == |runs| + 1
    && forall i {:trigger runs[i]} :: 0 <= i < |runs| ==>
         && RunMayEnd(states[i], Corpus(runs[i].files, chunking), runs[i].how, states[i + 1], runs[i].outcome)
         && OverlookedTruthful(states[i], Corpus(runs[i].files, chunking), runs[i].how)
  }

  /** Any sequence of runs from a fresh store leaves a recoverable store. */
  lemma {:induction false} HistoryRecoverable(states: seq<State>, runs: seq<Run>, chunking: Chunking)
    requires History(states, runs, chunking)
    requires states[0].files == map[]
    ensures Recoverable(states[|runs|], chunking)
    decreases |runs|
  {
    if |runs| > 0 {
      var n := |runs| - 1;
      HistoryRecoverable(states[..n + 1], runs[..n], chunking);
      RunKeepsRecoverable(states[n], Corpus(runs[n].files, chunking), runs[n].how, states[n + 1], runs[n].outcome);
    }
  }

  // ---------------------------------------------- incremental equals rebuild

  /** Exactly the corpus's pieces are stored, under its ids. */
  ghost predicate HoldsExactly(t: State, c: Corpus) {
    && (forall id :: id in t.chunks <==> c.Has(id))
    && (forall id :: c.Has(id) ==> t.chunks[id].content == c.At(id).content && t.chunks[id].title == c.At(id).title)
  }

  /** The corpus's files are tracked, with their hash, size and count. */
  ghost predicate TracksAll(t: State, c: Corpus) {
    forall p :: p in c.files ==>
      p in t.files && |c.Pieces(p)| > 0 && t.files[p] == c.Info(p).(modTime := t.files[p].modTime)
        && t.files[p].modTime >= c.files[p].modTime
  }

  ghost predicate TracksExactly(t: State, c: Corpus) {
    TracksAll(t, c) && t.files.Keys == c.files.Keys
  }

  ghost predicate HoldsAll(t: State, c: Corpus) {
    forall id :: c.Has(id) ==>
      id in t.chunks && t.chunks[id].content == c.At(id).content && t.chunks[id].title == c.At(id).title
  }

  lemma CommitTracks(s: State, c: Corpus, how: Course, u: State)
    requires Recoverable(s, c.chunking) && Committed(s, c, how, u)
    ensures TracksAll(u, c)
    ensures forall p :: p in u.files <==> p in c.files || Overlooked(s, c, how, p)
  {
    forall p ensures p in u.files <==> p in c.files || Overlooked(s, c, how, p) {
      assert p in c.files ==> p in Adds(s, c, how) || !Changed(c, Seen(s, how), p);
    }
    forall p | p in c.files
      ensures |c.Pieces(p)| > 0 && u.files[p] == c.Info(p).(modTime := u.files[p].modTime)
      ensures u.files[p].modTime >= c.files[p].modTime
    {
      CommitIsTruthful(s, c, how, u, p);
      if p !in Adds(s, c, how) { assert !Changed(c, Seen(s, how), p); }
    }
  }

  lemma TruthHoldsAll(t: State, c: Corpus)
    requires TracksAll(t, c) && forall p :: p in c.files ==> p in t.files && Truthful(t, c.chunking, p)
    ensures HoldsAll(t, c)
  {
    forall id | c.Has(id)
      ensures id in t.chunks && t.chunks[id].content == c.At(id).content && t.chunks[id].title == c.At(id).title
    {
      assert Truthful(t, c.chunking, id.path);
      assert Piecewise(t, id, c.Pieces(id.path)[id.index], t.files[id.path].modTime);
    }
  }

  /** After a run that returned without error the store is ready, tracks the current
      files and holds every one of their pieces - even when deletions before
      re-indexing failed. It tracks nothing else exactly when the tracked files could
      be read or all of them are still on disk. */
  lemma DoneIsCurrent(s: State, c: Corpus, how: Course, t: State, cleaned: bool)
    requires Recoverable(s, c.chunking) && RunMayEnd(s, c, how, t, Done(cleaned))
    ensures t.meta.phase == Ready && TracksAll(t, c) && HoldsAll(t, c)
    ensures TracksExactly(t, c) <==> how.read || s.files.Keys <= c.files.Keys
  {
    DoneTracks(s, c, how, t, cleaned);
    DoneHolds(s, c, how, t, cleaned);
    KeysIff(s, c, how, t);
  }

  lemma DoneTracks(s: State, c: Corpus, how: Course, t: State, cleaned: bool)
    requires Recoverable(s, c.chunking) && RunMayEnd(s, c, how, t, Done(cleaned))
    ensures t.meta.phase == Ready && TracksAll(t, c)
    ensures forall p :: p in t.files <==> p in c.files || Overlooked(s, c, how, p)
  {
    var u :| Committed(s, c, how, u) && t == if cleaned then Cleaned(u) else u;
    CommitTracks(s, c, how, u);
  }

  lemma DoneHolds(s: State, c: Corpus, how: Course, t: State, cleaned: bool)
    requires Recoverable(s, c.chunking) && RunMayEnd(s, c, how, t, Done(cleaned))
    ensures HoldsAll(t, c)
  {
    var u :| Committed(s, c, how, u) && t == if cleaned then Cleaned(u) else u;
    CommitHoldsAll(s, c, how, u, t);
  }

  lemma CommitHoldsAll(s: State, c: Corpus, how: Course, u: State, t: State)
    requires Recoverable(s, c.chunking) && Committed(s, c, how, u) && (t == u || t == Cleaned(u))
    ensures HoldsAll(t, c)
  {
    CommitTracks(s, c, how, u);
    forall p | p in c.files ensures Truthful(t, c.chunking, p) {
      CommitIsTruthful(s, c, how, u, p);
      CleaningKeepsTruth(u, c.chunking, p);
    }
    TruthHoldsAll(t, c);
  }

  lemma KeysIff(s: State, c: Corpus, how: Course, t: State)
    requires forall p :: p in t.files <==> p in c.files || Overlooked(s, c, how, p)
    ensures t.files.Keys == c.files.Keys <==> how.read || s.files.Keys <= c.files.Keys
  {
    if t.files.Keys == c.files.Keys && !how.read {
      forall p | p in s.files ensures p in c.files { assert Overlooked(s, c, how, p) ==> p in t.files.Keys; }
    }
  }

  function OneFile(p: Path): Corpus {
    Corpus(map[p := File("hash", 0)], (path, hash) => [Piece("text", "title")])
  }

  function OnlyTracked(p: Path, info: FileInfo, chunk: Chunk, model: string): State {
    State(map[ChunkId(p, 0) := chunk], map[p := info], Meta(Ready, model, CHUNKER, "", false))
  }

  function AndIndexed(s: State, p: Path): State {
    var id := ChunkId(p, 0);
    State(s.chunks[id := ChunkOf(OneFile(p).At(id), Of(s.meta.model))], s.files[p := OneFile(p).Info(p)], s.meta)
  }

  lemma IndexedUnread(s: State, p: Path)
    requires p !in s.files && s.meta.phase == Ready && s.meta.chunker == CHUNKER && s.meta.model != ""
    ensures Committed(s, OneFile(p), Course(false, false, map[], s.meta.model), AndIndexed(s, p))
  {
    var c, how, t := OneFile(p), Course(false, false, map[], s.meta.model), AndIndexed(s, p);
    assert Adds(s, c, how) == {p} && Removes(s, c, how) == {};
    assert FilesCommitted(s, c, how, t);
    assert ChunksCommitted(s, c, how, t);
  }

  /** The tracked files could not be read: the run returns without error, and the
      file that was deleted from disk stays tracked, with its chunk. */
  lemma DeletedFileStays(gone: Path, kept: Path, info: FileInfo, chunk: Chunk, model: string)
    requires gone != kept && info.chunkCount == 1 && model != ""
    ensures var s, c := OnlyTracked(gone, info, chunk, model), OneFile(kept);
            var t := AndIndexed(s, kept);
            && RunMayEnd(s, c, Course(false, false, map[], model), t, Done(true))
            && gone !in c.files && gone in t.files && ChunkId(gone, 0) in t.chunks
  {
    var s := OnlyTracked(gone, info, chunk, model);
    IndexedUnread(s, kept);
    NothingToSweep(AndIndexed(s, kept));
  }

  lemma NothingToSweep(t: State)
    requires forall id :: id in t.chunks ==> Expected(t.files, id)
    ensures Cleaned(t) == t
  {
    assert (map id | id in t.chunks && Expected(t.files, id) :: t.chunks[id]) == t.chunks;
  }

  /** So for every call: what a run that returned without error leaves tracked besides
      the files on disk is what it could not read. */
  method IndexAndCompare(store: VectorStore, docs: seq<Document>, settings: Settings, probe: Option<string>, ghost c: Corpus)
    returns (outcome: Outcome, ghost read: bool)
    requires Collected(docs, c) && Recoverable(store.Now(), c.chunking)
    modifies store
    ensures outcome.Done? ==> forall p :: p in old(store.files) && p !in c.files ==> (p in store.files <==> !read)
    ensures outcome.Done? ==> TracksAll(store.Now(), c) && HoldsAll(store.Now(), c)
  {
    ghost var how;
    ghost var s := store.Now();
    outcome, how := IndexDocuments(store, docs, settings, probe, c);
    read := how.read;
    if outcome.Done? {
      DoneTracks(s, c, how, store.Now(), outcome.cleaned);
      DoneHolds(s, c, how, store.Now(), outcome.cleaned);
      forall p | p in s.files && p !in c.files ensures p in store.files <==> !read {
        assert p in store.Now().files <==> p in c.files || Overlooked(s, c, how, p);
      }
    }
  }

  /** The chunks that outlive a completed run although no file on disk accounts for
      them: all strays when nothing is tracked any more, because the sweep then does
      nothing, and otherwise those of overlooked records. */
  predicate Outlives(s: State, c: Corpus, how: Course, id: ChunkId) {
    if c.files == map[] && (how.read || s.files == map[]) then id.path !in s.files
    else Overlooked(s, c, how, id.path) && Expected(s.files, id)
  }

  /** With the orphan sweep done too, the chunks are exactly the current ones if and
      only if the store held none of those. */
  lemma ExactIff(s: State, c: Corpus, how: Course, t: State)
    requires Recoverable(s, c.chunking) && RunMayEnd(s, c, how, t, Done(true))
    ensures HoldsExactly(t, c) <==> forall id :: id in s.chunks ==> !Outlives(s, c, how, id)
    ensures forall id :: id in t.chunks <==> c.Has(id) || (id in s.chunks && Outlives(s, c, how, id))
  {
    SurvivorsExactly(s, c, how, t);
    DoneIsCurrent(s, c, how, t, true);
    ExactFrom(s, c, how, t);
  }

  lemma ExactFrom(s: State, c: Corpus, how: Course, t: State)
    requires HoldsAll(t, c)
    requires forall id :: id in t.chunks <==> c.Has(id) || (id in s.chunks && Outlives(s, c, how, id))
    ensures HoldsExactly(t, c) <==> forall id :: id in s.chunks ==> !Outlives(s, c, how, id)
  {
    forall id | id in s.chunks && Outlives(s, c, how, id) ensures id in t.chunks && !c.Has(id) {}
  }

  lemma SurvivorsExactly(s: State, c: Corpus, how: Course, t: State)
    requires Recoverable(s, c.chunking) && RunMayEnd(s, c, how, t, Done(true))
    ensures forall id :: id in t.chunks <==> c.Has(id) || (id in s.chunks && Outlives(s, c, how, id))
  {
    DoneIsCurrent(s, c, how, t, true);
    var u :| Committed(s, c, how, u) && t == Cleaned(u);
    CommitTracks(s, c, how, u);
    forall id ensures id in t.chunks <==> c.Has(id) || (id in s.chunks && Outlives(s, c, how, id)) {
      SurvivesIff(s, c, how, u, id);
    }
  }

  lemma SurvivesIff(s: State, c: Corpus, how: Course, u: State, id: ChunkId)
    requires Recoverable(s, c.chunking) && Committed(s, c, how, u) && TracksAll(u, c) && HoldsAll(Cleaned(u), c)
    requires forall p :: p in u.files <==> p in c.files || Overlooked(s, c, how, p)
    ensures id in Cleaned(u).chunks <==> c.Has(id) || (id in s.chunks && Outlives(s, c, how, id))
  {
    if c.files == map[] && (how.read || s.files == map[]) {
      assert u.files == map[];
      assert id.path !in Adds(s, c, how);
      if id.path !in s.files { assert SameAt(s.chunks, u.chunks, id); }
    } else {
      assert |u.files| > 0 by {
        if p :| p in c.files { assert p in u.files; } else { var p :| p in s.files; assert p in u.files; }
      }
      if Overlooked(s, c, how, id.path) {
        OverlookedIsKept(s, c, how, u, id.path);
        assert SameAt(s.chunks, u.chunks, ChunkId(id.path, id.index));
      }
    }
  }

  /** A stray chunk left by a cut-off first run survives a later, error-free run
      over no documents, although a rebuild would hold nothing. */
  lemma StrayChunkSurvives(id: ChunkId, chunk: Chunk, chunking: Chunking, how: Course, t: State)
    requires RunMayEnd(State(map[id := chunk], map[], Meta(Dirty, "", "", "", false)), Corpus(map[], chunking), how, t, Done(true))
    ensures id in t.chunks && !HoldsExactly(t, Corpus(map[], chunking))
  {
    var s, c := State(map[id := chunk], map[], Meta(Dirty, "", "", "", false)), Corpus(map[], chunking);
    ExactIff(s, c, how, t);
    assert id in s.chunks && Outlives(s, c, how, id);
  }

  ghost predicate SameContents(t: State, r: State) {
    && t.chunks.Keys == r.chunks.Keys
    && (forall id :: id in t.chunks ==> t.chunks[id].content == r.chunks[id].content && t.chunks[id].title == r.chunks[id].title)
    && t.files.Keys == r.files.Keys
    && (forall p :: p in t.files ==> t.files[p] == r.files[p].(modTime := t.files[p].modTime))
    && t.meta.phase == r.meta.phase
  }

  /** The promise: after any history of cut-off and failed runs, a run over at least
      one document that completes, sweep included, leaves the chunk contents and the
      tracked files of any completed run into an empty store. It is kept exactly when
      the tracked files could be read or all of them are still on disk. */
  lemma IncrementalEqualsRebuild(states: seq<State>, runs: seq<Run>, c: Corpus, how: Course, t: State,
                                 empty: State, rebuild: Course, r: State)
    requires History(states, runs, c.chunking) && states[0].files == map[]
    requires RunMayEnd(states[|runs|], c, how, t, Done(true)) && c.files != map[]
    requires empty.files == map[] && empty.chunks == map[] && RunMayEnd(empty, c, rebuild, r, Done(true))
    ensures SameContents(t, r) <==> how.read || states[|runs|].files.Keys <= c.files.Keys
  {
    var s := states[|runs|];
    HistoryRecoverable(states, runs, c.chunking);
    DoneIsCurrent(s, c, how, t, true);
    DoneIsCurrent(empty, c, rebuild, r, true);
    if how.read || s.files.Keys <= c.files.Keys {
      ExactIff(s, c, how, t);
      ExactIff(empty, c, rebuild, r);
      BothExact(t, r, c);
    }
  }

  lemma BothExact(t: State, r: State, c: Corpus)
    requires HoldsExactly(t, c) && HoldsExactly(r, c) && TracksExactly(t, c) && TracksExactly(r, c)
    requires t.meta.phase == r.meta.phase
    ensures SameContents(t, r)
  {
    forall p | p in t.files ensures t.files[p] == r.files[p].(modTime := t.files[p].modTime) {
      assert t.files[p] == c.Info(p).(modTime := t.files[p].modTime);
      assert r.files[p] == c.Info(p).(modTime := r.files[p].modTime);
    }
  }

  /** Recorded modification times agree with the disk exactly when no unchanged
      file had a later time on record: such a file is not re-indexed. */
  lemma ModTimesExactIff(s: State, c: Corpus, how: Course, t: State, cleaned: bool)
    requires Recoverable(s, c.chunking) && RunMayEnd(s, c, how, t, Done(cleaned))
    ensures c.files.Keys <= t.files.Keys
    ensures (forall p :: p in c.files ==> t.files[p].modTime == c.files[p].modTime) <==>
            (how.rebuild || !how.read || forall p :: p in c.files && p in s.files && s.files[p].hash == c.files[p].hash ==>
                                                   s.files[p].modTime <= c.files[p].modTime)
  {
    DoneTracks(s, c, how, t, cleaned);
    forall p | p in c.files
      ensures t.files[p].modTime ==
              if how.rebuild || Changed(c, Seen(s, how), p) then c.files[p].modTime else s.files[p].modTime
    {
      ModTimeAfter(s, c, how, t, cleaned, p);
    }
  }

  lemma ModTimeAfter(s: State, c: Corpus, how: Course, t: State, cleaned: bool, p: Path)
    requires RunMayEnd(s, c, how, t, Done(cleaned)) && p in c.files && p in t.files
    ensures !how.rebuild && !Changed(c, Seen(s, how), p) ==> p in s.files
    ensures t.files[p].modTime ==
            if how.rebuild || Changed(c, Seen(s, how), p) then c.files[p].modTime else s.files[p].modTime
  {
    var u :| Committed(s, c, how, u) && t == if cleaned then Cleaned(u) else u;
    if p in Adds(s, c, how) { assert u.files[p] == c.Info(p); }
  }

  // ------------------------------------------------------------- embeddings

  function Recorded(meta: Meta): Vector {
    if meta.model == "" then Absent else Of(meta.model)
  }

  /** Every stored vector comes from the model on record. */
  ghost predicate OneModel(s: State) {
    forall id :: id in s.chunks ==> s.chunks[id].vector == Recorded(s.meta)
  }

  /** Where each chunk of a completed run has its vector from. */
  lemma VectorAfter(s: State, c: Corpus, how: Course, t: State, id: ChunkId)
    requires Recoverable(s, c.chunking) && RunMayEnd(s, c, how, t, Done(true)) && c.files != map[] && id in t.chunks
    ensures id.path in Adds(s, c, how) ==>
              c.Has(id) && t.chunks[id].vector == VectorOf(c.At(id), how.reuse, how.model)
                && (how.model == "" ==> s.meta.model == "" || c.At(id).content in how.reuse)
    ensures id.path !in Adds(s, c, how) ==> id in s.chunks && t.chunks[id].vector == s.chunks[id].vector
    ensures t.meta.model == if how.model == "" then s.meta.model else how.model
  {
    ExactIff(s, c, how, t);
    var u :| Committed(s, c, how, u) && t == Cleaned(u);
    if id.path !in Adds(s, c, how) {
      assert id.path !in Removes(s, c, how);
      assert SameAt(s.chunks, u.chunks, id);
    }
  }

  /** A completed rebuild embeds everything with the recorded model, whatever the
      store held before, but for the chunks of records it overlooked. */
  lemma RebuildIsOneModel(s: State, c: Corpus, how: Course, t: State)
    requires Recoverable(s, c.chunking) && RunMayEnd(s, c, how, t, Done(true)) && c.files != map[] && how.rebuild
    ensures OneModel(t) <==> forall id :: id in s.chunks && Outlives(s, c, how, id) ==> s.chunks[id].vector == Recorded(t.meta)
  {
    ExactIff(s, c, how, t);
    forall id | id in t.chunks
      ensures if Outlives(s, c, how, id) then id in s.chunks && t.chunks[id].vector == s.chunks[id].vector
              else t.chunks[id].vector == Recorded(t.meta)
    {
      VectorAfter(s, c, how, t, id);
      ReuseFacts(s, c, how, t);
    }
    forall id | id in s.chunks && Outlives(s, c, how, id) ensures id in t.chunks {}
  }

  lemma ReuseFacts(s: State, c: Corpus, how: Course, t: State)
    requires RunMayEnd(s, c, how, t, Done(true))
    ensures how.rebuild ==> how.reuse == map[]
    ensures forall content :: content in how.reuse ==> CarriedOver(s, content, Of(how.reuse[content]))
  {
    var u :| Committed(s, c, how, u) && t == Cleaned(u);
  }

  /** A piece that an incremental run took over as it was, or whose vector it reused,
      or that it overlooked. */
  ghost predicate TakenOver(s: State, c: Corpus, how: Course, id: ChunkId) {
    || (c.Has(id) && (id.path !in Adds(s, c, how) || c.At(id).content in how.reuse))
    || (id in s.chunks && Outlives(s, c, how, id))
  }

  /** An incremental run compares each batch's model with the other batches but not
      with the recorded one. So it keeps the vectors uniform exactly when its batches
      were answered by the recorded model, or not at all, or no old vector is left. */
  lemma IncrementalOneModelIff(s: State, c: Corpus, how: Course, t: State)
    requires Recoverable(s, c.chunking) && RunMayEnd(s, c, how, t, Done(true)) && c.files != map[] && !how.rebuild
    requires OneModel(s)
    ensures OneModel(t) <==> how.model == "" || how.model == s.meta.model || forall id :: !TakenOver(s, c, how, id)
  {
    ExactIff(s, c, how, t);
    ReuseFacts(s, c, how, t);
    forall id | id in t.chunks
      ensures t.chunks[id].vector == if TakenOver(s, c, how, id) || how.model == "" then Recorded(s.meta) else Of(how.model)
    {
      VectorAfter(s, c, how, t, id);
      OldOrNew(s, c, how, t, id);
    }
    forall id | TakenOver(s, c, how, id) ensures id in t.chunks {}
    if how.model != "" && how.model != s.meta.model {
      if id :| TakenOver(s, c, how, id) { assert t.chunks[id].vector == Recorded(s.meta) != Recorded(t.meta); }
    }
  }

  lemma OldOrNew(s: State, c: Corpus, how: Course, t: State, id: ChunkId)
    requires OneModel(s) && forall content :: content in how.reuse ==> CarriedOver(s, content, Of(how.reuse[content]))
    requires id in t.chunks && (c.Has(id) || (id in s.chunks && Outlives(s, c, how, id)))
    requires id.path in Adds(s, c, how) ==>
               c.Has(id) && t.chunks[id].vector == VectorOf(c.At(id), how.reuse, how.model)
                 && (how.model == "" ==> s.meta.model == "" || c.At(id).content in how.reuse)
    requires id.path !in Adds(s, c, how) ==> id in s.chunks && t.chunks[id].vector == s.chunks[id].vector
    ensures t.chunks[id].vector == if TakenOver(s, c, how, id) || how.model == "" then Recorded(s.meta) else Of(how.model)
  {
    if id.path in Adds(s, c, how) && c.At(id).content in how.reuse {
      assert CarriedOver(s, c.At(id).content, Of(how.reuse[c.At(id).content]));
    }
  }

  /** Two files whose one chunk is the text their hash stands for. */
  function TwoFiles(kept: Path, added: Path): Corpus {
    Corpus(map[kept := File("old", 0), added := File("new", 0)], (path, hash) => [Piece(hash, "title")])
  }

  function Indexed(c: Corpus, p: Path, model: string): State
    requires p in c.files && |c.Pieces(p)| == 1
  {
    var id := ChunkId(p, 0);
    State(map[id := ChunkOf(c.At(id), Of(model))], map[p := c.Info(p)], Meta(Ready, model, CHUNKER, "", false))
  }

  function IndexedToo(s: State, c: Corpus, p: Path, model: string): State
    requires p in c.files && |c.Pieces(p)| == 1
  {
    var id := ChunkId(p, 0);
    State(s.chunks[id := ChunkOf(c.At(id), Of(model))], s.files[p := c.Info(p)], s.meta.(model := model))
  }

  lemma AddedIsCommitted(kept: Path, added: Path, before: string, model: string)
    requires kept != added && model != ""
    ensures var c := TwoFiles(kept, added);
            var s := Indexed(c, kept, before);
            Committed(s, c, Course(true, false, map[], model), IndexedToo(s, c, added, model))
  {
    var c := TwoFiles(kept, added);
    var s, how := Indexed(c, kept, before), Course(true, false, map[], model);
    var t := IndexedToo(s, c, added, model);
    assert Adds(s, c, how) == {added} && Removes(s, c, how) == {};
    assert FilesCommitted(s, c, how, t);
    assert ChunksCommitted(s, c, how, t);
  }

  /** Such a run: one file is unchanged, one is new, and another model than the one on
      record answers the batch. It returns without error, and the vectors are mixed. */
  lemma OtherModelMixes(kept: Path, added: Path, before: string, model: string)
    requires kept != added && before != "" && model != "" && model != before
    ensures var c := TwoFiles(kept, added);
            var s := Indexed(c, kept, before);
            var t := IndexedToo(s, c, added, model);
            && OneModel(s) && RunMayEnd(s, c, Course(true, false, map[], model), t, Done(true)) && !OneModel(t)
  {
    var c := TwoFiles(kept, added);
    var s := Indexed(c, kept, before);
    var t := IndexedToo(s, c, added, model);
    AddedIsCommitted(kept, added, before, model);
    NothingToSweep(t);
    assert ChunkId(kept, 0) in t.chunks && t.chunks[ChunkId(kept, 0)].vector == Of(before);
    assert ChunkId(kept, 0) in s.chunks;
  }
}
