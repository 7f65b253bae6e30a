# Verification of the memory server's core

A Dafny model of the parts of the server whose behaviour cannot be read off one
function: the multi-hop recall, the incremental index, the cache and its
watcher, the trust rules, the two batch jobs over the memory bank, the session
tracker, the Markdown chunker, the centred similarity, the stdio framing, the
merge of duplicates and the per-document cap. `dafny verify dfyconfig.toml`
checks everything.

Code that works by changing things is modelled by classes and methods with
loops; each is proved against a function or predicate, and the laws are lemmas
about those. The database, the embedder and the file system are calls that may
succeed or fail. Scores are reals, times are integers, and where a module works
on bytes a byte is a `char`.

## Components

**Multi-hop recall** (`Multihop`, `RecallExamples`). A level walk over the weighted triples that
expands only what the previous level improved. It finds the best damped score
over all seed walks within the bound, whatever order the maps are iterated in.
The comment in `internal/memory/multihop.go` promises the shortest chain; the
code keeps the best-scoring one, and `ShortestChainIff` says when they coincide.
Another comment promises the path of the highest single contribution; the code
compares with a proxy, so the order of the rows may decide (`GreatestReportedIff`).
Each failure is shown on a whole graph, from a seed memory on.

**Incremental index** (`VectorIndex`, `IndexChanges`, `IndexBatches`, `IndexRun`,
`IndexHistory`). Mark dirty, delete, embed in batches of fifty, commit, sweep
orphans. Every store call but the reads of single metadata values may fail, and
`RunMayEnd` describes every store a run can leave behind; a history is any
sequence of such runs. Three promises fail in corners: a failed read of the
tracked files counts as an empty index, so a file that is gone from disk is
overlooked (`DoneIsCurrent`, `DeletedFileStays`); the orphan sweep does nothing
while no file is tracked (`ExactIff`); and a batch's model is compared with the
other batches but not with the recorded one (`IncrementalOneModelIff`,
`OtherModelMixes`).

**Cache and watcher** (`CacheCore`, `Convergence`). `CacheCore` is the cache with
its context index and copy-on-write entries as objects. `Convergence` is a state
machine of own writers, the access flusher, other processes and the version
poller, with a step wherever one can get between two actions of another. A
failed reload is never retried, because the version counts as seen before the
reload runs (`TickRestoresIff`, `FailedReloadSticks`). The access counters are
exempt from agreement, and `AccessAgreesIff` says when they agree all the same.

**Trust** (`Trust`, `TrustHistory`). Metadata is modelled by the words the code
recognises, already trimmed and lower-cased. A history is any interleaving of the
writers of one process. All but one of them read a record under the lock they
write it under. The recount of references scans first and later writes the whole
scanned metadata back, so it can undo a correction made in between
(`RecountUndoesCorrection`, `CanonicalAgain`). A guarded record therefore stays
guarded exactly when no recount in flight scanned it unguarded (`StaysSafeIff`);
the guard itself is needed in full (`LatentCanonicalIff`).

**Recount of references** (`Recount`). Tally, compare, write row by row. Run again
undisturbed it finds exactly the rows whose update failed (`RecountAgain`), which
is the idempotence its comment promises when none did; `NothingLostIff` says when a
write loses nothing.

**Sediment cycle** (`Sediment`, `MemoryBank`, `BatchEffects`, `SedimentCycles`,
`SedimentRepeats`) and **archive sweep** (`ArchiveSweep`, `ArchiveRepeats`). Both
list the bank, decide about each record, and rewrite it or create one review
item. An id keeps its surrounding white space in the dedup sets while the stored
item names the trimmed id, so such an id gets a new item on every run
(`ThirdRunQuietIff`, `ClashDuplicates`). The store itself gives UUIDs; only a
caller of the Go API can bring such an id (`PlainIdsSettle`). The comments let a dismissed sediment
item be proposed again; the stored record cannot say that it was dismissed
(`DismissedStaysPending`).

**Session tracker** (`SessionTracker`, `SessionMachine`). The sections under the
mutex are methods of a class; their interleavings with the pool of checkpoint
workers, the timer and Close are a state machine. Close waits for checkpoints and
its own flush, so an idle flush may outlive it (`NoneAtWorkIff`).

**Chunker and breadcrumbs** (`Splitter`, `SplitCoverage`, `Skeleton`, `Breadcrumb`,
`SectionExpansion`, `SectionListing`). The splitter's coverage bound is exact: 101 bytes of
overlap, one less than its scan and alignment distances add up to, because the
byte at a break is itself white space. A chunk may exceed the chunk size by the
two newlines after its breadcrumb (`ChunkBound`, `OversizeIff`). The store lists
chunks by id as text, so the eleventh comes before the third; `SectionExpandsIff`
and `KeyInOrderIff` say when a section still expands in order.

**Centred cosine** (`Centering`), **stdio framing** (`Framing`), **merged body**
(`Merge`), **per-document cap** (`Ranking`). The line frame is the stdio transport
of the Model Context Protocol, revision 2025-11-25; the header frame is that of
the Header Part of the Language Server Protocol 3.17 base protocol.

`Common` and `Text` hold what several components share.

## Model

| member | source | states |
|---|---|---|
| `Multihop.BuildEntityAdjacency` | internal/memory/multihop.go:357-368 | the adjacency lists, for each entity, exactly the triples touching it, at either end |
| `Multihop.SeedMemoryScores` | internal/memory/multihop.go:116-133 | a memory hit twice carries the score of its last hit, clamped to the unit interval |
| `Multihop.SeedEntities` | internal/memory/multihop.go:148-162 | an entity is a seed exactly when a triple of a seed memory touches it; its score is the greatest of those memories', 0.5 standing in for zero |
| `Multihop.WalkLevel` | internal/memory/multihop.go:199-236 | one level over the frontier, read from the snapshot taken at its start, leaves every triple of the old scores relaxed, so that one more hop is accounted for and the new frontier holds exactly the improved entities |
| `Multihop.OfferEdge` | internal/memory/multihop.go:210-231 | offering a triple to its other end changes that end only, only upwards, and keeps a walk behind the new score |
| `Multihop.WalkGraph` | internal/memory/multihop.go:174-236 | the walk returns, for every entity, exactly the best damped score over all seed walks within the hop bound, with a real walk of the stored length and triples behind it that is shortest among the equally good |
| `Multihop.LevelSettles` | internal/memory/multihop.go:199-236 | a level that improved nothing settles the whole walk, so stopping early loses nothing |
| `Multihop.OrderIndependent` | internal/memory/multihop.go:199-236 | any two results of the walk, whatever order the maps were iterated in, agree on the entities reached, their scores and their hop counts |
| `Multihop.ReachedExactly` | internal/memory/multihop.go:174-236 | an entity is present if and only if some walk of at most the bound reaches it from a seed |
| `Multihop.ShortestChainIff` | internal/memory/multihop.go:31-39 | an entity keeps a shortest chain from the seeds, as the doc comment promises, exactly when some shortest chain scores as well as every other within the hop bound |
| `RecallExamples.LongerChainWins` | internal/memory/multihop.go:148-231 | for any three entities a recall from one seed memory where the stored chain of an entity has two hops although one hop suffices |
| `Multihop.AggregateMemories` | internal/memory/multihop.go:238-283 | one pass over the rows gives each memory the total of its contributions, the better ends of its triples, and the path and hops of one of them |
| `Multihop.AggregateScores` | internal/memory/multihop.go:238-283 | a memory is scored exactly when one of its triples touches a reached entity, with a positive score that is the sum over its triples |
| `Multihop.AggregatePath` | internal/memory/multihop.go:248-283 | the path reported for a memory is the stored chain of a reached end of one of its own triples |
| `Multihop.AggregateKeeps` | internal/memory/multihop.go:278-281 | that path is that of the contribution the rule of replacement leaves: an empty path always gives way, another only to a score above 0.85 to the power of its hops |
| `Multihop.ReportedShortestIff` | internal/memory/multihop.go:31-39 | its hop count is the shortest distance of the end it leads to exactly when some shortest chain to that end scores as well as every other |
| `Multihop.GreatestReportedIff` | internal/memory/multihop.go:238-241 | the promised path of the highest single contribution is reported for every order of the rows exactly when all contributions are equal, or a chain contributes most and damping alone brings every lesser chain below it |
| `RecallExamples.RowOrderDecidesPath` | internal/memory/multihop.go:278-281 | a recall over five rows where the order of the two rows of one memory decides whether its path is reported as empty or as the two-hop chain |
| `Multihop.RecallIsUnit` | internal/memory/triples.go:63-71 | with stored weights of at most one, the seeds of a recall and every chain from them score at most one |
| `Multihop.RankAll` | internal/memory/multihop.go:284-298 | the ranking lists every scored memory once, by falling score with ties in favour of fewer hops |
| `Multihop.RecallMultihop` | internal/memory/multihop.go:75-332 | the results are the top memories of an exact walk from the seed memories' entities, with the kept paths, those no longer stored dropped; without triples the seeds themselves are returned, or refused when strict |
| `VectorIndex.VectorStore.CommitIndexState` | internal/vectorstore/metadata.go:34-96 | the metadata, deletions and upserts of a commit land together or not at all |
| `VectorIndex.VectorStore.CleanOrphans` | internal/vectorstore/orphan.go:15-101 | drops the chunks of untracked files, and nothing at all when no file is tracked |
| `IndexChanges.CalculateIndexChanges` | internal/rag/indexer.go:361-408 | the documents to add are all pieces of exactly the new and changed files, or of every file on a rebuild, each once and first piece first; the paths to remove are those no longer there |
| `IndexBatches.EmbedDocuments` | internal/rag/vectorservice.go:352-408 | chunks with known content keep the vector of that content, the rest get the one model that answered |
| `IndexBatches.IndexBatch` | internal/rag/vectorservice.go:352-434 | every document of a batch is a success or a failure and not both, in order, and the store holds exactly the successes' chunks besides what it held |
| `IndexBatches.IndexKeywordOnly` | internal/rag/vectorservice.go:439-456 | without an embedder the whole batch is stored, without vectors |
| `IndexBatches.RecordFailures` | internal/rag/indexer.go:207-222 | a file with one failed chunk is failed for the whole run and leaves the files to record |
| `IndexBatches.RecordSuccesses` | internal/rag/indexer.go:223-251 | after a batch the files to record are exactly those processed without a failure, with the facts of the file |
| `IndexBatches.LaterPieceIsKnown` | internal/rag/indexer.go:223-251 | only the first piece of a file has to record it: later pieces find it known |
| `IndexRun.EmbedAll` | internal/rag/indexer.go:168-262 | after the batches of fifty, a run whose batches were all answered has processed every file, and what it stored is the documents of the corpus |
| `IndexRun.Execute` | internal/rag/indexer.go:98-262 | from the dirty mark to the last batch the store stays dirty, and only the planned files were touched |
| `IndexRun.IndexDocuments` | internal/rag/indexer.go:14-324 | every way the run may stop, at any store call, leaves the store as it was, marked dirty over some subset of its writes, or committed as the corpus and the tracked files it could read demand; a failed read of those counts as none |
| `IndexRun.CommitHolds` | internal/rag/indexer.go:268-312 | without failed files the final state records and holds every file it re-indexed, drops those it saw gone and keeps the rest |
| `IndexHistory.RunKeepsRecoverable` | internal/rag/indexer.go:42-312 | a run cut off anywhere leaves a store from which the next run recovers: dirty, or truthful about the files it tracks; unless it overlooked an untruthful record, its read of the tracked files having failed |
| `IndexHistory.DoneRecoverableIff` | internal/rag/indexer.go:79-82 | after a run that returns nil that exception is exact |
| `IndexHistory.HistoryRecoverable` | internal/rag/indexer.go:42-312 | so does any sequence of runs over any corpora, none of which meets that exception |
| `IndexHistory.DoneIsCurrent` | internal/rag/indexer.go:79-324 | a run that returns nil leaves the state ready, tracks the corpus and holds every piece with its current text; it tracks nothing else exactly when the tracked files could be read or all are still on disk |
| `IndexHistory.DeletedFileStays` | internal/rag/indexer.go:79-82 | a store and a run that returns nil although the read of the tracked files failed: the file deleted from disk stays tracked, with its chunk |
| `IndexHistory.IndexAndCompare` | internal/rag/indexer.go:79-82 | for every call that returns nil: a file that was tracked and is gone from disk stays tracked exactly when the read of the tracked files failed |
| `IndexHistory.ExactIff` | internal/vectorstore/orphan.go:15-101 | after a completed run with its sweep the store holds the corpus and the chunks that outlive the run, and exactly the corpus if and only if there were none: strays when nothing is tracked any more, otherwise those of overlooked records |
| `IndexHistory.StrayChunkSurvives` | internal/vectorstore/orphan.go:15-101 | a store where a stray chunk survives an error-free run over no documents |
| `IndexHistory.IncrementalEqualsRebuild` | internal/rag/indexer.go:14-324 | after any history, a completed run over at least one document leaves the chunk contents and tracked files of any completed run into an empty store, exactly when the tracked files could be read or all are still on disk |
| `IndexHistory.ModTimesExactIff` | internal/rag/indexer.go:361-408 | the recorded modification times are those on disk exactly when the run re-indexed everything or no unchanged file had a later one on record |
| `IndexHistory.RebuildIsOneModel` | internal/rag/indexer.go:42-60 | a completed rebuild leaves vectors of the recorded model only, exactly when the chunks it overlooked have it too |
| `IndexHistory.IncrementalOneModelIff` | internal/rag/indexer.go:190-206 | an incremental run over a uniform store keeps it uniform exactly when its batches were answered by the recorded model or by none, or no old vector is left: no file unchanged, no text reused, nothing overlooked |
| `IndexHistory.OtherModelMixes` | internal/rag/indexer.go:190-206 | a uniform store and a run over one unchanged and one new file that returns nil and leaves vectors of two models |
| `Convergence.StepKeepsInv` | internal/memory/foreignwrites.go:61-129 | every step of a writer, the flusher, another process or the watcher keeps the cache equal to the database image outside the rows changed behind its back, and those are empty once the version seen is the current one |
| `Convergence.UpToDateAgrees` | internal/memory/foreignwrites.go:81-129 | in every interleaving, once the last seen version is current and no reload is pending or failed, the cache is the image of the database on every field but the access ones |
| `Convergence.OwnWritesVisible` | internal/memory/store_sql.go:29-110 | until another process commits, every full-row or column write of this one is in the cache once published, reloads or not |
| `Convergence.TickRestoresIff` | internal/memory/foreignwrites.go:100-117 | one undisturbed tick restores agreement, except exactly after a failed reload with no commit since |
| `Convergence.FailedReloadSticks` | internal/memory/foreignwrites.go:100-109 | after a failed reload no number of ticks changes anything until a commit, because the version is marked as seen first |
| `Convergence.MissedBeforeBaselineIff` | internal/memory/foreignwrites.go:61-80 | a foreign commit between the first load and the version baseline is never noticed by ticks, and the cache still agrees exactly when it changed no row's presence or body |
| `Convergence.AccessAgreesIff` | internal/memory/read.go:599-662 | in every interleaving an up-to-date cache shows the database's access counters exactly when no flush reached a row of it both through the last reload and by its publication after that |
| `Convergence.AccessCountedTwice` | internal/memory/read.go:599-662 | a reload between the flusher's commit and its cache update leaves the cached counter one too high |
| `CacheCore.SetKeeps` | internal/memory/memory.go:434-450 | setting an entry keeps the context index the exact inverse of the entries' contexts, with the same objects and no empty bucket, also when the context changes |
| `CacheCore.UnindexKeeps` | internal/memory/memory.go:522-532 | so does taking an entry out |
| `CacheCore.IndexDetermined` | internal/memory/memory.go:434-450 | the entries determine the index: two inverses of the same entries are equal |
| `CacheCore.Cache.CacheSetLocked` | internal/memory/memory.go:434-450 | the entry is published under its id and context, and nothing else changes |
| `CacheCore.Cache.CacheDeleteLocked` | internal/memory/memory.go:522-532 | the entry is gone from both maps, and nothing else changes |
| `CacheCore.Cache.LoadMemoriesToCache` | internal/memory/memory.go:379-430 | the reloaded cache holds exactly the rows, in new objects |
| `CacheCore.Cache.UpdateCachedField` | internal/memory/helpers.go:46-54 | the edit is applied to a copy that replaces the entry; only the cache's own maps are written to |
| `CacheCore.Cache.FlushAccessStats` | internal/memory/read.go:641-662 | each id of the batch has its access fields raised, once for each occurrence, in a copy |
| `CacheCore.Cache.SnapshotForContext` | internal/memory/read.go:41-58 | the snapshot holds exactly the entries of the context, or all, each once |
| `CacheCore.ReadThenWrite` | internal/memory/read.go:41-58 | a snapshot's entries keep their field values through any later sequence of sets, deletes, edits, flushes and reloads, while the cache moves on as specified |
| `Trust.NormalizeEngineeringMetadata` | internal/memory/engineering.go:476-531 | the step-by-step edit refuses exactly the unrecognised lifecycle and review words, and otherwise yields the normal form defined key by key |
| `Trust.NormalLifecycle` | internal/memory/engineering.go:285-300 | the lifecycle derived from a normalised record is its settled one, else superseded if archived, else that of the storage type |
| `Trust.NormaliseIdempotent` | internal/memory/engineering.go:476-531 | normalising a normalised record changes nothing |
| `Trust.NormaliseKeepsLifecycleIff` | internal/memory/engineering.go:498-516 | normalisation changes the derived lifecycle exactly for an archived record whose status says something else and that has no lifecycle status or canonical mark |
| `Trust.NoDismissalStored` | internal/memory/engineering.go:517-529 | a stored record never carries review_required "false" |
| `Trust.MarkOutdatedIff` | internal/memory/write.go:286-306 | marking a record outdated takes effect exactly when it has no canonical mark and its lifecycle status is absent or says so already |
| `Trust.PromotionPromotes` | internal/memory/write.go:433-478 | a promotion yields a canonical, trusted record and claims a verification only when there was one |
| `Trust.GuardedIsUntrusted` | internal/memory/engineering.go:59-77 | a record without any canonical source and with untrusted provenance is neither canonical nor promotable without verification |
| `TrustHistory.StepIsSafe` | internal/memory/write.go:402-505 | no step of any writer but a verified promotion of the record itself makes a guarded record canonical or trusted, or leaves an unguarded snapshot of it, when none was pending |
| `TrustHistory.NeverCanonicalUnvouched` | internal/memory/engineering.go:101-116 | over any history of such steps a guarded record of which recounts in flight hold guarded snapshots only, or a record created on the way, never becomes canonical or promotable without verification |
| `TrustHistory.WriteCountSafeIff` | internal/memory/refcount.go:218-247 | the row a recount writes is guarded exactly when the row it scanned was, whatever happened to the record since |
| `TrustHistory.StaysSafeIff` | internal/memory/refcount.go:131-262 | a guarded record stays guarded through every history without a verified promotion of it exactly when every pending snapshot of it is guarded |
| `TrustHistory.RecountUndoesCorrection` | internal/memory/engineering.go:97-106 | a recount scans a record, an allowed update takes its trust away, the recount writes: the record is as it was scanned, but for the count |
| `TrustHistory.CanonicalAgain` | internal/memory/refcount.go:218-247 | so a record corrected in between is canonical and trusted again without a promotion |
| `TrustHistory.LatentCanonicalIff` | internal/memory/engineering.go:285-300 | a record that is not canonical and not trusted can be made canonical by one allowed caller update exactly when its status still says canonical behind another source |
| `Recount.TallyEdges` | internal/memory/refcount.go:143-181 | one pass over the scanned rows counts, for every id, exactly the rows that avoid it and the rows it supersedes |
| `Recount.RecountReferences` | internal/memory/refcount.go:131-262 | the rows named in the result get the metadata scanned with the derived count, the rest and everything on a dry run stays; they are the rows with a wrong count, but for those whose update failed |
| `Recount.RecountAgain` | internal/memory/refcount.go:104-110 | after an undisturbed recount the next one has to change exactly the rows whose update failed, so it updates nothing exactly when none did |
| `Recount.NothingLostIff` | internal/memory/refcount.go:218-247 | a write comes to the count alone exactly when the row's other metadata is still what was scanned |
| `Sediment.DecideMovesOneStep` | internal/memory/sediment.go:178-289 | every decision moves one rung from the record's own layer, and only the first rung is climbed unattended |
| `Sediment.DefaultsApplied` | internal/memory/sediment.go:140-163 | every threshold of an applied policy is positive |
| `Sediment.ItemIsOpen` | internal/memory/sediment_cycle.go:171-226 | the item written for a target counts as unresolved for the trimmed target id, unless that is empty |
| `Sediment.DismissedStaysPending` | internal/server/tools_review_queue.go:217-265 | an item resolved by writing review_required "false" still counts as unresolved once stored |
| `SedimentCycles.LoadPendingReviews` | internal/memory/sediment_cycle.go:238-256 | the pending set is exactly the targets of unresolved items |
| `SedimentCycles.Move` | internal/memory/write.go:697-742 | one unattended move changes the record's layer and one counter, or only the error count |
| `SedimentCycles.CreateSedimentReviewItem` | internal/memory/sediment_cycle.go:171-226 | at most one new item for a target, and none when one is pending |
| `SedimentCycles.RunSedimentCycle` | internal/memory/sediment_cycle.go:58-161 | the bank afterwards is the old one with exactly the successful moves made and one item created for each proposing record considered that had none; the counters count those sets, and the limit counts decisions, queued ones included |
| `SedimentRepeats.QuietIffSettled` | internal/memory/sediment_cycle.go:58-161 | a full run writes nothing exactly when nothing can be moved unattended and every proposal is pending |
| `SedimentRepeats.QueuedExactly` | internal/memory/sediment_cycle.go:171-256 | the targets pending after a full run are those pending before and the trimmed ids of the proposing records |
| `SedimentRepeats.ThirdRunQuietIff` | internal/memory/sediment_cycle.go:58-256 | with a fixed clock the third of three full runs writes nothing exactly when, in the starting bank, every record that proposes a move or is moved into one that does has an id free of surrounding white space and not blank |
| `SedimentRepeats.PlainIdsSettle` | internal/memory/write.go:50-53 | so it writes nothing when the ids are those the store gives |
| `SedimentRepeats.SecondRunQuietIff` | internal/memory/sediment_cycle.go:58-256 | the second already writes nothing exactly when each of those records is queued before the first, or queued by it under its own id |
| `SedimentRepeats.OneOpenKept` | internal/memory/sediment_cycle.go:171-256 | one unresolved item per target before any run, cut short or not, means one after it, unless two due ids differ only in white space |
| `SedimentRepeats.ClashDuplicates` | internal/memory/sediment_cycle.go:171-256 | and in that case a full run does leave two |
| `SedimentRepeats.PlainIdsNeverClash` | internal/memory/write.go:50-53 | which cannot happen to ids the store gives |
| `SedimentRepeats.CountsExactly` | internal/memory/sediment_cycle.go:58-161 | the counters of a full run, dry or live, as sizes of sets of records |
| `SedimentRepeats.PreviewForetells` | internal/memory/sediment_cycle.go:104-130 | a dry run changes nothing and its counters equal the live run's, but for the proposals already queued; so they agree exactly when there are none |
| `BatchEffects.QuietIff` | internal/lifecycle/archive_sweep.go:374-484 | a batch leaves the bank as it was exactly when every item was already there and every rewrite is the identity |
| `BatchEffects.CreatedDistinct` | internal/lifecycle/archive_sweep.go:562-606 | each created review item has a record of its own |
| `MemoryBank.MemoryStore.MarkOutdated` | internal/memory/write.go:273-380 | fails whole, for an unknown id, invalid metadata or a database fault, or rewrites one record |
| `MemoryBank.MemoryStore.PromoteToCanonical` | internal/memory/write.go:421-505 | likewise, and is refused for untrusted provenance without verification |
| `ArchiveSweep.CandidateIsItem` | internal/lifecycle/archive_sweep.go:562-606 | the review item of a candidate is recognised by the next sweep for the trimmed id, unless that is empty |
| `ArchiveSweep.ActionClass` | internal/lifecycle/archive_sweep.go:487-542 | a record is retired, promoted, proposed or left alone, one of them only |
| `ArchiveSweep.ReadExistingReviews` | internal/lifecycle/archive_sweep.go:387-403 | the dedup set is exactly the targets of the slug's sweep items, resolved or not |
| `ArchiveSweep.SweepSlug` | internal/lifecycle/archive_sweep.go:374-484 | every record of the cohort is handled once; the bank afterwards has exactly the successful rewrites and one new item for each candidate without one, and the counters count those sets |
| `ArchiveRepeats.SweepArchive` | internal/lifecycle/archive_sweep.go:242-301 | the totals are the sums over the slugs, each swept on the bank the previous one left, and each slug is reported with the counters of its last sweep; a failed listing ends the sweep without a result |
| `ArchiveRepeats.OtherSlugsUntouched` | internal/lifecycle/archive_sweep.go:374-484 | sweeping one slug changes no record of another and adds none |
| `ArchiveRepeats.PreviewForetells` | internal/lifecycle/archive_sweep.go:426-471 | with distinct slugs and no failing write a dry run shows, slug by slug, the live run's counters, and writes nothing |
| `ArchiveRepeats.RetiredAgainIff` | internal/lifecycle/archive_sweep.go:512-541 | a retired record is retired again by the next sweep exactly when it carries a canonical mark or a lifecycle status |
| `ArchiveRepeats.SecondSweepQuietIff` | internal/lifecycle/archive_sweep.go:374-542 | without automatic promotion a second sweep of a slug, other slugs being swept in between, writes nothing exactly when no retired record resists retirement and every proposed id is plain |
| `ArchiveRepeats.SecondRunWritesNothing` | internal/lifecycle/archive_sweep.go:242-301 | so a second sweep over the same distinct slugs writes nothing when every slug converges |
| `ArchiveRepeats.PromotedAgain` | internal/lifecycle/archive_sweep.go:443-460 | with automatic promotion a trusted record is promoted again by every sweep |
| `SessionTracker.Tracker.HandleToolCall` | internal/server/session_tracker.go:133-177 | one locked section: the session is opened, extended unless the line repeats, capped at 1000, the timer armed, and a due checkpoint handed out as a copy |
| `SessionTracker.Tracker.TakeFromIdle` | internal/server/session_tracker.go:279-290 | the idle flush takes the open session and disarms the timer, unless the tracker is closed |
| `SessionTracker.Tracker.TakeWithNotification` | internal/server/session_tracker.go:298-313 | a boundary notification takes the open session, or a new one, with its own lines added |
| `SessionTracker.Tracker.BeginClose` | internal/server/session_tracker.go:209-220 | only the first Close takes the session; the tracker is closed and disarmed |
| `SessionMachine.StepKeepsPool` | internal/server/session_tracker.go:436-468 | in every interleaving the semaphore counts the slots held and the wait group the workers registered, and none is registered once Close has drained |
| `SessionMachine.CheckpointsBounded` | internal/server/session_tracker.go:436-468 | at most two checkpoints of the pool are in flight, and none runs or starts after Close has drained them |
| `SessionMachine.CallConserves` | internal/server/session_tracker.go:155-171 | a call adds its activity, unless it repeats, and moves the oldest out past the cap |
| `SessionMachine.StepConserves` | internal/server/session_tracker.go:118-337 | every step moves activities between places without losing or copying one |
| `SessionMachine.ExactlyOnePlace` | internal/server/session_tracker.go:118-337 | in every run each recorded activity is in exactly one of: the open session, Close's hands, one flush, one reset, beyond the cap; and once |
| `SessionMachine.NeverFlushedTwice` | internal/server/session_tracker.go:275-316 | no activity reaches two flushes |
| `SessionMachine.ClosedRecordsNothing` | internal/server/session_tracker.go:204-230 | once closed, nothing is recorded and no session opens |
| `SessionMachine.UnfinishedAre` | internal/server/session_tracker.go:275-316 | the flushes at work at any moment of a run are those started and not yet finished |
| `SessionMachine.NoneAtWorkIff` | internal/server/session_tracker.go:223-230 | when Close has returned no flush is at work exactly if every one that the idle timer or a notification started has finished: checkpoints and its own flush are all it waits for |
| `SessionMachine.IdleFlushOutlivesClose` | internal/server/session_tracker.go:223-230 | a run in which Close returns while an idle flush is still at work |
| `Splitter.AlignRuneStart` | internal/textfmt/truncate.go:66-77 | the greatest rune start at or before the index, clamped to the text |
| `Splitter.SplitTextByBudget` | internal/rag/skeleton.go:340-382 | the loop's chunks are the texts of the windows' trimmed spans, blank ones left out |
| `Splitter.AlignedNear` | internal/rag/skeleton.go:357-358 | in UTF-8 the rune an index falls into starts at most three bytes before it |
| `SplitCoverage.NextStarts` | internal/rag/skeleton.go:356-381 | a window is never empty, and the next one starts no later than a break byte after its end, when the windows keep up |
| `SplitCoverage.ChunksAreGood` | internal/rag/skeleton.go:340-382 | chunks are in order, at most the budget long, cut on rune boundaries, with no white space at either end |
| `SplitCoverage.CoversEveryTextIff` | internal/rag/skeleton.go:340-382 | no visible byte of any UTF-8 text is lost exactly when budget and step overlap by 101 bytes, or the step is at most 2 and leaves 3 |
| `SplitCoverage.CoversInUseIff` | internal/rag/skeleton.go:340-382 | for the budgets the chunker uses and a smaller overlap: exactly when the overlap is at least 101 |
| `SplitCoverage.LosesBetweenWindows` | internal/rag/skeleton.go:356-381 | for every other budget of four bytes and step of three or more, a text with a lost byte |
| `Skeleton.ParseMarkdownSkeleton` | internal/rag/skeleton.go:148-246 | the loop's sections are, in order, the non-blank groups of body lines, each with the path of its heading |
| `Skeleton.PopStack` | internal/rag/skeleton.go:224-228 | popping leaves the chain of the nearest earlier heading below the new level, or nothing |
| `Skeleton.PushHeading` | internal/rag/skeleton.go:230-240 | the new frame's path is the root title, the open ancestors' titles and its own |
| `Skeleton.StackClimbs` | internal/rag/skeleton.go:224-240 | the stack's levels strictly increase |
| `Skeleton.ChainIsNearest` | internal/rag/skeleton.go:224-240 | a path links each heading to the nearest earlier one of smaller level, and starts at one that has none |
| `Skeleton.SectionsHoldTheBody` | internal/rag/skeleton.go:189-245 | the sections' contents in order are the text's non-blank lines that are not headings, fenced ones included, none lost, repeated or moved |
| `Breadcrumb.FormatBreadcrumb` | internal/rag/skeleton.go:304-325 | blank titles and repetitions of the one before are left out |
| `Breadcrumb.SplitJoinIff` | internal/rag/skeleton.go:260-297 | splitting a joined path gives it back exactly when no separator can be read inside a title or across its end |
| `Breadcrumb.ExtractPrintedIff` | internal/rag/skeleton.go:260-325 | extraction returns the printed path and the untouched piece exactly when the titles stand alone between separators, none holds a closing bracket and the piece does not begin with a newline |
| `Breadcrumb.PlainTitlesAreSafe` | internal/rag/skeleton.go:260-297 | titles without the separator's arrow meet the first condition |
| `SectionExpansion.SplitSections` | internal/rag/skeleton.go:106-141 | each kept section is cut by the budget its breadcrumb leaves, or unlabelled by the whole chunk size when that is under 200 bytes |
| `SectionExpansion.ChunkBound` | internal/rag/skeleton.go:121-138 | a chunk is at most the chunk size long, or two bytes more when it has a breadcrumb |
| `SectionExpansion.OversizeIff` | internal/rag/skeleton.go:127-138 | a labelled section that fits one chunk makes it longer than the chunk size exactly when its text comes within two bytes of the budget |
| `SectionExpansion.OversizeSection` | internal/rag/skeleton.go:127-138 | for every chunk size from 203 a section before the first heading whose chunk is two bytes longer |
| `SectionExpansion.ExpandSection` | internal/rag/rag.go:432-465 | the bodies of the listed chunks whose breadcrumb is the trimmed key; an error for a blank path or key |
| `SectionExpansion.ExpansionIsExact` | internal/rag/rag.go:450-461 | over the chunks in document order, expanding a breadcrumb's key returns exactly the pieces of all sections with that breadcrumb |
| `SectionListing.ListedFirstIff` | internal/vectorstore/vectorstore.go:688-697 | of two chunk indices the smaller is listed first exactly when both have equally many digits or it does not exceed the number the larger one begins with |
| `SectionListing.NeighboursIff` | internal/vectorstore/vectorstore.go:688-697 | chunks with neighbouring indices are listed in order exactly when the first and the last index have equally many digits |
| `SectionListing.DocumentInOrderIff` | internal/vectorstore/vectorstore.go:688-697 | a document's chunks are listed in order exactly when there are ten at most |
| `SectionListing.ListingExpandsIff` | internal/rag/rag.go:445-461 | expanding a key over the listing gives what document order would when its chunks are listed in order, and, with no two bodies equal, only then |
| `SectionListing.SectionExpandsIff` | internal/rag/rag.go:432-465 | on the listing it gets, ExpandSection returns exactly the untouched pieces of the sections with that breadcrumb, in document order, under that condition |
| `SectionListing.KeyInOrderIff` | internal/vectorstore/vectorstore.go:688-697 | for a breadcrumb on neighbouring chunks the condition is that the first and the last index have equally many digits |
| `SectionListing.TenChunksInOrder` | internal/vectorstore/vectorstore.go:688-697 | a document of ten chunks or fewer meets it for every breadcrumb |
| `SectionListing.EleventhBeforeThird` | internal/rag/documents.go:160-164 | a breadcrumb on the third and the eleventh chunk does not |
| `Centering.NewEmbeddingCenter` | internal/memory/centering.go:48-83 | None for no usable vector or fewer than 100 of the first dimension, else their mean and its square |
| `Centering.CentredSumIsZero` | internal/memory/centering.go:74-82 | the centred vectors sum to zero in every coordinate |
| `Centering.Expansion` | internal/memory/centering.go:105-123 | the four-term expansion equals the product of the two mean-subtracted vectors |
| `Centering.NormNotNegative` | internal/memory/centering.go:97-100 | a squared norm is never negative, and zero only for the zero vector |
| `Centering.CauchySchwarz` | internal/memory/centering.go:107-123 | the squared product never exceeds the product of the squared norms, in any dimension |
| `Centering.QueryStats` | internal/memory/centering.go:89-103 | refused exactly for another dimension or a query equal to the mean, else the query's product with the mean and its centred norm |
| `Centering.Similarity` | internal/memory/centering.go:107-123 | zero for a query or candidate of another dimension or equal to the mean, else the cosine of the centred vectors, between -1 and 1 |
| `Framing.Reader.ReadMessage` | internal/server/server.go:580-628 | the reader's loops read what the message grammar says and leave the rest of the input |
| `Framing.Reader.ReadHeaderFrame` | internal/server/server.go:597-627 | the header block ends at a blank line, the last length wins, and a bad, missing or oversized length or a short body is an error |
| `Framing.Writer.WriteResponse` | internal/server/server.go:630-652 | appends the payload and a newline, or the length header, a blank line and the payload |
| `Framing.LengthLine` | internal/server/server.go:602-606 | the decimal length a writer prints is the one the reader scans, up to 64 bits |
| `Framing.OnlyLegalRead` | internal/server/server.go:580-628 | whatever the input, a frame that comes out is a trimmed line starting with a brace or a body of 1 byte to 10 MB |
| `Framing.FrameReadsIff` | internal/server/server.go:580-652 | a written frame is read back, with the rest of the input untouched, exactly when it is such a line or body |
| `Framing.SequenceReadsIff` | internal/server/server.go:580-652 | any concatenation of frames, in either mode, is read back in order exactly when every one of them is |
| `Merge.CheckContains` | internal/memory/helpers.go:155-161 | whether the trimmed duplicate occurs in the trimmed primary, letter case aside; blank ones do |
| `Merge.MergeContent` | internal/memory/helpers.go:163-188 | the loop's body is the trimmed primary with each duplicate that adds text appended, cut at a rune start when over the limit |
| `Merge.StartsWithPrimary` | internal/memory/helpers.go:163-188 | without truncation the body starts with the trimmed primary |
| `Merge.ContainsEveryDuplicate` | internal/memory/helpers.go:150-188 | without truncation the body contains every duplicate |
| `Merge.MergeAgainIff` | internal/memory/helpers.go:163-188 | without truncation, merging the same duplicates again changes nothing exactly when the primary had text or no duplicate had any |
| `Merge.MergedLength` | internal/memory/helpers.go:179-185 | the body is never longer than the larger of the trimmed primary and 100000 bytes |
| `Ranking.ApplyPerDocumentCap` | internal/rag/ranking.go:464-494 | the rows returned are those of the stable partition into rows within and beyond their document's cap, cut at the limit |
| `Ranking.ChosenInOrder` | internal/rag/ranking.go:464-494 | with a positive cap and more rows than the limit: exactly limit rows, none twice, each kind in original order, the rows within the cap first |
| `Ranking.CapIsAPreference` | internal/rag/ranking.go:464-494 | a row is passed over only for better placed rows of its kind or for rows within the cap |

## Left out

- SQL, HTTP, embedding, the file system, JSON and logging: calls that succeed or fail, or values passed in.
- Float rounding: scores and vectors are reals.
- Lost updates between processes, which the code documents it does not prevent.
- Regular expressions: the header pattern, the noisy titles and the slug filter are given functions, and the slugs of a sweep a given list.
- Letter case and white space beyond ASCII: lower-casing is per character and trimming removes the ASCII set.
- Record fields that no modelled rule reads: tags, titles and engineering types, and the tags' influence on metadata.
- Transition scores and reasons of the sediment rules, and the texts of review items.
- The ranking of search results before the per-document cap, reranking and the recall scores that seed the multi-hop walk.
- Steward, session analysis, configuration and the agent setup files.
- Multihop.RecallMultihop: ties beyond score and hops keep no fixed order, as in the code.
- IndexRun.IndexDocuments: documents arrive with their hash, so the fallback that hashes a chunk's text is not modelled; reading the stored metadata does not fail, and a tracked row that cannot be decoded, which the code skips, is not modelled.
- IndexHistory.IncrementalEqualsRebuild: says nothing about which model made the vectors, which RebuildIsOneModel and IncrementalOneModelIff do.
- Convergence.UpToDateAgrees: a reload that fails half way is one step that keeps any subset of the rows, and a row that cannot be decoded is not modelled.
- CacheCore.Cache.UpdateCachedField: the derived fields of an entry are part of its data and are not derived again.
- Trust.NormalizeEngineeringMetadata: works on trimmed keys and recognised words; the engineering type and its tags are not modelled.
- TrustHistory.NeverCanonicalUnvouched: other processes, whose stale writes the code does not prevent, are not in the histories; the counts a recount derives are given.
- Recount.RecountReferences: a row whose metadata cannot be parsed, which the code skips, and a scan that fails are not modelled; the scan is one moment.
- Recount.RecountAgain: for fewer than 2^62 rows, so that counts are within the 64 bits the code reads.
- MemoryBank.MemoryStore.MarkOutdated: as the sweep calls it, without a successor; the successor's reference count is in TrustHistory.
- MemoryBank.MemoryStore.Store: the new record is given in its stored form; content and type checks are not modelled.
- SedimentCycles.RunSedimentCycle: the letter case of review_source, which the code compares exactly, is not modelled.
- ArchiveRepeats.SweepArchive: cancellation, which ends the sweep with an error like a failed listing, is not modelled.
- SessionTracker.Tracker.HandleToolCall: context, service, mode and tags of a session are not modelled, nor is whether a flushed session has enough material to be analysed.
- SessionTracker.Tracker.TakeWithNotification: the notification's context, service and mode are not modelled.
- SessionMachine.CheckpointsBounded: covers the pool only; a checkpoint forced by a notification runs in its caller's thread, and Close does not wait for it. Its extra lines go to that checkpoint and are not recorded in the session.
- Splitter.SplitTextByBudget: only white space of one byte is trimmed.
- Centering.Similarity: returns the cosine's numerator and the square of its denominator, since reals have no square root; so does the query's norm.
- Framing.Reader.ReadMessage: the input is a finite text, so a pending read is an end of input.
- Merge.MergeAgainIff: nothing is stated for a body that was cut at the limit, where a second merge may append a duplicate that was cut off.
