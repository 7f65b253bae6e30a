/** The in-memory cache and the database file it is derived from
    (internal/memory/foreignwrites.go with the writers of write.go, refcount.go
    and temporal.go and the access flusher of read.go), as a state machine whose
    steps are the points where another goroutine or process can get in between.

    Own writers hold the write lock from their first read (a recount from its first
    write) to the publication in the cache; the flusher does not; other processes commit at any time; the
    watcher polls a version number that every commit moves. */
module Convergence {
  import opened Common

  type Id = string

  datatype Access = Access(count: int, targeted: int, at: int)

  datatype Body = Body(content: string, context: string, metadata: map<string, string>, layer: string, updatedAt: int)

  datatype Row = Row(body: Body, predecessor: string, access: Access)

  /** A cache entry: what toCachedMemory keeps of a row. */
  datatype Entry = Entry(body: Body, access: Access)

  type Database = map<Id, Row>
  type Cache = map<Id, Entry>

  function Image(row: Row): Entry {
    Entry(row.body, row.access)
  }

  function ImageOf(db: Database): Cache {
    map id | id in db :: Image(db[id])
  }

  // ----------------------------------------------------------------- state

  /** A write of this process: whole rows (Store, Update, MarkOutdated,
      MergeDuplicates, PromoteToCanonical, SetTemporalFields), one column
      (PromoteSediment, DemoteSediment), reference counts, or a deletion. A recount
      commits row by row under one lock and publishes once. */
  datatype Write =
    | Insert(id: Id, row: Row)
    | Update(rows: map<Id, Row>)
    | SetLayer(id: Id, layer: string, now: int)
    | SetRefs(metadata: map<Id, map<string, string>>, now: int)
    | Remove(id: Id)

  /** Who holds the write lock. A writer has read some rows, then committed. */
  datatype Lock = Free | Reading(ids: set<Id>) | Unpublished(write: Write) | Reloading

  /** `seen` is a history variable: a reload has read the rows since the commit. */
  datatype Flush = NoFlush | Flushed(ids: set<Id>, targeted: bool, now: int, seen: bool)

  /** The watcher's progress. Loading carries the rows its query has seen and the
      ids foreign commits have touched since. */
  datatype Job = Quiet | Pending | Loading(rows: Database, since: set<Id>) | Broken

  datatype Watcher = Off | On(last: nat, job: Job)

  /** Two history variables, both about the time since the cache was last loaded:
      `stale`, the ids whose row was changed behind its back, and `doubled`, those of
      a flush that a reload had read before it was published. */
  datatype State = State(db: Database, version: nat, cache: Cache, lock: Lock, flush: Flush, watcher: Watcher, stale: set<Id>,
                         doubled: set<Id>)

  datatype Step =
    | BeginWrite(ids: set<Id>)
    | CommitWrite(write: Write)
    | CommitRow(id: Id, metadata: map<string, string>, now: int)
    | PublishWrite
    | AbandonWrite
    | CommitFlush(ids: set<Id>, targeted: bool, now: int)
    | PublishFlush
    | ForeignCommit(changes: map<Id, Option<Row>>)
    | StartWatching
    | Tick
    | QueryRows
    | QueryFails
    | FillCache
    | FillFails(kept: set<Id>)

  // ----------------------------------------------------------------- steps

  function Touch(a: Access, targeted: bool, now: int): Access {
    Access(a.count + 1, if targeted then a.targeted + 1 else a.targeted, now)
  }

  /** The row changes of a write. A full-row update names rows read before, and
      misses those deleted meanwhile; it leaves the targeted counter alone. */
  function Written(db: Database, w: Write): Database {
    match w
    case Insert(id, row) => db[id := row]
    case Update(rows) =>
      map id | id in db :: if id in rows then KeepTargeted(rows[id], db[id]) else db[id]
    case SetLayer(id, layer, now) =>
      if id in db then db[id := db[id].(body := db[id].body.(layer := layer, updatedAt := now))] else db
    case SetRefs(metadata, now) =>
      map id | id in db ::
        if id in metadata then db[id].(body := db[id].body.(metadata := metadata[id], updatedAt := now)) else db[id]
    case Remove(id) => db - {id}
  }

  function KeepTargeted(row: Row, stored: Row): Row {
    row.(access := row.access.(targeted := stored.access.targeted))
  }

  /** What the writer then does to the cache. Reference counts reach the row's
      metadata only; the cache just gets the new update time. */
  function Publication(cache: Cache, w: Write): Cache {
    match w
    case Insert(id, row) => cache[id := Image(row)]
    case Update(rows) => cache + map id | id in rows :: Image(rows[id])
    case SetLayer(id, layer, now) =>
      if id in cache then cache[id := cache[id].(body := cache[id].body.(layer := layer, updatedAt := now))] else cache
    case SetRefs(metadata, now) =>
      map id | id in cache :: if id in metadata then cache[id].(body := cache[id].body.(updatedAt := now)) else cache[id]
    case Remove(id) => cache - {id}
  }

  /** A write may only follow reads that justify it: an insert takes a new key,
      every other full-row or column write names rows read under the lock. */
  predicate Justified(s: State, ids: set<Id>, w: Write) {
    match w
    case Insert(id, _) => id !in s.db
    case Update(rows) => rows.Keys <= ids
    case SetLayer(id, _, _) => id in ids
    case SetRefs(_, _) => true
    case Remove(_) => true
  }

  function Applied(db: Database, changes: map<Id, Option<Row>>): Database {
    map id | id in db.Keys + changes.Keys && (id in changes ==> changes[id].Some?) ::
      if id in changes then changes[id].value else db[id]
  }

  function Noticed(w: Watcher, ids: set<Id>): Watcher {
    if w.On? && w.job.Loading? then w.(job := w.job.(since := w.job.since + ids)) else w
  }

  predicate Enabled(s: State, step: Step) {
    match step
    case BeginWrite(ids) => s.lock.Free? && ids <= s.db.Keys
    case CommitWrite(w) => s.lock.Reading? && Justified(s, s.lock.ids, w)
    case CommitRow(_, _, _) => s.lock.Unpublished? && s.lock.write.SetRefs?
    case PublishWrite => s.lock.Unpublished?
    case AbandonWrite => s.lock.Reading?
    case CommitFlush(_, _, _) => s.flush.NoFlush?
    case PublishFlush => s.flush.Flushed?
    case ForeignCommit(_) => true
    case StartWatching => s.watcher.Off?
    case Tick => s.watcher.On? && (s.watcher.job.Quiet? || s.watcher.job.Broken?)
    case QueryRows => s.watcher.On? && s.watcher.job.Pending? && s.lock.Free?
    case QueryFails => s.watcher.On? && s.watcher.job.Pending? && s.lock.Free?
    case FillCache => s.watcher.On? && s.watcher.job.Loading?
    case FillFails(_) => s.watcher.On? && s.watcher.job.Loading?
  }

  /** One step; a step that is not enabled changes nothing. */
  function Next(s: State, step: Step): State {
    if !Enabled(s, step) then s
    else match step
    case BeginWrite(ids) => s.(lock := Reading(ids))
    case CommitWrite(w) =>
      s.(db := Written(s.db, w), version := s.version + 1, lock := Unpublished(w),
         stale := if w.SetRefs? then s.stale + w.metadata.Keys else s.stale)
    case CommitRow(id, metadata, now) =>
      s.(db := Written(s.db, SetRefs(map[id := metadata], now)), version := s.version + 1,
         lock := Unpublished(SetRefs(s.lock.write.metadata[id := metadata], now)), stale := s.stale + {id})
    case PublishWrite => s.(cache := Publication(s.cache, s.lock.write), lock := Free)
    case AbandonWrite => s.(lock := Free)
    case CommitFlush(ids, targeted, now) =>
      s.(db := map id | id in s.db :: if id in ids then s.db[id].(access := Touch(s.db[id].access, targeted, now)) else s.db[id],
         version := s.version + 1, flush := Flushed(ids, targeted, now, false))
    case PublishFlush =>
      s.(cache := map id | id in s.cache :: if id in s.flush.ids then s.cache[id].(access := Touch(s.cache[id].access, s.flush.targeted, s.flush.now)) else s.cache[id],
         flush := NoFlush, doubled := if s.flush.seen then s.doubled + s.flush.ids else s.doubled)
    case ForeignCommit(changes) =>
      s.(db := Applied(s.db, changes), version := s.version + 1,
         stale := s.stale + changes.Keys, watcher := Noticed(s.watcher, changes.Keys))
    case StartWatching => s.(watcher := On(s.version, Quiet))
    case Tick =>
      if s.version == s.watcher.last then s else s.(watcher := On(s.version, Pending))
    case QueryRows =>
      s.(lock := Reloading, watcher := s.watcher.(job := Loading(s.db, {})), flush := if s.flush.Flushed? then s.flush.(seen := true) else NoFlush)
    case QueryFails => s.(watcher := s.watcher.(job := Broken))
    case FillCache =>
      s.(cache := ImageOf(s.watcher.job.rows), lock := Free, stale := s.watcher.job.since, doubled := {}, watcher := s.watcher.(job := Quiet))
    case FillFails(kept) =>
      var partial := map id | id in s.watcher.job.rows && id in kept :: s.watcher.job.rows[id];
      s.(cache := ImageOf(partial), lock := Free, stale := s.stale + s.db.Keys + s.watcher.job.rows.Keys,
         watcher := s.watcher.(job := Broken))
  }

  function Run(s: State, steps: seq<Step>): State
    decreases |steps|
  {
    if steps == [] then s else Next(Run(s, steps[..|steps| - 1]), steps[|steps| - 1])
  }

  // ------------------------------------------------------------- agreement

  /** The cache shows the row's image, access counters and time aside. */
  ghost predicate AgreesAt(cache: Cache, db: Database, id: Id) {
    (id in cache <==> id in db) && (id in db ==> cache[id].body == db[id].body)
  }

  ghost predicate Agrees(s: State) {
    forall id :: AgreesAt(s.cache, s.db, id)
  }

  /** The cache once a committed write has been published. */
  ghost function Settled(s: State): Cache {
    if s.lock.Unpublished? then Publication(s.cache, s.lock.write) else s.cache
  }

  ghost predicate UpToDate(s: State) {
    s.watcher.On? && s.watcher.job.Quiet? && s.watcher.last == s.version
  }

  /** The inductive invariant. Whatever is not stale agrees as soon as the
      pending publication lands; rows read under the lock are still there unless
      a foreign commit took them; and an up-to-date watcher means nothing is
      stale and no write is half done. */
  ghost predicate Inv(s: State) {
    && (forall id :: id !in s.stale ==> AgreesAt(Settled(s), s.db, id))
    && (s.lock.Reading? ==> forall id :: id in s.lock.ids && id !in s.stale ==> id in s.db)
    && (s.lock.Unpublished? && s.lock.write.SetRefs? ==> forall id :: id in s.lock.write.metadata ==> id in s.stale)
    && (s.lock.Reloading? <==> s.watcher.On? && s.watcher.job.Loading?)
    && (s.watcher.On? ==> s.watcher.last <= s.version)
    && (s.watcher.On? && s.watcher.job.Loading? ==> forall id :: id !in s.watcher.job.since ==> AgreesAt(ImageOf(s.watcher.job.rows), s.db, id))
    && (s.watcher.On? && s.watcher.job.Loading? && s.watcher.last == s.version ==> s.watcher.job.since == {})
    && (s.watcher.On? && s.watcher.job.Quiet? && s.watcher.last == s.version ==> s.stale == {} && !s.lock.Unpublished?)
    && (s.watcher.On? && s.watcher.job.Broken? && s.watcher.last == s.version ==> !s.lock.Unpublished?)
  }

  lemma WriteSettles(cache: Cache, db: Database, w: Write, id: Id)
    requires AgreesAt(cache, db, id)
    requires w.Insert? ==> w.id !in db
    requires w.Update? && id in w.rows ==> id in db
    requires w.SetRefs? ==> id !in w.metadata
    ensures AgreesAt(Publication(cache, w), Written(db, w), id)
  {
  }

  lemma StepKeepsInv(s: State, step: Step)
    requires Inv(s) && (step.StartWatching? && s.watcher.Off? ==> s.stale == {} && !s.lock.Unpublished?)
    ensures Inv(Next(s, step))
  {
    if Enabled(s, step) {
      match step
      case CommitRow(id, metadata, now) => RowKeepsInv(s, id, metadata, now);
      case CommitWrite(w) =>
        forall id | id !in Next(s, step).stale ensures AgreesAt(Settled(Next(s, step)), Next(s, step).db, id) {
          WriteSettles(s.cache, s.db, w, id);
        }
      case CommitFlush(ids, targeted, now) => FlushKeepsInv(s, step);
      case PublishFlush => FlushKeepsInv(s, step);
      case ForeignCommit(changes) =>
      case FillCache =>
      case FillFails(kept) =>
      case _ =>
    }
  }

  lemma RowKeepsInv(s: State, id: Id, metadata: map<string, string>, now: int)
    requires Inv(s) && Enabled(s, CommitRow(id, metadata, now))
    ensures Inv(Next(s, CommitRow(id, metadata, now)))
  {
    var t := Next(s, CommitRow(id, metadata, now));
    forall k | k !in t.stale ensures AgreesAt(Settled(t), t.db, k) { assert AgreesAt(Settled(s), s.db, k); }
  }

  lemma FlushKeepsInv(s: State, step: Step)
    requires Inv(s) && Enabled(s, step) && (step.CommitFlush? || step.PublishFlush?)
    ensures Inv(Next(s, step))
  {
  }

  // ------------------------------------------------------------- theorems

  /** Just loaded, nothing in flight. */
  ghost predicate Loaded(s: State) {
    s.cache == ImageOf(s.db) && s.lock.Free? && s.flush.NoFlush? && s.stale == {} && s.doubled == {} && s.watcher.Off?
  }

  /** Just loaded and watched, with no commit between the load and the baseline. */
  ghost predicate Watched(s: State) {
    s.cache == ImageOf(s.db) && s.lock.Free? && s.flush.NoFlush? && s.stale == {} && s.doubled == {} && s.watcher == On(s.version, Quiet)
  }

  lemma {:induction false} RunKeepsInv(s: State, steps: seq<Step>)
    requires Inv(s) && s.watcher.On?
    ensures Inv(Run(s, steps)) && Run(s, steps).watcher.On?
    decreases |steps|
  {
    if steps != [] {
      var n := |steps| - 1;
      RunKeepsInv(s, steps[..n]);
      StepKeepsInv(Run(s, steps[..n]), steps[n]);
    }
  }

  /** In every interleaving: once the watcher has seen the current version and
      its last reload succeeded, the cache is the image of the database on every
      field but the access ones - even while a writer holds the lock. */
  lemma UpToDateAgrees(s: State, steps: seq<Step>)
    requires Watched(s)
    ensures UpToDate(Run(s, steps)) ==> Agrees(Run(s, steps))
  {
    RunKeepsInv(s, steps);
    SettledAgrees(Run(s, steps));
  }

  lemma SettledAgrees(s: State)
    requires Inv(s)
    ensures s.stale == {} && !s.lock.Unpublished? ==> Agrees(s)
  {
    if s.stale == {} && !s.lock.Unpublished? {
      forall id ensures AgreesAt(s.cache, s.db, id) {
        assert AgreesAt(Settled(s), s.db, id);
      }
    }
  }

  /** Steps of this process alone, reference counts and failing reloads aside. */
  predicate Ordinary(step: Step) {
    !step.ForeignCommit? && !step.FillFails? && !step.StartWatching? && !step.CommitRow? && !(step.CommitWrite? && step.write.SetRefs?)
  }

  /** Until another process commits, every write of this one is in the cache as
      soon as it is published, with or without a watcher reloading in between. */
  lemma {:induction false} OwnWritesVisible(s: State, steps: seq<Step>)
    requires Loaded(s) || Watched(s)
    requires forall step :: step in steps ==> Ordinary(step)
    ensures Inv(Run(s, steps)) && Run(s, steps).stale == {}
    ensures Run(s, steps).watcher.On? && Run(s, steps).watcher.job.Loading? ==> Run(s, steps).watcher.job.since == {}
    ensures !Run(s, steps).lock.Unpublished? ==> Agrees(Run(s, steps))
    decreases |steps|
  {
    if steps != [] {
      var n := |steps| - 1;
      OwnWritesVisible(s, steps[..n]);
      assert Ordinary(steps[n]);
      StepKeepsInv(Run(s, steps[..n]), steps[n]);
    }
    SettledAgrees(Run(s, steps));
  }

  /** One tick whose reload succeeds: read the version and, if it moved, reload. */
  function FullTick(s: State): State {
    Next(Next(Next(s, Tick), QueryRows), FillCache)
  }

  /** A tick with no writer in the way restores agreement, with one exception:
      nothing happens when an earlier reload failed and no commit came since,
      because the version was marked as seen before that reload ran. */
  lemma TickRestoresIff(s: State)
    requires Inv(s) && s.watcher.On? && s.lock.Free? && (s.watcher.job.Quiet? || s.watcher.job.Broken?)
    ensures Agrees(FullTick(s)) <==> !(s.watcher.job.Broken? && s.watcher.last == s.version) || Agrees(s)
    ensures s.watcher.job.Broken? && s.watcher.last == s.version ==> FullTick(s) == s
  {
    SettledAgrees(s);
    if s.watcher.last == s.version {
      assert Next(s, Tick) == s && Next(s, QueryRows) == s && Next(s, FillCache) == s;
    } else {
      assert FullTick(s).cache == ImageOf(s.db) && FullTick(s).db == s.db;
    }
  }

  /** So a failed reload is never retried: however often the watcher ticks, the
      cache stays as it is until someone commits again. */
  lemma {:induction false} FailedReloadSticks(s: State, steps: seq<Step>)
    requires s.watcher.On? && s.watcher.job.Broken? && s.watcher.last == s.version
    requires forall step :: step in steps ==> step.Tick? || step.QueryRows? || step.QueryFails? || step.FillCache? || step.FillFails?
    ensures Run(s, steps) == s
    decreases |steps|
  {
    if steps != [] {
      FailedReloadSticks(s, steps[..|steps| - 1]);
      var last := steps[|steps| - 1];
      assert last in steps;
    }
  }

  function Ticks(n: nat): seq<Step> {
    seq(n, i => Tick)
  }

  lemma {:induction false} TicksDoNothing(s: State, ticks: nat)
    requires s.watcher.On? && s.watcher.job.Quiet? && s.watcher.last == s.version
    ensures Run(s, Ticks(ticks)) == s
  {
    if ticks > 0 {
      TicksDoNothing(s, ticks - 1);
      assert Ticks(ticks)[..ticks - 1] == Ticks(ticks - 1);
    }
  }

  /** A foreign change that shows: a row comes, goes, or gets another body. */
  predicate Shows(db: Database, id: Id, change: Option<Row>) {
    if change.None? then id in db else id !in db || db[id].body != change.value.body
  }

  /** A foreign commit between the first load and the version baseline is never
      noticed by polling alone. The cache still agrees exactly when the commit
      changed no row's presence or body. */
  lemma MissedBeforeBaselineIff(s: State, changes: map<Id, Option<Row>>, ticks: nat)
    requires Loaded(s)
    ensures var t := Run(Next(Next(s, ForeignCommit(changes)), StartWatching), Ticks(ticks));
            UpToDate(t) && (Agrees(t) <==> forall id :: id in changes ==> !Shows(s.db, id, changes[id]))
  {
    var t := Next(Next(s, ForeignCommit(changes)), StartWatching);
    TicksDoNothing(t, ticks);
    forall id ensures AgreesAt(t.cache, t.db, id) <==> !(id in changes && Shows(s.db, id, changes[id])) {
      assert t.cache == ImageOf(s.db) && t.db == Applied(s.db, changes);
    }
  }

  // ------------------------------------------------------------ access counters

  /** The entry of `id` has the row's access counters, or one access more. */
  ghost predicate AccessAt(s: State, id: Id, extra: bool)
    requires id in s.db && id in s.cache
  {
    if extra then s.cache[id].access.count == s.db[id].access.count + 1 else s.cache[id].access == s.db[id].access
  }

  ghost predicate AccessShown(s: State) {
    forall id :: id in s.db && id in s.cache ==> AccessAt(s, id, id in s.doubled)
  }

  /** The inductive invariant of the counters: what an up-to-date cache shows, and
      that a flush still pending then was read by the reload. */
  ghost predicate AccessInv(s: State) {
    && s.watcher.On?
    && (s.watcher.last == s.version && (s.watcher.job.Quiet? || s.watcher.job.Loading?) && s.flush.Flushed? ==> s.flush.seen)
    && (s.watcher.last == s.version && s.watcher.job.Loading? ==> s.watcher.job.rows == s.db)
    && (s.watcher.last == s.version && s.watcher.job.Quiet? ==> AccessShown(s) && (s.flush.Flushed? ==> s.doubled == {}))
  }

  lemma StepKeepsAccess(s: State, step: Step)
    requires Inv(s) && AccessInv(s)
    ensures AccessInv(Next(s, step))
  {
    var t := Next(s, step);
    if Enabled(s, step) && t.watcher.last == t.version && t.watcher.job.Quiet? {
      if step.FillCache? {
        assert t.cache == ImageOf(t.db);
      } else if step.PublishFlush? {
        forall id | id in t.db && id in t.cache ensures AccessAt(t, id, id in t.doubled) {
          assert AccessAt(s, id, id in s.doubled);
        }
      }
    }
  }

  lemma {:induction false} RunKeepsAccess(s: State, steps: seq<Step>)
    requires Watched(s)
    ensures Inv(Run(s, steps)) && AccessInv(Run(s, steps))
    decreases |steps|
  {
    if steps == [] {
      assert AccessShown(s);
    } else {
      var n := |steps| - 1;
      RunKeepsAccess(s, steps[..n]);
      StepKeepsInv(Run(s, steps[..n]), steps[n]);
      StepKeepsAccess(Run(s, steps[..n]), steps[n]);
    }
  }

  /** In every interleaving: once the cache is up to date its access counters are the
      database's exactly when no flush touched a row of it twice - by its commit,
      which the last reload read, and by its publication after that reload. */
  lemma AccessAgreesIff(s: State, steps: seq<Step>)
    requires Watched(s) && UpToDate(Run(s, steps))
    ensures var t := Run(s, steps);
            (forall id :: id in t.db ==> id in t.cache && t.cache[id].access == t.db[id].access) <==> t.doubled !! t.db.Keys
  {
    var t := Run(s, steps);
    RunKeepsAccess(s, steps);
    UpToDateAgrees(s, steps);
    forall id | id in t.db ensures id in t.cache && (t.cache[id].access == t.db[id].access <==> id !in t.doubled) {
      assert AgreesAt(t.cache, t.db, id);
      assert AccessAt(t, id, id in t.doubled);
    }
  }

  /** Such a flush exists: a reload between its commit and its publication. */
  lemma AccessCountedTwice(s: State, id: Id, now: int)
    requires Watched(s) && id in s.db
    ensures var t := Next(FullTick(Next(s, CommitFlush({id}, false, now))), PublishFlush);
            UpToDate(t) && id in t.cache && id in t.db && id in t.doubled && t.cache[id].access.count == t.db[id].access.count + 1
  {
    var flushed := Next(s, CommitFlush({id}, false, now));
    var loaded := FullTick(flushed);
    assert loaded.cache == ImageOf(flushed.db) && loaded.flush == Flushed({id}, false, now, true);
  }
}
