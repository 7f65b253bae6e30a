/** The archive sweep (internal/lifecycle/archive_sweep.go): which records of an
    archived task are retired, promoted or proposed, and the driver that does it. */
module ArchiveSweep {
  import opened Common
  import opened Trust
  import opened Sediment
  import opened MemoryBank
  import opened BatchEffects

  datatype SweepConfig = SweepConfig(dryRun: bool, autoPromote: bool, skipPromotion: bool, threshold: real)

  function EffectiveThreshold(cfg: SweepConfig): real {
    if cfg.threshold <= 0.0 then 0.7 else cfg.threshold
  }

  datatype Action = SkipType | SkipReviewItem | SkipKeepTag | AlreadyOutdated | PromotionDisabled | PromotionCandidate | MarkAsOutdated

  predicate SweptKind(k: Kind) {
    k.Working? || k.ProceduralKind?
  }

  function DecideAction(r: Record, cfg: SweepConfig): Action {
    if !SweptKind(r.kind) then SkipType
    else if IsReviewItem(r.meta) then SkipReviewItem
    else if r.keep then SkipKeepTag
    else if LifecycleStatusOf(r.meta, r.kind.Working?) == Outdated then AlreadyOutdated
    else if r.kind.ProceduralKind? || r.importance >= EffectiveThreshold(cfg) then
      if cfg.skipPromotion then PromotionDisabled else PromotionCandidate
    else MarkAsOutdated
  }

  function Cohort(bank: Bank, slug: string): set<Id> {
    set id | id in bank && bank[id].context == slug && SweptKind(bank[id].kind)
  }

  /** A review item of an earlier sweep, resolved or not. */
  predicate SweepItem(r: Record) {
    && IsReviewItem(r.meta) && Get(r.meta, ReviewSource) == Word.ArchiveSweep
    && Get(r.meta, ReviewTarget).Free? && Get(r.meta, ReviewTarget).text != ""
  }

  function ItemTarget(r: Record): Id
    requires SweepItem(r)
  {
    Id(Get(r.meta, ReviewTarget).text, 0)
  }

  function ExistingReviews(bank: Bank, slug: string): set<Id> {
    set k | k in Cohort(bank, slug) && SweepItem(bank[k]) :: ItemTarget(bank[k])
  }

  // ------------------------------------------------- what a decision comes to

  predicate ToRetire(r: Record, cfg: SweepConfig) {
    DecideAction(r, cfg) == MarkAsOutdated
  }

  predicate ToPromote(r: Record, cfg: SweepConfig) {
    DecideAction(r, cfg) == PromotionCandidate && cfg.autoPromote && PromotionAllowed(r.meta, false)
  }

  predicate ToPropose(r: Record, cfg: SweepConfig) {
    DecideAction(r, cfg) == PromotionCandidate && !(cfg.autoPromote && PromotionAllowed(r.meta, false))
  }

  function CandidateMeta(target: Id, slug: string): Meta {
    map[RecordKind := ReviewQueueItem, ReviewRequiredKey := True, ReviewSource := Word.ArchiveSweep,
        ReviewTarget := Free(target.name), ReviewSlug := Free(slug)]
  }

  /** The review item as the store keeps it; the target id is trimmed on the way. */
  function CandidateItem(target: Id, slug: string, now: int): Record {
    Record(Normal(CandidateMeta(target, slug)), Working, slug, Some(Surface), now, Some(now), 0, 0.5, false)
  }

  function SweepReason(slug: string): Word {
    Free("task archived: " + slug)
  }

  function SweepOwner(): Word {
    Free("archive-sweep")
  }

  /** What the sweep of one slug would write for each record of the cohort. */
  function Rewrites(bank: Bank, slug: string, cfg: SweepConfig, now: int): Bank {
    map id | id in Cohort(bank, slug) && (ToRetire(bank[id], cfg) || ToPromote(bank[id], cfg)) ::
      if ToRetire(bank[id], cfg) then OutdatedRecord(bank[id], SweepReason(slug), now)
      else PromotedRecord(bank[id], false, SweepOwner(), now)
  }

  function Candidates(bank: Bank, slug: string, cfg: SweepConfig, now: int): Bank {
    map id | id in Cohort(bank, slug) && ToPropose(bank[id], cfg) :: CandidateItem(id, slug, now)
  }

  lemma CandidateIsItem(target: Id, slug: string, now: int)
    ensures var item := CandidateItem(target, slug, now);
            && IsReviewItem(item.meta)
            && (SweepItem(item) <==> target.name != "")
            && (target.name != "" ==> ItemTarget(item) == Id(target.name, 0))
  {
    CandidateGets(target, slug);
    NormalItem(CandidateMeta(target, slug));
  }

  lemma CandidateGets(target: Id, slug: string)
    ensures var m := CandidateMeta(target, slug);
            NoBlanks(m) && Get(m, RecordKind) == ReviewQueueItem && Get(m, ReviewSource) == Word.ArchiveSweep
              && Get(m, ReviewTarget) == Free(target.name)
  {
  }

  // ---------------------------------------------------------------- progress

  datatype SlugStats = SlugStats(outdated: nat, promoted: nat, candidates: nat, skipped: nat, errors: nat)

  datatype Plan<K, R> = Plan(before: map<K, R>, retire: set<K>, promote: set<K>, rewrites: map<K, R>, items: map<K, R>, known: set<K>)

  datatype Swept<K> = Swept(acted: set<K>, retired: set<K>, promoted: set<K>, proposed: set<K>, skipped: set<K>, failed: set<K>,
                            created: map<K, K>) {
    predicate Seen(k: K) {
      k in acted || k in failed
    }
  }

  ghost predicate Sorted<K(!new), R>(p: Plan<K, R>, d: Swept<K>) {
    forall k :: SortedOne(p, d, k)
  }

  predicate SortedOne<K, R>(p: Plan<K, R>, d: Swept<K>, k: K) {
    && (k in d.acted <==> k in d.retired || k in d.promoted || k in d.proposed || k in d.skipped)
    && (k in d.retired ==> k in p.retire)
    && (k in d.promoted ==> k in p.promote)
    && (k in d.proposed ==> k in p.items)
    && (k in d.skipped ==> k !in p.retire && k !in p.promote && k !in p.items)
    && (k in d.failed ==> k !in d.acted)
  }

  ghost predicate Counted<K>(d: Swept<K>, r: SlugStats) {
    && r.outdated == |d.retired| && r.promoted == |d.promoted| && r.candidates == |d.proposed|
    && r.skipped == |d.skipped| && r.errors == |d.failed|
  }

  /** The bank, the counters and the dedup set of a sweep that has come this far. */
  ghost predicate Progress<K(!new), R>(p: Plan<K, R>, d: Swept<K>, after: map<K, R>, dryRun: bool, r: SlugStats, existing: set<K>) {
    && Sorted(p, d)
    && Counted(d, r)
    && if dryRun then after == p.before && d.failed == {} && d.created == map[]
       else Effect(p.before, p.rewrites, p.items, p.known, d.acted, after, d.created)
            && forall k :: k in existing <==> k in p.known || k in d.proposed
  }

  /** The plan sorts a record at most one way. */
  ghost predicate Exclusive<K, R>(p: Plan<K, R>, k: K) {
    && (k in p.rewrites <==> k in p.retire || k in p.promote)
    && !(k in p.retire && k in p.promote) && !(k in p.items && k in p.rewrites)
  }

  function AfterSkip<K>(d: Swept<K>, id: K): Swept<K> {
    d.(acted := d.acted + {id}, skipped := d.skipped + {id})
  }

  function AfterRetire<K>(d: Swept<K>, id: K): Swept<K> {
    d.(acted := d.acted + {id}, retired := d.retired + {id})
  }

  function AfterPromote<K>(d: Swept<K>, id: K): Swept<K> {
    d.(acted := d.acted + {id}, promoted := d.promoted + {id})
  }

  function AfterPropose<K>(d: Swept<K>, id: K): Swept<K> {
    d.(acted := d.acted + {id}, proposed := d.proposed + {id})
  }

  function AfterCreate<K>(d: Swept<K>, id: K, made: K): Swept<K> {
    AfterPropose(d, id).(created := d.created[id := made])
  }

  function AfterFailure<K>(d: Swept<K>, id: K): Swept<K> {
    d.(failed := d.failed + {id})
  }

  lemma SortedGrows<K(!new), R>(p: Plan<K, R>, d: Swept<K>, e: Swept<K>, id: K)
    requires Sorted(p, d) && SortedOne(p, e, id)
    requires forall k :: k != id ==>
      && (k in e.acted <==> k in d.acted) && (k in e.retired <==> k in d.retired)
      && (k in e.promoted <==> k in d.promoted) && (k in e.proposed <==> k in d.proposed)
      && (k in e.skipped <==> k in d.skipped) && (k in e.failed <==> k in d.failed)
    ensures Sorted(p, e)
  {
    forall k ensures SortedOne(p, e, k) { assert SortedOne(p, d, k); }
  }

  lemma ProgressSkip<K(!new), R>(p: Plan<K, R>, d: Swept<K>, after: map<K, R>, dryRun: bool, r: SlugStats, existing: set<K>, id: K)
    requires Progress(p, d, after, dryRun, r, existing)
    requires !d.Seen(id) && Exclusive(p, id) && id !in p.rewrites && id !in p.items
    ensures Progress(p, AfterSkip(d, id), after, dryRun, r.(skipped := r.skipped + 1), existing)
  {
    assert SortedOne(p, d, id);
    SortedGrows(p, d, AfterSkip(d, id), id);
    if !dryRun { ActQuiet(p.before, p.rewrites, p.items, p.known, d.acted, after, d.created, id); }
  }

  /** A dry run counts without writing. */
  lemma ProgressPreview<K(!new), R>(p: Plan<K, R>, d: Swept<K>, after: map<K, R>, r: SlugStats, existing: set<K>, id: K)
    requires Progress(p, d, after, true, r, existing)
    requires !d.Seen(id) && Exclusive(p, id)
    ensures id in p.retire ==> Progress(p, AfterRetire(d, id), after, true, r.(outdated := r.outdated + 1), existing)
    ensures id in p.promote ==> Progress(p, AfterPromote(d, id), after, true, r.(promoted := r.promoted + 1), existing)
    ensures id in p.items ==> Progress(p, AfterPropose(d, id), after, true, r.(candidates := r.candidates + 1), existing)
  {
    assert SortedOne(p, d, id);
    if id in p.retire {
      SortedGrows(p, d, AfterRetire(d, id), id);
    } else if id in p.promote {
      SortedGrows(p, d, AfterPromote(d, id), id);
    } else if id in p.items {
      SortedGrows(p, d, AfterPropose(d, id), id);
    }
  }

  lemma ProgressFailure<K(!new), R>(p: Plan<K, R>, d: Swept<K>, after: map<K, R>, r: SlugStats, existing: set<K>, id: K)
    requires Progress(p, d, after, false, r, existing) && !d.Seen(id)
    ensures Progress(p, AfterFailure(d, id), after, false, r.(errors := r.errors + 1), existing)
  {
    assert SortedOne(p, d, id);
    SortedGrows(p, d, AfterFailure(d, id), id);
  }

  lemma ProgressRetire<K(!new), R>(p: Plan<K, R>, d: Swept<K>, after: map<K, R>, r: SlugStats, existing: set<K>, id: K)
    requires Progress(p, d, after, false, r, existing)
    requires id in p.before && !d.Seen(id) && Exclusive(p, id) && id in p.retire
    ensures id in after && after[id] == p.before[id] && id in p.rewrites
    ensures Progress(p, AfterRetire(d, id), after[id := p.rewrites[id]], false, r.(outdated := r.outdated + 1), existing)
  {
    assert SortedOne(p, d, id);
    SortedGrows(p, d, AfterRetire(d, id), id);
    ActRewrite(p.before, p.rewrites, p.items, p.known, d.acted, after, d.created, id);
  }

  lemma ProgressPromote<K(!new), R>(p: Plan<K, R>, d: Swept<K>, after: map<K, R>, r: SlugStats, existing: set<K>, id: K)
    requires Progress(p, d, after, false, r, existing)
    requires id in p.before && !d.Seen(id) && Exclusive(p, id) && id in p.promote
    ensures id in after && after[id] == p.before[id] && id in p.rewrites
    ensures Progress(p, AfterPromote(d, id), after[id := p.rewrites[id]], false, r.(promoted := r.promoted + 1), existing)
  {
    assert SortedOne(p, d, id);
    SortedGrows(p, d, AfterPromote(d, id), id);
    ActRewrite(p.before, p.rewrites, p.items, p.known, d.acted, after, d.created, id);
  }

  lemma ProgressKnown<K(!new), R>(p: Plan<K, R>, d: Swept<K>, after: map<K, R>, r: SlugStats, existing: set<K>, id: K)
    requires Progress(p, d, after, false, r, existing)
    requires !d.Seen(id) && Exclusive(p, id) && id in p.items && id in existing
    ensures Progress(p, AfterPropose(d, id), after, false, r.(candidates := r.candidates + 1), existing + {id})
  {
    assert SortedOne(p, d, id);
    SortedGrows(p, d, AfterPropose(d, id), id);
    ActQuiet(p.before, p.rewrites, p.items, p.known, d.acted, after, d.created, id);
  }

  lemma ProgressCreate<K(!new), R>(p: Plan<K, R>, d: Swept<K>, after: map<K, R>, r: SlugStats, existing: set<K>, id: K, made: K)
    requires Progress(p, d, after, false, r, existing)
    requires !d.Seen(id) && Exclusive(p, id) && id in p.items && id !in existing && made !in after
    ensures Progress(p, AfterCreate(d, id, made), after[made := p.items[id]], false, r.(candidates := r.candidates + 1), existing + {id})
  {
    assert SortedOne(p, d, id);
    SortedGrows(p, d, AfterCreate(d, id, made), id);
    ActCreate(p.before, p.rewrites, p.items, p.known, d.acted, after, d.created, id, made);
  }

  // ------------------------------------------------------------------ driver

  function PlanOf(bank: Bank, slug: string, cfg: SweepConfig, now: int): Plan<Id, Record> {
    Plan(bank, (set id | id in Cohort(bank, slug) && ToRetire(bank[id], cfg)), (set id | id in Cohort(bank, slug) && ToPromote(bank[id], cfg)),
         Rewrites(bank, slug, cfg, now), Candidates(bank, slug, cfg, now), ExistingReviews(bank, slug))
  }

  lemma ActionClass(bank: Bank, slug: string, cfg: SweepConfig, now: int, id: Id)
    requires id in Cohort(bank, slug)
    ensures var p := PlanOf(bank, slug, cfg, now);
            && Exclusive(p, id)
            && (id in p.retire <==> ToRetire(bank[id], cfg)) && (id in p.promote <==> ToPromote(bank[id], cfg))
            && (id in p.items <==> ToPropose(bank[id], cfg))
            && (id in p.retire ==> p.rewrites[id] == OutdatedRecord(bank[id], SweepReason(slug), now))
            && (id in p.promote ==> p.rewrites[id] == PromotedRecord(bank[id], false, SweepOwner(), now))
            && (id in p.items ==> p.items[id] == CandidateItem(id, slug, now))
  {
  }

  ghost predicate SlugSwept(before: Bank, after: Bank, slug: string, cfg: SweepConfig, now: int, d: Swept<Id>, r: SlugStats, existing: set<Id>) {
    && Progress(PlanOf(before, slug, cfg, now), d, after, cfg.dryRun, r, existing)
    && forall k :: d.Seen(k) <==> k in Cohort(before, slug)
  }

  method ReadExistingReviews(bank: Bank, slug: string, ids: seq<Id>) returns (existing: set<Id>)
    requires forall id :: id in ids <==> id in Cohort(bank, slug)
    ensures existing == ExistingReviews(bank, slug)
  {
    existing := {};
    for i := 0 to |ids|
      invariant existing == set k | k in Cohort(bank, slug) && k in ids[..i] && SweepItem(bank[k]) :: ItemTarget(bank[k])
    {
      assert ids[..i + 1] == ids[..i] + [ids[i]];
      assert ids[i] in Cohort(bank, slug);
      if SweepItem(bank[ids[i]]) {
        existing := existing + {ItemTarget(bank[ids[i]])};
      }
    }
    assert ids[..|ids|] == ids;
  }

  ghost predicate OneMore<K(!new)>(d: Swept<K>, e: Swept<K>, id: K) {
    forall k :: e.Seen(k) <==> d.Seen(k) || k == id
  }

  method Retire(store: MemoryStore, id: Id, reason: Word, now: int, ghost p: Plan<Id, Record>, ghost d0: Swept<Id>,
                r0: SlugStats, ghost existing: set<Id>)
    returns (r: SlugStats, ghost d: Swept<Id>)
    requires Progress(p, d0, store.bank, false, r0, existing) && !d0.Seen(id) && id in p.before && Exclusive(p, id)
    requires id in p.retire && p.rewrites[id] == OutdatedRecord(p.before[id], reason, now)
    modifies store
    ensures Progress(p, d, store.bank, false, r, existing) && OneMore(d0, d, id)
  {
    ghost var bank := store.bank;
    var ok := store.MarkOutdated(id, reason, now);
    if ok {
      ProgressRetire(p, d0, bank, r0, existing, id);
      assert store.bank == bank[id := p.rewrites[id]];
      r, d := r0.(outdated := r0.outdated + 1), AfterRetire(d0, id);
    } else {
      r, d := r0.(errors := r0.errors + 1), AfterFailure(d0, id);
      ProgressFailure(p, d0, bank, r0, existing, id);
    }
  }

  method Promote(store: MemoryStore, id: Id, owner: Word, now: int, ghost p: Plan<Id, Record>, ghost d0: Swept<Id>,
                r0: SlugStats, ghost existing: set<Id>)
    returns (r: SlugStats, ghost d: Swept<Id>)
    requires Progress(p, d0, store.bank, false, r0, existing) && !d0.Seen(id) && id in p.before && Exclusive(p, id)
    requires id in p.promote && p.rewrites[id] == PromotedRecord(p.before[id], false, owner, now)
    modifies store
    ensures Progress(p, d, store.bank, false, r, existing) && OneMore(d0, d, id)
  {
    ghost var bank := store.bank;
    ProgressPromote(p, d0, bank, r0, existing, id);
    var ok := store.PromoteToCanonical(id, owner, false, now);
    if ok {
      assert store.bank == bank[id := p.rewrites[id]];
      r, d := r0.(promoted := r0.promoted + 1), AfterPromote(d0, id);
    } else {
      r, d := r0.(errors := r0.errors + 1), AfterFailure(d0, id);
      ProgressFailure(p, d0, bank, r0, existing, id);
    }
  }

  method CreatePromotionCandidate(store: MemoryStore, id: Id, item: Record, existing0: set<Id>,
                                  ghost p: Plan<Id, Record>, ghost d0: Swept<Id>, r0: SlugStats)
    returns (r: SlugStats, existing: set<Id>, ghost d: Swept<Id>)
    requires Progress(p, d0, store.bank, false, r0, existing0) && !d0.Seen(id) && Exclusive(p, id)
    requires id in p.items && p.items[id] == item
    modifies store
    ensures Progress(p, d, store.bank, false, r, existing) && OneMore(d0, d, id)
  {
    r, existing, d := r0.(candidates := r0.candidates + 1), existing0 + {id}, AfterPropose(d0, id);
    if id in existing0 {
      ProgressKnown(p, d0, store.bank, r0, existing0, id);
      return;
    }
    ghost var bank := store.bank;
    var ok, made := store.Store(item);
    if ok {
      d := AfterCreate(d0, id, made);
      ProgressCreate(p, d0, bank, r0, existing0, id, made);
    } else {
      r, existing, d := r0.(errors := r0.errors + 1), existing0, AfterFailure(d0, id);
      ProgressFailure(p, d0, bank, r0, existing0, id);
    }
  }

  method SweepOne(store: MemoryStore, id: Id, m: Record, slug: string, cfg: SweepConfig, now: int, existing0: set<Id>,
                  ghost p: Plan<Id, Record>, ghost d0: Swept<Id>, r0: SlugStats)
    returns (r: SlugStats, existing: set<Id>, ghost d: Swept<Id>)
    requires p == PlanOf(p.before, slug, cfg, now) && id in Cohort(p.before, slug) && m == p.before[id] && !d0.Seen(id)
    requires Progress(p, d0, store.bank, cfg.dryRun, r0, existing0)
    modifies store
    ensures Progress(p, d, store.bank, cfg.dryRun, r, existing) && OneMore(d0, d, id)
  {
    ActionClass(p.before, slug, cfg, now, id);
    r, existing := r0, existing0;
    var action := DecideAction(m, cfg);
    if action != MarkAsOutdated && action != PromotionCandidate {
      ProgressSkip(p, d0, store.bank, cfg.dryRun, r0, existing, id);
      r, d := r.(skipped := r.skipped + 1), AfterSkip(d0, id);
      return;
    }
    var promotes := action == PromotionCandidate && cfg.autoPromote && PromotionAllowed(m.meta, false);
    if cfg.dryRun {
      ProgressPreview(p, d0, store.bank, r0, existing, id);
      if action == MarkAsOutdated {
        r, d := r.(outdated := r.outdated + 1), AfterRetire(d0, id);
      } else if promotes {
        r, d := r.(promoted := r.promoted + 1), AfterPromote(d0, id);
      } else {
        r, d := r.(candidates := r.candidates + 1), AfterPropose(d0, id);
      }
    } else if action == MarkAsOutdated {
      r, d := Retire(store, id, SweepReason(slug), now, p, d0, r, existing);
    } else if promotes {
      r, d := Promote(store, id, SweepOwner(), now, p, d0, r, existing);
    } else {
      var item := CandidateItem(id, slug, now);
      r, existing, d := CreatePromotionCandidate(store, id, item, existing, p, d0, r);
    }
  }

  /** The two listings of a slug, one per swept kind. */
  method ListCohort(bank: Bank, slug: string) returns (ids: seq<Id>)
    ensures forall id :: id in ids <==> id in Cohort(bank, slug)
    ensures forall i, j :: 0 <= i < j < |ids| ==> ids[i] != ids[j]
  {
    var working := Listing(set id | id in bank && bank[id].context == slug && bank[id].kind.Working?);
    var procedural := Listing(set id | id in bank && bank[id].context == slug && bank[id].kind.ProceduralKind?);
    ids := working + procedural;
    forall i, j | 0 <= i < j < |ids| ensures ids[i] != ids[j] {
      if i < |working| <= j { assert ids[i] in working && ids[j] in procedural; }
    }
  }

  /** None when a listing fails, which ends the whole sweep. */
  method SweepSlug(store: MemoryStore, slug: string, cfg: SweepConfig, now: int)
    returns (stats: Option<SlugStats>, ghost d: Swept<Id>, ghost existing: set<Id>)
    modifies store
    ensures stats.None? ==> store.bank == old(store.bank)
    ensures stats.Some? ==> SlugSwept(old(store.bank), store.bank, slug, cfg, now, d, stats.value, existing)
  {
    var memories := store.bank;
    var unlisted: bool := *;
    d, existing := Swept({}, {}, {}, {}, {}, {}, map[]), {};
    if unlisted {
      return None, d, existing;
    }
    var ids := ListCohort(memories, slug);
    var reviews := ReadExistingReviews(memories, slug, ids);
    ghost var p := PlanOf(memories, slug, cfg, now);
    NoEffect(p.before, p.rewrites, p.items, p.known);
    var r := SlugStats(0, 0, 0, 0, 0);
    for i := 0 to |ids|
      invariant Progress(p, d, store.bank, cfg.dryRun, r, reviews)
      invariant forall k :: d.Seen(k) <==> k in ids[..i]
    {
      assert ids[i] in Cohort(memories, slug);
      assert ids[..i + 1] == ids[..i] + [ids[i]];
      r, reviews, d := SweepOne(store, ids[i], memories[ids[i]], slug, cfg, now, reviews, p, d, r);
    }
    assert ids[..|ids|] == ids;
    stats, existing := Some(r), reviews;
  }
}
