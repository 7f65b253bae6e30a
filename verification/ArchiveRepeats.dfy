/** The archive sweep over many slugs, its dry run against the live one, and what
    a second sweep still writes. */
module ArchiveRepeats {
  import opened Common
  import opened Trust
  import opened Sediment
  import opened MemoryBank
  import opened BatchEffects
  import opened ArchiveSweep

  // -------------------------------------------------------------- many slugs

  ghost predicate SweptSomehow(before: Bank, after: Bank, slug: string, cfg: SweepConfig, now: int, r: SlugStats) {
    exists d, existing :: SlugSwept(before, after, slug, cfg, now, d, r, existing)
  }

  /** One bank before and after each slug, one set of counters for each. */
  ghost predicate Chained(banks: seq<Bank>, slugs: seq<string>, cfg: SweepConfig, now: int, stats: seq<SlugStats>) {
    && |banks| == |slugs| + 1 && |stats| == |slugs|
    && forall i {:trigger slugs[i]} :: 0 <= i < |slugs| ==> SweptSomehow(banks[i], banks[i + 1], slugs[i], cfg, now, stats[i])
  }

  function Add(a: SlugStats, b: SlugStats): SlugStats {
    SlugStats(a.outdated + b.outdated, a.promoted + b.promoted, a.candidates + b.candidates, a.skipped + b.skipped, a.errors + b.errors)
  }

  function Total(stats: seq<SlugStats>): SlugStats {
    if stats == [] then SlugStats(0, 0, 0, 0, 0) else Add(Total(stats[..|stats| - 1]), stats[|stats| - 1])
  }

  datatype SweepResult = SweepResult(total: SlugStats, perSlug: map<string, SlugStats>)

  /** Each slug, and no other, is reported with the counters of its last sweep. */
  ghost predicate PerSlug(perSlug: map<string, SlugStats>, slugs: seq<string>, stats: seq<SlugStats>)
    requires |stats| == |slugs|
  {
    && (forall s :: s in perSlug ==> s in slugs)
    && (forall i :: 0 <= i < |slugs| ==> PerSlugAt(perSlug, slugs, stats, i))
  }

  ghost predicate PerSlugAt(perSlug: map<string, SlugStats>, slugs: seq<string>, stats: seq<SlugStats>, i: nat)
    requires |stats| == |slugs| && i < |slugs|
  {
    slugs[i] in perSlug && (LastAt(slugs, i) ==> perSlug[slugs[i]] == stats[i])
  }

  ghost predicate LastAt(slugs: seq<string>, i: nat)
    requires i < |slugs|
  {
    forall j :: i < j < |slugs| ==> slugs[j] != slugs[i]
  }

  lemma PerSlugGrows(perSlug: map<string, SlugStats>, slugs: seq<string>, stats: seq<SlugStats>, slug: string, r: SlugStats)
    requires |stats| == |slugs| && PerSlug(perSlug, slugs, stats)
    ensures PerSlug(perSlug[slug := r], slugs + [slug], stats + [r])
  {
    var more, known := slugs + [slug], perSlug[slug := r];
    forall i | 0 <= i < |more| ensures PerSlugAt(known, more, stats + [r], i) {
      if i < |slugs| {
        assert PerSlugAt(perSlug, slugs, stats, i);
        if LastAt(more, i) {
          assert more[|slugs|] != more[i];
          assert LastAt(slugs, i) by {
            forall j | i < j < |slugs| ensures slugs[j] != slugs[i] { assert more[j] != more[i]; }
          }
        }
      }
    }
  }

  /** `slugs` are the directories found under the roots, in the order they are read. */
  method SweepArchive(store: MemoryStore, slugs: seq<string>, cfg: SweepConfig, now: int)
    returns (result: Option<SweepResult>, ghost banks: seq<Bank>, ghost stats: seq<SlugStats>)
    modifies store
    ensures result.Some? ==> Chained(banks, slugs, cfg, now, stats) && banks[0] == old(store.bank) && banks[|slugs|] == store.bank
    ensures result.Some? ==> result.value.total == Total(stats) && PerSlug(result.value.perSlug, slugs, stats)
  {
    var r := SweepResult(SlugStats(0, 0, 0, 0, 0), map[]);
    banks, stats := [store.bank], [];
    for i := 0 to |slugs|
      invariant Leads(banks, slugs[..i], cfg, now, stats, old(store.bank), store.bank)
      invariant Reported(r, slugs[..i], stats)
    {
      var s;
      ghost var d, existing;
      s, d, existing := SweepSlug(store, slugs[i], cfg, now);
      if s.None? {
        return None, banks, stats;
      }
      assert slugs[..i + 1] == slugs[..i] + [slugs[i]];
      LeadsOn(banks, slugs[..i], cfg, now, stats, old(store.bank), slugs[i], store.bank, s.value, d, existing);
      ReportGrows(r, slugs[..i], stats, slugs[i], s.value);
      r := SweepResult(Add(r.total, s.value), r.perSlug[slugs[i] := s.value]);
      banks, stats := banks + [store.bank], stats + [s.value];
    }
    assert slugs[..|slugs|] == slugs;
    result := Some(r);
  }

  /** The sweeps so far lead from one bank to another. */
  ghost predicate Leads(banks: seq<Bank>, slugs: seq<string>, cfg: SweepConfig, now: int, stats: seq<SlugStats>, first: Bank, last: Bank) {
    Chained(banks, slugs, cfg, now, stats) && banks[0] == first && banks[|slugs|] == last
  }

  lemma LeadsOn(banks: seq<Bank>, slugs: seq<string>, cfg: SweepConfig, now: int, stats: seq<SlugStats>, first: Bank, slug: string,
                after: Bank, r: SlugStats, d: Swept<Id>, existing: set<Id>)
    requires |banks| > |slugs| && Leads(banks, slugs, cfg, now, stats, first, banks[|slugs|])
    requires SlugSwept(banks[|slugs|], after, slug, cfg, now, d, r, existing)
    ensures Leads(banks + [after], slugs + [slug], cfg, now, stats + [r], first, after)
  {
    ChainGrows(banks, slugs, cfg, now, stats, slug, after, r, d, existing);
  }

  ghost predicate Reported(r: SweepResult, slugs: seq<string>, stats: seq<SlugStats>) {
    |stats| == |slugs| && r.total == Total(stats) && PerSlug(r.perSlug, slugs, stats)
  }

  lemma ReportGrows(r: SweepResult, slugs: seq<string>, stats: seq<SlugStats>, slug: string, s: SlugStats)
    requires Reported(r, slugs, stats)
    ensures Reported(SweepResult(Add(r.total, s), r.perSlug[slug := s]), slugs + [slug], stats + [s])
  {
    TotalGrows(stats, s);
    PerSlugGrows(r.perSlug, slugs, stats, slug, s);
  }

  lemma ChainGrows(banks: seq<Bank>, slugs: seq<string>, cfg: SweepConfig, now: int, stats: seq<SlugStats>, slug: string,
                   after: Bank, r: SlugStats, d: Swept<Id>, existing: set<Id>)
    requires Chained(banks, slugs, cfg, now, stats) && SlugSwept(banks[|slugs|], after, slug, cfg, now, d, r, existing)
    ensures Chained(banks + [after], slugs + [slug], cfg, now, stats + [r])
  {
    var b, s, t := banks + [after], slugs + [slug], stats + [r];
    forall i | 0 <= i < |s| ensures SweptSomehow(b[i], b[i + 1], s[i], cfg, now, t[i]) {
      if i < |slugs| { assert SweptSomehow(banks[i], banks[i + 1], slugs[i], cfg, now, stats[i]); }
    }
  }

  lemma TotalGrows(stats: seq<SlugStats>, r: SlugStats)
    ensures Total(stats + [r]) == Add(Total(stats), r)
  {
    assert (stats + [r])[..|stats|] == stats;
  }

  // -------------------------------------------------- slugs do not interfere

  /** The records of one slug. */
  function View(bank: Bank, slug: string): Bank {
    map id | id in bank && bank[id].context == slug :: bank[id]
  }

  lemma OtherSlugsUntouched(before: Bank, after: Bank, slug: string, cfg: SweepConfig, now: int, r: SlugStats, other: string)
    requires SweptSomehow(before, after, slug, cfg, now, r) && other != slug
    ensures View(after, other) == View(before, other)
  {
    var d, existing :| SlugSwept(before, after, slug, cfg, now, d, r, existing);
    forall id
      ensures id in View(after, other) <==> id in View(before, other)
      ensures id in View(before, other) ==> after[id] == before[id]
    {
      Untouched(before, after, slug, cfg, now, d, r, existing, other, id);
    }
  }

  lemma Untouched(before: Bank, after: Bank, slug: string, cfg: SweepConfig, now: int, d: Swept<Id>, r: SlugStats, existing: set<Id>,
                  other: string, id: Id)
    requires SlugSwept(before, after, slug, cfg, now, d, r, existing) && other != slug
    ensures id in before ==> id in after
    ensures id in before && before[id].context == other ==> after[id] == before[id]
    ensures id in after && after[id].context == other ==> id in before && before[id].context == other
  {
    if !cfg.dryRun {
      var p := PlanOf(before, slug, cfg, now);
      assert id in before ==> id in after;
      if id in after {
        Afterwards(before, p.rewrites, p.items, p.known, d.acted, after, d.created, id);
        PlanStaysInSlug(before, slug, cfg, now);
      }
    }
  }

  lemma PlanStaysInSlug(before: Bank, slug: string, cfg: SweepConfig, now: int)
    ensures forall id :: id in Rewrites(before, slug, cfg, now) ==>
              id in before && before[id].context == slug && Rewrites(before, slug, cfg, now)[id].context == slug
    ensures forall id :: id in Candidates(before, slug, cfg, now) ==> Candidates(before, slug, cfg, now)[id].context == slug
  {
  }

  function Retiring(bank: Bank, slug: string, cfg: SweepConfig): set<Id> {
    set id | id in Cohort(bank, slug) && ToRetire(bank[id], cfg)
  }

  function Promoting(bank: Bank, slug: string, cfg: SweepConfig): set<Id> {
    set id | id in Cohort(bank, slug) && ToPromote(bank[id], cfg)
  }

  function Proposing(bank: Bank, slug: string, cfg: SweepConfig): set<Id> {
    set id | id in Cohort(bank, slug) && ToPropose(bank[id], cfg)
  }

  function Skipping(bank: Bank, slug: string, cfg: SweepConfig): set<Id> {
    set id | id in Cohort(bank, slug) && !ToRetire(bank[id], cfg) && DecideAction(bank[id], cfg) != PromotionCandidate
  }

  /** The counters a sweep of one slug shows when no write fails. */
  ghost predicate Shows(bank: Bank, slug: string, cfg: SweepConfig, r: SlugStats) {
    r == SlugStats(|Retiring(bank, slug, cfg)|, |Promoting(bank, slug, cfg)|, |Proposing(bank, slug, cfg)|, |Skipping(bank, slug, cfg)|, 0)
  }

  lemma SweptAt(before: Bank, after: Bank, slug: string, cfg: SweepConfig, now: int, d: Swept<Id>, r: SlugStats, existing: set<Id>, k: Id)
    requires SlugSwept(before, after, slug, cfg, now, d, r, existing) && r.errors == 0
    ensures k in d.retired <==> k in Retiring(before, slug, cfg)
    ensures k in d.promoted <==> k in Promoting(before, slug, cfg)
    ensures k in d.proposed <==> k in Proposing(before, slug, cfg)
    ensures k in d.skipped <==> k in Skipping(before, slug, cfg)
    ensures k in d.acted <==> k in Cohort(before, slug)
  {
    assert d.failed == {};
    assert SortedOne(PlanOf(before, slug, cfg, now), d, k) && (d.Seen(k) <==> k in Cohort(before, slug));
    if k in Cohort(before, slug) { ActionClass(before, slug, cfg, now, k); }
  }

  lemma SweepShows(before: Bank, after: Bank, slug: string, cfg: SweepConfig, now: int, r: SlugStats)
    requires SweptSomehow(before, after, slug, cfg, now, r) && r.errors == 0
    ensures Shows(before, slug, cfg, r)
  {
    var d, existing :| SlugSwept(before, after, slug, cfg, now, d, r, existing);
    forall k
      ensures k in d.retired <==> k in Retiring(before, slug, cfg)
      ensures k in d.promoted <==> k in Promoting(before, slug, cfg)
      ensures k in d.proposed <==> k in Proposing(before, slug, cfg)
      ensures k in d.skipped <==> k in Skipping(before, slug, cfg)
    {
      SweptAt(before, after, slug, cfg, now, d, r, existing, k);
    }
    assert d.retired == Retiring(before, slug, cfg) && d.promoted == Promoting(before, slug, cfg);
    assert d.proposed == Proposing(before, slug, cfg) && d.skipped == Skipping(before, slug, cfg);
  }

  /** What a slug comes to depends on its own records and not on the dry-run flag. */
  lemma SameView(a: Bank, b: Bank, slug: string, cfg: SweepConfig, other: SweepConfig)
    requires View(a, slug) == View(b, slug) && other == cfg.(dryRun := other.dryRun)
    ensures Retiring(a, slug, cfg) == Retiring(b, slug, other) && Promoting(a, slug, cfg) == Promoting(b, slug, other)
    ensures Proposing(a, slug, cfg) == Proposing(b, slug, other) && Skipping(a, slug, cfg) == Skipping(b, slug, other)
  {
    forall k
      ensures k in Cohort(a, slug) <==> k in Cohort(b, slug)
      ensures k in Cohort(a, slug) ==> a[k] == b[k]
      ensures k in Cohort(a, slug) ==> DecideAction(a[k], cfg) == DecideAction(a[k], other)
    {
      assert k in View(a, slug) <==> k in View(b, slug);
      if k in View(a, slug) { assert View(a, slug)[k] == View(b, slug)[k]; }
    }
  }

  ghost predicate Distinct(slugs: seq<string>) {
    forall i, j :: 0 <= i < j < |slugs| ==> slugs[i] != slugs[j]
  }

  lemma StatsReached(banks: seq<Bank>, slugs: seq<string>, cfg: SweepConfig, now: int, stats: seq<SlugStats>, i: nat)
    requires Chained(banks, slugs, cfg, now, stats) && Distinct(slugs) && i < |slugs| && stats[i].errors == 0
    ensures Shows(banks[0], slugs[i], cfg, stats[i])
  {
    assert SweptSomehow(banks[i], banks[i + 1], slugs[i], cfg, now, stats[i]);
    SweepShows(banks[i], banks[i + 1], slugs[i], cfg, now, stats[i]);
    ViewsAfter(banks, slugs, cfg, now, stats, 0, i, slugs[i]);
    SameView(banks[i], banks[0], slugs[i], cfg, cfg);
  }

  /** With distinct slugs and no failing write a dry run shows, slug by slug, the
      counters of the live run on the same bank, and leaves the bank alone. */
  lemma PreviewForetells(live: seq<Bank>, dry: seq<Bank>, slugs: seq<string>, cfg: SweepConfig, now: int,
                         liveStats: seq<SlugStats>, dryStats: seq<SlugStats>)
    requires !cfg.dryRun && Chained(live, slugs, cfg, now, liveStats) && Chained(dry, slugs, cfg.(dryRun := true), now, dryStats)
    requires live[0] == dry[0] && Distinct(slugs)
    requires forall i :: 0 <= i < |slugs| ==> liveStats[i].errors == 0
    ensures dryStats == liveStats && Total(dryStats) == Total(liveStats)
    ensures forall i :: 0 <= i <= |slugs| ==> dry[i] == dry[0]
  {
    var preview := cfg.(dryRun := true);
    PreviewWritesNothing(dry, slugs, preview, now, dryStats);
    forall i | 0 <= i < |slugs| ensures dryStats[i] == liveStats[i] {
      StatsReached(live, slugs, cfg, now, liveStats, i);
      StatsReached(dry, slugs, preview, now, dryStats, i);
      SameView(live[0], dry[0], slugs[i], cfg, preview);
    }
  }

  lemma {:induction false} PreviewWritesNothing(banks: seq<Bank>, slugs: seq<string>, cfg: SweepConfig, now: int, stats: seq<SlugStats>)
    requires cfg.dryRun && Chained(banks, slugs, cfg, now, stats)
    ensures forall i :: 0 <= i <= |slugs| ==> banks[i] == banks[0]
    ensures forall i :: 0 <= i < |slugs| ==> stats[i].errors == 0
  {
    forall i | 0 <= i < |slugs| ensures banks[i + 1] == banks[i] && stats[i].errors == 0 {
      DrySweep(banks[i], banks[i + 1], slugs[i], cfg, now, stats[i]);
    }
    AllTheSame(banks, |slugs|);
  }

  lemma DrySweep(before: Bank, after: Bank, slug: string, cfg: SweepConfig, now: int, r: SlugStats)
    requires cfg.dryRun && SweptSomehow(before, after, slug, cfg, now, r)
    ensures after == before && r.errors == 0
  {
  }

  lemma {:induction false} AllTheSame(banks: seq<Bank>, n: nat)
    requires n < |banks| && forall i :: 0 <= i < n ==> banks[i + 1] == banks[i]
    ensures forall i :: 0 <= i <= n ==> banks[i] == banks[0]
  {
    if n > 0 {
      AllTheSame(banks, n - 1);
      assert banks[(n - 1) + 1] == banks[n - 1];
    }
  }

  // ------------------------------------------------------- a second sweep

  /** A live sweep of one slug that promotes nothing by itself and in which every
      write succeeded. */
  ghost predicate FullSweep(before: Bank, after: Bank, slug: string, cfg: SweepConfig, now: int, d: Swept<Id>, r: SlugStats, existing: set<Id>) {
    !cfg.dryRun && !cfg.autoPromote && r.errors == 0 && SlugSwept(before, after, slug, cfg, now, d, r, existing)
  }

  /** The sweep called for no successful write. */
  ghost predicate WroteNothing(d: Swept<Id>) {
    d.retired == {} && d.promoted == {} && d.created == map[]
  }

  /** Metadata that went through the store's validation. */
  ghost predicate Validated(m: Meta) {
    NoBlanks(m) && Normalisable(m) && Get(m, Status) != ReviewRequired
  }

  ghost predicate Stored(bank: Bank, slug: string) {
    forall k :: k in View(bank, slug) ==> Validated(View(bank, slug)[k].meta)
  }

  /** What became of a record. */
  lemma SweepEffect(before: Bank, after: Bank, slug: string, cfg: SweepConfig, now: int, d: Swept<Id>, r: SlugStats, existing: set<Id>, k: Id)
    requires FullSweep(before, after, slug, cfg, now, d, r, existing)
    ensures k in before ==> k in after
    ensures k in before ==>
      after[k] == if k in Retiring(before, slug, cfg) then OutdatedRecord(before[k], SweepReason(slug), now) else before[k]
    ensures k in after && k !in before ==>
      exists t :: t in d.created && d.created[t] == k && after[k] == CandidateItem(t, slug, now)
  {
    SweptAt(before, after, slug, cfg, now, d, r, existing, k);
    var p := PlanOf(before, slug, cfg, now);
    assert k in before ==> k in after;
    if k in after {
      Afterwards(before, p.rewrites, p.items, p.known, d.acted, after, d.created, k);
      if k in Cohort(before, slug) { ActionClass(before, slug, cfg, now, k); }
    }
  }

  lemma SweptCreated(before: Bank, after: Bank, slug: string, cfg: SweepConfig, now: int, d: Swept<Id>, r: SlugStats, existing: set<Id>, t: Id)
    requires FullSweep(before, after, slug, cfg, now, d, r, existing)
    ensures t in d.created <==> t in Proposing(before, slug, cfg) && t !in ExistingReviews(before, slug)
    ensures t in d.created ==> d.created[t] in after && after[d.created[t]] == CandidateItem(t, slug, now)
  {
    SweptAt(before, after, slug, cfg, now, d, r, existing, t);
    if t in Cohort(before, slug) { ActionClass(before, slug, cfg, now, t); }
    if t in d.created { assert ItemMade(before, Candidates(before, slug, cfg, now), after, t, d.created[t]); }
  }

  lemma RetiredGets(m: Meta, reason: Word, now: int)
    requires Validated(m)
    ensures var t := OutdatedMeta(m, reason, Blank, Instant(now));
            Normalisable(t) && Get(Normal(t), RecordKind) == Get(m, RecordKind)
  {
    var t := OutdatedMeta(m, reason, Blank, Instant(now));
    OutdatedKeeps(m, reason, Blank, Instant(now), RecordKind);
    NormalGet(t, RecordKind);
    OutdatedGets(m, reason, Blank, Instant(now));
    SameNormalisable(m, t);
  }

  lemma SameNormalisable(m: Meta, t: Meta)
    requires Validated(m) && CanonicalMark(t) == CanonicalMark(m)
    requires Get(t, LifecycleStatus) == Get(m, LifecycleStatus) && Get(t, ReviewRequiredKey) == Get(m, ReviewRequiredKey)
    ensures Normalisable(t)
  {
  }

  /** A retired record is retired again by the next sweep exactly when it carries a
      canonical mark or a lifecycle status, which the retirement leaves in force. */
  lemma RetiredAgainIff(r: Record, slug: string, cfg: SweepConfig, now: int)
    requires ToRetire(r, cfg) && Validated(r.meta)
    ensures var s := OutdatedRecord(r, SweepReason(slug), now);
            && (ToRetire(s, cfg) <==> CanonicalMark(r.meta) || Get(r.meta, LifecycleStatus) != Blank)
            && DecideAction(s, cfg) != PromotionCandidate
  {
    RetiredGets(r.meta, SweepReason(slug), now);
    MarkOutdatedIff(r.meta, r.kind.Working?, SweepReason(slug), Blank, Instant(now));
  }

  lemma ItemIsLeftAlone(t: Id, slug: string, now: int, cfg: SweepConfig)
    ensures var item := CandidateItem(t, slug, now); !ToRetire(item, cfg) && DecideAction(item, cfg) != PromotionCandidate
  {
    CandidateIsItem(t, slug, now);
  }

  /** Which records the next sweep retires, and which it proposes. */
  lemma NextSweep(before: Bank, after: Bank, slug: string, cfg: SweepConfig, now: int, d: Swept<Id>, r: SlugStats, existing: set<Id>, k: Id)
    requires FullSweep(before, after, slug, cfg, now, d, r, existing) && (k in Retiring(before, slug, cfg) ==> Validated(before[k].meta))
    ensures k in Retiring(after, slug, cfg) <==>
            k in Retiring(before, slug, cfg) && (CanonicalMark(before[k].meta) || Get(before[k].meta, LifecycleStatus) != Blank)
    ensures k in Proposing(after, slug, cfg) <==> k in Proposing(before, slug, cfg)
  {
    SweepEffect(before, after, slug, cfg, now, d, r, existing, k);
    if k in Retiring(before, slug, cfg) {
      RetiredAgainIff(before[k], slug, cfg, now);
    } else if k in after && k !in before {
      var t :| t in d.created && d.created[t] == k && after[k] == CandidateItem(t, slug, now);
      ItemIsLeftAlone(t, slug, now, cfg);
    }
  }

  lemma ReviewsKept(before: Bank, after: Bank, slug: string, cfg: SweepConfig, now: int, d: Swept<Id>, r: SlugStats, existing: set<Id>)
    requires FullSweep(before, after, slug, cfg, now, d, r, existing)
    ensures ExistingReviews(before, slug) <= ExistingReviews(after, slug)
  {
    forall t | t in ExistingReviews(before, slug) ensures t in ExistingReviews(after, slug) {
      var k :| k in Cohort(before, slug) && SweepItem(before[k]) && ItemTarget(before[k]) == t;
      SweepEffect(before, after, slug, cfg, now, d, r, existing, k);
      assert k in Cohort(after, slug) && SweepItem(after[k]) && ItemTarget(after[k]) == t;
    }
  }

  /** After a sweep a proposal has its item exactly when its id is plain. */
  lemma ReviewedAfterwards(before: Bank, after: Bank, slug: string, cfg: SweepConfig, now: int, d: Swept<Id>, r: SlugStats,
                           existing: set<Id>, t: Id)
    requires FullSweep(before, after, slug, cfg, now, d, r, existing) && t in Proposing(before, slug, cfg)
    ensures t in ExistingReviews(after, slug) <==> Plain(t)
  {
    if Plain(t) {
      ReviewsKept(before, after, slug, cfg, now, d, r, existing);
      SweptCreated(before, after, slug, cfg, now, d, r, existing, t);
      if t in d.created {
        CandidateIsItem(t, slug, now);
        assert d.created[t] in Cohort(after, slug) && ItemTarget(after[d.created[t]]) == t;
      }
    }
  }

  /** Nothing the first sweep of a slug retires resists retirement, and everything
      it proposes has a plain id. */
  ghost predicate Converges(bank: Bank, slug: string, cfg: SweepConfig) {
    && (forall k :: k in Retiring(bank, slug, cfg) ==> !CanonicalMark(bank[k].meta) && Get(bank[k].meta, LifecycleStatus) == Blank)
    && (forall k :: k in Proposing(bank, slug, cfg) ==> Plain(k))
  }

  lemma SameReviews(a: Bank, b: Bank, slug: string)
    requires View(a, slug) == View(b, slug)
    ensures ExistingReviews(a, slug) == ExistingReviews(b, slug)
  {
    forall k ensures k in Cohort(a, slug) <==> k in Cohort(b, slug) ensures k in Cohort(a, slug) ==> a[k] == b[k] {
      assert k in View(a, slug) <==> k in View(b, slug);
      if k in View(a, slug) { assert View(a, slug)[k] == View(b, slug)[k]; }
    }
  }

  /** Without automatic promotion a second sweep of a slug, with nothing but other
      slugs swept in between, writes nothing exactly when every record the first
      one retired had neither a canonical mark nor a lifecycle status, and every
      record it proposed has a plain id. */
  lemma SecondSweepQuietIff(b0: Bank, b1: Bank, c1: Bank, c2: Bank, slug: string, cfg: SweepConfig, t1: int, t2: int,
                            d1: Swept<Id>, d2: Swept<Id>, r1: SlugStats, r2: SlugStats, e1: set<Id>, e2: set<Id>)
    requires FullSweep(b0, b1, slug, cfg, t1, d1, r1, e1) && FullSweep(c1, c2, slug, cfg, t2, d2, r2, e2)
    requires Stored(b0, slug) && View(c1, slug) == View(b1, slug)
    ensures WroteNothing(d2) <==> Converges(b0, slug, cfg)
  {
    SameView(b1, c1, slug, cfg, cfg);
    SameReviews(b1, c1, slug);
    forall k
      ensures k in d2.retired <==> k in Retiring(b0, slug, cfg) && (CanonicalMark(b0[k].meta) || Get(b0[k].meta, LifecycleStatus) != Blank)
      ensures k in d2.created <==> k in Proposing(b0, slug, cfg) && !Plain(k)
      ensures k !in d2.promoted
    {
      SweptAt(c1, c2, slug, cfg, t2, d2, r2, e2, k);
      SweptCreated(c1, c2, slug, cfg, t2, d2, r2, e2, k);
      LeftForSecond(b0, b1, slug, cfg, t1, d1, r1, e1, k);
    }
  }

  lemma LeftForSecond(b0: Bank, b1: Bank, slug: string, cfg: SweepConfig, now: int, d: Swept<Id>, r: SlugStats, existing: set<Id>, k: Id)
    requires FullSweep(b0, b1, slug, cfg, now, d, r, existing) && Stored(b0, slug)
    ensures k in Retiring(b1, slug, cfg) <==>
            k in Retiring(b0, slug, cfg) && (CanonicalMark(b0[k].meta) || Get(b0[k].meta, LifecycleStatus) != Blank)
    ensures k in Proposing(b1, slug, cfg) && k !in ExistingReviews(b1, slug) <==> k in Proposing(b0, slug, cfg) && !Plain(k)
  {
    if k in Retiring(b0, slug, cfg) { assert View(b0, slug)[k] == b0[k]; }
    NextSweep(b0, b1, slug, cfg, now, d, r, existing, k);
    if k in Proposing(b0, slug, cfg) { ReviewedAfterwards(b0, b1, slug, cfg, now, d, r, existing, k); }
  }

  lemma NothingWritten(before: Bank, after: Bank, slug: string, cfg: SweepConfig, now: int, d: Swept<Id>, r: SlugStats, existing: set<Id>)
    requires FullSweep(before, after, slug, cfg, now, d, r, existing) && WroteNothing(d)
    ensures after == before && r.outdated == 0 && r.promoted == 0
  {
    var p := PlanOf(before, slug, cfg, now);
    QuietIff(before, p.rewrites, p.items, p.known, d.acted, after, d.created);
    forall k | k in d.acted
      ensures k in p.items ==> k in p.known
      ensures k !in p.rewrites
    {
      SweptAt(before, after, slug, cfg, now, d, r, existing, k);
      ActionClass(before, slug, cfg, now, k);
      SweptCreated(before, after, slug, cfg, now, d, r, existing, k);
    }
  }

  lemma ViewsAfter(banks: seq<Bank>, slugs: seq<string>, cfg: SweepConfig, now: int, stats: seq<SlugStats>, i: nat, j: nat, slug: string)
    requires Chained(banks, slugs, cfg, now, stats) && i <= j <= |slugs| && forall k :: i <= k < j ==> slugs[k] != slug
    ensures View(banks[j], slug) == View(banks[i], slug)
  {
    if i < j {
      ViewsAfter(banks, slugs, cfg, now, stats, i, j - 1, slug);
      assert SweptSomehow(banks[j - 1], banks[(j - 1) + 1], slugs[j - 1], cfg, now, stats[j - 1]);
      OtherSlugsUntouched(banks[j - 1], banks[j], slugs[j - 1], cfg, now, stats[j - 1], slug);
    }
  }

  /** One slug in two runs: nothing has touched its records but its own first sweep. */
  lemma SecondSweepOf(b: Bank, b0: Bank, b1: Bank, c1: Bank, c2: Bank, slug: string, cfg: SweepConfig, t1: int, t2: int,
                      r1: SlugStats, r2: SlugStats)
    requires !cfg.dryRun && !cfg.autoPromote && r1.errors == 0 && r2.errors == 0
    requires SweptSomehow(b0, b1, slug, cfg, t1, r1) && SweptSomehow(c1, c2, slug, cfg, t2, r2)
    requires Stored(b, slug) && Converges(b, slug, cfg) && View(b0, slug) == View(b, slug) && View(c1, slug) == View(b1, slug)
    ensures c2 == c1 && r2.outdated == 0 && r2.promoted == 0
  {
    var d1, e1 :| SlugSwept(b0, b1, slug, cfg, t1, d1, r1, e1);
    var d2, e2 :| SlugSwept(c1, c2, slug, cfg, t2, d2, r2, e2);
    SameConverges(b, b0, slug, cfg);
    SecondSweepQuietIff(b0, b1, c1, c2, slug, cfg, t1, t2, d1, d2, r1, r2, e1, e2);
    NothingWritten(c1, c2, slug, cfg, t2, d2, r2, e2);
  }

  /** Between its own two sweeps nothing happens to a slug's records. */
  lemma ViewsKept(first: seq<Bank>, second: seq<Bank>, slugs: seq<string>, cfg: SweepConfig, t1: int, t2: int,
                  s1: seq<SlugStats>, s2: seq<SlugStats>, i: nat, slug: string)
    requires Distinct(slugs) && i < |slugs| && slugs[i] == slug
    requires Chained(first, slugs, cfg, t1, s1) && Chained(second, slugs, cfg, t2, s2) && second[0] == first[|slugs|]
    ensures View(first[i], slug) == View(first[0], slug) && View(second[i], slug) == View(first[i + 1], slug)
  {
    ViewsAfter(first, slugs, cfg, t1, s1, 0, i, slug);
    ViewsAfter(first, slugs, cfg, t1, s1, i + 1, |slugs|, slug);
    ViewsAfter(second, slugs, cfg, t2, s2, 0, i, slug);
  }

  lemma SecondRunAt(first: seq<Bank>, second: seq<Bank>, slugs: seq<string>, cfg: SweepConfig, t1: int, t2: int,
                    s1: seq<SlugStats>, s2: seq<SlugStats>, i: nat)
    requires !cfg.dryRun && !cfg.autoPromote && Distinct(slugs) && i < |slugs|
    requires Chained(first, slugs, cfg, t1, s1) && Chained(second, slugs, cfg, t2, s2) && second[0] == first[|slugs|]
    requires s1[i].errors == 0 && s2[i].errors == 0 && Stored(first[0], slugs[i]) && Converges(first[0], slugs[i], cfg)
    ensures second[i + 1] == second[i] && s2[i].outdated == 0 && s2[i].promoted == 0
  {
    ViewsKept(first, second, slugs, cfg, t1, t2, s1, s2, i, slugs[i]);
    SecondSweepOf(first[0], first[i], first[i + 1], second[i], second[i + 1], slugs[i], cfg, t1, t2, s1[i], s2[i]);
  }

  lemma SameConverges(a: Bank, b: Bank, slug: string, cfg: SweepConfig)
    requires View(a, slug) == View(b, slug)
    ensures Converges(a, slug, cfg) <==> Converges(b, slug, cfg)
  {
    SameView(a, b, slug, cfg, cfg);
    forall k | k in Retiring(a, slug, cfg) ensures a[k] == b[k] {
      assert View(a, slug)[k] == View(b, slug)[k];
    }
  }

  /** A second live sweep over the same distinct slugs writes nothing at all when
      every slug converges. */
  lemma SecondRunWritesNothing(first: seq<Bank>, second: seq<Bank>, slugs: seq<string>, cfg: SweepConfig, t1: int, t2: int,
                               s1: seq<SlugStats>, s2: seq<SlugStats>)
    requires !cfg.dryRun && !cfg.autoPromote && Distinct(slugs)
    requires Chained(first, slugs, cfg, t1, s1) && Chained(second, slugs, cfg, t2, s2) && second[0] == first[|slugs|]
    requires forall i :: 0 <= i < |slugs| ==>
      s1[i].errors == 0 && s2[i].errors == 0 && Stored(first[0], slugs[i]) && Converges(first[0], slugs[i], cfg)
    ensures forall i :: 0 <= i <= |slugs| ==> second[i] == second[0]
  {
    forall i | 0 <= i < |slugs| ensures second[i + 1] == second[i] {
      SecondRunAt(first, second, slugs, cfg, t1, t2, s1, s2, i);
    }
    AllTheSame(second, |slugs|);
  }

  /** With automatic promotion a record of trusted provenance is promoted by every
      sweep: being canonical already does not take it out of the candidates. */
  lemma PromotedAgain(r: Record, cfg: SweepConfig, now: int)
    requires ToPromote(r, cfg) && NoBlanks(r.meta)
    ensures ToPromote(PromotedRecord(r, false, SweepOwner(), now), cfg)
  {
    var s := PromotedRecord(r, false, SweepOwner(), now);
    assert IsReviewItem(s.meta) == IsReviewItem(r.meta) by { PromotedRecordKind(r.meta, SweepOwner(), now); }
    assert LifecycleStatusOf(s.meta, s.kind.Working?) == Canonical && PromotionAllowed(s.meta, false) by {
      PromotionPromotes(r.meta, r.kind.Working?, false, SweepOwner(), Instant(now));
    }
  }

  lemma PromotedRecordKind(m: Meta, owner: Word, now: int)
    requires NoBlanks(m)
    ensures Get(Normal(PromotedMeta(m, false, owner, Instant(now))), RecordKind) == Get(m, RecordKind)
  {
    PromotedGets(m, false, owner, Instant(now));
    PromotedKeeps(m, false, owner, Instant(now), RecordKind);
    NormalGet(PromotedMeta(m, false, owner, Instant(now)), RecordKind);
  }
}
