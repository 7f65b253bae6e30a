/** The batch driver over the sediment rules (RunSedimentCycle) and what repeated
    runs do. */
module SedimentCycles {
  import opened Common
  import opened Trust
  import opened Sediment
  import opened BatchEffects
  import opened MemoryBank

  datatype CycleResult = CycleResult(auto: nat, queued: nat, skipped: nat, errors: nat)

  datatype Config = Config(policy: Policy, dryRun: bool, sinceDays: int, limit: int)

  method LoadPendingReviews(bank: Bank) returns (pending: set<Id>)
    ensures pending == PendingTargets(bank)
  {
    pending := {};
    var todo := bank.Keys;
    while todo != {}
      invariant todo <= bank.Keys
      invariant pending == set k | k in bank && k !in todo && OpenItem(bank[k]) :: TargetOf(bank[k])
    {
      var k :| k in todo;
      todo := todo - {k};
      if OpenItem(bank[k]) {
        pending := pending + {TargetOf(bank[k])};
      }
    }
  }

  // --------------------------------------------------------------- progress

  /** The bank at the start of a run, what each deciding record calls for, and
      the targets already queued. */
  datatype Plan<K, R> = Plan(before: map<K, R>, moves: map<K, R>, items: map<K, R>, known: set<K>)

  /** The records considered so far: moved, proposed for review, without a
      transition, or lost to a failing write (all but those are `acted`); and the
      review item created for each target that had none. */
  datatype Done<K> = Done(acted: set<K>, moved: set<K>, proposed: set<K>, skipped: set<K>, failed: set<K>, created: map<K, K>) {
    predicate Seen(k: K) {
      k in acted || k in failed
    }
  }

  ghost predicate Sorted<K(!new), R>(p: Plan<K, R>, d: Done<K>) {
    forall k :: SortedOne(p, d, k)
  }

  predicate SortedOne<K, R>(p: Plan<K, R>, d: Done<K>, k: K) {
    && (k in d.acted <==> k in d.moved || k in d.proposed || k in d.skipped)
    && (k in d.moved ==> k in p.moves)
    && (k in d.proposed ==> k in p.items)
    && (k in d.skipped ==> k !in p.moves && k !in p.items)
    && (k in d.failed ==> k !in d.acted && (k in p.moves || k in p.items))
  }

  function Decisions<K>(d: Done<K>): nat {
    |d.moved| + |d.proposed| + |d.failed|
  }

  ghost predicate Counted<K>(d: Done<K>, r: CycleResult) {
    r.auto == |d.moved| && r.skipped == |d.skipped| && r.errors == |d.failed|
  }

  ghost predicate Previewed<K(!new), R>(p: Plan<K, R>, d: Done<K>, after: map<K, R>, queued: nat) {
    after == p.before && d.failed == {} && d.created == map[] && queued == |d.proposed|
  }

  ghost predicate Written<K(!new), R>(p: Plan<K, R>, d: Done<K>, after: map<K, R>, queued: nat) {
    && Effect(p.before, p.moves, p.items, p.known, d.acted, after, d.created)
    && Tallied(p.before, after, d.created, queued)
  }

  /** The bank, the counters and the pending set of a run that has come this far. */
  ghost predicate Progress<K(!new), R>(p: Plan<K, R>, d: Done<K>, after: map<K, R>, dryRun: bool, r: CycleResult, pending: set<K>) {
    && Sorted(p, d)
    && Counted(d, r)
    && (forall k :: k in pending <==> k in p.known || k in d.created)
    && if dryRun then Previewed(p, d, after, r.queued) else Written(p, d, after, r.queued)
  }

  lemma ProgressSkip<K(!new), R>(p: Plan<K, R>, d: Done<K>, after: map<K, R>, dryRun: bool, r: CycleResult, pending: set<K>, id: K)
    requires Progress(p, d, after, dryRun, r, pending)
    requires !d.Seen(id) && id !in p.moves && id !in p.items
    ensures Progress(p, d.(acted := d.acted + {id}, skipped := d.skipped + {id}), after, dryRun, r.(skipped := r.skipped + 1), pending)
  {
    forall k ensures SortedOne(p, d.(acted := d.acted + {id}, skipped := d.skipped + {id}), k) { assert SortedOne(p, d, k); }
    assert !d.Seen(id) && SortedOne(p, d, id);
    if !dryRun { ActQuiet(p.before, p.moves, p.items, p.known, d.acted, after, d.created, id); }
  }

  lemma ProgressPreview<K(!new), R>(p: Plan<K, R>, d: Done<K>, after: map<K, R>, r: CycleResult, pending: set<K>, id: K)
    requires Progress(p, d, after, true, r, pending)
    requires !d.Seen(id)
    ensures id in p.moves ==>
      Progress(p, d.(acted := d.acted + {id}, moved := d.moved + {id}), after, true, r.(auto := r.auto + 1), pending)
    ensures id in p.items ==>
      Progress(p, d.(acted := d.acted + {id}, proposed := d.proposed + {id}), after, true, r.(queued := r.queued + 1), pending)
  {
    assert SortedOne(p, d, id);
    var e, f := d.(acted := d.acted + {id}, moved := d.moved + {id}), d.(acted := d.acted + {id}, proposed := d.proposed + {id});
    forall k ensures (id in p.moves ==> SortedOne(p, e, k)) && (id in p.items ==> SortedOne(p, f, k)) { assert SortedOne(p, d, k); }
  }

  lemma ProgressFailure<K(!new), R>(p: Plan<K, R>, d: Done<K>, after: map<K, R>, r: CycleResult, pending: set<K>, id: K)
    requires Progress(p, d, after, false, r, pending)
    requires !d.Seen(id) && (id in p.moves || id in p.items)
    ensures Progress(p, d.(failed := d.failed + {id}), after, false, r.(errors := r.errors + 1), pending)
  {
    forall k ensures SortedOne(p, d.(failed := d.failed + {id}), k) { assert SortedOne(p, d, k); }
    assert !d.Seen(id) && SortedOne(p, d, id);
  }

  lemma ProgressMove<K(!new), R>(p: Plan<K, R>, d: Done<K>, after: map<K, R>, r: CycleResult, pending: set<K>, id: K)
    requires Progress(p, d, after, false, r, pending)
    requires id in p.before && !d.Seen(id) && id in p.moves && id !in p.items
    ensures id in after && after[id] == p.before[id]
    ensures Progress(p, d.(acted := d.acted + {id}, moved := d.moved + {id}), after[id := p.moves[id]], false, r.(auto := r.auto + 1), pending)
  {
    forall k ensures SortedOne(p, d.(acted := d.acted + {id}, moved := d.moved + {id}), k) { assert SortedOne(p, d, k); }
    assert !d.Seen(id) && SortedOne(p, d, id);
    TalliedRewrite(p.before, after, d.created, r.queued, id, p.moves[id]);
    ActRewrite(p.before, p.moves, p.items, p.known, d.acted, after, d.created, id);
  }

  lemma ProgressPending<K(!new), R>(p: Plan<K, R>, d: Done<K>, after: map<K, R>, r: CycleResult, pending: set<K>, id: K)
    requires Progress(p, d, after, false, r, pending)
    requires !d.Seen(id) && id !in p.moves && id in p.items && id in pending
    ensures Progress(p, d.(acted := d.acted + {id}, proposed := d.proposed + {id}), after, false, r, pending)
  {
    forall k ensures SortedOne(p, d.(acted := d.acted + {id}, proposed := d.proposed + {id}), k) { assert SortedOne(p, d, k); }
    assert !d.Seen(id) && SortedOne(p, d, id);
    ActQuiet(p.before, p.moves, p.items, p.known, d.acted, after, d.created, id);
  }

  function Queued<K>(d: Done<K>, id: K, k: K): Done<K> {
    d.(acted := d.acted + {id}, proposed := d.proposed + {id}, created := d.created[id := k])
  }

  lemma ProgressQueue<K(!new), R>(p: Plan<K, R>, d: Done<K>, after: map<K, R>, r: CycleResult, pending: set<K>, id: K, made: K)
    requires Progress(p, d, after, false, r, pending)
    requires !d.Seen(id) && id !in p.moves && id in p.items && id !in pending && made !in after
    ensures Progress(p, Queued(d, id, made), after[made := p.items[id]], false, r.(queued := r.queued + 1), pending + {id})
  {
    forall k ensures SortedOne(p, Queued(d, id, made), k) { assert SortedOne(p, d, k); }
    assert !d.Seen(id) && SortedOne(p, d, id);
    TalliedCreate(p.before, after, d.created, r.queued, id, made, p.items[id]);
    ActCreate(p.before, p.moves, p.items, p.known, d.acted, after, d.created, id, made);
  }

  // ------------------------------------------------------------------ driver

  predicate Skips(r: Record, cfg: Config, now: int) {
    cfg.sinceDays > 0 && r.createdAt > now - cfg.sinceDays * 24
  }

  /** The records a run may look at. */
  function Eligible(bank: Bank, cfg: Config, now: int): set<Id> {
    set id | id in bank && !Skips(bank[id], cfg, now)
  }

  /** Without a limit every eligible record is considered; with one, at most that
      many decisions are taken, those already queued included, and the run stops
      early only when it has taken them all. */
  ghost predicate WithinLimit<K(!new)>(d: Done<K>, eligible: set<K>, limit: int) {
    && (forall k :: d.Seen(k) ==> k in eligible)
    && (limit > 0 ==> Decisions(d) <= limit)
    && ((limit > 0 && Decisions(d) == limit) || forall k :: k in eligible ==> d.Seen(k))
  }

  ghost predicate OneMore<K(!new)>(d0: Done<K>, d: Done<K>, id: K) {
    forall k :: d.Seen(k) <==> d0.Seen(k) || k == id
  }

  function PlanOf(bank: Bank, policy: Policy, now: int): Plan<Id, Record> {
    Plan(bank, Moves(bank, policy, now), Items(bank, policy, now), PendingTargets(bank))
  }

  ghost predicate Cycled(before: Bank, after: Bank, cfg: Config, now: int, d: Done<Id>, r: CycleResult, pending: set<Id>) {
    var p := PlanOf(before, cfg.policy, now);
    && Progress(p, d, after, cfg.dryRun, r, pending)
    && WithinLimit(d, Eligible(before, cfg, now), cfg.limit)
  }

  lemma DecisionClass(bank: Bank, policy: Policy, now: int, id: Id)
    requires id in bank
    ensures var tr := Decide(bank[id], policy, now);
            && (id in Moves(bank, policy, now) <==> tr.Some? && tr.value.auto)
            && (id in Items(bank, policy, now) <==> tr.Some? && !tr.value.auto)
            && (id in Moves(bank, policy, now) ==> Moves(bank, policy, now)[id] == bank[id].(layer := Some(tr.value.to)))
            && (id in Items(bank, policy, now) ==> Items(bank, policy, now)[id] == ReviewItem(id, bank[id].context, tr.value.to, now))
  {
  }

  method Move(store: MemoryStore, id: Id, to: Layer, ghost p: Plan<Id, Record>, ghost d0: Done<Id>, r0: CycleResult, ghost pending: set<Id>)
    returns (r: CycleResult, ghost d: Done<Id>)
    requires id in p.before && !d0.Seen(id) && id in p.moves && id !in p.items
    requires p.moves[id] == p.before[id].(layer := Some(to))
    requires Progress(p, d0, store.bank, false, r0, pending)
    modifies store
    ensures Progress(p, d, store.bank, false, r, pending)
    ensures OneMore(d0, d, id) && Decisions(d) == Decisions(d0) + 1
  {
    ProgressMove(p, d0, store.bank, r0, pending, id);
    ProgressFailure(p, d0, store.bank, r0, pending, id);
    var ok := store.PromoteSediment(id, to);
    if ok {
      r, d := r0.(auto := r0.auto + 1), d0.(acted := d0.acted + {id}, moved := d0.moved + {id});
    } else {
      r, d := r0.(errors := r0.errors + 1), d0.(failed := d0.failed + {id});
    }
  }

  method CreateSedimentReviewItem(store: MemoryStore, id: Id, item: Record, pending0: set<Id>,
                                  ghost p: Plan<Id, Record>, ghost d0: Done<Id>, r0: CycleResult)
    returns (r: CycleResult, pending: set<Id>, ghost d: Done<Id>)
    requires id in p.before && !d0.Seen(id) && id !in p.moves && id in p.items && p.items[id] == item
    requires Progress(p, d0, store.bank, false, r0, pending0)
    modifies store
    ensures Progress(p, d, store.bank, false, r, pending)
    ensures OneMore(d0, d, id) && Decisions(d) == Decisions(d0) + 1
  {
    r, pending, d := r0, pending0, d0.(acted := d0.acted + {id}, proposed := d0.proposed + {id});
    assert SortedOne(p, d0, id);
    if id in pending {
      ProgressPending(p, d0, store.bank, r0, pending0, id);
      return;
    }
    ghost var bank := store.bank;
    var ok, k := store.Store(item);
    if ok {
      r, pending, d := r.(queued := r.queued + 1), pending + {id}, Queued(d0, id, k);
      ProgressQueue(p, d0, bank, r0, pending0, id, k);
    } else {
      r, d := r.(errors := r.errors + 1), d0.(failed := d0.failed + {id});
      ProgressFailure(p, d0, bank, r0, pending0, id);
    }
  }

  method RunSedimentCycle(store: MemoryStore, cfg: Config, now: int)
    returns (r: CycleResult, pending: set<Id>, ghost d: Done<Id>)
    modifies store
    ensures Cycled(old(store.bank), store.bank, cfg, now, d, r, pending)
  {
    var memories := store.bank;
    var ids := Listing(memories.Keys);
    pending := LoadPendingReviews(memories);
    ghost var p := PlanOf(memories, cfg.policy, now);
    r, d := CycleResult(0, 0, 0, 0), Done({}, {}, {}, {}, {}, map[]);
    NoEffect(p.before, p.moves, p.items, p.known);
    var processed := 0;
    var i := 0;
    while i < |ids|
      invariant 0 <= i <= |ids|
      invariant Progress(p, d, store.bank, cfg.dryRun, r, pending)
      invariant forall k :: d.Seen(k) <==> k in Considered(memories, ids, i, cfg, now)
      invariant processed == Decisions(d)
      invariant cfg.limit > 0 ==> processed <= cfg.limit
    {
      var id := ids[i];
      ConsiderNext(memories, ids, i, cfg, now);
      i := i + 1;
      if Skips(memories[id], cfg, now) {
        continue;
      }
      if cfg.limit > 0 && processed >= cfg.limit {
        return;
      }
      var decided: bool;
      decided, r, pending, d := Consider(store, id, memories[id], cfg, now, pending, p, d, r);
      processed := processed + if decided then 1 else 0;
    }
    AllConsidered(memories, ids, cfg, now);
  }

  /** The loop body for one record of the listing that is not skipped. */
  method Consider(store: MemoryStore, id: Id, m: Record, cfg: Config, now: int, pending0: set<Id>,
                  ghost p: Plan<Id, Record>, ghost d0: Done<Id>, r0: CycleResult)
    returns (decided: bool, r: CycleResult, pending: set<Id>, ghost d: Done<Id>)
    requires p == PlanOf(p.before, cfg.policy, now) && id in p.before && m == p.before[id] && !d0.Seen(id)
    requires Progress(p, d0, store.bank, cfg.dryRun, r0, pending0)
    modifies store
    ensures Progress(p, d, store.bank, cfg.dryRun, r, pending)
    ensures OneMore(d0, d, id) && Decisions(d) == Decisions(d0) + if decided then 1 else 0
  {
    DecisionClass(p.before, cfg.policy, now, id);
    var tr := Decide(m, cfg.policy, now);
    decided, r, pending := tr.Some?, r0, pending0;
    if tr.None? {
      ProgressSkip(p, d0, store.bank, cfg.dryRun, r0, pending, id);
      r, d := r.(skipped := r.skipped + 1), d0.(acted := d0.acted + {id}, skipped := d0.skipped + {id});
    } else if cfg.dryRun {
      ProgressPreview(p, d0, store.bank, r0, pending, id);
      if tr.value.auto {
        r, d := r.(auto := r.auto + 1), d0.(acted := d0.acted + {id}, moved := d0.moved + {id});
      } else {
        r, d := r.(queued := r.queued + 1), d0.(acted := d0.acted + {id}, proposed := d0.proposed + {id});
      }
    } else if tr.value.auto {
      r, d := Move(store, id, tr.value.to, p, d0, r, pending);
    } else {
      var item := ReviewItem(id, m.context, tr.value.to, now);
      r, pending, d := CreateSedimentReviewItem(store, id, item, pending, p, d0, r);
    }
  }

  ghost function Considered(bank: Bank, ids: seq<Id>, i: nat, cfg: Config, now: int): set<Id>
    requires i <= |ids| && forall id :: id in ids ==> id in bank
  {
    set id | id in ids[..i] && !Skips(bank[id], cfg, now)
  }

  lemma ConsiderNext(bank: Bank, ids: seq<Id>, i: nat, cfg: Config, now: int)
    requires i < |ids| && forall id :: id in ids ==> id in bank
    requires forall j, k :: 0 <= j < k < |ids| ==> ids[j] != ids[k]
    ensures ids[i] !in Considered(bank, ids, i, cfg, now)
    ensures Considered(bank, ids, i + 1, cfg, now) ==
            Considered(bank, ids, i, cfg, now) + if Skips(bank[ids[i]], cfg, now) then {} else {ids[i]}
    ensures Considered(bank, ids, i, cfg, now) <= Eligible(bank, cfg, now)
  {
    assert ids[..i + 1] == ids[..i] + [ids[i]];
  }

  lemma AllConsidered(bank: Bank, ids: seq<Id>, cfg: Config, now: int)
    requires forall id :: id in ids <==> id in bank
    ensures Considered(bank, ids, |ids|, cfg, now) == Eligible(bank, cfg, now)
  {
    assert ids[..|ids|] == ids;
  }
}
