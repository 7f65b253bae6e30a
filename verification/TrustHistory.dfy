/** The whole-history safety of the promotion gate: the writers of
    internal/memory/write.go, temporal.go and refcount.go in one process, in any
    order, on records whose metadata callers may patch.

    All of them read a record under the write lock they write it under, but for the
    recount of references, which scans without the lock and later writes back the
    whole metadata it scanned. A recount is therefore two steps, with a snapshot
    pending in between. */
module TrustHistory {
  import opened Common
  import opened Trust

  type Id = string

  datatype Record = Record(meta: Meta, working: bool)

  type Bank = map<Id, Record>

  /** One write. `Store` and `Update` carry what the caller sent and one of the
      results trimming it may give; errors leave the bank as it was. */
  datatype Op =
    | Store(id: Id, raw: RawMeta, trimmed: Meta, working: bool)
    | Update(id: Id, raw: RawMeta, merged: Meta)
    | MarkOutdated(id: Id, reason: Word, successor: Option<Id>, now: Word, count: Word)
    | Merge(primary: Id, duplicates: set<Id>, owner: Word, now: Word, from: Word, reembedded: bool)
    | BumpReferences(id: Id, count: Word)
    | RewriteEmbedding(id: Id, truncated: bool)
    | MoveSediment(id: Id)
    | SetTemporal(id: Id)
    | Promote(id: Id, owner: Word, verified: bool, now: Word)
    | Delete(id: Id)

  /** Calls that passed the caller check, with possible trimming results. */
  ghost predicate Permitted(bank: Bank, op: Op) {
    match op
    case Store(_, raw, trimmed, _) => CallerAllowed(raw) && TrimsTo(raw, trimmed)
    case Update(id, raw, merged) => CallerAllowed(raw) && (id in bank ==> MergesTo(bank[id].meta, raw, merged))
    case MarkOutdated(_, _, _, now, count) => now != Blank && count != Blank
    case Merge(_, _, _, now, from, _) => now != Blank && from != Blank
    case BumpReferences(_, count) => count != Blank
    case Promote(_, _, _, now) => now != Blank
    case _ => true
  }

  /** Validate and write back one record; a validation error changes nothing. */
  function Revised(bank: Bank, id: Id, m: Meta): Bank {
    if id in bank && Normalisable(m) then bank[id := bank[id].(meta := Normal(m))] else bank
  }

  function MergedPrimary(m: Meta, owner: Word, now: Word, from: Word, reembedded: bool): Meta {
    var owned := if Get(m, Owner) == Blank then SetUnlessBlank(m, Owner, owner) else m;
    var noted := owned[MergedFrom := from][LastVerifiedAt := now];
    if reembedded then noted - {EmbeddingTruncated} else noted
  }

  function MergedDuplicate(m: Meta, primary: Id, now: Word): Meta {
    m[SupersededBy := Free(primary)][OutdatedReason := Free("merged duplicate")][Status := Merged]
      [MergedInto := Free(primary)][ArchivedKey := True][LastVerifiedAt := now]
  }

  /** The duplicates a merge really retires: those present, the primary aside. */
  function Retiring(bank: Bank, primary: Id, duplicates: set<Id>): set<Id> {
    set d | d in duplicates && d in bank && d != primary
  }

  function Merging(bank: Bank, op: Op): Bank
    requires op.Merge?
  {
    var dups := Retiring(bank, op.primary, op.duplicates);
    if op.primary in bank && dups != {} && forall id :: id in dups + {op.primary} ==> Normalisable(MergedMeta(bank, op, id)) then
      map id | id in bank ::
        if id in dups + {op.primary} then bank[id].(meta := Normal(MergedMeta(bank, op, id))) else bank[id]
    else bank
  }

  function MergedMeta(bank: Bank, op: Op, id: Id): Meta
    requires op.Merge? && id in bank
  {
    if id == op.primary then MergedPrimary(bank[id].meta, op.owner, op.now, op.from, op.reembedded)
    else MergedDuplicate(bank[id].meta, op.primary, op.now)
  }

  /** Retire `id` and, in the same transaction, count a reference to a successor
      that is itself in the bank. */
  function Outdating(bank: Bank, op: Op): Bank
    requires op.MarkOutdated? && op.now != Blank
  {
    if op.id !in bank then bank
    else
      var retired := OutdatedMeta(bank[op.id].meta, op.reason, if op.successor.Some? then Free(op.successor.value) else Blank, op.now);
      var linked := op.successor.Some? && op.successor.value in bank;
      if !Normalisable(retired) then bank
      else if !linked then Revised(bank, op.id, retired)
      else
        var next := bank[op.successor.value].meta[ReferencedByCount := op.count];
        if Normalisable(next) then Revised(Revised(bank, op.id, retired), op.successor.value, next) else bank
  }

  function Apply(bank: Bank, op: Op): Bank
    requires op.MarkOutdated? || op.Promote? ==> op.now != Blank
  {
    match op
    case Store(id, _, trimmed, working) =>
      if id !in bank && Normalisable(trimmed) then bank[id := Record(Normal(trimmed), working)] else bank
    case Update(id, _, merged) => Revised(bank, id, merged)
    case MarkOutdated(_, _, _, _, _) => Outdating(bank, op)
    case Merge(_, _, _, _, _, _) => Merging(bank, op)
    case BumpReferences(id, count) =>
      if id in bank then bank[id := bank[id].(meta := bank[id].meta[ReferencedByCount := count])] else bank
    case RewriteEmbedding(id, truncated) =>
      if id !in bank then bank
      else bank[id := bank[id].(meta := if truncated then bank[id].meta[EmbeddingTruncated := True] else bank[id].meta - {EmbeddingTruncated})]
    case MoveSediment(_) => bank
    case SetTemporal(_) => bank
    case Promote(id, owner, verified, now) =>
      if id in bank && PromotionAllowed(bank[id].meta, verified) then Revised(bank, id, PromotedMeta(bank[id].meta, verified, owner, now)) else bank
    case Delete(id) => bank - {id}
  }

  // ---------------------------------------------------------------- recounts

  /** What a recount is going to write: the metadata it scanned of the records whose
      count it found wrong, with the count it derived. */
  type Snapshot = map<Id, Meta>

  /** The bank, and the snapshots of the recounts in flight. */
  datatype State = State(bank: Bank, scans: map<nat, Snapshot>)

  datatype Step =
    | Write(op: Op)
    | Scan(recount: nat, counts: map<Id, Word>)
    | WriteCount(recount: nat, id: Id)
    | EndRecount(recount: nat)

  function Recounted(m: Meta, count: Word): Meta {
    m[ReferencedByCount := count]
  }

  function SnapshotOf(bank: Bank, counts: map<Id, Word>): Snapshot {
    map id | id in counts && id in bank :: Recounted(bank[id].meta, counts[id])
  }

  predicate Pending(s: State, recount: nat, id: Id) {
    recount in s.scans && id in s.scans[recount]
  }

  ghost predicate PermittedStep(s: State, step: Step) {
    match step
    case Write(op) => Permitted(s.bank, op)
    case Scan(_, counts) => forall id :: id in counts ==> counts[id] != Blank
    case _ => true
  }

  function Next(s: State, step: Step): State
    requires step.Write? && (step.op.MarkOutdated? || step.op.Promote?) ==> step.op.now != Blank
  {
    match step
    case Write(op) => s.(bank := Apply(s.bank, op))
    case Scan(n, counts) => s.(scans := s.scans[n := SnapshotOf(s.bank, counts)])
    case WriteCount(n, id) =>
      if Pending(s, n, id) && id in s.bank then s.(bank := s.bank[id := s.bank[id].(meta := s.scans[n][id])]) else s
    case EndRecount(n) => s.(scans := s.scans - {n})
  }

  // -------------------------------------------------------------- histories

  /** A history of permitted steps, `states[i + 1]` being the i-th's result. */
  ghost predicate History(states: seq<State>, steps: seq<Step>) {
    && |states| == |steps| + 1
    && forall i {:trigger steps[i]} :: 0 <= i < |steps| ==> Stepped(states[i], steps[i], states[i + 1])
  }

  ghost predicate Stepped(before: State, step: Step, after: State) {
    PermittedStep(before, step) && after == Next(before, step)
  }

  ghost predicate Wellformed(bank: Bank) {
    forall id :: id in bank ==> NoBlanks(bank[id].meta)
  }

  /** `id` is absent or its record is guarded. */
  ghost predicate Safe(bank: Bank, id: Id) {
    id in bank ==> Guarded(bank[id].meta)
  }

  predicate Vouches(op: Op, id: Id) {
    op.Promote? && op.verified && op.id == id
  }

  ghost predicate Unvouched(steps: seq<Step>, id: Id) {
    forall i :: 0 <= i < |steps| && steps[i].Write? ==> !Vouches(steps[i].op, id)
  }

  ghost predicate Sound(s: State) {
    Wellformed(s.bank) && forall n, id :: Pending(s, n, id) ==> NoBlanks(s.scans[n][id])
  }

  /** Every pending snapshot of the record is guarded. */
  ghost predicate ScansSafe(s: State, id: Id) {
    forall n :: Pending(s, n, id) ==> Guarded(s.scans[n][id])
  }

  lemma StoredIsGuarded(raw: RawMeta, trimmed: Meta)
    requires CallerAllowed(raw) && TrimsTo(raw, trimmed)
    ensures Guarded(trimmed)
  {
    forall k | k in trimmed
      ensures !ServerOwned(k) && !((k == LifecycleStatus || k == Status) && LifecycleOf(trimmed[k]) == Some(Canonical))
    {
      assert Sent(raw, k, trimmed[k]);
    }
  }

  lemma UpdatedIsGuarded(m: Meta, raw: RawMeta, merged: Meta)
    requires CallerAllowed(raw) && MergesTo(m, raw, merged) && Guarded(m)
    ensures Guarded(merged)
  {
    SentOrKept(m, raw, merged, CanonicalKey);
    SentOrKept(m, raw, merged, KnowledgeLayer);
    SentOrKept(m, raw, merged, LifecycleStatus);
    SentOrKept(m, raw, merged, Status);
    SentOrKept(m, raw, merged, Provenance);
    KeptIsGuarded(m, merged);
  }

  /** A patched key is as before, removed, or holds an allowed value. */
  predicate KeptOrAllowed(m: Meta, merged: Meta, k: Key) {
    || Get(merged, k) == Get(m, k) || Get(merged, k) == Blank
    || (!ServerOwned(k) && ((k == LifecycleStatus || k == Status) ==> LifecycleOf(Get(merged, k)) != Some(Canonical)))
  }

  lemma SentOrKept(m: Meta, raw: RawMeta, merged: Meta, k: Key)
    requires CallerAllowed(raw) && MergesTo(m, raw, merged) && k != NoKey
    ensures KeptOrAllowed(m, merged, k)
  {
    if exists w :: Sent(raw, k, w) {
      assert Sent(raw, k, Get(merged, k));
      var r :| r in raw && r.key == k && raw[r] == Get(merged, k);
    }
  }

  lemma KeptIsGuarded(m: Meta, merged: Meta)
    requires Guarded(m) && KeptOrAllowed(m, merged, CanonicalKey) && KeptOrAllowed(m, merged, KnowledgeLayer)
    requires KeptOrAllowed(m, merged, LifecycleStatus) && KeptOrAllowed(m, merged, Status) && KeptOrAllowed(m, merged, Provenance)
    ensures Guarded(merged)
  {
  }

  lemma RevisedIsSafe(bank: Bank, target: Id, m: Meta, id: Id)
    requires Wellformed(bank) && NoBlanks(m) && Safe(bank, id)
    requires id == target && id in bank ==> Guarded(m)
    ensures Wellformed(Revised(bank, target, m)) && Safe(Revised(bank, target, m), id)
  {
    if target in bank && Normalisable(m) {
      NormalGet(m, Status);
      if id == target { GuardedNormal(m); }
    }
  }

  lemma OutdatedIsGuarded(m: Meta, reason: Word, successor: Word, now: Word)
    requires NoBlanks(m) && now != Blank
    ensures NoBlanks(OutdatedMeta(m, reason, successor, now))
    ensures Guarded(m) ==> Guarded(OutdatedMeta(m, reason, successor, now))
  {
    OutdatedGets(m, reason, successor, now);
  }

  lemma OutdatingIsSafe(bank: Bank, op: Op, id: Id)
    requires op.MarkOutdated? && op.now != Blank && op.count != Blank
    requires Wellformed(bank) && Safe(bank, id)
    ensures Wellformed(Outdating(bank, op)) && Safe(Outdating(bank, op), id)
  {
    if op.id in bank {
      var successor := if op.successor.Some? then Free(op.successor.value) else Blank;
      var retired := OutdatedMeta(bank[op.id].meta, op.reason, successor, op.now);
      OutdatedIsGuarded(bank[op.id].meta, op.reason, successor, op.now);
      RevisedIsSafe(bank, op.id, retired, id);
      if op.successor.Some? && op.successor.value in bank {
        var next := bank[op.successor.value].meta[ReferencedByCount := op.count];
        NotedIsGuarded(bank[op.successor.value].meta, ReferencedByCount, op.count);
        RevisedIsSafe(Revised(bank, op.id, retired), op.successor.value, next, id);
      }
    }
  }

  /** Writes that change one harmless key, none, or remove the record. */
  lemma SmallWriteIsSafe(bank: Bank, op: Op, id: Id)
    requires (op.BumpReferences? && op.count != Blank) || op.RewriteEmbedding? || op.MoveSediment? || op.SetTemporal? || op.Delete?
    requires Wellformed(bank) && Safe(bank, id)
    ensures Wellformed(Apply(bank, op)) && Safe(Apply(bank, op), id)
  {
    if op.BumpReferences? && op.id in bank {
      NotedIsGuarded(bank[op.id].meta, ReferencedByCount, op.count);
    } else if op.RewriteEmbedding? && op.id in bank {
      NotedIsGuarded(bank[op.id].meta, EmbeddingTruncated, True);
      DroppedIsGuarded(bank[op.id].meta, EmbeddingTruncated);
    }
  }

  lemma PrimaryIsGuarded(m: Meta, owner: Word, now: Word, from: Word, reembedded: bool)
    requires NoBlanks(m) && now != Blank && from != Blank
    ensures NoBlanks(MergedPrimary(m, owner, now, from, reembedded))
    ensures Guarded(m) ==> Guarded(MergedPrimary(m, owner, now, from, reembedded))
  {
    var owned := if Get(m, Owner) == Blank then SetUnlessBlank(m, Owner, owner) else m;
    if owner != Blank { NotedIsGuarded(m, Owner, owner); }
    NotedIsGuarded(owned, MergedFrom, from);
    NotedIsGuarded(owned[MergedFrom := from], LastVerifiedAt, now);
    DroppedIsGuarded(owned[MergedFrom := from][LastVerifiedAt := now], EmbeddingTruncated);
  }

  lemma DroppedIsGuarded(m: Meta, k: Key)
    requires NoBlanks(m) && Harmless(k)
    ensures NoBlanks(m - {k}) && (Guarded(m) ==> Guarded(m - {k}))
  {
  }

  /** Keys that neither derive the lifecycle nor claim trust. */
  predicate Harmless(k: Key) {
    k != CanonicalKey && k != KnowledgeLayer && k != LifecycleStatus && k != Status && k != Provenance
  }

  lemma NotedIsGuarded(m: Meta, k: Key, w: Word)
    requires NoBlanks(m) && Harmless(k) && w != Blank
    ensures NoBlanks(m[k := w]) && (Guarded(m) ==> Guarded(m[k := w]))
  {
  }

  lemma DuplicateIsGuarded(m: Meta, primary: Id, now: Word)
    requires NoBlanks(m) && now != Blank
    ensures NoBlanks(MergedDuplicate(m, primary, now))
    ensures Guarded(m) ==> Guarded(MergedDuplicate(m, primary, now))
  {
    var a := m[SupersededBy := Free(primary)];
    var b := a[OutdatedReason := Free("merged duplicate")];
    var c := b[Status := Merged];
    var d := c[MergedInto := Free(primary)];
    NotedIsGuarded(m, SupersededBy, Free(primary));
    NotedIsGuarded(a, OutdatedReason, Free("merged duplicate"));
    assert NoBlanks(c) && (Guarded(b) ==> Guarded(c));
    NotedIsGuarded(c, MergedInto, Free(primary));
    NotedIsGuarded(d, ArchivedKey, True);
    NotedIsGuarded(d[ArchivedKey := True], LastVerifiedAt, now);
  }

  /** A merge leaves a record as it is or gives it its merged metadata. */
  lemma MergingAt(bank: Bank, op: Op, k: Id)
    requires op.Merge?
    ensures k in Merging(bank, op) <==> k in bank
    ensures k in bank ==> var m := Merging(bank, op)[k].meta; m == bank[k].meta || m == Normal(MergedMeta(bank, op, k))
  {
  }

  lemma MergingIsSafe(bank: Bank, op: Op, id: Id)
    requires op.Merge? && op.now != Blank && op.from != Blank
    requires Wellformed(bank) && Safe(bank, id)
    ensures Wellformed(Merging(bank, op)) && Safe(Merging(bank, op), id)
  {
    var after := Merging(bank, op);
    forall k | k in after ensures NoBlanks(after[k].meta) && (k == id ==> Guarded(after[k].meta)) {
      MergingAt(bank, op, k);
      MergedIsGuarded(bank, op, k);
    }
  }

  lemma MergedIsGuarded(bank: Bank, op: Op, k: Id)
    requires op.Merge? && op.now != Blank && op.from != Blank && k in bank && NoBlanks(bank[k].meta)
    ensures NoBlanks(MergedMeta(bank, op, k)) && NoBlanks(Normal(MergedMeta(bank, op, k)))
    ensures Guarded(bank[k].meta) ==> Guarded(Normal(MergedMeta(bank, op, k)))
  {
    PrimaryIsGuarded(bank[k].meta, op.owner, op.now, op.from, op.reembedded);
    DuplicateIsGuarded(bank[k].meta, op.primary, op.now);
    NormalGet(MergedMeta(bank, op, k), Status);
    if Guarded(bank[k].meta) { GuardedNormal(MergedMeta(bank, op, k)); }
  }

  lemma PromotionIsSafe(bank: Bank, op: Op, id: Id)
    requires op.Promote? && op.now != Blank && !Vouches(op, id)
    requires Wellformed(bank) && Safe(bank, id)
    ensures Wellformed(Apply(bank, op)) && Safe(Apply(bank, op), id)
  {
    if op.id in bank && PromotionAllowed(bank[op.id].meta, op.verified) {
      PromotedGets(bank[op.id].meta, op.verified, op.owner, op.now);
      RevisedIsSafe(bank, op.id, PromotedMeta(bank[op.id].meta, op.verified, op.owner, op.now), id);
    }
  }

  lemma CallerIsSafe(bank: Bank, op: Op, id: Id)
    requires (op.Store? || op.Update?) && Permitted(bank, op)
    requires Wellformed(bank) && Safe(bank, id)
    ensures Wellformed(Apply(bank, op)) && Safe(Apply(bank, op), id)
  {
    if op.Store? {
      StoredIsGuarded(op.raw, op.trimmed);
      GuardedNormal(op.trimmed);
    } else if op.id in bank {
      if Guarded(bank[op.id].meta) {
        UpdatedIsGuarded(bank[op.id].meta, op.raw, op.merged);
      }
      RevisedIsSafe(bank, op.id, op.merged, id);
    }
  }

  lemma WriteIsSafe(bank: Bank, op: Op, id: Id)
    requires Permitted(bank, op) && !Vouches(op, id)
    requires Wellformed(bank) && Safe(bank, id)
    ensures Wellformed(Apply(bank, op)) && Safe(Apply(bank, op), id)
  {
    match op
    case MarkOutdated(_, _, _, _, _) => OutdatingIsSafe(bank, op, id);
    case Merge(_, _, _, _, _, _) => MergingIsSafe(bank, op, id);
    case Promote(_, _, _, _) => PromotionIsSafe(bank, op, id);
    case Store(_, _, _, _) => CallerIsSafe(bank, op, id);
    case Update(_, _, _) => CallerIsSafe(bank, op, id);
    case _ => SmallWriteIsSafe(bank, op, id);
  }

  /** Counting references neither raises nor lowers a record's guard. */
  lemma CountKeepsGuard(m: Meta, count: Word)
    requires NoBlanks(m) && count != Blank
    ensures NoBlanks(Recounted(m, count)) && (Guarded(Recounted(m, count)) <==> Guarded(m))
    ensures TrustedProvenance(Recounted(m, count)) == TrustedProvenance(m)
    ensures forall working :: LifecycleStatusOf(Recounted(m, count), working) == LifecycleStatusOf(m, working)
  {
    var t := Recounted(m, count);
    assert Get(t, CanonicalKey) == Get(m, CanonicalKey) && Get(t, KnowledgeLayer) == Get(m, KnowledgeLayer);
    assert Get(t, LifecycleStatus) == Get(m, LifecycleStatus) && Get(t, ArchivedKey) == Get(m, ArchivedKey);
    assert Get(t, Status) == Get(m, Status) && Get(t, Provenance) == Get(m, Provenance);
  }

  /** What a recount writes is guarded exactly when what it scanned was, whatever the
      record holds by then. */
  lemma WriteCountSafeIff(scanned: Bank, counts: map<Id, Word>, s: State, n: nat, id: Id)
    requires Wellformed(scanned) && id in scanned && id in counts && counts[id] != Blank
    requires n in s.scans && s.scans[n] == SnapshotOf(scanned, counts) && id in s.bank
    ensures Safe(Next(s, WriteCount(n, id)).bank, id) <==> Guarded(scanned[id].meta)
  {
    CountKeepsGuard(scanned[id].meta, counts[id]);
  }

  lemma RecountIsSafe(s: State, step: Step, id: Id)
    requires !step.Write? && PermittedStep(s, step)
    requires Sound(s) && Safe(s.bank, id) && ScansSafe(s, id)
    ensures Sound(Next(s, step)) && Safe(Next(s, step).bank, id) && ScansSafe(Next(s, step), id)
  {
    var t := Next(s, step);
    forall n, k | Pending(t, n, k) ensures NoBlanks(t.scans[n][k]) && (k == id ==> Guarded(t.scans[n][k])) {
      if step.Scan? && n == step.recount {
        CountKeepsGuard(s.bank[k].meta, step.counts[k]);
      } else {
        assert Pending(s, n, k);
      }
    }
  }

  /** No step but a verified promotion of the record itself takes the guard from a
      record, or gives an unguarded snapshot of it, where there was none. */
  lemma StepIsSafe(s: State, step: Step, id: Id)
    requires PermittedStep(s, step) && (step.Write? ==> !Vouches(step.op, id))
    requires Sound(s) && Safe(s.bank, id) && ScansSafe(s, id)
    ensures Sound(Next(s, step)) && Safe(Next(s, step).bank, id) && ScansSafe(Next(s, step), id)
  {
    if step.Write? {
      WriteIsSafe(s.bank, step.op, id);
      var t := Next(s, step);
      assert forall n, k :: Pending(t, n, k) <==> Pending(s, n, k);
    } else {
      RecountIsSafe(s, step, id);
    }
  }

  /** Over any history of checked stores and updates, outdated marks, merges, reference
      counts and recounts, sediment moves, temporal fields, embedding rewrites,
      deletions and unverified promotions, a guarded record of which no unguarded
      snapshot is pending never becomes canonical and never gains trust; nor does any
      record created along the way. */
  lemma {:induction false} NeverCanonicalUnvouched(states: seq<State>, steps: seq<Step>, id: Id)
    requires History(states, steps) && Sound(states[0]) && Safe(states[0].bank, id) && ScansSafe(states[0], id)
    requires Unvouched(steps, id)
    ensures var s := states[|steps|]; Sound(s) && Safe(s.bank, id) && ScansSafe(s, id)
    ensures var bank := states[|steps|].bank;
            id in bank ==> LifecycleStatusOf(bank[id].meta, bank[id].working) != Canonical && !PromotionAllowed(bank[id].meta, false)
    decreases |steps|
  {
    if |steps| > 0 {
      var n := |steps| - 1;
      assert Unvouched(steps[..n], id) by {
        forall i | 0 <= i < n && steps[..n][i].Write? ensures !Vouches(steps[..n][i].op, id) { assert steps[..n][i] == steps[i]; }
      }
      NeverCanonicalUnvouched(states[..n + 1], steps[..n], id);
      assert Stepped(states[n], steps[n], states[n + 1]);
      StepIsSafe(states[n], steps[n], id);
    }
  }

  /** Whatever permitted, unvouched steps follow, the record stays guarded. */
  ghost predicate StaysSafe(s: State, id: Id) {
    forall states: seq<State>, steps: seq<Step> :: History(states, steps) && states[0] == s && Unvouched(steps, id) ==> Safe(states[|steps|].bank, id)
  }

  /** The pending snapshots are the exact condition: a guarded record stays guarded
      through every history exactly when none of them is unguarded. */
  lemma StaysSafeIff(s: State, id: Id)
    requires Sound(s) && id in s.bank && Safe(s.bank, id)
    ensures StaysSafe(s, id) <==> ScansSafe(s, id)
  {
    if ScansSafe(s, id) {
      forall states: seq<State>, steps: seq<Step> | History(states, steps) && states[0] == s && Unvouched(steps, id)
        ensures Safe(states[|steps|].bank, id)
      {
        NeverCanonicalUnvouched(states, steps, id);
      }
    } else {
      var n :| Pending(s, n, id) && !Guarded(s.scans[n][id]);
      var step := WriteCount(n, id);
      var states, steps := [s, Next(s, step)], [step];
      assert Stepped(states[0], steps[0], states[1]);
      assert History(states, steps) && Unvouched(steps, id);
    }
  }

  // ------------------------------------------------- a correction undone

  /** A caller removes everything that makes a record canonical or trusted: blank
      values pass the caller check. */
  function Removals(): RawMeta {
    map[Raw(CanonicalKey, 0) := Blank, Raw(KnowledgeLayer, 0) := Blank, Raw(LifecycleStatus, 0) := Blank,
        Raw(Status, 0) := Blank, Raw(Provenance, 0) := Blank]
  }

  function Corrected(m: Meta): Meta {
    m - {CanonicalKey, KnowledgeLayer, LifecycleStatus, Status, Provenance}
  }

  lemma RemovalsAreAllowed()
    ensures CallerAllowed(Removals())
  {
    assert forall r :: r in Removals() ==> Removals()[r] == Blank;
  }

  ghost predicate MergedAt(m: Meta, raw: RawMeta, merged: Meta, k: Key) {
    if k != NoKey && exists w :: Sent(raw, k, w) then Sent(raw, k, Get(merged, k)) else Get(merged, k) == Get(m, k)
  }

  lemma MergedEverywhere(m: Meta, raw: RawMeta, merged: Meta)
    requires NoBlanks(merged) && forall k :: MergedAt(m, raw, merged, k)
    ensures MergesTo(m, raw, merged)
  {
    forall k ensures if k != NoKey && exists w :: Sent(raw, k, w) then Sent(raw, k, Get(merged, k)) else Get(merged, k) == Get(m, k) {
      assert MergedAt(m, raw, merged, k);
    }
  }

  predicate Removed(k: Key) {
    k == CanonicalKey || k == KnowledgeLayer || k == LifecycleStatus || k == Status || k == Provenance
  }

  lemma SentOnlyRemovals(k: Key, w: Word)
    ensures Sent(Removals(), k, w) <==> Removed(k) && w == Blank
  {
    if Removed(k) { assert Raw(k, 0) in Removals(); }
  }

  lemma CorrectionMerges(m: Meta)
    requires NoBlanks(m)
    ensures MergesTo(m, Removals(), Corrected(m))
  {
    var raw, t := Removals(), Corrected(m);
    forall k ensures MergedAt(m, raw, t, k) {
      forall w ensures Sent(raw, k, w) <==> Removed(k) && w == Blank { SentOnlyRemovals(k, w); }
      assert Get(t, k) == if Removed(k) then Blank else Get(m, k);
    }
    MergedEverywhere(m, raw, t);
  }

  lemma CorrectionGuards(m: Meta)
    ensures Guarded(Corrected(m))
  {
  }

  lemma ThreeSteps(s0: State, a: Step, s1: State, b: Step, s2: State, c: Step, s3: State)
    requires Stepped(s0, a, s1) && Stepped(s1, b, s2) && Stepped(s2, c, s3)
    ensures History([s0, s1, s2, s3], [a, b, c])
  {
  }

  lemma ScanOfOne(bank: Bank, id: Id, count: Word)
    requires id in bank && count != Blank
    ensures Stepped(State(bank, map[]), Scan(0, map[id := count]), State(bank, map[0 := map[id := Recounted(bank[id].meta, count)]]))
  {
    assert SnapshotOf(bank, map[id := count]) == map[id := Recounted(bank[id].meta, count)];
  }

  lemma WriteOfOne(bank: Bank, id: Id, m: Meta)
    requires id in bank
    ensures Stepped(State(bank, map[0 := map[id := m]]), WriteCount(0, id),
                    State(bank[id := bank[id].(meta := m)], map[0 := map[id := m]]))
  {
  }

  /** Scan, an update that gives `after`, and the write of what was scanned. */
  lemma ScannedBefore(bank: Bank, op: Op, after: Bank, id: Id, m: Meta, count: Word) returns (states: seq<State>, steps: seq<Step>)
    requires op.Update? && Permitted(bank, op) && after == Apply(bank, op) && id in bank && m == bank[id].meta && id in after && count != Blank
    ensures steps == [Scan(0, map[id := count]), Write(op), WriteCount(0, id)]
    ensures History(states, steps) && states[0] == State(bank, map[]) && states[2].bank == after
    ensures states[3].bank == after[id := after[id].(meta := Recounted(m, count))]
  {
    var counted := Recounted(m, count);
    var scans: map<nat, Snapshot> := map[0 := map[id := counted]];
    var last := after[id := after[id].(meta := counted)];
    var s0, s1, s2, s3 := State(bank, map[]), State(bank, scans), State(after, scans), State(last, scans);
    ScanOfOne(bank, id, count);
    WriteOfOne(after, id, counted);
    assert Stepped(s1, Write(op), s2);
    ThreeSteps(s0, Scan(0, map[id := count]), s1, Write(op), s2, WriteCount(0, id), s3);
    states, steps := [s0, s1, s2, s3], [Scan(0, map[id := count]), Write(op), WriteCount(0, id)];
  }

  lemma CorrectionApplies(bank: Bank, id: Id) returns (op: Op, after: Bank)
    requires Wellformed(bank) && id in bank && Normalisable(Corrected(bank[id].meta))
    ensures op.Update? && Permitted(bank, op) && after == Apply(bank, op)
    ensures id in after && Guarded(after[id].meta) && after[id].working == bank[id].working
  {
    op := Update(id, Removals(), Corrected(bank[id].meta));
    after := Apply(bank, op);
    RemovalsAreAllowed();
    CorrectionMerges(bank[id].meta);
    CorrectionGuards(bank[id].meta);
    GuardedNormal(Corrected(bank[id].meta));
  }

  /** A recount scans a record, a caller then takes the record's trust away, and the
      recount writes: the record is back as it was scanned, count aside. So one that
      was canonical and trusted is again, and no promotion has taken place. */
  lemma RecountUndoesCorrection(bank: Bank, id: Id, count: Word) returns (states: seq<State>, steps: seq<Step>)
    requires Wellformed(bank) && id in bank && count != Blank && Normalisable(Corrected(bank[id].meta))
    ensures History(states, steps) && |steps| == 3 && states[0] == State(bank, map[])
    ensures steps[0] == Scan(0, map[id := count]) && steps[2] == WriteCount(0, id)
    ensures forall step :: step in steps && step.Write? ==> step.op.Update?
    ensures id in states[2].bank && Guarded(states[2].bank[id].meta)
    ensures id in states[3].bank && states[3].bank[id] == bank[id].(meta := Recounted(bank[id].meta, count))
  {
    var op, after := CorrectionApplies(bank, id);
    states, steps := ScannedBefore(bank, op, after, id, bank[id].meta, count);
  }

  /** Canonical after a verified promotion, with a count of one. */
  function Vouched(): Meta {
    map[CanonicalKey := True, KnowledgeLayer := CanonicalWord, LifecycleStatus := CanonicalWord, Provenance := Verified, ReferencedByCount := One]
  }

  lemma VouchedIsCanonical()
    ensures NoBlanks(Vouched()) && Normalisable(Corrected(Vouched()))
    ensures LifecycleStatusOf(Recounted(Vouched(), Zero), false) == Canonical && PromotionAllowed(Recounted(Vouched(), Zero), false)
  {
    assert Corrected(Vouched()) == map[ReferencedByCount := One];
    assert CanonicalMark(Vouched()) && TrustedProvenance(Vouched());
    CountKeepsGuard(Vouched(), Zero);
    assert LifecycleStatusOf(Recounted(Vouched(), Zero), false) == LifecycleStatusOf(Vouched(), false);
  }

  /** For instance the only record of a bank, whose count is out of date because
      nothing refers to it any more. */
  lemma CanonicalAgain(id: Id) returns (states: seq<State>, steps: seq<Step>)
    ensures History(states, steps) && |steps| == 3 && Unvouched(steps, id) && states[0] == State(map[id := Record(Vouched(), false)], map[])
    ensures steps[0] == Scan(0, map[id := Zero]) && steps[2] == WriteCount(0, id)
    ensures id in states[2].bank && Guarded(states[2].bank[id].meta)
    ensures id in states[3].bank && PromotionAllowed(states[3].bank[id].meta, false)
    ensures LifecycleStatusOf(states[3].bank[id].meta, states[3].bank[id].working) == Canonical
  {
    VouchedIsCanonical();
    states, steps := RecountUndoesCorrection(map[id := Record(Vouched(), false)], id, Zero);
    forall i | 0 <= i < |steps| && steps[i].Write? ensures !Vouches(steps[i].op, id) { assert steps[i] in steps; }
  }

  /** The guard is needed in full. A record that is not canonical now and has
      untrusted provenance can be made canonical by one permitted update exactly
      when its status still says canonical behind another lifecycle source:
      removing lifecycle_status uncovers it. */
  lemma LatentCanonicalIff(m: Meta, working: bool)
    requires NoBlanks(m) && !TrustedProvenance(m) && LifecycleStatusOf(m, working) != Canonical
    ensures LifecycleOf(Get(m, Status)) == Some(Canonical) <==> !Guarded(m)
    ensures LifecycleOf(Get(m, Status)) == Some(Canonical) ==>
              var raw := map[Raw(LifecycleStatus, 0) := Blank];
              CallerAllowed(raw) && MergesTo(m, raw, m - {LifecycleStatus})
                && LifecycleStatusOf(Normal(m - {LifecycleStatus}), working) == Canonical
    ensures Guarded(m) ==> forall raw, merged :: CallerAllowed(raw) && MergesTo(m, raw, merged) ==>
                                                   LifecycleStatusOf(Normal(merged), working) != Canonical
  {
    if LifecycleOf(Get(m, Status)) == Some(Canonical) {
      Uncovered(m, working);
    }
    if Guarded(m) {
      forall raw, merged | CallerAllowed(raw) && MergesTo(m, raw, merged)
        ensures LifecycleStatusOf(Normal(merged), working) != Canonical
      {
        UpdatedIsGuarded(m, raw, merged);
        GuardedNormal(merged);
        GuardedIsUntrusted(Normal(merged), working);
      }
    }
  }

  lemma Uncovered(m: Meta, working: bool)
    requires NoBlanks(m) && LifecycleOf(Get(m, Status)) == Some(Canonical)
    ensures var raw := map[Raw(LifecycleStatus, 0) := Blank];
            CallerAllowed(raw) && MergesTo(m, raw, m - {LifecycleStatus})
              && LifecycleStatusOf(Normal(m - {LifecycleStatus}), working) == Canonical
  {
    var raw: RawMeta := map[Raw(LifecycleStatus, 0) := Blank];
    var bare := m - {LifecycleStatus};
    assert Sent(raw, LifecycleStatus, Blank) by { assert Raw(LifecycleStatus, 0) in raw; }
    forall k ensures if k != NoKey && exists w :: Sent(raw, k, w) then Sent(raw, k, Get(bare, k)) else Get(bare, k) == Get(m, k) {
      if k != LifecycleStatus {
        assert forall w :: !Sent(raw, k, w);
      }
    }
    NormalGet(bare, CanonicalKey);
    NormalGet(bare, LifecycleStatus);
  }
}
