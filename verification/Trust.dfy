/** Record metadata: normalisation, lifecycle derivation, provenance and the
    caller check (internal/memory/engineering.go, policy.go, trust.go).

    A metadata value is modelled by its normal form, trimmed and lower-cased,
    which is all the code compares; a key as a caller sends it may carry
    surrounding whitespace. */
module Trust {
  import opened Common

  datatype Lifecycle = Draft | Active | Outdated | Superseded | Canonical

  /** The words the code recognises; anything else is `Free`. */
  datatype Word =
    | Blank
    | One | True | Yes
    | Zero | False | No
    | ReviewRequired
    | DraftWord | Proposed | Investigating | Pending
    | ActiveWord | Accepted | Approved | Confirmed | Resolved | Verified | Current
    | OutdatedWord | Deprecated | Stale
    | SupersededWord | Merged | Archived | Replaced
    | CanonicalWord
    | External
    | ReviewQueueItem | SedimentCycle | ArchiveSweep
    | SurfaceWord | EpisodicWord | SemanticWord | CharacterWord
    | Instant(at: int)
    | Free(text: string)

  datatype Key =
    | NoKey
    | CanonicalKey | CanonicalPromotedAt | KnowledgeLayer | LastVerifiedAt | Provenance
    | LifecycleStatus | Status | ArchivedKey | ReviewRequiredKey
    | Owner | SupersededBy | OutdatedReason | MergedFrom | MergedInto
    | EmbeddingTruncated | ReferencedByCount
    | RecordKind | ReviewReason | ReviewSource | ReviewTarget | ReviewTargetLayer | ReviewSlug
    | Other(name: string)

  datatype RawKey = Raw(key: Key, padding: nat)

  type RawMeta = map<RawKey, Word>

  /** Stored metadata; blank values are never kept. */
  type Meta = map<Key, Word>

  function Get(m: Meta, k: Key): Word {
    if k in m then m[k] else Blank
  }

  predicate Bool(w: Word) {
    w == One || w == True || w == Yes
  }

  function LifecycleOf(w: Word): Option<Lifecycle> {
    match w
    case DraftWord => Some(Draft) case Proposed => Some(Draft) case Investigating => Some(Draft) case Pending => Some(Draft)
    case ActiveWord => Some(Active) case Accepted => Some(Active) case Approved => Some(Active)
    case Confirmed => Some(Active) case Resolved => Some(Active) case Verified => Some(Active) case Current => Some(Active)
    case OutdatedWord => Some(Outdated) case Deprecated => Some(Outdated) case Stale => Some(Outdated)
    case SupersededWord => Some(Superseded) case Merged => Some(Superseded) case Archived => Some(Superseded) case Replaced => Some(Superseded)
    case CanonicalWord => Some(Canonical)
    case _ => None
  }

  function WordOf(l: Lifecycle): (w: Word)
    ensures LifecycleOf(w) == Some(l)
  {
    match l
    case Draft => DraftWord
    case Active => ActiveWord
    case Outdated => OutdatedWord
    case Superseded => SupersededWord
    case Canonical => CanonicalWord
  }

  // ------------------------------------------------- lifecycle, provenance

  predicate CanonicalMark(m: Meta) {
    Bool(Get(m, CanonicalKey)) || Get(m, KnowledgeLayer) == CanonicalWord
  }

  /** The first matching source wins: canonical mark, explicit lifecycle status,
      archived flag, status, and finally the storage type. */
  function LifecycleStatusOf(m: Meta, working: bool): Lifecycle {
    if CanonicalMark(m) then Canonical
    else if LifecycleOf(Get(m, LifecycleStatus)).Some? then LifecycleOf(Get(m, LifecycleStatus)).value
    else if Bool(Get(m, ArchivedKey)) then Superseded
    else if LifecycleOf(Get(m, Status)).Some? then LifecycleOf(Get(m, Status)).value
    else if working then Draft else Active
  }

  predicate TrustedProvenance(m: Meta) {
    Get(m, Provenance) == Verified || Get(m, Provenance) == External
  }

  predicate PromotionAllowed(m: Meta, verified: bool) {
    verified || TrustedProvenance(m)
  }

  // --------------------------------------------------------- normalisation

  datatype Result<T> = Ok(value: T) | Invalid

  /** The lifecycle a normalised record is left with, if any. */
  function SettledLifecycle(m: Meta): Option<Lifecycle> {
    if CanonicalMark(m) then Some(Canonical)
    else if LifecycleOf(Get(m, LifecycleStatus)).Some? then LifecycleOf(Get(m, LifecycleStatus))
    else LifecycleOf(Get(m, Status))
  }

  predicate WantsReview(m: Meta) {
    Get(m, Status) == ReviewRequired || Bool(Get(m, ReviewRequiredKey))
  }

  predicate Normalisable(m: Meta) {
    && (CanonicalMark(m) || Get(m, LifecycleStatus) == Blank || LifecycleOf(Get(m, LifecycleStatus)).Some?)
    && (Get(m, Status) == ReviewRequired || Bool(Get(m, ReviewRequiredKey))
        || Get(m, ReviewRequiredKey) in {Blank, Zero, False, No})
  }

  /** What each key holds after normalisation. */
  function NormalValue(m: Meta, k: Key): Word {
    match k
    case ReviewRequiredKey => if WantsReview(m) then True else Blank
    case Status => if Get(m, Status) == ReviewRequired then Blank else Get(m, Status)
    case LifecycleStatus => if SettledLifecycle(m).Some? then WordOf(SettledLifecycle(m).value) else Blank
    case CanonicalKey => if SettledLifecycle(m) == Some(Canonical) then True else Get(m, CanonicalKey)
    case KnowledgeLayer => if SettledLifecycle(m) == Some(Canonical) then CanonicalWord else Get(m, KnowledgeLayer)
    case _ => Get(m, k)
  }

  function TouchedKeys(): set<Key> {
    {ReviewRequiredKey, Status, LifecycleStatus, CanonicalKey, KnowledgeLayer}
  }

  function Normal(m: Meta): Meta {
    map k | k in m.Keys + TouchedKeys() && NormalValue(m, k) != Blank :: NormalValue(m, k)
  }

  function Normalise(m: Meta): Result<Meta> {
    if Normalisable(m) then Ok(Normal(m)) else Invalid
  }

  ghost predicate NoBlanks(m: Meta) {
    forall k :: k in m ==> m[k] != Blank
  }

  lemma NormalGet(m: Meta, k: Key)
    requires NoBlanks(m)
    ensures Get(Normal(m), k) == NormalValue(m, k)
    ensures NoBlanks(Normal(m))
  {
  }

  /** normalizeEngineeringMetadata edits a copy key by key. */
  method NormalizeEngineeringMetadata(metadata: Meta) returns (result: Result<Meta>)
    requires NoBlanks(metadata)
    ensures result == Normalise(metadata)
  {
    var m := metadata;
    if Get(m, Status) == ReviewRequired {
      m := m[ReviewRequiredKey := True] - {Status};
    }
    assert StatusFolded(metadata, m);
    result := SettleLifecycle(m);
    if result.Ok? {
      var settled := result.value;
      result := SettleReview(settled);
      if result.Ok? {
        StepsCompose(metadata, m, settled, result.value);
      }
    }
  }

  ghost predicate StatusFolded(before: Meta, after: Meta) {
    && NoBlanks(after)
    && forall k :: Get(after, k) ==
         if Get(before, Status) != ReviewRequired then Get(before, k)
         else if k == Status then Blank else if k == ReviewRequiredKey then True else Get(before, k)
  }

  ghost predicate LifecycleSettled(before: Meta, after: Meta) {
    && NoBlanks(after)
    && Get(after, LifecycleStatus) == NormalValue(before, LifecycleStatus)
    && Get(after, CanonicalKey) == NormalValue(before, CanonicalKey)
    && Get(after, KnowledgeLayer) == NormalValue(before, KnowledgeLayer)
    && forall k :: k != LifecycleStatus && k != CanonicalKey && k != KnowledgeLayer ==> Get(after, k) == Get(before, k)
  }

  ghost predicate ReviewSettled(before: Meta, after: Meta) {
    && NoBlanks(after)
    && forall k :: Get(after, k) ==
         if k != ReviewRequiredKey then Get(before, k) else if Bool(Get(before, k)) then True else Blank
  }

  lemma SameSettling(before: Meta, after: Meta)
    requires StatusFolded(before, after)
    ensures SettledLifecycle(after) == SettledLifecycle(before)
    ensures NormalValue(after, LifecycleStatus) == NormalValue(before, LifecycleStatus)
    ensures NormalValue(after, CanonicalKey) == NormalValue(before, CanonicalKey)
    ensures NormalValue(after, KnowledgeLayer) == NormalValue(before, KnowledgeLayer)
  {
  }

  lemma LifecycleStep(metadata: Meta, folded: Meta, settled: Meta, k: Key)
    requires StatusFolded(metadata, folded) && LifecycleSettled(folded, settled)
    requires k == LifecycleStatus || k == CanonicalKey || k == KnowledgeLayer
    ensures Get(settled, k) == NormalValue(metadata, k)
  {
    SameSettling(metadata, folded);
  }

  lemma OtherStep(metadata: Meta, folded: Meta, settled: Meta, final: Meta, k: Key)
    requires StatusFolded(metadata, folded) && Get(settled, k) == Get(folded, k) && ReviewSettled(settled, final)
    requires k != LifecycleStatus && k != CanonicalKey && k != KnowledgeLayer
    ensures Get(final, k) == NormalValue(metadata, k)
  {
  }

  lemma StepsAt(metadata: Meta, folded: Meta, settled: Meta, final: Meta, k: Key)
    requires StatusFolded(metadata, folded) && LifecycleSettled(folded, settled) && ReviewSettled(settled, final)
    ensures Get(final, k) == NormalValue(metadata, k)
  {
    if k == LifecycleStatus || k == CanonicalKey || k == KnowledgeLayer {
      LifecycleStep(metadata, folded, settled, k);
    } else {
      assert Get(settled, k) == Get(folded, k);
      OtherStep(metadata, folded, settled, final, k);
    }
  }

  lemma StepsCompose(metadata: Meta, folded: Meta, settled: Meta, final: Meta)
    requires NoBlanks(metadata) && StatusFolded(metadata, folded) && LifecycleSettled(folded, settled) && ReviewSettled(settled, final)
    ensures final == Normal(metadata)
  {
    forall k ensures Get(final, k) == NormalValue(metadata, k) {
      StepsAt(metadata, folded, settled, final, k);
    }
    SameGets(final, Normal(metadata), metadata);
  }

  method SettleLifecycle(metadata: Meta) returns (result: Result<Meta>)
    requires NoBlanks(metadata)
    ensures result.Ok? <==> CanonicalMark(metadata) || Get(metadata, LifecycleStatus) == Blank
                            || LifecycleOf(Get(metadata, LifecycleStatus)).Some?
    ensures result.Ok? ==> LifecycleSettled(metadata, result.value)
  {
    var m := metadata;
    if CanonicalMark(m) {
      m := m[LifecycleStatus := CanonicalWord];
    }
    var explicit := LifecycleOf(Get(m, LifecycleStatus));
    if explicit.Some? {
      m := m[LifecycleStatus := WordOf(explicit.value)];
    } else if Get(m, LifecycleStatus) != Blank {
      return Invalid;
    }
    if Get(m, LifecycleStatus) == Blank && LifecycleOf(Get(m, Status)).Some? {
      m := m[LifecycleStatus := WordOf(LifecycleOf(Get(m, Status)).value)];
    }
    if Get(m, LifecycleStatus) == CanonicalWord {
      m := m[CanonicalKey := True][KnowledgeLayer := CanonicalWord];
    }
    return Ok(m);
  }

  method SettleReview(metadata: Meta) returns (result: Result<Meta>)
    requires NoBlanks(metadata)
    ensures result.Ok? <==> Bool(Get(metadata, ReviewRequiredKey)) || Get(metadata, ReviewRequiredKey) in {Blank, Zero, False, No}
    ensures result.Ok? ==> ReviewSettled(metadata, result.value)
  {
    match Get(metadata, ReviewRequiredKey) {
      case Blank => result := Ok(metadata - {ReviewRequiredKey});
      case Zero => result := Ok(metadata - {ReviewRequiredKey});
      case False => result := Ok(metadata - {ReviewRequiredKey});
      case No => result := Ok(metadata - {ReviewRequiredKey});
      case One => result := Ok(metadata[ReviewRequiredKey := True]);
      case True => result := Ok(metadata[ReviewRequiredKey := True]);
      case Yes => result := Ok(metadata[ReviewRequiredKey := True]);
      case _ => result := Invalid;
    }
  }

  lemma SameGets(a: Meta, b: Meta, metadata: Meta)
    requires NoBlanks(a) && NoBlanks(metadata) && b == Normal(metadata)
    requires forall k :: Get(a, k) == NormalValue(metadata, k)
    ensures a == b
  {
    forall k ensures k in a <==> k in b {
      NormalGet(metadata, k);
    }
    forall k | k in a ensures a[k] == b[k] {
      NormalGet(metadata, k);
      assert Get(a, k) == a[k];
    }
  }

  // ------------------------------------------------ laws of normalisation

  /** The lifecycle of a normalised record. */
  lemma NormalLifecycle(m: Meta, working: bool)
    requires NoBlanks(m) && Normalisable(m)
    ensures LifecycleStatusOf(Normal(m), working) ==
            if SettledLifecycle(m).Some? then SettledLifecycle(m).value
            else if Bool(Get(m, ArchivedKey)) then Superseded
            else if working then Draft else Active
  {
    NormalGet(m, CanonicalKey);
    NormalGet(m, KnowledgeLayer);
    NormalGet(m, LifecycleStatus);
    NormalGet(m, Status);
    NormalGet(m, ArchivedKey);
  }

  lemma NormaliseIdempotent(m: Meta)
    requires NoBlanks(m) && Normalisable(m)
    ensures Normalise(Normal(m)) == Ok(Normal(m))
  {
    var n := Normal(m);
    NormalSettled(m);
    NormalGet(m, NoKey);
    forall k ensures Get(n, k) == NormalValue(n, k) {
      NormalAgain(m, n, k);
    }
    SameGets(n, Normal(n), n);
  }

  lemma NormalAgain(m: Meta, n: Meta, k: Key)
    requires NoBlanks(m) && Normalisable(m) && n == Normal(m)
    ensures Get(n, k) == NormalValue(n, k)
  {
    NormalSettled(m);
    NormalGet(m, k);
  }

  lemma NormalSettled(m: Meta)
    requires NoBlanks(m) && Normalisable(m)
    ensures SettledLifecycle(Normal(m)) == SettledLifecycle(m)
    ensures WantsReview(Normal(m)) == WantsReview(m) && Normalisable(Normal(m)) && Get(Normal(m), Status) != ReviewRequired
  {
    NormalGet(m, CanonicalKey);
    NormalGet(m, KnowledgeLayer);
    NormalGet(m, LifecycleStatus);
    NormalGet(m, Status);
    NormalGet(m, ReviewRequiredKey);
    SettledFrom(m, Normal(m));
  }

  lemma SettledFrom(m: Meta, n: Meta)
    requires Normalisable(m) && Get(n, CanonicalKey) == NormalValue(m, CanonicalKey)
    requires Get(n, KnowledgeLayer) == NormalValue(m, KnowledgeLayer) && Get(n, LifecycleStatus) == NormalValue(m, LifecycleStatus)
    requires Get(n, Status) == NormalValue(m, Status)
    ensures SettledLifecycle(n) == SettledLifecycle(m)
    ensures CanonicalMark(n) || Get(n, LifecycleStatus) == Blank || LifecycleOf(Get(n, LifecycleStatus)).Some?
  {
  }

  /** Normalising may change the derived lifecycle: it writes the status' meaning
      into lifecycle_status, which outranks the archived flag. It does so exactly
      for an archived record whose status says something other than superseded
      and that has neither a canonical mark nor a lifecycle status. */
  lemma NormaliseKeepsLifecycleIff(m: Meta, working: bool)
    requires NoBlanks(m) && Normalisable(m)
    ensures LifecycleStatusOf(Normal(m), working) == LifecycleStatusOf(m, working) <==>
            !(!CanonicalMark(m) && Get(m, LifecycleStatus) == Blank && Bool(Get(m, ArchivedKey))
              && LifecycleOf(Get(m, Status)).Some? && LifecycleOf(Get(m, Status)) != Some(Superseded))
  {
    NormalLifecycle(m, working);
  }

  /** A stored record never says "review required: false": normalisation writes
      "true" or removes the key. */
  lemma NoDismissalStored(m: Meta)
    requires NoBlanks(m)
    ensures Get(Normal(m), ReviewRequiredKey) == if WantsReview(m) then True else Blank
  {
    NormalGet(m, ReviewRequiredKey);
  }

  // -------------------------------------------------- what a caller may send

  predicate ServerOwned(k: Key) {
    k == Provenance || k == KnowledgeLayer || k == LastVerifiedAt || k == CanonicalKey || k == CanonicalPromotedAt
  }

  /** CheckCallerMetadata: blank values pass, they only remove keys. */
  predicate CallerAllowed(raw: RawMeta) {
    forall k :: k in raw && raw[k] != Blank ==>
      !ServerOwned(k.key) && !((k.key == LifecycleStatus || k.key == Status) && LifecycleOf(raw[k]) == Some(Canonical))
  }

  /** A raw entry whose trimmed key is `k` with value `w`. */
  ghost predicate Sent(raw: RawMeta, k: Key, w: Word) {
    exists r :: r in raw && r.key == k && raw[r] == w
  }

  /** What NormalizeMetadata may make of a raw map: trimmed keys, no blanks; of
      several spellings of one key, any may win. */
  ghost predicate TrimsTo(raw: RawMeta, m: Meta) {
    && NoBlanks(m) && NoKey !in m
    && (forall k :: k in m ==> Sent(raw, k, m[k]))
    && (forall r :: r in raw && raw[r] != Blank && r.key != NoKey ==> r.key in m)
  }

  /** What merging a raw patch into stored metadata may give: a blank removes. */
  ghost predicate MergesTo(m: Meta, raw: RawMeta, merged: Meta) {
    && NoBlanks(merged)
    && forall k :: if k != NoKey && exists w :: Sent(raw, k, w) then Sent(raw, k, Get(merged, k)) else Get(merged, k) == Get(m, k)
  }

  // ------------------------------------------------- writes to the metadata

  /** No source of the canonical lifecycle anywhere, and untrusted provenance. */
  predicate Guarded(m: Meta) {
    && !CanonicalMark(m)
    && LifecycleOf(Get(m, LifecycleStatus)) != Some(Canonical)
    && LifecycleOf(Get(m, Status)) != Some(Canonical)
    && !TrustedProvenance(m)
  }

  lemma GuardedNormal(m: Meta)
    requires NoBlanks(m) && Guarded(m)
    ensures Guarded(Normal(m)) && NoBlanks(Normal(m))
  {
    NormalGet(m, CanonicalKey);
    NormalGet(m, KnowledgeLayer);
    NormalGet(m, LifecycleStatus);
    NormalGet(m, Status);
    NormalGet(m, Provenance);
    GuardedValues(m);
  }

  lemma GuardedValues(m: Meta)
    requires Guarded(m)
    ensures NormalValue(m, CanonicalKey) == Get(m, CanonicalKey) && NormalValue(m, KnowledgeLayer) == Get(m, KnowledgeLayer)
    ensures LifecycleOf(NormalValue(m, LifecycleStatus)) != Some(Canonical) && LifecycleOf(NormalValue(m, Status)) != Some(Canonical)
  {
    assert SettledLifecycle(m) != Some(Canonical);
  }

  lemma GuardedIsUntrusted(m: Meta, working: bool)
    requires Guarded(m)
    ensures LifecycleStatusOf(m, working) != Canonical && !PromotionAllowed(m, false)
  {
  }

  function SetUnlessBlank(m: Meta, k: Key, w: Word): Meta {
    if w == Blank then m else m[k := w]
  }

  /** MarkOutdated, before validation: the pointers, then the retirement. */
  function OutdatedMeta(m: Meta, reason: Word, successor: Word, now: Word): Meta
    requires now != Blank
  {
    Retired(SetUnlessBlank(SetUnlessBlank(m, SupersededBy, successor), OutdatedReason, reason), OutdatedTarget(successor), now)
  }

  function Retired(m: Meta, target: Lifecycle, now: Word): Meta {
    m[Status := WordOf(target)][ArchivedKey := True][LastVerifiedAt := now]
  }

  function OutdatedTarget(successor: Word): Lifecycle {
    if successor != Blank then Superseded else Outdated
  }

  /** Marking a record outdated takes effect on its lifecycle exactly when it has
      no canonical mark and its lifecycle status, if any, already says so: the
      new status never replaces an existing lifecycle status. */
  lemma MarkOutdatedIff(m: Meta, working: bool, reason: Word, successor: Word, now: Word)
    requires NoBlanks(m) && now != Blank && Normalisable(OutdatedMeta(m, reason, successor, now))
    ensures LifecycleStatusOf(Normal(OutdatedMeta(m, reason, successor, now)), working) == OutdatedTarget(successor) <==>
            !CanonicalMark(m) &&
            (Get(m, LifecycleStatus) == Blank || LifecycleOf(Get(m, LifecycleStatus)) == Some(OutdatedTarget(successor)))
  {
    OutdatedGets(m, reason, successor, now);
    NormalLifecycle(OutdatedMeta(m, reason, successor, now), working);
  }

  lemma OutdatedGets(m: Meta, reason: Word, successor: Word, now: Word)
    requires NoBlanks(m) && now != Blank
    ensures var t := OutdatedMeta(m, reason, successor, now);
            && NoBlanks(t) && CanonicalMark(t) == CanonicalMark(m) && Get(t, Provenance) == Get(m, Provenance)
            && Get(t, LifecycleStatus) == Get(m, LifecycleStatus) && Get(t, ReviewRequiredKey) == Get(m, ReviewRequiredKey)
            && LifecycleOf(Get(t, Status)) == Some(OutdatedTarget(successor))
  {
    OutdatedKeeps(m, reason, successor, now, CanonicalKey);
    OutdatedKeeps(m, reason, successor, now, KnowledgeLayer);
    OutdatedKeeps(m, reason, successor, now, Provenance);
    OutdatedKeeps(m, reason, successor, now, LifecycleStatus);
    OutdatedKeeps(m, reason, successor, now, ReviewRequiredKey);
  }

  /** Marking a record outdated writes five keys. */
  lemma OutdatedKeeps(m: Meta, reason: Word, successor: Word, now: Word, k: Key)
    requires NoBlanks(m) && now != Blank
    requires k != Status && k != ArchivedKey && k != LastVerifiedAt && k != SupersededBy && k != OutdatedReason
    ensures var t := OutdatedMeta(m, reason, successor, now);
            NoBlanks(t) && Get(t, k) == Get(m, k) && Get(t, Status) == WordOf(OutdatedTarget(successor))
  {
    var a := SetUnlessBlank(m, SupersededBy, successor);
    var b := SetUnlessBlank(a, OutdatedReason, reason);
    SetGets(m, SupersededBy, successor, k);
    SetGets(a, OutdatedReason, reason, k);
    RetiredGets(b, OutdatedTarget(successor), now, k);
  }

  lemma RetiredGets(m: Meta, target: Lifecycle, now: Word, k: Key)
    requires NoBlanks(m) && now != Blank && k != Status && k != ArchivedKey && k != LastVerifiedAt
    ensures var t := Retired(m, target, now); NoBlanks(t) && Get(t, Status) == WordOf(target) && Get(t, k) == Get(m, k)
  {
  }

  lemma SetGets(m: Meta, k: Key, w: Word, j: Key)
    requires NoBlanks(m) && j != k
    ensures NoBlanks(SetUnlessBlank(m, k, w)) && Get(SetUnlessBlank(m, k, w), j) == Get(m, j)
  {
  }

  /** PromoteToCanonical, before validation. */
  function PromotedMeta(m: Meta, verified: bool, owner: Word, now: Word): Meta
    requires now != Blank
  {
    Stamped(Marked(WithStatus(SetUnlessBlank(Endorsed(m, verified), Owner, owner)), now), verified, now)
  }

  function Endorsed(m: Meta, verified: bool): Meta {
    if verified then m[Provenance := Verified] else m
  }

  function WithStatus(m: Meta): Meta {
    if Get(m, Status) == Blank || Get(m, Status) == DraftWord then m[Status := Confirmed] else m
  }

  function Marked(m: Meta, now: Word): Meta {
    m[KnowledgeLayer := CanonicalWord][CanonicalKey := True][CanonicalPromotedAt := now]
  }

  function Stamped(m: Meta, verified: bool, now: Word): Meta {
    (if verified then m[LastVerifiedAt := now] else m) - {ArchivedKey}
  }

  /** A promotion makes the record canonical and trusted or keeps its trust; only
      a verified one claims a verification. */
  lemma PromotionPromotes(m: Meta, working: bool, verified: bool, owner: Word, now: Word)
    requires NoBlanks(m) && now != Blank && PromotionAllowed(m, verified)
    ensures var p := Normal(PromotedMeta(m, verified, owner, now));
            && LifecycleStatusOf(p, working) == Canonical && TrustedProvenance(p) && ArchivedKey !in p
            && Get(p, LastVerifiedAt) == (if verified then now else Get(m, LastVerifiedAt))
            && Get(p, Provenance) == (if verified then Verified else Get(m, Provenance))
  {
    PromotedGets(m, verified, owner, now);
    SettledIsCanonical(PromotedMeta(m, verified, owner, now), working);
  }

  lemma SettledIsCanonical(m: Meta, working: bool)
    requires NoBlanks(m) && SettledLifecycle(m) == Some(Canonical) && ArchivedKey !in m
    ensures LifecycleStatusOf(Normal(m), working) == Canonical && ArchivedKey !in Normal(m)
    ensures Get(Normal(m), Provenance) == Get(m, Provenance) && Get(Normal(m), LastVerifiedAt) == Get(m, LastVerifiedAt)
  {
    NormalGet(m, CanonicalKey);
    NormalGet(m, Provenance);
    NormalGet(m, LastVerifiedAt);
    NormalGet(m, ArchivedKey);
  }

  lemma PromotedGets(m: Meta, verified: bool, owner: Word, now: Word)
    requires NoBlanks(m) && now != Blank
    ensures var p := PromotedMeta(m, verified, owner, now);
            && NoBlanks(p) && SettledLifecycle(p) == Some(Canonical) && ArchivedKey !in p
            && Get(p, LastVerifiedAt) == (if verified then now else Get(m, LastVerifiedAt))
            && Get(p, Provenance) == (if verified then Verified else Get(m, Provenance))
  {
    PromotedKeeps(m, verified, owner, now, LastVerifiedAt);
    PromotedKeeps(m, verified, owner, now, Provenance);
    PromotedSettles(m, verified, owner, now);
  }

  lemma PromotedSettles(m: Meta, verified: bool, owner: Word, now: Word)
    requires NoBlanks(m) && now != Blank
    ensures var p := PromotedMeta(m, verified, owner, now);
            NoBlanks(p) && SettledLifecycle(p) == Some(Canonical) && ArchivedKey !in p
  {
    var c := WithStatus(SetUnlessBlank(Endorsed(m, verified), Owner, owner));
    assert NoBlanks(c);
    assert Get(Marked(c, now), CanonicalKey) == True;
    StampedGet(Marked(c, now), verified, now, CanonicalKey);
  }

  lemma StampedGet(m: Meta, verified: bool, now: Word, k: Key)
    requires k != ArchivedKey
    ensures Get(Stamped(m, verified, now), k) == if verified && k == LastVerifiedAt then now else Get(m, k)
  {
  }

  lemma MarkedGet(m: Meta, now: Word, k: Key)
    requires k != KnowledgeLayer && k != CanonicalKey && k != CanonicalPromotedAt
    ensures Get(Marked(m, now), k) == Get(m, k)
  {
  }

  lemma EarlierGet(m: Meta, verified: bool, owner: Word, k: Key)
    requires k != Owner && k != Status
    ensures Get(WithStatus(SetUnlessBlank(Endorsed(m, verified), Owner, owner)), k) ==
            if verified && k == Provenance then Verified else Get(m, k)
  {
  }

  /** What a promotion leaves under a key: its own values, or what was there. */
  lemma PromotedKeeps(m: Meta, verified: bool, owner: Word, now: Word, k: Key)
    requires now != Blank
    requires k !in {Owner, Status, KnowledgeLayer, CanonicalKey, CanonicalPromotedAt, ArchivedKey}
    ensures Get(PromotedMeta(m, verified, owner, now), k) ==
            if verified && k == Provenance then Verified else if verified && k == LastVerifiedAt then now else Get(m, k)
  {
    var c := WithStatus(SetUnlessBlank(Endorsed(m, verified), Owner, owner));
    EarlierGet(m, verified, owner, k);
    MarkedGet(c, now, k);
    StampedGet(Marked(c, now), verified, now, k);
  }
}
