/** Sediment layers: the transition rules of internal/memory/sediment.go and the
    cycle of internal/memory/sediment_cycle.go. */
module Sediment {
  import opened Common
  import opened Text
  import opened Trust

  /** A record id. The store gives every record without one a UUID; only a caller
      of the Go API may supply one with surrounding whitespace, which the review
      bookkeeping trims in one place and compares untrimmed in another. */
  datatype Id = Id(name: string, padding: nat)

  /** An id that trimming leaves alone and that is not blank. */
  predicate Plain(id: Id) {
    id.padding == 0 && id.name != ""
  }

  datatype Layer = Surface | Episodic | Semantic | Character

  datatype Kind = Working | EpisodicKind | SemanticKind | ProceduralKind

  /** `layer` is None for a row that predates the column; `accessedAt` is None
      for a zero time. Times are in hours. */
  datatype Record = Record(meta: Meta, kind: Kind, context: string, layer: Option<Layer>, createdAt: int,
                           accessedAt: Option<int>, targeted: int, importance: real, keep: bool)

  type Bank = map<Id, Record>

  predicate IsReviewItem(m: Meta) {
    Get(m, RecordKind) == ReviewQueueItem
  }

  // ---------------------------------------------------------------- policy

  datatype Policy = Policy(surfaceAge: int, episodicAge: int, refs: int, decayAge: int, episodicMin: int, surfaceMin: int)

  function OrDefault(v: int, d: int): int {
    if v <= 0 then d else v
  }

  function DefaultsApplied(p: Policy): (q: Policy)
    ensures q.surfaceAge > 0 && q.episodicAge > 0 && q.refs > 0 && q.decayAge > 0 && q.episodicMin > 0 && q.surfaceMin > 0
  {
    Policy(OrDefault(p.surfaceAge, 7 * 24), OrDefault(p.episodicAge, 30 * 24), OrDefault(p.refs, 20),
           OrDefault(p.decayAge, 90 * 24), OrDefault(p.episodicMin, 3), OrDefault(p.surfaceMin, 1))
  }

  // ----------------------------------------------------------------- rules

  datatype Transition = Transition(from: Layer, to: Layer, auto: bool)

  function ParseCount(s: string): nat
  {
    if s == "" || exists i :: 0 <= i < |s| && !IsDigit(s[i]) then 0 else NumberOf(s)
  }

  /** referenced_by_count; "1" and "0" are recognised words of their own. */
  function ReferencedBy(m: Meta): nat {
    match Get(m, ReferencedByCount)
    case One => 1
    case Free(s) => ParseCount(s)
    case _ => 0
  }

  function Decide(r: Record, policy: Policy, now: int): Option<Transition> {
    if IsReviewItem(r.meta) then None
    else
      var p := DefaultsApplied(policy);
      match (if r.layer.Some? then r.layer.value else Surface)
      case Surface =>
        if now - r.createdAt < p.surfaceAge || r.targeted < p.surfaceMin then None
        else Some(Transition(Surface, Episodic, true))
      case Episodic =>
        if now - r.createdAt < p.episodicAge || r.targeted < p.episodicMin then None
        else Some(Transition(Episodic, Semantic, false))
      case Semantic =>
        if LifecycleStatusOf(r.meta, r.kind.Working?) == Canonical || ReferencedBy(r.meta) >= p.refs
        then Some(Transition(Semantic, Character, false)) else None
      case Character =>
        if r.accessedAt.None? || now - r.accessedAt.value < p.decayAge then None
        else Some(Transition(Character, Semantic, false))
  }

  function DemoteOneStep(l: Layer): Option<Layer> {
    match l
    case Character => Some(Semantic)
    case Semantic => Some(Episodic)
    case Episodic => Some(Surface)
    case Surface => None
  }

  function Rank(l: Layer): nat {
    match l case Surface => 0 case Episodic => 1 case Semantic => 2 case Character => 3
  }

  /** Every proposal moves one step from the record's own layer, and only the
      first rung is climbed without review. */
  lemma DecideMovesOneStep(r: Record, policy: Policy, now: int)
    requires Decide(r, policy, now).Some?
    ensures var t := Decide(r, policy, now).value;
            && t.from == (if r.layer.Some? then r.layer.value else Surface)
            && (Rank(t.to) == Rank(t.from) + 1 || (t.from == Character && DemoteOneStep(t.from) == Some(t.to)))
            && (t.auto <==> t.from == Surface)
  {
  }

  // ------------------------------------------------------------- the cycle

  predicate Auto(r: Record, policy: Policy, now: int) {
    Decide(r, policy, now).Some? && Decide(r, policy, now).value.auto
  }

  predicate Proposes(r: Record, policy: Policy, now: int) {
    Decide(r, policy, now).Some? && !Decide(r, policy, now).value.auto
  }

  /** An unresolved review item of an earlier cycle. */
  predicate OpenItem(r: Record) {
    && r.kind == Working && IsReviewItem(r.meta)
    && Get(r.meta, ReviewSource) == SedimentCycle
    && Get(r.meta, ReviewRequiredKey) != False
    && Get(r.meta, ReviewTarget).Free? && Get(r.meta, ReviewTarget).text != ""
  }

  function TargetOf(r: Record): Id
    requires OpenItem(r)
  {
    Id(Get(r.meta, ReviewTarget).text, 0)
  }

  function PendingTargets(bank: Bank): set<Id> {
    set k | k in bank && OpenItem(bank[k]) :: TargetOf(bank[k])
  }

  function LayerWord(l: Layer): Word {
    match l case Surface => SurfaceWord case Episodic => EpisodicWord case Semantic => SemanticWord case Character => CharacterWord
  }

  function ItemMeta(target: Id, to: Layer): Meta {
    map[RecordKind := ReviewQueueItem, ReviewRequiredKey := True, ReviewSource := SedimentCycle,
        ReviewTarget := Free(target.name), ReviewTargetLayer := LayerWord(to)]
  }

  /** The review item as the store keeps it; the target id is trimmed on the way. */
  function ReviewItem(target: Id, context: string, to: Layer, now: int): Record {
    Record(Normal(ItemMeta(target, to)), Working, context, Some(Surface), now, Some(now), 0, 0.5, false)
  }

  lemma ItemIsOpen(target: Id, context: string, to: Layer, now: int)
    ensures var item := ReviewItem(target, context, to, now);
            && IsReviewItem(item.meta)
            && (OpenItem(item) <==> target.name != "")
            && (target.name != "" ==> TargetOf(item) == Id(target.name, 0))
  {
    ItemGets(target, to);
    NormalItem(ItemMeta(target, to));
  }

  lemma ItemGets(target: Id, to: Layer)
    ensures var m := ItemMeta(target, to);
            NoBlanks(m) && Get(m, RecordKind) == ReviewQueueItem && Get(m, ReviewSource) == SedimentCycle
              && Get(m, ReviewRequiredKey) == True && Get(m, ReviewTarget) == Free(target.name)
  {
  }

  /** What normalisation does to the keys that make a review item open. */
  lemma NormalItem(m: Meta)
    requires NoBlanks(m)
    ensures Get(Normal(m), RecordKind) == Get(m, RecordKind)
    ensures Get(Normal(m), ReviewSource) == Get(m, ReviewSource)
    ensures Get(Normal(m), ReviewTarget) == Get(m, ReviewTarget)
    ensures Get(Normal(m), ReviewRequiredKey) != False
  {
    NormalLeaves(m, RecordKind);
    NormalLeaves(m, ReviewSource);
    NormalLeaves(m, ReviewTarget);
    assert Get(Normal(m), ReviewRequiredKey) != False by { NormalGet(m, ReviewRequiredKey); }
  }

  lemma NormalLeaves(m: Meta, k: Key)
    requires NoBlanks(m) && k !in TouchedKeys()
    ensures Get(Normal(m), k) == Get(m, k)
  {
    NormalGet(m, k);
  }

  /** The documentation lets a dismissed item be proposed again. It never is: the
      resolution writes review_required "false", normalisation removes it, and an
      item without the key counts as unresolved. */
  lemma DismissedStaysPending(r: Record, resolution: Word)
    requires NoBlanks(r.meta) && OpenItem(r) && resolution != Blank && resolution != ReviewRequired
    ensures OpenItem(r.(meta := Normal(r.meta[ReviewRequiredKey := False][Status := resolution])))
  {
    var m := r.meta[ReviewRequiredKey := False][Status := resolution];
    assert NoBlanks(m);
    NormalItem(m);
  }

  /** The records an unattended run moves, as it leaves them. */
  function Moves(bank: Bank, policy: Policy, now: int): Bank {
    map id | id in bank && Auto(bank[id], policy, now) :: bank[id].(layer := Some(Decide(bank[id], policy, now).value.to))
  }

  /** The review item each proposing record calls for. */
  function Items(bank: Bank, policy: Policy, now: int): Bank {
    map id | id in bank && Proposes(bank[id], policy, now) ::
      ReviewItem(id, bank[id].context, Decide(bank[id], policy, now).value.to, now)
  }
}
