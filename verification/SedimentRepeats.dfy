/** What repeated runs of the sediment cycle do: they settle, they keep one open
    review item per target, and a dry run foretells a live one. */
module SedimentRepeats {
  import opened Common
  import opened Trust
  import opened Sediment
  import opened BatchEffects
  import opened SedimentCycles

  /** A live run without a limit in which every write succeeded. */
  ghost predicate FullRun(before: Bank, after: Bank, cfg: Config, now: int, d: Done<Id>, r: CycleResult, pending: set<Id>) {
    cfg.limit <= 0 && !cfg.dryRun && r.errors == 0 && Cycled(before, after, cfg, now, d, r, pending)
  }

  lemma FullRunActs(before: Bank, after: Bank, cfg: Config, now: int, d: Done<Id>, r: CycleResult, pending: set<Id>)
    requires FullRun(before, after, cfg, now, d, r, pending)
    ensures d.acted == Eligible(before, cfg, now)
  {
    assert d.failed == {};
    forall k ensures k in d.acted <==> k in Eligible(before, cfg, now) { assert d.Seen(k) <==> k in d.acted; }
  }

  predicate Wanted(bank: Bank, cfg: Config, now: int, id: Id) {
    id in bank && !Skips(bank[id], cfg, now) && Proposes(bank[id], cfg.policy, now)
  }

  // ------------------------------------------------- what a run leaves behind

  /** A record of the old bank is moved or untouched; a new one is a review item
      for a proposing record that had none. */
  lemma RunEffect(before: Bank, after: Bank, cfg: Config, now: int, d: Done<Id>, r: CycleResult, pending: set<Id>, k: Id)
    requires FullRun(before, after, cfg, now, d, r, pending) && k in after
    ensures k in before ==>
      after[k] == if !Skips(before[k], cfg, now) && Auto(before[k], cfg.policy, now)
                  then before[k].(layer := Some(Decide(before[k], cfg.policy, now).value.to)) else before[k]
    ensures k !in before ==>
      exists t :: t in d.created && d.created[t] == k && IsItemFor(before, after[k], cfg, now, t)
  {
    FullRunActs(before, after, cfg, now, d, r, pending);
    var p := PlanOf(before, cfg.policy, now);
    Afterwards(before, p.moves, p.items, p.known, d.acted, after, d.created, k);
    if k !in before {
      var t :| t in d.created && d.created[t] == k && t in p.items && after[k] == p.items[t];
      DecisionClass(before, cfg.policy, now, t);
    }
  }

  ghost predicate IsItemFor(before: Bank, r: Record, cfg: Config, now: int, t: Id) {
    && Wanted(before, cfg, now, t) && t !in PendingTargets(before)
    && r == ReviewItem(t, before[t].context, Decide(before[t], cfg.policy, now).value.to, now)
  }

  lemma CreatedExactly(before: Bank, after: Bank, cfg: Config, now: int, d: Done<Id>, r: CycleResult, pending: set<Id>, t: Id)
    requires FullRun(before, after, cfg, now, d, r, pending)
    ensures t in d.created <==> Wanted(before, cfg, now, t) && t !in PendingTargets(before)
  {
    FullRunActs(before, after, cfg, now, d, r, pending);
    if t in before { DecisionClass(before, cfg.policy, now, t); }
  }

  lemma CreatedItem(before: Bank, after: Bank, cfg: Config, now: int, d: Done<Id>, r: CycleResult, pending: set<Id>, t: Id)
    requires FullRun(before, after, cfg, now, d, r, pending) && t in d.created
    ensures d.created[t] in after && d.created[t] !in before && IsItemFor(before, after[d.created[t]], cfg, now, t)
  {
    CreatedExactly(before, after, cfg, now, d, r, pending, t);
    CreatedMade(before, after, cfg, now, d, r, pending, t);
    CreatedValue(before, after, cfg.policy, now, t, d.created[t]);
  }

  lemma CreatedMade(before: Bank, after: Bank, cfg: Config, now: int, d: Done<Id>, r: CycleResult, pending: set<Id>, t: Id)
    requires Cycled(before, after, cfg, now, d, r, pending) && !cfg.dryRun && t in d.created
    ensures ItemMade(before, Items(before, cfg.policy, now), after, t, d.created[t])
  {
  }

  lemma CreatedValue(before: Bank, after: Bank, policy: Policy, now: int, t: Id, k: Id)
    requires ItemMade(before, Items(before, policy, now), after, t, k) && t in before
    ensures k in after && k !in before && Proposes(before[t], policy, now)
    ensures after[k] == ReviewItem(t, before[t].context, Decide(before[t], policy, now).value.to, now)
  {
    DecisionClass(before, policy, now, t);
  }

  lemma ItemNeverMoves(r: Record, policy: Policy, now: int, t: Id, context: string, to: Layer, at: int)
    requires r == ReviewItem(t, context, to, at)
    ensures !Auto(r, policy, now) && !Proposes(r, policy, now)
  {
    ItemIsOpen(t, context, to, at);
  }

  /** A moved record is not moved again at the same time. */
  lemma MovedSettles(r: Record, policy: Policy, now: int)
    requires Auto(r, policy, now)
    ensures !Auto(r.(layer := Some(Decide(r, policy, now).value.to)), policy, now)
    ensures r.(layer := Some(Decide(r, policy, now).value.to)) != r
  {
  }

  lemma NothingLeftToMove(before: Bank, after: Bank, cfg: Config, now: int, d: Done<Id>, r: CycleResult, pending: set<Id>, k: Id)
    requires FullRun(before, after, cfg, now, d, r, pending) && k in after && !Skips(after[k], cfg, now)
    ensures !Auto(after[k], cfg.policy, now)
  {
    RunEffect(before, after, cfg, now, d, r, pending, k);
    if k in before {
      if Auto(before[k], cfg.policy, now) { MovedSettles(before[k], cfg.policy, now); }
    } else {
      var t :| t in d.created && d.created[t] == k && IsItemFor(before, after[k], cfg, now, t);
      ItemNeverMoves(after[k], cfg.policy, now, t, before[t].context, Decide(before[t], cfg.policy, now).value.to, now);
    }
  }

  // ------------------------------------------------------------ when it settles

  ghost predicate NoneToMove(bank: Bank, cfg: Config, now: int) {
    forall k :: k in bank && !Skips(bank[k], cfg, now) ==> !Auto(bank[k], cfg.policy, now)
  }

  lemma NoneLeft(before: Bank, after: Bank, cfg: Config, now: int, d: Done<Id>, r: CycleResult, pending: set<Id>)
    requires FullRun(before, after, cfg, now, d, r, pending)
    ensures NoneToMove(after, cfg, now)
  {
    forall k | k in after && !Skips(after[k], cfg, now) ensures !Auto(after[k], cfg.policy, now) {
      NothingLeftToMove(before, after, cfg, now, d, r, pending, k);
    }
  }

  ghost predicate Settled(bank: Bank, cfg: Config, now: int) {
    && NoneToMove(bank, cfg, now)
    && (forall k :: Wanted(bank, cfg, now, k) ==> k in PendingTargets(bank))
  }

  /** A full run leaves the bank alone exactly when no eligible record can be moved
      unattended and every eligible proposal already has its open item. */
  lemma QuietIffSettled(before: Bank, after: Bank, cfg: Config, now: int, d: Done<Id>, r: CycleResult, pending: set<Id>)
    requires FullRun(before, after, cfg, now, d, r, pending)
    ensures after == before <==> Settled(before, cfg, now)
  {
    FullRunActs(before, after, cfg, now, d, r, pending);
    var p := PlanOf(before, cfg.policy, now);
    QuietIff(before, p.moves, p.items, p.known, d.acted, after, d.created);
    forall k | k in before
      ensures k in d.acted && k in p.items <==> Wanted(before, cfg, now, k)
      ensures k in d.acted && k in p.moves ==> p.moves[k] != before[k]
      ensures k in d.acted && k in p.moves <==> !Skips(before[k], cfg, now) && Auto(before[k], cfg.policy, now)
    {
      DecisionClass(before, cfg.policy, now, k);
      if Auto(before[k], cfg.policy, now) { MovedSettles(before[k], cfg.policy, now); }
    }
  }

  lemma PendingKept(before: Bank, after: Bank, cfg: Config, now: int, d: Done<Id>, r: CycleResult, pending: set<Id>)
    requires FullRun(before, after, cfg, now, d, r, pending)
    ensures PendingTargets(before) <= PendingTargets(after)
  {
    forall t | t in PendingTargets(before) ensures t in PendingTargets(after) {
      var k :| k in before && OpenItem(before[k]) && TargetOf(before[k]) == t;
      FullRunActs(before, after, cfg, now, d, r, pending);
      RunEffect(before, after, cfg, now, d, r, pending, k);
      assert k in after && OpenItem(after[k]) && TargetOf(after[k]) == t;
    }
  }

  /** The targets queued after a full run: those queued before and the trimmed id
      of every record that proposed a move. */
  lemma QueuedExactly(before: Bank, after: Bank, cfg: Config, now: int, d: Done<Id>, r: CycleResult, pending: set<Id>, t: Id)
    requires FullRun(before, after, cfg, now, d, r, pending)
    ensures t in PendingTargets(after) <==> t in PendingTargets(before) || Claimed(before, cfg, now, t)
  {
    PendingKept(before, after, cfg, now, d, r, pending);
    if Claimed(before, cfg, now, t) {
      var u :| Wanted(before, cfg, now, u) && u.name == t.name;
      ClaimQueued(before, after, cfg, now, d, r, pending, u);
    }
    if t in PendingTargets(after) {
      QueuedWhy(before, after, cfg, now, d, r, pending, t);
    }
  }

  ghost predicate Claimed(bank: Bank, cfg: Config, now: int, t: Id) {
    Plain(t) && exists u :: Wanted(bank, cfg, now, u) && u.name == t.name
  }

  lemma ClaimQueued(before: Bank, after: Bank, cfg: Config, now: int, d: Done<Id>, r: CycleResult, pending: set<Id>, u: Id)
    requires FullRun(before, after, cfg, now, d, r, pending) && Wanted(before, cfg, now, u) && u.name != ""
    ensures Id(u.name, 0) in PendingTargets(after)
  {
    PendingKept(before, after, cfg, now, d, r, pending);
    CreatedExactly(before, after, cfg, now, d, r, pending, u);
    if u in d.created {
      CreatedItem(before, after, cfg, now, d, r, pending, u);
      ItemIsOpen(u, before[u].context, Decide(before[u], cfg.policy, now).value.to, now);
      assert TargetOf(after[d.created[u]]) == Id(u.name, 0);
    }
  }

  lemma QueuedWhy(before: Bank, after: Bank, cfg: Config, now: int, d: Done<Id>, r: CycleResult, pending: set<Id>, t: Id)
    requires FullRun(before, after, cfg, now, d, r, pending) && t in PendingTargets(after)
    ensures t in PendingTargets(before) || Claimed(before, cfg, now, t)
  {
    var k :| k in after && OpenItem(after[k]) && TargetOf(after[k]) == t;
    RunEffect(before, after, cfg, now, d, r, pending, k);
    if k in before {
      SameMeta(before[k], after[k]);
    } else {
      var u :| u in d.created && d.created[u] == k && IsItemFor(before, after[k], cfg, now, u);
      ItemClaims(before, after[k], cfg, now, u);
    }
  }

  lemma ItemClaims(before: Bank, item: Record, cfg: Config, now: int, u: Id)
    requires IsItemFor(before, item, cfg, now, u) && OpenItem(item)
    ensures TargetOf(item) == Id(u.name, 0) && Claimed(before, cfg, now, TargetOf(item))
  {
    ItemIsOpen(u, before[u].context, Decide(before[u], cfg.policy, now).value.to, now);
  }

  lemma SameMeta(a: Record, b: Record)
    requires a.meta == b.meta && a.kind == b.kind && OpenItem(b)
    ensures OpenItem(a) && TargetOf(a) == TargetOf(b)
  {
  }

  /** A record wanted after a run that began with nothing to move was wanted
      before it, and the other way round. */
  lemma WantedKept(before: Bank, after: Bank, cfg: Config, now: int, d: Done<Id>, r: CycleResult, pending: set<Id>, k: Id)
    requires FullRun(before, after, cfg, now, d, r, pending)
    requires NoneToMove(before, cfg, now)
    ensures Wanted(after, cfg, now, k) <==> Wanted(before, cfg, now, k)
  {
    if k in after {
      RunEffect(before, after, cfg, now, d, r, pending, k);
      if k !in before {
        var t :| t in d.created && d.created[t] == k && IsItemFor(before, after[k], cfg, now, t);
        ItemNeverMoves(after[k], cfg.policy, now, t, before[t].context, Decide(before[t], cfg.policy, now).value.to, now);
      }
    } else {
      var p := PlanOf(before, cfg.policy, now);
      assert Rewritten(before, p.moves, d.acted, after);
    }
  }

  /** The record proposes a move, or is moved unattended into one that does. */
  predicate WillPropose(r: Record, policy: Policy, now: int) {
    if Auto(r, policy, now) then Proposes(r.(layer := Some(Decide(r, policy, now).value.to)), policy, now)
    else Proposes(r, policy, now)
  }

  predicate ProposesLater(bank: Bank, cfg: Config, now: int, k: Id) {
    k in bank && !Skips(bank[k], cfg, now) && WillPropose(bank[k], cfg.policy, now)
  }

  /** What the second run wants, told from the bank before the first. */
  lemma WantedNext(before: Bank, after: Bank, cfg: Config, now: int, d: Done<Id>, r: CycleResult, pending: set<Id>, k: Id)
    requires FullRun(before, after, cfg, now, d, r, pending)
    ensures Wanted(after, cfg, now, k) <==> ProposesLater(before, cfg, now, k)
  {
    if k in after {
      RunEffect(before, after, cfg, now, d, r, pending, k);
      if k !in before {
        var t :| t in d.created && d.created[t] == k && IsItemFor(before, after[k], cfg, now, t);
        ItemNeverMoves(after[k], cfg.policy, now, t, before[t].context, Decide(before[t], cfg.policy, now).value.to, now);
      }
    } else {
      var p := PlanOf(before, cfg.policy, now);
      assert Rewritten(before, p.moves, d.acted, after);
    }
  }

  /** Three consecutive full runs with a fixed clock and no other writer: the third
      writes nothing exactly when every record that proposes a move, or is moved
      unattended into one that does, has an id without surrounding whitespace (and
      something else in it): any other id gets a new review item on every run. */
  lemma ThirdRunQuietIff(b0: Bank, b1: Bank, b2: Bank, b3: Bank, cfg: Config, now: int,
                         d1: Done<Id>, d2: Done<Id>, d3: Done<Id>, r1: CycleResult, r2: CycleResult, r3: CycleResult,
                         q1: set<Id>, q2: set<Id>, q3: set<Id>)
    requires FullRun(b0, b1, cfg, now, d1, r1, q1) && FullRun(b1, b2, cfg, now, d2, r2, q2) && FullRun(b2, b3, cfg, now, d3, r3, q3)
    ensures b3 == b2 <==> forall k :: ProposesLater(b0, cfg, now, k) ==> Plain(k)
  {
    SettledAfterTwo(b0, b1, b2, cfg, now, d1, d2, r1, r2, q1, q2);
    QuietIffSettled(b2, b3, cfg, now, d3, r3, q3);
    forall k ensures Wanted(b1, cfg, now, k) <==> ProposesLater(b0, cfg, now, k) {
      WantedNext(b0, b1, cfg, now, d1, r1, q1, k);
    }
  }

  /** Where all ids are plain, as the ones the store itself gives are, the third run
      writes nothing. */
  lemma PlainIdsSettle(b0: Bank, b1: Bank, b2: Bank, b3: Bank, cfg: Config, now: int,
                       d1: Done<Id>, d2: Done<Id>, d3: Done<Id>, r1: CycleResult, r2: CycleResult, r3: CycleResult,
                       q1: set<Id>, q2: set<Id>, q3: set<Id>)
    requires FullRun(b0, b1, cfg, now, d1, r1, q1) && FullRun(b1, b2, cfg, now, d2, r2, q2) && FullRun(b2, b3, cfg, now, d3, r3, q3)
    requires forall k :: k in b0 ==> Plain(k)
    ensures b3 == b2
  {
    ThirdRunQuietIff(b0, b1, b2, b3, cfg, now, d1, d2, d3, r1, r2, r3, q1, q2, q3);
  }

  lemma SettledAfterTwo(b0: Bank, b1: Bank, b2: Bank, cfg: Config, now: int, d1: Done<Id>, d2: Done<Id>,
                        r1: CycleResult, r2: CycleResult, q1: set<Id>, q2: set<Id>)
    requires FullRun(b0, b1, cfg, now, d1, r1, q1) && FullRun(b1, b2, cfg, now, d2, r2, q2)
    ensures Settled(b2, cfg, now) <==> forall k :: Wanted(b1, cfg, now, k) ==> Plain(k)
  {
    NoneLeft(b0, b1, cfg, now, d1, r1, q1);
    NoneLeft(b1, b2, cfg, now, d2, r2, q2);
    forall k ensures Wanted(b2, cfg, now, k) <==> Wanted(b1, cfg, now, k)
      ensures Wanted(b1, cfg, now, k) ==> (k in PendingTargets(b2) <==> Plain(k))
    {
      WantedKept(b1, b2, cfg, now, d2, r2, q2, k);
      QueuedExactly(b1, b2, cfg, now, d2, r2, q2, k);
    }
  }

  /** The first run may leave work for the second: exactly the proposals of ids
      that are not plain, and of the records it moves. */
  lemma SecondRunQuietIff(b0: Bank, b1: Bank, b2: Bank, cfg: Config, now: int, d1: Done<Id>, d2: Done<Id>,
                          r1: CycleResult, r2: CycleResult, q1: set<Id>, q2: set<Id>)
    requires FullRun(b0, b1, cfg, now, d1, r1, q1) && FullRun(b1, b2, cfg, now, d2, r2, q2)
    ensures b2 == b1 <==> forall k :: ProposesLater(b0, cfg, now, k) ==> k in PendingTargets(b0) || Claimed(b0, cfg, now, k)
  {
    QuietIffSettled(b1, b2, cfg, now, d2, r2, q2);
    NoneLeft(b0, b1, cfg, now, d1, r1, q1);
    forall k
      ensures Wanted(b1, cfg, now, k) <==> ProposesLater(b0, cfg, now, k)
      ensures k in PendingTargets(b1) <==> k in PendingTargets(b0) || Claimed(b0, cfg, now, k)
    {
      WantedNext(b0, b1, cfg, now, d1, r1, q1, k);
      QueuedExactly(b0, b1, cfg, now, d1, r1, q1, k);
    }
  }

  // ------------------------------------------------------ one item per target

  ghost predicate OneOpenPerTarget(bank: Bank) {
    forall k, l :: k in bank && l in bank && OpenItem(bank[k]) && OpenItem(bank[l]) && TargetOf(bank[k]) == TargetOf(bank[l]) ==> k == l
  }

  /** Two ids that differ only in surrounding whitespace and are both due an item,
      or one such id whose trimmed form has an item already. */
  ghost predicate Clash(bank: Bank, cfg: Config, now: int) {
    || (exists t :: Due(bank, cfg, now, t) && Id(t.name, 0) in PendingTargets(bank))
    || (exists t, u :: Due(bank, cfg, now, t) && Due(bank, cfg, now, u) && t != u && t.name == u.name)
  }

  predicate Due(bank: Bank, cfg: Config, now: int, t: Id) {
    Wanted(bank, cfg, now, t) && t.name != "" && t !in PendingTargets(bank)
  }

  /** A run, even one cut short by its limit or by failing writes, keeps one open
      item per target unless due ids clash. */
  lemma OneOpenKept(before: Bank, after: Bank, cfg: Config, now: int, d: Done<Id>, r: CycleResult, pending: set<Id>)
    requires Cycled(before, after, cfg, now, d, r, pending) && OneOpenPerTarget(before)
    requires !Clash(before, cfg, now)
    ensures OneOpenPerTarget(after)
  {
    forall k, l | k in after && l in after && OpenItem(after[k]) && OpenItem(after[l]) && TargetOf(after[k]) == TargetOf(after[l])
      ensures k == l
    {
      OpenOrigin(before, after, cfg, now, d, r, pending, k);
      OpenOrigin(before, after, cfg, now, d, r, pending, l);
    }
  }

  /** An open item of the new bank was open before, or was made for a due record. */
  lemma OpenOrigin(before: Bank, after: Bank, cfg: Config, now: int, d: Done<Id>, r: CycleResult, pending: set<Id>, k: Id)
    requires Cycled(before, after, cfg, now, d, r, pending) && k in after && OpenItem(after[k])
    ensures k in before ==> OpenItem(before[k]) && TargetOf(before[k]) == TargetOf(after[k]) && TargetOf(after[k]) in PendingTargets(before)
    ensures k !in before ==> exists t :: t in d.created && d.created[t] == k && Due(before, cfg, now, t) && TargetOf(after[k]) == Id(t.name, 0)
  {
    if !cfg.dryRun {
      var p := PlanOf(before, cfg.policy, now);
      Afterwards(before, p.moves, p.items, p.known, d.acted, after, d.created, k);
      if k in before {
        SameMeta(before[k], after[k]);
      } else {
        var t :| t in d.created && d.created[t] == k;
        CreatedDue(before, after, cfg, now, d, r, pending, t);
      }
    }
  }

  lemma CreatedDue(before: Bank, after: Bank, cfg: Config, now: int, d: Done<Id>, r: CycleResult, pending: set<Id>, t: Id)
    requires Cycled(before, after, cfg, now, d, r, pending) && !cfg.dryRun && t in d.created
    ensures d.created[t] in after && d.created[t] !in before
    ensures OpenItem(after[d.created[t]]) <==> Due(before, cfg, now, t)
    ensures OpenItem(after[d.created[t]]) ==> TargetOf(after[d.created[t]]) == Id(t.name, 0)
  {
    CreatedMade(before, after, cfg, now, d, r, pending, t);
    assert d.Seen(t);
    CreatedValue(before, after, cfg.policy, now, t, d.created[t]);
    ItemIsOpen(t, before[t].context, Decide(before[t], cfg.policy, now).value.to, now);
  }

  /** Plain ids never clash. */
  lemma PlainIdsNeverClash(bank: Bank, cfg: Config, now: int)
    requires forall k :: k in bank ==> Plain(k)
    ensures !Clash(bank, cfg, now)
  {
    forall t | Due(bank, cfg, now, t) ensures t == Id(t.name, 0) {}
  }

  /** When nothing cuts the run short, a clash always leaves two items for one target. */
  lemma ClashDuplicates(before: Bank, after: Bank, cfg: Config, now: int, d: Done<Id>, r: CycleResult, pending: set<Id>)
    requires FullRun(before, after, cfg, now, d, r, pending) && Clash(before, cfg, now)
    ensures !OneOpenPerTarget(after)
  {
    if t :| Due(before, cfg, now, t) && Id(t.name, 0) in PendingTargets(before) {
      var k :| k in before && OpenItem(before[k]) && TargetOf(before[k]) == Id(t.name, 0);
      RunEffect(before, after, cfg, now, d, r, pending, k);
      DueMade(before, after, cfg, now, d, r, pending, t);
      FullRunActs(before, after, cfg, now, d, r, pending);
      assert k in after && OpenItem(after[k]) && TargetOf(after[k]) == Id(t.name, 0);
    } else {
      var t, u :| Due(before, cfg, now, t) && Due(before, cfg, now, u) && t != u && t.name == u.name;
      DueMade(before, after, cfg, now, d, r, pending, t);
      DueMade(before, after, cfg, now, d, r, pending, u);
      var p := PlanOf(before, cfg.policy, now);
      CreatedDistinct(before, p.moves, p.items, p.known, d.acted, after, d.created, r.queued, t, u);
    }
  }

  lemma DueMade(before: Bank, after: Bank, cfg: Config, now: int, d: Done<Id>, r: CycleResult, pending: set<Id>, t: Id)
    requires FullRun(before, after, cfg, now, d, r, pending) && Due(before, cfg, now, t)
    ensures t in d.created && d.created[t] in after && d.created[t] !in before
    ensures OpenItem(after[d.created[t]]) && TargetOf(after[d.created[t]]) == Id(t.name, 0)
  {
    CreatedExactly(before, after, cfg, now, d, r, pending, t);
    CreatedDue(before, after, cfg, now, d, r, pending, t);
  }

  // ------------------------------------------------------ preview against live

  function AllWanted(bank: Bank, cfg: Config, now: int): set<Id> {
    set t | t in bank && Wanted(bank, cfg, now, t)
  }

  function AllMoved(bank: Bank, cfg: Config, now: int): set<Id> {
    set t | t in bank && !Skips(bank[t], cfg, now) && Auto(bank[t], cfg.policy, now)
  }

  function AllQuiet(bank: Bank, cfg: Config, now: int): set<Id> {
    set t | t in bank && !Skips(bank[t], cfg, now) && Decide(bank[t], cfg.policy, now).None?
  }

  lemma SortedAt(before: Bank, after: Bank, cfg: Config, now: int, d: Done<Id>, r: CycleResult, pending: set<Id>, k: Id)
    requires cfg.limit <= 0 && r.errors == 0 && Cycled(before, after, cfg, now, d, r, pending)
    ensures k in d.moved <==> k in AllMoved(before, cfg, now)
    ensures k in d.skipped <==> k in AllQuiet(before, cfg, now)
    ensures k in d.proposed <==> k in AllWanted(before, cfg, now)
  {
    assert d.failed == {};
    assert SortedOne(PlanOf(before, cfg.policy, now), d, k) && (d.Seen(k) <==> k in Eligible(before, cfg, now));
    if k in before { DecisionClass(before, cfg.policy, now, k); }
  }

  /** The counters of a run that is not cut short. */
  lemma CountsExactly(bank: Bank, after: Bank, cfg: Config, now: int, d: Done<Id>, r: CycleResult, q: set<Id>)
    requires cfg.limit <= 0 && r.errors == 0 && Cycled(bank, after, cfg, now, d, r, q)
    ensures r.auto == |AllMoved(bank, cfg, now)| && r.skipped == |AllQuiet(bank, cfg, now)|
    ensures r.queued == if cfg.dryRun then |AllWanted(bank, cfg, now)| else |AllWanted(bank, cfg, now) - PendingTargets(bank)|
  {
    forall k
      ensures k in d.moved <==> k in AllMoved(bank, cfg, now)
      ensures k in d.skipped <==> k in AllQuiet(bank, cfg, now)
      ensures k in d.proposed <==> k in AllWanted(bank, cfg, now)
    {
      SortedAt(bank, after, cfg, now, d, r, q, k);
    }
    assert d.moved == AllMoved(bank, cfg, now) && d.skipped == AllQuiet(bank, cfg, now);
    if cfg.dryRun {
      assert d.proposed == AllWanted(bank, cfg, now);
    } else {
      CreatedKeys(bank, after, cfg, now, d, r, q);
    }
  }

  lemma CreatedKeys(bank: Bank, after: Bank, cfg: Config, now: int, d: Done<Id>, r: CycleResult, q: set<Id>)
    requires FullRun(bank, after, cfg, now, d, r, q)
    ensures d.created.Keys == AllWanted(bank, cfg, now) - PendingTargets(bank)
  {
    forall t ensures t in d.created <==> t in AllWanted(bank, cfg, now) - PendingTargets(bank) {
      CreatedExactly(bank, after, cfg, now, d, r, q, t);
    }
  }

  lemma PendingSplit<K>(wanted: set<K>, pending: set<K>)
    ensures |wanted| == |wanted - pending| + |wanted * pending|
    ensures |wanted| == |wanted - pending| <==> wanted !! pending
  {
    assert wanted == (wanted - pending) + (wanted * pending);
  }

  /** The counters a full run must show on a bank. */
  ghost predicate Shows(bank: Bank, cfg: Config, now: int, r: CycleResult) {
    && r.auto == |AllMoved(bank, cfg, now)| && r.skipped == |AllQuiet(bank, cfg, now)| && r.errors == 0
    && r.queued == |if cfg.dryRun then AllWanted(bank, cfg, now) else AllWanted(bank, cfg, now) - PendingTargets(bank)|
  }

  lemma FullRunShows(bank: Bank, after: Bank, cfg: Config, now: int, d: Done<Id>, r: CycleResult, q: set<Id>)
    requires cfg.limit <= 0 && r.errors == 0 && Cycled(bank, after, cfg, now, d, r, q)
    ensures Shows(bank, cfg, now, r)
    ensures cfg.dryRun ==> after == bank
  {
    CountsExactly(bank, after, cfg, now, d, r, q);
  }

  /** A dry run never fails. */
  lemma PreviewShows(bank: Bank, after: Bank, cfg: Config, now: int, d: Done<Id>, r: CycleResult, q: set<Id>)
    requires cfg.limit <= 0 && cfg.dryRun && Cycled(bank, after, cfg, now, d, r, q)
    ensures Shows(bank, cfg, now, r) && after == bank
  {
    assert d.failed == {};
    FullRunShows(bank, after, cfg, now, d, r, q);
  }

  /** On the same bank a dry run, which never fails, and a full live run report the
      same moves and skips; the dry run also counts the proposals already queued, so
      the queue counts agree exactly when there are none of those. */
  lemma PreviewForetells(bank: Bank, after: Bank, same: Bank, cfg: Config, now: int, d: Done<Id>, e: Done<Id>,
                         live: CycleResult, dry: CycleResult, p: set<Id>, q: set<Id>)
    requires FullRun(bank, after, cfg, now, d, live, p) && Cycled(bank, same, cfg.(dryRun := true), now, e, dry, q)
    ensures same == bank && dry.auto == live.auto && dry.skipped == live.skipped
    ensures dry.queued == live.queued + |AllWanted(bank, cfg, now) * PendingTargets(bank)|
    ensures dry.queued == live.queued <==> AllWanted(bank, cfg, now) !! PendingTargets(bank)
  {
    FullRunShows(bank, after, cfg, now, d, live, p);
    PreviewShows(bank, same, cfg.(dryRun := true), now, e, dry, q);
    ShownAlike(bank, cfg, now, live, dry);
  }

  lemma ShownAlike(bank: Bank, cfg: Config, now: int, live: CycleResult, dry: CycleResult)
    requires !cfg.dryRun && Shows(bank, cfg, now, live) && Shows(bank, cfg.(dryRun := true), now, dry)
    ensures dry.auto == live.auto && dry.skipped == live.skipped
    ensures dry.queued == live.queued + |AllWanted(bank, cfg, now) * PendingTargets(bank)|
    ensures dry.queued == live.queued <==> AllWanted(bank, cfg, now) !! PendingTargets(bank)
  {
    SameScope(bank, cfg, now);
    PendingSplit(AllWanted(bank, cfg, now), PendingTargets(bank));
  }

  lemma SameScope(bank: Bank, cfg: Config, now: int)
    ensures AllWanted(bank, cfg.(dryRun := true), now) == AllWanted(bank, cfg, now)
    ensures AllMoved(bank, cfg.(dryRun := true), now) == AllMoved(bank, cfg, now)
    ensures AllQuiet(bank, cfg.(dryRun := true), now) == AllQuiet(bank, cfg, now)
  {
  }
}
