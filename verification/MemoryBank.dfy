/** The memory store as the batch drivers see it: a bank of records whose writes
    either succeed as a whole or leave it alone (internal/memory/write.go). */
module MemoryBank {
  import opened Common
  import opened Trust
  import opened Sediment

  /** A record after MarkOutdated without a successor. */
  function OutdatedRecord(r: Record, reason: Word, now: int): Record {
    r.(meta := Normal(OutdatedMeta(r.meta, reason, Blank, Instant(now))), importance := if r.importance > 0.25 then 0.25 else r.importance,
       layer := if r.layer.None? then Some(Surface) else r.layer)
  }

  /** A record after PromoteToCanonical. */
  function PromotedRecord(r: Record, verified: bool, owner: Word, now: int): Record {
    r.(meta := Normal(PromotedMeta(r.meta, verified, owner, Instant(now))), importance := if r.importance < 0.95 then 0.95 else r.importance,
       layer := Some(Character))
  }

  class MemoryStore {
    var bank: Bank

    constructor (initial: Bank)
      ensures bank == initial
    {
      bank := initial;
    }

    /** Whether a write goes through is up to the database. */
    method Replace(id: Id, r: Record) returns (ok: bool)
      modifies this
      ensures ok ==> id in old(bank) && bank == old(bank)[id := r]
      ensures !ok ==> bank == old(bank)
    {
      ok := *;
      ok := ok && id in bank;
      if ok {
        bank := bank[id := r];
      }
    }

    method PromoteSediment(id: Id, target: Layer) returns (ok: bool)
      modifies this
      ensures ok ==> id in old(bank) && bank == old(bank)[id := old(bank)[id].(layer := Some(target))]
      ensures !ok ==> bank == old(bank)
    {
      if id !in bank {
        return false;
      }
      ok := Replace(id, bank[id].(layer := Some(target)));
    }

    method MarkOutdated(id: Id, reason: Word, now: int) returns (ok: bool)
      modifies this
      ensures ok ==> id in old(bank) && bank == old(bank)[id := OutdatedRecord(old(bank)[id], reason, now)]
      ensures ok ==> Normalisable(OutdatedMeta(old(bank)[id].meta, reason, Blank, Instant(now)))
      ensures !ok ==> bank == old(bank)
    {
      if id !in bank || !Normalisable(OutdatedMeta(bank[id].meta, reason, Blank, Instant(now))) {
        return false;
      }
      ok := Replace(id, OutdatedRecord(bank[id], reason, now));
    }

    method PromoteToCanonical(id: Id, owner: Word, verified: bool, now: int) returns (ok: bool)
      modifies this
      ensures ok ==> id in old(bank) && bank == old(bank)[id := PromotedRecord(old(bank)[id], verified, owner, now)]
      ensures ok ==> PromotionAllowed(old(bank)[id].meta, verified)
      ensures !ok ==> bank == old(bank)
    {
      if id !in bank || !PromotionAllowed(bank[id].meta, verified)
        || !Normalisable(PromotedMeta(bank[id].meta, verified, owner, Instant(now))) {
        return false;
      }
      ok := Replace(id, PromotedRecord(bank[id], verified, owner, now));
    }

    /** Store under a new id. */
    method Store(r: Record) returns (ok: bool, id: Id)
      modifies this
      ensures ok ==> id !in old(bank) && bank == old(bank)[id := r]
      ensures !ok ==> bank == old(bank)
    {
      id := *;
      ok := id !in bank;
      if ok {
        bank := bank[id := r];
      }
    }
  }

  /** The records of a listing come in no particular order, each once. */
  method Listing(listed: set<Id>) returns (ids: seq<Id>)
    ensures forall id :: id in ids <==> id in listed
    ensures forall i, j :: 0 <= i < j < |ids| ==> ids[i] != ids[j]
  {
    ids := [];
    var todo := listed;
    while todo != {}
      invariant todo <= listed
      invariant forall id :: id in ids <==> id in listed && id !in todo
      invariant forall i, j :: 0 <= i < j < |ids| ==> ids[i] != ids[j]
    {
      var id :| id in todo;
      todo, ids := todo - {id}, ids + [id];
    }
  }
}
