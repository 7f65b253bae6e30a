/** The recount of references (RecountReferences in internal/memory/refcount.go):
    scan every row without the write lock, derive the counts, and write those that
    differ, row by row, each with the whole metadata that was scanned. */
module Recount {
  import opened Common
  import opened Text

  const REFERENCED := "referenced_by_count"
  const AVOIDED := "avoided_dead_end_id"

  type Id = string
  type Meta = map<string, string>

  /** NULL is the empty string. */
  datatype Row = Row(metadata: Meta, supersededBy: string)

  type Bank = map<Id, Row>

  function Field(m: Meta, key: string): string {
    if key in m then Trim(m[key]) else ""
  }

  /** strconv.Atoi, with anything unreadable or negative read as zero. */
  function ParseCount(s: string): nat {
    var digits := if s != "" && s[0] == '+' then s[1..] else s;
    if digits == "" || (exists i :: 0 <= i < |digits| && !IsDigit(digits[i])) || NumberOf(digits) > MAX_INT64 then 0
    else NumberOf(digits)
  }

  function CountOf(m: Meta): nat {
    ParseCount(Field(m, REFERENCED))
  }

  // ----------------------------------------------------------------- the tally

  predicate Avoids(r: Row, target: Id) {
    target != "" && Field(r.metadata, AVOIDED) == target
  }

  predicate SupersededBy(r: Row, target: Id) {
    target != "" && Trim(r.supersededBy) == target
  }

  function Avoiders(bank: Bank, among: set<Id>, target: Id): set<Id> {
    set id | id in among && id in bank && Avoids(bank[id], target)
  }

  function Superseded(bank: Bank, among: set<Id>, target: Id): set<Id> {
    set id | id in among && id in bank && SupersededBy(bank[id], target)
  }

  /** The edges to `target` from the rows in `among`. */
  function Edges(bank: Bank, among: set<Id>, target: Id): nat {
    |Avoiders(bank, among, target)| + |Superseded(bank, among, target)|
  }

  function Derived(bank: Bank, target: Id): nat {
    Edges(bank, bank.Keys, target)
  }

  /** The rows whose stored count is not the derived one. */
  function Changes(bank: Bank): map<Id, nat> {
    map id | id in bank && Derived(bank, id) != CountOf(bank[id].metadata) :: Derived(bank, id)
  }

  lemma OneMore(a: set<Id>, b: set<Id>, id: Id)
    requires id !in a && forall k :: k in b ==> k in a || k == id
    requires forall k :: k in a ==> k in b
    ensures |b| == |a| + if id in b then 1 else 0
  {
    if id in b { assert b == a + {id}; } else { assert b == a; }
  }

  lemma EdgesGrow(bank: Bank, among: set<Id>, id: Id, target: Id)
    requires id !in among && id in bank
    ensures Edges(bank, among + {id}, target) ==
            Edges(bank, among, target) + (if Avoids(bank[id], target) then 1 else 0) + (if SupersededBy(bank[id], target) then 1 else 0)
  {
    OneMore(Avoiders(bank, among, target), Avoiders(bank, among + {id}, target), id);
    OneMore(Superseded(bank, among, target), Superseded(bank, among + {id}, target), id);
  }

  function Raised(tally: map<Id, nat>, target: Id): map<Id, nat> {
    if target == "" then tally else tally[target := (if target in tally then tally[target] else 0) + 1]
  }

  function Count(tally: map<Id, nat>, target: Id): nat {
    if target in tally then tally[target] else 0
  }

  ghost predicate Tallied(tally: map<Id, nat>, bank: Bank, among: set<Id>) {
    forall t :: Count(tally, t) == Edges(bank, among, t)
  }

  lemma TallyGrows(tally: map<Id, nat>, bank: Bank, among: set<Id>, id: Id)
    requires Tallied(tally, bank, among) && id in bank && id !in among
    ensures Tallied(Raised(Raised(tally, Field(bank[id].metadata, AVOIDED)), Trim(bank[id].supersededBy)), bank, among + {id})
  {
    var avoided, successor := Field(bank[id].metadata, AVOIDED), Trim(bank[id].supersededBy);
    var once := Raised(tally, avoided);
    forall t ensures Count(Raised(once, successor), t) == Edges(bank, among + {id}, t) {
      EdgesGrow(bank, among, id, t);
      RaisedCount(tally, avoided, t);
      RaisedCount(once, successor, t);
    }
  }

  lemma RaisedCount(tally: map<Id, nat>, target: Id, t: Id)
    ensures Count(Raised(tally, target), t) == Count(tally, t) + if target != "" && t == target then 1 else 0
  {
  }

  lemma NoEdges(bank: Bank)
    ensures Tallied(map[], bank, {})
  {
    forall t ensures Edges(bank, {}, t) == 0 {
      assert Avoiders(bank, {}, t) == {} && Superseded(bank, {}, t) == {};
    }
  }

  method TallyEdges(scanned: Bank) returns (tally: map<Id, nat>)
    ensures Tallied(tally, scanned, scanned.Keys)
  {
    tally := map[];
    var todo := scanned.Keys;
    ghost var done: set<Id> := {};
    NoEdges(scanned);
    while todo != {}
      invariant todo <= scanned.Keys && forall id :: id in done <==> id in scanned && id !in todo
      invariant Tallied(tally, scanned, done)
    {
      var id :| id in todo;
      TallyGrows(tally, scanned, done, id);
      tally := Raised(Raised(tally, Field(scanned[id].metadata, AVOIDED)), Trim(scanned[id].supersededBy));
      todo, done := todo - {id}, done + {id};
    }
    assert done == scanned.Keys;
  }

  method FindChanges(scanned: Bank) returns (changes: map<Id, nat>)
    ensures changes == Changes(scanned)
  {
    var tally := TallyEdges(scanned);
    changes := map id | id in scanned && Count(tally, id) != CountOf(scanned[id].metadata) :: Count(tally, id);
  }

  // ---------------------------------------------------------------- the writes

  function Counted(m: Meta, count: nat): Meta {
    m[REFERENCED := Decimal(count)]
  }

  /** Rows written with what was scanned of them, and the new count. */
  function WithCounts(rows: Bank, scanned: Bank, counts: map<Id, nat>): Bank {
    map id | id in rows ::
      if id in counts && id in scanned then rows[id].(metadata := Counted(scanned[id].metadata, counts[id])) else rows[id]
  }

  class Store {
    var rows: Bank

    constructor (initial: Bank)
      ensures rows == initial
    {
      rows := initial;
    }

    /** An UPDATE by id; it may fail, and a row that has gone is no failure. */
    method UpdateMetadata(id: Id, metadata: Meta) returns (ok: bool)
      modifies this
      ensures rows == if ok && id in old(rows) then old(rows)[id := old(rows)[id].(metadata := metadata)] else old(rows)
    {
      ok := *;
      if ok && id in rows {
        rows := rows[id := rows[id].(metadata := metadata)];
      }
    }
  }

  datatype Result = Result(scanned: nat, updated: nat, counts: map<Id, nat>)

  /** `scanned` is what the first phase read; the rows may have changed since. */
  method RecountReferences(store: Store, scanned: Bank, dryRun: bool) returns (r: Result)
    modifies store
    ensures r.scanned == |scanned| && r.updated == |r.counts|
    ensures forall id :: id in r.counts ==> id in Changes(scanned) && r.counts[id] == Changes(scanned)[id]
    ensures dryRun ==> r.counts == Changes(scanned)
    ensures store.rows == if dryRun then old(store.rows) else WithCounts(old(store.rows), scanned, r.counts)
  {
    var changes := FindChanges(scanned);
    if dryRun {
      return Result(|scanned|, |changes|, changes);
    }
    var applied: map<Id, nat> := map[];
    var todo := changes.Keys;
    assert store.rows == WithCounts(store.rows, scanned, applied);
    while todo != {}
      invariant todo <= changes.Keys && applied.Keys !! todo
      invariant forall id :: id in applied ==> id in changes && applied[id] == changes[id]
      invariant store.rows == WithCounts(old(store.rows), scanned, applied)
    {
      var id :| id in todo;
      todo := todo - {id};
      ghost var before := store.rows;
      var ok := store.UpdateMetadata(id, Counted(scanned[id].metadata, changes[id]));
      if ok {
        CountsGrow(old(store.rows), scanned, applied, id, changes[id]);
        applied := applied[id := changes[id]];
      }
    }
    r := Result(|scanned|, |applied|, applied);
  }

  lemma CountsGrow(rows: Bank, scanned: Bank, counts: map<Id, nat>, id: Id, count: nat)
    requires id in scanned && id !in counts
    ensures var before, after := WithCounts(rows, scanned, counts), WithCounts(rows, scanned, counts[id := count]);
            after == if id in before then before[id := before[id].(metadata := Counted(scanned[id].metadata, count))] else before
  {
  }

  // ------------------------------------------------------------- running again

  lemma DerivedBound(bank: Bank, target: Id)
    ensures Derived(bank, target) <= 2 * |bank|
  {
    SubsetSize(Avoiders(bank, bank.Keys, target), bank.Keys);
    SubsetSize(Superseded(bank, bank.Keys, target), bank.Keys);
  }

  lemma CountedReads(m: Meta, count: nat)
    requires count <= MAX_INT64
    ensures CountOf(Counted(m, count)) == count && Field(Counted(m, count), AVOIDED) == Field(m, AVOIDED)
  {
    var digits := Decimal(count);
    NumberOfDecimal(count);
    assert IsDigit(digits[0]) && IsDigit(digits[|digits| - 1]);
    TrimmedStays(digits);
    assert REFERENCED != AVOIDED by { assert REFERENCED[0] != AVOIDED[0]; }
  }

  /** The counts written are no edges themselves. */
  lemma SameEdges(bank: Bank, counts: map<Id, nat>, target: Id)
    requires forall id :: id in counts ==> id in bank && counts[id] <= MAX_INT64
    ensures Derived(WithCounts(bank, bank, counts), target) == Derived(bank, target)
  {
    var after := WithCounts(bank, bank, counts);
    assert after.Keys == bank.Keys;
    forall id | id in bank
      ensures Avoids(after[id], target) == Avoids(bank[id], target) && SupersededBy(after[id], target) == SupersededBy(bank[id], target)
    {
      if id in counts { CountedReads(bank[id].metadata, counts[id]); }
    }
    assert Avoiders(after, after.Keys, target) == Avoiders(bank, bank.Keys, target);
    assert Superseded(after, after.Keys, target) == Superseded(bank, bank.Keys, target);
  }

  /** What is left to change once `counts` have been written. */
  predicate LeftAt(changes: map<Id, nat>, counts: map<Id, nat>, after: map<Id, nat>, id: Id) {
    (id in after <==> id in changes && id !in counts) && (id in after ==> after[id] == changes[id])
  }

  lemma NothingLeftIff(changes: map<Id, nat>, counts: map<Id, nat>, after: map<Id, nat>)
    requires forall id :: id in counts ==> id in changes && counts[id] == changes[id]
    requires forall id :: LeftAt(changes, counts, after, id)
    ensures after == map[] <==> counts == changes
  {
    if after == map[] {
      forall id | id in changes ensures id in counts { assert LeftAt(changes, counts, after, id); }
    } else {
      var id :| id in after;
      assert LeftAt(changes, counts, after, id);
    }
  }

  /** After an undisturbed recount another one finds exactly the rows whose update
      failed; so it updates nothing exactly when none did. */
  lemma RecountAgain(bank: Bank, counts: map<Id, nat>, changes: map<Id, nat>, after: map<Id, nat>)
    requires 2 * |bank| <= MAX_INT64 && changes == Changes(bank) && after == Changes(WithCounts(bank, bank, counts))
    requires forall id :: id in counts ==> id in changes && counts[id] == changes[id]
    ensures forall id :: LeftAt(changes, counts, after, id)
    ensures after == map[] <==> counts == changes
  {
    forall id ensures LeftAt(changes, counts, after, id) { LeftToChange(bank, counts, id); }
    NothingLeftIff(changes, counts, after);
  }

  lemma LeftToChange(bank: Bank, counts: map<Id, nat>, id: Id)
    requires 2 * |bank| <= MAX_INT64
    requires forall k :: k in counts ==> k in Changes(bank) && counts[k] == Changes(bank)[k]
    ensures LeftAt(Changes(bank), counts, Changes(WithCounts(bank, bank, counts)), id)
  {
    if id in bank { RecountedRow(bank, counts, id); }
  }

  lemma RecountedRow(bank: Bank, counts: map<Id, nat>, id: Id)
    requires id in bank && 2 * |bank| <= MAX_INT64
    requires forall k :: k in counts ==> k in Changes(bank) && counts[k] == Changes(bank)[k]
    ensures var after := WithCounts(bank, bank, counts);
            && Derived(after, id) == Derived(bank, id)
            && CountOf(after[id].metadata) == if id in counts then counts[id] else CountOf(bank[id].metadata)
  {
    forall k | k in counts ensures counts[k] <= MAX_INT64 { DerivedBound(bank, k); }
    SameEdges(bank, counts, id);
    if id in counts { CountedReads(bank[id].metadata, counts[id]); }
  }

  // ----------------------------------------------------------- a change between

  /** A change between scan and write is lost: the write comes to the count alone
      exactly when the row's other metadata is still what was scanned. */
  lemma NothingLostIff(rows: Bank, scanned: Bank, counts: map<Id, nat>, id: Id)
    requires id in rows && id in scanned && id in counts
    ensures WithCounts(rows, scanned, counts)[id].metadata == Counted(rows[id].metadata, counts[id]) <==>
            forall k :: k != REFERENCED ==>
              (k in rows[id].metadata <==> k in scanned[id].metadata)
                && (k in rows[id].metadata && k in scanned[id].metadata ==> rows[id].metadata[k] == scanned[id].metadata[k])
  {
    var now, then_ := rows[id].metadata, scanned[id].metadata;
    var a, b := Counted(then_, counts[id]), Counted(now, counts[id]);
    forall k | k != REFERENCED
      ensures (k in a <==> k in then_) && (k in a ==> a[k] == then_[k]) && (k in b <==> k in now) && (k in b ==> b[k] == now[k])
    {
    }
    if forall k :: k != REFERENCED ==> (k in now <==> k in then_) && (k in now && k in then_ ==> now[k] == then_[k]) {
      forall k ensures (k in a <==> k in b) && (k in a && k in b ==> a[k] == b[k]) {}
    }
  }
}
