/** The per-document cap on a ranked list (applyPerDocumentCap in
    internal/rag/ranking.go). */
module Ranking {

  /** How many rows before `i` are of the same document. */
  function Rank(docs: seq<string>, i: nat, doc: string): nat
    requires i <= |docs|
  {
    if i == 0 then 0 else Rank(docs, i - 1, doc) + if docs[i - 1] == doc then 1 else 0
  }

  /** Row `i` is among the first `cap` of its document. */
  predicate Early(docs: seq<string>, cap: nat, i: nat)
    requires i < |docs|
  {
    Rank(docs, i, docs[i]) < cap
  }

  /** The first `n` rows that are early, or late, in order. */
  function Rows(docs: seq<string>, cap: nat, n: nat, early: bool): seq<nat>
    requires n <= |docs|
  {
    if n == 0 then []
    else Rows(docs, cap, n - 1, early) + if Early(docs, cap, n - 1) == early then [n - 1] else []
  }

  /** The rows the cap keeps: the early ones, then the late ones, cut at `limit`. */
  function Chosen(docs: seq<string>, cap: int, limit: int): (c: seq<nat>)
  {
    var n := |docs|;
    if limit <= 0 || n <= limit then seq(n, i => i)
    else if cap <= 0 then seq(limit, i => i)
    else Prefix(Rows(docs, cap, n, true) + Rows(docs, cap, n, false), limit)
  }

  function Prefix<T>(s: seq<T>, n: nat): seq<T> {
    if |s| <= n then s else s[..n]
  }

  ghost predicate Picks<T>(rows: seq<T>, picked: seq<T>, chosen: seq<nat>) {
    |picked| == |chosen| && forall k :: 0 <= k < |picked| ==> chosen[k] < |rows| && picked[k] == rows[chosen[k]]
  }

  /** What the counting map holds: the rows picked of each document. */
  ghost predicate Counts(seen: map<string, nat>, docs: seq<string>, i: nat, cap: nat)
    requires i <= |docs|
  {
    forall doc :: (if doc in seen then seen[doc] else 0) == if Rank(docs, i, doc) < cap then Rank(docs, i, doc) else cap
  }

  method ApplyPerDocumentCap<T>(rows: seq<T>, cap: int, limit: int, docs: seq<string>) returns (picked: seq<T>)
    requires |docs| == |rows|
    ensures Picks(rows, picked, Chosen(docs, cap, limit))
  {
    if limit <= 0 || |rows| <= limit {
      return rows;
    }
    if cap <= 0 {
      return rows[..limit];
    }
    ghost var early, late: seq<nat>;
    var deferred;
    picked, deferred, early, late := PickEarly(rows, cap, limit, docs);
    var k := 0;
    while k < |deferred| && |picked| < limit
      invariant 0 <= k <= |deferred|
      invariant |picked| <= limit && (k > 0 ==> |picked| == |early| + k)
      invariant Picks(rows, picked, early + late[..k])
    {
      assert late[..k + 1] == late[..k] + [late[k]];
      picked := picked + [deferred[k]];
      k := k + 1;
    }
    ChosenIs(docs, cap, limit, early, late, k);
  }

  method PickEarly<T>(rows: seq<T>, cap: nat, limit: nat, docs: seq<string>)
    returns (picked: seq<T>, deferred: seq<T>, ghost early: seq<nat>, ghost late: seq<nat>)
    requires |docs| == |rows| && 0 < cap && 0 < limit
    ensures Picks(rows, picked, early) && Picks(rows, deferred, late) && |early| <= limit
    ensures if |early| == limit then early <= Rows(docs, cap, |docs|, true)
            else early == Rows(docs, cap, |docs|, true) && late == Rows(docs, cap, |docs|, false)
  {
    picked, deferred, early, late := [], [], [], [];
    var seen: map<string, nat> := map[];
    for i := 0 to |rows|
      invariant early == Rows(docs, cap, i, true) && late == Rows(docs, cap, i, false)
      invariant Picks(rows, picked, early) && Picks(rows, deferred, late) && |early| <= limit
      invariant Counts(seen, docs, i, cap)
    {
      if |picked| >= limit {
        RowsGrow(docs, cap, i, |docs|, true);
        return;
      }
      var doc := docs[i];
      var count := if doc in seen then seen[doc] else 0;
      if count >= cap {
        deferred, late := deferred + [rows[i]], late + [i];
        continue;
      }
      seen := seen[doc := count + 1];
      picked, early := picked + [rows[i]], early + [i];
    }
  }

  lemma {:induction false} RowsGrow(docs: seq<string>, cap: nat, i: nat, n: nat, early: bool)
    requires i <= n <= |docs|
    ensures Rows(docs, cap, i, early) <= Rows(docs, cap, n, early)
  {
    if i < n { RowsGrow(docs, cap, i, n - 1, early); }
  }

  lemma {:induction false} RowsSplit(docs: seq<string>, cap: nat, n: nat)
    requires n <= |docs|
    ensures |Rows(docs, cap, n, true)| + |Rows(docs, cap, n, false)| == n
  {
    if n > 0 { RowsSplit(docs, cap, n - 1); }
  }

  lemma ChosenIs(docs: seq<string>, cap: nat, limit: nat, early: seq<nat>, late: seq<nat>, k: nat)
    requires 0 < cap && 0 < limit < |docs| && |early| <= limit && k <= |late|
    requires if |early| == limit then early <= Rows(docs, cap, |docs|, true)
             else early == Rows(docs, cap, |docs|, true) && late == Rows(docs, cap, |docs|, false)
    requires |early| == limit ==> k == 0
    requires |early| < limit ==> k == |late| || |early| + k == limit
    requires |early| + k <= limit
    ensures early + late[..k] == Chosen(docs, cap, limit)
  {
    RowsSplit(docs, cap, |docs|);
  }

  // --------------------------------------------------------- what is chosen

  lemma {:induction false} RowsExactly(docs: seq<string>, cap: nat, n: nat, early: bool, i: nat)
    requires n <= |docs|
    ensures i in Rows(docs, cap, n, early) <==> i < n && Early(docs, cap, i) == early
  {
    if n > 0 { RowsExactly(docs, cap, n - 1, early, i); }
  }

  ghost predicate AscendBelow(r: seq<nat>, n: nat) {
    (forall i :: 0 <= i < |r| ==> r[i] < n) && forall i, j :: 0 <= i < j < |r| ==> r[i] < r[j]
  }

  lemma {:induction false} RowsAscend(docs: seq<string>, cap: nat, n: nat, early: bool)
    requires n <= |docs|
    ensures AscendBelow(Rows(docs, cap, n, early), n)
  {
    if n > 0 {
      RowsAscend(docs, cap, n - 1, early);
      var before := Rows(docs, cap, n - 1, early);
      assert AscendBelow(before, n - 1);
      assert AscendBelow(before + [n - 1], n);
    }
  }

  /** With a positive cap and more rows than the limit: exactly `limit` rows, none
      twice, in their original order among the early and among the late ones. */
  lemma ChosenInOrder(docs: seq<string>, cap: nat, limit: nat)
    requires 0 < cap && 0 < limit < |docs|
    ensures var c := Chosen(docs, cap, limit);
      && |c| == limit
      && (forall k :: 0 <= k < limit ==> c[k] < |docs|)
      && forall k, l :: 0 <= k < l < limit ==>
           c[k] != c[l] && (Early(docs, cap, c[k]) == Early(docs, cap, c[l]) ==> c[k] < c[l])
           && (Early(docs, cap, c[l]) ==> Early(docs, cap, c[k]))
  {
    var n := |docs|;
    var early, late := Rows(docs, cap, n, true), Rows(docs, cap, n, false);
    RowsSplit(docs, cap, n);
    RowsAscend(docs, cap, n, true);
    RowsAscend(docs, cap, n, false);
    var all := early + late;
    forall k | 0 <= k < |all| ensures all[k] < n && Early(docs, cap, all[k]) == (k < |early|) {
      RowsExactly(docs, cap, n, k < |early|, all[k]);
      assert all[k] in if k < |early| then early else late;
    }
  }

  /** The cap is a preference: a row beyond the cap of its document is returned only
      when every row within the cap is, and only while the limit is not reached;
      a row within the cap is passed over only for `limit` earlier such rows. */
  lemma CapIsAPreference(docs: seq<string>, cap: nat, limit: nat, i: nat, j: nat)
    requires 0 < cap && 0 < limit < |docs| && i < |docs| && j < |docs|
    requires i in Chosen(docs, cap, limit) && j !in Chosen(docs, cap, limit)
    ensures Early(docs, cap, j) ==> Early(docs, cap, i)
    ensures Early(docs, cap, j) == Early(docs, cap, i) ==> i < j
  {
    var n := |docs|;
    var early, late := Rows(docs, cap, n, true), Rows(docs, cap, n, false);
    RowsSplit(docs, cap, n);
    RowsAscend(docs, cap, n, true);
    RowsAscend(docs, cap, n, false);
    RowsExactly(docs, cap, n, Early(docs, cap, i), i);
    RowsExactly(docs, cap, n, Early(docs, cap, j), j);
    var all, c := early + late, Chosen(docs, cap, limit);
    var k :| 0 <= k < |c| && c[k] == i;
    assert all[k] == i;
    var from := if Early(docs, cap, j) then early else late;
    var m :| 0 <= m < |from| && from[m] == j;
    var l := if Early(docs, cap, j) then m else |early| + m;
    assert all[l] == j && l >= limit;
    RowsExactly(docs, cap, n, k < |early|, i);
    assert i in if k < |early| then early else late;
  }
}
