/** The order in which the store lists a document's chunks (ChunksByDocPath in
    internal/vectorstore), and what expanding a section gives on that listing. */
module SectionListing {
  import opened Text
  import opened Skeleton
  import opened Breadcrumb
  import opened Common
  import opened SectionExpansion

  // ------------------------------------------------------- decimal text order

  /** Go compares ids byte by byte. */
  predicate Before(a: string, b: string) {
    if b == [] then false
    else if a == [] then true
    else a[0] < b[0] || (a[0] == b[0] && Before(a[1..], b[1..]))
  }

  lemma {:induction false} BeforeTotal(a: string, b: string)
    ensures Before(a, b) || Before(b, a) || a == b
    ensures !(Before(a, b) && Before(b, a))
  {
    if a != [] && b != [] && a[0] == b[0] {
      BeforeTotal(a[1..], b[1..]);
      assert a == [a[0]] + a[1..] && b == [b[0]] + b[1..];
    }
  }

  lemma {:induction false} DecimalInjective(m: nat, n: nat)
    requires Decimal(m) == Decimal(n)
    ensures m == n
  {
    var a, b := Decimal(m), Decimal(n);
    assert m % 10 == n % 10 by { assert a[|a| - 1] == b[|b| - 1]; }
    if m >= 10 && n >= 10 {
      assert a[..|a| - 1] == Decimal(m / 10) && b[..|b| - 1] == Decimal(n / 10);
      DecimalInjective(m / 10, n / 10);
    }
  }

  lemma {:induction false} BeforeAppend(a: string, b: string, x: char, y: char)
    requires |a| == |b|
    ensures Before(a + [x], b + [y]) <==> Before(a, b) || (a == b && x < y)
  {
    if a != [] {
      BeforeAppend(a[1..], b[1..], x, y);
      assert (a + [x])[1..] == a[1..] + [x] && (b + [y])[1..] == b[1..] + [y];
      assert a == [a[0]] + a[1..] && b == [b[0]] + b[1..];
    }
  }

  lemma {:induction false} BeforeLonger(a: string, b: string, y: char)
    requires |a| <= |b|
    ensures Before(a, b + [y]) <==> Before(a, b) || a == b
  {
    if a != [] {
      BeforeLonger(a[1..], b[1..], y);
      assert (b + [y])[1..] == b[1..] + [y];
      assert a == [a[0]] + a[1..] && b == [b[0]] + b[1..];
    }
  }

  lemma {:induction false} SameLengthOrder(m: nat, n: nat)
    requires |Decimal(m)| == |Decimal(n)|
    ensures Before(Decimal(m), Decimal(n)) <==> m < n
  {
    if m >= 10 && n >= 10 {
      SameLengthOrder(m / 10, n / 10);
      BeforeAppend(Decimal(m / 10), Decimal(n / 10), Digit(m % 10), Digit(n % 10));
      if Decimal(m / 10) == Decimal(n / 10) { DecimalInjective(m / 10, n / 10); }
    }
  }

  /** The number that the first `digits` digits of `n` spell. */
  function Leading(n: nat, digits: nat): (m: nat)
    requires digits > 0
    ensures m <= n
  {
    if |Decimal(n)| <= digits then n else Leading(n / 10, digits)
  }

  /** Two indices, the smaller first, are listed in this order. */
  predicate InOrder(m: nat, n: nat) {
    |Decimal(m)| == |Decimal(n)| || m <= Leading(n, |Decimal(m)|)
  }

  lemma {:induction false} LengthGrows(m: nat, n: nat)
    requires m <= n
    ensures |Decimal(m)| <= |Decimal(n)|
  {
    if m >= 10 { LengthGrows(m / 10, n / 10); }
  }

  lemma {:induction false} LongerOrder(m: nat, n: nat)
    requires |Decimal(m)| < |Decimal(n)|
    ensures Before(Decimal(m), Decimal(n)) <==> m <= Leading(n, |Decimal(m)|)
  {
    BeforeLonger(Decimal(m), Decimal(n / 10), Digit(n % 10));
    if |Decimal(n / 10)| == |Decimal(m)| {
      SameLengthOrder(m, n / 10);
      if Decimal(m) == Decimal(n / 10) { DecimalInjective(m, n / 10); }
    } else {
      LongerOrder(m, n / 10);
    }
  }

  /** Of two indices the smaller is listed first exactly when they have equally many
      digits, or it does not exceed the number the larger one begins with. */
  lemma ListedFirstIff(m: nat, n: nat)
    requires m < n
    ensures Before(Decimal(m), Decimal(n)) <==> InOrder(m, n)
  {
    LengthGrows(m, n);
    if |Decimal(m)| == |Decimal(n)| { SameLengthOrder(m, n); } else { LongerOrder(m, n); }
  }

  // ----------------------------------------------------- the order of the store

  /** The order ChunksByDocPath returns the chunks of a document in: their ids share
      a prefix, so the decimal indices decide. */
  ghost predicate StoreOrder(order: seq<nat>) {
    forall i, j :: 0 <= i < j < |order| ==> order[i] != order[j] && !Before(Decimal(order[j]), Decimal(order[i]))
  }

  ghost predicate Ascending(order: seq<nat>) {
    forall i, j :: 0 <= i < j < |order| ==> order[i] < order[j]
  }

  ghost predicate NoInversion(order: seq<nat>) {
    forall m, n :: m in order && n in order && m < n ==> InOrder(m, n)
  }

  lemma AscendingIff(order: seq<nat>)
    requires StoreOrder(order)
    ensures Ascending(order) <==> NoInversion(order)
  {
    if Ascending(order) {
      forall m, n | m in order && n in order && m < n ensures InOrder(m, n) {
        var i :| 0 <= i < |order| && order[i] == m;
        var j :| 0 <= j < |order| && order[j] == n;
        BeforeTotal(Decimal(m), Decimal(n));
        if Decimal(m) == Decimal(n) { DecimalInjective(m, n); }
        ListedFirstIff(m, n);
      }
    }
    if NoInversion(order) {
      forall i, j | 0 <= i < j < |order| ensures order[i] < order[j] {
        assert order[i] in order && order[j] in order;
        if order[j] < order[i] { ListedFirstIff(order[j], order[i]); }
      }
    }
  }

  /** Somewhere between two indices of different length a digit is added. */
  lemma {:induction false} LengthSteps(lo: nat, hi: nat) returns (m: nat)
    requires lo <= hi && |Decimal(lo)| < |Decimal(hi)|
    ensures lo <= m < hi && |Decimal(m)| < |Decimal(m + 1)|
    decreases hi
  {
    m := hi - 1;
    if |Decimal(m)| == |Decimal(hi)| { m := LengthSteps(lo, m); } else { LengthGrows(m, hi); }
  }

  /** Neighbouring chunks are in document order exactly when the indices of the
      first and the last have equally many digits. */
  lemma NeighboursIff(order: seq<nat>, lo: nat, hi: nat)
    requires lo <= hi && forall k: nat :: k in order <==> lo <= k <= hi
    ensures NoInversion(order) <==> |Decimal(lo)| == |Decimal(hi)|
  {
    LengthGrows(lo, hi);
    if |Decimal(lo)| == |Decimal(hi)| {
      forall m, n | m in order && n in order && m < n ensures InOrder(m, n) {
        LengthGrows(lo, m);
        LengthGrows(m, n);
        LengthGrows(n, hi);
      }
    } else {
      var m := LengthSteps(lo, hi);
      assert Leading(m + 1, |Decimal(m)|) <= (m + 1) / 10 < m;
      assert m in order && m + 1 in order && !InOrder(m, m + 1);
    }
  }

  /** A document's chunks are listed in order exactly when there are ten at most. */
  lemma DocumentInOrderIff(order: seq<nat>, count: nat)
    requires IsListing(order, count)
    ensures Ascending(order) <==> count <= 10
  {
    AscendingIff(order);
    if count > 0 { NeighboursIff(order, 0, count - 1); }
  }

  // ------------------------------------------------- expansion over the listing

  predicate Below(order: seq<nat>, count: nat) {
    forall i :: 0 <= i < |order| ==> order[i] < count
  }

  ghost predicate IsListing(order: seq<nat>, count: nat) {
    StoreOrder(order) && Below(order, count) && forall k: nat :: k < count ==> k in order
  }

  function Listing(chunks: seq<string>, order: seq<nat>): seq<string>
    requires Below(order, |chunks|)
  {
    seq(|order|, i requires 0 <= i < |order| => chunks[order[i]])
  }

  /** Chunk `k` carries the breadcrumb of `key`. */
  predicate Hit(chunks: seq<string>, key: string, k: nat) {
    k < |chunks| && Matching(chunks[k], key) != []
  }

  function Hits(chunks: seq<string>, key: string, order: seq<nat>): seq<nat> {
    if order == [] then []
    else
      var rest, k := Hits(chunks, key, order[..|order| - 1]), order[|order| - 1];
      if Hit(chunks, key, k) then rest + [k] else rest
  }

  function Bodies(chunks: seq<string>, key: string, hits: seq<nat>): seq<string>
    requires forall i :: 0 <= i < |hits| ==> Hit(chunks, key, hits[i])
  {
    seq(|hits|, i requires 0 <= i < |hits| => BodyAt(chunks, key, hits[i]))
  }

  function BodyAt(chunks: seq<string>, key: string, k: nat): string
    requires Hit(chunks, key, k)
  {
    Matching(chunks[k], key)[0]
  }

  lemma {:induction false} HitsAre(chunks: seq<string>, key: string, order: seq<nat>)
    ensures forall k :: k in Hits(chunks, key, order) <==> k in order && Hit(chunks, key, k)
  {
    if order != [] {
      HitsAre(chunks, key, order[..|order| - 1]);
      assert order == order[..|order| - 1] + [order[|order| - 1]];
    }
  }

  lemma {:induction false} HitsOrdered(chunks: seq<string>, key: string, order: seq<nat>)
    requires StoreOrder(order)
    ensures StoreOrder(Hits(chunks, key, order))
  {
    if order != [] {
      var n := |order| - 1;
      HitsOrdered(chunks, key, order[..n]);
      HitsAre(chunks, key, order[..n]);
      forall k | k in Hits(chunks, key, order[..n]) ensures k != order[n] && !Before(Decimal(order[n]), Decimal(k)) {
        var i :| 0 <= i < n && order[i] == k;
      }
    }
  }

  lemma {:induction false} HitsAscend(chunks: seq<string>, key: string, order: seq<nat>)
    requires Ascending(order)
    ensures Ascending(Hits(chunks, key, order))
  {
    if order != [] {
      var n := |order| - 1;
      var rest := Hits(chunks, key, order[..n]);
      HitsAscend(chunks, key, order[..n]);
      HitsAre(chunks, key, order[..n]);
      forall j | 0 <= j < |rest| ensures rest[j] < order[n] {
        assert rest[j] in rest;
        var i :| 0 <= i < n && order[i] == rest[j];
      }
    }
  }

  lemma {:induction false} ExpandIsBodies(chunks: seq<string>, key: string, order: seq<nat>)
    requires Below(order, |chunks|)
    ensures var hits := Hits(chunks, key, order); forall i :: 0 <= i < |hits| ==> Hit(chunks, key, hits[i])
    ensures Expand(Listing(chunks, order), key) == Bodies(chunks, key, Hits(chunks, key, order))
  {
    if order != [] {
      var n := |order| - 1;
      assert order == order[..n] + [order[n]];
      ExpandIsBodies(chunks, key, order[..n]);
      ExpandOneMore(chunks, key, order[..n], order[n]);
      BodiesOneMore(chunks, key, Hits(chunks, key, order[..n]), order[n]);
    }
  }

  lemma BodiesOneMore(chunks: seq<string>, key: string, hits: seq<nat>, k: nat)
    requires forall i :: 0 <= i < |hits| ==> Hit(chunks, key, hits[i])
    ensures Hit(chunks, key, k) ==> Bodies(chunks, key, hits + [k]) == Bodies(chunks, key, hits) + [BodyAt(chunks, key, k)]
  {
  }

  lemma ExpandOneMore(chunks: seq<string>, key: string, order: seq<nat>, k: nat)
    requires k < |chunks| && Below(order, |chunks|)
    ensures Expand(Listing(chunks, order + [k]), key) == Expand(Listing(chunks, order), key) + Matching(chunks[k], key)
    ensures Matching(chunks[k], key) == if Hit(chunks, key, k) then [BodyAt(chunks, key, k)] else []
  {
    assert Listing(chunks, order + [k]) == Listing(chunks, order) + [chunks[k]];
    FlatMapLast(Listing(chunks, order), chunks[k], chunk => Matching(chunk, key));
  }

  lemma {:induction false} AscendingUnique(a: seq<nat>, b: seq<nat>)
    requires Ascending(a) && Ascending(b) && forall k :: k in a <==> k in b
    ensures a == b
  {
    if a != [] && b != [] {
      var m, n := |a| - 1, |b| - 1;
      LastIsGreatest(a, b[n]);
      LastIsGreatest(b, a[m]);
      forall k: nat ensures k in a[..m] <==> k in b[..n] {
        LastAlone(a, k);
        LastAlone(b, k);
      }
      AscendingUnique(a[..m], b[..n]);
      assert a == a[..m] + [a[m]] && b == b[..n] + [b[n]];
    } else {
      if a != [] { AlsoSome(a, b); }
      if b != [] { AlsoSome(b, a); }
    }
  }

  lemma AlsoSome(a: seq<nat>, b: seq<nat>)
    requires a != [] && forall k :: k in a <==> k in b
    ensures b != []
  {
    assert a[0] in b;
  }

  lemma LastIsGreatest(a: seq<nat>, k: nat)
    requires Ascending(a) && k in a
    ensures k <= a[|a| - 1]
  {
  }

  lemma LastAlone(a: seq<nat>, k: nat)
    requires Ascending(a) && a != []
    ensures k in a[..|a| - 1] <==> k in a && k != a[|a| - 1]
  {
    assert a == a[..|a| - 1] + [a[|a| - 1]];
  }

  function Counting(n: nat): (s: seq<nat>)
    ensures |s| == n && forall i :: 0 <= i < n ==> s[i] == i
  {
    seq(n, i => i)
  }

  ghost predicate NoRepeats(s: seq<string>) {
    forall i, j :: 0 <= i < j < |s| ==> s[i] != s[j]
  }

  ghost predicate AllHit(chunks: seq<string>, key: string, hits: seq<nat>) {
    forall i :: 0 <= i < |hits| ==> Hit(chunks, key, hits[i])
  }

  /** The same hits in the same order give the same bodies; with no body twice, the
      same bodies come from the same order only. */
  lemma SameBodiesIff(chunks: seq<string>, key: string, a: seq<nat>, b: seq<nat>)
    requires AllHit(chunks, key, a) && AllHit(chunks, key, b) && StoreOrder(a) && Ascending(b)
    requires forall k :: k in a <==> k in b
    ensures NoInversion(a) ==> Bodies(chunks, key, a) == Bodies(chunks, key, b)
    ensures NoRepeats(Bodies(chunks, key, b)) && Bodies(chunks, key, a) == Bodies(chunks, key, b) ==> NoInversion(a)
  {
    AscendingIff(a);
    if Ascending(a) {
      AscendingUnique(a, b);
    } else if NoRepeats(Bodies(chunks, key, b)) && Bodies(chunks, key, a) == Bodies(chunks, key, b) {
      SameBodiesSameHits(chunks, key, a, b);
    }
  }

  lemma SameBodiesSameHits(chunks: seq<string>, key: string, a: seq<nat>, b: seq<nat>)
    requires AllHit(chunks, key, a) && AllHit(chunks, key, b) && forall k :: k in a <==> k in b
    requires NoRepeats(Bodies(chunks, key, b)) && Bodies(chunks, key, a) == Bodies(chunks, key, b)
    ensures a == b
  {
    assert |a| == |b| by { assert |Bodies(chunks, key, a)| == |Bodies(chunks, key, b)|; }
    forall i | 0 <= i < |a| ensures a[i] == b[i] {
      assert a[i] in b;
      var j :| 0 <= j < |b| && b[j] == a[i];
      assert Bodies(chunks, key, a)[i] == Bodies(chunks, key, b)[j] == Bodies(chunks, key, b)[i];
      assert i == j;
    }
  }

  /** No two chunks that carry the breadcrumb are listed against document order. */
  ghost predicate KeyInOrder(chunks: seq<string>, key: string) {
    forall m, n :: Hit(chunks, key, m) && Hit(chunks, key, n) && m < n ==> InOrder(m, n)
  }

  /** Expanding a key over the listing gives what document order would, exactly when
      its chunks are listed in document order; the one way in any case, the other when
      no two of its pieces are equal. */
  lemma ListingExpandsIff(chunks: seq<string>, key: string, order: seq<nat>)
    requires IsListing(order, |chunks|)
    ensures KeyInOrder(chunks, key) ==> Expand(Listing(chunks, order), key) == Expand(chunks, key)
    ensures NoRepeats(Expand(chunks, key)) && Expand(Listing(chunks, order), key) == Expand(chunks, key) ==> KeyInOrder(chunks, key)
  {
    var all := Counting(|chunks|);
    var a, b := Hits(chunks, key, order), Hits(chunks, key, all);
    CountingHolds(|chunks|);
    assert Listing(chunks, all) == chunks;
    ExpandIsBodies(chunks, key, order);
    ExpandIsBodies(chunks, key, all);
    AllHitsAre(chunks, key, order);
    AllHitsAre(chunks, key, all);
    HitsOrdered(chunks, key, order);
    HitsAscend(chunks, key, all);
    SameBodiesIff(chunks, key, a, b);
    KeyInOrderAs(chunks, key, a);
  }

  lemma AllHitsAre(chunks: seq<string>, key: string, order: seq<nat>)
    requires forall k: nat :: k < |chunks| ==> k in order
    ensures forall k: nat :: k in Hits(chunks, key, order) <==> Hit(chunks, key, k)
  {
    HitsAre(chunks, key, order);
  }

  lemma KeyInOrderAs(chunks: seq<string>, key: string, hits: seq<nat>)
    requires forall k: nat :: k in hits <==> Hit(chunks, key, k)
    ensures KeyInOrder(chunks, key) <==> NoInversion(hits)
  {
  }

  /** What ExpandSection returns on the store's listing of a document: exactly the
      untouched pieces of the sections with that breadcrumb, in order, if and (with no
      piece twice) only if their chunks are listed in document order. */
  lemma SectionExpandsIff(sections: seq<Section>, cfg: ChunkConfig, noisy: string -> bool, pieces: seq<seq<string>>,
                          path: seq<string>, order: seq<nat>, chunks: seq<string>, own: seq<string>)
    requires AllCut(sections, cfg, noisy, pieces) && Readable(path)
    requires forall i :: 0 <= i < |sections| ==> Expandable(sections[i], cfg)
    requires chunks == AllChunks(sections, cfg, pieces) && own == PiecesOf(sections, pieces, path) && IsListing(order, |chunks|)
    ensures KeyInOrder(chunks, SectionKey(Cleaned(path))) ==> Expand(Listing(chunks, order), SectionKey(Cleaned(path))) == own
    ensures NoRepeats(own) && Expand(Listing(chunks, order), SectionKey(Cleaned(path))) == own ==>
              KeyInOrder(chunks, SectionKey(Cleaned(path)))
  {
    ExpansionIsExact(sections, cfg, noisy, pieces, path);
    ListingExpandsIff(chunks, SectionKey(Cleaned(path)), order);
  }

  /** For a breadcrumb whose chunks are neighbours, from `lo` to `hi`, they are listed
      in order exactly when the two indices have equally many digits. */
  lemma KeyInOrderIff(chunks: seq<string>, key: string, lo: nat, hi: nat)
    requires lo <= hi && forall k: nat :: Hit(chunks, key, k) <==> lo <= k <= hi
    ensures KeyInOrder(chunks, key) <==> |Decimal(lo)| == |Decimal(hi)|
  {
    var order := Hits(chunks, key, Counting(|chunks|));
    CountingHolds(|chunks|);
    AllHitsAre(chunks, key, Counting(|chunks|));
    KeyInOrderAs(chunks, key, order);
    NeighboursIff(order, lo, hi);
  }

  lemma CountingHolds(n: nat)
    ensures forall k: nat :: k in Counting(n) <==> k < n
  {
    forall k: nat | k < n ensures k in Counting(n) { assert Counting(n)[k] == k; }
  }

  /** With ten chunks or fewer every section expands in order. */
  lemma TenChunksInOrder(chunks: seq<string>, key: string)
    requires |chunks| <= 10
    ensures KeyInOrder(chunks, key)
  {
  }

  /** The eleventh chunk is listed before the third. */
  lemma EleventhBeforeThird(chunks: seq<string>, key: string)
    requires Hit(chunks, key, 2) && Hit(chunks, key, 10)
    ensures !KeyInOrder(chunks, key)
  {
    assert Decimal(10) == ['1', '0'] && Leading(10, 1) == 1;
    assert !InOrder(2, 10);
  }
}
