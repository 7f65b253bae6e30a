/** Small graphs on which the multi-hop recall keeps neither a shortest chain nor,
    whatever the order of the rows, the path of the greatest contribution. */
module RecallExamples {
  import opened Common
  import opened Multihop

  /** One seed memory, hit with full score. */
  function SeedMemory(): map<string, real> {
    map["seed" := 1.0]
  }

  /** The seed memory's row touches `a` only. From `a` a weak row leads to `b`, and
      two strong ones lead there by way of `c`. */
  function Detour(a: Entity, b: Entity, c: Entity): seq<Triple> {
    [Triple(a, "is", a, "seed", 1.0), Triple(a, "near", b, "weak", 0.1), Triple(a, "on", c, "out", 1.0), Triple(c, "to", b, "back", 1.0)]
  }

  lemma OneSeed(triples: seq<Triple>, a: Entity, seeds: Scores)
    requires SeedsOf(seeds, triples, SeedMemory())
    requires exists t :: t in triples && t.memoryId == "seed"
    requires forall t :: t in triples && t.memoryId == "seed" ==> t.subj == a && t.obj == a
    ensures seeds == map[a := 1.0]
  {
    var memories := SeedMemory();
    var own :| own in triples && own.memoryId == "seed";
    assert Carries(triples, memories, own, a);
    assert SeedWorth(triples, memories, a, seeds[a]);
    forall e | e in seeds ensures e == a { assert SeedWorth(triples, memories, e, seeds[e]); }
  }

  /** The two-hop chain beats the direct, weak row: `b` is one hop from the seed and
      is reported with two. */
  lemma LongerChainWins(a: Entity, b: Entity, c: Entity, seeds: Scores, visited: Visits)
    requires a != b && b != c && a != c
    requires SeedsOf(seeds, Detour(a, b, c), SeedMemory()) && Exact(visited, seeds, Detour(a, b, c), 2)
    ensures ShortestLength(seeds, Detour(a, b, c), b, 1)
    ensures b in visited && visited[b].hops == 2
  {
    var triples := Detour(a, b, c);
    assert triples[0].memoryId == "seed" && triples[0] in triples;
    OneSeed(triples, a, seeds);
    var direct := Hop(Seed(a), triples[1], b);
    assert triples[1] in triples && Seed(a).Valid(seeds, triples);
    assert direct.Valid(seeds, triples) && direct.End() == b && direct.Len() == 1;
    var around := TwoHops(triples, seeds, a, c, b, triples[2], triples[3]);
    assert Within(visited, seeds, triples, around);
    forall w: Walk | w.Valid(seeds, triples) && w.End() == b
      ensures w.Len() >= 1
      ensures w.Len() == 1 ==> w.Score(seeds, triples) < 0.1
    {
      DirectScore(a, b, c, seeds, w);
    }
    assert Attained(seeds, triples, b, visited[b]);
    var best :| Attains(best, seeds, triples, b, visited[b]);
  }

  lemma DirectScore(a: Entity, b: Entity, c: Entity, seeds: Scores, w: Walk)
    requires a != b && b != c && a != c && seeds == map[a := 1.0]
    requires w.Valid(seeds, Detour(a, b, c)) && w.End() == b
    ensures w.Len() >= 1
    ensures w.Len() == 1 ==> w.Score(seeds, Detour(a, b, c)) < 0.1
  {
    if w.Hop? && w.Len() == 1 {
      assert w.before.Valid(seeds, Detour(a, b, c)) && w.before.Len() == 0;
      assert w.before == Seed(a) && w.before.Score(seeds, Detour(a, b, c)) == 1.0;
      assert w.triple == Detour(a, b, c)[1] && EffectiveWeight(w.triple) == 0.1;
      assert w.Score(seeds, Detour(a, b, c)) == w.before.Score(seeds, Detour(a, b, c)) * DAMPING * EffectiveWeight(w.triple);
    }
  }

  /** Two rows of full weight from a seed of full score. */
  lemma TwoHops(triples: seq<Triple>, seeds: Scores, a: Entity, c: Entity, f: Entity, x: Triple, y: Triple) returns (w: Walk)
    requires a in seeds && seeds[a] == 1.0 && x in triples && y in triples && x.weight == 1.0 && y.weight == 1.0
    requires Joins(x, a, c) && Joins(y, c, f)
    ensures w.Valid(seeds, triples) && w.End() == f && w.Len() == 2 && w.Score(seeds, triples) == 0.7225
  {
    var start := Seed(a);
    assert start.Valid(seeds, triples) && start.End() == a && start.Len() == 0 && start.Score(seeds, triples) == 1.0;
    var first := Hop(start, x, c);
    assert first.Valid(seeds, triples) && first.End() == c && first.Len() == 1;
    assert first.Score(seeds, triples) == start.Score(seeds, triples) * DAMPING * EffectiveWeight(x) == 0.85;
    w := Hop(first, y, f);
    assert w.Score(seeds, triples) == first.Score(seeds, triples) * DAMPING * EffectiveWeight(y);
  }

  // ------------------------------------------------------------ the row order

  /** The seed memory's row touches `a`; the memory asked about has one row at `a` and
      one at `f`, which two rows of other memories connect by way of `c`. */
  function Own(a: Entity): Triple {
    Triple(a, "is", a, "seed", 1.0)
  }

  function At(e: Entity): Triple {
    Triple(e, "is", e, "asked", 1.0)
  }

  function FirstHop(a: Entity, c: Entity): Triple {
    Triple(a, "on", c, "x", 1.0)
  }

  function SecondHop(c: Entity, f: Entity): Triple {
    Triple(c, "on", f, "y", 1.0)
  }

  ghost predicate Chain(rows: seq<Triple>, a: Entity, c: Entity, f: Entity) {
    && a != c && c != f && a != f
    && forall t :: t in rows <==> t == Own(a) || t == At(a) || t == At(f) || t == FirstHop(a, c) || t == SecondHop(c, f)
  }

  lemma OneHop(rows: seq<Triple>, a: Entity, c: Entity, f: Entity, seeds: Scores, w: Walk)
    requires Chain(rows, a, c, f) && seeds == map[a := 1.0] && w.Valid(seeds, rows) && w.Len() == 1
    ensures w.End() == a || (w.End() == c && w.Path() == [FirstHop(a, c)])
  {
    assert w.before.Seed? && w.before.entity == a;
  }

  lemma ToFar(rows: seq<Triple>, a: Entity, c: Entity, f: Entity, seeds: Scores, w: Walk)
    requires Chain(rows, a, c, f) && seeds == map[a := 1.0] && w.Valid(seeds, rows) && w.End() == f && w.Len() <= 2
    ensures w.Len() == 2 && w.Path() == [FirstHop(a, c), SecondHop(c, f)]
  {
    if w.Len() == 1 {
      OneHop(rows, a, c, f, seeds, w);
    } else if w.Len() == 2 {
      OneHop(rows, a, c, f, seeds, w.before);
    }
  }

  lemma FarVisit(rows: seq<Triple>, a: Entity, c: Entity, f: Entity, seeds: Scores, visited: Visits)
    requires Chain(rows, a, c, f) && seeds == map[a := 1.0] && Exact(visited, seeds, rows, 2)
    ensures f in visited && visited[f] == Visit(0.7225, 2, [FirstHop(a, c), SecondHop(c, f)])
  {
    var w := TwoHops(rows, seeds, a, c, f, FirstHop(a, c), SecondHop(c, f));
    assert Within(visited, seeds, rows, w);
    assert Attained(seeds, rows, f, visited[f]);
    var best :| Attains(best, seeds, rows, f, visited[f]);
    ToFar(rows, a, c, f, seeds, best);
    DampedAtLeast(best, seeds, rows);
    assert Power(2) == 0.7225 by { PowerTwo(); }
  }

  lemma PowerTwo()
    ensures Power(1) == 0.85 && Power(2) == 0.7225
  {
    assert Power(1) == Power(0) * DAMPING;
    assert Power(2) == Power(1) * DAMPING;
  }

  lemma SeedVisit(rows: seq<Triple>, a: Entity, c: Entity, f: Entity, seeds: Scores, visited: Visits)
    requires Chain(rows, a, c, f) && seeds == map[a := 1.0] && Exact(visited, seeds, rows, 2)
    ensures a in visited && visited[a] == Visit(1.0, 0, [])
  {
    assert Seed(a).Valid(seeds, rows) && Within(visited, seeds, rows, Seed(a));
    assert Attained(seeds, rows, a, visited[a]);
    var best :| Attains(best, seeds, rows, a, visited[a]);
    if best.Len() > 0 { BelowOne(best, seeds, rows); }
  }

  lemma BelowOne(w: Walk, seeds: Scores, rows: seq<Triple>)
    requires w.Valid(seeds, rows) && 1 <= w.Len() <= 2 && PositiveSeeds(seeds) && UnitScores(seeds, rows)
    ensures w.Score(seeds, rows) < 1.0
  {
    DampedAtLeast(w, seeds, rows);
    PowerTwo();
    if w.Len() == 1 { assert Power(w.Len()) == 0.85; } else { assert Power(w.Len()) == 0.7225; }
  }

  function Rows(a: Entity, c: Entity, f: Entity, t: Triple, u: Triple): seq<Triple> {
    [Own(a), t, u, FirstHop(a, c), SecondHop(c, f)]
  }

  /** A recall over these rows: the seeds of the one hit, and an exact walk of two hops. */
  ghost predicate Recall(rows: seq<Triple>, seeds: Scores, visited: Visits) {
    SeedsOf(seeds, rows, SeedMemory()) && Exact(visited, seeds, rows, 2)
  }

  lemma BothVisits(a: Entity, c: Entity, f: Entity, rows: seq<Triple>, seeds: Scores, visited: Visits)
    requires a != c && c != f && a != f && Recall(rows, seeds, visited)
    requires rows == Rows(a, c, f, At(a), At(f)) || rows == Rows(a, c, f, At(f), At(a))
    ensures a in visited && visited[a] == Visit(1.0, 0, [])
    ensures f in visited && visited[f] == Visit(0.7225, 2, [FirstHop(a, c), SecondHop(c, f)])
  {
    assert rows[0] in rows && rows[1] in rows && rows[2] in rows && rows[3] in rows && rows[4] in rows;
    assert rows[0].memoryId == "seed";
    OneSeed(rows, a, seeds);
    assert Chain(rows, a, c, f);
    FarVisit(rows, a, c, f, seeds, visited);
    SeedVisit(rows, a, c, f, seeds, visited);
  }

  /** The memory's two rows contribute 1.0 by the seed and 0.7225 by the chain. The one
      read last decides which path is reported. */
  lemma RowOrderDecidesPath(a: Entity, c: Entity, f: Entity, seeds: Scores, visited: Visits, otherSeeds: Scores, other: Visits)
    requires a != c && c != f && a != f
    requires Recall(Rows(a, c, f, At(a), At(f)), seeds, visited) && Recall(Rows(a, c, f, At(f), At(a)), otherSeeds, other)
    ensures AggregateOf(visited, Rows(a, c, f, At(a), At(f)), "asked") == Some(Agg(1.7225, [FirstHop(a, c), SecondHop(c, f)], 2))
    ensures AggregateOf(other, Rows(a, c, f, At(f), At(a)), "asked") == Some(Agg(1.7225, [], 0))
  {
    BothVisits(a, c, f, Rows(a, c, f, At(a), At(f)), seeds, visited);
    BothVisits(a, c, f, Rows(a, c, f, At(f), At(a)), otherSeeds, other);
    PowerTwo();
    AggregateFive(visited, Own(a), At(a), At(f), FirstHop(a, c), SecondHop(c, f), visited[a], visited[f]);
    AggregateFive(other, Own(a), At(f), At(a), FirstHop(a, c), SecondHop(c, f), other[f], other[a]);
  }

  lemma AggregateStep(visited: Visits, rows: seq<Triple>, t: Triple, id: string)
    ensures AggregateOf(visited, rows + [t], id) ==
            if Contributes(visited, t, id) then Some(Absorb(AggregateOf(visited, rows, id), BetterEnd(visited, t).value))
            else AggregateOf(visited, rows, id)
  {
    assert (rows + [t])[..|rows|] == rows;
  }

  lemma AggregateFive(visited: Visits, own: Triple, t: Triple, u: Triple, x: Triple, y: Triple, v: Visit, w: Visit)
    requires own.memoryId != "asked" && x.memoryId != "asked" && y.memoryId != "asked"
    requires Contributes(visited, t, "asked") && BetterEnd(visited, t).value == v
    requires Contributes(visited, u, "asked") && BetterEnd(visited, u).value == w
    ensures AggregateOf(visited, [own, t, u, x, y], "asked") == Some(Absorb(Some(Absorb(None, v)), w))
  {
    AggregateStep(visited, [], own, "asked");
    AggregateStep(visited, [own], t, "asked");
    AggregateStep(visited, [own, t], u, "asked");
    AggregateStep(visited, [own, t, u], x, "asked");
    AggregateStep(visited, [own, t, u, x], y, "asked");
    assert [] + [own] == [own] && [own] + [t] == [own, t] && [own, t] + [u] == [own, t, u];
    assert [own, t, u] + [x] == [own, t, u, x] && [own, t, u, x] + [y] == [own, t, u, x, y];
  }
}
