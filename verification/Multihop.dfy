/** Multi-hop graph recall: the level-snapshotted, frontier-restricted walk of
    internal/memory/multihop.go, proved against walks in the triple graph.

    A `Walk` is the independent notion the code never mentions: a seed entity
    followed by triples, each joining the entity reached so far to the next.
    The walk method is shown to return, for every entity, the best damped score
    over all walks within the hop bound, the fewest hops at which that score is
    attained, and a path that really attains it. */
module Multihop {
  import opened Common

  type Entity = string

  datatype Triple = Triple(subj: Entity, rel: string, obj: Entity, memoryId: string, weight: real)

  datatype Edge = Edge(target: Entity, weight: real, triple: Triple)

  datatype Visit = Visit(score: real, hops: nat, path: seq<Triple>)

  datatype Hit = Hit(memoryId: string, score: real)

  const DAMPING: real := 0.85
  const SEED_FLOOR: real := 0.5

  type Adjacency = map<Entity, seq<Edge>>
  type Scores = map<Entity, real>
  type Visits = map<Entity, Visit>

  // ---------------------------------------------------------------- walks

  datatype Walk = Seed(entity: Entity) | Hop(before: Walk, triple: Triple, to: Entity)
  {
    ghost function End(): Entity {
      if Seed? then entity else to
    }

    ghost function Len(): nat {
      if Seed? then 0 else before.Len() + 1
    }

    ghost function Path(): seq<Triple> {
      if Seed? then [] else before.Path() + [triple]
    }

    /** A walk of the graph: it starts at a seed and every triple is stored and
        touches both the entity before it and the entity after it. */
    ghost predicate Valid(seeds: Scores, triples: seq<Triple>) {
      match this
      case Seed(e) => e in seeds
      case Hop(b, t, to) => b.Valid(seeds, triples) && t in triples && Joins(t, b.End(), to)
    }

    /** The seed's score, damped once per hop and scaled by each weight. */
    ghost function Score(seeds: Scores, triples: seq<Triple>): real
      requires Valid(seeds, triples)
    {
      match this
      case Seed(e) => seeds[e]
      case Hop(b, t, _) => b.Score(seeds, triples) * DAMPING * EffectiveWeight(t)
    }
  }

  predicate Joins(t: Triple, a: Entity, b: Entity) {
    (t.subj == a && t.obj == b) || (t.obj == a && t.subj == b)
  }

  function EffectiveWeight(t: Triple): (w: real)
    ensures w > 0.0
  {
    if t.weight <= 0.0 then 1.0 else t.weight
  }

  ghost predicate PositiveSeeds(seeds: Scores) {
    forall e :: e in seeds ==> seeds[e] > 0.0
  }

  lemma ScaleOrder(a: real, b: real, w: real)
    requires w > 0.0
    ensures a <= b ==> a * DAMPING * w <= b * DAMPING * w
    ensures a < b ==> a * DAMPING * w < b * DAMPING * w
    ensures a > 0.0 ==> a * DAMPING * w > 0.0
  {
    var c := DAMPING * w;
    assert a * DAMPING * w == a * c && b * DAMPING * w == b * c;
    assert c > 0.0;
    if a < b { assert (b - a) * c > 0.0; }
  }

  // ------------------------------------------------- what the walk promises

  ghost predicate Attains(w: Walk, seeds: Scores, triples: seq<Triple>, v: Entity, visit: Visit) {
    w.Valid(seeds, triples) && w.End() == v && w.Len() == visit.hops && w.Path() == visit.path &&
    w.Score(seeds, triples) == visit.score
  }

  /** Every stored visit is attained by a walk of exactly its hop count. */
  ghost predicate Sound(visited: Visits, seeds: Scores, triples: seq<Triple>) {
    forall v :: v in visited ==> Attained(seeds, triples, v, visited[v])
  }

  ghost predicate Within(visited: Visits, seeds: Scores, triples: seq<Triple>, w: Walk)
    requires w.Valid(seeds, triples)
  {
    w.End() in visited && w.Score(seeds, triples) <= visited[w.End()].score
  }

  /** No walk of at most `bound` hops beats the stored score of its end. */
  ghost predicate Complete(visited: Visits, seeds: Scores, triples: seq<Triple>, bound: nat) {
    forall w: Walk :: w.Valid(seeds, triples) && w.Len() <= bound ==> Within(visited, seeds, triples, w)
  }

  /** A walk with fewer hops than the stored count has a strictly lower score. */
  ghost predicate FewestHops(visited: Visits, seeds: Scores, triples: seq<Triple>) {
    forall w: Walk :: w.Valid(seeds, triples) && w.End() in visited && w.Len() < visited[w.End()].hops ==>
      w.Score(seeds, triples) < visited[w.End()].score
  }

  /** The exact result of a walk bounded by `bound` hops. */
  ghost predicate Exact(visited: Visits, seeds: Scores, triples: seq<Triple>, bound: nat) {
    && Sound(visited, seeds, triples)
    && Complete(visited, seeds, triples, bound)
    && FewestHops(visited, seeds, triples)
    && forall v :: v in visited ==> visited[v].hops <= bound
  }

  // ------------------------------------------------------------- adjacency

  function EdgesOf(adj: Adjacency, e: Entity): seq<Edge> {
    if e in adj then adj[e] else []
  }

  ghost predicate EdgeFrom(triples: seq<Triple>, u: Entity, edge: Edge) {
    edge.triple in triples && Joins(edge.triple, u, edge.target) && edge.weight == EffectiveWeight(edge.triple)
  }

  /** `adj` lists exactly the ways a stored triple leads out of an entity. */
  ghost predicate AdjacencyOf(adj: Adjacency, triples: seq<Triple>) {
    forall u, edge :: edge in EdgesOf(adj, u) <==> EdgeFrom(triples, u, edge)
  }

  method BuildEntityAdjacency(triples: seq<Triple>) returns (adj: Adjacency)
    ensures AdjacencyOf(adj, triples)
  {
    adj := map[];
    for i := 0 to |triples|
      invariant AdjacencyOf(adj, triples[..i])
    {
      var t := triples[i];
      var w := EffectiveWeight(t);
      ghost var before := adj;
      adj := adj[t.subj := EdgesOf(adj, t.subj) + [Edge(t.obj, w, t)]];
      adj := adj[t.obj := EdgesOf(adj, t.obj) + [Edge(t.subj, w, t)]];
      forall u, edge
        ensures edge in EdgesOf(adj, u) <==> EdgeFrom(triples[..i + 1], u, edge)
      {
        assert triples[..i + 1] == triples[..i] + [t];
        assert edge in EdgesOf(before, u) <==> EdgeFrom(triples[..i], u, edge);
        assert edge in EdgesOf(adj, u) <==>
               edge in EdgesOf(before, u) || (u == t.subj && edge == Edge(t.obj, w, t))
                 || (u == t.obj && edge == Edge(t.subj, w, t));
      }
    }
    assert triples[..|triples|] == triples;
  }

  // ----------------------------------------------------------- seed scores

  function Clamp(s: real): real {
    if s < 0.0 then 0.0 else if s > 1.0 then 1.0 else s
  }

  function Boost(s: real): real {
    if s == 0.0 then SEED_FLOOR else s
  }

  predicate Touches(t: Triple, e: Entity) {
    t.subj == e || t.obj == e
  }

  /** The last hit on `id`, clamped to [0, 1]. */
  ghost predicate LastHit(hits: seq<Hit>, id: string, s: real) {
    exists i :: 0 <= i < |hits| && hits[i].memoryId == id && s == Clamp(hits[i].score)
      && forall j :: i < j < |hits| ==> hits[j].memoryId != id
  }

  ghost predicate MemoriesOf(scores: map<string, real>, hits: seq<Hit>) {
    && (forall i :: 0 <= i < |hits| ==> hits[i].memoryId in scores)
    && (forall id :: id in scores ==> LastHit(hits, id, scores[id]))
  }

  method SeedMemoryScores(hits: seq<Hit>) returns (scores: map<string, real>)
    ensures MemoriesOf(scores, hits)
  {
    scores := map[];
    for k := 0 to |hits|
      invariant MemoriesOf(scores, hits[..k])
    {
      ghost var before := scores;
      scores := scores[hits[k].memoryId := Clamp(hits[k].score)];
      forall id | id in scores ensures LastHit(hits[..k + 1], id, scores[id]) {
        if id == hits[k].memoryId {
          assert hits[..k + 1][k].memoryId == id;
        } else {
          assert LastHit(hits[..k], id, before[id]);
          var i :| 0 <= i < k && hits[i].memoryId == id && before[id] == Clamp(hits[i].score)
            && forall j :: i < j < k ==> hits[..k][j].memoryId != id;
          assert hits[..k + 1][i].memoryId == id;
        }
      }
    }
    assert hits[..|hits|] == hits;
  }

  /** `e` is worth `s`: some triple of a seed memory touching `e` carries boost
      `s`, and no such triple carries more. */
  ghost predicate SeedWorth(triples: seq<Triple>, memories: map<string, real>, e: Entity, s: real) {
    && (exists t :: Carries(triples, memories, t, e) && s == Boost(memories[t.memoryId]))
    && (forall t :: Carries(triples, memories, t, e) ==> Boost(memories[t.memoryId]) <= s)
  }

  ghost predicate Carries(triples: seq<Triple>, memories: map<string, real>, t: Triple, e: Entity) {
    t in triples && t.memoryId in memories && Touches(t, e)
  }

  ghost predicate SeedsOf(seeds: Scores, triples: seq<Triple>, memories: map<string, real>) {
    forall e :: if e in seeds then SeedWorth(triples, memories, e, seeds[e])
                else forall t :: !Carries(triples, memories, t, e)
  }

  function Raised(seeds: Scores, e: Entity, boost: real): Scores {
    var known := if e in seeds then seeds[e] else 0.0;
    seeds[e := if known > boost then known else boost]
  }

  method SeedEntities(triples: seq<Triple>, memories: map<string, real>) returns (seeds: Scores)
    requires forall id :: id in memories ==> 0.0 <= memories[id] <= 1.0
    ensures SeedsOf(seeds, triples, memories)
    ensures forall e :: e in seeds ==> 0.0 < seeds[e] <= 1.0
  {
    seeds := map[];
    for i := 0 to |triples|
      invariant SeedsOf(seeds, triples[..i], memories)
      invariant forall e :: e in seeds ==> 0.0 < seeds[e] <= 1.0
    {
      var t := triples[i];
      ghost var before := seeds;
      if t.memoryId in memories {
        var boost := Boost(memories[t.memoryId]);
        seeds := Raised(Raised(seeds, t.subj, boost), t.obj, boost);
      }
      SeedsExtend(before, triples[..i], t, memories, seeds);
      assert triples[..i + 1] == triples[..i] + [t];
    }
    assert triples[..|triples|] == triples;
  }

  lemma SeedsExtend(before: Scores, seen: seq<Triple>, t: Triple, memories: map<string, real>, after: Scores)
    requires SeedsOf(before, seen, memories)
    requires forall id :: id in memories ==> 0.0 <= memories[id] <= 1.0
    requires after == if t.memoryId !in memories then before
                      else Raised(Raised(before, t.subj, Boost(memories[t.memoryId])), t.obj, Boost(memories[t.memoryId]))
    ensures SeedsOf(after, seen + [t], memories)
  {
    forall e
      ensures if e in after then SeedWorth(seen + [t], memories, e, after[e])
              else forall u :: !Carries(seen + [t], memories, u, e)
    {
      assert forall u :: Carries(seen + [t], memories, u, e) <==>
                         Carries(seen, memories, u, e) || (u == t && t.memoryId in memories && Touches(t, e));
      if e in before {
        assert SeedWorth(seen, memories, e, before[e]);
        var u :| Carries(seen, memories, u, e) && before[e] == Boost(memories[u.memoryId]);
        assert Carries(seen + [t], memories, u, e);
      }
      if e in after && !(e in before && after[e] == before[e]) {
        assert Carries(seen + [t], memories, t, e);
      }
    }
  }

  // -------------------------------------------------------------- the walk

  ghost predicate Relaxed(visited: Visits, score: real, edge: Edge) {
    edge.target in visited && visited[edge.target].score >= score * DAMPING * edge.weight
  }

  /** Entities outside the frontier have nothing left to offer a neighbour. */
  ghost predicate Settled(visited: Visits, adj: Adjacency, frontier: set<Entity>) {
    forall u, edge :: u in visited && u !in frontier && edge in EdgesOf(adj, u) ==>
      Relaxed(visited, visited[u].score, edge)
  }

  ghost predicate LevelInvariant(visited: Visits, frontier: set<Entity>, adj: Adjacency, seeds: Scores,
                                 triples: seq<Triple>, hop: nat)
  {
    && Exact(visited, seeds, triples, hop)
    && Settled(visited, adj, frontier)
    && frontier <= visited.Keys
    && forall u :: u in frontier ==> visited[u].hops == hop
  }

  /** What a level needs of its frontier: entities improved at this very hop. */
  ghost predicate FrontierReady(snap: Visits, frontier: set<Entity>, seeds: Scores, triples: seq<Triple>, hop: nat) {
    forall u :: u in frontier ==> u in snap && snap[u].hops == hop && Attained(seeds, triples, u, snap[u])
  }

  ghost predicate Attained(seeds: Scores, triples: seq<Triple>, v: Entity, visit: Visit) {
    exists w :: Attains(w, seeds, triples, v, visit)
  }

  /** A visit written at this level: one hop longer, and strictly better than
      whatever the entity held at level entry. */
  ghost predicate Improvement(visit: Visit, snap: Visits, seeds: Scores, triples: seq<Triple>, hop: nat, v: Entity) {
    && visit.hops == hop + 1
    && (v in snap ==> visit.score > snap[v].score)
    && Attained(seeds, triples, v, visit)
  }

  /** Mid-level: `visited` differs from the level-entry snapshot only on `next`. */
  ghost predicate Improves(visited: Visits, snap: Visits, next: set<Entity>, seeds: Scores, triples: seq<Triple>, hop: nat) {
    && snap.Keys + next == visited.Keys
    && forall v :: v in visited ==>
         if v in next then Improvement(visited[v], snap, seeds, triples, hop, v) else visited[v] == snap[v]
  }

  /** Scores only go up. */
  ghost predicate Raises(after: Visits, before: Visits) {
    forall v :: v in before ==> v in after && after[v].score >= before[v].score
  }

  ghost predicate AllRelaxed(visited: Visits, score: real, edges: seq<Edge>) {
    forall edge :: edge in edges ==> Relaxed(visited, score, edge)
  }

  ghost predicate Expanded(visited: Visits, snap: Visits, adj: Adjacency, done: set<Entity>) {
    forall u :: u in done ==> u in snap && AllRelaxed(visited, snap[u].score, EdgesOf(adj, u))
  }

  /** One level: propagate every frontier entity's level-entry score and path. */
  method WalkLevel(adj: Adjacency, snap: Visits, frontier: set<Entity>, hop: nat,
                   ghost seeds: Scores, ghost triples: seq<Triple>)
    returns (visited: Visits, next: set<Entity>)
    requires AdjacencyOf(adj, triples) && PositiveSeeds(seeds)
    requires FrontierReady(snap, frontier, seeds, triples, hop)
    ensures Improves(visited, snap, next, seeds, triples, hop)
    ensures Expanded(visited, snap, adj, frontier)
  {
    visited, next := snap, {};
    var todo := frontier;
    while todo != {}
      invariant todo <= frontier
      invariant Improves(visited, snap, next, seeds, triples, hop)
      invariant Expanded(visited, snap, adj, frontier - todo)
    {
      var entity :| entity in todo;
      ghost var before := visited;
      visited, next := WalkEdges(adj, snap, visited, next, frontier, hop, entity, seeds, triples);
      StayExpanded(visited, before, snap, adj, frontier - todo);
      todo := todo - {entity};
    }
    assert frontier - todo == frontier;
  }

  /** The inner loop: offer one entity's level-entry score to its neighbours. */
  method WalkEdges(adj: Adjacency, snap: Visits, visited0: Visits, next0: set<Entity>, ghost frontier: set<Entity>,
                   hop: nat, entity: Entity, ghost seeds: Scores, ghost triples: seq<Triple>)
    returns (visited: Visits, next: set<Entity>)
    requires AdjacencyOf(adj, triples) && PositiveSeeds(seeds)
    requires FrontierReady(snap, frontier, seeds, triples, hop) && entity in frontier
    requires Improves(visited0, snap, next0, seeds, triples, hop)
    ensures Improves(visited, snap, next, seeds, triples, hop)
    ensures Raises(visited, visited0)
    ensures AllRelaxed(visited, snap[entity].score, EdgesOf(adj, entity))
  {
    visited, next := visited0, next0;
    var edges := EdgesOf(adj, entity);
    for i := 0 to |edges|
      invariant Improves(visited, snap, next, seeds, triples, hop)
      invariant Raises(visited, visited0)
      invariant AllRelaxed(visited, snap[entity].score, edges[..i])
    {
      ghost var before := visited;
      assert edges[i] in edges;
      visited, next := OfferEdge(adj, snap, visited, next, frontier, hop, entity, edges[i], seeds, triples);
      OfferTaken(before, visited, visited0, snap[entity].score, edges, i);
    }
    assert edges[..|edges|] == edges;
  }

  /** The body of the inner loop for one edge. */
  method OfferEdge(adj: Adjacency, snap: Visits, visited0: Visits, next0: set<Entity>, ghost frontier: set<Entity>,
                   hop: nat, entity: Entity, edge: Edge, ghost seeds: Scores, ghost triples: seq<Triple>)
    returns (visited: Visits, next: set<Entity>)
    requires AdjacencyOf(adj, triples) && PositiveSeeds(seeds)
    requires FrontierReady(snap, frontier, seeds, triples, hop) && entity in frontier && edge in EdgesOf(adj, entity)
    requires Improves(visited0, snap, next0, seeds, triples, hop)
    ensures Improves(visited, snap, next, seeds, triples, hop)
    ensures Raises(visited, visited0)
    ensures Relaxed(visited, snap[entity].score, edge)
  {
    visited, next := visited0, next0;
    PositiveStep(snap, frontier, adj, seeds, triples, hop, entity, edge);
    var newScore := snap[entity].score * DAMPING * edge.weight;
    if newScore <= 0.0 {
      return;
    }
    if edge.target in visited && visited[edge.target].score >= newScore {
      return;
    }
    var visit := Visit(newScore, hop + 1, snap[entity].path + [edge.triple]);
    ImproveOne(visited, snap, next, frontier, adj, seeds, triples, hop, entity, edge, visit);
    visited, next := visited[edge.target := visit], next + {edge.target};
  }

  lemma OfferTaken(before: Visits, after: Visits, start: Visits, score: real, edges: seq<Edge>, i: nat)
    requires i < |edges|
    requires Raises(before, start) && AllRelaxed(before, score, edges[..i])
    requires Raises(after, before) && Relaxed(after, score, edges[i])
    ensures Raises(after, start) && AllRelaxed(after, score, edges[..i + 1])
  {
    assert edges[..i + 1] == edges[..i] + [edges[i]];
    forall edge | edge in edges[..i + 1] ensures Relaxed(after, score, edge) {
      assert edge == edges[i] || Relaxed(before, score, edge);
    }
  }

  lemma StayExpanded(after: Visits, before: Visits, snap: Visits, adj: Adjacency, done: set<Entity>)
    requires Raises(after, before) && Expanded(before, snap, adj, done)
    ensures Expanded(after, snap, adj, done)
  {
    forall u | u in done ensures AllRelaxed(after, snap[u].score, EdgesOf(adj, u)) {
      assert AllRelaxed(before, snap[u].score, EdgesOf(adj, u));
      assert forall edge :: edge in EdgesOf(adj, u) ==> Relaxed(before, snap[u].score, edge);
    }
  }

  lemma PositiveStep(snap: Visits, frontier: set<Entity>, adj: Adjacency, seeds: Scores, triples: seq<Triple>,
                     hop: nat, u: Entity, edge: Edge)
    requires AdjacencyOf(adj, triples) && PositiveSeeds(seeds)
    requires FrontierReady(snap, frontier, seeds, triples, hop)
    requires u in frontier && edge in EdgesOf(adj, u)
    ensures snap[u].score * DAMPING * edge.weight > 0.0
    ensures EdgeFrom(triples, u, edge)
  {
    assert Attained(seeds, triples, u, snap[u]);
    var w :| Attains(w, seeds, triples, u, snap[u]);
    ScoresArePositive(w, seeds, triples);
    ScaleOrder(snap[u].score, snap[u].score, edge.weight);
  }

  lemma ImproveOne(visited: Visits, snap: Visits, next: set<Entity>, frontier: set<Entity>, adj: Adjacency, seeds: Scores,
                   triples: seq<Triple>, hop: nat, u: Entity, edge: Edge, visit: Visit)
    requires FrontierReady(snap, frontier, seeds, triples, hop)
    requires Improves(visited, snap, next, seeds, triples, hop)
    requires u in frontier && EdgeFrom(triples, u, edge)
    requires visit == Visit(snap[u].score * DAMPING * edge.weight, hop + 1, snap[u].path + [edge.triple])
    requires edge.target in visited ==> visited[edge.target].score < visit.score
    ensures Improves(visited[edge.target := visit], snap, next + {edge.target}, seeds, triples, hop)
  {
    ExtendWalk(seeds, triples, u, snap[u], edge, visit);
  }

  lemma ExtendWalk(seeds: Scores, triples: seq<Triple>, u: Entity, visit: Visit, edge: Edge, longer: Visit)
    requires Attained(seeds, triples, u, visit) && EdgeFrom(triples, u, edge)
    requires longer == Visit(visit.score * DAMPING * edge.weight, visit.hops + 1, visit.path + [edge.triple])
    ensures Attained(seeds, triples, edge.target, longer)
  {
    var w :| Attains(w, seeds, triples, u, visit);
    assert Attains(Hop(w, edge.triple, edge.target), seeds, triples, edge.target, longer);
  }

  lemma ScoresArePositive(w: Walk, seeds: Scores, triples: seq<Triple>)
    requires w.Valid(seeds, triples) && PositiveSeeds(seeds)
    ensures w.Score(seeds, triples) > 0.0
  {
    if w.Hop? {
      ScoresArePositive(w.before, seeds, triples);
      ScaleOrder(w.before.Score(seeds, triples), 0.0, EffectiveWeight(w.triple));
    }
  }

  // -------------------------------------------- what one level establishes

  /** The facts a finished level hands to the next one. */
  ghost predicate LevelDone(visited: Visits, snap: Visits, frontier: set<Entity>, next: set<Entity>, adj: Adjacency,
                            seeds: Scores, triples: seq<Triple>, hop: nat)
  {
    && AdjacencyOf(adj, triples)
    && LevelInvariant(snap, frontier, adj, seeds, triples, hop)
    && Improves(visited, snap, next, seeds, triples, hop)
    && Expanded(visited, snap, adj, frontier)
  }

  /** The heart of the frontier restriction: although only entities improved at
      the previous level are expanded, every walk one hop longer is covered. */
  lemma LevelCovers(visited: Visits, snap: Visits, frontier: set<Entity>, next: set<Entity>, adj: Adjacency,
                    seeds: Scores, triples: seq<Triple>, hop: nat, w: Walk)
    requires LevelDone(visited, snap, frontier, next, adj, seeds, triples, hop)
    requires w.Valid(seeds, triples) && w.Len() <= hop + 1
    ensures Within(visited, seeds, triples, w)
  {
    if w.Len() <= hop {
      assert Within(snap, seeds, triples, w);
    } else {
      assert Within(snap, seeds, triples, w.before);
      LevelRelaxes(visited, snap, frontier, next, adj, seeds, triples, hop, w.before.End(), LastEdge(w));
      RelaxedCovers(visited, adj, seeds, triples, w, snap[w.before.End()].score);
    }
  }

  ghost function LastEdge(w: Walk): Edge
    requires w.Hop?
  {
    Edge(w.to, EffectiveWeight(w.triple), w.triple)
  }

  lemma LevelRelaxes(visited: Visits, snap: Visits, frontier: set<Entity>, next: set<Entity>, adj: Adjacency,
                     seeds: Scores, triples: seq<Triple>, hop: nat, u: Entity, edge: Edge)
    requires LevelDone(visited, snap, frontier, next, adj, seeds, triples, hop)
    requires u in snap
    ensures edge in EdgesOf(adj, u) ==> Relaxed(visited, snap[u].score, edge)
  {
    if edge in EdgesOf(adj, u) {
      if u in frontier {
        assert AllRelaxed(visited, snap[u].score, EdgesOf(adj, u));
      } else {
        assert Relaxed(snap, snap[u].score, edge);
      }
    }
  }

  /** A walk is covered once its last step was offered the score of its rest. */
  lemma RelaxedCovers(visited: Visits, adj: Adjacency, seeds: Scores, triples: seq<Triple>, w: Walk, score: real)
    requires AdjacencyOf(adj, triples) && w.Valid(seeds, triples) && w.Hop?
    requires w.before.Score(seeds, triples) <= score
    requires LastEdge(w) in EdgesOf(adj, w.before.End()) ==> Relaxed(visited, score, LastEdge(w))
    ensures Within(visited, seeds, triples, w)
  {
    assert EdgeFrom(triples, w.before.End(), LastEdge(w));
    ScaleOrder(w.before.Score(seeds, triples), score, EffectiveWeight(w.triple));
  }

  lemma LevelFewest(visited: Visits, snap: Visits, frontier: set<Entity>, next: set<Entity>, adj: Adjacency,
                    seeds: Scores, triples: seq<Triple>, hop: nat, w: Walk)
    requires LevelDone(visited, snap, frontier, next, adj, seeds, triples, hop)
    requires w.Valid(seeds, triples) && w.End() in visited && w.Len() < visited[w.End()].hops
    ensures w.Score(seeds, triples) < visited[w.End()].score
  {
    if w.End() in next {
      assert Improvement(visited[w.End()], snap, seeds, triples, hop, w.End());
      assert Within(snap, seeds, triples, w);
    }
  }

  lemma LevelSettles(visited: Visits, snap: Visits, frontier: set<Entity>, next: set<Entity>, adj: Adjacency,
                     seeds: Scores, triples: seq<Triple>, hop: nat)
    requires LevelDone(visited, snap, frontier, next, adj, seeds, triples, hop)
    ensures Settled(visited, adj, next)
  {
    forall u, edge | u in visited && u !in next && edge in EdgesOf(adj, u)
      ensures Relaxed(visited, visited[u].score, edge)
    {
      LevelRelaxes(visited, snap, frontier, next, adj, seeds, triples, hop, u, edge);
    }
  }

  lemma LevelAdvances(visited: Visits, snap: Visits, frontier: set<Entity>, next: set<Entity>, adj: Adjacency,
                      seeds: Scores, triples: seq<Triple>, hop: nat)
    requires LevelDone(visited, snap, frontier, next, adj, seeds, triples, hop)
    ensures LevelInvariant(visited, next, adj, seeds, triples, hop + 1)
  {
    forall w: Walk | w.Valid(seeds, triples) && w.Len() <= hop + 1 ensures Within(visited, seeds, triples, w) {
      LevelCovers(visited, snap, frontier, next, adj, seeds, triples, hop, w);
    }
    forall w: Walk | w.Valid(seeds, triples) && w.End() in visited && w.Len() < visited[w.End()].hops
      ensures w.Score(seeds, triples) < visited[w.End()].score
    {
      LevelFewest(visited, snap, frontier, next, adj, seeds, triples, hop, w);
    }
    LevelSettles(visited, snap, frontier, next, adj, seeds, triples, hop);
    forall v | v in visited ensures Attained(seeds, triples, v, visited[v]) && visited[v].hops <= hop + 1 {
      if v in next { assert Improvement(visited[v], snap, seeds, triples, hop, v); }
    }
  }

  /** Once a level improves nothing, no longer walk can improve anything. */
  lemma {:induction false} Exhausted(visited: Visits, adj: Adjacency, seeds: Scores, triples: seq<Triple>, hop: nat, w: Walk)
    requires AdjacencyOf(adj, triples) && LevelInvariant(visited, {}, adj, seeds, triples, hop)
    requires w.Valid(seeds, triples)
    ensures Within(visited, seeds, triples, w)
  {
    if w.Hop? {
      Exhausted(visited, adj, seeds, triples, hop, w.before);
      RelaxedCovers(visited, adj, seeds, triples, w, visited[w.before.End()].score);
    } else {
      assert w.Len() <= hop;
    }
  }

  /** The whole walk of RecallMultihop, step 3. */
  method WalkGraph(triples: seq<Triple>, seeds: Scores, maxHops: nat) returns (visited: Visits)
    requires PositiveSeeds(seeds)
    ensures Exact(visited, seeds, triples, maxHops)
  {
    var adj := BuildEntityAdjacency(triples);
    visited := map e | e in seeds :: Visit(seeds[e], 0, []);
    var frontier := seeds.Keys;
    StartLevel(visited, adj, seeds, triples);
    var hop := 0;
    while hop < maxHops
      invariant 0 <= hop <= maxHops
      invariant LevelInvariant(visited, frontier, adj, seeds, triples, hop)
    {
      var snap := visited;
      var next: set<Entity>;
      FrontierIsReady(snap, frontier, adj, seeds, triples, hop);
      visited, next := WalkLevel(adj, snap, frontier, hop, seeds, triples);
      LevelAdvances(visited, snap, frontier, next, adj, seeds, triples, hop);
      if next == {} {
        StaysExact(visited, adj, seeds, triples, hop + 1, maxHops);
        return;
      }
      frontier, hop := next, hop + 1;
    }
  }

  function AtStart(seeds: Scores): Visits {
    map e | e in seeds :: Visit(seeds[e], 0, [])
  }

  lemma StartLevel(visited: Visits, adj: Adjacency, seeds: Scores, triples: seq<Triple>)
    requires visited == AtStart(seeds)
    ensures LevelInvariant(visited, seeds.Keys, adj, seeds, triples, 0)
  {
    forall v | v in visited ensures Attained(seeds, triples, v, visited[v]) {
      assert Attains(Seed(v), seeds, triples, v, visited[v]);
    }
    forall w: Walk | w.Valid(seeds, triples) && w.Len() <= 0 ensures Within(visited, seeds, triples, w) {
      assert w.Seed?;
    }
  }

  lemma FrontierIsReady(snap: Visits, frontier: set<Entity>, adj: Adjacency, seeds: Scores, triples: seq<Triple>, hop: nat)
    requires LevelInvariant(snap, frontier, adj, seeds, triples, hop)
    ensures FrontierReady(snap, frontier, seeds, triples, hop)
  {
  }

  lemma StaysExact(visited: Visits, adj: Adjacency, seeds: Scores, triples: seq<Triple>, hop: nat, maxHops: nat)
    requires AdjacencyOf(adj, triples) && LevelInvariant(visited, {}, adj, seeds, triples, hop) && hop <= maxHops
    ensures Exact(visited, seeds, triples, maxHops)
  {
    forall w: Walk | w.Valid(seeds, triples) && w.Len() <= maxHops ensures Within(visited, seeds, triples, w) {
      Exhausted(visited, adj, seeds, triples, hop, w);
    }
  }

  // ------------------------------------------------------- what Exact means

  /** The result does not depend on the order in which maps are iterated: any
      two exact results reach the same entities with the same scores and hops. */
  lemma OrderIndependent(a: Visits, b: Visits, seeds: Scores, triples: seq<Triple>, bound: nat)
    requires Exact(a, seeds, triples, bound) && Exact(b, seeds, triples, bound)
    ensures a.Keys == b.Keys
    ensures forall v :: v in a ==> a[v].score == b[v].score && a[v].hops == b[v].hops
  {
    forall v | v in a ensures v in b && a[v].score <= b[v].score { Dominated(a, b, seeds, triples, bound, v); }
    forall v | v in b ensures v in a && b[v].score <= a[v].score { Dominated(b, a, seeds, triples, bound, v); }
    forall v | v in a ensures a[v].hops == b[v].hops {
      NoFewerHops(a, b, seeds, triples, v);
      NoFewerHops(b, a, seeds, triples, v);
    }
  }

  lemma Dominated(a: Visits, b: Visits, seeds: Scores, triples: seq<Triple>, bound: nat, v: Entity)
    requires Exact(a, seeds, triples, bound) && Exact(b, seeds, triples, bound) && v in a
    ensures v in b && a[v].score <= b[v].score
  {
    var w :| Attains(w, seeds, triples, v, a[v]);
    assert Within(b, seeds, triples, w);
  }

  lemma NoFewerHops(a: Visits, b: Visits, seeds: Scores, triples: seq<Triple>, v: Entity)
    requires Sound(a, seeds, triples) && FewestHops(b, seeds, triples)
    requires v in a && v in b && a[v].score == b[v].score
    ensures b[v].hops <= a[v].hops
  {
    assert Attained(seeds, triples, v, a[v]);
    var w :| Attains(w, seeds, triples, v, a[v]);
    assert !(w.Len() < b[v].hops);
  }

  /** An entity is reported exactly when some walk within the bound reaches it,
      and its score is then the greatest score of any such walk. */
  lemma ReachedExactly(visited: Visits, seeds: Scores, triples: seq<Triple>, bound: nat, v: Entity)
    requires Exact(visited, seeds, triples, bound)
    ensures v in visited <==> exists w: Walk :: w.Valid(seeds, triples) && w.Len() <= bound && w.End() == v
    ensures v in visited ==>
              (exists w: Walk :: w.Valid(seeds, triples) && w.Len() <= bound && w.End() == v
                 && w.Score(seeds, triples) == visited[v].score)
  {
    if v in visited {
      assert Attained(seeds, triples, v, visited[v]);
      var w :| Attains(w, seeds, triples, v, visited[v]);
    } else if w: Walk :| w.Valid(seeds, triples) && w.Len() <= bound && w.End() == v {
      assert Within(visited, seeds, triples, w);
    }
  }

  /** `d` is the length of the shortest chain from a seed to `v`. */
  ghost predicate ShortestLength(seeds: Scores, triples: seq<Triple>, v: Entity, d: nat) {
    && (exists w: Walk :: w.Valid(seeds, triples) && w.End() == v && w.Len() == d)
    && (forall w: Walk :: w.Valid(seeds, triples) && w.End() == v ==> w.Len() >= d)
  }

  /** No chain to `v` within the bound scores better than `s` does. */
  ghost predicate BestChain(s: Walk, seeds: Scores, triples: seq<Triple>, v: Entity, bound: nat) {
    && s.Valid(seeds, triples) && s.End() == v
    && forall w: Walk :: w.Valid(seeds, triples) && w.End() == v && w.Len() <= bound ==> w.Score(seeds, triples) <= s.Score(seeds, triples)
  }

  /** The stored chain is the best-scoring one, which need not be a shortest one.
      It is, exactly when some shortest chain scores as well as any other. */
  lemma ShortestChainIff(visited: Visits, seeds: Scores, triples: seq<Triple>, v: Entity, d: nat, bound: nat)
    requires Exact(visited, seeds, triples, bound) && d <= bound && ShortestLength(seeds, triples, v, d)
    ensures v in visited
    ensures visited[v].hops == d <==> exists s: Walk :: BestChain(s, seeds, triples, v, bound) && s.Len() == d
  {
    var shortest: Walk :| shortest.Valid(seeds, triples) && shortest.End() == v && shortest.Len() == d;
    assert Within(visited, seeds, triples, shortest);
    assert Attained(seeds, triples, v, visited[v]);
    var stored :| Attains(stored, seeds, triples, v, visited[v]);
    assert BestChain(stored, seeds, triples, v, bound) by {
      forall w: Walk | w.Valid(seeds, triples) && w.End() == v && w.Len() <= bound
        ensures w.Score(seeds, triples) <= stored.Score(seeds, triples)
      {
        assert Within(visited, seeds, triples, w);
      }
    }
    if s: Walk :| BestChain(s, seeds, triples, v, bound) && s.Len() == d {
      assert stored.Len() >= d;
      assert stored.Score(seeds, triples) <= s.Score(seeds, triples);
    }
  }

  // ----------------------------------------------------------- aggregation

  datatype Agg = Agg(score: real, path: seq<Triple>, hops: nat)

  /** The better of the two ends of a triple; the subject wins a tie. */
  function BetterEnd(visited: Visits, t: Triple): Option<Visit> {
    if t.subj in visited && (t.obj !in visited || visited[t.subj].score >= visited[t.obj].score) then Some(visited[t.subj])
    else if t.obj in visited then Some(visited[t.obj])
    else None
  }

  function Power(hops: nat): real {
    if hops == 0 then 1.0 else Power(hops - 1) * DAMPING
  }

  /** peakScoreOfPath: a proxy for a path's strength, by its length alone. */
  function PeakScore(path: seq<Triple>, hops: nat): real {
    if path == [] then 1.0 else Power(hops)
  }

  function Absorb(agg: Option<Agg>, visit: Visit): Agg {
    var known := if agg.Some? then agg.value else Agg(0.0, [], 0);
    var total := known.score + visit.score;
    if known.path == [] || visit.score > PeakScore(known.path, known.hops) then Agg(total, visit.path, visit.hops)
    else Agg(total, known.path, known.hops)
  }

  function AggregateOf(visited: Visits, triples: seq<Triple>, id: string): Option<Agg> {
    if triples == [] then None
    else
      var rest := AggregateOf(visited, triples[..|triples| - 1], id);
      var t := triples[|triples| - 1];
      if Contributes(visited, t, id) then Some(Absorb(rest, BetterEnd(visited, t).value)) else rest
  }

  predicate Contributes(visited: Visits, t: Triple, id: string) {
    t.memoryId == id && BetterEnd(visited, t).Some? && BetterEnd(visited, t).value.score > 0.0
  }

  method AggregateMemories(visited: Visits, triples: seq<Triple>) returns (perMemory: map<string, Agg>)
    ensures forall id :: if id in perMemory then AggregateOf(visited, triples, id) == Some(perMemory[id])
                         else AggregateOf(visited, triples, id) == None
  {
    perMemory := map[];
    for i := 0 to |triples|
      invariant forall id :: if id in perMemory then AggregateOf(visited, triples[..i], id) == Some(perMemory[id])
                             else AggregateOf(visited, triples[..i], id) == None
    {
      var t := triples[i];
      assert triples[..i + 1][..i] == triples[..i];
      var end := BetterEnd(visited, t);
      if end.None? || end.value.score <= 0.0 {
        continue;
      }
      assert Contributes(visited, t, t.memoryId);
      var agg := if t.memoryId in perMemory then Some(perMemory[t.memoryId]) else None;
      perMemory := perMemory[t.memoryId := Absorb(agg, end.value)];
    }
    assert triples[..|triples|] == triples;
  }

  /** What a triple is worth: the greater score of its visited ends. */
  ghost function Worth(visited: Visits, t: Triple): real {
    var s := if t.subj in visited then visited[t.subj].score else 0.0;
    var o := if t.obj in visited then visited[t.obj].score else 0.0;
    if s > o then s else o
  }

  ghost function TotalWorth(visited: Visits, triples: seq<Triple>, id: string): real {
    if triples == [] then 0.0
    else TotalWorth(visited, triples[..|triples| - 1], id)
         + if triples[|triples| - 1].memoryId == id then Worth(visited, triples[|triples| - 1]) else 0.0
  }

  /** A reported path and hop count belong to a visited end of a triple of that
      very memory. */
  ghost predicate PathFrom(visited: Visits, triples: seq<Triple>, id: string, path: seq<Triple>, hops: nat) {
    exists t, v :: t in triples && t.memoryId == id && Touches(t, v) && v in visited
      && visited[v].path == path && visited[v].hops == hops
  }

  /** A memory scores the sum of what its triples are worth, counting each triple
      once; it is absent exactly when none of its ends was reached. */
  lemma {:induction false} AggregateScores(visited: Visits, triples: seq<Triple>, id: string)
    requires forall v :: v in visited ==> visited[v].score > 0.0
    ensures AggregateOf(visited, triples, id).None? <==>
            forall t, v :: t in triples && t.memoryId == id && Touches(t, v) ==> v !in visited
    ensures AggregateOf(visited, triples, id).Some? ==>
              AggregateOf(visited, triples, id).value.score == TotalWorth(visited, triples, id)
    ensures AggregateOf(visited, triples, id).None? ==> TotalWorth(visited, triples, id) == 0.0
  {
    if triples != [] {
      var n := |triples| - 1;
      AggregateScores(visited, triples[..n], id);
      assert triples == triples[..n] + [triples[n]];
      assert Touches(triples[n], triples[n].subj) && Touches(triples[n], triples[n].obj);
    }
  }

  lemma {:induction false} AggregatePath(visited: Visits, triples: seq<Triple>, id: string)
    requires AggregateOf(visited, triples, id).Some?
    ensures var agg := AggregateOf(visited, triples, id).value; PathFrom(visited, triples, id, agg.path, agg.hops)
  {
    var n := |triples| - 1;
    var t := triples[n];
    var rest := AggregateOf(visited, triples[..n], id);
    var agg := AggregateOf(visited, triples, id).value;
    if rest.Some? { AggregatePath(visited, triples[..n], id); }
    if rest.Some? && agg.path == rest.value.path && agg.hops == rest.value.hops {
      var u, v :| u in triples[..n] && u.memoryId == id && Touches(u, v) && v in visited
        && visited[v].path == agg.path && visited[v].hops == agg.hops;
      assert u in triples;
    } else {
      assert Touches(t, t.subj) && Touches(t, t.obj) && t in triples;
    }
  }

  // ------------------------------------------------- whose path is reported

  /** What the rows contribute to a memory, in the order of the rows. */
  function Contributions(visited: Visits, rows: seq<Triple>, id: string): seq<Visit> {
    if rows == [] then []
    else
      var rest, t := Contributions(visited, rows[..|rows| - 1], id), rows[|rows| - 1];
      if Contributes(visited, t, id) then rest + [BetterEnd(visited, t).value] else rest
  }

  /** The contribution whose path is reported. */
  function Kept(cs: seq<Visit>): Visit
    requires cs != []
  {
    var n := |cs| - 1;
    if n == 0 then cs[0]
    else
      var kept := Kept(cs[..n]);
      if kept.path == [] || cs[n].score > PeakScore(kept.path, kept.hops) then cs[n] else kept
  }

  lemma KeptLast(cs: seq<Visit>, c: Visit)
    requires cs != []
    ensures Kept(cs + [c]) ==
            if Kept(cs).path == [] || c.score > PeakScore(Kept(cs).path, Kept(cs).hops) then c else Kept(cs)
  {
    assert (cs + [c])[..|cs|] == cs;
  }

  /** A memory is reported with the path and hops of one of its contributions. */
  lemma {:induction false} AggregateKeeps(visited: Visits, rows: seq<Triple>, id: string)
    ensures AggregateOf(visited, rows, id).Some? <==> Contributions(visited, rows, id) != []
    ensures Contributions(visited, rows, id) != [] ==>
              var agg, kept := AggregateOf(visited, rows, id).value, Kept(Contributions(visited, rows, id));
              agg.path == kept.path && agg.hops == kept.hops
  {
    if rows != [] {
      var n := |rows| - 1;
      AggregateKeeps(visited, rows[..n], id);
      if Contributes(visited, rows[n], id) && Contributions(visited, rows[..n], id) != [] {
        KeptLast(Contributions(visited, rows[..n], id), BetterEnd(visited, rows[n]).value);
      }
    }
  }

  /** Its path is that of an end, and its hop count the shortest distance of that
      end exactly when some shortest chain to it scores as well as any other. */
  lemma ReportedShortestIff(visited: Visits, seeds: Scores, triples: seq<Triple>, bound: nat, id: string, v: Entity, d: nat)
    requires Exact(visited, seeds, triples, bound) && d <= bound && ShortestLength(seeds, triples, v, d)
    requires Contributions(visited, triples, id) != [] && v in visited && Kept(Contributions(visited, triples, id)) == visited[v]
    ensures AggregateOf(visited, triples, id).Some?
    ensures AggregateOf(visited, triples, id).value.hops == d <==>
            exists s: Walk :: BestChain(s, seeds, triples, v, bound) && s.Len() == d
  {
    AggregateKeeps(visited, triples, id);
    ShortestChainIff(visited, seeds, triples, v, d, bound);
  }

  /** A score never exceeds the damping of its hops, and only a seed has no path. */
  predicate Proper(c: Visit) {
    c.score <= Power(c.hops) && (c.path == [] <==> c.hops == 0)
  }

  ghost predicate AllProper(cs: seq<Visit>) {
    forall c :: c in cs ==> Proper(c)
  }

  ghost predicate IsGreatest(cs: seq<Visit>, m: real) {
    (exists c :: c in cs && c.score == m) && forall c :: c in cs ==> c.score <= m
  }

  /** All contribute the same; or a chain of some length contributes most, and every
      lesser chain is so long that damping alone brings it below that. */
  ghost predicate OrderProof(cs: seq<Visit>, m: real) {
    || (forall c :: c in cs ==> c.score == m)
    || ((exists c :: c in cs && c.score == m && c.path != [])
        && forall c :: c in cs && c.score < m && c.path != [] ==> Power(c.hops) < m)
  }

  /** A chain that contributes most, once met, is kept. */
  lemma {:induction false} GreatestStays(cs: seq<Visit>, m: real, n: nat)
    requires AllProper(cs) && 0 < n <= |cs| && forall c :: c in cs ==> c.score <= m
    requires forall c :: c in cs && c.score < m && c.path != [] ==> Power(c.hops) < m
    ensures Kept(cs[..n]) in cs
    ensures (exists i :: 0 <= i < n && cs[i].score == m && cs[i].path != []) ==> Kept(cs[..n]).score == m && Kept(cs[..n]).path != []
  {
    if n > 1 {
      GreatestStays(cs, m, n - 1);
      assert cs[..n] == cs[..n - 1] + [cs[n - 1]];
      KeptLast(cs[..n - 1], cs[n - 1]);
      var kept := Kept(cs[..n - 1]);
      assert Proper(kept) && (kept.path == [] || kept.score == m || Power(kept.hops) < m);
    }
  }

  lemma OrderProofKeeps(cs: seq<Visit>, m: real)
    requires cs != [] && AllProper(cs) && IsGreatest(cs, m) && OrderProof(cs, m)
    ensures Kept(cs).score == m
  {
    assert cs[..|cs|] == cs;
    if forall c :: c in cs ==> c.score == m {
      KeptIsOne(cs);
    } else {
      GreatestStays(cs, m, |cs|);
      var c :| c in cs && c.score == m && c.path != [];
      var i :| 0 <= i < |cs| && cs[i] == c;
    }
  }

  lemma {:induction false} KeptIsOne(cs: seq<Visit>)
    requires cs != []
    ensures Kept(cs) in cs
  {
    if |cs| > 1 { KeptIsOne(cs[..|cs| - 1]); }
  }

  /** A chain whose damping nothing exceeds, met first, is kept to the end. */
  lemma {:induction false} FirstBlocks(c: Visit, cs: seq<Visit>)
    requires c.path != [] && forall d :: d in cs ==> d.score <= Power(c.hops)
    ensures Kept([c] + cs) == c
  {
    if cs == [] {
      assert [c] + cs == [c];
    } else {
      var n := |cs| - 1;
      FirstBlocks(c, cs[..n]);
      assert [c] + cs == ([c] + cs[..n]) + [cs[n]];
      KeptLast([c] + cs[..n], cs[n]);
    }
  }

  /** A seed that contributes most gives way to whatever comes last. */
  lemma LastOverwrites(cs: seq<Visit>, seed: Visit, last: Visit, m: real)
    requires seed.path == [] && seed.score == m
    requires forall c :: c in cs && c.path != [] ==> Power(c.hops) < m
    ensures Kept(cs + [seed] + [last]) == last
  {
    if cs != [] {
      KeptIsOne(cs);
      KeptLast(cs, seed);
    } else {
      assert cs + [seed] == [seed];
    }
    KeptLast(cs + [seed], last);
  }

  lemma {:induction false} ContributionsJoin(visited: Visits, a: seq<Triple>, b: seq<Triple>, id: string)
    ensures Contributions(visited, a + b, id) == Contributions(visited, a, id) + Contributions(visited, b, id)
  {
    if b == [] {
      assert a + b == a;
    } else {
      var n := |b| - 1;
      ContributionsJoin(visited, a, b[..n], id);
      assert (a + b)[..|a + b| - 1] == a + b[..n];
    }
  }

  lemma ContributionOf(visited: Visits, t: Triple, id: string)
    requires Contributes(visited, t, id)
    ensures Contributions(visited, [t], id) == [BetterEnd(visited, t).value]
  {
    assert Contributions(visited, [t][..0], id) == [];
  }

  ghost predicate From(visited: Visits, t: Triple, id: string, c: Visit) {
    Contributes(visited, t, id) && BetterEnd(visited, t).value == c
  }

  lemma {:induction false} ContributionsFrom(visited: Visits, rows: seq<Triple>, id: string, c: Visit)
    ensures c in Contributions(visited, rows, id) <==> exists t :: t in rows && From(visited, t, id, c)
  {
    if rows != [] {
      var n := |rows| - 1;
      ContributionsFrom(visited, rows[..n], id, c);
      assert rows == rows[..n] + [rows[n]];
      if Contributes(visited, rows[n], id) { assert From(visited, rows[n], id, BetterEnd(visited, rows[n]).value); }
    }
  }

  /** The order of the rows does not change what they contribute. */
  lemma SameContributions(visited: Visits, rows: seq<Triple>, other: seq<Triple>, id: string)
    requires multiset(rows) == multiset(other)
    ensures forall c :: c in Contributions(visited, rows, id) <==> c in Contributions(visited, other, id)
  {
    forall t ensures t in rows <==> t in other { assert t in multiset(rows) <==> t in multiset(other); }
    forall c ensures c in Contributions(visited, rows, id) <==> c in Contributions(visited, other, id) {
      ContributionsFrom(visited, rows, id, c);
      ContributionsFrom(visited, other, id, c);
    }
  }

  lemma TakeOut(rows: seq<Triple>, t: Triple) returns (rest: seq<Triple>)
    requires t in rows
    ensures multiset([t] + rest) == multiset(rows) && multiset(rest + [t]) == multiset(rows)
  {
    var i :| 0 <= i < |rows| && rows[i] == t;
    rest := rows[..i] + rows[i + 1..];
    assert rows == rows[..i] + [t] + rows[i + 1..];
  }

  /** The memory's contributions for these rows, none of them lost by the report:
      its path is that of a contribution as great as any. */
  ghost predicate ReportsGreatest(visited: Visits, rows: seq<Triple>, id: string, m: real) {
    Contributions(visited, rows, id) != [] && Kept(Contributions(visited, rows, id)).score == m
  }

  ghost predicate ReportsGreatestInAnyOrder(visited: Visits, triples: seq<Triple>, id: string, m: real) {
    forall rows :: multiset(rows) == multiset(triples) ==> ReportsGreatest(visited, rows, id, m)
  }

  /** A lesser, short chain met first hides the greatest contribution. */
  lemma HiddenByFirst(visited: Visits, triples: seq<Triple>, id: string, m: real, c: Visit) returns (rows: seq<Triple>)
    requires IsGreatest(Contributions(visited, triples, id), m)
    requires c in Contributions(visited, triples, id) && c.score < m && c.path != [] && Power(c.hops) >= m
    ensures multiset(rows) == multiset(triples) && !ReportsGreatest(visited, rows, id, m)
  {
    ContributionsFrom(visited, triples, id, c);
    var t :| t in triples && From(visited, t, id, c);
    var rest := TakeOut(triples, t);
    rows := [t] + rest;
    SameContributions(visited, rows, triples, id);
    ContributionsJoin(visited, [t], rest, id);
    ContributionOf(visited, t, id);
    forall d | d in Contributions(visited, rest, id) ensures d.score <= Power(c.hops) {
      assert d in Contributions(visited, rows, id);
    }
    FirstBlocks(c, Contributions(visited, rest, id));
  }

  /** Where only seeds contribute most, a lesser contribution met last hides them. */
  lemma HiddenByLast(visited: Visits, triples: seq<Triple>, id: string, m: real, seed: Visit, c: Visit) returns (rows: seq<Triple>)
    requires seed in Contributions(visited, triples, id) && seed.score == m && seed.path == []
    requires c in Contributions(visited, triples, id) && c.score < m
    requires forall d :: d in Contributions(visited, triples, id) && d.path != [] ==> Power(d.hops) < m
    ensures multiset(rows) == multiset(triples) && !ReportsGreatest(visited, rows, id, m)
  {
    ContributionsFrom(visited, triples, id, c);
    ContributionsFrom(visited, triples, id, seed);
    var t :| t in triples && From(visited, t, id, c);
    var u :| u in triples && From(visited, u, id, seed);
    var most := TakeOut(triples, t);
    assert u in multiset(most + [t]);
    var rest := TakeOut(most, u);
    rows := rest + [u] + [t];
    assert multiset(rows) == multiset(rest + [u]) + multiset([t]) == multiset(most + [t]);
    SameContributions(visited, rows, triples, id);
    ContributionsJoin(visited, rest + [u], [t], id);
    ContributionsJoin(visited, rest, [u], id);
    ContributionOf(visited, t, id);
    ContributionOf(visited, u, id);
    forall d | d in Contributions(visited, rest, id) && d.path != [] ensures Power(d.hops) < m {
      assert d in Contributions(visited, rows, id);
    }
    LastOverwrites(Contributions(visited, rest, id), seed, c, m);
  }

  /** No stored triple weighs more than one, and no seed scores more. */
  ghost predicate UnitScores(seeds: Scores, triples: seq<Triple>) {
    (forall e :: e in seeds ==> seeds[e] <= 1.0) && forall t :: t in triples ==> t.weight <= 1.0
  }

  /** The seeds of a recall score at most one, so stored weights of at most one do. */
  lemma RecallIsUnit(hits: seq<Hit>, memories: map<string, real>, seeds: Scores, triples: seq<Triple>)
    requires MemoriesOf(memories, hits) && SeedsOf(seeds, triples, memories) && forall t :: t in triples ==> t.weight <= 1.0
    ensures PositiveSeeds(seeds) && UnitScores(seeds, triples)
  {
    forall e | e in seeds ensures 0.0 < seeds[e] <= 1.0 {
      assert SeedWorth(triples, memories, e, seeds[e]);
    }
  }

  lemma {:induction false} DampedAtLeast(w: Walk, seeds: Scores, triples: seq<Triple>)
    requires w.Valid(seeds, triples) && PositiveSeeds(seeds) && UnitScores(seeds, triples)
    ensures 0.0 < w.Score(seeds, triples) <= Power(w.Len())
    ensures w.Path() == [] <==> w.Len() == 0
    decreases w
  {
    if w.Hop? {
      DampedAtLeast(w.before, seeds, triples);
      var s, k := w.before.Score(seeds, triples), EffectiveWeight(w.triple);
      assert k <= 1.0;
      ScaledDown(s, k, Power(w.before.Len()));
      assert w.Score(seeds, triples) == s * DAMPING * k;
      assert Power(w.Len()) == Power(w.before.Len()) * DAMPING;
    }
  }

  lemma ScaledDown(score: real, weight: real, power: real)
    requires 0.0 < score <= power && 0.0 < weight <= 1.0
    ensures 0.0 < score * DAMPING * weight <= power * DAMPING
  {
    var damped := score * DAMPING;
    assert damped * weight <= damped * 1.0;
    ScaleOrder(score, power, weight);
  }

  lemma ContributionsAreProper(visited: Visits, seeds: Scores, triples: seq<Triple>, rows: seq<Triple>, bound: nat, id: string)
    requires Exact(visited, seeds, triples, bound) && PositiveSeeds(seeds) && UnitScores(seeds, triples)
    ensures AllProper(Contributions(visited, rows, id))
  {
    forall c | c in Contributions(visited, rows, id) ensures Proper(c) {
      ContributionsFrom(visited, rows, id, c);
      var t :| t in rows && From(visited, t, id, c);
      var v :| v in visited && visited[v] == c;
      assert Attained(seeds, triples, v, visited[v]);
      var w :| Attains(w, seeds, triples, v, c);
      DampedAtLeast(w, seeds, triples);
    }
  }

  /** The comment promises the path of the highest single contribution. The rows are
      read in no particular order, and the promise holds in every order exactly when
      all contributions are equal, or a chain contributes most and damping alone
      brings every lesser chain below it. */
  lemma GreatestReportedIff(visited: Visits, seeds: Scores, triples: seq<Triple>, bound: nat, id: string, m: real)
    requires Exact(visited, seeds, triples, bound) && PositiveSeeds(seeds) && UnitScores(seeds, triples)
    requires IsGreatest(Contributions(visited, triples, id), m)
    ensures ReportsGreatestInAnyOrder(visited, triples, id, m) <==> OrderProof(Contributions(visited, triples, id), m)
  {
    var cs := Contributions(visited, triples, id);
    if OrderProof(cs, m) {
      forall rows | multiset(rows) == multiset(triples) ensures ReportsGreatest(visited, rows, id, m) {
        SameContributions(visited, rows, triples, id);
        ContributionsAreProper(visited, seeds, triples, rows, bound, id);
        OrderProofKeeps(Contributions(visited, rows, id), m);
      }
    } else if c :| c in cs && c.score < m && c.path != [] && Power(c.hops) >= m {
      var rows := HiddenByFirst(visited, triples, id, m, c);
    } else {
      var seed :| seed in cs && seed.score == m;
      var c :| c in cs && c.score != m;
      forall d | d in cs && d.path != [] ensures Power(d.hops) < m { assert d.score < m || d.score == m; }
      var rows := HiddenByLast(visited, triples, id, m, seed, c);
    }
  }

  // --------------------------------------------------------------- ranking

  datatype Result = Result(memoryId: string, score: real, path: seq<Triple>, hops: nat)

  predicate RanksBefore(a: Result, b: Result) {
    a.score > b.score || (a.score == b.score && a.hops <= b.hops)
  }

  ghost predicate Ranked(rs: seq<Result>) {
    forall i, j :: 0 <= i < j < |rs| ==> RanksBefore(rs[i], rs[j])
  }

  function IdsOf(rs: seq<Result>): seq<string> {
    seq(|rs|, i requires 0 <= i < |rs| => rs[i].memoryId)
  }

  /** The ranking lists each memory of `ids` exactly once, with its aggregate. */
  ghost predicate Lists(rs: seq<Result>, perMemory: map<string, Agg>, ids: set<string>) {
    && multiset(IdsOf(rs)) == multiset(ids)
    && forall r :: r in rs ==> Presents(r, perMemory)
  }

  ghost predicate Presents(r: Result, perMemory: map<string, Agg>) {
    r.memoryId in perMemory && Agg(r.score, r.path, r.hops) == perMemory[r.memoryId]
  }

  method InsertRanked(rs: seq<Result>, r: Result) returns (out: seq<Result>, ghost at: nat)
    requires Ranked(rs)
    ensures Ranked(out) && at <= |rs| && out == rs[..at] + [r] + rs[at..]
  {
    var i := 0;
    while i < |rs| && RanksBefore(rs[i], r)
      invariant i <= |rs| && forall j :: 0 <= j < i ==> RanksBefore(rs[j], r)
    {
      i := i + 1;
    }
    at, out := i, rs[..i] + [r] + rs[i..];
  }

  /** Materialise the per-memory map and order it by score, then by hops. */
  method RankAll(perMemory: map<string, Agg>) returns (ranked: seq<Result>)
    ensures Ranked(ranked) && Lists(ranked, perMemory, perMemory.Keys)
  {
    ranked := [];
    var todo := perMemory.Keys;
    while todo != {}
      invariant todo <= perMemory.Keys
      invariant Ranked(ranked) && Lists(ranked, perMemory, perMemory.Keys - todo)
    {
      var id :| id in todo;
      var r := Result(id, perMemory[id].score, perMemory[id].path, perMemory[id].hops);
      ghost var before := ranked;
      ghost var at;
      ranked, at := InsertRanked(ranked, r);
      ListsInsert(before, r, at, perMemory, perMemory.Keys - todo);
      todo := todo - {id};
      assert perMemory.Keys - todo == (perMemory.Keys - (todo + {id})) + {id};
    }
    assert perMemory.Keys - todo == perMemory.Keys;
  }

  lemma ListsInsert(rs: seq<Result>, r: Result, at: nat, perMemory: map<string, Agg>, ids: set<string>)
    requires Lists(rs, perMemory, ids) && at <= |rs| && r.memoryId !in ids && Presents(r, perMemory)
    ensures Lists(rs[..at] + [r] + rs[at..], perMemory, ids + {r.memoryId})
  {
    var out := rs[..at] + [r] + rs[at..];
    assert IdsOf(out) == IdsOf(rs)[..at] + [r.memoryId] + IdsOf(rs)[at..];
    assert IdsOf(rs) == IdsOf(rs)[..at] + IdsOf(rs)[at..];
    assert multiset(ids + {r.memoryId}) == multiset(ids) + multiset{r.memoryId};
  }

  // ------------------------------------------------------------- the recall

  datatype Outcome =
    | Nothing
    | Refused
    | FromSeeds(hits: seq<Hit>)
    | FromWalk(results: seq<Result>)

  /** The batch load by id: a result whose memory has gone meanwhile is dropped. */
  function Present(rs: seq<Result>, stored: set<string>): seq<Result> {
    if rs == [] then []
    else
      var rest, r := Present(rs[..|rs| - 1], stored), rs[|rs| - 1];
      if r.memoryId in stored then rest + [r] else rest
  }

  method DropMissing(rs: seq<Result>, stored: set<string>) returns (results: seq<Result>)
    ensures results == Present(rs, stored)
  {
    results := [];
    for i := 0 to |rs|
      invariant results == Present(rs[..i], stored)
    {
      assert rs[..i + 1][..i] == rs[..i];
      if rs[i].memoryId !in stored {
        continue;
      }
      results := results + [rs[i]];
    }
    assert rs[..|rs|] == rs;
  }

  function EffectiveHops(maxHops: int): (h: nat)
    ensures 1 <= h <= 4
  {
    if maxHops <= 0 then 2 else if maxHops > 4 then 4 else maxHops
  }

  function EffectiveLimit(limit: int): (l: nat)
    ensures 1 <= l <= 100
  {
    if limit <= 0 then 10 else if limit > 100 then 100 else limit
  }

  function Fewer(n: nat, limit: nat): nat {
    if n > limit then limit else n
  }

  /** One returned memory: its score is the sum of its triples' best ends in the
      exact walk result, and its path is the chain of the contribution it kept. */
  ghost predicate Justified(r: Result, visited: Visits, triples: seq<Triple>) {
    && r.score == TotalWorth(visited, triples, r.memoryId)
    && Contributions(visited, triples, r.memoryId) != []
    && r.path == Kept(Contributions(visited, triples, r.memoryId)).path
    && r.hops == Kept(Contributions(visited, triples, r.memoryId)).hops
    && PathFrom(visited, triples, r.memoryId, r.path, r.hops)
  }

  /** Nothing left out outranks anything returned. */
  ghost predicate TopOf(rs: seq<Result>, all: seq<Result>, limit: nat) {
    && |all| >= |rs| && rs == all[..|rs|]
    && Ranked(all)
    && |rs| == if |all| > limit then limit else |all|
  }

  /** `all` holds each memory with a reached triple end, once. */
  ghost predicate Covers(all: seq<Result>, visited: Visits, triples: seq<Triple>) {
    && (forall id :: multiset(IdsOf(all))[id] <= 1)
    && (forall t, v :: t in triples && Touches(t, v) && v in visited ==> t.memoryId in multiset(IdsOf(all)))
    && (forall r :: r in all ==> Justified(r, visited, triples))
  }

  /** The whole pipeline: seeds from the hits, an exact walk, every reached memory
      ranked, and of the first `limit` those still stored returned. */
  ghost predicate Recalled(results: seq<Result>, hits: seq<Hit>, triples: seq<Triple>, limit: nat, hops: nat, stored: set<string>) {
    exists memories, seeds, visited, all, top ::
      && MemoriesOf(memories, hits)
      && SeedsOf(seeds, triples, memories)
      && Exact(visited, seeds, triples, hops)
      && Covers(all, visited, triples)
      && TopOf(top, all, limit)
      && results == Present(top, stored)
  }

  method RecallMultihop(hits: seq<Hit>, triples: seq<Triple>, limit: int, maxHops: int, strict: bool, stored: set<string>)
    returns (outcome: Outcome)
    ensures hits == [] || triples == [] ==> outcome == Nothing
    ensures outcome.FromWalk? ==>
              Recalled(outcome.results, hits, triples, EffectiveLimit(limit), EffectiveHops(maxHops), stored)
    ensures outcome.FromSeeds? || outcome.Refused? ==>
              forall t, i :: t in triples && 0 <= i < |hits| ==> t.memoryId != hits[i].memoryId
    ensures outcome.FromSeeds? ==> !strict && outcome.hits == hits[..Fewer(|hits|, EffectiveLimit(limit))]
  {
    if |hits| == 0 || |triples| == 0 {
      return Nothing;
    }
    var memories := SeedMemoryScores(hits);
    var seeds := SeedEntities(triples, memories);
    if |seeds| == 0 {
      NoSeedTriples(seeds, triples, memories);
      if strict {
        return Refused;
      }
      return FromSeeds(hits[..if |hits| > EffectiveLimit(limit) then EffectiveLimit(limit) else |hits|]);
    }
    var visited := WalkGraph(triples, seeds, EffectiveHops(maxHops));
    var perMemory := AggregateMemories(visited, triples);
    var all := RankAll(perMemory);
    AllJustified(visited, seeds, triples, EffectiveHops(maxHops), perMemory, all);
    var top := if |all| > EffectiveLimit(limit) then all[..EffectiveLimit(limit)] else all;
    assert TopOf(top, all, EffectiveLimit(limit));
    var results := DropMissing(top, stored);
    RecalledBy(results, hits, triples, EffectiveLimit(limit), EffectiveHops(maxHops), stored, memories, seeds, visited, all, top);
    return FromWalk(results);
  }

  lemma RecalledBy(results: seq<Result>, hits: seq<Hit>, triples: seq<Triple>, limit: nat, hops: nat, stored: set<string>,
                   memories: map<string, real>, seeds: Scores, visited: Visits, all: seq<Result>, top: seq<Result>)
    requires MemoriesOf(memories, hits) && SeedsOf(seeds, triples, memories) && Exact(visited, seeds, triples, hops)
    requires Covers(all, visited, triples) && TopOf(top, all, limit) && results == Present(top, stored)
    ensures Recalled(results, hits, triples, limit, hops, stored)
  {
  }

  lemma NoSeedTriples(seeds: Scores, triples: seq<Triple>, memories: map<string, real>)
    requires SeedsOf(seeds, triples, memories) && |seeds| == 0
    ensures forall t :: t in triples ==> t.memoryId !in memories
  {
    forall t | t in triples ensures t.memoryId !in memories {
      assert t.subj !in seeds;
      assert !Carries(triples, memories, t, t.subj);
    }
  }

  lemma AllJustified(visited: Visits, seeds: Scores, triples: seq<Triple>, bound: nat, perMemory: map<string, Agg>, all: seq<Result>)
    requires Exact(visited, seeds, triples, bound) && PositiveSeeds(seeds)
    requires forall id :: if id in perMemory then AggregateOf(visited, triples, id) == Some(perMemory[id])
                          else AggregateOf(visited, triples, id) == None
    requires Lists(all, perMemory, perMemory.Keys)
    ensures Covers(all, visited, triples)
  {
    forall v | v in visited ensures visited[v].score > 0.0 {
      assert Attained(seeds, triples, v, visited[v]);
      var w :| Attains(w, seeds, triples, v, visited[v]);
      ScoresArePositive(w, seeds, triples);
    }
    forall r | r in all ensures Justified(r, visited, triples) {
      assert Presents(r, perMemory);
      AggregateScores(visited, triples, r.memoryId);
      AggregatePath(visited, triples, r.memoryId);
      AggregateKeeps(visited, triples, r.memoryId);
    }
    forall t, v | t in triples && Touches(t, v) && v in visited ensures t.memoryId in multiset(IdsOf(all)) {
      AggregateScores(visited, triples, t.memoryId);
      assert t.memoryId in perMemory;
    }
  }
}
