/** Mean-centred similarity (internal/memory/centering.go) over reals. The code
    divides by square roots; the model keeps both norms squared. */
module Centering {
  import opened Common

  type Vector = seq<real>

  const MIN_CENTER_VECTORS: nat := 100

  // ----------------------------------------------------------------- algebra

  function Sum(v: Vector): real {
    if v == [] then 0.0 else Sum(v[..|v| - 1]) + v[|v| - 1]
  }

  function Products(a: Vector, b: Vector): (c: Vector)
    requires |a| == |b|
    ensures |c| == |a|
  {
    seq(|a|, i requires 0 <= i < |a| => a[i] * b[i])
  }

  function Dot(a: Vector, b: Vector): real
    requires |a| == |b|
  {
    Sum(Products(a, b))
  }

  function Minus(a: Vector, b: Vector): (c: Vector)
    requires |a| == |b|
    ensures |c| == |a|
  {
    seq(|a|, i requires 0 <= i < |a| => a[i] - b[i])
  }

  function Scaled(t: real, a: Vector): (c: Vector)
    ensures |c| == |a|
  {
    seq(|a|, i requires 0 <= i < |a| => t * a[i])
  }

  lemma {:induction false} SumMinus(a: Vector, b: Vector)
    requires |a| == |b|
    ensures Sum(Minus(a, b)) == Sum(a) - Sum(b)
  {
    if a != [] {
      var n := |a| - 1;
      SumMinus(a[..n], b[..n]);
      assert Minus(a, b)[..n] == Minus(a[..n], b[..n]);
    }
  }

  lemma SameProduct(t: real, x: real, y: real)
    requires x == y
    ensures t * x == t * y
  {
  }

  lemma SameProducts(x: real, y: real, z: real, w: real)
    requires x == z && y == w
    ensures x * y == z * w
  {
  }

  lemma {:induction false} SumScaled(t: real, a: Vector)
    ensures Sum(Scaled(t, a)) == t * Sum(a)
  {
    if a != [] {
      var n := |a| - 1;
      SumScaled(t, a[..n]);
      forall i | 0 <= i < n ensures Scaled(t, a)[..n][i] == Scaled(t, a[..n])[i] {
        SameProduct(t, a[i], a[..n][i]);
      }
      assert Scaled(t, a)[..n] == Scaled(t, a[..n]);
      assert t * Sum(a[..n]) + t * a[n] == t * (Sum(a[..n]) + a[n]);
    }
  }

  lemma DotCommutes(a: Vector, b: Vector)
    requires |a| == |b|
    ensures Dot(a, b) == Dot(b, a)
  {
    assert Products(a, b) == Products(b, a);
  }

  lemma DotMinus(a: Vector, b: Vector, c: Vector)
    requires |a| == |b| == |c|
    ensures Dot(Minus(a, b), c) == Dot(a, c) - Dot(b, c)
  {
    var left, right := Products(Minus(a, b), c), Minus(Products(a, c), Products(b, c));
    forall i | 0 <= i < |a| ensures left[i] == right[i] {
      Distribute(a[i], b[i], c[i]);
    }
    assert left == right;
    SumMinus(Products(a, c), Products(b, c));
  }

  lemma DotScaled(t: real, a: Vector, b: Vector)
    requires |a| == |b|
    ensures Dot(Scaled(t, a), b) == t * Dot(a, b)
  {
    var left, right := Products(Scaled(t, a), b), Scaled(t, Products(a, b));
    forall i | 0 <= i < |a| ensures left[i] == right[i] {
      Regroup(t, a[i], b[i]);
    }
    assert left == right;
    SumScaled(t, Products(a, b));
  }

  lemma Distribute(x: real, y: real, z: real)
    ensures (x - y) * z == x * z - y * z
  {
  }

  lemma Regroup(t: real, x: real, y: real)
    ensures (t * x) * y == t * (x * y)
  {
  }

  lemma NegativeFactor(c: real, x: real)
    requires c > 0.0
    ensures x < 0.0 ==> c * x < 0.0
  {
  }

  lemma ProductSign(p: real, x: real, y: real)
    requires p == x * y
    ensures x > 0.0 && y > 0.0 ==> p > 0.0
    ensures x < 0.0 && y < 0.0 ==> p > 0.0
  {
    if x < 0.0 && y < 0.0 { NegativeFactor(-x, y); }
  }

  lemma IsSquare(p: real, x: real)
    requires p == x * x
    ensures x == 0.0 ==> p == 0.0
    ensures x != 0.0 ==> p > 0.0
  {
    ProductSign(p, x, x);
  }

  lemma {:induction false} SumNotNegative(v: Vector)
    requires forall i :: 0 <= i < |v| ==> v[i] >= 0.0
    ensures Sum(v) >= 0.0
    ensures Sum(v) == 0.0 ==> forall i :: 0 <= i < |v| ==> v[i] == 0.0
  {
    if v != [] { SumNotNegative(v[..|v| - 1]); }
  }

  lemma NormNotNegative(a: Vector)
    ensures Dot(a, a) >= 0.0
    ensures Dot(a, a) == 0.0 ==> forall i :: 0 <= i < |a| ==> a[i] == 0.0
  {
    var p := Products(a, a);
    forall i | 0 <= i < |a| ensures p[i] >= 0.0 && (a[i] != 0.0 ==> p[i] > 0.0) {
      assert p[i] == a[i] * a[i];
      IsSquare(p[i], a[i]);
    }
    SumNotNegative(p);
  }

  lemma {:induction false} SumOfZeros(v: Vector)
    requires forall i :: 0 <= i < |v| ==> v[i] == 0.0
    ensures Sum(v) == 0.0
  {
    if v != [] { SumOfZeros(v[..|v| - 1]); }
  }

  lemma DotWithZero(a: Vector, b: Vector)
    requires |a| == |b| && forall i :: 0 <= i < |b| ==> b[i] == 0.0
    ensures Dot(a, b) == 0.0
  {
    SumOfZeros(Products(a, b));
  }

  lemma CombinationDot(a: Vector, b: Vector, x: real, y: real, c: Vector)
    requires |a| == |b| == |c|
    ensures Dot(Minus(Scaled(x, a), Scaled(y, b)), c) == x * Dot(a, c) - y * Dot(b, c)
  {
    DotMinus(Scaled(x, a), Scaled(y, b), c);
    DotScaled(x, a, c);
    DotScaled(y, b, c);
  }

  lemma CombinationSelf(a: Vector, b: Vector, x: real, y: real, v: Vector)
    requires |a| == |b| && v == Minus(Scaled(x, a), Scaled(y, b))
    ensures Dot(v, v) == x * Dot(v, a) - y * Dot(v, b)
  {
    CombinationDot(a, b, x, y, v);
    DotCommutes(a, v);
    DotCommutes(b, v);
  }

  /** The combination of `a` and `b` whose product with `b` vanishes. */
  lemma CombinationOf(a: Vector, b: Vector, A: real, B: real, C: real, v: Vector)
    requires |a| == |b| && A == Dot(a, a) && B == Dot(a, b) && C == Dot(b, b)
    requires v == Minus(Scaled(C, a), Scaled(B, b))
    ensures Dot(v, a) == C * A - B * B && Dot(v, b) == C * B - B * C
  {
    CombinationDot(a, b, C, B, a);
    CombinationDot(a, b, C, B, b);
    DotCommutes(a, b);
  }

  /** |C a - B b|^2 for C = b.b and B = a.b, expanded. */
  lemma CombinationNorm(a: Vector, b: Vector, A: real, B: real, C: real, v: Vector)
    requires |a| == |b| && A == Dot(a, a) && B == Dot(a, b) && C == Dot(b, b)
    requires v == Minus(Scaled(C, a), Scaled(B, b))
    ensures Dot(v, v) == C * (C * A - B * B)
  {
    CombinationSelf(a, b, C, B, v);
    CombinationOf(a, b, A, B, C, v);
    Orthogonal(Dot(v, v), Dot(v, a), Dot(v, b), A, B, C);
  }

  lemma Orthogonal(vv: real, va: real, vb: real, A: real, B: real, C: real)
    requires vv == C * va - B * vb && va == C * A - B * B && vb == C * B - B * C
    ensures vv == C * (C * A - B * B)
  {
    assert vb == 0.0;
    assert B * vb == 0.0;
  }

  lemma CauchySchwarz(a: Vector, b: Vector)
    requires |a| == |b|
    ensures Dot(a, b) * Dot(a, b) <= Dot(a, a) * Dot(b, b)
  {
    var A, B, C := Dot(a, a), Dot(a, b), Dot(b, b);
    NormNotNegative(b);
    if C == 0.0 {
      DotWithZero(a, b);
    } else {
      var v := Minus(Scaled(C, a), Scaled(B, b));
      CombinationNorm(a, b, A, B, C, v);
      NormNotNegative(v);
      NegativeFactor(C, C * A - B * B);
    }
  }

  /** The expansion that saves building the centred vectors. */
  lemma Expansion(q: Vector, a: Vector, mean: Vector)
    requires |q| == |a| == |mean|
    ensures Dot(q, a) - Dot(q, mean) - Dot(a, mean) + Dot(mean, mean) == Dot(Minus(q, mean), Minus(a, mean))
  {
    var am := Minus(a, mean);
    DotMinus(q, mean, am);
    DotCommutes(q, am);
    DotCommutes(mean, am);
    DotMinus(a, mean, q);
    DotMinus(a, mean, mean);
    DotCommutes(a, q);
    DotCommutes(mean, q);
  }

  // -------------------------------------------------------------------- mean

  function Dimension(vectors: seq<Vector>): nat {
    if vectors == [] then 0 else if vectors[0] != [] then |vectors[0]| else Dimension(vectors[1..])
  }

  /** The vectors the mean is taken over: those of the first usable dimension. */
  function Usable(vectors: seq<Vector>, dim: nat): (u: seq<Vector>)
    ensures forall i :: 0 <= i < |u| ==> |u[i]| == dim
  {
    if vectors == [] then []
    else
      var n := |vectors| - 1;
      Usable(vectors[..n], dim) + if |vectors[n]| == dim then [vectors[n]] else []
  }

  /** Coordinate `i` of every vector. */
  function Slice(u: seq<Vector>, i: nat): (s: Vector)
    requires forall k :: 0 <= k < |u| ==> i < |u[k]|
    ensures |s| == |u|
  {
    seq(|u|, k requires 0 <= k < |u| => u[k][i])
  }

  function Column(u: seq<Vector>, i: nat): real
    requires forall k :: 0 <= k < |u| ==> i < |u[k]|
  {
    Sum(Slice(u, i))
  }

  datatype Center = Center(mean: Vector, selfDot: real)

  ghost predicate IsCenter(c: Center, u: seq<Vector>, dim: nat) {
    && (forall k :: 0 <= k < |u| ==> |u[k]| == dim) && |u| >= MIN_CENTER_VECTORS
    && |c.mean| == dim && c.selfDot == Dot(c.mean, c.mean)
    && forall i :: 0 <= i < dim ==> c.mean[i] == Column(u, i) / (|u| as real)
  }

  function Centred(u: seq<Vector>, mean: Vector): (r: seq<Vector>)
    requires forall k :: 0 <= k < |u| ==> |u[k]| == |mean|
    ensures |r| == |u| && forall k :: 0 <= k < |r| ==> |r[k]| == |mean|
  {
    seq(|u|, k requires 0 <= k < |u| => Minus(u[k], mean))
  }

  function Repeated(x: real, n: nat): (v: Vector)
    ensures |v| == n
  {
    seq(n, i => x)
  }

  lemma {:induction false} SumRepeated(x: real, n: nat)
    ensures Sum(Repeated(x, n)) == (n as real) * x
  {
    if n > 0 {
      SumRepeated(x, n - 1);
      assert Repeated(x, n)[..n - 1] == Repeated(x, n - 1);
      OneMore(n - 1, x);
    }
  }

  lemma OneMore(n: nat, x: real)
    ensures ((n + 1) as real) * x == (n as real) * x + x
  {
    assert (n + 1) as real == n as real + 1.0;
  }

  /** The centred vectors sum to nothing in every coordinate. */
  lemma CentredSumIsZero(c: Center, u: seq<Vector>, dim: nat, i: nat)
    requires IsCenter(c, u, dim) && i < dim
    ensures Column(Centred(u, c.mean), i) == 0.0
  {
    assert Slice(Centred(u, c.mean), i) == Minus(Slice(u, i), Repeated(c.mean[i], |u|));
    SumMinus(Slice(u, i), Repeated(c.mean[i], |u|));
    SumRepeated(c.mean[i], |u|);
    Undivided(Column(u, i), |u| as real, c.mean[i]);
  }

  lemma Undivided(total: real, n: real, mean: real)
    requires n > 0.0 && mean == total / n
    ensures n * mean == total
  {
  }

  // ----------------------------------------------------------------- methods

  method NewEmbeddingCenter(vectors: seq<Vector>) returns (c: Option<Center>)
    ensures var dim := Dimension(vectors); var u := Usable(vectors, dim);
      if dim == 0 || |u| < MIN_CENTER_VECTORS then c.None? else c.Some? && IsCenter(c.value, u, dim)
  {
    var dim := FindDimension(vectors);
    if dim == 0 {
      return None;
    }
    var sum, count := SumUsable(vectors, dim);
    if count < MIN_CENTER_VECTORS {
      return None;
    }
    ghost var u := Usable(vectors, dim);
    var mean, selfDot: real := [], 0.0;
    for i := 0 to dim
      invariant |mean| == i && forall j :: 0 <= j < i ==> mean[j] == Column(u, j) / (|u| as real)
      invariant selfDot == Dot(mean, mean) && sum[..] == Columns(u, dim)
    {
      var m := sum[i] / (count as real);
      assert sum[..][i] == Column(u, i);
      DotMore(mean, mean, m, m);
      mean := mean + [m];
      selfDot := selfDot + m * m;
    }
    c := Some(Center(mean, selfDot));
  }

  method SumUsable(vectors: seq<Vector>, dim: nat) returns (sum: array<real>, count: nat)
    ensures fresh(sum) && sum.Length == dim
    ensures count == |Usable(vectors, dim)| && sum[..] == Columns(Usable(vectors, dim), dim)
  {
    sum, count := new real[dim](i => 0.0), 0;
    for k := 0 to |vectors|
      invariant count == |Usable(vectors[..k], dim)|
      invariant sum[..] == Columns(Usable(vectors[..k], dim), dim)
    {
      ghost var u := Usable(vectors[..k], dim);
      var v := vectors[k];
      assert vectors[..k + 1][..k] == vectors[..k];
      assert Usable(vectors[..k + 1], dim) == u + if |v| == dim then [v] else [];
      if |v| != dim {
        assert u + [] == u;
        continue;
      }
      AddInto(sum, v, u);
      count := count + 1;
    }
    assert vectors[..|vectors|] == vectors;
  }

  method FindDimension(vectors: seq<Vector>) returns (dim: nat)
    ensures dim == Dimension(vectors)
  {
    for i := 0 to |vectors|
      invariant Dimension(vectors) == Dimension(vectors[i..])
    {
      if |vectors[i]| > 0 {
        return |vectors[i]|;
      }
      assert vectors[i..][1..] == vectors[i + 1..];
    }
    return 0;
  }

  function Columns(u: seq<Vector>, dim: nat): (s: Vector)
    requires forall k :: 0 <= k < |u| ==> |u[k]| == dim
    ensures |s| == dim
  {
    seq(dim, i requires 0 <= i < dim => Column(u, i))
  }

  lemma ColumnMore(u: seq<Vector>, v: Vector, i: nat)
    requires (forall k :: 0 <= k < |u| ==> i < |u[k]|) && i < |v|
    ensures Column(u + [v], i) == Column(u, i) + v[i]
  {
    assert Slice(u + [v], i)[..|u|] == Slice(u, i);
  }

  method AddInto(sum: array<real>, v: Vector, ghost u: seq<Vector>)
    requires sum.Length == |v| && (forall k :: 0 <= k < |u| ==> |u[k]| == |v|) && sum[..] == Columns(u, |v|)
    modifies sum
    ensures sum[..] == Columns(u + [v], |v|)
  {
    for i := 0 to |v|
      invariant forall j :: 0 <= j < |v| ==> sum[j] == if j < i then Column(u + [v], j) else Column(u, j)
    {
      ColumnMore(u, v, i);
      sum[i] := sum[i] + v[i];
    }
  }

  lemma DotMore(a: Vector, b: Vector, x: real, y: real)
    requires |a| == |b|
    ensures Dot(a + [x], b + [y]) == Dot(a, b) + x * y
  {
    var left, right := Products(a + [x], b + [y])[..|a|], Products(a, b);
    forall i | 0 <= i < |a| ensures left[i] == right[i] {
      SameProducts((a + [x])[i], (b + [y])[i], a[i], b[i]);
    }
    assert left == right;
  }

  /** The query's product with the mean and the square of its centred norm; None
      when it lives elsewhere or equals the mean. */
  method QueryStats(c: Center, q: Vector) returns (stats: Option<(real, real)>)
    requires c.selfDot == Dot(c.mean, c.mean)
    ensures stats.None? <==> |q| != |c.mean| || Dot(Minus(q, c.mean), Minus(q, c.mean)) == 0.0
    ensures stats.Some? ==> stats.value.0 == Dot(q, c.mean) && stats.value.1 == Dot(Minus(q, c.mean), Minus(q, c.mean))
  {
    if |q| != |c.mean| {
      return None;
    }
    var qMean, qq := Accumulate(q, c.mean);
    var norm := qq - 2.0 * qMean + c.selfDot;
    Expansion(q, q, c.mean);
    NormNotNegative(Minus(q, c.mean));
    if norm <= 0.0 {
      return None;
    }
    stats := Some((qMean, norm));
  }

  /** Two running products in one loop: a.b and a.a. */
  method Accumulate(a: Vector, b: Vector) returns (ab: real, aa: real)
    requires |a| == |b|
    ensures ab == Dot(a, b) && aa == Dot(a, a)
  {
    ab, aa := 0.0, 0.0;
    for i := 0 to |a|
      invariant ab == Dot(a[..i], b[..i]) && aa == Dot(a[..i], a[..i])
    {
      DotMore(a[..i], b[..i], a[i], b[i]);
      DotMore(a[..i], a[..i], a[i], a[i]);
      assert a[..i + 1] == a[..i] + [a[i]] && b[..i + 1] == b[..i] + [b[i]];
      ab, aa := ab + a[i] * b[i], aa + a[i] * a[i];
    }
    assert a[..|a|] == a && b[..|b|] == b;
  }

  /** A score: nothing, or a numerator over the square root of `squared`. */
  datatype Score = Zero | Ratio(numerator: real, squared: real)

  /** The cosine of the two centred vectors, with its norms squared. */
  ghost predicate IsCosine(s: Score, q: Vector, a: Vector) {
    && |q| == |a|
    && if Dot(q, q) == 0.0 || Dot(a, a) == 0.0 then s == Zero else s == Ratio(Dot(q, a), Dot(q, q) * Dot(a, a))
  }

  /** A score between -1 and 1. */
  predicate Bounded(s: Score) {
    s.Ratio? ==> s.numerator * s.numerator <= s.squared && s.squared > 0.0
  }

  /** Zero for a candidate or a query of another dimension, or one that equals the
      mean; otherwise the cosine of the centred vectors, between -1 and 1. */
  method Similarity(c: Center, q: Vector, a: Vector, qDotMean: real, qNormSquared: real) returns (s: Score)
    requires c.selfDot == Dot(c.mean, c.mean)
    requires |q| == |c.mean| ==> qDotMean == Dot(q, c.mean) && qNormSquared == Dot(Minus(q, c.mean), Minus(q, c.mean))
    ensures if |a| != |c.mean| || |q| != |c.mean| then s == Zero else IsCosine(s, Minus(q, c.mean), Minus(a, c.mean))
    ensures Bounded(s)
  {
    if |a| != |c.mean| || |q| != |a| || qNormSquared == 0.0 {
      return Zero;
    }
    var qa, _ := Accumulate(q, a);
    var aMean, aa := Accumulate(a, c.mean);
    var numerator, aNormSquared := qa - qDotMean - aMean + c.selfDot, aa - 2.0 * aMean + c.selfDot;
    Expanded(c, q, a, qDotMean, qa, aMean, aa);
    s := if aNormSquared <= 0.0 then Zero else Ratio(numerator, qNormSquared * aNormSquared);
    Scored(Minus(q, c.mean), Minus(a, c.mean), numerator, qNormSquared, aNormSquared, s);
  }

  /** The one-pass terms are the products of the centred vectors. */
  lemma Expanded(c: Center, q: Vector, a: Vector, qDotMean: real, qa: real, aMean: real, aa: real)
    requires |q| == |a| == |c.mean| && c.selfDot == Dot(c.mean, c.mean) && qDotMean == Dot(q, c.mean)
    requires qa == Dot(q, a) && aMean == Dot(a, c.mean) && aa == Dot(a, a)
    ensures qa - qDotMean - aMean + c.selfDot == Dot(Minus(q, c.mean), Minus(a, c.mean))
    ensures aa - 2.0 * aMean + c.selfDot == Dot(Minus(a, c.mean), Minus(a, c.mean))
  {
    Expansion(a, a, c.mean);
    Expansion(q, a, c.mean);
  }

  lemma Scored(q: Vector, a: Vector, qa: real, qq: real, aa: real, s: Score)
    requires |q| == |a| && qa == Dot(q, a) && qq == Dot(q, q) && aa == Dot(a, a) && qq != 0.0
    requires s == if aa <= 0.0 then Zero else Ratio(qa, qq * aa)
    ensures IsCosine(s, q, a) && Bounded(s)
  {
    NormNotNegative(q);
    NormNotNegative(a);
    CauchySchwarz(q, a);
    if aa > 0.0 { Positive(qq, aa); }
  }

  lemma Positive(x: real, y: real)
    requires x > 0.0 && y > 0.0
    ensures x * y > 0.0
  {
  }
}
