/** What more than one component needs and none owns. */
module Common {

  datatype Option<T> = None | Some(value: T)

  lemma {:induction false} SubsetSize<K>(a: set<K>, b: set<K>)
    requires a <= b
    ensures |a| <= |b|
    decreases a
  {
    if a != {} {
      var x :| x in a;
      SubsetSize(a - {x}, b - {x});
    }
  }

  lemma Regrouped<T>(a: seq<T>, b: seq<T>, c: seq<T>)
    ensures (a + b) + c == a + (b + c)
  {
  }

  function FlatMap<A, B>(s: seq<A>, f: A -> seq<B>): seq<B> {
    if s == [] then [] else FlatMap(s[..|s| - 1], f) + f(s[|s| - 1])
  }

  lemma FlatMapLast<A, B>(s: seq<A>, a: A, f: A -> seq<B>)
    ensures FlatMap(s + [a], f) == FlatMap(s, f) + f(a)
  {
    assert (s + [a])[..|s|] == s;
  }

  lemma {:induction false} FlatMapJoin<A, B>(s: seq<A>, t: seq<A>, f: A -> seq<B>)
    ensures FlatMap(s + t, f) == FlatMap(s, f) + FlatMap(t, f)
  {
    if t == [] {
      assert s + t == s;
    } else {
      var n := |t| - 1;
      FlatMapJoin(s, t[..n], f);
      FlatMapLast(s + t[..n], t[n], f);
      Regrouped(s, t[..n], [t[n]]);
      assert t == t[..n] + [t[n]];
      Regrouped(FlatMap(s, f), FlatMap(t[..n], f), f(t[n]));
    }
  }

  lemma {:induction false} FlatMapOnes<A, B>(s: seq<A>, t: seq<B>, f: A -> seq<B>)
    requires |s| == |t| && forall i :: 0 <= i < |s| ==> f(s[i]) == [t[i]]
    ensures FlatMap(s, f) == t
  {
    if s != [] {
      var n := |s| - 1;
      FlatMapOnes(s[..n], t[..n], f);
      assert t == t[..n] + [t[n]];
    }
  }

  lemma {:induction false} FlatMapNone<A, B>(s: seq<A>, f: A -> seq<B>)
    requires forall i :: 0 <= i < |s| ==> f(s[i]) == []
    ensures FlatMap(s, f) == []
  {
    if s != [] { FlatMapNone(s[..|s| - 1], f); }
  }
}
