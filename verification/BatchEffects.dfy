/** What the two batch drivers over the memory bank (the sediment cycle and the
    archive sweep) have in common: they take a decision per listed record, then
    either rewrite the record in place, or create one review item for it unless
    one is already there. */
module BatchEffects {
  import opened Common

  /** `rewrites` holds the new value of each record to be rewritten, `items` the
      review item of each record to be proposed, `known` the targets that have an
      item already. After acting on `acted`, `created` names the new items. */
  ghost predicate Effect<K(!new), R>(before: map<K, R>, rewrites: map<K, R>, items: map<K, R>, known: set<K>,
                               acted: set<K>, after: map<K, R>, created: map<K, K>)
  {
    && (forall k :: k in created <==> k in acted && k in items && k !in known)
    && (forall k :: k in after <==> k in before || k in created.Values)
    && ItemsMade(before, items, after, created)
    && Rewritten(before, rewrites, acted, after)
  }

  ghost predicate ItemsMade<K(!new), R>(before: map<K, R>, items: map<K, R>, after: map<K, R>, created: map<K, K>) {
    forall t :: t in created ==> ItemMade(before, items, after, t, created[t])
  }

  ghost predicate ItemMade<K(!new), R>(before: map<K, R>, items: map<K, R>, after: map<K, R>, t: K, k: K) {
    t in items && k !in before && k in after && after[k] == items[t]
  }

  ghost predicate Rewritten<K(!new), R>(before: map<K, R>, rewrites: map<K, R>, acted: set<K>, after: map<K, R>) {
    forall k :: k in before ==> k in after && after[k] == if k in acted && k in rewrites then rewrites[k] else before[k]
  }

  /** One new record per created item. */
  ghost predicate Tallied<K(!new), R>(before: map<K, R>, after: map<K, R>, created: map<K, K>, count: nat) {
    |created| == count && |after| == |before| + count
  }

  lemma TalliedRewrite<K(!new), R>(before: map<K, R>, after: map<K, R>, created: map<K, K>, count: nat, id: K, r: R)
    requires Tallied(before, after, created, count) && id in after
    ensures Tallied(before, after[id := r], created, count)
  {
    assert after[id := r].Keys == after.Keys;
    assert |after[id := r].Keys| == |after.Keys|;
  }

  lemma TalliedCreate<K(!new), R>(before: map<K, R>, after: map<K, R>, created: map<K, K>, count: nat, id: K, k: K, r: R)
    requires Tallied(before, after, created, count) && id !in created && k !in after
    ensures Tallied(before, after[k := r], created[id := k], count + 1)
  {
    SizeGrows(created, id, k);
    SizeGrows(after, k, r);
  }

  lemma NoEffect<K(!new), R>(before: map<K, R>, rewrites: map<K, R>, items: map<K, R>, known: set<K>)
    ensures Effect(before, rewrites, items, known, {}, before, map[])
  {
  }

  lemma ActQuiet<K(!new), R>(before: map<K, R>, rewrites: map<K, R>, items: map<K, R>, known: set<K>, acted: set<K>,
                       after: map<K, R>, created: map<K, K>, id: K)
    requires Effect(before, rewrites, items, known, acted, after, created)
    requires id !in rewrites && (id in items ==> id in known)
    ensures Effect(before, rewrites, items, known, acted + {id}, after, created)
  {
  }

  lemma ActRewrite<K(!new), R>(before: map<K, R>, rewrites: map<K, R>, items: map<K, R>, known: set<K>, acted: set<K>,
                         after: map<K, R>, created: map<K, K>, id: K)
    requires Effect(before, rewrites, items, known, acted, after, created)
    requires id in before && id in rewrites && id !in items
    ensures Effect(before, rewrites, items, known, acted + {id}, after[id := rewrites[id]], created)
  {
    forall t | t in created ensures ItemMade(before, items, after[id := rewrites[id]], t, created[t]) {
      assert ItemMade(before, items, after, t, created[t]);
    }
  }

  lemma ActCreate<K(!new), R>(before: map<K, R>, rewrites: map<K, R>, items: map<K, R>, known: set<K>, acted: set<K>,
                        after: map<K, R>, created: map<K, K>, id: K, k: K)
    requires Effect(before, rewrites, items, known, acted, after, created)
    requires id !in rewrites && id in items && id !in known && id !in acted && k !in after
    ensures Effect(before, rewrites, items, known, acted + {id}, after[k := items[id]], created[id := k])
  {
    var bigger := after[k := items[id]];
    forall t | t in created ensures ItemMade(before, items, bigger, t, created[t]) {
      assert ItemMade(before, items, after, t, created[t]);
    }
    assert ItemMade(before, items, bigger, id, k);
    ValuesGrow(created, id, k);
  }

  lemma ValuesGrow<K(!new)>(created: map<K, K>, id: K, k: K)
    requires id !in created
    ensures created[id := k].Values == created.Values + {k}
  {
    var grown := created[id := k];
    forall v ensures v in grown.Values <==> v in created.Values + {k} {
      if v in created.Values {
        var t :| t in created && created[t] == v;
        assert grown[t] == v;
      }
      if v == k { assert grown[id] == v; }
    }
  }

  lemma SizeGrows<K, V>(m: map<K, V>, k: K, v: V)
    requires k !in m
    ensures m[k := v].Keys == m.Keys + {k} && |m[k := v]| == |m| + 1
  {
    assert m[k := v].Keys == m.Keys + {k};
    assert |m[k := v].Keys| == |m.Keys| + 1;
  }

  /** What came of a record of the old bank, and of a new one. */
  lemma Afterwards<K(!new), R>(before: map<K, R>, rewrites: map<K, R>, items: map<K, R>, known: set<K>, acted: set<K>,
                         after: map<K, R>, created: map<K, K>, k: K)
    requires Effect(before, rewrites, items, known, acted, after, created) && k in after
    ensures k in before ==> after[k] == if k in acted && k in rewrites then rewrites[k] else before[k]
    ensures k !in before ==> exists t :: t in created && created[t] == k && t in items && after[k] == items[t]
  {
    if k !in before {
      var t :| t in created && created[t] == k;
      assert ItemMade(before, items, after, t, k);
    }
  }

  /** Nothing to rewrite differently and nothing to create: nothing happens. */
  lemma QuietIff<K(!new), R>(before: map<K, R>, rewrites: map<K, R>, items: map<K, R>, known: set<K>, acted: set<K>,
                       after: map<K, R>, created: map<K, K>)
    requires Effect(before, rewrites, items, known, acted, after, created)
    ensures after == before <==>
            (forall k :: k in acted && k in items ==> k in known)
            && (forall k :: k in acted && k in rewrites && k in before ==> rewrites[k] == before[k])
  {
    if k :| k in acted && k in items && k !in known {
      assert ItemMade(before, items, after, k, created[k]);
    } else {
      assert created.Keys == {};
      assert created.Values == {};
    }
  }

  lemma {:induction false} ValuesBounded<K(!new)>(m: map<K, K>)
    ensures |m.Values| <= |m|
    decreases |m|
  {
    if m.Keys != {} {
      var k :| k in m;
      var rest := m - {k};
      assert rest.Keys == m.Keys - {k} && |rest.Keys| == |m.Keys| - 1;
      ValuesBounded(rest);
      forall v | v in m.Values ensures v in rest.Values + {m[k]} {
        var j :| j in m && m[j] == v;
        assert j != k ==> rest[j] == v;
      }
      Bounded(m.Values, rest.Values, m[k]);
    } else {
      assert m.Values == {};
    }
  }

  lemma Bounded<K>(a: set<K>, b: set<K>, x: K)
    requires a <= b + {x}
    ensures |a| <= |b| + 1
  {
    SubsetSize(a, b + {x});
  }

  /** Each created item has a record of its own. */
  lemma CreatedDistinct<K(!new), R>(before: map<K, R>, rewrites: map<K, R>, items: map<K, R>, known: set<K>, acted: set<K>,
                                    after: map<K, R>, created: map<K, K>, count: nat, t: K, u: K)
    requires Effect(before, rewrites, items, known, acted, after, created) && Tallied(before, after, created, count)
    requires t in created && u in created && t != u
    ensures created[t] != created[u]
  {
    NewRecords(before, rewrites, items, known, acted, after, created);
    assert |created.Values| == |created|;
    if created[t] == created[u] { SharedValue(created, t, u); }
  }

  lemma NewRecords<K(!new), R>(before: map<K, R>, rewrites: map<K, R>, items: map<K, R>, known: set<K>, acted: set<K>,
                               after: map<K, R>, created: map<K, K>)
    requires Effect(before, rewrites, items, known, acted, after, created)
    ensures |after| == |before| + |created.Values|
  {
    forall v | v in created.Values ensures v !in before.Keys {
      var t :| t in created && created[t] == v;
      assert ItemMade(before, items, after, t, v);
    }
    assert after.Keys == before.Keys + created.Values;
    assert before.Keys !! created.Values;
    assert |after.Keys| == |before.Keys| + |created.Values|;
  }

  lemma SharedValue<K(!new)>(m: map<K, K>, t: K, u: K)
    requires t in m && u in m && t != u && m[t] == m[u]
    ensures |m.Values| < |m|
  {
    var rest := m - {t};
    assert rest.Keys == m.Keys - {t} && |rest.Keys| == |m.Keys| - 1;
    ValuesBounded(rest);
    assert rest[u] == m[t];
    forall v | v in m.Values ensures v in rest.Values {
      var k :| k in m && m[k] == v;
      assert rest[if k == t then u else k] == v;
    }
    assert m.Values == rest.Values;
  }
}
