/**
 * A document collection keyed by id, and the order in which a query sees its documents.
 * The store enumerates documents in an order of its own; the model fixes that order by
 * choice, one order per table. Single queries depend on it only in the order of tied keys;
 * the page-tiling lemmas also rely on every query of one table seeing the same order.
 */
module Documents {
  import opened Sequences

  /** Some id of a nonempty collection. */
  ghost function Pick<K, V>(m: map<K, V>): (k: K)
    requires m != map[]
    ensures k in m
  {
    var k :| k in m; k
  }

  /** The documents of a collection, one entry per id, in the store's enumeration order. */
  ghost function Hits<K, V>(m: map<K, V>): (s: seq<V>)
    ensures |s| == |m|
    decreases |m|
  {
    if m == map[] then []
    else
      var k := Pick(m);
      assert |m - {k}| == |m| - 1 by {
        assert (m - {k}).Keys == m.Keys - {k};
      }
      [m[k]] + Hits(m - {k})
  }

  /** A document appears among the hits exactly when it is stored under some id. */
  lemma {:induction false} HitsMembership<K, V>(m: map<K, V>, v: V)
    ensures v in Hits(m) <==> exists k :: k in m && m[k] == v
    decreases |m|
  {
    if m != map[] {
      var p := Pick(m);
      HitsMembership(m - {p}, v);
      if exists k :: k in m && m[k] == v {
        var k :| k in m && m[k] == v;
        if k != p {
          assert k in m - {p} && (m - {p})[k] == v;
        }
      }
    }
  }

  lemma HitsUnfold<K, V>(m: map<K, V>)
    requires m != map[]
    ensures multiset(Hits(m)) == multiset{m[Pick(m)]} + multiset(Hits(m - {Pick(m)}))
  {
    var p := Pick(m);
    assert Hits(m) == [m[p]] + Hits(m - {p});
  }

  lemma Rearrange<V>(whole: multiset<V>, part: multiset<V>, other: multiset<V>, rest: multiset<V>, x: V, y: V)
    requires whole == multiset{x} + part
    requires part == rest + multiset{y}
    requires other == rest + multiset{x}
    ensures whole == other + multiset{y}
  {
  }

  /** The hits of a collection are those of the collection without `k`, plus the document at `k`. */
  lemma {:induction false} HitsRemove<K, V>(m: map<K, V>, k: K)
    requires k in m
    ensures multiset(Hits(m)) == multiset(Hits(m - {k})) + multiset{m[k]}
    decreases m.Keys
  {
    var p := Pick(m);
    HitsUnfold(m);
    if p != k {
      var mp := m - {p};
      var mk := m - {k};
      var rest := mp - {k};
      HitsRemove(mp, k);
      assert mk - {p} == rest;
      HitsRemove(mk, p);
      Rearrange(multiset(Hits(m)), multiset(Hits(mp)), multiset(Hits(mk)), multiset(Hits(rest)), m[p], m[k]);
    }
  }

  /** Storing `v` at `k` replaces the document at `k`, if any, among the hits. */
  lemma HitsUpdate<K, V>(m: map<K, V>, k: K, v: V)
    ensures multiset(Hits(m[k := v])) == multiset(Hits(m - {k})) + multiset{v}
  {
    RemoveUpdated(m, k, v);
    HitsRemove(m[k := v], k);
  }

  /** Removing an id undoes storing a document under it. */
  lemma RemoveUpdated<K, V>(m: map<K, V>, k: K, v: V)
    ensures m[k := v] - {k} == m - {k}
  {
    assert (m[k := v] - {k}).Keys == (m - {k}).Keys;
  }

  /** Removing an absent id changes nothing. */
  lemma RemoveAbsent<K, V>(m: map<K, V>, k: K)
    requires k !in m
    ensures m - {k} == m
  {
    assert (m - {k}).Keys == m.Keys;
  }

  /** The number of documents satisfying `p`, as the store's `count` reports it. */
  ghost function CountWhere<K, V(!new)>(m: map<K, V>, p: V -> bool): nat
  {
    |Filter(Hits(m), p)|
  }

  /** The store's count is the number of ids whose document satisfies `p`. */
  lemma {:induction false} CountIsIds<K, V(!new)>(m: map<K, V>, p: V -> bool)
    ensures CountWhere(m, p) == |set k | k in m && p(m[k])|
    decreases |m|
  {
    if m == map[] {
      assert m.Keys == {};
    } else {
      var q := Pick(m);
      var rest := m - {q};
      assert |rest| < |m| by {
        assert rest.Keys == m.Keys - {q};
      }
      CountIsIds(rest, p);
      assert Hits(m) == [m[q]] + Hits(rest);
      FilterAppend([m[q]], Hits(rest), p);
      IdsStep(m, q, p);
    }
  }

  /** The matching ids are those of the collection without `q`, plus `q` when it matches. */
  lemma IdsStep<K, V(!new)>(m: map<K, V>, q: K, p: V -> bool)
    requires q in m
    ensures var rest := m - {q};
      |set k | k in m && p(m[k])| == |set k | k in rest && p(rest[k])| + (if p(m[q]) then 1 else 0)
  {
    var rest := m - {q};
    var all := set k | k in m && p(m[k]);
    var others := set k | k in rest && p(rest[k]);
    assert q !in others;
    if p(m[q]) {
      assert all == others + {q};
    } else {
      assert all == others;
    }
  }

  /** The store's count is the size of any set of ids that holds exactly the matching ids. */
  lemma CountIsIdSet<K, V(!new)>(m: map<K, V>, p: V -> bool, ids: set<K>)
    requires forall k :: k in ids <==> k in m && p(m[k])
    ensures CountWhere(m, p) == |ids|
  {
    CountIsIds(m, p);
    assert ids == set k | k in m && p(m[k]);
  }

  /**
   * When the documents `p` selects differ from one id to the next, no selected document
   * is enumerated twice.
   */
  lemma {:induction false} HitsDistinct<K, V(!new)>(m: map<K, V>, p: V -> bool)
    requires forall j, k :: j in m && k in m && j != k && p(m[j]) && p(m[k]) ==> m[j] != m[k]
    ensures Distinct(Filter(Hits(m), p))
    decreases |m|
  {
    if m != map[] {
      var q := Pick(m);
      var rest := m - {q};
      assert |rest| < |m| by {
        assert rest.Keys == m.Keys - {q};
      }
      HitsDistinct(rest, p);
      assert Hits(m) == [m[q]] + Hits(rest);
      FilterAppend([m[q]], Hits(rest), p);
      var tail := Filter(Hits(rest), p);
      if p(m[q]) {
        if m[q] in tail {
          HitsMembership(rest, m[q]);
          assert false;
        }
        assert Filter([m[q]], p) == [m[q]];
        DistinctCons(m[q], tail);
      } else {
        assert Filter([m[q]], p) == [];
        assert [] + tail == tail;
      }
    }
  }
}
