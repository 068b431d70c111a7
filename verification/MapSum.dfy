/** Sums of an integer measure over the values of a finite map, and over a log. */
module MapSum {
  ghost function Pick<K, V>(m: map<K, V>): (k: K)
    requires m != map[]
    ensures k in m
  {
    var k :| k in m; k
  }

  ghost function SumBy<K, V>(m: map<K, V>, f: V -> int): int
    decreases |m|
  {
    if m == map[] then 0 else f(m[Pick(m)]) + SumBy(m - {Pick(m)}, f)
  }

  /** Any key can be split off, not just the one the definition picks. */
  lemma {:induction false} SumBySplit<K, V>(m: map<K, V>, f: V -> int, k: K)
    requires k in m
    ensures SumBy(m, f) == f(m[k]) + SumBy(m - {k}, f)
    decreases |m|
  {
    var c := Pick(m);
    if c != k {
      SumBySplit(m - {c}, f, k);
      SumBySplit(m - {k}, f, c);
      assert m - {c} - {k} == m - {k} - {c};
    }
  }

  lemma SumByUpdate<K, V>(m: map<K, V>, f: V -> int, k: K, v: V)
    ensures SumBy(m[k := v], f) == SumBy(m, f) + f(v) - (if k in m then f(m[k]) else 0)
  {
    SumBySplit(m[k := v], f, k);
    assert m[k := v] - {k} == m - {k};
    if k in m {
      SumBySplit(m, f, k);
    } else {
      assert m - {k} == m;
    }
  }

  lemma SumByRemove<K, V>(m: map<K, V>, f: V -> int, k: K)
    ensures SumBy(m - {k}, f) == SumBy(m, f) - (if k in m then f(m[k]) else 0)
  {
    if k in m {
      SumBySplit(m, f, k);
    } else {
      assert m - {k} == m;
    }
  }

  lemma MulSucc(n: int, x: int)
    ensures (n + 1) * x == n * x + x
  {
  }

  lemma {:induction false} SumByBounds<K, V>(m: map<K, V>, f: V -> int, lo: int, hi: int)
    requires forall k :: k in m ==> lo <= f(m[k]) <= hi
    ensures |m| * lo <= SumBy(m, f) <= |m| * hi
    decreases |m|
  {
    if m != map[] {
      var rest := m - {Pick(m)};
      assert m.Keys == rest.Keys + {Pick(m)};
      SumByBounds(rest, f, lo, hi);
      MulSucc(|rest|, lo);
      MulSucc(|rest|, hi);
    }
  }

  lemma {:induction false} SumByNonNegative<K, V>(m: map<K, V>, f: V -> int)
    requires forall k :: k in m ==> f(m[k]) >= 0
    ensures SumBy(m, f) >= 0
    ensures forall k :: k in m ==> f(m[k]) <= SumBy(m, f)
    decreases |m|
  {
    if m != map[] {
      forall k | k in m
        ensures f(m[k]) <= SumBy(m, f) && SumBy(m, f) >= 0
      {
        SumBySplit(m, f, k);
        SumByNonNegative(m - {k}, f);
      }
      assert Pick(m) in m;
    }
  }

  lemma {:induction false} SumByDifference<K, V>(m: map<K, V>, f: V -> int, g: V -> int, h: V -> int)
    requires forall k :: k in m ==> f(m[k]) == g(m[k]) - h(m[k])
    ensures SumBy(m, f) == SumBy(m, g) - SumBy(m, h)
    decreases |m|
  {
    if m != map[] {
      SumByDifference(m - {Pick(m)}, f, g, h);
    }
  }

  /** A sum splits into the part over some keys and the part over the others. */
  lemma {:induction false} SumByPartition<K, V>(m: map<K, V>, f: V -> int, keys: set<K>)
    ensures SumBy(m, f) == SumBy(map k | k in m && k in keys :: m[k], f) + SumBy(m - keys, f)
    decreases |m|
  {
    var inside := map k | k in m && k in keys :: m[k];
    if x :| x in m && x in keys {
      SumBySplit(m, f, x);
      SumByPartition(m - {x}, f, keys);
      SumBySplit(inside, f, x);
      assert inside - {x} == map k | k in m - {x} && k in keys :: (m - {x})[k];
      assert m - {x} - keys == m - keys;
    } else {
      assert inside == map[];
      assert m - keys == m;
    }
  }
}
