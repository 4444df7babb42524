/** Sums over finite maps, used to state totals over wallets, tickets and deposits. */
module Sums {

  ghost function SumMap<K>(m: map<K, int>): int
    decreases |m|
  {
    if m == map[] then 0
    else
      var k :| k in m;
      SizeLessOne(m, k);
      m[k] + SumMap(m - {k})
  }

  lemma SizeLessOne<K>(m: map<K, int>, k: K)
    requires k in m
    ensures |m - {k}| == |m| - 1
  {
    assert (m - {k}).Keys == m.Keys - {k};
    assert |(m - {k}).Keys| == |m.Keys| - 1;
  }

  /** Any key may be taken out first. */
  lemma {:induction false} SumMapRemove<K>(m: map<K, int>, k: K)
    requires k in m
    ensures SumMap(m) == m[k] + SumMap(m - {k})
    decreases |m|
  {
    var j :| j in m && SumMap(m) == m[j] + SumMap(m - {j});
    if j != k {
      SizeLessOne(m, j);
      SizeLessOne(m, k);
      SumMapRemove(m - {j}, k);
      SumMapRemove(m - {k}, j);
      assert m - {j} - {k} == m - {k} - {j};
    }
  }

  lemma SumMapInsert<K>(m: map<K, int>, k: K, v: int)
    requires k !in m
    ensures SumMap(m[k := v]) == SumMap(m) + v
  {
    SumMapRemove(m[k := v], k);
    assert m[k := v] - {k} == m;
  }

  /** The key is in `m` with its value exactly when it is in one of the two parts. */
  ghost predicate SplitAt<K>(m: map<K, int>, a: map<K, int>, b: map<K, int>, k: K) {
    && (k in m <==> k in a || k in b) && !(k in a && k in b)
    && (k in a ==> m[k] == a[k]) && (k in b ==> m[k] == b[k])
  }

  lemma {:induction false} SumMapSplit<K(!new)>(m: map<K, int>, a: map<K, int>, b: map<K, int>)
    requires forall k :: SplitAt(m, a, b, k)
    ensures SumMap(m) == SumMap(a) + SumMap(b)
    decreases |a|
  {
    if a == map[] {
      forall k
        ensures (k in m <==> k in b) && (k in b ==> m[k] == b[k])
      {
        assert SplitAt(m, a, b, k);
      }
      assert m == b;
    } else {
      var j :| j in a;
      SizeLessOne(a, j);
      assert SplitAt(m, a, b, j);
      forall k
        ensures SplitAt(m - {j}, a - {j}, b, k)
      {
        assert SplitAt(m, a, b, k);
      }
      SumMapSplit(m - {j}, a - {j}, b);
      SumMapRemove(m, j);
      SumMapRemove(a, j);
    }
  }

  lemma {:induction false} PositiveSum<K>(m: map<K, int>)
    requires forall k :: k in m ==> m[k] > 0
    ensures SumMap(m) >= 0 && (SumMap(m) == 0 <==> m == map[])
    decreases |m|
  {
    if m != map[] {
      var k :| k in m;
      SizeLessOne(m, k);
      SumMapRemove(m, k);
      PositiveSum(m - {k});
    }
  }
}
