/** Sums over the entries of a map, for the books of the contracts. */
module MapSums {

  ghost function Sum<K(!new), V(!new)>(m: map<K, V>, f: (K, V) -> int): int
    decreases |m|
  {
    if m == map[] then 0
    else
      var k :| k in m;
      f(k, m[k]) + Sum(m - {k}, f)
  }

  lemma {:induction false} SumRemove<K(!new), V(!new)>(m: map<K, V>, f: (K, V) -> int, k: K)
    requires k in m
    ensures Sum(m, f) == f(k, m[k]) + Sum(m - {k}, f)
    decreases |m|
  {
    var j :| j in m && Sum(m, f) == f(j, m[j]) + Sum(m - {j}, f);
    if j != k {
      SumRemove(m - {j}, f, k);
      SumRemove(m - {k}, f, j);
      assert m - {j} - {k} == m - {k} - {j};
    }
  }

  /** What an entry contributes; a missing entry contributes nothing. */
  ghost function At<K(!new), V(!new)>(m: map<K, V>, f: (K, V) -> int, k: K): int {
    if k in m then f(k, m[k]) else 0
  }

  lemma {:induction false} SumUpdate<K(!new), V(!new)>(m: map<K, V>, f: (K, V) -> int, k: K, v: V)
    ensures Sum(m[k := v], f) == Sum(m, f) - At(m, f, k) + f(k, v)
  {
    SumRemove(m[k := v], f, k);
    assert m[k := v] - {k} == m - {k};
    if k in m {
      SumRemove(m, f, k);
    } else {
      assert m - {k} == m;
    }
  }

  lemma {:induction false} SumDrop<K(!new), V(!new)>(m: map<K, V>, f: (K, V) -> int, k: K)
    ensures Sum(m - {k}, f) == Sum(m, f) - At(m, f, k)
  {
    if k in m {
      SumRemove(m, f, k);
    } else {
      assert m - {k} == m;
    }
  }

  /** A sum over fewer keys with smaller entries is smaller. */
  lemma {:induction false} SumAtMost<K(!new), V(!new), W(!new)>(
    m: map<K, V>, f: (K, V) -> int, n: map<K, W>, g: (K, W) -> int)
    requires forall k :: k in m ==> k in n && f(k, m[k]) <= g(k, n[k])
    requires forall k :: k in n ==> 0 <= g(k, n[k])
    ensures Sum(m, f) <= Sum(n, g)
    decreases |n|
  {
    if n == map[] {
      assert m == map[];
    } else {
      var k :| k in n && Sum(n, g) == g(k, n[k]) + Sum(n - {k}, g);
      SumDrop(m, f, k);
      SumAtMost(m - {k}, f, n - {k}, g);
    }
  }

  lemma {:induction false} SumNonNegative<K(!new), V(!new)>(m: map<K, V>, f: (K, V) -> int)
    requires forall k :: k in m ==> 0 <= f(k, m[k])
    ensures 0 <= Sum(m, f)
  {
    SumAtMost<K, V, V>(map[], f, m, f);
  }

  lemma {:induction false} EntryAtMostSum<K(!new), V(!new)>(m: map<K, V>, f: (K, V) -> int, k: K)
    requires forall j :: j in m ==> 0 <= f(j, m[j])
    ensures At(m, f, k) <= Sum(m, f)
  {
    SumDrop(m, f, k);
    SumNonNegative(m - {k}, f);
  }

  lemma {:induction false} SumSame<K(!new), V(!new), W(!new)>(
    m: map<K, V>, f: (K, V) -> int, n: map<K, W>, g: (K, W) -> int)
    requires m.Keys == n.Keys
    requires forall k :: k in m ==> f(k, m[k]) == g(k, n[k])
    ensures Sum(m, f) == Sum(n, g)
    decreases |m|
  {
    if m != map[] {
      var k :| k in m && Sum(m, f) == f(k, m[k]) + Sum(m - {k}, f);
      SumDrop(n, g, k);
      assert (m - {k}).Keys == (n - {k}).Keys;
      SumSame(m - {k}, f, n - {k}, g);
    }
  }

  // ----- books of amounts -----

  /** A missing entry is zero. */
  function Get<K>(m: map<K, int>, k: K): int { if k in m then m[k] else 0 }

  ghost function Where<K(!new)>(p: K -> bool): (K, int) -> int { (k: K, v: int) => if p(k) then v else 0 }

  /** The total over the keys that satisfy p. */
  ghost function Total<K(!new)>(m: map<K, int>, p: K -> bool): int { Sum<K, int>(m, Where(p)) }

  lemma {:induction false} TotalUpdate<K(!new)>(m: map<K, int>, p: K -> bool, k: K, v: int)
    ensures Total(m[k := v], p) == Total(m, p) + if p(k) then v - Get(m, k) else 0
  {
    SumUpdate<K, int>(m, Where(p), k, v);
  }

  lemma {:induction false} TotalDrop<K(!new)>(m: map<K, int>, p: K -> bool, k: K)
    ensures Total(m - {k}, p) == Total(m, p) - if p(k) then Get(m, k) else 0
  {
    SumDrop<K, int>(m, Where(p), k);
  }

  ghost predicate NonNegative<K(!new)>(m: map<K, int>) {
    forall k :: k in m ==> 0 <= m[k]
  }

  /** With no negative entry, one entry is at most the total. */
  lemma {:induction false} EntryAtMostTotal<K(!new)>(m: map<K, int>, p: K -> bool, k: K)
    requires NonNegative(m)
    ensures p(k) ==> Get(m, k) <= Total(m, p)
  {
    EntryAtMostSum<K, int>(m, Where(p), k);
  }
}
