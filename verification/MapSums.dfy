/** Sums over the entries of a map. */
module MapSums {
  ghost function Sum<K, V>(m: map<K, V>, f: (K, V) -> int): int
    decreases |m|
  {
    if m == map[] then 0
    else
      var k :| k in m;
      f(k, m[k]) + Sum(m - {k}, f)
  }

  lemma {:induction false} Remove<K, V>(m: map<K, V>, k: K, f: (K, V) -> int)
    requires k in m
    ensures Sum(m, f) == f(k, m[k]) + Sum(m - {k}, f)
    decreases |m|
  {
    var j :| j in m && Sum(m, f) == f(j, m[j]) + Sum(m - {j}, f);
    if j != k {
      Remove(m - {j}, k, f);
      Remove(m - {k}, j, f);
      assert m - {j} - {k} == m - {k} - {j};
    }
  }

  /** The sum after an entry is set, whether or not it was there before. */
  lemma Put<K, V>(m: map<K, V>, k: K, v: V, f: (K, V) -> int)
    ensures Sum(m[k := v], f) == f(k, v) + Sum(m - {k}, f)
  {
    Remove(m[k := v], k, f);
    assert m[k := v] - {k} == m - {k};
  }

  lemma Absent<K, V>(m: map<K, V>, k: K, f: (K, V) -> int)
    requires k !in m
    ensures Sum(m - {k}, f) == Sum(m, f)
  {
    assert m - {k} == m;
  }

  lemma Set<K, V>(m: map<K, V>, k: K, v: V, f: (K, V) -> int)
    ensures Sum(m[k := v], f) == Sum(m, f) - (if k in m then f(k, m[k]) else 0) + f(k, v)
  {
    Put(m, k, v, f);
    if k in m {
      Remove(m, k, f);
    } else {
      Absent(m, k, f);
    }
  }

  lemma {:induction false} Same<K, V>(m: map<K, V>, f: (K, V) -> int, g: (K, V) -> int)
    requires forall k | k in m :: f(k, m[k]) == g(k, m[k])
    ensures Sum(m, f) == Sum(m, g)
    decreases |m|
  {
    if m != map[] {
      var k :| k in m;
      Remove(m, k, f);
      Remove(m, k, g);
      Same(m - {k}, f, g);
    }
  }

  /** Dropping entries that weigh nothing changes no sum. */
  lemma {:induction false} Drop<K, V>(m: map<K, V>, ks: set<K>, f: (K, V) -> int)
    requires forall k | k in m && k in ks :: f(k, m[k]) == 0
    ensures Sum(m - ks, f) == Sum(m, f)
    decreases |m|
  {
    if k :| k in m && k in ks {
      Remove(m, k, f);
      Drop(m - {k}, ks, f);
      assert m - {k} - ks == m - ks;
    } else {
      assert m - ks == m;
    }
  }

  lemma {:induction false} Split<K, V>(m: map<K, V>, f: (K, V) -> int, g: (K, V) -> int, h: (K, V) -> int)
    requires forall k | k in m :: f(k, m[k]) == g(k, m[k]) + h(k, m[k])
    ensures Sum(m, f) == Sum(m, g) + Sum(m, h)
    decreases |m|
  {
    if m != map[] {
      var k :| k in m;
      Remove(m, k, f);
      Remove(m, k, g);
      Remove(m, k, h);
      Split(m - {k}, f, g, h);
    }
  }

  lemma {:induction false} ZeroExactlyWhen<K, V>(m: map<K, V>, f: (K, V) -> int)
    requires forall k | k in m :: f(k, m[k]) >= 0
    ensures Sum(m, f) >= 0
    ensures Sum(m, f) == 0 <==> forall k | k in m :: f(k, m[k]) == 0
    decreases |m|
  {
    if m != map[] {
      var k :| k in m;
      Remove(m, k, f);
      ZeroExactlyWhen(m - {k}, f);
      assert forall j | j in m :: j == k || j in m - {k};
    }
  }
}
