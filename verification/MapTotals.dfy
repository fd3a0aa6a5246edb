/** Sums over the values of a finite map. */
module MapTotals {
  ghost function Total<K, V>(m: map<K, V>, f: V -> int): int
    decreases |m|
  {
    if m == map[] then 0
    else
      assert m.Keys != {};
      var k :| k in m;
      f(m[k]) + Total(m - {k}, f)
  }

  lemma {:induction false} TotalRemove<K, V>(m: map<K, V>, f: V -> int, k: K)
    requires k in m
    ensures Total(m, f) == f(m[k]) + Total(m - {k}, f)
    decreases |m|
  {
    var j :| j in m && Total(m, f) == f(m[j]) + Total(m - {j}, f);
    if j != k {
      TotalRemove(m - {j}, f, k);
      TotalRemove(m - {k}, f, j);
      assert m - {j} - {k} == m - {k} - {j};
    }
  }

  /** Setting a key replaces its contribution. */
  lemma {:induction false} TotalUpdate<K, V>(m: map<K, V>, f: V -> int, k: K, v: V)
    ensures Total(m[k := v], f) == Total(m, f) - (if k in m then f(m[k]) else 0) + f(v)
  {
    TotalRemove(m[k := v], f, k);
    assert m[k := v] - {k} == m - {k};
    if k in m {
      TotalRemove(m, f, k);
    } else {
      assert m - {k} == m;
    }
  }

  lemma {:induction false} TotalAdd<K, V>(m: map<K, V>, f: V -> int, g: V -> int, h: V -> int)
    requires forall v :: h(v) == f(v) + g(v)
    ensures Total(m, h) == Total(m, f) + Total(m, g)
    decreases |m|
  {
    if m != map[] {
      var k :| k in m;
      TotalRemove(m, f, k);
      TotalRemove(m, g, k);
      TotalRemove(m, h, k);
      TotalAdd(m - {k}, f, g, h);
    }
  }

  /** Dropping keys that contribute nothing changes nothing. */
  lemma {:induction false} TotalDrop<K, V>(m: map<K, V>, f: V -> int, s: set<K>)
    requires forall k :: k in m && k in s ==> f(m[k]) == 0
    ensures Total(m - s, f) == Total(m, f)
    decreases |s|
  {
    if s != {} {
      var k :| k in s;
      if k in m {
        TotalRemove(m, f, k);
      } else {
        assert m - {k} == m;
      }
      TotalDrop(m - {k}, f, s - {k});
      assert m - s == m - {k} - (s - {k});
    } else {
      assert m - s == m;
    }
  }

  lemma {:induction false} TotalZero<K, V>(m: map<K, V>, f: V -> int)
    requires forall k :: k in m ==> f(m[k]) == 0
    ensures Total(m, f) == 0
    decreases |m|
  {
    if m != map[] {
      var k :| k in m;
      TotalRemove(m, f, k);
      TotalZero(m - {k}, f);
    }
  }

  lemma {:induction false} TotalAgree<K, V>(m: map<K, V>, f: V -> int, g: V -> int)
    requires forall k :: k in m ==> f(m[k]) == g(m[k])
    ensures Total(m, f) == Total(m, g)
    decreases |m|
  {
    if m != map[] {
      var k :| k in m;
      TotalRemove(m, f, k);
      TotalRemove(m, g, k);
      TotalAgree(m - {k}, f, g);
    }
  }

  lemma {:induction false} TotalNonnegative<K, V>(m: map<K, V>, f: V -> int)
    requires forall k :: k in m ==> f(m[k]) >= 0
    ensures Total(m, f) >= 0
    decreases |m|
  {
    if m != map[] {
      var k :| k in m;
      TotalRemove(m, f, k);
      TotalNonnegative(m - {k}, f);
    }
  }

  /** One contribution among nonnegative ones is at most the total. */
  lemma {:induction false} TotalAtLeast<K, V>(m: map<K, V>, f: V -> int, k: K)
    requires k in m && forall j :: j in m ==> f(m[j]) >= 0
    ensures f(m[k]) <= Total(m, f)
  {
    TotalRemove(m, f, k);
    TotalNonnegative(m - {k}, f);
  }

  lemma {:induction false} TotalMapped<K, V, W>(m: map<K, V>, f: V -> int, m': map<K, W>, g: W -> int)
    requires m.Keys == m'.Keys && forall k :: k in m ==> f(m[k]) == g(m'[k])
    ensures Total(m, f) == Total(m', g)
    decreases |m|
  {
    if m == map[] {
      assert m' == map[];
    } else {
      var k :| k in m;
      TotalRemove(m, f, k);
      TotalRemove(m', g, k);
      TotalMapped(m - {k}, f, m' - {k}, g);
    }
  }
}
