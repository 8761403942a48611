/** Sums over the values of a finite map, for measures of whole runs. */
module Sums {
  ghost function Sum<K, V>(m: map<K, V>, f: V -> nat): nat {
    if m == map[] then 0
    else
      var k :| k in m;
      f(m[k]) + Sum(m - {k}, f)
  }

  lemma {:induction false} SumWithout<K, V>(m: map<K, V>, f: V -> nat, k: K)
    requires k in m
    ensures Sum(m, f) == f(m[k]) + Sum(m - {k}, f)
    decreases |m|
  {
    var j :| j in m && Sum(m, f) == f(m[j]) + Sum(m - {j}, f);
    if j != k {
      SumWithout(m - {j}, f, k);
      SumWithout(m - {k}, f, j);
      assert m - {j} - {k} == m - {k} - {j};
    }
  }

  lemma SumUpdated<K, V>(m: map<K, V>, f: V -> nat, k: K, v: V)
    ensures Sum(m[k := v], f) + (if k in m then f(m[k]) else 0) == Sum(m, f) + f(v)
  {
    SumWithout(m[k := v], f, k);
    assert m[k := v] - {k} == m - {k};
    if k in m {
      SumWithout(m, f, k);
    } else {
      assert m - {k} == m;
    }
  }

  lemma SizeUpdated<K, V>(m: map<K, V>, k: K, v: V)
    ensures m[k := v].Keys == m.Keys + {k}
    ensures |m[k := v]| == |m| + if k in m then 0 else 1
  {
    assert m[k := v].Keys == m.Keys + {k};
    assert k in m ==> m.Keys + {k} == m.Keys;
  }

  lemma {:induction false} SumNotLarger<K, V>(m: map<K, V>, n: map<K, V>, f: V -> nat)
    requires m.Keys == n.Keys && forall k <- m :: f(m[k]) <= f(n[k])
    ensures Sum(m, f) <= Sum(n, f)
    decreases |m|
  {
    if m != map[] {
      var k :| k in m;
      SumWithout(m, f, k);
      SumWithout(n, f, k);
      SumNotLarger(m - {k}, n - {k}, f);
    } else {
      assert n == map[];
    }
  }

  lemma {:induction false} SumAtMost<K, V>(m: map<K, V>, f: V -> nat, most: nat)
    requires forall k <- m :: f(m[k]) <= most
    ensures Sum(m, f) <= most * |m|
    decreases |m|
  {
    if m == map[] {
      assert Sum(m, f) == 0;
    } else {
      var k :| k in m;
      SumWithout(m, f, k);
      SumAtMost(m - {k}, f, most);
      hide Sum;
      assert m == (m - {k})[k := m[k]];
      SizeUpdated(m - {k}, k, m[k]);
      OneMore(most, |m - {k}|);
    }
  }

  lemma OneMore(most: nat, n: nat)
    ensures most * (n + 1) == most * n + most
  {
  }
}
