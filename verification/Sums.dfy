/** Sums over finite maps: the ledgers and the bytes on disk are added up with these. */
module Sums {

  ghost function Sum<K>(m: map<K, int>): int {
    if m == map[] then 0
    else
      var k :| k in m;
      m[k] + Sum(m - {k})
  }

  lemma {:induction false} SumRemove<K>(m: map<K, int>, k: K)
    requires k in m
    ensures Sum(m) == m[k] + Sum(m - {k})
    decreases |m|
  {
    var first :| first in m && Sum(m) == m[first] + Sum(m - {first});
    if first != k {
      SumRemove(m - {first}, k);
      SumRemove(m - {k}, first);
      assert m - {first} - {k} == m - {k} - {first};
    }
  }

  /** Adding or replacing one entry changes the sum by the difference. */
  lemma SumUpdate<K>(m: map<K, int>, k: K, v: int)
    ensures Sum(m[k := v]) == Sum(m) - (if k in m then m[k] else 0) + v
  {
    SumRemove(m[k := v], k);
    if k in m {
      SumRemove(m, k);
      assert m[k := v] - {k} == m - {k};
    } else {
      assert m[k := v] - {k} == m;
    }
  }

  lemma {:induction false} SumNonNegative<K>(m: map<K, int>)
    requires forall k :: k in m ==> m[k] >= 0
    ensures Sum(m) >= 0
    decreases |m|
  {
    if m != map[] {
      var k :| k in m;
      SumRemove(m, k);
      SumNonNegative(m - {k});
    }
  }

  /** A map bounded entry by entry has a bounded sum. */
  lemma {:induction false} SumMonotone<K>(m: map<K, int>, bound: map<K, int>)
    requires forall k :: k in m ==> k in bound && m[k] <= bound[k]
    requires forall k :: k in bound ==> bound[k] >= 0
    ensures Sum(m) <= Sum(bound)
    decreases |m|
  {
    if m == map[] {
      SumNonNegative(bound);
    } else {
      var k :| k in m;
      SumRemove(m, k);
      SumRemove(bound, k);
      SumMonotone(m - {k}, bound - {k});
    }
  }

  /** A map cut into two parts adds up to the sums of the parts. */
  lemma {:induction false} SumParts<K>(whole: map<K, int>, m: map<K, int>, n: map<K, int>)
    requires forall k :: k in whole ==> k in m || k in n
    requires forall k :: k in m ==> k !in n && k in whole && whole[k] == m[k]
    requires forall k :: k in n ==> k in whole && whole[k] == n[k]
    ensures Sum(whole) == Sum(m) + Sum(n)
    decreases |m|
  {
    if m == map[] {
      assert whole == n;
    } else {
      var k :| k in m;
      SumRemove(m, k);
      SumRemove(whole, k);
      SumParts(whole - {k}, m - {k}, n);
    }
  }

  /** Renaming keys without merging any keeps the sum. */
  lemma {:induction false} SumReindex<K, L>(m: map<K, int>, n: map<L, int>, f: map<K, L>)
    requires f.Keys == m.Keys && n.Keys == f.Values
    requires forall j, k :: j in f && k in f && j != k ==> f[j] != f[k]
    requires forall k :: k in m ==> n[f[k]] == m[k]
    ensures Sum(n) == Sum(m)
    decreases |m|
  {
    if m == map[] {
      assert f == map[];
      assert n.Keys == {};
      assert n == map[];
    } else {
      var k :| k in m;
      SumRemove(m, k);
      SumRemove(n, f[k]);
      forall l | l in (n - {f[k]}).Keys ensures l in (f - {k}).Values {
        assert l in f.Values;
        var j :| j in f && f[j] == l;
        assert j in f - {k} && (f - {k})[j] == l;
      }
      SumReindex(m - {k}, n - {f[k]}, f - {k});
    }
  }
}
