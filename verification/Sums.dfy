/** Sums over finite maps: the SQL SUM(...) of the selected rows, and the total of
    the selected transactions on the chain. */
module Sums {

  /** The sum of all values of a finite map. */
  ghost function Total<K>(m: map<K, nat>): nat
    decreases |m|
  {
    if m == map[] then 0
    else
      var k :| k in m;
      m[k] + Total(m - {k})
  }

  /** Any key may be taken out first. */
  lemma {:induction false} TotalRemove<K>(m: map<K, nat>, k: K)
    requires k in m
    ensures Total(m) == m[k] + Total(m - {k})
    decreases |m|
  {
    var j :| j in m && Total(m) == m[j] + Total(m - {j});
    if j != k {
      TotalRemove(m - {j}, k);
      TotalRemove(m - {k}, j);
      assert m - {j} - {k} == m - {k} - {j};
    }
  }

  lemma TotalInsert<K>(m: map<K, nat>, k: K, v: nat)
    requires k !in m
    ensures Total(m[k := v]) == Total(m) + v
  {
    TotalRemove(m[k := v], k);
    assert m[k := v] - {k} == m;
  }

  /** If f sends the keys of m one-to-one into n without lowering a value, the total does not drop. */
  lemma {:induction false} TotalInjects<A, B>(m: map<A, nat>, n: map<B, nat>, f: map<A, B>)
    requires forall a :: a in m ==> a in f && f[a] in n && m[a] <= n[f[a]]
    requires forall a, b :: a in m && b in m && f[a] == f[b] ==> a == b
    ensures Total(m) <= Total(n)
    decreases |m|
  {
    if m != map[] {
      var a :| a in m;
      TotalRemove(m, a);
      TotalRemove(n, f[a]);
      TotalInjects(m - {a}, n - {f[a]}, f);
    }
  }

  lemma TotalMono<K>(m: map<K, nat>, n: map<K, nat>)
    requires forall k :: k in m ==> k in n && m[k] <= n[k]
    ensures Total(m) <= Total(n)
  {
    TotalInjects(m, n, map k | k in m :: k);
  }

  lemma {:induction false} TotalScale<K>(m: map<K, nat>, n: map<K, nat>, unit: nat)
    requires m.Keys == n.Keys
    requires forall k :: k in m ==> n[k] == unit * m[k]
    ensures Total(n) == unit * Total(m)
    decreases |m|
  {
    if m == map[] {
      assert n == map[];
    } else {
      var k :| k in m;
      var m', n' := m - {k}, n - {k};
      TotalRemove(m, k);
      TotalRemove(n, k);
      TotalScale(m', n', unit);
      Distribute(unit, m[k], Total(m'));
    }
  }

  lemma Distribute(a: nat, b: nat, c: nat)
    ensures a * (b + c) == a * b + a * c
  {
  }

  lemma WithoutKey<K>(a: map<K, nat>, b: map<K, nat>, k: K)
    requires k !in a
    ensures a + b - {k} == a + (b - {k})
  {
  }

  /** The total of two disjoint maps together is the sum of their totals. */
  lemma {:induction false} TotalSplit<K>(a: map<K, nat>, b: map<K, nat>)
    requires forall k :: k in b ==> k !in a
    ensures Total(a + b) == Total(a) + Total(b)
    decreases |b|
  {
    if b == map[] {
      assert a + b == a;
    } else {
      var k :| k in b;
      var b' := b - {k};
      TotalRemove(b, k);
      TotalSplit(a, b');
      TotalRemove(a + b, k);
      assert (a + b) - {k} == a + b' by { WithoutKey(a, b, k); }
    }
  }
}
