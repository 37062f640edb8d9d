/**
 Sums of integers over the values of a finite map.

 The source accumulates over Go maps, whose iteration order is unspecified. `Sum` picks keys in
 an unspecified order too; the lemmas show that the order does not matter.
 */
module MapSum {

  ghost function Sum<K(!new)>(m: map<K, int>): int
    decreases |m|
  {
    if m == map[] then 0
    else
      var k := Pick(m);
      m[k] + Sum(m - {k})
  }

  ghost function Pick<K(!new)>(m: map<K, int>): (k: K)
    requires m != map[]
    ensures k in m
  {
    var k :| k in m;
    k
  }

  /** Any key may be taken out first. */
  lemma {:induction false} SumTakes<K(!new)>(m: map<K, int>, k: K)
    requires k in m
    ensures Sum(m) == m[k] + Sum(m - {k})
    decreases |m|
  {
    var j := Pick(m);
    if j != k {
      SumTakes(m - {j}, k);
      SumTakes(m - {k}, j);
      assert m - {j} - {k} == m - {k} - {j};
    }
  }

  /** Setting one entry changes the sum by the difference of the two values. */
  lemma SumUpdate<K(!new)>(m: map<K, int>, k: K, v: int)
    ensures Sum(m[k := v]) == Sum(m) - (if k in m then m[k] else 0) + v
  {
    SumTakes(m[k := v], k);
    if k in m {
      SumTakes(m, k);
      assert m[k := v] - {k} == m - {k};
    } else {
      assert m[k := v] - {k} == m;
    }
  }

  lemma {:induction false} SumNonNegative<K(!new)>(m: map<K, int>)
    requires forall k :: k in m ==> m[k] >= 0
    ensures Sum(m) >= 0
    decreases |m|
  {
    if m != map[] {
      var k := Pick(m);
      SumTakes(m, k);
      SumNonNegative(m - {k});
    }
  }

  /** Sums add up entry by entry. */
  lemma {:induction false} SumAdds<K(!new)>(a: map<K, int>, b: map<K, int>, c: map<K, int>)
    requires a.Keys == b.Keys == c.Keys
    requires forall k :: k in c ==> c[k] == a[k] + b[k]
    ensures Sum(c) == Sum(a) + Sum(b)
    decreases |c|
  {
    if c == map[] {
      assert a == map[] && b == map[];
    } else {
      var k := Pick(c);
      SumTakes(a, k);
      SumTakes(b, k);
      SumTakes(c, k);
      SumAdds(a - {k}, b - {k}, c - {k});
    }
  }

  /** `n` times `e`, by repeated addition. */
  function Times(n: nat, e: nat): nat {
    if n == 0 then 0 else Times(n - 1, e) + e
  }

  lemma {:induction false} TimesIsProduct(n: nat, e: nat)
    ensures Times(n, e) == n * e
  {
    if n > 0 {
      TimesIsProduct(n - 1, e);
      assert n * e == (n - 1) * e + e;
    }
  }

  lemma {:induction false} TimesMonotone(a: nat, b: nat, e: nat)
    requires a <= b
    ensures Times(a, e) <= Times(b, e)
    decreases b
  {
    if a < b {
      TimesMonotone(a, b - 1, e);
    }
  }

  /** With every value at most `e`, the sum is at most `e` per entry. */
  lemma {:induction false} SumAtMost<K(!new)>(m: map<K, int>, e: nat)
    requires forall k :: k in m ==> m[k] <= e
    ensures Sum(m) <= Times(|m|, e)
    decreases |m|
  {
    if m != map[] {
      var k := Pick(m);
      SumTakes(m, k);
      SumAtMost(m - {k}, e);
      assert (m - {k}).Keys == m.Keys - {k};
    }
  }
}
