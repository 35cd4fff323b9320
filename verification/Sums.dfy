/** Sums over finite maps and over histories, and how they react to one change. */
module Sums {

  /** The sum of w(k, m[k]) over the whole map. */
  ghost function Total<K, V>(m: map<K, V>, w: (K, V) -> int): int
    decreases |m|
  {
    if m == map[] then 0 else
    var k :| k in m;
    w(k, m[k]) + Total(m - {k}, w)
  }

  /** Any key may be taken out first. */
  lemma {:induction false} TotalRemove<K, V>(m: map<K, V>, w: (K, V) -> int, k: K)
    requires k in m
    ensures Total(m, w) == w(k, m[k]) + Total(m - {k}, w)
    decreases |m|
  {
    var k0 :| k0 in m && Total(m, w) == w(k0, m[k0]) + Total(m - {k0}, w);
    if k0 != k {
      TotalRemove(m - {k0}, w, k);
      TotalRemove(m - {k}, w, k0);
      assert m - {k0} - {k} == m - {k} - {k0};
    }
  }

  /** Writing one key changes the sum by the difference of that key's weights. */
  lemma TotalPut<K, V>(m: map<K, V>, w: (K, V) -> int, k: K, v: V)
    ensures Total(m[k := v], w) == Total(m, w) - (if k in m then w(k, m[k]) else 0) + w(k, v)
  {
    TotalRemove(m[k := v], w, k);
    assert m[k := v] - {k} == m - {k};
    if k in m {
      TotalRemove(m, w, k);
    } else {
      assert m - {k} == m;
    }
  }

  /** A map splits into the part whose keys are in ks and the rest. */
  lemma {:induction false} TotalSplit<K, V>(m: map<K, V>, w: (K, V) -> int, ks: set<K>)
    ensures Total(m, w) == Total(map k | k in m && k in ks :: m[k], w) + Total(m - ks, w)
    decreases |m|
  {
    var inside := map k | k in m && k in ks :: m[k];
    if m == map[] {
      assert inside == map[] && m - ks == map[];
    } else {
      var k :| k in m;
      TotalRemove(m, w, k);
      TotalSplit(m - {k}, w, ks);
      var inside' := map k' | k' in m - {k} && k' in ks :: (m - {k})[k'];
      if k in ks {
        TotalRemove(inside, w, k);
        assert inside - {k} == inside';
        assert m - {k} - ks == m - ks;
      } else {
        TotalRemove(m - ks, w, k);
        assert inside == inside';
        assert m - {k} - ks == m - ks - {k};
      }
    }
  }

  lemma {:induction false} TotalNonNegative<K, V>(m: map<K, V>, w: (K, V) -> int)
    requires forall k | k in m :: w(k, m[k]) >= 0
    ensures Total(m, w) >= 0
    decreases |m|
  {
    if m != map[] {
      var k :| k in m;
      TotalRemove(m, w, k);
      TotalNonNegative(m - {k}, w);
    }
  }

  lemma {:induction false} TotalZero<K, V>(m: map<K, V>, w: (K, V) -> int)
    requires forall k | k in m :: w(k, m[k]) == 0
    ensures Total(m, w) == 0
    decreases |m|
  {
    if m != map[] {
      var k :| k in m;
      TotalRemove(m, w, k);
      TotalZero(m - {k}, w);
    }
  }

  /** A summand of a sum of non-negative terms is at most the sum. */
  lemma TotalAtLeast<K, V>(m: map<K, V>, w: (K, V) -> int, k: K)
    requires k in m
    requires forall k' | k' in m :: w(k', m[k']) >= 0
    ensures Total(m, w) >= w(k, m[k])
  {
    TotalRemove(m, w, k);
    TotalNonNegative(m - {k}, w);
  }

  /** Equal weights give equal sums. */
  lemma {:induction false} TotalSame<K, V>(m: map<K, V>, w: (K, V) -> int, v: (K, V) -> int)
    requires forall k | k in m :: w(k, m[k]) == v(k, m[k])
    ensures Total(m, w) == Total(m, v)
    decreases |m|
  {
    if m != map[] {
      var k :| k in m;
      TotalRemove(m, w, k);
      TotalRemove(m, v, k);
      TotalSame(m - {k}, w, v);
    }
  }

  /** Weights that add up give sums that add up. */
  lemma {:induction false} TotalsAdd<K, V>(m: map<K, V>, v: (K, V) -> int, w: (K, V) -> int, sum: (K, V) -> int)
    requires forall k | k in m :: v(k, m[k]) + w(k, m[k]) == sum(k, m[k])
    ensures Total(m, v) + Total(m, w) == Total(m, sum)
    decreases |m|
  {
    if m != map[] {
      var k :| k in m;
      TotalRemove(m, v, k);
      TotalRemove(m, w, k);
      TotalRemove(m, sum, k);
      TotalsAdd(m - {k}, v, w, sum);
    }
  }

  /** The sum of w over a history. */
  ghost function Sum<E>(es: seq<E>, w: E -> int): int {
    if es == [] then 0 else Sum(es[..|es| - 1], w) + w(es[|es| - 1])
  }

  lemma {:induction false} SumAppend<E>(es: seq<E>, fs: seq<E>, w: E -> int)
    ensures Sum(es + fs, w) == Sum(es, w) + Sum(fs, w)
    decreases |fs|
  {
    if fs == [] {
      assert es + fs == es;
    } else {
      SumAppend(es, fs[..|fs| - 1], w);
      assert (es + fs)[..|es + fs| - 1] == es + fs[..|fs| - 1];
    }
  }

  /** The sum over at most one element. */
  lemma SumShort<E>(es: seq<E>, w: E -> int)
    requires |es| <= 1
    ensures Sum(es, w) == if es == [] then 0 else w(es[0])
  {
  }

  lemma {:induction false} SumNonNegative<E>(es: seq<E>, w: E -> int)
    requires forall e | e in es :: w(e) >= 0
    ensures Sum(es, w) >= 0
    decreases |es|
  {
    if es != [] {
      SumNonNegative(es[..|es| - 1], w);
    }
  }

  lemma {:induction false} SumZero<E>(es: seq<E>, w: E -> int)
    requires forall e | e in es :: w(e) == 0
    ensures Sum(es, w) == 0
    decreases |es|
  {
    if es != [] {
      SumZero(es[..|es| - 1], w);
    }
  }
}
