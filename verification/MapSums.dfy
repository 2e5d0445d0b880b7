/** Sums over the values of a finite map: references held by many owners, bytes booked by many rows. */
module MapSums {

  /** The union, with multiplicities, of everything the owners in `m` hold. */
  ghost function Total<K, C>(m: map<K, multiset<C>>): multiset<C>
    decreases |m|
  {
    if m == map[] then multiset{} else
      var k :| k in m;
      m[k] + Total(m - {k})
  }

  lemma {:induction false} TotalRemove<K, C>(m: map<K, multiset<C>>, k: K)
    requires k in m
    ensures Total(m) == m[k] + Total(m - {k})
    decreases |m|
  {
    var p :| p in m && Total(m) == m[p] + Total(m - {p});
    if p != k {
      TotalRemove(m - {p}, k);
      TotalRemove(m - {k}, p);
      assert m - {p} - {k} == m - {k} - {p};
    }
  }

  /** What owner `k` holds. */
  ghost function Held<K, C>(m: map<K, multiset<C>>, k: K): multiset<C> {
    if k in m then m[k] else multiset{}
  }

  /** Putting or replacing one owner changes each multiplicity by the difference of the two holdings. */
  lemma TotalPut<K, C>(m: map<K, multiset<C>>, k: K, v: multiset<C>)
    ensures forall c :: Total(m[k := v])[c] + Held(m, k)[c] == Total(m)[c] + v[c]
    ensures forall c :: Held(m, k)[c] <= Total(m)[c]
  {
    TotalRemove(m[k := v], k);
    if k in m {
      TotalRemove(m, k);
      assert m[k := v] - {k} == m - {k};
    } else {
      assert m[k := v] - {k} == m;
    }
  }

  lemma TotalDrop<K, C>(m: map<K, multiset<C>>, k: K)
    ensures forall c :: Total(m - {k})[c] + Held(m, k)[c] == Total(m)[c]
  {
    if k in m {
      TotalRemove(m, k);
    } else {
      assert m - {k} == m;
    }
  }

  ghost function Sum<K>(m: map<K, int>): int
    decreases |m|
  {
    if m == map[] then 0 else
      var k :| k in m;
      m[k] + Sum(m - {k})
  }

  lemma {:induction false} SumRemove<K>(m: map<K, int>, k: K)
    requires k in m
    ensures Sum(m) == m[k] + Sum(m - {k})
    decreases |m|
  {
    var p :| p in m && Sum(m) == m[p] + Sum(m - {p});
    if p != k {
      SumRemove(m - {p}, k);
      SumRemove(m - {k}, p);
      assert m - {p} - {k} == m - {k} - {p};
    }
  }

  lemma SumPut<K>(m: map<K, int>, k: K, v: int)
    ensures k !in m ==> Sum(m[k := v]) == Sum(m) + v
    ensures k in m ==> Sum(m[k := v]) == Sum(m) + v - m[k]
  {
    SumRemove(m[k := v], k);
    if k in m {
      SumRemove(m, k);
      assert m[k := v] - {k} == m - {k};
    } else {
      assert m[k := v] - {k} == m;
    }
  }

  lemma {:induction false} SumNonNegative<K>(m: map<K, int>)
    requires forall k :: k in m ==> m[k] >= 0
    ensures Sum(m) >= 0
    ensures forall k :: k in m ==> m[k] <= Sum(m)
    decreases |m|
  {
    forall k | k in m ensures 0 <= m[k] <= Sum(m) {
      SumRemove(m, k);
      SumNonNegative(m - {k});
    }
    if m != map[] {
      var k :| k in m;
      assert 0 <= m[k] <= Sum(m);
    }
  }
}
