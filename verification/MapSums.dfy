/** Sums over finite maps, independent of iteration order. */
module MapSums {
  ghost function AnyKey<K>(m: map<K, nat>): (k: K)
    requires |m| != 0
    ensures k in m
  {
    assert m.Keys != {};
    var k :| k in m;
    k
  }

  ghost function Sum<K>(m: map<K, nat>): nat
    decreases |m|
  {
    if |m| == 0 then 0 else var k := AnyKey(m); m[k] + Sum(m - {k})
  }

  lemma {:induction false} SumWithout<K>(m: map<K, nat>, k: K)
    requires k in m
    ensures Sum(m) == m[k] + Sum(m - {k})
    decreases |m|
  {
    var chosen := AnyKey(m);
    if chosen != k {
      var less := m - {k};
      SumWithout(m - {chosen}, k);
      SumWithout(less, chosen);
      assert m - {chosen} - {k} == less - {chosen};
    }
  }

  /** Replacing or adding one entry. */
  lemma SumUpdate<K>(m: map<K, nat>, k: K, v: nat)
    ensures Sum(m[k := v]) == v + Sum(m - {k})
    ensures k !in m ==> Sum(m[k := v]) == v + Sum(m)
    ensures k in m ==> Sum(m[k := v]) + m[k] == v + Sum(m)
  {
    hide Sum;
    SumWithout(m[k := v], k);
    assert m[k := v] - {k} == m - {k};
    if k in m {
      SumWithout(m, k);
    } else {
      assert m - {k} == m;
    }
  }

  lemma SumEmpty<K>(m: map<K, nat>)
    requires m == map[]
    ensures Sum(m) == 0
  {
  }

  lemma MinusMinus<K>(m: map<K, nat>, a: set<K>, b: set<K>)
    ensures m - a - b == m - (a + b)
  {
  }

  /** Dropping entries never increases the sum. */
  lemma {:induction false} SumSubset<K>(m: map<K, nat>, gone: set<K>)
    ensures Sum(m - gone) <= Sum(m)
    decreases gone
  {
    if gone == {} {
      assert m - gone == m;
    } else {
      var k :| k in gone;
      var rest := gone - {k};
      assert gone == {k} + rest;
      MinusMinus(m, {k}, rest);
      SumSubset(m - {k}, rest);
      DropOne(m, k);
    }
  }

  lemma DropOne<K>(m: map<K, nat>, k: K)
    ensures Sum(m - {k}) <= Sum(m)
  {
    if k in m {
      SumWithout(m, k);
    } else {
      assert m - {k} == m;
    }
  }

  lemma {:induction false} SubsetCount<T>(a: set<T>, b: set<T>)
    requires a <= b
    ensures |a| <= |b|
  {
    if a != {} {
      var x :| x in a;
      SubsetCount(a - {x}, b - {x});
    }
  }
}
