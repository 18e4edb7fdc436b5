/** Totals of finite `map<K, nat>` tables: the fold behind every receipts, caps and outlay figure. */
module Sums {

  /** The entry for `k`, or 0 when there is none. */
  function At<K>(m: map<K, nat>, k: K): nat {
    if k in m then m[k] else 0
  }

  ghost function Sum<K>(m: map<K, nat>): nat {
    if m == map[] then 0
    else
      var k :| k in m;
      m[k] + Sum(m - {k})
  }

  /** Whichever key is taken out first, the total is that entry plus the rest. */
  lemma {:induction false} SumRemove<K>(m: map<K, nat>, k: K)
    requires k in m
    ensures Sum(m) == m[k] + Sum(m - {k})
    decreases |m|
  {
    assert m != map[];
    var j :| j in m && Sum(m) == m[j] + Sum(m - {j});
    if j != k {
      SumRemove(m - {j}, k);
      SumRemove(m - {k}, j);
      assert m - {j} - {k} == m - {k} - {j};
    }
  }

  /** Writing one entry moves the total by exactly the change in that entry. */
  lemma SumPut<K>(m: map<K, nat>, k: K, v: nat)
    ensures Sum(m[k := v]) == Sum(m) - At(m, k) + v
  {
    SumRemove(m[k := v], k);
    if k in m {
      SumRemove(m, k);
      assert m[k := v] - {k} == m - {k};
    } else {
      assert m[k := v] - {k} == m;
    }
  }

  /** A table that is nowhere above another has no larger total; absent entries count as 0. */
  lemma {:induction false} SumMono<K>(a: map<K, nat>, b: map<K, nat>)
    requires forall k :: k in a ==> a[k] <= At(b, k)
    ensures Sum(a) <= Sum(b)
    decreases |a|
  {
    if a != map[] {
      var k :| k in a;
      SumRemove(a, k);
      var b' := if k in b then b - {k} else b;
      if k in b { SumRemove(b, k); }
      forall j | j in a - {k} ensures (a - {k})[j] <= At(b', j) {
        assert j in a && j != k;
      }
      SumMono(a - {k}, b');
    }
  }

  /** Tables that agree entry by entry (absent = 0) have the same total. */
  lemma SumSame<K>(a: map<K, nat>, b: map<K, nat>)
    requires forall k :: k in a ==> a[k] == At(b, k)
    requires forall k :: k in b ==> b[k] == At(a, k)
    ensures Sum(a) == Sum(b)
  {
    SumMono(a, b);
    SumMono(b, a);
  }
}
