/** The sum of the values of a finite map, whatever the order of its keys. */
module Sums {

  ghost function Total(m: map<nat, nat>): nat
    decreases |m|
  {
    if m == map[] then 0
    else
      var k :| k in m;
      m[k] + Total(m - {k})
  }

  lemma SwapRemoved(m: map<nat, nat>, a: nat, b: nat)
    ensures (m - {a}) - {b} == (m - {b}) - {a}
  {
  }

  /** Any key may be counted first. */
  lemma {:induction false} TotalWithout(m: map<nat, nat>, k: nat)
    requires k in m
    ensures Total(m) == m[k] + Total(m - {k})
    decreases |m|
  {
    var j :| j in m && Total(m) == m[j] + Total(m - {j});
    if j != k {
      TotalWithout(m - {j}, k);
      TotalWithout(m - {k}, j);
      SwapRemoved(m, j, k);
    }
  }

  lemma TotalPut(m: map<nat, nat>, k: nat, v: nat)
    requires k !in m
    ensures Total(m[k := v]) == Total(m) + v
  {
    TotalWithout(m[k := v], k);
    assert m[k := v] - {k} == m;
  }

  /** Splitting every value splits the total. */
  lemma {:induction false} TotalAdd(a: map<nat, nat>, b: map<nat, nat>, c: map<nat, nat>)
    requires a.Keys == b.Keys == c.Keys
    requires forall k :: k in c ==> c[k] == a[k] + b[k]
    ensures Total(c) == Total(a) + Total(b)
    decreases |c|
  {
    if c == map[] {
      assert a == map[] && b == map[];
    } else {
      var k :| k in c;
      TotalWithout(a, k);
      TotalWithout(b, k);
      TotalWithout(c, k);
      TotalAdd(a - {k}, b - {k}, c - {k});
    }
  }

  /** The part of a map on some keys, and the rest. */
  lemma {:induction false} TotalSplit(m: map<nat, nat>, keys: set<nat>)
    ensures Total(m) == Total(m - keys) + Total(map k | k in m && k in keys :: m[k])
    decreases |m|
  {
    var part := map k | k in m && k in keys :: m[k];
    if m == map[] {
      assert m - keys == map[] && part == map[];
    } else {
      var k :| k in m;
      var rest := m - {k};
      TotalSplit(rest, keys);
      TotalWithout(m, k);
      var part' := map j | j in rest && j in keys :: rest[j];
      if k in keys {
        TotalWithout(part, k);
        assert part - {k} == part' && rest - keys == m - keys;
      } else {
        TotalWithout(m - keys, k);
        assert (m - keys) - {k} == rest - keys && part == part';
      }
    }
  }
}
