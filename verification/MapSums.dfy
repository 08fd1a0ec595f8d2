/** Sums over the values of a map: the order in which a hash map lists its
    entries does not matter. */
module MapSums {
  ghost function Sum(m: map<string, real>): real
    decreases |m|
  {
    if m == map[] then 0.0
    else
      var k :| k in m;
      m[k] + Sum(m - {k})
  }

  lemma {:induction false} SumRemove(m: map<string, real>, k: string)
    requires k in m
    ensures Sum(m) == m[k] + Sum(m - {k})
    decreases |m|
  {
    var c :| c in m && Sum(m) == m[c] + Sum(m - {c});
    if c != k {
      SumRemove(m - {c}, k);
      SumRemove(m - {k}, c);
      assert m - {c} - {k} == m - {k} - {c};
    }
  }

  function At(m: map<string, real>, k: string): real {
    if k in m then m[k] else 0.0
  }

  lemma {:induction false} SumUpdate(m: map<string, real>, k: string, v: real)
    ensures Sum(m[k := v]) == Sum(m) - At(m, k) + v
  {
    SumRemove(m[k := v], k);
    if k in m {
      SumRemove(m, k);
      assert m[k := v] - {k} == m - {k};
    } else {
      assert m[k := v] - {k} == m;
    }
  }

  lemma {:induction false} SumPointwise(a: map<string, real>, b: map<string, real>, c: map<string, real>)
    requires a.Keys == b.Keys == c.Keys
    requires forall k :: k in c ==> c[k] == a[k] + b[k]
    ensures Sum(c) == Sum(a) + Sum(b)
    decreases |c|
  {
    if c != map[] {
      var k :| k in c;
      assert k in a.Keys && k in b.Keys;
      SumRemove(a, k);
      SumRemove(b, k);
      SumRemove(c, k);
      SumPointwise(a - {k}, b - {k}, c - {k});
    } else {
      assert a.Keys == {} && b.Keys == {};
      assert a == map[] && b == map[];
    }
  }
}
