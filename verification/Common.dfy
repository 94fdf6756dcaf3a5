/** Types and finite sums shared by every other module. */
module Common {

  datatype Option<+T> = None | Some(value: T)

  /** A step that may stop with one of the errors the settlement service throws. */
  datatype Result<+T, +E> = Ok(value: T) | Err(error: E)
}

/** Sums of the values of a finite map, independent of any order of its keys. */
module Sums {

  ghost function MapSum<K>(m: map<K, int>): int
    decreases |m|
  {
    if m == map[] then 0 else
      var k :| k in m;
      m[k] + MapSum(m - {k})
  }

  /** Any key may be taken out first, so the sum does not depend on the order of the keys. */
  lemma {:induction false} MapSumRemove<K>(m: map<K, int>, k: K)
    requires k in m
    ensures MapSum(m) == m[k] + MapSum(m - {k})
    decreases |m|
  {
    var x :| x in m && MapSum(m) == m[x] + MapSum(m - {x});
    if x != k {
      MapSumRemove(m - {x}, k);
      MapSumRemove(m - {k}, x);
      assert m - {x} - {k} == m - {k} - {x};
    }
  }

  lemma MapSumInsert<K>(m: map<K, int>, k: K, v: int)
    requires k !in m
    ensures MapSum(m[k := v]) == MapSum(m) + v
  {
    MapSumRemove(m[k := v], k);
    assert m[k := v] - {k} == m;
  }

  lemma MapSumUpdate<K>(m: map<K, int>, k: K, v: int)
    requires k in m
    ensures MapSum(m[k := v]) == MapSum(m) - m[k] + v
  {
    MapSumRemove(m[k := v], k);
    MapSumRemove(m, k);
    assert m[k := v] - {k} == m - {k};
  }

  lemma {:induction false} MapSumSplit<K>(m: map<K, int>, s: set<K>)
    ensures MapSum(m) == MapSum(m - s) + MapSum(m - (m.Keys - s))
    decreases |m|
  {
    if k :| k in m && k in s {
      var rest := m - {k};
      MapSumSplit(rest, s);
      MapSumRemove(m, k);
      MapSumRemove(m - (m.Keys - s), k);
      assert rest - s == m - s;
      assert rest - (rest.Keys - s) == m - (m.Keys - s) - {k};
    } else {
      assert m - s == m;
      assert m - (m.Keys - s) == map[];
    }
  }

  lemma {:induction false} MapSumNonNegative<K>(m: map<K, int>)
    requires forall k :: k in m ==> 0 <= m[k]
    ensures 0 <= MapSum(m)
    decreases |m|
  {
    if m != map[] {
      var k :| k in m;
      MapSumRemove(m, k);
      MapSumNonNegative(m - {k});
    }
  }

  /** Leaving non-negative terms out of a sum cannot make it larger. */
  lemma {:induction false} MapSumSubset<K>(m: map<K, int>, n: map<K, int>)
    requires forall k :: k in m ==> k in n && m[k] == n[k]
    requires forall k :: k in n ==> 0 <= n[k]
    ensures MapSum(m) <= MapSum(n)
  {
    MapSumSplit(n, m.Keys);
    MapSumNonNegative(n - m.Keys);
    assert n - (n.Keys - m.Keys) == m;
  }

  lemma {:induction false} MapSumDivisible<K>(m: map<K, int>, unit: int)
    requires unit > 0
    requires forall k :: k in m ==> m[k] % unit == 0
    ensures MapSum(m) % unit == 0
    decreases |m|
  {
    if m != map[] {
      var k :| k in m;
      MapSumRemove(m, k);
      MapSumDivisible(m - {k}, unit);
      DivisibleSum(m[k], MapSum(m - {k}), unit);
    }
  }

  lemma DivisibleSum(a: int, b: int, unit: int)
    requires unit > 0 && a % unit == 0 && b % unit == 0
    ensures (a + b) % unit == 0
  {
    var p, q := a / unit, b / unit;
    assert a + b == (p + q) * unit;
    MultipleDivides(p + q, unit);
  }

  lemma MultipleDivides(q: int, unit: int)
    requires unit > 0
    ensures (q * unit) % unit == 0 && (q * unit) / unit == q
  {
    var r := (q * unit) % unit;
    var d := (q * unit) / unit;
    assert (q - d) * unit == r;
    AtLeastUnit(q - d, unit);
    AtLeastUnit(d - q, unit);
  }

  lemma AtLeastUnit(n: int, unit: int)
    requires unit > 0
    ensures n >= 1 ==> n * unit >= unit
  {
    if n >= 1 {
      assert (n - 1) * unit >= 0;
    }
  }

  /** The terms of one group when the terms of `m` are grouped by `group`. */
  ghost function Fibre<K, G>(m: map<K, int>, group: map<K, G>, g: G): map<K, int>
  {
    map k | k in m && k in group && group[k] == g :: m[k]
  }

  ghost function GroupSums<K, G>(m: map<K, int>, group: map<K, G>, groups: set<G>): map<G, int>
  {
    map g | g in groups :: MapSum(Fibre(m, group, g))
  }

  /** Summing group by group gives the same total. */
  lemma {:induction false} GroupSumsTotal<K, G>(m: map<K, int>, group: map<K, G>, groups: set<G>)
    requires forall k :: k in m ==> k in group && group[k] in groups
    ensures MapSum(GroupSums(m, group, groups)) == MapSum(m)
    decreases |m|
  {
    if m == map[] {
      forall g | g in groups ensures Fibre(m, group, g) == map[] {}
      ZeroSum(GroupSums(m, group, groups));
    } else {
      var k :| k in m;
      var rest := m - {k};
      GroupSumsTotal(rest, group, groups);
      MapSumRemove(m, k);
      GroupSumsStep(m, k, group, groups);
    }
  }

  lemma GroupSumsStep<K, G>(m: map<K, int>, k: K, group: map<K, G>, groups: set<G>)
    requires k in m && k in group && group[k] in groups
    ensures MapSum(GroupSums(m, group, groups)) == m[k] + MapSum(GroupSums(m - {k}, group, groups))
  {
    hide Fibre, MapSum;
    var g, before := group[k], GroupSums(m - {k}, group, groups);
    forall h | h in groups
      ensures MapSum(Fibre(m, group, h)) == before[h] + (if h == g then m[k] else 0)
    {
      FibreRemove(m, k, group, h);
    }
    assert GroupSums(m, group, groups) == before[g := before[g] + m[k]];
    MapSumUpdate(before, g, before[g] + m[k]);
  }

  lemma FibreRemove<K, G>(m: map<K, int>, k: K, group: map<K, G>, h: G)
    requires k in m && k in group
    ensures MapSum(Fibre(m, group, h)) == MapSum(Fibre(m - {k}, group, h)) + (if h == group[k] then m[k] else 0)
  {
    var rest := Fibre(m - {k}, group, h);
    if h == group[k] {
      assert Fibre(m, group, h) == rest[k := m[k]];
      MapSumInsert(rest, k, m[k]);
    } else {
      assert Fibre(m, group, h) == rest;
    }
  }

  lemma {:induction false} ZeroSum<K>(m: map<K, int>)
    requires forall k :: k in m ==> m[k] == 0
    ensures MapSum(m) == 0
    decreases |m|
  {
    if m != map[] {
      var k :| k in m;
      MapSumRemove(m, k);
      ZeroSum(m - {k});
    }
  }
}
