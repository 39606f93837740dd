/** Sums over finite maps, the shape of every SQL `SUM` and of every conservation law below. */
module Sums {

  /** The sum of the values of `m`. */
  ghost function Total<K>(m: map<K, int>): int
    decreases |m|
  {
    if m == map[] then 0
    else
      var k :| k in m;
      m[k] + Total(m - {k})
  }

  /** The choice made inside `Total` does not matter: any key can be split off. */
  lemma {:induction false} TotalRemove<K>(m: map<K, int>, k: K)
    requires k in m
    ensures Total(m) == m[k] + Total(m - {k})
    decreases |m|
  {
    var j :| j in m && Total(m) == m[j] + Total(m - {j});
    if j != k {
      TotalRemove(m - {j}, k);
      TotalRemove(m - {k}, j);
      assert m - {j} - {k} == m - {k} - {j};
    }
  }

  lemma TotalUpdate<K>(m: map<K, int>, k: K, v: int)
    ensures Total(m[k := v]) == Total(m) + v - (if k in m then m[k] else 0)
  {
    TotalRemove(m[k := v], k);
    assert m[k := v] - {k} == m - {k};
    if k in m {
      TotalRemove(m, k);
    } else {
      assert m - {k} == m;
    }
  }

  lemma {:induction false} TotalNonNegative<K>(m: map<K, int>)
    requires forall k :: k in m ==> m[k] >= 0
    ensures Total(m) >= 0
    decreases |m|
  {
    if m != map[] {
      var k :| k in m;
      TotalRemove(m, k);
      TotalNonNegative(m - {k});
    }
  }

  /** With no negative entry, each entry is bounded by the sum. */
  lemma EntryAtMostTotal<K>(m: map<K, int>, k: K)
    requires k in m && forall j :: j in m ==> m[j] >= 0
    ensures m[k] <= Total(m)
  {
    TotalRemove(m, k);
    TotalNonNegative(m - {k});
  }

  lemma {:induction false} TotalAllZero<K>(m: map<K, int>)
    requires forall k :: k in m ==> m[k] == 0
    ensures Total(m) == 0
    decreases |m|
  {
    if m != map[] {
      var k :| k in m;
      TotalRemove(m, k);
      TotalAllZero(m - {k});
    }
  }

  /** Sums are linear in their entries. */
  lemma {:induction false} TotalSplit<K>(m: map<K, int>, a: map<K, int>, b: map<K, int>)
    requires m.Keys == a.Keys == b.Keys
    requires forall k :: k in m ==> m[k] == a[k] + b[k]
    ensures Total(m) == Total(a) + Total(b)
    decreases |m|
  {
    if m != map[] {
      var k :| k in m;
      TotalRemove(m, k);
      TotalRemove(a, k);
      TotalRemove(b, k);
      TotalSplit(m - {k}, a - {k}, b - {k});
    } else {
      assert a == map[] && b == map[];
    }
  }

  lemma UnionWithout<K>(m: map<K, int>, a: map<K, int>, b: map<K, int>, k: K)
    requires a.Keys !! b.Keys && m == a + b && k in a
    ensures m[k] == a[k] && m - {k} == (a - {k}) + b && (a - {k}).Keys !! b.Keys
  {
  }

  lemma {:induction false} TotalOfUnion<K>(m: map<K, int>, a: map<K, int>, b: map<K, int>)
    requires a.Keys !! b.Keys && m == a + b
    ensures Total(m) == Total(a) + Total(b)
    decreases |a|
  {
    if a == map[] {
      assert m == b;
    } else {
      var k :| k in a;
      UnionWithout(m, a, b, k);
      TotalOfUnion(m - {k}, a - {k}, b);
      assert Total(m) == m[k] + Total(m - {k}) by { TotalRemove(m, k); }
      assert Total(a) == a[k] + Total(a - {k}) by { TotalRemove(a, k); }
    }
  }

  /** The entries of `m` whose group is one of `groups`: a `GROUP BY` bucket when there is just one. */
  ghost function Grouped<K, G>(m: map<K, int>, group: map<K, G>, groups: set<G>): map<K, int> {
    map k | k in m && k in group && group[k] in groups :: m[k]
  }

  lemma GroupedSplit<K, G>(m: map<K, int>, group: map<K, G>, groups: set<G>, g: G)
    requires g in groups
    ensures Grouped(m, group, groups) == Grouped(m, group, {g}) + Grouped(m, group, groups - {g})
    ensures Grouped(m, group, {g}).Keys !! Grouped(m, group, groups - {g}).Keys
  {
  }

  /** `GROUP BY` loses nothing: bucket totals add up to the total of the rows whose group is listed. */
  lemma {:induction false} BucketsAddUp<K, G>(m: map<K, int>, group: map<K, G>, groups: set<G>, totals: map<G, int>)
    requires totals.Keys == groups
    requires forall g :: g in groups ==> totals[g] == Total(Grouped(m, group, {g}))
    ensures Total(totals) == Total(Grouped(m, group, groups))
    decreases |groups|
  {
    if groups == {} {
      assert totals == map[];
      assert Grouped(m, group, groups) == map[];
    } else {
      var g :| g in groups;
      assert Total(totals) == totals[g] + Total(totals - {g}) by { TotalRemove(totals, g); }
      BucketsAddUp(m, group, groups - {g}, totals - {g});
      GroupedSplit(m, group, groups, g);
      TotalOfUnion(Grouped(m, group, groups), Grouped(m, group, {g}), Grouped(m, group, groups - {g}));
    }
  }

  lemma AllGrouped<K, G>(m: map<K, int>, group: map<K, G>, groups: set<G>)
    requires forall k :: k in m ==> k in group && group[k] in groups
    ensures Grouped(m, group, groups) == m
  {
  }

  function Ones<K>(s: set<K>): map<K, int> {
    map k | k in s :: 1
  }

  /** `COUNT(*)` is a sum of ones. */
  lemma {:induction false} TotalOfOnes<K>(s: set<K>)
    ensures Total(Ones(s)) == |s|
    decreases |s|
  {
    if s == {} {
      assert Ones(s) == map[];
    } else {
      var k :| k in s;
      TotalRemove(Ones(s), k);
      assert Ones(s) - {k} == Ones(s - {k});
      TotalOfOnes(s - {k});
    }
  }
}
