/** Sums over the values of a finite map. */
module Sums {
  import opened Prelude

  ghost function MapSum<K(!new)>(m: map<K, int>): int {
    if m == map[] then 0 else var k :| k in m; m[k] + MapSum(m - {k})
  }

  lemma {:induction false} MapSumRemove<K(!new)>(m: map<K, int>, k: K)
    requires k in m
    ensures MapSum(m) == m[k] + MapSum(m - {k})
    decreases |m|
  {
    var j :| j in m && MapSum(m) == m[j] + MapSum(m - {j});
    if j != k {
      var rest := m - {j};
      MapSumRemove(rest, k);
      MapSumRemove(m - {k}, j);
      assert rest - {k} == (m - {k}) - {j};
    }
  }

  lemma MapSumUpdate<K(!new)>(m: map<K, int>, k: K, v: int)
    ensures MapSum(m[k := v]) == MapSum(m) - GetOr(m, k, 0) + v
  {
    var m' := m[k := v];
    MapSumRemove(m', k);
    if k in m {
      MapSumRemove(m, k);
      assert m' - {k} == m - {k};
    } else {
      assert m' - {k} == m;
    }
  }

  /** Leaving out non-negative values never raises the sum. */
  lemma {:induction false} MapSumSubset<K(!new)>(part: map<K, int>, whole: map<K, int>)
    requires forall k :: k in part ==> k in whole && whole[k] == part[k]
    requires forall k :: k in whole ==> whole[k] >= 0
    ensures 0 <= MapSum(part) <= MapSum(whole)
    decreases |whole|
  {
    if whole == map[] {
      assert part == map[];
    } else {
      var k :| k in whole;
      MapSumRemove(whole, k);
      if k in part {
        MapSumRemove(part, k);
        MapSumSubset(part - {k}, whole - {k});
      } else {
        MapSumSubset(part, whole - {k});
      }
    }
  }

  lemma {:induction false} MapSumAtMost<K(!new)>(m: map<K, int>, bound: int)
    requires forall k :: k in m ==> m[k] <= bound
    ensures MapSum(m) <= |m| * bound
    decreases |m|
  {
    if m != map[] {
      var k :| k in m;
      MapSumRemove(m, k);
      MapSumAtMost(m - {k}, bound);
      assert |m - {k}| == |m| - 1;
      assert |m| * bound == (|m| - 1) * bound + bound;
    }
  }

  /** Two maps that are each other's renaming have the same sum. */
  lemma {:induction false} MapSumRename<K(!new), L(!new)>(a: map<K, int>, b: map<L, int>, to: map<K, L>,
                                                          from: map<L, K>)
    requires forall k :: k in a ==> k in to && to[k] in b && b[to[k]] == a[k] && to[k] in from && from[to[k]] == k
    requires forall l :: l in b ==> l in from && from[l] in a && from[l] in to && to[from[l]] == l
    ensures MapSum(a) == MapSum(b)
    decreases |a|
  {
    if a == map[] {
      assert b == map[];
    } else {
      var k :| k in a;
      MapSumRemove(a, k);
      MapSumRemove(b, to[k]);
      MapSumRename(a - {k}, b - {to[k]}, to, from);
    }
  }

  /** Leaving out positive values lowers the sum unless nothing is left out. */
  lemma {:induction false} MapSumPart<K(!new)>(part: map<K, int>, whole: map<K, int>)
    requires forall k :: k in part ==> k in whole && whole[k] == part[k]
    requires forall k :: k in whole ==> whole[k] > 0
    ensures MapSum(part) <= MapSum(whole)
    ensures MapSum(part) == MapSum(whole) <==> part == whole
  {
    if k :| k in whole && k !in part {
      MapSumSubset(part, whole - {k});
      MapSumRemove(whole, k);
    } else {
      assert part == whole;
    }
  }
}
