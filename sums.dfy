/**
 * Sums of real-valued maps: over all entries (`MapSum`, independent of any order) and over the
 * keys listed in a sequence (`SumOver`), with the facts needed when one entry is updated.
 */
module Sums {

  /** The sum of all values of `m`. */
  ghost function MapSum<K>(m: map<K, real>): real
    decreases |m|
  {
    if m == map[] then 0.0
    else
      var k :| k in m;
      m[k] + MapSum(m - {k})
  }

  /** `MapSum` does not depend on which key is taken out first. */
  lemma {:induction false} MapSumRemove<K>(m: map<K, real>, k: K)
    requires k in m
    ensures MapSum(m) == m[k] + MapSum(m - {k})
    decreases |m|
  {
    var k' :| k' in m && MapSum(m) == m[k'] + MapSum(m - {k'});
    if k' != k {
      assert |m - {k'}| == |m| - 1;
      assert |m - {k}| == |m| - 1;
      MapSumRemove(m - {k'}, k);
      MapSumRemove(m - {k}, k');
      assert m - {k'} - {k} == m - {k} - {k'};
    }
  }

  /** Setting `m[k]` to `v` changes the sum by `v` minus what `k` held before (nothing if absent). */
  lemma MapSumUpdate<K>(m: map<K, real>, k: K, v: real)
    ensures MapSum(m[k := v]) == MapSum(m) - (if k in m then m[k] else 0.0) + v
  {
    MapSumRemove(m[k := v], k);
    assert m[k := v] - {k} == m - {k};
    if k in m {
      MapSumRemove(m, k);
    } else {
      assert m - {k} == m;
    }
  }

  /** No key appears twice in `ks`. */
  predicate Distinct<K(==)>(ks: seq<K>) {
    forall i, j :: 0 <= i < j < |ks| ==> ks[i] != ks[j]
  }

  /** The sum of `m[k]` over the keys `ks`, in their order. */
  function SumOver<K>(ks: seq<K>, m: map<K, real>): real
    requires forall i :: 0 <= i < |ks| ==> ks[i] in m
  {
    if ks == [] then 0.0 else SumOver(ks[..|ks| - 1], m) + m[ks[|ks| - 1]]
  }

  /** Adding a key at the end adds its value. */
  lemma SumOverAppend<K>(ks: seq<K>, m: map<K, real>, k: K)
    requires forall i :: 0 <= i < |ks| ==> ks[i] in m
    requires k in m
    ensures SumOver(ks + [k], m) == SumOver(ks, m) + m[k]
  {
    assert (ks + [k])[..|ks|] == ks;
  }

  /** Updating a key that `ks` does not list leaves the sum alone. */
  lemma {:induction false} SumOverUpdateUnlisted<K>(ks: seq<K>, m: map<K, real>, k: K, v: real)
    requires forall i :: 0 <= i < |ks| ==> ks[i] in m
    requires forall i :: 0 <= i < |ks| ==> ks[i] != k
    ensures SumOver(ks, m[k := v]) == SumOver(ks, m)
  {
    if ks != [] {
      SumOverUpdateUnlisted(ks[..|ks| - 1], m, k, v);
    }
  }

  /** Updating a key that `ks` lists once changes the sum by the change of its value. */
  lemma {:induction false} SumOverUpdateListed<K>(ks: seq<K>, m: map<K, real>, k: K, v: real)
    requires forall i :: 0 <= i < |ks| ==> ks[i] in m
    requires Distinct(ks)
    requires exists i :: 0 <= i < |ks| && ks[i] == k
    ensures k in m
    ensures SumOver(ks, m[k := v]) == SumOver(ks, m) - m[k] + v
  {
    var init, last := ks[..|ks| - 1], ks[|ks| - 1];
    if last == k {
      SumOverUpdateUnlisted(init, m, k, v);
    } else {
      var i :| 0 <= i < |ks| && ks[i] == k;
      assert init[i] == k;
      SumOverUpdateListed(init, m, k, v);
    }
  }
}
