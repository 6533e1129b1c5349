/**
 * Ranging over a Go map. The order of a `range` loop over a map is unspecified,
 * so the loops below pick each next key arbitrarily; what they promise holds
 * for every order.
 */
module Maps {

  /** `ks` lists every key of `m`, each exactly once. */
  ghost predicate Enumerates<K(!new), V>(ks: seq<K>, m: map<K, V>) {
    && (forall i, j :: 0 <= i < j < |ks| ==> ks[i] != ks[j])
    && (forall k :: k in ks <==> k in m)
  }

  /** A list of distinct elements is as long as the set of its elements. */
  lemma {:induction false} DistinctSize<K>(ks: seq<K>)
    requires forall i, j :: 0 <= i < j < |ks| ==> ks[i] != ks[j]
    ensures |set k | k in ks| == |ks|
    decreases |ks|
  {
    if |ks| > 0 {
      var init := ks[..|ks| - 1];
      var last := ks[|ks| - 1];
      DistinctSize(init);
      assert (set k | k in ks) == (set k | k in init) + {last};
      assert last !in (set k | k in init);
    }
  }

  /** An enumeration of a map's keys is as long as the map is large. */
  lemma EnumerationSize<K(!new), V>(ks: seq<K>, m: map<K, V>)
    requires Enumerates(ks, m)
    ensures |ks| == |m|
  {
    DistinctSize(ks);
    assert (set k | k in ks) == m.Keys;
  }

  /** `for k := range m { ks = append(ks, k) }`. */
  method Keys<K(!new), V>(m: map<K, V>) returns (ks: seq<K>)
    ensures Enumerates(ks, m)
    ensures |ks| == |m|
  {
    ks := [];
    var rest := m.Keys;
    while rest != {}
      invariant rest <= m.Keys
      invariant forall k :: k in ks <==> k in m && k !in rest
      invariant forall i, j :: 0 <= i < j < |ks| ==> ks[i] != ks[j]
      invariant |ks| + |rest| == |m|
      decreases rest
    {
      var k :| k in rest;
      ks := ks + [k];
      rest := rest - {k};
    }
  }

  /** `for _, v := range m { vs = append(vs, v) }`: the values, one per key, in some key order. */
  method Values<K(!new), V>(m: map<K, V>) returns (vs: seq<V>)
    ensures |vs| == |m|
    ensures exists ks :: Enumerates(ks, m) && |ks| == |vs| && forall i :: 0 <= i < |ks| ==> vs[i] == m[ks[i]]
  {
    vs := [];
    ghost var ks: seq<K> := [];
    var rest := m.Keys;
    while rest != {}
      invariant rest <= m.Keys
      invariant forall k :: k in ks <==> k in m && k !in rest
      invariant forall i, j :: 0 <= i < j < |ks| ==> ks[i] != ks[j]
      invariant |ks| + |rest| == |m| && |vs| == |ks|
      invariant forall i :: 0 <= i < |ks| ==> ks[i] in m && vs[i] == m[ks[i]]
      decreases rest
    {
      var k :| k in rest;
      vs := vs + [m[k]];
      ks := ks + [k];
      rest := rest - {k};
    }
    assert Enumerates(ks, m);
  }
}
