/**
 * Bags of results gathered over the keys of a Go map.
 *
 * Go's `for k, v := range m` visits keys in an unspecified order, so what a loop
 * over a map appends is only determined up to order. `Fold(m, dom, f)` is the
 * multiset obtained by adding `f(k, m[k])` for every key `k` in `dom`; it does
 * not depend on the order in which keys are visited (`FoldPick`).
 */
module Bags {

  /** Some element of a non-empty set. */
  ghost function Pick<T>(s: set<T>): T
    requires s != {}
  {
    var x :| x in s; x
  }

  /** The multiset sum of `f(k, m[k])` over the keys `k` in `dom`. */
  ghost function Fold<V, T>(m: map<string, V>, dom: set<string>, f: (string, V) -> multiset<T>): multiset<T>
    requires dom <= m.Keys
    decreases dom
  {
    if dom == {} then multiset{}
    else
      var k := Pick(dom);
      f(k, m[k]) + Fold(m, dom - {k}, f)
  }

  /** The fold over the whole map. */
  ghost function SumOver<V, T>(m: map<string, V>, f: (string, V) -> multiset<T>): multiset<T> {
    Fold(m, m.Keys, f)
  }

  /** Any key can be taken out first: the fold does not depend on visiting order. */
  lemma {:induction false} FoldPick<V, T>(m: map<string, V>, dom: set<string>, f: (string, V) -> multiset<T>, k: string)
    requires dom <= m.Keys && k in dom
    ensures Fold(m, dom, f) == f(k, m[k]) + Fold(m, dom - {k}, f)
    decreases |dom|
  {
    var j := Pick(dom);
    if j != k {
      FoldPick(m, dom - {j}, f, k);
      FoldPick(m, dom - {k}, f, j);
      assert dom - {j} - {k} == dom - {k} - {j};
    }
  }

  /**
   * One step of a loop that visits the keys of `m` in any order: adding the
   * contribution of the key taken from `rest` keeps "collected so far plus the
   * fold of what is left" equal to the whole sum.
   */
  lemma FoldStep<V, T>(m: map<string, V>, rest: set<string>, f: (string, V) -> multiset<T>, k: string,
                       acc: seq<T>, part: seq<T>)
    requires rest <= m.Keys && k in rest
    requires multiset(acc) + Fold(m, rest, f) == SumOver(m, f)
    requires multiset(part) == f(k, m[k])
    ensures rest - {k} <= m.Keys
    ensures multiset(acc + part) + Fold(m, rest - {k}, f) == SumOver(m, f)
  {
    FoldPick(m, rest, f, k);
  }

  /** An element is in the fold exactly when some key contributes it. */
  lemma {:induction false} FoldMember<V, T>(m: map<string, V>, dom: set<string>, f: (string, V) -> multiset<T>, x: T)
    requires dom <= m.Keys
    ensures x in Fold(m, dom, f) <==> exists k :: k in dom && x in f(k, m[k])
    decreases |dom|
  {
    if dom != {} {
      var k := Pick(dom);
      FoldMember(m, dom - {k}, f, x);
    }
  }

  /** When only one key can contribute `x`, the fold holds `x` as often as that key's part does. */
  lemma {:induction false} FoldCountUnique<V, T>(m: map<string, V>, dom: set<string>, f: (string, V) -> multiset<T>, k0: string, x: T)
    requires dom <= m.Keys && k0 in dom
    requires forall k :: k in dom && k != k0 ==> x !in f(k, m[k])
    ensures Fold(m, dom, f)[x] == f(k0, m[k0])[x]
  {
    FoldPick(m, dom, f, k0);
    FoldMember(m, dom - {k0}, f, x);
  }

  /** The keys of `dom` whose entries satisfy `p`. */
  ghost function KeysWhere<V>(m: map<string, V>, dom: set<string>, p: (string, V) -> bool): set<string>
    requires dom <= m.Keys
  {
    set k | k in dom && p(k, m[k])
  }

  /** When every key contributes one element or none, the fold's size counts the contributing keys. */
  lemma {:induction false} FoldSize<V, T>(m: map<string, V>, dom: set<string>, f: (string, V) -> multiset<T>, p: (string, V) -> bool)
    requires dom <= m.Keys
    requires forall k :: k in dom ==> |f(k, m[k])| == if p(k, m[k]) then 1 else 0
    ensures |Fold(m, dom, f)| == |KeysWhere(m, dom, p)|
    decreases |dom|
  {
    if dom == {} {
      assert KeysWhere(m, dom, p) == {};
    } else {
      var k := Pick(dom);
      FoldSize(m, dom - {k}, f, p);
      var all := KeysWhere(m, dom, p);
      var rest := KeysWhere(m, dom - {k}, p);
      if p(k, m[k]) {
        assert all == rest + {k};
      } else {
        assert all == rest;
      }
    }
  }

  /** When every key contributes at most `c` elements, the fold has at most `c` per key. */
  lemma {:induction false} FoldAtMost<V, T>(m: map<string, V>, dom: set<string>, f: (string, V) -> multiset<T>, c: nat)
    requires dom <= m.Keys
    requires forall k :: k in dom ==> |f(k, m[k])| <= c
    ensures |Fold(m, dom, f)| <= c * |dom|
    decreases |dom|
  {
    if dom != {} {
      var k := Pick(dom);
      FoldAtMost(m, dom - {k}, f, c);
      assert |dom| == |dom - {k}| + 1;
      assert c * |dom| == c * |dom - {k}| + c;
    }
  }

  /** A fold over a single key is that key's part. */
  lemma FoldSingleton<V, T>(m: map<string, V>, k: string, f: (string, V) -> multiset<T>)
    requires m.Keys == {k}
    ensures SumOver(m, f) == f(k, m[k])
  {
    FoldPick(m, m.Keys, f, k);
    assert m.Keys - {k} == {};
  }
}
