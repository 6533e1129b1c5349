/**
 * Recursive walks over a component body: every string leaf reached through
 * nested maps, with its dotted path. Lists and other values are not entered.
 * This is the shape shared by `scanMapForTokens` and `scanForRegexPatterns`.
 */
module ConfigTree {
  import opened Bags
  import opened Collector

  /** The dotted path of `key` below `path`; the top level has the empty path. */
  function FullPath(path: string, key: string): string {
    if path == "" then key else path + "." + key
  }

  /**
   * What the entry under `k` contributes: `leaf(ctx, k, s, fullPath)` for a string,
   * the walk of a nested map, and nothing for anything else.
   */
  ghost function Entry<C, T>(m: map<string, Value>, k: string, ctx: C, path: string,
                             leaf: (C, string, string, string) -> multiset<T>): multiset<T>
    requires k in m
    decreases Map(m), 0, 0
  {
    match m[k]
    case Str(s) => leaf(ctx, k, s, FullPath(path, k))
    case Map(sub) =>
      assert m[k] in m.Values;
      Walk(sub, sub.Keys, ctx, FullPath(path, k), leaf)
    case _ => multiset{}
  }

  /** The sum of the entries under the keys in `dom`, visited in any order. */
  ghost function Walk<C, T>(m: map<string, Value>, dom: set<string>, ctx: C, path: string,
                            leaf: (C, string, string, string) -> multiset<T>): multiset<T>
    requires dom <= m.Keys
    decreases Map(m), 1, |dom|
  {
    if dom == {} then multiset{}
    else
      var k := Pick(dom);
      Entry(m, k, ctx, path, leaf) + Walk(m, dom - {k}, ctx, path, leaf)
  }

  /** The walk of a whole map. */
  ghost function Scan<C, T>(m: map<string, Value>, ctx: C, path: string,
                            leaf: (C, string, string, string) -> multiset<T>): multiset<T> {
    Walk(m, m.Keys, ctx, path, leaf)
  }

  /**
   * `key: value` is a string leaf reachable from the keys `dom` of `m` through
   * nested maps only, and `full` is its dotted path below `path`.
   */
  ghost predicate LeafIn(m: map<string, Value>, dom: set<string>, path: string, key: string, value: string, full: string)
    requires dom <= m.Keys
    decreases Map(m), |dom|
  {
    if dom == {} then false
    else
      var k := Pick(dom);
      LeafAtKey(m, k, path, key, value, full) || LeafIn(m, dom - {k}, path, key, value, full)
  }

  /** `key: value` is the string under `k` itself, or a leaf reachable below it. */
  ghost predicate LeafAtKey(m: map<string, Value>, k: string, path: string, key: string, value: string, full: string)
    requires k in m
    decreases Map(m), 0
  {
    match m[k]
    case Str(s) => key == k && value == s && full == FullPath(path, k)
    case Map(sub) =>
      assert m[k] in m.Values;
      LeafIn(sub, sub.Keys, FullPath(path, k), key, value, full)
    case _ => false
  }

  /** Any key can be visited first: the walk does not depend on visiting order. */
  lemma {:induction false} WalkPick<C, T>(m: map<string, Value>, dom: set<string>, ctx: C, path: string,
                                          leaf: (C, string, string, string) -> multiset<T>, k: string)
    requires dom <= m.Keys && k in dom
    ensures Walk(m, dom, ctx, path, leaf) == Entry(m, k, ctx, path, leaf) + Walk(m, dom - {k}, ctx, path, leaf)
    decreases |dom|
  {
    var j := Pick(dom);
    if j != k {
      WalkPick(m, dom - {j}, ctx, path, leaf, k);
      WalkPick(m, dom - {k}, ctx, path, leaf, j);
      assert dom - {j} - {k} == dom - {k} - {j};
    }
  }

  /** Reachability does not depend on visiting order either. */
  lemma {:induction false} LeafInPick(m: map<string, Value>, dom: set<string>, path: string, key: string, value: string, full: string, k: string)
    requires dom <= m.Keys && k in dom
    ensures LeafIn(m, dom, path, key, value, full)
        <==> LeafAtKey(m, k, path, key, value, full) || LeafIn(m, dom - {k}, path, key, value, full)
    decreases |dom|
  {
    var j := Pick(dom);
    if j != k {
      LeafInPick(m, dom - {j}, path, key, value, full, k);
      LeafInPick(m, dom - {k}, path, key, value, full, j);
      assert dom - {j} - {k} == dom - {k} - {j};
    }
  }

  /**
   * An element is in the walk exactly when some reachable string leaf contributes
   * it: nothing comes from lists or other values, and every leaf is visited.
   */
  lemma {:induction false} WalkMember<C, T>(m: map<string, Value>, dom: set<string>, ctx: C, path: string,
                                            leaf: (C, string, string, string) -> multiset<T>, x: T)
    requires dom <= m.Keys
    ensures x in Walk(m, dom, ctx, path, leaf)
        <==> exists key, value, full :: LeafIn(m, dom, path, key, value, full) && x in leaf(ctx, key, value, full)
    decreases Map(m), 1, |dom|
  {
    if dom != {} {
      var k := Pick(dom);
      WalkMember(m, dom - {k}, ctx, path, leaf, x);
      EntryMember(m, k, ctx, path, leaf, x);
    }
  }

  /** An element is in an entry's part exactly when some leaf at or below that key contributes it. */
  lemma {:induction false} EntryMember<C, T>(m: map<string, Value>, k: string, ctx: C, path: string,
                                             leaf: (C, string, string, string) -> multiset<T>, x: T)
    requires k in m
    ensures x in Entry(m, k, ctx, path, leaf)
        <==> exists key, value, full :: LeafAtKey(m, k, path, key, value, full) && x in leaf(ctx, key, value, full)
    decreases Map(m), 0, 0
  {
    match m[k]
    case Str(s) =>
      if x in Entry(m, k, ctx, path, leaf) {
        assert LeafAtKey(m, k, path, k, s, FullPath(path, k));
      }
    case Map(sub) =>
      assert m[k] in m.Values;
      WalkMember(sub, sub.Keys, ctx, FullPath(path, k), leaf, x);
    case _ =>
  }
}
