/**
 * Find-or-append interning, the common shape of the three
 * `_findOrAdd*TypeIndex` helpers: a table of definitions whose position is
 * their index, and a lazily created cache from key to index.
 */
module Interning {
  import opened Wrappers

  /** `cache` is `None` until the first lookup creates it. */
  datatype Interner<K(==), D> = Interner(table: seq<D>, cache: Option<map<K, nat>>)

  /** The cache as a map; a cache not yet created is empty. */
  function Cache<K(==), D>(t: Interner<K, D>): map<K, nat> {
    t.cache.GetOr(map[])
  }

  /**
   * The cache maps every key to a valid index whose entry has that key,
   * and every entry is cached under its own key at its own index (so no
   * two entries share a key).
   */
  ghost predicate InternerValid<K, D>(t: Interner<K, D>, keyOf: D -> K) {
    (forall k :: k in Cache(t) ==> Cache(t)[k] < |t.table| && keyOf(t.table[Cache(t)[k]]) == k) &&
    (forall i :: 0 <= i < |t.table| ==> keyOf(t.table[i]) in Cache(t) && Cache(t)[keyOf(t.table[i])] == i)
  }

  /**
   * Looks `key` up; on a miss appends `def` (whose key is `key`) and
   * records its index. Returns the new interner and the index.
   */
  function FindOrAdd<K(==), D>(t: Interner<K, D>, key: K, def: D, ghost keyOf: D -> K): (r: (Interner<K, D>, nat))
    requires InternerValid(t, keyOf) && keyOf(def) == key
    ensures InternerValid(r.0, keyOf)
    ensures r.1 < |r.0.table| && keyOf(r.0.table[r.1]) == key
    ensures key in Cache(t) ==> r.0.table == t.table && r.1 == Cache(t)[key]
    ensures key !in Cache(t) ==> r.0.table == t.table + [def] && r.1 == |t.table|
    ensures r.0.cache == Some(Cache(t)[key := r.1])
  {
    var cache := Cache(t);
    if key in cache then
      assert cache[key := cache[key]] == cache;
      (Interner(t.table, Some(cache)), cache[key])
    else
      var table := t.table + [def];
      (Interner(table, Some(cache[key := |t.table|])), |t.table|)
  }

  /** Dedup: within a valid table two entries with the same key are one entry. */
  lemma KeysDistinct<K, D>(t: Interner<K, D>, keyOf: D -> K, i: nat, j: nat)
    requires InternerValid(t, keyOf)
    requires i < |t.table| && j < |t.table| && keyOf(t.table[i]) == keyOf(t.table[j])
    ensures i == j
  {
  }

  /** A second request for the same key hits: same index, table unchanged. */
  lemma {:induction false} FindOrAddTwice<K, D>(t: Interner<K, D>, key: K, def: D, def': D, keyOf: D -> K)
    requires InternerValid(t, keyOf) && keyOf(def) == key && keyOf(def') == key
    ensures var (t1, i1) := FindOrAdd(t, key, def, keyOf);
            var (t2, i2) := FindOrAdd(t1, key, def', keyOf);
            i2 == i1 && t2.table == t1.table && |t1.table| <= |t.table| + 1
  {
    var (t1, i1) := FindOrAdd(t, key, def, keyOf);
    assert key in Cache(t1);
  }
}
