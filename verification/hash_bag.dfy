/**
 * A key -> ordered-sequence multimap (src/hash_bag.rs).
 * `Insert` appends to the sequence under a key, creating it on first use;
 * nothing is ever removed, so a present key never maps to an empty sequence.
 */
module HashBags {
  import opened Wrappers

  /** The sequence stored under `k`, or the empty sequence when `k` is absent. */
  function Lookup<K, V>(m: map<K, seq<V>>, k: K): seq<V>
  {
    if k in m then m[k] else []
  }

  /** The bag invariant: no present key maps to an empty sequence. */
  ghost predicate NonEmptyValues<K, V>(m: map<K, seq<V>>)
  {
    forall k :: k in m ==> |m[k]| > 0
  }

  /** The abstract effect of one `insert(k, v)`. */
  function Inserted<K, V>(m: map<K, seq<V>>, k: K, v: V): (r: map<K, seq<V>>)
    ensures k in r && r[k] == Lookup(m, k) + [v]
    ensures r.Keys == m.Keys + {k}
    ensures forall j :: j in m && j != k ==> r[j] == m[j]
    ensures NonEmptyValues(m) ==> NonEmptyValues(r)
  {
    if k in m then m[k := m[k] + [v]] else m[k := [v]]
  }

  /** The abstract effect of inserting the pairs of `kvs` one after the other, first to last. */
  function InsertedAll<K, V>(m: map<K, seq<V>>, kvs: seq<(K, V)>): map<K, seq<V>>
    decreases |kvs|
  {
    if kvs == [] then m else InsertedAll(Inserted(m, kvs[0].0, kvs[0].1), kvs[1..])
  }

  /** The values of the pairs of `kvs` whose key is `k`, in order. */
  function ValuesUnder<K(==), V>(kvs: seq<(K, V)>, k: K): seq<V>
    decreases |kvs|
  {
    if kvs == [] then []
    else (if kvs[0].0 == k then [kvs[0].1] else []) + ValuesUnder(kvs[1..], k)
  }

  /**
   * Any run of inserts leaves under each key exactly what was there before,
   * followed by the values inserted under that key, in insertion order.
   */
  lemma {:induction false} InsertedAllLookup<K, V>(m: map<K, seq<V>>, kvs: seq<(K, V)>, k: K)
    ensures Lookup(InsertedAll(m, kvs), k) == Lookup(m, k) + ValuesUnder(kvs, k)
    decreases |kvs|
  {
    if kvs != [] {
      var m1 := Inserted(m, kvs[0].0, kvs[0].1);
      InsertedAllLookup(m1, kvs[1..], k);
      assert Lookup(m1, k) == Lookup(m, k) + (if kvs[0].0 == k then [kvs[0].1] else []);
    }
  }

  /** A run of inserts never removes a key and keeps the invariant. */
  lemma {:induction false} InsertedAllKeepsInvariant<K, V>(m: map<K, seq<V>>, kvs: seq<(K, V)>)
    requires NonEmptyValues(m)
    ensures NonEmptyValues(InsertedAll(m, kvs))
    ensures m.Keys <= InsertedAll(m, kvs).Keys
    decreases |kvs|
  {
    if kvs != [] {
      InsertedAllKeepsInvariant(Inserted(m, kvs[0].0, kvs[0].1), kvs[1..]);
    }
  }

  /** Inserting v1, v2, v3 under one key of an empty bag yields exactly [v1, v2, v3]. */
  lemma InsertThreeInOrder<K, V>(k: K, v1: V, v2: V, v3: V)
    ensures Lookup(InsertedAll(map[], [(k, v1), (k, v2), (k, v3)]), k) == [v1, v2, v3]
  {
    var kvs := [(k, v1), (k, v2), (k, v3)];
    InsertedAllLookup(map[], kvs, k);
    assert kvs[1..] == [(k, v2), (k, v3)] && kvs[1..][1..] == [(k, v3)] && kvs[1..][1..][1..] == [];
    assert ValuesUnder(kvs[1..][1..], k) == [v3];
    assert ValuesUnder(kvs[1..], k) == [v2, v3];
  }

  /** Once a key holds a sequence, no later insert changes its first entry. */
  lemma FirstEntrySurvivesInserts<K, V>(m: map<K, seq<V>>, kvs: seq<(K, V)>, k: K)
    requires k in m && |m[k]| > 0
    ensures k in InsertedAll(m, kvs)
    ensures |InsertedAll(m, kvs)[k]| > 0 && InsertedAll(m, kvs)[k][0] == m[k][0]
  {
    InsertedAllLookup(m, kvs, k);
    assert Lookup(InsertedAll(m, kvs), k) != [];
  }

  class HashBag<K(==), V> {
    var entries: map<K, seq<V>>

    ghost predicate Valid()
      reads this
    {
      NonEmptyValues(entries)
    }

    /** `Default`: the empty bag. */
    constructor ()
      ensures Valid() && entries == map[]
      ensures forall k :: Get(k) == None
    {
      entries := map[];
    }

    /** Appends `value` to the sequence under `key`, creating the sequence on first use. */
    method Insert(key: K, value: V)
      requires Valid()
      modifies this
      ensures Valid()
      ensures entries == Inserted(old(entries), key, value)
      ensures key in old(entries) ==> entries[key] == old(entries)[key] + [value]
      ensures key !in old(entries) ==> entries[key] == [value]
      ensures entries.Keys == old(entries).Keys + {key}
      ensures forall j :: j in old(entries) && j != key ==> entries[j] == old(entries)[j]
    {
      if key in entries {
        entries := entries[key := entries[key] + [value]];
      } else {
        entries := entries[key := [value]];
      }
    }

    /** The sequence stored under `key`, or `None`; never changes the bag. */
    function Get(key: K): (r: Option<seq<V>>)
      reads this
      ensures r.Some? <==> key in entries
      ensures r.Some? ==> r.value == entries[key]
      ensures Valid() && r.Some? ==> |r.value| > 0
    {
      if key in entries then Some(entries[key]) else None
    }
  }
}
