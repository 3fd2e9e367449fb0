/** A JavaScript `Map`: a dictionary that remembers the order in which keys were first
    set. `set` on a present key replaces its value in place, `set` on a new key adds it
    at the end, `delete` drops the key, and `values()` lists the values in key order. */
module OrderedMaps {
  import opened Common

  datatype OMap<K(==), V> = OMap(keys: seq<K>, entries: map<K, V>) {

    ghost predicate Valid() {
      && Distinct(keys)
      && entries.Keys == (set k | k in keys)
    }

    /** `map.has(k)`. */
    predicate Has(k: K) {
      k in entries
    }

    /** `map.set(k, v)`. */
    function Put(k: K, v: V): (r: OMap<K, V>)
      requires Valid()
      ensures r.Valid()
      ensures r.entries == entries[k := v]
      ensures k in entries ==> r.keys == keys
      ensures k !in entries ==> r.keys == keys + [k]
    {
      if k in entries then OMap(keys, entries[k := v]) else OMap(keys + [k], entries[k := v])
    }

    /** `map.delete(k)`. */
    function Remove(k: K): (r: OMap<K, V>)
      requires Valid()
      ensures r.Valid()
      ensures r.entries == entries - {k}
      ensures r.keys == Without(keys, k)
    {
      WithoutKeepsDistinct(keys, k);
      OMap(Without(keys, k), entries - {k})
    }

    /** `Array.from(map.values())`. */
    function Values(): (r: seq<V>)
      requires Valid()
      ensures |r| == |keys|
      ensures forall i :: 0 <= i < |keys| ==> r[i] == entries[keys[i]]
    {
      seq(|keys|, i requires 0 <= i < |keys| => entries[keys[i]])
    }
  }

  function Empty<K(==), V>(): (r: OMap<K, V>)
    ensures r.Valid() && r.entries == map[] && r.keys == []
  {
    OMap([], map[])
  }

  ghost predicate Distinct<K>(s: seq<K>) {
    forall i, j :: 0 <= i < j < |s| ==> s[i] != s[j]
  }

  /** `s` with every occurrence of `k` left out, in order. */
  function Without<K(==)>(s: seq<K>, k: K): (r: seq<K>)
    ensures forall i :: 0 <= i < |r| ==> r[i] in s && r[i] != k
    ensures forall i :: 0 <= i < |s| && s[i] != k ==> s[i] in r
  {
    if s == [] then [] else (if s[0] == k then [] else [s[0]]) + Without(s[1..], k)
  }

  lemma {:induction false} WithoutKeepsDistinct<K>(s: seq<K>, k: K)
    requires Distinct(s)
    ensures Distinct(Without(s, k))
    ensures (set x | x in Without(s, k)) == (set x | x in s) - {k}
    decreases |s|
  {
    if s != [] {
      WithoutKeepsDistinct(s[1..], k);
      assert s[0] !in s[1..];
      assert s == [s[0]] + s[1..];
    }
  }

  /** Every stored value is listed by `Values`. */
  lemma ValuesAreEntries<K, V>(m: OMap<K, V>, k: K)
    requires m.Valid() && k in m.entries
    ensures m.entries[k] in m.Values()
  {
    assert k in m.keys;
    var i :| 0 <= i < |m.keys| && m.keys[i] == k;
    assert m.Values()[i] == m.entries[k];
  }

  /** `Values` lists every stored value. */
  lemma AllValuesListed<K, V>(m: OMap<K, V>)
    requires m.Valid()
    ensures forall k :: k in m.entries ==> m.entries[k] in m.Values()
  {
    forall k | k in m.entries ensures m.entries[k] in m.Values() {
      ValuesAreEntries(m, k);
    }
  }

  /** Replacing the value of a present key replaces it at its position in `Values`. */
  lemma PutPresentValues<K, V>(m: OMap<K, V>, k: K, v: V, i: nat)
    requires m.Valid() && k in m.entries && i < |m.keys|
    ensures m.Put(k, v).Values()[i] == if m.keys[i] == k then v else m.Values()[i]
  {
  }
}
