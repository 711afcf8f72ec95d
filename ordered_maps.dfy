/**
 * A JavaScript object used as a dictionary: string keys kept in the order
 * they were first assigned, each mapped to one value.
 */
module OrderedMaps {

  datatype OMap<V> = OMap(keys: seq<string>, entries: map<string, V>)

  /** The keys are listed once each, and exactly the keys that have a value. */
  ghost predicate Valid<V>(m: OMap<V>) {
    && (forall i, j :: 0 <= i < j < |m.keys| ==> m.keys[i] != m.keys[j])
    && (forall k :: k in m.entries <==> k in m.keys)
  }

  /** `{}` */
  function Empty<V>(): (m: OMap<V>)
    ensures Valid(m) && m.keys == [] && m.entries == map[]
  {
    OMap([], map[])
  }

  /** `obj[k] = v`: a new key is listed last, an existing key keeps its
      place and only its value changes. */
  function Put<V>(m: OMap<V>, k: string, v: V): (r: OMap<V>)
    ensures Valid(m) ==> Valid(r)
    ensures r.entries == m.entries[k := v]
    ensures Valid(m) && k in m.entries ==> r.keys == m.keys
    ensures k !in m.entries ==> r.keys == m.keys + [k]
  {
    if k in m.entries then OMap(m.keys, m.entries[k := v])
    else OMap(m.keys + [k], m.entries[k := v])
  }

  /** Assigning the same key twice leaves only the second value. */
  lemma PutTwice<V>(m: OMap<V>, k: string, a: V, b: V)
    requires Valid(m)
    ensures Put(Put(m, k, a), k, b) == Put(m, k, b)
  {
    assert m.entries[k := a][k := b] == m.entries[k := b];
  }
}
