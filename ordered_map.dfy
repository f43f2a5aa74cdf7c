/**
  The value of a JavaScript `Map` with string keys: its keys in insertion
  order and the entry stored under each. The client keeps its sensors in
  one of these and replaces it by a copy updated with `set`.
*/
module OrderedMaps {
  import opened Options

  datatype OrderedMap<V> = OrderedMap(keys: seq<string>, entries: map<string, V>)

  /** Each key occurs once in the order, and the order lists exactly the stored keys. */
  ghost predicate Valid<V>(m: OrderedMap<V>) {
    && (forall i, j :: 0 <= i < j < |m.keys| ==> m.keys[i] != m.keys[j])
    && (forall k :: k in m.entries <==> k in m.keys)
  }

  /** `new Map()`. */
  function EmptyMap<V>(): (m: OrderedMap<V>)
    ensures Valid(m) && m.entries == map[]
  {
    OrderedMap([], map[])
  }

  /** `map.get(k)`: None stands for `undefined`. */
  function Get<V>(m: OrderedMap<V>, k: string): (r: Option<V>)
    ensures Valid(m) ==> (r.Some? <==> k in m.keys)
    ensures r.Some? ==> k in m.entries && r.value == m.entries[k]
  {
    if k in m.entries then Some(m.entries[k]) else None
  }

  /**
    `map.set(k, v)`: the entry for `k` becomes `v`, every other entry stays,
    a key already present keeps its place in the order and a new key goes
    to the end.
  */
  function Set<V>(m: OrderedMap<V>, k: string, v: V): (r: OrderedMap<V>)
    requires Valid(m)
    ensures Valid(r)
    ensures r.entries.Keys == m.entries.Keys + {k}
    ensures Get(r, k) == Some(v)
    ensures forall k' :: k' != k ==> Get(r, k') == Get(m, k')
    ensures k in m.entries ==> r.keys == m.keys
    ensures k !in m.entries ==> r.keys == m.keys + [k]
  {
    OrderedMap(if k in m.entries then m.keys else m.keys + [k], m.entries[k := v])
  }

  /** `Array.from(map.values())`: the entries in key order. */
  function Values<V>(m: OrderedMap<V>): (vs: seq<V>)
    requires Valid(m)
    ensures |vs| == |m.keys|
    ensures forall i :: 0 <= i < |vs| ==> m.keys[i] in m.entries && vs[i] == m.entries[m.keys[i]]
  {
    seq(|m.keys|, i requires 0 <= i < |m.keys| => m.entries[m.keys[i]])
  }

  /** Setting a key that is present replaces its value in place: the values keep their order. */
  lemma SetKeepsPosition<V>(m: OrderedMap<V>, i: int, v: V)
    requires Valid(m) && 0 <= i < |m.keys|
    ensures Values(Set(m, m.keys[i], v)) == Values(m)[i := v]
  {
  }

  /** Setting a new key appends its value after all the others. */
  lemma SetAppends<V>(m: OrderedMap<V>, k: string, v: V)
    requires Valid(m) && k !in m.entries
    ensures Values(Set(m, k, v)) == Values(m) + [v]
  {
  }
}
