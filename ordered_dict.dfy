/** Python dictionaries keep insertion order; assigning to an existing key
    replaces its value and keeps its position. */
module OrderedDict {

  datatype ODict<K, V> = ODict(keys: seq<K>, m: map<K, V>)

  ghost predicate Valid<K(!new), V>(d: ODict<K, V>) {
    && (forall i, j :: 0 <= i < j < |d.keys| ==> d.keys[i] != d.keys[j])
    && (forall k :: k in d.m <==> k in d.keys)
  }

  function Empty<K(!new), V>(): (d: ODict<K, V>)
    ensures Valid(d) && d.keys == [] && d.m == map[]
  {
    ODict([], map[])
  }

  /** `d[k] = v` */
  function Put<K(!new), V>(d: ODict<K, V>, k: K, v: V): (r: ODict<K, V>)
    requires Valid(d)
    ensures Valid(r)
    ensures r.m == d.m[k := v]
    ensures k in d.m ==> r.keys == d.keys
    ensures k !in d.m ==> r.keys == d.keys + [k]
  {
    if k in d.m then ODict(d.keys, d.m[k := v]) else ODict(d.keys + [k], d.m[k := v])
  }

  /** The values in iteration order (`d.values()`). */
  function Values<K(!new), V>(d: ODict<K, V>): (vs: seq<V>)
    requires Valid(d)
    ensures |vs| == |d.keys|
    ensures forall i :: 0 <= i < |vs| ==> vs[i] == d.m[d.keys[i]]
  {
    seq(|d.keys|, i requires 0 <= i < |d.keys| => d.m[d.keys[i]])
  }

  /** `m2` keeps every entry of `m1`. */
  ghost predicate Extends<K(!new), V>(m1: map<K, V>, m2: map<K, V>) {
    forall k :: k in m1 ==> k in m2 && m2[k] == m1[k]
  }

  lemma ExtendsTrans<K(!new), V>(m1: map<K, V>, m2: map<K, V>, m3: map<K, V>)
    requires Extends(m1, m2) && Extends(m2, m3)
    ensures Extends(m1, m3)
  {
  }
}
