/** Python dictionaries whose insertion order is observable: the opkg module
    takes the first key of a parsed `opkg info` result, so the model keeps
    the keys in the order they were first set. */
module Dicts {

  /** A dict with string keys: its entries and its keys in insertion order. */
  datatype Dict<V> = Dict(keys: seq<string>, entries: map<string, V>)

  /** The order lists every key exactly once. */
  ghost predicate Valid<V>(d: Dict<V>) {
    (forall k :: k in d.entries <==> k in d.keys)
    && (forall i, j :: 0 <= i < j < |d.keys| ==> d.keys[i] != d.keys[j])
  }

  /** `{}`. */
  function Empty<V>(): (d: Dict<V>)
    ensures Valid(d) && d.entries == map[]
  {
    Dict([], map[])
  }

  /** `d[k] = v`: a new key goes to the end, an existing key keeps its place. */
  function Put<V>(d: Dict<V>, k: string, v: V): (r: Dict<V>)
    ensures r.entries == d.entries[k := v]
    ensures Valid(d) ==> Valid(r)
    ensures Valid(d) && k in d.entries ==> r.keys == d.keys
    ensures Valid(d) && k !in d.entries ==> r.keys == d.keys + [k]
  {
    if k in d.keys then Dict(d.keys, d.entries[k := v]) else Dict(d.keys + [k], d.entries[k := v])
  }

  /** `next(iter(d))`: the first key set, which later assignments do not move. */
  lemma PutFirst<V>(d: Dict<V>, k: string, v: V)
    requires Valid(d)
    ensures d.keys != [] ==> Put(d, k, v).keys[0] == d.keys[0]
    ensures d.keys == [] ==> Put(d, k, v).keys == [k]
  {
  }
}
