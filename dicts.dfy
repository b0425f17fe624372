/** A Python dict with string keys: its entries, and its keys in insertion order. Assigning to a
    key that is present replaces the value and keeps the key's place; a new key goes last. */
module Dicts {

  datatype Dict<V> = Dict(keys: seq<string>, values: map<string, V>) {

    /** The keys are listed once each, and exactly the keys of the entries are listed. */
    ghost predicate Valid() {
      (forall i, j :: 0 <= i < j < |keys| ==> keys[i] != keys[j]) &&
      (forall k :: k in values <==> k in keys)
    }
  }

  function Empty<V>(): (d: Dict<V>)
    ensures d.Valid() && d.values == map[]
  {
    Dict([], map[])
  }

  /** d[k] = v */
  function Insert<V>(d: Dict<V>, k: string, v: V): (r: Dict<V>)
    ensures d.Valid() ==> r.Valid()
    ensures k in r.values && r.values[k] == v
    ensures forall n :: n != k ==> (n in r.values <==> n in d.values)
    ensures forall n :: n != k && n in d.values ==> r.values[n] == d.values[n]
    ensures k in d.values ==> r.keys == d.keys
    ensures k !in d.values ==> r.keys == d.keys + [k]
  {
    if k in d.values then Dict(d.keys, d.values[k := v])
    else Dict(d.keys + [k], d.values[k := v])
  }
}
