/** A Python dict: a map that remembers the order in which its keys were
    first inserted, which is the order its `items()` yields them in. */
module Dicts {

  datatype OrderedDict<K(==), V> = OrderedDict(keys: seq<K>, values: map<K, V>) {

    /** Every key appears once in the order, and the order lists exactly the
        keys of the map. */
    ghost predicate Valid() {
      (forall i, j :: 0 <= i < j < |keys| ==> keys[i] != keys[j]) &&
      (forall k :: k in values ==> k in keys) &&
      (forall i :: 0 <= i < |keys| ==> keys[i] in values)
    }

    /** `d[k] = v`: a new key goes to the end; an existing key keeps its
        place and only its value changes. */
    function Put(k: K, v: V): (d: OrderedDict<K, V>)
      requires Valid()
      ensures d.Valid()
      ensures d.values == values[k := v]
      ensures k in values ==> d.keys == keys
      ensures k !in values ==> d.keys == keys + [k]
    {
      if k in values then OrderedDict(keys, values[k := v])
      else OrderedDict(keys + [k], values[k := v])
    }
  }

  /** A dict is falsy exactly when it has no keys. */
  lemma NoKeysIffEmptyMap<K, V>(d: OrderedDict<K, V>)
    requires d.Valid()
    ensures d.keys == [] <==> d.values == map[]
  {
    if d.keys != [] {
      assert d.keys[0] in d.values;
    }
  }

  function Empty<K(==), V>(): (d: OrderedDict<K, V>)
    ensures d.Valid() && d.keys == [] && d.values == map[]
  {
    OrderedDict([], map[])
  }
}
