/** A Python `dict` whose iteration order matters: an association list in
    insertion order with distinct keys. Assigning to a present key updates it
    where it stands; assigning to a new key appends it. */
module PyDict {
  import opened Basics

  type Dict<K, V> = seq<(K, V)>

  predicate DistinctKeys<K(==), V>(d: Dict<K, V>) {
    forall i, j :: 0 <= i < j < |d| ==> d[i].0 != d[j].0
  }

  function Keys<K(==), V>(d: Dict<K, V>): (r: seq<K>)
    ensures |r| == |d| && forall i :: 0 <= i < |d| ==> r[i] == d[i].0
  {
    if d == [] then [] else [d[0].0] + Keys(d[1..])
  }

  /** `d.get(k)`. */
  function Get<K(==), V>(d: Dict<K, V>, k: K): (r: Option<V>)
  {
    if d == [] then None else if d[0].0 == k then Some(d[0].1) else Get(d[1..], k)
  }

  /** `d[k] = v`. */
  function Put<K(==), V>(d: Dict<K, V>, k: K, v: V): Dict<K, V> {
    if d == [] then [(k, v)]
    else if d[0].0 == k then [(k, v)] + d[1..]
    else [d[0]] + Put(d[1..], k, v)
  }

  /** Reading back after an assignment sees the new value for that key and
      the old value for every other key. */
  lemma {:induction false} GetPut<K, V>(d: Dict<K, V>, k: K, v: V, k2: K)
    ensures Get(Put(d, k, v), k2) == if k2 == k then Some(v) else Get(d, k2)
  {
    if d != [] && d[0].0 != k {
      GetPut(d[1..], k, v, k2);
    }
  }

  /** Assignment keeps the key order: an existing key stays where it is, a
      new key goes last. */
  lemma {:induction false} PutKeys<K, V>(d: Dict<K, V>, k: K, v: V)
    ensures k in Keys(d) ==> Keys(Put(d, k, v)) == Keys(d)
    ensures k !in Keys(d) ==> Keys(Put(d, k, v)) == Keys(d) + [k]
  {
    if d != [] && d[0].0 != k {
      PutKeys(d[1..], k, v);
      assert Keys(d) == [d[0].0] + Keys(d[1..]);
    }
  }

  /** A key is found exactly when it is one of the keys. */
  lemma {:induction false} GetKeys<K, V>(d: Dict<K, V>, k: K)
    ensures Get(d, k).Some? <==> k in Keys(d)
  {
    if d != [] {
      GetKeys(d[1..], k);
      assert Keys(d) == [d[0].0] + Keys(d[1..]);
    }
  }

  /** A lookup in a list extended at the end finds the old entry first. */
  lemma {:induction false} GetAppend<K, V>(d: Dict<K, V>, k: K, v: V, k2: K)
    ensures Get(d + [(k, v)], k2) == if Get(d, k2).Some? then Get(d, k2) else if k2 == k then Some(v) else None
  {
    if d != [] {
      assert (d + [(k, v)])[1..] == d[1..] + [(k, v)];
      GetAppend(d[1..], k, v, k2);
    }
  }

  /** Assignment keeps the keys distinct. */
  lemma PutDistinct<K, V>(d: Dict<K, V>, k: K, v: V)
    requires DistinctKeys(d)
    ensures DistinctKeys(Put(d, k, v))
  {
    var r := Put(d, k, v);
    PutKeys(d, k, v);
    assert forall i :: 0 <= i < |r| ==> r[i].0 == Keys(r)[i];
  }

  /** `next((k for k, v in d.items() if v == value), None)`. */
  function FirstKeyWithValue<K(==), V(==)>(d: Dict<K, V>, value: V): Option<K> {
    if d == [] then None
    else if d[0].1 == value then Some(d[0].0)
    else FirstKeyWithValue(d[1..], value)
  }

  /** The key found is mapped to the value; none is found only when no key is. */
  lemma {:induction false} FirstKeyWithValueFound<K, V>(d: Dict<K, V>, value: V)
    ensures FirstKeyWithValue(d, value).Some? ==> (FirstKeyWithValue(d, value).value, value) in d
    ensures FirstKeyWithValue(d, value).None? <==> forall i :: 0 <= i < |d| ==> d[i].1 != value
  {
    if d != [] && d[0].1 != value {
      FirstKeyWithValueFound(d[1..], value);
      assert forall i :: 1 <= i < |d| ==> d[i] == d[1..][i - 1];
    }
  }
}
