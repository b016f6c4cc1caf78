/** A Python dictionary: a map together with the order in which its keys were
    first inserted, which is the order in which iteration yields them. */
module PyDict {

  datatype Dict<K, V> = Dict(keys: seq<K>, values: map<K, V>)

  /** The keys are distinct and are exactly the keys of the map. */
  ghost predicate Valid<K(!new), V>(d: Dict<K, V>)
  {
    && (forall i, j :: 0 <= i < j < |d.keys| ==> d.keys[i] != d.keys[j])
    && (forall k :: k in d.values <==> k in d.keys)
  }

  /** The literal `{}`. */
  function Empty<K(!new), V>(): (r: Dict<K, V>)
    ensures Valid(r) && |r.keys| == 0 && |r.values| == 0
  {
    Dict([], map[])
  }

  /** `d[k] = v`: `k` now maps to `v` and every other entry is kept; a new key is
      appended to the order, an existing key keeps its position. */
  function Put<K(!new), V>(d: Dict<K, V>, k: K, v: V): (r: Dict<K, V>)
    requires Valid(d)
    ensures Valid(r)
    ensures r.values.Keys == d.values.Keys + {k} && r.values[k] == v
    ensures forall x :: x in d.values && x != k ==> r.values[x] == d.values[x]
    ensures k in d.values ==> r.keys == d.keys
    ensures k !in d.values ==> r.keys == d.keys + [k]
  {
    if k in d.values then Dict(d.keys, d.values[k := v])
    else Dict(d.keys + [k], d.values[k := v])
  }

  /** The position of the first occurrence of `k` in `ks`. */
  function FirstIndex<K(==)>(ks: seq<K>, k: K): (r: nat)
    requires k in ks
    ensures r < |ks| && ks[r] == k
    ensures forall j :: 0 <= j < r ==> ks[j] != k
  {
    if ks[0] == k then 0 else 1 + FirstIndex(ks[1..], k)
  }

  /** The position of the last occurrence of `k` in `ks`. */
  function LastIndex<K(==)>(ks: seq<K>, k: K): (r: nat)
    requires k in ks
    ensures r < |ks| && ks[r] == k
    ensures forall j :: r < j < |ks| ==> ks[j] != k
  {
    var n := |ks| - 1;
    if ks[n] == k then n
    else
      assert ks == ks[..n] + [ks[n]];
      LastIndex(ks[..n], k)
  }

  /** Appending to a sequence does not move the first occurrence of a key it
      already holds. */
  lemma FirstIndexAppend<K>(ks: seq<K>, k: K, x: K)
    requires x in ks
    ensures FirstIndex(ks + [k], x) == FirstIndex(ks, x)
  {
    var r := FirstIndex(ks, x);
    assert (ks + [k])[r] == ks[r];
  }

  /** `d` holds exactly the keys assigned by the sequence `ks` of assignments,
      in the order in which each was first assigned. */
  ghost predicate InFirstInsertionOrder<K(!new), V>(d: Dict<K, V>, ks: seq<K>)
  {
    && Valid(d)
    && (forall k :: k in d.values <==> k in ks)
    && (forall p, q :: 0 <= p < q < |d.keys| ==> FirstIndex(ks, d.keys[p]) < FirstIndex(ks, d.keys[q]))
  }

  /** A key new to a sequence first occurs where it is appended. */
  lemma FirstIndexAppendNew<K>(ks: seq<K>, k: K)
    requires k !in ks
    ensures FirstIndex(ks + [k], k) == |ks|
  {
  }

  /** One more assignment `d[k] = v` keeps the dictionary in first-insertion order. */
  lemma PutKeepsFirstInsertionOrder<K(!new), V>(d: Dict<K, V>, ks: seq<K>, k: K, v: V)
    requires InFirstInsertionOrder(d, ks)
    ensures InFirstInsertionOrder(Put(d, k, v), ks + [k])
  {
    var d', ks' := Put(d, k, v), ks + [k];
    if k !in d.values {
      FirstIndexAppendNew(ks, k);
    }
    forall p, q | 0 <= p < q < |d'.keys|
      ensures FirstIndex(ks', d'.keys[p]) < FirstIndex(ks', d'.keys[q])
    {
      FirstIndexAppend(ks, k, d.keys[p]);
      if q < |d.keys| {
        FirstIndexAppend(ks, k, d.keys[q]);
      }
    }
  }
}
