/** Locating a record by its id, as the dashboard does with `Array.prototype.find`. */
module Lookup {

  datatype Option<T> = None | Some(value: T)

  /** The position of the first key equal to `k`: the record that `find` returns. */
  function FirstIndexOf<K(==)>(keys: seq<K>, k: K): (r: Option<nat>)
    ensures r.None? <==> k !in keys
    ensures r.Some? ==> r.value < |keys| && keys[r.value] == k
    ensures r.Some? ==> forall j :: 0 <= j < r.value ==> keys[j] != k
  {
    if |keys| == 0 then None
    else if keys[0] == k then Some(0)
    else match FirstIndexOf(keys[1..], k)
      case None => None
      case Some(i) => Some(i + 1)
  }

  /** The keys of a sequence of records, in order. */
  function Ids<R, K>(rs: seq<R>, key: R -> K): (ids: seq<K>)
    ensures |ids| == |rs|
    ensures forall i :: 0 <= i < |rs| ==> ids[i] == key(rs[i])
  {
    seq(|rs|, i requires 0 <= i < |rs| => key(rs[i]))
  }

  /** No key occurs twice. */
  predicate Distinct<K(==)>(keys: seq<K>)
  {
    forall i, j :: 0 <= i < |keys| && 0 <= j < |keys| && i != j ==> keys[i] != keys[j]
  }
}
