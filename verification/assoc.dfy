/** Python dicts as association lists, so that insertion order is explicit. */
module AssocList {
  import opened Results

  /** The keys of `m`, in insertion order (Python's `list(d.keys())`). */
  function Keys<K, V>(m: seq<(K, V)>): (r: seq<K>)
    ensures |r| == |m|
    ensures forall i :: 0 <= i < |m| ==> r[i] == m[i].0
  {
    if |m| == 0 then [] else [m[0].0] + Keys(m[1..])
  }

  /** `d[k]` for a dict whose keys are distinct; the first entry wins otherwise. */
  function Lookup<K(==), V>(m: seq<(K, V)>, k: K): (r: Option<V>)
    ensures r.None? <==> forall i :: 0 <= i < |m| ==> m[i].0 != k
    ensures r.Some? ==> exists i :: 0 <= i < |m| && m[i] == (k, r.value)
  {
    if |m| == 0 then None
    else if m[0].0 == k then Some(m[0].1)
    else Lookup(m[1..], k)
  }

  /** Every key occurs once, as in a dict. */
  predicate UniqueKeys<K(==), V>(m: seq<(K, V)>) {
    forall i, j :: 0 <= i < j < |m| ==> m[i].0 != m[j].0
  }

  /** With distinct keys, looking up the i-th key finds the i-th value: the
      key list and the original mapping describe the same pairs. */
  lemma {:induction false} LookupKeys<K, V>(m: seq<(K, V)>)
    requires UniqueKeys(m)
    ensures forall i :: 0 <= i < |m| ==> Lookup(m, Keys(m)[i]) == Some(m[i].1)
  {
    if |m| > 0 {
      LookupKeys(m[1..]);
      forall i | 0 <= i < |m|
        ensures Lookup(m, Keys(m)[i]) == Some(m[i].1)
      {
        if i > 0 {
          assert m[i] == m[1..][i - 1];
          assert m[0].0 != m[i].0;
        }
      }
    }
  }
}
