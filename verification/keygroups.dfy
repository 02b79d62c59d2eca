/** `multi_key_dict_get`: a dict whose keys are tuples, searched for the tuple containing a key. */
module KeyGroups {
  import opened Wrappers

  /** True when group `i` of `d` is the first group whose keys contain `k`. */
  predicate FirstGroup<K(==), V>(d: seq<(seq<K>, V)>, k: K, i: nat)
    requires i < |d|
  {
    k in d[i].0 && forall j :: 0 <= j < i ==> k !in d[j].0
  }

  /**
   `multi_key_dict_get(d, k)`: the value of the first key group (in insertion
   order) that contains `k`, or None when no group does. The dict is an
   association list of (key tuple, value) pairs.
   */
  function MultiKeyDictGet<K(==), V>(d: seq<(seq<K>, V)>, k: K): (r: Option<V>)
    ensures r.None? <==> forall i :: 0 <= i < |d| ==> k !in d[i].0
    ensures r.Some? ==> exists i :: 0 <= i < |d| && FirstGroup(d, k, i) && r.value == d[i].1
  {
    if |d| == 0 then None
    else if k in d[0].0 then
      assert FirstGroup(d, k, 0);
      Some(d[0].1)
    else
      var r := MultiKeyDictGet(d[1..], k);
      assert r.Some? ==> exists i :: 0 <= i < |d| && FirstGroup(d, k, i) && r.value == d[i].1 by {
        if r.Some? {
          var i :| 0 <= i < |d[1..]| && FirstGroup(d[1..], k, i) && r.value == d[1..][i].1;
          assert FirstGroup(d, k, i + 1);
        }
      }
      assert forall i :: 1 <= i < |d| ==> d[i] == d[1..][i - 1];
      r
  }

  /** When the key groups are pairwise disjoint, the lookup finds the one group holding the key. */
  lemma MultiKeyDictGetDisjoint<K, V>(d: seq<(seq<K>, V)>, k: K, i: nat)
    requires i < |d| && k in d[i].0
    requires forall a, b :: 0 <= a < b < |d| ==> forall x :: x in d[a].0 ==> x !in d[b].0
    ensures MultiKeyDictGet(d, k) == Some(d[i].1)
  {
    var r := MultiKeyDictGet(d, k);
    var g :| 0 <= g < |d| && FirstGroup(d, k, g) && r.value == d[g].1;
    assert g == i;
  }
}
