/**
 The Python list and dict primitives the overlay is built from: `list.index`,
 `dict(zip(keys, values))`, and the absence of duplicates that both rely on.
 */
module PyLists {
  import opened Wrappers

  /** True when no value occurs twice in `s`. */
  predicate Distinct<T(==)>(s: seq<T>) {
    forall i, j :: 0 <= i < j < |s| ==> s[i] != s[j]
  }

  /** `s.index(x)`: the first position holding `x`; None where Python raises ValueError. */
  function IndexOf<T(==)>(s: seq<T>, x: T): (r: Option<nat>)
    ensures r.None? <==> x !in s
    ensures r.Some? ==> r.value < |s| && s[r.value] == x && x !in s[..r.value]
  {
    if |s| == 0 then None
    else if s[0] == x then Some(0)
    else match IndexOf(s[1..], x)
      case None => None
      case Some(k) =>
        assert s[..k + 1] == [s[0]] + s[1..][..k];
        Some(k + 1)
  }

  /** In a sequence without duplicates, the position of `s[i]` is `i`. */
  lemma IndexOfDistinct<T>(s: seq<T>, i: nat)
    requires Distinct(s) && i < |s|
    ensures IndexOf(s, s[i]) == Some(i)
  {
  }

  /** True when no position after `i` repeats the key `ks[i]`. */
  predicate LastOccurrence<K(==)>(ks: seq<K>, i: nat)
    requires i < |ks|
  {
    forall j :: i < j < |ks| ==> ks[j] != ks[i]
  }

  /** The dict built from pairs of equal-length key and value sequences; later pairs overwrite earlier ones. */
  function PairsToMap<K(==,!new), V>(ks: seq<K>, vs: seq<V>): (m: map<K, V>)
    requires |ks| == |vs|
    ensures forall k :: k in m <==> k in ks
    ensures forall i :: 0 <= i < |ks| && LastOccurrence(ks, i) ==> m[ks[i]] == vs[i]
    decreases |ks|
  {
    if |ks| == 0 then map[]
    else
      var n := |ks| - 1;
      var m' := PairsToMap(ks[..n], vs[..n]);
      PairsToMapStep(ks, vs, n, m');
      m'[ks[n] := vs[n]]
  }

  /** Adding the last pair to the dict of the first `n` pairs gives the dict of all of them. */
  lemma PairsToMapStep<K(!new), V>(ks: seq<K>, vs: seq<V>, n: nat, m': map<K, V>)
    requires |ks| == |vs| == n + 1
    requires forall k :: k in m' <==> k in ks[..n]
    requires forall i :: 0 <= i < n && LastOccurrence(ks[..n], i) ==> m'[ks[..n][i]] == vs[..n][i]
    ensures forall k :: k in m'[ks[n] := vs[n]] <==> k in ks
    ensures forall i :: 0 <= i < |ks| && LastOccurrence(ks, i) ==> m'[ks[n] := vs[n]][ks[i]] == vs[i]
  {
    var m := m'[ks[n] := vs[n]];
    assert ks == ks[..n] + [ks[n]];
    forall i | 0 <= i < |ks| && LastOccurrence(ks, i)
      ensures m[ks[i]] == vs[i]
    {
      if i < n {
        assert ks[..n][i] == ks[i] && vs[..n][i] == vs[i];
        assert LastOccurrence(ks[..n], i);
        assert ks[i] != ks[n];
      }
    }
  }

  /**
   `dict(zip(ks, vs))`: zip stops at the shorter sequence, and a key that occurs
   more than once keeps the value paired with its last occurrence.
   */
  function ZipMap<K(==,!new), V>(ks: seq<K>, vs: seq<V>): (m: map<K, V>)
    ensures |ks| <= |vs| ==> forall k :: k in m <==> k in ks
  {
    var n := if |ks| < |vs| then |ks| else |vs|;
    assert n == |ks| ==> ks[..n] == ks;
    PairsToMap(ks[..n], vs[..n])
  }

  /** With distinct keys, the zipped dict pairs every key with the value at its own position. */
  lemma ZipMapDistinct<K(!new), V>(ks: seq<K>, vs: seq<V>)
    requires Distinct(ks) && |ks| <= |vs|
    ensures forall k :: k in ZipMap(ks, vs) <==> k in ks
    ensures forall i :: 0 <= i < |ks| ==> ZipMap(ks, vs)[ks[i]] == vs[i]
  {
    assert ks[..|ks|] == ks;
    var m := PairsToMap(ks, vs[..|ks|]);
    assert ZipMap(ks, vs) == m;
    forall i | 0 <= i < |ks|
      ensures m[ks[i]] == vs[i]
    {
      assert LastOccurrence(ks, i);
    }
  }
}
