/** `new_list`: the cyclic rotation of a list that brings a chosen element to the front. */
module Rotation {
  import opened Wrappers
  import opened PyLists

  /** `x` reduced into `[0, n)` when it lies in `[0, 2n)`. */
  function Wrap(x: int, n: int): int {
    if x < n then x else x - n
  }

  /** `(k + i) % n` for `k` and `i` both below `n`: the modulus only ever subtracts one period. */
  lemma ModIsWrap(k: int, i: int, n: int)
    requires 0 <= k < n && 0 <= i < n
    ensures (k + i) % n == Wrap(k + i, n)
  {
    if k + i >= n {
      assert k + i - n < n;
    }
  }

  /** The rotation of `s` that starts at position `k`. */
  function Rotate<T>(s: seq<T>, k: nat): (r: seq<T>)
    requires k <= |s|
    ensures |r| == |s|
  {
    s[k..] + s[..k]
  }

  /** Element `i` of a rotation, with the wrap-around written out. */
  lemma RotateAt<T>(s: seq<T>, k: nat, i: nat)
    requires k < |s| && i < |s|
    ensures Rotate(s, k)[i] == s[Wrap(k + i, |s|)]
  {
  }

  /** Element `i` of a rotation, with the modulus app.py:54 uses. */
  lemma RotateAtMod<T>(s: seq<T>, k: nat, i: nat)
    requires k < |s| && i < |s|
    ensures Rotate(s, k)[i] == s[(k + i) % |s|]
  {
    ModIsWrap(k, i, |s|);
    RotateAt(s, k, i);
  }

  /**
   `new_list(olist, o)`: the cyclic rotation of `olist` that starts at the first
   occurrence of `o`; None where `olist.index(o)` raises ValueError. app.py:54
   builds it element-wise with a modulus, which `NewListAt` states.
   */
  function NewList<T(==)>(olist: seq<T>, o: T): (r: Option<seq<T>>)
    ensures r.None? <==> o !in olist
    ensures r.Some? ==> |r.value| == |olist|
  {
    match IndexOf(olist, o)
    case None => None
    case Some(k) => Some(Rotate(olist, k))
  }

  /** Element `i` of the rotation is `olist[(index(o) + i) % len]`, the formula app.py:54 builds it with. */
  lemma NewListAt<T>(olist: seq<T>, o: T, k: nat, i: nat)
    requires IndexOf(olist, o) == Some(k) && i < |olist|
    ensures NewList(olist, o).value[i] == olist[(k + i) % |olist|]
  {
    RotateAtMod(olist, k, i);
  }

  /** The rotation starts with the requested element. */
  lemma NewListHead<T>(olist: seq<T>, o: T)
    requires o in olist
    ensures NewList(olist, o).value[0] == o
  {
    RotateAt(olist, IndexOf(olist, o).value, 0);
  }

  /** The rotation is a permutation of the list. */
  lemma NewListPermutes<T>(olist: seq<T>, o: T)
    requires o in olist
    ensures multiset(NewList(olist, o).value) == multiset(olist)
  {
    var k := IndexOf(olist, o).value;
    assert olist == olist[..k] + olist[k..];
  }

  /** Rotating a list without duplicates keeps it without duplicates. */
  lemma RotateDistinct<T>(s: seq<T>, k: nat)
    requires k < |s| && Distinct(s)
    ensures Distinct(Rotate(s, k))
  {
    forall i, j | 0 <= i < j < |s| ensures Rotate(s, k)[i] != Rotate(s, k)[j] {
      RotateAt(s, k, i);
      RotateAt(s, k, j);
    }
  }

  /** Rotating by `c` and then by `a`, within one period, is rotating by their wrapped sum. */
  lemma RotateTwice<T>(s: seq<T>, a: nat, c: nat)
    requires a < |s| && c < |s|
    ensures Rotate(Rotate(s, a), c) == Rotate(s, Wrap(a + c, |s|))
  {
    var n := |s|;
    var lhs := Rotate(Rotate(s, a), c);
    var rhs := Rotate(s, Wrap(a + c, n));
    forall i | 0 <= i < n ensures lhs[i] == rhs[i] {
      RotateAt(Rotate(s, a), c, i);
      RotateAt(s, a, Wrap(c + i, n));
      RotateAt(s, Wrap(a + c, n), i);
    }
  }

  /** The next position after `i` in a cycle of length `n`. */
  function Succ(i: nat, n: nat): nat {
    if i + 1 < n then i + 1 else 0
  }

  /**
   The rotation keeps cyclic order: in a list without duplicates, whatever
   follows an element in the rotation also follows it in the original list.
   */
  lemma NewListKeepsSuccessor<T>(olist: seq<T>, o: T, k: nat, i: nat, j: nat)
    requires IndexOf(olist, o) == Some(k) && Distinct(olist) && i < |olist| && j < |olist|
    requires NewList(olist, o).value[i] == olist[j]
    ensures NewList(olist, o).value[Succ(i, |olist|)] == olist[Succ(j, |olist|)]
  {
    RotateAt(olist, k, i);
    RotateAt(olist, k, Succ(i, |olist|));
  }

  /** Rotating to the list's own first element changes nothing. */
  lemma NewListAtHead<T>(olist: seq<T>)
    requires |olist| > 0
    ensures NewList(olist, olist[0]) == Some(olist)
  {
    assert IndexOf(olist, olist[0]) == Some(0);
    assert olist[0..] + olist[..0] == olist;
  }

  /** Rotating a rotation of a list without duplicates is the same as rotating the list directly. */
  lemma NewListTwice<T>(olist: seq<T>, o: T, p: T)
    requires Distinct(olist) && o in olist && p in olist
    ensures NewList(NewList(olist, o).value, p) == NewList(olist, p)
  {
    var n := |olist|;
    var a := IndexOf(olist, o).value;
    var b := IndexOf(olist, p).value;
    var r := Rotate(olist, a);
    var c := if b >= a then b - a else b - a + n;
    RotateAt(olist, a, c);
    RotateDistinct(olist, a);
    IndexOfDistinct(r, c);
    RotateTwice(olist, a, c);
  }
}
