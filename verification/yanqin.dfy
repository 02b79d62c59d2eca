/**
 The master list of the 28 mansions (`chin_list`, app.py line 119) and how the
 four rows of `day_chin`'s `head` table sit in it: each row is an arithmetic
 progression round the list, and together the rows hold every mansion once.
 */
module Yanqin {
  import opened Wrappers
  import opened PyLists
  import opened DayMansion

  /** `chin_list`: the 28 mansions in their fixed cyclic order, starting at 角. */
  const ChinList: seq<char> := "角亢氐房心尾箕斗牛女虛危室壁奎婁胃昴畢觜參井鬼柳星張翼軫"

  /** The modulus app.py:121-127 reduce every mansion index by. */
  const MansionCount: int := 28

  /** No mansion of `s` at a position in `lo..hi` repeats later in `s`. */
  predicate DistinctFrom(s: seq<char>, lo: nat, hi: nat)
    requires hi <= |s|
  {
    forall i, j :: lo <= i < hi && i < j < |s| ==> s[i] != s[j]
  }

  // The master list's distinctness, in slices small enough for the solver.
  lemma ChinListDistinctA() ensures DistinctFrom(ChinList, 0, 2) {}
  lemma ChinListDistinctB() ensures DistinctFrom(ChinList, 2, 4) {}
  lemma ChinListDistinctC() ensures DistinctFrom(ChinList, 4, 7) {}
  lemma ChinListDistinctD() ensures DistinctFrom(ChinList, 7, 10) {}
  lemma ChinListDistinctE() ensures DistinctFrom(ChinList, 10, 14) {}
  lemma ChinListDistinctF() ensures DistinctFrom(ChinList, 14, 28) {}

  /** The master list names 28 different mansions. */
  lemma ChinListDistinct()
    ensures |ChinList| == MansionCount
    ensures Distinct(ChinList)
  {
    ChinListDistinctA();
    ChinListDistinctB();
    ChinListDistinctC();
    ChinListDistinctD();
    ChinListDistinctE();
    ChinListDistinctF();
  }

  /** A mansion of the master list sits at one position only. */
  lemma ChinListIndexUnique(i1: nat, i2: nat)
    requires i1 < MansionCount && i2 < MansionCount && ChinList[i1] == ChinList[i2]
    ensures i1 == i2
  {
    ChinListDistinct();
  }

  /** `chin_list.index` finds every mansion at its own position. */
  lemma ChinListIndex(c: nat)
    requires c < MansionCount
    ensures IndexOf(ChinList, ChinList[c]) == Some(c)
  {
    ChinListDistinct();
    IndexOfDistinct(ChinList, c);
  }

  /** The fallback mansion 虛 is the eleventh of the master list. */
  lemma FallbackPosition()
    ensures ChinList[10] == FallbackMansion
  {
  }

  // ---------------------------------------------------------------------------
  // The mansion rows of the triads against the master list
  // ---------------------------------------------------------------------------

  /** The master-list position `10 + 21h + 8k` (mod 28) of row `h`, column `k` of `head`. */
  function CellIndex(h: nat, k: nat): (i: nat)
    requires h < 4 && k < 7
    ensures i < MansionCount
  {
    (10 + 21 * h + 8 * k) % 28
  }

  // Each fact about the 4 x 7 grid is checked one row (or one quarter of the
  // master list) at a time, with every cell's index worked out once: the row
  // lemmas state both the cell's mansion and how the cell is read back from
  // its index.

  lemma Row0(k: nat)
    requires k < 7
    ensures Head[0][k] == ChinList[CellIndex(0, k)]
    ensures (CellIndex(0, k) + 2) % 4 == 0 && (CellIndex(0, k) + 4) % 7 == k
  {
    if k == 0 { assert CellIndex(0, 0) == 10;
    } else if k == 1 { assert CellIndex(0, 1) == 18;
    } else if k == 2 { assert CellIndex(0, 2) == 26;
    } else if k == 3 { assert CellIndex(0, 3) == 6;
    } else if k == 4 { assert CellIndex(0, 4) == 14;
    } else if k == 5 { assert CellIndex(0, 5) == 22;
    } else { assert CellIndex(0, 6) == 2;
    }
  }

  lemma Row1(k: nat)
    requires k < 7
    ensures Head[1][k] == ChinList[CellIndex(1, k)]
    ensures (CellIndex(1, k) + 2) % 4 == 1 && (CellIndex(1, k) + 4) % 7 == k
  {
    if k == 0 { assert CellIndex(1, 0) == 3;
    } else if k == 1 { assert CellIndex(1, 1) == 11;
    } else if k == 2 { assert CellIndex(1, 2) == 19;
    } else if k == 3 { assert CellIndex(1, 3) == 27;
    } else if k == 4 { assert CellIndex(1, 4) == 7;
    } else if k == 5 { assert CellIndex(1, 5) == 15;
    } else { assert CellIndex(1, 6) == 23;
    }
  }

  lemma Row2(k: nat)
    requires k < 7
    ensures Head[2][k] == ChinList[CellIndex(2, k)]
    ensures (CellIndex(2, k) + 2) % 4 == 2 && (CellIndex(2, k) + 4) % 7 == k
  {
    if k == 0 { assert CellIndex(2, 0) == 24;
    } else if k == 1 { assert CellIndex(2, 1) == 4;
    } else if k == 2 { assert CellIndex(2, 2) == 12;
    } else if k == 3 { assert CellIndex(2, 3) == 20;
    } else if k == 4 { assert CellIndex(2, 4) == 0;
    } else if k == 5 { assert CellIndex(2, 5) == 8;
    } else { assert CellIndex(2, 6) == 16;
    }
  }

  lemma Row3(k: nat)
    requires k < 7
    ensures Head[3][k] == ChinList[CellIndex(3, k)]
    ensures (CellIndex(3, k) + 2) % 4 == 3 && (CellIndex(3, k) + 4) % 7 == k
  {
    if k == 0 { assert CellIndex(3, 0) == 17;
    } else if k == 1 { assert CellIndex(3, 1) == 25;
    } else if k == 2 { assert CellIndex(3, 2) == 5;
    } else if k == 3 { assert CellIndex(3, 3) == 13;
    } else if k == 4 { assert CellIndex(3, 4) == 21;
    } else if k == 5 { assert CellIndex(3, 5) == 1;
    } else { assert CellIndex(3, 6) == 9;
    }
  }

  /**
   Row `h`, column `k` of `head` is the mansion `10 + 21h + 8k` places (mod 28)
   along the master list: each triad's row steps by 8 mansions per weekday, and
   each row starts 7 mansions before the previous one.
   */
  lemma HeadClosedForm(h: nat, k: nat)
    requires h < 4 && k < 7
    ensures Head[h][k] == ChinList[CellIndex(h, k)]
  {
    if h == 0 { Row0(k); } else if h == 1 { Row1(k); } else if h == 2 { Row2(k); } else { Row3(k); }
  }

  lemma CoverQuarter0(i: nat)
    requires 0 <= i < 7
    ensures CellIndex((i + 2) % 4, (i + 4) % 7) == i
  {
    if i == 0 { assert (i + 2) % 4 == 2 && (i + 4) % 7 == 4;
    } else if i == 1 { assert (i + 2) % 4 == 3 && (i + 4) % 7 == 5;
    } else if i == 2 { assert (i + 2) % 4 == 0 && (i + 4) % 7 == 6;
    } else if i == 3 { assert (i + 2) % 4 == 1 && (i + 4) % 7 == 0;
    } else if i == 4 { assert (i + 2) % 4 == 2 && (i + 4) % 7 == 1;
    } else if i == 5 { assert (i + 2) % 4 == 3 && (i + 4) % 7 == 2;
    } else { assert (i + 2) % 4 == 0 && (i + 4) % 7 == 3;
    }
  }

  lemma CoverQuarter1(i: nat)
    requires 7 <= i < 14
    ensures CellIndex((i + 2) % 4, (i + 4) % 7) == i
  {
    if i == 7 { assert (i + 2) % 4 == 1 && (i + 4) % 7 == 4;
    } else if i == 8 { assert (i + 2) % 4 == 2 && (i + 4) % 7 == 5;
    } else if i == 9 { assert (i + 2) % 4 == 3 && (i + 4) % 7 == 6;
    } else if i == 10 { assert (i + 2) % 4 == 0 && (i + 4) % 7 == 0;
    } else if i == 11 { assert (i + 2) % 4 == 1 && (i + 4) % 7 == 1;
    } else if i == 12 { assert (i + 2) % 4 == 2 && (i + 4) % 7 == 2;
    } else { assert (i + 2) % 4 == 3 && (i + 4) % 7 == 3;
    }
  }

  lemma CoverQuarter2(i: nat)
    requires 14 <= i < 21
    ensures CellIndex((i + 2) % 4, (i + 4) % 7) == i
  {
    if i == 14 { assert (i + 2) % 4 == 0 && (i + 4) % 7 == 4;
    } else if i == 15 { assert (i + 2) % 4 == 1 && (i + 4) % 7 == 5;
    } else if i == 16 { assert (i + 2) % 4 == 2 && (i + 4) % 7 == 6;
    } else if i == 17 { assert (i + 2) % 4 == 3 && (i + 4) % 7 == 0;
    } else if i == 18 { assert (i + 2) % 4 == 0 && (i + 4) % 7 == 1;
    } else if i == 19 { assert (i + 2) % 4 == 1 && (i + 4) % 7 == 2;
    } else { assert (i + 2) % 4 == 2 && (i + 4) % 7 == 3;
    }
  }

  lemma CoverQuarter3(i: nat)
    requires 21 <= i < 28
    ensures CellIndex((i + 2) % 4, (i + 4) % 7) == i
  {
    if i == 21 { assert (i + 2) % 4 == 3 && (i + 4) % 7 == 4;
    } else if i == 22 { assert (i + 2) % 4 == 0 && (i + 4) % 7 == 5;
    } else if i == 23 { assert (i + 2) % 4 == 1 && (i + 4) % 7 == 6;
    } else if i == 24 { assert (i + 2) % 4 == 2 && (i + 4) % 7 == 0;
    } else if i == 25 { assert (i + 2) % 4 == 3 && (i + 4) % 7 == 1;
    } else if i == 26 { assert (i + 2) % 4 == 0 && (i + 4) % 7 == 2;
    } else { assert (i + 2) % 4 == 1 && (i + 4) % 7 == 3;
    }
  }

  /** The mansion index of grid cell `((i + 2) % 4, (i + 4) % 7)` is `i` again. */
  lemma CoverIndex(i: nat)
    requires i < 28
    ensures CellIndex((i + 2) % 4, (i + 4) % 7) == i
  {
    if i < 7 { CoverQuarter0(i); } else if i < 14 { CoverQuarter1(i); } else if i < 21 { CoverQuarter2(i); } else { CoverQuarter3(i); }
  }

  /** Every mansion of the master list appears in the rows, at row `(i + 2) % 4`, column `(i + 4) % 7`. */
  lemma HeadCoversChinList(i: nat)
    requires i < 28
    ensures Head[(i + 2) % 4][(i + 4) % 7] == ChinList[i]
  {
    var h := (i + 2) % 4;
    var k := (i + 4) % 7;
    CoverIndex(i);
    assert CellIndex(h, k) == i;
    HeadClosedForm(h, k);
  }

  /** The grid position of a mansion index is recovered from it: `(i + 2) % 4` and `(i + 4) % 7`. */
  lemma HeadIndexInverse(h: nat, k: nat)
    requires h < 4 && k < 7
    ensures (CellIndex(h, k) + 2) % 4 == h
    ensures (CellIndex(h, k) + 4) % 7 == k
  {
    if h == 0 { Row0(k); } else if h == 1 { Row1(k); } else if h == 2 { Row2(k); } else { Row3(k); }
  }

  /** Two cells of the grid at the same master-list position are the same cell. */
  lemma CellIndexInjective(h1: nat, k1: nat, h2: nat, k2: nat)
    requires h1 < 4 && k1 < 7 && h2 < 4 && k2 < 7
    requires CellIndex(h1, k1) == CellIndex(h2, k2)
    ensures h1 == h2 && k1 == k2
  {
    HeadIndexInverse(h1, k1);
    HeadIndexInverse(h2, k2);
  }

  /** Two cells of the grid holding the same mansion are the same cell. */
  lemma HeadCellsDistinct(h1: nat, k1: nat, h2: nat, k2: nat)
    requires h1 < 4 && k1 < 7 && h2 < 4 && k2 < 7
    requires Head[h1][k1] == Head[h2][k2]
    ensures h1 == h2 && k1 == k2
  {
    HeadClosedForm(h1, k1);
    HeadClosedForm(h2, k2);
    ChinListIndexUnique(CellIndex(h1, k1), CellIndex(h2, k2));
    CellIndexInjective(h1, k1, h2, k2);
  }

  /**
   The four rows partition the 28 mansions: every row entry is a mansion of the
   master list, every mansion is some row entry, and no mansion is in two places.
   */
  lemma HeadPartitionsChinList()
    ensures forall h, k :: 0 <= h < 4 && 0 <= k < 7 ==> Head[h][k] in ChinList
    ensures forall c :: c in ChinList ==> exists h, k :: 0 <= h < 4 && 0 <= k < 7 && Head[h][k] == c
    ensures forall h1, k1, h2, k2 :: 0 <= h1 < 4 && 0 <= k1 < 7 && 0 <= h2 < 4 && 0 <= k2 < 7 && Head[h1][k1] == Head[h2][k2]
              ==> h1 == h2 && k1 == k2
  {
    forall h, k | 0 <= h < 4 && 0 <= k < 7 ensures Head[h][k] in ChinList {
      HeadClosedForm(h, k);
    }
    forall c | c in ChinList ensures exists h, k :: 0 <= h < 4 && 0 <= k < 7 && Head[h][k] == c {
      var i :| 0 <= i < 28 && ChinList[i] == c;
      HeadCoversChinList(i);
    }
    forall h1, k1, h2, k2 | 0 <= h1 < 4 && 0 <= k1 < 7 && 0 <= h2 < 4 && 0 <= k2 < 7 && Head[h1][k1] == Head[h2][k2]
      ensures h1 == h2 && k1 == k2
    {
      HeadCellsDistinct(h1, k1, h2, k2);
    }
  }
}
