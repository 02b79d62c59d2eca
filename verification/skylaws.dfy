/** What the sky-mansion part of a reading (app.py lines 123-128) promises. */
module SkyLaws {
  import opened Wrappers
  import opened GanZhi
  import opened Casting

  /** The sky offset once the Noble's seat and both ordinals are known. */
  lemma SkyOffsetFrom(generals: map<char, string>, plate: map<char, string>, seat: char, x: int, y: int)
    requires NobleSeat(generals) == Some(seat) && BranchOrdinal(seat) == Some(x)
    requires seat in plate && PlateOrdinal(plate[seat]) == Some(y)
    ensures SkyOffset(generals, plate) == Some(x + y)
  {
  }

  /** With the Noble on branch `a` over plate branch `b`, the sky offset is the sum of their ordinals. */
  lemma SkyPresent(generals: map<char, string>, plate: map<char, string>, a: nat, b: nat)
    requires a < 12 && b < 12
    requires NobleOn(generals, plate, a, b)
    ensures SkyOffset(generals, plate) == Some(a + b + 2)
  {
    var seat := Zhi[a];
    assert NobleSeat(generals) == Some(seat);
    BranchOrdinalAt(a);
    PlateOrdinalAt(b);
    assert plate[seat] == [Zhi[b]];
    SkyOffsetFrom(generals, plate, seat, a + 1, b + 1);
  }

  /** "--" is shown exactly when the board has no Noble seat and plate branch that make a sky mansion. */
  lemma SkyAbsent(generals: map<char, string>, plate: map<char, string>)
    ensures SkyOffset(generals, plate) == None
        <==> forall a, b :: 0 <= a < 12 && 0 <= b < 12 ==> !NobleOn(generals, plate, a, b)
  {
    if SkyOffset(generals, plate).Some? {
      var seat := NobleSeat(generals).value;
      var a := BranchOrdinal(seat).value - 1;
      var b := PlateOrdinal(plate[seat]).value - 1;
      assert plate[seat] == [Zhi[b]];
      assert NobleOn(generals, plate, a, b);
    } else {
      forall a, b | 0 <= a < 12 && 0 <= b < 12 ensures !NobleOn(generals, plate, a, b) {
        if NobleOn(generals, plate, a, b) {
          SkyPresent(generals, plate, a, b);
        }
      }
    }
  }

  /** A board where no general is the Noble shows "--". */
  lemma NoNobleNoSky(generals: map<char, string>, plate: map<char, string>)
    requires Noble !in generals.Values
    ensures SkyOffset(generals, plate) == None
  {
  }

  /**
   A board where two positions carry the same general shows "--", even when
   that general is not the Noble: the `bidict` itself cannot be built.
   */
  lemma RepeatedGeneralNoSky(generals: map<char, string>, plate: map<char, string>, p: char, q: char)
    requires p in generals && q in generals && p != q && generals[p] == generals[q]
    ensures SkyOffset(generals, plate) == None
  {
  }

  /** A plate with nothing over the Noble's seat (`tp.get` giving None) shows "--". */
  lemma EmptyPlateNoSky(generals: map<char, string>, plate: map<char, string>)
    requires NobleSeat(generals).Some? && NobleSeat(generals).value !in plate
    ensures SkyOffset(generals, plate) == None
  {
  }
}
