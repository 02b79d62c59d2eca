/**
 The home, away and sky mansions read from an origin on any master list of 28
 mansions (app.py lines 119-128).
 */
module ReadingLaws {
  import opened Wrappers
  import opened PyLists
  import opened Rotation
  import opened Yanqin
  import opened Casting

  /** `new_list` from the origin `o` found at position `c` reads position `x` as mansion `c + x` (mod 28). */
  lemma RotatedAt(master: seq<char>, o: char, c: nat, x: nat)
    requires |master| == MansionCount && IndexOf(master, o) == Some(c) && x < MansionCount
    ensures NewList(master, o).Some?
    ensures NewList(master, o).value[x] == master[(c + x) % MansionCount]
  {
    NewListAt(master, o, c, x);
  }

  /**
   The closed form of the away mansion. Reading from the origin `o`, found by
   `list.index` at position `c`, with hour ordinal `z`, the away mansion is `z`
   places after the origin, counted round the list.
   */
  lemma ReadFromAway(master: seq<char>, o: char, c: nat, z: int, minute: int, skyOffset: Option<int>)
    requires |master| == MansionCount && IndexOf(master, o) == Some(c)
    ensures ReadFrom(master, Some(o), Some(z), minute, skyOffset).Some?
    ensures ReadFrom(master, Some(o), Some(z), minute, skyOffset).value.away
         == master[(c + z) % MansionCount]
  {
    RotatedAt(master, o, c, z % MansionCount);
    ModShift(c, z);
  }

  /** Past the half hour the home mansion is `z + 1` places after the origin. */
  lemma ReadFromHomeLate(master: seq<char>, o: char, c: nat, z: int, minute: int, skyOffset: Option<int>)
    requires |master| == MansionCount && IndexOf(master, o) == Some(c) && minute > 30
    ensures ReadFrom(master, Some(o), Some(z), minute, skyOffset).Some?
    ensures ReadFrom(master, Some(o), Some(z), minute, skyOffset).value.home
         == master[(c + z + 1) % MansionCount]
  {
    RotatedAt(master, o, c, (z + 1) % MansionCount);
    ModShift(c, z + 1);
  }

  /** Up to the half hour the home mansion is the away mansion, `z` places after the origin. */
  lemma ReadFromHomeEarly(master: seq<char>, o: char, c: nat, z: int, minute: int, skyOffset: Option<int>)
    requires |master| == MansionCount && IndexOf(master, o) == Some(c) && minute <= 30
    ensures ReadFrom(master, Some(o), Some(z), minute, skyOffset).Some?
    ensures ReadFrom(master, Some(o), Some(z), minute, skyOffset).value.home
         == master[(c + z) % MansionCount]
  {
    RotatedAt(master, o, c, z % MansionCount);
    ModShift(c, z);
  }

  /**
   The closed form of the home mansion: the away mansion up to the half hour,
   and the one after it (`z + 1` places after the origin) once the minute is past 30.
   */
  lemma ReadFromHome(master: seq<char>, o: char, c: nat, z: int, minute: int, skyOffset: Option<int>)
    requires |master| == MansionCount && IndexOf(master, o) == Some(c)
    ensures ReadFrom(master, Some(o), Some(z), minute, skyOffset).Some?
    ensures minute <= 30 ==>
              ReadFrom(master, Some(o), Some(z), minute, skyOffset).value.home
              == master[(c + z) % MansionCount]
    ensures minute > 30 ==>
              ReadFrom(master, Some(o), Some(z), minute, skyOffset).value.home
              == master[(c + z + 1) % MansionCount]
  {
    if minute > 30 {
      ReadFromHomeLate(master, o, c, z, minute, skyOffset);
    } else {
      ReadFromHomeEarly(master, o, c, z, minute, skyOffset);
    }
  }

  /** With sky offset `s` the sky mansion is `s` places after the origin, counted round the list. */
  lemma ReadFromSkyAt(master: seq<char>, o: char, c: nat, z: int, minute: int, s: int)
    requires |master| == MansionCount && IndexOf(master, o) == Some(c)
    ensures ReadFrom(master, Some(o), Some(z), minute, Some(s)).Some?
    ensures ReadFrom(master, Some(o), Some(z), minute, Some(s)).value.sky
         == SkyMansion(master[(c + s) % MansionCount])
  {
    RotatedAt(master, o, c, s % MansionCount);
    ModShift(c, s);
  }

  /** Without a sky offset the sky mansion is "--". */
  lemma ReadFromNoSky(master: seq<char>, o: char, z: int, minute: int)
    requires |master| == MansionCount && o in master
    ensures ReadFrom(master, Some(o), Some(z), minute, None).Some?
    ensures ReadFrom(master, Some(o), Some(z), minute, None).value.sky == NoSky
  {
  }

  /** The home and away mansions coincide exactly when the minute is at most 30. */
  lemma HomeAwayAgree(master: seq<char>, origin: Option<char>, hour: Option<int>, minute: int,
                      skyOffset: Option<int>)
    requires |master| == MansionCount && Distinct(master)
    requires ReadFrom(master, origin, hour, minute, skyOffset).Some?
    ensures var r := ReadFrom(master, origin, hour, minute, skyOffset).value;
            r.home == r.away <==> minute <= 30
  {
    var c := IndexOf(master, origin.value).value;
    var z := hour.value;
    ReadFromAway(master, origin.value, c, z, minute, skyOffset);
    ReadFromHome(master, origin.value, c, z, minute, skyOffset);
    assert (c + z + 1) % MansionCount != (c + z) % MansionCount;
  }

  /**
   Past the half hour the home mansion is the one after the away mansion in
   the master list's cyclic order.
   */
  lemma HomeFollowsAway(master: seq<char>, origin: Option<char>, hour: Option<int>, minute: int,
                        skyOffset: Option<int>, i: nat)
    requires |master| == MansionCount && Distinct(master) && minute > 30 && i < MansionCount
    requires ReadFrom(master, origin, hour, minute, skyOffset).Some?
    requires ReadFrom(master, origin, hour, minute, skyOffset).value.away == master[i]
    ensures ReadFrom(master, origin, hour, minute, skyOffset).value.home == master[Succ(i, MansionCount)]
  {
    var c := IndexOf(master, origin.value).value;
    var z := hour.value;
    ReadFromAway(master, origin.value, c, z, minute, skyOffset);
    ReadFromHome(master, origin.value, c, z, minute, skyOffset);
    assert i == (c + z) % MansionCount;
    ModSucc(c + z);
  }
}
