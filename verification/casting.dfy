/**
 The 28-mansion ("yanqin") reading of one cast, app.py lines 116-128. The
 weekday and the day's branch pick an origin mansion. The master list, rotated
 to start at that origin, is read at the hour branch's ordinal to give the away
 (guest) mansion. The next mansion is the home (host) mansion once the minute
 is past 30. The Noble's seat on the board and the plate branch above it give
 the sky mansion.
 */
module Casting {
  import opened Wrappers
  import opened GanZhi
  import opened Rotation
  import opened DayMansion
  import opened Yanqin

  /** The heavenly general whose seat fixes the sky mansion. */
  const Noble: string := "貴"

  /** The sky mansion, or `NoSky` for the "--" shown when it cannot be worked out. */
  datatype Sky = SkyMansion(mansion: char) | NoSky

  /** The three mansions of a reading: home (主), away (客) and sky (天禽). */
  datatype Reading = Reading(home: char, away: char, sky: Sky)

  /** No two board positions carry the same value, which a `bidict` demands. */
  predicate Injective(m: map<char, string>) {
    forall a, b :: a in m && b in m && m[a] == m[b] ==> a == b
  }

  /**
   `bidict(generals).inverse["貴"]`: the position of the Noble. Building the
   `bidict` fails when any value repeats, and the inverse lookup fails when no
   position carries the Noble; both failures are `None`.
   */
  function NobleSeat(generals: map<char, string>): (r: Option<char>)
    ensures r.Some? <==> Injective(generals) && Noble in generals.Values
    ensures r.Some? ==> r.value in generals && generals[r.value] == Noble
  {
    if Injective(generals) && Noble in generals.Values then
      var g :| g in generals && generals[g] == Noble;
      Some(g)
    else
      None
  }

  /** Looks up a plate value in `zdict`; only the one-character names of the branches are keys. */
  function PlateOrdinal(s: string): (r: Option<int>)
    ensures r.Some? <==> |s| == 1 && s[0] in Zhi
    ensures r.Some? ==> 1 <= r.value <= 12 && Zhi[r.value - 1] == s[0]
  {
    if |s| == 1 then BranchOrdinal(s[0]) else None
  }

  /** An index already below 28 is its own remainder. */
  lemma ModSmall(x: int)
    requires 0 <= x < MansionCount
    ensures x % MansionCount == x
  {
  }

  /** Reducing an offset before adding it to a position does not change the remainder. */
  lemma ModShift(c: int, z: int)
    ensures (c + z % MansionCount) % MansionCount == (c + z) % MansionCount
  {
  }

  /** The remainder of the next offset is the cyclic successor of the offset's remainder. */
  lemma ModSucc(z: int)
    ensures (z + 1) % MansionCount == Succ(z % MansionCount, MansionCount)
  {
  }

  /** The plate value naming the branch at 0-based position `b` has ordinal `b + 1`. */
  lemma PlateOrdinalAt(b: nat)
    requires b < 12
    ensures PlateOrdinal([Zhi[b]]) == Some(b + 1)
  {
    BranchOrdinalAt(b);
  }

  /**
   The offset of the sky mansion in the rotated list, `zdict[gui_loc] +
   zdict[sky_gui]`, or None where the `try` block at app.py:123-128 fails: the
   Noble has no seat, the seat is not a branch, the plate has nothing at the
   seat, or the plate's value there is not a branch.
   */
  function SkyOffset(generals: map<char, string>, plate: map<char, string>): (r: Option<int>)
    ensures r.Some? ==> 2 <= r.value <= 24
  {
    match NobleSeat(generals)
    case None => None
    case Some(seat) =>
      match BranchOrdinal(seat)
      case None => None
      case Some(a) =>
        if seat in plate then
          match PlateOrdinal(plate[seat])
          case None => None
          case Some(b) => Some(a + b)
        else
          None
  }

  /**
   The board shape under which a sky mansion exists. The generals are pairwise
   distinct. The Noble sits on branch `a` (0-based). The plate over that branch
   shows branch `b`.
   */
  predicate NobleOn(generals: map<char, string>, plate: map<char, string>, a: nat, b: nat)
    requires a < 12 && b < 12
  {
    Injective(generals) && Zhi[a] in generals && generals[Zhi[a]] == Noble
    && Zhi[a] in plate && plate[Zhi[a]] == [Zhi[b]]
  }

  /**
   The reading from the day's origin mansion (`d_宿`) on a master list of 28
   mansions. `new_list` rotates the list to start at the origin. `hour` is
   `zdict` of the hour branch; it picks the away mansion, and the home mansion
   one further once the minute is past 30. `skyOffset` picks the sky mansion,
   "--" when it is None. The result is None where app.py:120-122 raise, outside
   that `try`: `new_list` cannot find a missing origin (`None`, or a
   character off the list), or `zdict` has no entry for the hour branch.
   Python's `%` by 28 and Dafny's agree, both giving a remainder in 0..27.
   */
  function ReadFrom(master: seq<char>, origin: Option<char>, hour: Option<int>, minute: int,
                    skyOffset: Option<int>): (r: Option<Reading>)
    requires |master| == MansionCount
    ensures r.Some? <==> origin.Some? && origin.value in master && hour.Some?
    ensures r.Some? ==> (r.value.sky.SkyMansion? <==> skyOffset.Some?)
  {
    if origin.None? then None
    else
      match NewList(master, origin.value)
      case None => None
      case Some(rotated) =>
        match hour
        case None => None
        case Some(z) =>
          var late := if minute > 30 then 1 else 0;
          var sky := if skyOffset.Some? then SkyMansion(rotated[skyOffset.value % MansionCount]) else NoSky;
          Some(Reading(rotated[(z + late) % MansionCount], rotated[z % MansionCount], sky))
  }

  /**
   The whole reading for one cast, or `None` where the `try` around the
   whole cast at app.py:97-155 catches an error.
   `weekday` is `calendar.weekday` of the solar date, or `None` when it raised.
   `dayBranch` and `hourBranch` are the branch characters of the day and hour
   pillars. `generals` and `plate` are the board's general and plate maps.
   */
  function Cast(weekday: Option<WeekdayIndex>, dayBranch: char, hourBranch: char, minute: int,
                generals: map<char, string>, plate: map<char, string>): (r: Option<Reading>)
    ensures r.Some? ==> hourBranch in Zhi
    ensures r.Some? ==> (r.value.sky.SkyMansion? <==> SkyOffset(generals, plate).Some?)
  {
    ReadFrom(ChinList, DayChin(dayBranch, GetWeekdayName(weekday)), BranchOrdinal(hourBranch), minute,
             SkyOffset(generals, plate))
  }

  /**
   The position in the master list of the origin mansion for day branch `j`
   (0-based) on `calendar.weekday` value `d`. It is row `j % 4` of the triad
   table, read at the weekday label's column.
   */
  function OriginIndex(j: nat, d: WeekdayIndex): (i: nat)
    requires j < 12
    ensures i < MansionCount
  {
    CellIndex(j % 4, (d + 1) % 7)
  }
}
