/** The reading of a cast on the master list `chin_list` (app.py lines 116-128). */
module CastLaws {
  import opened Wrappers
  import opened GanZhi
  import opened Rotation
  import opened DayMansion
  import opened Yanqin
  import opened Casting
  import opened SkyLaws
  import opened ReadingLaws

  /** For every weekday label, `day_chin` gives a mansion of the master list. */
  lemma DayChinInChinList(zhi: char, weekdayStr: string)
    requires weekdayStr in CWeekdays
    ensures DayChin(zhi, weekdayStr).Some?
    ensures DayChin(zhi, weekdayStr).value in ChinList
  {
    if zhi in Zhi {
      var j :| 0 <= j < 12 && Zhi[j] == zhi;
      var k :| 0 <= k < 7 && CWeekdays[k] == weekdayStr;
      DayChinTable(j, k);
      HeadClosedForm(j % 4, k);
    } else {
      DayChinFallback(zhi, weekdayStr);
      FallbackPosition();
    }
  }

  /** A cast fails only when the hour branch is not one of the twelve. */
  lemma CastDefined(weekday: Option<WeekdayIndex>, dayBranch: char, hourBranch: char, minute: int,
                    generals: map<char, string>, plate: map<char, string>)
    ensures Cast(weekday, dayBranch, hourBranch, minute, generals, plate).Some? <==> hourBranch in Zhi
  {
    DayChinInChinList(dayBranch, GetWeekdayName(weekday));
  }

  /** On a real day branch the origin mansion is the one at `OriginIndex`. */
  lemma DayOrigin(j: nat, d: WeekdayIndex)
    requires j < 12
    ensures DayChin(Zhi[j], GetWeekdayName(Some(d))) == Some(ChinList[OriginIndex(j, d)])
  {
    var k := (d + 1) % 7;
    assert GetWeekdayName(Some(d)) == CWeekdays[k];
    DayChinTable(j, k);
    HeadClosedForm(j % 4, k);
  }

  /** A cast on day branch `j` reads from the mansion at `OriginIndex`; an unknown weekday reads as Monday. */
  lemma CastOrigin(weekday: Option<WeekdayIndex>, j: nat, hourBranch: char, minute: int,
                   generals: map<char, string>, plate: map<char, string>)
    requires j < 12
    ensures Cast(weekday, Zhi[j], hourBranch, minute, generals, plate)
         == ReadFrom(ChinList, Some(ChinList[OriginIndex(j, weekday.GetOr(0))]), BranchOrdinal(hourBranch),
                     minute, SkyOffset(generals, plate))
  {
    WeekdayFallbackIsMonday();
    DayOrigin(j, weekday.GetOr(0));
  }

  /** A cast on a day branch outside the twelve reads from the fallback mansion 虛, the eleventh of the list. */
  lemma CastOriginFallback(weekday: Option<WeekdayIndex>, dayBranch: char, hourBranch: char, minute: int,
                           generals: map<char, string>, plate: map<char, string>)
    requires dayBranch !in Zhi
    ensures Cast(weekday, dayBranch, hourBranch, minute, generals, plate)
         == ReadFrom(ChinList, Some(ChinList[10]), BranchOrdinal(hourBranch), minute, SkyOffset(generals, plate))
  {
    DayChinFallback(dayBranch, GetWeekdayName(weekday));
    FallbackPosition();
  }

  /**
   The home and away mansions of a cast whose origin mansion is at position
   `c` of the master list, with hour ordinal `z`: the away mansion is `z` places
   after the origin, and the home mansion one more once the minute is past 30.
   `DayOrigin` and `CastOriginFallback` give `c` for every day branch.
   */
  lemma CastAt(weekday: Option<WeekdayIndex>, dayBranch: char, hourBranch: char, minute: int,
               generals: map<char, string>, plate: map<char, string>, c: nat, z: int)
    requires c < MansionCount && DayChin(dayBranch, GetWeekdayName(weekday)) == Some(ChinList[c])
    requires BranchOrdinal(hourBranch) == Some(z)
    ensures Cast(weekday, dayBranch, hourBranch, minute, generals, plate).Some?
    ensures Cast(weekday, dayBranch, hourBranch, minute, generals, plate).value.away
         == ChinList[(c + z) % MansionCount]
    ensures minute <= 30 ==>
              Cast(weekday, dayBranch, hourBranch, minute, generals, plate).value.home
              == ChinList[(c + z) % MansionCount]
    ensures minute > 30 ==>
              Cast(weekday, dayBranch, hourBranch, minute, generals, plate).value.home
              == ChinList[(c + z + 1) % MansionCount]
  {
    ChinListIndex(c);
    ReadFromAway(ChinList, ChinList[c], c, z, minute, SkyOffset(generals, plate));
    ReadFromHome(ChinList, ChinList[c], c, z, minute, SkyOffset(generals, plate));
  }

  /**
   The sky mansion of a cast whose origin mansion is at position `c`, with sky
   offset `s`: `s` places after the origin. With the Noble on branch `a` over
   plate branch `b` the offset is `a + b + 2` (`SkyPresent`).
   */
  lemma CastSky(weekday: Option<WeekdayIndex>, dayBranch: char, hourBranch: char, minute: int,
                generals: map<char, string>, plate: map<char, string>, c: nat, z: int, s: int)
    requires c < MansionCount && DayChin(dayBranch, GetWeekdayName(weekday)) == Some(ChinList[c])
    requires BranchOrdinal(hourBranch) == Some(z) && SkyOffset(generals, plate) == Some(s)
    ensures Cast(weekday, dayBranch, hourBranch, minute, generals, plate).Some?
    ensures Cast(weekday, dayBranch, hourBranch, minute, generals, plate).value.sky
         == SkyMansion(ChinList[(c + s) % MansionCount])
  {
    ChinListIndex(c);
    ReadFromSkyAt(ChinList, ChinList[c], c, z, minute, s);
  }

  /** A defined cast shows "--" for the sky mansion exactly when no Noble seat and plate branch make one. */
  lemma CastNoSky(weekday: Option<WeekdayIndex>, dayBranch: char, hourBranch: char, minute: int,
                  generals: map<char, string>, plate: map<char, string>)
    requires hourBranch in Zhi
    ensures Cast(weekday, dayBranch, hourBranch, minute, generals, plate).Some?
    ensures Cast(weekday, dayBranch, hourBranch, minute, generals, plate).value.sky == NoSky
        <==> forall a, b :: 0 <= a < 12 && 0 <= b < 12 ==> !NobleOn(generals, plate, a, b)
  {
    CastDefined(weekday, dayBranch, hourBranch, minute, generals, plate);
    SkyAbsent(generals, plate);
  }

  /** The home and away mansions of a cast coincide exactly when the minute is at most 30. */
  lemma CastHomeAwayAgree(weekday: Option<WeekdayIndex>, dayBranch: char, hourBranch: char, minute: int,
                          generals: map<char, string>, plate: map<char, string>)
    requires hourBranch in Zhi
    ensures Cast(weekday, dayBranch, hourBranch, minute, generals, plate).Some?
    ensures var r := Cast(weekday, dayBranch, hourBranch, minute, generals, plate);
            r.Some? && (r.value.home == r.value.away <==> minute <= 30)
  {
    CastDefined(weekday, dayBranch, hourBranch, minute, generals, plate);
    ChinListDistinct();
    HomeAwayAgree(ChinList, DayChin(dayBranch, GetWeekdayName(weekday)), BranchOrdinal(hourBranch), minute,
                  SkyOffset(generals, plate));
  }

  /**
   Past the half hour the home mansion of a cast is the one after its away
   mansion in the order of the master list, 角 following 軫.
   */
  lemma CastHomeFollowsAway(weekday: Option<WeekdayIndex>, dayBranch: char, hourBranch: char, minute: int,
                            generals: map<char, string>, plate: map<char, string>, i: nat)
    requires hourBranch in Zhi && minute > 30 && i < MansionCount
    requires Cast(weekday, dayBranch, hourBranch, minute, generals, plate).Some?
    requires Cast(weekday, dayBranch, hourBranch, minute, generals, plate).value.away == ChinList[i]
    ensures Cast(weekday, dayBranch, hourBranch, minute, generals, plate).value.home
         == ChinList[Succ(i, MansionCount)]
  {
    ChinListDistinct();
    HomeFollowsAway(ChinList, DayChin(dayBranch, GetWeekdayName(weekday)), BranchOrdinal(hourBranch), minute,
                    SkyOffset(generals, plate), i);
  }
}
