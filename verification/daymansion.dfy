/**
 The weekday label and the day's origin mansion (`get_weekday_name` and
 `day_chin` in app.py). A day branch picks one of four three-harmony triads,
 each triad owns a row of seven mansions, and the weekday picks one of them.
 */
module DayMansion {
  import opened Wrappers
  import opened PyLists
  import opened GanZhi
  import opened KeyGroups

  // ---------------------------------------------------------------------------
  // get_weekday_name
  // ---------------------------------------------------------------------------

  /** What `calendar.weekday` returns for a valid date: Monday is 0, Sunday is 6. */
  type WeekdayIndex = d: int | 0 <= d < 7

  /** The characters naming the days, Sunday first. */
  const WeekChars: seq<char> := "日一二三四五六"

  /** `cweekdays`: the labels 星期日, 星期一, …, 星期六, Sunday first. */
  const CWeekdays: seq<string> := ["星期日", "星期一", "星期二", "星期三", "星期四", "星期五", "星期六"]

  /** `cweekdays` is "星期" followed by each day character in turn. */
  lemma CWeekdaysBuilt()
    ensures |CWeekdays| == |WeekChars| == 7
    ensures forall i :: 0 <= i < 7 ==> CWeekdays[i] == "星期" + [WeekChars[i]]
  {
  }

  /** The seven labels are pairwise different. */
  lemma CWeekdaysDistinct()
    ensures Distinct(CWeekdays)
  {
    forall i, j | 0 <= i < j < 7 ensures CWeekdays[i] != CWeekdays[j] {
      assert CWeekdays[i][2] == WeekChars[i];
      assert CWeekdays[j][2] == WeekChars[j];
    }
  }

  /** The `calendar.weekday` numbers listed against `cweekdays`: Sunday's 6 first, then Monday's 0 onwards. */
  const WeekdayNumbers: seq<int> := [6, 0, 1, 2, 3, 4, 5]

  /**
   `get_weekday_name(y, m, d)`. The date enters only through `calendar.weekday`,
   given here as its result: Some(index), or None where it raises on an invalid
   date, in which case the label is 星期一. app.py:60 looks the index up in
   `dict(zip(WeekdayNumbers, cweekdays))`; with distinct keys that is the label
   at the index's position in `WeekdayNumbers` (`WeekdayIsZipLookup`).
   */
  function GetWeekdayName(weekday: Option<WeekdayIndex>): (r: string)
    ensures r in CWeekdays
    ensures weekday.Some? ==> r == CWeekdays[(weekday.value + 1) % 7]
  {
    match weekday
    case None => "星期一"
    case Some(d) =>
      assert Distinct(WeekdayNumbers);
      assert WeekdayNumbers[(d + 1) % 7] == d;
      IndexOfDistinct(WeekdayNumbers, (d + 1) % 7);
      match IndexOf(WeekdayNumbers, d)
      case Some(p) => CWeekdays[p]
      case None => assert false; "星期一"
  }

  /** The invalid-date fallback and Monday share a label. */
  lemma WeekdayFallbackIsMonday()
    ensures GetWeekdayName(None) == GetWeekdayName(Some(0)) == "星期一"
    ensures GetWeekdayName(Some(6)) == "星期日"
  {
  }

  /** The label is the lookup of the weekday in `dict(zip([6, 0, 1, 2, 3, 4, 5], cweekdays))`. */
  lemma WeekdayIsZipLookup(d: WeekdayIndex)
    ensures d in ZipMap(WeekdayNumbers, CWeekdays)
    ensures ZipMap(WeekdayNumbers, CWeekdays)[d] == GetWeekdayName(Some(d))
  {
    var k := (d + 1) % 7;
    assert WeekdayNumbers[k] == d;
    assert Distinct(WeekdayNumbers);
    ZipMapDistinct(WeekdayNumbers, CWeekdays);
    assert ZipMap(WeekdayNumbers, CWeekdays)[WeekdayNumbers[k]] == CWeekdays[k];
  }

  /** Different weekdays get different labels. */
  lemma WeekdayNameInjective(d1: WeekdayIndex, d2: WeekdayIndex)
    requires d1 != d2
    ensures GetWeekdayName(Some(d1)) != GetWeekdayName(Some(d2))
  {
    CWeekdaysDistinct();
    assert (d1 + 1) % 7 != (d2 + 1) % 7;
  }

  /** Reading a label's position in `cweekdays` recovers the weekday, shifted to count from Sunday. */
  lemma WeekdayNamePosition(d: WeekdayIndex)
    ensures IndexOf(CWeekdays, GetWeekdayName(Some(d))) == Some((d + 1) % 7)
  {
    CWeekdaysDistinct();
    IndexOfDistinct(CWeekdays, (d + 1) % 7);
  }

  // ---------------------------------------------------------------------------
  // day_chin
  // ---------------------------------------------------------------------------

  /** `three_zhi`: the four three-harmony triads of branches. */
  const ThreeZhi: seq<seq<char>> := ["申子辰", "巳酉丑", "寅午戌", "亥卯未"]

  /** `head`: for each triad, its seven mansions, listed against `cweekdays`. */
  const Head: seq<seq<char>> := ["虛畢翼箕奎鬼氐", "房危觜軫斗婁柳", "星心室參角牛胃", "昴張尾壁井亢女"]

  /** The mansion `day_chin` falls back to when the branch is in no triad. */
  const FallbackMansion: char := '虛'

  /** `ydict`: each triad's branches, as the key tuple, mapped to its weekday-to-mansion dict. */
  function Ydict(): (d: seq<(seq<char>, map<string, char>)>)
    ensures |d| == 4
    ensures forall i {:trigger d[i]} :: 0 <= i < 4 ==> d[i].0 == ThreeZhi[i]
    ensures forall i, w {:trigger w in d[i].1} :: 0 <= i < 4 ==> (w in d[i].1 <==> w in CWeekdays)
  {
    seq(4, i requires 0 <= i < 4 => (ThreeZhi[i], ZipMap(CWeekdays, Head[i])))
  }

  /**
   `day_chin(zhi, weekday_str)`: the mansion for the weekday in the row of the
   triad holding `zhi`; the fallback mansion when no triad holds it; None (Python's
   `None`) when the triad's dict has no entry for the label.
   */
  function DayChin(zhi: char, weekdayStr: string): (r: Option<char>)
    ensures zhi !in Zhi ==> r == Some(FallbackMansion)
    ensures r.None? ==> zhi in Zhi && weekdayStr !in CWeekdays
  {
    match MultiKeyDictGet(Ydict(), zhi)
    case Some(res) =>
      YdictFound(zhi, res);
      if res != map[] then (if weekdayStr in res then Some(res[weekdayStr]) else None)
      else Some(FallbackMansion)
    case None => Some(FallbackMansion)
  }

  /** A branch the lookup of `ydict` finds is one of the twelve, and its dict is keyed by the weekday labels. */
  lemma YdictFound(zhi: char, res: map<string, char>)
    requires MultiKeyDictGet(Ydict(), zhi) == Some(res)
    ensures zhi in Zhi
    ensures forall w :: w in res <==> w in CWeekdays
  {
    var d := Ydict();
    var i :| 0 <= i < |d| && FirstGroup(d, zhi, i) && res == d[i].1;
    ThreeZhiPartition();
  }

  /** The triads partition the twelve branches: branch `j` (0-based) lies in triad `j % 4` and in no other. */
  lemma ThreeZhiPartition()
    ensures |ThreeZhi| == 4
    ensures forall t, j :: 0 <= t < 4 && 0 <= j < 12 ==> (Zhi[j] in ThreeZhi[t] <==> j % 4 == t)
    ensures forall t, c :: 0 <= t < 4 && c in ThreeZhi[t] ==> c in Zhi
    ensures forall t :: 0 <= t < 4 ==> |ThreeZhi[t]| == 3
  {
  }

  /** No branch lies in two triads. */
  lemma ThreeZhiDisjoint()
    ensures forall a, b :: 0 <= a < b < 4 ==> forall x :: x in ThreeZhi[a] ==> x !in ThreeZhi[b]
  {
  }

  /** Each triad's row holds seven mansions, one per weekday label. */
  lemma HeadShape()
    ensures |Head| == 4
    ensures forall t :: 0 <= t < 4 ==> |Head[t]| == 7
  {
  }

  /** The lookup of `ydict` finds triad `j % 4` for branch `j`. */
  lemma YdictLookup(j: nat)
    requires j < 12
    ensures MultiKeyDictGet(Ydict(), Zhi[j]) == Some(ZipMap(CWeekdays, Head[j % 4]))
  {
    ThreeZhiPartition();
    ThreeZhiDisjoint();
    var d := Ydict();
    assert forall t :: 0 <= t < 4 ==> d[t].0 == ThreeZhi[t];
    MultiKeyDictGetDisjoint(d, Zhi[j], j % 4);
  }

  /**
   For branch `j` and the label at position `k` of `cweekdays`, `day_chin`
   returns the mansion in column `k` of the row of triad `j % 4`.
   */
  lemma DayChinTable(j: nat, k: nat)
    requires j < 12 && k < 7
    ensures DayChin(Zhi[j], CWeekdays[k]) == Some(Head[j % 4][k])
  {
    YdictLookup(j);
    HeadShape();
    CWeekdaysDistinct();
    ZipMapDistinct(CWeekdays, Head[j % 4]);
    assert CWeekdays[k] in ZipMap(CWeekdays, Head[j % 4]);
  }

  /** A branch outside the twelve falls back to 虛, whatever the weekday label. */
  lemma DayChinFallback(zhi: char, weekdayStr: string)
    requires zhi !in Zhi
    ensures DayChin(zhi, weekdayStr) == Some(FallbackMansion)
  {
    ThreeZhiPartition();
    var d := Ydict();
    assert forall t :: 0 <= t < 4 ==> d[t].0 == ThreeZhi[t];
  }

  /** A label that is not one of `cweekdays` finds no mansion for a real branch. */
  lemma DayChinUnknownLabel(j: nat, weekdayStr: string)
    requires j < 12 && weekdayStr !in CWeekdays
    ensures DayChin(Zhi[j], weekdayStr) == None
  {
    YdictLookup(j);
    HeadShape();
    CWeekdaysDistinct();
    ZipMapDistinct(CWeekdays, Head[j % 4]);
    assert CWeekdays[0] in ZipMap(CWeekdays, Head[j % 4]);
  }
}
