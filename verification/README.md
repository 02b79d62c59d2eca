# Yanqin (演禽) mansion overlay of the Six Ren caster

The Six Ren (六壬) caster `app.py` takes a cast date and time and the board built
by a divination engine. It annotates the reading with three of the 28 lunar
mansions (二十八宿): a home (主) mansion, an away (客) mansion and a sky (天禽)
mansion. This project models that overlay as pure Dafny functions and proves
what it computes.

The overlay works in four steps:

- The weekday of the solar date becomes a label such as 星期一 (`get_weekday_name`).
- The day pillar's branch picks one of four three-harmony triads (申子辰, 巳酉丑,
  寅午戌, 亥卯未). Each triad owns a row of seven mansions, and the weekday label
  picks one of them as the origin mansion (`day_chin`, `multi_key_dict_get`).
- The master list `chin_list` of the 28 mansions, 角 … 軫, is rotated to start
  at the origin (`new_list`). It is then read at the hour branch's ordinal
  `zdict[hb]` (子 = 1 … 亥 = 12). That gives the away mansion. The home mansion
  is the next one once the minute is past 30, and the away mansion otherwise.
- The board's branch→general map is inverted through a `bidict` to find the seat
  of the Noble (貴). The branch→plate map gives the branch over that seat. The
  rotated list read at the sum of the two ordinals is the sky mansion. Any
  failure on the way shows "--".

Also modelled: the stem and branch tables `GAN`/`ZHI`, the numbered option labels
`GAN_OPTIONS`/`ZHI_OPTIONS` ("甲 (1)", …) and their decoder `get_val`.

Modules, in dependency order:

- `Wrappers`: `Option`.
- `PyLists`: `list.index` and `dict(zip(...))`.
- `KeyGroups`: `multi_key_dict_get`.
- `GanZhi`: the symbol tables, option labels, `get_val` and `zdict`.
- `Rotation`: `new_list`.
- `DayMansion`: `get_weekday_name` and `day_chin`.
- `Yanqin`: `chin_list` and how the `head` rows sit in it.
- `Casting`: the reading itself.
- `SkyLaws`, `ReadingLaws` and `CastLaws`: the properties of the reading.

Building the `bidict` at app.py:124 fails whenever any general repeats, even
one that is not 貴. The sky mansion is then "--" even when exactly one position
carries 貴 (`Casting.NobleSeat`, `SkyLaws.RepeatedGeneralNoSky`).

Python's failures are modelled as `None`. The one-character strings that
`list("...")` produces are modelled as `char`. Free-form strings (weekday labels,
option labels, board values) are `string`.

## Model

| member | source | states |
|---|---|---|
| PyLists.IndexOf | app.py:53 | `olist.index(o)` is None exactly when `o` is absent; otherwise it is a position holding `o`, and no earlier position holds it |
| PyLists.IndexOfDistinct | app.py:53 | in a list without duplicates, `index` of the element at `i` is `i` |
| PyLists.PairsToMap | app.py:60 | the dict built from key/value pairs has exactly the listed keys, and each key whose last occurrence is at `i` maps to the `i`-th value |
| PyLists.ZipMap | app.py:60 | `dict(zip(ks, vs))` over keys no longer than the values has exactly the keys of `ks`, whatever repeats among them |
| PyLists.ZipMapDistinct | app.py:60 | `dict(zip(ks, vs))` with distinct keys has exactly the keys of `ks`, and maps each to the value at its own position |
| KeyGroups.MultiKeyDictGet | app.py:47-50 | the result is None exactly when no key group contains `k`; otherwise it is the value of the first group, in insertion order, that contains `k` |
| KeyGroups.MultiKeyDictGetDisjoint | app.py:47-50 | with pairwise disjoint key groups, the lookup returns the value of the one group holding `k` |
| GanZhi.TablesDistinct | app.py:28-29 | `GAN` lists 10 distinct stems and `ZHI` lists 12 distinct branches, none of them a space |
| GanZhi.Decimal | app.py:32-33 | the number printed in a label is a non-empty string of decimal digits with no leading zero, as `str` prints it |
| GanZhi.DecimalRoundTrip | app.py:32-33 | reading the printed number back gives the number |
| GanZhi.GetVal | app.py:163 | `get_val(s)` is a prefix of `s` without spaces, and it stops only at the end of `s` or at a space |
| GanZhi.GanOptions | app.py:32 | `GAN_OPTIONS` has one label per stem, and label `i` starts with stem `GAN[i]` followed by a space |
| GanZhi.ZhiOptions | app.py:33 | `ZHI_OPTIONS` has one label per branch, and label `j` starts with branch `ZHI[j]` followed by a space |
| GanZhi.GetValOfLabel | app.py:163 | a label made of a non-space symbol, a space and anything else decodes to the symbol |
| GanZhi.GanOptionRoundTrip | app.py:163 | `get_val` of the option label `GAN_OPTIONS[i]` gives back stem `GAN[i]` |
| GanZhi.ZhiOptionRoundTrip | app.py:163 | `get_val` of the option label `ZHI_OPTIONS[j]` gives back branch `ZHI[j]` |
| GanZhi.OptionLabelNumber | app.py:32-33 | the number inside the parentheses of an option label is the symbol's 1-based position |
| GanZhi.Zdict | app.py:118 | `zdict` has exactly the twelve branches as keys |
| GanZhi.BranchOrdinal | app.py:118 | `zdict[b]` is defined exactly for the twelve branches, and gives an ordinal `n` in 1..12 with `ZHI[n-1] == b` |
| GanZhi.ZdictOrdinals | app.py:118 | `dict(zip(ZHI, range(1, 13)))` has the twelve branches as keys and sends branch `j` (0-based) to `j + 1` |
| GanZhi.BranchOrdinalIsZdict | app.py:118 | `BranchOrdinal` agrees with the zipped `zdict` on every character, both on where it is defined and on the value |
| GanZhi.BranchOrdinalAt | app.py:118 | the branch at 0-based position `j` has ordinal `j + 1` |
| GanZhi.BranchOrdinalIsIndex | app.py:118 | a branch's ordinal is its `ZHI.index` position plus one |
| Rotation.NewList | app.py:52-54 | `new_list(olist, o)` fails exactly when `o` is absent, and otherwise has the length of `olist` |
| Rotation.NewListAt | app.py:52-54 | element `i` of the rotation is `olist[(index(o) + i) % len(olist)]` |
| Rotation.NewListHead | app.py:52-54 | the rotation starts with `o` |
| Rotation.NewListPermutes | app.py:52-54 | the rotation is a permutation of `olist` (equal multisets) |
| Rotation.RotateDistinct | app.py:52-54 | rotating a list without duplicates keeps it without duplicates |
| Rotation.NewListKeepsSuccessor | app.py:52-54 | the rotation keeps cyclic order: whatever follows an element in the rotation follows it in `olist` too |
| Rotation.NewListAtHead | app.py:52-54 | rotating to the list's own first element returns the list unchanged |
| Rotation.RotateTwice | app.py:52-54 | a rotation of a rotation is a rotation by the wrapped sum of the two offsets |
| Rotation.NewListTwice | app.py:52-54 | on a list without duplicates, `new_list(new_list(olist, o), p) == new_list(olist, p)` |
| DayMansion.CWeekdaysBuilt | app.py:57 | `cweekdays` is 星期 followed by each of 日一二三四五六, Sunday first |
| DayMansion.CWeekdaysDistinct | app.py:57 | the seven weekday labels are pairwise different |
| DayMansion.GetWeekdayName | app.py:56-61 | the label is always one of `cweekdays`; for `calendar.weekday` value `d` it is the label at position `(d + 1) % 7` |
| DayMansion.WeekdayIsZipLookup | app.py:60 | the label for weekday `d` is what `dict(zip([6, 0, 1, 2, 3, 4, 5], cweekdays)).get(d)` returns, and the dict has an entry for every weekday |
| DayMansion.WeekdayFallbackIsMonday | app.py:56-61 | an invalid date gives 星期一, the same label as Monday (0); Sunday (6) gives 星期日 |
| DayMansion.WeekdayNameInjective | app.py:56-61 | different weekdays get different labels |
| DayMansion.WeekdayNamePosition | app.py:56-61 | the label's position in `cweekdays` recovers the weekday, counted from Sunday |
| DayMansion.ThreeZhiPartition | app.py:64 | the four triads hold three branches each; branch `j` lies in triad `j % 4` and in no other, so they cover the twelve branches |
| DayMansion.ThreeZhiDisjoint | app.py:64 | no branch lies in two triads |
| DayMansion.HeadShape | app.py:65 | `head` has four rows of seven mansions |
| DayMansion.Ydict | app.py:67-70 | `ydict` has the four triads, in order, as its key groups, and each triad's dict is keyed by exactly the seven weekday labels |
| DayMansion.YdictFound | app.py:67-71 | a branch that the lookup of `ydict` finds is one of the twelve, and the dict it finds is keyed by the weekday labels |
| DayMansion.DayChin | app.py:63-72 | `day_chin` gives 虛 for a branch outside the twelve and is `None` only for a real branch with a label outside `cweekdays`; the mansion it gives is stated by `DayChinTable`, `DayChinFallback` and `DayChinUnknownLabel` |
| DayMansion.YdictLookup | app.py:67-71 | `multi_key_dict_get(ydict, ZHI[j])` is the weekday dict of row `j % 4` |
| DayMansion.DayChinTable | app.py:63-72 | for branch `j` and weekday label `k`, `day_chin` is the mansion in column `k` of row `j % 4` of `head` |
| DayMansion.DayChinFallback | app.py:71-72 | a day branch in no triad gives 虛 for every weekday label |
| DayMansion.DayChinUnknownLabel | app.py:72 | a label outside `cweekdays` on a real branch gives `None` |
| Yanqin.ChinListDistinct | app.py:119 | `chin_list` names 28 different mansions |
| Yanqin.ChinListIndexUnique | app.py:119 | a mansion sits at one position of `chin_list` only |
| Yanqin.ChinListIndex | app.py:119-120 | `chin_list.index` finds every mansion at its own position |
| Yanqin.FallbackPosition | app.py:119 | the fallback 虛 is the eleventh mansion of `chin_list` |
| Yanqin.CellIndex | app.py:65 | the position formula of a `head` cell is below 28; `HeadClosedForm` ties each cell to that position |
| Yanqin.HeadClosedForm | app.py:65 | `head[h][k]` is the mansion `10 + 21h + 8k` places (mod 28) along `chin_list` |
| Yanqin.HeadCoversChinList | app.py:65 | mansion `i` of `chin_list` is `head[(i + 2) % 4][(i + 4) % 7]` |
| Yanqin.HeadIndexInverse | app.py:65 | a cell's row and column are recovered from its master-list position |
| Yanqin.CellIndexInjective | app.py:65 | two cells with the same master-list position are the same cell |
| Yanqin.HeadCellsDistinct | app.py:65 | two cells of `head` holding the same mansion are the same cell |
| Yanqin.HeadPartitionsChinList | app.py:65 | the four rows of `head` partition `chin_list`: every entry is a mansion of the list, every mansion is an entry, and none is in two places |
| Casting.NobleSeat | app.py:124 | the Noble's seat exists exactly when the generals are pairwise distinct (the `bidict` builds) and one of them is 貴; the seat then carries 貴 |
| Casting.PlateOrdinal | app.py:127 | a plate value has a `zdict` ordinal exactly when it is the one-character name of a branch; the ordinal then names that branch |
| Casting.PlateOrdinalAt | app.py:127 | the plate value naming branch `b` (0-based) has ordinal `b + 1` |
| Casting.SkyOffset | app.py:123-128 | the sky offset, when there is one, lies in 2..24 |
| Casting.ReadFrom | app.py:120-128 | a reading exists exactly when the origin is a mansion of the master list and the hour branch has an ordinal; it has a sky mansion exactly when there is a sky offset |
| Casting.Cast | app.py:116-128 | a cast exists only for a real hour branch and shows a sky mansion exactly when the sky offset exists; `CastDefined`, `CastAt`, `CastSky` and `CastNoSky` state its converse and its three mansions |
| Casting.OriginIndex | app.py:63-72 | the origin mansion's position for day branch `j` and weekday `d` is a position of `chin_list` |
| SkyLaws.SkyPresent | app.py:123-127 | with the generals distinct, the Noble on branch `a` and the plate over it naming branch `b`, the sky offset is `zdict` of both summed: `a + b + 2` |
| SkyLaws.SkyAbsent | app.py:123-128 | the sky offset is missing exactly when no branch pair `a`, `b` forms that board shape |
| SkyLaws.NoNobleNoSky | app.py:123-128 | a board where no general is 貴 shows "--" |
| SkyLaws.RepeatedGeneralNoSky | app.py:123-128 | a board where two positions carry the same general shows "--", whichever general it is |
| SkyLaws.EmptyPlateNoSky | app.py:125-128 | a plate with nothing over the Noble's seat shows "--" |
| ReadingLaws.RotatedAt | app.py:120 | the rotation from an origin at position `c` reads position `x` as master mansion `(c + x) % 28` |
| ReadingLaws.ReadFromAway | app.py:120-122 | the away mansion is `zdict[hb]` places after the origin, round the list |
| ReadingLaws.ReadFromHomeLate | app.py:121 | past the half hour, the home mansion is `zdict[hb] + 1` places after the origin |
| ReadingLaws.ReadFromHomeEarly | app.py:121 | up to the half hour, the home mansion is `zdict[hb]` places after the origin |
| ReadingLaws.ReadFromHome | app.py:121 | the home mansion is `zdict[hb]` places after the origin up to minute 30, and one further after it |
| ReadingLaws.ReadFromSkyAt | app.py:127 | the sky mansion is the sky offset's number of places after the origin |
| ReadingLaws.ReadFromNoSky | app.py:128 | without a sky offset the sky mansion is "--" while home and away still exist |
| ReadingLaws.HomeAwayAgree | app.py:121-122 | on a list without duplicates, home equals away exactly when the minute is at most 30 |
| ReadingLaws.HomeFollowsAway | app.py:121-122 | past the half hour, home is the mansion after away in the master list's cyclic order |
| CastLaws.DayChinInChinList | app.py:117-120 | for every weekday label and every day branch, `day_chin` gives a mansion of `chin_list`, so `new_list` never fails on it |
| CastLaws.CastDefined | app.py:116-122 | a cast fails only when the hour branch is not one of the twelve |
| CastLaws.DayOrigin | app.py:116-117 | on a real day branch `j` and weekday `d`, the origin is the mansion at `OriginIndex(j, d)` |
| CastLaws.CastOrigin | app.py:116-120 | a cast on day branch `j` reads from the mansion at `OriginIndex`; an invalid date reads as Monday |
| CastLaws.CastOriginFallback | app.py:117-120 | a cast on a day branch outside the twelve reads from 虛 |
| CastLaws.CastAt | app.py:117-122 | for origin position `c` and hour ordinal `z`: away is `chin_list[(c + z) % 28]`, and home is the same up to minute 30 and `chin_list[(c + z + 1) % 28]` after |
| CastLaws.CastSky | app.py:123-127 | for origin position `c` and sky offset `s`, the sky mansion is `chin_list[(c + s) % 28]` |
| CastLaws.CastNoSky | app.py:123-128 | a defined cast shows "--" exactly when the board has no distinct generals with the Noble over a plate branch |
| CastLaws.CastHomeAwayAgree | app.py:121-122 | a cast's home and away mansions coincide exactly when the minute is at most 30 |
| CastLaws.CastHomeFollowsAway | app.py:121-122 | past the half hour, a cast's home mansion follows its away mansion in `chin_list`, with 角 after 軫 |

## Left out

- The Streamlit page, forms, tabs, progress bar and the `st_capture` stdout redirection (app.py:35-44, 75-95): user interface and I/O only.
- The calendar conversion by `lunar_python` and the `pendulum` clock (app.py:76, 99-109): a foreign library. The day and hour branches, the solar date's weekday and the minute become inputs of `Casting.Cast`.
- `calendar.weekday`: the standard library's calendar is not re-derived. Its result is the input `Option<WeekdayIndex>`, with None where it raises.
- The board construction `liuren_core.Liuren(...).result_d(0)` (app.py:113): an external engine. Its branch→general (地轉天將) and branch→plate (地轉天盤) maps are input `map<char, string>` values. The case where `l_res.get` returns no map at all is not modelled; the `try` at app.py:123-128 would show "--" there as well.
- The reverse four-pillar search (app.py:181-202): every decision in it is a call into `lunar_python`.
- The text layout of the printed board (app.py:131-154): string formatting only.
- Casting.ReadFrom: requires a master list of exactly 28 mansions. app.py:120 only ever passes `chin_list`, and its `% 28` reads past or short of any other length.
- Board keys are modelled as single characters. A key of the general map that is not one character cannot be a branch, so `zdict[gui_loc]` fails on it as `BranchOrdinal` does.
- The index errors that `gz_d[1]` and `gz_t[1]` raise on a pillar label shorter than two characters are not modelled, because the branch characters are inputs.
