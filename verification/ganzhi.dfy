/**
 The stem and branch symbol tables of app.py, the numbered option labels the
 search form offers for them, the decoder that turns a chosen label back into
 its symbol, and the branch ordinal map `zdict` used by the mansion arithmetic.
 */
module GanZhi {
  import opened Wrappers
  import opened PyLists

  /** The ten heavenly stems, in cycle order. */
  const Gan: seq<char> := "甲乙丙丁戊己庚辛壬癸"

  /** The twelve earthly branches, in cycle order (子 is ordinal 1). */
  const Zhi: seq<char> := "子丑寅卯辰巳午未申酉戌亥"

  lemma TablesDistinct()
    ensures |Gan| == 10 && Distinct(Gan)
    ensures |Zhi| == 12 && Distinct(Zhi)
    ensures ' ' !in Gan && ' ' !in Zhi
  {
  }

  /** Decimal numeral of a natural number, as Python's `str` writes it: no leading zero. */
  function Decimal(n: nat): (r: string)
    ensures |r| > 0
    ensures forall k :: 0 <= k < |r| ==> '0' <= r[k] <= '9'
    ensures r[0] == '0' ==> n == 0
  {
    if n < 10 then [('0' as int + n) as char]
    else Decimal(n / 10) + [('0' as int + n % 10) as char]
  }

  /** Reads the decimal numeral back; the partner of `Decimal`. */
  function DecimalValue(s: string): int
  {
    if |s| == 0 then 0
    else DecimalValue(s[..|s| - 1]) * 10 + (s[|s| - 1] as int - '0' as int)
  }

  lemma {:induction false} DecimalRoundTrip(n: nat)
    ensures DecimalValue(Decimal(n)) == n
  {
    if n >= 10 {
      var d := Decimal(n / 10) + [('0' as int + n % 10) as char];
      assert d[..|d| - 1] == Decimal(n / 10);
      DecimalRoundTrip(n / 10);
    }
  }

  /** The label `f"{g} ({i+1})"` offered for the symbol at 0-based position `i`. */
  function OptionLabel(c: char, i: nat): string {
    [c] + " (" + Decimal(i + 1) + ")"
  }

  /** `GAN_OPTIONS`: one numbered label per stem, each starting with its stem and a space. */
  function GanOptions(): (r: seq<string>)
    ensures |r| == |Gan|
    ensures forall i {:trigger r[i]} :: 0 <= i < |r| ==> |r[i]| > 2 && r[i][0] == Gan[i] && r[i][1] == ' '
  {
    seq(|Gan|, i requires 0 <= i < |Gan| => OptionLabel(Gan[i], i))
  }

  /** `ZHI_OPTIONS`: one numbered label per branch, each starting with its branch and a space. */
  function ZhiOptions(): (r: seq<string>)
    ensures |r| == |Zhi|
    ensures forall j {:trigger r[j]} :: 0 <= j < |r| ==> |r[j]| > 2 && r[j][0] == Zhi[j] && r[j][1] == ' '
  {
    seq(|Zhi|, i requires 0 <= i < |Zhi| => OptionLabel(Zhi[i], i))
  }

  /**
   `get_val(s)`, that is `s.split(" ")[0]`: the part of `s` before its first
   space, or all of `s` when it has none.
   */
  function GetVal(s: string): (r: string)
    ensures r <= s
    ensures ' ' !in r
    ensures |r| < |s| ==> s[|r|] == ' '
  {
    if |s| == 0 || s[0] == ' ' then ""
    else [s[0]] + GetVal(s[1..])
  }

  /** A label whose first character is not a space and whose second is decodes to that first character. */
  lemma GetValOfLabel(c: char, rest: string)
    requires c != ' '
    ensures GetVal([c] + " " + rest) == [c]
  {
  }

  /** Decoding a stem option label recovers the stem it was built from. */
  lemma GanOptionRoundTrip(i: nat)
    requires i < |Gan|
    ensures GetVal(GanOptions()[i]) == [Gan[i]]
  {
    TablesDistinct();
    assert GanOptions()[i] == [Gan[i]] + " " + ("(" + Decimal(i + 1) + ")");
    GetValOfLabel(Gan[i], "(" + Decimal(i + 1) + ")");
  }

  /** Decoding a branch option label recovers the branch it was built from. */
  lemma ZhiOptionRoundTrip(j: nat)
    requires j < |Zhi|
    ensures GetVal(ZhiOptions()[j]) == [Zhi[j]]
  {
    TablesDistinct();
    assert ZhiOptions()[j] == [Zhi[j]] + " " + ("(" + Decimal(j + 1) + ")");
    GetValOfLabel(Zhi[j], "(" + Decimal(j + 1) + ")");
  }

  /** The number printed in an option label is the symbol's 1-based position. */
  lemma OptionLabelNumber(c: char, i: nat)
    ensures OptionLabel(c, i)[3..|OptionLabel(c, i)| - 1] == Decimal(i + 1)
    ensures DecimalValue(OptionLabel(c, i)[3..|OptionLabel(c, i)| - 1]) == i + 1
  {
    DecimalRoundTrip(i + 1);
  }

  /** `zdict = dict(zip(ZHI, range(1, 13)))`. */
  function Zdict(): (m: map<char, int>)
    ensures forall b {:trigger b in m} :: b in m <==> b in Zhi
  {
    ZipMap(Zhi, seq(12, k => k + 1))
  }

  /** `zdict[b]`; None where Python raises KeyError. */
  function BranchOrdinal(b: char): (r: Option<int>)
    ensures r.Some? <==> b in Zhi
    ensures r.Some? ==> 1 <= r.value <= 12 && Zhi[r.value - 1] == b
  {
    match b
    case '子' => Some(1)
    case '丑' => Some(2)
    case '寅' => Some(3)
    case '卯' => Some(4)
    case '辰' => Some(5)
    case '巳' => Some(6)
    case '午' => Some(7)
    case '未' => Some(8)
    case '申' => Some(9)
    case '酉' => Some(10)
    case '戌' => Some(11)
    case '亥' => Some(12)
    case _ => None
  }

  /** `zdict` sends the branch at 0-based position `j` to `j + 1`, and holds nothing else. */
  lemma ZdictOrdinals()
    ensures forall b :: b in Zdict() <==> b in Zhi
    ensures forall j :: 0 <= j < |Zhi| ==> Zdict()[Zhi[j]] == j + 1
  {
    TablesDistinct();
    ZipMapDistinct(Zhi, seq(12, k => k + 1));
  }

  /** The branch at 0-based position `j` has ordinal `j + 1`. */
  lemma BranchOrdinalAt(j: nat)
    requires j < 12
    ensures BranchOrdinal(Zhi[j]) == Some(j + 1)
  {
    var r := BranchOrdinal(Zhi[j]).value;
    assert Zhi[r - 1] == Zhi[j];
    TablesDistinct();
  }

  /** `BranchOrdinal` is the lookup in `zdict`: defined on the same keys, with the same values. */
  lemma BranchOrdinalIsZdict(b: char)
    ensures BranchOrdinal(b).Some? <==> b in Zdict()
    ensures b in Zdict() ==> BranchOrdinal(b) == Some(Zdict()[b])
  {
    ZdictOrdinals();
    if b in Zhi {
      var j :| 0 <= j < 12 && Zhi[j] == b;
      BranchOrdinalAt(j);
    }
  }

  /** The ordinal of a branch is one more than its `list.index` position. */
  lemma BranchOrdinalIsIndex(b: char)
    requires b in Zhi
    ensures BranchOrdinal(b) == Some(IndexOf(Zhi, b).value + 1)
  {
    var i := IndexOf(Zhi, b).value;
    BranchOrdinalAt(i);
  }
}
