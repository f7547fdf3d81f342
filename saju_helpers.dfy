/** The frontend's chart helpers (`sajuHelpers.ts`): the element of a stem or branch,
    the colour of an element, the gender label, the date-time display string and the
    current age. The browser's `Date` is an input: a date is given by the local civil
    fields its getters return. */
module SajuHelpers {
  import opened Common
  import opened Calendar
  import SajuCalculator

  // ---------------------------------------------------------------------------------
  // Elements of stems and branches

  const StemElementMap: map<string, Element> := map[
    "甲" := Wood, "乙" := Wood, "丙" := Fire, "丁" := Fire, "戊" := Earth,
    "己" := Earth, "庚" := Metal, "辛" := Metal, "壬" := Water, "癸" := Water]

  const BranchElementMap: map<string, Element> := map[
    "寅" := Wood, "卯" := Wood, "巳" := Fire, "午" := Fire,
    "辰" := Earth, "戌" := Earth, "丑" := Earth, "未" := Earth,
    "申" := Metal, "酉" := Metal, "亥" := Water, "子" := Water]

  /** `getStemElement`: an unknown stem falls back to earth. */
  function GetStemElement(stem: string): (e: Element)
    ensures stem !in Stems ==> e == Earth
    ensures e == Earth <==> stem !in Stems || stem == "戊" || stem == "己"
  {
    if stem in StemElementMap then StemElementMap[stem] else Earth
  }

  /** `getBranchElement`: an unknown branch falls back to earth. */
  function GetBranchElement(branch: string): Element {
    if branch in BranchElementMap then BranchElementMap[branch] else Earth
  }

  /** The five elements in generating order. */
  const ElementOrder: seq<Element> := [Wood, Fire, Earth, Metal, Water]

  /** The stems go in pairs, yang then yin, through the five elements in generating
      order; anything else is earth. */
  lemma StemElementsPaired(stem: string)
    ensures forall i :: 0 <= i < 10 ==> GetStemElement(Stems[i]) == ElementOrder[i / 2]
    ensures stem !in Stems ==> GetStemElement(stem) == Earth
  {
  }

  /** The element of a branch by its place in the cycle: the four "storehouse" branches
      丑辰未戌 (every third from 丑) are earth, and the other eight follow the seasons in
      pairs from 寅: wood, fire, metal, water. */
  function SeasonalElement(i: BranchIdx): Element {
    if i % 3 == 1 then Earth else [Wood, Fire, Metal, Water][((i + 10) % 12) / 3]
  }

  /** The branch map covers all twelve branches and agrees with the seasonal rule;
      anything else is earth. */
  lemma BranchElementsSeasonal(branch: string)
    ensures forall i: BranchIdx :: GetBranchElement(Branches[i]) == SeasonalElement(i)
    ensures branch !in Branches ==> GetBranchElement(branch) == Earth
  {
  }

  /** `getElementColor`: grey for a missing element, a gradient for each element. */
  function GetElementColor(element: Option<Element>): (r: string)
    ensures element.None? <==> r == "#9E9E9E"
  {
    match element
    case None => "#9E9E9E"
    case Some(Wood) => "linear-gradient(135deg, #4CAF50, #66bb6a)"
    case Some(Fire) => "linear-gradient(135deg, #F44336, #ef5350)"
    case Some(Earth) => "linear-gradient(135deg, #FFB300, #ffa726)"
    case Some(Metal) => "linear-gradient(135deg, #9E9E9E, #BDBDBD)"
    case Some(Water) => "linear-gradient(135deg, #424242, #616161)"
  }

  /** Different elements are drawn in different colours. */
  lemma ElementColorsDistinct(a: Option<Element>, b: Option<Element>)
    ensures a != b ==> GetElementColor(a) != GetElementColor(b)
  {
    if a != b && a.Some? && b.Some? {
      ColorCode(a.value);
      ColorCode(b.value);
    }
  }

  /** The two characters after the first `#` of an element's gradient. */
  lemma ColorCode(e: Element)
    ensures |GetElementColor(Some(e))| > 26
    ensures GetElementColor(Some(e))[25..27] ==
              match e case Wood => "4C" case Fire => "F4" case Earth => "FF" case Metal => "9E" case Water => "42"
  {
  }

  /** `getGenderLabel`: only the exact string `'male'` is labelled male. */
  function GetGenderLabel(gender: string): (r: string)
    ensures r == "男性" <==> gender == "male"
    ensures r == "男性" || r == "女性"
  {
    if gender == "male" then "男性" else "女性"
  }

  // ---------------------------------------------------------------------------------
  // Decimal numerals

  predicate IsDigit(c: char) {
    '0' <= c <= '9'
  }

  predicate AllDigits(s: string) {
    forall k :: 0 <= k < |s| ==> IsDigit(s[k])
  }

  /** A number written in decimal, as a template literal writes it: no leading zero. */
  function NatToString(n: nat): (s: string)
    ensures |s| >= 1 && AllDigits(s)
    ensures n < 10 <==> |s| == 1
    ensures n > 0 ==> s[0] != '0'
  {
    if n < 10 then [('0' as int + n) as char] else NatToString(n / 10) + [('0' as int + n % 10) as char]
  }

  function IntToString(n: int): string {
    if n < 0 then "-" + NatToString(-n) else NatToString(n)
  }

  function DigitsValue(s: string): nat
    requires AllDigits(s)
  {
    if |s| == 0 then 0 else DigitsValue(s[..|s| - 1]) * 10 + (s[|s| - 1] as int - '0' as int)
  }

  /** Reading back a number's decimal form gives the number. */
  lemma {:induction false} DigitsRoundTrip(n: nat)
    ensures DigitsValue(NatToString(n)) == n
  {
    if n >= 10 {
      DigitsRoundTrip(n / 10);
      var s := NatToString(n);
      assert s[..|s| - 1] == NatToString(n / 10);
    }
  }

  function ParseInt(s: string): Option<int> {
    if |s| > 0 && s[0] == '-' then (if AllDigits(s[1..]) then Some(0 - DigitsValue(s[1..]) as int) else None)
    else if AllDigits(s) then Some(DigitsValue(s))
    else None
  }

  lemma IntRoundTrip(n: int)
    ensures ParseInt(IntToString(n)) == Some(n)
  {
    var s := IntToString(n);
    if n < 0 {
      var t := NatToString(-n);
      DigitsRoundTrip(-n);
      assert s == "-" + t && s[1..] == t && s[0] == '-';
    } else {
      DigitsRoundTrip(n);
      assert IsDigit(s[0]);
    }
  }

  /** `s.padStart(2, '0')`. */
  function PadStart2(s: string): (r: string)
    ensures |r| == if |s| < 2 then 2 else |s|
  {
    if |s| >= 2 then s else seq(2 - |s|, _ => '0') + s
  }

  // ---------------------------------------------------------------------------------
  // `formatBirthDateTime`

  /** `formatBirthDateTime` on the local fields of the parsed date: `Y年M月D日 H:mm`, the
      minutes padded to two digits and nothing else padded. */
  function FormatBirthDateTime(d: Civil): string {
    IntToString(d.year) + ("年" + (IntToString(d.month) + ("月" + (IntToString(d.day) + ("日 " +
    (IntToString(d.hour) + (":" + PadStart2(IntToString(d.minute)))))))))
  }

  /** The text before and after the first `c`. */
  function SplitAt(s: string, c: char): Option<(string, string)> {
    if |s| == 0 then None
    else if s[0] == c then Some(([], s[1..]))
    else match SplitAt(s[1..], c)
      case None => None
      case Some(p) => Some(([s[0]] + p.0, p.1))
  }

  lemma {:induction false} SplitAtFirst(w: string, c: char, rest: string)
    requires c !in w && |rest| > 0 && rest[0] == c
    ensures SplitAt(w + rest, c) == Some((w, rest[1..]))
  {
    if |w| > 0 {
      assert (w + rest)[1..] == w[1..] + rest;
      SplitAtFirst(w[1..], c, rest);
      assert [w[0]] + w[1..] == w;
    } else {
      assert w + rest == rest;
    }
  }

  /** An independent reader of the display string: the five numbers between the
      separators, `Y年M月D日 H:mm`. */
  function ParseBirthDateTime(s: string): Option<(int, int, int, int, int)> {
    match SplitAt(s, '年')
    case None => None
    case Some(p1) =>
      match SplitAt(p1.1, '月')
      case None => None
      case Some(p2) =>
        match SplitAt(p2.1, '日')
        case None => None
        case Some(p3) =>
          if |p3.1| == 0 || p3.1[0] != ' ' then None
          else match SplitAt(p3.1[1..], ':')
            case None => None
            case Some(p4) =>
              ParseFields(p1.0, p2.0, p3.0, p4.0, p4.1)
  }

  function ParseFields(y: string, mo: string, d: string, h: string, mi: string): Option<(int, int, int, int, int)> {
    match (ParseInt(y), ParseInt(mo), ParseInt(d), ParseInt(h), ParseInt(mi))
    case (Some(y), Some(mo), Some(d), Some(h), Some(mi)) => Some((y, mo, d, h, mi))
    case _ => None
  }

  lemma NumeralsHaveNoSeparator(n: int, c: char)
    requires c != '-' && !IsDigit(c)
    ensures c !in IntToString(n)
  {
  }

  /** Padding a numeral to two places does not change the number it reads as. */
  lemma PaddedRoundTrip(n: int)
    ensures ParseInt(PadStart2(IntToString(n))) == Some(n)
  {
    IntRoundTrip(n);
    var s := IntToString(n);
    if |s| < 2 {
      assert n >= 0 && s == NatToString(n);
      assert DigitsValue(s) == s[0] as int - '0' as int by {
        assert s[..0] == [];
      }
      var p := PadStart2(s);
      assert p == ['0', s[0]];
      assert p[..1] == ['0'] && p[..1][..0] == [];
      assert DigitsValue(p) == DigitsValue(s);
    }
  }

  /** The display string determines the date and time it shows. */
  lemma FormatBirthDateTimeParses(d: Civil)
    ensures ParseBirthDateTime(FormatBirthDateTime(d)) == Some((d.year, d.month, d.day, d.hour, d.minute))
  {
    var y, mo, dd, h := IntToString(d.year), IntToString(d.month), IntToString(d.day), IntToString(d.hour);
    var mi := PadStart2(IntToString(d.minute));
    NumeralsHaveNoSeparator(d.year, '年');
    NumeralsHaveNoSeparator(d.month, '月');
    NumeralsHaveNoSeparator(d.day, '日');
    NumeralsHaveNoSeparator(d.hour, ':');
    var r4 := ":" + mi;
    var r3 := "日 " + (h + r4);
    var r2 := "月" + (dd + r3);
    var r1 := "年" + (mo + r2);
    SplitAtFirst(y, '年', r1);
    SplitAtFirst(mo, '月', r2);
    SplitAtFirst(dd, '日', r3);
    assert r3[1..] == " " + (h + r4);
    SplitAtFirst(h, ':', r4);
    IntRoundTrip(d.year);
    IntRoundTrip(d.month);
    IntRoundTrip(d.day);
    IntRoundTrip(d.hour);
    PaddedRoundTrip(d.minute);
    assert ParseBirthDateTime(y + r1) == ParseFields(y, mo, dd, h, mi);
  }

  /** The display of 1986-05-26 05:00 has no leading zeros except in the minutes. */
  lemma FormatBirthDateTimeExample()
    ensures FormatBirthDateTime(Civil(1986, 5, 26, 5, 0, 0)) == "1986年5月26日 5:00"
  {
    assert NatToString(1986) == "1986" by {
      assert NatToString(198) == "198" by {
        assert NatToString(19) == "19";
      }
    }
    assert NatToString(26) == "26";
  }

  // ---------------------------------------------------------------------------------
  // `calculateCurrentAge`

  /** The a-th birthday (month and day of birth in year `birth.year + a`) falls on or
      before `today`. */
  predicate BirthdayPassed(today: Civil, birth: Civil, a: int) {
    birth.year + a < today.year ||
    (birth.year + a == today.year && (birth.month < today.month || (birth.month == today.month && birth.day <= today.day)))
  }

  /** `calculateCurrentAge`: the number of birthdays passed; a birth date after today
      gives a negative age, since nothing floors it. */
  function CalculateCurrentAge(today: Civil, birth: Civil): (r: int)
    ensures BirthdayPassed(today, birth, r) && !BirthdayPassed(today, birth, r + 1)
    ensures r >= 0 <==> BirthdayPassed(today, birth, 0)
  {
    var age := today.year - birth.year;
    var monthDiff := today.month - birth.month;
    if monthDiff < 0 || (monthDiff == 0 && today.day < birth.day) then age - 1 else age
  }

  /** The age shown in the browser is the backend's `_calculate_current_age` except
      before birth, where the backend gives 0. */
  lemma AgeMatchesBackend(today: Civil, birth: Civil)
    ensures var r := CalculateCurrentAge(today, birth);
            SajuCalculator.CurrentAge(today, birth) == if r >= 0 then r else 0
  {
  }
}
