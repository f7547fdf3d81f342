/** The four pillars and the next-term decade start of the randomized chart checker: the
    year and day pillars by cyclic counting from 1984 and 1984-01-01 (both 甲子), the hour
    and month stems from five-row tables, the month branch from the latest term at or
    before the birth, and a start age of one year per three days to the next term.
    Datetimes are naive: their civil fields are compared as they read. */
module RandomSajuTester {
  import opened Common
  import opened Calendar
  import opened Dicts
  import ManseryeokCalculator

  /** Stems and branches are one character each: a pillar is kept as its (stem, branch) pair. */
  type Pillar = (string, string)

  /** `calculate_year_stem_branch`. */
  function YearPillar(year: int): (p: Pillar)
    ensures p == (Stems[(year - 1984) % 10], Branches[(year - 1984) % 12])
  {
    var diff := year - 1984;
    (Stems[diff % 10], Branches[diff % 12])
  }

  /** The year pillar is the manseryeok engine's yearly pillar: anchored at 1984 甲子 and
      repeating every sixty years. */
  lemma YearPillarIsSaeun(year: int)
    ensures YearPillar(year) == ManseryeokCalculator.Saeun(year)
    ensures YearPillar(year + 60) == YearPillar(year)
    ensures YearPillar(1984) == ("甲", "子")
  {
    ManseryeokCalculator.SaeunAnchorPeriodStep(year);
  }

  /** Whole days from 1984-01-01 to the birth's date (the time of day is dropped). */
  function DaysSince1984(c: Civil): int {
    DaysFromCivil(c.year, c.month, c.day) - DaysFromCivil(1984, 1, 1)
  }

  /** The pillar of the day `n` days after 1984-01-01. */
  function PillarOfDayCount(n: int): Pillar {
    (Stems[n % 10], Branches[n % 12])
  }

  /** `calculate_day_stem_branch`: the stem and branch counted from 1984-01-01; they always
      share their yin-yang parity, as every pillar of the sixty-day cycle does. */
  function DayPillar(c: Civil): (p: Pillar)
    ensures var n := DaysSince1984(c);
            p == (Stems[n % 10], Branches[n % 12]) && (n % 10) % 2 == (n % 12) % 2
  {
    PillarOfDayCount(DaysSince1984(c))
  }

  /** 1984-01-01 is 甲子, and the next day of the month is one day further on. */
  lemma DayPillarAnchorAndStep(c: Civil)
    ensures DayPillar(Civil(1984, 1, 1, c.hour, c.minute, c.second)) == ("甲", "子")
    ensures DaysSince1984(c.(day := c.day + 1)) == DaysSince1984(c) + 1
  {
    DaysFromCivilInMonth(c.year, c.month, c.day, 1);
  }

  /** Day counts sixty apart share a pillar, and the next day advances stem and branch by one. */
  lemma {:induction false} DayCountCycle(n: int, q: int)
    ensures PillarOfDayCount(n + 60 * q) == PillarOfDayCount(n)
    ensures PillarOfDayCount(n + 1) == (Stems[(n % 10 + 1) % 10], Branches[(n % 12 + 1) % 12])
  {
    DayCountArith(n, q);
  }

  lemma DayCountArith(n: int, q: int)
    ensures (n + 60 * q) % 10 == n % 10 && (n + 60 * q) % 12 == n % 12
    ensures (n + 1) % 10 == (n % 10 + 1) % 10 && (n + 1) % 12 == (n % 12 + 1) % 12
  {
    assert n + 60 * q == 10 * (6 * q) + n == 12 * (5 * q) + n;
    ManseryeokCalculator.ShiftMod(n, 6 * q, 10);
    ManseryeokCalculator.ShiftMod(n, 5 * q, 12);
    ManseryeokCalculator.StepMod(n, 1);
  }

  /** The stem indices of the hour-stem table as printed: five rows of twelve two-hour
      windows, 甲 = 0 … 癸 = 9. */
  const HourStemRows: seq<seq<StemIdx>> := [
    [0, 1, 2, 3, 4, 5, 6, 7, 8, 9, 0, 1],
    [2, 3, 4, 5, 6, 7, 8, 9, 0, 1, 2, 3],
    [4, 5, 6, 7, 8, 9, 0, 1, 2, 3, 4, 5],
    [6, 7, 8, 9, 0, 1, 2, 3, 4, 5, 6, 7],
    [8, 9, 0, 1, 2, 3, 4, 5, 6, 7, 8, 9]]

  /** The stem indices of the month-stem table as printed: five rows of twelve months. */
  const MonthStemRows: seq<seq<StemIdx>> := [
    [2, 3, 4, 5, 6, 7, 8, 9, 0, 1, 2, 3],
    [4, 5, 6, 7, 8, 9, 0, 1, 2, 3, 4, 5],
    [6, 7, 8, 9, 0, 1, 2, 3, 4, 5, 6, 7],
    [8, 9, 0, 1, 2, 3, 4, 5, 6, 7, 8, 9],
    [0, 1, 2, 3, 4, 5, 6, 7, 8, 9, 0, 1]]

  /** Row r of the hour table starts at stem 2r and counts on; the month table's rows start
      two stems later. */
  function HourTableStem(r: nat, c: nat): (i: StemIdx)
    requires r < 5 && c < 12
    ensures i == (2 * r + c) % 10
  {
    HourStemRows[r][c]
  }

  function MonthTableStem(r: nat, c: nat): (i: StemIdx)
    requires r < 5 && c < 12
    ensures i == (2 * r + 2 + c) % 10
  {
    MonthStemRows[r][c]
  }

  /** `calculate_hour_stem_branch` as written: the table row is the day stem's index halved,
      so 乙 days read the 甲/己 row. */
  function HourPillarAsWritten(hour: int, dayStemIdx: StemIdx): (p: Pillar)
    ensures p == (Stems[(2 * (dayStemIdx / 2) + ManseryeokCalculator.HourBranchIdx(hour)) % 10],
                  Branches[ManseryeokCalculator.HourBranchIdx(hour)])
  {
    var b := ManseryeokCalculator.HourBranchIdx(hour);
    (Stems[HourTableStem(dayStemIdx / 2, b)], Branches[b])
  }

  /** The hour pillar with the row the table's own labels give (甲己, 乙庚, 丙辛, 丁壬, 戊癸
      days): the day stem's index modulo five. */
  function HourPillar(hour: int, dayStemIdx: StemIdx): (p: Pillar)
    ensures p == (Stems[(2 * (dayStemIdx % 5) + ManseryeokCalculator.HourBranchIdx(hour)) % 10],
                  Branches[ManseryeokCalculator.HourBranchIdx(hour)])
  {
    var b := ManseryeokCalculator.HourBranchIdx(hour);
    (Stems[HourTableStem(dayStemIdx % 5, b)], Branches[b])
  }

  /** A 乙 day at midnight: the table as indexed gives 甲子, while the 乙庚 row gives 丙子. */
  lemma HourRowCounterexample()
    ensures HourPillarAsWritten(0, 1) == ("甲", "子")
    ensures HourPillar(0, 1) == ("丙", "子")
  {
  }

  /** Reading the row at a stem's index modulo five gives the same stem as counting from 2s. */
  lemma FiveRowStem(s: StemIdx, k: int)
    ensures (2 * (s % 5) + k) % 10 == (2 * s + k) % 10
  {
    if s >= 5 {
      assert s % 5 == s - 5;
      assert 2 * s + k == (2 * (s % 5) + k) + 10;
    }
  }

  /** The corrected hour pillar is the five-rat rule of the manseryeok engine, for every hour
      and day stem. */
  lemma HourPillarIsFiveRatRule(hour: int, s: StemIdx)
    ensures HourPillar(hour, s) == ManseryeokCalculator.HourPillar(hour, Stems[s])
  {
    StemIndexRoundTrip(s);
    assert ManseryeokCalculator.DayStemIdx(Stems[s]) == s;
    HourIndicesFiveRows(hour, s);
  }

  lemma HourIndicesFiveRows(hour: int, s: StemIdx)
    ensures ManseryeokCalculator.HourIndices(hour, s) ==
              ((2 * (s % 5) + ManseryeokCalculator.HourBranchIdx(hour)) % 10, ManseryeokCalculator.HourBranchIdx(hour))
  {
    var b := ManseryeokCalculator.HourBranchIdx(hour);
    ManseryeokCalculator.HourStemRule(hour, s);
    FiveRowStem(s, b);
  }

  /** The month stem as written: row from the year stem's index halved, column from the month
      branch's own index (子 = 0), column 0 when the branch is undetermined. */
  function MonthStemAsWritten(yearStemIdx: StemIdx, monthBranch: Option<BranchIdx>): (s: string)
    ensures s == Stems[(2 * (yearStemIdx / 2) + 2 + (if monthBranch.Some? then monthBranch.value else 0)) % 10]
  {
    var col := if monthBranch.Some? then monthBranch.value else 0;
    Stems[MonthTableStem(yearStemIdx / 2, col)]
  }

  /** The month stem with the row the labels give (甲己, 乙庚, … years: index modulo five) and
      the column counted from 寅, the month each row's first entry belongs to; column 0 when
      the branch is undetermined. */
  function MonthStem(yearStemIdx: StemIdx, monthBranch: Option<BranchIdx>): (s: string)
    ensures s == Stems[(2 * (yearStemIdx % 5) + 2 + MonthColumn(monthBranch)) % 10]
  {
    var col := MonthColumn(monthBranch);
    Stems[MonthTableStem(yearStemIdx % 5, col)]
  }

  /** The month's place counted from 寅 (寅 = 0 … 丑 = 11); 0 when undetermined. */
  function MonthColumn(monthBranch: Option<BranchIdx>): (c: nat)
    ensures c < 12
    ensures monthBranch.Some? && monthBranch.value >= 2 ==> c == monthBranch.value - 2
  {
    if monthBranch.Some? then (monthBranch.value + 10) % 12 else 0
  }

  /** A 甲 year's 寅 month: the table as indexed gives 戊, while its own first entry gives 丙.
      A 己 year, which the labels put in the same row, reads 壬 from the third row. */
  lemma MonthColumnCounterexample()
    ensures MonthStemAsWritten(0, Some(2)) == "戊"
    ensures MonthStem(0, Some(2)) == "丙"
    ensures MonthStemAsWritten(5, Some(2)) == "壬"
    ensures MonthStem(5, Some(2)) == "丙"
  {
  }

  /** The corrected month stem is the five-tiger rule of the manseryeok engine: month m of a
      year carries the engine's stem for that month whenever its branch is the month's. */
  lemma MonthStemIsFiveTigerRule(year: int, m: int)
    requires 1 <= m <= 12
    ensures MonthStem(ManseryeokCalculator.SaeunIndices(year).0, Some(ManseryeokCalculator.WolunIndices(year, m).1)) ==
              Stems[ManseryeokCalculator.WolunIndices(year, m).0]
  {
    var y := ManseryeokCalculator.SaeunIndices(year).0;
    var w := ManseryeokCalculator.WolunIndices(year, m);
    MonthIndicesFiveRows(year, m);
    MonthStemAt(y, w.1, w.0);
  }

  lemma MonthStemAt(y: StemIdx, b: BranchIdx, s: StemIdx)
    requires s == (2 * (y % 5) + 2 + MonthColumn(Some(b))) % 10
    ensures MonthStem(y, Some(b)) == Stems[s]
  {
  }

  lemma FiveTigerArith(y: StemIdx, k: int)
    ensures ((2 * y + 2) % 10 + k) % 10 == (2 * (y % 5) + 2 + k) % 10
  {
    ManseryeokCalculator.StepMod(2 * y + 2, k);
    FiveRowStem(y, 2 + k);
  }

  lemma MonthIndicesFiveRows(year: int, m: int)
    requires 1 <= m <= 12
    ensures MonthColumn(Some((m + 1) % 12)) == m - 1
    ensures ManseryeokCalculator.WolunIndices(year, m) ==
              ((2 * (ManseryeokCalculator.SaeunIndices(year).0 % 5) + 2 + (m - 1)) % 10, (m + 1) % 12)
  {
    var y := ManseryeokCalculator.SaeunIndices(year).0;
    ManseryeokCalculator.MonthStemBaseFormula(y);
    FiveTigerArith(y, m - 1);
    assert (m + 1) % 12 == (if m == 11 then 0 else if m == 12 then 1 else m + 1);
  }

  /** The month branch each month-starting term opens. */
  const MonthBranches: map<string, string> := map[
    "立春" := "寅", "驚蟄" := "卯", "清明" := "辰", "立夏" := "巳", "芒種" := "午", "小暑" := "未",
    "立秋" := "申", "白露" := "酉", "寒露" := "戌", "立冬" := "亥", "大雪" := "子", "小寒" := "丑"]

  /** One year of the table: term name to its parsed "full_datetime", in file order. */
  type YearTerms = Dict<string, Civil>

  /** The loaded "solar_terms_data": year to that year's terms. */
  type TermTable = map<int, YearTerms>

  /** Naive datetimes compare by their civil reading. */
  function Stamp(c: Civil): int {
    CivilSeconds(c)
  }

  /** The latest term at or before the birth, the first listed among equal instants. */
  function LatestAtOrBefore(yd: YearTerms, birth: Civil): (r: Option<nat>)
    ensures r.Some? ==> r.value < |yd|
  {
    if |yd| == 0 then None
    else
      var r := LatestAtOrBefore(yd[..|yd| - 1], birth);
      var last := yd[|yd| - 1].1;
      if Stamp(last) <= Stamp(birth) && (r.None? || Stamp(last) > Stamp(yd[r.value].1)) then Some(|yd| - 1) else r
  }

  /** LatestAtOrBefore finds a term at or before the birth that no other such term follows,
      and finds none exactly when every term is after the birth. */
  lemma {:induction false} LatestAtOrBeforeSpec(yd: YearTerms, birth: Civil)
    ensures var r := LatestAtOrBefore(yd, birth);
            r.Some? ==> Stamp(yd[r.value].1) <= Stamp(birth) &&
                        forall k :: 0 <= k < |yd| && Stamp(yd[k].1) <= Stamp(birth) ==> Stamp(yd[k].1) <= Stamp(yd[r.value].1)
    ensures LatestAtOrBefore(yd, birth).None? <==> forall k :: 0 <= k < |yd| ==> Stamp(yd[k].1) > Stamp(birth)
  {
    if |yd| > 0 {
      var init := yd[..|yd| - 1];
      LatestAtOrBeforeSpec(init, birth);
      assert forall k :: 0 <= k < |init| ==> init[k] == yd[k];
    }
  }

  /** The earliest term strictly after the birth, the first listed among equal instants. */
  function EarliestAfter(yd: YearTerms, birth: Civil): (r: Option<nat>)
    ensures r.Some? ==> r.value < |yd|
  {
    if |yd| == 0 then None
    else
      var r := EarliestAfter(yd[..|yd| - 1], birth);
      var last := yd[|yd| - 1].1;
      if Stamp(last) > Stamp(birth) && (r.None? || Stamp(last) < Stamp(yd[r.value].1)) then Some(|yd| - 1) else r
  }

  /** EarliestAfter finds a term after the birth that no other such term precedes, and finds
      none exactly when no term is after the birth. */
  lemma {:induction false} EarliestAfterSpec(yd: YearTerms, birth: Civil)
    ensures var r := EarliestAfter(yd, birth);
            r.Some? ==> Stamp(yd[r.value].1) > Stamp(birth) &&
                        forall k :: 0 <= k < |yd| && Stamp(yd[k].1) > Stamp(birth) ==> Stamp(yd[r.value].1) <= Stamp(yd[k].1)
    ensures EarliestAfter(yd, birth).None? <==> forall k :: 0 <= k < |yd| ==> Stamp(yd[k].1) <= Stamp(birth)
  {
    if |yd| > 0 {
      var init := yd[..|yd| - 1];
      EarliestAfterSpec(init, birth);
      assert forall k :: 0 <= k < |init| ==> init[k] == yd[k];
    }
  }

  /** What `find_current_month_branch` returns: the branch with the term and its date, or
      '未確定' with the reason. */
  datatype MonthBranch = Found(branch: string, term: string, date: Civil) | Undetermined(reason: string)

  /** The term in force at the birth: the latest of its year at or before it, else the
      previous year's 小寒 when that is at or before it. */
  function TermInForce(db: TermTable, birth: Civil): Option<(string, Civil)>
    requires birth.year in db
  {
    var yd := db[birth.year];
    match LatestAtOrBefore(yd, birth)
    case Some(i) => Some(yd[i])
    case None =>
      var prev := birth.year - 1;
      if prev !in db then None
      else
        match Get(db[prev], "小寒")
        case Some(xiaohan) => if Stamp(xiaohan) <= Stamp(birth) then Some(("小寒", xiaohan)) else None
        case None => None
  }

  /** `find_current_month_branch`. */
  function CurrentMonthBranch(db: TermTable, birth: Civil): MonthBranch {
    if birth.year !in db then Undetermined("節気データなし")
    else
      match TermInForce(db, birth)
      case Some((name, date)) =>
        if name != "" && name in MonthBranches then Found(MonthBranches[name], name, date)
        else Undetermined("節気判定失敗")
      case None => Undetermined("節気判定失敗")
  }

  /** `find_current_month_branch` step by step: one pass keeping the latest term so far. */
  method FindCurrentMonthBranch(db: TermTable, birth: Civil) returns (r: MonthBranch)
    ensures r == CurrentMonthBranch(db, birth)
  {
    if birth.year !in db {
      return Undetermined("節気データなし");
    }
    var yd := db[birth.year];
    var current: Option<nat> := None;
    var k := 0;
    while k < |yd|
      invariant 0 <= k <= |yd|
      invariant current == LatestAtOrBefore(yd[..k], birth)
    {
      assert yd[..k + 1][..k] == yd[..k];
      var termDate := yd[k].1;
      if Stamp(termDate) <= Stamp(birth) {
        if current.None? || Stamp(termDate) > Stamp(yd[current.value].1) {
          current := Some(k);
        }
      }
      k := k + 1;
    }
    assert yd[..|yd|] == yd;
    var term: Option<(string, Civil)> := if current.Some? then Some(yd[current.value]) else None;
    if term.None? {
      var prev := birth.year - 1;
      if prev in db {
        var xiaohan := Get(db[prev], "小寒");
        if xiaohan.Some? && Stamp(xiaohan.value) <= Stamp(birth) {
          term := Some(("小寒", xiaohan.value));
        }
      }
    }
    if term.Some? && term.value.0 != "" && term.value.0 in MonthBranches {
      return Found(MonthBranches[term.value.0], term.value.0, term.value.1);
    }
    r := Undetermined("節気判定失敗");
  }

  /** A branch is found exactly when the term in force is one of the twelve month-starting
      terms; that term is at or before the birth, and when it comes from the birth year, no
      later term of that year is. */
  lemma CurrentMonthBranchSpec(db: TermTable, birth: Civil)
    ensures var r := CurrentMonthBranch(db, birth);
            r.Found? <==> birth.year in db && TermInForce(db, birth).Some? && TermInForce(db, birth).value.0 in MonthBranches
    ensures var r := CurrentMonthBranch(db, birth);
            r.Found? ==> r.branch == MonthBranches[r.term] && r.branch in Branches && Stamp(r.date) <= Stamp(birth)
    ensures var r := CurrentMonthBranch(db, birth);
            r.Found? && LatestAtOrBefore(db[birth.year], birth).Some? ==>
              forall k :: 0 <= k < |db[birth.year]| && Stamp(db[birth.year][k].1) <= Stamp(birth) ==>
                Stamp(db[birth.year][k].1) <= Stamp(r.date)
    ensures birth.year in db && LatestAtOrBefore(db[birth.year], birth).None? ==>
              TermInForce(db, birth).None? || TermInForce(db, birth).value.0 == "小寒"
  {
    if birth.year in db {
      LatestAtOrBeforeSpec(db[birth.year], birth);
    }
  }

  /** The branch index the month stem uses: the found branch, or nothing for '未確定'. */
  function BranchIndexOf(r: MonthBranch): Option<BranchIdx> {
    if r.Found? && r.branch in Branches then
      match IndexOf(Branches, r.branch)
      case Some(i) => Some(i)
      case None => None
    else None
  }

  datatype Saju = Saju(year: Pillar, month: Pillar, day: Pillar, hour: Pillar, monthInfo: MonthBranch)

  /** The month pillar as written: the stem from the month table read at row yearStemIdx div 2
      and the branch's own column, and the found branch or '未確定'. */
  function MonthPillar(yearStemIdx: StemIdx, monthInfo: MonthBranch): (p: Pillar)
    ensures p.0 in Stems
    ensures p.1 == (if monthInfo.Found? then monthInfo.branch else "未確定")
  {
    (MonthStemAsWritten(yearStemIdx, BranchIndexOf(monthInfo)), if monthInfo.Found? then monthInfo.branch else "未確定")
  }

  /** The month pillar with the corrected table reading. */
  function MonthPillarCorrected(yearStemIdx: StemIdx, monthInfo: MonthBranch): (p: Pillar)
    ensures p.0 in Stems
    ensures p.1 == (if monthInfo.Found? then monthInfo.branch else "未確定")
  {
    (MonthStem(yearStemIdx, BranchIndexOf(monthInfo)), if monthInfo.Found? then monthInfo.branch else "未確定")
  }

  /** `calculate_saju` as written: the year and day pillars by cyclic counting, the month
      branch of the term in force, and the month and hour stems read from the tables at row
      index div 2. */
  function CalculateSaju(db: TermTable, birth: Civil): (s: Saju)
    ensures s.year == YearPillar(birth.year) && s.day == DayPillar(birth)
    ensures s.monthInfo == CurrentMonthBranch(db, birth)
    ensures s.month.1 == (if s.monthInfo.Found? then s.monthInfo.branch else "未確定")
    ensures s.month.0 == MonthStemAsWritten((birth.year - 1984) % 10, BranchIndexOf(s.monthInfo))
    ensures s.hour == HourPillarAsWritten(birth.hour, DaysSince1984(birth) % 10)
    ensures s.hour.1 == Branches[ManseryeokCalculator.HourBranchIdx(birth.hour)]
  {
    var year := YearPillar(birth.year);
    var monthInfo := CurrentMonthBranch(db, birth);
    var month := MonthPillar((birth.year - 1984) % 10, monthInfo);
    var day := DayPillar(birth);
    var n := DaysSince1984(birth);
    var hour := HourPillarAsWritten(birth.hour, n % 10);
    Saju(year, month, day, hour, monthInfo)
  }

  /** The chart the tables' own row labels call for: the same year, day and month branch,
      with the five-rat hour stem and the five-tiger month stem. */
  function CalculateSajuCorrected(db: TermTable, birth: Civil): (s: Saju)
    ensures s.year == YearPillar(birth.year) && s.day == DayPillar(birth)
    ensures s.monthInfo == CurrentMonthBranch(db, birth)
    ensures s.month.1 == (if s.monthInfo.Found? then s.monthInfo.branch else "未確定")
    ensures s.month.0 == MonthStem((birth.year - 1984) % 10, BranchIndexOf(s.monthInfo))
    ensures s.hour == ManseryeokCalculator.HourPillar(birth.hour, Stems[DaysSince1984(birth) % 10])
  {
    var year := YearPillar(birth.year);
    var monthInfo := CurrentMonthBranch(db, birth);
    var month := MonthPillarCorrected((birth.year - 1984) % 10, monthInfo);
    var day := DayPillar(birth);
    var n := DaysSince1984(birth);
    HourPillarIsFiveRatRule(birth.hour, n % 10);
    var hour := HourPillar(birth.hour, n % 10);
    Saju(year, month, day, hour, monthInfo)
  }

  /** The month stem follows the found branch through the table as written, and the
      corrected chart through the five-tiger reading. */
  lemma SajuMonthStem(db: TermTable, birth: Civil)
    ensures var s := CalculateSaju(db, birth);
            var c := CalculateSajuCorrected(db, birth);
            s.monthInfo.Found? ==>
              IndexOf(Branches, s.monthInfo.branch).Some? &&
              s.month.0 == MonthStemAsWritten((birth.year - 1984) % 10, Some(IndexOf(Branches, s.monthInfo.branch).value)) &&
              c.month.0 == MonthStem((birth.year - 1984) % 10, Some(IndexOf(Branches, s.monthInfo.branch).value))
  {
    var s := CalculateSaju(db, birth);
    var c := CalculateSajuCorrected(db, birth);
    FoundBranchIndex(db, birth);
    if s.monthInfo.Found? {
      var i := IndexOf(Branches, s.monthInfo.branch).value;
      assert BranchIndexOf(c.monthInfo) == Some(i);
    }
  }

  /** A found month branch is one of the twelve, and its index is where it stands. */
  lemma FoundBranchIndex(db: TermTable, birth: Civil)
    ensures var r := CurrentMonthBranch(db, birth);
            r.Found? ==> IndexOf(Branches, r.branch).Some? && BranchIndexOf(r) == Some(IndexOf(Branches, r.branch).value)
  {
    CurrentMonthBranchSpec(db, birth);
  }

  /** The two charts differ only in the hour and month stems. The hour stems agree exactly for
      甲 and 癸 days, the only stems whose index halved and index modulo five name the same
      row. */
  lemma SajuAsWrittenVersusCorrected(db: TermTable, birth: Civil)
    ensures var s := CalculateSaju(db, birth);
            var c := CalculateSajuCorrected(db, birth);
            s.year == c.year && s.day == c.day && s.monthInfo == c.monthInfo && s.month.1 == c.month.1 &&
            s.hour.1 == c.hour.1
    ensures var s := CalculateSaju(db, birth);
            var c := CalculateSajuCorrected(db, birth);
            s.hour == c.hour <==> DaysSince1984(birth) % 10 in {0, 9}
  {
    var n := DaysSince1984(birth) % 10;
    HourPillarIsFiveRatRule(birth.hour, n);
    HourRowsAgree(birth.hour, n);
  }

  /** The row halved and the row modulo five give the same hour stem exactly for 甲 and 癸. */
  lemma HourRowsAgree(hour: int, s: StemIdx)
    ensures HourPillarAsWritten(hour, s) == HourPillar(hour, s) <==> s in {0, 9}
  {
    HourRowsAgreeAt(ManseryeokCalculator.HourBranchIdx(hour), s);
  }

  /** The same for one hour branch, read through the table. */
  lemma HourRowsAgreeAt(b: BranchIdx, s: StemIdx)
    ensures Stems[HourTableStem(s / 2, b)] == Stems[HourTableStem(s % 5, b)] <==> s in {0, 9}
  {
    HourRowArith(s, b);
    SameStemIffSameIndex(HourTableStem(s / 2, b), HourTableStem(s % 5, b));
  }

  /** Two stems are the same character exactly when they have the same index. */
  lemma SameStemIffSameIndex(i: StemIdx, j: StemIdx)
    ensures Stems[i] == Stems[j] <==> i == j
  {
    StemsDistinct();
    if i < j {
      assert Stems[i] != Stems[j];
    } else if j < i {
      assert Stems[j] != Stems[i];
    }
  }

  /** Rows `s / 2` and `s % 5` name the same stem column exactly for 甲 and 癸. */
  lemma HourRowArith(s: StemIdx, b: nat)
    ensures (2 * (s / 2) + b) % 10 == (2 * (s % 5) + b) % 10 <==> s in {0, 9}
  {
    ShiftedResidues(2 * (s / 2), 2 * (s % 5), b);
  }

  /** Adding the same amount keeps two distinct residues distinct. */
  lemma ShiftedResidues(x: nat, y: nat, b: nat)
    requires x < 10 && y < 10
    ensures (x + b) % 10 == (y + b) % 10 <==> x == y
  {
    var qx, qy := (x + b) / 10, (y + b) / 10;
    if (x + b) % 10 == (y + b) % 10 {
      assert x - y == 10 * (qx - qy);
    }
  }

  /** What `calculate_daeun` returns: the record, or an error. */
  datatype Daeun = Daeun(direction: string, nextTerm: string, nextTermDate: Civil, daysToTerm: int,
                         startAge: real, startDayNumber: int)

  /** The next term after the birth: the earliest of the birth year strictly after it; when
      there is none, the first entry of the next year's table, whenever it lies. */
  function NextTerm(db: TermTable, birth: Civil): Option<(string, Civil)>
    requires birth.year in db
  {
    var yd := db[birth.year];
    match EarliestAfter(yd, birth)
    case Some(i) => Some(yd[i])
    case None =>
      if birth.year + 1 in db && |db[birth.year + 1]| > 0 then Some(db[birth.year + 1][0]) else None
  }

  /** `round(days / 3, 2)` in hundredths: a third of a whole day count has the fraction 0,
      1/3 or 2/3, whose nearest hundredths are 0, 0.33 and 0.67 (never a tie). */
  function ThirdInHundredths(days: int): (c: int)
    ensures -1 <= 3 * c - 100 * days <= 1
  {
    (100 * days + 1) / 3
  }

  /** No other hundredth lies within half a hundredth of days / 3, so the rounding is the
      nearest one. */
  lemma ThirdInHundredthsIsNearest(days: int, k: int)
    requires -3 <= 2 * (3 * k - 100 * days) <= 3
    ensures k == ThirdInHundredths(days)
  {
  }

  /** `calculate_daeun`: the direction from the year stem's parity and the gender ('男' or
      not), the whole days to the next term (rounded down), a start age of days / 3 rounded to
      two decimals and a start date that many days after the birth. */
  function CalculateDaeun(db: TermTable, birth: Civil, gender: string, yearStemIdx: StemIdx): (r: Result<Daeun>)
    ensures r.Err? <==> birth.year !in db || NextTerm(db, birth).None?
    ensures r.Ok? ==> (r.value.direction == "順行" <==> (yearStemIdx % 2 == 0) == (gender == "男"))
    ensures r.Ok? ==> r.value.startAge == ThirdInHundredths(r.value.daysToTerm) as real / 100.0
    ensures r.Ok? ==> r.value.startDayNumber == DaysFromCivil(birth.year, birth.month, birth.day) + r.value.daysToTerm
  {
    var yang := yearStemIdx % 2 == 0;
    var male := gender == "男";
    var direction := if (yang && male) || (!yang && !male) then "順行" else "逆行";
    if birth.year !in db then Err("節気データなし")
    else
      match NextTerm(db, birth)
      case None => Err("次の節気が見つかりません")
      case Some((name, date)) =>
        var days := (Stamp(date) - Stamp(birth)) / DaySeconds;
        Ok(Daeun(direction, name, date, days, ThirdInHundredths(days) as real / 100.0,
                 DaysFromCivil(birth.year, birth.month, birth.day) + days))
  }

  /** `calculate_daeun` step by step: one pass keeping the earliest later term so far, then
      the first entry of the next year. */
  method ComputeDaeun(db: TermTable, birth: Civil, gender: string, yearStemIdx: StemIdx) returns (r: Result<Daeun>)
    ensures r == CalculateDaeun(db, birth, gender, yearStemIdx)
  {
    var yang := yearStemIdx % 2 == 0;
    var male := gender == "男";
    var direction := if (yang && male) || (!yang && !male) then "順行" else "逆行";
    if birth.year !in db {
      return Err("節気データなし");
    }
    var yd := db[birth.year];
    var next := ScanEarliestAfter(yd, birth);
    var term: Option<(string, Civil)> := if next.Some? then Some(yd[next.value]) else None;
    if term.None? && birth.year + 1 in db && |db[birth.year + 1]| > 0 {
      term := Some(db[birth.year + 1][0]);
    }
    if term.None? {
      return Err("次の節気が見つかりません");
    }
    var (name, date) := term.value;
    var days := (Stamp(date) - Stamp(birth)) / DaySeconds;
    r := Ok(Daeun(direction, name, date, days, ThirdInHundredths(days) as real / 100.0,
                  DaysFromCivil(birth.year, birth.month, birth.day) + days));
  }

  /** The term loop of `calculate_daeun`: one pass keeping the earliest term after the birth
      seen so far, replacing it only by a strictly earlier one. */
  method ScanEarliestAfter(yd: YearTerms, birth: Civil) returns (next: Option<nat>)
    ensures next == EarliestAfter(yd, birth)
  {
    next := None;
    var k := 0;
    while k < |yd|
      invariant 0 <= k <= |yd|
      invariant next == EarliestAfter(yd[..k], birth)
    {
      assert yd[..k + 1][..k] == yd[..k];
      var termDate := yd[k].1;
      if Stamp(termDate) > Stamp(birth) {
        if next.None? || Stamp(termDate) < Stamp(yd[next.value].1) {
          next := Some(k);
        }
      }
      k := k + 1;
    }
    assert yd[..|yd|] == yd;
  }

  /** The search always looks forward, whatever the direction: the gender and year stem
      change only the direction label. When the birth year has a later term, the one used is
      the earliest, after the birth by the whole days reported, three days making a year. */
  lemma DaeunAlwaysForward(db: TermTable, birth: Civil, g1: string, g2: string, s1: StemIdx, s2: StemIdx)
    ensures var r1 := CalculateDaeun(db, birth, g1, s1);
            var r2 := CalculateDaeun(db, birth, g2, s2);
            r1.Ok? == r2.Ok? && (r1.Ok? ==> r1.value.(direction := r2.value.direction) == r2.value)
    ensures var r := CalculateDaeun(db, birth, g1, s1);
            r.Ok? ==> -1.0 / 300.0 <= r.value.startAge - r.value.daysToTerm as real / 3.0 <= 1.0 / 300.0 &&
                      r.value.daysToTerm * DaySeconds <= Stamp(r.value.nextTermDate) - Stamp(birth) < (r.value.daysToTerm + 1) * DaySeconds
    ensures var r := CalculateDaeun(db, birth, g1, s1);
            birth.year in db && EarliestAfter(db[birth.year], birth).Some? ==>
              r.Ok? && r.value.daysToTerm >= 0 &&
              forall k :: 0 <= k < |db[birth.year]| && Stamp(db[birth.year][k].1) > Stamp(birth) ==>
                Stamp(r.value.nextTermDate) <= Stamp(db[birth.year][k].1)
    ensures CalculateDaeun(db, birth, g1, s1).Err? <==>
              birth.year !in db || NextTerm(db, birth).None?
  {
    if birth.year in db {
      EarliestAfterSpec(db[birth.year], birth);
    }
  }
}
