/** Cross-checking a chart's year pillar across several sources: the manseryeok engine (its
    result is a parameter, None when it raised), a manual cyclic count from 1984 甲子, a
    table of four hand-checked years, and the stored known cases. The consensus year stem
    and a confidence score in percent are derived from how the sources agree. */
module SajuVerificationSystem {
  import opened Common
  import ManseryeokCalculator

  /** `manual_year_calculation`, with its fix-ups for negative remainders (never taken: the
      remainder of a division by a positive number is never negative). */
  function ManualYear(year: int): (p: (string, string)) {
    var offset := year - 1984;
    var stemIndex := offset % 10;
    var branchIndex := offset % 12;
    var stemIndex' := if stemIndex < 0 then stemIndex + 10 else stemIndex;
    var branchIndex' := if branchIndex < 0 then branchIndex + 12 else branchIndex;
    (Stems[stemIndex'], Branches[branchIndex'])
  }

  /** The manual count is the engine's yearly pillar, for every year. */
  lemma ManualYearIsSaeun(year: int)
    ensures ManualYear(year) == ManseryeokCalculator.Saeun(year)
    ensures ManualYear(year) == (Stems[(year - 1984) % 10], Branches[(year - 1984) % 12])
  {
  }

  /** `web_verification`: four hard-coded years, the manual count otherwise. */
  function WebVerification(year: int): (p: (string, string)) {
    if year == 1900 then ("庚", "子")
    else if year == 1986 then ("丙", "寅")
    else if year == 2000 then ("庚", "辰")
    else if year == 1984 then ("甲", "子")
    else ManualYear(year)
  }

  /** The hard-coded years agree with the manual count, so the two sources never differ. */
  lemma WebAgreesWithManual(year: int)
    ensures WebVerification(year) == ManualYear(year)
  {
    if year == 1900 {
      assert (1900 - 1984) % 10 == 6 && (1900 - 1984) % 12 == 0;
    } else if year == 1986 {
      assert (1986 - 1984) % 10 == 2 && (1986 - 1984) % 12 == 2;
    } else if year == 2000 {
      assert (2000 - 1984) % 10 == 6 && (2000 - 1984) % 12 == 4;
    }
  }

  /** The first entry of each row of `stem_month_table`, by year stem 甲 … 癸; every row lists
      twelve consecutive stems from its first entry. */
  const MonthRowFirst: seq<StemIdx> := [2, 4, 6, 8, 0, 2, 4, 6, 8, 0]

  /** Entry c of year stem s's row: the row's first stem, c stems on. */
  function MonthTableStem(s: StemIdx, c: nat): (i: StemIdx)
    requires c < 12
    ensures i == (2 * s + 2 + c) % 10
  {
    MonthRowFirstFormula(s);
    ManseryeokCalculator.StepMod(2 * s + 2, c);
    (MonthRowFirst[s] + c) % 10
  }

  lemma MonthRowFirstFormula(s: StemIdx)
    ensures MonthRowFirst[s] == (2 * s + 2) % 10
  {
  }

  /** `calculate_month_stem`: the year stem's row (KeyError for anything that is not a stem)
      at position month - 1, read as a Python list index (negative positions count from the
      end, anything else outside the row is an IndexError). */
  function CalculateMonthStem(yearStem: string, month: int): Result<string> {
    match MonthStemPosition(yearStem, month)
    case Ok(i) => Ok(Stems[i])
    case Err(e) => Err(e)
  }

  /** The stem index `calculate_month_stem` reads from the table. */
  function MonthStemPosition(yearStem: string, month: int): Result<StemIdx> {
    match IndexOf(Stems, yearStem)
    case None => Err("KeyError")
    case Some(s) =>
      var i := month - 1;
      if 0 <= i < 12 then Ok(MonthTableStem(s, i))
      else if -12 <= i < 0 then Ok(MonthTableStem(s, i + 12))
      else Err("IndexError")
  }

  /** For a calendar month the table gives stem 2s + m + 1 for year stem s. */
  lemma MonthStemFormula(s: StemIdx, month: int)
    requires 1 <= month <= 12
    ensures CalculateMonthStem(Stems[s], month) == Ok(Stems[(2 * s + month + 1) % 10])
  {
    var c := month - 1;
    assert MonthTableStem(s, c) == (2 * s + month + 1) % 10;
    StemIndexRoundTrip(s);
    var stem := Stems[s];
    assert IndexOf(Stems, stem) == Some(s);
    var r := IndexOf(Stems, stem);
    assert r.value == s;
    assert MonthStemPosition(stem, month) == Ok(MonthTableStem(r.value, month - 1));
  }

  /** A year stem outside the ten raises KeyError; a month outside -11 … 12 raises IndexError;
      months -11 … 0 read the row from its end, as month + 12 does. */
  lemma MonthStemErrors(yearStem: string, month: int)
    ensures CalculateMonthStem(yearStem, month).Ok? <==> yearStem in Stems && -11 <= month <= 12
    ensures yearStem !in Stems ==> CalculateMonthStem(yearStem, month) == Err("KeyError")
    ensures -11 <= month <= 0 ==> CalculateMonthStem(yearStem, month) == CalculateMonthStem(yearStem, month + 12)
  {
  }

  /** Year stems five apart (甲 and 己, 乙 and 庚, …) share a row. */
  lemma MonthStemFiveApart(s: StemIdx, month: int)
    requires 1 <= month <= 12
    ensures CalculateMonthStem(Stems[s], month) == CalculateMonthStem(Stems[(s + 5) % 10], month)
  {
    var t := (s + 5) % 10;
    FiveApartArith(s, month);
    assert (2 * t + month + 1) % 10 == (2 * s + month + 1) % 10;
    MonthStemFormula(s, month);
    MonthStemFormula(t, month);
  }

  lemma FiveApartArith(s: StemIdx, month: int)
    ensures (2 * ((s + 5) % 10) + month + 1) % 10 == (2 * s + month + 1) % 10
  {
    var t := (s + 5) % 10;
    if s >= 5 {
      assert t == s - 5;
      assert 2 * s + month + 1 == (2 * t + month + 1) + 10;
    } else {
      assert t == s + 5;
      assert 2 * t + month + 1 == (2 * s + month + 1) + 10;
    }
  }

  /** The table is the engine's monthly stem of any year with that stem. */
  lemma MonthStemIsWolun(year: int, month: int)
    requires 1 <= month <= 12
    ensures CalculateMonthStem(ManseryeokCalculator.Saeun(year).0, month) ==
              Ok(ManseryeokCalculator.Wolun(year, month).0)
  {
    var y := ManseryeokCalculator.SaeunIndices(year).0;
    var k := ManseryeokCalculator.WolunIndices(year, month).0;
    ManseryeokCalculator.WolunStemFormula(year, month);
    assert ManseryeokCalculator.Wolun(year, month).0 == Stems[k];
    MonthStemOf(ManseryeokCalculator.Saeun(year).0, y, month, ManseryeokCalculator.Wolun(year, month).0);
  }

  lemma MonthStemOf(stem: string, s: StemIdx, month: int, monthStem: string)
    requires stem == Stems[s] && 1 <= month <= 12 && monthStem == Stems[(2 * s + month + 1) % 10]
    ensures CalculateMonthStem(stem, month) == Ok(monthStem)
  {
    MonthStemFormula(s, month);
  }

  /** The month branch of the manual path: the calendar month counted from 子. */
  function ManualMonthBranch(month: int): (b: string)
    ensures b == Branches[(month - 1) % 12]
  {
    var monthBranches := ["子", "丑", "寅", "卯", "辰", "巳", "午", "未", "申", "酉", "戌", "亥"];
    assert monthBranches == Branches;
    monthBranches[(month - 1) % 12]
  }

  /** A stored, hand-checked chart: its birth date, gender and expected year stem. */
  datatype KnownCase = KnownCase(year: int, month: int, day: int, gender: string, yearStem: string, ganzi: string)

  /** `_load_known_cases`. */
  const KnownCases: seq<KnownCase> := [
    KnownCase(1900, 12, 10, "female", "庚", "庚子 戊子 丁巳 丁未"),
    KnownCase(1986, 5, 26, "male", "丙", "丙寅 癸巳 庚午 己卯")]

  /** The stored cases' year stems are the manual count's. */
  lemma KnownCasesAgreeWithManual()
    ensures forall k :: 0 <= k < |KnownCases| ==> KnownCases[k].yearStem == ManualYear(KnownCases[k].year).0
  {
    WebAgreesWithManual(1900);
    WebAgreesWithManual(1986);
  }

  predicate Matches(c: KnownCase, year: int, month: int, day: int, gender: string) {
    c.year == year && c.month == month && c.day == day && c.gender == gender
  }

  /** The first stored case with the birth's date and gender. */
  function FirstKnown(cases: seq<KnownCase>, year: int, month: int, day: int, gender: string): (r: Option<nat>)
    ensures r.Some? ==> r.value < |cases| && Matches(cases[r.value], year, month, day, gender) &&
                        forall k :: 0 <= k < r.value ==> !Matches(cases[k], year, month, day, gender)
    ensures r.None? ==> forall k :: 0 <= k < |cases| ==> !Matches(cases[k], year, month, day, gender)
  {
    if |cases| == 0 then None
    else if Matches(cases[0], year, month, day, gender) then Some(0)
    else match FirstKnown(cases[1..], year, month, day, gender)
      case None => None
      case Some(i) => Some(i + 1)
  }

  /** The stored case for the birth, if any. */
  function KnownCaseFor(cases: seq<KnownCase>, year: int, month: int, day: int, gender: string): Option<KnownCase> {
    match FirstKnown(cases, year, month, day, gender)
    case Some(i) => Some(cases[i])
    case None => None
  }

  /** The scan of `cross_verify_saju` over the stored cases: it stops at the first one with
      the birth's date and gender. */
  method FindKnown(cases: seq<KnownCase>, year: int, month: int, day: int, gender: string) returns (known: Option<KnownCase>)
    ensures known == KnownCaseFor(cases, year, month, day, gender)
  {
    known := None;
    var k := 0;
    while k < |cases|
      invariant 0 <= k <= |cases|
      invariant known.None? && forall j :: 0 <= j < k ==> !Matches(cases[j], year, month, day, gender)
    {
      if Matches(cases[k], year, month, day, gender) {
        known := Some(cases[k]);
        var r := FirstKnown(cases, year, month, day, gender);
        assert r.Some? && r.value == k;
        return;
      }
      k := k + 1;
    }
  }

  /** The manual path's partial chart. */
  datatype ManualResult = ManualResult(yearStem: string, yearBranch: string, monthStem: string, monthBranch: string)

  /** What `cross_verify_saju` returns, with the year-stem sources in the order consulted. */
  datatype Verification = Verification(manual: Option<ManualResult>, web: (string, string), known: Option<KnownCase>,
                                       yearStems: seq<(string, string)>, consensus: string, confidence: int)

  function Manual(year: int, month: int): Option<ManualResult> {
    var (ys, yb) := ManualYear(year);
    match CalculateMonthStem(ys, month)
    case Ok(ms) => Some(ManualResult(ys, yb, ms, ManualMonthBranch(month)))
    case Err(_) => None
  }

  /** The year stems of the sources that produced one, in the order consulted. */
  function YearStems(engine: Option<string>, manual: Option<ManualResult>, web: (string, string),
                     known: Option<KnownCase>): (ys: seq<(string, string)>)
    ensures 2 <= |ys| <= 4 || (engine.None? && manual.None?)
    ensures |ys| >= 1
  {
    (if engine.Some? then [("Manseryeok", engine.value)] else []) +
    (if manual.Some? then [("手動計算", manual.value.yearStem)] else []) +
    [("Web検証", web.0)] +
    (if known.Some? then [("既知ケース", known.value.yearStem)] else [])
  }

  /** The sources agree when the set of their year stems has exactly one element. */
  predicate Unanimous(ys: seq<(string, string)>) {
    |set k | 0 <= k < |ys| :: ys[k].1| == 1
  }

  /** The consensus: the common stem when unanimous; otherwise the known case's, or else the
      first source's (the majority branch also picks the first source). */
  function Consensus(ys: seq<(string, string)>, known: Option<KnownCase>): string
    requires |ys| >= 1
  {
    if Unanimous(ys) then ys[0].1
    else if known.Some? then known.value.yearStem
    else if |ys| >= 2 && ys[0].1 == ys[1].1 then ys[0].1
    else ys[0].1
  }

  /** The confidence: 30 for three or more sources, 40 for a known case, 30 for unanimity. */
  function Confidence(ys: seq<(string, string)>, known: Option<KnownCase>): int {
    (if |ys| >= 3 then 30 else 0) + (if known.Some? then 40 else 0) + (if Unanimous(ys) then 30 else 0)
  }

  /** `cross_verify_saju`; the engine's year stem is a parameter (None when it raised). */
  function CrossVerify(cases: seq<KnownCase>, engine: Option<string>, year: int, month: int, day: int,
                       gender: string): Verification {
    var manual := Manual(year, month);
    var web := WebVerification(year);
    var known := KnownCaseFor(cases, year, month, day, gender);
    var ys := YearStems(engine, manual, web, known);
    Verification(manual, web, known, ys, Consensus(ys, known), Confidence(ys, known))
  }

  /** `cross_verify_saju` step by step: the scan for a known case stops at the first match,
      and the confidence is accumulated factor by factor. */
  method CrossVerifySaju(cases: seq<KnownCase>, engine: Option<string>, year: int, month: int, day: int,
                         gender: string) returns (r: Verification)
    ensures r == CrossVerify(cases, engine, year, month, day, gender)
  {
    var manual := Manual(year, month);
    var web := WebVerification(year);
    var known := FindKnown(cases, year, month, day, gender);
    var ys := YearStems(engine, manual, web, known);
    var consensus := Consensus(ys, known);
    var confidence := 0;
    if |ys| >= 3 {
      confidence := confidence + 30;
    }
    if known.Some? {
      confidence := confidence + 40;
    }
    if Unanimous(ys) {
      confidence := confidence + 30;
    }
    r := Verification(manual, web, known, ys, consensus, confidence);
  }

  /** A set of stems has exactly one element iff every source gave the first source's stem. */
  lemma UnanimousIffAllFirst(ys: seq<(string, string)>)
    requires |ys| >= 1
    ensures Unanimous(ys) <==> forall k :: 0 <= k < |ys| ==> ys[k].1 == ys[0].1
  {
    var st := set k | 0 <= k < |ys| :: ys[k].1;
    assert ys[0].1 in st;
    if forall k :: 0 <= k < |ys| ==> ys[k].1 == ys[0].1 {
      assert st == {ys[0].1};
    } else {
      var k :| 0 <= k < |ys| && ys[k].1 != ys[0].1;
      assert {ys[0].1, ys[k].1} <= st;
      assert |{ys[0].1, ys[k].1}| == 2;
      SubsetCard({ys[0].1, ys[k].1}, st);
    }
  }

  lemma SubsetCard<T>(a: set<T>, b: set<T>)
    requires a <= b
    ensures |a| <= |b|
  {
    assert b == a + (b - a);
  }

  /** For a calendar month the manual path always answers, with the web table's year stem. */
  lemma ManualAlwaysAnswers(year: int, month: int)
    requires 1 <= month <= 12
    ensures Manual(year, month).Some? && Manual(year, month).value.yearStem == WebVerification(year).0
  {
    var s := ManseryeokCalculator.SaeunIndices(year).0;
    ManualYearIsSaeun(year);
    assert ManualYear(year).0 == Stems[s];
    MonthStemFormula(s, month);
    WebAgreesWithManual(year);
  }

  /** Three or more sources exactly when the engine answered or a known case matched; the
      known case is found exactly when one is stored for that date and gender. */
  lemma CrossVerifySources(cases: seq<KnownCase>, engine: Option<string>, year: int, month: int, day: int, gender: string)
    requires 1 <= month <= 12
    ensures var r := CrossVerify(cases, engine, year, month, day, gender);
            (|r.yearStems| >= 3 <==> engine.Some? || r.known.Some?) &&
            (r.known.Some? <==> exists k :: 0 <= k < |cases| && Matches(cases[k], year, month, day, gender))
  {
    ManualAlwaysAnswers(year, month);
  }

  /** The score lies in [0, 100] in steps of ten, is at least 40 with a known case, and is 30
      when only the manual count and the web table answer (they always agree, so that is also
      the consensus). */
  lemma ConfidenceBounds(cases: seq<KnownCase>, engine: Option<string>, year: int, month: int, day: int, gender: string)
    requires 1 <= month <= 12
    ensures var r := CrossVerify(cases, engine, year, month, day, gender);
            0 <= r.confidence <= 100 && r.confidence % 10 == 0 &&
            (r.known.Some? ==> r.confidence >= 40) &&
            (engine.None? && r.known.None? ==> r.confidence == 30 && r.consensus == r.web.0)
  {
    var r := CrossVerify(cases, engine, year, month, day, gender);
    ManualAlwaysAnswers(year, month);
    if engine.None? && r.known.None? {
      assert r.yearStems == [("手動計算", r.web.0), ("Web検証", r.web.0)];
      UnanimousIffAllFirst(r.yearStems);
    }
  }

  /** The consensus is the common stem when the sources agree, the known case's stem when they
      do not and one matched, and the first source's stem otherwise. */
  lemma ConsensusRule(cases: seq<KnownCase>, engine: Option<string>, year: int, month: int, day: int, gender: string)
    ensures var r := CrossVerify(cases, engine, year, month, day, gender);
            (Unanimous(r.yearStems) ==> forall k :: 0 <= k < |r.yearStems| ==> r.yearStems[k].1 == r.consensus) &&
            (!Unanimous(r.yearStems) && r.known.Some? ==> r.consensus == r.known.value.yearStem) &&
            (!Unanimous(r.yearStems) && r.known.None? ==> r.consensus == r.yearStems[0].1)
  {
    var r := CrossVerify(cases, engine, year, month, day, gender);
    UnanimousIffAllFirst(r.yearStems);
  }
}
