/** The backend chart service: the per-year table of the twelve month-starting
    solar terms (stored in Beijing time, served in Korean time), the neighbouring-term
    searches, input validation, and the construction of the major-fortune block list
    from the calendar library's decade pillars. The library's own pillar computation
    is an input here. */
module SajuCalculator {
  import opened Common
  import opened Calendar
  import FortuneAnalyzer

  /** One stored term: its civil reading in Beijing time; `second` may be absent. */
  datatype TermFields = TermFields(month: int, day: int, hour: int, minute: int, second: Option<int>)

  /** The loaded table: year -> term name -> stored fields. */
  type SolarTermsDB = map<int, map<string, TermFields>>

  /** The twelve month-starting terms in the order the forward search scans them. */
  const JieqiOrder: seq<string> :=
    ["立春", "驚蟄", "清明", "立夏", "芒種", "小暑", "立秋", "白露", "寒露", "立冬", "大雪", "小寒"]

  /** The civil reading a stored entry denotes, filed under `year`. */
  function StoredCivil(year: int, f: TermFields): Civil {
    Civil(year, f.month, f.day, f.hour, f.minute, match f.second case Some(s) => s case None => 0)
  }

  /** `get_jieqi_datetime`: the term's instant, read in Korean time. */
  function GetJieqiDatetime(db: SolarTermsDB, year: int, name: string): (r: Result<Moment>)
    ensures r.Ok? <==> 1900 <= year <= 2109 && year in db && db[year] != map[] && name in db[year] &&
                       ValidCivil(StoredCivil(year, db[year][name]))
    ensures r.Ok? ==> r.value.offset == KstOffset &&
                      r.value.utc == CivilSeconds(StoredCivil(year, db[year][name])) - BeijingOffset
  {
    if !(1900 <= year <= 2109) then Err("year out of range")
    else if year !in db || db[year] == map[] then Err("no data for year")
    else if name !in db[year] then Err("no data for term")
    else
      var c := StoredCivil(year, db[year][name]);
      if !ValidCivil(c) then Err("invalid stored date")
      else Ok(AsTimezone(FromCivil(c, BeijingOffset), KstOffset))
  }

  /** Served in Korean time, a stored term's clock reads one hour later than the stored
      Beijing reading, while denoting the same instant. */
  lemma KstReadsOneHourLater(db: SolarTermsDB, year: int, name: string)
    requires GetJieqiDatetime(db, year, name).Ok?
    ensures Local(GetJieqiDatetime(db, year, name).value) == CivilSeconds(StoredCivil(year, db[year][name])) + HourSeconds
  {
  }

  function YearOf(dt: Moment): int {
    CivilOf(dt).year
  }

  /** Term `k` of `names` exists for `year` and lies strictly after `dt`. */
  predicate After(db: SolarTermsDB, year: int, names: seq<string>, k: nat, dt: Moment)
    requires k < |names|
  {
    var t := GetJieqiDatetime(db, year, names[k]);
    t.Ok? && t.value.utc > dt.utc
  }

  /** Term `k` of `names` exists for `year` and lies strictly before `dt`. */
  predicate Before(db: SolarTermsDB, year: int, names: seq<string>, k: nat, dt: Moment)
    requires k < |names|
  {
    var t := GetJieqiDatetime(db, year, names[k]);
    t.Ok? && t.value.utc < dt.utc
  }

  /** The first position from `k` on whose term lies strictly after `dt`. */
  function FirstAfter(db: SolarTermsDB, year: int, names: seq<string>, k: nat, dt: Moment): (r: Option<nat>)
    requires k <= |names|
    decreases |names| - k
    ensures r.Some? ==> k <= r.value < |names| && After(db, year, names, r.value, dt) &&
                        forall j :: k <= j < r.value ==> !After(db, year, names, j, dt)
    ensures r.None? ==> forall j :: k <= j < |names| ==> !After(db, year, names, j, dt)
  {
    if k == |names| then None
    else if After(db, year, names, k, dt) then Some(k)
    else FirstAfter(db, year, names, k + 1, dt)
  }

  /** The first position from `k` on whose term lies strictly before `dt`. */
  function FirstBefore(db: SolarTermsDB, year: int, names: seq<string>, k: nat, dt: Moment): (r: Option<nat>)
    requires k <= |names|
    decreases |names| - k
    ensures r.Some? ==> k <= r.value < |names| && Before(db, year, names, r.value, dt) &&
                        forall j :: k <= j < r.value ==> !Before(db, year, names, j, dt)
    ensures r.None? ==> forall j :: k <= j < |names| ==> !Before(db, year, names, j, dt)
  {
    if k == |names| then None
    else if Before(db, year, names, k, dt) then Some(k)
    else FirstBefore(db, year, names, k + 1, dt)
  }

  /** The order the backward search scans: exactly `JieqiOrder` reversed. */
  const JieqiReverseOrder: seq<string> :=
    ["小寒", "大雪", "立冬", "寒露", "白露", "立秋", "小暑", "芒種", "立夏", "清明", "驚蟄", "立春"]

  lemma ReverseOrderIsReversed()
    ensures |JieqiReverseOrder| == |JieqiOrder| == 12
    ensures forall i :: 0 <= i < 12 ==> JieqiReverseOrder[i] == JieqiOrder[11 - i]
  {
  }

  /** What `get_next_jieqi` returns: the first term of dt's year, in 立春…小寒 order, strictly
      after dt; otherwise next year's 立春; otherwise an error. */
  function NextJieqi(db: SolarTermsDB, dt: Moment): Result<(string, Moment)> {
    NextJieqiOfYear(db, YearOf(dt), dt)
  }

  /** The next term of `dt` searched among the terms of `year`, then next year's 立春. */
  function NextJieqiOfYear(db: SolarTermsDB, year: int, dt: Moment): Result<(string, Moment)> {
    match FirstAfter(db, year, JieqiOrder, 0, dt)
    case Some(k) => Ok((JieqiOrder[k], GetJieqiDatetime(db, year, JieqiOrder[k]).value))
    case None =>
      var t := GetJieqiDatetime(db, year + 1, "立春");
      if t.Ok? then Ok(("立春", t.value)) else Err("next term not found")
  }

  /** What `get_previous_jieqi` returns: the first term of dt's year, in 小寒…立春 order, strictly
      before dt; otherwise the previous year's 小寒; otherwise an error. */
  function PreviousJieqi(db: SolarTermsDB, dt: Moment): Result<(string, Moment)> {
    PreviousJieqiOfYear(db, YearOf(dt), dt)
  }

  /** The previous term of `dt` searched among the terms of `year`, then last year's 小寒. */
  function PreviousJieqiOfYear(db: SolarTermsDB, year: int, dt: Moment): Result<(string, Moment)> {
    var names := JieqiReverseOrder;
    match FirstBefore(db, year, names, 0, dt)
    case Some(k) => Ok((names[k], GetJieqiDatetime(db, year, names[k]).value))
    case None =>
      var t := GetJieqiDatetime(db, year - 1, "小寒");
      if t.Ok? then Ok(("小寒", t.value)) else Err("previous term not found")
  }

  /** The scan of `get_next_jieqi`; a term whose lookup fails is skipped. */
  method GetNextJieqi(db: SolarTermsDB, dt: Moment) returns (r: Result<(string, Moment)>)
    ensures r == NextJieqi(db, dt)
  {
    var year := YearOf(dt);
    var found, name, t := ScanAfter(db, year, JieqiOrder, dt);
    if found {
      r := Ok((name, t));
    } else {
      var next := GetJieqiDatetime(db, year + 1, "立春");
      if next.Ok? {
        r := Ok(("立春", next.value));
      } else {
        r := Err("next term not found");
      }
    }
    assert r == NextJieqiOfYear(db, year, dt);
  }

  /** The loop of `get_next_jieqi` over the terms `names` of one year: the first whose lookup
      succeeds with an instant strictly after `dt`. */
  method ScanAfter(db: SolarTermsDB, year: int, names: seq<string>, dt: Moment) returns (found: bool, name: string, t: Moment)
    ensures var f := FirstAfter(db, year, names, 0, dt);
            (found <==> f.Some?) &&
            (found ==> name == names[f.value] && t == GetJieqiDatetime(db, year, names[f.value]).value)
  {
    var i := 0;
    while i < |names|
      invariant 0 <= i <= |names|
      invariant FirstAfter(db, year, names, 0, dt) == FirstAfter(db, year, names, i, dt)
    {
      var term := GetJieqiDatetime(db, year, names[i]);
      if term.Ok? && term.value.utc > dt.utc {
        assert FirstAfter(db, year, names, i, dt) == Some(i);
        return true, names[i], term.value;
      }
      i := i + 1;
    }
    return false, "", dt;
  }

  /** The scan of `get_previous_jieqi`, over the reversed order. */
  method GetPreviousJieqi(db: SolarTermsDB, dt: Moment) returns (r: Result<(string, Moment)>)
    ensures r == PreviousJieqi(db, dt)
  {
    var year := YearOf(dt);
    var found, name, t := ScanBefore(db, year, JieqiReverseOrder, dt);
    if found {
      r := Ok((name, t));
    } else {
      var previous := GetJieqiDatetime(db, year - 1, "小寒");
      if previous.Ok? {
        r := Ok(("小寒", previous.value));
      } else {
        r := Err("previous term not found");
      }
    }
    assert r == PreviousJieqiOfYear(db, year, dt);
  }

  /** The loop of `get_previous_jieqi` over the terms `names` of one year: the first whose
      lookup succeeds with an instant strictly before `dt`. */
  method ScanBefore(db: SolarTermsDB, year: int, names: seq<string>, dt: Moment) returns (found: bool, name: string, t: Moment)
    ensures var f := FirstBefore(db, year, names, 0, dt);
            (found <==> f.Some?) &&
            (found ==> name == names[f.value] && t == GetJieqiDatetime(db, year, names[f.value]).value)
  {
    var i := 0;
    while i < |names|
      invariant 0 <= i <= |names|
      invariant FirstBefore(db, year, names, 0, dt) == FirstBefore(db, year, names, i, dt)
    {
      var term := GetJieqiDatetime(db, year, names[i]);
      if term.Ok? && term.value.utc < dt.utc {
        assert FirstBefore(db, year, names, i, dt) == Some(i);
        return true, names[i], term.value;
      }
      i := i + 1;
    }
    return false, "", dt;
  }

  /** A term found in dt's own year is strictly after dt, and every earlier-listed term of that
      year is missing or not after dt; the fallback is used only when no term of the year qualifies. */
  lemma NextJieqiIsFirstStrictlyAfter(db: SolarTermsDB, dt: Moment)
    requires NextJieqi(db, dt).Ok?
    ensures var (name, m) := NextJieqi(db, dt).value;
      (exists k :: 0 <= k < 12 && name == JieqiOrder[k] &&
         GetJieqiDatetime(db, YearOf(dt), name) == Ok(m) && m.utc > dt.utc &&
         forall j :: 0 <= j < k ==> !After(db, YearOf(dt), JieqiOrder, j, dt))
      || ((forall j :: 0 <= j < 12 ==> !After(db, YearOf(dt), JieqiOrder, j, dt)) &&
          name == "立春" && GetJieqiDatetime(db, YearOf(dt) + 1, "立春") == Ok(m))
  {
    var year := YearOf(dt);
    match FirstAfter(db, year, JieqiOrder, 0, dt)
    case Some(k) =>
    case None =>
  }

  /** A term of dt's own year that falls exactly on dt is never the answer of either search:
      both comparisons are strict. */
  lemma ExactInstantIsSkipped(db: SolarTermsDB, dt: Moment, name: string, m: Moment)
    requires GetJieqiDatetime(db, YearOf(dt), name) == Ok(m) && m.utc == dt.utc
    ensures NextJieqi(db, dt).Ok? && NextJieqi(db, dt).value.1.utc == dt.utc ==>
              FirstAfter(db, YearOf(dt), JieqiOrder, 0, dt).None?
    ensures PreviousJieqi(db, dt).Ok? && PreviousJieqi(db, dt).value.1.utc == dt.utc ==>
              FirstBefore(db, YearOf(dt), JieqiReverseOrder, 0, dt).None?
  {
  }

  /** `_validate_input`: years 1900–2109 and gender 'male' or 'female' only. */
  function ValidateInput(year: int, gender: string): (r: Result<()>)
    ensures r.Ok? <==> 1900 <= year <= 2109 && (gender == "male" || gender == "female")
  {
    if !(1900 <= year <= 2109) then Err("year out of range")
    else if gender !in ["male", "female"] then Err("invalid gender")
    else Ok(())
  }

  /** An input datetime: naive (no tzinfo) or aware. */
  datatype InputDatetime = Naive(civil: Civil) | Aware(moment: Moment)

  /** `_to_kst`: a naive reading is taken as Korean time; an aware one is converted. */
  function ToKst(dt: InputDatetime): (r: Moment)
    ensures r.offset == KstOffset
    ensures dt.Naive? ==> Local(r) == CivilSeconds(dt.civil)
    ensures dt.Aware? ==> r.utc == dt.moment.utc
  {
    match dt
    case Naive(c) => FromCivil(c, KstOffset)
    case Aware(m) => AsTimezone(m, KstOffset)
  }

  /** The birthday of `birth` in its (a)-th year has been reached on `today`. */
  predicate BirthdayReached(today: Civil, birth: Civil, a: int) {
    !(today.year < birth.year + a ||
      (today.year == birth.year + a && PairLess(today.month, today.day, birth.month, birth.day)))
  }

  /** `_calculate_current_age`: completed years, floored at 0. */
  function CurrentAge(today: Civil, birth: Civil): (r: int)
    ensures r >= 0
    ensures r == 0 || BirthdayReached(today, birth, r)
    ensures !BirthdayReached(today, birth, r + 1)
    ensures r == 0 ==> !BirthdayReached(today, birth, 1)
  {
    var age := today.year - birth.year;
    var age' := if PairLess(today.month, today.day, birth.month, birth.day) then age - 1 else age;
    if age' > 0 then age' else 0
  }

  /** One decade block of the chart response. */
  datatype DaeunBlock = DaeunBlock(id: int, startAge: int, endAge: int, stem: string, branch: string,
                                   fortuneLevel: string, isCurrent: bool)

  /** The natal inputs of the fortune analysis of a block. */
  datatype Natal = Natal(dayStem: string, dayBranch: string, monthBranch: string, hourStem: string, hourBranch: string)

  /** Number of blocks built: library entries 1.. (entry 0 is skipped), at most ten. */
  function BlockCount(n: nat): (r: nat)
    ensures r <= 10 && (n >= 11 ==> r == 10) && (1 <= n <= 11 ==> r == n - 1) && (n == 0 ==> r == 0)
  {
    if n <= 1 then 0 else if n - 1 < 10 then n - 1 else 10
  }

  /** The block the loop builds for index `idx` from the library's pillar string. */
  function BlockAt(an: FortuneAnalyzer.Analyzer, natal: Natal, startYear: int, idx: int, ganZhi: string,
                   currentAge: int): DaeunBlock
  {
    var startAge := startYear + idx * 10;
    var stem := if |ganZhi| >= 1 then ganZhi[..1] else "";
    var branch := if |ganZhi| >= 2 then ganZhi[1..2] else "";
    DaeunBlock(idx + 1, startAge, startAge + 9, stem, branch,
               FortuneAnalyzer.AnalyzeDaeunFortune(an, natal.dayStem, natal.dayBranch, natal.hourStem,
                                                   natal.hourBranch, natal.monthBranch, stem, branch),
               startAge <= currentAge <= startAge + 9)
  }

  /** The block maker of one chart: index and library pillar string to block. */
  function Maker(an: FortuneAnalyzer.Analyzer, natal: Natal, startYear: int, currentAge: int): (int, string) -> DaeunBlock {
    (idx, ganZhi) => BlockAt(an, natal, startYear, idx, ganZhi, currentAge)
  }

  /** The first n blocks of the decade list: block i made from library entry i + 1. */
  function BlocksUpTo(make: (int, string) -> DaeunBlock, daYun: seq<string>, n: nat): (bs: seq<DaeunBlock>)
    requires n < |daYun|
    ensures |bs| == n
  {
    if n == 0 then [] else BlocksUpTo(make, daYun, n - 1) + [make(n - 1, daYun[n])]
  }

  /** The decade blocks `_calculate_daeun` builds: library entries 1 to 10, as far as they go. */
  function DaeunBlocks(an: FortuneAnalyzer.Analyzer, natal: Natal, startYear: int, daYun: seq<string>,
                       currentAge: int): seq<DaeunBlock>
  {
    if |daYun| == 0 then [] else BlocksUpTo(Maker(an, natal, startYear, currentAge), daYun, BlockCount(|daYun|))
  }

  /** The block loop of `_calculate_daeun`. */
  method CalculateDaeunBlocks(an: FortuneAnalyzer.Analyzer, natal: Natal, startYear: int,
                              daYun: seq<string>, currentAge: int) returns (blocks: seq<DaeunBlock>)
    ensures blocks == DaeunBlocks(an, natal, startYear, daYun, currentAge)
  {
    ghost var make := Maker(an, natal, startYear, currentAge);
    blocks := [];
    var idx := 0;
    while idx < 10
      invariant 0 <= idx <= 10
      invariant idx <= BlockCount(|daYun|) && (|daYun| > 0 ==> idx < |daYun|)
      invariant |daYun| > 0 ==> blocks == BlocksUpTo(make, daYun, idx)
      invariant |daYun| == 0 ==> blocks == []
    {
      if idx + 1 >= |daYun| {
        break;
      }
      assert make(idx, daYun[idx + 1]) == BlockAt(an, natal, startYear, idx, daYun[idx + 1], currentAge);
      blocks := blocks + [BlockAt(an, natal, startYear, idx, daYun[idx + 1], currentAge)];
      idx := idx + 1;
    }
  }

  /** Block i of the prefix is made from library entry i + 1. */
  lemma {:induction false} BlocksUpToAt(make: (int, string) -> DaeunBlock, daYun: seq<string>, n: nat, i: nat)
    requires n < |daYun| && i < n
    ensures BlocksUpTo(make, daYun, n)[i] == make(i, daYun[i + 1])
  {
    if i < n - 1 {
      BlocksUpToAt(make, daYun, n - 1, i);
    }
  }

  /** The decade list holds up to ten blocks, block i built from library entry i + 1, numbered
      i + 1 and covering ages startYear + 10i to startYear + 10i + 9; the blocks are contiguous,
      each is current exactly when the age lies in its range, and at most one is current. */
  lemma DaeunBlocksShape(an: FortuneAnalyzer.Analyzer, natal: Natal, startYear: int, daYun: seq<string>,
                         currentAge: int)
    ensures var blocks := DaeunBlocks(an, natal, startYear, daYun, currentAge);
            |blocks| == BlockCount(|daYun|) &&
            (forall i :: 0 <= i < |blocks| ==> blocks[i] == BlockAt(an, natal, startYear, i, daYun[i + 1], currentAge)) &&
            (forall i :: 0 <= i < |blocks| ==>
               blocks[i].id == i + 1 && blocks[i].startAge == startYear + 10 * i &&
               blocks[i].endAge == blocks[i].startAge + 9 &&
               (blocks[i].isCurrent <==> blocks[i].startAge <= currentAge <= blocks[i].endAge)) &&
            (forall i :: 0 <= i < |blocks| - 1 ==> blocks[i].endAge + 1 == blocks[i + 1].startAge) &&
            (forall i, j :: 0 <= i < j < |blocks| && blocks[i].isCurrent ==> !blocks[j].isCurrent)
  {
    var blocks := DaeunBlocks(an, natal, startYear, daYun, currentAge);
    forall i | 0 <= i < |blocks|
      ensures blocks[i] == BlockAt(an, natal, startYear, i, daYun[i + 1], currentAge)
      ensures blocks[i].id == i + 1 && blocks[i].startAge == startYear + 10 * i &&
              blocks[i].endAge == blocks[i].startAge + 9 &&
              (blocks[i].isCurrent <==> blocks[i].startAge <= currentAge <= blocks[i].endAge)
    {
      BlocksUpToAt(Maker(an, natal, startYear, currentAge), daYun, BlockCount(|daYun|), i);
      BlockAtShape(an, natal, startYear, i, daYun[i + 1], currentAge);
    }
  }

  /** The numbering, age range and current flag of a block. */
  lemma BlockAtShape(an: FortuneAnalyzer.Analyzer, natal: Natal, startYear: int, idx: int, ganZhi: string,
                     currentAge: int)
    ensures var b := BlockAt(an, natal, startYear, idx, ganZhi, currentAge);
            b.id == idx + 1 && b.startAge == startYear + 10 * idx && b.endAge == b.startAge + 9 &&
            (b.isCurrent <==> b.startAge <= currentAge <= b.endAge)
  {
  }
}
