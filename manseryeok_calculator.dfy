/** The manseryeok engine: year ("saeun") and month ("wolun") pillars by cyclic
    arithmetic, the hour pillar from the civil hour and the day stem, the solar-term
    instant of a year and longitude (stored table first, fixed estimate otherwise),
    the neighbouring-term scans over the 24 terms, and the eight-block major fortune. */
module ManseryeokCalculator {
  import opened Common
  import opened Calendar

  /** Stored table: year -> term name -> entry fields ("day", "hour", "minute", optional "second"). */
  type TermDB = map<int, map<string, map<string, int>>>

  /** The 24 terms with their ecliptic longitudes (whole degrees), in the order scanned. */
  const SolarTerms: seq<(string, int)> := [
    ("입춘", 315), ("우수", 330), ("경칩", 345), ("춘분", 0),
    ("청명", 15), ("곡우", 30), ("입하", 45), ("소만", 60),
    ("망종", 75), ("하지", 90), ("소서", 105), ("대서", 120),
    ("입추", 135), ("처서", 150), ("백로", 165), ("추분", 180),
    ("한로", 195), ("상강", 210), ("입동", 225), ("소설", 240),
    ("대설", 255), ("동지", 270), ("소한", 285), ("대한", 300)]

  /** Which stored month-starting term stands in for each longitude. */
  const LongitudeToTerm: map<int, string> := map[
    315 := "立春", 330 := "驚蟄", 345 := "驚蟄", 0 := "清明", 15 := "清明", 30 := "立夏",
    45 := "立夏", 60 := "芒種", 75 := "芒種", 90 := "小暑", 105 := "小暑", 120 := "立秋",
    135 := "立秋", 150 := "白露", 165 := "白露", 180 := "寒露", 195 := "寒露", 210 := "立冬",
    225 := "立冬", 240 := "大雪", 255 := "大雪", 270 := "小寒", 285 := "小寒", 300 := "立春"]

  const TermMonth: map<string, int> := map[
    "立春" := 2, "驚蟄" := 3, "清明" := 4, "立夏" := 5, "芒種" := 6, "小暑" := 7,
    "立秋" := 8, "白露" := 9, "寒露" := 10, "立冬" := 11, "大雪" := 12, "小寒" := 1]

  /** `_get_solar_term_from_db`: the stored instant in Korean time; 小寒 is dated in January of
      the following year. Any missing key or impossible date is an error. */
  function TermFromDb(db: TermDB, year: int, lon: int): (r: Result<Moment>)
  {
    if lon !in LongitudeToTerm || year !in db then Err("no stored term")
    else
      var name := LongitudeToTerm[lon];
      if name !in db[year] then Err("no stored term")
      else
        var f := db[year][name];
        if "day" !in f || "hour" !in f || "minute" !in f then Err("KeyError")
        else
          var c := Civil(if name == "小寒" then year + 1 else year, TermMonth[name], f["day"], f["hour"],
                         f["minute"], if "second" in f then f["second"] else 0);
          if !ValidCivil(c) then Err("invalid date") else Ok(FromCivil(c, KstOffset))
  }

  /** The fixed (month, day) estimates per longitude. */
  const Estimates: map<int, (int, int)> := map[
    315 := (2, 4), 330 := (2, 19), 345 := (3, 6), 0 := (3, 21), 15 := (4, 5), 30 := (4, 20),
    45 := (5, 6), 60 := (5, 21), 75 := (6, 6), 90 := (6, 21), 105 := (7, 7), 120 := (7, 23),
    135 := (8, 7), 150 := (8, 23), 165 := (9, 8), 180 := (9, 23), 195 := (10, 8), 210 := (10, 23),
    225 := (11, 7), 240 := (11, 22), 255 := (12, 7), 270 := (12, 22), 285 := (1, 6), 300 := (1, 20)]

  /** `_get_estimated_solar_term` as a civil reading in Korean time. */
  function EstimateCivil(year: int, lon: int): (c: Civil)
    ensures c.hour == 12 && c.minute == 0 && c.second == 0
    ensures lon !in Estimates ==> c == Civil(year, 6, 15, 12, 0, 0)
    ensures lon in Estimates ==> (c.month, c.day) == Estimates[lon]
    ensures c.year == if lon == 285 || lon == 300 then year + 1 else year
  {
    if lon in Estimates then
      var (m, d) := Estimates[lon];
      Civil(if lon == 285 || lon == 300 then year + 1 else year, m, d, 12, 0, 0)
    else Civil(year, 6, 15, 12, 0, 0)
  }

  function EstimatedTerm(year: int, lon: int): Moment {
    FromCivil(EstimateCivil(year, lon), KstOffset)
  }

  /** `_calculate_solar_term_time`: the stored instant when the year is in the table and the
      lookup succeeds; the estimate otherwise (every failure falls back silently). */
  function SolarTermTime(db: TermDB, year: int, lon: int): Moment {
    if year in db && TermFromDb(db, year, lon).Ok? then TermFromDb(db, year, lon).value
    else EstimatedTerm(year, lon)
  }

  /** `_calculate_solar_term_time` step by step: the table is consulted only when it holds the
      year, and a failed lookup falls back to the estimate. */
  method CalculateSolarTermTime(db: TermDB, year: int, lon: int) returns (t: Moment)
    ensures t == SolarTermTime(db, year, lon)
  {
    if year in db {
      var stored := TermFromDb(db, year, lon);
      if stored.Ok? {
        return stored.value;
      }
    }
    t := EstimatedTerm(year, lon);
  }

  /** A stored entry succeeds only for a mapped longitude whose term the year holds, and is
      read in Korean time; 小寒 is dated in January of the following year. */
  lemma TermFromDbShape(db: TermDB, year: int, lon: int)
    ensures TermFromDb(db, year, lon).Ok? ==>
              lon in LongitudeToTerm && year in db && LongitudeToTerm[lon] in db[year] &&
              TermFromDb(db, year, lon).value.offset == KstOffset
    ensures TermFromDb(db, year, lon).Ok? && lon in LongitudeToTerm && LongitudeToTerm[lon] == "小寒" ==>
              (exists c: Civil :: c.year == year + 1 && c.month == 1 &&
                 TermFromDb(db, year, lon).value == FromCivil(c, KstOffset))
  {
  }

  /** The stored instant wins whenever its lookup succeeds; any failure, including a year
      absent from the table, yields the estimate. */
  lemma SolarTermTimeFallback(db: TermDB, year: int, lon: int)
    ensures SolarTermTime(db, year, lon).offset == KstOffset
    ensures year !in db ==> SolarTermTime(db, year, lon) == EstimatedTerm(year, lon)
    ensures TermFromDb(db, year, lon).Ok? ==> SolarTermTime(db, year, lon) == TermFromDb(db, year, lon).value
    ensures TermFromDb(db, year, lon).Err? ==> SolarTermTime(db, year, lon) == EstimatedTerm(year, lon)
  {
    TermFromDbShape(db, year, lon);
  }

  /** The instants of the 24 listed terms of one year, in table order. */
  function TermTimes(db: TermDB, year: int): (ts: seq<Moment>)
    ensures |ts| == |SolarTerms|
    ensures forall k :: 0 <= k < |SolarTerms| ==> ts[k] == SolarTermTime(db, year, SolarTerms[k].1)
  {
    seq(|SolarTerms|, k requires 0 <= k < |SolarTerms| => SolarTermTime(db, year, SolarTerms[k].1))
  }

  /** First index from `k` upward whose instant is strictly after `dt`. */
  function FirstAfter(ts: seq<Moment>, k: nat, dt: Moment): (r: Option<nat>)
    requires k <= |ts|
    decreases |ts| - k
    ensures r.Some? ==> k <= r.value < |ts| && ts[r.value].utc > dt.utc &&
                        forall j :: k <= j < r.value ==> ts[j].utc <= dt.utc
    ensures r.None? ==> forall j :: k <= j < |ts| ==> ts[j].utc <= dt.utc
  {
    if k == |ts| then None
    else if ts[k].utc > dt.utc then Some(k)
    else FirstAfter(ts, k + 1, dt)
  }

  /** Last index below `k` (scanning downward) whose instant is strictly before `dt`. */
  function LastBefore(ts: seq<Moment>, k: nat, dt: Moment): (r: Option<nat>)
    requires k <= |ts|
    ensures r.Some? ==> r.value < k && ts[r.value].utc < dt.utc &&
                        forall j :: r.value < j < k ==> ts[j].utc >= dt.utc
    ensures r.None? ==> forall j :: 0 <= j < k ==> ts[j].utc >= dt.utc
  {
    if k == 0 then None
    else if ts[k - 1].utc < dt.utc then Some(k - 1)
    else LastBefore(ts, k - 1, dt)
  }

  function YearOf(dt: Moment): int {
    CivilOf(dt).year
  }

  /** What `_get_next_solar_term` returns: the first of the 24 terms of dt's year, in table order,
      strictly after dt; otherwise the following year's 입춘 (315°). */
  function NextSolarTerm(db: TermDB, dt: Moment): Moment {
    NextTermOfYear(db, YearOf(dt), dt)
  }

  /** The first term of `year` strictly after `dt`, or the 입춘 of the following year. */
  function NextTermOfYear(db: TermDB, year: int, dt: Moment): Moment {
    NextAmong(TermTimes(db, year), dt, SolarTermTime(db, year + 1, 315))
  }

  /** The first of `ts` strictly after `dt`, or `fallback` when there is none. */
  function NextAmong(ts: seq<Moment>, dt: Moment, fallback: Moment): Moment {
    match FirstAfter(ts, 0, dt)
    case Some(k) => ts[k]
    case None => fallback
  }

  /** What `_get_previous_solar_term` returns: scanning the table backwards, the first term of
      dt's year strictly before dt; otherwise the previous year's 대한 (300°). */
  function PreviousSolarTerm(db: TermDB, dt: Moment): Moment {
    PreviousTermOfYear(db, YearOf(dt), dt)
  }

  /** The last term of `year` strictly before `dt`, or the 대한 of the previous year. */
  function PreviousTermOfYear(db: TermDB, year: int, dt: Moment): Moment {
    PreviousAmong(TermTimes(db, year), dt, SolarTermTime(db, year - 1, 300))
  }

  /** The last of `ts` strictly before `dt`, or `fallback` when there is none. */
  function PreviousAmong(ts: seq<Moment>, dt: Moment, fallback: Moment): Moment {
    match LastBefore(ts, |ts|, dt)
    case Some(k) => ts[k]
    case None => fallback
  }

  method GetNextSolarTerm(db: TermDB, dt: Moment) returns (t: Moment)
    ensures t == NextSolarTerm(db, dt)
  {
    var year := YearOf(dt);
    ghost var ts := TermTimes(db, year);
    ghost var r := FirstAfter(ts, 0, dt);
    var found;
    found, t := ScanForward(db, year, dt, ts);
    if !found {
      t := CalculateSolarTermTime(db, year + 1, 315);
      assert r.None? && t == SolarTermTime(db, year + 1, 315);
    } else {
      assert r.Some? && t == ts[r.value];
    }
    assert t == NextTermOfYear(db, year, dt);
  }

  /** The forward loop of `_get_next_solar_term` over the terms of one year, whose instants
      are `ts`. */
  method ScanForward(db: TermDB, year: int, dt: Moment, ghost ts: seq<Moment>) returns (found: bool, t: Moment)
    requires |ts| == |SolarTerms|
    requires forall k :: 0 <= k < |SolarTerms| ==> ts[k] == SolarTermTime(db, year, SolarTerms[k].1)
    ensures var r := FirstAfter(ts, 0, dt);
            (found <==> r.Some?) && (found ==> t == ts[r.value])
  {
    var i := 0;
    while i < |SolarTerms|
      invariant 0 <= i <= |SolarTerms|
      invariant FirstAfter(ts, 0, dt) == FirstAfter(ts, i, dt)
    {
      var termTime := CalculateSolarTermTime(db, year, SolarTerms[i].1);
      assert termTime == ts[i];
      FirstAfterStep(ts, i, dt);
      if termTime.utc > dt.utc {
        return true, termTime;
      }
      i := i + 1;
    }
    return false, dt;
  }

  method GetPreviousSolarTerm(db: TermDB, dt: Moment) returns (t: Moment)
    ensures t == PreviousSolarTerm(db, dt)
  {
    var year := YearOf(dt);
    ghost var ts := TermTimes(db, year);
    ghost var r := LastBefore(ts, |ts|, dt);
    var found;
    found, t := ScanBackward(db, year, dt, ts);
    if !found {
      t := CalculateSolarTermTime(db, year - 1, 300);
      assert r.None? && t == SolarTermTime(db, year - 1, 300);
    } else {
      assert r.Some? && t == ts[r.value];
    }
    assert t == PreviousTermOfYear(db, year, dt);
  }

  /** The backward loop of `_get_previous_solar_term` over the terms of one year, whose
      instants are `ts`. */
  method ScanBackward(db: TermDB, year: int, dt: Moment, ghost ts: seq<Moment>) returns (found: bool, t: Moment)
    requires |ts| == |SolarTerms|
    requires forall k :: 0 <= k < |SolarTerms| ==> ts[k] == SolarTermTime(db, year, SolarTerms[k].1)
    ensures var r := LastBefore(ts, |ts|, dt);
            (found <==> r.Some?) && (found ==> t == ts[r.value])
  {
    var i := |SolarTerms|;
    while i > 0
      invariant 0 <= i <= |SolarTerms|
      invariant LastBefore(ts, |ts|, dt) == LastBefore(ts, i, dt)
    {
      var termTime := CalculateSolarTermTime(db, year, SolarTerms[i - 1].1);
      assert termTime == ts[i - 1];
      LastBeforeStep(ts, i, dt);
      if termTime.utc < dt.utc {
        ghost var r := LastBefore(ts, |ts|, dt);
        assert r == Some(i - 1);
        found, t := true, termTime;
        assert t == ts[r.value];
        return;
      }
      i := i - 1;
    }
    assert LastBefore(ts, |ts|, dt) == None;
    return false, dt;
  }

  /** One step of the forward scan: a hit at `k` or the scan from `k + 1`. */
  lemma FirstAfterStep(ts: seq<Moment>, k: nat, dt: Moment)
    requires k < |ts|
    ensures FirstAfter(ts, k, dt) == if ts[k].utc > dt.utc then Some(k) else FirstAfter(ts, k + 1, dt)
  {
  }

  /** One step of the backward scan: a hit at `k - 1` or the scan below it. */
  lemma LastBeforeStep(ts: seq<Moment>, k: nat, dt: Moment)
    requires 0 < k <= |ts|
    ensures LastBefore(ts, k, dt) == if ts[k - 1].utc < dt.utc then Some(k - 1) else LastBefore(ts, k - 1, dt)
  {
  }

  /** The scans never return a term of dt's own year that coincides with dt. */
  lemma NeighbourTermsAreStrict(db: TermDB, dt: Moment)
    ensures FirstAfter(TermTimes(db, YearOf(dt)), 0, dt).Some? ==> NextSolarTerm(db, dt).utc > dt.utc
    ensures LastBefore(TermTimes(db, YearOf(dt)), |SolarTerms|, dt).Some? ==> PreviousSolarTerm(db, dt).utc < dt.utc
  {
  }

  /** The "three days make one year" rule on whole days, never below 1. */
  function StartAgeFromDays(days: nat): (r: int)
    ensures r >= 1
    ensures days >= 3 ==> 3 * r <= days < 3 * r + 3
    ensures days < 6 ==> r == 1
  {
    if days / 3 > 1 then days / 3 else 1
  }

  lemma StartAgeMonotone(d1: nat, d2: nat)
    requires d1 <= d2
    ensures StartAgeFromDays(d1) <= StartAgeFromDays(d2)
  {
  }

  /** `_calculate_daeun_start_age`: whole days between birth and the neighbouring term in the
      direction of travel (`abs(...).days`), divided by three, at least 1. */
  function DaeunStartAge(db: TermDB, birth: Moment, direction: int): (r: int)
    ensures r >= 1
    ensures var t := if direction == 1 then NextSolarTerm(db, birth) else PreviousSolarTerm(db, birth);
            var gap := if t.utc >= birth.utc then t.utc - birth.utc else birth.utc - t.utc;
            gap < 6 * DaySeconds ==> r == 1
  {
    var t := if direction == 1 then NextSolarTerm(db, birth) else PreviousSolarTerm(db, birth);
    var gap := if t.utc >= birth.utc then t.utc - birth.utc else birth.utc - t.utc;
    StartAgeFromDays(gap / DaySeconds)
  }

  /** One decade of the major fortune. */
  datatype DaeunInfo = DaeunInfo(ageStart: int, ageEnd: int, stem: string, branch: string, ganzhi: string)

  /** +1 (forward) iff a yang year stem with a male or a yin year stem with a female. */
  function Direction(yearStemIdx: StemIdx, gender: string): (d: int)
    ensures d == 1 || d == -1
    ensures d == 1 <==> (IsYang(yearStemIdx) && gender == "male") || (!IsYang(yearStemIdx) && gender == "female")
  {
    if (yearStemIdx % 2 == 0 && gender == "male") || (yearStemIdx % 2 != 0 && gender == "female") then 1 else -1
  }

  /** The natal chart fields the engine reads. */
  datatype Chart = Chart(yearStem: string, monthStem: string, monthBranch: string, birth: Moment)

  /** Stem and branch indices of decade i: the month pillar moved i + 1 steps. */
  function BlockIndices(ms: StemIdx, mb: BranchIdx, direction: int, i: int): (StemIdx, BranchIdx) {
    ((ms + (i + 1) * direction) % 10, (mb + (i + 1) * direction) % 12)
  }

  function Block(startAge: int, ms: StemIdx, mb: BranchIdx, direction: int, i: int): (d: DaeunInfo)
    ensures d.ageEnd == d.ageStart + 9 && d.ganzhi == d.stem + d.branch
  {
    var (si, bi) := BlockIndices(ms, mb, direction, i);
    DaeunInfo(startAge + i * 10, startAge + i * 10 + 9, Stems[si], Branches[bi], Stems[si] + Branches[bi])
  }

  /** `calculate_daeun`: eight decades after the start age, each advancing the month pillar one
      more step in the direction of travel. A stem or branch outside the alphabets raises. */
  method CalculateDaeun(db: TermDB, chart: Chart, gender: string) returns (r: Result<seq<DaeunInfo>>)
    ensures r.Err? <==> chart.yearStem !in Stems || chart.monthStem !in Stems || chart.monthBranch !in Branches
    ensures r.Ok? ==> |r.value| == 8
    ensures r.Ok? ==>
      var dir := Direction(IndexOf(Stems, chart.yearStem).value, gender);
      var start := DaeunStartAge(db, chart.birth, dir);
      forall i :: 0 <= i < 8 ==>
        r.value[i] == Block(start, IndexOf(Stems, chart.monthStem).value,
                            IndexOf(Branches, chart.monthBranch).value, dir, i)
  {
    var ys := IndexOf(Stems, chart.yearStem);
    if ys.None? {
      return Err("ValueError: year stem");
    }
    var direction := Direction(ys.value, gender);
    var startAge := DaeunStartAge(db, chart.birth, direction);
    var mb := IndexOf(Branches, chart.monthBranch);
    var ms := IndexOf(Stems, chart.monthStem);
    if mb.None? || ms.None? {
      return Err("ValueError: month pillar");
    }
    var daeuns := DaeunList(startAge, ms.value, mb.value, direction);
    r := Ok(daeuns);
  }

  /** The loop of `calculate_daeun`: decade i is the month pillar moved i + 1 steps. */
  method DaeunList(startAge: int, ms: StemIdx, mb: BranchIdx, direction: int) returns (daeuns: seq<DaeunInfo>)
    ensures |daeuns| == 8
    ensures forall k :: 0 <= k < 8 ==> daeuns[k] == Block(startAge, ms, mb, direction, k)
  {
    daeuns := [];
    var i := 0;
    while i < 8
      invariant 0 <= i <= 8 && |daeuns| == i
      invariant forall k :: 0 <= k < i ==> daeuns[k] == Block(startAge, ms, mb, direction, k)
    {
      daeuns := daeuns + [Block(startAge, ms, mb, direction, i)];
      i := i + 1;
    }
  }

  /** Consecutive decades are contiguous and each moves the pillar exactly one step further;
      the first decade is one step from the month pillar itself. */
  lemma BlocksStepByDirection(startAge: int, ms: StemIdx, mb: BranchIdx, direction: int, i: int)
    requires direction == 1 || direction == -1
    ensures Block(startAge, ms, mb, direction, i).ageEnd + 1 == Block(startAge, ms, mb, direction, i + 1).ageStart
    ensures BlockIndices(ms, mb, direction, i + 1).0 == (BlockIndices(ms, mb, direction, i).0 + direction) % 10
    ensures BlockIndices(ms, mb, direction, i + 1).1 == (BlockIndices(ms, mb, direction, i).1 + direction) % 12
    ensures BlockIndices(ms, mb, direction, 0) == ((ms + direction) % 10, (mb + direction) % 12)
  {
    var x := ms + (i + 1) * direction;
    var y := mb + (i + 1) * direction;
    assert ms + (i + 2) * direction == x + direction;
    assert mb + (i + 2) * direction == y + direction;
    StepMod(x, direction);
    StepMod(y, direction);
  }

  lemma StepMod(x: int, d: int)
    ensures (x + d) % 10 == (x % 10 + d) % 10
    ensures (x + d) % 12 == (x % 12 + d) % 12
  {
    ShiftMod(x % 10 + d, x / 10, 10);
    ShiftMod(x % 12 + d, x / 12, 12);
  }

  /** Adding a multiple of the modulus does not change the remainder. */
  lemma ShiftMod(y: int, q: int, n: int)
    requires n == 10 || n == 12
    ensures (n * q + y) % n == y % n
  {
    var k := y / n;
    assert y == n * k + y % n;
    ModUnique(n * q + y, q + k, y % n, n);
  }

  /** The remainder is the unique r in [0, n) with a == n * q + r. */
  lemma ModUnique(a: int, q: int, r: int, n: int)
    requires n == 10 || n == 12
    requires a == n * q + r && 0 <= r < n
    ensures a % n == r
  {
    var t := q - a / n;
    assert a == n * (a / n) + a % n;
    assert n * t == a % n - r;
    if n == 10 {
      assert -10 < 10 * t < 10;
    } else {
      assert -12 < 12 * t < 12;
    }
  }

  lemma ModOfMod60(x: int)
    ensures (x % 60) % 10 == x % 10 && (x % 60) % 12 == x % 12
  {
    var m := x % 60;
    assert x == 60 * (x / 60) + m;
    assert m == 10 * (m / 10) + m % 10;
    assert m == 12 * (m / 12) + m % 12;
    ModUnique(x, 6 * (x / 60) + m / 10, m % 10, 10);
    ModUnique(x, 5 * (x / 60) + m / 12, m % 12, 12);
  }

  /** Stem and branch indices of a year: its position in the 60-cycle counted from 1984. */
  function SaeunIndices(targetYear: int): (p: (StemIdx, BranchIdx))
    ensures p == ((targetYear - 1984) % 10, (targetYear - 1984) % 12)
  {
    var pos := (targetYear - 1984) % 60;
    ModOfMod60(targetYear - 1984);
    (pos % 10, pos % 12)
  }

  /** `calculate_saeun`. */
  function Saeun(targetYear: int): (string, string) {
    var (s, b) := SaeunIndices(targetYear);
    (Stems[s], Branches[b])
  }

  /** 1984 is 甲子, the cycle has period 60, and each year advances stem and branch by one. */
  lemma SaeunAnchorPeriodStep(y: int)
    ensures Saeun(1984) == ("甲", "子")
    ensures Saeun(y + 60) == Saeun(y)
    ensures SaeunIndices(y + 1) == ((SaeunIndices(y).0 + 1) % 10, (SaeunIndices(y).1 + 1) % 12)
  {
    var x := y - 1984;
    assert (x + 60) % 10 == x % 10;
    assert (x + 60) % 12 == x % 12;
    StepMod(x, 1);
  }

  /** The first-month stem base per year stem, as tabulated. */
  const MonthStemBase: seq<StemIdx> := [2, 4, 6, 8, 0, 2, 4, 6, 8, 0]

  /** Stem and branch indices of month m of a year. The source recovers the year stem's index
      with `list.index`, which is exact (`Common.StemIndexRoundTrip`). */
  function WolunIndices(targetYear: int, targetMonth: int): (StemIdx, BranchIdx) {
    var base := MonthStemBase[SaeunIndices(targetYear).0];
    ((base + targetMonth - 1) % 10, (targetMonth + 1) % 12)
  }

  /** `calculate_wolun`. */
  function Wolun(targetYear: int, targetMonth: int): (string, string) {
    var (s, b) := WolunIndices(targetYear, targetMonth);
    (Stems[s], Branches[b])
  }

  /** The month rule recovers the year stem's index from the year pillar's stem with
      `list.index`: it is the year's own stem index. */
  lemma WolunRecoversYearStem(targetYear: int)
    ensures IndexOf(Stems, Saeun(targetYear).0) == Some(SaeunIndices(targetYear).0)
  {
    StemIndexRoundTrip(SaeunIndices(targetYear).0);
  }

  /** Month 1 is always a 寅 month whose stem lies 2s + 2 steps from 甲 for year stem s (so 丙寅
      in 甲 and 己 years, the five-tiger rule), and each later month advances the stem by one. */
  lemma WolunFirstMonthAndStep(y: int, m: int)
    ensures WolunIndices(y, 1) == ((2 * SaeunIndices(y).0 + 2) % 10, 2)
    ensures SaeunIndices(y).0 == 0 || SaeunIndices(y).0 == 5 ==> Wolun(y, 1) == ("丙", "寅")
    ensures WolunIndices(y, m + 1).0 == (WolunIndices(y, m).0 + 1) % 10
  {
    var s := SaeunIndices(y).0;
    var base := MonthStemBase[s];
    MonthStemBaseFormula(s);
    StepMod(base + m - 1, 1);
    if s == 0 || s == 5 {
      assert WolunIndices(y, 1) == (2, 2);
    }
  }

  /** Month m of a year with stem index s carries stem 2s + m + 1, for any month number. */
  lemma WolunStemFormula(y: int, m: int)
    ensures WolunIndices(y, m).0 == (2 * SaeunIndices(y).0 + m + 1) % 10
  {
    var s: int := SaeunIndices(y).0;
    MonthStemBaseFormula(SaeunIndices(y).0);
    StepMod(2 * s + 2, m - 1);
  }

  lemma MonthStemBaseFormula(s: StemIdx)
    ensures MonthStemBase[s] == (2 * s + 2) % 10
  {
  }

  /** The hour branch: two-hour windows, 23:00 and 00:00 both in 子. */
  function HourBranchIdx(hour: int): (b: BranchIdx)
    ensures 0 <= hour < 24 ==> (b == 0 <==> hour == 23 || hour == 0)
  {
    ((hour + 1) / 2) % 12
  }

  lemma HourBranchWindows(h: int)
    requires 1 <= h <= 22
    ensures HourBranchIdx(h) == (h + 1) / 2
    ensures h % 2 == 1 ==> HourBranchIdx(h) == HourBranchIdx(h + 1)
  {
  }

  const HourStemBase: seq<StemIdx> := [0, 2, 4, 6, 8, 0, 2, 4, 6, 8]

  /** The day stem's index, with an unknown stem read as 甲 (the ValueError of `index` is caught and 0 used). */
  function DayStemIdx(dayStem: string): (s: StemIdx)
    ensures dayStem in Stems ==> Stems[s] == dayStem
    ensures dayStem !in Stems ==> s == 0
  {
    match IndexOf(Stems, dayStem)
    case Some(i) => i
    case None => 0
  }

  /** Stem and branch indices of the hour pillar. */
  function HourIndices(hour: int, dayStemIdx: StemIdx): (StemIdx, BranchIdx) {
    ((HourStemBase[dayStemIdx] + HourBranchIdx(hour)) % 10, HourBranchIdx(hour))
  }

  /** The hour pillar for a civil hour and a day stem. */
  function HourPillar(hour: int, dayStem: string): (string, string) {
    var (s, b) := HourIndices(hour, DayStemIdx(dayStem));
    (Stems[s], Branches[b])
  }

  /** The hour pillar carries the branch of the hour window and the stem (2s + branch) mod 10 for
      day stem s. */
  lemma HourPillarRule(hour: int, dayStem: string, s: StemIdx)
    requires s == DayStemIdx(dayStem)
    ensures HourPillar(hour, dayStem) == (Stems[(2 * s + HourBranchIdx(hour)) % 10], Branches[HourBranchIdx(hour)])
  {
    HourStemRule(hour, s);
  }

  /** The 子 hour of a day with stem s has stem 2s mod 10 (甲 and 己 days start at 甲子), and each
      later two-hour window advances the stem with the branch. */
  lemma HourStemRule(hour: int, s: StemIdx)
    ensures HourIndices(hour, s).0 == (2 * s + HourBranchIdx(hour)) % 10
    ensures HourIndices(0, s).0 == HourIndices(23, s).0 == (2 * s) % 10
    ensures s == 0 || s == 5 ==> HourIndices(0, s) == (0, 0)
  {
    assert HourStemBase[s] == (2 * s) % 10;
    StepMod(2 * s, HourBranchIdx(hour));
    assert HourBranchIdx(0) == 0 && HourBranchIdx(23) == 0;
  }

  /** `_calculate_hour_pillar` as written: it unpacks the result of `_calculate_day_pillar`,
      whose body is `pass`, so every call fails. */
  function HourPillarAsWritten(hour: int): (r: Result<(string, string)>)
    ensures r.Err?
  {
    var dayPillar: Option<(string, string)> := None;
    match dayPillar
    case None => Err("TypeError: cannot unpack None")
    case Some(p) => Ok(HourPillar(hour, p.0))
  }

  /** `validate_birth_datetime`. */
  function ValidateBirthDatetime(c: Civil): (r: Result<bool>)
    ensures r.Ok? <==> 1900 <= c.year <= 2100 && 0 <= c.hour <= 23 && 0 <= c.minute <= 59
    ensures r.Ok? ==> r.value
  {
    if c.year < 1900 || c.year > 2100 then Err("unsupported year")
    else if !(0 <= c.hour <= 23) then Err("invalid hour")
    else if !(0 <= c.minute <= 59) then Err("invalid minute")
    else Ok(true)
  }

  /** The gender check at the top of `calculate_saju`. */
  function ValidateGender(gender: string): (r: Result<()>)
    ensures r.Ok? <==> gender == "male" || gender == "female"
  {
    if gender !in ["male", "female"] then Err("invalid gender") else Ok(())
  }
}
