/** The backend year/month/day fortune lists: for each year of a decade, each month
    of a year and each day of a month, the pillar the calendar library assigns
    (an input here), a fortune level from the stem matrix and a simplified
    ten-god label. */
module FortuneService {
  import opened Common
  import Calendar

  /** The stem matrix read from JSON: day stem -> target stem -> fields of the entry. */
  type CheonganMatrix = map<string, map<string, map<string, string>>>

  /** The Korean matrix labels mapped onto the level names; anything else gives 平. */
  function DonsagongFortune(korean: string): (r: string)
    ensures r in ["大吉", "小吉", "吉", "平", "凶", "大凶"]
    ensures korean == "길흉" || korean == "무" || korean == "평" ==> r == "平"
    ensures korean !in ["대길", "소길", "길", "길흉", "평", "흉", "대흉", "무"] ==> r == "平"
  {
    if korean == "대길" then "大吉" else if korean == "소길" then "小吉" else if korean == "길" then "吉"
    else if korean == "흉" then "凶" else if korean == "대흉" then "大凶" else "平"
  }

  /** `_calculate_fortune_level`: 平 unless both stems are in the matrix; a matrix entry without
      its "길흉" field raises (KeyError). */
  function CalculateFortuneLevel(matrix: CheonganMatrix, dayStem: string, targetStem: string): (r: Result<string>)
    ensures (dayStem !in matrix || targetStem !in matrix[dayStem]) ==> r == Ok("平")
    ensures r.Err? <==> dayStem in matrix && targetStem in matrix[dayStem] && "길흉" !in matrix[dayStem][targetStem]
    ensures r.Ok? ==> r.value in ["大吉", "小吉", "吉", "平", "凶", "大凶"]
  {
    if dayStem in matrix && targetStem in matrix[dayStem] then
      var entry := matrix[dayStem][targetStem];
      if "길흉" in entry then Ok(DonsagongFortune(entry["길흉"])) else Err("KeyError: 길흉")
    else Ok("平")
  }

  /** The five combining (合) stem pairs, as listed. */
  const HapPairs: seq<(string, string)> :=
    [("甲", "己"), ("乙", "庚"), ("丙", "辛"), ("丁", "壬"), ("戊", "癸")]

  predicate IsHap(stem1: string, stem2: string) {
    (stem1, stem2) in HapPairs || (stem2, stem1) in HapPairs
  }

  lemma HapSymmetric(s1: string, s2: string)
    ensures IsHap(s1, s2) == IsHap(s2, s1)
  {
  }

  /** The listed pairs are exactly the stems five apart in the cycle. */
  lemma HapIsFiveApart(i: StemIdx, j: StemIdx)
    ensures IsHap(Stems[i], Stems[j]) <==> (i - j == 5 || j - i == 5)
  {
    StemsDistinct();
    if i - j == 5 || j - i == 5 {
      var lo := if i < j then i else j;
      assert HapPairs[lo] == (Stems[lo], Stems[lo + 5]);
    }
  }

  /** The five element names, indexed by stem index div 2. */
  const Elements: seq<string> := ["wood", "fire", "earth", "metal", "water"]

  /** `get_element_from_stem`: consecutive stems share an element; unknown input gives earth. */
  function ElementFromStem(stem: string): (r: string)
    ensures r in Elements
    ensures stem !in Stems ==> r == "earth"
  {
    if stem == "甲" || stem == "乙" then "wood" else if stem == "丙" || stem == "丁" then "fire"
    else if stem == "庚" || stem == "辛" then "metal" else if stem == "壬" || stem == "癸" then "water"
    else "earth"
  }

  lemma ElementFromStemPairsConsecutive(i: StemIdx)
    ensures ElementFromStem(Stems[i]) == Elements[i / 2]
  {
  }

  /** `get_element_from_branch`: all twelve branches are mapped; unknown input gives earth. */
  function ElementFromBranch(branch: string): (r: string)
    ensures r in Elements
    ensures branch !in Branches ==> r == "earth"
  {
    if branch == "寅" || branch == "卯" then "wood" else if branch == "巳" || branch == "午" then "fire"
    else if branch == "申" || branch == "酉" then "metal" else if branch == "亥" || branch == "子" then "water"
    else "earth"
  }

  /** The element table inside `_calculate_sipsin`: like `ElementFromStem` but "" for unknown stems. */
  function SipsinElement(stem: string): (r: string)
    ensures stem in Stems ==> r == ElementFromStem(stem)
    ensures stem !in Stems ==> r == ""
  {
    if stem in Stems then ElementFromStem(stem) else ""
  }

  /** `_calculate_sipsin` (simplified ten gods). */
  function CalculateSipsin(dayStem: string, targetStem: string): (r: string)
    ensures r in ["比肩", "劫財", "正官"]
    ensures r == "比肩" <==> dayStem == targetStem
    ensures r == "劫財" <==> dayStem != targetStem && SipsinElement(dayStem) == SipsinElement(targetStem)
  {
    if dayStem == targetStem then "比肩"
    else if SipsinElement(dayStem) == SipsinElement(targetStem) then "劫財"
    else "正官"
  }

  /** Between two stems of the cycle: 劫財 exactly for the other stem of the same element pair. */
  lemma SipsinOnStems(i: StemIdx, j: StemIdx)
    ensures CalculateSipsin(Stems[i], Stems[j]) == "劫財" <==> i != j && i / 2 == j / 2
  {
    StemsDistinct();
    ElementFromStemPairsConsecutive(i);
    ElementFromStemPairsConsecutive(j);
  }

  /** One entry of a fortune list. */
  datatype Entry = Entry(id: int, year: int, month: int, day: int, age: int, stem: string, branch: string,
                         fortuneLevel: string, sipsin: string, isCurrent: bool)

  /** The matrix verdict and ten god for a target pillar; a raising lookup is propagated. */
  function Judge(matrix: CheonganMatrix, dayStem: string, pillar: (string, string)): Result<(string, string)> {
    match CalculateFortuneLevel(matrix, dayStem, pillar.0)
    case Ok(level) => Ok((level, CalculateSipsin(dayStem, pillar.0)))
    case Err(e) => Err(e)
  }

  /** `calculate_year_list`: the ten years of a decade. `yearPillarOnJuly1` stands for the calendar
      library's year pillar of July 1 of a year; `currentYear` for `datetime.now().year`. */
  method CalculateYearList(matrix: CheonganMatrix, birthYear: int, dayStem: string, daeunStartAge: int,
                           yearPillarOnJuly1: int -> (string, string), currentYear: int)
    returns (r: Result<seq<Entry>>)
    ensures r.Ok? ==> |r.value| == 10
    ensures r.Ok? ==> forall i :: 0 <= i < 10 ==>
              r.value[i].id == i + 1 && r.value[i].age == daeunStartAge + i &&
              r.value[i].year == birthYear + daeunStartAge + i &&
              (r.value[i].stem, r.value[i].branch) == yearPillarOnJuly1(r.value[i].year) &&
              Judge(matrix, dayStem, yearPillarOnJuly1(r.value[i].year)) ==
                Ok((r.value[i].fortuneLevel, r.value[i].sipsin)) &&
              (r.value[i].isCurrent <==> r.value[i].year == currentYear)
    ensures r.Ok? ==> forall i, j :: 0 <= i < j < 10 && r.value[i].isCurrent ==> !r.value[j].isCurrent
    ensures r.Err? <==> (exists y :: birthYear + daeunStartAge <= y < birthYear + daeunStartAge + 10 &&
                                     Judge(matrix, dayStem, yearPillarOnJuly1(y)).Err?)
  {
    var list: seq<Entry> := [];
    var i := 0;
    while i < 10
      invariant 0 <= i <= 10 && |list| == i
      invariant forall k :: 0 <= k < i ==>
                  list[k].id == k + 1 && list[k].age == daeunStartAge + k &&
                  list[k].year == birthYear + daeunStartAge + k &&
                  (list[k].stem, list[k].branch) == yearPillarOnJuly1(list[k].year) &&
                  Judge(matrix, dayStem, yearPillarOnJuly1(list[k].year)) == Ok((list[k].fortuneLevel, list[k].sipsin)) &&
                  (list[k].isCurrent <==> list[k].year == currentYear)
    {
      var age := daeunStartAge + i;
      var year := birthYear + age;
      var pillar := yearPillarOnJuly1(year);
      var judged := Judge(matrix, dayStem, pillar);
      if judged.Err? {
        return Err(judged.msg);
      }
      list := list + [Entry(i + 1, year, 0, 0, age, pillar.0, pillar.1, judged.value.0, judged.value.1,
                            year == currentYear)];
      i := i + 1;
    }
    forall y | birthYear + daeunStartAge <= y < birthYear + daeunStartAge + 10
      ensures Judge(matrix, dayStem, yearPillarOnJuly1(y)).Ok?
    {
      assert list[y - birthYear - daeunStartAge].year == y;
    }
    r := Ok(list);
  }

  /** Entry k of the month list: month k + 1 of the target year, its pillar read on the
      15th, that pillar's judged level and ten-god name, current exactly for the current
      year and month. */
  predicate MonthEntry(matrix: CheonganMatrix, dayStem: string, targetYear: int,
                       monthPillarOn15th: (int, int) -> (string, string), currentYear: int, currentMonth: int,
                       k: int, e: Entry)
  {
    e.id == k + 1 && e.month == k + 1 && e.year == targetYear &&
    (e.stem, e.branch) == monthPillarOn15th(targetYear, k + 1) &&
    Judge(matrix, dayStem, monthPillarOn15th(targetYear, k + 1)) == Ok((e.fortuneLevel, e.sipsin)) &&
    (e.isCurrent <==> targetYear == currentYear && k + 1 == currentMonth)
  }

  /** `calculate_month_list`: the twelve months of a year, each the library's month pillar of
      the 15th; `currentYear`/`currentMonth` stand for the clock. */
  method CalculateMonthList(matrix: CheonganMatrix, dayStem: string, targetYear: int,
                            monthPillarOn15th: (int, int) -> (string, string), currentYear: int, currentMonth: int)
    returns (r: Result<seq<Entry>>)
    ensures r.Ok? ==> |r.value| == 12
    ensures r.Ok? ==> forall i :: 0 <= i < 12 ==>
              MonthEntry(matrix, dayStem, targetYear, monthPillarOn15th, currentYear, currentMonth, i, r.value[i])
    ensures r.Ok? ==> forall i, j :: 0 <= i < j < 12 && r.value[i].isCurrent ==> !r.value[j].isCurrent
    ensures r.Err? <==> exists m :: 1 <= m <= 12 && Judge(matrix, dayStem, monthPillarOn15th(targetYear, m)).Err?
  {
    r := JudgeMonths(matrix, dayStem, targetYear, monthPillarOn15th, currentYear, currentMonth, 12);
  }

  /** The loop of `calculate_month_list` over months 1..n, stopping at the first pillar the
      matrix cannot judge. */
  method JudgeMonths(matrix: CheonganMatrix, dayStem: string, targetYear: int,
                     monthPillarOn15th: (int, int) -> (string, string), currentYear: int, currentMonth: int, n: nat)
    returns (r: Result<seq<Entry>>)
    ensures r.Ok? ==> |r.value| == n
    ensures r.Ok? ==> forall i :: 0 <= i < n ==>
              MonthEntry(matrix, dayStem, targetYear, monthPillarOn15th, currentYear, currentMonth, i, r.value[i])
    ensures r.Ok? ==> forall i, j :: 0 <= i < j < n && r.value[i].isCurrent ==> !r.value[j].isCurrent
    ensures r.Err? <==> exists m :: 1 <= m <= n && Judge(matrix, dayStem, monthPillarOn15th(targetYear, m)).Err?
  {
    var list: seq<Entry> := [];
    var month := 1;
    while month <= n
      invariant 1 <= month <= n + 1 && |list| == month - 1
      invariant forall k :: 0 <= k < month - 1 ==>
                  MonthEntry(matrix, dayStem, targetYear, monthPillarOn15th, currentYear, currentMonth, k, list[k])
    {
      var pillar := monthPillarOn15th(targetYear, month);
      var judged := Judge(matrix, dayStem, pillar);
      if judged.Err? {
        return Err(judged.msg);
      }
      list := list + [Entry(month, targetYear, month, 0, 0, pillar.0, pillar.1, judged.value.0, judged.value.1,
                            targetYear == currentYear && month == currentMonth)];
      month := month + 1;
    }
    forall m | 1 <= m <= n
      ensures Judge(matrix, dayStem, monthPillarOn15th(targetYear, m)).Ok?
    {
      assert MonthEntry(matrix, dayStem, targetYear, monthPillarOn15th, currentYear, currentMonth, m - 1, list[m - 1]);
    }
    r := Ok(list);
  }

  /** Entry k of the day list: day k + 1 of the target month, its day pillar, that pillar's
      judged level and ten-god name, current exactly on today's date. */
  predicate DayEntry(matrix: CheonganMatrix, dayStem: string, targetYear: int, targetMonth: int,
                     dayPillar: (int, int, int) -> (string, string), today: Calendar.Civil, k: int, e: Entry)
  {
    e.id == k + 1 && e.day == k + 1 && e.year == targetYear && e.month == targetMonth &&
    (e.stem, e.branch) == dayPillar(targetYear, targetMonth, k + 1) &&
    Judge(matrix, dayStem, dayPillar(targetYear, targetMonth, k + 1)) == Ok((e.fortuneLevel, e.sipsin)) &&
    (e.isCurrent <==> targetYear == today.year && targetMonth == today.month && k + 1 == today.day)
  }

  /** `calculate_day_list`: one entry per day of the Gregorian month (`calendar.monthrange`
      rejects a month outside 1–12); `today` stands for the clock. */
  method CalculateDayList(matrix: CheonganMatrix, dayStem: string, targetYear: int, targetMonth: int,
                          dayPillar: (int, int, int) -> (string, string), today: Calendar.Civil)
    returns (r: Result<seq<Entry>>)
    ensures !(1 <= targetMonth <= 12) ==> r.Err?
    ensures r.Ok? ==> 1 <= targetMonth <= 12 && |r.value| == Calendar.DaysInMonth(targetYear, targetMonth)
    ensures r.Ok? ==> forall i :: 0 <= i < |r.value| ==>
              DayEntry(matrix, dayStem, targetYear, targetMonth, dayPillar, today, i, r.value[i])
    ensures r.Ok? ==> forall i, j :: 0 <= i < j < |r.value| && r.value[i].isCurrent ==> !r.value[j].isCurrent
  {
    if !(1 <= targetMonth <= 12) {
      return Err("bad month number");
    }
    r := JudgeDays(matrix, dayStem, targetYear, targetMonth, dayPillar, today, Calendar.DaysInMonth(targetYear, targetMonth));
  }

  /** The loop of `calculate_day_list` over days 1..n, stopping at the first pillar the
      matrix cannot judge. */
  method JudgeDays(matrix: CheonganMatrix, dayStem: string, targetYear: int, targetMonth: int,
                   dayPillar: (int, int, int) -> (string, string), today: Calendar.Civil, n: nat)
    returns (r: Result<seq<Entry>>)
    ensures r.Ok? ==> |r.value| == n
    ensures r.Ok? ==> forall i :: 0 <= i < n ==>
              DayEntry(matrix, dayStem, targetYear, targetMonth, dayPillar, today, i, r.value[i])
    ensures r.Ok? ==> forall i, j :: 0 <= i < j < n && r.value[i].isCurrent ==> !r.value[j].isCurrent
    ensures r.Err? <==> exists d :: 1 <= d <= n && Judge(matrix, dayStem, dayPillar(targetYear, targetMonth, d)).Err?
  {
    var list: seq<Entry> := [];
    var day := 1;
    while day <= n
      invariant 1 <= day <= n + 1 && |list| == day - 1
      invariant forall k :: 0 <= k < day - 1 ==> DayEntry(matrix, dayStem, targetYear, targetMonth, dayPillar, today, k, list[k])
    {
      var pillar := dayPillar(targetYear, targetMonth, day);
      var judged := Judge(matrix, dayStem, pillar);
      if judged.Err? {
        return Err(judged.msg);
      }
      var isToday := targetYear == today.year && targetMonth == today.month && day == today.day;
      list := list + [Entry(day, targetYear, targetMonth, day, 0, pillar.0, pillar.1, judged.value.0, judged.value.1,
                            isToday)];
      day := day + 1;
    }
    forall d | 1 <= d <= n
      ensures Judge(matrix, dayStem, dayPillar(targetYear, targetMonth, d)).Ok?
    {
      assert DayEntry(matrix, dayStem, targetYear, targetMonth, dayPillar, today, d - 1, list[d - 1]);
    }
    r := Ok(list);
  }
}
