/** The major-fortune variant driven by an external solar-term list: only the twelve
    "quarter" (month-starting) terms count, the list is sorted by date, the days to the
    neighbouring term are divided by three and rounded, and ten decades are generated. */
module ApiDaeunCalculator {
  import opened Common
  import opened Calendar
  import SajuCalculator
  import ManseryeokCalculator

  /** One entry of the fetched list: a term name and its civil date (midnight, Korean time). */
  datatype ApiTerm = ApiTerm(name: string, year: int, month: int, day: int)

  const QuarterTerms: seq<string> :=
    ["소한", "입춘", "경칩", "청명", "입하", "망종", "소서", "입추", "백로", "한로", "입동", "대설"]

  /** `_determine_direction`: +1 iff (yang year stem and male) or (yin year stem and female);
      a year stem outside the alphabet raises. */
  function DetermineDirection(yearStem: string, gender: string): (r: Result<int>)
    ensures r.Err? <==> yearStem !in Stems
    ensures r.Ok? ==> (r.value == 1 || r.value == -1)
    ensures r.Ok? ==> (r.value == 1 <==>
      (IsYang(IndexOf(Stems, yearStem).value) && gender == "male") ||
      (!IsYang(IndexOf(Stems, yearStem).value) && gender == "female"))
  {
    match IndexOf(Stems, yearStem)
    case None => Err("ValueError: not a stem")
    case Some(i) =>
      var isYang := i % 2 == 0;
      Ok(if (isYang && gender == "male") || (!isYang && gender == "female") then 1 else -1)
  }

  /** The quarter-term filter, keeping the original order. */
  function FilterQuarter(ts: seq<ApiTerm>): (r: seq<ApiTerm>)
    ensures |r| <= |ts|
    ensures forall t :: t in r <==> t in ts && t.name in QuarterTerms
  {
    if ts == [] then []
    else (if ts[0].name in QuarterTerms then [ts[0]] else []) + FilterQuarter(ts[1..])
  }

  /** The sort key: the `YYYY-MM-DD` string compares like this number for four-digit years
      and two-digit months and days. */
  function DateKey(t: ApiTerm): int {
    t.year * 10000 + t.month * 100 + t.day
  }

  predicate SortedByDate(s: seq<ApiTerm>) {
    forall i, j :: 0 <= i < j < |s| ==> DateKey(s[i]) <= DateKey(s[j])
  }

  function InsertByDate(t: ApiTerm, s: seq<ApiTerm>): (r: seq<ApiTerm>)
    requires SortedByDate(s)
    ensures SortedByDate(r) && multiset(r) == multiset(s) + multiset{t}
    ensures forall x :: x in r <==> x == t || x in s
  {
    if s == [] || DateKey(t) <= DateKey(s[0]) then
      SortedHeadBound(s);
      ConsSorted(t, s);
      [t] + s
    else
      var rest := InsertByDate(t, s[1..]);
      assert s == [s[0]] + s[1..];
      SortedHeadBound(s);
      ConsSorted(s[0], rest);
      [s[0]] + rest
  }

  /** The first term of a date-sorted list is no later than any of its terms. */
  lemma SortedHeadBound(s: seq<ApiTerm>)
    requires SortedByDate(s)
    ensures forall x :: x in s ==> DateKey(s[0]) <= DateKey(x)
  {
    forall x | x in s
      ensures DateKey(s[0]) <= DateKey(x)
    {
      var j :| 0 <= j < |s| && s[j] == x;
      if j > 0 {
        assert DateKey(s[0]) <= DateKey(s[j]);
      }
    }
  }

  /** A term no later than any term of a sorted list stays sorted in front of it. */
  lemma ConsSorted(a: ApiTerm, rest: seq<ApiTerm>)
    requires SortedByDate(rest)
    requires forall x :: x in rest ==> DateKey(a) <= DateKey(x)
    ensures SortedByDate([a] + rest)
  {
    var r := [a] + rest;
    forall i, j | 0 <= i < j < |r|
      ensures DateKey(r[i]) <= DateKey(r[j])
    {
      assert r[j] == rest[j - 1];
      if i > 0 {
        assert r[i] == rest[i - 1];
      }
    }
  }

  /** `list.sort(key=date)`: an ordering of the same terms by date. */
  function SortByDate(s: seq<ApiTerm>): (r: seq<ApiTerm>)
    ensures SortedByDate(r) && multiset(r) == multiset(s)
  {
    if s == [] then []
    else
      assert s == [s[0]] + s[1..];
      InsertByDate(s[0], SortByDate(s[1..]))
  }

  /** The term's date at 00:00 Korean time. */
  function TermInstant(t: ApiTerm): Moment {
    FromCivil(Civil(t.year, t.month, t.day, 0, 0, 0), KstOffset)
  }

  /** First index from `k` whose term is strictly after `birth`. */
  function FirstAfter(qs: seq<ApiTerm>, k: nat, birth: Moment): (r: Option<nat>)
    requires k <= |qs|
    decreases |qs| - k
    ensures r.Some? ==> k <= r.value < |qs| && TermInstant(qs[r.value]).utc > birth.utc &&
                        forall j :: k <= j < r.value ==> TermInstant(qs[j]).utc <= birth.utc
    ensures r.None? ==> forall j :: k <= j < |qs| ==> TermInstant(qs[j]).utc <= birth.utc
  {
    if k == |qs| then None
    else if TermInstant(qs[k]).utc > birth.utc then Some(k)
    else FirstAfter(qs, k + 1, birth)
  }

  /** First index from `k` whose term is not strictly before `birth` (where the backward scan breaks). */
  function FirstNotBefore(qs: seq<ApiTerm>, k: nat, birth: Moment): (r: nat)
    requires k <= |qs|
    decreases |qs| - k
    ensures k <= r <= |qs|
    ensures forall j :: k <= j < r ==> TermInstant(qs[j]).utc < birth.utc
    ensures r < |qs| ==> TermInstant(qs[r]).utc >= birth.utc
  {
    if k == |qs| then k
    else if TermInstant(qs[k]).utc < birth.utc then FirstNotBefore(qs, k + 1, birth)
    else k
  }

  /** What `_find_next_quarter_term_api` returns. */
  function NextQuarterTerm(qs: seq<ApiTerm>, birth: Moment): Option<ApiTerm> {
    match FirstAfter(qs, 0, birth)
    case Some(k) => Some(qs[k])
    case None => None
  }

  /** What `_find_previous_quarter_term_api` returns: the term just before the scan breaks. */
  function PreviousQuarterTerm(qs: seq<ApiTerm>, birth: Moment): Option<ApiTerm> {
    var k := FirstNotBefore(qs, 0, birth);
    if k == 0 then None else Some(qs[k - 1])
  }

  method FindNextQuarterTerm(birth: Moment, qs: seq<ApiTerm>) returns (r: Option<ApiTerm>)
    ensures r == NextQuarterTerm(qs, birth)
  {
    var i := 0;
    while i < |qs|
      invariant 0 <= i <= |qs|
      invariant FirstAfter(qs, 0, birth) == FirstAfter(qs, i, birth)
    {
      if TermInstant(qs[i]).utc > birth.utc {
        return Some(qs[i]);
      }
      i := i + 1;
    }
    r := None;
  }

  method FindPreviousQuarterTerm(birth: Moment, qs: seq<ApiTerm>) returns (r: Option<ApiTerm>)
    ensures r == PreviousQuarterTerm(qs, birth)
  {
    r := None;
    var i := 0;
    while i < |qs|
      invariant 0 <= i <= |qs|
      invariant FirstNotBefore(qs, 0, birth) == FirstNotBefore(qs, i, birth)
      invariant r == if i == 0 then None else Some(qs[i - 1])
    {
      if TermInstant(qs[i]).utc < birth.utc {
        r := Some(qs[i]);
      } else {
        break;
      }
      i := i + 1;
    }
  }

  /** On a list whose instants ascend, the scans find the earliest term after birth and the
      latest term before it, and find nothing only when no such term exists. */
  lemma ScansFindNeighbours(qs: seq<ApiTerm>, birth: Moment)
    requires forall i, j :: 0 <= i < j < |qs| ==> TermInstant(qs[i]).utc <= TermInstant(qs[j]).utc
    ensures NextQuarterTerm(qs, birth).None? <==> forall t :: t in qs ==> TermInstant(t).utc <= birth.utc
    ensures NextQuarterTerm(qs, birth).Some? ==>
              NextQuarterTerm(qs, birth).value in qs &&
              TermInstant(NextQuarterTerm(qs, birth).value).utc > birth.utc &&
              forall t :: t in qs && TermInstant(t).utc > birth.utc ==>
                TermInstant(NextQuarterTerm(qs, birth).value).utc <= TermInstant(t).utc
    ensures PreviousQuarterTerm(qs, birth).None? <==> forall t :: t in qs ==> TermInstant(t).utc >= birth.utc
    ensures PreviousQuarterTerm(qs, birth).Some? ==>
              PreviousQuarterTerm(qs, birth).value in qs &&
              TermInstant(PreviousQuarterTerm(qs, birth).value).utc < birth.utc &&
              forall t :: t in qs && TermInstant(t).utc < birth.utc ==>
                TermInstant(t).utc <= TermInstant(PreviousQuarterTerm(qs, birth).value).utc
  {
    var k := FirstNotBefore(qs, 0, birth);
    if PreviousQuarterTerm(qs, birth).None? {
      assert k == 0;
      forall t | t in qs
        ensures TermInstant(t).utc >= birth.utc
      {
        var j :| 0 <= j < |qs| && qs[j] == t;
        if j > 0 {
          assert TermInstant(qs[0]).utc <= TermInstant(qs[j]).utc;
        }
      }
    }
    forall t | t in qs && TermInstant(t).utc < birth.utc
      ensures k > 0 && TermInstant(t).utc <= TermInstant(qs[k - 1]).utc
    {
      var j :| 0 <= j < |qs| && qs[j] == t;
      if j >= k {
        assert TermInstant(qs[k]).utc <= TermInstant(qs[j]).utc;
      }
    }
  }

  /** The days from birth to the neighbouring quarter term in the direction of travel; 15 when
      the list holds no quarter term or the scan finds none. */
  function DaysToQuarterTerm(birthKst: Moment, direction: int, solarTerms: seq<ApiTerm>): int {
    var qs := FilterQuarter(solarTerms);
    if qs == [] then 15
    else
      var sorted := SortByDate(qs);
      if direction == 1 then
        match NextQuarterTerm(sorted, birthKst)
        case Some(t) => DaysDiff(TermInstant(t), birthKst)
        case None => 15
      else
        match PreviousQuarterTerm(sorted, birthKst)
        case Some(t) => DaysDiff(birthKst, TermInstant(t))
        case None => 15
  }

  /** `_calculate_days_to_quarter_term_api`. */
  method CalculateDaysToQuarterTerm(birth: SajuCalculator.InputDatetime, direction: int, solarTerms: seq<ApiTerm>)
    returns (days: int)
    ensures days == DaysToQuarterTerm(SajuCalculator.ToKst(birth), direction, solarTerms)
    ensures days >= 0
    ensures (forall t :: t in solarTerms ==> t.name !in QuarterTerms) ==> days == 15
  {
    var birthKst := SajuCalculator.ToKst(birth);
    var quarterTerms := FilterQuarter(solarTerms);
    if quarterTerms == [] {
      return 15;
    }
    var sorted := SortByDate(quarterTerms);
    if direction == 1 {
      var next := FindNextQuarterTerm(birthKst, sorted);
      if next.Some? {
        return DaysDiff(TermInstant(next.value), birthKst);
      }
    } else {
      var prev := FindPreviousQuarterTerm(birthKst, sorted);
      if prev.Some? {
        return DaysDiff(birthKst, TermInstant(prev.value));
      }
    }
    days := 15;
  }

  /** Python's `round(days / 3)`: a third of an integer is never exactly half-way, so this is
      the unique integer within 1/3 of days / 3. */
  function RoundThird(days: int): (q: int)
    ensures -1 <= 3 * q - days <= 1
  {
    (days + 1) / 3
  }

  lemma RoundThirdIsNearest(days: int, q: int)
    requires -1 <= 3 * q - days <= 1
    ensures q == RoundThird(days)
  {
  }

  /** `_calculate_start_age_round`: the rounded third, at least 1. */
  function StartAgeRound(days: int): (r: int)
    ensures r >= 1
    ensures r == RoundThird(days) || (r == 1 && RoundThird(days) < 1)
    ensures days >= 0 ==> r == if (days + 1) / 3 > 1 then (days + 1) / 3 else 1
  {
    var startAge := RoundThird(days);
    if startAge > 1 then startAge else 1
  }

  /** One entry of `_generate_daeun_list`. */
  datatype ApiBlock = ApiBlock(order: int, startAge: int, endAge: int, stem: string, branch: string, ganzhi: string)

  function ApiBlockAt(startAge: int, ms: StemIdx, mb: BranchIdx, direction: int, i: int): ApiBlock {
    var (si, bi) := ManseryeokCalculator.BlockIndices(ms, mb, direction, i);
    ApiBlock(i + 1, startAge + i * 10, startAge + i * 10 + 9, Stems[si], Branches[bi], Stems[si] + Branches[bi])
  }

  /** The first n decades, the i-th being `ApiBlockAt(..., i)`. */
  function DaeunPrefix(startAge: int, ms: StemIdx, mb: BranchIdx, direction: int, n: nat): (list: seq<ApiBlock>)
    ensures |list| == n
    ensures forall i :: 0 <= i < n ==> list[i] == ApiBlockAt(startAge, ms, mb, direction, i)
  {
    if n == 0 then [] else DaeunPrefix(startAge, ms, mb, direction, n - 1) + [ApiBlockAt(startAge, ms, mb, direction, n - 1)]
  }

  /** `_generate_daeun_list`: ten decades; an unknown month stem or branch raises. */
  method GenerateDaeunList(startAge: int, monthStem: string, monthBranch: string, direction: int)
    returns (r: Result<seq<ApiBlock>>)
    ensures r.Err? <==> monthStem !in Stems || monthBranch !in Branches
    ensures r.Ok? ==> r.value == DaeunPrefix(startAge, IndexOf(Stems, monthStem).value,
                                             IndexOf(Branches, monthBranch).value, direction, 10)
  {
    var ms := IndexOf(Stems, monthStem);
    var mb := IndexOf(Branches, monthBranch);
    if ms.None? || mb.None? {
      return Err("ValueError: month pillar");
    }
    var daeunList: seq<ApiBlock> := [];
    var i := 0;
    while i < 10
      invariant 0 <= i <= 10
      invariant daeunList == DaeunPrefix(startAge, ms.value, mb.value, direction, i)
    {
      daeunList := daeunList + [ApiBlockAt(startAge, ms.value, mb.value, direction, i)];
      i := i + 1;
    }
    r := Ok(daeunList);
  }

  /** Decades are numbered from 1, contiguous, ten years long, and each moves the month pillar
      one more step in the direction of travel. */
  lemma ApiBlocksContiguous(startAge: int, ms: StemIdx, mb: BranchIdx, direction: int, i: int)
    requires direction == 1 || direction == -1
    ensures ApiBlockAt(startAge, ms, mb, direction, 0).order == 1
    ensures ApiBlockAt(startAge, ms, mb, direction, i).endAge == ApiBlockAt(startAge, ms, mb, direction, i).startAge + 9
    ensures ApiBlockAt(startAge, ms, mb, direction, i).endAge + 1 == ApiBlockAt(startAge, ms, mb, direction, i + 1).startAge
    ensures ApiBlockAt(startAge, ms, mb, direction, i + 1).order == ApiBlockAt(startAge, ms, mb, direction, i).order + 1
    ensures ManseryeokCalculator.BlockIndices(ms, mb, direction, i + 1).0
            == (ManseryeokCalculator.BlockIndices(ms, mb, direction, i).0 + direction) % 10
  {
    ManseryeokCalculator.BlocksStepByDirection(startAge, ms, mb, direction, i);
  }

  /** The ten decades of a calculation: the first starts at the start age one step from the
      month pillar, the last ends 99 years later, and consecutive decades are contiguous and
      numbered in order. */
  lemma ApiDaeunList(startAge: int, ms: StemIdx, mb: BranchIdx, direction: int)
    requires direction == 1 || direction == -1
    ensures var l := DaeunPrefix(startAge, ms, mb, direction, 10);
            l[0].order == 1 && l[0].startAge == startAge &&
            l[0].stem == Stems[(ms + direction) % 10] && l[0].branch == Branches[(mb + direction) % 12] &&
            l[9].endAge == startAge + 99
    ensures var l := DaeunPrefix(startAge, ms, mb, direction, 10);
            forall i :: 0 <= i < 9 ==> l[i].endAge + 1 == l[i + 1].startAge && l[i + 1].order == l[i].order + 1
  {
    var l := DaeunPrefix(startAge, ms, mb, direction, 10);
    ManseryeokCalculator.BlocksStepByDirection(startAge, ms, mb, direction, 0);
    forall i | 0 <= i < 9
      ensures l[i].endAge + 1 == l[i + 1].startAge && l[i + 1].order == l[i].order + 1
    {
      ApiBlocksContiguous(startAge, ms, mb, direction, i);
    }
  }

  datatype ApiDaeun = ApiDaeun(direction: string, daysToTerm: int, startAge: int, daeunList: seq<ApiBlock>)

  /** `calculate_api_daeun`, with the fetched term list as a parameter (an unreachable service
      yields the empty list): the direction, the days to the neighbouring quarter term, the
      start age from them and the ten decades stepped from the month pillar. */
  method CalculateApiDaeun(birth: SajuCalculator.InputDatetime, yearStem: string, monthStem: string,
                           monthBranch: string, gender: string, solarTerms: seq<ApiTerm>)
    returns (r: Result<ApiDaeun>)
    ensures r.Err? <==> yearStem !in Stems || monthStem !in Stems || monthBranch !in Branches
    ensures r.Ok? ==>
      var dir := DetermineDirection(yearStem, gender).value;
      r.value.direction == (if dir == 1 then "순행" else "역행") &&
      r.value.daysToTerm == DaysToQuarterTerm(SajuCalculator.ToKst(birth), dir, solarTerms) &&
      r.value.startAge == StartAgeRound(r.value.daysToTerm) && |r.value.daeunList| == 10 &&
      r.value.daeunList == DaeunPrefix(r.value.startAge, IndexOf(Stems, monthStem).value,
                                       IndexOf(Branches, monthBranch).value, dir, 10)
  {
    var direction := DetermineDirection(yearStem, gender);
    if direction.Err? {
      return Err(direction.msg);
    }
    var days := CalculateDaysToQuarterTerm(birth, direction.value, solarTerms);
    var startAge := StartAgeRound(days);
    var list := GenerateDaeunList(startAge, monthStem, monthBranch, direction.value);
    if list.Err? {
      return Err(list.msg);
    }
    r := Ok(ApiDaeun(if direction.value == 1 then "순행" else "역행", days, startAge, list.value));
  }
}
