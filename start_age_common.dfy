/** Pieces shared by the two "three days make one year" starting-age calculators: the
    month each month-starting term (jeol) falls in, the travel direction from the year
    stem and gender, the dated-term scans that stand in for "sort, then take the first
    match", and the calendar steps of the precise start date. */
module StartAgeCommon {
  import opened Common
  import opened Calendar
  import opened Dicts

  /** The civil month of each of the twelve month-starting terms. */
  const JeolMonths: map<string, int> := map[
    "立春" := 2, "驚蟄" := 3, "清明" := 4, "立夏" := 5, "芒種" := 6, "小暑" := 7,
    "立秋" := 8, "白露" := 9, "寒露" := 10, "立冬" := 11, "大雪" := 12, "小寒" := 1]

  /** The year stem's position, with an unrecognised stem read as 甲 (index 0). */
  function StemIndexOrZero(yearStem: string): (i: nat)
    ensures i < 10
    ensures yearStem in Stems ==> Stems[i] == yearStem
    ensures yearStem !in Stems ==> i == 0
  {
    match IndexOf(Stems, yearStem)
    case Some(i) => i
    case None => 0
  }

  /** "forward" or "backward", from the year stem's parity and the gender string. */
  function Direction(yearStem: string, gender: string): (r: string)
    ensures r == "forward" || r == "backward"
  {
    var yang := StemIndexOrZero(yearStem) % 2 == 0;
    if (yang && gender == "male") || (!yang && gender == "female") then "forward" else "backward"
  }

  /** The direction agrees with the shared yang/yin by gender rule for both genders, an
      unknown stem travels as 甲 does, and any other gender string travels backward. */
  lemma DirectionRule(yearStem: string, gender: string)
    ensures gender == "male" ==>
              (Direction(yearStem, gender) == "forward" <==> IsForward(IsYang(StemIndexOrZero(yearStem)), Male))
    ensures gender == "female" ==>
              (Direction(yearStem, gender) == "forward" <==> IsForward(IsYang(StemIndexOrZero(yearStem)), Female))
    ensures yearStem !in Stems ==> Direction(yearStem, gender) == Direction("甲", gender)
    ensures gender != "male" && gender != "female" ==> Direction(yearStem, gender) == "backward"
  {
    StemIndexRoundTrip(0);
  }

  /** An aware `datetime`: its wall-clock fields and the UTC offset (seconds) they are read
      in, as Python stores it; comparison and subtraction go through the instant. */
  datatype Aware = Aware(fields: Civil, offset: int)

  /** The instant of an aware datetime, in seconds since 1970-01-01T00:00 UTC. */
  function Utc(a: Aware): int {
    CivilSeconds(a.fields) - a.offset
  }

  /** A term of one year's table with the datetime the calculator built for it. */
  type Dated = (string, Aware)

  /** The position in `ds` of the earliest instant strictly after `t`, the first listed
      among equal instants: what a stable ascending sort followed by a scan for the first
      later instant picks. */
  function EarliestAfter(ds: seq<Dated>, t: Aware): (r: Option<nat>)
    ensures r.Some? ==> r.value < |ds|
  {
    if |ds| == 0 then None
    else
      var r := EarliestAfter(ds[..|ds| - 1], t);
      var last := ds[|ds| - 1];
      if Utc(last.1) > Utc(t) && (r.None? || Utc(last.1) < Utc(ds[r.value].1)) then Some(|ds| - 1) else r
  }

  /** The position in `ds` of the latest instant strictly before `t`, the first listed among
      equal instants: what a stable descending sort followed by a scan for the first earlier
      instant picks. */
  function LatestBefore(ds: seq<Dated>, t: Aware): (r: Option<nat>)
    ensures r.Some? ==> r.value < |ds|
  {
    if |ds| == 0 then None
    else
      var r := LatestBefore(ds[..|ds| - 1], t);
      var last := ds[|ds| - 1];
      if Utc(last.1) < Utc(t) && (r.None? || Utc(last.1) > Utc(ds[r.value].1)) then Some(|ds| - 1) else r
  }

  /** EarliestAfter finds a later instant no later than any other later instant, strictly
      earlier than every later instant listed before it, and finds none exactly when no
      instant is later than `t`. */
  lemma {:induction false} EarliestAfterSpec(ds: seq<Dated>, t: Aware)
    ensures var r := EarliestAfter(ds, t);
            r.Some? ==> Utc(ds[r.value].1) > Utc(t) &&
                        (forall k :: 0 <= k < |ds| && Utc(ds[k].1) > Utc(t) ==> Utc(ds[r.value].1) <= Utc(ds[k].1)) &&
                        (forall k :: 0 <= k < r.value && Utc(ds[k].1) > Utc(t) ==> Utc(ds[r.value].1) < Utc(ds[k].1))
    ensures EarliestAfter(ds, t).None? <==> forall k :: 0 <= k < |ds| ==> Utc(ds[k].1) <= Utc(t)
  {
    if |ds| > 0 {
      var init := ds[..|ds| - 1];
      EarliestAfterSpec(init, t);
      assert forall k :: 0 <= k < |init| ==> init[k] == ds[k];
    }
  }

  /** LatestBefore finds an earlier instant no earlier than any other earlier instant,
      strictly later than every earlier instant listed before it, and finds none exactly
      when no instant is earlier than `t`. */
  lemma {:induction false} LatestBeforeSpec(ds: seq<Dated>, t: Aware)
    ensures var r := LatestBefore(ds, t);
            r.Some? ==> Utc(ds[r.value].1) < Utc(t) &&
                        (forall k :: 0 <= k < |ds| && Utc(ds[k].1) < Utc(t) ==> Utc(ds[r.value].1) >= Utc(ds[k].1)) &&
                        (forall k :: 0 <= k < r.value && Utc(ds[k].1) < Utc(t) ==> Utc(ds[r.value].1) > Utc(ds[k].1))
    ensures LatestBefore(ds, t).None? <==> forall k :: 0 <= k < |ds| ==> Utc(ds[k].1) >= Utc(t)
  {
    if |ds| > 0 {
      var init := ds[..|ds| - 1];
      LatestBeforeSpec(init, t);
      assert forall k :: 0 <= k < |init| ==> init[k] == ds[k];
    }
  }

  /** The scan over the sorted list, as one pass keeping the best position so far. */
  method FindEarliestAfter(ds: seq<Dated>, t: Aware) returns (r: Option<nat>)
    ensures r == EarliestAfter(ds, t)
  {
    r := None;
    var k := 0;
    while k < |ds|
      invariant 0 <= k <= |ds|
      invariant r == EarliestAfter(ds[..k], t)
    {
      assert ds[..k + 1][..k] == ds[..k];
      if Utc(ds[k].1) > Utc(t) && (r.None? || Utc(ds[k].1) < Utc(ds[r.value].1)) {
        r := Some(k);
      }
      k := k + 1;
    }
    assert ds[..|ds|] == ds;
  }

  method FindLatestBefore(ds: seq<Dated>, t: Aware) returns (r: Option<nat>)
    ensures r == LatestBefore(ds, t)
  {
    r := None;
    var k := 0;
    while k < |ds|
      invariant 0 <= k <= |ds|
      invariant r == LatestBefore(ds[..k], t)
    {
      assert ds[..k + 1][..k] == ds[..k];
      if Utc(ds[k].1) < Utc(t) && (r.None? || Utc(ds[k].1) > Utc(ds[r.value].1)) {
        r := Some(k);
      }
      k := k + 1;
    }
    assert ds[..|ds|] == ds;
  }

  /** One stored term: "day", "hour", "minute" and (usually) "second". */
  type TermEntry = map<string, int>

  /** One year of the table: term name to entry, in the order the file lists them. */
  type YearTerms = Dict<string, TermEntry>

  /** How a calculator reads an entry: whether 小寒 is dated in January of the following
      year, and whether a missing "second" counts as 0 rather than an error. */
  datatype Reading = Reading(smallColdNextYear: bool, secondOptional: bool)

  /** `datetime(y, m, day, hour, minute, second, tzinfo=KST)` from an entry: nothing when a
      key is missing or the fields are not a date (the caller skips the entry). */
  function TermInstant(entry: TermEntry, y: int, m: int, secondOptional: bool): (r: Option<Aware>)
    ensures r.Some? ==> r.value.offset == KstOffset && ValidCivil(r.value.fields) &&
                        r.value.fields.year == y && r.value.fields.month == m
    ensures r.Some? <==> "day" in entry && "hour" in entry && "minute" in entry &&
                         (secondOptional || "second" in entry) &&
                         ValidCivil(Civil(y, m, entry["day"], entry["hour"], entry["minute"],
                                          if "second" in entry then entry["second"] else 0))
  {
    if "day" !in entry || "hour" !in entry || "minute" !in entry then None
    else if !secondOptional && "second" !in entry then None
    else
      var c := Civil(y, m, entry["day"], entry["hour"], entry["minute"], if "second" in entry then entry["second"] else 0);
      if ValidCivil(c) then Some(Aware(c, KstOffset)) else None
  }

  /** The datetime a calculator builds for one (name, entry) of `year`: only the twelve
      month-starting terms count, each in its own month of `year`, with 小寒 moved to the
      next year when the reading says so. */
  function Candidate(name: string, entry: TermEntry, year: int, rd: Reading): (r: Option<Aware>)
    ensures r.Some? ==> name in JeolMonths && r.value.offset == KstOffset &&
                        r.value.fields.month == JeolMonths[name]
  {
    if name !in JeolMonths then None
    else
      var m := JeolMonths[name];
      TermInstant(entry, if rd.smallColdNextYear && m == 1 then year + 1 else year, m, rd.secondOptional)
  }

  /** The list the calculator sorts: the named instants of every entry that reads as a date. */
  function Candidates(yd: YearTerms, year: int, rd: Reading): (ds: seq<Dated>)
    ensures |ds| <= |yd|
  {
    if |yd| == 0 then []
    else
      var rest := Candidates(yd[..|yd| - 1], year, rd);
      var (name, entry) := yd[|yd| - 1];
      match Candidate(name, entry, year, rd)
      case Some(t) => rest + [(name, t)]
      case None => rest
  }

  predicate Builds(yd: YearTerms, year: int, rd: Reading, k: int, d: Dated) {
    0 <= k < |yd| && yd[k].0 == d.0 && Candidate(yd[k].0, yd[k].1, year, rd) == Some(d.1)
  }

  /** The list holds exactly the entries that read as a date, under their own names. */
  lemma {:induction false} CandidatesMembers(yd: YearTerms, year: int, rd: Reading, d: Dated)
    ensures d in Candidates(yd, year, rd) <==> exists k :: Builds(yd, year, rd, k, d)
  {
    if |yd| > 0 {
      var init := yd[..|yd| - 1];
      CandidatesMembers(init, year, rd, d);
      var last := |yd| - 1;
      assert d in Candidates(yd, year, rd) <==> d in Candidates(init, year, rd) || Builds(yd, year, rd, last, d);
      if exists k :: Builds(init, year, rd, k, d) {
        var k :| Builds(init, year, rd, k, d);
        assert Builds(yd, year, rd, k, d);
      }
      if exists k :: Builds(yd, year, rd, k, d) {
        var k :| Builds(yd, year, rd, k, d);
        if k < last {
          assert Builds(init, year, rd, k, d);
        }
      }
    }
  }

  /** The first loop of the term search: each entry that reads as a date is appended. */
  method BuildCandidates(yd: YearTerms, year: int, rd: Reading) returns (ds: seq<Dated>)
    ensures ds == Candidates(yd, year, rd)
  {
    ds := [];
    var k := 0;
    while k < |yd|
      invariant 0 <= k <= |yd|
      invariant ds == Candidates(yd[..k], year, rd)
    {
      assert yd[..k + 1][..k] == yd[..k];
      var (name, entry) := yd[k];
      var t := Candidate(name, entry, year, rd);
      if t.Some? {
        ds := ds + [(name, t.value)];
      }
      k := k + 1;
    }
    assert yd[..|yd|] == yd;
  }

  /** `dt.replace(year=y)`: the same wall-clock reading in another year, or a ValueError
      when that reading is not a date (29 February in a common year, a year past 9999). */
  function ReplaceYear(dt: Aware, y: int): (r: Option<Aware>)
    ensures r.Some? <==> ValidCivil(dt.fields.(year := y))
    ensures r.Some? ==> r.value == Aware(dt.fields.(year := y), dt.offset)
  {
    var c := dt.fields.(year := y);
    if ValidCivil(c) then Some(Aware(c, dt.offset)) else None
  }

  /** A 29 February reading cannot be moved to a common year. */
  lemma LeapDayReplace(dt: Aware, y: int)
    requires dt.fields.month == 2 && dt.fields.day == 29 && !IsLeap(y)
    ensures ReplaceYear(dt, y).None?
  {
  }

  /** One to three years after a leap year come common years. */
  lemma CommonYearsAfterLeap(y: int, n: int)
    requires IsLeap(y) && 1 <= n <= 3
    ensures !IsLeap(y + n)
  {
    if y % 400 == 0 {
      assert y == 4 * (100 * (y / 400));
    }
    assert y % 4 == 0;
    assert y + n == 4 * (y / 4) + n;
    assert (y + n) % 4 == n;
  }

  /** `abs(a - b)` in days, as `.days + .seconds / 86400` of the timedelta (whole-second instants). */
  function AbsDays(a: Aware, b: Aware): (d: real)
    ensures d >= 0.0
    ensures d * DaySeconds as real == (if Utc(a) >= Utc(b) then Utc(a) - Utc(b) else Utc(b) - Utc(a)) as real
  {
    (if Utc(a) >= Utc(b) then Utc(a) - Utc(b) else Utc(b) - Utc(a)) as real / DaySeconds as real
  }

  /** The gap is the same measured from either end. */
  lemma AbsDaysSymmetric(a: Aware, b: Aware)
    ensures AbsDays(a, b) == AbsDays(b, a)
  {
  }

  /** `base + timedelta(days=plusDays)`, kept as the pair (the sub-second rounding of
      `timedelta` is not modelled). */
  datatype PreciseStart = PreciseStart(base: Aware, plusDays: real)

  /** `int(days / 3)`: the whole years of the three-day rule. */
  function WholeYears(days: real): (n: int)
    requires days >= 0.0
    ensures n >= 0 && 3.0 * n as real <= days < 3.0 * n as real + 3.0
  {
    Trunc(days / 3.0)
  }

  /** The whole years reach ten exactly from thirty days on, and pass ten from thirty-three. */
  lemma WholeYearsThresholds(days: real)
    requires days >= 0.0
    ensures WholeYears(days) >= 10 <==> days >= 30.0
    ensures WholeYears(days) > 10 <==> days >= 33.0
  {
  }

  lemma WholeYearsMonotone(d1: real, d2: real)
    requires 0.0 <= d1 <= d2
    ensures WholeYears(d1) <= WholeYears(d2)
  {
  }
}
