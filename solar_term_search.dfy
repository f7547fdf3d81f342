/** The bisection search for the moment the sun reaches a given ecliptic longitude, shared
    by the two generators (1910-1960 and 1960-2010) and by the validation framework.
    The ephemeris itself is a parameter: `lon(t)` is the sun's heliocentric longitude in
    degrees (`math.degrees(ephem.Sun(t).hlon)`) at the ephemeris date `t`, a real number of
    days counted from 1899-12-31 12:00 UTC. */
module SolarTermSearch {
  import opened Common
  import opened Calendar

  /** The 24 solar terms in the order the generators walk them, from 立春 to 大寒. */
  const TermOrder: seq<string> := [
    "立春", "雨水", "驚蟄", "春分", "清明", "穀雨",
    "立夏", "小満", "芒種", "夏至", "小暑", "大暑",
    "立秋", "処暑", "白露", "秋分", "寒露", "霜降",
    "立冬", "小雪", "大雪", "冬至", "小寒", "大寒"]

  /** The target longitude of each term, parallel to `TermOrder`. */
  const Longitudes: seq<int> := [
    315, 330, 345, 0, 15, 30, 45, 60, 75, 90, 105, 120,
    135, 150, 165, 180, 195, 210, 225, 240, 255, 270, 285, 300]

  /** The month in which the search window opens, parallel to `TermOrder`. */
  const MonthEstimates: seq<int> := [
    2, 2, 3, 3, 4, 4, 5, 5, 6, 6, 7, 7,
    8, 8, 9, 9, 10, 10, 11, 11, 12, 12, 1, 1]

  lemma TermOrderDistinct()
    ensures |TermOrder| == 24
    ensures forall i, j :: 0 <= i < j < |TermOrder| ==> TermOrder[i] != TermOrder[j]
  {
  }

  /** Consecutive terms lie 15 degrees apart, starting from 315 at 立春. */
  lemma LongitudesEvery15Degrees(i: int)
    requires 0 <= i < 24
    ensures Longitudes[i] == (315 + 15 * i) % 360
  {
    if i < 3 {
      assert (315 + 15 * i) % 360 == 315 + 15 * i;
    } else {
      assert (315 + 15 * i) % 360 == 15 * i - 45;
    }
  }

  /** Two terms per month, February to January. */
  lemma MonthEstimatesInPairs(i: int)
    requires 0 <= i < 24
    ensures MonthEstimates[i] == (i / 2 + 1) % 12 + 1
  {
  }

  /** The calculator's three tables: `term_order`, the `solar_terms` longitudes and
      `month_estimate`, the last two held parallel to the first. */
  datatype TermTable = TermTable(order: seq<string>, longitudes: seq<int>, months: seq<int>)

  /** The tables every script builds. */
  const Standard := TermTable(TermOrder, Longitudes, MonthEstimates)

  /** 24 distinct names, a longitude and a month for each. */
  predicate ValidTable(t: TermTable) {
    |t.order| == 24 && |t.longitudes| == 24 && |t.months| == 24
    && (forall i, j :: 0 <= i < j < 24 ==> t.order[i] != t.order[j])
    && (forall i :: 0 <= i < 24 ==> 1 <= t.months[i] <= 12)
  }

  lemma StandardValid()
    ensures ValidTable(Standard)
  {
    TermOrderDistinct();
    forall i | 0 <= i < 24
      ensures 1 <= MonthEstimates[i] <= 12
    {
      MonthEstimatesInPairs(i);
    }
  }

  /** `solar_terms[name]`: the target longitude, or None for a name that is not a term. */
  function Longitude(t: TermTable, name: string): (r: Option<int>)
    requires ValidTable(t)
    ensures r.None? <==> name !in t.order
  {
    match IndexOf(t.order, name)
    case None => None
    case Some(i) => Some(t.longitudes[i])
  }

  /** `month_estimate[name]`. */
  function MonthEstimate(t: TermTable, name: string): (r: Option<int>)
    requires ValidTable(t)
    ensures r.None? <==> name !in t.order
    ensures r.Some? ==> 1 <= r.value <= 12
  {
    match IndexOf(t.order, name)
    case None => None
    case Some(i) => Some(t.months[i])
  }

  /** Looking a term up by its name finds its own row of the tables. */
  lemma LookupByName(t: TermTable, i: int)
    requires ValidTable(t) && 0 <= i < 24
    ensures Longitude(t, t.order[i]) == Some(t.longitudes[i])
    ensures MonthEstimate(t, t.order[i]) == Some(t.months[i])
  {
    IndexOfDistinct(t.order, i);
  }

  /** 小寒 and 大寒 are searched in January of the following year. */
  function SearchYear(year: int, name: string): (r: int)
    ensures r == year + 1 <==> name == "小寒" || name == "大寒"
    ensures r == year || r == year + 1
  {
    if name == "小寒" || name == "大寒" then year + 1 else year
  }

  /** In the standard order only the last two terms move to the next year. */
  lemma SearchYearOfTerm(year: int, i: int)
    requires 0 <= i < 24
    ensures SearchYear(year, TermOrder[i]) == if i < 22 then year else year + 1
  {
    TermOrderDistinct();
    assert TermOrder[22] == "小寒" && TermOrder[23] == "大寒";
  }

  /** `ephem.Date('y/m/d')`: days since 1899-12-31 12:00 UTC, at midnight UTC of that day. */
  function EphemDate(y: int, m: int, d: int): real {
    (DaysFromCivil(y, m, d) - DaysFromCivil(1899, 12, 31)) as real - 0.5
  }

  /** The window from the 1st to the 28th is 27 days wide, whatever the month. */
  lemma WindowWidth(y: int, m: int)
    ensures EphemDate(y, m, 28) - EphemDate(y, m, 1) == 27.0
  {
    DaysFromCivilInMonth(y, m, 1, 27);
  }

  /** The bisection stops once the window is this narrow (in days). */
  const Eps: real := 0.00001
  /** ... or once the longitude is this close to the target (in degrees). */
  const Close: real := 0.001

  function Abs(x: real): (r: real)
    ensures r >= 0.0 && (r == x || r == -x)
  {
    if x < 0.0 then -x else x
  }

  /** Python's `x % 360` on floats: the result has the sign of the divisor. */
  function Mod360(x: real): (r: real)
    ensures 0.0 <= r < 360.0
    ensures IsWholeTurns(x - r)
  {
    var q := (x / 360.0).Floor;
    assert (x - (x - 360.0 * q as real)) / 360.0 == q as real;
    x - 360.0 * q as real
  }

  /** `x` is a whole number of full turns. */
  predicate IsWholeTurns(x: real) {
    x / 360.0 == (x / 360.0).Floor as real
  }

  /** Adding whole turns does not change the reduced angle. */
  lemma Mod360Periodic(x: real, k: int)
    ensures Mod360(x + 360.0 * k as real) == Mod360(x)
  {
    var q := (x / 360.0).Floor;
    assert (x + 360.0 * k as real) / 360.0 == x / 360.0 + k as real;
    assert ((x + 360.0 * k as real) / 360.0).Floor == q + k;
  }

  /** An angle already in [0, 360) is left alone. */
  lemma Mod360Fixed(x: real)
    requires 0.0 <= x < 360.0
    ensures Mod360(x) == x
  {
    assert (x / 360.0).Floor == 0;
  }

  /** `(lon % 360 - target) % 360`, then moved into (-180, 180]: the signed distance from
      the target to the current longitude along the circle. */
  function AngleDiff(lon: real, target: real): (r: real)
    ensures -180.0 < r <= 180.0
  {
    var d := Mod360(Mod360(lon) - target);
    if d > 180.0 then d - 360.0 else d
  }

  /** Whole turns add up to whole turns. */
  lemma WholeTurnsSum(a: real, b: real)
    requires IsWholeTurns(a) && IsWholeTurns(b)
    ensures IsWholeTurns(a + b)
  {
    var p := (a / 360.0).Floor;
    var q := (b / 360.0).Floor;
    assert a / 360.0 == p as real && b / 360.0 == q as real;
    assert (a + b) / 360.0 == a / 360.0 + b / 360.0;
    assert ((p + q) as real).Floor == p + q;
  }

  /** The signed distance differs from `lon - target` by whole turns only. */
  lemma AngleDiffCongruent(lon: real, target: real)
    ensures IsWholeTurns(lon - target - AngleDiff(lon, target))
  {
    var a := Mod360(lon);
    var d := Mod360(a - target);
    var r := AngleDiff(lon, target);
    WholeTurnsSum(lon - a, a - target - d);
    assert IsWholeTurns(d - r) by {
      assert (d - r) / 360.0 == (if d > 180.0 then 1 else 0) as real;
    }
    WholeTurnsSum(lon - target - d, d - r);
  }

  /** A longitude within half a turn of the target is measured directly. */
  lemma AngleDiffNear(lon: real, target: real)
    requires 0.0 <= target < 360.0 && 0.0 <= lon < 360.0
    requires -180.0 < lon - target <= 180.0
    ensures AngleDiff(lon, target) == lon - target
  {
    Mod360Fixed(lon);
    if lon - target >= 0.0 {
      Mod360Fixed(lon - target);
    } else {
      Mod360Periodic(lon - target, 1);
      Mod360Fixed(lon - target + 360.0);
    }
  }

  /** The signed distance at ephemeris date `t`. */
  function Diff(lon: real -> real, target: real, t: real): (r: real)
    ensures -180.0 < r <= 180.0
  {
    AngleDiff(lon(t), target)
  }

  /** The bisection as a recursive definition: halve [start, end] towards the side where
      the longitude is still short of the target, until it is close or the window is
      narrower than `Eps`; the answer is the last midpoint probed. */
  function Search(lon: real -> real, target: real, start: real, end: real): (r: real)
    requires end - start > Eps
    decreases ((end - start) / Eps).Floor
  {
    var mid := (start + end) / 2.0;
    var diff := Diff(lon, target, mid);
    if Abs(diff) < Close then mid
    else
      var s := if diff < 0.0 then mid else start;
      var e := if diff < 0.0 then end else mid;
      if e - s > Eps then
        HalvingShrinks(end - start, e - s);
        Search(lon, target, s, e)
      else mid
  }

  /** Halving a window wider than `Eps` lowers the termination measure. */
  lemma HalvingShrinks(w: real, h: real)
    requires w > Eps && h == w / 2.0
    ensures (h / Eps).Floor < (w / Eps).Floor
  {
    var x := w / Eps;
    assert h / Eps == x / 2.0;
    var f := x.Floor;
    assert f >= 1;
    assert (x / 2.0).Floor as real <= x / 2.0 < (f as real + 1.0) / 2.0 <= f as real;
  }

  /** The answer is strictly inside the window it was searched in. */
  lemma {:induction false} SearchInside(lon: real -> real, target: real, start: real, end: real)
    requires end - start > Eps
    ensures start < Search(lon, target, start, end) < end
    decreases ((end - start) / Eps).Floor
  {
    var mid := (start + end) / 2.0;
    var diff := Diff(lon, target, mid);
    if Abs(diff) >= Close {
      var s := if diff < 0.0 then mid else start;
      var e := if diff < 0.0 then end else mid;
      if e - s > Eps {
        HalvingShrinks(end - start, e - s);
        SearchInside(lon, target, s, e);
      }
    }
  }

  /** When the longitude is short of the target before an instant `c` of the window and
      not short after it (one crossing, as when the longitude increases through the
      window), the answer is either close to the target or within `Eps` of `c`. The
      premise is what the generators rely on: with a longitude that crosses twice, the
      halving can follow the wrong side. */
  lemma {:induction false} SearchFindsCrossing(lon: real -> real, target: real, start: real, end: real, c: real)
    requires end - start > Eps
    requires start <= c <= end
    requires forall t :: start <= t <= end ==> (Diff(lon, target, t) < 0.0 <==> t < c)
    ensures Abs(Diff(lon, target, Search(lon, target, start, end))) < Close
         || Abs(Search(lon, target, start, end) - c) <= Eps
    decreases ((end - start) / Eps).Floor
  {
    var mid := (start + end) / 2.0;
    var diff := Diff(lon, target, mid);
    var r := Search(lon, target, start, end);
    if Abs(diff) < Close {
      assert r == mid;
    } else {
      var s := if diff < 0.0 then mid else start;
      var e := if diff < 0.0 then end else mid;
      assert s <= c <= e;
      if e - s > Eps {
        HalvingShrinks(end - start, e - s);
        SearchFindsCrossing(lon, target, s, e, c);
        assert r == Search(lon, target, s, e);
      } else {
        assert r == mid && (mid == s || mid == e);
      }
    }
  }

  /** `find_solar_term_moment`'s loop, proved to compute `Search`. */
  method Bisect(lon: real -> real, target: real, start0: real, end0: real) returns (mid: real)
    requires end0 - start0 > Eps
    ensures mid == Search(lon, target, start0, end0)
  {
    var start, end := start0, end0;
    mid := start0;
    while end - start > Eps
      invariant end - start > Eps ==> Search(lon, target, start, end) == Search(lon, target, start0, end0)
      invariant end - start <= Eps ==> mid == Search(lon, target, start0, end0)
      decreases ((end - start) / Eps).Floor
    {
      mid := (start + end) / 2.0;
      var currentLongitude := Mod360(lon(mid));
      var diff := Mod360(currentLongitude - target);
      if diff > 180.0 {
        diff := diff - 360.0;
      }
      if Abs(diff) < Close {
        break;
      }
      HalvingShrinks(end - start, (end - start) / 2.0);
      if diff < 0.0 {
        start := mid;
      } else {
        end := mid;
      }
    }
  }

  /** The ephemeris epoch, 1899-12-31 12:00 UTC. */
  const EphemEpoch := Civil(1899, 12, 31, 12, 0, 0)

  /** The epoch in UTC seconds. */
  const EphemEpochSeconds := -2209032000

  lemma EphemEpochSecondsCorrect()
    ensures EphemEpochSeconds == CivilSeconds(EphemEpoch)
  {
  }

  /** `datetime(1899, 12, 31, 12) + timedelta(days=t)` read as UTC and converted to
      Beijing time; fractions of a second are dropped. */
  function ToBeijing(t: real): (m: Moment)
    ensures m.offset == BeijingOffset
  {
    Moment(EphemEpochSeconds + (t * 86400.0).Floor, BeijingOffset)
  }

  /** The two date conversions agree: an `ephem.Date` for a day converts back to the
      instant of midnight UTC of that day. */
  lemma ToBeijingOfEphemDate(y: int, m: int, d: int)
    ensures ToBeijing(EphemDate(y, m, d)).utc == DaysFromCivil(y, m, d) * DaySeconds
  {
    EphemEpochSecondsCorrect();
    var k := DaysFromCivil(y, m, d) - DaysFromCivil(1899, 12, 31);
    assert EphemDate(y, m, d) * 86400.0 == (k * 86400 - 43200) as real;
  }

  /** Later ephemeris dates never convert to earlier instants. */
  lemma ToBeijingMonotone(a: real, b: real)
    requires a <= b
    ensures ToBeijing(a).utc <= ToBeijing(b).utc
  {
    assert a * 86400.0 <= b * 86400.0;
  }

  /** `find_solar_term_moment(year, name, target)`: the Beijing-time moment of the term,
      or a KeyError for a name without a month estimate. */
  function SolarTermMoment(t: TermTable, lon: real -> real, year: int, name: string, target: real): (r: Result<Moment>)
    requires ValidTable(t)
    ensures r.Err? <==> name !in t.order
  {
    match MonthEstimate(t, name)
    case None => Err("KeyError: " + name)
    case Some(month) =>
      var y := SearchYear(year, name);
      WindowWidth(y, month);
      Ok(ToBeijing(Search(lon, target, EphemDate(y, month, 1), EphemDate(y, month, 28))))
  }

  /** A found moment lies between midnight UTC of the 1st and of the 28th of the month the
      term is searched in (the next year's January for 小寒 and 大寒). */
  lemma MomentInWindow(t: TermTable, lon: real -> real, year: int, name: string, target: real)
    requires ValidTable(t) && name in t.order
    ensures var r := SolarTermMoment(t, lon, year, name, target);
            var y := SearchYear(year, name);
            var m := MonthEstimate(t, name).value;
            r.Ok? && DaysFromCivil(y, m, 1) * DaySeconds <= r.value.utc <= DaysFromCivil(y, m, 28) * DaySeconds
  {
    var y := SearchYear(year, name);
    var m := MonthEstimate(t, name).value;
    WindowWidth(y, m);
    var s, e := EphemDate(y, m, 1), EphemDate(y, m, 28);
    SearchInside(lon, target, s, e);
    var t := Search(lon, target, s, e);
    ToBeijingMonotone(s, t);
    ToBeijingMonotone(t, e);
    ToBeijingOfEphemDate(y, m, 1);
    ToBeijingOfEphemDate(y, m, 28);
  }

  /** The method form of `find_solar_term_moment`. */
  method FindSolarTermMoment(t: TermTable, lon: real -> real, year: int, name: string, target: real) returns (r: Result<Moment>)
    requires ValidTable(t)
    ensures r == SolarTermMoment(t, lon, year, name, target)
  {
    var estimate := MonthEstimate(t, name);
    if estimate.None? {
      return Err("KeyError: " + name);
    }
    var searchYear := SearchYear(year, name);
    var month := estimate.value;
    WindowWidth(searchYear, month);
    var mid := Bisect(lon, target, EphemDate(searchYear, month, 1), EphemDate(searchYear, month, 28));
    r := Ok(ToBeijing(mid));
  }
}
