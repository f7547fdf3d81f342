/** The jeolip (節入) database generator: for every year from 1900 to 2100, the Korean-time
    moments of the twelve jeol, the terms that open the sexagenary months. Each moment is
    found by a capped stepping search on the ephemeris' heliocentric longitude `hlon` (in
    radians), a parameter of the model; `None` stands for a date at which the ephemeris
    raises. */
module GenerateJeolipDatabase {
  import opened Common
  import opened Calendar
  import opened Dicts
  import opened SolarTermTables
  import SolarTermSearch

  /** A jeol: its name, its target heliocentric longitude in degrees and the lunar month
      it opens. */
  type Jeol = (string, real, int)

  /** `JEOL_ONLY`. */
  const JeolOnly: seq<Jeol> := [
    ("立春", 135.0, 2), ("驚蟄", 165.0, 3), ("清明", 195.0, 4), ("立夏", 225.0, 5),
    ("芒種", 255.0, 6), ("小暑", 285.0, 7), ("立秋", 315.0, 8), ("白露", 345.0, 9),
    ("寒露", 15.0, 10), ("立冬", 45.0, 11), ("大雪", 75.0, 12), ("小寒", 105.0, 1)]

  /** What the generator needs of its table: twelve jeol under distinct names. */
  predicate ValidJeol(jt: seq<Jeol>) {
    |jt| == 12 && forall i, j :: 0 <= i < j < 12 ==> jt[i].0 != jt[j].0
  }

  lemma JeolOnlyValid()
    ensures ValidJeol(JeolOnly)
  {
    forall i, j | 0 <= i < j < 12
      ensures JeolOnly[i].0 != JeolOnly[j].0
    {
      SolarTermSearch.TermOrderDistinct();
      JeolAreStandardJieqi(i);
      JeolAreStandardJieqi(j);
    }
  }

  /** The `i`-th jeol is the `2i`-th term of the standard table, and its target is that
      term's solar longitude turned by 180 degrees: `hlon` is the longitude seen from the
      Sun, opposite the Sun's longitude seen from the Earth. Its month is the one after
      the term's search month. */
  lemma JeolAreStandardJieqi(i: int)
    requires 0 <= i < 12
    ensures JeolOnly[i].0 == SolarTermSearch.TermOrder[2 * i] == Jieqi[i]
    ensures JeolOnly[i].1 == ((SolarTermSearch.Longitudes[2 * i] + 180) % 360) as real
    ensures JeolOnly[i].2 == i % 12 + 2 - (if i == 11 then 12 else 0)
  {
  }

  /** `ephem.pi`. */
  const Pi: real := 3.141592653589793
  const TwoPi: real := 2.0 * Pi

  /** The convergence threshold on the angle, in radians (about 0.01 degree). */
  const Tolerance: real := 0.0002

  /** The cap on the number of steps. */
  const MaxIterations: nat := 100

  function Abs(x: real): (r: real)
    ensures r >= 0.0 && (r == x || r == -x)
  {
    if x < 0.0 then -x else x
  }

  /** `while diff > pi: diff -= 2 * pi`: how many turns the loop takes off. */
  function DownTurns(d: real): (k: nat)
    ensures d - k as real * TwoPi <= Pi
    ensures d <= Pi ==> k == 0
    ensures d > Pi ==> d - k as real * TwoPi > -Pi
    decreases if d > Pi then ((d - Pi) / TwoPi).Floor + 1 else 0
  {
    if d > Pi then
      assert (d - TwoPi - Pi) / TwoPi == (d - Pi) / TwoPi - 1.0;
      DownTurns(d - TwoPi) + 1
    else 0
  }

  /** `while diff < -pi: diff += 2 * pi`: how many turns the loop adds. */
  function UpTurns(d: real): (k: nat)
    ensures d + k as real * TwoPi >= -Pi
    ensures d >= -Pi ==> k == 0
    ensures d < -Pi ==> d + k as real * TwoPi < Pi
    decreases if d < -Pi then ((-Pi - d) / TwoPi).Floor + 1 else 0
  {
    if d < -Pi then
      assert (-Pi - (d + TwoPi)) / TwoPi == (-Pi - d) / TwoPi - 1.0;
      UpTurns(d + TwoPi) + 1
    else 0
  }

  /** The whole turns the two loops add to the difference. */
  function Turns(d: real): int {
    var down := DownTurns(d);
    UpTurns(d - down as real * TwoPi) - down
  }

  /** The difference brought into [-pi, pi] by the two loops: it differs from the
      original by whole turns, and an angle already in range is kept. */
  function Normalized(d: real): (r: real)
    ensures -Pi <= r <= Pi && r == d + Turns(d) as real * TwoPi
    ensures -Pi <= d <= Pi ==> r == d
  {
    var down := DownTurns(d);
    var x := d - down as real * TwoPi;
    var up := UpTurns(x);
    assert (up - down) as real * TwoPi == up as real * TwoPi - down as real * TwoPi;
    x + up as real * TwoPi
  }

  /** Two angles in [-pi, pi] a whole number of turns apart are equal, or are the two
      ends of the range: the normalised difference is unique up to that one tie. */
  lemma NormalizedUnique(d: real, k: int)
    requires -Pi <= d + k as real * TwoPi <= Pi
    ensures d + k as real * TwoPi == Normalized(d) || Abs(d + k as real * TwoPi - Normalized(d)) == TwoPi
  {
    var m := k - Turns(d);
    assert d + k as real * TwoPi - Normalized(d) == m as real * TwoPi;
    ScaledTurns(m);
    assert m == -1 || m == 0 || m == 1;
  }

  /** Two or more turns either way are more than the width of [-pi, pi]. */
  lemma ScaledTurns(m: int)
    ensures m >= 2 ==> m as real * TwoPi >= 2.0 * TwoPi
    ensures m <= -2 ==> m as real * TwoPi <= -2.0 * TwoPi
    ensures m == 1 ==> m as real * TwoPi == TwoPi
    ensures m == -1 ==> m as real * TwoPi == -TwoPi
  {
    if m >= 2 {
      assert (m - 2) as real * TwoPi >= 0.0;
    } else if m <= -2 {
      assert (-2 - m) as real * TwoPi >= 0.0;
    }
  }

  /** `while diff > pi: diff -= 2 * pi`. */
  method TurnDown(d: real) returns (diff: real)
    ensures diff == d - DownTurns(d) as real * TwoPi
  {
    diff := d;
    ghost var down: nat := 0;
    while diff > Pi
      invariant diff == d - down as real * TwoPi && DownTurns(diff) + down == DownTurns(d)
      decreases DownTurns(diff)
    {
      diff := diff - TwoPi;
      down := down + 1;
    }
  }

  /** `while diff < -pi: diff += 2 * pi`. */
  method TurnUp(d: real) returns (diff: real)
    ensures diff == d + UpTurns(d) as real * TwoPi
  {
    diff := d;
    ghost var up: nat := 0;
    while diff < -Pi
      invariant diff == d + up as real * TwoPi && UpTurns(diff) + up == UpTurns(d)
      decreases UpTurns(diff)
    {
      diff := diff + TwoPi;
      up := up + 1;
    }
  }

  /** The two loops of `calculate_solar_term_time` that normalise the difference. */
  method NormalizeAngle(d: real) returns (diff: real)
    ensures diff == Normalized(d)
  {
    diff := TurnDown(d);
    diff := TurnUp(diff);
  }

  /** The step in days: the difference in degrees, the Sun moving about a degree a day,
      halved when it is under a day. */
  function StepDays(diff: real): real {
    var days := diff * 180.0 / Pi;
    if Abs(days) < 1.0 then days * 0.5 else days
  }

  /** A step goes the way the difference points, and by at most half a year. */
  lemma StepToward(diff: real)
    requires -Pi <= diff <= Pi
    ensures diff > 0.0 ==> StepDays(diff) > 0.0
    ensures diff < 0.0 ==> StepDays(diff) < 0.0
    ensures diff == 0.0 ==> StepDays(diff) == 0.0
    ensures Abs(StepDays(diff)) <= 180.0
  {
    var days := diff * 180.0 / Pi;
    assert days == diff * (180.0 / Pi);
    assert -180.0 <= days <= 180.0 by {
      assert Pi * (180.0 / Pi) == 180.0;
    }
  }

  /** The search from `date` with `n` steps left, inside the limits `lower` and `upper`:
      it stops when the normalised difference is under the tolerance, when the steps run
      out, or right after a step that leaves the limits; an ephemeris error ends it with
      an error. */
  function Walk(hlon: real -> Option<real>, target: real, lower: real, upper: real, date: real, n: nat): Result<real>
    decreases n
  {
    if n == 0 then Ok(date)
    else
      match hlon(date)
      case None => Err("ephemeris error")
      case Some(current) =>
        var diff := Normalized(target - current);
        if Abs(diff) < Tolerance then Ok(date)
        else
          var next := date + StepDays(diff);
          if next < lower || next > upper then Ok(next)
          else Walk(hlon, target, lower, upper, next, n - 1)
  }

  /** Started inside the limits, the search ends at most one step, half a year, outside
      them. */
  lemma {:induction false} WalkStaysNear(hlon: real -> Option<real>, target: real, lower: real, upper: real, date: real, n: nat)
    requires lower <= date <= upper
    decreases n
    ensures var r := Walk(hlon, target, lower, upper, date, n);
            r.Ok? ==> lower - 180.0 <= r.value <= upper + 180.0
  {
    if n > 0 && hlon(date).Some? {
      var diff := Normalized(target - hlon(date).value);
      StepToward(diff);
      var next := date + StepDays(diff);
      if lower <= next <= upper {
        WalkStaysNear(hlon, target, lower, upper, next, n - 1);
      }
    }
  }

  /** When the search ends inside the limits before its steps run out, it ends at a date
      where the longitude is within the tolerance of the target. */
  lemma {:induction false} WalkConverges(hlon: real -> Option<real>, target: real, lower: real, upper: real, date: real, n: nat)
    requires lower <= date <= upper
    decreases n
    ensures var r := Walk(hlon, target, lower, upper, date, n);
            r.Ok? && lower <= r.value <= upper ==>
              Reached(hlon, target, r.value) || Walk(hlon, target, lower, upper, date, n) == Last(hlon, target, lower, upper, date, n)
  {
    if n > 0 && hlon(date).Some? {
      var diff := Normalized(target - hlon(date).value);
      var next := date + StepDays(diff);
      if Abs(diff) >= Tolerance && lower <= next <= upper {
        WalkConverges(hlon, target, lower, upper, next, n - 1);
      }
    }
  }

  /** The longitude at `date` is within the tolerance of the target. */
  predicate Reached(hlon: real -> Option<real>, target: real, date: real) {
    hlon(date).Some? && Abs(Normalized(target - hlon(date).value)) < Tolerance
  }

  /** Where the search is after all `n` steps were taken inside the limits, if it gets
      that far. */
  function Last(hlon: real -> Option<real>, target: real, lower: real, upper: real, date: real, n: nat): Result<real>
    decreases n
  {
    if n == 0 then Ok(date)
    else
      match hlon(date)
      case None => Err("ephemeris error")
      case Some(current) =>
        var next := date + StepDays(Normalized(target - current));
        if next < lower || next > upper then Err("left the limits")
        else Last(hlon, target, lower, upper, next, n - 1)
  }

  /** `ephem.Date('y/m/1')`. */
  function DayStart(y: int, m: int): real {
    SolarTermSearch.EphemDate(y, m, 1)
  }

  /** The search starts on January 1 for targets under 180 degrees and on July 1
      otherwise. */
  function StartDate(year: int, longitude: real): (r: real)
    ensures r == DayStart(year, if longitude < 180.0 then 1 else 7)
  {
    if longitude < 180.0 then DayStart(year, 1) else DayStart(year, 7)
  }

  /** The start lies inside the limits, January 1 of the year before to January 1 two
      years on. */
  lemma StartInsideLimits(year: int, longitude: real)
    ensures DayStart(year - 1, 1) <= StartDate(year, longitude) <= DayStart(year + 2, 1)
  {
    assert DaysFromCivil(year - 1, 1, 1) < DaysFromCivil(year, 1, 1);
    assert DaysFromCivil(year, 7, 1) < DaysFromCivil(year + 2, 1, 1);
  }

  /** `utc_datetime.astimezone(KST)`: the ephemeris date read as a UTC instant (whole
      seconds), in Korean time. */
  function ToKst(date: real): (m: Moment)
    ensures m.offset == KstOffset && m.utc == SolarTermSearch.ToBeijing(date).utc
  {
    Moment(SolarTermSearch.ToBeijing(date).utc, KstOffset)
  }

  /** The limits of a search and its start date. */
  datatype Window = Window(lower: real, upper: real, start: real)

  /** The window of `calculate_solar_term_time(year, longitude)`: January 1 of the year
      before to January 1 two years on, starting inside. */
  function WindowOf(year: int, longitude: real): (w: Window)
    ensures w.lower <= w.start <= w.upper
  {
    StartInsideLimits(year, longitude);
    Window(DayStart(year - 1, 1), DayStart(year + 2, 1), StartDate(year, longitude))
  }

  /** `longitude * ephem.pi / 180`. */
  function Radians(longitude: real): real {
    longitude * Pi / 180.0
  }

  /** The date the search ends at, aimed at `longitude` degrees. */
  function SearchDate(hlon: real -> Option<real>, w: Window, longitude: real): Result<real> {
    Walk(hlon, Radians(longitude), w.lower, w.upper, w.start, MaxIterations)
  }

  /** The search in the window `w`, its end read in Korean time. */
  function SearchMoment(hlon: real -> Option<real>, w: Window, longitude: real): Result<Moment> {
    KstOf(SearchDate(hlon, w, longitude))
  }

  /** An error passes through; a date is read in Korean time. */
  function KstOf(date: Result<real>): Result<Moment> {
    match date
    case Err(e) => Err(e)
    case Ok(d) => Ok(ToKst(d))
  }

  /** `calculate_solar_term_time(year, longitude)`. */
  function TermTime(hlon: real -> Option<real>, year: int, longitude: real): Result<Moment> {
    SearchMoment(hlon, WindowOf(year, longitude), longitude)
  }

  /** A computed moment is no more than half a year outside its window. */
  lemma TermTimeNear(hlon: real -> Option<real>, w: Window, longitude: real)
    requires w.lower <= w.start <= w.upper
    ensures var r := SearchDate(hlon, w, longitude);
            r.Ok? ==> ToKst(w.lower - 180.0).utc <= ToKst(r.value).utc <= ToKst(w.upper + 180.0).utc
  {
    WalkStaysNear(hlon, Radians(longitude), w.lower, w.upper, w.start, MaxIterations);
    var r := SearchDate(hlon, w, longitude);
    if r.Ok? {
      SolarTermSearch.ToBeijingMonotone(w.lower - 180.0, r.value);
      SolarTermSearch.ToBeijingMonotone(r.value, w.upper + 180.0);
    }
  }

  /** The stepping loop of `calculate_solar_term_time`: at most `MaxIterations` steps. */
  method StepSearch(hlon: real -> Option<real>, target: real, lower: real, upper: real, start: real) returns (r: Result<real>)
    ensures r == Walk(hlon, target, lower, upper, start, MaxIterations)
  {
    var date := start;
    for iteration := 0 to MaxIterations
      invariant Walk(hlon, target, lower, upper, date, MaxIterations - iteration) == Walk(hlon, target, lower, upper, start, MaxIterations)
    {
      var current := hlon(date);
      if current.None? {
        return Err("ephemeris error");
      }
      var diff := NormalizeAngle(target - current.value);
      if Abs(diff) < Tolerance {
        return Ok(date);
      }
      date := date + StepDays(diff);
      if date < lower || date > upper {
        return Ok(date);
      }
    }
    r := Ok(date);
  }

  /** The search in a given window, then the conversion to Korean time. */
  method SearchInWindow(hlon: real -> Option<real>, w: Window, longitude: real) returns (r: Result<Moment>)
    ensures r == SearchMoment(hlon, w, longitude)
  {
    var date := StepSearch(hlon, Radians(longitude), w.lower, w.upper, w.start);
    if date.Err? {
      return Err(date.msg);
    }
    r := Ok(ToKst(date.value));
  }

  /** The method form of `calculate_solar_term_time`. */
  method CalculateSolarTermTime(hlon: real -> Option<real>, year: int, longitude: real) returns (r: Result<Moment>)
    ensures r == TermTime(hlon, year, longitude)
  {
    var w := WindowOf(year, longitude);
    r := SearchInWindow(hlon, w, longitude);
  }

  /** A stored jeol: its Korean-time moment (from which `datetime`, `year`, ..., `second`
      are read), its target longitude and its lunar month. */
  datatype JeolRecord = JeolRecord(moment: Moment, longitude: real, lunarMonth: int)

  /** The year a jeol is computed in: 小寒, the jeol of month 1, falls in January of the
      next year. */
  function CalcYear(year: int, month: int): int {
    if month > 1 then year else year + 1
  }

  /** Only 小寒 is computed in the next year. */
  lemma CalcYearOfJeol(year: int, i: int)
    requires 0 <= i < 12
    ensures CalcYear(year, JeolOnly[i].2) == year + 1 <==> JeolOnly[i].0 == "小寒"
    ensures CalcYear(year, JeolOnly[i].2) == year || CalcYear(year, JeolOnly[i].2) == year + 1
  {
    JeolOnlyValid();
    assert JeolOnly[11].0 == "小寒";
  }

  /** The search as a function of the year computed in and the longitude, the shape in
      which the tables below take it (`find`). */
  function Finder(hlon: real -> Option<real>): (int, real) -> Result<Moment> {
    (year: int, longitude: real) => TermTime(hlon, year, longitude)
  }

  /** The first `n` jeol of `year` that were computed without an error, in table order. */
  function YearEntries(jt: seq<Jeol>, find: (int, real) -> Result<Moment>, year: int, n: nat): (d: YearTerms<JeolRecord>)
    requires ValidJeol(jt) && n <= 12
    ensures |d| <= n
  {
    if n == 0 then []
    else
      var prev := YearEntries(jt, find, year, n - 1);
      var j := jt[n - 1];
      match find(CalcYear(year, j.2), j.1)
      case Err(_) => prev
      case Ok(m) => prev + [(j.0, JeolRecord(m, j.1, j.2))]
  }

  /** The jeol `j` computed without error, with its record. */
  predicate Computed(jt: seq<Jeol>, find: (int, real) -> Result<Moment>, year: int, j: int)
    requires 0 <= j < |jt|
  {
    find(CalcYear(year, jt[j].2), jt[j].1).Ok?
  }

  /** Only the table's first `n` names appear in a year, each once. */
  lemma {:induction false} YearEntriesNames(jt: seq<Jeol>, find: (int, real) -> Result<Moment>, year: int, n: nat)
    requires ValidJeol(jt) && n <= 12
    ensures var d := YearEntries(jt, find, year, n);
            WellFormed(d) && forall k :: 0 <= k < |d| ==> exists j :: 0 <= j < n && d[k].0 == jt[j].0
  {
    if n > 0 {
      YearEntriesNames(jt, find, year, n - 1);
      var prev := YearEntries(jt, find, year, n - 1);
      forall k | 0 <= k < |prev|
        ensures prev[k].0 != jt[n - 1].0
      {
        var j :| 0 <= j < n - 1 && prev[k].0 == jt[j].0;
      }
    }
  }

  /** The next jeol's name is not yet in the year. */
  lemma YearEntriesFresh(jt: seq<Jeol>, find: (int, real) -> Result<Moment>, year: int, n: nat)
    requires ValidJeol(jt) && n < 12
    ensures !Has(YearEntries(jt, find, year, n), jt[n].0)
  {
    YearEntriesNames(jt, find, year, n);
    var d := YearEntries(jt, find, year, n);
    forall k | 0 <= k < |d|
      ensures d[k].0 != jt[n].0
    {
      var j :| 0 <= j < n && d[k].0 == jt[j].0;
    }
  }

  /** A year holds exactly the jeol computed without an error, each with its own moment,
      longitude and month. */
  lemma {:induction false} YearEntriesSpec(jt: seq<Jeol>, find: (int, real) -> Result<Moment>, year: int, n: nat)
    requires ValidJeol(jt) && n <= 12
    ensures var d := YearEntries(jt, find, year, n);
            forall j :: 0 <= j < n ==>
              Get(d, jt[j].0) == if Computed(jt, find, year, j)
                                 then Some(JeolRecord(find(CalcYear(year, jt[j].2), jt[j].1).value, jt[j].1, jt[j].2))
                                 else None
  {
    if n > 0 {
      YearEntriesSpec(jt, find, year, n - 1);
      YearEntriesFresh(jt, find, year, n - 1);
      YearEntriesNames(jt, find, year, n - 1);
      var prev := YearEntries(jt, find, year, n - 1);
      var name := jt[n - 1].0;
      GetSpec(prev, name);
      if Computed(jt, find, year, n - 1) {
        var rec := JeolRecord(find(CalcYear(year, jt[n - 1].2), jt[n - 1].1).value, jt[n - 1].1, jt[n - 1].2);
        PutFresh(prev, name, rec);
        forall j | 0 <= j < n
          ensures Get(prev + [(name, rec)], jt[j].0) == if j == n - 1 then Some(rec) else Get(prev, jt[j].0)
        {
          PutGet(prev, name, rec, jt[j].0);
        }
      }
    }
  }

  /** Computing the next jeol stores it under its name, unless its search raised. */
  lemma YearEntriesStep(jt: seq<Jeol>, find: (int, real) -> Result<Moment>, year: int, n: nat,
                        d: YearTerms<JeolRecord>, t: Result<Moment>)
    requires ValidJeol(jt) && n < 12 && d == YearEntries(jt, find, year, n)
    requires t == find(CalcYear(year, jt[n].2), jt[n].1)
    ensures YearEntries(jt, find, year, n + 1)
            == if t.Ok? then Put(d, jt[n].0, JeolRecord(t.value, jt[n].1, jt[n].2)) else d
  {
    if t.Ok? {
      YearEntriesFresh(jt, find, year, n);
      PutFresh(d, jt[n].0, JeolRecord(t.value, jt[n].1, jt[n].2));
    }
  }

  /** `find` gives the moments the search finds. */
  ghost predicate Finds(hlon: real -> Option<real>, find: (int, real) -> Result<Moment>) {
    forall year: int, longitude: real {:trigger TermTime(hlon, year, longitude)} :: find(year, longitude) == TermTime(hlon, year, longitude)
  }

  lemma FinderFinds(hlon: real -> Option<real>)
    ensures Finds(hlon, Finder(hlon))
  {
  }

  /** One pass of the loop over `JEOL_ONLY`. */
  method AddJeol(jt: seq<Jeol>, hlon: real -> Option<real>, ghost find: (int, real) -> Result<Moment>, year: int, i: nat,
                 yearData: YearTerms<JeolRecord>) returns (next: YearTerms<JeolRecord>)
    requires ValidJeol(jt) && Finds(hlon, find) && i < 12 && yearData == YearEntries(jt, find, year, i)
    ensures next == YearEntries(jt, find, year, i + 1)
  {
    var (name, longitude, month) := jt[i];
    var termTime := CalculateSolarTermTime(hlon, CalcYear(year, month), longitude);
    YearEntriesStep(jt, find, year, i, yearData, termTime);
    next := yearData;
    if termTime.Ok? {
      next := Put(yearData, name, JeolRecord(termTime.value, longitude, month));
    }
  }

  /** The method form of the loop over `JEOL_ONLY` for one year; a term whose search
      raises is skipped. */
  method JeolYear(jt: seq<Jeol>, hlon: real -> Option<real>, ghost find: (int, real) -> Result<Moment>, year: int)
    returns (yearData: YearTerms<JeolRecord>)
    requires ValidJeol(jt) && Finds(hlon, find)
    ensures yearData == YearEntries(jt, find, year, |jt|)
  {
    yearData := [];
    for i := 0 to 12
      invariant yearData == YearEntries(jt, find, year, i)
    {
      yearData := AddJeol(jt, hlon, find, year, i, yearData);
    }
  }

  /** The years `start`, ..., `start + n - 1`, each with its jeol. */
  function Years(jt: seq<Jeol>, find: (int, real) -> Result<Moment>, start: int, n: nat): (db: YearTable<JeolRecord>)
    requires ValidJeol(jt)
    ensures |db| == n
  {
    if n == 0 then [] else Years(jt, find, start, n - 1) + [(start + n - 1, YearEntries(jt, find, start + n - 1, |jt|))]
  }

  /** Entry `i` is year `start + i` with its jeol. */
  lemma {:induction false} YearsEntries(jt: seq<Jeol>, find: (int, real) -> Result<Moment>, start: int, n: nat)
    requires ValidJeol(jt)
    ensures forall i :: 0 <= i < n ==> Years(jt, find, start, n)[i] == (start + i, YearEntries(jt, find, start + i, |jt|))
  {
    if n > 0 {
      YearsEntries(jt, find, start, n - 1);
    }
  }

  /** Storing the next year appends it. */
  lemma YearsStep(jt: seq<Jeol>, find: (int, real) -> Result<Moment>, start: int, n: nat,
                  db: YearTable<JeolRecord>, v: YearTerms<JeolRecord>)
    requires ValidJeol(jt) && db == Years(jt, find, start, n) && v == YearEntries(jt, find, start + n, |jt|)
    ensures Put(db, start + n, v) == Years(jt, find, start, n + 1)
  {
    YearsEntries(jt, find, start, n);
    assert !Has(db, start + n);
    PutFresh(db, start + n, v);
  }

  const FirstYear := 1900
  const LastYear := 2100

  /** One pass of the year loop of `generate_jeolip_database`. */
  method AddJeolYear(jt: seq<Jeol>, hlon: real -> Option<real>, ghost find: (int, real) -> Result<Moment>, n: nat,
                     db: YearTable<JeolRecord>) returns (next: YearTable<JeolRecord>)
    requires ValidJeol(jt) && Finds(hlon, find) && db == Years(jt, find, FirstYear, n)
    ensures next == Years(jt, find, FirstYear, n + 1)
  {
    var yearData := JeolYear(jt, hlon, find, FirstYear + n);
    YearsStep(jt, find, FirstYear, n, db, yearData);
    next := Put(db, FirstYear + n, yearData);
  }

  /** `generate_jeolip_database()`. */
  method GenerateJeolipDatabaseOf(jt: seq<Jeol>, hlon: real -> Option<real>) returns (db: YearTable<JeolRecord>)
    requires ValidJeol(jt)
    ensures db == Years(jt, Finder(hlon), FirstYear, LastYear - FirstYear + 1)
  {
    FinderFinds(hlon);
    db := [];
    for i := 0 to LastYear - FirstYear + 1
      invariant db == Years(jt, Finder(hlon), FirstYear, i)
    {
      db := AddJeolYear(jt, hlon, Finder(hlon), i, db);
    }
  }

  /** The database holds one key per year from 1900 to 2100, each once, and every year
      at most its twelve jeol. */
  lemma DatabaseYears(jt: seq<Jeol>, find: (int, real) -> Result<Moment>)
    requires ValidJeol(jt)
    ensures var db := Years(jt, find, FirstYear, LastYear - FirstYear + 1);
            WellFormed(db) && |db| == 201 && (forall y :: Has(db, y) <==> FirstYear <= y <= LastYear)
            && forall i :: 0 <= i < |db| ==> |db[i].1| <= 12
  {
    var n := LastYear - FirstYear + 1;
    YearsEntries(jt, find, FirstYear, n);
    var db := Years(jt, find, FirstYear, n);
    forall y | FirstYear <= y <= LastYear
      ensures Has(db, y)
    {
      assert db[y - FirstYear].0 == y;
    }
  }
}
