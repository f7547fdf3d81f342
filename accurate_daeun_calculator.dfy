/** The table-driven starting age of the major fortune: the month-starting term after (or
    before) the birth is looked up in a year-keyed table of term times, and every three days
    between them make one year of age, capped at ten. Besides the whole years the calculator
    reports a precise start: the birthday that many years on plus the fractional year. */
module AccurateDaeunCalculator {
  import opened Common
  import opened Calendar
  import opened Dicts
  import opened StartAgeCommon

  /** The loaded file's "solar_terms_data": year to that year's terms (a file without the
      key reads as the empty table). */
  type TermDatabase = map<int, YearTerms>

  /** This calculator needs every field, "second" included, and dates 小寒 in January of the
      next year when searching forward and of the same year when searching backward. */
  const NextReading := Reading(true, false)
  const PreviousReading := Reading(false, false)

  /** A stored term of `year` read in the given month, when the table holds it. */
  function StoredTerm(db: TermDatabase, year: int, name: string, month: int): (r: Option<Aware>)
    ensures r.Some? ==> year in db && Has(db[year], name)
  {
    if year in db && Has(db[year], name) then
      GetSpec(db[year], name);
      TermInstant(Get(db[year], name).value, year, month, false)
    else None
  }

  /** `_get_next_jeol`: nothing when the birth year is not in the table; otherwise the
      earliest readable term of that year strictly after the birth, and when there is none,
      the next year's 立春 (in February), if stored and readable. */
  function NextJeol(db: TermDatabase, birth: Aware): (r: Option<Aware>)
    ensures birth.fields.year !in db ==> r.None?
    ensures r.Some? ==> Utc(r.value) > Utc(birth) || r == StoredTerm(db, birth.fields.year + 1, "立春", 2)
  {
    var year := birth.fields.year;
    if year !in db then None
    else
      var ds := Candidates(db[year], year, NextReading);
      match EarliestAfter(ds, birth)
      case Some(i) =>
        assert Utc(ds[i].1) > Utc(birth) by { EarliestAfterSpec(ds, birth); }
        Some(ds[i].1)
      case None => StoredTerm(db, year + 1, "立春", 2)
  }

  /** `_get_previous_jeol`: nothing when the birth year is not in the table; otherwise the
      latest readable term of that year strictly before the birth, and when there is none,
      the previous year's 大雪 (in December), if stored and readable. */
  function PreviousJeol(db: TermDatabase, birth: Aware): (r: Option<Aware>)
    ensures birth.fields.year !in db ==> r.None?
    ensures r.Some? ==> Utc(r.value) < Utc(birth) || r == StoredTerm(db, birth.fields.year - 1, "大雪", 12)
  {
    var year := birth.fields.year;
    if year !in db then None
    else
      var ds := Candidates(db[year], year, PreviousReading);
      match LatestBefore(ds, birth)
      case Some(i) =>
        assert Utc(ds[i].1) < Utc(birth) by { LatestBeforeSpec(ds, birth); }
        Some(ds[i].1)
      case None => StoredTerm(db, year - 1, "大雪", 12)
  }

  method GetNextJeol(db: TermDatabase, birth: Aware) returns (r: Option<Aware>)
    ensures r == NextJeol(db, birth)
  {
    var year := birth.fields.year;
    if year !in db {
      return None;
    }
    var ds := BuildCandidates(db[year], year, NextReading);
    var i := FindEarliestAfter(ds, birth);
    if i.Some? {
      return Some(ds[i.value].1);
    }
    r := StoredTerm(db, year + 1, "立春", 2);
  }

  method GetPreviousJeol(db: TermDatabase, birth: Aware) returns (r: Option<Aware>)
    ensures r == PreviousJeol(db, birth)
  {
    var year := birth.fields.year;
    if year !in db {
      return None;
    }
    var ds := BuildCandidates(db[year], year, PreviousReading);
    var i := FindLatestBefore(ds, birth);
    if i.Some? {
      return Some(ds[i.value].1);
    }
    r := StoredTerm(db, year - 1, "大雪", 12);
  }

  /** A readable stored term of the birth year strictly after the birth. */
  predicate LaterStored(db: TermDatabase, birth: Aware, k: int, t: Aware)
    requires birth.fields.year in db
  {
    var yd := db[birth.fields.year];
    0 <= k < |yd| && Candidate(yd[k].0, yd[k].1, birth.fields.year, NextReading) == Some(t) && Utc(t) > Utc(birth)
  }

  /** A readable stored term of the birth year strictly before the birth. */
  predicate EarlierStored(db: TermDatabase, birth: Aware, k: int, t: Aware)
    requires birth.fields.year in db
  {
    var yd := db[birth.fields.year];
    0 <= k < |yd| && Candidate(yd[k].0, yd[k].1, birth.fields.year, PreviousReading) == Some(t) && Utc(t) < Utc(birth)
  }

  /** The forward search answers with a stored term later than the birth and no later than
      any other, whenever the birth year stores one; it falls back to the next year's 立春
      only when it stores none, and answers nothing when the birth year is not stored. */
  lemma NextJeolSpec(db: TermDatabase, birth: Aware)
    ensures birth.fields.year !in db ==> NextJeol(db, birth).None?
    ensures birth.fields.year in db && (exists k, t :: LaterStored(db, birth, k, t)) ==>
              NextJeol(db, birth).Some? &&
              (exists k :: LaterStored(db, birth, k, NextJeol(db, birth).value)) &&
              forall k, t :: LaterStored(db, birth, k, t) ==> Utc(NextJeol(db, birth).value) <= Utc(t)
    ensures birth.fields.year in db && (forall k, t :: !LaterStored(db, birth, k, t)) ==>
              NextJeol(db, birth) == StoredTerm(db, birth.fields.year + 1, "立春", 2)
  {
    var year := birth.fields.year;
    if year in db {
      var yd := db[year];
      var ds := Candidates(yd, year, NextReading);
      EarliestAfterSpec(ds, birth);
      match EarliestAfter(ds, birth)
      case Some(i) =>
        CandidatesMembers(yd, year, NextReading, ds[i]);
        var k :| Builds(yd, year, NextReading, k, ds[i]);
        assert LaterStored(db, birth, k, ds[i].1);
        forall k', t | LaterStored(db, birth, k', t)
          ensures Utc(ds[i].1) <= Utc(t)
        {
          CandidatesMembers(yd, year, NextReading, (yd[k'].0, t));
          assert Builds(yd, year, NextReading, k', (yd[k'].0, t));
          var j :| 0 <= j < |ds| && ds[j] == (yd[k'].0, t);
        }
      case None =>
        forall k, t | LaterStored(db, birth, k, t)
          ensures false
        {
          CandidatesMembers(yd, year, NextReading, (yd[k].0, t));
          assert Builds(yd, year, NextReading, k, (yd[k].0, t));
        }
    }
  }

  /** The backward search answers with a stored term earlier than the birth and no earlier
      than any other, whenever the birth year stores one; it falls back to the previous
      year's 大雪 only when it stores none, and answers nothing when the birth year is not
      stored. */
  lemma PreviousJeolSpec(db: TermDatabase, birth: Aware)
    ensures birth.fields.year !in db ==> PreviousJeol(db, birth).None?
    ensures birth.fields.year in db && (exists k, t :: EarlierStored(db, birth, k, t)) ==>
              PreviousJeol(db, birth).Some? &&
              (exists k :: EarlierStored(db, birth, k, PreviousJeol(db, birth).value)) &&
              forall k, t :: EarlierStored(db, birth, k, t) ==> Utc(PreviousJeol(db, birth).value) >= Utc(t)
    ensures birth.fields.year in db && (forall k, t :: !EarlierStored(db, birth, k, t)) ==>
              PreviousJeol(db, birth) == StoredTerm(db, birth.fields.year - 1, "大雪", 12)
  {
    var year := birth.fields.year;
    if year in db {
      var yd := db[year];
      var ds := Candidates(yd, year, PreviousReading);
      LatestBeforeSpec(ds, birth);
      match LatestBefore(ds, birth)
      case Some(i) =>
        CandidatesMembers(yd, year, PreviousReading, ds[i]);
        var k :| Builds(yd, year, PreviousReading, k, ds[i]);
        assert EarlierStored(db, birth, k, ds[i].1);
        forall k', t | EarlierStored(db, birth, k', t)
          ensures Utc(ds[i].1) >= Utc(t)
        {
          CandidatesMembers(yd, year, PreviousReading, (yd[k'].0, t));
          assert Builds(yd, year, PreviousReading, k', (yd[k'].0, t));
          var j :| 0 <= j < |ds| && ds[j] == (yd[k'].0, t);
        }
      case None =>
        forall k, t | EarlierStored(db, birth, k, t)
          ensures false
        {
          CandidatesMembers(yd, year, PreviousReading, (yd[k].0, t));
          assert Builds(yd, year, PreviousReading, k, (yd[k].0, t));
        }
    }
  }

  /** `_get_jeol_name_from_date`'s month table: the term that starts each civil month. */
  function JeolNameOfMonth(month: int): (name: string)
    ensures name == "不明" <==> !(1 <= month <= 12)
  {
    if month == 1 then "小寒" else if month == 2 then "立春" else if month == 3 then "驚蟄"
    else if month == 4 then "清明" else if month == 5 then "立夏" else if month == 6 then "芒種"
    else if month == 7 then "小暑" else if month == 8 then "立秋" else if month == 9 then "白露"
    else if month == 10 then "寒露" else if month == 11 then "立冬" else if month == 12 then "大雪"
    else "不明"
  }

  /** `_get_jeol_name_from_date`: the name depends on nothing but the date's month. */
  function JeolNameFromDate(date: Option<Aware>): string {
    if date.None? then "不明" else JeolNameOfMonth(date.value.fields.month)
  }

  /** The month table inverts the term-to-month table: a term's month names that term back. */
  lemma JeolNameInvertsMonths(name: string)
    requires name in JeolMonths
    ensures JeolNameOfMonth(JeolMonths[name]) == name
  {
  }

  /** The name read back from a term's date is the name it was stored under. */
  lemma JeolNameOfStoredTerm(name: string, entry: TermEntry, year: int, rd: Reading)
    requires Candidate(name, entry, year, rd).Some?
    ensures JeolNameFromDate(Candidate(name, entry, year, rd)) == name
  {
    JeolNameInvertsMonths(name);
  }

  /** What `calculate_starting_age` returns: the bare integer 5 when no term was found, or
      the result record. */
  datatype AgeOutcome =
    | DefaultAge(age: int)
    | Computed(startingAge: int, direction: string, jeolDate: Aware, jeolName: string,
               daysDiff: real, preciseStart: PreciseStart)

  /** The precise start for `n` whole years (of `precise`) capped to `final`: the tenth
      birthday exactly when the cap applied, the birth plus the precise years in days at
      age 0, and otherwise the birthday `final` years on plus the fractional year in days
      (365.25 days a year). Nothing when that birthday is not a date. The source's separate
      branch for an age raised to 0 by the lower cap cannot be taken (the day count is never
      negative) and would compute the same start as age 0. */
  function PreciseStartFor(birth: Aware, precise: real, n: int, final: int): Option<PreciseStart> {
    if final != n && final == 10 then
      match ReplaceYear(birth, birth.fields.year + 10)
      case Some(b) => Some(PreciseStart(b, 0.0))
      case None => None
    else if final == 0 then Some(PreciseStart(birth, precise * 365.25))
    else
      match ReplaceYear(birth, birth.fields.year + final)
      case Some(b) => Some(PreciseStart(b, (precise - final as real) * 365.25))
      case None => None
  }

  /** The record for a found term, or the ValueError of `replace` when the birthday the
      start is counted from does not exist. */
  function AgeFromTerm(birth: Aware, jeol: Aware, direction: string): Result<AgeOutcome> {
    var days := AbsDays(jeol, birth);
    var precise := days / 3.0;
    var n := WholeYears(days);
    var final := if n < 10 then n else 10;
    match PreciseStartFor(birth, precise, n, final)
    case None => Err("ValueError: day is out of range for month")
    case Some(start) =>
      Ok(Computed(final, direction, jeol, JeolNameFromDate(Some(jeol)), days, start))
  }

  /** `calculate_starting_age`. */
  function StartingAge(db: TermDatabase, birth: Aware, gender: string, yearStem: string): (r: Result<AgeOutcome>)
    ensures TermSought(db, birth, gender, yearStem).None? ==> r == Ok(DefaultAge(5))
    ensures r.Ok? && r.value.Computed? ==>
              r.value.direction == Direction(yearStem, gender) && 0 <= r.value.startingAge <= 10
  {
    var direction := Direction(yearStem, gender);
    var jeol := if direction == "forward" then NextJeol(db, birth) else PreviousJeol(db, birth);
    if jeol.None? then Ok(DefaultAge(5)) else AgeFromTerm(birth, jeol.value, direction)
  }

  method CalculateStartingAge(db: TermDatabase, birth: Aware, gender: string, yearStem: string)
    returns (r: Result<AgeOutcome>)
    ensures r == StartingAge(db, birth, gender, yearStem)
  {
    var direction := Direction(yearStem, gender);
    var jeol;
    if direction == "forward" {
      jeol := GetNextJeol(db, birth);
    } else {
      jeol := GetPreviousJeol(db, birth);
    }
    if jeol.None? {
      return Ok(DefaultAge(5));
    }
    r := AgeFromTerm(birth, jeol.value, direction);
  }

  /** The term searched for: the next one when travelling forward, the previous one otherwise. */
  function TermSought(db: TermDatabase, birth: Aware, gender: string, yearStem: string): Option<Aware> {
    if Direction(yearStem, gender) == "forward" then NextJeol(db, birth) else PreviousJeol(db, birth)
  }

  /** The integer 5 is returned exactly when no term is found; otherwise the record carries
      the direction, the term, its month's name, the absolute day gap, and whole years of
      the three-day rule capped at ten (ten exactly from thirty days on). */
  lemma StartingAgeSpec(db: TermDatabase, birth: Aware, gender: string, yearStem: string)
    ensures var r := StartingAge(db, birth, gender, yearStem);
            r == Ok(DefaultAge(5)) <==> TermSought(db, birth, gender, yearStem).None?
    ensures var r := StartingAge(db, birth, gender, yearStem);
            r.Ok? && r.value.Computed? ==>
              var t := TermSought(db, birth, gender, yearStem).value;
              var c := r.value;
              c.direction == Direction(yearStem, gender) && c.jeolDate == t &&
              c.jeolName == JeolNameOfMonth(t.fields.month) &&
              c.daysDiff == AbsDays(t, birth) &&
              0 <= c.startingAge <= 10 &&
              (c.startingAge < 10 ==> 3.0 * c.startingAge as real <= c.daysDiff < 3.0 * c.startingAge as real + 3.0) &&
              (c.startingAge == 10 <==> c.daysDiff >= 30.0)
  {
    var jeol := TermSought(db, birth, gender, yearStem);
    if jeol.Some? {
      WholeYearsThresholds(AbsDays(jeol.value, birth));
    }
  }

  /** At least thirty-three days (more than ten whole years) give the tenth birthday
      itself, or the ValueError when that birthday is not a date. */
  lemma PreciseStartCapped(birth: Aware, jeol: Aware, direction: string)
    requires AbsDays(jeol, birth) >= 33.0
    ensures var r := AgeFromTerm(birth, jeol, direction);
            var tenth := ReplaceYear(birth, birth.fields.year + 10);
            (tenth.Some? ==> r.Ok? && r.value.preciseStart == PreciseStart(tenth.value, 0.0)) &&
            (tenth.None? ==> r.Err?)
  {
    WholeYearsThresholds(AbsDays(jeol, birth));
  }

  /** Under three days (age 0) the start is the birth plus the precise years in days. */
  lemma PreciseStartAgeZero(birth: Aware, jeol: Aware, direction: string)
    requires AbsDays(jeol, birth) < 3.0
    ensures var r := AgeFromTerm(birth, jeol, direction);
            r.Ok? && r.value.startingAge == 0 &&
            r.value.preciseStart == PreciseStart(birth, AbsDays(jeol, birth) / 3.0 * 365.25)
  {
  }

  /** From three to under thirty-three days the start is the birthday after the whole years
      plus the fractional year in days, or the ValueError when that birthday is not a date. */
  lemma PreciseStartCounted(birth: Aware, jeol: Aware, direction: string)
    requires 3.0 <= AbsDays(jeol, birth) < 33.0
    ensures var days := AbsDays(jeol, birth);
            var n := WholeYears(days);
            var r := AgeFromTerm(birth, jeol, direction);
            var base := ReplaceYear(birth, birth.fields.year + n);
            1 <= n <= 10 &&
            (base.Some? ==> r.Ok? && r.value.startingAge == n &&
                            r.value.preciseStart == PreciseStart(base.value, (days / 3.0 - n as real) * 365.25)) &&
            (base.None? ==> r.Err?)
  {
    WholeYearsThresholds(AbsDays(jeol, birth));
  }

  /** A birth on 29 February of a leap year whose term lies three to twelve days away fails
      with the ValueError of `replace`: one to three years on is always a common year. */
  lemma LeapDayBirthFails(birth: Aware, jeol: Aware, direction: string)
    requires birth.fields.month == 2 && birth.fields.day == 29 && IsLeap(birth.fields.year)
    requires 3.0 <= AbsDays(jeol, birth) < 12.0
    ensures AgeFromTerm(birth, jeol, direction).Err?
  {
    var n := WholeYears(AbsDays(jeol, birth));
    CommonYearsAfterLeap(birth.fields.year, n);
    LeapDayReplace(birth, birth.fields.year + n);
    PreciseStartCounted(birth, jeol, direction);
  }
}
