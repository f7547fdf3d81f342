/** The 1900-1910 variant of the table-driven starting age: the same three-day rule over a
    year-keyed table of term times, with a missing "second" read as 0, no fallback to a
    neighbouring year, the term's own name reported with its date, only an upper cap of ten
    on the whole years, and an error record instead of a bare integer when no term is found. */
module Enhanced1900DaeunCalculator {
  import opened Common
  import opened Calendar
  import opened Dicts
  import opened StartAgeCommon
  import AccurateDaeunCalculator

  /** The loaded file's "solar_terms_data": year to that year's terms. */
  type TermDatabase = map<int, YearTerms>

  /** 小寒 is dated in January of the next year when searching forward and of the same year
      when searching backward; a missing "second" counts as 0 either way. */
  const NextReading := Reading(true, true)
  const PreviousReading := Reading(false, true)

  /** `_get_next_jeol`: the earliest readable term of the birth year strictly after the
      birth, with its name (the first listed among equal instants); nothing otherwise. */
  function NextJeol(db: TermDatabase, birth: Aware): Option<Dated> {
    var year := birth.fields.year;
    if year !in db then None
    else
      var ds := Candidates(db[year], year, NextReading);
      match EarliestAfter(ds, birth)
      case Some(i) => Some(ds[i])
      case None => None
  }

  /** `_get_previous_jeol`: the latest readable term of the birth year strictly before the
      birth, with its name (the first listed among equal instants); nothing otherwise. */
  function PreviousJeol(db: TermDatabase, birth: Aware): Option<Dated> {
    var year := birth.fields.year;
    if year !in db then None
    else
      var ds := Candidates(db[year], year, PreviousReading);
      match LatestBefore(ds, birth)
      case Some(i) => Some(ds[i])
      case None => None
  }

  method GetNextJeol(db: TermDatabase, birth: Aware) returns (r: Option<Dated>)
    ensures r == NextJeol(db, birth)
  {
    var year := birth.fields.year;
    if year !in db {
      return None;
    }
    var ds := BuildCandidates(db[year], year, NextReading);
    var i := FindEarliestAfter(ds, birth);
    if i.Some? {
      return Some(ds[i.value]);
    }
    r := None;
  }

  method GetPreviousJeol(db: TermDatabase, birth: Aware) returns (r: Option<Dated>)
    ensures r == PreviousJeol(db, birth)
  {
    var year := birth.fields.year;
    if year !in db {
      return None;
    }
    var ds := BuildCandidates(db[year], year, PreviousReading);
    var i := FindLatestBefore(ds, birth);
    if i.Some? {
      return Some(ds[i.value]);
    }
    r := None;
  }

  /** The forward search answers exactly when the birth year stores a readable term after
      the birth; the answer is such a term under its stored name, and no later than any other. */
  lemma NextJeolSpec(db: TermDatabase, birth: Aware)
    ensures var year := birth.fields.year;
            NextJeol(db, birth).Some? <==>
              year in db && exists k, t :: Builds(db[year], year, NextReading, k, t) && Utc(t.1) > Utc(birth)
    ensures var year := birth.fields.year;
            NextJeol(db, birth).Some? ==>
              var d := NextJeol(db, birth).value;
              Utc(d.1) > Utc(birth) && (exists k :: Builds(db[year], year, NextReading, k, d)) &&
              forall k, t :: Builds(db[year], year, NextReading, k, t) && Utc(t.1) > Utc(birth) ==> Utc(d.1) <= Utc(t.1)
  {
    var year := birth.fields.year;
    if year in db {
      var yd := db[year];
      var ds := Candidates(yd, year, NextReading);
      EarliestAfterSpec(ds, birth);
      forall k, t | Builds(yd, year, NextReading, k, t)
        ensures t in ds
      {
        CandidatesMembers(yd, year, NextReading, t);
      }
      match EarliestAfter(ds, birth)
      case Some(i) =>
        CandidatesMembers(yd, year, NextReading, ds[i]);
        var k :| Builds(yd, year, NextReading, k, ds[i]);
      case None =>
    }
  }

  /** The backward search answers exactly when the birth year stores a readable term before
      the birth; the answer is such a term under its stored name, and no earlier than any other. */
  lemma PreviousJeolSpec(db: TermDatabase, birth: Aware)
    ensures var year := birth.fields.year;
            PreviousJeol(db, birth).Some? <==>
              year in db && exists k, t :: Builds(db[year], year, PreviousReading, k, t) && Utc(t.1) < Utc(birth)
    ensures var year := birth.fields.year;
            PreviousJeol(db, birth).Some? ==>
              var d := PreviousJeol(db, birth).value;
              Utc(d.1) < Utc(birth) && (exists k :: Builds(db[year], year, PreviousReading, k, d)) &&
              forall k, t :: Builds(db[year], year, PreviousReading, k, t) && Utc(t.1) < Utc(birth) ==> Utc(d.1) >= Utc(t.1)
  {
    var year := birth.fields.year;
    if year in db {
      var yd := db[year];
      var ds := Candidates(yd, year, PreviousReading);
      LatestBeforeSpec(ds, birth);
      forall k, t | Builds(yd, year, PreviousReading, k, t)
        ensures t in ds
      {
        CandidatesMembers(yd, year, PreviousReading, t);
      }
      match LatestBefore(ds, birth)
      case Some(i) =>
        CandidatesMembers(yd, year, PreviousReading, ds[i]);
        var k :| Builds(yd, year, PreviousReading, k, ds[i]);
      case None =>
    }
  }

  /** What `calculate_starting_age` returns: an error record with age 5 and no start when no
      term is found, or the result record. */
  datatype AgeOutcome =
    | Missing(startingAge: int, error: string)
    | Computed(startingAge: int, preciseStart: PreciseStart, direction: string, jeolDate: Aware,
               jeolName: string, daysDiff: real, fractionalYears: real)

  /** The record for a found term: the whole years capped at ten; the start is the birth plus
      the precise years at age 0, and otherwise the birthday `final` years on plus the
      fraction beyond the uncapped whole years; the ValueError of `replace` when that
      birthday is not a date. */
  function AgeFromTerm(birth: Aware, jeol: Dated, direction: string): Result<AgeOutcome> {
    var days := AbsDays(jeol.1, birth);
    var precise := days / 3.0;
    var n := WholeYears(days);
    var fractional := precise - n as real;
    var final := if n < 10 then n else 10;
    if final == 0 then
      Ok(Computed(final, PreciseStart(birth, precise * 365.25), direction, jeol.1, jeol.0, days, fractional))
    else
      match ReplaceYear(birth, birth.fields.year + final)
      case None => Err("ValueError: day is out of range for month")
      case Some(b) =>
        Ok(Computed(final, PreciseStart(b, fractional * 365.25), direction, jeol.1, jeol.0, days, fractional))
  }

  /** The error text: no data for the next (or previous) term. */
  function MissingMessage(direction: string): string {
    if direction == "forward" then "次の節入日データなし" else "前の節入日データなし"
  }

  /** `calculate_starting_age`. */
  function StartingAge(db: TermDatabase, birth: Aware, gender: string, yearStem: string): Result<AgeOutcome> {
    var direction := Direction(yearStem, gender);
    var jeol := if direction == "forward" then NextJeol(db, birth) else PreviousJeol(db, birth);
    if jeol.None? then Ok(Missing(5, MissingMessage(direction))) else AgeFromTerm(birth, jeol.value, direction)
  }

  method CalculateStartingAge(db: TermDatabase, birth: Aware, gender: string, yearStem: string)
    returns (r: Result<AgeOutcome>)
    ensures r == StartingAge(db, birth, gender, yearStem)
  {
    var direction := Direction(yearStem, gender);
    var jeol;
    if direction == "forward" {
      jeol := GetNextJeol(db, birth);
    } else {
      jeol := GetPreviousJeol(db, birth);
    }
    if jeol.None? {
      return Ok(Missing(5, MissingMessage(direction)));
    }
    r := AgeFromTerm(birth, jeol.value, direction);
  }

  /** The term searched for: the next one when travelling forward, the previous one otherwise. */
  function TermSought(db: TermDatabase, birth: Aware, gender: string, yearStem: string): Option<Dated> {
    if Direction(yearStem, gender) == "forward" then NextJeol(db, birth) else PreviousJeol(db, birth)
  }

  /** A term found lies on the side of the birth the direction points to. */
  lemma TermSoughtSide(db: TermDatabase, birth: Aware, gender: string, yearStem: string)
    ensures var t := TermSought(db, birth, gender, yearStem);
            t.Some? ==> if Direction(yearStem, gender) == "forward" then Utc(t.value.1) > Utc(birth)
                        else Utc(t.value.1) < Utc(birth)
  {
    NextJeolSpec(db, birth);
    PreviousJeolSpec(db, birth);
  }

  /** The error record (age 5) comes exactly when no term is found. Otherwise the record
      carries the direction, the term under its stored name, and the absolute day gap; its age is the whole years of the
      three-day rule capped at ten, and the fraction is that of the uncapped years. */
  lemma StartingAgeSpec(db: TermDatabase, birth: Aware, gender: string, yearStem: string)
    ensures var r := StartingAge(db, birth, gender, yearStem);
            (r.Ok? && r.value.Missing?) <==> TermSought(db, birth, gender, yearStem).None?
    ensures var r := StartingAge(db, birth, gender, yearStem);
            r.Ok? && r.value.Missing? ==> r.value.startingAge == 5
    ensures var r := StartingAge(db, birth, gender, yearStem);
            r.Ok? && r.value.Computed? ==>
              var t := TermSought(db, birth, gender, yearStem).value;
              var c := r.value;
              c.direction == Direction(yearStem, gender) && (c.jeolName, c.jeolDate) == t &&
              c.daysDiff == AbsDays(t.1, birth) &&
              0 <= c.startingAge <= 10 &&
              (c.startingAge < 10 ==> 3.0 * c.startingAge as real <= c.daysDiff < 3.0 * c.startingAge as real + 3.0) &&
              (c.startingAge == 10 <==> c.daysDiff >= 30.0) &&
              0.0 <= c.fractionalYears < 1.0
  {
    var jeol := TermSought(db, birth, gender, yearStem);
    if jeol.Some? {
      WholeYearsThresholds(AbsDays(jeol.value.1, birth));
    }
  }

  /** Past thirty-three days the start is the tenth birthday plus the fraction of the
      uncapped whole years (unlike the calculator with a lower cap, which stops at the tenth
      birthday itself). */
  lemma PreciseStartCapped(birth: Aware, jeol: Dated, direction: string)
    requires AbsDays(jeol.1, birth) >= 33.0
    ensures var days := AbsDays(jeol.1, birth);
            var r := AgeFromTerm(birth, jeol, direction);
            var tenth := ReplaceYear(birth, birth.fields.year + 10);
            (tenth.Some? ==> r.Ok? && r.value.startingAge == 10 &&
                             r.value.preciseStart == PreciseStart(tenth.value, (days / 3.0 - WholeYears(days) as real) * 365.25)) &&
            (tenth.None? ==> r.Err?)
  {
    WholeYearsThresholds(AbsDays(jeol.1, birth));
  }

  /** Under thirty days the start is the birthday after the whole years plus the fractional
      year (the birth itself plus the precise years at age 0). */
  lemma PreciseStartCounted(birth: Aware, jeol: Dated, direction: string)
    requires AbsDays(jeol.1, birth) < 30.0
    ensures var days := AbsDays(jeol.1, birth);
            var n := WholeYears(days);
            var r := AgeFromTerm(birth, jeol, direction);
            var base := ReplaceYear(birth, birth.fields.year + n);
            0 <= n < 10 &&
            (n == 0 ==> r.Ok? && r.value.preciseStart == PreciseStart(birth, days / 3.0 * 365.25)) &&
            (n > 0 && base.Some? ==> r.Ok? && r.value.startingAge == n &&
                                     r.value.preciseStart == PreciseStart(base.value, (days / 3.0 - n as real) * 365.25)) &&
            (n > 0 && base.None? ==> r.Err?)
  {
    WholeYearsThresholds(AbsDays(jeol.1, birth));
  }

  /** The two calculators agree on the starting age for the same term, and on the precise
      start as long as the whole years stay below eleven (under thirty-three days); beyond
      that this one adds the fractional year to the tenth birthday. */
  lemma AgreesWithAccurateCalculator(birth: Aware, jeol: Dated, direction: string)
    ensures var mine := AgeFromTerm(birth, jeol, direction);
            var other := AccurateDaeunCalculator.AgeFromTerm(birth, jeol.1, direction);
            (mine.Ok? && other.Ok? ==> mine.value.startingAge == other.value.startingAge) &&
            (AbsDays(jeol.1, birth) < 33.0 ==>
               mine.Ok? == other.Ok? &&
               (mine.Ok? ==> mine.value.preciseStart == other.value.preciseStart))
  {
    WholeYearsThresholds(AbsDays(jeol.1, birth));
  }
}
