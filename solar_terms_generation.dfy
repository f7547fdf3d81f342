/** The two ephemeris generators of the 24-term database, one for 1910-1960 and one for
    1960-2010 (`SolarTermsCalculator`): for each year, all 24 terms in order, each found
    by the bisection of `SolarTermSearch`. The two scripts differ only in their year range
    and output file name. The calculator's tables are a parameter `t`; both scripts use
    `Standard`. */
module SolarTermsGeneration {
  import opened Common
  import opened Calendar
  import opened Dicts
  import opened SolarTermTables
  import opened SolarTermSearch

  /** One term record: its name, its target longitude and the Beijing-time moment from
      which the month, day, hour, minute, second and `full_datetime` fields are read. */
  datatype TermRecord = TermRecord(chineseName: string, solarLongitude: int, moment: Moment, beijingTime: bool)

  /** The civil fields a record prints (`month`, `day`, `hour`, ..., `full_datetime`). */
  function RecordFields(r: TermRecord): Civil {
    CivilOf(r.moment)
  }

  /** The moment found for the `i`-th term of `year`. */
  function TermMoment(t: TermTable, lon: real -> real, year: int, i: int): Moment
    requires ValidTable(t) && 0 <= i < 24
  {
    SolarTermMoment(t, lon, year, t.order[i], t.longitudes[i] as real).value
  }

  /** The search as a function of the year and the term's index, the shape in which the
      year tables below take it (`find`); indices outside the table never occur. */
  function Finder(t: TermTable, lon: real -> real): (int, int) -> Moment {
    (year: int, i: int) => if ValidTable(t) && 0 <= i < 24 then TermMoment(t, lon, year, i) else Moment(0, 0)
  }

  /** The record of the `i`-th term of `year`. */
  function RecordOf(t: TermTable, find: (int, int) -> Moment, year: int, i: int): (r: TermRecord)
    requires ValidTable(t) && 0 <= i < 24
    ensures r.chineseName == t.order[i] && r.solarLongitude == t.longitudes[i]
  {
    TermRecord(t.order[i], t.longitudes[i], find(year, i), true)
  }

  /** The first `n` terms of `year`, each stored under its own name. */
  function YearData(t: TermTable, find: (int, int) -> Moment, year: int, n: nat): (d: YearTerms<TermRecord>)
    requires ValidTable(t) && n <= 24
    ensures |d| == n
  {
    if n == 0 then [] else YearData(t, find, year, n - 1) + [(t.order[n - 1], RecordOf(t, find, year, n - 1))]
  }

  /** Entry `i` is the `i`-th term under its own name. */
  lemma {:induction false} YearDataEntries(t: TermTable, find: (int, int) -> Moment, year: int, n: nat)
    requires ValidTable(t) && n <= 24
    ensures forall i :: 0 <= i < n ==> YearData(t, find, year, n)[i] == (t.order[i], RecordOf(t, find, year, i))
  {
    if n > 0 {
      YearDataEntries(t, find, year, n - 1);
    }
  }

  /** A whole generated year. */
  function Year(t: TermTable, find: (int, int) -> Moment, year: int): YearTerms<TermRecord>
    requires ValidTable(t)
  {
    YearData(t, find, year, |t.order|)
  }

  /** A generated year holds exactly the 24 terms, under distinct names, in table order,
      each record carrying its own name and target longitude. */
  lemma YearHasAllTerms(t: TermTable, find: (int, int) -> Moment, year: int)
    requires ValidTable(t)
    ensures var d := Year(t, find, year);
            WellFormed(d) && |d| == 24
            && forall i :: 0 <= i < 24 ==> NameAt(d, i) == t.order[i] && d[i].1.chineseName == t.order[i]
                                           && d[i].1.solarLongitude == t.longitudes[i]
  {
    YearDataEntries(t, find, year, 24);
  }

  /** Each record's moment lies in the window its term was searched in. */
  lemma RecordInWindow(t: TermTable, lon: real -> real, year: int, i: int)
    requires ValidTable(t) && 0 <= i < 24
    ensures var y := SearchYear(year, t.order[i]);
            var m := t.months[i];
            DaysFromCivil(y, m, 1) * DaySeconds <= RecordOf(t, Finder(t, lon), year, i).moment.utc <= DaysFromCivil(y, m, 28) * DaySeconds
  {
    LookupByName(t, i);
    MomentInWindow(t, lon, year, t.order[i], t.longitudes[i] as real);
  }

  /** `find` gives the moments the search finds, term by term. */
  ghost predicate Finds(t: TermTable, lon: real -> real, find: (int, int) -> Moment) {
    ValidTable(t) ==>
      forall year: int, i: int {:trigger TermMoment(t, lon, year, i)} :: 0 <= i < 24 ==> find(year, i) == TermMoment(t, lon, year, i)
  }

  lemma FinderFinds(t: TermTable, lon: real -> real)
    ensures Finds(t, lon, Finder(t, lon))
  {
  }

  /** `calculate_year_solar_terms`. */
  method CalculateYearSolarTerms(t: TermTable, lon: real -> real, ghost find: (int, int) -> Moment, year: int)
    returns (yearData: YearTerms<TermRecord>)
    requires ValidTable(t) && Finds(t, lon, find)
    ensures yearData == Year(t, find, year)
  {
    yearData := [];
    for i := 0 to 24
      invariant yearData == YearData(t, find, year, i)
    {
      var name := t.order[i];
      LookupByName(t, i);
      var target := Longitude(t, name).value;
      var dt := FindSolarTermMoment(t, lon, year, name, target as real);
      assert dt.value == TermMoment(t, lon, year, i);
      YearDataEntries(t, find, year, i);
      assert !Has(yearData, name);
      PutFresh(yearData, name, TermRecord(name, target, dt.value, true));
      yearData := Put(yearData, name, TermRecord(name, target, dt.value, true));
    }
  }

  /** The years `start`, `start + 1`, ..., `start + n - 1`, each with its terms (the
      `str(year)` keys are the integers they spell). */
  function Years(t: TermTable, find: (int, int) -> Moment, start: int, n: nat): (d: YearTable<TermRecord>)
    requires ValidTable(t)
    ensures |d| == n
  {
    if n == 0 then [] else Years(t, find, start, n - 1) + [(start + n - 1, Year(t, find, start + n - 1))]
  }

  /** Entry `i` of the table is year `start + i` with its terms. */
  lemma {:induction false} YearsEntries(t: TermTable, find: (int, int) -> Moment, start: int, n: nat)
    requires ValidTable(t)
    ensures forall i :: 0 <= i < n ==> Years(t, find, start, n)[i] == (start + i, Year(t, find, start + i))
  {
    if n > 0 {
      YearsEntries(t, find, start, n - 1);
    }
  }

  /** Storing the next year appends it: no earlier entry holds that year. */
  lemma YearsStep(t: TermTable, find: (int, int) -> Moment, start: int, n: nat, d: YearTable<TermRecord>, v: YearTerms<TermRecord>)
    requires ValidTable(t) && d == Years(t, find, start, n) && v == Year(t, find, start + n)
    ensures !Has(d, start + n) && d + [(start + n, v)] == Years(t, find, start, n + 1)
  {
    YearsEntries(t, find, start, n);
  }

  /** Storing a computed year: `data[str(year)] = year_data`. */
  method StoreYear(t: TermTable, ghost find: (int, int) -> Moment, start: int, n: nat,
                   data: YearTable<TermRecord>, yearData: YearTerms<TermRecord>) returns (next: YearTable<TermRecord>)
    requires ValidTable(t) && data == Years(t, find, start, n) && yearData == Year(t, find, start + n)
    ensures next == Years(t, find, start, n + 1)
  {
    YearsStep(t, find, start, n, data, yearData);
    next := StoreFresh(data, start + n, yearData);
  }

  /** One pass of the loop of `generate_database`: compute year `start + n` and store it. */
  method AddYear(t: TermTable, lon: real -> real, ghost find: (int, int) -> Moment, start: int, n: nat,
                 data: YearTable<TermRecord>) returns (next: YearTable<TermRecord>)
    requires ValidTable(t) && Finds(t, lon, find) && data == Years(t, find, start, n)
    ensures next == Years(t, find, start, n + 1)
  {
    var yearData := CalculateYearSolarTerms(t, lon, find, start + n);
    next := StoreYear(t, find, start, n, data, yearData);
  }

  /** The generated database: its metadata (the entries the other scripts read) and its
      year table. */
  datatype Generated = Generated(metadata: Dict<string, MetaValue>, solarTermsData: YearTable<TermRecord>)

  const GeneratedMetadata: Dict<string, MetaValue> := [
    ("calculation_method", Text("Astronomical calculation using ephemeris library")),
    ("time_zone", Text("Beijing time (UTC+8)")),
    ("precision", Text("Second-level precision")),
    ("solar_terms_count_per_year", Number(24))]

  /** The number of years of the inclusive range. */
  function RangeLength(startYear: int, endYear: int): nat {
    if endYear < startYear then 0 else endYear - startYear + 1
  }

  /** `generate_database(start_year, end_year)`: one entry per year of the inclusive range. */
  method GenerateDatabase(t: TermTable, lon: real -> real, startYear: int, endYear: int) returns (db: Generated)
    requires ValidTable(t)
    ensures db.metadata == GeneratedMetadata
    ensures db.solarTermsData == Years(t, Finder(t, lon), startYear, RangeLength(startYear, endYear))
  {
    FinderFinds(t, lon);
    var data: YearTable<TermRecord> := [];
    for i := 0 to RangeLength(startYear, endYear)
      invariant data == Years(t, Finder(t, lon), startYear, i)
    {
      data := AddYear(t, lon, Finder(t, lon), startYear, i, data);
    }
    db := Generated(GeneratedMetadata, data);
  }

  /** The table's keys are exactly the years of the inclusive range, each once. */
  lemma GeneratedYears(t: TermTable, find: (int, int) -> Moment, startYear: int, endYear: int)
    requires ValidTable(t)
    ensures var d := Years(t, find, startYear, RangeLength(startYear, endYear));
            WellFormed(d) && forall y :: Has(d, y) <==> startYear <= y <= endYear
  {
    var n := RangeLength(startYear, endYear);
    YearsEntries(t, find, startYear, n);
    var d := Years(t, find, startYear, n);
    forall y | startYear <= y <= endYear
      ensures Has(d, y)
    {
      assert d[y - startYear].0 == y;
    }
  }

  /** Every generated year holds 24 terms, so the table holds 24 per year in total. */
  lemma GeneratedTotalTerms(t: TermTable, find: (int, int) -> Moment, startYear: int, endYear: int)
    requires ValidTable(t)
    ensures TotalTerms(Years(t, find, startYear, RangeLength(startYear, endYear))) == 24 * RangeLength(startYear, endYear)
  {
    var n := RangeLength(startYear, endYear);
    var d := Years(t, find, startYear, n);
    YearsEntries(t, find, startYear, n);
    forall i | 0 <= i < n
      ensures |d[i].1| == 24
    {
      YearHasAllTerms(t, find, startYear + i);
    }
    TotalTermsUniform(d, 24);
  }

  /** The metadata's per-year count is the size of every generated year. */
  lemma MetadataCountHolds(t: TermTable, find: (int, int) -> Moment, year: int)
    requires ValidTable(t)
    ensures Get(GeneratedMetadata, "solar_terms_count_per_year") == Some(Number(|Year(t, find, year)|))
  {
    YearHasAllTerms(t, find, year);
    assert GeneratedMetadata[3] == ("solar_terms_count_per_year", Number(24));
    GetSpec(GeneratedMetadata, "solar_terms_count_per_year");
  }
}
