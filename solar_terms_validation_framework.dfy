/** The ephemeris cross-check of a stored term database (`SolarTermsValidator`): every
    stored term of every year in a range is recomputed with the calculator's bisection and
    accepted when the stored Beijing time is within six hours of the recomputed one. The
    validator's longitude and month tables are the calculator's, a `TermTable` `t`
    (`Standard` in the script). */
module SolarTermsValidationFramework {
  import opened Common
  import opened Calendar
  import opened Dicts
  import opened SolarTermTables
  import opened SolarTermSearch

  /** `error_tolerance_hours`. */
  const ToleranceHours := 6

  /** A stored term as the validator reads it: its `full_datetime` field after parsing
      with `%Y-%m-%d %H:%M:%S`, or `None` when the field is missing or does not parse. */
  datatype StoredTerm = StoredTerm(fullDatetime: Option<Civil>)

  /** The loaded JSON object: its `solar_terms_data` entry, if any, and how many other
      top-level keys it has. A file that cannot be read loads as the empty object. */
  datatype OurData = OurData(solarTermsData: Option<YearTable<StoredTerm>>, otherKeys: nat)

  /** `not our_data`: the object has no key at all. */
  predicate IsEmpty(d: OurData) {
    d.solarTermsData.None? && d.otherKeys == 0
  }

  /** `load_our_database`: the parsed file, or the empty object when reading or parsing
      failed. */
  function LoadOurDatabase(parsed: Option<OurData>): (d: OurData)
    ensures parsed.None? ==> IsEmpty(d)
    ensures parsed.Some? ==> d == parsed.value
  {
    match parsed
    case None => OurData(None, 0)
    case Some(x) => x
  }

  /** `fetch_hko_data`: years outside 2020-2030 are refused at once, and the years inside
      are a stub that returns nothing either, so no reference data ever arrives. */
  function FetchHkoData(year: int): (r: Option<YearTerms<StoredTerm>>)
    ensures r.None?
  {
    if year < 2020 || year > 2030 then None else None
  }

  /** The warnings a year collects, in the order they are appended. */
  datatype Warning = MissingYear(year: int) | UnknownTerm(name: string) | BadDatetime(name: string) |
                     OutOfTolerance(name: string, diffSeconds: nat)

  /** One `details` entry: the stored fields, the recomputed moment (printed in Beijing
      time), the distance in seconds and whether it is within tolerance. */
  datatype Detail = Detail(ours: Civil, calculated: Moment, diffSeconds: nat, ok: bool)

  /** The result of `validate_single_year`. */
  datatype YearResult = YearResult(year: int, totalTerms: nat, validatedTerms: nat, errorCount: nat,
                                   warnings: seq<Warning>, details: Dict<string, Detail>)

  /** `time_diff <= error_tolerance_hours`, where `time_diff` is the distance in hours as a
      float; on whole seconds it is a comparison of integers. */
  function WithinTolerance(diffSeconds: nat): (r: bool)
    ensures r <==> diffSeconds as real / 3600.0 <= ToleranceHours as real
  {
    diffSeconds <= ToleranceHours * HourSeconds
  }

  /** `calculate_ephemeris_solar_term(year, name, longitude)` as a function of the year
      and the name, the shape in which the tallies below take it (`recompute`): the same
      search as the calculator's, aimed at the name's longitude. Names outside the table
      are never recomputed. */
  function Recomputer(t: TermTable, lon: real -> real): (int, string) -> Moment {
    (year: int, name: string) =>
      if ValidTable(t) && name in t.order then SolarTermMoment(t, lon, year, name, Longitude(t, name).value as real).value
      else Moment(0, 0)
  }

  /** The distance in seconds between a stored time, read in Beijing time, and a moment. */
  function Distance(ours: Civil, calculated: Moment): nat {
    var d := FromCivil(ours, BeijingOffset).utc - calculated.utc;
    if d < 0 then -d else d
  }

  /** What one stored term contributes: a warning alone, or a detail. */
  datatype Outcome = Skipped(warning: Warning) | Checked(name: string, detail: Detail)

  /** One pass of the loop over a year's terms: an unknown name or an unreadable time is
      skipped with a warning; otherwise the term is recomputed and compared. */
  function TermOutcome(t: TermTable, recompute: (int, string) -> Moment, year: int, name: string, term: StoredTerm): (o: Outcome)
    ensures o.Skipped? <==> name !in t.order || term.fullDatetime.None?
    ensures o.Checked? ==> o.name == name && o.detail.ok == WithinTolerance(o.detail.diffSeconds)
  {
    if name !in t.order then Skipped(UnknownTerm(name))
    else if term.fullDatetime.None? then Skipped(BadDatetime(name))
    else
      var ours := term.fullDatetime.value;
      var calculated := recompute(year, name);
      var diff := Distance(ours, calculated);
      Checked(name, Detail(ours, calculated, diff, WithinTolerance(diff)))
  }

  /** The running counts of a year's loop. */
  datatype Tally = Tally(validated: nat, errors: nat, warnings: seq<Warning>, details: Dict<string, Detail>)

  /** Adding one term's outcome: the detail is recorded under the name; then the term is
      counted as validated, or as an error with a warning. */
  function Add(tally: Tally, o: Outcome): Tally {
    match o
    case Skipped(w) => tally.(warnings := tally.warnings + [w])
    case Checked(name, d) =>
      var recorded := tally.(details := Put(tally.details, name, d));
      if d.ok then recorded.(validated := tally.validated + 1)
      else recorded.(errors := tally.errors + 1, warnings := tally.warnings + [OutOfTolerance(name, d.diffSeconds)])
  }

  /** The counts after the year's terms, in their stored order. */
  function TallyOf(t: TermTable, recompute: (int, string) -> Moment, year: int, terms: YearTerms<StoredTerm>): Tally {
    if |terms| == 0 then Tally(0, 0, [], [])
    else
      var last := terms[|terms| - 1];
      Add(TallyOf(t, recompute, year, terms[..|terms| - 1]), TermOutcome(t, recompute, year, last.0, last.1))
  }

  /** `validate_single_year(year, our_data)`. */
  function SingleYear(t: TermTable, recompute: (int, string) -> Moment, year: int, ourData: OurData): (r: YearResult)
    ensures r.year == year
  {
    var table := if ourData.solarTermsData.Some? then ourData.solarTermsData.value else [];
    match Get(table, year)
    case None => YearResult(year, 0, 0, 0, [MissingYear(year)], [])
    case Some(terms) =>
      var tally := TallyOf(t, recompute, year, terms);
      YearResult(year, |terms|, tally.validated, tally.errors, tally.warnings, tally.details)
  }

  /** The method form of `validate_single_year`, searching each term afresh. */
  method ValidateSingleYear(t: TermTable, lon: real -> real, year: int, ourData: OurData) returns (r: YearResult)
    requires ValidTable(t)
    ensures r == SingleYear(t, Recomputer(t, lon), year, ourData)
  {
    var table: YearTable<StoredTerm> := if ourData.solarTermsData.Some? then ourData.solarTermsData.value else [];
    var found := Get(table, year);
    if found.None? {
      return YearResult(year, 0, 0, 0, [MissingYear(year)], []);
    }
    var terms: YearTerms<StoredTerm> := found.value;
    var tally := Tally(0, 0, [], []);
    for i := 0 to |terms|
      invariant tally == TallyOf(t, Recomputer(t, lon), year, terms[..i])
    {
      var o := CheckTerm(t, lon, year, terms[i].0, terms[i].1);
      TallyStep(t, Recomputer(t, lon), year, terms, i, tally, o);
      tally := Add(tally, o);
    }
    assert terms[..|terms|] == terms;
    r := YearResult(year, |terms|, tally.validated, tally.errors, tally.warnings, tally.details);
  }

  /** One more term extends the counts by its outcome. */
  lemma TallyStep(t: TermTable, recompute: (int, string) -> Moment, year: int, terms: YearTerms<StoredTerm>, i: nat,
                  tally: Tally, o: Outcome)
    requires i < |terms| && tally == TallyOf(t, recompute, year, terms[..i])
    requires o == TermOutcome(t, recompute, year, terms[i].0, terms[i].1)
    ensures Add(tally, o) == TallyOf(t, recompute, year, terms[..i + 1])
  {
    assert terms[..i + 1][..i] == terms[..i];
  }

  /** The body of the loop over a year's terms, with the search run as a method. */
  method CheckTerm(t: TermTable, lon: real -> real, year: int, name: string, term: StoredTerm) returns (o: Outcome)
    requires ValidTable(t)
    ensures o == TermOutcome(t, Recomputer(t, lon), year, name, term)
  {
    if name !in t.order {
      return Skipped(UnknownTerm(name));
    }
    if term.fullDatetime.None? {
      return Skipped(BadDatetime(name));
    }
    var ours := term.fullDatetime.value;
    var target := Longitude(t, name).value;
    var calculated := FindSolarTermMoment(t, lon, year, name, target as real);
    var diff := Distance(ours, calculated.value);
    o := Checked(name, Detail(ours, calculated.value, diff, WithinTolerance(diff)));
  }

  /** Every stored term is accounted for exactly once: validated, or behind one warning
      (an unknown name, an unreadable time, or an error); the errors are among the
      warnings. */
  lemma {:induction false} TallyBalance(t: TermTable, recompute: (int, string) -> Moment, year: int, terms: YearTerms<StoredTerm>)
    ensures var tally := TallyOf(t, recompute, year, terms);
            tally.validated + |tally.warnings| == |terms| && tally.errors <= |tally.warnings|
  {
    if |terms| > 0 {
      TallyBalance(t, recompute, year, terms[..|terms| - 1]);
    }
  }

  /** A stored term whose time is known and readable but more than six hours away from
      the recomputed one. */
  predicate Far(t: TermTable, recompute: (int, string) -> Moment, year: int, entry: (string, StoredTerm)) {
    entry.0 in t.order && entry.1.fullDatetime.Some?
    && !WithinTolerance(Distance(entry.1.fullDatetime.value, recompute(year, entry.0)))
  }

  /** A year records no error exactly when none of its terms is far off. */
  lemma {:induction false} NoErrorsIffNoneFar(t: TermTable, recompute: (int, string) -> Moment, year: int, terms: YearTerms<StoredTerm>)
    ensures TallyOf(t, recompute, year, terms).errors == 0 <==> forall i :: 0 <= i < |terms| ==> !Far(t, recompute, year, terms[i])
  {
    if |terms| > 0 {
      var n := |terms| - 1;
      NoErrorsIffNoneFar(t, recompute, year, terms[..n]);
      assert forall i :: 0 <= i < n ==> terms[..n][i] == terms[i];
    }
  }

  /** A stored term that is known, readable and within tolerance. */
  predicate Close(t: TermTable, recompute: (int, string) -> Moment, year: int, entry: (string, StoredTerm)) {
    entry.0 in t.order && entry.1.fullDatetime.Some?
    && WithinTolerance(Distance(entry.1.fullDatetime.value, recompute(year, entry.0)))
  }

  /** When every stored term is known, readable and within tolerance, all of them are
      validated and nothing is warned about. */
  lemma {:induction false} AllCloseAllValidated(t: TermTable, recompute: (int, string) -> Moment, year: int, terms: YearTerms<StoredTerm>)
    requires forall i :: 0 <= i < |terms| ==> Close(t, recompute, year, terms[i])
    ensures var tally := TallyOf(t, recompute, year, terms);
            tally.validated == |terms| && tally.errors == 0 && tally.warnings == []
  {
    if |terms| > 0 {
      var n := |terms| - 1;
      assert forall i :: 0 <= i < n ==> terms[..n][i] == terms[i];
      AllCloseAllValidated(t, recompute, year, terms[..n]);
    }
  }

  /** A year the database does not hold draws one warning and no error, so the range
      counts it as validated. */
  lemma MissingYearResult(t: TermTable, recompute: (int, string) -> Moment, year: int, ourData: OurData)
    requires ourData.solarTermsData.None? || !Has(ourData.solarTermsData.value, year)
    ensures var r := SingleYear(t, recompute, year, ourData);
            r.totalTerms == 0 && r.validatedTerms == 0 && r.errorCount == 0 && r.warnings == [MissingYear(year)]
  {
    var table := if ourData.solarTermsData.Some? then ourData.solarTermsData.value else [];
    GetSpec(table, year);
  }

  /** A year's result is consistent: validated terms and warnings add up to the stored
      terms, and errors are among the warnings. */
  lemma YearResultBalance(t: TermTable, recompute: (int, string) -> Moment, year: int, ourData: OurData)
    ensures var r := SingleYear(t, recompute, year, ourData);
            r.validatedTerms + |r.warnings| == r.totalTerms + (if r.totalTerms == 0 && r.warnings == [MissingYear(year)] then 1 else 0)
            && r.validatedTerms <= r.totalTerms && r.errorCount <= |r.warnings|
  {
    var table := if ourData.solarTermsData.Some? then ourData.solarTermsData.value else [];
    match Get(table, year)
    case None =>
    case Some(terms) =>
      TallyBalance(t, recompute, year, terms);
  }

  /** The result of `validate_year_range`: the counts, the per-year results in year order
      (`year_results`) and the success rate in percent (not rounded). */
  datatype RangeResult = RangeResult(totalYears: int, validatedYears: nat, totalTerms: nat, validatedTerms: nat,
                                     errorCount: nat, yearResults: seq<YearResult>, successRate: real)

  /** The running sums over the years. */
  datatype Sums = Sums(validatedYears: nat, totalTerms: nat, validatedTerms: nat, errorCount: nat)

  /** The sums over a list of year results: a year with no error counts as validated, and
      the term counts add up. */
  function Totals(rs: seq<YearResult>): Sums {
    if |rs| == 0 then Sums(0, 0, 0, 0)
    else
      var s := Totals(rs[..|rs| - 1]);
      var r := rs[|rs| - 1];
      Sums(s.validatedYears + (if r.errorCount == 0 then 1 else 0), s.totalTerms + r.totalTerms,
           s.validatedTerms + r.validatedTerms, s.errorCount + r.errorCount)
  }

  /** The results of the first `n` years from `start`. */
  function Results(t: TermTable, recompute: (int, string) -> Moment, ourData: OurData, start: int, n: nat): (rs: seq<YearResult>)
    ensures |rs| == n
  {
    if n == 0 then [] else Results(t, recompute, ourData, start, n - 1) + [SingleYear(t, recompute, start + n - 1, ourData)]
  }

  /** Result `i` is that of year `start + i`. */
  lemma {:induction false} ResultsEntries(t: TermTable, recompute: (int, string) -> Moment, ourData: OurData, start: int, n: nat)
    ensures forall i :: 0 <= i < n ==> Results(t, recompute, ourData, start, n)[i] == SingleYear(t, recompute, start + i, ourData)
  {
    if n > 0 {
      ResultsEntries(t, recompute, ourData, start, n - 1);
    }
  }

  /** One more year extends the results by its own and the sums by its counts. */
  lemma ResultsStep(t: TermTable, recompute: (int, string) -> Moment, ourData: OurData, start: int, n: nat,
                    rs: seq<YearResult>, r: YearResult)
    requires rs == Results(t, recompute, ourData, start, n) && r == SingleYear(t, recompute, start + n, ourData)
    ensures rs + [r] == Results(t, recompute, ourData, start, n + 1)
    ensures var s := Totals(rs);
            Totals(rs + [r]) == Sums(s.validatedYears + (if r.errorCount == 0 then 1 else 0), s.totalTerms + r.totalTerms,
                                     s.validatedTerms + r.validatedTerms, s.errorCount + r.errorCount)
  {
    assert (rs + [r])[..n] == rs;
  }

  /** The number of years `range(start_year, end_year + 1)` visits. */
  function YearCount(startYear: int, endYear: int): nat {
    if endYear < startYear then 0 else endYear - startYear + 1
  }

  /** `validated_terms / total_terms * 100`, or 0 without terms. */
  function SuccessRate(validated: nat, total: nat): real {
    if total > 0 then validated as real / total as real * 100.0 else 0.0
  }

  /** The range result built from the per-year results. */
  function Summary(startYear: int, endYear: int, rs: seq<YearResult>): (r: RangeResult)
    ensures r.yearResults == rs && r.totalYears == endYear - startYear + 1
    ensures r.totalTerms == 0 ==> r.successRate == 0.0
  {
    var s := Totals(rs);
    RangeResult(endYear - startYear + 1, s.validatedYears, s.totalTerms, s.validatedTerms, s.errorCount,
                rs, SuccessRate(s.validatedTerms, s.totalTerms))
  }

  /** `validate_year_range(start_year, end_year, path)` on the loaded object: an error
      for an empty object, else the summary of every year of the range. */
  function YearRange(t: TermTable, recompute: (int, string) -> Moment, startYear: int, endYear: int, ourData: OurData): (r: Result<RangeResult>)
    ensures r.Err? <==> IsEmpty(ourData)
    ensures r.Ok? ==> |r.value.yearResults| == YearCount(startYear, endYear) && r.value.totalYears == endYear - startYear + 1
  {
    if IsEmpty(ourData) then Err("データベース読み込み失敗")
    else Ok(Summary(startYear, endYear, Results(t, recompute, ourData, startYear, YearCount(startYear, endYear))))
  }

  /** The method form of `validate_year_range`. */
  method ValidateYearRange(t: TermTable, lon: real -> real, startYear: int, endYear: int, ourData: OurData) returns (r: Result<RangeResult>)
    requires ValidTable(t)
    ensures r == YearRange(t, Recomputer(t, lon), startYear, endYear, ourData)
  {
    if IsEmpty(ourData) {
      return Err("データベース読み込み失敗");
    }
    var results: seq<YearResult> := [];
    var sums := Sums(0, 0, 0, 0);
    for i := 0 to YearCount(startYear, endYear)
      invariant results == Results(t, Recomputer(t, lon), ourData, startYear, i)
      invariant sums == Totals(results)
    {
      results, sums := ValidateNextYear(t, lon, startYear, i, ourData, results, sums);
    }
    r := Ok(RangeResult(endYear - startYear + 1, sums.validatedYears, sums.totalTerms, sums.validatedTerms,
                        sums.errorCount, results, SuccessRate(sums.validatedTerms, sums.totalTerms)));
  }

  /** The body of the loop of `validate_year_range`: validate year `startYear + i` and add
      its result to the list and to the sums. */
  method ValidateNextYear(t: TermTable, lon: real -> real, startYear: int, i: nat, ourData: OurData,
                          results: seq<YearResult>, sums: Sums) returns (results': seq<YearResult>, sums': Sums)
    requires ValidTable(t)
    requires results == Results(t, Recomputer(t, lon), ourData, startYear, i) && sums == Totals(results)
    ensures results' == Results(t, Recomputer(t, lon), ourData, startYear, i + 1) && sums' == Totals(results')
  {
    var yearResult := ValidateSingleYear(t, lon, startYear + i, ourData);
    ResultsStep(t, Recomputer(t, lon), ourData, startYear, i, results, yearResult);
    sums' := Sums(sums.validatedYears + (if yearResult.errorCount == 0 then 1 else 0), sums.totalTerms + yearResult.totalTerms,
                  sums.validatedTerms + yearResult.validatedTerms, sums.errorCount + yearResult.errorCount);
    results' := results + [yearResult];
  }

  /** Sums of consistent year results are consistent: no more terms validate than are
      held, no more years validate than are listed, and every listed year validates
      exactly when none has an error. */
  lemma {:induction false} TotalsConsistent(rs: seq<YearResult>)
    requires forall i :: 0 <= i < |rs| ==> rs[i].validatedTerms <= rs[i].totalTerms
    ensures var s := Totals(rs);
            s.validatedTerms <= s.totalTerms && s.validatedYears <= |rs|
            && (s.validatedYears == |rs| <==> forall i :: 0 <= i < |rs| ==> rs[i].errorCount == 0)
  {
    if |rs| > 0 {
      var n := |rs| - 1;
      assert forall i :: 0 <= i < n ==> rs[..n][i] == rs[i];
      TotalsConsistent(rs[..n]);
    }
  }

  /** The success rate is a percentage, and 100 exactly when there were terms and all of
      them validated. */
  lemma SuccessRateBounds(validated: nat, total: nat)
    requires validated <= total
    ensures 0.0 <= SuccessRate(validated, total) <= 100.0
    ensures SuccessRate(validated, total) == 100.0 <==> total > 0 && validated == total
  {
    if total > 0 {
      var v, t := validated as real, total as real;
      var q := v / t;
      assert q * t == v;
      RatioBounds(q, t, v);
    }
  }

  /** A ratio of a part to its positive whole lies in [0, 1] and is 1 only for the whole. */
  lemma RatioBounds(q: real, t: real, v: real)
    requires t > 0.0 && 0.0 <= v <= t && q * t == v
    ensures 0.0 <= q <= 1.0 && (q == 1.0 <==> v == t)
  {
    assert (1.0 - q) * t == t - v;
  }

  /** A range result is consistent: its success rate is a percentage, it validates no
      more terms than it holds, and it counts every year as validated exactly when no
      year of the range has an error. */
  lemma RangeConsistent(t: TermTable, recompute: (int, string) -> Moment, startYear: int, endYear: int, ourData: OurData)
    requires !IsEmpty(ourData)
    ensures var r := YearRange(t, recompute, startYear, endYear, ourData).value;
            0.0 <= r.successRate <= 100.0 && r.validatedTerms <= r.totalTerms
            && (r.validatedYears == YearCount(startYear, endYear)
                <==> forall y :: startYear <= y <= endYear ==> SingleYear(t, recompute, y, ourData).errorCount == 0)
  {
    var n := YearCount(startYear, endYear);
    var rs := Results(t, recompute, ourData, startYear, n);
    ResultsEntries(t, recompute, ourData, startYear, n);
    forall i | 0 <= i < n
      ensures rs[i].validatedTerms <= rs[i].totalTerms
    {
      YearResultBalance(t, recompute, startYear + i, ourData);
    }
    TotalsConsistent(rs);
    var s := Totals(rs);
    SuccessRateBounds(s.validatedTerms, s.totalTerms);
    if forall y :: startYear <= y <= endYear ==> SingleYear(t, recompute, y, ourData).errorCount == 0 {
      forall i | 0 <= i < n
        ensures rs[i].errorCount == 0
      {
        assert rs[i] == SingleYear(t, recompute, startYear + i, ourData);
      }
    }
    forall y | startYear <= y <= endYear && s.validatedYears == n
      ensures SingleYear(t, recompute, y, ourData).errorCount == 0
    {
      assert rs[y - startYear] == SingleYear(t, recompute, y, ourData);
    }
  }
}
