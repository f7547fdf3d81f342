/** The final check of the 1900-2109 jieqi-only database: the metadata must claim 210 years,
    the years must run from 1900 to 2109 with 210 of them, and every year must hold exactly
    the twelve jieqi, which makes 2520 terms in all. */
module Final210YearValidation {
  import opened Common
  import opened Dicts
  import opened SolarTermTables
  import Merge = Merge210YearsDatabase
  import Remove = RemoveZhongqiFromDatabase

  /** The twelve jieqi every year must hold. */
  const RequiredJieqi: set<string> :=
    {"立春", "驚蟄", "清明", "立夏", "芒種", "小暑", "立秋", "白露", "寒露", "立冬", "大雪", "小寒"}

  /** The twelve zhongqi no year may hold. */
  const ForbiddenZhongqi: set<string> :=
    {"雨水", "春分", "穀雨", "小満", "夏至", "大暑", "処暑", "秋分", "霜降", "小雪", "冬至", "大寒"}

  /** The two sets are the jieqi and zhongqi of the term tables. */
  lemma TermSetsAgree(name: string)
    ensures name in RequiredJieqi <==> IsJieqi(name)
    ensures name in ForbiddenZhongqi <==> IsZhongqi(name)
  {
  }

  /** The database as this script reads it. */
  datatype Database<T> = Database(solarTermsData: Option<YearTable<T>>, metadata: Option<Dict<string, MetaValue>>)

  /** `validate_metadata`: false without metadata or when a `total_years` entry is not 210;
      a missing field only draws a warning. */
  function ValidateMetadata(metadata: Option<Dict<string, MetaValue>>): (r: bool)
    ensures r ==> metadata.Some?
    ensures metadata.Some? && Get(metadata.value, "total_years").None? ==> r
    ensures metadata.Some? && Get(metadata.value, "total_years").Some? ==>
              (r <==> Get(metadata.value, "total_years").value == Number(210))
  {
    match metadata
    case None => false
    case Some(m) =>
      match Get(m, "total_years")
      case None => true
      case Some(v) => v == Number(210)
  }

  /** The reasons a year is recorded as wrong. */
  datatype YearError = WrongCount(count: int) | MissingJieqi(names: set<string>) |
                       ZhongqiLeft(names: set<string>) | UnknownTerms(names: set<string>)

  /** What `validate_single_year` gives for one year. */
  datatype YearResult = YearResult(year: int, valid: bool, jieqiCount: int, missing: set<string>,
                                   forbidden: set<string>, unknown: set<string>, errors: seq<YearError>)

  /** The validator's two name sets: the names a year must hold and those it must not. */
  datatype TermSets = TermSets(required: set<string>, forbidden: set<string>)

  /** The sets the validator is built with. */
  const Expected := TermSets(RequiredJieqi, ForbiddenZhongqi)

  /** The term names of a year. */
  function Names<T>(y: YearTerms<T>): set<string> {
    set i | 0 <= i < |y| :: y[i].0
  }

  /** `validate_single_year`: each of a wrong count, missing jieqi and remaining zhongqi
      invalidates the year; unknown names are recorded and leave it valid. */
  function ValidateSingleYear<T>(terms: TermSets, year: int, y: YearTerms<T>): (r: YearResult)
    ensures r.year == year && r.jieqiCount == |y|
    ensures r.valid <==> |y| == 12 && terms.required <= Names(y) && Names(y) !! terms.forbidden
    ensures r.valid <==> forall e <- r.errors :: e.UnknownTerms?
    ensures r.unknown == Names(y) - terms.required - terms.forbidden
  {
    var found := Names(y);
    var missing := terms.required - found;
    var forbidden := terms.forbidden * found;
    var unknown := found - (terms.required + terms.forbidden);
    var invalidating := (if |y| != 12 then [WrongCount(|y|)] else []) +
                        (if missing != {} then [MissingJieqi(missing)] else []) +
                        (if forbidden != {} then [ZhongqiLeft(forbidden)] else []);
    var errors := invalidating + (if unknown != {} then [UnknownTerms(unknown)] else []);
    EmptyDifference(terms.required, found);
    EmptyIntersection(found, terms.forbidden);
    assert (forall e <- errors :: e.UnknownTerms?) <==> invalidating == [] by {
      if invalidating == [] {
        assert errors == (if unknown != {} then [UnknownTerms(unknown)] else []);
      } else {
        assert forall e <- invalidating :: !e.UnknownTerms?;
        assert errors[0] == invalidating[0] && errors[0] in errors;
      }
    }
    YearResult(year, |y| == 12 && missing == {} && forbidden == {}, |y|, missing, forbidden, unknown, errors)
  }

  /** A difference is empty exactly when the first set lies in the second. */
  lemma EmptyDifference<X>(a: set<X>, b: set<X>)
    ensures a - b == {} <==> a <= b
  {
    if a <= b {
      assert forall x :: x !in a - b;
    } else {
      var x :| x in a && x !in b;
      assert x in a - b;
    }
  }

  /** An intersection is empty exactly when the sets are disjoint. */
  lemma EmptyIntersection<X>(a: set<X>, b: set<X>)
    ensures b * a == {} <==> a !! b
  {
    if !(a !! b) {
      var x :| x in a && x in b;
      assert x in b * a;
    }
  }

  /** Distinct names: a year has as many names as entries. */
  lemma {:induction false} NamesCount<T>(y: YearTerms<T>)
    requires WellFormed(y)
    ensures |Names(y)| == |y|
  {
    if |y| > 0 {
      var n := |y| - 1;
      assert WellFormed(y[..n]);
      NamesCount(y[..n]);
      assert Names(y) == Names(y[..n]) + {y[n].0} by {
        forall name | name in Names(y)
          ensures name in Names(y[..n]) + {y[n].0}
        {
          var i :| 0 <= i < |y| && y[i].0 == name;
          if i < n {
            assert y[..n][i].0 == name;
          }
        }
      }
      assert y[n].0 !in Names(y[..n]);
    }
  }

  lemma RequiredCount()
    ensures |RequiredJieqi| == 12
  {
  }

  /** A subset as large as its superset is the whole of it. */
  lemma SubsetSameSize<X>(a: set<X>, b: set<X>)
    requires a <= b && |a| == |b|
    ensures a == b
  {
    assert a + b == b && a * b == a;
    assert |b - a| == 0;
    assert b - a == {};
  }

  /** No name is both a jieqi and a zhongqi. */
  lemma TermSetsDisjoint()
    ensures RequiredJieqi * ForbiddenZhongqi == {}
  {
    forall name | name in RequiredJieqi
      ensures name !in ForbiddenZhongqi
    {
    }
  }

  /** For a year with distinct names the three checks say one thing: the year is valid
      exactly when its names are the twelve jieqi. It then holds no unknown name and no
      error is recorded. */
  lemma ValidIffJieqiExactly<T>(year: int, y: YearTerms<T>)
    requires WellFormed(y)
    ensures ValidateSingleYear(Expected, year, y).valid <==> Names(y) == RequiredJieqi
    ensures ValidateSingleYear(Expected, year, y).valid <==> ValidateSingleYear(Expected, year, y).errors == []
  {
    NamesCount(y);
    RequiredCount();
    var found := Names(y);
    TermSetsDisjoint();
    if ValidateSingleYear(Expected, year, y).valid {
      SubsetSameSize(RequiredJieqi, found);
    }
  }

  lemma ValidYearSize<T>(terms: TermSets, year: int, y: YearTerms<T>)
    requires ValidateSingleYear(terms, year, y).valid
    ensures |y| == 12
  {
  }

  /** A valid year also passes the remover's own check. */
  lemma ValidYearPassesRemoval<T>(year: int, y: YearTerms<T>)
    requires ValidateSingleYear(Expected, year, y).valid
    ensures Remove.YearPasses(y)
  {
    forall i | 0 <= i < |y|
      ensures !IsZhongqi(NameAt(y, i))
    {
      TermSetsAgree(y[i].0);
      assert y[i].0 in Names(y);
    }
  }

  /** The counters `validate_all_years` keeps while it walks the years. */
  datatype Tallies = Tallies(valid: int, invalid: int, jieqi: int, missing: multiset<string>,
                             forbidden: multiset<string>, errors: seq<YearResult>)

  /** The counters after one more year. */
  function Step(c: Tallies, r: YearResult): Tallies {
    if r.valid then c.(valid := c.valid + 1, jieqi := c.jieqi + r.jieqiCount)
    else c.(invalid := c.invalid + 1, jieqi := c.jieqi + r.jieqiCount,
            missing := c.missing + multiset(r.missing), forbidden := c.forbidden + multiset(r.forbidden),
            errors := c.errors + [r])
  }

  /** The counters after a sequence of year results. */
  function Tally(rs: seq<YearResult>): Tallies {
    if |rs| == 0 then Tallies(0, 0, 0, multiset{}, multiset{}, [])
    else Step(Tally(rs[..|rs| - 1]), rs[|rs| - 1])
  }

  /** The result of each year of a table, in its order. */
  function Results<T>(terms: TermSets, t: YearTable<T>): (rs: seq<YearResult>)
    ensures |rs| == |t|
  {
    if |t| == 0 then [] else Results(terms, t[..|t| - 1]) + [ValidateSingleYear(terms, t[|t| - 1].0, t[|t| - 1].1)]
  }

  /** Result `i` is the check of year `i`. */
  lemma {:induction false} ResultsAt<T>(terms: TermSets, t: YearTable<T>, i: int)
    requires 0 <= i < |t|
    ensures Results(terms, t)[i] == ValidateSingleYear(terms, t[i].0, t[i].1)
  {
    if i < |t| - 1 {
      ResultsAt(terms, t[..|t| - 1], i);
    }
  }

  /** One more year of the walk. */
  lemma TallyNext<T>(terms: TermSets, t: YearTable<T>, i: int, c: Tallies)
    requires 0 <= i < |t| && c == Tally(Results(terms, t[..i]))
    ensures Step(c, ValidateSingleYear(terms, t[i].0, t[i].1)) == Tally(Results(terms, t[..i + 1]))
  {
    assert t[..i + 1][..i] == t[..i];
    assert Results(terms, t[..i + 1])[..i] == Results(terms, t[..i]);
  }

  /** Every year is counted once as valid or invalid, the recorded errors are the invalid
      years, and nothing is invalid exactly when every year is valid. */
  lemma {:induction false} TallyCounts(rs: seq<YearResult>)
    ensures Tally(rs).valid + Tally(rs).invalid == |rs|
    ensures |Tally(rs).errors| == Tally(rs).invalid
    ensures Tally(rs).invalid == 0 <==> forall i :: 0 <= i < |rs| ==> rs[i].valid
  {
    if |rs| > 0 {
      var n := |rs| - 1;
      TallyCounts(rs[..n]);
      assert forall i :: 0 <= i < n ==> rs[..n][i] == rs[i];
    }
  }

  /** The recorded errors are all invalid year results. */
  lemma {:induction false} TallyErrorsInvalid(rs: seq<YearResult>)
    ensures forall k :: 0 <= k < |Tally(rs).errors| ==> !Tally(rs).errors[k].valid
  {
    if |rs| > 0 {
      TallyErrorsInvalid(rs[..|rs| - 1]);
    }
  }

  /** The term count of a walk is the number of entries over all years. */
  lemma {:induction false} TallyTerms<T>(terms: TermSets, t: YearTable<T>)
    ensures Tally(Results(terms, t)).jieqi == TotalTerms(t)
  {
    if |t| > 0 {
      var rs := Results(terms, t);
      TallyTerms(terms, t[..|t| - 1]);
      assert rs[..|rs| - 1] == Results(terms, t[..|t| - 1]);
    }
  }

  /** A whole table passes the walk exactly when each of its years is valid. */
  lemma TableValidIff<T>(terms: TermSets, t: YearTable<T>)
    ensures Tally(Results(terms, t)).invalid == 0 <==> forall i :: 0 <= i < |t| ==> ValidateSingleYear(terms, t[i].0, t[i].1).valid
  {
    TallyCounts(Results(terms, t));
    forall i | 0 <= i < |t| {
      ResultsAt(terms, t, i);
    }
  }

  /** The smallest of a non-empty list of years. */
  function Min(s: seq<int>): (m: int)
    requires |s| > 0
    ensures m in s && forall i :: 0 <= i < |s| ==> m <= s[i]
  {
    if |s| == 1 then s[0]
    else
      var m := Min(s[..|s| - 1]);
      assert forall i :: 0 <= i < |s| - 1 ==> s[..|s| - 1][i] == s[i];
      if s[|s| - 1] < m then s[|s| - 1] else m
  }

  /** The largest of a non-empty list of years. */
  function Max(s: seq<int>): (m: int)
    requires |s| > 0
    ensures m in s && forall i :: 0 <= i < |s| ==> s[i] <= m
  {
    if |s| == 1 then s[0]
    else
      var m := Max(s[..|s| - 1]);
      assert forall i :: 0 <= i < |s| - 1 ==> s[..|s| - 1][i] == s[i];
      if s[|s| - 1] > m then s[|s| - 1] else m
  }

  /** The years of a table, in its order. */
  function Years<T>(t: YearTable<T>): (ys: seq<int>)
    ensures |ys| == |t| && forall i :: 0 <= i < |t| ==> ys[i] == t[i].0
  {
    seq(|t|, i requires 0 <= i < |t| => t[i].0)
  }

  /** The range check of `validate_all_years`: first year 1900, last 2109, 210 years. */
  predicate RangePasses<T>(t: YearTable<T>)
    requires |t| > 0
  {
    Min(Years(t)) == 1900 && Max(Years(t)) == 2109 && |t| == 210
  }

  /** The loop of `validate_all_years`: each year checked in turn, the valid and invalid
      years and the terms counted, and the invalid years' results collected. */
  method WalkYears<T>(terms: TermSets, t: YearTable<T>) returns (c: Tallies)
    ensures c == Tally(Results(terms, t))
  {
    c := Tallies(0, 0, 0, multiset{}, multiset{}, []);
    var i := 0;
    while i < |t|
      invariant 0 <= i <= |t|
      invariant c == Tally(Results(terms, t[..i]))
    {
      var result := ValidateSingleYear(terms, t[i].0, t[i].1);
      var before := c;
      c := CountYear(c, result);
      TallyNext(terms, t, i, before);
      i := i + 1;
    }
    assert t[..|t|] == t;
  }

  /** The body of the loop of `validate_all_years`: count one year's result. */
  method CountYear(c: Tallies, result: YearResult) returns (c': Tallies)
    ensures c' == Step(c, result)
  {
    c' := c.(jieqi := c.jieqi + result.jieqiCount);
    if result.valid {
      c' := c'.(valid := c'.valid + 1);
    } else {
      c' := c'.(invalid := c'.invalid + 1, errors := c'.errors + [result],
                missing := c'.missing + multiset(result.missing), forbidden := c'.forbidden + multiset(result.forbidden));
    }
  }

  /** The statistics the validator keeps. */
  datatype Stats = Stats(totalYears: int, validYears: int, invalidYears: int, totalJieqiCount: int,
                         missingJieqi: multiset<string>, forbiddenFound: multiset<string>,
                         yearErrors: seq<YearResult>)

  /** The validator and its statistics. */
  class Final210YearValidator {
    const requiredJieqi: set<string>
    const forbiddenZhongqi: set<string>
    var stats: Stats

    constructor()
      ensures requiredJieqi == RequiredJieqi && forbiddenZhongqi == ForbiddenZhongqi
      ensures stats == Stats(0, 0, 0, 0, multiset{}, multiset{}, [])
    {
      requiredJieqi := RequiredJieqi;
      forbiddenZhongqi := ForbiddenZhongqi;
      stats := Stats(0, 0, 0, 0, multiset{}, multiset{}, []);
    }

    /** `validate_all_years`. Without year data it returns false; with an empty object `min`
        raises; a wrong range or year count returns false with only the year count
        recorded; otherwise the per-year counts are recorded, the error lists extended, and
        the answer is whether every year is valid. */
    method ValidateAllYears<T>(database: Database<T>) returns (r: Result<bool>)
      modifies this
      ensures database.solarTermsData.None? ==> r == Ok(false) && stats == old(stats)
      ensures database.solarTermsData.Some? ==>
                var t := database.solarTermsData.value;
                var s0 := old(stats).(totalYears := |t|);
                if |t| == 0 then r == Err("ValueError: min() arg is an empty sequence") && stats == s0
                else if !RangePasses(t) then r == Ok(false) && stats == s0
                else
                  var c := Tally(Results(TermSets(requiredJieqi, forbiddenZhongqi), t));
                  r == Ok(c.invalid == 0) &&
                  stats == s0.(validYears := c.valid, invalidYears := c.invalid, totalJieqiCount := c.jieqi,
                               missingJieqi := s0.missingJieqi + c.missing,
                               forbiddenFound := s0.forbiddenFound + c.forbidden,
                               yearErrors := s0.yearErrors + c.errors)
    {
      if database.solarTermsData.None? {
        return Ok(false);
      }
      var t := database.solarTermsData.value;
      stats := stats.(totalYears := |t|);
      if |t| == 0 {
        return Err("ValueError: min() arg is an empty sequence");
      }
      var years := Years(t);
      if Min(years) != 1900 || Max(years) != 2109 {
        return Ok(false);
      }
      if |years| != 210 {
        return Ok(false);
      }
      var c := WalkYears(TermSets(requiredJieqi, forbiddenZhongqi), t);
      stats := stats.(validYears := c.valid, invalidYears := c.invalid, totalJieqiCount := c.jieqi,
                      missingJieqi := stats.missingJieqi + c.missing,
                      forbiddenFound := stats.forbiddenFound + c.forbidden,
                      yearErrors := stats.yearErrors + c.errors);
      r := Ok(c.invalid == 0);
    }

    /** `validate_expected_total`: the recorded term count is 210 times 12. */
    function ValidateExpectedTotal(): (r: bool)
      reads this
      ensures r <==> stats.totalJieqiCount == 2520
    {
      stats.totalJieqiCount == 210 * 12
    }
  }

  /** A run on 210 years that are all valid records 2520 terms, so the expected total
      holds. */
  lemma PassingYearsMeetExpectedTotal<T>(terms: TermSets, t: YearTable<T>)
    requires |t| == 210
    requires forall i :: 0 <= i < |t| ==> ValidateSingleYear(terms, t[i].0, t[i].1).valid
    ensures Tally(Results(terms, t)).jieqi == 210 * 12
  {
    assert TotalTerms(t) == 210 * 12 by {
      forall i | 0 <= i < |t|
        ensures |t[i].1| == 12
      {
        ValidYearSize(terms, t[i].0, t[i].1);
      }
      TotalTermsUniform(t, 12);
    }
    TallyTerms(terms, t);
  }

  /** The metadata the 210-year merge writes, after the remover restamps it, passes
      exactly when the two merged files held 210 years between them. */
  lemma MergedMetadataValid(baseYears: int, additionalYears: int, now: string)
    ensures ValidateMetadata(Some(Remove.Stamped(Merge.MergeMetadata(baseYears, additionalYears), now))) <==>
              baseYears + additionalYears == 210
  {
    Merge.MergeMetadataWellFormed(baseYears, additionalYears);
    Remove.StampedKeepsOthers(Merge.MergeMetadata(baseYears, additionalYears), now, "total_years");
  }
}
