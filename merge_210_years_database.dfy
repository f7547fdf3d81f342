/** The 210-year merge: the 1900-2100 database and the 2101-2109 database are read, their
    year objects are merged with two `dict.update` calls (the second file winning on a
    shared year), and the result is saved with metadata that adds the two year counts. */
module Merge210YearsDatabase {
  import opened Common
  import opened Dicts
  import opened SolarTermTables

  /** What reading one input file gives: no file, text that is not JSON, or a JSON object
      with or without `solar_terms_data`. */
  datatype Loaded<T> = Missing | BadJson | Loaded(solarTermsData: Option<YearTable<T>>)

  /** The warnings printed before merging. */
  datatype Warning = BaseNot201(years: int) | AdditionalNot9(years: int) | SharedYears

  /** The merged database as saved. */
  datatype Merged<T> = Merged(metadata: Dict<string, MetaValue>, solarTermsData: YearTable<T>, warnings: seq<Warning>)

  /** The script's outcome: it returns False, an exception escapes, or the merge is saved. */
  datatype Outcome<T> = ReturnedFalse | Raised(error: string) | Saved(merged: Merged<T>)

  /** The metadata fields the merge derives from the two year counts. */
  function MergeMetadata(baseYears: int, additionalYears: int): (m: Dict<string, MetaValue>)
    ensures Get(m, "total_years") == Some(Number(baseYears + additionalYears))
    ensures Get(m, "total_solar_terms") == Some(Number((baseYears + additionalYears) * 24))
  {
    var m := [("title", Text("Chinese Solar Terms (24節気) Database 1900-2109")),
              ("total_years", Number(baseYears + additionalYears)),
              ("year_range", Text("1900-2109")),
              ("solar_terms_count_per_year", Number(24)),
              ("total_solar_terms", Number((baseYears + additionalYears) * 24))];
    assert FindKey(m, "total_years", 1) == Some(1);
    assert FindKey(m, "total_solar_terms", 4) == Some(4);
    assert FindKey(m, "total_solar_terms", 3) == Some(4);
    assert FindKey(m, "total_solar_terms", 2) == Some(4);
    assert FindKey(m, "total_solar_terms", 1) == Some(4);
    m
  }

  /** The metadata keys are distinct. */
  lemma MergeMetadataWellFormed(baseYears: int, additionalYears: int)
    ensures WellFormed(MergeMetadata(baseYears, additionalYears))
  {
  }

  /** The warnings for two year objects of the given sizes and overlap. */
  function Warnings(baseYears: int, additionalYears: int, overlap: bool): seq<Warning> {
    (if baseYears != 201 then [BaseNot201(baseYears)] else []) +
    (if additionalYears != 9 then [AdditionalNot9(additionalYears)] else []) +
    (if overlap then [SharedYears] else [])
  }

  /** The merged years: the base years, then the additional ones written over them. */
  function MergedYears<T>(base: YearTable<T>, additional: YearTable<T>): (m: YearTable<T>)
    ensures forall y :: Has(m, y) <==> Has(base, y) || Has(additional, y)
    ensures |m| == 0 <==> |base| == 0 && |additional| == 0
  {
    UpdateTwiceKeys(base, additional);
    Update(Update([], base), additional)
  }

  lemma UpdateTwiceKeys<T>(base: YearTable<T>, additional: YearTable<T>)
    ensures var m := Update(Update([], base), additional);
            (forall y :: Has(m, y) <==> Has(base, y) || Has(additional, y)) &&
            (|m| == 0 <==> |base| == 0 && |additional| == 0)
  {
    var m := Update(Update([], base), additional);
    forall y ensures Has(m, y) <==> Has(base, y) || Has(additional, y) {
      UpdateKeys([], base, y);
      UpdateKeys(Update([], base), additional, y);
    }
    if |base| > 0 {
      assert Has(base, base[0].0);
    }
    if |additional| > 0 {
      assert Has(additional, additional[0].0);
    }
    if |m| > 0 {
      assert Has(m, m[0].0);
    }
  }

  /** Some year is in both files. */
  predicate Overlaps<T>(base: YearTable<T>, additional: YearTable<T>) {
    exists i :: 0 <= i < |additional| && Has(base, additional[i].0)
  }

  /** `merge_solar_terms_databases`. A missing or malformed file makes it return False; a
      file without `solar_terms_data` raises KeyError; an empty merge raises ValueError at
      `min`; a failed save returns False. */
  method MergeSolarTermsDatabases<T>(base: Loaded<T>, additional: Loaded<T>, saveSucceeds: bool)
    returns (r: Outcome<T>)
    ensures base.Missing? || base.BadJson? ==> r == ReturnedFalse
    ensures base.Loaded? && base.solarTermsData.None? ==> r == Raised("KeyError: 'solar_terms_data'")
    ensures base.Loaded? && base.solarTermsData.Some? && (additional.Missing? || additional.BadJson?) ==>
              r == ReturnedFalse
    ensures base.Loaded? && base.solarTermsData.Some? && additional.Loaded? && additional.solarTermsData.None? ==>
              r == Raised("KeyError: 'solar_terms_data'")
    ensures r.Saved? ==>
              base.Loaded? && base.solarTermsData.Some? && additional.Loaded? && additional.solarTermsData.Some? &&
              saveSucceeds &&
              r.merged.solarTermsData == MergedYears(base.solarTermsData.value, additional.solarTermsData.value) &&
              r.merged.metadata ==
                MergeMetadata(|base.solarTermsData.value|, |additional.solarTermsData.value|) &&
              r.merged.warnings == Warnings(|base.solarTermsData.value|, |additional.solarTermsData.value|,
                                            Overlaps(base.solarTermsData.value, additional.solarTermsData.value))
    ensures base.Loaded? && base.solarTermsData.Some? && additional.Loaded? && additional.solarTermsData.Some? ==>
              (r.Saved? <==> saveSucceeds &&
                             |MergedYears(base.solarTermsData.value, additional.solarTermsData.value)| > 0)
    ensures base.Loaded? && base.solarTermsData.Some? && additional.Loaded? && additional.solarTermsData.Some? &&
            |base.solarTermsData.value| == 0 && |additional.solarTermsData.value| == 0 ==>
              r == Raised("ValueError: min() arg is an empty sequence")
    ensures base.Loaded? && base.solarTermsData.Some? && additional.Loaded? && additional.solarTermsData.Some? &&
            |base.solarTermsData.value| + |additional.solarTermsData.value| > 0 && !saveSucceeds ==>
              r == ReturnedFalse
  {
    if !base.Loaded? {
      return ReturnedFalse;
    }
    if base.solarTermsData.None? {
      return Raised("KeyError: 'solar_terms_data'");
    }
    if !additional.Loaded? {
      return ReturnedFalse;
    }
    if additional.solarTermsData.None? {
      return Raised("KeyError: 'solar_terms_data'");
    }
    var b, a := base.solarTermsData.value, additional.solarTermsData.value;
    var overlap := exists i :: 0 <= i < |a| && Has(b, a[i].0);
    var warnings := Warnings(|b|, |a|, overlap);
    var years: YearTable<T> := [];
    years := Update(years, b);
    years := Update(years, a);
    assert years == MergedYears(b, a);
    if |years| == 0 {
      return Raised("ValueError: min() arg is an empty sequence");
    }
    if !saveSucceeds {
      return ReturnedFalse;
    }
    r := Saved(Merged(MergeMetadata(|b|, |a|), years, warnings));
  }

  /** Writing a dict with distinct keys into an empty one gives the same keys and values. */
  lemma FromEmpty<T>(base: YearTable<T>, y: int)
    requires WellFormed(base)
    ensures WellFormed(Update([], base))
    ensures Has(Update([], base), y) <==> Has(base, y)
    ensures Get(Update([], base), y) == Get(base, y)
  {
    UpdateGet([], base, y);
    UpdateKeys([], base, y);
    var empty: YearTable<T> := [];
    GetSpec(base, y);
    GetSpec(empty, y);
  }

  /** The merged years are the union of both files' years; on a shared year the additional
      file's terms win. */
  lemma MergedYearsGet<T>(base: YearTable<T>, additional: YearTable<T>, y: int)
    requires WellFormed(base) && WellFormed(additional)
    ensures Has(MergedYears(base, additional), y) <==> Has(base, y) || Has(additional, y)
    ensures Get(MergedYears(base, additional), y) ==
              if Has(additional, y) then Get(additional, y) else Get(base, y)
  {
    FromEmpty(base, y);
    UpdateKeys(Update([], base), additional, y);
    UpdateGet(Update([], base), additional, y);
  }

  /** Counting against keys: two dicts with the same keys share the same overlap with src. */
  lemma {:induction false} OverlapSameKeys<T>(d1: YearTable<T>, d2: YearTable<T>, src: YearTable<T>)
    requires forall y :: Has(d1, y) <==> Has(d2, y)
    decreases |src|
    ensures OverlapCount(d1, src) == OverlapCount(d2, src)
  {
    if |src| > 0 {
      OverlapSameKeys(d1, d2, src[..|src| - 1]);
    }
  }

  /** The merged year count falls short of `total_years` by the number of shared years, so
      the metadata overstates it exactly when the files share a year. */
  lemma MergedCount<T>(base: YearTable<T>, additional: YearTable<T>)
    requires WellFormed(base) && WellFormed(additional)
    ensures |MergedYears(base, additional)| + OverlapCount(base, additional) == |base| + |additional|
    ensures |MergedYears(base, additional)| < |base| + |additional| <==> Overlaps(base, additional)
  {
    UpdateLength([], base);
    assert OverlapCount([], base) == 0 by {
      NoOverlapWithEmpty(base);
    }
    forall y
      ensures Has(Update([], base), y) <==> Has(base, y)
    {
      FromEmpty(base, y);
    }
    OverlapSameKeys(Update([], base), base, additional);
    UpdateLength(Update([], base), additional);
    OverlapPositive(base, additional);
  }

  lemma {:induction false} NoOverlapWithEmpty<T>(src: YearTable<T>)
    decreases |src|
    ensures OverlapCount([], src) == 0
  {
    if |src| > 0 {
      NoOverlapWithEmpty(src[..|src| - 1]);
    }
  }

  /** The overlap count is positive exactly when some year of src is in d. */
  lemma {:induction false} OverlapPositive<T>(d: YearTable<T>, src: YearTable<T>)
    decreases |src|
    ensures OverlapCount(d, src) > 0 <==> Overlaps(d, src)
  {
    if |src| > 0 {
      var n := |src| - 1;
      OverlapPositive(d, src[..n]);
      if Overlaps(d, src[..n]) {
        var i :| 0 <= i < n && Has(d, src[..n][i].0);
        assert src[i] == src[..n][i];
      }
      if Overlaps(d, src) && !Has(d, src[n].0) {
        var i :| 0 <= i < |src| && Has(d, src[i].0);
        assert src[..n][i] == src[i];
      }
    }
  }
}
