/** The zhongqi remover: it turns a 24-term database into a 12-term one by dropping the
    zhongqi of every year that has any, counts what it did, stamps the metadata and checks
    the result. Each JSON object's keys are distinct, so writing a fresh key appends it. */
module RemoveZhongqiFromDatabase {
  import opened Common
  import opened Dicts
  import opened SolarTermTables

  /** The entries of a year that are not zhongqi, in their order: jieqi and unknown names
      alike are kept. */
  function Kept<T>(year: YearTerms<T>): YearTerms<T> {
    if |year| == 0 then []
    else
      var rest := Kept(year[..|year| - 1]);
      if IsZhongqi(year[|year| - 1].0) then rest else rest + [year[|year| - 1]]
  }

  /** How many entries of a year are zhongqi. */
  function RemovedCount<T>(year: YearTerms<T>): nat {
    if |year| == 0 then 0
    else RemovedCount(year[..|year| - 1]) + (if IsZhongqi(year[|year| - 1].0) then 1 else 0)
  }

  /** Every entry is either kept or counted as removed. */
  lemma {:induction false} KeptPartition<T>(year: YearTerms<T>)
    ensures |Kept(year)| + RemovedCount(year) == |year|
  {
    if |year| > 0 {
      KeptPartition(year[..|year| - 1]);
    }
  }

  /** The kept entries are exactly the entries whose name is not a zhongqi. */
  lemma {:induction false} KeptMembers<T>(year: YearTerms<T>, e: (string, T))
    ensures e in Kept(year) <==> e in year && !IsZhongqi(e.0)
  {
    if |year| > 0 {
      var n := |year| - 1;
      KeptMembers(year[..n], e);
      assert year == year[..n] + [year[n]];
    }
  }

  /** A year without zhongqi is kept whole, and nothing removed from it. */
  lemma {:induction false} NoZhongqiKeptWhole<T>(year: YearTerms<T>)
    requires !HasZhongqi(year)
    ensures Kept(year) == year
    ensures RemovedCount(year) == 0
  {
    if |year| > 0 {
      var n := |year| - 1;
      assert !IsZhongqi(NameAt(year, n));
      assert !HasZhongqi(year[..n]) by {
        forall i | 0 <= i < n
          ensures !IsZhongqi(NameAt(year[..n], i))
        {
          assert NameAt(year[..n], i) == NameAt(year, i);
        }
      }
      NoZhongqiKeptWhole(year[..n]);
      assert year == year[..n] + [year[n]];
    }
  }

  /** No zhongqi survives. */
  lemma KeptHasNoZhongqi<T>(year: YearTerms<T>)
    ensures !HasZhongqi(Kept(year))
  {
    var k := Kept(year);
    forall i | 0 <= i < |k|
      ensures !IsZhongqi(NameAt(k, i))
    {
      KeptMembers(year, k[i]);
    }
  }

  /** The remover's counters. */
  datatype Stats = Stats(totalYears: int, processedYears: int, skippedYears: int,
                         removedZhongqi: int, keptJieqi: int)

  /** The counters after one year of the database: a year with a zhongqi is processed and
      adds its removed and kept entries; any other year is skipped. */
  function YearStep<T>(s: Stats, year: YearTerms<T>): Stats {
    if HasZhongqi(year) then
      s.(processedYears := s.processedYears + 1,
         removedZhongqi := s.removedZhongqi + RemovedCount(year),
         keptJieqi := s.keptJieqi + |Kept(year)|)
    else s.(skippedYears := s.skippedYears + 1)
  }

  /** The counters after the years of `t`, in order. */
  function Tally<T>(s: Stats, t: YearTable<T>): Stats {
    if |t| == 0 then s else YearStep(Tally(s, t[..|t| - 1]), t[|t| - 1].1)
  }

  /** The cleaned table: every year keeps its key; a year with zhongqi is replaced by its
      kept entries and any other year is copied unchanged. */
  function CleanTable<T>(t: YearTable<T>): (c: YearTable<T>)
    ensures |c| == |t|
  {
    if |t| == 0 then []
    else
      var y := t[|t| - 1];
      CleanTable(t[..|t| - 1]) + [(y.0, if HasZhongqi(y.1) then Kept(y.1) else y.1)]
  }

  /** Copying a year unchanged is the same as filtering it, so the cleaned table holds the
      kept entries of every year under the same key. */
  lemma {:induction false} CleanTableAt<T>(t: YearTable<T>, i: int)
    requires 0 <= i < |t|
    ensures CleanTable(t)[i] == (t[i].0, Kept(t[i].1))
  {
    var n := |t| - 1;
    if i < n {
      CleanTableAt(t[..n], i);
    } else if !HasZhongqi(t[n].1) {
      NoZhongqiKeptWhole(t[n].1);
    }
  }

  /** Processed and skipped years together are all the years, and no counter decreases. */
  lemma {:induction false} TallyCounts<T>(s: Stats, t: YearTable<T>)
    ensures Tally(s, t).processedYears + Tally(s, t).skippedYears == s.processedYears + s.skippedYears + |t|
    ensures Tally(s, t).totalYears == s.totalYears
    ensures Tally(s, t).processedYears >= s.processedYears && Tally(s, t).skippedYears >= s.skippedYears
    ensures Tally(s, t).removedZhongqi >= s.removedZhongqi && Tally(s, t).keptJieqi >= s.keptJieqi
  {
    if |t| > 0 {
      TallyCounts(s, t[..|t| - 1]);
    }
  }

  /** When each processed year loses exactly twelve zhongqi, the removals are twelve per
      processed year, which is what the statistics report calls perfect. */
  lemma {:induction false} TwelveEachIsPerfect<T>(s: Stats, t: YearTable<T>)
    requires forall i :: 0 <= i < |t| && HasZhongqi(t[i].1) ==> RemovedCount(t[i].1) == 12
    ensures Tally(s, t).removedZhongqi - s.removedZhongqi == 12 * (Tally(s, t).processedYears - s.processedYears)
  {
    if |t| > 0 {
      TwelveEachIsPerfect(s, t[..|t| - 1]);
    }
  }

  /** The metadata fields the remover rewrites, `now` being the processing time. */
  function Stamped(entries: Dict<string, MetaValue>, now: string): Dict<string, MetaValue> {
    var d1 := Put(entries, "description", Text("Complete 12 solar terms (節気) data for 210 years (1900-2109)"));
    var d2 := Put(d1, "data_structure", Pairs([("1900-2109", "12節気のみ（中気除去済み）")]));
    var d3 := Put(d2, "note", Text("四柱推命計算専用：12節気のみのクリーンデータベース"));
    var d4 := Put(d3, "processed", Text(now));
    Put(d4, "solar_terms_count_per_year", Number(12))
  }

  /** Restamping leaves every other metadata field as it was. */
  lemma StampedKeepsOthers(entries: Dict<string, MetaValue>, now: string, k: string)
    requires WellFormed(entries)
    requires k !in {"description", "data_structure", "note", "processed", "solar_terms_count_per_year"}
    ensures Get(Stamped(entries, now), k) == Get(entries, k)
  {
    var d1 := Put(entries, "description", Text("Complete 12 solar terms (節気) data for 210 years (1900-2109)"));
    var d2 := Put(d1, "data_structure", Pairs([("1900-2109", "12節気のみ（中気除去済み）")]));
    var d3 := Put(d2, "note", Text("四柱推命計算専用：12節気のみのクリーンデータベース"));
    var d4 := Put(d3, "processed", Text(now));
    PutGet(entries, "description", Text("Complete 12 solar terms (節気) data for 210 years (1900-2109)"), k);
    PutGet(d1, "data_structure", Pairs([("1900-2109", "12節気のみ（中気除去済み）")]), k);
    PutGet(d2, "note", Text("四柱推命計算専用：12節気のみのクリーンデータベース"), k);
    PutGet(d3, "processed", Text(now), k);
    PutGet(d4, "solar_terms_count_per_year", Number(12), k);
  }

  /** The `metadata` object: a dict the remover updates in place. */
  class Metadata {
    var entries: Dict<string, MetaValue>

    constructor(entries: Dict<string, MetaValue>)
      ensures this.entries == entries
    {
      this.entries := entries;
    }
  }

  /** A database: its `solar_terms_data` and its `metadata`, either of which may be absent. */
  datatype Database<T> = Database(solarTermsData: Option<YearTable<T>>, metadata: Option<Metadata>)

  /** A year passes validation when it has exactly twelve entries and none is a zhongqi; a
      missing jieqi only draws a warning. */
  predicate YearPasses<T>(year: YearTerms<T>) {
    |year| == 12 && !HasZhongqi(year)
  }

  /** After removal a year passes exactly when twelve of its entries were kept. */
  lemma CleanedYearPasses<T>(t: YearTable<T>, i: int)
    requires 0 <= i < |t|
    ensures YearPasses(CleanTable(t)[i].1) <==> |Kept(t[i].1)| == 12
  {
    CleanTableAt(t, i);
    KeptHasNoZhongqi(t[i].1);
  }

  class ZhongqiRemover {
    var stats: Stats

    constructor()
      ensures stats == Stats(0, 0, 0, 0, 0)
    {
      stats := Stats(0, 0, 0, 0, 0);
    }

    /** `process_single_year`: the year without its zhongqi; the removed and kept counts
        are added to the counters. */
    method ProcessSingleYear<T>(year: int, yearData: YearTerms<T>) returns (cleaned: YearTerms<T>)
      modifies this
      ensures cleaned == Kept(yearData)
      ensures stats == old(stats).(removedZhongqi := old(stats.removedZhongqi) + RemovedCount(yearData),
                                   keptJieqi := old(stats.keptJieqi) + |Kept(yearData)|)
    {
      cleaned := [];
      var removed := 0;
      var kept := 0;
      var i := 0;
      while i < |yearData|
        invariant 0 <= i <= |yearData|
        invariant cleaned == Kept(yearData[..i]) && removed == RemovedCount(yearData[..i]) && kept == |cleaned|
      {
        var (name, data) := yearData[i];
        assert yearData[..i + 1][..i] == yearData[..i];
        if IsZhongqi(name) {
          removed := removed + 1;
        } else if IsJieqi(name) {
          cleaned := cleaned + [(name, data)];
          kept := kept + 1;
        } else {
          cleaned := cleaned + [(name, data)];
          kept := kept + 1;
        }
        i := i + 1;
      }
      assert yearData[..|yearData|] == yearData;
      stats := stats.(removedZhongqi := stats.removedZhongqi + removed, keptJieqi := stats.keptJieqi + kept);
    }

    /** One pass of the year loop of `remove_zhongqi_from_database`: a year without a
        zhongqi is copied and skipped, any other year is processed. */
    method CleanOneYear<T>(year: int, yearData: YearTerms<T>) returns (entry: (int, YearTerms<T>))
      modifies this
      ensures entry == (year, if HasZhongqi(yearData) then Kept(yearData) else yearData)
      ensures stats == YearStep(old(stats), yearData)
    {
      var hasZhongqi := exists j :: 0 <= j < |yearData| && IsZhongqi(NameAt(yearData, j));
      if !hasZhongqi {
        entry := (year, yearData);
        stats := stats.(skippedYears := stats.skippedYears + 1);
      } else {
        var cleanedYear := ProcessSingleYear(year, yearData);
        entry := (year, cleanedYear);
        stats := stats.(processedYears := stats.processedYears + 1);
      }
    }

    /** `remove_zhongqi_from_database`. Without `solar_terms_data` the database comes back
        as it is. Otherwise the counters are reset to the year count and tallied, the
        cleaned years replace the old ones in a shallow copy, and the metadata is stamped
        through that copy: the copy holds the same metadata object as the input, so the
        input's metadata changes too, and a missing `metadata` raises KeyError after the
        years were processed. */
    method RemoveZhongqi<T>(database: Database<T>, now: string) returns (r: Result<Database<T>>)
      modifies this, if database.metadata.Some? then {database.metadata.value} else {}
      ensures database.solarTermsData.None? ==> r == Ok(database) && stats == old(stats)
      ensures database.solarTermsData.Some? ==>
                stats == Tally(old(stats).(totalYears := |database.solarTermsData.value|), database.solarTermsData.value)
      ensures database.solarTermsData.Some? && database.metadata.None? ==> r == Err("KeyError: 'metadata'")
      ensures database.solarTermsData.Some? && database.metadata.Some? ==>
                r == Ok(Database(Some(CleanTable(database.solarTermsData.value)), database.metadata)) &&
                database.metadata.value.entries == Stamped(old(database.metadata.value.entries), now)
      ensures database.solarTermsData.None? && database.metadata.Some? ==> unchanged(database.metadata.value)
    {
      if database.solarTermsData.None? {
        return Ok(database);
      }
      var t := database.solarTermsData.value;
      var cleanedTable: YearTable<T> := [];
      stats := stats.(totalYears := |t|);
      ghost var s0 := stats;
      var i := 0;
      while i < |t|
        invariant 0 <= i <= |t|
        invariant cleanedTable == CleanTable(t[..i])
        invariant stats == Tally(s0, t[..i])
        invariant database.metadata.Some? ==> unchanged(database.metadata.value)
      {
        assert t[..i + 1][..i] == t[..i];
        var entry := CleanOneYear(t[i].0, t[i].1);
        cleanedTable := cleanedTable + [entry];
        i := i + 1;
      }
      assert t[..|t|] == t;
      if database.metadata.None? {
        return Err("KeyError: 'metadata'");
      }
      var metadata := database.metadata.value;
      metadata.entries := Stamped(metadata.entries, now);
      r := Ok(Database(Some(cleanedTable), database.metadata));
    }
  }

  /** `validate_cleaned_database`: false without `solar_terms_data`, otherwise true exactly
      when every year passes. */
  method ValidateCleanedDatabase<T>(database: Database<T>) returns (passed: bool)
    ensures passed <==> database.solarTermsData.Some? &&
                        forall i :: 0 <= i < |database.solarTermsData.value| ==>
                                      YearPasses(database.solarTermsData.value[i].1)
  {
    if database.solarTermsData.None? {
      return false;
    }
    var t := database.solarTermsData.value;
    passed := true;
    var i := 0;
    while i < |t|
      invariant 0 <= i <= |t|
      invariant passed <==> forall j :: 0 <= j < i ==> YearPasses(t[j].1)
    {
      var yearData := t[i].1;
      if |yearData| != 12 {
        passed := false;
      } else if exists j :: 0 <= j < |yearData| && IsZhongqi(NameAt(yearData, j)) {
        passed := false;
      }
      i := i + 1;
    }
  }

  /** What `print_statistics` compares: the expected removals (twelve per processed year),
      the expected kept terms (twelve per year) and whether the removals matched. */
  datatype Expectation = Expectation(expectedRemoved: int, expectedKept: int, removalPerfect: bool)

  /** `print_statistics`: removal is reported perfect exactly when the removed count is
      twelve per processed year; the kept count is shown but not compared. */
  function PrintStatistics(s: Stats): (e: Expectation)
    ensures e.removalPerfect <==> s.removedZhongqi == 12 * s.processedYears
    ensures e.expectedKept == 12 * s.totalYears
  {
    Expectation(s.processedYears * 12, s.totalYears * 12, s.removedZhongqi == s.processedYears * 12)
  }

  /** From fresh counters, a run over a table whose processed years each held exactly
      twelve zhongqi is reported perfect. */
  lemma FreshRunPerfect<T>(t: YearTable<T>)
    requires forall i :: 0 <= i < |t| && HasZhongqi(t[i].1) ==> RemovedCount(t[i].1) == 12
    ensures PrintStatistics(Tally(Stats(|t|, 0, 0, 0, 0), t)).removalPerfect
  {
    TwelveEachIsPerfect(Stats(|t|, 0, 0, 0, 0), t);
  }
}
