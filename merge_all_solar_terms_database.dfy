/** The 1900-2100 merge: four source databases are read in order (1900-1910, 1910-1960,
    1960-2010, 2010-2100) and each copies the years of its range that it holds into the
    result, a later source overwriting the years it shares with an earlier one (1910, 1960
    and 2010). The integrity check then looks for gaps between the sorted years and for
    years whose term count is neither 12 nor 24. */
module MergeAllSolarTermsDatabase {
  import opened Common
  import opened Dicts
  import opened SolarTermTables

  /** What `load_json_file` gives for one source: no file (it returns None), text that is
      not JSON (the decoding error escapes), or a JSON object with or without
      `solar_terms_data`. */
  datatype Source<T> = Absent | Corrupt | Present(solarTermsData: Option<YearTable<T>>)

  /** The years a source offers: `.get('solar_terms_data', {})`, and none at all when the
      file is missing. */
  function Offered<T>(s: Source<T>): YearTable<T> {
    if s.Present? && s.solarTermsData.Some? then s.solarTermsData.value else []
  }

  /** The result of copying, year by year from `lo` to `hi`, every year `src` holds. */
  function CopyYears<T>(d: YearTable<T>, src: YearTable<T>, lo: int, hi: int): YearTable<T>
    decreases if hi < lo then 0 else hi - lo + 1
  {
    if hi < lo then d
    else
      var c := CopyYears(d, src, lo, hi - 1);
      match Get(src, hi)
      case Some(terms) => Put(c, hi, terms)
      case None => c
  }

  /** One copying loop of `merge_all_databases`. */
  method CopyRange<T>(d: YearTable<T>, src: YearTable<T>, lo: int, hi: int) returns (r: YearTable<T>)
    requires lo <= hi
    ensures r == CopyYears(d, src, lo, hi)
  {
    r := d;
    var year := lo;
    while year <= hi
      invariant lo <= year <= hi + 1
      invariant r == CopyYears(d, src, lo, year - 1)
    {
      var terms := Get(src, year);
      if terms.Some? {
        r := Put(r, year, terms.value);
      }
      year := year + 1;
    }
  }

  /** The four copies in the script's order. */
  function MergedYears<T>(s1: YearTable<T>, s2: YearTable<T>, s3: YearTable<T>, s4: YearTable<T>): YearTable<T> {
    CopyYears(CopyYears(CopyYears(CopyYears([], s1, 1900, 1910), s2, 1910, 1960), s3, 1960, 2010), s4, 2010, 2100)
  }

  /** The printed statistics: years, terms, and years holding 12 and 24 terms. */
  datatype Statistics = Statistics(totalYears: int, totalTerms: int, yearsWith12: int, yearsWith24: int)

  /** How many years hold exactly `k` terms. */
  function CountSized<T>(t: YearTable<T>, k: int): (n: nat)
    ensures n <= |t|
  {
    if |t| == 0 then 0 else CountSized(t[..|t| - 1], k) + (if |t[|t| - 1].1| == k then 1 else 0)
  }

  /** A year never holds both 12 and 24 terms, so the two counts together stay within the
      year count. */
  lemma {:induction false} SizedCountsBounded<T>(t: YearTable<T>)
    ensures CountSized(t, 12) + CountSized(t, 24) <= |t|
  {
    if |t| > 0 {
      SizedCountsBounded(t[..|t| - 1]);
    }
  }

  /** The statistics loop at the end of `merge_all_databases`. */
  method CountStatistics<T>(t: YearTable<T>) returns (s: Statistics)
    ensures s == Statistics(|t|, TotalTerms(t), CountSized(t, 12), CountSized(t, 24))
  {
    var totalTerms, with12, with24 := 0, 0, 0;
    var i := 0;
    while i < |t|
      invariant 0 <= i <= |t|
      invariant totalTerms == TotalTerms(t[..i])
      invariant with12 == CountSized(t[..i], 12) && with24 == CountSized(t[..i], 24)
    {
      assert t[..i + 1][..i] == t[..i];
      var termCount := |t[i].1|;
      totalTerms := totalTerms + termCount;
      if termCount == 12 {
        with12 := with12 + 1;
      } else if termCount == 24 {
        with24 := with24 + 1;
      }
      i := i + 1;
    }
    assert t[..|t|] == t;
    s := Statistics(|t|, totalTerms, with12, with24);
  }

  /** `merge_all_databases`: an undecodable source raises; otherwise the four copies and
      their statistics. */
  method MergeAllDatabases<T>(s1: Source<T>, s2: Source<T>, s3: Source<T>, s4: Source<T>)
    returns (r: Result<(YearTable<T>, Statistics)>)
    ensures r.Err? <==> s1.Corrupt? || s2.Corrupt? || s3.Corrupt? || s4.Corrupt?
    ensures r.Ok? ==>
              r.value.0 == MergedYears(Offered(s1), Offered(s2), Offered(s3), Offered(s4)) &&
              r.value.1 == Statistics(|r.value.0|, TotalTerms(r.value.0), CountSized(r.value.0, 12),
                                      CountSized(r.value.0, 24))
  {
    if s1.Corrupt? || s2.Corrupt? || s3.Corrupt? || s4.Corrupt? {
      return Err("JSONDecodeError");
    }
    var years: YearTable<T> := [];
    years := CopyRange(years, Offered(s1), 1900, 1910);
    years := CopyRange(years, Offered(s2), 1910, 1960);
    years := CopyRange(years, Offered(s3), 1960, 2010);
    years := CopyRange(years, Offered(s4), 2010, 2100);
    var stats := CountStatistics(years);
    r := Ok((years, stats));
  }

  /** A copy takes the source's terms for the years of its range the source holds and
      leaves every other year as it was; keys stay distinct. */
  lemma {:induction false} CopyYearsGet<T>(d: YearTable<T>, src: YearTable<T>, lo: int, hi: int, y: int)
    requires WellFormed(d)
    decreases if hi < lo then 0 else hi - lo + 1
    ensures WellFormed(CopyYears(d, src, lo, hi))
    ensures Get(CopyYears(d, src, lo, hi), y) ==
              if lo <= y <= hi && Get(src, y).Some? then Get(src, y) else Get(d, y)
  {
    if hi >= lo {
      var c := CopyYears(d, src, lo, hi - 1);
      CopyYearsGet(d, src, lo, hi - 1, y);
      match Get(src, hi)
      case Some(terms) =>
        PutGet(c, hi, terms, y);
      case None =>
    }
  }

  /** The source whose terms a year ends up with: the latest source whose range covers the
      year and that holds it. */
  function Winner<T>(y: int, s1: YearTable<T>, s2: YearTable<T>, s3: YearTable<T>, s4: YearTable<T>): Option<YearTerms<T>> {
    if 2010 <= y <= 2100 && Get(s4, y).Some? then Get(s4, y)
    else if 1960 <= y <= 2010 && Get(s3, y).Some? then Get(s3, y)
    else if 1910 <= y <= 1960 && Get(s2, y).Some? then Get(s2, y)
    else if 1900 <= y <= 1910 && Get(s1, y).Some? then Get(s1, y)
    else None
  }

  /** Later sources take precedence: every year of the merge carries the terms of the
      latest source that covers and holds it, and no other year appears. */
  lemma MergePrecedence<T>(s1: YearTable<T>, s2: YearTable<T>, s3: YearTable<T>, s4: YearTable<T>, y: int)
    ensures Get(MergedYears(s1, s2, s3, s4), y) == Winner(y, s1, s2, s3, s4)
  {
    var e: YearTable<T> := [];
    var c1 := CopyYears(e, s1, 1900, 1910);
    var c2 := CopyYears(c1, s2, 1910, 1960);
    var c3 := CopyYears(c2, s3, 1960, 2010);
    CopyYearsGet(e, s1, 1900, 1910, y);
    CopyYearsGet(c1, s2, 1910, 1960, y);
    CopyYearsGet(c2, s3, 1960, 2010, y);
    CopyYearsGet(c3, s4, 2010, 2100, y);
  }

  /** What the integrity check reports. */
  datatype Issue = Gap(before: int, after: int) | BadCount(year: int, count: int)

  /** The years of a table, in its order. */
  function Years<T>(t: YearTable<T>): (ys: seq<int>)
    ensures |ys| == |t|
    ensures forall i :: 0 <= i < |t| ==> ys[i] == t[i].0
  {
    seq(|t|, i requires 0 <= i < |t| => t[i].0)
  }

  predicate Sorted(s: seq<int>) {
    forall i, j :: 0 <= i < j < |s| ==> s[i] <= s[j]
  }

  /** `x` placed before the first element of `s` that is not smaller. */
  function Insert(s: seq<int>, x: int): (r: seq<int>)
    ensures |r| == |s| + 1
    ensures multiset(r) == multiset(s) + multiset{x}
  {
    if |s| == 0 then [x]
    else if x <= s[0] then [x] + s
    else
      assert s == [s[0]] + s[1..];
      [s[0]] + Insert(s[1..], x)
  }

  /** Inserting into a sorted sequence keeps it sorted. */
  lemma {:induction false} InsertSorted(s: seq<int>, x: int)
    requires Sorted(s)
    ensures Sorted(Insert(s, x))
  {
    if |s| > 0 && x > s[0] {
      var rest := Insert(s[1..], x);
      InsertSorted(s[1..], x);
      forall k | 0 <= k < |rest|
        ensures s[0] <= rest[k]
      {
        assert rest[k] in multiset(rest);
        assert rest[k] in multiset(s[1..]) || rest[k] == x;
        if rest[k] in multiset(s[1..]) {
          var j :| 0 <= j < |s[1..]| && s[1..][j] == rest[k];
          assert s[j + 1] == rest[k];
        }
      }
      assert Insert(s, x) == [s[0]] + rest;
    }
  }

  /** `sorted`: the same years in ascending order. */
  function Sort(xs: seq<int>): (r: seq<int>)
    ensures Sorted(r)
    ensures multiset(r) == multiset(xs)
  {
    if |xs| == 0 then []
    else
      assert xs == xs[..|xs| - 1] + [xs[|xs| - 1]];
      InsertSorted(Sort(xs[..|xs| - 1]), xs[|xs| - 1]);
      Insert(Sort(xs[..|xs| - 1]), xs[|xs| - 1])
  }

  /** A gap for every neighbouring pair that is not one year apart. */
  function GapIssues(s: seq<int>): seq<Issue> {
    if |s| < 2 then []
    else GapIssues(s[..|s| - 1]) + (if s[|s| - 1] - s[|s| - 2] != 1 then [Gap(s[|s| - 2], s[|s| - 1])] else [])
  }

  /** A count issue for every year holding neither 12 nor 24 terms. */
  function CountIssues<T>(t: YearTable<T>): seq<Issue> {
    if |t| == 0 then []
    else
      var y := t[|t| - 1];
      CountIssues(t[..|t| - 1]) + (if |y.1| != 12 && |y.1| != 24 then [BadCount(y.0, |y.1|)] else [])
  }

  /** The first loop of `verify_data_integrity`: a gap for each neighbouring pair of the
      sorted years. */
  method FindGaps(years: seq<int>) returns (issues: seq<Issue>)
    ensures issues == GapIssues(years)
  {
    issues := [];
    if |years| == 0 {
      return;
    }
    var i := 1;
    while i < |years|
      invariant 1 <= i <= |years|
      invariant issues == GapIssues(years[..i])
    {
      assert years[..i + 1][..i] == years[..i];
      if years[i] - years[i - 1] != 1 {
        issues := issues + [Gap(years[i - 1], years[i])];
      }
      i := i + 1;
    }
    assert years[..i] == years;
  }

  /** `verify_data_integrity`: the issues found, and true exactly when there are none. */
  method VerifyDataIntegrity<T>(t: YearTable<T>) returns (ok: bool, issues: seq<Issue>)
    ensures issues == GapIssues(Sort(Years(t))) + CountIssues(t)
    ensures ok <==> |issues| == 0
  {
    var gaps := FindGaps(Sort(Years(t)));
    issues := gaps;
    var j := 0;
    while j < |t|
      invariant 0 <= j <= |t|
      invariant issues == gaps + CountIssues(t[..j])
    {
      assert t[..j + 1][..j] == t[..j];
      var termCount := |t[j].1|;
      if termCount != 12 && termCount != 24 {
        issues := issues + [BadCount(t[j].0, termCount)];
      }
      j := j + 1;
    }
    assert t[..|t|] == t;
    ok := |issues| == 0;
  }

  /** No gap is reported exactly when the sorted years are consecutive from the first. */
  lemma {:induction false} NoGapsIffConsecutive(s: seq<int>)
    ensures GapIssues(s) == [] <==> forall i :: 0 <= i < |s| ==> s[i] == s[0] + i
  {
    if |s| >= 2 {
      var n := |s| - 1;
      NoGapsIffConsecutive(s[..n]);
      assert forall i :: 0 <= i < n ==> s[..n][i] == s[i];
      if forall i :: 0 <= i < |s| ==> s[i] == s[0] + i {
        assert s[n] - s[n - 1] == 1;
      }
    }
  }

  /** Without gaps the years of the table are exactly an unbroken run from the smallest. */
  lemma YearsUnbroken<T>(t: YearTable<T>, y: int)
    requires |t| > 0 && GapIssues(Sort(Years(t))) == []
    ensures y in Years(t) <==> Sort(Years(t))[0] <= y < Sort(Years(t))[0] + |t|
  {
    var s := Sort(Years(t));
    NoGapsIffConsecutive(s);
    assert |s| == |t| by {
      assert |multiset(s)| == |multiset(Years(t))|;
    }
    assert y in Years(t) <==> y in s by {
      assert y in multiset(Years(t)) <==> y in multiset(s);
    }
    if s[0] <= y < s[0] + |t| {
      assert s[y - s[0]] == y;
    }
  }

  /** No count issue is reported exactly when every year holds 12 or 24 terms. */
  lemma {:induction false} CountIssuesEmptyIff<T>(t: YearTable<T>)
    ensures CountIssues(t) == [] <==> forall i :: 0 <= i < |t| ==> |t[i].1| == 12 || |t[i].1| == 24
  {
    if |t| > 0 {
      var n := |t| - 1;
      CountIssuesEmptyIff(t[..n]);
      assert forall i :: 0 <= i < n ==> t[..n][i] == t[i];
    }
  }
}
