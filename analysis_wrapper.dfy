/** The validation-enforcing wrapper around chart analysis: a fresh analyzer is locked, a
    chart must be calculated and all three database validations must return before the lock
    clears, and analysis refuses to run while locked. The calendar calculator, the decade
    calculator and the validator are outside this model: their results are parameters. */
module AnalysisWrapper {
  import opened Common
  import opened ApiDaeunCalculator
  import DonsagongAnalyzer

  /** The part of a validator answer the wrapper reads. */
  datatype Validation = Validation(result: string, description: string)

  datatype SajuData = SajuData(saju: DonsagongAnalyzer.SajuPalja, daeun: ApiDaeun, birthYear: int, gender: string)

  datatype ValidationResults = ValidationResults(daeun: Validation, year: Validation, johu: string, currentDaeun: ApiBlock)

  datatype AnalysisReport = AnalysisReport(status: string, validated: bool, results: ValidationResults)

  /** The stem validator: (day stem, target stem, kind) to a verdict, or an exception. */
  type StemValidator = (string, string, string) -> Result<Validation>

  /** The seasonal validator: (month branch, decade branch) to its data, or an exception. */
  type JohuValidator = (string, string) -> Result<string>

  /** The year-stem table of the wrapper: three listed years, 乙 for every other year. */
  function YearStem(targetYear: int): (s: string)
    ensures targetYear == 2024 ==> s == "甲"
    ensures targetYear == 2026 ==> s == "丙"
    ensures targetYear != 2024 && targetYear != 2026 ==> s == "乙"
  {
    if targetYear == 2025 then "乙" else if targetYear == 2024 then "甲" else if targetYear == 2026 then "丙" else "乙"
  }

  predicate Covers(block: ApiBlock, age: int) {
    block.startAge <= age <= block.endAge
  }

  /** The index of the first decade at or after `from` that covers the age. */
  function FirstCovering(blocks: seq<ApiBlock>, age: int, from: nat): (r: Option<nat>)
    requires from <= |blocks|
    decreases |blocks| - from
    ensures r.Some? ==> from <= r.value < |blocks|
  {
    if from == |blocks| then None
    else if Covers(blocks[from], age) then Some(from)
    else FirstCovering(blocks, age, from + 1)
  }

  /** FirstCovering finds the first covering decade, and none exactly when none covers. */
  lemma {:induction false} FirstCoveringSpec(blocks: seq<ApiBlock>, age: int, from: nat)
    requires from <= |blocks|
    decreases |blocks| - from
    ensures FirstCovering(blocks, age, from).Some? ==>
              Covers(blocks[FirstCovering(blocks, age, from).value], age) &&
              forall k :: from <= k < FirstCovering(blocks, age, from).value ==> !Covers(blocks[k], age)
    ensures FirstCovering(blocks, age, from).None? <==> forall k :: from <= k < |blocks| ==> !Covers(blocks[k], age)
  {
    if from < |blocks| && !Covers(blocks[from], age) {
      FirstCoveringSpec(blocks, age, from + 1);
    }
  }

  /** The search loop of `validate_all_relations`: the first decade whose range holds the age. */
  method FindCurrentDaeun(blocks: seq<ApiBlock>, age: int) returns (r: Option<ApiBlock>)
    ensures r.None? <==> FirstCovering(blocks, age, 0).None?
    ensures r.Some? ==> r.value == blocks[FirstCovering(blocks, age, 0).value]
  {
    r := None;
    var k := 0;
    while k < |blocks|
      invariant 0 <= k <= |blocks|
      invariant FirstCovering(blocks, age, 0) == FirstCovering(blocks, age, k)
    {
      if blocks[k].startAge <= age && age <= blocks[k].endAge {
        r := Some(blocks[k]);
        break;
      }
      k := k + 1;
    }
  }

  /** What `validate_all_relations` returns for the stored chart: an error when no chart was
      calculated, when no decade covers the age, or when a validator raises; otherwise the
      three validations and the current decade. */
  function ValidationOutcome(data: Option<SajuData>, targetYear: int, validate: StemValidator, validateJohu: JohuValidator)
    : Result<ValidationResults>
  {
    if data.None? then Err("RuntimeError: calculate_saju first")
    else
      var age := targetYear - data.value.birthYear;
      var blocks := data.value.daeun.daeunList;
      match FirstCovering(blocks, age, 0)
      case None => Err("ValueError: no daeun for age")
      case Some(k) =>
        var current := blocks[k];
        var dayStem := data.value.saju.dayStem;
        var daeunCheck := validate(dayStem, current.stem, "대운천간");
        if daeunCheck.Err? then Err(daeunCheck.msg)
        else
          var yearCheck := validate(dayStem, YearStem(targetYear), "년운천간");
          if yearCheck.Err? then Err(yearCheck.msg)
          else
            var johuCheck := validateJohu(data.value.saju.monthBranch, current.branch);
            if johuCheck.Err? then Err(johuCheck.msg)
            else Ok(ValidationResults(daeunCheck.value, yearCheck.value, johuCheck.value, current))
  }

  /** Validation succeeds exactly when a chart exists, a decade covers the age (see
      FirstCoveringSpec) and all three validators return; it then records the first covering
      decade and the validators' answers for the decade stem, the year's stem and the decade
      branch. */
  lemma ValidationOutcomeOk(data: Option<SajuData>, targetYear: int, validate: StemValidator, validateJohu: JohuValidator)
    ensures var r := ValidationOutcome(data, targetYear, validate, validateJohu);
            r.Ok? <==>
              data.Some? &&
              FirstCovering(data.value.daeun.daeunList, targetYear - data.value.birthYear, 0).Some? &&
              var cur := data.value.daeun.daeunList[FirstCovering(data.value.daeun.daeunList, targetYear - data.value.birthYear, 0).value];
              validate(data.value.saju.dayStem, cur.stem, "대운천간").Ok? &&
              validate(data.value.saju.dayStem, YearStem(targetYear), "년운천간").Ok? &&
              validateJohu(data.value.saju.monthBranch, cur.branch).Ok?
    ensures var r := ValidationOutcome(data, targetYear, validate, validateJohu);
            r.Ok? ==>
              var age := targetYear - data.value.birthYear;
              Covers(r.value.currentDaeun, age) &&
              (exists k :: 0 <= k < |data.value.daeun.daeunList| && data.value.daeun.daeunList[k] == r.value.currentDaeun &&
                           forall q :: 0 <= q < k ==> !Covers(data.value.daeun.daeunList[q], age)) &&
              Ok(r.value.year) == validate(data.value.saju.dayStem, YearStem(targetYear), "년운천간") &&
              Ok(r.value.daeun) == validate(data.value.saju.dayStem, r.value.currentDaeun.stem, "대운천간") &&
              Ok(r.value.johu) == validateJohu(data.value.saju.monthBranch, r.value.currentDaeun.branch)
  {
    if data.Some? {
      var blocks := data.value.daeun.daeunList;
      var age := targetYear - data.value.birthYear;
      FirstCoveringSpec(blocks, age, 0);
      match FirstCovering(blocks, age, 0)
      case None =>
      case Some(k) =>
        assert Covers(blocks[k], age);
    }
  }

  /** `SafeSajuAnalyzer`. */
  class SafeSajuAnalyzer {
    var analysisLocked: bool
    var sajuData: Option<SajuData>
    var validationResults: Option<ValidationResults>

    /** An unlocked analyzer always holds a calculated chart and its validation results. */
    ghost predicate Valid()
      reads this
    {
      !analysisLocked ==> sajuData.Some? && validationResults.Some?
    }

    /** A fresh analyzer is locked, with no chart and no results. */
    constructor()
      ensures Valid()
      ensures analysisLocked && sajuData.None? && validationResults.None?
    {
      analysisLocked := true;
      sajuData := None;
      validationResults := None;
    }

    /** `analyze_fortune` (the birth, gender and target arguments are unused): refuses while
        locked, and otherwise reports the stored validation results. */
    method AnalyzeFortune() returns (r: Result<AnalysisReport>)
      requires Valid()
      ensures r.Err? <==> analysisLocked
      ensures r.Ok? ==> validationResults.Some? && r.value == AnalysisReport("completed", true, validationResults.value)
    {
      if analysisLocked {
        return Err("RuntimeError: analysis locked");
      }
      r := Ok(AnalysisReport("completed", true, validationResults.value));
    }

    /** `calculate_saju`, with the calculator's chart and decade list as parameters: stores
        the chart and leaves the lock and any earlier results as they were. */
    method CalculateSaju(saju: DonsagongAnalyzer.SajuPalja, daeun: ApiDaeun, birthYear: int, gender: string)
      returns (data: SajuData)
      requires Valid()
      modifies this
      ensures Valid()
      ensures data == SajuData(saju, daeun, birthYear, gender) && sajuData == Some(data)
      ensures analysisLocked == old(analysisLocked) && validationResults == old(validationResults)
    {
      data := SajuData(saju, daeun, birthYear, gender);
      sajuData := Some(data);
    }

    /** `validate_all_relations`: on success the results are stored and the lock clears; on
        any error nothing changes, so a locked analyzer stays locked. */
    method ValidateAllRelations(targetYear: int, validate: StemValidator, validateJohu: JohuValidator)
      returns (r: Result<ValidationResults>)
      requires Valid()
      modifies this
      ensures Valid()
      ensures r == ValidationOutcome(old(sajuData), targetYear, validate, validateJohu)
      ensures r.Err? ==> analysisLocked == old(analysisLocked) && sajuData == old(sajuData) && validationResults == old(validationResults)
      ensures r.Ok? ==> !analysisLocked && validationResults == Some(r.value) && sajuData == old(sajuData)
    {
      if sajuData.None? {
        return Err("RuntimeError: calculate_saju first");
      }
      var data := sajuData.value;
      var currentAge := targetYear - data.birthYear;
      var currentDaeun := FindCurrentDaeun(data.daeun.daeunList, currentAge);
      if currentDaeun.None? {
        return Err("ValueError: no daeun for age");
      }
      var daeunValidation := validate(data.saju.dayStem, currentDaeun.value.stem, "대운천간");
      if daeunValidation.Err? {
        return Err(daeunValidation.msg);
      }
      var yearStem := YearStem(targetYear);
      var yearValidation := validate(data.saju.dayStem, yearStem, "년운천간");
      if yearValidation.Err? {
        return Err(yearValidation.msg);
      }
      var johuValidation := validateJohu(data.saju.monthBranch, currentDaeun.value.branch);
      if johuValidation.Err? {
        return Err(johuValidation.msg);
      }
      var results := ValidationResults(daeunValidation.value, yearValidation.value, johuValidation.value, currentDaeun.value);
      validationResults := Some(results);
      analysisLocked := false;
      r := Ok(results);
    }
  }

  /** Before any successful validation the analyzer refuses: a fresh analyzer, a calculated
      chart and a failed validation all leave it locked. */
  method LockedUntilValidated(saju: DonsagongAnalyzer.SajuPalja, daeun: ApiDaeun, birthYear: int, targetYear: int,
                              validate: StemValidator, validateJohu: JohuValidator)
    returns (refusedFresh: bool, refusedAfterFailure: bool, analyzedAfterSuccess: bool)
    ensures refusedFresh
    ensures ValidationOutcome(Some(SajuData(saju, daeun, birthYear, "male")), targetYear, validate, validateJohu).Err? ==> refusedAfterFailure
    ensures ValidationOutcome(Some(SajuData(saju, daeun, birthYear, "male")), targetYear, validate, validateJohu).Ok? ==> analyzedAfterSuccess
  {
    var analyzer := new SafeSajuAnalyzer();
    var first := analyzer.AnalyzeFortune();
    refusedFresh := first.Err?;
    var _ := analyzer.CalculateSaju(saju, daeun, birthYear, "male");
    var validation := analyzer.ValidateAllRelations(targetYear, validate, validateJohu);
    var second := analyzer.AnalyzeFortune();
    refusedAfterFailure := second.Err?;
    analyzedAfterSuccess := second.Ok?;
  }
}
