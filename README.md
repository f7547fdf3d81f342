# Donsagong saju and major-fortune engine in Dafny

This project models the computational core of the Donsagong (돈사공) saju service: the
four pillars (사주) of a birth, the major-fortune decades (대운) that follow from them, the
scoring of decade and year fortunes against a chart, and the scripts that build, merge,
prune and validate the solar-term (절기) tables the engines read. Each core source file is
one Dafny module of the same name in CamelCase; `Common` (option/result types, the ten
stems and twelve branches), `Calendar` (proleptic Gregorian civil dates and seconds) and
`Dicts` (ordered dictionaries as sequences of key/value pairs) are shared.

The five groups modelled are:

- pillar arithmetic: year, month, day and hour pillars, the five-tiger and five-rat rules,
  the sexagenary cycle (`ManseryeokCalculator`, `SajuCalculator`, `RandomSajuTester`,
  `SajuVerificationSystem`);
- the major-fortune engines: direction by year-stem polarity and gender, the starting age
  from the days to the neighbouring jeol (three days per year, capped), and the ten decades
  stepped through the sexagenary cycle (`AccurateDaeunCalculator`,
  `Enhanced1900DaeunCalculator`, `ApiDaeunCalculator`, `StartAgeCommon`, and the daeun parts
  of the compatibility analyzers);
- fortune scoring: stem and branch relation matrices, weighted scores and their levels
  (`FortuneAnalyzer`, `FortuneService`, `DonsagongAnalyzer`, the compatibility analyzers,
  `DonsagongFinalAnalysis`, `NewCompatibilityAnalysis`);
- solar-term table maintenance: the bisection search for a solar longitude, the generation
  of yearly tables, merging, removal of the mid-month terms (中氣), and the validation
  reports (`SolarTermSearch`, `SolarTermsGeneration`, `GenerateJeolipDatabase`,
  `Merge210YearsDatabase`, `MergeAllSolarTermsDatabase`, `RemoveZhongqiFromDatabase`,
  `Final210YearValidation`, `SolarTermsValidationFramework`, `SolarTermTables`);
- small stateful pieces: the data loader, the guarded analysis wrapper, the document
  validator, and the frontend helpers and saved-chart list (`DataLoader`, `AnalysisWrapper`,
  `DonsagongValidator`, `SajuHelpers`, `SajuListService`).

Modelling choices:

- Stems and branches are strings where the source looks them up in dictionaries (so a
  missing key is a case of the model) and indices 0..9 and 0..11 where it does arithmetic.
- Instants are whole seconds; an aware datetime is its civil fields with a fixed offset in
  seconds; `timedelta.days` floors.
- The ephemeris (`ephem` sun longitude), `lunar_python` (EightChar, Yun), the current time,
  files, the browser's local storage and the server are parameters of the operations that
  use them; the storage and the loader's caches are Dafny classes whose methods change
  their fields.
- Python floats are exact reals and JavaScript numbers integers where only integers occur.
- Python dictionaries keep insertion order and are modelled as sequences of key/value
  pairs; a lookup that misses is an explicit `None` or default.
- Where the code and its documentation differ the model follows the code: the saved-chart
  detail page computes the age as a bare difference of years; deleting a chart with no
  local list returns the server's answer; a stored "[]" is an empty list; removing the
  mid-month terms copies the database shallowly, so the input's metadata is changed too.
- Where the code is evidently wrong (see "## Findings") the code as written is modelled
  and the evident intention beside it, and a lemma relates the two. `RandomSajuTester`'s
  chart and `CompatibilityAnalyzerComplete`'s decade rating and spouse-palace check follow
  the code as written, with `...Corrected` versions beside them; the hour pillar of
  `ManseryeokCalculator` and the decade plan of `CompatibilityAnalyzerComplete` raise as
  written (`HourPillarAsWritten`, `CalculateDaeunAsWritten`), and the rest of the model uses
  the intended versions.
- Operations that loop in the source are methods with loop invariants, each proved equal to
  a specification function about which the lemmas speak.

## Model

| member | source | states |
|---|---|---|
| FortuneAnalyzer.CheckTenganRelation | backend/app/services/fortune_analyzer.py:118-139 | identical stems give 平 before any lookup; otherwise the matrix entry, and 平 when either stem is missing from the matrix |
| FortuneAnalyzer.CheckJijiRelation | backend/app/services/fortune_analyzer.py:141-162 | identical branches give 平; otherwise the branch-matrix entry, 平 when missing |
| FortuneAnalyzer.IsSangap | backend/app/services/fortune_analyzer.py:164-190 | true exactly when some one of the four triads holds both branches |
| FortuneAnalyzer.SangapFrom | backend/app/services/fortune_analyzer.py:179-190 | the loop from group k on finds a group holding both branches exactly when one exists |
| FortuneAnalyzer.SangapSymmetric | backend/app/services/fortune_analyzer.py:164-190 | the triad test does not depend on argument order |
| FortuneAnalyzer.SangapPartitionsBranches | backend/app/services/fortune_analyzer.py:174-190 | each of the twelve branches lies in exactly one triad, so every branch forms a sangap with itself |
| FortuneAnalyzer.CheckSpecialJohoo | backend/app/services/fortune_analyzer.py:246-270 | 吉 exactly for 申酉戌亥子丑, 凶 exactly for 巳午未, 平 exactly for the rest |
| FortuneAnalyzer.CheckJohoo | backend/app/services/fortune_analyzer.py:192-220 | 丁/辛 day stems take the special seasonal rule; other stems read the johoo table, and a month or decade branch missing from it gives 平 |
| FortuneAnalyzer.SpecialJohooIgnoresMonth | backend/app/services/fortune_analyzer.py:209-211 | for 丁/辛 day stems the verdict is the same for any two month branches, and is one of 吉/凶/平 |
| FortuneAnalyzer.LevelScore | backend/app/services/fortune_analyzer.py:83-87 | the five-label score map lies in [-2, 2], sends 大吉 to 2 and 大凶 to -2, and gives 0 to unknown labels |
| FortuneAnalyzer.PillarScore | backend/app/services/fortune_analyzer.py:93-110 | a pillar score lies in [-2, 2]; with a sangap it is 0.7 times the stem score plus 0.4 whatever the branch matrix says |
| FortuneAnalyzer.TotalScore | backend/app/services/fortune_analyzer.py:112-113 | the weighted total (day 50%, hour 20%, johoo 30%) lies in [-2, 2] |
| FortuneAnalyzer.ScoreToFortune | backend/app/services/fortune_analyzer.py:285-300 | the band is one of the seven levels; 大吉 exactly from 1.5, 大凶 exactly up to -0.6, 平 exactly in (-0.3, 0.1) |
| FortuneAnalyzer.ScoreToFortuneMonotone | backend/app/services/fortune_analyzer.py:285-300 | a higher score never gets a worse level |
| FortuneAnalyzer.ScoreToFortuneOnIntegers | backend/app/services/fortune_analyzer.py:285-300 | 2, 1 and 0 band to 大吉, 吉 and 平, while -1 and -2 both band to 大凶 |
| FortuneAnalyzer.FortuneToScore | backend/app/services/fortune_analyzer.py:272-283 | the score is one of ±2, ±1, ±0.5, 0; 大吉 gives 2, 大凶 gives -2, an unknown label 0.0 |
| FortuneAnalyzer.FortuneScoreRoundTrip | backend/app/services/fortune_analyzer.py:272-300 | score-then-band returns 大吉, 吉, 平 and 大凶 unchanged, turns 凶 into 大凶 and 小吉 into 中吉 |
| FortuneAnalyzer.AnalyzeDaeunFortune | backend/app/services/fortune_analyzer.py:42-116 | the verdict is one of the seven levels and is the band of the weighted total score |
| FortuneAnalyzer.SangapIgnoresJijiMatrix | backend/app/services/fortune_analyzer.py:93-106 | when day and hour branches both form a sangap with the decade branch, replacing the branch matrix changes nothing |
| FortuneAnalyzer.IdenticalIsNeutral | backend/app/services/fortune_analyzer.py:133-135 | identical stems and identical branches are 平 whatever the matrices hold |
| SajuCalculator.GetJieqiDatetime | backend/app/services/saju_calculator.py:55-90 | succeeds exactly for a year in 1900–2109 that is stored, non-empty and holds the term with a valid date; the result is the stored wall time read as UTC+8, carried in KST |
| SajuCalculator.KstReadsOneHourLater | backend/app/services/saju_calculator.py:79-90 | the KST wall clock of a returned term reads one hour after the stored UTC+8 fields |
| SajuCalculator.FirstAfter | backend/app/services/saju_calculator.py:105-126 | the scan finds the first term in list order, from position k on, whose instant lies strictly after dt, and reports none exactly when no later term qualifies |
| SajuCalculator.FirstBefore | backend/app/services/saju_calculator.py:149-170 | the same scan for the first term strictly before dt |
| SajuCalculator.ReverseOrderIsReversed | backend/app/services/saju_calculator.py:149-152 | the backward scan order is the twelve-term order reversed |
| SajuCalculator.GetNextJieqi | backend/app/services/saju_calculator.py:92-134 | the scanning method returns exactly the next-term function's answer (first qualifying term, else next year's 立春, else the error) |
| SajuCalculator.ScanAfter | backend/app/services/saju_calculator.py:121-128 | the loop stops exactly at the first listed term whose lookup succeeds with an instant strictly after dt, and returns that term's name and instant |
| SajuCalculator.GetPreviousJieqi | backend/app/services/saju_calculator.py:136-178 | the scanning method returns exactly the previous-term function's answer (else the previous year's 小寒) |
| SajuCalculator.ScanBefore | backend/app/services/saju_calculator.py:165-172 | the loop stops exactly at the first listed term whose lookup succeeds with an instant strictly before dt, and returns that term's name and instant |
| SajuCalculator.NextJieqiIsFirstStrictlyAfter | backend/app/services/saju_calculator.py:105-134 | a successful answer is either a term of dt's year lying strictly after dt with no earlier-listed term after dt, or, when none is after dt, next year's 立春 |
| SajuCalculator.ExactInstantIsSkipped | backend/app/services/saju_calculator.py:124-168 | an instant equal to a stored term is never returned by either search as that same instant from the current year's scan |
| SajuCalculator.ValidateInput | backend/app/services/saju_calculator.py:263-272 | succeeds exactly when 1900 ≤ year ≤ 2109 and gender is "male" or "female" |
| SajuCalculator.ToKst | backend/app/services/saju_calculator.py:274-279 | a naive datetime keeps its wall-clock fields in KST; an aware one keeps its instant |
| SajuCalculator.CurrentAge | backend/app/services/saju_calculator.py:397-403 | the age is non-negative, the largest count of birthdays reached (floored at 0), and the next birthday is not yet reached |
| SajuCalculator.BlockCount | backend/app/services/saju_calculator.py:342-347 | at most ten blocks: one fewer than the library entries, ten from eleven entries on, none for an empty list |
| SajuCalculator.CalculateDaeunBlocks | backend/app/services/saju_calculator.py:342-385 | the loop returns exactly the decade list: one block for each library entry from the second on, at most ten, stopping early when the entries run out |
| SajuCalculator.DaeunBlocksShape | backend/app/services/saju_calculator.py:342-385 | block i is built from library entry i+1 with id i+1, startAge = startYear + 10i, endAge = startAge + 9, isCurrent iff the age lies in the range; blocks are contiguous and at most one is current |
| SajuCalculator.BlocksUpToAt | backend/app/services/saju_calculator.py:342-347 | block i of the list is the one made from library entry i + 1 |
| SajuCalculator.BlockAtShape | backend/app/services/saju_calculator.py:348-385 | block idx has id idx+1, starts at the start year plus ten per block, spans ten years, and is current exactly when the current age falls inside it |
| FortuneService.DonsagongFortune | backend/app/services/fortune_service.py:27-36 | the mapped level is one of six; 길흉, 무 and 평 all map to 平, and an unmapped label gives 平 |
| FortuneService.CalculateFortuneLevel | backend/app/services/fortune_service.py:340-364 | a day or target stem missing from the matrix gives 平; the lookup fails only when the matrix entry lacks the 길흉 field; a result is one of the six levels |
| FortuneService.HapSymmetric | backend/app/services/fortune_service.py:366-375 | the 合 test does not depend on argument order |
| FortuneService.HapIsFiveApart | backend/app/services/fortune_service.py:366-375 | two stems form 合 exactly when their positions in the ten-stem cycle are five apart |
| FortuneService.ElementFromStem | backend/app/services/fortune_service.py:417-431 | the element is one of the five, and an unknown stem gives earth |
| FortuneService.ElementFromStemPairsConsecutive | backend/app/services/fortune_service.py:417-431 | stem i has element i div 2 of wood, fire, earth, metal, water (consecutive stems pair up) |
| FortuneService.ElementFromBranch | backend/app/services/fortune_service.py:433-449 | the element is one of the five, and an unknown branch gives earth |
| FortuneService.SipsinElement | backend/app/services/fortune_service.py:390-408 | the sipsin routine's own element table agrees with the stem map on the ten stems and gives no element otherwise |
| FortuneService.CalculateSipsin | backend/app/services/fortune_service.py:377-415 | 比肩 exactly for equal stems, 劫財 exactly for different stems of the same element, and 正官 otherwise |
| FortuneService.SipsinOnStems | backend/app/services/fortune_service.py:377-415 | on the ten stems, 劫財 exactly for the other stem of the same pair |
| FortuneService.CalculateYearList | backend/app/services/fortune_service.py:207-251 | ten entries; entry i has id i+1, age start+i, year birthYear+age, the year pillar and the judged level and sipsin of that year, isCurrent iff the year is the current year; at most one is current; it fails exactly when one of the ten years fails to judge |
| FortuneService.CalculateMonthList | backend/app/services/fortune_service.py:253-290 | twelve entries with id = month = 1..12, the month pillar read on the 15th, the judged level, isCurrent iff it is the current year and month; it fails exactly when one month fails to judge |
| FortuneService.JudgeMonths | backend/app/services/fortune_service.py:272-290 | the month loop makes n entries, entry k for month k+1 with the pillar of its 15th and judged level; it fails exactly when some month's pillar fails to judge |
| FortuneService.CalculateDayList | backend/app/services/fortune_service.py:292-338 | a month outside 1..12 fails; otherwise one entry per Gregorian day of the month with id = day, the day pillar and judged level, and isCurrent exactly for today's date; at most one is current |
| FortuneService.JudgeDays | backend/app/services/fortune_service.py:313-338 | the day loop makes n entries, entry k for day k+1 with its pillar and judged level; it fails exactly when some day's pillar fails to judge |
| ManseryeokCalculator.EstimateCivil | src/manseryeok/calculator.py:237-277 | an estimated term falls at noon on the tabulated month and day, in the following year for 285° and 300°, and on 15 June for an unknown longitude |
| ManseryeokCalculator.CalculateSolarTermTime | src/manseryeok/calculator.py:315-325 | the method returns exactly the term-time function's answer: the stored term when the year is present and the lookup succeeds, the estimate otherwise |
| ManseryeokCalculator.TermFromDbShape | src/manseryeok/calculator.py:176-235 | a stored lookup succeeds only for a known longitude in a stored year, yields a KST instant, and files 小寒 under January of the following year |
| ManseryeokCalculator.SolarTermTimeFallback | src/manseryeok/calculator.py:315-325 | every term time is in KST; a missing year and any failed lookup fall back to the estimate, a successful lookup is used as is |
| ManseryeokCalculator.TermTimes | src/manseryeok/calculator.py:398-421 | the per-year list holds the term time of each of the 24 longitudes in table order |
| ManseryeokCalculator.FirstAfter | src/manseryeok/calculator.py:400-406 | the forward scan finds the first listed term strictly after dt, or none when all are at or before dt |
| ManseryeokCalculator.LastBefore | src/manseryeok/calculator.py:412-419 | the backward scan finds the last listed term strictly before dt, or none when all are at or after dt |
| ManseryeokCalculator.GetNextSolarTerm | src/manseryeok/calculator.py:398-408 | the scanning method returns the first term of the year after dt, else the following year's 315° term |
| ManseryeokCalculator.ScanForward | src/manseryeok/calculator.py:402-405 | the loop finds a term exactly when one of the year's instants is after dt, and then returns the first such instant in table order |
| ManseryeokCalculator.GetPreviousSolarTerm | src/manseryeok/calculator.py:410-421 | the reversed scan returns the last term of the year before dt, else the previous year's 300° term |
| ManseryeokCalculator.ScanBackward | src/manseryeok/calculator.py:415-418 | the reversed loop finds a term exactly when one of the year's instants is before dt, and then returns the last such instant in table order |
| ManseryeokCalculator.NeighbourTermsAreStrict | src/manseryeok/calculator.py:404-416 | a term found in dt's own year lies strictly after (next) or strictly before (previous) dt |
| ManseryeokCalculator.StartAgeFromDays | src/manseryeok/calculator.py:389-396 | the start age is at least 1, equals whole days div 3 from three days on, and is 1 under six days |
| ManseryeokCalculator.StartAgeMonotone | src/manseryeok/calculator.py:389-396 | more days never give a smaller start age |
| ManseryeokCalculator.DaeunStartAge | src/manseryeok/calculator.py:378-396 | the start age is at least 1, and is 1 when the neighbouring term in the direction of travel is under six days away |
| ManseryeokCalculator.Direction | src/manseryeok/calculator.py:355-359 | +1 exactly for a yang year stem with male or a yin year stem with female, −1 otherwise |
| ManseryeokCalculator.Block | src/manseryeok/calculator.py:362-372 | each decade spans ten years (end = start + 9) and its ganzhi is its stem followed by its branch |
| ManseryeokCalculator.CalculateDaeun | src/manseryeok/calculator.py:338-376 | fails exactly when the year stem, month stem or month branch lies outside the alphabets; otherwise eight decades, decade i starting at start + 10i with the month pillar moved i + 1 steps in the direction of travel |
| ManseryeokCalculator.DaeunList | src/manseryeok/calculator.py:357-374 | eight decades; decade k starts at the start age plus 10k, ends nine years later, and carries the month pillar moved k + 1 steps in the direction of travel |
| ManseryeokCalculator.BlocksStepByDirection | src/manseryeok/calculator.py:362-372 | consecutive decades are contiguous, each moves stem and branch one more step in the direction of travel, and the first is one step from the month pillar |
| ManseryeokCalculator.SaeunIndices | src/manseryeok/calculator.py:423-432 | a year's stem and branch are its offset from 1984 mod 10 and mod 12 (the mod 60 step changes nothing) |
| ManseryeokCalculator.SaeunAnchorPeriodStep | src/manseryeok/calculator.py:423-432 | 1984 is 甲子, the year pillar repeats every 60 years, and each year advances stem and branch by one |
| ManseryeokCalculator.WolunRecoversYearStem | src/manseryeok/calculator.py:434-445 | the year stem's index that the month rule recovers with list.index is the year's own stem index |
| ManseryeokCalculator.WolunFirstMonthAndStep | src/manseryeok/calculator.py:434-445 | month 1 is a 寅 month with stem 2s + 2 (丙寅 in 甲 and 己 years), and each month advances the stem by one |
| ManseryeokCalculator.WolunStemFormula | src/manseryeok/calculator.py:434-445 | month m of a year with stem s has stem (2s + m + 1) mod 10 |
| ManseryeokCalculator.MonthStemBaseFormula | src/manseryeok/calculator.py:438-441 | the tabulated first-month stem base of year stem s is (2s + 2) mod 10 |
| ManseryeokCalculator.HourBranchIdx | src/manseryeok/calculator.py:293 | within a day, the hour branch is 子 exactly at hours 23 and 0 |
| ManseryeokCalculator.HourBranchWindows | src/manseryeok/calculator.py:293 | from 1:00 to 22:00 the branch index is (h + 1) div 2, so each odd hour shares its window with the next |
| ManseryeokCalculator.DayStemIdx | src/manseryeok/calculator.py:297 | a known day stem keeps its own index; an unknown one reads as 甲 |
| ManseryeokCalculator.HourStemRule | src/manseryeok/calculator.py:297-311 | the hour stem is (2s + branch) mod 10: 子 hours carry 2s mod 10, so 甲 and 己 days start at 甲子 |
| ManseryeokCalculator.HourPillarRule | src/manseryeok/calculator.py:287-313 | for a known day stem s, the hour pillar is the branch of the hour window with stem (2s + branch) mod 10 (the five-rat rule) |
| ManseryeokCalculator.HourPillarAsWritten | src/manseryeok/calculator.py:283-295 | as written every call fails: the day pillar it unpacks is None |
| ManseryeokCalculator.ValidateBirthDatetime | src/manseryeok/calculator.py:447-458 | succeeds (with True) exactly when the year is in 1900–2100, the hour in 0–23 and the minute in 0–59 |
| ManseryeokCalculator.ValidateGender | src/manseryeok/calculator.py:86-88 | succeeds exactly for "male" and "female" |
| RandomSajuTester.YearPillar | test_random_saju_cases.py:114-124 | the year pillar is stem (y − 1984) mod 10 and branch (y − 1984) mod 12 |
| RandomSajuTester.YearPillarIsSaeun | test_random_saju_cases.py:114-124 | the tester's year pillar agrees with the engine's year-fortune rule, repeats every 60 years and makes 1984 甲子 |
| RandomSajuTester.DayPillarAnchorAndStep | test_random_saju_cases.py:126-135 | 1 January 1984 is 甲子 whatever the time of day, and the next day of the month counts one more day |
| RandomSajuTester.DayCountCycle | test_random_saju_cases.py:126-135 | day counts sixty apart share a pillar, and one day more advances stem and branch by one |
| RandomSajuTester.DayPillar | test_random_saju_cases.py:126-135 | the day pillar is stem n mod 10 and branch n mod 12 for the n whole days since 1984-01-01, and its stem and branch share their yin-yang parity |
| RandomSajuTester.HourTableStem | test_random_saju_cases.py:150-156 | entry (r, c) of the tabulated hour-stem table is stem (2r + c) mod 10 |
| RandomSajuTester.MonthTableStem | test_random_saju_cases.py:179-185 | entry (r, c) of the tabulated month-stem table is stem (2r + 2 + c) mod 10 |
| RandomSajuTester.HourPillarAsWritten | test_random_saju_cases.py:137-161 | as written the hour stem takes table row dayStemIdx div 2 at the hour branch's column |
| RandomSajuTester.HourPillar | test_random_saju_cases.py:137-161 | with the row the table's comments name (dayStemIdx mod 5) the hour stem is (2(s mod 5) + branch) mod 10 |
| RandomSajuTester.HourRowCounterexample | test_random_saju_cases.py:158 | hour 0 of a 乙 day gives 甲子 as written but 丙子 by the table's own 乙庚 row |
| RandomSajuTester.HourPillarIsFiveRatRule | test_random_saju_cases.py:137-161 | the corrected hour pillar equals the engine's hour pillar for every hour and day stem |
| RandomSajuTester.HourIndicesFiveRows | src/manseryeok/calculator.py:297-311 | the engine's hour stem depends on the day stem only through its row s mod 5 |
| RandomSajuTester.MonthStemAsWritten | test_random_saju_cases.py:175-186 | as written the month stem takes row yearStemIdx div 2 and the column of the branch counted from 子, column 0 when unresolved |
| RandomSajuTester.MonthStem | test_random_saju_cases.py:175-186 | with row yearStemIdx mod 5 and the column counted from 寅 (the table's first entry is the 寅 month) the month stem is (2(s mod 5) + 2 + column) mod 10 |
| RandomSajuTester.MonthColumn | test_random_saju_cases.py:176 | the column is below 12 and a resolved branch from 寅 on sits two columns before its branch index |
| RandomSajuTester.MonthColumnCounterexample | test_random_saju_cases.py:186 | a 寅 month of a 甲 year gives 戊 as written but 丙 corrected; of a 己 year 壬 as written, 丙 corrected |
| RandomSajuTester.MonthStemIsFiveTigerRule | test_random_saju_cases.py:175-186 | the corrected month stem equals the engine's month-fortune stem for every year and month |
| RandomSajuTester.MonthIndicesFiveRows | src/manseryeok/calculator.py:434-445 | month m's branch sits in column m − 1 and the engine's month stem depends on the year stem only through s mod 5 |
| RandomSajuTester.LatestAtOrBeforeSpec | test_random_saju_cases.py:84-101 | the pick is a term at or before the birth that no other such term follows, and there is none exactly when every term is after the birth |
| RandomSajuTester.EarliestAfterSpec | test_random_saju_cases.py:225-240 | the pick is a term strictly after the birth that no other such term precedes, and none exactly when no term is after the birth |
| RandomSajuTester.FindCurrentMonthBranch | test_random_saju_cases.py:74-112 | the one-pass loop returns exactly the month-branch function's answer |
| RandomSajuTester.CurrentMonthBranchSpec | test_random_saju_cases.py:74-112 | a branch is found exactly when the birth year is stored and a term is in force (the latest at or before the birth, else the previous year's 小寒 if not after it) whose name has a month; the found term is not after the birth and is the latest such |
| RandomSajuTester.MonthPillar | test_random_saju_cases.py:171-187 | as written the month stem is a stem read from the table at row yearStemIdx div 2, and the branch is the found one or 未確定 |
| RandomSajuTester.MonthPillarCorrected | test_random_saju_cases.py:171-187 | with the labelled row and the column from 寅 the stem is still a stem and the branch the found one or 未確定 |
| RandomSajuTester.CalculateSaju | test_random_saju_cases.py:163-202 | as written: the tester's year and day pillars, the month branch of the term in force or 未確定, the month stem through the table as written, and the hour pillar through row dayStemIdx div 2 with the branch of the hour window |
| RandomSajuTester.CalculateSajuCorrected | test_random_saju_cases.py:163-202 | the same chart with the five-rat hour pillar of the manseryeok engine and the five-tiger month table reading |
| RandomSajuTester.SajuAsWrittenVersusCorrected | test_random_saju_cases.py:158-159 | the chart as written and the corrected one differ only in the two stems, and their hour pillars agree exactly for 甲 and 癸 days |
| RandomSajuTester.HourRowsAgree | test_random_saju_cases.py:158-159 | the hour stem read at row s div 2 equals the one at row s mod 5 exactly for s = 0 (甲) and s = 9 (癸) |
| RandomSajuTester.SajuMonthStem | test_random_saju_cases.py:175-186 | a found month branch is in the alphabet; the chart as written reads its month stem from the table as written at that branch, the corrected chart through the five-tiger reading |
| RandomSajuTester.ThirdInHundredths | test_random_saju_cases.py:263-269 | the start age in hundredths c satisfies −1 ≤ 3c − 100·days ≤ 1: round(days / 3, 2) lies within 1/300 of days / 3 |
| RandomSajuTester.CalculateDaeun | test_random_saju_cases.py:204-274 | fails exactly when the birth year is not stored or no next term exists; otherwise 順行 exactly when yang year stem and male coincide, the start age is days / 3 in hundredths and the start day lies days after the birth |
| RandomSajuTester.ComputeDaeun | test_random_saju_cases.py:204-274 | the loop returns exactly the decade-start function's answer |
| RandomSajuTester.ScanEarliestAfter | test_random_saju_cases.py:228-238 | the pass over the year's terms ends holding exactly the earliest term after the birth, the first listed among equal instants |
| RandomSajuTester.DaeunAlwaysForward | test_random_saju_cases.py:204-274 | gender and year stem change only the direction label; the term used is the earliest after the birth, the day count is the whole days to it and the start age lies within 1/300 of days / 3; it fails exactly when the year is not stored or no next term exists |
| SajuVerificationSystem.ManualYearIsSaeun | saju_verification_system.py:54-71 | the manual year pillar is stem (y − 1984) mod 10 and branch (y − 1984) mod 12, the engine's year-fortune rule; the negative-index fix-ups never fire |
| SajuVerificationSystem.WebAgreesWithManual | saju_verification_system.py:73-86 | the four hard-coded years and the delegated ones all equal the manual year pillar |
| SajuVerificationSystem.MonthTableStem | saju_verification_system.py:90-101 | entry c of the month table's row for stem s is stem (2s + 2 + c) mod 10 |
| SajuVerificationSystem.MonthRowFirstFormula | saju_verification_system.py:90-101 | the row of stem s starts at stem (2s + 2) mod 10 |
| SajuVerificationSystem.MonthStemFormula | saju_verification_system.py:88-103 | month m of a year with stem s has stem (2s + m + 1) mod 10 |
| SajuVerificationSystem.MonthStemErrors | saju_verification_system.py:88-103 | the lookup succeeds exactly for a known stem and a month in −11..12; an unknown stem raises KeyError; months −11..0 wrap to the end of the row like Python's negative indices |
| SajuVerificationSystem.MonthStemFiveApart | saju_verification_system.py:90-101 | the rows of stems five apart are identical |
| SajuVerificationSystem.MonthStemIsWolun | saju_verification_system.py:88-103 | the table gives the same month stem as the engine's month-fortune rule |
| SajuVerificationSystem.ManualMonthBranch | saju_verification_system.py:136-137 | the manual month branch is branches[(month − 1) mod 12] |
| SajuVerificationSystem.KnownCasesAgreeWithManual | saju_verification_system.py:21-52 | each hard-coded known case's year stem equals the manual year stem of its year |
| SajuVerificationSystem.FirstKnown | saju_verification_system.py:162-169 | the known case used is the first matching date and gender, and none exactly when no case matches |
| SajuVerificationSystem.FindKnown | saju_verification_system.py:165-172 | the scan stops at the first stored case with the birth's date and gender, and finds none when no case matches |
| SajuVerificationSystem.YearStems | saju_verification_system.py:184-189 | two to four sources report a year stem (manual and web always do) |
| SajuVerificationSystem.CrossVerifySaju | saju_verification_system.py:105-241 | the method builds exactly the cross-verification function's result |
| SajuVerificationSystem.UnanimousIffAllFirst | saju_verification_system.py:191 | the set of reported stems has one element exactly when every source agrees with the first |
| SajuVerificationSystem.ManualAlwaysAnswers | saju_verification_system.py:126-145 | for a month in 1..12 the manual calculation never fails and its year stem is the web one |
| SajuVerificationSystem.CrossVerifySources | saju_verification_system.py:184-212 | at least three sources report exactly when the engine answered or a known case matched; a known case is used exactly when one matches |
| SajuVerificationSystem.ConfidenceBounds | saju_verification_system.py:207-224 | the confidence is a multiple of ten in [0, 100], at least 40 with a known case, and exactly 30 with the web stem as consensus when neither the engine nor a known case answers |
| SajuVerificationSystem.ConsensusRule | saju_verification_system.py:191-205 | unanimous sources give their common stem; otherwise the known case wins, and failing that the first source |
| CompatibilityAnalyzerComplete.SeasonOfSpec | compatibility_analyzer_complete.py:232-240 | each season comes from exactly its three branches, and 不明 exactly from anything outside the twelve branches |
| CompatibilityAnalyzerComplete.CheonganRelationOnStems | compatibility_analyzer_complete.py:242-246 | for two stems the relation is the matrix's label and note (the matrix covers every stem pair) |
| CompatibilityAnalyzerComplete.CheonganRelationOffStems | compatibility_analyzer_complete.py:242-246 | when either argument is not a stem the relation is 平 / 一般関係 |
| CompatibilityAnalyzerComplete.LabelKeys | compatibility_analyzer_complete.py:242-246 | the label matrix has exactly the ten stems as rows and as columns of every row |
| CompatibilityAnalyzerComplete.RelationScore | compatibility_analyzer_complete.py:263-276 | the score lies in [10, 100]; 100 exactly when the label contains 大吉, 70 exactly when it contains 吉 but not 大吉 |
| CompatibilityAnalyzerComplete.RelationScoreUnmarked | compatibility_analyzer_complete.py:263-276 | a label containing neither 吉 nor 凶 scores 50 |
| CompatibilityAnalyzerComplete.RelationScoreOfGoodLabels | compatibility_analyzer_complete.py:263-268 | 大吉 scores 100; 吉, 小吉 and 吉凶 all score 70 (the 吉 test comes first) |
| CompatibilityAnalyzerComplete.RelationScoreOfOtherLabels | compatibility_analyzer_complete.py:269-276 | 平 and 無 score 50, 大凶 10 and 凶 30 |
| CompatibilityAnalyzerComplete.ContainsChar | compatibility_analyzer_complete.py:281-321 | Python's one-character 'in' test on a string is membership of that character |
| CompatibilityAnalyzerComplete.UsefulFor | compatibility_analyzer_complete.py:281-319 | a useful-element table exists exactly for day stems 庚, 戊, 丁, 壬 and a month branch; its stem list holds only stems |
| CompatibilityAnalyzerComplete.CheckYongshinAsWritten | compatibility_analyzer_complete.py:278-321 | as written a target is useful only for the four day stems and only when it is itself a stem |
| CompatibilityAnalyzerComplete.CheckYongshin | compatibility_analyzer_complete.py:278-321 | with branches checked against the branch list, a target is still useful only for the four day stems with a known month branch |
| CompatibilityAnalyzerComplete.YongshinAgreesOnStems | compatibility_analyzer_complete.py:278-321 | for stem targets the corrected check and the check as written agree |
| CompatibilityAnalyzerComplete.BranchNeverUsefulAsWritten | compatibility_analyzer_complete.py:312-321 | as written no branch is ever useful, because every one-character target goes down the stem path |
| CompatibilityAnalyzerComplete.BranchNotStem | compatibility_analyzer_complete.py:312-321 | no branch is a stem |
| CompatibilityAnalyzerComplete.YongshinBranchCounterexample | compatibility_analyzer_complete.py:312-321 | for a 庚 day stem in a 寅 month the branch 辰 is listed as useful, yet the check as written says no and the corrected check yes |
| CompatibilityAnalyzerComplete.SpousePalaceYongshin | compatibility_analyzer_complete.py:323-325 | as written, through check_yongshin as written, a day branch that is one of the twelve branches is never found useful |
| CompatibilityAnalyzerComplete.SpousePalaceReadsBranches | compatibility_analyzer_complete.py:323-325 | with the corrected check (SpousePalaceYongshinCorrected) the spouse palace is useful exactly when its branch is on the day stem's branch list |
| CompatibilityAnalyzerComplete.JohuScore | compatibility_analyzer_complete.py:335-344 | the seasonal score lies in [5, 100], and is 50 when either branch is unknown |
| CompatibilityAnalyzerComplete.RateDaeun | compatibility_analyzer_complete.py:327-364 | total = 0.3·stem score + 0.6·seasonal score + 0.1·useful score, the useful score being 100 exactly when the decade's stem or branch passes the useful-god test and 50 otherwise |
| CompatibilityAnalyzerComplete.EvaluateDaeunForPerson | compatibility_analyzer_complete.py:327-364 | with check_yongshin as written: the weighted total of the stem, seasonal and useful scores, the useful score 50 or 100, and for a decade branch from the twelve it is 100 exactly when the decade stem is a useful stem |
| CompatibilityAnalyzerComplete.EvaluateDaeunCorrected | compatibility_analyzer_complete.py:327-364 | with the corrected check the useful score is 100 exactly when the decade's stem or branch is useful |
| CompatibilityAnalyzerComplete.EvaluateDaeunAsWrittenVersusCorrected | compatibility_analyzer_complete.py:346-352 | for a stem decade the two ratings differ only in the useful score, never higher as written, and the totals by a tenth of that difference; a 庚 day in a 寅 month rates a 乙辰 decade 50 as written and 100 corrected |
| CompatibilityAnalyzerComplete.DaeunRatingBounds | compatibility_analyzer_complete.py:327-364 | a decade's total rating lies in [11, 100] |
| CompatibilityAnalyzerComplete.FallbackAge | compatibility_analyzer_complete.py:403-411 | the fallback start age is 1 + (day mod 10) forward and 10 − (day mod 10) backward, always in [1, 10] |
| CompatibilityAnalyzerComplete.TryStartingAge | compatibility_analyzer_complete.py:387-411 | a whole start age comes either from the accurate calculator's bare default of 5 (when it succeeds without a stored term) or from the fallback, which is used exactly when there is no term table or the calculator fails |
| CompatibilityAnalyzerComplete.PlanBasis | compatibility_analyzer_complete.py:366-384 | fails exactly when the year stem, month stem or month branch lies outside the alphabets; otherwise the month indices and the forward flag (yang male or yin female) |
| CompatibilityAnalyzerComplete.AsWrittenRaisesOnRecord | compatibility_analyzer_complete.py:413-432 | when the start age is the accurate calculator's record, the code as written fails while the corrected plan succeeds; with a whole age both agree |
| CompatibilityAnalyzerComplete.RecordWhenTermFound | compatibility_analyzer_complete.py:396-422 | whenever the accurate calculator finds its term and succeeds, the code as written fails |
| CompatibilityAnalyzerComplete.CalculateDaeun | compatibility_analyzer_complete.py:366-438 | the loop returns exactly the corrected plan |
| CompatibilityAnalyzerComplete.DaeunPlanShape | compatibility_analyzer_complete.py:413-438 | a plan has ten blocks running from the start age to start + 99; the start age lies in [0, 10], and in [1, 10] without a term table |
| CompatibilityAnalyzerComplete.DayAdjust | compatibility_analyzer_complete.py:451-475 | the day-stem adjustment lies in [−30, 40]; it is positive exactly when the label contains 吉 and zero exactly when it contains neither 吉 nor 凶, with one detail line when non-zero |
| CompatibilityAnalyzerComplete.MarkAdjust | compatibility_analyzer_complete.py:481-511 | a label containing 吉 takes the bonus, else one containing 凶 takes the penalty, else nothing |
| CompatibilityAnalyzerComplete.SeasonAdjust | compatibility_analyzer_complete.py:514-527 | +15 exactly for opposite seasons, −5 exactly for equal seasons, otherwise 0 |
| CompatibilityAnalyzerComplete.SeasonAdjustSymmetric | compatibility_analyzer_complete.py:514-527 | the season adjustment does not depend on which partner is which |
| CompatibilityAnalyzerComplete.DaeunBonus | compatibility_analyzer_complete.py:530-537 | +5 exactly when both decades are given and one's own decade pillar equals the partner's day pillar, else 0 |
| CompatibilityAnalyzerComplete.CalculateScore | compatibility_analyzer_complete.py:440-539 | the method's two scores and detail lists are exactly the score function's |
| CompatibilityAnalyzerComplete.SidePointsBounds | compatibility_analyzer_complete.py:448-537 | one side's adjustments add up to between −50 and +85 |
| CompatibilityAnalyzerComplete.ScoreBounds | compatibility_analyzer_complete.py:440-539 | each partner's score lies in [0, 135] |
| CompatibilityAnalyzerComplete.ScoresSymmetric | compatibility_analyzer_complete.py:440-539 | swapping the partners swaps the two scores and detail lists |
| CompatibilityAnalyzerComplete.CalculateDaeunAsWritten | compatibility_analyzer_complete.py:366-438 | an unknown year or month character raises; otherwise the call raises exactly when the accurate calculator hands back its record instead of a whole age, and whenever it succeeds it returns the intended plan |
| CompatibilityAnalyzerFriendly.DaeunDirectionSpec | compatibility_analyzer_friendly.py:190-198 | fails exactly for a year stem outside the alphabet; otherwise 順行 exactly for a yang stem with male or a yin stem with female, and 逆行 for any other gender; the Japanese analyzer's rule (automated_compatibility_analyzer_jp.py:176-184) and the direction rule of the script new_compatibility_analysis.py:56-64 are the same code |
| CompatibilityAnalyzerFriendly.SeasonPoints | compatibility_analyzer_friendly.py:237-243 | +15 exactly for opposite seasons, −5 exactly for equal seasons, otherwise 0, applied to both partners alike |
| CompatibilityAnalyzerFriendly.SeasonPointsSymmetric | compatibility_analyzer_friendly.py:237-243 | the season points do not depend on which partner is which |
| CompatibilityAnalyzerFriendly.MarkPoints | compatibility_analyzer_friendly.py:209-231 | a label containing 吉 (so also 大吉 and 吉凶) takes the bonus, else one containing 凶 the penalty, else nothing |
| CompatibilityAnalyzerFriendly.CalculateScore | compatibility_analyzer_friendly.py:200-253 | the method's two scores are exactly the score function's; the Japanese analyzer's score (automated_compatibility_analyzer_jp.py:195-248) is the same code |
| CompatibilityAnalyzerFriendly.StemRules | compatibility_analyzer_friendly.py:202-231 | after the day-stem and month-stem rules each score is 50 plus its own side's stem points (+30/-20 for the day stems, +15/-10 for the month stems) |
| CompatibilityAnalyzerFriendly.DirectionBonusIffOppositeParity | compatibility_analyzer_friendly.py:245-251 | with known year stems the +10 direction bonus is given exactly when the two year stems have opposite parity (a man and a woman travel the same way exactly then) |
| CompatibilityAnalyzerFriendly.ScoreBounds | compatibility_analyzer_friendly.py:200-253 | each successful score lies in [15, 120] |
| CompatibilityAnalyzerFriendly.SidePointsBounds | compatibility_analyzer_friendly.py:205-251 | one side's adjustments add up to between −35 and +70 |
| CompatibilityAnalyzerFriendly.ScoresSymmetric | compatibility_analyzer_friendly.py:200-253 | swapping the partners swaps the two scores, and one order fails exactly when the other does |
| CompatibilityAnalyzerFriendly.ScoresUnfold | compatibility_analyzer_friendly.py:200-253 | each score is 50 plus its side's day, month, season and direction points |
| CompatibilityAnalyzerFriendly.UnknownPairIsNeutral | compatibility_analyzer_friendly.py:184-188 | a pair with an unknown stem reads 平 / 一般関係 and moves the score by nothing |
| AutomatedCompatibilityAnalyzer.CheonganRelationOnStems | automated_compatibility_analyzer.py:170-174 | for two stems the relation is the Korean matrix's label and note |
| AutomatedCompatibilityAnalyzer.CheonganRelationOffStems | automated_compatibility_analyzer.py:170-174 | when either argument is not a stem the relation is 평 / 일반 관계 |
| AutomatedCompatibilityAnalyzer.LabelKeys | automated_compatibility_analyzer.py:170-174 | the Korean label matrix has exactly the ten stems as rows and as columns of every row |
| AutomatedCompatibilityAnalyzer.SeasonOfSpec | automated_compatibility_analyzer.py:160-168 | each Korean season name comes from exactly its three branches, and 미상 exactly from anything else |
| AutomatedCompatibilityAnalyzer.SeasonPoints | automated_compatibility_analyzer.py:231-238 | +15 exactly for opposite seasons, −5 exactly for equal seasons, otherwise 0 |
| AutomatedCompatibilityAnalyzer.SeasonPointsSymmetric | automated_compatibility_analyzer.py:231-238 | the season points do not depend on which partner is which |
| AutomatedCompatibilityAnalyzer.DaeunDirectionSpec | automated_compatibility_analyzer.py:176-184 | fails exactly for a year stem outside the alphabet; otherwise 순행 exactly for a yang stem with male or a yin stem with female, and 역행 for any other gender |
| AutomatedCompatibilityAnalyzer.CheckDonsagongPrinciples | automated_compatibility_analyzer.py:186-193 | the principle check reports no violation, whatever the charts; the Japanese analyzer's check (automated_compatibility_analyzer_jp.py:186-193) is the same code |
| AutomatedCompatibilityAnalyzer.MarkPoints | automated_compatibility_analyzer.py:204-226 | a label containing 길 takes the bonus, else one containing 흉 the penalty, else nothing |
| AutomatedCompatibilityAnalyzer.CalculateScore | automated_compatibility_analyzer.py:195-248 | the method's two scores are exactly the score function's |
| AutomatedCompatibilityAnalyzer.StemRules | automated_compatibility_analyzer.py:197-227 | after the day-stem and month-stem rules each score is 50 plus its own side's stem points (+30/-20 for the day stems, +15/-10 for the month stems) |
| AutomatedCompatibilityAnalyzer.DirectionBonusIffOppositeParity | automated_compatibility_analyzer.py:240-246 | with known year stems the +10 direction bonus is given exactly when the two year stems have opposite parity |
| AutomatedCompatibilityAnalyzer.ScoreBounds | automated_compatibility_analyzer.py:195-248 | each successful score lies in [15, 120] |
| AutomatedCompatibilityAnalyzer.SidePointsBounds | automated_compatibility_analyzer.py:204-246 | one side's adjustments add up to between −35 and +70 |
| AutomatedCompatibilityAnalyzer.ScoresSymmetric | automated_compatibility_analyzer.py:195-248 | swapping the partners swaps the two scores, and one order fails exactly when the other does |
| AutomatedCompatibilityAnalyzer.ScoresUnfold | automated_compatibility_analyzer.py:195-248 | each score is 50 plus its side's day, month, season and direction points |
| AutomatedCompatibilityAnalyzer.UnknownPairIsNeutral | automated_compatibility_analyzer.py:170-174 | a pair with an unknown stem reads 평 / 일반 관계 and moves the score by nothing |
| AutomatedCompatibilityAnalyzer.ParseInput | automated_compatibility_analyzer.py:139-158 | succeeds exactly when the pattern matched and both dates are valid; no match raises the format error, and an invalid date (the man's checked first) raises the date error with datetime's message |
| AutomatedCompatibilityAnalyzerJp.ParseInput | automated_compatibility_analyzer_jp.py:139-158 | the same as the Korean parser, with the Japanese pattern and messages |
| InputParsing.AsCivil | compatibility_analyzer_friendly.py:160-165 | the captured year, month, day and hour become the datetime's fields, with minute and second 0 |
| InputParsing.DatetimeError | automated_compatibility_analyzer.py:152-156 | a year outside 1..9999 gives "year <y> is out of range", naming the year as CPython does; the error names the month when the month is out of range, and the hour exactly when year, month and day are valid |
| InputParsing.ParseSingle | automated_compatibility_analyzer.py:139-158 | one pattern: succeeds exactly for a match with two valid dates; otherwise the format error or the date error of the first invalid date |
| InputParsing.ParseInputFlexible | compatibility_analyzer_friendly.py:139-172 | the first pattern whose match gives two valid dates wins; it fails with the not-recognised error exactly when no pattern does (a match with an invalid date moves on to the next pattern) |
| NewCompatibilityAnalysis.RowKeys | new_compatibility_analysis.py:24-54 | both hard-coded matrices have exactly the ten stems as keys |
| NewCompatibilityAnalysis.UnknownTargetIsNeutral | new_compatibility_analysis.py:38-54 | an unknown target stem gives (平, "") in both matrix functions |
| NewCompatibilityAnalysis.MuAgreesWithMatrix | new_compatibility_analysis.py:24-38 | the 戊 row's labels equal the complete analyzer's matrix row for 戊 |
| NewCompatibilityAnalysis.GyeongDiffersFromMatrix | new_compatibility_analysis.py:40-54 | the 庚 row is not the complete analyzer's: 庚 meeting 甲 is 大吉 here but 吉 there |
| NewCompatibilityAnalysis.CalculateSimpleDaeun | new_compatibility_analysis.py:66-99 | the method returns exactly the simple-plan function's answer |
| NewCompatibilityAnalysis.BuildDecades | new_compatibility_analysis.py:75-93 | the loop builds exactly the eight-decade list of the shared decade prefix |
| NewCompatibilityAnalysis.SimpleDaeunFails | new_compatibility_analysis.py:66-74 | fails exactly when the year stem, month stem or month branch lies outside the alphabets |
| NewCompatibilityAnalysis.SimpleDaeunShape | new_compatibility_analysis.py:66-99 | a plan starts at the fixed age 6 and has eight decades, decade i from 6 + 10i to 6 + 10i + 9 with the month pillar moved i + 1 steps in the direction of travel |
| NewCompatibilityAnalysis.BlockShape | new_compatibility_analysis.py:76-93 | every block built has order i + 1, a ten-year span from start + 10i, and the shifted stem and branch |
| DonsagongFinalAnalysis.Position | donsagong_final_analysis.py:30-36 | an element's position in the generation cycle is one of five |
| DonsagongFinalAnalysis.StemElementsSpec | donsagong_final_analysis.py:30-36 | the element table covers exactly the ten stems |
| DonsagongFinalAnalysis.ElementRelationFails | donsagong_final_analysis.py:24-70 | equal stems give (비견, 중립); the lookup raises KeyError exactly for different stems one of which is not a stem |
| DonsagongFinalAnalysis.CyclesByDistance | donsagong_final_analysis.py:42-57 | an element generates exactly the next element of the cycle and controls exactly the one two steps on |
| DonsagongFinalAnalysis.ElementRelationByDistance | donsagong_final_analysis.py:38-70 | for different stems the type is 생 exactly at cycle distance 1 or 4, 극 exactly at 2 or 3, and 중립 at 0 (same element) |
| DonsagongFinalAnalysis.ElementRelationSymmetric | donsagong_final_analysis.py:38-70 | the relation type, and whether the lookup fails, do not depend on argument order |
| DonsagongFinalAnalysis.CalculateManualDaeun | donsagong_final_analysis.py:72-111 | the method returns exactly the manual-plan function's answer |
| DonsagongFinalAnalysis.ManualDaeunFails | donsagong_final_analysis.py:74-85 | fails exactly when the year stem, month stem or month branch lies outside the alphabets |
| DonsagongFinalAnalysis.ManualDaeunDirection | donsagong_final_analysis.py:77-111 | the label is 순행 exactly for yang-male or yin-female |
| DonsagongFinalAnalysis.ManualDaeunShape | donsagong_final_analysis.py:87-111 | a plan starts at the fixed age 5 and has eight decades, decade i from 5 + 10i with the month pillar moved i + 1 steps in the direction of travel |
| ApiDaeunCalculator.DetermineDirection | src/manseryeok/api_daeun_calculator.py:71-79 | raises exactly for a year stem outside the alphabet; otherwise +1 exactly for yang-male or yin-female and −1 otherwise |
| ApiDaeunCalculator.FilterQuarter | src/manseryeok/api_daeun_calculator.py:127-130 | keeps exactly the terms whose name is one of the four quarter terms, and no more than there were |
| ApiDaeunCalculator.InsertByDate | src/manseryeok/api_daeun_calculator.py:137 | inserting into a date-sorted list keeps it sorted and adds exactly the one term |
| ApiDaeunCalculator.SortByDate | src/manseryeok/api_daeun_calculator.py:137 | the sort yields a date-sorted permutation of its input |
| ApiDaeunCalculator.FirstAfter | src/manseryeok/api_daeun_calculator.py:159-166 | the forward scan finds the first listed term strictly after the birth, or none when every term is at or before it |
| ApiDaeunCalculator.FirstNotBefore | src/manseryeok/api_daeun_calculator.py:168-178 | the backward scan stops at the first term not before the birth; every earlier term is before it |
| ApiDaeunCalculator.FindNextQuarterTerm | src/manseryeok/api_daeun_calculator.py:159-166 | the loop returns exactly the next-quarter-term function's answer |
| ApiDaeunCalculator.FindPreviousQuarterTerm | src/manseryeok/api_daeun_calculator.py:168-178 | the loop returns exactly the previous-quarter-term function's answer (the last term before the first one not before the birth) |
| ApiDaeunCalculator.ScansFindNeighbours | src/manseryeok/api_daeun_calculator.py:159-178 | on a date-sorted list the next term is none exactly when no term is after the birth, and otherwise the earliest term after it; the previous term is the latest term before the birth |
| ApiDaeunCalculator.CalculateDaysToQuarterTerm | src/manseryeok/api_daeun_calculator.py:119-157 | the method returns the day-count function's answer; it is never negative, and 15 when no quarter term is given |
| ApiDaeunCalculator.RoundThird | src/manseryeok/api_daeun_calculator.py:182-183 | the rounded third of a day count lies within one third of days / 3 (3q − days is −1, 0 or 1) |
| ApiDaeunCalculator.RoundThirdIsNearest | src/manseryeok/api_daeun_calculator.py:182-183 | the rounded third is the only integer that close, so Python's round of days / 3 (never a half) is matched |
| ApiDaeunCalculator.StartAgeRound | src/manseryeok/api_daeun_calculator.py:180-187 | the start age is at least 1, the rounded third or 1 when that is smaller, and for days ≥ 0 equals max((days + 1) div 3, 1) |
| ApiDaeunCalculator.DaeunPrefix | src/manseryeok/api_daeun_calculator.py:189-217 | the first n blocks, block i built by the block rule |
| ApiDaeunCalculator.GenerateDaeunList | src/manseryeok/api_daeun_calculator.py:189-217 | raises exactly for a month stem or branch outside the alphabets; otherwise the ten blocks of the block rule |
| ApiDaeunCalculator.ApiBlocksContiguous | src/manseryeok/api_daeun_calculator.py:195-215 | the first block has order 1, each spans ten years, consecutive blocks are contiguous with consecutive orders and one more step in the direction of travel |
| ApiDaeunCalculator.ApiDaeunList | src/manseryeok/api_daeun_calculator.py:189-217 | the ten decades start at the start age one step from the month pillar, end 99 years later, and run contiguous and numbered in order |
| ApiDaeunCalculator.CalculateApiDaeun | src/manseryeok/api_daeun_calculator.py:34-69 | fails exactly for a stem or branch outside the alphabets; otherwise the direction label, the day count to the quarter term in the direction of travel, the rounded start age and exactly the ten decades of the block rule from that start age and the month pillar |
| AccurateDaeunCalculator.StoredTerm | accurate_daeun_calculator.py:182-225 | a stored term is only read from a stored year that holds that name |
| AccurateDaeunCalculator.GetNextJeol | accurate_daeun_calculator.py:168-225 | the loop returns exactly the next-term function's answer |
| AccurateDaeunCalculator.GetPreviousJeol | accurate_daeun_calculator.py:227-280 | the loop returns exactly the previous-term function's answer |
| AccurateDaeunCalculator.NextJeolSpec | accurate_daeun_calculator.py:168-225 | nothing for an unstored birth year; otherwise the earliest stored term strictly after the birth (小寒 dated in January of the next year), and next year's 立春 when there is none |
| AccurateDaeunCalculator.PreviousJeolSpec | accurate_daeun_calculator.py:227-280 | nothing for an unstored birth year; otherwise the latest stored term strictly before the birth (小寒 in January of the same year), and the previous year's 大雪 in December when there is none |
| AccurateDaeunCalculator.JeolNameOfMonth | accurate_daeun_calculator.py:282-306 | the name is 不明 exactly for a month outside 1..12 |
| AccurateDaeunCalculator.JeolNameInvertsMonths | accurate_daeun_calculator.py:282-306 | a term's month names that term back |
| AccurateDaeunCalculator.JeolNameOfStoredTerm | accurate_daeun_calculator.py:282-306 | the name read back from a stored term's date is the name it was stored under |
| AccurateDaeunCalculator.CalculateStartingAge | accurate_daeun_calculator.py:56-166 | the method returns exactly the starting-age function's answer |
| AccurateDaeunCalculator.StartingAgeSpec | accurate_daeun_calculator.py:56-166 | the bare 5 is returned exactly when no term is found; otherwise the record carries the direction, the term, its name by month, the fractional day gap, and an age that is whole gap div 3 below ten and exactly ten from thirty days on |
| AccurateDaeunCalculator.PreciseStartCapped | accurate_daeun_calculator.py:127-131 | with the age capped (33 days or more) the precise start is the tenth birthday, or the ValueError when that birthday is not a date |
| AccurateDaeunCalculator.PreciseStartAgeZero | accurate_daeun_calculator.py:142-145 | under three days the age is 0 and the start is the birth plus gap / 3 × 365.25 days |
| AccurateDaeunCalculator.PreciseStartCounted | accurate_daeun_calculator.py:137-149 | from three to 33 days the start is the birthday after the whole years plus the fractional year × 365.25 days, or the ValueError when that birthday is not a date |
| AccurateDaeunCalculator.LeapDayBirthFails | accurate_daeun_calculator.py:146-149 | a 29 February birth in a leap year whose term lies three to twelve days away raises: one to three years on is not a leap year |
| StartAgeCommon.StemIndexOrZero | accurate_daeun_calculator.py:74-77 | a known year stem keeps its index; an unknown one reads as index 0 (yang) |
| StartAgeCommon.Direction | accurate_daeun_calculator.py:74-83 | the direction is forward or backward |
| StartAgeCommon.DirectionRule | accurate_daeun_calculator.py:74-83 | forward exactly for yang-male or yin-female; an unknown stem behaves like 甲; any other gender goes backward; the 1900 calculator (test_1900_random_case.py:80-88) uses the same rule |
| StartAgeCommon.EarliestAfterSpec | accurate_daeun_calculator.py:197-205 | the pick is a term strictly after t, no later than any other such term and strictly earlier than any such term listed before it (sort-then-first), and none exactly when no term is after t |
| StartAgeCommon.LatestBeforeSpec | accurate_daeun_calculator.py:253-261 | the pick is a term strictly before t, no earlier than any other such term and strictly later than any such term listed before it, and none exactly when no term is before t |
| StartAgeCommon.FindEarliestAfter | accurate_daeun_calculator.py:197-205 | the loop returns exactly the earliest-after pick |
| StartAgeCommon.FindLatestBefore | accurate_daeun_calculator.py:253-261 | the loop returns exactly the latest-before pick |
| StartAgeCommon.TermInstant | accurate_daeun_calculator.py:186-195 | a term's KST instant exists exactly when the entry has day, hour and minute (and second where required) forming a valid date in that year and month |
| StartAgeCommon.Candidate | accurate_daeun_calculator.py:182-195 | only the twelve jeol names are dated, in KST, in their own month |
| StartAgeCommon.Candidates | accurate_daeun_calculator.py:182-195 | the dated terms are no more than the year's entries |
| StartAgeCommon.CandidatesMembers | accurate_daeun_calculator.py:182-195 | a dated term is one built from some entry of the year, and every one built is listed |
| StartAgeCommon.BuildCandidates | accurate_daeun_calculator.py:182-195 | the loop builds exactly the list of dated terms |
| StartAgeCommon.ReplaceYear | accurate_daeun_calculator.py:127-142 | datetime.replace(year) succeeds exactly when the same fields form a valid date in the new year |
| StartAgeCommon.LeapDayReplace | accurate_daeun_calculator.py:127-142 | replacing the year of 29 February with a non-leap year raises |
| StartAgeCommon.AbsDays | accurate_daeun_calculator.py:103-104 | the gap is the absolute difference of the instants in fractional days, never negative |
| StartAgeCommon.AbsDaysSymmetric | accurate_daeun_calculator.py:103-104 | the gap does not depend on argument order |
| StartAgeCommon.WholeYears | accurate_daeun_calculator.py:110-111 | the whole years are the floor of gap / 3 |
| StartAgeCommon.WholeYearsThresholds | accurate_daeun_calculator.py:117-118 | whole years reach ten exactly from thirty days and exceed ten exactly from 33 days |
| StartAgeCommon.WholeYearsMonotone | accurate_daeun_calculator.py:110-111 | a larger gap never gives fewer whole years |
| Enhanced1900DaeunCalculator.GetNextJeol | test_1900_random_case.py:164-204 | the loop returns exactly the next-term function's answer |
| Enhanced1900DaeunCalculator.GetPreviousJeol | test_1900_random_case.py:206-239 | the loop returns exactly the previous-term function's answer |
| Enhanced1900DaeunCalculator.NextJeolSpec | test_1900_random_case.py:164-204 | a next term exists exactly when the birth year is stored and one of its jeol terms lies strictly after the birth; it is the earliest such, with no cross-year fallback |
| Enhanced1900DaeunCalculator.PreviousJeolSpec | test_1900_random_case.py:206-239 | a previous term exists exactly when the birth year is stored and one of its jeol terms, 小寒 dated in that year, lies strictly before the birth; it is the latest such |
| Enhanced1900DaeunCalculator.CalculateStartingAge | test_1900_random_case.py:60-162 | the method returns exactly the starting-age function's answer |
| Enhanced1900DaeunCalculator.TermSoughtSide | test_1900_random_case.py:92-98 | the term sought lies after the birth going forward and before it going backward |
| Enhanced1900DaeunCalculator.StartingAgeSpec | test_1900_random_case.py:60-162 | the missing-term record (age 5) comes exactly when no term is found; otherwise the record carries the direction, the term, the day gap and an age that is gap div 3 below ten and exactly ten from thirty days |
| Enhanced1900DaeunCalculator.PreciseStartCapped | test_1900_random_case.py:111-142 | with the age capped at ten the start is the tenth birthday plus the leftover fraction × 365.25 days, or the ValueError |
| Enhanced1900DaeunCalculator.PreciseStartCounted | test_1900_random_case.py:111-142 | under thirty days: age 0 gives the birth plus gap / 3 × 365.25 days, a positive age the birthday after those years plus the fraction, or the ValueError |
| Enhanced1900DaeunCalculator.AgreesWithAccurateCalculator | test_1900_random_case.py:111-142 | the 1900 calculator and the accurate one agree on the age whenever both succeed, and on the precise start below 33 days; they differ only in the capped start |
| AccurateDaeunCalculator.NextJeol | accurate_daeun_calculator.py:168-225 | nothing for a birth year the table lacks; a found term lies strictly after the birth unless it is the next year's 立春 fallback |
| AccurateDaeunCalculator.PreviousJeol | accurate_daeun_calculator.py:227-280 | nothing for a birth year the table lacks; a found term lies strictly before the birth unless it is the previous year's 大雪 fallback |
| AccurateDaeunCalculator.StartingAge | accurate_daeun_calculator.py:56-166 | no term found gives the bare age 5; a computed record carries the direction of the year stem and gender and a whole age between 0 and 10 |
| AnalysisWrapper.YearStem | src/validation/analysis_wrapper.py:112-113 | the year-stem table gives 甲 for 2024, 丙 for 2026 and 乙 for every other year |
| AnalysisWrapper.FirstCoveringSpec | src/validation/analysis_wrapper.py:89-99 | the search finds the first decade whose range holds the age, and none exactly when no decade does |
| AnalysisWrapper.FindCurrentDaeun | src/validation/analysis_wrapper.py:89-99 | the loop returns the first decade with start ≤ age ≤ end, and none exactly when no decade covers the age |
| AnalysisWrapper.ValidationOutcomeOk | src/validation/analysis_wrapper.py:75-143 | validation succeeds exactly when a chart was calculated, a decade covers target year − birth year, and all three relation checks (decade stem, year stem, seasonal) pass |
| AnalysisWrapper.SafeSajuAnalyzer.constructor | src/validation/analysis_wrapper.py:14-19 | a fresh analyzer is locked, with no chart and no results |
| AnalysisWrapper.SafeSajuAnalyzer.AnalyzeFortune | src/validation/analysis_wrapper.py:21-41 | refuses exactly while locked; otherwise reports the stored validation results as completed |
| AnalysisWrapper.SafeSajuAnalyzer.CalculateSaju | src/validation/analysis_wrapper.py:43-73 | stores the calculated chart and leaves the lock and any earlier results as they were |
| AnalysisWrapper.SafeSajuAnalyzer.ValidateAllRelations | src/validation/analysis_wrapper.py:75-143 | the answer is the validation outcome for the stored chart; a success stores the results and clears the lock, any failure changes nothing |
| AnalysisWrapper.LockedUntilValidated | src/validation/analysis_wrapper.py:18-140 | a fresh analyzer refuses, one whose validation failed still refuses, and one whose validation succeeded analyses |
| DataLoader.PairsBeforeLength | src/manseryeok/data_loader.py:151-166 | the ordered pairs visited before position (i, j) number i·(n − 1) + j, less one once the diagonal is passed |
| DataLoader.RowRelationsCount | src/manseryeok/data_loader.py:151-166 | a row whose combination has n ≥ 2 characters yields exactly n·(n − 1) relations, a shorter one none |
| DataLoader.PairsBeforeMembers | src/manseryeok/data_loader.py:152-154 | the relations visited before (i, j) are exactly those of the ordered pairs a ≠ b preceding it |
| DataLoader.RowRelationsMembers | src/manseryeok/data_loader.py:151-166 | a row yields exactly one relation per ordered index pair a ≠ b |
| DataLoader.FromMembers | src/manseryeok/data_loader.py:163-166 | the relations filed under a branch are exactly those whose source is that branch |
| DataLoader.AppendAllGet | src/manseryeok/data_loader.py:163-166 | appending relations extends each branch's list by exactly the new relations from that branch, in order |
| DataLoader.AppendAllConcat | src/manseryeok/data_loader.py:144-166 | appending two batches in turn is appending their concatenation |
| DataLoader.AppendPairStep | src/manseryeok/data_loader.py:152-166 | each inner-loop step appends exactly the relation of the pair (i, j) |
| DataLoader.PairsBeforeDiagonal | src/manseryeok/data_loader.py:154 | the diagonal pair (i, i) appends nothing |
| DataLoader.AppendAllWellFormed | src/manseryeok/data_loader.py:163-166 | appending keeps one list per branch |
| DataLoader.SizeSumUpdate | src/manseryeok/data_loader.py:299-312 | replacing one list changes the total by the difference of the two lengths |
| DataLoader.SizeSumPut | src/manseryeok/data_loader.py:299-312 | storing a list under a key changes the total by the new length minus the old |
| DataLoader.AppendAllTotal | src/manseryeok/data_loader.py:299-312 | appending relations raises the stored total by exactly their number |
| DataLoader.LastRowFor | src/manseryeok/data_loader.py:111-125 | the row that decides a target stem is its last row in the section, and none when the section has no row for it |
| DataLoader.SectionTableGet | src/manseryeok/data_loader.py:105-125 | after a section, a target stem's relation comes from its last row there, and stays as it was when the section has no row for it |
| DataLoader.FortuneMatchesMembers | src/manseryeok/data_loader.py:266-275 | the search keeps exactly the relations whose fortune contains the query |
| DataLoader.FortuneMatchesSnoc | src/manseryeok/data_loader.py:266-275 | the search visits relations in order, keeping each match |
| DataLoader.TableRelationsMembers | src/manseryeok/data_loader.py:266-275 | the search walks exactly the stored tengan relations |
| DataLoader.Loader.constructor | src/manseryeok/data_loader.py:44-64 | a new loader starts with every table empty |
| DataLoader.Loader.ParseTenganSection | src/manseryeok/data_loader.py:96-125 | a section creates its source stem's table when missing and writes each row under its target, the last row for a target winning; nothing else changes |
| DataLoader.Loader.ParseJijiRelationBlock | src/manseryeok/data_loader.py:139-166 | a block appends exactly its rows' pair relations to the branch lists; nothing else changes |
| DataLoader.Loader.AppendRowRelations | src/manseryeok/data_loader.py:144-166 | a row appends exactly its pair relations |
| DataLoader.Loader.AppendPairsFrom | src/manseryeok/data_loader.py:152-166 | the loop over j appends the pairs of row position i |
| DataLoader.LastBodySpec | src/manseryeok/data_loader.py:174-183 | a title has a body exactly when some block carries it, and the body is that of a block with the title that no later block shares (the last assignment wins) |
| DataLoader.Loader.ParseSeasonalInfo | src/manseryeok/data_loader.py:168-183 | afterwards every title maps to SeasonInfo(title, body of its last block, 평), and a title no block carries keeps exactly its old value; the other tables are unchanged |
| DataLoader.Loader.ParseStructuredInfo | src/manseryeok/data_loader.py:185-199 | the useful-element and seasonal tables are each the last section parsed, or unchanged when there is none |
| DataLoader.Loader.GetTenganRelation | src/manseryeok/data_loader.py:241-243 | none exactly when either stem is absent; otherwise the stored relation |
| DataLoader.Loader.GetJijiRelations | src/manseryeok/data_loader.py:245-248 | exactly the stored relations from the source branch whose target matches |
| DataLoader.Loader.SearchRelationsByFortune | src/manseryeok/data_loader.py:266-275 | the loop returns exactly the relations whose fortune contains the query, in table order |
| DataLoader.Loader.ValidateData | src/manseryeok/data_loader.py:277-297 | true exactly when each of the ten stems has a table with at least nine relations |
| DataLoader.Loader.GetDatabaseStats | src/manseryeok/data_loader.py:299-312 | the entry counts are the table sizes and the totals the sums of the stored list sizes |
| DataLoader.TenganLookup | src/manseryeok/data_loader.py:241-243 | an answer comes only from a stored source stem whose table holds the target, and is that entry |
| DataLoader.TenganLookupSpec | src/manseryeok/data_loader.py:241-243 | the module-level lookup answers none exactly when either stem is absent, and otherwise a stored relation |
| DataLoader.JijiLookup | src/manseryeok/data_loader.py:245-248 | the answer is no longer than the source branch's stored list and every relation in it has the requested target |
| DataLoader.FilterTo | src/manseryeok/data_loader.py:245-248 | filtering never lengthens the list and keeps only relations with the given target |
| DataLoader.FilterToMembers | src/manseryeok/data_loader.py:245-248 | the filter keeps exactly the relations with the given target |
| DataLoader.SearchFindsMatches | src/manseryeok/data_loader.py:266-275 | a relation is found exactly when it is stored and its fortune contains the query |
| DataLoader.ParsedBlockQuery | src/manseryeok/data_loader.py:139-166 | after parsing one block into empty storage, a branch's list is exactly the block's relations from it |
| DataLoader.ParsedBlockTotal | src/manseryeok/data_loader.py:139-166 | parsing a block raises the stored total by its relation count, which for one row is n·(n − 1) |
| DataLoader.Loader.GetSeasonalInfo | src/manseryeok/data_loader.py:250-252 | none exactly when the season is not stored; otherwise a stored entry of that season |
| DataLoader.Loader.GetYongshinInfo | src/manseryeok/data_loader.py:254-256 | none exactly when the key is not stored; otherwise a stored entry of that key |
| DataLoader.Loader.GetJohooInfo | src/manseryeok/data_loader.py:258-260 | none exactly when the key is not stored; otherwise a stored entry of that key |
| DataLoader.Loader.GetAllTenganRelations | src/manseryeok/data_loader.py:262-264 | the empty table for a stem with no table; otherwise the stem's stored table |
| DonsagongAnalyzer.StemsOf | src/manseryeok/donsagong_analyzer.py:167 | the four stems in pillar order, the day stem third |
| DonsagongAnalyzer.BranchesOf | src/manseryeok/donsagong_analyzer.py:192 | the four branches in pillar order, the day branch third |
| DonsagongAnalyzer.SpecialCombinationsFollowStems | src/manseryeok/donsagong_analyzer.py:157-161 | the ten special pairs give one branch to each stem, in stem order |
| DonsagongAnalyzer.SpecialCombinationUnique | src/manseryeok/donsagong_analyzer.py:154-163 | each stem has at most one special branch and each branch at most one special stem |
| DonsagongAnalyzer.AnalyzeSinglePillar | src/manseryeok/donsagong_analyzer.py:133-152 | a pillar keeps its name, stem and branch; it is 길 with one note exactly when the pair is special, and 평 with no note otherwise |
| DonsagongAnalyzer.AnalyzePillars | src/manseryeok/donsagong_analyzer.py:115-131 | four analyses, year to hour, each 길 exactly when its stem and branch form a special pair |
| DonsagongAnalyzer.MajorIsMarked | src/manseryeok/donsagong_analyzer.py:241-243 | a label containing 대흉 or 대길 also contains 흉 or 길 |
| DonsagongAnalyzer.CalculateImpactLevel | src/manseryeok/donsagong_analyzer.py:237-250 | 강 exactly when the day stem is involved and the label holds 대흉 or 대길; 약 exactly when neither a marked label at the day stem nor adjacency applies |
| DonsagongAnalyzer.CalculateJijiImpactLevel | src/manseryeok/donsagong_analyzer.py:252-258 | 강 exactly when the day branch is involved and the label holds 대흉 or 대길; 약 exactly when the day branch is not involved and the positions are not adjacent |
| DonsagongAnalyzer.JijiImpactAtLeastTengan | src/manseryeok/donsagong_analyzer.py:237-258 | the branch level is never weaker than the stem level for the same positions and label, and they differ only for a day-involved label without 흉 or 길 |
| DonsagongAnalyzer.AnalyzeTenganRelations | src/manseryeok/donsagong_analyzer.py:165-188 | the nested loops produce exactly the ordered pair list of the specification function |
| DonsagongAnalyzer.TenganRow | src/manseryeok/donsagong_analyzer.py:172-186 | one pass of the inner loop appends exactly the entries of row i |
| DonsagongAnalyzer.TenganPair | src/manseryeok/donsagong_analyzer.py:173-186 | the pair (i, j) appends the analysis of its stored relation when i ≠ j and the relation exists, and nothing otherwise |
| DonsagongAnalyzer.EntriesBeforeWitness | src/manseryeok/donsagong_analyzer.py:171-172 | every entry the two nested loops have made before pair (i, j) belongs to an earlier pair |
| DonsagongAnalyzer.EntriesBeforeHas | src/manseryeok/donsagong_analyzer.py:171-172 | every entry of an earlier pair has been made before pair (i, j) |
| DonsagongAnalyzer.TenganBeforeIsEntries | src/manseryeok/donsagong_analyzer.py:171-186 | the stem loops make the entries of the pairs in row-major order |
| DonsagongAnalyzer.TenganRelationsMembers | src/manseryeok/donsagong_analyzer.py:165-188 | an entry is produced exactly for each ordered pair a ≠ b of pillars whose stem relation exists, with that relation's label and level |
| DonsagongAnalyzer.TenganBeforeLength | src/manseryeok/donsagong_analyzer.py:171-186 | at most 3i + j entries (less one past the diagonal) before pair (i, j), exactly that many when every relation exists |
| DonsagongAnalyzer.TenganRelationsCount | src/manseryeok/donsagong_analyzer.py:165-188 | at most twelve entries, exactly twelve when every pair of stems has a relation |
| DonsagongAnalyzer.JijiAnalyses | src/manseryeok/donsagong_analyzer.py:201-211 | one entry per relation found for the pair |
| DonsagongAnalyzer.JijiAnalysesMembers | src/manseryeok/donsagong_analyzer.py:201-211 | the entries for a pair are exactly the found relations, each with the branch impact level |
| DonsagongAnalyzer.AnalyzeJijiRelations | src/manseryeok/donsagong_analyzer.py:190-213 | the nested loops produce exactly the list of the specification function |
| DonsagongAnalyzer.AppendJijiAnalyses | src/manseryeok/donsagong_analyzer.py:201-211 | the inner loop appends exactly the entries for the found relations |
| DonsagongAnalyzer.JijiRow | src/manseryeok/donsagong_analyzer.py:197-211 | one pass of the middle loop appends exactly the entries of row i |
| DonsagongAnalyzer.JijiPair | src/manseryeok/donsagong_analyzer.py:198-211 | the pair (i, j) appends the analyses of its found relations when i ≠ j, and nothing otherwise |
| DonsagongAnalyzer.JijiBeforeIsEntries | src/manseryeok/donsagong_analyzer.py:196-211 | the branch loops make the entries of the pairs in row-major order |
| DonsagongAnalyzer.JijiEntryMembers | src/manseryeok/donsagong_analyzer.py:198-211 | a pair's entries are exactly the analyses of the stored relations from its first branch whose target is its second, and none on the diagonal |
| DonsagongAnalyzer.JijiRelationsMembers | src/manseryeok/donsagong_analyzer.py:190-213 | an entry is produced exactly for each ordered pair a ≠ b and each stored relation from branch a whose target is branch b |
| DonsagongAnalyzer.SeasonOf | src/manseryeok/donsagong_analyzer.py:217-227 | months 3–5 are 봄, 6–8 여름, 9–11 가을 and every other month 겨울 |
| DonsagongAnalyzer.AnalyzeSeasonalFactors | src/manseryeok/donsagong_analyzer.py:215-235 | the season is that of the birth month; with stored information its description and fortune are taken, otherwise "<season> 출생" and 평 |
| DonsagongAnalyzer.FortuneScore | src/manseryeok/donsagong_analyzer.py:265-271 | scores lie in −2..2, positive exactly for 길 and 대길, negative exactly for 흉 and 대흉, and unknown labels score 0 |
| DonsagongAnalyzer.TenganWeight | src/manseryeok/donsagong_analyzer.py:272-277 | stem weights (1.0, 1.5 or 2.0 by level) lie between 1.0 and 2.0 |
| DonsagongAnalyzer.JijiWeight | src/manseryeok/donsagong_analyzer.py:285-290 | branch weights (0.8, 1.2 or 1.6 by level) lie between 0.8 and 1.6 |
| DonsagongAnalyzer.SumsStep | src/manseryeok/donsagong_analyzer.py:270-293 | each loop step adds score times weight to the score sum and the weight to the weight sum |
| DonsagongAnalyzer.AccumulateScores | src/manseryeok/donsagong_analyzer.py:270-293 | the loop totals are exactly the weighted score sum and the weight sum |
| DonsagongAnalyzer.CalculateOverallFortune | src/manseryeok/donsagong_analyzer.py:260-310 | the loops compute exactly the weighted-mean verdict |
| DonsagongAnalyzer.SumsBounded | src/manseryeok/donsagong_analyzer.py:270-293 | the weight sum is at least 0.8 per relation and the score sum lies within ±2 times the weight sum |
| DonsagongAnalyzer.OverallFortuneBounds | src/manseryeok/donsagong_analyzer.py:295-310 | with no relations the verdict is 평; otherwise the total weight is positive and the mean lies in −2..2 |
| DonsagongAnalyzer.AllGoodSums | src/manseryeok/donsagong_analyzer.py:270-293 | when every label is 길 or 대길 the score sum is at least the weight sum |
| DonsagongAnalyzer.AllBadSums | src/manseryeok/donsagong_analyzer.py:270-293 | when every label is 흉 or 대흉 the score sum is at most minus the weight sum |
| DonsagongAnalyzer.UniformVerdict | src/manseryeok/donsagong_analyzer.py:295-308 | all-good relations give 길 and all-bad relations give 흉 |
| DonsagongAnalyzer.VerdictMonotone | src/manseryeok/donsagong_analyzer.py:299-308 | a higher mean never gives a worse verdict |
| DonsagongAnalyzer.LabelsDisjoint | src/manseryeok/donsagong_analyzer.py:482-485 | no label counts as both good and bad |
| DonsagongAnalyzer.CountsAppendEntry | src/manseryeok/donsagong_analyzer.py:477-485 | the good and bad counts add over appended entries |
| DonsagongAnalyzer.CountsDisjoint | src/manseryeok/donsagong_analyzer.py:477-485 | good plus bad never exceeds the number of relations |
| DonsagongAnalyzer.TallyStep | src/manseryeok/donsagong_analyzer.py:479-485 | each pair adds one to the good count for a good relation and one to the bad count for a bad one |
| DonsagongAnalyzer.TallyPair | src/manseryeok/donsagong_analyzer.py:480-485 | the pair (i, j) adds one to the good count exactly when i ≠ j and its relation has a good label, one to the bad count exactly when it has a bad label |
| DonsagongAnalyzer.TallyRow | src/manseryeok/donsagong_analyzer.py:477-485 | one outer iteration brings the counts to those of the relations made up to the row's end |
| DonsagongAnalyzer.TallyRelations | src/manseryeok/donsagong_analyzer.py:474-485 | the loops end with the good and bad counts of all the chart's stem relations |
| DonsagongAnalyzer.AnalyzeRelationshipPotential | src/manseryeok/donsagong_analyzer.py:463-496 | 길 with 양호 and one advice exactly when good relations outnumber bad, 흉 with 주의 and one advice exactly when bad outnumber good, 평 with 보통 and none on a tie |
| DonsagongAnalyzer.RelationshipTallyBounded | src/manseryeok/donsagong_analyzer.py:477-485 | good plus bad relations never exceed twelve |
| DonsagongAnalyzer.OverallFortune | src/manseryeok/donsagong_analyzer.py:260-310 | the verdict is always one of 길, 소길, 평, 소흉, 흉 |
| DonsagongValidator.CategoryEntries | scripts/donsagong_validator.py:75-76 | one (category, term) entry per term of a category, in list order |
| DonsagongValidator.SangsaengIsForbidden | scripts/donsagong_validator.py:19-38 | the forbidden table flattens to 44 entries in category order, with 상생 filed under 오행론 |
| DonsagongValidator.ContainsTooShort | scripts/donsagong_validator.py:77 | a text shorter than the term never contains it |
| DonsagongValidator.ContainsAt | scripts/donsagong_validator.py:77 | a text contains every term that occurs at some position of it |
| DonsagongValidator.ContainsPrefix | scripts/donsagong_validator.py:77 | containment survives appending text after |
| DonsagongValidator.ContainsSuffix | scripts/donsagong_validator.py:77 | containment survives prepending text before |
| DonsagongValidator.ContainsSlice | scripts/donsagong_validator.py:77 | a term found in a slice is found in the whole text |
| DonsagongValidator.CountPositiveIffContains | scripts/donsagong_validator.py:77-81 | the occurrence count is positive exactly when the text contains the term |
| DonsagongValidator.ReplaceKeepsTerm | scripts/donsagong_validator.py:180-182 | replacing a term by a marker that contains it leaves the term in the text |
| DonsagongValidator.MatchHasFirstPart | scripts/donsagong_validator.py:93-94 | a text matching a pattern A.*B contains A |
| DonsagongValidator.FoundIn | scripts/donsagong_validator.py:75-82 | never more findings than forbidden entries |
| DonsagongValidator.WarningsIn | scripts/donsagong_validator.py:93-96 | never more warnings than patterns |
| DonsagongValidator.Scan | scripts/donsagong_validator.py:60-103 | the score lies in 0..100 and names the file; an unreadable file scores 0 with the error and no findings |
| DonsagongValidator.FoundInSnoc | scripts/donsagong_validator.py:75-82 | each entry adds one finding with its category, term and count exactly when the content contains the term |
| DonsagongValidator.EntriesSnoc | scripts/donsagong_validator.py:75-76 | the outer loop visits the categories in order |
| DonsagongValidator.CategoryEntriesSnoc | scripts/donsagong_validator.py:76 | the inner loop visits a category's terms in order |
| DonsagongValidator.ScanContent | scripts/donsagong_validator.py:74-96 | the loops collect exactly the findings and warnings of the specification, and the score is 100 − 10 per finding − 5 per warning before clamping |
| DonsagongValidator.ScanFile | scripts/donsagong_validator.py:60-103 | the scan of a file is the specification scan over the forbidden table and the four patterns |
| DonsagongValidator.FoundInSpec | scripts/donsagong_validator.py:75-82 | a finding is made exactly for each entry whose term occurs, with its count, and every count is positive |
| DonsagongValidator.FoundInEmpty | scripts/donsagong_validator.py:75-82 | no findings exactly when no forbidden term occurs |
| DonsagongValidator.WarningsInSpec | scripts/donsagong_validator.py:86-96 | a warning is raised exactly for each matching pattern, and none exactly when no pattern matches |
| DonsagongValidator.FullScoreIffClean | scripts/donsagong_validator.py:60-103 | a file scores 100 exactly when it is readable, holds no forbidden term and matches no pattern |
| DonsagongValidator.SangsaengPenalisedTwice | scripts/donsagong_validator.py:19-91 | a text matching 상생.*관계 scores at most 85: the forbidden term and the warning both apply |
| DonsagongValidator.ScanAll | scripts/donsagong_validator.py:109-116 | never more results than files |
| DonsagongValidator.ValidateDirectory | scripts/donsagong_validator.py:105-116 | the walk collects exactly the specification's scans |
| DonsagongValidator.ScanAllSpec | scripts/donsagong_validator.py:109-116 | a result is produced exactly for each walked file ending in .md, .txt or .py, scanned at its joined path |
| DonsagongValidator.GenerateReport | scripts/donsagong_validator.py:118-166 | the report counts every result; with none the average is 0, the risk 위험 and nothing is contaminated |
| DonsagongValidator.ScoreSumBounds | scripts/donsagong_validator.py:129 | with scores in 0..100 the sum lies in 0..100·n, and is 100·n when every file scores 100 |
| DonsagongValidator.ReportBounds | scripts/donsagong_validator.py:127-145 | the average lies in 0..100, and all-clean results give average 100, risk 안전 and no contaminated file |
| DonsagongValidator.AverageBounds | scripts/donsagong_validator.py:129 | the mean of scores in 0..100 lies in 0..100 |
| DonsagongValidator.ContaminatedNone | scripts/donsagong_validator.py:145 | when every result scores 100 nothing is contaminated |
| DonsagongValidator.ContaminatedSpec | scripts/donsagong_validator.py:145 | the contaminated list holds exactly the results scoring below 100 |
| DonsagongValidator.MarkerContainsTerm | scripts/donsagong_validator.py:182 | the marker "[term 제거됨]" contains the term |
| DonsagongValidator.CleanedIffPresent | scripts/donsagong_validator.py:178-183 | the cleaned flag is set exactly when some forbidden term occurs, and otherwise the content is untouched |
| DonsagongValidator.CleanedStillForbidden | scripts/donsagong_validator.py:178-183 | after cleaning, some forbidden term still occurs, inside its marker |
| DonsagongValidator.CleanContent | scripts/donsagong_validator.py:177-183 | the loops compute exactly the specification's cleaned content and flag |
| DonsagongValidator.AutoCleanFile | scripts/donsagong_validator.py:168-200 | the cleaning of a file is the specification's outcome |
| DonsagongValidator.AutoCleanSpec | scripts/donsagong_validator.py:168-200 | a file is rewritten exactly when it held a forbidden term, a backup of the original goes to path.backup, and the cleaned file still scores at most 90 |
| SajuHelpers.StemElementsPaired | frontend/src/utils/sajuHelpers.ts:47-57 | the ten stems map in pairs to wood, fire, earth, metal, water; any other text falls back to earth |
| SajuHelpers.BranchElementsSeasonal | frontend/src/utils/sajuHelpers.ts:60-70 | each branch maps to its seasonal element (寅卯 wood, 巳午 fire, 申酉 metal, 亥子 water, the four others earth); any other text falls back to earth |
| SajuHelpers.GetElementColor | frontend/src/utils/sajuHelpers.ts:6-18 | the plain grey #9E9E9E is returned exactly when no element is given |
| SajuHelpers.ElementColorsDistinct | frontend/src/utils/sajuHelpers.ts:9-17 | different elements, and no element, get different colours |
| SajuHelpers.ColorCode | frontend/src/utils/sajuHelpers.ts:9-15 | each element's gradient starts from its own base colour code |
| SajuHelpers.GetGenderLabel | frontend/src/utils/sajuHelpers.ts:73-75 | 男性 exactly for "male", and 女性 for every other value |
| SajuHelpers.NatToString | frontend/src/utils/sajuHelpers.ts:86 | decimal digits with no leading zero, one digit exactly below ten |
| SajuHelpers.DigitsRoundTrip | frontend/src/utils/sajuHelpers.ts:86 | reading the decimal digits back gives the number |
| SajuHelpers.IntRoundTrip | frontend/src/utils/sajuHelpers.ts:86 | parsing a formatted integer gives it back |
| SajuHelpers.PadStart2 | frontend/src/utils/sajuHelpers.ts:86 | padding yields at least two characters |
| SajuHelpers.SplitAtFirst | frontend/src/utils/sajuHelpers.ts:86 | splitting at a separator absent from the first field recovers the field and the rest |
| SajuHelpers.NumeralsHaveNoSeparator | frontend/src/utils/sajuHelpers.ts:86 | a formatted integer contains no separator character |
| SajuHelpers.PaddedRoundTrip | frontend/src/utils/sajuHelpers.ts:86 | the zero-padded minute parses back to the minute |
| SajuHelpers.FormatBirthDateTimeParses | frontend/src/utils/sajuHelpers.ts:78-87 | the 年月日 display of a date reads back as its year, month, day, hour and minute, so no field is shifted or lost |
| SajuHelpers.FormatBirthDateTimeExample | frontend/src/utils/sajuHelpers.ts:78-87 | 1986-05-26 05:00 displays as 1986年5月26日 5:00, the same calendar day |
| SajuHelpers.CalculateCurrentAge | frontend/src/utils/sajuHelpers.ts:100-112 | the age is the number of birthdays reached by today: the r-th has passed and the next has not |
| SajuHelpers.AgeMatchesBackend | frontend/src/utils/sajuHelpers.ts:100-112 | the browser age equals the backend current age, except before birth where the backend gives 0 and the browser a negative number |
| SajuHelpers.GetStemElement | frontend/src/utils/sajuHelpers.ts:46-57 | an unknown stem is earth, and earth comes back exactly for 戊, 己 and unknown stems |
| SajuListService.LocalStorage.constructor | frontend/src/services/api/sajuListService.ts:40 | browser storage starts with no items |
| SajuListService.LocalStorage.SetItem | frontend/src/services/api/sajuListService.ts:340 | storing a value under a key replaces that key's item and nothing else |
| SajuListService.LocalStorage.RemoveItem | frontend/src/services/api/sajuListService.ts:258 | removing a key drops that key's item and nothing else |
| SajuListService.Defaulted | frontend/src/services/api/sajuListService.ts:321-325 | the chart is kept; a present id is kept and a missing one becomes "saju-" followed by the current time in milliseconds; a missing creation time becomes the current time |
| SajuListService.FindIndex | frontend/src/services/api/sajuListService.ts:330 | the index of the first chart with the id, or −1 exactly when no chart has it |
| SajuListService.UpsertSpec | frontend/src/services/api/sajuListService.ts:329-337 | the list keeps its length when the id is present and grows by one otherwise; the saved chart is in it and every other position is unchanged |
| SajuListService.UpsertIdempotent | frontend/src/services/api/sajuListService.ts:329-337 | saving the same chart twice leaves the list as saving it once |
| SajuListService.FindIndexFirst | frontend/src/services/api/sajuListService.ts:330 | the first position holding the id is the one found |
| SajuListService.FindIndexOf | frontend/src/services/api/sajuListService.ts:330 | the search loop returns the first matching index |
| SajuListService.SaveSaju | frontend/src/services/api/sajuListService.ts:312-348 | the stored list becomes the upsert of the defaulted chart into the previous list (an absent list read as empty); a malformed list reports failure and leaves storage unchanged |
| SajuListService.Without | frontend/src/services/api/sajuListService.ts:248 | the filter never lengthens the list |
| SajuListService.WithoutSpec | frontend/src/services/api/sajuListService.ts:248 | the filter keeps exactly the charts with a different id, and keeps every chart exactly when none has the id |
| SajuListService.WithoutConcat | frontend/src/services/api/sajuListService.ts:248 | filtering distributes over concatenation |
| SajuListService.DeleteResult | frontend/src/services/api/sajuListService.ts:241-290 | the deletion succeeds exactly when a stored list was parsed, the server call failed, or the server said it succeeded |
| SajuListService.DeleteSaju | frontend/src/services/api/sajuListService.ts:241-290 | storage becomes the specification's store after deletion and the answer its result |
| SajuListService.DeleteStoreSpec | frontend/src/services/api/sajuListService.ts:245-269 | other keys are untouched; a stored list afterwards holds no chart with the id; a list emptied by the deletion is removed |
| SajuListService.GetSajuList | frontend/src/services/api/sajuListService.ts:38-70 | storage becomes the specification's store after listing (a malformed list is removed) and the answer its result |
| SajuListService.SavedIsListed | frontend/src/services/api/sajuListService.ts:312-348 | after a save over a parseable or absent list, listing returns the saved chart |
| SajuListService.DeletedIsNotListed | frontend/src/services/api/sajuListService.ts:241-270 | after a deletion, listing returns no chart with the id, or falls back to the server when the list was emptied |
| SajuListService.FetchDetail | frontend/src/services/api/sajuListService.ts:81-111 | a chart served from storage is the first stored chart with the id; after a 401, 404 or network failure with a stored list the detail is found exactly when some stored chart has the id |
| SajuListService.GraphPointsSpec | frontend/src/services/api/sajuListService.ts:120-145 | two points per period, at its start age and at its end age, in period order |
| SajuListService.GraphAgesSorted | frontend/src/services/api/sajuListService.ts:120-145 | periods in age order give graph points in non-decreasing age |
| SajuListService.BuildGraphPoints | frontend/src/services/api/sajuListService.ts:120-145 | the loop builds exactly the specification's points |
| SajuListService.DetailAgeVersusHelper | frontend/src/services/api/sajuListService.ts:113-116 | the detail page's age is the bare year difference, one more than the helper's age before this year's birthday |
| SolarTermSearch.TermOrderDistinct | generate_solar_terms_1910_1960.py:46-51 | the year order lists 24 distinct terms |
| SolarTermSearch.LongitudesEvery15Degrees | generate_solar_terms_1910_1960.py:18-43 | the i-th term of the year order sits at longitude (315 + 15i) mod 360, from 立春 at 315 |
| SolarTermSearch.MonthEstimatesInPairs | generate_solar_terms_1910_1960.py:91-96 | terms come in pairs per month, from 立春 and 雨水 in February to 小寒 and 大寒 in January |
| SolarTermSearch.StandardValid | generate_solar_terms_1910_1960.py:18-96 | the term table, longitudes and month estimates agree term by term |
| SolarTermSearch.Longitude | generate_solar_terms_1910_1960.py:146 | a longitude is found exactly for the 24 listed terms |
| SolarTermSearch.MonthEstimate | generate_solar_terms_1910_1960.py:91-104 | a month estimate in 1..12 is found exactly for the 24 listed terms |
| SolarTermSearch.LookupByName | generate_solar_terms_1910_1960.py:91-146 | looking a term up by name gives its own longitude and month |
| SolarTermSearch.SearchYear | generate_solar_terms_1910_1960.py:98-104 | the search moves to the next year exactly for 小寒 and 大寒 |
| SolarTermSearch.SearchYearOfTerm | generate_solar_terms_1910_1960.py:98-104 | the first 22 terms of the year order are searched in the given year and the last two in the next |
| SolarTermSearch.WindowWidth | generate_solar_terms_1910_1960.py:106-108 | the search window from the 1st to the 28th spans 27 days |
| SolarTermSearch.Abs | generate_solar_terms_1910_1960.py:126 | the magnitude is non-negative and equals x or −x |
| SolarTermSearch.Mod360 | generate_solar_terms_1910_1960.py:119-122 | Python's % 360 on floats lies in [0, 360) and differs from x by whole turns |
| SolarTermSearch.Mod360Periodic | generate_solar_terms_1910_1960.py:119-122 | adding whole turns does not change the reduced angle |
| SolarTermSearch.Mod360Fixed | generate_solar_terms_1910_1960.py:119-122 | an angle already in [0, 360) is unchanged |
| SolarTermSearch.AngleDiff | generate_solar_terms_1910_1960.py:122-124 | the signed difference lies in (−180, 180] |
| SolarTermSearch.WholeTurnsSum | generate_solar_terms_1910_1960.py:122-124 | whole turns add up to whole turns |
| SolarTermSearch.AngleDiffCongruent | generate_solar_terms_1910_1960.py:122-124 | the signed difference equals longitude minus target up to whole turns |
| SolarTermSearch.AngleDiffNear | generate_solar_terms_1910_1960.py:122-124 | for angles less than half a turn apart the signed difference is the plain difference |
| SolarTermSearch.Diff | generate_solar_terms_1910_1960.py:115-124 | the difference at a moment lies in (−180, 180] |
| SolarTermSearch.HalvingShrinks | generate_solar_terms_1910_1960.py:113-114 | halving the window lowers its size in epsilon units, so the bisection ends |
| SolarTermSearch.SearchInside | generate_solar_terms_1910_1960.py:107-131 | the bisection returns a midpoint strictly inside the initial window |
| SolarTermSearch.SearchFindsCrossing | generate_solar_terms_1910_1960.py:107-131 | when the difference changes sign once, at moment c, in the window, the result is within 0.001 degrees of the target or within epsilon of c |
| SolarTermSearch.Bisect | generate_solar_terms_1910_1960.py:111-131 | the loop with its early exit returns exactly the specification's midpoint |
| SolarTermSearch.EphemEpochSecondsCorrect | generate_solar_terms_1910_1960.py:133-135 | the ephemeris epoch constant is 1899-12-31 12:00 UTC in seconds |
| SolarTermSearch.ToBeijing | generate_solar_terms_1910_1960.py:135-136 | the moment is expressed at the Beijing offset |
| SolarTermSearch.ToBeijingOfEphemDate | generate_solar_terms_1910_1960.py:107-135 | converting the ephemeris date of a civil day gives its midnight UTC |
| SolarTermSearch.ToBeijingMonotone | generate_solar_terms_1910_1960.py:135-136 | later ephemeris dates give later moments |
| SolarTermSearch.SolarTermMoment | generate_solar_terms_1910_1960.py:81-138 | an error exactly for a term the table does not list |
| SolarTermSearch.MomentInWindow | generate_solar_terms_1910_1960.py:98-136 | a listed term's moment falls between the 1st and the 28th of its estimated month in its search year |
| SolarTermSearch.FindSolarTermMoment | generate_solar_terms_1910_1960.py:81-138 | the method computes exactly the specification's moment |
| SolarTermsGeneration.RecordOf | generate_solar_terms_1910_1960.py:146-165 | each record names its term and carries the term's longitude |
| SolarTermsGeneration.YearData | generate_solar_terms_1910_1960.py:142-152 | n steps of the loop store n terms |
| SolarTermsGeneration.YearDataEntries | generate_solar_terms_1910_1960.py:145-165 | the i-th stored entry is the i-th term of the year order with its record |
| SolarTermsGeneration.YearHasAllTerms | generate_solar_terms_1910_1960.py:140-167 | a year holds all 24 terms, in year order, each with its own name and longitude |
| SolarTermsGeneration.RecordInWindow | generate_solar_terms_1910_1960.py:98-165 | each record's moment lies between the 1st and the 28th of its estimated month in its search year |
| SolarTermsGeneration.FinderFinds | generate_solar_terms_1910_1960.py:149 | the search used by the generator is the bisection of each term |
| SolarTermsGeneration.CalculateYearSolarTerms | generate_solar_terms_1910_1960.py:140-167 | the loop builds exactly the specification's year |
| SolarTermsGeneration.Years | generate_solar_terms_1910_1960.py:191-192 | one entry per year of the range |
| SolarTermsGeneration.YearsEntries | generate_solar_terms_1910_1960.py:191-192 | the i-th entry is year start + i with its computed terms |
| SolarTermsGeneration.YearsStep | generate_solar_terms_1910_1960.py:191-192 | each step adds a year that was not stored yet, extending the specification by one |
| SolarTermsGeneration.StoreYear | generate_solar_terms_1910_1960.py:192 | storing a year extends the database by exactly that year |
| SolarTermsGeneration.AddYear | generate_solar_terms_1910_1960.py:191-192 | one iteration of the outer loop adds exactly the next year |
| SolarTermsGeneration.GenerateDatabase | generate_solar_terms_1910_1960.py:169-198 | the database carries the fixed metadata and exactly the computed years of the range |
| SolarTermsGeneration.GeneratedYears | generate_solar_terms_1910_1960.py:169-198 | the database holds exactly the years from start to end inclusive, each once |
| SolarTermsGeneration.GeneratedTotalTerms | generate_solar_terms_1910_1960.py:169-198 | the database holds 24 terms per year of the range |
| SolarTermsGeneration.MetadataCountHolds | generate_solar_terms_1910_1960.py:184 | the stated count of 24 terms per year equals the number of terms each year holds |
| SolarTermTables.TotalTermsUniform | merge_210_years_database.py:128 | when every year holds k terms the table holds k times as many terms as years, the 24-per-year total the merge reports |
| Merge210YearsDatabase.MergeMetadata | merge_210_years_database.py:68-92 | the merged metadata states the summed year count and 24 terms per year in total |
| Merge210YearsDatabase.MergeMetadataWellFormed | merge_210_years_database.py:68-92 | the metadata has one value per key |
| Merge210YearsDatabase.MergedYears | merge_210_years_database.py:96-100 | the merged table holds exactly the years of either file, and is empty exactly when both files are |
| Merge210YearsDatabase.MergeSolarTermsDatabases | merge_210_years_database.py:12-135 | a missing or malformed file makes the merge return False and a file without its term data raises KeyError; two empty year objects raise the ValueError of min(); a non-empty merge whose write fails returns False; otherwise the saved table is the merged years with the summed metadata and the warnings for the sizes and the overlap |
| Merge210YearsDatabase.FromEmpty | merge_210_years_database.py:97 | updating an empty table with the base years gives exactly the base years |
| Merge210YearsDatabase.MergedYearsGet | merge_210_years_database.py:96-100 | the merged table holds every year of either file, and a year in both takes the additional file's data |
| Merge210YearsDatabase.OverlapSameKeys | merge_210_years_database.py:57-59 | the overlap count depends only on which years a table holds |
| Merge210YearsDatabase.MergedCount | merge_210_years_database.py:57-102 | merged years plus overlapping years equal the two counts together, so the merge is smaller exactly when the files share a year |
| Merge210YearsDatabase.NoOverlapWithEmpty | merge_210_years_database.py:57-59 | an empty table overlaps with nothing |
| Merge210YearsDatabase.OverlapPositive | merge_210_years_database.py:57-61 | the overlap count is positive exactly when the files share a year |
| MergeAllSolarTermsDatabase.CopyRange | merge_all_solar_terms_database.py:66-69 | the copy loop over a year range computes exactly the specification's copy |
| MergeAllSolarTermsDatabase.CountSized | merge_all_solar_terms_database.py:110-116 | the count of years of a given size never exceeds the number of years |
| MergeAllSolarTermsDatabase.SizedCountsBounded | merge_all_solar_terms_database.py:113-116 | years with 12 terms and years with 24 terms together never exceed the number of years |
| MergeAllSolarTermsDatabase.CountStatistics | merge_all_solar_terms_database.py:105-116 | the statistics loop computes the year count, the term total and the counts of 12- and 24-term years |
| MergeAllSolarTermsDatabase.MergeAllDatabases | merge_all_solar_terms_database.py:20-135 | the merge fails exactly when some present source file is corrupt; otherwise it returns the merged years and their statistics |
| MergeAllSolarTermsDatabase.CopyYearsGet | merge_all_solar_terms_database.py:56-91 | a year in the copied range that the source holds takes the source's data; every other year is unchanged |
| MergeAllSolarTermsDatabase.MergePrecedence | merge_all_solar_terms_database.py:52-91 | each year takes its data from the last source covering it: 2010–2100 over 1960–2010 over 1910–1960 over 1900–1910 |
| MergeAllSolarTermsDatabase.Years | merge_all_solar_terms_database.py:144 | the year list holds each stored year in table order |
| MergeAllSolarTermsDatabase.Insert | merge_all_solar_terms_database.py:144 | insertion adds exactly one element |
| MergeAllSolarTermsDatabase.InsertSorted | merge_all_solar_terms_database.py:144 | inserting into a sorted list keeps it sorted |
| MergeAllSolarTermsDatabase.Sort | merge_all_solar_terms_database.py:144 | the sorted years are in order and a permutation of the stored years |
| MergeAllSolarTermsDatabase.FindGaps | merge_all_solar_terms_database.py:145-147 | the gap loop reports exactly the specification's gaps |
| MergeAllSolarTermsDatabase.VerifyDataIntegrity | merge_all_solar_terms_database.py:137-162 | the issues are the gaps in the sorted years followed by the years with an abnormal term count, and the check passes exactly when there is none |
| MergeAllSolarTermsDatabase.NoGapsIffConsecutive | merge_all_solar_terms_database.py:145-147 | no gap is reported exactly when the sorted years are consecutive |
| MergeAllSolarTermsDatabase.YearsUnbroken | merge_all_solar_terms_database.py:143-147 | without gaps, the stored years are exactly the consecutive years from the smallest |
| MergeAllSolarTermsDatabase.CountIssuesEmptyIff | merge_all_solar_terms_database.py:149-153 | no count issue is reported exactly when every year holds 12 or 24 terms |
| RemoveZhongqiFromDatabase.KeptPartition | remove_zhongqi_from_database.py:80-93 | every entry of a year is either kept or counted as removed |
| RemoveZhongqiFromDatabase.KeptMembers | remove_zhongqi_from_database.py:80-93 | an entry is kept exactly when it is in the year and not one of the twelve zhongqi, unknown names included |
| RemoveZhongqiFromDatabase.NoZhongqiKeptWhole | remove_zhongqi_from_database.py:123-130 | a year without zhongqi is kept whole with nothing removed |
| RemoveZhongqiFromDatabase.KeptHasNoZhongqi | remove_zhongqi_from_database.py:80-93 | no zhongqi survives in a processed year |
| RemoveZhongqiFromDatabase.CleanTable | remove_zhongqi_from_database.py:119-135 | the cleaned table has one entry per year |
| RemoveZhongqiFromDatabase.CleanTableAt | remove_zhongqi_from_database.py:119-135 | each year keeps its key and its non-zhongqi entries |
| RemoveZhongqiFromDatabase.TallyCounts | remove_zhongqi_from_database.py:117-135 | every year is counted once as processed or skipped, the year total is untouched and no counter decreases |
| RemoveZhongqiFromDatabase.TwelveEachIsPerfect | remove_zhongqi_from_database.py:99-135 | when each processed year held exactly twelve zhongqi, twelve are removed per processed year |
| RemoveZhongqiFromDatabase.StampedKeepsOthers | remove_zhongqi_from_database.py:142-148 | stamping the metadata changes only the five keys it sets |
| RemoveZhongqiFromDatabase.Metadata.constructor | remove_zhongqi_from_database.py:138-142 | a metadata object holds the given entries |
| RemoveZhongqiFromDatabase.CleanedYearPasses | remove_zhongqi_from_database.py:166-183 | a cleaned year passes validation exactly when twelve of its entries were kept |
| RemoveZhongqiFromDatabase.ZhongqiRemover.constructor | remove_zhongqi_from_database.py:45-52 | a new remover starts with every counter at zero |
| RemoveZhongqiFromDatabase.ZhongqiRemover.ProcessSingleYear | remove_zhongqi_from_database.py:71-102 | the year loses exactly its zhongqi, and the removed and kept counters grow by the numbers of removed and kept entries |
| RemoveZhongqiFromDatabase.ZhongqiRemover.CleanOneYear | remove_zhongqi_from_database.py:120-135 | a year without a zhongqi is copied whole and counted as skipped; any other year keeps exactly its non-zhongqi entries and is counted as processed, with its removed and kept entries added |
| RemoveZhongqiFromDatabase.ZhongqiRemover.RemoveZhongqi | remove_zhongqi_from_database.py:104-150 | without term data the database is returned as it is; otherwise the counters are tallied, the cleaned years are returned, and the shared metadata object is stamped in place (KeyError when it is missing) |
| RemoveZhongqiFromDatabase.ValidateCleanedDatabase | remove_zhongqi_from_database.py:152-197 | validation passes exactly when term data exists and every year has twelve entries and no zhongqi; a missing jieqi only warns |
| RemoveZhongqiFromDatabase.PrintStatistics | remove_zhongqi_from_database.py:199-220 | removal is reported perfect exactly when twelve zhongqi were removed per processed year; the expected kept count is twelve per year |
| RemoveZhongqiFromDatabase.FreshRunPerfect | remove_zhongqi_from_database.py:104-220 | from fresh counters, a run over years that each held twelve zhongqi is reported perfect |
| Final210YearValidation.TermSetsAgree | final_210_year_validation.py:15-24 | the validator's required and forbidden sets are exactly the remover's jieqi and zhongqi |
| Final210YearValidation.NamesCount | final_210_year_validation.py:104 | a year's keys are distinct, so its key set is as large as the year |
| Final210YearValidation.RequiredCount | final_210_year_validation.py:15-18 | twelve jieqi are required |
| Final210YearValidation.TermSetsDisjoint | final_210_year_validation.py:15-24 | no term is both required and forbidden |
| Final210YearValidation.ValidIffJieqiExactly | final_210_year_validation.py:84-127 | a year is valid exactly when its keys are the twelve required jieqi, and valid exactly when it has no error (an unknown term adds an error without invalidating, but cannot occur in a valid year) |
| Final210YearValidation.ValidYearSize | final_210_year_validation.py:96-101 | a valid year has twelve entries |
| Final210YearValidation.ValidYearPassesRemoval | final_210_year_validation.py:84-127 | a year this validator accepts also passes the remover's check |
| Final210YearValidation.Results | final_210_year_validation.py:171-173 | one result per year |
| Final210YearValidation.ResultsAt | final_210_year_validation.py:171-173 | the i-th result is the validation of the i-th year |
| Final210YearValidation.TallyNext | final_210_year_validation.py:171-188 | each loop step adds the next year's result to the tallies |
| Final210YearValidation.TallyCounts | final_210_year_validation.py:167-192 | valid and invalid years add up to all years, one error record per invalid year, and no invalid year exactly when every result is valid |
| Final210YearValidation.TallyErrorsInvalid | final_210_year_validation.py:182-184 | only invalid years are recorded as errors |
| Final210YearValidation.TallyTerms | final_210_year_validation.py:175 | the term total is the number of entries over all years |
| Final210YearValidation.TableValidIff | final_210_year_validation.py:167-200 | the walk finds no invalid year exactly when every year validates |
| Final210YearValidation.Min | final_210_year_validation.py:144 | the minimum is a listed year no larger than any other |
| Final210YearValidation.Max | final_210_year_validation.py:145 | the maximum is a listed year no smaller than any other |
| Final210YearValidation.Years | final_210_year_validation.py:143 | the year list holds each stored year in table order |
| Final210YearValidation.WalkYears | final_210_year_validation.py:167-193 | the loop computes exactly the tallies of the specification |
| Final210YearValidation.CountYear | final_210_year_validation.py:175-188 | a valid year adds one to the valid count, an invalid one adds one to the invalid count, its missing and forbidden terms and its result to the errors; both add the year's term count |
| Final210YearValidation.Final210YearValidator.constructor | final_210_year_validation.py:13-35 | a new validator holds the two term sets and zeroed statistics |
| Final210YearValidation.Final210YearValidator.ValidateAllYears | final_210_year_validation.py:129-200 | no term data gives False; an empty table raises ValueError from min(); a range other than 1900–2109 or a count other than 210 gives False; otherwise the statistics hold the tallies and the answer is whether no year was invalid |
| Final210YearValidation.PassingYearsMeetExpectedTotal | final_210_year_validation.py:202-219 | 210 valid years hold exactly 210 × 12 terms, so the expected-total check then passes |
| Final210YearValidation.MergedMetadataValid | final_210_year_validation.py:52-82 | the metadata written by the 210-year merge and restamped by the remover passes exactly when the two merged files held 210 years |
| Final210YearValidation.ValidateMetadata | final_210_year_validation.py:52-82 | no metadata fails; metadata without `total_years` passes (missing fields only warn); a present `total_years` passes exactly when it is 210 |
| Final210YearValidation.ValidateSingleYear | final_210_year_validation.py:84-127 | the result names the year and counts its entries; the year is valid exactly when it has twelve entries, holds every required jieqi and no zhongqi, which is exactly when every recorded error is an unknown-name note; the unknown names are those neither required nor forbidden |
| Final210YearValidation.Final210YearValidator.ValidateExpectedTotal | final_210_year_validation.py:202-219 | passes exactly when the recorded term count is 2520 (210 years of 12) |
| GenerateJeolipDatabase.JeolOnlyValid | generate_jeolip_database.py:17-30 | the table lists twelve jeol with distinct names |
| GenerateJeolipDatabase.JeolAreStandardJieqi | generate_jeolip_database.py:17-30 | the i-th jeol is the 2i-th term of the standard year order, at its standard longitude plus 180° (the heliocentric longitude the search compares with), starting the month i + 2, with 小寒 in January |
| GenerateJeolipDatabase.Abs | generate_jeolip_database.py:82 | the magnitude is non-negative and equals x or −x |
| GenerateJeolipDatabase.DownTurns | generate_jeolip_database.py:76-77 | subtracting the counted turns brings the difference to at most π, and a difference already at most π takes none |
| GenerateJeolipDatabase.UpTurns | generate_jeolip_database.py:78-79 | adding the counted turns brings the difference to at least −π, and a difference already at least −π takes none |
| GenerateJeolipDatabase.Normalized | generate_jeolip_database.py:75-79 | the normalised difference lies in [−π, π] and differs from the raw one by whole turns; a difference already in range is unchanged |
| GenerateJeolipDatabase.NormalizedUnique | generate_jeolip_database.py:75-79 | any whole-turn shift of the difference into [−π, π] is the normalised one or a full turn away from it |
| GenerateJeolipDatabase.ScaledTurns | generate_jeolip_database.py:76-79 | a multiple of a full turn is at least two turns, one turn, minus one turn or at most minus two turns by its factor |
| GenerateJeolipDatabase.TurnDown | generate_jeolip_database.py:76-77 | the first while loop subtracts exactly the counted turns |
| GenerateJeolipDatabase.TurnUp | generate_jeolip_database.py:78-79 | the second while loop adds exactly the counted turns |
| GenerateJeolipDatabase.NormalizeAngle | generate_jeolip_database.py:75-79 | the two loops compute exactly the normalised difference |
| GenerateJeolipDatabase.StepToward | generate_jeolip_database.py:85-93 | the step moves the date in the direction of the remaining difference, by at most 180 days, and not at all when the difference is zero |
| GenerateJeolipDatabase.WalkStaysNear | generate_jeolip_database.py:65-98 | a walk started inside the limits ends within 180 days of them |
| GenerateJeolipDatabase.WalkConverges | generate_jeolip_database.py:65-98 | a walk that ends inside the limits has reached the target within 0.0002 rad, or spent its hundred iterations |
| GenerateJeolipDatabase.StartDate | generate_jeolip_database.py:50-56 | the search starts on 1 January for longitudes below 180° and on 1 July otherwise |
| GenerateJeolipDatabase.StartInsideLimits | generate_jeolip_database.py:50-96 | the start date lies between 1 January of the year before and 1 January two years later |
| GenerateJeolipDatabase.ToKst | generate_jeolip_database.py:100-115 | the result is the same instant as the ephemeris date, stated at UTC+9 |
| GenerateJeolipDatabase.WindowOf | generate_jeolip_database.py:50-96 | the start lies between the lower and upper limits of the search |
| GenerateJeolipDatabase.TermTimeNear | generate_jeolip_database.py:65-117 | a term time lies within 180 days of the search limits |
| GenerateJeolipDatabase.StepSearch | generate_jeolip_database.py:65-98 | the iteration loop with its two early exits computes exactly the specification's walk |
| GenerateJeolipDatabase.SearchInWindow | generate_jeolip_database.py:62-115 | the search over a window computes exactly the specification's moment |
| GenerateJeolipDatabase.CalculateSolarTermTime | generate_jeolip_database.py:32-117 | the function computes exactly the specification's term time |
| GenerateJeolipDatabase.CalcYearOfJeol | generate_jeolip_database.py:134-136 | only 小寒 is computed in the following year; every other jeol in the year itself |
| GenerateJeolipDatabase.YearEntries | generate_jeolip_database.py:132-155 | a year holds at most one entry per jeol visited |
| GenerateJeolipDatabase.YearEntriesNames | generate_jeolip_database.py:132-155 | each stored key is a visited jeol name, each at most once |
| GenerateJeolipDatabase.YearEntriesFresh | generate_jeolip_database.py:134-155 | a jeol's name is not stored before it is visited |
| GenerateJeolipDatabase.YearEntriesSpec | generate_jeolip_database.py:132-155 | each visited jeol is stored with its time, longitude and month exactly when its time was computed, and is absent when the computation raised |
| GenerateJeolipDatabase.YearEntriesStep | generate_jeolip_database.py:138-155 | each iteration stores the jeol's record when its time is computed and skips it on an error |
| GenerateJeolipDatabase.FinderFinds | generate_jeolip_database.py:139 | the time finder used by the generator is the term time calculation |
| GenerateJeolipDatabase.AddJeol | generate_jeolip_database.py:134-155 | one iteration of the inner loop extends the year exactly as the specification does |
| GenerateJeolipDatabase.JeolYear | generate_jeolip_database.py:132-157 | the inner loop builds exactly the specification's year |
| GenerateJeolipDatabase.Years | generate_jeolip_database.py:128-157 | one entry per year of the range |
| GenerateJeolipDatabase.YearsEntries | generate_jeolip_database.py:128-157 | the i-th entry is year 1900 + i with its jeol entries |
| GenerateJeolipDatabase.YearsStep | generate_jeolip_database.py:157 | storing the next year extends the database exactly as the specification does |
| GenerateJeolipDatabase.AddJeolYear | generate_jeolip_database.py:128-157 | one iteration of the outer loop adds exactly the next year |
| GenerateJeolipDatabase.GenerateJeolipDatabaseOf | generate_jeolip_database.py:119-159 | the loops build exactly the specification's database |
| GenerateJeolipDatabase.DatabaseYears | generate_jeolip_database.py:119-159 | the database holds exactly the 201 years 1900–2100, each once, with at most twelve entries each |
| SolarTermsValidationFramework.LoadOurDatabase | solar_terms_validation_framework.py:32-39 | a file that cannot be read or parsed gives the empty database; otherwise its parsed contents |
| SolarTermsValidationFramework.FetchHkoData | solar_terms_validation_framework.py:92-107 | the observatory lookup always answers none |
| SolarTermsValidationFramework.WithinTolerance | solar_terms_validation_framework.py:149-158 | a term is within tolerance exactly when its difference in hours is at most six |
| SolarTermsValidationFramework.TermOutcome | solar_terms_validation_framework.py:130-164 | a term is skipped with a warning exactly when its name is unknown or its time is missing or malformed; otherwise it is checked and marked OK exactly when within tolerance |
| SolarTermsValidationFramework.SingleYear | solar_terms_validation_framework.py:109-167 | the result names the year it checks |
| SolarTermsValidationFramework.ValidateSingleYear | solar_terms_validation_framework.py:109-167 | the loop computes exactly the specification's year result |
| SolarTermsValidationFramework.TallyStep | solar_terms_validation_framework.py:130-164 | each term adds its outcome to the year's tallies |
| SolarTermsValidationFramework.CheckTerm | solar_terms_validation_framework.py:130-164 | checking one term computes exactly the specification's outcome |
| SolarTermsValidationFramework.TallyBalance | solar_terms_validation_framework.py:130-164 | every term is either validated or leaves one warning, and every error leaves a warning |
| SolarTermsValidationFramework.NoErrorsIffNoneFar | solar_terms_validation_framework.py:158-164 | a year has no error exactly when no checked term is beyond tolerance |
| SolarTermsValidationFramework.AllCloseAllValidated | solar_terms_validation_framework.py:130-164 | when every term is known, parseable and within tolerance, all are validated with no error and no warning |
| SolarTermsValidationFramework.MissingYearResult | solar_terms_validation_framework.py:121-123 | a year absent from the database gives zero counts and the single missing-year warning |
| SolarTermsValidationFramework.YearResultBalance | solar_terms_validation_framework.py:109-167 | validated terms plus warnings equal the term count (plus the missing-year warning), validated never exceeds the total, and errors never exceed warnings |
| SolarTermsValidationFramework.Results | solar_terms_validation_framework.py:189-191 | one result per year of the range |
| SolarTermsValidationFramework.ResultsEntries | solar_terms_validation_framework.py:189-191 | the i-th result is that of year start + i |
| SolarTermsValidationFramework.ResultsStep | solar_terms_validation_framework.py:189-198 | each year adds its result and its counts to the running totals, and counts as validated when it has no error |
| SolarTermsValidationFramework.YearRange | solar_terms_validation_framework.py:169-215 | an empty database gives the load error; otherwise one result per year of the range and the stated year count |
| SolarTermsValidationFramework.ValidateYearRange | solar_terms_validation_framework.py:169-215 | the loop computes exactly the specification's range result |
| SolarTermsValidationFramework.ValidateNextYear | solar_terms_validation_framework.py:190-198 | one pass of the loop extends the year results and the running totals to the next year of the range |
| SolarTermsValidationFramework.TotalsConsistent | solar_terms_validation_framework.py:189-198 | validated terms never exceed total terms, and every year is validated exactly when none has an error |
| SolarTermsValidationFramework.SuccessRateBounds | solar_terms_validation_framework.py:204-207 | the success rate lies in 0..100 and is 100 exactly when there are terms and all were validated |
| SolarTermsValidationFramework.RangeConsistent | solar_terms_validation_framework.py:169-215 | for a loaded database the rate lies in 0..100, validated terms never exceed the total, and every year counts as validated exactly when no year has an error |
| SolarTermsValidationFramework.Summary | solar_terms_validation_framework.py:169-215 | the range result keeps every per-year result and counts end − start + 1 years; with no terms the success rate is 0 |
| Common.IndexOf | accurate_daeun_calculator.py:74 | list.index: none exactly for an absent element, otherwise its first position |
| Common.StemsDistinct | backend/app/services/saju_calculator.py:18 | the ten heavenly stems are distinct |
| Common.BranchesDistinct | backend/app/services/saju_calculator.py:21 | the twelve earthly branches are distinct |
| Common.ForwardIsParityXorGender | accurate_daeun_calculator.py:75-82 | the luck cycles run forward exactly for a yang year stem with a male, or a yin year stem with a female |
| Calendar.AsTimezone | backend/app/services/saju_calculator.py:274-279 | converting to another offset keeps the instant and shifts the wall-clock time by the difference of offsets |
| Calendar.DaysDiff | src/manseryeok/api_daeun_calculator.py:144 | timedelta.days is the floor of the difference in whole days |
| Calendar.Trunc | accurate_daeun_calculator.py:110-111 | int() on a float truncates toward zero |
| Dicts.GetSpec | src/manseryeok/data_loader.py:241-243 | a dict lookup finds nothing exactly for an absent key, and otherwise the key's stored value |
| Dicts.PutGet | generate_jeolip_database.py:142 | assigning a key stores its value and leaves every other key's value unchanged |
| Dicts.UpdateGet | merge_210_years_database.py:97-100 | after dict.update a key takes the source's value when the source has it, and keeps its old value otherwise |
| Dicts.UpdateLength | merge_210_years_database.py:96-102 | dict.update grows the dict by the number of source keys it did not already hold |

## Left out

- `lunar_python` results (EightChar pillars, Yun/getDaYun decades, Solar conversions): external library, taken as parameters.
- `ephem` sun heliocentric longitude: external astronomy, an uninterpreted function of the instant; only the bisection around it is modelled.
- `SajuCalculator` `calculate` and `_calculate_fortune_level`: orchestration over `lunar_python` objects; the pieces they call are modelled.
- `_get_solar_terms_from_api` in the API daeun calculator: network access.
- Microseconds in the Beijing-time conversion and the ephem date tuple rounding: the model works in whole seconds.
- English names, meanings, and the metadata title, description, creation date and sources of the generated tables: constant text.
- Printing, sleeping and progress output of the scripts: no effect on the data.
- File input and output: loading and saving JSON, `generate_validation_report` file writing, the jeolip `save_database` and `validate_database` printing, report text and timestamps, and validator write failures; the files' contents are in-memory maps.
- `run_complete_validation` and the `main` functions: orchestration of modelled steps with printing.
- The directory walk order of the validator: taken as the given list of paths.
- The `strptime` parse of the stored datetime: modelled as an optional parsed datetime.
- `round()` on `success_rate` and `difference_hours`: exact reals are reported unrounded.
- `allowed_terms` in the validator: defined but never used by the source.
- `getFortuneColor`, `getFortuneIcon`, `formatDate` in the frontend helpers: presentation only.
- The `daeunAnalysis` and `currentFortune` defaults of `getSajuDetail` and `getCurrentFortune` in the saved-chart service: display placeholders.
- JSON stringify and parse in local storage: the stored text is modelled as what parsing yields (empty, a chart list, or malformed).
- Local-storage quota errors and console logging: environment behaviour.
- JavaScript `Date` parsing and time zones: a date is its local civil fields.
- `FortuneLevelMap` is not part of this model: it is imported but not defined in the types module, so it is a parameter.
- Python float rounding: scores are exact reals, so a sum that lands exactly on a level threshold may classify differently from the float computation.
- Regular expressions: only the newline-free `A.*B` form the validator uses and the error path of `parse_input` are modelled.
- `timedelta` sub-second rounding of the precise start date: whole seconds only.
- Final210YearValidation.Final210YearValidator.ValidateAllYears: walks the years in the table's own order, where the script walks `sorted(..., key=int)`; the counts, the term total, the missing and forbidden multisets and the verdict do not depend on the order, but `year_errors` lists the invalid years in table order rather than ascending year order.

## Findings

| source | as written | input that shows it | evidently intended | confidence | as-written member | corrected member |
|---|---|---|---|---|---|---|
| test_random_saju_cases.py:158-159 | the hour stem is read from row `day_stem_index // 2` of the five-row table | day stem 乙 (index 1) at hour 0 gives row 0 and stem 甲; the 乙 row is row 1 (丙子) | row `day_stem_index % 5` (the five-rat rule) | high, not executed | RandomSajuTester.HourRowCounterexample | RandomSajuTester.HourPillarIsFiveRatRule |
| test_random_saju_cases.py:171-186 | the month stem is read from row `year_stem_index // 2` at the branch's column counted from 子 | a 寅 month of a 甲 year reads column 2 (戊) instead of column 0 (丙) | row `year_stem_index % 5` and column counted from 寅 (the five-tiger rule) | high, not executed | RandomSajuTester.MonthColumnCounterexample | RandomSajuTester.MonthStem |
| src/manseryeok/calculator.py:283-295 | `_calculate_hour_pillar` unpacks the day pillar from `_calculate_day_pillar`, which returns None | any hour: unpacking None raises | the day stem from the chart's day pillar feeds the five-rat rule | high, not executed | ManseryeokCalculator.HourPillarAsWritten | ManseryeokCalculator.HourPillarRule |
| compatibility_analyzer_complete.py:313-319 | `len(target) == 1` decides stem versus branch, but branches are one character too | day stem 庚, month 寅, target 辰: 辰 is a useful branch but is looked up among the stems | branches looked up among the useful branches | high, not executed | CompatibilityAnalyzerComplete.YongshinBranchCounterexample | CompatibilityAnalyzerComplete.CheckYongshin |
| compatibility_analyzer_complete.py:396-422 | the accurate calculator's result record is added to an integer as the start age | any birth for which the calculator finds its jeol and succeeds: the addition raises TypeError | the record's whole starting age used as the start | high, not executed | CompatibilityAnalyzerComplete.RecordWhenTermFound | CompatibilityAnalyzerComplete.CalculateDaeun |
