/** The seven-level major-fortune verdict of the backend analysis service:
    stem and branch relations of the day and hour pillars against a decade's
    pillar, a seasonal ("johoo") adjustment, a weighted score and its banding. */
module FortuneAnalyzer {
  import opened Common

  /** A two-level lookup table keyed by stem or branch labels. */
  type Matrix = map<string, map<string, string>>

  /** The seven fortune levels, from worst to best. */
  const Levels: seq<string> := ["大凶", "凶", "平", "小吉", "中吉", "吉", "大吉"]

  const TenganMatrix: Matrix := map[
      "甲" := map["甲" := "平", "乙" := "凶", "丙" := "吉", "丁" := "吉", "戊" := "吉", "己" := "大凶", "庚" := "大凶", "辛" := "凶", "壬" := "凶", "癸" := "吉"],
      "乙" := map["甲" := "吉", "乙" := "平", "丙" := "大吉", "丁" := "吉", "戊" := "吉", "己" := "吉", "庚" := "大凶", "辛" := "凶", "壬" := "凶", "癸" := "吉"],
      "丙" := map["甲" := "吉", "乙" := "吉", "丙" := "平", "丁" := "凶", "戊" := "平", "己" := "平", "庚" := "凶", "辛" := "大凶", "壬" := "吉", "癸" := "凶"],
      "丁" := map["甲" := "吉", "乙" := "吉", "丙" := "凶", "丁" := "平", "戊" := "吉", "己" := "吉", "庚" := "吉", "辛" := "大凶", "壬" := "大凶", "癸" := "凶"],
      "戊" := map["甲" := "大吉", "乙" := "吉", "丙" := "吉", "丁" := "吉", "戊" := "平", "己" := "凶", "庚" := "凶", "辛" := "凶", "壬" := "平", "癸" := "大凶"],
      "己" := map["甲" := "凶", "乙" := "吉", "丙" := "吉", "丁" := "吉", "戊" := "凶", "己" := "平", "庚" := "凶", "辛" := "凶", "壬" := "凶", "癸" := "平"],
      "庚" := map["甲" := "吉", "乙" := "大凶", "丙" := "吉", "丁" := "吉", "戊" := "吉", "己" := "吉", "庚" := "平", "辛" := "大凶", "壬" := "吉", "癸" := "吉"],
      "辛" := map["甲" := "吉", "乙" := "吉", "丙" := "大凶", "丁" := "大凶", "戊" := "凶", "己" := "平", "庚" := "凶", "辛" := "平", "壬" := "大吉", "癸" := "吉"],
      "壬" := map["甲" := "吉", "乙" := "吉", "丙" := "大吉", "丁" := "大凶", "戊" := "吉", "己" := "凶", "庚" := "大吉", "辛" := "凶", "壬" := "平", "癸" := "凶"],
      "癸" := map["甲" := "吉", "乙" := "吉", "丙" := "凶", "丁" := "凶", "戊" := "凶", "己" := "凶", "庚" := "吉", "辛" := "凶", "壬" := "凶", "癸" := "平"]
    ]

  const JijiMatrix: Matrix := map[
      "寅" := map["寅" := "平", "卯" := "凶", "辰" := "吉", "巳" := "吉", "午" := "大吉", "未" := "吉", "申" := "大凶", "酉" := "大凶", "戌" := "吉", "亥" := "平", "子" := "凶", "丑" := "凶"],
      "卯" := map["寅" := "吉", "卯" := "平", "辰" := "吉", "巳" := "吉", "午" := "平", "未" := "大吉", "申" := "大凶", "酉" := "大凶", "戌" := "平", "亥" := "平", "子" := "凶", "丑" := "凶"],
      "辰" := map["寅" := "吉", "卯" := "吉", "辰" := "平", "巳" := "大凶", "午" := "凶", "未" := "凶", "申" := "平", "酉" := "凶", "戌" := "大凶", "亥" := "平", "子" := "平", "丑" := "大凶"],
      "巳" := map["寅" := "吉", "卯" := "吉", "辰" := "大凶", "巳" := "平", "午" := "大凶", "未" := "凶", "申" := "凶", "酉" := "吉", "戌" := "凶", "亥" := "大凶", "子" := "凶", "丑" := "吉"],
      "午" := map["寅" := "吉", "卯" := "吉", "辰" := "大凶", "巳" := "凶", "午" := "平", "未" := "凶", "申" := "平", "酉" := "凶", "戌" := "大吉", "亥" := "平", "子" := "凶", "丑" := "吉"],
      "未" := map["寅" := "吉", "卯" := "大吉", "辰" := "凶", "巳" := "凶", "午" := "凶", "未" := "平", "申" := "吉", "酉" := "平", "戌" := "凶", "亥" := "大吉", "子" := "大吉", "丑" := "凶"],
      "申" := map["寅" := "平", "卯" := "凶", "辰" := "吉", "巳" := "平", "午" := "平", "未" := "平", "申" := "平", "酉" := "平", "戌" := "凶", "亥" := "平", "子" := "吉", "丑" := "凶"],
      "酉" := map["寅" := "凶", "卯" := "凶", "辰" := "凶", "巳" := "吉", "午" := "凶", "未" := "凶", "申" := "凶", "酉" := "平", "戌" := "凶", "亥" := "凶", "子" := "凶", "丑" := "吉"],
      "戌" := map["寅" := "大吉", "卯" := "凶", "辰" := "大凶", "巳" := "平", "午" := "大吉", "未" := "凶", "申" := "吉", "酉" := "平", "戌" := "平", "亥" := "平", "子" := "平", "丑" := "凶"],
      "亥" := map["寅" := "吉", "卯" := "大吉", "辰" := "凶", "巳" := "大凶", "午" := "凶", "未" := "大吉", "申" := "平", "酉" := "平", "戌" := "大吉", "亥" := "平", "子" := "凶", "丑" := "凶"],
      "子" := map["寅" := "吉", "卯" := "吉", "辰" := "吉", "巳" := "平", "午" := "凶", "未" := "凶", "申" := "吉", "酉" := "平", "戌" := "凶", "亥" := "大凶", "子" := "平", "丑" := "大凶"],
      "丑" := map["寅" := "吉", "卯" := "吉", "辰" := "凶", "巳" := "吉", "午" := "大吉", "未" := "凶", "申" := "平", "酉" := "吉", "戌" := "凶", "亥" := "平", "子" := "吉", "丑" := "平"]
    ]

  const JohooTable: Matrix := map[
      "寅" := map["寅" := "吉", "卯" := "吉", "辰" := "吉", "巳" := "吉", "午" := "大吉", "未" := "吉", "申" := "大凶", "酉" := "大凶", "戌" := "大凶", "亥" := "大凶", "子" := "大凶", "丑" := "大凶"],
      "卯" := map["寅" := "吉", "卯" := "吉", "辰" := "吉", "巳" := "大吉", "午" := "大吉", "未" := "大吉", "申" := "凶", "酉" := "凶", "戌" := "凶", "亥" := "凶", "子" := "凶", "丑" := "凶"],
      "辰" := map["寅" := "吉", "卯" := "吉", "辰" := "吉", "巳" := "吉", "午" := "吉", "未" := "吉", "申" := "吉", "酉" := "吉", "戌" := "凶", "亥" := "凶", "子" := "凶", "丑" := "凶"],
      "巳" := map["寅" := "吉", "卯" := "吉", "辰" := "吉", "巳" := "凶", "午" := "凶", "未" := "凶", "申" := "吉", "酉" := "吉", "戌" := "吉", "亥" := "吉", "子" := "吉", "丑" := "吉"],
      "午" := map["寅" := "吉", "卯" := "吉", "辰" := "吉", "巳" := "凶", "午" := "凶", "未" := "凶", "申" := "吉", "酉" := "吉", "戌" := "吉", "亥" := "大吉", "子" := "大吉", "丑" := "大吉"],
      "未" := map["寅" := "吉", "卯" := "吉", "辰" := "吉", "巳" := "凶", "午" := "凶", "未" := "凶", "申" := "吉", "酉" := "吉", "戌" := "凶", "亥" := "大吉", "子" := "大吉", "丑" := "吉"],
      "申" := map["寅" := "吉", "卯" := "吉", "辰" := "吉", "巳" := "大吉", "午" := "大吉", "未" := "大吉", "申" := "凶", "酉" := "凶", "戌" := "吉", "亥" := "凶", "子" := "凶", "丑" := "凶"],
      "酉" := map["寅" := "吉", "卯" := "吉", "辰" := "吉", "巳" := "大吉", "午" := "大吉", "未" := "大吉", "申" := "凶", "酉" := "凶", "戌" := "凶", "亥" := "凶", "子" := "凶", "丑" := "凶"],
      "戌" := map["寅" := "吉", "卯" := "吉", "辰" := "吉", "巳" := "吉", "午" := "吉", "未" := "吉", "申" := "吉", "酉" := "吉", "戌" := "吉", "亥" := "凶", "子" := "凶", "丑" := "凶"],
      "亥" := map["寅" := "吉", "卯" := "吉", "辰" := "吉", "巳" := "大吉", "午" := "大吉", "未" := "大吉", "申" := "凶", "酉" := "凶", "戌" := "吉", "亥" := "大凶", "子" := "大凶", "丑" := "大凶"],
      "子" := map["寅" := "吉", "卯" := "吉", "辰" := "吉", "巳" := "大吉", "午" := "大吉", "未" := "大吉", "申" := "凶", "酉" := "凶", "戌" := "大吉", "亥" := "大凶", "子" := "平", "丑" := "大凶"],
      "丑" := map["寅" := "吉", "卯" := "吉", "辰" := "吉", "巳" := "大吉", "午" := "大吉", "未" := "大吉", "申" := "凶", "酉" := "凶", "戌" := "吉", "亥" := "大吉", "子" := "大吉", "丑" := "平"]
    ]

  /** The three tables an analyzer loads once at construction and only reads afterwards. */
  datatype Analyzer = Analyzer(tengan: Matrix, jiji: Matrix, johoo: Matrix)

  const Loaded: Analyzer := Analyzer(TenganMatrix, JijiMatrix, JohooTable)

  /** Python's `m.get(a, {}).get(b, default)`. */
  function Lookup2(m: Matrix, a: string, b: string, default: string): string {
    if a in m && b in m[a] then m[a][b] else default
  }

  function CheckTenganRelation(an: Analyzer, fromStem: string, toStem: string): (r: string)
    ensures fromStem == toStem ==> r == "平"
    ensures fromStem != toStem && fromStem in an.tengan && toStem in an.tengan[fromStem] ==>
              r == an.tengan[fromStem][toStem]
    ensures fromStem !in an.tengan || toStem !in an.tengan[fromStem] ==> r == "平"
  {
    if fromStem == toStem then "平" else Lookup2(an.tengan, fromStem, toStem, "平")
  }

  function CheckJijiRelation(an: Analyzer, fromBranch: string, toBranch: string): (r: string)
    ensures fromBranch == toBranch ==> r == "平"
    ensures fromBranch != toBranch && fromBranch in an.jiji && toBranch in an.jiji[fromBranch] ==>
              r == an.jiji[fromBranch][toBranch]
    ensures fromBranch !in an.jiji || toBranch !in an.jiji[fromBranch] ==> r == "平"
  {
    if fromBranch == toBranch then "平" else Lookup2(an.jiji, fromBranch, toBranch, "平")
  }

  /** The four three-branch harmonies (sangap), in the order the source scans them. */
  const SangapGroups: seq<set<string>> :=
    [{"寅", "午", "戌"}, {"巳", "酉", "丑"}, {"申", "子", "辰"}, {"亥", "卯", "未"}]

  /** The scan over the groups from position `k` on, returning at the first group holding both. */
  function SangapFrom(k: nat, b1: string, b2: string): (r: bool)
    requires k <= |SangapGroups|
    decreases |SangapGroups| - k
    ensures r <==> exists g :: k <= g < |SangapGroups| && b1 in SangapGroups[g] && b2 in SangapGroups[g]
  {
    if k == |SangapGroups| then false
    else if b1 in SangapGroups[k] && b2 in SangapGroups[k] then true
    else SangapFrom(k + 1, b1, b2)
  }

  function IsSangap(b1: string, b2: string): (r: bool)
    ensures r <==> exists g :: 0 <= g < 4 && b1 in SangapGroups[g] && b2 in SangapGroups[g]
  {
    SangapFrom(0, b1, b2)
  }

  lemma SangapSymmetric(b1: string, b2: string)
    ensures IsSangap(b1, b2) == IsSangap(b2, b1)
  {
  }

  /** Every one of the twelve branches lies in exactly one triad, so it forms a sangap with itself. */
  lemma SangapPartitionsBranches(i: BranchIdx)
    ensures IsSangap(Branches[i], Branches[i])
    ensures exists g :: 0 <= g < 4 && Branches[i] in SangapGroups[g] &&
              forall h :: 0 <= h < 4 && h != g ==> Branches[i] !in SangapGroups[h]
  {
    var b := Branches[i];
    var g := if b in SangapGroups[0] then 0 else if b in SangapGroups[1] then 1
             else if b in SangapGroups[2] then 2 else 3;
    assert b in SangapGroups[g];
    assert forall h :: 0 <= h < 4 && h != g ==> b !in SangapGroups[h];
  }

  const AutumnWinterBranches: seq<string> := ["申", "酉", "戌", "亥", "子", "丑"]
  const SummerBranches: seq<string> := ["巳", "午", "未"]

  /** Seasonal rule for 丁 and 辛 day stems: autumn/winter decades are good, summer ones bad. */
  function CheckSpecialJohoo(daeunBranch: string): (r: string)
    ensures r == "吉" <==> daeunBranch in AutumnWinterBranches
    ensures r == "凶" <==> daeunBranch in SummerBranches
    ensures r == "平" <==> daeunBranch !in AutumnWinterBranches + SummerBranches
  {
    if daeunBranch in AutumnWinterBranches then "吉"
    else if daeunBranch in SummerBranches then "凶"
    else "平"
  }

  function CheckJohoo(an: Analyzer, monthBranch: string, daeunBranch: string, dayStem: string): (r: string)
    ensures (dayStem == "丁" || dayStem == "辛") ==> r == CheckSpecialJohoo(daeunBranch)
    ensures dayStem != "丁" && dayStem != "辛" && monthBranch in an.johoo && daeunBranch in an.johoo[monthBranch] ==>
              r == an.johoo[monthBranch][daeunBranch]
    ensures (dayStem != "丁" && dayStem != "辛" &&
             (monthBranch !in an.johoo || daeunBranch !in an.johoo[monthBranch])) ==> r == "平"
  {
    if dayStem in ["丁", "辛"] then CheckSpecialJohoo(daeunBranch)
    else Lookup2(an.johoo, monthBranch, daeunBranch, "平")
  }

  /** For 丁/辛 day stems the natal month branch plays no part in the seasonal verdict. */
  lemma SpecialJohooIgnoresMonth(an: Analyzer, m1: string, m2: string, daeunBranch: string, dayStem: string)
    requires dayStem == "丁" || dayStem == "辛"
    ensures CheckJohoo(an, m1, daeunBranch, dayStem) == CheckJohoo(an, m2, daeunBranch, dayStem)
    ensures CheckJohoo(an, m1, daeunBranch, dayStem) in ["吉", "凶", "平"]
  {
  }

  /** The five-entry score map inside `analyze_daeun_fortune`; unknown labels score 0. */
  function LevelScore(lv: string): (r: int)
    ensures -2 <= r <= 2
    ensures lv !in ["大吉", "吉", "平", "凶", "大凶"] ==> r == 0
    ensures lv == "大吉" ==> r == 2
    ensures lv == "大凶" ==> r == -2
  {
    if lv == "大吉" then 2 else if lv == "吉" then 1 else if lv == "平" then 0
    else if lv == "凶" then -1 else if lv == "大凶" then -2 else 0
  }

  /** One pillar's score: stem 70%, branch 30%; a sangap branch counts as 吉 (+1) at weight 40%. */
  function PillarScore(stemScore: int, branchScore: int, sangap: bool): (r: real)
    requires -2 <= stemScore <= 2 && -2 <= branchScore <= 2
    ensures -2.0 <= r <= 2.0
    ensures sangap ==> r == 0.7 * stemScore as real + 0.4
  {
    if sangap then stemScore as real * 0.7 + 1.0 * 0.4
    else stemScore as real * 0.7 + branchScore as real * 0.3
  }

  /** The weighted total: day pillar 50%, hour pillar 20%, seasonal verdict 30%. */
  function TotalScore(an: Analyzer, dayStem: string, dayBranch: string, hourStem: string, hourBranch: string,
                      monthBranch: string, daeunStem: string, daeunBranch: string): (r: real)
    ensures -2.0 <= r <= 2.0
  {
    var day := PillarScore(LevelScore(CheckTenganRelation(an, dayStem, daeunStem)),
                           LevelScore(CheckJijiRelation(an, dayBranch, daeunBranch)),
                           IsSangap(dayBranch, daeunBranch));
    var hour := PillarScore(LevelScore(CheckTenganRelation(an, hourStem, daeunStem)),
                            LevelScore(CheckJijiRelation(an, hourBranch, daeunBranch)),
                            IsSangap(hourBranch, daeunBranch));
    var johoo := LevelScore(CheckJohoo(an, monthBranch, daeunBranch, dayStem));
    day * 0.5 + hour * 0.2 + johoo as real * 0.3
  }

  /** Bands a score into the seven levels. */
  function ScoreToFortune(score: real): (r: string)
    ensures r in Levels
    ensures r == "大吉" <==> score >= 1.5
    ensures r == "大凶" <==> score <= -0.6
    ensures r == "平" <==> -0.3 < score < 0.1
  {
    if score >= 1.5 then "大吉"
    else if score >= 0.7 then "吉"
    else if score >= 0.4 then "中吉"
    else if score >= 0.1 then "小吉"
    else if score > -0.3 then "平"
    else if score > -0.6 then "凶"
    else "大凶"
  }

  /** Position of a level in `Levels` (worst = 0). */
  function Rank(level: string): (r: int)
    ensures level in Levels ==> 0 <= r < |Levels| && Levels[r] == level
  {
    if level == "大凶" then 0 else if level == "凶" then 1 else if level == "平" then 2
    else if level == "小吉" then 3 else if level == "中吉" then 4 else if level == "吉" then 5
    else 6
  }

  lemma ScoreToFortuneMonotone(s1: real, s2: real)
    requires s1 <= s2
    ensures Rank(ScoreToFortune(s1)) <= Rank(ScoreToFortune(s2))
  {
  }

  /** Integer scores as the code bands them: note that -1.0 falls in 大凶 (it is not above -0.6). */
  lemma ScoreToFortuneOnIntegers()
    ensures ScoreToFortune(2.0) == "大吉" && ScoreToFortune(1.0) == "吉" && ScoreToFortune(0.0) == "平"
    ensures ScoreToFortune(-1.0) == "大凶" && ScoreToFortune(-2.0) == "大凶"
  {
  }

  /** The seven-entry level-to-score map; unknown labels give 0.0. */
  function FortuneToScore(lv: string): (r: real)
    ensures r in [2.0, 1.0, 0.5, 0.0, -0.5, -1.0, -2.0]
    ensures lv !in ["大吉", "吉", "小吉", "平", "小凶", "凶", "大凶"] ==> r == 0.0
    ensures lv == "大吉" ==> r == 2.0
    ensures lv == "大凶" ==> r == -2.0
  {
    if lv == "大吉" then 2.0 else if lv == "吉" then 1.0 else if lv == "小吉" then 0.5
    else if lv == "平" then 0.0 else if lv == "小凶" then -0.5 else if lv == "凶" then -1.0
    else if lv == "大凶" then -2.0 else 0.0
  }

  /** Which labels survive score-then-band unchanged: 大吉, 吉, 平 and 大凶 do; 凶 becomes 大凶
      and 小吉 becomes 中吉. */
  lemma FortuneScoreRoundTrip()
    ensures forall l :: l in ["大吉", "吉", "平", "大凶"] ==> ScoreToFortune(FortuneToScore(l)) == l
    ensures ScoreToFortune(FortuneToScore("凶")) == "大凶"
    ensures ScoreToFortune(FortuneToScore("小吉")) == "中吉"
  {
  }

  /** The seven-level verdict for one decade. */
  function AnalyzeDaeunFortune(an: Analyzer, dayStem: string, dayBranch: string, hourStem: string,
                               hourBranch: string, monthBranch: string, daeunStem: string,
                               daeunBranch: string): (r: string)
    ensures r in Levels
    ensures r == ScoreToFortune(TotalScore(an, dayStem, dayBranch, hourStem, hourBranch,
                                           monthBranch, daeunStem, daeunBranch))
  {
    ScoreToFortune(TotalScore(an, dayStem, dayBranch, hourStem, hourBranch, monthBranch, daeunStem, daeunBranch))
  }

  /** When both the day and the hour branch form a sangap with the decade branch, the branch
      matrix is never consulted: two analyzers differing only in it give the same verdict. */
  lemma SangapIgnoresJijiMatrix(an: Analyzer, jiji2: Matrix, dayStem: string, dayBranch: string,
                                hourStem: string, hourBranch: string, monthBranch: string,
                                daeunStem: string, daeunBranch: string)
    requires IsSangap(dayBranch, daeunBranch) && IsSangap(hourBranch, daeunBranch)
    ensures AnalyzeDaeunFortune(an, dayStem, dayBranch, hourStem, hourBranch, monthBranch, daeunStem, daeunBranch)
         == AnalyzeDaeunFortune(an.(jiji := jiji2), dayStem, dayBranch, hourStem, hourBranch, monthBranch,
                                daeunStem, daeunBranch)
  {
    var an2 := an.(jiji := jiji2);
    assert CheckTenganRelation(an, dayStem, daeunStem) == CheckTenganRelation(an2, dayStem, daeunStem);
    assert CheckTenganRelation(an, hourStem, daeunStem) == CheckTenganRelation(an2, hourStem, daeunStem);
    assert CheckJohoo(an, monthBranch, daeunBranch, dayStem) == CheckJohoo(an2, monthBranch, daeunBranch, dayStem);
    assert TotalScore(an, dayStem, dayBranch, hourStem, hourBranch, monthBranch, daeunStem, daeunBranch)
        == TotalScore(an2, dayStem, dayBranch, hourStem, hourBranch, monthBranch, daeunStem, daeunBranch);
  }

  /** Identical stems and identical branches are neutral whatever the tables hold. */
  lemma IdenticalIsNeutral(an: Analyzer, s: string, b: string)
    ensures CheckTenganRelation(an, s, s) == "平" && CheckJijiRelation(an, b, b) == "平"
  {
  }
}
