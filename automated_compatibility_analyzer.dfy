/** The Korean automated compatibility analyzer: the friendly analyzer's score (day and
    month stems, seasons, and a bonus when both partners' decades travel the same way)
    over its own Korean-labelled stem matrix (길 good, 흉 bad), Korean season names and
    a single-pattern input. */
module AutomatedCompatibilityAnalyzer {
  import opened Common
  import Complete = CompatibilityAnalyzerComplete
  import opened Calendar
  import InputParsing

  type Saju = Complete.Saju

  /** The stem-relation matrix (own day stem, then the other stem), held as its labels
      and its notes. */
const CheonganLabels: map<string, map<string, string>> := map[
    "甲" := map[
        "甲" := "평", "乙" := "흉", "丙" := "길", "丁" := "길흉", "戊" := "길",
        "己" := "대흉", "庚" := "대흉", "辛" := "흉", "壬" := "흉", "癸" := "길흉"],
    "乙" := map[
        "甲" := "길", "乙" := "평", "丙" := "대길", "丁" := "길흉", "戊" := "길",
        "己" := "길", "庚" := "대흉", "辛" := "흉", "壬" := "흉", "癸" := "길흉"],
    "丙" := map[
        "甲" := "길", "乙" := "길", "丙" := "평", "丁" := "흉", "戊" := "무",
        "己" := "무", "庚" := "흉", "辛" := "대흉", "壬" := "길", "癸" := "길흉"],
    "丁" := map[
        "甲" := "길", "乙" := "길", "丙" := "흉", "丁" := "평", "戊" := "길",
        "己" := "길", "庚" := "길", "辛" := "길", "壬" := "흉", "癸" := "흉"],
    "戊" := map[
        "甲" := "대길", "乙" := "소길", "丙" := "길", "丁" := "길흉", "戊" := "평",
        "己" := "흉", "庚" := "흉", "辛" := "흉", "壬" := "평", "癸" := "대흉"],
    "己" := map[
        "甲" := "흉", "乙" := "길", "丙" := "길", "丁" := "길", "戊" := "흉",
        "己" := "평", "庚" := "흉", "辛" := "흉", "壬" := "흉", "癸" := "평"],
    "庚" := map[
        "甲" := "길", "乙" := "흉", "丙" := "길", "丁" := "길", "戊" := "길",
        "己" := "길", "庚" := "평", "辛" := "흉", "壬" := "길", "癸" := "길흉"],
    "辛" := map[
        "甲" := "흉", "乙" := "길", "丙" := "대길", "丁" := "길", "戊" := "흉",
        "己" := "흉", "庚" := "흉", "辛" := "평", "壬" := "길", "癸" := "길"],
    "壬" := map[
        "甲" := "길", "乙" := "길", "丙" := "흉", "丁" := "흉", "戊" := "평",
        "己" := "흉", "庚" := "길", "辛" := "길", "壬" := "평", "癸" := "흉"],
    "癸" := map[
        "甲" := "길", "乙" := "길", "丙" := "길흉", "丁" := "흉", "戊" := "대흉",
        "己" := "평", "庚" := "길", "辛" := "길", "壬" := "흉", "癸" := "평"]
  ]

  const CheonganNotes: map<string, map<string, string>> := map[
    "甲" := map[
        "甲" := "원국 함께 있을 때 흉", "乙" := "을이 갑을 타고 올라서 뺏긴다",
        "丙" := "부명이 되게 한다", "丁" := "계절에 따라 다름",
        "戊" := "귀명", "己" := "갑기합. 나무를 쓰러뜨린다",
        "庚" := "갑경충. 나무를 쪼갠다", "辛" := "예의 있어지나 신경질적",
        "壬" := "병치례", "癸" := "수생목, 목을 강하게"],
    "乙" := map[
        "甲" := "동료제감 - 갑목을 타고 오른다", "乙" := "원국 함께 있을 때 흉",
        "丙" := "꽃이 태양을 만나 귀해진다", "丁" := "계절에 따라 다름",
        "戊" := "바람을 막아서 부가 된다", "己" := "들판에 꽃이 되기에 좋다",
        "庚" := "을경합. 꽃이 죽는다", "辛" := "가위로 꽃을 자른다",
        "壬" := "물을 줘서 꽃을 키운다", "癸" := "이슬을 줘서 더욱 예쁜 꽃"],
    "丙" := map[
        "甲" := "합일이 생김 - 나무를 키움", "乙" := "합일이 생김 - 꽃을 키움",
        "丙" := "원국 함께 있을 때 흉", "丁" := "불, 여름은 이기고 가을겨울은 당한다",
        "戊" := "감탄이 있어야 가치가 있다", "己" := "태양으로 乙을 키우니 가치가 적다",
        "庚" := "병경합. 태양이 철에 의해 꺼진다", "辛" := "병신합. 빛이 의미 없어진다",
        "壬" := "해결사 역할", "癸" := "계절에 따라 다름"],
    "丁" := map[
        "甲" := "등불이 나무를 밝힌다", "乙" := "꽃과 등불의 조화",
        "丙" := "태양에 등불이 무의미", "丁" := "원국 함께 있을 때 흉",
        "戊" := "화생토", "己" := "화생토",
        "庚" := "정화가 금을 단련", "辛" := "보석을 만든다",
        "壬" := "물이 불을 끈다", "癸" := "이슬이 등불을 끈다"],
    "戊" := map[
        "甲" := "산에 나무가 자라 명산이 된다. 부명", "乙" := "큰 산이 묘목을 만나 아산으로",
        "丙" := "화생토, 강하게 해준다", "丁" := "강하게 해준다. 목과 같이 있으면 안됨",
        "戊" := "원국 함께 있을 때 흉", "己" := "산이 땅에 내려왔다. 격이 낮아짐",
        "庚" := "토생금 해서 밑이주느라 힘 빠진다", "辛" := "감목은 약하게, 을목은 깨진다",
        "壬" := "댐처럼 산이 강을 막아냄", "癸" := "무계합. 병화를 없애서 안 좋다"],
    "己" := map[
        "甲" := "갑기합. 욕심부리게 만든다", "乙" := "들판에 꽃을 피울 수 있다",
        "丙" := "乙이오면 수확물이 생긴다", "丁" := "화생토. 가을겨울에는 필요",
        "戊" := "언제든 당할 위험이 있다", "己" := "원국 함께 있을 때 흉",
        "庚" := "감목이 우박을 맞는다", "辛" := "감목이 우박을 맞는다",
        "壬" := "물바다 된다", "癸" := "제방, 둑과 같다"],
    "庚" := map[
        "甲" := "정화 같이 있으면 매우 길", "乙" := "을경합. 서로 피곤하다",
        "丙" := "찬 金의 성향이 따뜻해진다", "丁" := "내가 기물이 되어 용도가 좋아진다",
        "戊" := "토생금 되어 힘이 강해진다, 약간 우둔", "己" := "토생금 되어 힘이 강해진다",
        "庚" := "원국 함께 있을 때 흉", "辛" := "내 것을 나누어 먹으니 좋지 않다",
        "壬" := "물을 만들어 낸다", "癸" := "물을 만들어내나 나도 녹슨다"],
    "辛" := map[
        "甲" := "보석이 나무에 묻힌다", "乙" := "보석이 꽃을 장식",
        "丙" := "병신합. 보석이 빛난다", "丁" := "정화가 보석을 단련",
        "戊" := "보석이 흙에 묻힌다", "己" := "보석이 더러워진다",
        "庚" := "큰 금이 작은 금을 압도", "辛" := "원국 함께 있을 때 흉",
        "壬" := "금생수", "癸" := "금생수"],
    "壬" := map[
        "甲" := "수생목", "乙" := "수생목",
        "丙" := "수극화", "丁" := "수극화",
        "戊" := "토극수이지만 댐 역할", "己" := "토극수",
        "庚" := "금생수", "辛" := "금생수",
        "壬" := "원국 함께 있을 때 흉", "癸" := "큰 물이 작은 물을 흡수"],
    "癸" := map[
        "甲" := "수생목", "乙" := "수생목",
        "丙" := "계절에 따라 다름", "丁" := "이슬이 등불을 끈다",
        "戊" := "무계합", "己" := "기토가 계수를 막음",
        "庚" := "금생수", "辛" := "금생수",
        "壬" := "작은 물이 큰 물에 흡수", "癸" := "원국 함께 있을 때 흉"]
  ]

  /** The label half of `analyze_cheongan_relation`. */
  function RelationLabel(own: string, other: string): string {
    if own in CheonganLabels && other in CheonganLabels[own] then CheonganLabels[own][other] else "평"
  }

  /** The note half of `analyze_cheongan_relation`, present exactly where the label is. */
  function RelationNote(own: string, other: string): string {
    if own in CheonganLabels && other in CheonganLabels[own] && own in CheonganNotes && other in CheonganNotes[own]
    then CheonganNotes[own][other]
    else "일반 관계"
  }

  /** `analyze_cheongan_relation`: the matrix entry, or ('평', '일반 관계') for a pair outside it. */
  function CheonganRelation(own: string, other: string): (string, string) {
    (RelationLabel(own, other), RelationNote(own, other))
  }

  /** Every pair of stems has an entry in both halves of the matrix. */
  lemma CheonganRelationOnStems(own: string, other: string)
    requires own in Stems && other in Stems
    ensures own in CheonganLabels && other in CheonganLabels[own]
    ensures own in CheonganNotes && other in CheonganNotes[own]
    ensures CheonganRelation(own, other) == (CheonganLabels[own][other], CheonganNotes[own][other])
  {
  }

  /** A pair with a non-stem falls back to ('평', '일반 관계'). */
  lemma CheonganRelationOffStems(own: string, other: string)
    requires own !in Stems || other !in Stems
    ensures CheonganRelation(own, other) == ("평", "일반 관계")
  {
    LabelKeys();
  }

  /** The matrix has exactly the stems as rows and as columns. */
  lemma LabelKeys()
    ensures CheonganLabels.Keys == set s | s in Stems
    ensures forall own :: own in CheonganLabels ==> CheonganLabels[own].Keys == set s | s in Stems
  {
  }

  /** `get_season_from_branch`: three branches per season, 미상 for anything else. */
  function SeasonOf(branch: string): string {
    if branch == "寅" || branch == "卯" || branch == "辰" then "봄"
    else if branch == "巳" || branch == "午" || branch == "未" then "여름"
    else if branch == "申" || branch == "酉" || branch == "戌" then "가을"
    else if branch == "亥" || branch == "子" || branch == "丑" then "겨울"
    else "미상"
  }

  /** Each season comes from exactly three branches; 미상 exactly from a non-branch. */
  lemma SeasonOfSpec(branch: string)
    ensures SeasonOf(branch) == "봄" <==> branch == "寅" || branch == "卯" || branch == "辰"
    ensures SeasonOf(branch) == "여름" <==> branch == "巳" || branch == "午" || branch == "未"
    ensures SeasonOf(branch) == "가을" <==> branch == "申" || branch == "酉" || branch == "戌"
    ensures SeasonOf(branch) == "겨울" <==> branch == "亥" || branch == "子" || branch == "丑"
    ensures SeasonOf(branch) == "미상" <==> branch !in Branches
  {
  }

  const OppositeSeasons: map<string, string> := map["봄" := "가을", "여름" := "겨울", "가을" := "봄", "겨울" := "여름"]

  /** The season rule applied to both scores: +15 for opposite seasons, -5 for the same one
      (two unknown seasons count as the same), otherwise nothing. */
  function SeasonPoints(maleSeason: string, femaleSeason: string): (p: int)
    ensures p == 15 <==> femaleSeason in OppositeSeasons && maleSeason == OppositeSeasons[femaleSeason]
    ensures p == -5 <==> maleSeason == femaleSeason
    ensures p == 0 || p == 15 || p == -5
  {
    if femaleSeason in OppositeSeasons && maleSeason == OppositeSeasons[femaleSeason] then 15
    else if maleSeason == femaleSeason then -5
    else 0
  }

  /** Opposite seasons are opposite both ways round, so the rule is symmetric. */
  lemma SeasonPointsSymmetric(maleSeason: string, femaleSeason: string)
    ensures SeasonPoints(maleSeason, femaleSeason) == SeasonPoints(femaleSeason, maleSeason)
  {
  }

  /** `calculate_daeun_direction`: 순행 or 역행, or the ValueError of `list.index` for a year
      stem outside the alphabet. */
  function DaeunDirection(yearStem: string, gender: string): Result<string> {
    match IndexOf(Stems, yearStem)
    case None => Err("ValueError: is not in list")
    case Some(i) => Ok(if Complete.Forward(i, gender) then "순행" else "역행")
  }

  /** 순행 exactly for a yang year stem and a man or a yin year stem and a woman. */
  lemma DaeunDirectionSpec(yearStem: string, gender: string)
    ensures var r := DaeunDirection(yearStem, gender);
            (r.Err? <==> yearStem !in Stems) &&
            (r.Ok? ==> r.value == "순행" || r.value == "역행") &&
            (r.Ok? && gender == "male" ==> (r.value == "순행" <==> IsYang(IndexOf(Stems, yearStem).value))) &&
            (r.Ok? && gender == "female" ==> (r.value == "순행" <==> !IsYang(IndexOf(Stems, yearStem).value))) &&
            (r.Ok? && gender != "male" && gender != "female" ==> r.value == "역행")
  {
  }

  /** `check_donsagong_principles`: neither the branch rule nor the year-stem rule is
      checked automatically, so no violation is ever reported. */
  function CheckDonsagongPrinciples(male: Saju, female: Saju): (violations: seq<string>)
    ensures |violations| == 0
  {
    []
  }

  /** A two-way rule on a relation label: `up` for 길 (대길, 소길 and 길흉 included), else
      `down` for 흉. */
  function MarkPoints(mark: string, up: int, down: int): (p: int)
    ensures p == up || p == down || p == 0
    ensures Contains(mark, "길") ==> p == up
    ensures !Contains(mark, "길") ==> p == (if Contains(mark, "흉") then down else 0)
  {
    if Contains(mark, "길") then up else if Contains(mark, "흉") then down else 0
  }

  /** One partner's points: day stem +30 / -20, month stem +15 / -10, the shared season rule
      and the shared direction bonus. */
  function SidePoints(me: Saju, partner: Saju, season: int, bonus: int): int {
    MarkPoints(RelationLabel(me.dayStem, partner.dayStem), 30, -20) +
    MarkPoints(RelationLabel(me.monthStem, partner.monthStem), 15, -10) +
    season + bonus
  }

  /** +10 to both when the two directions (the man read as male, the woman as female)
      coincide. */
  function DirectionBonus(male: Saju, female: Saju): Result<int> {
    var m := DaeunDirection(male.yearStem, "male");
    if m.Err? then Err(m.msg)
    else
      var f := DaeunDirection(female.yearStem, "female");
      if f.Err? then Err(f.msg)
      else Ok(if m.value == f.value then 10 else 0)
  }

  /** `calculate_score`: both scores from 50, or the ValueError of a year stem outside the
      alphabet. */
  function Scores(male: Saju, female: Saju): Result<(int, int)> {
    var season := SeasonPoints(SeasonOf(male.monthBranch), SeasonOf(female.monthBranch));
    match DirectionBonus(male, female)
    case Err(e) => Err(e)
    case Ok(bonus) => Ok((50 + SidePoints(male, female, season, bonus), 50 + SidePoints(female, male, season, bonus)))
  }

  /** `calculate_score`, updating the two scores rule by rule. */
  method CalculateScore(male: Saju, female: Saju) returns (r: Result<(int, int)>)
    ensures r == Scores(male, female)
  {
    var scoreMale, scoreFemale := StemRules(male, female);
    var maleSeason := SeasonOf(male.monthBranch);
    var femaleSeason := SeasonOf(female.monthBranch);
    if femaleSeason in OppositeSeasons && maleSeason == OppositeSeasons[femaleSeason] {
      scoreMale, scoreFemale := scoreMale + 15, scoreFemale + 15;
    } else if maleSeason == femaleSeason {
      scoreMale, scoreFemale := scoreMale - 5, scoreFemale - 5;
    }
    var maleDirection := DaeunDirection(male.yearStem, "male");
    if maleDirection.Err? {
      return Err(maleDirection.msg);
    }
    var femaleDirection := DaeunDirection(female.yearStem, "female");
    if femaleDirection.Err? {
      return Err(femaleDirection.msg);
    }
    if maleDirection.value == femaleDirection.value {
      scoreMale, scoreFemale := scoreMale + 10, scoreFemale + 10;
    }
    var bonus := if maleDirection.value == femaleDirection.value then 10 else 0;
    ScoresUnfold(male, female, SeasonPoints(maleSeason, femaleSeason), bonus);
    SidePointsSplit(male, female, SeasonPoints(maleSeason, femaleSeason), bonus);
    SidePointsSplit(female, male, SeasonPoints(maleSeason, femaleSeason), bonus);
    r := Ok((scoreMale, scoreFemale));
  }

  /** The day-stem and month-stem rules of `calculate_score`, from 50 each. */
  method StemRules(male: Saju, female: Saju) returns (scoreMale: int, scoreFemale: int)
    ensures scoreMale == 50 + SidePoints(male, female, 0, 0)
    ensures scoreFemale == 50 + SidePoints(female, male, 0, 0)
  {
    scoreMale, scoreFemale := 50, 50;
    var maleToFemale := RelationLabel(male.dayStem, female.dayStem);
    var femaleToMale := RelationLabel(female.dayStem, male.dayStem);
    scoreMale := scoreMale + MarkPoints(maleToFemale, 30, -20);
    scoreFemale := scoreFemale + MarkPoints(femaleToMale, 30, -20);
    var maleMonth := RelationLabel(male.monthStem, female.monthStem);
    var femaleMonth := RelationLabel(female.monthStem, male.monthStem);
    scoreMale := scoreMale + MarkPoints(maleMonth, 15, -10);
    scoreFemale := scoreFemale + MarkPoints(femaleMonth, 15, -10);
  }

  lemma SidePointsSplit(me: Saju, partner: Saju, season: int, bonus: int)
    ensures SidePoints(me, partner, season, bonus) == SidePoints(me, partner, 0, 0) + season + bonus
  {
  }

  /** The direction bonus is paid exactly when the two year stems differ in yin and yang. */
  lemma DirectionBonusIffOppositeParity(male: Saju, female: Saju)
    requires male.yearStem in Stems && female.yearStem in Stems
    ensures DirectionBonus(male, female).Ok?
    ensures DirectionBonus(male, female).value == 10 <==>
              IsYang(IndexOf(Stems, male.yearStem).value) != IsYang(IndexOf(Stems, female.yearStem).value)
    ensures DirectionBonus(male, female).value in {0, 10}
  {
    DaeunDirectionSpec(male.yearStem, "male");
    DaeunDirectionSpec(female.yearStem, "female");
  }

  /** Both scores lie in [15, 120]: 50, at most 30 + 15 + 15 + 10 more and at most
      20 + 10 + 5 less. */
  lemma ScoreBounds(male: Saju, female: Saju)
    ensures Scores(male, female).Ok? ==>
              15 <= Scores(male, female).value.0 <= 120 && 15 <= Scores(male, female).value.1 <= 120
  {
    var season := SeasonPoints(SeasonOf(male.monthBranch), SeasonOf(female.monthBranch));
    var bonus := DirectionBonus(male, female);
    if bonus.Ok? {
      assert bonus.value == 0 || bonus.value == 10;
      SidePointsBounds(male, female, season, bonus.value);
      SidePointsBounds(female, male, season, bonus.value);
      ScoresUnfold(male, female, season, bonus.value);
    }
  }

  /** One side's points lie in [-35, 70] whatever the two relation labels are. */
  lemma SidePointsBounds(me: Saju, partner: Saju, season: int, bonus: int)
    requires season == 15 || season == -5 || season == 0
    requires bonus == 0 || bonus == 10
    ensures -35 <= SidePoints(me, partner, season, bonus) <= 70
  {
    var day := MarkPoints(RelationLabel(me.dayStem, partner.dayStem), 30, -20);
    var month := MarkPoints(RelationLabel(me.monthStem, partner.monthStem), 15, -10);
    assert SidePoints(me, partner, season, bonus) == day + month + season + bonus;
  }

  /** The season rule and the direction bonus are the same for both partners, so swapping
      them swaps the two scores. */
  lemma ScoresSymmetric(male: Saju, female: Saju)
    ensures Scores(male, female).Ok? <==> Scores(female, male).Ok?
    ensures Scores(male, female).Ok? ==> Scores(female, male).value == (Scores(male, female).value.1, Scores(male, female).value.0)
  {
    var ms, fs := SeasonOf(male.monthBranch), SeasonOf(female.monthBranch);
    SeasonPointsSymmetric(ms, fs);
    var season := SeasonPoints(ms, fs);
    if male.yearStem in Stems && female.yearStem in Stems {
      DirectionBonusIffOppositeParity(male, female);
      DirectionBonusIffOppositeParity(female, male);
      var bonus := DirectionBonus(male, female).value;
      ScoresUnfold(male, female, season, bonus);
      ScoresUnfold(female, male, season, bonus);
    } else {
      assert DirectionBonus(male, female).Err? && DirectionBonus(female, male).Err?;
    }
  }

  /** `Scores` once the season rule and the direction bonus are known. */
  lemma ScoresUnfold(male: Saju, female: Saju, season: int, bonus: int)
    requires season == SeasonPoints(SeasonOf(male.monthBranch), SeasonOf(female.monthBranch))
    requires DirectionBonus(male, female) == Ok(bonus)
    ensures Scores(male, female) == Ok((50 + SidePoints(male, female, season, bonus), 50 + SidePoints(female, male, season, bonus)))
  {
  }

  /** A stem outside the matrix relates neutrally: ('평', '일반 관계') carries neither 길
      nor 흉, so it moves no score. */
  lemma UnknownPairIsNeutral(own: string, other: string)
    requires own !in Stems || other !in Stems
    ensures CheonganRelation(own, other) == ("평", "일반 관계")
    ensures MarkPoints(RelationLabel(own, other), 30, -20) == 0
  {
    CheonganRelationOffStems(own, other);
    Complete.ContainsChar("평", '길');
    Complete.ContainsChar("평", '흉');
  }

  const NoMatch := "ValueError: 입력 형식이 잘못되었습니다. 예: 남성 1986/5/26/5시, 여성 1986/12/20/0시"
  const BadDate := "ValueError: 유효하지 않은 날짜입니다: "

  /** `parse_input`: one pattern; no match and an impossible date (the man's checked first)
      raise their own ValueErrors. */
  function ParseInput(m: Option<InputParsing.Captures>): (r: Result<(Civil, Civil)>)
    ensures r.Ok? <==> m.Some? && InputParsing.Usable(m.value)
    ensures r.Ok? ==> r.value == (InputParsing.AsCivil(m.value.male), InputParsing.AsCivil(m.value.female))
    ensures m.None? ==> r == Err(NoMatch)
    ensures m.Some? && !ValidCivil(InputParsing.AsCivil(m.value.male)) ==>
              r == Err(BadDate + InputParsing.DatetimeError(m.value.male))
  {
    InputParsing.ParseSingle(m, NoMatch, BadDate)
  }
}
