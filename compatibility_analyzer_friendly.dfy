/** The friendly compatibility analyzer: a simpler score over the same stem-relation matrix
    and seasons as the complete analyzer (day and month stems, seasons, and a bonus when
    both partners' decades travel the same way), after a flexible reading of the two
    birth datetimes. */
module CompatibilityAnalyzerFriendly {
  import opened Common
  import opened Calendar
  import Complete = CompatibilityAnalyzerComplete

  type Saju = Complete.Saju

  /** `calculate_daeun_direction`: 順行 or 逆行, or the ValueError of `list.index` for a year
      stem outside the alphabet. */
  function DaeunDirection(yearStem: string, gender: string): Result<string> {
    match IndexOf(Stems, yearStem)
    case None => Err("ValueError: is not in list")
    case Some(i) => Ok(if Complete.Forward(i, gender) then "順行" else "逆行")
  }

  /** 順行 exactly for a yang year stem and a man or a yin year stem and a woman; any other
      gender string always travels backward. */
  lemma DaeunDirectionSpec(yearStem: string, gender: string)
    ensures var r := DaeunDirection(yearStem, gender);
            (r.Err? <==> yearStem !in Stems) &&
            (r.Ok? ==> r.value == "順行" || r.value == "逆行") &&
            (r.Ok? && gender == "male" ==> (r.value == "順行" <==> IsYang(IndexOf(Stems, yearStem).value))) &&
            (r.Ok? && gender == "female" ==> (r.value == "順行" <==> !IsYang(IndexOf(Stems, yearStem).value))) &&
            (r.Ok? && gender != "male" && gender != "female" ==> r.value == "逆行")
  {
  }

  /** The season rule applied to both scores: +15 for opposite seasons, -5 for the same one
      (two unknown seasons count as the same), otherwise nothing. */
  function SeasonPoints(maleSeason: string, femaleSeason: string): (p: int)
    ensures p == 15 <==> femaleSeason in Complete.OppositeSeasons && maleSeason == Complete.OppositeSeasons[femaleSeason]
    ensures p == -5 <==> maleSeason == femaleSeason
    ensures p == 0 || p == 15 || p == -5
  {
    if femaleSeason in Complete.OppositeSeasons && maleSeason == Complete.OppositeSeasons[femaleSeason] then 15
    else if maleSeason == femaleSeason then -5
    else 0
  }

  /** Opposite seasons are opposite both ways round, so the rule is symmetric. */
  lemma SeasonPointsSymmetric(maleSeason: string, femaleSeason: string)
    ensures SeasonPoints(maleSeason, femaleSeason) == SeasonPoints(femaleSeason, maleSeason)
  {
  }

  /** A two-way rule on a relation label: `up` for 吉 (大吉 and 吉凶 included), else `down`
      for 凶. */
  function MarkPoints(mark: string, up: int, down: int): (p: int)
    ensures p == up || p == down || p == 0
    ensures Contains(mark, "吉") ==> p == up
    ensures !Contains(mark, "吉") ==> p == (if Contains(mark, "凶") then down else 0)
  {
    if Contains(mark, "吉") then up else if Contains(mark, "凶") then down else 0
  }

  /** One partner's points: day stem +30 / -20, month stem +15 / -10, the shared season rule
      and the shared direction bonus. */
  function SidePoints(me: Saju, partner: Saju, season: int, bonus: int): int {
    MarkPoints(Complete.RelationLabel(me.dayStem, partner.dayStem), 30, -20) +
    MarkPoints(Complete.RelationLabel(me.monthStem, partner.monthStem), 15, -10) +
    season + bonus
  }

  /** +10 to both when the two directions (the man read as male, the woman as female)
      coincide. */
  function DirectionBonus(male: Saju, female: Saju): Result<int> {
    var m := DaeunDirection(male.yearStem, "male");
    if m.Err? then Err(m.msg)
    else
      var f := DaeunDirection(female.yearStem, "female");
      if f.Err? then Err(f.msg)
      else Ok(if m.value == f.value then 10 else 0)
  }

  /** `calculate_score`: both scores from 50, or the ValueError of a year stem outside the
      alphabet. */
  function Scores(male: Saju, female: Saju): Result<(int, int)> {
    var season := SeasonPoints(Complete.SeasonOf(male.monthBranch), Complete.SeasonOf(female.monthBranch));
    match DirectionBonus(male, female)
    case Err(e) => Err(e)
    case Ok(bonus) => Ok((50 + SidePoints(male, female, season, bonus), 50 + SidePoints(female, male, season, bonus)))
  }

  /** `calculate_score`, updating the two scores rule by rule. */
  method CalculateScore(male: Saju, female: Saju) returns (r: Result<(int, int)>)
    ensures r == Scores(male, female)
  {
    var scoreMale, scoreFemale := StemRules(male, female);
    var maleSeason := Complete.SeasonOf(male.monthBranch);
    var femaleSeason := Complete.SeasonOf(female.monthBranch);
    if femaleSeason in Complete.OppositeSeasons && maleSeason == Complete.OppositeSeasons[femaleSeason] {
      scoreMale, scoreFemale := scoreMale + 15, scoreFemale + 15;
    } else if maleSeason == femaleSeason {
      scoreMale, scoreFemale := scoreMale - 5, scoreFemale - 5;
    }
    var maleDirection := DaeunDirection(male.yearStem, "male");
    if maleDirection.Err? {
      return Err(maleDirection.msg);
    }
    var femaleDirection := DaeunDirection(female.yearStem, "female");
    if femaleDirection.Err? {
      return Err(femaleDirection.msg);
    }
    if maleDirection.value == femaleDirection.value {
      scoreMale, scoreFemale := scoreMale + 10, scoreFemale + 10;
    }
    var bonus := if maleDirection.value == femaleDirection.value then 10 else 0;
    ScoresUnfold(male, female, SeasonPoints(maleSeason, femaleSeason), bonus);
    SidePointsSplit(male, female, SeasonPoints(maleSeason, femaleSeason), bonus);
    SidePointsSplit(female, male, SeasonPoints(maleSeason, femaleSeason), bonus);
    r := Ok((scoreMale, scoreFemale));
  }

  /** The day-stem and month-stem rules of `calculate_score`, from 50 each. */
  method StemRules(male: Saju, female: Saju) returns (scoreMale: int, scoreFemale: int)
    ensures scoreMale == 50 + SidePoints(male, female, 0, 0)
    ensures scoreFemale == 50 + SidePoints(female, male, 0, 0)
  {
    scoreMale, scoreFemale := 50, 50;
    var maleToFemale := Complete.RelationLabel(male.dayStem, female.dayStem);
    var femaleToMale := Complete.RelationLabel(female.dayStem, male.dayStem);
    scoreMale := scoreMale + MarkPoints(maleToFemale, 30, -20);
    scoreFemale := scoreFemale + MarkPoints(femaleToMale, 30, -20);
    var maleMonth := Complete.RelationLabel(male.monthStem, female.monthStem);
    var femaleMonth := Complete.RelationLabel(female.monthStem, male.monthStem);
    scoreMale := scoreMale + MarkPoints(maleMonth, 15, -10);
    scoreFemale := scoreFemale + MarkPoints(femaleMonth, 15, -10);
  }

  lemma SidePointsSplit(me: Saju, partner: Saju, season: int, bonus: int)
    ensures SidePoints(me, partner, season, bonus) == SidePoints(me, partner, 0, 0) + season + bonus
  {
  }

  /** The direction bonus is paid exactly when the two year stems differ in yin and yang. */
  lemma DirectionBonusIffOppositeParity(male: Saju, female: Saju)
    requires male.yearStem in Stems && female.yearStem in Stems
    ensures DirectionBonus(male, female).Ok?
    ensures DirectionBonus(male, female).value == 10 <==>
              IsYang(IndexOf(Stems, male.yearStem).value) != IsYang(IndexOf(Stems, female.yearStem).value)
    ensures DirectionBonus(male, female).value in {0, 10}
  {
    DaeunDirectionSpec(male.yearStem, "male");
    DaeunDirectionSpec(female.yearStem, "female");
  }

  /** Both scores lie in [15, 120]: 50, at most 30 + 15 + 15 + 10 more and at most
      20 + 10 + 5 less. */
  lemma ScoreBounds(male: Saju, female: Saju)
    ensures Scores(male, female).Ok? ==>
              15 <= Scores(male, female).value.0 <= 120 && 15 <= Scores(male, female).value.1 <= 120
  {
    var season := SeasonPoints(Complete.SeasonOf(male.monthBranch), Complete.SeasonOf(female.monthBranch));
    var bonus := DirectionBonus(male, female);
    if bonus.Ok? {
      assert bonus.value == 0 || bonus.value == 10;
      SidePointsBounds(male, female, season, bonus.value);
      SidePointsBounds(female, male, season, bonus.value);
      ScoresUnfold(male, female, season, bonus.value);
    }
  }

  /** One side's points lie in [-35, 70] whatever the two relation labels are. */
  lemma SidePointsBounds(me: Saju, partner: Saju, season: int, bonus: int)
    requires season == 15 || season == -5 || season == 0
    requires bonus == 0 || bonus == 10
    ensures -35 <= SidePoints(me, partner, season, bonus) <= 70
  {
    var day := MarkPoints(Complete.RelationLabel(me.dayStem, partner.dayStem), 30, -20);
    var month := MarkPoints(Complete.RelationLabel(me.monthStem, partner.monthStem), 15, -10);
    assert SidePoints(me, partner, season, bonus) == day + month + season + bonus;
  }

  /** The season rule and the direction bonus are the same for both partners, so swapping
      them swaps the two scores. */
  lemma ScoresSymmetric(male: Saju, female: Saju)
    ensures Scores(male, female).Ok? <==> Scores(female, male).Ok?
    ensures Scores(male, female).Ok? ==>
              Scores(female, male).value == (Scores(male, female).value.1, Scores(male, female).value.0)
  {
    var ms, fs := Complete.SeasonOf(male.monthBranch), Complete.SeasonOf(female.monthBranch);
    SeasonPointsSymmetric(ms, fs);
    var season := SeasonPoints(ms, fs);
    if male.yearStem in Stems && female.yearStem in Stems {
      DirectionBonusIffOppositeParity(male, female);
      DirectionBonusIffOppositeParity(female, male);
      var bonus := DirectionBonus(male, female).value;
      ScoresUnfold(male, female, season, bonus);
      ScoresUnfold(female, male, season, bonus);
    } else {
      assert DirectionBonus(male, female).Err? && DirectionBonus(female, male).Err?;
    }
  }

  /** `Scores` once the season rule and the direction bonus are known. */
  lemma ScoresUnfold(male: Saju, female: Saju, season: int, bonus: int)
    requires season == SeasonPoints(Complete.SeasonOf(male.monthBranch), Complete.SeasonOf(female.monthBranch))
    requires DirectionBonus(male, female) == Ok(bonus)
    ensures Scores(male, female) == Ok((50 + SidePoints(male, female, season, bonus), 50 + SidePoints(female, male, season, bonus)))
  {
  }

  /** A stem outside the matrix (for instance an empty chart field) relates neutrally:
      ('平', '一般関係') carries neither 吉 nor 凶, so it moves no score. */
  lemma UnknownPairIsNeutral(own: string, other: string)
    requires own !in Stems || other !in Stems
    ensures Complete.CheonganRelation(own, other) == ("平", "一般関係")
    ensures MarkPoints(Complete.RelationLabel(own, other), 30, -20) == 0
  {
    Complete.CheonganRelationOffStems(own, other);
    Complete.ContainsChar("平", '吉');
    Complete.ContainsChar("平", '凶');
  }
}
