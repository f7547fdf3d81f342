/** The final study script: a five-element reading of two stems (same stem, generating,
    controlling or neutral) and a hand-made decade plan with a fixed starting age of 5. */
module DonsagongFinalAnalysis {
  import opened Common
  import Complete = CompatibilityAnalyzerComplete
  import Api = ApiDaeunCalculator
  import New = NewCompatibilityAnalysis

  /** The element of each stem: consecutive stems share one. */
  const StemElements: map<string, Element> :=
    map["甲" := Wood, "乙" := Wood, "丙" := Fire, "丁" := Fire, "戊" := Earth,
        "己" := Earth, "庚" := Metal, "辛" := Metal, "壬" := Water, "癸" := Water]

  /** The generating cycle: wood feeds fire feeds earth feeds metal feeds water feeds wood. */
  const Generation: map<(Element, Element), (string, string)> :=
    map[(Wood, Fire) := ("목생화", "생"), (Fire, Earth) := ("화생토", "생"), (Earth, Metal) := ("토생금", "생"),
        (Metal, Water) := ("금생수", "생"), (Water, Wood) := ("수생목", "생")]

  /** The controlling cycle: wood controls earth controls water controls fire controls metal
      controls wood. */
  const Control: map<(Element, Element), (string, string)> :=
    map[(Wood, Earth) := ("목극토", "극"), (Earth, Water) := ("토극수", "극"), (Water, Fire) := ("수극화", "극"),
        (Fire, Metal) := ("화극금", "극"), (Metal, Wood) := ("금극목", "극")]

  /** `analyze_cheongan_relation`: (description, type). The same stem is 비견 before any
      lookup; otherwise a stem without an element raises KeyError (the first one first);
      then the generating pair either way round, the controlling pair either way round, and
      neutral for two stems of one element. */
  function ElementRelation(stem1: string, stem2: string): Result<(string, string)> {
    if stem1 == stem2 then Ok(("비견", "중립"))
    else if stem1 !in StemElements then Err("KeyError: " + stem1)
    else if stem2 !in StemElements then Err("KeyError: " + stem2)
    else
      var e1, e2 := StemElements[stem1], StemElements[stem2];
      if (e1, e2) in Generation then Ok(Generation[(e1, e2)])
      else if (e2, e1) in Generation then Ok((Generation[(e2, e1)].0 + " (피생)", "생"))
      else if (e1, e2) in Control then Ok(Control[(e1, e2)])
      else if (e2, e1) in Control then Ok((Control[(e2, e1)].0 + " (피극)", "극"))
      else Ok(("동일 오행", "중립"))
  }

  /** The position of an element in generating order: each feeds the next, water feeding
      wood again. */
  function Position(e: Element): (k: int)
    ensures 0 <= k < 5
  {
    match e
    case Wood => 0
    case Fire => 1
    case Earth => 2
    case Metal => 3
    case Water => 4
  }

  /** The element map covers exactly the stems. */
  lemma StemElementsSpec(stem: string)
    ensures stem in StemElements <==> stem in Stems
  {
  }

  /** Equal stems, or one that is not a stem, decide the result before any cycle is read. */
  lemma ElementRelationFails(stem1: string, stem2: string)
    ensures stem1 == stem2 ==> ElementRelation(stem1, stem2) == Ok(("비견", "중립"))
    ensures ElementRelation(stem1, stem2).Err? <==> stem1 != stem2 && (stem1 !in Stems || stem2 !in Stems)
  {
    StemElementsSpec(stem1);
    StemElementsSpec(stem2);
  }

  /** The two cycles read as steps in generating order: generation is one step forward
      and control two steps forward. */
  lemma CyclesByDistance(e1: Element, e2: Element)
    ensures (e1, e2) in Generation <==> (Position(e2) - Position(e1)) % 5 == 1
    ensures (e1, e2) in Control <==> (Position(e2) - Position(e1)) % 5 == 2
  {
  }

  /** For two different stems the type follows the distance `d` from the first stem's element
      to the second's in generating order: one step either way is 생, two steps either way is
      극, none is 중립. */
  lemma ElementRelationByDistance(stem1: string, stem2: string)
    requires stem1 in Stems && stem2 in Stems && stem1 != stem2
    ensures stem1 in StemElements && stem2 in StemElements
    ensures var d := (Position(StemElements[stem2]) - Position(StemElements[stem1])) % 5;
            var t := ElementRelation(stem1, stem2).value.1;
            (t == "생" <==> d == 1 || d == 4) &&
            (t == "극" <==> d == 2 || d == 3) &&
            (t == "중립" <==> d == 0)
  {
    StemElementsSpec(stem1);
    StemElementsSpec(stem2);
    var e1, e2 := StemElements[stem1], StemElements[stem2];
    CyclesByDistance(e1, e2);
    CyclesByDistance(e2, e1);
    StepsBack(Position(e1), Position(e2));
    assert Position(e1) == Position(e2) ==> e1 == e2;
  }

  /** Steps forward from `a` to `b` against steps forward from `b` to `a` on a cycle of five. */
  lemma StepsBack(a: int, b: int)
    requires 0 <= a < 5 && 0 <= b < 5
    ensures (b - a) % 5 == 4 <==> (a - b) % 5 == 1
    ensures (b - a) % 5 == 3 <==> (a - b) % 5 == 2
    ensures (b - a) % 5 == 0 <==> a == b
  {
  }

  /** The type does not depend on the order of the two stems. */
  lemma ElementRelationSymmetric(stem1: string, stem2: string)
    ensures ElementRelation(stem1, stem2).Err? <==> ElementRelation(stem2, stem1).Err?
    ensures ElementRelation(stem1, stem2).Ok? ==>
              ElementRelation(stem1, stem2).value.1 == ElementRelation(stem2, stem1).value.1
  {
    ElementRelationFails(stem1, stem2);
    ElementRelationFails(stem2, stem1);
    if stem1 in Stems && stem2 in Stems && stem1 != stem2 {
      ElementRelationByDistance(stem1, stem2);
      ElementRelationByDistance(stem2, stem1);
    }
  }

  /** The step of the manual plan: forward for a yang year and a man or a yin year and a
      woman, backward otherwise. */
  function ManualStep(s: Complete.Saju, gender: string): int
    requires s.yearStem in Stems
  {
    if Complete.Forward(IndexOf(Stems, s.yearStem).value, gender) then 1 else -1
  }

  /** `calculate_manual_daeun` as a value: eight decades from age 5, labelled 순행 or 역행,
      or the ValueError of `list.index` for a year stem, month stem or month branch outside
      its alphabet. */
  function ManualDaeunPlan(s: Complete.Saju, gender: string): Result<New.SimpleDaeun> {
    if s.yearStem !in Stems || s.monthStem !in Stems || s.monthBranch !in Branches then
      Err("ValueError: is not in list")
    else
      var step := ManualStep(s, gender);
      Ok(New.SimpleDaeun(if step == 1 then "순행" else "역행", 5,
                         Api.DaeunPrefix(5, IndexOf(Stems, s.monthStem).value, IndexOf(Branches, s.monthBranch).value,
                                         step, New.Decades)))
  }

  /** `calculate_manual_daeun`: the same loop as the simplified plan, from age 5. */
  method CalculateManualDaeun(s: Complete.Saju, gender: string) returns (r: Result<New.SimpleDaeun>)
    ensures r == ManualDaeunPlan(s, gender)
  {
    var y := IndexOf(Stems, s.yearStem);
    if y.None? {
      return Err("ValueError: is not in list");
    }
    var step := if Complete.Forward(y.value, gender) then 1 else -1;
    var ms := IndexOf(Stems, s.monthStem);
    var mb := IndexOf(Branches, s.monthBranch);
    if ms.None? || mb.None? {
      return Err("ValueError: is not in list");
    }
    var daeunList := New.BuildDecades(5, ms.value, mb.value, step);
    r := Ok(New.SimpleDaeun(if step == 1 then "순행" else "역행", 5, daeunList));
  }

  /** The plan fails exactly when the year stem, the month stem or the month branch is unknown. */
  lemma ManualDaeunFails(s: Complete.Saju, gender: string)
    ensures ManualDaeunPlan(s, gender).Err? <==>
              s.yearStem !in Stems || s.monthStem !in Stems || s.monthBranch !in Branches
  {
  }

  /** A successful plan is labelled 순행 exactly when a yang year meets a man or a yin year a
      woman. */
  lemma ManualDaeunDirection(s: Complete.Saju, gender: string)
    requires ManualDaeunPlan(s, gender).Ok?
    ensures ManualDaeunPlan(s, gender).value.direction == "순행" <==>
              (IsYang(IndexOf(Stems, s.yearStem).value) && gender == "male") ||
              (!IsYang(IndexOf(Stems, s.yearStem).value) && gender == "female")
  {
    assert "순행"[0] != "역행"[0];
  }

  /** A successful plan has eight ten-year decades from age 5, the i-th moving the month
      pillar i + 1 steps in the plan's direction. */
  lemma ManualDaeunShape(s: Complete.Saju, gender: string)
    requires ManualDaeunPlan(s, gender).Ok?
    ensures ManualDaeunPlan(s, gender).value.startAge == 5
    ensures |ManualDaeunPlan(s, gender).value.daeunList| == 8
    ensures forall i :: 0 <= i < 8 ==>
              New.DecadeAt(ManualDaeunPlan(s, gender).value.daeunList[i], i, 5, IndexOf(Stems, s.monthStem).value,
                           IndexOf(Branches, s.monthBranch).value, ManualStep(s, gender))
  {
    var p := ManualDaeunPlan(s, gender).value;
    var ms, mb := IndexOf(Stems, s.monthStem).value, IndexOf(Branches, s.monthBranch).value;
    var step := ManualStep(s, gender);
    assert p.daeunList == Api.DaeunPrefix(5, ms, mb, step, New.Decades);
    forall i | 0 <= i < 8
      ensures New.DecadeAt(p.daeunList[i], i, 5, ms, mb, step)
    {
      New.BlockShape(5, ms, mb, step, i);
    }
  }
}
