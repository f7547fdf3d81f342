/** The one-off compatibility study: two single rows of the stem matrix (a 戊 and a 庚 day
    stem meeting other stems) and a simplified decade plan with a fixed starting age of 6.
    Its season lookup and direction rule are those of the complete and friendly analyzers
    (modules CompatibilityAnalyzerComplete and CompatibilityAnalyzerFriendly). */
module NewCompatibilityAnalysis {
  import opened Common
  import Complete = CompatibilityAnalyzerComplete
  import Friendly = CompatibilityAnalyzerFriendly
  import Api = ApiDaeunCalculator
  import ManseryeokCalculator

  /** The rows for a 戊 and for a 庚 day stem: other stem to (label, note). */
  const MuMatrix: map<string, (string, string)> := map[
    "甲" := ("大吉", "山に木が育ち名山になる。富命"),
    "乙" := ("小吉", "大きな山が苗木に出会い小山になった"),
    "丙" := ("吉", "火生土、強くしてくれる"),
    "丁" := ("吉凶", "強くしてくれる。木と一緒にあると木が燃える"),
    "戊" := ("平", "原局で一緒にある時は凶、大運で来る時は影響次第"),
    "己" := ("凶", "山が平地に降りた。格が下がる"),
    "庚" := ("凶", "土生金で力が抜ける。甲木を壊す"),
    "辛" := ("凶", "甲木は弱く、乙木は壊れる"),
    "壬" := ("平", "ダムのように山が川を堰き止める。平衡状態"),
    "癸" := ("大凶", "戊癸合。丙火を消して良くない")]

  const GyeongMatrix: map<string, (string, string)> := map[
    "甲" := ("大吉", "庚甲は最고의 관계. 도끼가 나무를 유용하게"),
    "乙" := ("吉", "가위가 꽃을 아름답게 다듬음"),
    "丙" := ("凶", "병경합. 쇠가 녹는다"),
    "丁" := ("吉", "정화가 금을 단련시켜 보석으로"),
    "戊" := ("凶", "토생금이지만 金이 더러워짐"),
    "己" := ("凶", "같은 이유로 金이 더러워짐"),
    "庚" := ("平", "같은 金끼리 경쟁"),
    "辛" := ("凶", "辛이 庚을 녹슬게 함"),
    "壬" := ("吉", "금생수. 깨끗한 물을 만듦"),
    "癸" := ("吉", "금생수. 이슬을 만듦")]

  /** `analyze_mu_to_other`: the row entry, or ('平', '') for a stem outside it. */
  function MuToOther(target: string): (string, string) {
    if target in MuMatrix then MuMatrix[target] else ("平", "")
  }

  /** `analyze_gyeong_to_other`: the row entry, or ('平', '') for a stem outside it. */
  function GyeongToOther(target: string): (string, string) {
    if target in GyeongMatrix then GyeongMatrix[target] else ("平", "")
  }

  /** Both rows cover exactly the ten stems. */
  lemma RowKeys()
    ensures MuMatrix.Keys == set s | s in Stems
    ensures GyeongMatrix.Keys == set s | s in Stems
  {
  }

  /** A target outside the stems gives ('平', '') in both rows. */
  lemma UnknownTargetIsNeutral(target: string)
    requires target !in Stems
    ensures MuToOther(target) == ("平", "")
    ensures GyeongToOther(target) == ("平", "")
  {
    RowKeys();
  }

  /** The 戊 row carries the same labels as the 戊 row of the full matrix. */
  lemma MuAgreesWithMatrix(target: string)
    requires target in Stems
    ensures MuToOther(target).0 == Complete.RelationLabel("戊", target)
  {
    Complete.CheonganRelationOnStems("戊", target);
  }

  /** The 庚 row does not: for 甲 it says 大吉 where the full matrix says 吉. */
  lemma GyeongDiffersFromMatrix()
    ensures GyeongToOther("甲").0 == "大吉"
    ensures Complete.RelationLabel("庚", "甲") == "吉"
  {
    assert "甲" in GyeongMatrix;
    assert "庚" in Complete.CheonganLabels && "甲" in Complete.CheonganLabels["庚"];
  }

  /** What `calculate_simple_daeun` returns. */
  datatype SimpleDaeun = SimpleDaeun(direction: string, startAge: int, daeunList: seq<Api.ApiBlock>)

  /** The simplified plan lists eight decades. */
  const Decades: nat := 8

  /** +1 for 順行 and -1 for anything else. */
  function StepOf(direction: string): int {
    if direction == "順行" then 1 else -1
  }

  /** `calculate_simple_daeun` as a value: eight decades from age 6, or the ValueError of
      `list.index` for a year stem, month stem or month branch outside its alphabet. */
  function SimpleDaeunPlan(s: Complete.Saju, gender: string): Result<SimpleDaeun> {
    var direction := Friendly.DaeunDirection(s.yearStem, gender);
    if direction.Err? then Err(direction.msg)
    else if s.monthStem !in Stems || s.monthBranch !in Branches then Err("ValueError: is not in list")
    else
      Ok(SimpleDaeun(direction.value, 6,
                     Api.DaeunPrefix(6, IndexOf(Stems, s.monthStem).value, IndexOf(Branches, s.monthBranch).value,
                                     StepOf(direction.value), Decades)))
  }

  /** `calculate_simple_daeun`, appending one decade per step. */
  method CalculateSimpleDaeun(s: Complete.Saju, gender: string) returns (r: Result<SimpleDaeun>)
    ensures r == SimpleDaeunPlan(s, gender)
  {
    var direction := Friendly.DaeunDirection(s.yearStem, gender);
    if direction.Err? {
      return Err(direction.msg);
    }
    var ms := IndexOf(Stems, s.monthStem);
    var mb := IndexOf(Branches, s.monthBranch);
    if ms.None? || mb.None? {
      return Err("ValueError: is not in list");
    }
    var daeunList := BuildDecades(6, ms.value, mb.value, StepOf(direction.value));
    r := Ok(SimpleDaeun(direction.value, 6, daeunList));
  }

  /** The loop of `calculate_simple_daeun`: the decades from `startAge`, appended one per step. */
  method BuildDecades(startAge: int, ms: StemIdx, mb: BranchIdx, step: int) returns (daeunList: seq<Api.ApiBlock>)
    ensures daeunList == Api.DaeunPrefix(startAge, ms, mb, step, Decades)
  {
    daeunList := [];
    var i := 0;
    while i < Decades
      invariant 0 <= i <= Decades
      invariant daeunList == Api.DaeunPrefix(startAge, ms, mb, step, i)
    {
      daeunList := daeunList + [Api.ApiBlockAt(startAge, ms, mb, step, i)];
      i := i + 1;
    }
  }

  /** The plan fails exactly on a non-stem year or month stem or a non-branch month branch. */
  lemma SimpleDaeunFails(s: Complete.Saju, gender: string)
    ensures SimpleDaeunPlan(s, gender).Err? <==>
              s.yearStem !in Stems || s.monthStem !in Stems || s.monthBranch !in Branches
  {
    Friendly.DaeunDirectionSpec(s.yearStem, gender);
  }

  /** Decade `i` of a plan from age `startAge` whose month pillar sits at (`ms`, `mb`) and
      moves by `step`: numbered i + 1, ten years long, shifted i + 1 steps. */
  predicate DecadeAt(b: Api.ApiBlock, i: int, startAge: int, ms: int, mb: int, step: int) {
    b.order == i + 1 && b.startAge == startAge + 10 * i && b.endAge == b.startAge + 9 &&
    b.stem == Stems[(ms + (i + 1) * step) % 10] && b.branch == Branches[(mb + (i + 1) * step) % 12]
  }

  /** A successful plan has eight decades of ten years from age 6, the i-th moving the month
      pillar i + 1 steps in the direction of travel. */
  lemma SimpleDaeunShape(s: Complete.Saju, gender: string)
    requires SimpleDaeunPlan(s, gender).Ok?
    ensures SimpleDaeunPlan(s, gender).value.startAge == 6
    ensures |SimpleDaeunPlan(s, gender).value.daeunList| == 8
    ensures forall i :: 0 <= i < 8 ==>
              DecadeAt(SimpleDaeunPlan(s, gender).value.daeunList[i], i, 6, IndexOf(Stems, s.monthStem).value,
                       IndexOf(Branches, s.monthBranch).value, StepOf(SimpleDaeunPlan(s, gender).value.direction))
  {
    var p := SimpleDaeunPlan(s, gender).value;
    var ms, mb := IndexOf(Stems, s.monthStem).value, IndexOf(Branches, s.monthBranch).value;
    var step := StepOf(p.direction);
    assert p.daeunList == Api.DaeunPrefix(6, ms, mb, step, Decades);
    forall i | 0 <= i < 8
      ensures DecadeAt(p.daeunList[i], i, 6, ms, mb, step)
    {
      BlockShape(6, ms, mb, step, i);
    }
  }

  /** One decade, field by field. */
  lemma BlockShape(startAge: int, ms: StemIdx, mb: BranchIdx, step: int, i: int)
    ensures DecadeAt(Api.ApiBlockAt(startAge, ms, mb, step, i), i, startAge, ms, mb, step)
  {
  }
}
