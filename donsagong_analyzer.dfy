/** The Donsagong interpretation engine: per-pillar notes, the relations between the four
    stems and between the four branches of a chart (looked up in the loader's tables, which
    are passed in as values), the seasonal factor of the birth month, the weighted overall
    verdict and the social-relations tally. */
module DonsagongAnalyzer {
  import opened Common
  import opened Dicts
  import opened DataLoader
  import FortuneService

  /** The eight characters of a chart and the civil birth month. */
  datatype SajuPalja = SajuPalja(yearStem: string, yearBranch: string, monthStem: string, monthBranch: string,
                                 dayStem: string, dayBranch: string, hourStem: string, hourBranch: string,
                                 birthMonth: int)

  /** The stems in pillar order (year, month, day, hour); the day stem is position 2. */
  function StemsOf(s: SajuPalja): (r: seq<string>)
    ensures |r| == 4 && r[2] == s.dayStem
  {
    [s.yearStem, s.monthStem, s.dayStem, s.hourStem]
  }

  function BranchesOf(s: SajuPalja): (r: seq<string>)
    ensures |r| == 4 && r[2] == s.dayBranch
  {
    [s.yearBranch, s.monthBranch, s.dayBranch, s.hourBranch]
  }

  datatype PillarAnalysis = PillarAnalysis(pillarName: string, stem: string, branch: string, fortune: string,
                                           description: string, specialNotes: seq<string>)

  datatype RelationAnalysis = RelationAnalysis(relationType: string, fromElement: string, toElement: string,
                                               fortune: string, description: string, impactLevel: string)

  datatype SeasonalAnalysis = SeasonalAnalysis(season: string, description: string, fortune: string)

  datatype RelationshipAnalysis = RelationshipAnalysis(socialFortune: string, relationshipQuality: string,
                                                       advice: seq<string>)

  // ---------------------------------------------------------------------------------------
  // Single pillars

  /** The ten especially auspicious (stem, branch) pairs, one per stem in stem order. */
  const SpecialCombinations: seq<(string, string)> :=
    [("甲", "寅"), ("乙", "卯"), ("丙", "午"), ("丁", "巳"), ("戊", "辰"),
     ("己", "未"), ("庚", "申"), ("辛", "酉"), ("壬", "子"), ("癸", "亥")]

  predicate IsSpecialCombination(stem: string, branch: string) {
    (stem, branch) in SpecialCombinations
  }

  /** The listed pairs are the ten stems in order, each with one of the twelve branches. */
  lemma SpecialCombinationsFollowStems()
    ensures |SpecialCombinations| == |Stems|
    ensures forall k :: 0 <= k < |Stems| ==> SpecialCombinations[k].0 == Stems[k] && SpecialCombinations[k].1 in Branches
  {
  }

  /** Each stem has exactly one special branch, and no branch is special for two stems. */
  lemma SpecialCombinationUnique(stem: string, stem': string, branch: string, branch': string)
    ensures IsSpecialCombination(stem, branch) && IsSpecialCombination(stem, branch') ==> branch == branch'
    ensures IsSpecialCombination(stem, branch) && IsSpecialCombination(stem', branch) ==> stem == stem'
  {
  }

  /** `_analyze_single_pillar`: a special pair is 길 with one note, anything else 평 with none. */
  function AnalyzeSinglePillar(pillarName: string, stem: string, branch: string): (p: PillarAnalysis)
    ensures p.pillarName == pillarName && p.stem == stem && p.branch == branch
    ensures p.fortune in ["길", "평"]
    ensures p.fortune == "길" <==> IsSpecialCombination(stem, branch)
    ensures |p.specialNotes| == if IsSpecialCombination(stem, branch) then 1 else 0
  {
    var special := IsSpecialCombination(stem, branch);
    PillarAnalysis(pillarName, stem, branch, if special then "길" else "평", stem + branch + " 조합",
                   if special then ["특별한 길한 조합"] else [])
  }

  const PillarNames: seq<string> := ["연주", "월주", "일주", "시주"]

  /** `_analyze_pillars`: one analysis per pillar, in pillar order. */
  method AnalyzePillars(saju: SajuPalja) returns (analyses: seq<PillarAnalysis>)
    ensures |analyses| == 4
    ensures forall k :: 0 <= k < 4 ==>
              analyses[k].pillarName == PillarNames[k] && analyses[k].stem == StemsOf(saju)[k] &&
              analyses[k].branch == BranchesOf(saju)[k] &&
              (analyses[k].fortune == "길" <==> IsSpecialCombination(StemsOf(saju)[k], BranchesOf(saju)[k]))
  {
    var stems := StemsOf(saju);
    var branches := BranchesOf(saju);
    analyses := [];
    for k := 0 to 4
      invariant |analyses| == k
      invariant forall q :: 0 <= q < k ==>
                  analyses[q].pillarName == PillarNames[q] && analyses[q].stem == stems[q] &&
                  analyses[q].branch == branches[q] &&
                  (analyses[q].fortune == "길" <==> IsSpecialCombination(stems[q], branches[q]))
    {
      analyses := analyses + [AnalyzeSinglePillar(PillarNames[k], stems[k], branches[k])];
    }
  }

  // ---------------------------------------------------------------------------------------
  // Impact levels

  /** Whether a relation touches the day pillar (position 2). */
  predicate InvolvesDay(fromPos: int, toPos: int) {
    fromPos == 2 || toPos == 2
  }

  /** A label containing 대흉 or 대길. */
  predicate IsMajor(fortune: string) {
    Contains(fortune, "대흉") || Contains(fortune, "대길")
  }

  /** A label containing 흉 or 길. */
  predicate IsMarked(fortune: string) {
    Contains(fortune, "흉") || Contains(fortune, "길")
  }

  function Abs(x: int): nat {
    if x < 0 then -x else x
  }

  const Levels: seq<string> := ["강", "중", "약"]

  /** Dropping the first character of a needle keeps it a substring. */
  lemma {:induction false} ContainsTail(hay: string, c: char, rest: string)
    requires Contains(hay, [c] + rest)
    ensures Contains(hay, rest)
    decreases |hay|
  {
    var needle := [c] + rest;
    if |needle| <= |hay| && hay[..|needle|] == needle {
      assert hay[1..][..|rest|] == rest;
      assert Contains(hay[1..], rest);
    } else {
      ContainsTail(hay[1..], c, rest);
    }
  }

  /** Every major label is also a marked one. */
  lemma MajorIsMarked(fortune: string)
    ensures IsMajor(fortune) ==> IsMarked(fortune)
  {
    if Contains(fortune, "대흉") {
      assert "대흉" == ['대'] + "흉";
      ContainsTail(fortune, '대', "흉");
    }
    if Contains(fortune, "대길") {
      assert "대길" == ['대'] + "길";
      ContainsTail(fortune, '대', "길");
    }
  }

  /** `_calculate_impact_level` (stems): 강 for a major label on the day pillar; 약 when the
      relation neither carries a marked label on the day pillar nor joins adjacent pillars. */
  function CalculateImpactLevel(fromPos: int, toPos: int, fortune: string): (r: string)
    ensures r in Levels
    ensures r == "강" <==> InvolvesDay(fromPos, toPos) && IsMajor(fortune)
    ensures r == "약" <==> !(InvolvesDay(fromPos, toPos) && IsMarked(fortune)) && Abs(fromPos - toPos) != 1
  {
    MajorIsMarked(fortune);
    if InvolvesDay(fromPos, toPos) && IsMajor(fortune) then "강"
    else if InvolvesDay(fromPos, toPos) && IsMarked(fortune) then "중"
    else if Abs(fromPos - toPos) == 1 then "중"
    else "약"
  }

  /** `_calculate_jiji_impact_level` (branches): on the day pillar, 강 for a major label and 중
      otherwise; elsewhere 중 for adjacent pillars and 약 for the rest. */
  function CalculateJijiImpactLevel(fromPos: int, toPos: int, fortune: string): (r: string)
    ensures r in Levels
    ensures r == "강" <==> InvolvesDay(fromPos, toPos) && IsMajor(fortune)
    ensures r == "약" <==> !InvolvesDay(fromPos, toPos) && Abs(fromPos - toPos) != 1
  {
    if InvolvesDay(fromPos, toPos) then (if IsMajor(fortune) then "강" else "중")
    else if Abs(fromPos - toPos) == 1 then "중"
    else "약"
  }

  function LevelRank(level: string): nat {
    if level == "강" then 2 else if level == "중" then 1 else 0
  }

  /** A branch relation never weighs less than the stem relation with the same positions and
      label, and the two agree unless the day pillar is involved with an unmarked label. */
  lemma JijiImpactAtLeastTengan(fromPos: int, toPos: int, fortune: string)
    ensures LevelRank(CalculateJijiImpactLevel(fromPos, toPos, fortune)) >= LevelRank(CalculateImpactLevel(fromPos, toPos, fortune))
    ensures !(InvolvesDay(fromPos, toPos) && !IsMarked(fortune)) ==>
              CalculateJijiImpactLevel(fromPos, toPos, fortune) == CalculateImpactLevel(fromPos, toPos, fortune)
  {
    MajorIsMarked(fortune);
  }

  // ---------------------------------------------------------------------------------------
  // Stem relations

  /** The entry for a found stem relation between positions i and j. */
  function TenganAnalysis(stems: seq<string>, i: nat, j: nat, rel: TenganRelation): RelationAnalysis
    requires i < |stems| && j < |stems|
  {
    RelationAnalysis("천간관계", stems[i], stems[j], rel.fortune, rel.description, CalculateImpactLevel(i, j, rel.fortune))
  }

  /** What the pair (i, j) contributes: nothing on the diagonal or when no relation is stored. */
  function TenganEntry(t: Dict<string, Dict<string, TenganRelation>>, stems: seq<string>, i: nat, j: nat): seq<RelationAnalysis>
    requires i < |stems| && j < |stems|
  {
    if i == j then []
    else match TenganLookup(t, stems[i], stems[j])
      case None => []
      case Some(rel) => [TenganAnalysis(stems, i, j, rel)]
  }

  /** The entries the nested loops hold on reaching pair (i, j), in row-major order. */
  function TenganBefore(t: Dict<string, Dict<string, TenganRelation>>, stems: seq<string>, i: nat, j: nat): seq<RelationAnalysis>
    requires |stems| == 4 && i < 4 && j <= 4
    decreases i, j
  {
    if j == 0 then (if i == 0 then [] else TenganBefore(t, stems, i - 1, 4))
    else TenganBefore(t, stems, i, j - 1) + TenganEntry(t, stems, i, j - 1)
  }

  /** All stem relations of a chart. */
  function TenganRelations(t: Dict<string, Dict<string, TenganRelation>>, stems: seq<string>): seq<RelationAnalysis>
    requires |stems| == 4
  {
    TenganBefore(t, stems, |stems| - 1, |stems|)
  }

  /** `_analyze_tengan_relations`. */
  method AnalyzeTenganRelations(t: Dict<string, Dict<string, TenganRelation>>, saju: SajuPalja)
    returns (relations: seq<RelationAnalysis>)
    ensures relations == TenganRelations(t, StemsOf(saju))
  {
    var stems := StemsOf(saju);
    relations := [];
    for i := 0 to 4
      invariant relations == if i == 0 then [] else TenganBefore(t, stems, i - 1, 4)
    {
      relations := TenganRow(t, stems, i, relations);
    }
  }

  /** The inner loop of `_analyze_tengan_relations`: row i of the pairs. */
  method TenganRow(t: Dict<string, Dict<string, TenganRelation>>, stems: seq<string>, i: nat,
                   relations: seq<RelationAnalysis>) returns (result: seq<RelationAnalysis>)
    requires |stems| == 4 && i < 4
    requires relations == TenganBefore(t, stems, i, 0)
    ensures result == TenganBefore(t, stems, i, 4)
  {
    result := relations;
    for j := 0 to 4
      invariant result == TenganBefore(t, stems, i, j)
    {
      var before := result;
      result := TenganPair(t, stems, i, j, result);
      TenganBeforeNext(t, stems, i, j, before);
    }
  }

  /** The body of the inner loop for the pair (i, j): append the stored relation, if any. */
  method TenganPair(t: Dict<string, Dict<string, TenganRelation>>, stems: seq<string>, i: nat, j: nat,
                    relations: seq<RelationAnalysis>) returns (result: seq<RelationAnalysis>)
    requires i < |stems| && j < |stems|
    ensures result == relations + TenganEntry(t, stems, i, j)
  {
    result := relations;
    if i != j {
      var relation := TenganLookup(t, stems[i], stems[j]);
      if relation.Some? {
        var impactLevel := CalculateImpactLevel(i, j, relation.value.fortune);
        result := result + [RelationAnalysis("천간관계", stems[i], stems[j], relation.value.fortune,
                                             relation.value.description, impactLevel)];
      }
    }
  }

  lemma TenganBeforeNext(t: Dict<string, Dict<string, TenganRelation>>, stems: seq<string>, i: nat, j: nat,
                         before: seq<RelationAnalysis>)
    requires |stems| == 4 && i < 4 && j < 4 && before == TenganBefore(t, stems, i, j)
    ensures before + TenganEntry(t, stems, i, j) == TenganBefore(t, stems, i, j + 1)
  {
  }

  /** The entries made, in order, by two nested loops over the positions 0..3 that visit
      pair (a, b) after every pair of an earlier row and every earlier pair of the same row,
      for the pairs before (i, j). */
  function EntriesBefore<T>(entry: (nat, nat) -> seq<T>, n: nat, i: nat, j: nat): seq<T>
    requires i < n && j <= n
    decreases i, j
  {
    if j == 0 then (if i == 0 then [] else EntriesBefore(entry, n, i - 1, n))
    else EntriesBefore(entry, n, i, j - 1) + entry(i, j - 1)
  }

  /** Every entry made before pair (i, j) comes from an earlier pair. */
  lemma {:induction false} EntriesBeforeWitness<T>(entry: (nat, nat) -> seq<T>, n: nat, i: nat, j: nat, x: T)
    returns (a: nat, b: nat)
    requires i < n && j <= n && x in EntriesBefore(entry, n, i, j)
    ensures a < n && b < n && (a < i || (a == i && b < j)) && x in entry(a, b)
    decreases i, j
  {
    if j == 0 {
      a, b := EntriesBeforeWitness(entry, n, i - 1, n, x);
    } else if x in EntriesBefore(entry, n, i, j - 1) {
      a, b := EntriesBeforeWitness(entry, n, i, j - 1, x);
    } else {
      a, b := i, j - 1;
    }
  }

  /** Every entry of an earlier pair is made before pair (i, j). */
  lemma {:induction false} EntriesBeforeHas<T>(entry: (nat, nat) -> seq<T>, n: nat, i: nat, j: nat, a: nat, b: nat, x: T)
    requires i < n && j <= n && b < n && (a < i || (a == i && b < j)) && x in entry(a, b)
    ensures x in EntriesBefore(entry, n, i, j)
    decreases i, j
  {
    if j == 0 {
      EntriesBeforeHas(entry, n, i - 1, n, a, b, x);
    } else if a < i || b < j - 1 {
      EntriesBeforeHas(entry, n, i, j - 1, a, b, x);
    }
  }

  /** The pair table that the tengan loops walk. */
  function TenganEntries(t: Dict<string, Dict<string, TenganRelation>>, stems: seq<string>): (nat, nat) -> seq<RelationAnalysis>
  {
    (a: nat, b: nat) => if a < |stems| && b < |stems| then TenganEntry(t, stems, a, b) else []
  }

  lemma {:induction false} TenganBeforeIsEntries(t: Dict<string, Dict<string, TenganRelation>>, stems: seq<string>, i: nat, j: nat)
    requires |stems| == 4 && i < 4 && j <= 4
    ensures TenganBefore(t, stems, i, j) == EntriesBefore(TenganEntries(t, stems), |stems|, i, j)
    decreases i, j
  {
    var e := TenganEntries(t, stems);
    if j == 0 {
      if i > 0 {
        TenganBeforeIsEntries(t, stems, i - 1, 4);
        assert EntriesBefore(e, 4, i, j) == EntriesBefore(e, 4, i - 1, 4);
      }
    } else {
      TenganBeforeIsEntries(t, stems, i, j - 1);
      assert e(i, j - 1) == TenganEntry(t, stems, i, j - 1);
      assert EntriesBefore(e, 4, i, j) == EntriesBefore(e, 4, i, j - 1) + e(i, j - 1);
    }
  }

  /** A pair's entry is the analysis of its stored relation, when its positions differ. */
  lemma TenganEntryMembers(t: Dict<string, Dict<string, TenganRelation>>, stems: seq<string>, a: nat, b: nat, x: RelationAnalysis)
    requires a < |stems| && b < |stems|
    ensures x in TenganEntry(t, stems, a, b) <==>
            a != b && TenganLookup(t, stems[a], stems[b]).Some? &&
            x == TenganAnalysis(stems, a, b, TenganLookup(t, stems[a], stems[b]).value)
  {
  }

  /** The analysis lists exactly the stored relations between distinct positions. */
  lemma TenganRelationsMembers(t: Dict<string, Dict<string, TenganRelation>>, stems: seq<string>, x: RelationAnalysis)
    requires |stems| == 4
    ensures x in TenganRelations(t, stems) <==>
            exists a: nat, b: nat :: a < 4 && b < 4 && a != b && TenganLookup(t, stems[a], stems[b]).Some? &&
                                     x == TenganAnalysis(stems, a, b, TenganLookup(t, stems[a], stems[b]).value)
  {
    var e := TenganEntries(t, stems);
    TenganBeforeIsEntries(t, stems, |stems| - 1, |stems|);
    if x in TenganRelations(t, stems) {
      var a, b := EntriesBeforeWitness(e, |stems|, |stems| - 1, |stems|, x);
      TenganEntryMembers(t, stems, a, b, x);
    }
    forall a: nat, b: nat | a < 4 && b < 4 && a != b && TenganLookup(t, stems[a], stems[b]).Some? &&
                            x == TenganAnalysis(stems, a, b, TenganLookup(t, stems[a], stems[b]).value)
      ensures x in TenganRelations(t, stems)
    {
      TenganEntryMembers(t, stems, a, b, x);
      EntriesBeforeHas(e, |stems|, |stems| - 1, |stems|, a, b, x);
    }
  }

  /** Every ordered pair of distinct positions has a stored relation. */
  predicate AllRelated(t: Dict<string, Dict<string, TenganRelation>>, stems: seq<string>)
    requires |stems| == 4
  {
    forall a: nat, b: nat :: a < 4 && b < 4 && a != b ==> TenganLookup(t, stems[a], stems[b]).Some?
  }

  lemma {:induction false} TenganBeforeLength(t: Dict<string, Dict<string, TenganRelation>>, stems: seq<string>, i: nat, j: nat)
    requires |stems| == 4 && i < 4 && j <= 4
    ensures |TenganBefore(t, stems, i, j)| <= 3 * i + j - (if j > i then 1 else 0)
    ensures AllRelated(t, stems) ==> |TenganBefore(t, stems, i, j)| == 3 * i + j - (if j > i then 1 else 0)
    decreases i, j
  {
    if j == 0 {
      if i > 0 {
        TenganBeforeLength(t, stems, i - 1, 4);
      }
    } else {
      TenganBeforeLength(t, stems, i, j - 1);
    }
  }

  /** At most one entry per ordered pair: twelve at most, exactly twelve when the table
      relates every pair of the chart's stems. */
  lemma TenganRelationsCount(t: Dict<string, Dict<string, TenganRelation>>, stems: seq<string>)
    requires |stems| == 4
    ensures |TenganRelations(t, stems)| <= 12
    ensures AllRelated(t, stems) ==> |TenganRelations(t, stems)| == 12
  {
    TenganBeforeLength(t, stems, |stems| - 1, |stems|);
  }

  // ---------------------------------------------------------------------------------------
  // Branch relations

  /** The entry for one stored branch relation between positions i and j. */
  function JijiAnalysis(branches: seq<string>, i: nat, j: nat, rel: JijiRelation): RelationAnalysis
    requires i < |branches| && j < |branches|
  {
    RelationAnalysis("지지" + rel.relationType, branches[i], branches[j], rel.fortune, rel.description,
                     CalculateJijiImpactLevel(i, j, rel.fortune))
  }

  /** The entries for a list of stored relations, in order. */
  function JijiAnalyses(branches: seq<string>, i: nat, j: nat, rels: seq<JijiRelation>): (r: seq<RelationAnalysis>)
    requires i < |branches| && j < |branches|
    ensures |r| == |rels|
  {
    if |rels| == 0 then []
    else JijiAnalyses(branches, i, j, rels[..|rels| - 1]) + [JijiAnalysis(branches, i, j, rels[|rels| - 1])]
  }

  lemma {:induction false} JijiAnalysesMembers(branches: seq<string>, i: nat, j: nat, rels: seq<JijiRelation>, x: RelationAnalysis)
    requires i < |branches| && j < |branches|
    ensures x in JijiAnalyses(branches, i, j, rels) <==> exists rel :: rel in rels && x == JijiAnalysis(branches, i, j, rel)
  {
    if |rels| > 0 {
      var init := rels[..|rels| - 1];
      JijiAnalysesMembers(branches, i, j, init, x);
      assert rels == init + [rels[|rels| - 1]];
    }
  }

  /** What the pair (i, j) contributes: every stored relation from branch i to branch j. */
  function JijiEntry(m: Dict<string, seq<JijiRelation>>, branches: seq<string>, i: nat, j: nat): seq<RelationAnalysis>
    requires i < |branches| && j < |branches|
  {
    if i == j then [] else JijiAnalyses(branches, i, j, JijiLookup(m, branches[i], branches[j]))
  }

  function JijiBefore(m: Dict<string, seq<JijiRelation>>, branches: seq<string>, i: nat, j: nat): seq<RelationAnalysis>
    requires |branches| == 4 && i < 4 && j <= 4
    decreases i, j
  {
    if j == 0 then (if i == 0 then [] else JijiBefore(m, branches, i - 1, 4))
    else JijiBefore(m, branches, i, j - 1) + JijiEntry(m, branches, i, j - 1)
  }

  /** All branch relations of a chart. */
  function JijiRelations(m: Dict<string, seq<JijiRelation>>, branches: seq<string>): seq<RelationAnalysis>
    requires |branches| == 4
  {
    JijiBefore(m, branches, |branches| - 1, |branches|)
  }

  /** `_analyze_jiji_relations`. */
  method AnalyzeJijiRelations(m: Dict<string, seq<JijiRelation>>, saju: SajuPalja)
    returns (relations: seq<RelationAnalysis>)
    ensures relations == JijiRelations(m, BranchesOf(saju))
  {
    var branches := BranchesOf(saju);
    relations := [];
    for i := 0 to 4
      invariant relations == if i == 0 then [] else JijiBefore(m, branches, i - 1, 4)
    {
      relations := JijiRow(m, branches, i, relations);
    }
  }

  /** The middle loop of `_analyze_jiji_relations`: row i of the pairs. */
  method JijiRow(m: Dict<string, seq<JijiRelation>>, branches: seq<string>, i: nat,
                 relations: seq<RelationAnalysis>) returns (result: seq<RelationAnalysis>)
    requires |branches| == 4 && i < 4
    requires relations == JijiBefore(m, branches, i, 0)
    ensures result == JijiBefore(m, branches, i, 4)
  {
    result := relations;
    for j := 0 to 4
      invariant result == JijiBefore(m, branches, i, j)
    {
      var before := result;
      result := JijiPair(m, branches, i, j, result);
      JijiBeforeNext(m, branches, i, j, before);
    }
  }

  /** The body of the middle loop for the pair (i, j): append every stored relation. */
  method JijiPair(m: Dict<string, seq<JijiRelation>>, branches: seq<string>, i: nat, j: nat,
                  relations: seq<RelationAnalysis>) returns (result: seq<RelationAnalysis>)
    requires i < |branches| && j < |branches|
    ensures result == relations + JijiEntry(m, branches, i, j)
  {
    result := relations;
    if i != j {
      var found := JijiLookup(m, branches[i], branches[j]);
      result := AppendJijiAnalyses(result, branches, i, j, found);
    }
  }

  lemma JijiBeforeNext(m: Dict<string, seq<JijiRelation>>, branches: seq<string>, i: nat, j: nat,
                       before: seq<RelationAnalysis>)
    requires |branches| == 4 && i < 4 && j < 4 && before == JijiBefore(m, branches, i, j)
    ensures before + JijiEntry(m, branches, i, j) == JijiBefore(m, branches, i, j + 1)
  {
  }

  /** The innermost loop of `_analyze_jiji_relations`: one entry per found relation, in order. */
  method AppendJijiAnalyses(relations: seq<RelationAnalysis>, branches: seq<string>, i: nat, j: nat, found: seq<JijiRelation>)
    returns (result: seq<RelationAnalysis>)
    requires i < |branches| && j < |branches|
    ensures result == relations + JijiAnalyses(branches, i, j, found)
  {
    result := relations;
    assert found[..0] == [];
    for k := 0 to |found|
      invariant result == relations + JijiAnalyses(branches, i, j, found[..k])
    {
      var relation := found[k];
      var impactLevel := CalculateJijiImpactLevel(i, j, relation.fortune);
      assert found[..k + 1][..k] == found[..k];
      result := result + [RelationAnalysis("지지" + relation.relationType, branches[i], branches[j],
                                           relation.fortune, relation.description, impactLevel)];
    }
    assert found[..|found|] == found;
  }

  /** The pair table that the jiji loops walk. */
  function JijiEntries(m: Dict<string, seq<JijiRelation>>, branches: seq<string>): (nat, nat) -> seq<RelationAnalysis>
  {
    (a: nat, b: nat) => if a < |branches| && b < |branches| then JijiEntry(m, branches, a, b) else []
  }

  lemma {:induction false} JijiBeforeIsEntries(m: Dict<string, seq<JijiRelation>>, branches: seq<string>, i: nat, j: nat)
    requires |branches| == 4 && i < 4 && j <= 4
    ensures JijiBefore(m, branches, i, j) == EntriesBefore(JijiEntries(m, branches), |branches|, i, j)
    decreases i, j
  {
    var e := JijiEntries(m, branches);
    if j == 0 {
      if i > 0 {
        JijiBeforeIsEntries(m, branches, i - 1, 4);
        assert EntriesBefore(e, 4, i, j) == EntriesBefore(e, 4, i - 1, 4);
      }
    } else {
      JijiBeforeIsEntries(m, branches, i, j - 1);
      assert e(i, j - 1) == JijiEntry(m, branches, i, j - 1);
      assert EntriesBefore(e, 4, i, j) == EntriesBefore(e, 4, i, j - 1) + e(i, j - 1);
    }
  }

  /** A pair's entries are the analyses of the stored relations from its first branch whose
      target is its second, when its positions differ. */
  lemma JijiEntryMembers(m: Dict<string, seq<JijiRelation>>, branches: seq<string>, a: nat, b: nat, x: RelationAnalysis)
    requires a < |branches| && b < |branches|
    ensures x in JijiEntry(m, branches, a, b) <==>
            exists rel :: a != b && rel in GetOr(m, branches[a], []) && rel.toJi == branches[b] &&
                          x == JijiAnalysis(branches, a, b, rel)
  {
    if a != b {
      JijiAnalysesMembers(branches, a, b, JijiLookup(m, branches[a], branches[b]), x);
      FilterToMembers(GetOr(m, branches[a], []), branches[b]);
    }
  }

  /** The analysis lists, for every ordered pair of distinct positions, exactly the stored
      relations from the first branch whose target is the second. */
  lemma JijiRelationsMembers(m: Dict<string, seq<JijiRelation>>, branches: seq<string>, x: RelationAnalysis)
    requires |branches| == 4
    ensures x in JijiRelations(m, branches) <==>
            exists a: nat, b: nat, rel :: a < 4 && b < 4 && a != b &&
                                          rel in GetOr(m, branches[a], []) && rel.toJi == branches[b] &&
                                          x == JijiAnalysis(branches, a, b, rel)
  {
    var e := JijiEntries(m, branches);
    JijiBeforeIsEntries(m, branches, |branches| - 1, |branches|);
    if x in JijiRelations(m, branches) {
      var a, b := EntriesBeforeWitness(e, |branches|, |branches| - 1, |branches|, x);
      JijiEntryMembers(m, branches, a, b, x);
    }
    forall a: nat, b: nat, rel | a < 4 && b < 4 && a != b && rel in GetOr(m, branches[a], []) && rel.toJi == branches[b] &&
                                 x == JijiAnalysis(branches, a, b, rel)
      ensures x in JijiRelations(m, branches)
    {
      JijiEntryMembers(m, branches, a, b, x);
      EntriesBeforeHas(e, |branches|, |branches| - 1, |branches|, a, b, x);
    }
  }

  // ---------------------------------------------------------------------------------------
  // Seasonal factor

  /** The season of a birth month; anything outside March to November is winter. */
  function SeasonOf(month: int): (s: string)
    ensures s in ["봄", "여름", "가을", "겨울"]
    ensures s == "봄" <==> 3 <= month <= 5
    ensures s == "여름" <==> 6 <= month <= 8
    ensures s == "가을" <==> 9 <= month <= 11
  {
    if month in [3, 4, 5] then "봄"
    else if month in [6, 7, 8] then "여름"
    else if month in [9, 10, 11] then "가을"
    else "겨울"
  }

  /** `_analyze_seasonal_factors`: the stored season entry when there is one, otherwise the
      default description and a neutral fortune. */
  function AnalyzeSeasonalFactors(seasonal: Dict<string, SeasonInfo>, saju: SajuPalja): (r: SeasonalAnalysis)
    ensures r.season == SeasonOf(saju.birthMonth)
    ensures !Has(seasonal, r.season) ==> r.description == r.season + " 출생" && r.fortune == "평"
    ensures Has(seasonal, r.season) ==>
              exists i :: 0 <= i < |seasonal| && seasonal[i].0 == r.season &&
                          r.description == seasonal[i].1.description && r.fortune == seasonal[i].1.fortune
  {
    var season := SeasonOf(saju.birthMonth);
    GetSpec(seasonal, season);
    match Get(seasonal, season)
    case None => SeasonalAnalysis(season, season + " 출생", "평")
    case Some(info) =>
      var i :| 0 <= i < |seasonal| && seasonal[i] == (season, info);
      SeasonalAnalysis(season, info.description, info.fortune)
  }

  // ---------------------------------------------------------------------------------------
  // Overall verdict

  /** The score of a label; unknown labels count as 0. */
  function FortuneScore(fortune: string): (r: int)
    ensures -2 <= r <= 2
    ensures r >= 1 <==> fortune in ["길", "대길"]
    ensures r <= -1 <==> fortune in ["흉", "대흉"]
  {
    if fortune == "대길" then 2 else if fortune == "길" then 1 else if fortune == "평" then 0
    else if fortune == "흉" then -1 else if fortune == "대흉" then -2 else 0
  }

  function TenganWeight(level: string): (w: real)
    ensures 1.0 <= w <= 2.0
  {
    if level == "강" then 2.0 else if level == "중" then 1.5 else 1.0
  }

  function JijiWeight(level: string): (w: real)
    ensures 0.8 <= w <= 1.6
  {
    if level == "강" then 1.6 else if level == "중" then 1.2 else 0.8
  }

  /** Whether a relation counts as stem (true) or branch (false) determines its weights. */
  function Weight(isStem: bool, r: RelationAnalysis): real {
    if isStem then TenganWeight(r.impactLevel) else JijiWeight(r.impactLevel)
  }

  function ScoreSum(isStem: bool, rels: seq<RelationAnalysis>): real {
    if |rels| == 0 then 0.0
    else ScoreSum(isStem, rels[..|rels| - 1]) + FortuneScore(rels[|rels| - 1].fortune) as real * Weight(isStem, rels[|rels| - 1])
  }

  function WeightSum(isStem: bool, rels: seq<RelationAnalysis>): real {
    if |rels| == 0 then 0.0 else WeightSum(isStem, rels[..|rels| - 1]) + Weight(isStem, rels[|rels| - 1])
  }

  /** The verdict for a weighted mean score. */
  function Verdict(average: real): string {
    if average >= 1.0 then "길"
    else if average >= 0.5 then "소길"
    else if average <= -1.0 then "흉"
    else if average <= -0.5 then "소흉"
    else "평"
  }

  /** The verdict for all stem and branch relations: 평 when there are none. */
  function OverallFortune(tengan: seq<RelationAnalysis>, jiji: seq<RelationAnalysis>): (r: string)
    ensures r in {"길", "소길", "평", "소흉", "흉"}
  {
    var totalWeight := WeightSum(true, tengan) + WeightSum(false, jiji);
    if totalWeight > 0.0 then Verdict((ScoreSum(true, tengan) + ScoreSum(false, jiji)) / totalWeight) else "평"
  }

  /** One more relation adds its weighted score and its weight. */
  lemma SumsStep(isStem: bool, rels: seq<RelationAnalysis>, k: nat)
    requires k < |rels|
    ensures ScoreSum(isStem, rels[..k + 1]) == ScoreSum(isStem, rels[..k]) + FortuneScore(rels[k].fortune) as real * Weight(isStem, rels[k])
    ensures WeightSum(isStem, rels[..k + 1]) == WeightSum(isStem, rels[..k]) + Weight(isStem, rels[k])
  {
    assert rels[..k + 1][..k] == rels[..k];
  }

  /** One of the two accumulation loops of `_calculate_overall_fortune`: the weighted scores
      and the weights of a list of stem (or branch) relations. */
  method AccumulateScores(isStem: bool, rels: seq<RelationAnalysis>) returns (totalScore: real, totalWeight: real)
    ensures totalScore == ScoreSum(isStem, rels) && totalWeight == WeightSum(isStem, rels)
  {
    totalScore := 0.0;
    totalWeight := 0.0;
    for k := 0 to |rels|
      invariant totalScore == ScoreSum(isStem, rels[..k]) && totalWeight == WeightSum(isStem, rels[..k])
    {
      SumsStep(isStem, rels, k);
      var score := FortuneScore(rels[k].fortune);
      var weight := if isStem then TenganWeight(rels[k].impactLevel) else JijiWeight(rels[k].impactLevel);
      totalScore := totalScore + score as real * weight;
      totalWeight := totalWeight + weight;
    }
    assert rels[..|rels|] == rels;
  }

  /** `_calculate_overall_fortune` (the pillar and seasonal arguments are unused): the
      weighted mean of the label scores over stem and branch relations, mapped to a verdict,
      or 평 when there is no relation at all. */
  method CalculateOverallFortune(tengan: seq<RelationAnalysis>, jiji: seq<RelationAnalysis>) returns (r: string)
    ensures r == OverallFortune(tengan, jiji)
  {
    var tenganScore, tenganWeight := AccumulateScores(true, tengan);
    var jijiScore, jijiWeight := AccumulateScores(false, jiji);
    var totalScore := tenganScore + jijiScore;
    var totalWeight := tenganWeight + jijiWeight;
    if totalWeight > 0.0 {
      r := Verdict(totalScore / totalWeight);
    } else {
      r := "평";
    }
  }

  /** Every relation carries weight, and the scores stay within twice the weight either way. */
  lemma {:induction false} SumsBounded(isStem: bool, rels: seq<RelationAnalysis>)
    ensures WeightSum(isStem, rels) >= 0.8 * |rels| as real
    ensures -2.0 * WeightSum(isStem, rels) <= ScoreSum(isStem, rels) <= 2.0 * WeightSum(isStem, rels)
  {
    if |rels| > 0 {
      SumsBounded(isStem, rels[..|rels| - 1]);
      var last := rels[|rels| - 1];
      ProductBounds(FortuneScore(last.fortune), Weight(isStem, last));
    }
  }

  /** A score in [-2, 2] times a positive weight lies within twice the weight, and is at least
      (at most) the weight (its negation) when the score is at least 1 (at most -1). */
  lemma ProductBounds(score: int, w: real)
    requires -2 <= score <= 2 && w > 0.0
    ensures -2.0 * w <= score as real * w <= 2.0 * w
    ensures score >= 1 ==> score as real * w >= w
    ensures score <= -1 ==> score as real * w <= -w
  {
    if score == 2 {
    } else if score == 1 {
    } else if score == 0 {
    } else if score == -1 {
    } else {
    }
  }

  /** With no relations the verdict is 평, and otherwise the mean score lies in [-2, 2]. */
  lemma OverallFortuneBounds(tengan: seq<RelationAnalysis>, jiji: seq<RelationAnalysis>)
    ensures |tengan| + |jiji| == 0 ==> OverallFortune(tengan, jiji) == "평"
    ensures |tengan| + |jiji| > 0 ==> WeightSum(true, tengan) + WeightSum(false, jiji) > 0.0
    ensures -2.0 * (WeightSum(true, tengan) + WeightSum(false, jiji)) <= ScoreSum(true, tengan) + ScoreSum(false, jiji)
              <= 2.0 * (WeightSum(true, tengan) + WeightSum(false, jiji))
  {
    SumsBounded(true, tengan);
    SumsBounded(false, jiji);
    var w := WeightSum(true, tengan) + WeightSum(false, jiji);
    var s := ScoreSum(true, tengan) + ScoreSum(false, jiji);
    if |tengan| + |jiji| > 0 {
      assert w > 0.0;
    }
  }

  /** Comparing a mean with a bound is comparing the total with the bound times the weight. */
  lemma DivCompare(s: real, w: real, c: real)
    requires w > 0.0
    ensures s / w >= c <==> s >= c * w
    ensures s / w <= c <==> s <= c * w
  {
    var q := s / w;
    assert q * w == s;
    assert s - c * w == (q - c) * w;
    if q > c {
      assert (q - c) * w > 0.0;
    } else if q < c {
      assert (q - c) * w < 0.0;
    }
  }

  predicate AllGood(rels: seq<RelationAnalysis>) {
    forall k :: 0 <= k < |rels| ==> GoodLabel(rels[k].fortune)
  }

  predicate AllBad(rels: seq<RelationAnalysis>) {
    forall k :: 0 <= k < |rels| ==> BadLabel(rels[k].fortune)
  }

  /** When every label is good, the weighted scores reach at least the weights. */
  lemma {:induction false} AllGoodSums(isStem: bool, rels: seq<RelationAnalysis>)
    requires AllGood(rels)
    ensures ScoreSum(isStem, rels) >= WeightSum(isStem, rels)
  {
    if |rels| > 0 {
      var init := rels[..|rels| - 1];
      assert forall k :: 0 <= k < |init| ==> init[k] == rels[k];
      AllGoodSums(isStem, init);
      var last := rels[|rels| - 1];
      ProductBounds(FortuneScore(last.fortune), Weight(isStem, last));
    }
  }

  /** When every label is bad, the weighted scores reach at most the negated weights. */
  lemma {:induction false} AllBadSums(isStem: bool, rels: seq<RelationAnalysis>)
    requires AllBad(rels)
    ensures ScoreSum(isStem, rels) <= -WeightSum(isStem, rels)
  {
    if |rels| > 0 {
      var init := rels[..|rels| - 1];
      assert forall k :: 0 <= k < |init| ==> init[k] == rels[k];
      AllBadSums(isStem, init);
      var last := rels[|rels| - 1];
      ProductBounds(FortuneScore(last.fortune), Weight(isStem, last));
    }
  }

  /** A chart whose relations are all good is 길, and one whose relations are all bad is 흉. */
  lemma UniformVerdict(tengan: seq<RelationAnalysis>, jiji: seq<RelationAnalysis>)
    requires |tengan| + |jiji| > 0
    ensures AllGood(tengan) && AllGood(jiji) ==> OverallFortune(tengan, jiji) == "길"
    ensures AllBad(tengan) && AllBad(jiji) ==> OverallFortune(tengan, jiji) == "흉"
  {
    OverallFortuneBounds(tengan, jiji);
    var w := WeightSum(true, tengan) + WeightSum(false, jiji);
    var s := ScoreSum(true, tengan) + ScoreSum(false, jiji);
    assert OverallFortune(tengan, jiji) == Verdict(s / w);
    if AllGood(tengan) && AllGood(jiji) {
      AllGoodSums(true, tengan);
      AllGoodSums(false, jiji);
      DivCompare(s, w, 1.0);
      assert s / w >= 1.0;
    }
    if AllBad(tengan) && AllBad(jiji) {
      AllBadSums(true, tengan);
      AllBadSums(false, jiji);
      DivCompare(s, w, -1.0);
      assert s / w <= -1.0;
    }
  }

  /** 흉 < 소흉 < 평 < 소길 < 길. */
  function VerdictRank(v: string): nat {
    if v == "흉" then 0 else if v == "소흉" then 1 else if v == "평" then 2 else if v == "소길" then 3 else 4
  }

  /** A higher mean never gives a worse verdict. */
  lemma VerdictMonotone(a: real, b: real)
    requires a <= b
    ensures VerdictRank(Verdict(a)) <= VerdictRank(Verdict(b))
  {
  }

  // ---------------------------------------------------------------------------------------
  // Social relations

  predicate GoodLabel(fortune: string) {
    fortune in ["길", "대길"]
  }

  predicate BadLabel(fortune: string) {
    fortune in ["흉", "대흉"]
  }

  lemma LabelsDisjoint(fortune: string)
    ensures !(GoodLabel(fortune) && BadLabel(fortune))
  {
    if GoodLabel(fortune) {
      assert fortune[|fortune| - 1] == '길';
    }
  }

  predicate IsGood(r: RelationAnalysis) {
    GoodLabel(r.fortune)
  }

  predicate IsBad(r: RelationAnalysis) {
    BadLabel(r.fortune)
  }

  function GoodCount(rels: seq<RelationAnalysis>): (n: nat)
  {
    if |rels| == 0 then 0 else GoodCount(rels[..|rels| - 1]) + (if IsGood(rels[|rels| - 1]) then 1 else 0)
  }

  function BadCount(rels: seq<RelationAnalysis>): (n: nat)
  {
    if |rels| == 0 then 0 else BadCount(rels[..|rels| - 1]) + (if IsBad(rels[|rels| - 1]) then 1 else 0)
  }

  lemma CountsAppendEntry(xs: seq<RelationAnalysis>, e: seq<RelationAnalysis>)
    requires |e| <= 1
    ensures GoodCount(xs + e) == GoodCount(xs) + GoodCount(e)
    ensures BadCount(xs + e) == BadCount(xs) + BadCount(e)
  {
    if |e| == 1 {
      assert (xs + e)[..|xs + e| - 1] == xs;
    } else {
      assert xs + e == xs;
    }
  }

  /** No relation is both good and bad, so the two counts never exceed the relations. */
  lemma {:induction false} CountsDisjoint(rels: seq<RelationAnalysis>)
    ensures GoodCount(rels) + BadCount(rels) <= |rels|
  {
    if |rels| > 0 {
      CountsDisjoint(rels[..|rels| - 1]);
    }
  }

  /** 1 when the distinct pair (i, j) has a stored relation with a good label, else 0. */
  function GoodBit(t: Dict<string, Dict<string, TenganRelation>>, stems: seq<string>, i: nat, j: nat): nat
    requires i < |stems| && j < |stems|
  {
    var found := TenganLookup(t, stems[i], stems[j]);
    if i != j && found.Some? && GoodLabel(found.value.fortune) then 1 else 0
  }

  /** 1 when the distinct pair (i, j) has a stored relation with a bad label, else 0. */
  function BadBit(t: Dict<string, Dict<string, TenganRelation>>, stems: seq<string>, i: nat, j: nat): nat
    requires i < |stems| && j < |stems|
  {
    var found := TenganLookup(t, stems[i], stems[j]);
    if i != j && found.Some? && BadLabel(found.value.fortune) then 1 else 0
  }

  /** The pair (i, j) adds one to the good (bad) count exactly when it has a stored relation
      with a good (bad) label. */
  lemma TallyStep(t: Dict<string, Dict<string, TenganRelation>>, stems: seq<string>, i: nat, j: nat)
    requires |stems| == 4 && i < 4 && j < 4
    ensures GoodCount(TenganBefore(t, stems, i, j + 1)) == GoodCount(TenganBefore(t, stems, i, j)) + GoodBit(t, stems, i, j)
    ensures BadCount(TenganBefore(t, stems, i, j + 1)) == BadCount(TenganBefore(t, stems, i, j)) + BadBit(t, stems, i, j)
  {
    CountsAppendEntry(TenganBefore(t, stems, i, j), TenganEntry(t, stems, i, j));
    var entry := TenganEntry(t, stems, i, j);
    if |entry| == 1 {
      assert entry[..0] == [];
    }
  }

  /** The inner loop of `_analyze_relationship_potential` for the pairs starting at stem i:
      the good and bad counts grow by those of the row's stem relations. */
  method TallyRow(t: Dict<string, Dict<string, TenganRelation>>, stems: seq<string>, i: nat, good: nat, bad: nat)
    returns (good': nat, bad': nat)
    requires |stems| == 4 && i < 4
    requires good == GoodCount(TenganBefore(t, stems, i, 0)) && bad == BadCount(TenganBefore(t, stems, i, 0))
    ensures good' == GoodCount(TenganBefore(t, stems, i, 4)) && bad' == BadCount(TenganBefore(t, stems, i, 4))
  {
    good', bad' := good, bad;
    for j := 0 to 4
      invariant good' == GoodCount(TenganBefore(t, stems, i, j)) && bad' == BadCount(TenganBefore(t, stems, i, j))
    {
      TallyStep(t, stems, i, j);
      good', bad' := TallyPair(t, stems, i, j, good', bad');
    }
  }


  /** The body of the inner loop for the pair (i, j): count its stored relation as good or bad. */
  method TallyPair(t: Dict<string, Dict<string, TenganRelation>>, stems: seq<string>, i: nat, j: nat, good: nat, bad: nat)
    returns (good': nat, bad': nat)
    requires i < |stems| && j < |stems|
    ensures good' == good + GoodBit(t, stems, i, j) && bad' == bad + BadBit(t, stems, i, j)
  {
    good', bad' := good, bad;
    if i != j {
      var relation := TenganLookup(t, stems[i], stems[j]);
      if relation.Some? {
        LabelsDisjoint(relation.value.fortune);
        if GoodLabel(relation.value.fortune) {
          good' := good' + 1;
        } else if BadLabel(relation.value.fortune) {
          bad' := bad' + 1;
        }
      }
    }
  }

  /** The outer loop of `_analyze_relationship_potential`: the good and bad counts of all the
      stem relations of a chart. */
  method TallyRelations(t: Dict<string, Dict<string, TenganRelation>>, stems: seq<string>)
    returns (good: nat, bad: nat)
    requires |stems| == 4
    ensures good == GoodCount(TenganRelations(t, stems)) && bad == BadCount(TenganRelations(t, stems))
  {
    good, bad := 0, 0;
    for i := 0 to 4
      invariant var done := if i == 0 then [] else TenganBefore(t, stems, i - 1, 4);
                good == GoodCount(done) && bad == BadCount(done)
    {
      good, bad := TallyRow(t, stems, i, good, bad);
    }
  }

  /** `_analyze_relationship_potential`: 길 and 양호 when good relations outnumber bad ones,
      흉 and 주의 when bad ones outnumber good ones, 평 and 보통 on a tie. */
  method AnalyzeRelationshipPotential(t: Dict<string, Dict<string, TenganRelation>>, saju: SajuPalja)
    returns (r: RelationshipAnalysis)
    ensures var rels := TenganRelations(t, StemsOf(saju));
            (r.socialFortune == "길" <==> GoodCount(rels) > BadCount(rels)) &&
            (r.socialFortune == "흉" <==> BadCount(rels) > GoodCount(rels)) &&
            (r.socialFortune == "평" <==> GoodCount(rels) == BadCount(rels))
    ensures r.relationshipQuality == (if r.socialFortune == "길" then "양호" else if r.socialFortune == "흉" then "주의" else "보통")
    ensures |r.advice| == if r.socialFortune == "평" then 0 else 1
  {
    var goodRelations, badRelations := TallyRelations(t, StemsOf(saju));
    if goodRelations > badRelations {
      r := RelationshipAnalysis("길", "양호", ["원만한 대인관계가 가능합니다."]);
    } else if badRelations > goodRelations {
      r := RelationshipAnalysis("흉", "주의", ["인간관계에서 신중함이 필요합니다."]);
    } else {
      r := RelationshipAnalysis("평", "보통", []);
    }
  }

  /** The tally is bounded by the twelve ordered pairs. */
  lemma RelationshipTallyBounded(t: Dict<string, Dict<string, TenganRelation>>, stems: seq<string>)
    requires |stems| == 4
    ensures GoodCount(TenganRelations(t, stems)) + BadCount(TenganRelations(t, stems)) <= 12
  {
    CountsDisjoint(TenganRelations(t, stems));
    TenganRelationsCount(t, stems);
  }
}
