/** The complete compatibility analyzer: two charts are compared through the stem-relation
    matrix (day, month and hour stems), the seasons of their month branches and an optional
    match between one partner's current decade and the other's day pillar; a decade is rated
    for its owner by stem relation (30%), climate (調候, 60%) and useful god (用神, 10%); and
    ten decades are laid out from the month pillar. */
module CompatibilityAnalyzerComplete {
  import opened Common
  import opened Calendar
  import opened StartAgeCommon
  import AccurateDaeunCalculator
  import ApiDaeunCalculator
  import ManseryeokCalculator
  import DonsagongAnalyzer

  /** The chart object the analyzers read (stems and branches of the four pillars). */
  type Saju = DonsagongAnalyzer.SajuPalja

  /** One decade as the analyzers store it: order, ages, stem, branch and their pair. */
  type Block = ApiDaeunCalculator.ApiBlock

  /** The climate table: month branch, then decade branch, to a rating. */
  const JohuTable: map<string, map<string, string>> := map[
    "寅" := map[
        "寅" := "小吉", "卯" := "小吉", "辰" := "小吉", "巳" := "中吉", "午" := "大吉", "未" := "中吉",
        "申" := "大凶", "酉" := "大凶", "戌" := "大凶", "亥" := "大凶", "子" := "大凶", "丑" := "大凶"],
    "卯" := map[
        "寅" := "小吉", "卯" := "小吉", "辰" := "小吉", "巳" := "大吉", "午" := "大吉", "未" := "大吉",
        "申" := "凶", "酉" := "凶", "戌" := "凶", "亥" := "凶", "子" := "凶", "丑" := "凶"],
    "辰" := map[
        "寅" := "吉", "卯" := "吉", "辰" := "吉", "巳" := "吉", "午" := "吉", "未" := "吉",
        "申" := "吉", "酉" := "吉", "戌" := "凶", "亥" := "凶", "子" := "凶", "丑" := "凶"],
    "巳" := map[
        "寅" := "小吉", "卯" := "小吉", "辰" := "小吉", "巳" := "凶", "午" := "凶", "未" := "凶",
        "申" := "小吉", "酉" := "小吉", "戌" := "小吉", "亥" := "吉", "子" := "吉", "丑" := "吉"],
    "午" := map[
        "寅" := "中吉", "卯" := "小吉", "辰" := "小吉", "巳" := "凶", "午" := "凶", "未" := "凶",
        "申" := "吉", "酉" := "吉", "戌" := "吉", "亥" := "大吉", "子" := "大吉", "丑" := "大吉"],
    "未" := map[
        "寅" := "小吉", "卯" := "小吉", "辰" := "小吉", "巳" := "凶", "午" := "凶", "未" := "凶",
        "申" := "小吉", "酉" := "小吉", "戌" := "凶", "亥" := "大吉", "子" := "大吉", "丑" := "吉"],
    "申" := map[
        "寅" := "吉", "卯" := "吉", "辰" := "吉", "巳" := "大吉", "午" := "大吉", "未" := "大吉",
        "申" := "凶", "酉" := "凶", "戌" := "吉", "亥" := "凶", "子" := "凶", "丑" := "凶"],
    "酉" := map[
        "寅" := "小吉", "卯" := "小吉", "辰" := "小吉", "巳" := "大吉", "午" := "大吉", "未" := "大吉",
        "申" := "凶", "酉" := "凶", "戌" := "凶", "亥" := "凶", "子" := "凶", "丑" := "凶"],
    "戌" := map[
        "寅" := "小吉", "卯" := "小吉", "辰" := "小吉", "巳" := "吉", "午" := "吉", "未" := "吉",
        "申" := "小吉", "酉" := "小吉", "戌" := "小吉", "亥" := "凶", "子" := "凶", "丑" := "凶"],
    "亥" := map[
        "寅" := "小吉", "卯" := "小吉", "辰" := "小吉", "巳" := "大吉", "午" := "大吉", "未" := "大吉",
        "申" := "凶", "酉" := "凶", "戌" := "中吉", "亥" := "中大凶", "子" := "中大凶", "丑" := "中大凶"],
    "子" := map[
        "寅" := "小吉", "卯" := "小吉", "辰" := "小吉", "巳" := "大吉", "午" := "大吉", "未" := "大吉",
        "申" := "凶", "酉" := "凶", "戌" := "大吉", "亥" := "中大凶", "子" := "中大凶", "丑" := "中大凶"],
    "丑" := map[
        "寅" := "吉", "卯" := "吉", "辰" := "吉", "巳" := "大吉", "午" := "大吉", "未" := "大吉",
        "申" := "凶", "酉" := "凶", "戌" := "吉", "亥" := "中大吉", "子" := "中大吉", "丑" := "凶"]
  ]
  /** The points of each climate rating. */
  const JohuScores: map<string, int> :=
    map["大吉" := 100, "中大吉" := 95, "中吉" := 80, "吉" := 70, "小吉" := 60,
        "平" := 50, "凶" := 30, "中大凶" := 10, "大凶" := 5]

  /** The stem-relation matrix (own stem, then the other stem), held as its labels and
      its notes. */
const CheonganLabels: map<string, map<string, string>> := map[
    "甲" := map[
        "甲" := "平", "乙" := "凶", "丙" := "吉", "丁" := "吉凶", "戊" := "吉",
        "己" := "大凶", "庚" := "大凶", "辛" := "凶", "壬" := "凶", "癸" := "吉凶"],
    "乙" := map[
        "甲" := "吉", "乙" := "平", "丙" := "大吉", "丁" := "吉凶", "戊" := "吉",
        "己" := "吉", "庚" := "大凶", "辛" := "凶", "壬" := "凶", "癸" := "吉凶"],
    "丙" := map[
        "甲" := "吉", "乙" := "吉", "丙" := "平", "丁" := "凶", "戊" := "無",
        "己" := "無", "庚" := "凶", "辛" := "大凶", "壬" := "吉", "癸" := "吉凶"],
    "丁" := map[
        "甲" := "吉", "乙" := "吉", "丙" := "凶", "丁" := "平", "戊" := "吉",
        "己" := "吉", "庚" := "吉", "辛" := "吉", "壬" := "凶", "癸" := "凶"],
    "戊" := map[
        "甲" := "大吉", "乙" := "小吉", "丙" := "吉", "丁" := "吉凶", "戊" := "平",
        "己" := "凶", "庚" := "凶", "辛" := "凶", "壬" := "平", "癸" := "大凶"],
    "己" := map[
        "甲" := "凶", "乙" := "吉", "丙" := "吉", "丁" := "吉", "戊" := "凶",
        "己" := "平", "庚" := "凶", "辛" := "凶", "壬" := "凶", "癸" := "平"],
    "庚" := map[
        "甲" := "吉", "乙" := "凶", "丙" := "吉", "丁" := "吉", "戊" := "吉",
        "己" := "吉", "庚" := "平", "辛" := "凶", "壬" := "吉", "癸" := "吉凶"],
    "辛" := map[
        "甲" := "凶", "乙" := "吉", "丙" := "大吉", "丁" := "吉", "戊" := "凶",
        "己" := "凶", "庚" := "凶", "辛" := "平", "壬" := "吉", "癸" := "吉"],
    "壬" := map[
        "甲" := "吉", "乙" := "吉", "丙" := "凶", "丁" := "凶", "戊" := "平",
        "己" := "凶", "庚" := "吉", "辛" := "吉", "壬" := "平", "癸" := "凶"],
    "癸" := map[
        "甲" := "吉", "乙" := "吉", "丙" := "吉凶", "丁" := "凶", "戊" := "大凶",
        "己" := "平", "庚" := "吉", "辛" := "吉", "壬" := "凶", "癸" := "平"]
  ]

  const CheonganNotes: map<string, map<string, string>> := map[
    "甲" := map[
        "甲" := "原局で一緒にある時は凶", "乙" := "乙が甲を乗っ取る",
        "丙" := "副名になる", "丁" := "季節による",
        "戊" := "貴名", "己" := "甲己合。木を倒す",
        "庚" := "甲庚冲。木を割る", "辛" := "礼儀正しくなるが神経質に",
        "壬" := "病置例", "癸" := "水生木、木を強くする"],
    "乙" := map[
        "甲" := "同僚制感 - 甲木に乗って上昇", "乙" := "原局で一緒にある時は凶",
        "丙" := "花が太陽に会って貴くなる", "丁" := "季節による",
        "戊" := "風を防いで富になる", "己" := "野原に花が咲く",
        "庚" := "乙庚合。花が死ぬ", "辛" := "ハサミで花を切る",
        "壬" := "水をやって花を育てる", "癸" := "露を与えてより美しい花に"],
    "丙" := map[
        "甲" := "合一が生じる - 木を育てる", "乙" := "合一が生じる - 花を育てる",
        "丙" := "原局で一緒にある時は凶", "丁" := "火、夏は勝ち秋冬は負ける",
        "戊" := "感嘆があって価値がある", "己" := "太陽で乙を育てるので価値が少ない",
        "庚" := "丙庚合。太陽が鉄で消える", "辛" := "丙辛合。光が無意味になる",
        "壬" := "解決者の役割", "癸" := "季節による"],
    "丁" := map[
        "甲" := "ランプが木を照らす", "乙" := "花とランプの調和",
        "丙" := "太陽にランプは無意味", "丁" := "原局で一緒にある時は凶",
        "戊" := "火生土", "己" := "火生土",
        "庚" := "丁火が金を鍛錬", "辛" := "宝石を作る",
        "壬" := "水が火を消す", "癸" := "露がランプを消す"],
    "戊" := map[
        "甲" := "山に木が育ち名山になる。富名", "乙" := "大きな山が苗木に会い小山に",
        "丙" := "火生土、強くしてくれる", "丁" := "強くする。木と一緒にいると駄目",
        "戊" := "原局で一緒にある時は凶", "己" := "山が地に降りた。格が下がる",
        "庚" := "土生金で力が抜ける", "辛" := "甲木は弱く、乙木は壊れる",
        "壬" := "ダムのように山が川を止める", "癸" := "戊癸合。丙火を消して良くない"],
    "己" := map[
        "甲" := "甲己合。欲張りになる", "乙" := "野原に花を咲かせる",
        "丙" := "乙が来れば収穫物が生じる", "丁" := "火生土。秋冬には必要",
        "戊" := "いつでも奪われる危険", "己" := "原局で一緒にある時は凶",
        "庚" := "甲木が雹に打たれる", "辛" := "甲木が雹に打たれる",
        "壬" := "水浸しになる", "癸" := "堤防、堤のようだ"],
    "庚" := map[
        "甲" := "丁火と一緒なら大吉", "乙" := "乙庚合。お互い疲れる",
        "丙" := "冷たい金の性向が温かくなる", "丁" := "道具になって用途が良くなる",
        "戊" := "土生金で力が強くなる、やや鈍感", "己" := "土生金で力が強くなる",
        "庚" := "原局で一緒にある時は凶", "辛" := "私のものを分けて食べるので良くない",
        "壬" := "水を作り出す", "癸" := "水を作るが錆びる"],
    "辛" := map[
        "甲" := "宝石が木に埋もれる", "乙" := "宝石が花を飾る",
        "丙" := "丙辛合。宝石が輝く", "丁" := "丁火が宝石を鍛錬",
        "戊" := "宝石が土に埋もれる", "己" := "宝石が汚れる",
        "庚" := "大きな金が小さな金を圧倒", "辛" := "原局で一緒にある時は凶",
        "壬" := "金生水", "癸" := "金生水"],
    "壬" := map[
        "甲" := "水生木", "乙" := "水生木",
        "丙" := "水克火", "丁" := "水克火",
        "戊" := "土克水だがダムの役割", "己" := "土克水",
        "庚" := "金生水", "辛" := "金生水",
        "壬" := "原局で一緒にある時は凶", "癸" := "大きな水が小さな水を吸収"],
    "癸" := map[
        "甲" := "水生木", "乙" := "水生木",
        "丙" := "季節による", "丁" := "露がランプを消す",
        "戊" := "戊癸合", "己" := "己土が癸水を止める",
        "庚" := "金生水", "辛" := "金生水",
        "壬" := "小さな水が大きな水に吸収", "癸" := "原局で一緒にある時は凶"]
  ]

  /** `get_season_from_branch`. */
  function SeasonOf(branch: string): string {
    if branch == "寅" || branch == "卯" || branch == "辰" then "春"
    else if branch == "巳" || branch == "午" || branch == "未" then "夏"
    else if branch == "申" || branch == "酉" || branch == "戌" then "秋"
    else if branch == "亥" || branch == "子" || branch == "丑" then "冬"
    else "不明"
  }

  /** Three branches per season, 不明 for anything else. */
  lemma SeasonOfSpec(branch: string)
    ensures SeasonOf(branch) == "春" <==> branch == "寅" || branch == "卯" || branch == "辰"
    ensures SeasonOf(branch) == "夏" <==> branch == "巳" || branch == "午" || branch == "未"
    ensures SeasonOf(branch) == "秋" <==> branch == "申" || branch == "酉" || branch == "戌"
    ensures SeasonOf(branch) == "冬" <==> branch == "亥" || branch == "子" || branch == "丑"
    ensures SeasonOf(branch) == "不明" <==> branch !in Branches
  {
  }

  /** The label half of `analyze_cheongan_relation`. */
  function RelationLabel(own: string, other: string): string {
    if own in CheonganLabels && other in CheonganLabels[own] then CheonganLabels[own][other] else "平"
  }

  /** The note half of `analyze_cheongan_relation`, present exactly where the label is. */
  function RelationNote(own: string, other: string): string {
    if own in CheonganLabels && other in CheonganLabels[own] && own in CheonganNotes && other in CheonganNotes[own]
    then CheonganNotes[own][other]
    else "一般関係"
  }

  /** `analyze_cheongan_relation`: the matrix entry for two stems, and the neutral pair for
      anything else. */
  function CheonganRelation(own: string, other: string): (string, string) {
    (RelationLabel(own, other), RelationNote(own, other))
  }

  /** Every pair of stems has an entry in both halves of the matrix. */
  lemma CheonganRelationOnStems(own: string, other: string)
    requires own in Stems && other in Stems
    ensures own in CheonganLabels && other in CheonganLabels[own]
    ensures own in CheonganNotes && other in CheonganNotes[own]
    ensures CheonganRelation(own, other) == (CheonganLabels[own][other], CheonganNotes[own][other])
  {
  }

  /** A pair with a non-stem falls back to ('平', '一般関係'). */
  lemma CheonganRelationOffStems(own: string, other: string)
    requires own !in Stems || other !in Stems
    ensures CheonganRelation(own, other) == ("平", "一般関係")
  {
    LabelKeys();
  }

  /** The matrix has exactly the stems as rows and as columns. */
  lemma LabelKeys()
    ensures CheonganLabels.Keys == set s | s in Stems
    ensures forall own :: own in CheonganLabels ==> CheonganLabels[own].Keys == set s | s in Stems
  {
  }

  /** `get_relation_score`: the substring tests in order 大吉, 吉, 平 or 無, 大凶, 凶. */
  function RelationScore(relation: string): (r: int)
    ensures 10 <= r <= 100
    ensures r == 100 <==> Contains(relation, "大吉")
    ensures r == 70 <==> Contains(relation, "吉") && !Contains(relation, "大吉")
  {
    if Contains(relation, "大吉") then 100
    else if Contains(relation, "吉") then 70
    else if Contains(relation, "平") || Contains(relation, "無") then 50
    else if Contains(relation, "大凶") then 10
    else if Contains(relation, "凶") then 30
    else 50
  }

  /** A label marked neither 吉 nor 凶 scores 50: 大凶 is checked only after 平 and 無, but it
      always carries 凶. */
  lemma RelationScoreUnmarked(relation: string)
    requires !Contains(relation, "吉") && !Contains(relation, "凶")
    ensures RelationScore(relation) == 50
  {
    if Contains(relation, "大凶") {
      assert "大凶" == ['大'] + "凶";
      DonsagongAnalyzer.ContainsTail(relation, '大', "凶");
    }
  }

  /** The scores of the matrix's labels marked 吉; a mixed 吉凶 counts as 吉. */
  lemma RelationScoreOfGoodLabels()
    ensures RelationScore("大吉") == 100 && RelationScore("吉") == 70 && RelationScore("小吉") == 70
    ensures RelationScore("吉凶") == 70
  {
    var labels := ["大吉", "吉", "小吉", "吉凶"];
    forall i | 0 <= i < |labels|
      ensures Contains(labels[i], "吉") <==> '吉' in labels[i]
    {
      ContainsChar(labels[i], '吉');
    }
    forall i | 0 <= i < |labels|
      ensures Contains(labels[i], "大吉") <==> labels[i] == "大吉"
    {
      ContainsPair(labels[i], "大吉");
    }
    assert labels[0] == "大吉" && labels[2] == "小吉" && '吉' in labels[2];
  }

  /** The scores of the other labels of the matrix: 平 and 無 50, 大凶 10, 凶 30. */
  lemma RelationScoreOfOtherLabels()
    ensures RelationScore("平") == 50 && RelationScore("無") == 50
    ensures RelationScore("大凶") == 10 && RelationScore("凶") == 30
  {
    var labels := ["平", "無", "大凶", "凶"];
    forall i, c | 0 <= i < |labels| && c in "吉凶平無"
      ensures Contains(labels[i], [c]) <==> c in labels[i]
    {
      ContainsChar(labels[i], c);
    }
    forall i | 0 <= i < |labels|
      ensures !Contains(labels[i], "大吉") && (Contains(labels[i], "大凶") <==> labels[i] == "大凶")
    {
      ContainsPair(labels[i], "大吉");
      ContainsPair(labels[i], "大凶");
    }
    assert labels[2] == "大凶";
  }

  /** A one-character needle occurs exactly when the character does. */
  lemma {:induction false} ContainsChar(hay: string, c: char)
    ensures Contains(hay, [c]) <==> c in hay
    decreases |hay|
  {
    if |hay| > 0 {
      ContainsChar(hay[1..], c);
      assert hay == [hay[0]] + hay[1..];
    }
  }

  /** In a haystack of at most two characters, a two-character needle occurs only as the
      whole haystack. */
  lemma ContainsPair(hay: string, needle: string)
    requires |hay| <= 2 && |needle| == 2
    ensures Contains(hay, needle) <==> hay == needle
  {
    if |hay| > 0 {
      NotContainsLonger(hay[1..], needle);
    }
  }

  /** A needle longer than the haystack never occurs in it. */
  lemma {:induction false} NotContainsLonger(hay: string, needle: string)
    requires |hay| < |needle|
    ensures !Contains(hay, needle)
    decreases |hay|
  {
    if |hay| > 0 {
      NotContainsLonger(hay[1..], needle);
    }
  }

  /** A useful-god entry: the useful stems and the useful branches. */
  datatype Useful = Useful(stems: seq<string>, branches: seq<string>)

  /** The useful gods of four day stems by season; the other six stems have no entry. */
  const YongshinDb: map<string, map<string, Useful>> := map[
    "庚" := map[
        "春" := Useful(["丙", "甲"], ["辰"]),
        "夏" := Useful(["壬", "甲"], ["辰", "申", "子"]),
        "秋" := Useful(["丁", "丙", "甲", "壬"], ["寅"]),
        "冬" := Useful(["戊", "丁", "甲"], ["寅", "午", "戌", "未"])],
    "戊" := map[
        "春" := Useful(["甲", "乙", "丙"], ["辰"]),
        "夏" := Useful(["甲", "乙", "丙"], ["辰", "申", "子"]),
        "秋" := Useful(["甲", "乙", "丙", "丁"], ["寅", "卯", "辰"]),
        "冬" := Useful(["丁", "丙", "甲", "乙"], ["午", "戌", "未"])],
    "丁" := map[
        "春" := Useful(["甲", "乙", "庚"], ["辰"]),
        "夏" := Useful([], ["辰", "申", "子"]),
        "秋" := Useful(["甲", "乙", "庚", "戊", "己"], ["寅"]),
        "冬" := Useful(["甲", "乙", "庚", "戊", "己"], ["午", "戌", "未"])],
    "壬" := map[
        "春" := Useful(["庚", "辛"], ["辰"]),
        "夏" := Useful(["庚", "辛"], ["辰", "申"]),
        "秋" := Useful(["甲", "丙", "庚", "辛"], ["寅"]),
        "冬" := Useful(["丙", "戊"], ["午", "戌", "未"])]
  ]

  /** The entry for a day stem in the season of a month branch, when there is one. */
  function UsefulFor(dayStem: string, monthBranch: string): (u: Option<Useful>)
    ensures u.Some? <==> dayStem in ["庚", "戊", "丁", "壬"] && monthBranch in Branches
    ensures u.Some? ==> forall x <- u.value.stems :: x in Stems
    ensures u.Some? ==> forall x <- u.value.branches :: |x| == 1
  {
    var season := SeasonOf(monthBranch);
    YongshinDbShape(dayStem, season);
    SeasonOfSpec(monthBranch);
    if dayStem in YongshinDb && season in YongshinDb[dayStem] then Some(YongshinDb[dayStem][season])
    else None
  }

  /** The table has the four day stems, each with the four seasons, and lists only stems
      as useful stems. */
  lemma YongshinDbShape(dayStem: string, season: string)
    ensures dayStem in YongshinDb && season in YongshinDb[dayStem] <==>
            dayStem in ["庚", "戊", "丁", "壬"] && season in ["春", "夏", "秋", "冬"]
    ensures dayStem in YongshinDb && season in YongshinDb[dayStem] ==>
            forall x <- YongshinDb[dayStem][season].stems :: x in Stems
    ensures dayStem in YongshinDb && season in YongshinDb[dayStem] ==>
            forall x <- YongshinDb[dayStem][season].branches :: |x| == 1
  {
    YongshinDbKeys(dayStem, season);
    if dayStem in YongshinDb && season in YongshinDb[dayStem] {
      YongshinDbStems(dayStem, season);
    }
  }

  lemma YongshinDbKeys(dayStem: string, season: string)
    ensures dayStem in YongshinDb && season in YongshinDb[dayStem] <==>
            dayStem in ["庚", "戊", "丁", "壬"] && season in ["春", "夏", "秋", "冬"]
  {
    assert YongshinDb.Keys == {"庚", "戊", "丁", "壬"};
    if dayStem in YongshinDb {
      assert YongshinDb[dayStem].Keys == {"春", "夏", "秋", "冬"};
    }
  }

  lemma YongshinDbStems(dayStem: string, season: string)
    requires dayStem in YongshinDb && season in YongshinDb[dayStem]
    ensures forall x <- YongshinDb[dayStem][season].stems :: x in Stems
    ensures forall x <- YongshinDb[dayStem][season].branches :: |x| == 1
  {
    YongshinDbKeys(dayStem, season);
  }

  /** `check_yongshin` as written: a one-character target is looked up among the useful
      stems, anything longer among the useful branches. Branches are one character too, so
      a branch is never found useful. */
  function CheckYongshinAsWritten(dayStem: string, monthBranch: string, target: string): (r: bool)
    ensures r ==> dayStem in ["庚", "戊", "丁", "壬"] && target in Stems
  {
    match UsefulFor(dayStem, monthBranch)
    case None => false
    case Some(u) => if |target| == 1 then target in u.stems else target in u.branches
  }

  /** `check_yongshin` as evidently intended: a stem is looked up among the useful stems and
      anything else among the useful branches. */
  function CheckYongshin(dayStem: string, monthBranch: string, target: string): (r: bool)
    ensures r ==> dayStem in ["庚", "戊", "丁", "壬"] && monthBranch in Branches
  {
    match UsefulFor(dayStem, monthBranch)
    case None => false
    case Some(u) => if target in Stems then target in u.stems else target in u.branches
  }

  /** On stems the two readings agree: every stem is one character long. */
  lemma YongshinAgreesOnStems(dayStem: string, monthBranch: string, target: string)
    requires target in Stems
    ensures CheckYongshin(dayStem, monthBranch, target) == CheckYongshinAsWritten(dayStem, monthBranch, target)
  {
  }

  /** As written, no branch is ever a useful god, so the spouse palace (the day branch) and a
      decade's branch are never found useful. */
  lemma BranchNeverUsefulAsWritten(dayStem: string, monthBranch: string, branch: string)
    requires branch in Branches
    ensures !CheckYongshinAsWritten(dayStem, monthBranch, branch)
  {
    BranchNotStem(branch);
  }

  lemma BranchNotStem(x: string)
    requires x in Branches
    ensures x !in Stems
  {
  }

  /** A 庚 day in a 寅 (spring) month has 辰 among its useful branches, which the written
      check misses. */
  lemma YongshinBranchCounterexample()
    ensures !CheckYongshinAsWritten("庚", "寅", "辰")
    ensures CheckYongshin("庚", "寅", "辰")
  {
    GengInSpring();
    assert "辰" !in Stems;
  }

  /** `check_spouse_palace_yongshin`: whether the day branch is a useful god of the chart,
      through the check as written, so never for a day branch that is a branch. */
  function SpousePalaceYongshin(p: Saju): (r: bool)
    ensures p.dayBranch in Branches ==> !r
  {
    assert p.dayBranch in Branches ==> !CheckYongshinAsWritten(p.dayStem, p.monthBranch, p.dayBranch) by {
      if p.dayBranch in Branches {
        BranchNeverUsefulAsWritten(p.dayStem, p.monthBranch, p.dayBranch);
      }
    }
    CheckYongshinAsWritten(p.dayStem, p.monthBranch, p.dayBranch)
  }

  /** The spouse palace as evidently intended: the day branch looked up with the corrected
      check. */
  function SpousePalaceYongshinCorrected(p: Saju): bool {
    CheckYongshin(p.dayStem, p.monthBranch, p.dayBranch)
  }

  /** With the corrected check the spouse palace is looked up among the useful branches. */
  lemma SpousePalaceReadsBranches(p: Saju)
    requires p.dayBranch in Branches
    ensures SpousePalaceYongshinCorrected(p) <==> UsefulFor(p.dayStem, p.monthBranch).Some? &&
                                                  p.dayBranch in UsefulFor(p.dayStem, p.monthBranch).value.branches
  {
    BranchNotStem(p.dayBranch);
  }

  /** The climate points of a decade branch under a month branch: the table's rating scored
      (50 for a rating without points), 50 when the pair is not in the table. */
  function JohuScore(monthBranch: string, daeunBranch: string): (j: int)
    ensures 5 <= j <= 100
    ensures monthBranch !in Branches || daeunBranch !in Branches ==> j == 50
  {
    if monthBranch in JohuTable && daeunBranch in JohuTable[monthBranch] then
      var rating := JohuTable[monthBranch][daeunBranch];
      if rating in JohuScores then JohuScores[rating] else 50
    else 50
  }

  /** The rating reported beside the climate points (平 when the pair is not in the table). */
  function JohuRating(monthBranch: string, daeunBranch: string): string {
    if monthBranch in JohuTable && daeunBranch in JohuTable[monthBranch] then JohuTable[monthBranch][daeunBranch]
    else "平"
  }

  /** What `evaluate_daeun_for_person` returns. */
  datatype DaeunRating = DaeunRating(total: real, tiangang: int, johu: int, yongshin: int,
                                     tiangangRel: string, johuRating: string)

  /** The decade rating for a useful-god test `useful`: 30% stem relation, 60% climate and
      10% useful god, the last 100 when the decade's stem or branch passes the test and 50
      otherwise. */
  function RateDaeun(p: Saju, daeunStem: string, daeunBranch: string, useful: (string, string, string) -> bool): (e: DaeunRating)
    ensures e.total == 3.0 / 10.0 * e.tiangang as real + 6.0 / 10.0 * e.johu as real + 1.0 / 10.0 * e.yongshin as real
    ensures e.tiangang == RelationScore(RelationLabel(p.dayStem, daeunStem))
    ensures e.johu == JohuScore(p.monthBranch, daeunBranch)
    ensures e.yongshin == 100 <==>
      useful(p.dayStem, p.monthBranch, daeunStem) || useful(p.dayStem, p.monthBranch, daeunBranch)
    ensures e.yongshin == 50 || e.yongshin == 100
  {
    var t := RelationScore(RelationLabel(p.dayStem, daeunStem));
    var j := JohuScore(p.monthBranch, daeunBranch);
    var y := if useful(p.dayStem, p.monthBranch, daeunStem) || useful(p.dayStem, p.monthBranch, daeunBranch)
             then 100 else 50;
    DaeunRating(t as real * 0.3 + j as real * 0.6 + y as real * 0.1, t, j, y, RelationLabel(p.dayStem, daeunStem), JohuRating(p.monthBranch, daeunBranch))
  }

  /** `evaluate_daeun_for_person`, with `check_yongshin` as written: the useful score is 100
      exactly when the decade's stem is a useful stem, since a decade branch never passes. */
  function EvaluateDaeunForPerson(p: Saju, daeunStem: string, daeunBranch: string): (e: DaeunRating)
    ensures e.total == 3.0 / 10.0 * e.tiangang as real + 6.0 / 10.0 * e.johu as real + 1.0 / 10.0 * e.yongshin as real
    ensures e.tiangang == RelationScore(RelationLabel(p.dayStem, daeunStem))
    ensures e.johu == JohuScore(p.monthBranch, daeunBranch)
    ensures e.yongshin == 50 || e.yongshin == 100
    ensures daeunBranch in Branches ==>
              (e.yongshin == 100 <==> CheckYongshinAsWritten(p.dayStem, p.monthBranch, daeunStem))
  {
    assert daeunBranch in Branches ==> !CheckYongshinAsWritten(p.dayStem, p.monthBranch, daeunBranch) by {
      if daeunBranch in Branches {
        BranchNeverUsefulAsWritten(p.dayStem, p.monthBranch, daeunBranch);
      }
    }
    RateDaeun(p, daeunStem, daeunBranch, CheckYongshinAsWritten)
  }

  /** The decade rating as evidently intended, with the corrected useful-god check. */
  function EvaluateDaeunCorrected(p: Saju, daeunStem: string, daeunBranch: string): (e: DaeunRating)
    ensures e.yongshin == 100 <==>
      CheckYongshin(p.dayStem, p.monthBranch, daeunStem) || CheckYongshin(p.dayStem, p.monthBranch, daeunBranch)
  {
    RateDaeun(p, daeunStem, daeunBranch, CheckYongshin)
  }

  /** The two ratings differ only in the useful score, by at most 50 points (5 in the total),
      and only the corrected one rewards a useful decade branch: for a 庚 day in a 寅 month a
      乙辰 decade scores 50 as written and 100 corrected. */
  lemma EvaluateDaeunAsWrittenVersusCorrected(p: Saju, daeunStem: string, daeunBranch: string)
    requires daeunStem in Stems
    ensures var w := EvaluateDaeunForPerson(p, daeunStem, daeunBranch);
            var c := EvaluateDaeunCorrected(p, daeunStem, daeunBranch);
            w.(yongshin := c.yongshin, total := c.total) == c && w.yongshin <= c.yongshin &&
            c.total - w.total == (c.yongshin - w.yongshin) as real / 10.0
    ensures var p2 := p.(dayStem := "庚", monthBranch := "寅");
            EvaluateDaeunForPerson(p2, "乙", "辰").yongshin == 50 &&
            EvaluateDaeunCorrected(p2, "乙", "辰").yongshin == 100
  {
    YongshinAgreesOnStems(p.dayStem, p.monthBranch, daeunStem);
    var p2 := p.(dayStem := "庚", monthBranch := "寅");
    YongshinBranchCounterexample();
    EvaluateBranchOnly(p2);
  }

  lemma EvaluateBranchOnly(p2: Saju)
    requires p2.dayStem == "庚" && p2.monthBranch == "寅"
    ensures !CheckYongshinAsWritten(p2.dayStem, p2.monthBranch, "乙")
    ensures EvaluateDaeunForPerson(p2, "乙", "辰").yongshin == 50
  {
    GengInSpring();
    assert !CheckYongshinAsWritten(p2.dayStem, p2.monthBranch, "乙");
    assert "辰" in Branches;
  }

  /** A 庚 day in a 寅 month reads the spring entry of 庚: stems 丙 and 甲, branch 辰. */
  lemma GengInSpring()
    ensures UsefulFor("庚", "寅") == Some(Useful(["丙", "甲"], ["辰"]))
  {
    assert SeasonOf("寅") == "春";
  }

  /** A decade's overall rating lies between 11 (10, 5 and 50) and 100. */
  lemma DaeunRatingBounds(p: Saju, daeunStem: string, daeunBranch: string)
    ensures 11.0 <= EvaluateDaeunForPerson(p, daeunStem, daeunBranch).total <= 100.0
  {
    var e := EvaluateDaeunForPerson(p, daeunStem, daeunBranch);
    assert 10 <= e.tiangang <= 100 && 5 <= e.johu <= 100;
  }

  /** Travel is forward for a yang year stem and a male, or a yin year stem and a female. */
  predicate Forward(yearIdx: StemIdx, gender: string) {
    (IsYang(yearIdx) && gender == "male") || (!IsYang(yearIdx) && gender == "female")
  }

  /** The start age used when the accurate calculator raises: one more than the last digit
      of the birth day forward, ten less backward. The clamp to [1, 10] never changes it. */
  function FallbackAge(day: int, forward: bool): (a: int)
    ensures 1 <= a <= 10
    ensures forward ==> a == 1 + day % 10
    ensures !forward ==> a == 10 - day % 10
  {
    var f := day % 10;
    var a := if forward then 1 + f else 10 - f;
    if a < 1 then 1 else if a > 10 then 10 else a
  }

  /** What the `try` block leaves in `starting_age`: an integer (the calculator's bare 5 when
      no term is stored, or the fallback when the calculator raises, including when its
      database file is missing) or the calculator's result record. */
  datatype AgeValue = Whole(n: int) | Record(outcome: AccurateDaeunCalculator.AgeOutcome)

  /** The `try` block; a naive birth is read in Korean time. */
  function TryStartingAge(db: Option<AccurateDaeunCalculator.TermDatabase>, birth: Civil, gender: string,
                          yearStem: string, forward: bool): (v: AgeValue)
    ensures v.Whole? && db.Some? &&
            AccurateDaeunCalculator.StartingAge(db.value, Aware(birth, KstOffset), gender, yearStem).Ok? ==>
              v.n == 5
    ensures v.Whole? && (db.None? ||
                         AccurateDaeunCalculator.StartingAge(db.value, Aware(birth, KstOffset), gender, yearStem).Err?) ==>
              v.n == FallbackAge(birth.day, forward)
  {
    if db.None? then Whole(FallbackAge(birth.day, forward))
    else
      match AccurateDaeunCalculator.StartingAge(db.value, Aware(birth, KstOffset), gender, yearStem)
      case Err(_) => Whole(FallbackAge(birth.day, forward))
      case Ok(o) => if o.DefaultAge? then Whole(o.age) else Record(o)
  }

  /** What `calculate_daeun` returns: the direction label, the start age and the decades. */
  datatype DaeunPlan = DaeunPlan(direction: string, startingAge: int, blocks: seq<Block>)

  /** The direction and the month pillar's indices, or the ValueError of `list.index`. */
  function PlanBasis(s: Saju, gender: string): (r: Result<(bool, StemIdx, BranchIdx)>)
    ensures r.Err? <==> s.yearStem !in Stems || s.monthStem !in Stems || s.monthBranch !in Branches
    ensures r.Ok? ==> Stems[r.value.1] == s.monthStem && Branches[r.value.2] == s.monthBranch &&
                      (r.value.0 <==> Forward(IndexOf(Stems, s.yearStem).value, gender))
  {
    var y := IndexOf(Stems, s.yearStem);
    var ms := IndexOf(Stems, s.monthStem);
    var mb := IndexOf(Branches, s.monthBranch);
    if y.None? || ms.None? || mb.None? then Err("ValueError: is not in list")
    else Ok((Forward(y.value, gender), ms.value, mb.value))
  }

  /** `calculate_daeun` as written: when the accurate calculator returns its record, the
      record itself is added to the decade offsets and the call raises a TypeError. */
  function CalculateDaeunAsWritten(s: Saju, gender: string, birth: Civil,
                                   db: Option<AccurateDaeunCalculator.TermDatabase>): (r: Result<DaeunPlan>)
    ensures PlanBasis(s, gender).Err? ==> r.Err?
    ensures PlanBasis(s, gender).Ok? ==>
              (r.Err? <==> TryStartingAge(db, birth, gender, s.yearStem, PlanBasis(s, gender).value.0).Record?)
    ensures r.Ok? ==> r == DaeunPlanFor(s, gender, birth, db)
  {
    match PlanBasis(s, gender)
    case Err(e) => Err(e)
    case Ok((forward, ms, mb)) =>
      match TryStartingAge(db, birth, gender, s.yearStem, forward)
      case Record(_) => Err("TypeError: unsupported operand type(s) for +: 'dict' and 'int'")
      case Whole(age) =>
        Ok(DaeunPlan(if forward then "順行" else "逆行", age,
                     ApiDaeunCalculator.DaeunPrefix(age, ms, mb, if forward then 1 else -1, 10)))
  }

  /** The start age as evidently intended: the record's whole years. */
  function AgeOf(v: AgeValue): int {
    match v
    case Whole(n) => n
    case Record(o) => if o.DefaultAge? then o.age else o.startingAge
  }

  /** `calculate_daeun` as evidently intended: ten decades from the month pillar, the first
      starting at the calculator's whole years (or the fallback age). */
  function DaeunPlanFor(s: Saju, gender: string, birth: Civil,
                        db: Option<AccurateDaeunCalculator.TermDatabase>): Result<DaeunPlan>
  {
    match PlanBasis(s, gender)
    case Err(e) => Err(e)
    case Ok((forward, ms, mb)) =>
      var age := AgeOf(TryStartingAge(db, birth, gender, s.yearStem, forward));
      Ok(DaeunPlan(if forward then "順行" else "逆行", age,
                   ApiDaeunCalculator.DaeunPrefix(age, ms, mb, if forward then 1 else -1, 10)))
  }

  /** The written and the intended calculation differ only where the calculator returns its
      record: there the written one raises. */
  lemma AsWrittenRaisesOnRecord(s: Saju, gender: string, birth: Civil,
                                db: Option<AccurateDaeunCalculator.TermDatabase>, forward: bool)
    requires PlanBasis(s, gender).Ok? && forward == PlanBasis(s, gender).value.0
    ensures TryStartingAge(db, birth, gender, s.yearStem, forward).Record? ==>
              CalculateDaeunAsWritten(s, gender, birth, db).Err? && DaeunPlanFor(s, gender, birth, db).Ok?
    ensures TryStartingAge(db, birth, gender, s.yearStem, forward).Whole? ==>
              CalculateDaeunAsWritten(s, gender, birth, db) == DaeunPlanFor(s, gender, birth, db)
  {
  }

  /** The calculator returns its record whenever it finds the term and the birthday it
      counts from exists, so the written calculation raises for every such birth. */
  lemma RecordWhenTermFound(s: Saju, gender: string, birth: Civil, db: AccurateDaeunCalculator.TermDatabase)
    requires PlanBasis(s, gender).Ok?
    requires AccurateDaeunCalculator.StartingAge(db, Aware(birth, KstOffset), gender, s.yearStem).Ok?
    requires AccurateDaeunCalculator.TermSought(db, Aware(birth, KstOffset), gender, s.yearStem).Some?
    ensures CalculateDaeunAsWritten(s, gender, birth, Some(db)).Err?
  {
    AccurateDaeunCalculator.StartingAgeSpec(db, Aware(birth, KstOffset), gender, s.yearStem);
  }

  /** `calculate_daeun` (as evidently intended): the ten decades are appended one by one. */
  method CalculateDaeun(s: Saju, gender: string, birth: Civil, db: Option<AccurateDaeunCalculator.TermDatabase>)
    returns (r: Result<DaeunPlan>)
    ensures r == DaeunPlanFor(s, gender, birth, db)
  {
    var basis := PlanBasis(s, gender);
    if basis.Err? {
      return Err(basis.msg);
    }
    var forward, ms, mb := basis.value.0, basis.value.1, basis.value.2;
    var direction := if forward then 1 else -1;
    var startingAge := AgeOf(TryStartingAge(db, birth, gender, s.yearStem, forward));
    var daeunList: seq<Block> := [];
    var i := 0;
    while i < 10
      invariant 0 <= i <= 10
      invariant daeunList == ApiDaeunCalculator.DaeunPrefix(startingAge, ms, mb, direction, i)
    {
      daeunList := daeunList + [ApiDaeunCalculator.ApiBlockAt(startingAge, ms, mb, direction, i)];
      i := i + 1;
    }
    r := Ok(DaeunPlan(if forward then "順行" else "逆行", startingAge, daeunList));
  }

  /** A plan has ten decades from its start age, which lies in [0, 10] (in [1, 10] when the
      fallback is used because the database is missing). */
  lemma DaeunPlanShape(s: Saju, gender: string, birth: Civil, db: Option<AccurateDaeunCalculator.TermDatabase>)
    ensures var r := DaeunPlanFor(s, gender, birth, db);
            r.Ok? ==> |r.value.blocks| == 10 && r.value.blocks[0].startAge == r.value.startingAge &&
                      r.value.blocks[9].endAge == r.value.startingAge + 99 &&
                      0 <= r.value.startingAge <= 10 &&
                      (db.None? ==> 1 <= r.value.startingAge)
  {
    var basis := PlanBasis(s, gender);
    if basis.Ok? && db.Some? {
      AccurateDaeunCalculator.StartingAgeSpec(db.value, Aware(birth, KstOffset), gender, s.yearStem);
    }
  }

  /** One scoring rule's contribution to one partner: points and the detail line, if any. */
  datatype Adjust = Adjust(points: int, lines: seq<string>)

  /** The day-stem rule: 大吉 +40, 吉 +30, 大凶 -30, 凶 -20, checked in that order. */
  function DayAdjust(mark: string): (a: Adjust)
    ensures -30 <= a.points <= 40
    ensures a.points > 0 <==> Contains(mark, "吉")
    ensures a.points == 0 <==> !Contains(mark, "吉") && !Contains(mark, "凶")
    ensures |a.lines| == (if a.points == 0 then 0 else 1)
  {
    assert "大吉" == ['大'] + "吉" && "大凶" == ['大'] + "凶";
    if Contains(mark, "大吉") then
      DonsagongAnalyzer.ContainsTail(mark, '大', "吉");
      Adjust(40, ["日干：大吉 +40"])
    else if Contains(mark, "吉") then Adjust(30, ["日干：吉 +30"])
    else if Contains(mark, "大凶") then
      DonsagongAnalyzer.ContainsTail(mark, '大', "凶");
      Adjust(-30, ["日干：大凶 -30"])
    else if Contains(mark, "凶") then Adjust(-20, ["日干：凶 -20"])
    else Adjust(0, [])
  }

  /** A two-way rule: `up` points when the label carries 吉, else `down` when it carries 凶. */
  function MarkAdjust(mark: string, up: int, upLine: string, down: int, downLine: string): (a: Adjust)
    ensures Contains(mark, "吉") ==> a == Adjust(up, [upLine])
    ensures !Contains(mark, "吉") && Contains(mark, "凶") ==> a == Adjust(down, [downLine])
    ensures !Contains(mark, "吉") && !Contains(mark, "凶") ==> a == Adjust(0, [])
  {
    if Contains(mark, "吉") then Adjust(up, [upLine])
    else if Contains(mark, "凶") then Adjust(down, [downLine])
    else Adjust(0, [])
  }

  /** The month-stem rule: +15 / -10. */
  function MonthAdjust(mark: string): Adjust {
    MarkAdjust(mark, 15, "月干：吉 +15", -10, "月干：凶 -10")
  }

  /** The hour-stem rule: +10 / -5. */
  function HourAdjust(mark: string): Adjust {
    MarkAdjust(mark, 10, "時干：吉 +10", -5, "時干：凶 -5")
  }

  const OppositeSeasons: map<string, string> := map["春" := "秋", "夏" := "冬", "秋" := "春", "冬" := "夏"]

  /** The season rule, applied alike to both partners: +15 for opposite seasons, -5 for the
      same season (two unknown seasons count as the same). */
  function SeasonAdjust(maleSeason: string, femaleSeason: string): (a: Adjust)
    ensures a.points == 15 <==> femaleSeason in OppositeSeasons && maleSeason == OppositeSeasons[femaleSeason]
    ensures a.points == -5 <==> maleSeason == femaleSeason
    ensures a.points in {15, -5, 0}
  {
    if femaleSeason in OppositeSeasons && maleSeason == OppositeSeasons[femaleSeason] then Adjust(15, ["季節：反対 +15"])
    else if maleSeason == femaleSeason then Adjust(-5, ["季節：同じ -5"])
    else Adjust(0, [])
  }

  /** The season rule does not depend on which partner is which. */
  lemma SeasonAdjustSymmetric(a: string, b: string)
    ensures SeasonAdjust(a, b) == SeasonAdjust(b, a)
  {
  }

  /** The decade bonus: +5 when both current decades are given and one's own decade spells
      the partner's day pillar. */
  function DaeunBonus(own: Option<Block>, other: Option<Block>, partner: Saju): (a: Adjust)
    ensures a.points == 5 <==> own.Some? && other.Some? &&
                               own.value.stem + own.value.branch == partner.dayStem + partner.dayBranch
    ensures a.points == 0 || a.points == 5
  {
    if own.Some? && other.Some? && own.value.stem + own.value.branch == partner.dayStem + partner.dayBranch then
      Adjust(5, ["大運ボーナス +5"])
    else Adjust(0, [])
  }

  function Points(adjusts: seq<Adjust>): int {
    if adjusts == [] then 0 else Points(adjusts[..|adjusts| - 1]) + adjusts[|adjusts| - 1].points
  }

  function Lines(adjusts: seq<Adjust>): seq<string> {
    if adjusts == [] then [] else Lines(adjusts[..|adjusts| - 1]) + adjusts[|adjusts| - 1].lines
  }

  /** Five rules add up their points and list their lines in order. */
  lemma FiveRules(xs: seq<Adjust>)
    requires |xs| == 5
    ensures Points(xs) == xs[0].points + xs[1].points + xs[2].points + xs[3].points + xs[4].points
    ensures Lines(xs) == [] + xs[0].lines + xs[1].lines + xs[2].lines + xs[3].lines + xs[4].lines
  {
    var p4, p3, p2, p1 := xs[..4], xs[..3], xs[..2], xs[..1];
    assert p4[..3] == p3 && p3[..2] == p2 && p2[..1] == p1 && p1[..0] == [];
    assert Points(p1) == xs[0].points && Lines(p1) == [] + xs[0].lines;
    assert Points(p2) == Points(p1) + xs[1].points && Lines(p2) == Lines(p1) + xs[1].lines;
    assert Points(p3) == Points(p2) + xs[2].points && Lines(p3) == Lines(p2) + xs[2].lines;
    assert Points(p4) == Points(p3) + xs[3].points && Lines(p4) == Lines(p3) + xs[3].lines;
  }

  /** The five rules for one partner, in the order they are applied. */
  function SideAdjusts(me: Saju, partner: Saju, season: Adjust, own: Option<Block>, other: Option<Block>): seq<Adjust> {
    [DayAdjust(RelationLabel(me.dayStem, partner.dayStem)),
     MonthAdjust(RelationLabel(me.monthStem, partner.monthStem)),
     HourAdjust(RelationLabel(me.hourStem, partner.hourStem)),
     season,
     DaeunBonus(own, other, partner)]
  }

  /** What `calculate_score` returns. */
  datatype ScoreCard = ScoreCard(male: int, female: int, detailsMale: seq<string>, detailsFemale: seq<string>)

  /** Both scores start at 50 and take the five rules' points; the details list the rules
      that applied. */
  function Scores(male: Saju, female: Saju, maleDaeun: Option<Block>, femaleDaeun: Option<Block>): ScoreCard {
    var season := SeasonAdjust(SeasonOf(male.monthBranch), SeasonOf(female.monthBranch));
    var m := SideAdjusts(male, female, season, maleDaeun, femaleDaeun);
    var f := SideAdjusts(female, male, season, femaleDaeun, maleDaeun);
    ScoreCard(50 + Points(m), 50 + Points(f), Lines(m), Lines(f))
  }

  /** `calculate_score`: the two scores and detail lists are updated rule by rule. */
  method CalculateScore(male: Saju, female: Saju, maleDaeun: Option<Block>, femaleDaeun: Option<Block>)
    returns (scoreMale: int, scoreFemale: int, detailsMale: seq<string>, detailsFemale: seq<string>)
    ensures ScoreCard(scoreMale, scoreFemale, detailsMale, detailsFemale) == Scores(male, female, maleDaeun, femaleDaeun)
  {
    scoreMale, scoreFemale := 50, 50;
    detailsMale, detailsFemale := [], [];
    var season := SeasonAdjust(SeasonOf(male.monthBranch), SeasonOf(female.monthBranch));
    FiveRules(SideAdjusts(male, female, season, maleDaeun, femaleDaeun));
    FiveRules(SideAdjusts(female, male, season, femaleDaeun, maleDaeun));
    var maleDay := RelationLabel(male.dayStem, female.dayStem);
    var femaleDay := RelationLabel(female.dayStem, male.dayStem);
    var a := DayAdjust(maleDay);
    scoreMale, detailsMale := scoreMale + a.points, detailsMale + a.lines;
    a := DayAdjust(femaleDay);
    scoreFemale, detailsFemale := scoreFemale + a.points, detailsFemale + a.lines;
    var maleMonth := RelationLabel(male.monthStem, female.monthStem);
    var femaleMonth := RelationLabel(female.monthStem, male.monthStem);
    a := MonthAdjust(maleMonth);
    scoreMale, detailsMale := scoreMale + a.points, detailsMale + a.lines;
    a := MonthAdjust(femaleMonth);
    scoreFemale, detailsFemale := scoreFemale + a.points, detailsFemale + a.lines;
    var maleHour := RelationLabel(male.hourStem, female.hourStem);
    var femaleHour := RelationLabel(female.hourStem, male.hourStem);
    a := HourAdjust(maleHour);
    scoreMale, detailsMale := scoreMale + a.points, detailsMale + a.lines;
    a := HourAdjust(femaleHour);
    scoreFemale, detailsFemale := scoreFemale + a.points, detailsFemale + a.lines;
    a := season;
    scoreMale, detailsMale := scoreMale + a.points, detailsMale + a.lines;
    scoreFemale, detailsFemale := scoreFemale + a.points, detailsFemale + a.lines;
    a := DaeunBonus(maleDaeun, femaleDaeun, female);
    scoreMale, detailsMale := scoreMale + a.points, detailsMale + a.lines;
    a := DaeunBonus(femaleDaeun, maleDaeun, male);
    scoreFemale, detailsFemale := scoreFemale + a.points, detailsFemale + a.lines;
  }

  /** One partner's points lie in [-50, 85]. */
  lemma SidePointsBounds(me: Saju, partner: Saju, season: Adjust, own: Option<Block>, other: Option<Block>)
    requires season.points in {15, -5, 0}
    ensures -50 <= Points(SideAdjusts(me, partner, season, own, other)) <= 85
  {
    var xs := SideAdjusts(me, partner, season, own, other);
    var month := RelationLabel(me.monthStem, partner.monthStem);
    var hour := RelationLabel(me.hourStem, partner.hourStem);
    assert -10 <= MonthAdjust(month).points <= 15 by {
      assert Contains(month, "吉") || Contains(month, "凶") || !Contains(month, "凶");
    }
    assert -5 <= HourAdjust(hour).points <= 10 by {
      assert Contains(hour, "吉") || Contains(hour, "凶") || !Contains(hour, "凶");
    }
    FiveRules(xs);
  }

  /** Each score lies in [0, 135]: 50, at most 40 + 15 + 10 + 15 + 5 more and at most
      30 + 10 + 5 + 5 less. */
  lemma ScoreBounds(male: Saju, female: Saju, maleDaeun: Option<Block>, femaleDaeun: Option<Block>)
    ensures 0 <= Scores(male, female, maleDaeun, femaleDaeun).male <= 135
    ensures 0 <= Scores(male, female, maleDaeun, femaleDaeun).female <= 135
  {
    var season := SeasonAdjust(SeasonOf(male.monthBranch), SeasonOf(female.monthBranch));
    SidePointsBounds(male, female, season, maleDaeun, femaleDaeun);
    SidePointsBounds(female, male, season, femaleDaeun, maleDaeun);
  }

  /** Swapping the partners swaps the two scores and detail lists. */
  lemma ScoresSymmetric(male: Saju, female: Saju, maleDaeun: Option<Block>, femaleDaeun: Option<Block>)
    ensures var s := Scores(male, female, maleDaeun, femaleDaeun);
            Scores(female, male, femaleDaeun, maleDaeun) == ScoreCard(s.female, s.male, s.detailsFemale, s.detailsMale)
  {
    SeasonAdjustSymmetric(SeasonOf(male.monthBranch), SeasonOf(female.monthBranch));
  }
}
