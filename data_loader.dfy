/** The Donsagong database loader (src/manseryeok/data_loader.py): a loader object whose
    relation tables are filled section by section, the expansion of each branch-combination
    row into one relation per ordered pair of its characters, and the queries over the tables.
    Markdown and regex extraction are outside the model: each parse method receives the rows
    the regular expressions would have extracted, already stripped. */
module DataLoader {
  import opened Common
  import opened Dicts

  datatype TenganRelation = TenganRelation(fromGan: string, toGan: string, fortune: string,
                                           description: string, note: string)

  datatype JijiRelation = JijiRelation(fromJi: string, toJi: string, relationType: string,
                                       fortune: string, description: string)

  datatype SeasonInfo = SeasonInfo(season: string, description: string, fortune: string)

  /** One extracted row of a stem table: target stem, fortune, description, note. */
  datatype TenganRow = TenganRow(toGan: string, fortune: string, description: string, note: string)

  /** One extracted row of a branch-relation table: combination, fortune, description. */
  datatype JijiRow = JijiRow(combo: string, fortune: string, description: string)

  datatype DatabaseStats = DatabaseStats(tenganEntries: nat, totalTenganRelations: nat,
                                         jijiEntries: nat, totalJijiRelations: nat,
                                         seasonalInfo: nat, yongshinInfo: nat, johooInfo: nat)

  // ---------------------------------------------------------------------------------------
  // Pair expansion of one row

  /** The relation for ordered character positions (i, j) of a combination. */
  function PairRelation(title: string, row: JijiRow, i: nat, j: nat): JijiRelation
    requires i < |row.combo| && j < |row.combo|
  {
    JijiRelation([row.combo[i]], [row.combo[j]], title, row.fortune, row.description)
  }

  /** The relations the nested loops have appended once they reach position (i, j): every
      pair (a, b), a != b, that comes before (i, j) in row-major order. */
  function PairsBefore(title: string, row: JijiRow, i: nat, j: nat): seq<JijiRelation>
    requires i < |row.combo| && j <= |row.combo|
    decreases i, j
  {
    if j == 0 then
      (if i == 0 then [] else PairsBefore(title, row, i - 1, |row.combo|))
    else
      PairsBefore(title, row, i, j - 1) + (if i != j - 1 then [PairRelation(title, row, i, j - 1)] else [])
  }

  /** The relations one row contributes: none unless the combination has two or more
      characters, otherwise one per ordered pair of distinct positions. */
  function RowRelations(title: string, row: JijiRow): seq<JijiRelation> {
    if |row.combo| >= 2 then PairsBefore(title, row, |row.combo| - 1, |row.combo|) else []
  }

  /** The relations a whole block of rows contributes, row after row. */
  function BlockRelations(title: string, rows: seq<JijiRow>): seq<JijiRelation> {
    if |rows| == 0 then [] else BlockRelations(title, rows[..|rows| - 1]) + RowRelations(title, rows[|rows| - 1])
  }

  lemma {:induction false} PairsBeforeLength(title: string, row: JijiRow, i: nat, j: nat)
    requires i < |row.combo| && j <= |row.combo|
    ensures |PairsBefore(title, row, i, j)| == i * (|row.combo| - 1) + j - (if j > i then 1 else 0)
    decreases i, j
  {
    if j == 0 {
      if i > 0 {
        PairsBeforeLength(title, row, i - 1, |row.combo|);
      }
    } else {
      PairsBeforeLength(title, row, i, j - 1);
    }
  }

  /** A combination of n >= 2 characters yields exactly n(n-1) relations. */
  lemma RowRelationsCount(title: string, row: JijiRow)
    ensures |RowRelations(title, row)| == if |row.combo| >= 2 then |row.combo| * (|row.combo| - 1) else 0
  {
    var n := |row.combo|;
    if n >= 2 {
      PairsBeforeLength(title, row, n - 1, n);
      assert (n - 1) * (n - 1) + n - 1 == n * (n - 1);
    }
  }

  /** The relations before (i, j) are exactly the pair relations of distinct positions
      (a, b) with (a, b) before (i, j). */
  lemma {:induction false} PairsBeforeMembers(title: string, row: JijiRow, i: nat, j: nat, x: JijiRelation)
    requires i < |row.combo| && j <= |row.combo|
    ensures x in PairsBefore(title, row, i, j) <==>
            exists a, b :: 0 <= a < |row.combo| && 0 <= b < |row.combo| && a != b &&
                           (a < i || (a == i && b < j)) && x == PairRelation(title, row, a, b)
    decreases i, j
  {
    var n := |row.combo|;
    if j == 0 {
      if i > 0 {
        PairsBeforeMembers(title, row, i - 1, n, x);
      }
    } else {
      PairsBeforeMembers(title, row, i, j - 1, x);
      if x == PairRelation(title, row, i, j - 1) && i != j - 1 {
        assert x in PairsBefore(title, row, i, j);
      }
    }
  }

  /** Every ordered pair of distinct positions is expanded, and nothing else is; a row of
      fewer than two characters yields nothing, so the length guard changes no result. */
  lemma RowRelationsMembers(title: string, row: JijiRow, x: JijiRelation)
    ensures x in RowRelations(title, row) <==>
            exists a, b :: 0 <= a < |row.combo| && 0 <= b < |row.combo| && a != b &&
                           x == PairRelation(title, row, a, b)
  {
    var n := |row.combo|;
    if n >= 2 {
      PairsBeforeMembers(title, row, n - 1, n, x);
    }
  }

  // ---------------------------------------------------------------------------------------
  // Appending relations to the per-branch lists

  /** `jiji_relations.setdefault(from_ji, []).append(relation)`. */
  function AppendOne(m: Dict<string, seq<JijiRelation>>, rel: JijiRelation): Dict<string, seq<JijiRelation>> {
    Put(m, rel.fromJi, GetOr(m, rel.fromJi, []) + [rel])
  }

  /** Appending a sequence of relations one after the other. */
  function AppendAll(m: Dict<string, seq<JijiRelation>>, rels: seq<JijiRelation>): Dict<string, seq<JijiRelation>> {
    if |rels| == 0 then m else AppendOne(AppendAll(m, rels[..|rels| - 1]), rels[|rels| - 1])
  }

  /** The relations of `rels` that start at branch `b`, in order. */
  function From(rels: seq<JijiRelation>, b: string): seq<JijiRelation> {
    if |rels| == 0 then []
    else From(rels[..|rels| - 1], b) + (if rels[|rels| - 1].fromJi == b then [rels[|rels| - 1]] else [])
  }

  lemma {:induction false} FromMembers(rels: seq<JijiRelation>, b: string)
    ensures forall x :: x in From(rels, b) <==> x in rels && x.fromJi == b
  {
    if |rels| > 0 {
      FromMembers(rels[..|rels| - 1], b);
      assert rels == rels[..|rels| - 1] + [rels[|rels| - 1]];
    }
  }

  /** After appending, each branch's list is its old list followed by the new relations
      starting at that branch, in order; keys stay distinct. */
  lemma {:induction false} AppendAllGet(m: Dict<string, seq<JijiRelation>>, rels: seq<JijiRelation>, b: string)
    requires WellFormed(m)
    ensures WellFormed(AppendAll(m, rels))
    ensures GetOr(AppendAll(m, rels), b, []) == GetOr(m, b, []) + From(rels, b)
  {
    if |rels| > 0 {
      var pre := rels[..|rels| - 1];
      var last := rels[|rels| - 1];
      AppendAllGet(m, pre, b);
      var m' := AppendAll(m, pre);
      PutGet(m', last.fromJi, GetOr(m', last.fromJi, []) + [last], b);
    }
  }

  lemma {:induction false} AppendAllConcat(m: Dict<string, seq<JijiRelation>>, a: seq<JijiRelation>, b: seq<JijiRelation>)
    ensures AppendAll(m, a + b) == AppendAll(AppendAll(m, a), b)
    decreases |b|
  {
    if |b| == 0 {
      assert a + b == a;
    } else {
      assert (a + b)[..|a + b| - 1] == a + b[..|b| - 1];
      AppendAllConcat(m, a, b[..|b| - 1]);
    }
  }

  /** One step of the row loop: appending the relations of row r to the store built from
      the rows before it gives the store built from the rows up to r. */
  lemma BlockStep(m: Dict<string, seq<JijiRelation>>, title: string, rows: seq<JijiRow>, r: nat,
                  before: Dict<string, seq<JijiRelation>>)
    requires r < |rows| && before == AppendAll(m, BlockRelations(title, rows[..r]))
    ensures AppendAll(before, RowRelations(title, rows[r])) == AppendAll(m, BlockRelations(title, rows[..r + 1]))
  {
    assert rows[..r + 1][..r] == rows[..r];
    AppendAllConcat(m, BlockRelations(title, rows[..r]), RowRelations(title, rows[r]));
  }

  /** One step of the nested loops: appending the relation for (i, j), i != j, extends
      the pairs appended so far by that relation. */
  lemma AppendPairStep(m: Dict<string, seq<JijiRelation>>, title: string, row: JijiRow, i: nat, j: nat)
    requires i < |row.combo| && j < |row.combo| && i != j
    ensures AppendAll(m, PairsBefore(title, row, i, j + 1)) ==
            AppendOne(AppendAll(m, PairsBefore(title, row, i, j)), PairRelation(title, row, i, j))
  {
    var before := PairsBefore(title, row, i, j);
    var rel := PairRelation(title, row, i, j);
    assert PairsBefore(title, row, i, j + 1) == before + [rel];
    assert (before + [rel])[..|before|] == before;
  }

  /** The nested loops skip the diagonal pair (i, i). */
  lemma PairsBeforeDiagonal(title: string, row: JijiRow, i: nat)
    requires i < |row.combo|
    ensures PairsBefore(title, row, i, i + 1) == PairsBefore(title, row, i, i)
  {
    assert PairsBefore(title, row, i, i + 1) == PairsBefore(title, row, i, i) + [];
  }

  lemma AppendAllWellFormed(m: Dict<string, seq<JijiRelation>>, rels: seq<JijiRelation>)
    requires WellFormed(m)
    ensures WellFormed(AppendAll(m, rels))
  {
    AppendAllGet(m, rels, "");
  }

  /** The sum of the list sizes, as `get_database_stats` totals them. */
  function SizeSum<K, X>(m: Dict<K, seq<X>>): nat {
    if |m| == 0 then 0 else SizeSum(m[..|m| - 1]) + |m[|m| - 1].1|
  }

  lemma {:induction false} SizeSumUpdate<K, X>(m: Dict<K, seq<X>>, i: nat, e: (K, seq<X>))
    requires i < |m|
    ensures SizeSum(m[i := e]) + |m[i].1| == SizeSum(m) + |e.1|
  {
    if i < |m| - 1 {
      assert m[i := e][..|m| - 1] == m[..|m| - 1][i := e];
      SizeSumUpdate(m[..|m| - 1], i, e);
    } else {
      assert m[i := e][..|m| - 1] == m[..|m| - 1];
    }
  }

  lemma SizeSumPut<X>(m: Dict<string, seq<X>>, k: string, v: seq<X>)
    requires WellFormed(m)
    ensures SizeSum(Put(m, k, v)) == SizeSum(m) - |GetOr(m, k, [])| + |v|
  {
    var r := Put(m, k, v);
    PutEntries(m, k, v);
    match FindKey(m, k, 0)
    case None =>
      assert r[..|m|] == m;
    case Some(i) =>
      FindKeySpec(m, k, 0);
      assert r == m[i := (k, v)];
      SizeSumUpdate(m, i, (k, v));
  }

  /** Every appended relation adds one to the total, whatever key it lands under. */
  lemma {:induction false} AppendAllTotal(m: Dict<string, seq<JijiRelation>>, rels: seq<JijiRelation>)
    requires WellFormed(m)
    ensures SizeSum(AppendAll(m, rels)) == SizeSum(m) + |rels|
  {
    if |rels| > 0 {
      var pre := rels[..|rels| - 1];
      var last := rels[|rels| - 1];
      AppendAllTotal(m, pre);
      AppendAllGet(m, pre, last.fromJi);
      var m' := AppendAll(m, pre);
      SizeSumPut(m', last.fromJi, GetOr(m', last.fromJi, []) + [last]);
    }
  }

  // ---------------------------------------------------------------------------------------
  // Stem sections

  function MakeTengan(fromGan: string, row: TenganRow): TenganRelation {
    TenganRelation(fromGan, row.toGan, row.fortune, row.description, row.note)
  }

  /** One stem's table after its rows are stored in order (a later row for the same
      target stem overwrites an earlier one). */
  function SectionTable(d: Dict<string, TenganRelation>, fromGan: string, rows: seq<TenganRow>): Dict<string, TenganRelation> {
    if |rows| == 0 then d
    else Put(SectionTable(d, fromGan, rows[..|rows| - 1]), rows[|rows| - 1].toGan, MakeTengan(fromGan, rows[|rows| - 1]))
  }

  /** The position of the last row whose target stem is `t`. */
  function LastRowFor(rows: seq<TenganRow>, t: string): (r: Option<nat>)
    ensures r.Some? ==> r.value < |rows| && rows[r.value].toGan == t &&
                        forall l :: r.value < l < |rows| ==> rows[l].toGan != t
    ensures r.None? ==> forall l :: 0 <= l < |rows| ==> rows[l].toGan != t
  {
    if |rows| == 0 then None
    else if rows[|rows| - 1].toGan == t then Some(|rows| - 1)
    else LastRowFor(rows[..|rows| - 1], t)
  }

  /** Each row's target is stored, carrying the last row written for it; targets not in
      the rows keep their old relation; keys stay distinct. */
  lemma {:induction false} SectionTableGet(d: Dict<string, TenganRelation>, fromGan: string, rows: seq<TenganRow>, t: string)
    requires WellFormed(d)
    ensures WellFormed(SectionTable(d, fromGan, rows))
    ensures Get(SectionTable(d, fromGan, rows), t) ==
            match LastRowFor(rows, t)
            case None => Get(d, t)
            case Some(k) => Some(MakeTengan(fromGan, rows[k]))
  {
    if |rows| > 0 {
      var pre := rows[..|rows| - 1];
      var last := rows[|rows| - 1];
      SectionTableGet(d, fromGan, pre, t);
      PutGet(SectionTable(d, fromGan, pre), last.toGan, MakeTengan(fromGan, last), t);
      if last.toGan != t {
        match LastRowFor(pre, t)
        case None =>
        case Some(k) => assert pre[k] == rows[k];
      }
    }
  }

  /** The relations stored in a stem table, in key order. */
  function TableRelations(t: Dict<string, Dict<string, TenganRelation>>): seq<TenganRelation> {
    if |t| == 0 then [] else TableRelations(t[..|t| - 1]) + Values(t[|t| - 1].1)
  }

  /** The relations of `rels` whose fortune contains `q`, in order. */
  function FortuneMatches(rels: seq<TenganRelation>, q: string): seq<TenganRelation> {
    if |rels| == 0 then []
    else FortuneMatches(rels[..|rels| - 1], q) + (if Contains(rels[|rels| - 1].fortune, q) then [rels[|rels| - 1]] else [])
  }

  lemma {:induction false} FortuneMatchesMembers(rels: seq<TenganRelation>, q: string)
    ensures forall x :: x in FortuneMatches(rels, q) <==> x in rels && Contains(x.fortune, q)
  {
    if |rels| > 0 {
      FortuneMatchesMembers(rels[..|rels| - 1], q);
      assert rels == rels[..|rels| - 1] + [rels[|rels| - 1]];
    }
  }

  lemma FortuneMatchesSnoc(xs: seq<TenganRelation>, v: TenganRelation, q: string)
    ensures FortuneMatches(xs + [v], q) == FortuneMatches(xs, q) + (if Contains(v.fortune, q) then [v] else [])
  {
    assert (xs + [v])[..|xs|] == xs;
  }

  lemma {:induction false} TableRelationsMembers(t: Dict<string, Dict<string, TenganRelation>>, x: TenganRelation)
    ensures x in TableRelations(t) <==> exists i, j :: 0 <= i < |t| && 0 <= j < |t[i].1| && t[i].1[j].1 == x
  {
    if |t| > 0 {
      var pre := t[..|t| - 1];
      TableRelationsMembers(pre, x);
      var vs := Values(t[|t| - 1].1);
      ValuesAt(t[|t| - 1].1);
      if x in vs {
        var j :| 0 <= j < |vs| && vs[j] == x;
        assert t[|t| - 1].1[j].1 == x;
      }
      if exists i, j :: 0 <= i < |t| && 0 <= j < |t[i].1| && t[i].1[j].1 == x {
        var i, j :| 0 <= i < |t| && 0 <= j < |t[i].1| && t[i].1[j].1 == x;
        if i < |t| - 1 {
          assert pre[i] == t[i];
        } else {
          assert vs[j] == x;
        }
      }
    }
  }

  /** The body of the last season block titled t, if any. */
  function LastBody(blocks: seq<(string, string)>, t: string): (r: Option<string>)
    decreases |blocks|
  {
    if |blocks| == 0 then None
    else if blocks[|blocks| - 1].0 == t then Some(blocks[|blocks| - 1].1)
    else LastBody(blocks[..|blocks| - 1], t)
  }

  /** A title's body is found exactly when some block carries the title, and it is the body
      of a block with that title that no later block shares. */
  lemma {:induction false} LastBodySpec(blocks: seq<(string, string)>, t: string)
    ensures LastBody(blocks, t).Some? <==> exists k :: 0 <= k < |blocks| && blocks[k].0 == t
    ensures LastBody(blocks, t).Some? ==>
              exists k :: 0 <= k < |blocks| && blocks[k] == (t, LastBody(blocks, t).value) &&
                          forall l :: k < l < |blocks| ==> blocks[l].0 != t
    decreases |blocks|
  {
    if |blocks| > 0 {
      var n := |blocks| - 1;
      var pre := blocks[..n];
      LastBodySpec(pre, t);
      if blocks[n].0 != t {
        if exists k :: 0 <= k < |blocks| && blocks[k].0 == t {
          var k :| 0 <= k < |blocks| && blocks[k].0 == t;
          assert pre[k].0 == t;
        }
        if LastBody(pre, t).Some? {
          var k :| 0 <= k < |pre| && pre[k] == (t, LastBody(pre, t).value) &&
                   forall l :: k < l < |pre| ==> pre[l].0 != t;
          assert blocks[k] == pre[k];
          assert forall l :: k < l < |blocks| ==> blocks[l].0 != t by {
            forall l | k < l < |blocks| ensures blocks[l].0 != t {
              if l < n { assert blocks[l] == pre[l]; }
            }
          }
        }
      }
    }
  }

  /** What a title holds after the seasonal blocks: the last block titled t with the default
      fortune 평, or what it held before when no block has the title. */
  function SeasonAfter(orig: Dict<string, SeasonInfo>, blocks: seq<(string, string)>, t: string): Option<SeasonInfo> {
    match LastBody(blocks, t)
    case Some(body) => Some(SeasonInfo(t, body, "평"))
    case None => Get(orig, t)
  }

  /** One season block stored with the default fortune: the store stays well formed and every
      title now holds what the blocks up to this one give it. */
  lemma SeasonPut(d: Dict<string, SeasonInfo>, orig: Dict<string, SeasonInfo>, blocks: seq<(string, string)>, k: nat)
    requires WellFormed(d) && k < |blocks|
    requires forall t :: Get(d, t) == SeasonAfter(orig, blocks[..k], t)
    ensures var r := Put(d, blocks[k].0, SeasonInfo(blocks[k].0, blocks[k].1, "평"));
            WellFormed(r) && forall t :: Get(r, t) == SeasonAfter(orig, blocks[..k + 1], t)
  {
    var title := blocks[k].0;
    var v := SeasonInfo(title, blocks[k].1, "평");
    assert blocks[..k + 1][..k] == blocks[..k];
    PutGet(d, title, v, title);
    forall t ensures Get(Put(d, title, v), t) == SeasonAfter(orig, blocks[..k + 1], t) {
      PutGet(d, title, v, t);
    }
  }

  // ---------------------------------------------------------------------------------------
  // The loader object

  class Loader {
    var tenganRelations: Dict<string, Dict<string, TenganRelation>>
    var jijiRelations: Dict<string, seq<JijiRelation>>
    var seasonalInfo: Dict<string, SeasonInfo>
    /** Title → description of the structured subsections (the tables inside them are
        not modelled). */
    var yongshinInfo: Dict<string, string>
    var johooInfo: Dict<string, string>

    /** Every table has distinct keys, so `len` of a dict is the length of its entries. */
    ghost predicate Valid()
      reads this
    {
      WellFormed(tenganRelations) && (forall i :: 0 <= i < |tenganRelations| ==> WellFormed(tenganRelations[i].1)) &&
      WellFormed(jijiRelations) && WellFormed(seasonalInfo) &&
      WellFormed(yongshinInfo) && WellFormed(johooInfo)
    }

    /** A loader before any section is parsed: all stores empty. */
    constructor ()
      ensures Valid()
      ensures tenganRelations == [] && jijiRelations == [] && seasonalInfo == []
      ensures yongshinInfo == [] && johooInfo == []
    {
      tenganRelations := [];
      jijiRelations := [];
      seasonalInfo := [];
      yongshinInfo := [];
      johooInfo := [];
    }

    /** One stem section of `_parse_tengan_matrix`: the stem's table is created if absent,
        then each row is stored under its target stem. */
    method ParseTenganSection(fromGan: string, rows: seq<TenganRow>)
      requires Valid()
      modifies this
      ensures Valid()
      ensures tenganRelations == Put(old(tenganRelations), fromGan,
                                     SectionTable(GetOr(old(tenganRelations), fromGan, []), fromGan, rows))
      ensures jijiRelations == old(jijiRelations) && seasonalInfo == old(seasonalInfo)
      ensures yongshinInfo == old(yongshinInfo) && johooInfo == old(johooInfo)
    {
      var start := GetOr(tenganRelations, fromGan, []);
      assert WellFormed(start) by {
        match FindKey(tenganRelations, fromGan, 0)
        case Some(i) =>
        case None =>
      }
      var table := start;
      var k := 0;
      while k < |rows|
        invariant 0 <= k <= |rows|
        invariant table == SectionTable(start, fromGan, rows[..k])
        invariant WellFormed(table)
        invariant Valid() && unchanged(this)
      {
        assert rows[..k + 1][..k] == rows[..k];
        PutGet(table, rows[k].toGan, MakeTengan(fromGan, rows[k]), rows[k].toGan);
        table := Put(table, rows[k].toGan, MakeTengan(fromGan, rows[k]));
        k := k + 1;
      }
      assert rows[..k] == rows;
      PutGet(tenganRelations, fromGan, table, fromGan);
      ghost var r := Put(tenganRelations, fromGan, table);
      PutEntries(tenganRelations, fromGan, table);
      forall i | 0 <= i < |r|
        ensures WellFormed(r[i].1)
      {
        if i >= |tenganRelations| || tenganRelations[i].0 == fromGan {
          assert r[i].1 == table;
        }
      }
      tenganRelations := Put(tenganRelations, fromGan, table);
    }

    /** `_parse_jiji_relation_block`: for each row, each ordered pair of distinct
        characters of its combination is appended to the list of the first character. */
    method ParseJijiRelationBlock(title: string, rows: seq<JijiRow>)
      requires Valid()
      modifies this
      ensures Valid()
      ensures jijiRelations == AppendAll(old(jijiRelations), BlockRelations(title, rows))
      ensures tenganRelations == old(tenganRelations) && seasonalInfo == old(seasonalInfo)
      ensures yongshinInfo == old(yongshinInfo) && johooInfo == old(johooInfo)
    {
      ghost var m0 := jijiRelations;
      var r := 0;
      while r < |rows|
        invariant 0 <= r <= |rows|
        invariant jijiRelations == AppendAll(m0, BlockRelations(title, rows[..r]))
        invariant Valid()
        invariant tenganRelations == old(tenganRelations) && seasonalInfo == old(seasonalInfo)
        invariant yongshinInfo == old(yongshinInfo) && johooInfo == old(johooInfo)
      {
        ghost var before := jijiRelations;
        AppendRowRelations(title, rows[r]);
        BlockStep(m0, title, rows, r, before);
        r := r + 1;
      }
      assert rows[..r] == rows;
    }

    /** The body of `_parse_jiji_relation_block` for one row: the nested loops over the
        positions of the combination, skipped when it has fewer than two characters. */
    method AppendRowRelations(title: string, row: JijiRow)
      requires Valid()
      modifies this
      ensures Valid()
      ensures jijiRelations == AppendAll(old(jijiRelations), RowRelations(title, row))
      ensures tenganRelations == old(tenganRelations) && seasonalInfo == old(seasonalInfo)
      ensures yongshinInfo == old(yongshinInfo) && johooInfo == old(johooInfo)
    {
      ghost var m0 := jijiRelations;
      var n := |row.combo|;
      if n >= 2 {
        var i := 0;
        while i < n
          invariant 0 <= i <= n
          invariant jijiRelations == AppendAll(m0, if i == 0 then [] else PairsBefore(title, row, i - 1, n))
          invariant WellFormed(jijiRelations)
          invariant tenganRelations == old(tenganRelations) && seasonalInfo == old(seasonalInfo)
          invariant yongshinInfo == old(yongshinInfo) && johooInfo == old(johooInfo)
        {
          AppendPairsFrom(title, row, i, m0);
          AppendAllWellFormed(m0, PairsBefore(title, row, i, n));
          i := i + 1;
        }
      }
    }

    /** The inner loop of `_parse_jiji_relation_block`: the pairs (i, j), j != i, for one
        first position i. */
    method AppendPairsFrom(title: string, row: JijiRow, i: nat, ghost m0: Dict<string, seq<JijiRelation>>)
      requires i < |row.combo|
      requires jijiRelations == AppendAll(m0, if i == 0 then [] else PairsBefore(title, row, i - 1, |row.combo|))
      modifies this
      ensures jijiRelations == AppendAll(m0, PairsBefore(title, row, i, |row.combo|))
      ensures tenganRelations == old(tenganRelations) && seasonalInfo == old(seasonalInfo)
      ensures yongshinInfo == old(yongshinInfo) && johooInfo == old(johooInfo)
    {
      var n := |row.combo|;
      var j := 0;
      assert PairsBefore(title, row, i, 0) == (if i == 0 then [] else PairsBefore(title, row, i - 1, n));
      while j < n
        invariant 0 <= j <= n
        invariant jijiRelations == AppendAll(m0, PairsBefore(title, row, i, j))
        invariant tenganRelations == old(tenganRelations) && seasonalInfo == old(seasonalInfo)
        invariant yongshinInfo == old(yongshinInfo) && johooInfo == old(johooInfo)
      {
        if i != j {
          var relation := PairRelation(title, row, i, j);
          AppendPairStep(m0, title, row, i, j);
          jijiRelations := AppendOne(jijiRelations, relation);
        } else {
          PairsBeforeDiagonal(title, row, i);
        }
        j := j + 1;
      }
    }

    /** `_parse_seasonal_info`: each season block is stored under its title with its body as
        the description and the default fortune 평, a later block replacing an earlier one of
        the same title; titles no block carries keep what they held. */
    method ParseSeasonalInfo(blocks: seq<(string, string)>)
      requires Valid()
      modifies this
      ensures Valid()
      ensures forall t :: Get(seasonalInfo, t) == SeasonAfter(old(seasonalInfo), blocks, t)
      ensures tenganRelations == old(tenganRelations) && jijiRelations == old(jijiRelations)
      ensures yongshinInfo == old(yongshinInfo) && johooInfo == old(johooInfo)
    {
      var k := 0;
      while k < |blocks|
        invariant 0 <= k <= |blocks|
        invariant Valid()
        invariant forall t :: Get(seasonalInfo, t) == SeasonAfter(old(seasonalInfo), blocks[..k], t)
        invariant tenganRelations == old(tenganRelations) && jijiRelations == old(jijiRelations)
        invariant yongshinInfo == old(yongshinInfo) && johooInfo == old(johooInfo)
      {
        var title := blocks[k].0;
        SeasonPut(seasonalInfo, old(seasonalInfo), blocks, k);
        seasonalInfo := Put(seasonalInfo, title, SeasonInfo(title, blocks[k].1, "평"));
        k := k + 1;
      }
      assert blocks[..|blocks|] == blocks;
    }

    /** `_parse_yongshin_info` and `_parse_johoo_info`: each section found replaces the
        whole store, so the last section wins and no section leaves it as it was. */
    method ParseStructuredInfo(yongshinSections: seq<Dict<string, string>>, johooSections: seq<Dict<string, string>>)
      requires Valid()
      requires forall k :: 0 <= k < |yongshinSections| ==> WellFormed(yongshinSections[k])
      requires forall k :: 0 <= k < |johooSections| ==> WellFormed(johooSections[k])
      modifies this
      ensures Valid()
      ensures yongshinInfo == if |yongshinSections| == 0 then old(yongshinInfo) else yongshinSections[|yongshinSections| - 1]
      ensures johooInfo == if |johooSections| == 0 then old(johooInfo) else johooSections[|johooSections| - 1]
      ensures tenganRelations == old(tenganRelations) && jijiRelations == old(jijiRelations)
      ensures seasonalInfo == old(seasonalInfo)
    {
      for k := 0 to |yongshinSections|
        invariant Valid()
        invariant yongshinInfo == if k == 0 then old(yongshinInfo) else yongshinSections[k - 1]
        invariant johooInfo == old(johooInfo)
        invariant tenganRelations == old(tenganRelations) && jijiRelations == old(jijiRelations)
        invariant seasonalInfo == old(seasonalInfo)
      {
        yongshinInfo := yongshinSections[k];
      }
      for k := 0 to |johooSections|
        invariant Valid()
        invariant yongshinInfo == if |yongshinSections| == 0 then old(yongshinInfo) else yongshinSections[|yongshinSections| - 1]
        invariant johooInfo == if k == 0 then old(johooInfo) else johooSections[k - 1]
        invariant tenganRelations == old(tenganRelations) && jijiRelations == old(jijiRelations)
        invariant seasonalInfo == old(seasonalInfo)
      {
        johooInfo := johooSections[k];
      }
    }

    /** `get_tengan_relation`: None when either key is absent, otherwise the stored relation. */
    function GetTenganRelation(fromGan: string, toGan: string): (r: Option<TenganRelation>)
      reads this
      ensures r.None? <==> !Has(tenganRelations, fromGan) || !Has(GetOr(tenganRelations, fromGan, []), toGan)
      ensures r.Some? ==> exists i, j :: 0 <= i < |tenganRelations| && 0 <= j < |tenganRelations[i].1| &&
                                         tenganRelations[i].0 == fromGan && tenganRelations[i].1[j] == (toGan, r.value)
    {
      TenganLookupSpec(tenganRelations, fromGan, toGan);
      TenganLookup(tenganRelations, fromGan, toGan)
    }

    /** `get_jiji_relations`: the stored relations from `fromJi` whose target is `toJi`,
        in insertion order. */
    function GetJijiRelations(fromJi: string, toJi: string): (r: seq<JijiRelation>)
      reads this
      ensures forall x :: x in r <==> x in GetOr(jijiRelations, fromJi, []) && x.toJi == toJi
    {
      FilterToMembers(GetOr(jijiRelations, fromJi, []), toJi);
      JijiLookup(jijiRelations, fromJi, toJi)
    }

    /** `get_seasonal_info`: the stored entry of a season, None when it is absent. */
    function GetSeasonalInfo(season: string): (r: Option<SeasonInfo>)
      reads this
      ensures r.None? <==> !Has(seasonalInfo, season)
      ensures r.Some? ==> (season, r.value) in seasonalInfo
    {
      GetSpec(seasonalInfo, season);
      Get(seasonalInfo, season)
    }

    /** `get_yongshin_info`: the stored entry of a key, None when it is absent. */
    function GetYongshinInfo(key: string): (r: Option<string>)
      reads this
      ensures r.None? <==> !Has(yongshinInfo, key)
      ensures r.Some? ==> (key, r.value) in yongshinInfo
    {
      GetSpec(yongshinInfo, key);
      Get(yongshinInfo, key)
    }

    /** `get_johoo_info`: the stored entry of a key, None when it is absent. */
    function GetJohooInfo(key: string): (r: Option<string>)
      reads this
      ensures r.None? <==> !Has(johooInfo, key)
      ensures r.Some? ==> (key, r.value) in johooInfo
    {
      GetSpec(johooInfo, key);
      Get(johooInfo, key)
    }

    /** `get_all_tengan_relations`: the table of a stem, empty when the stem is absent. */
    function GetAllTenganRelations(fromGan: string): (r: Dict<string, TenganRelation>)
      reads this
      ensures !Has(tenganRelations, fromGan) ==> r == []
      ensures Has(tenganRelations, fromGan) ==> (fromGan, r) in tenganRelations
    {
      GetSpec(tenganRelations, fromGan);
      GetOr(tenganRelations, fromGan, [])
    }

    /** `search_relations_by_fortune`: every stored stem relation whose fortune contains the
        query, scanning the tables in key order. */
    method SearchRelationsByFortune(fortune: string) returns (results: seq<TenganRelation>)
      ensures results == FortuneMatches(TableRelations(tenganRelations), fortune)
    {
      results := [];
      var i := 0;
      while i < |tenganRelations|
        invariant 0 <= i <= |tenganRelations|
        invariant results == FortuneMatches(TableRelations(tenganRelations[..i]), fortune)
      {
        var relations := tenganRelations[i].1;
        var j := 0;
        ghost var base := TableRelations(tenganRelations[..i]);
        assert base + Values(relations[..0]) == base;
        while j < |relations|
          invariant 0 <= j <= |relations|
          invariant results == FortuneMatches(base + Values(relations[..j]), fortune)
        {
          var relation := relations[j].1;
          assert relations[..j + 1][..j] == relations[..j];
          assert base + Values(relations[..j + 1]) == (base + Values(relations[..j])) + [relation];
          FortuneMatchesSnoc(base + Values(relations[..j]), relation, fortune);
          if Contains(relation.fortune, fortune) {
            results := results + [relation];
          }
          j := j + 1;
        }
        assert relations[..j] == relations;
        assert tenganRelations[..i + 1][..i] == tenganRelations[..i];
        assert TableRelations(tenganRelations[..i + 1]) == base + Values(relations);
        i := i + 1;
      }
      assert tenganRelations[..i] == tenganRelations;
    }

    /** `validate_data`: true iff each of the ten stems has a table with at least nine
        relations. */
    method ValidateData() returns (ok: bool)
      ensures ok <==> forall k :: 0 <= k < 10 ==> Has(tenganRelations, Stems[k]) && |GetOr(tenganRelations, Stems[k], [])| >= 9
    {
      var k := 0;
      while k < 10
        invariant 0 <= k <= 10
        invariant forall l :: 0 <= l < k ==> Has(tenganRelations, Stems[l]) && |GetOr(tenganRelations, Stems[l], [])| >= 9
      {
        var gan := Stems[k];
        if !Has(tenganRelations, gan) {
          return false;
        }
        if |GetOr(tenganRelations, gan, [])| < 9 {
          return false;
        }
        k := k + 1;
      }
      return true;
    }

    /** `get_database_stats`. */
    function GetDatabaseStats(): (s: DatabaseStats)
      reads this
      ensures s.tenganEntries == |tenganRelations| && s.jijiEntries == |jijiRelations|
      ensures s.totalTenganRelations == SizeSum(tenganRelations) && s.totalJijiRelations == SizeSum(jijiRelations)
    {
      DatabaseStats(|tenganRelations|, SizeSum(tenganRelations), |jijiRelations|, SizeSum(jijiRelations),
                    |seasonalInfo|, |yongshinInfo|, |johooInfo|)
    }
  }

  /** The two-level stem lookup behind `get_tengan_relation`, on the table's value: an
      answer only for a stored source stem whose table holds the target. */
  function TenganLookup(t: Dict<string, Dict<string, TenganRelation>>, fromGan: string, toGan: string): (r: Option<TenganRelation>)
    ensures r.Some? ==> Get(t, fromGan).Some? && Get(Get(t, fromGan).value, toGan) == r
  {
    match Get(t, fromGan)
    case None => None
    case Some(inner) => Get(inner, toGan)
  }

  /** The lookup is None exactly when either key is absent, and otherwise a stored entry. */
  lemma TenganLookupSpec(t: Dict<string, Dict<string, TenganRelation>>, fromGan: string, toGan: string)
    ensures TenganLookup(t, fromGan, toGan).None? <==> !Has(t, fromGan) || !Has(GetOr(t, fromGan, []), toGan)
    ensures TenganLookup(t, fromGan, toGan).Some? ==>
              exists i, j :: 0 <= i < |t| && 0 <= j < |t[i].1| && t[i].0 == fromGan && t[i].1[j] == (toGan, TenganLookup(t, fromGan, toGan).value)
  {
    GetSpec(t, fromGan);
    match Get(t, fromGan)
    case None =>
    case Some(inner) =>
      GetSpec(inner, toGan);
      var i :| 0 <= i < |t| && t[i] == (fromGan, inner);
      match Get(inner, toGan)
      case None =>
      case Some(rel) =>
        var j :| 0 <= j < |inner| && inner[j] == (toGan, rel);
        assert t[i].1[j] == (toGan, rel);
  }

  /** The branch lookup behind `get_jiji_relations`, on the table's value. */
  function JijiLookup(m: Dict<string, seq<JijiRelation>>, fromJi: string, toJi: string): (r: seq<JijiRelation>)
    ensures |r| <= |GetOr(m, fromJi, [])|
    ensures forall x <- r :: x.toJi == toJi
  {
    FilterTo(GetOr(m, fromJi, []), toJi)
  }

  /** The relations of a list whose target is `t`, in order. */
  function FilterTo(rels: seq<JijiRelation>, t: string): (r: seq<JijiRelation>)
    ensures |r| <= |rels|
    ensures forall x <- r :: x.toJi == t
  {
    if |rels| == 0 then []
    else FilterTo(rels[..|rels| - 1], t) + (if rels[|rels| - 1].toJi == t then [rels[|rels| - 1]] else [])
  }

  lemma {:induction false} FilterToMembers(rels: seq<JijiRelation>, t: string)
    ensures forall x :: x in FilterTo(rels, t) <==> x in rels && x.toJi == t
  {
    if |rels| > 0 {
      FilterToMembers(rels[..|rels| - 1], t);
      assert rels == rels[..|rels| - 1] + [rels[|rels| - 1]];
    }
  }

  /** The search finds exactly the stored relations whose fortune contains the query. */
  lemma SearchFindsMatches(t: Dict<string, Dict<string, TenganRelation>>, q: string, x: TenganRelation)
    ensures x in FortuneMatches(TableRelations(t), q) <==>
            Contains(x.fortune, q) && exists i, j :: 0 <= i < |t| && 0 <= j < |t[i].1| && t[i].1[j].1 == x
  {
    FortuneMatchesMembers(TableRelations(t), q);
    TableRelationsMembers(t, x);
  }

  /** Parsing a block into an empty loader and querying (a, b) gives exactly the block's
      relations from a to b, in the order the rows and pairs produced them. */
  lemma ParsedBlockQuery(title: string, rows: seq<JijiRow>, a: string, b: string)
    ensures GetOr(AppendAll([], BlockRelations(title, rows)), a, []) == From(BlockRelations(title, rows), a)
  {
    AppendAllGet([], BlockRelations(title, rows), a);
  }

  /** Parsing a block adds one relation per ordered pair of distinct characters of each
      row to the total that `get_database_stats` reports. */
  lemma ParsedBlockTotal(m: Dict<string, seq<JijiRelation>>, title: string, rows: seq<JijiRow>)
    requires WellFormed(m)
    ensures SizeSum(AppendAll(m, BlockRelations(title, rows))) == SizeSum(m) + |BlockRelations(title, rows)|
    ensures |rows| == 1 ==>
              |BlockRelations(title, rows)| == (if |rows[0].combo| >= 2 then |rows[0].combo| * (|rows[0].combo| - 1) else 0)
  {
    AppendAllTotal(m, BlockRelations(title, rows));
    if |rows| == 1 {
      assert rows[..0] == [];
      RowRelationsCount(title, rows[0]);
    }
  }
}
