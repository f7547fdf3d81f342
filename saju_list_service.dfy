/** The frontend's saved-chart service (`sajuListService.ts`): charts are kept as a
    JSON list under the browser storage key `saju_data` (guest mode) and the server is
    asked only when that key holds nothing usable. The storage is a map from keys to
    what `JSON.parse` makes of the stored text; the server's answers, the clock and
    the fortune-level table are parameters. */
module SajuListService {
  import opened Common
  import opened Calendar
  import SajuHelpers

  /** One decade of a stored chart's major-fortune list. */
  datatype DaeunInfo = DaeunInfo(startAge: int, endAge: int, daeunStem: string, daeunBranch: string, fortuneLevel: string)

  /** The chart fields the service passes through unchanged. */
  datatype Chart = Chart(name: Option<string>, birthDatetime: string, gender: string, pillars: seq<string>,
                         fortuneLevel: string, daeunList: seq<DaeunInfo>)

  /** A stored chart. */
  datatype Saju = Saju(id: string, createdAt: string, chart: Chart)

  /** A chart handed to `saveSaju`; its id and creation time may be missing. */
  datatype SajuInput = SajuInput(id: Option<string>, createdAt: Option<string>, chart: Chart)

  /** The stored text of the key as `JSON.parse` sees it: the empty string (falsy), a
      list of charts, or anything that does not parse to a list. */
  datatype Stored = EmptyText | Charts(list: seq<Saju>) | Malformed

  /** `{ success, message }`. */
  datatype Outcome = Outcome(success: bool, message: string)

  const Key := "saju_data"
  const Saved := Outcome(true, "命式を保存しました")
  const SaveFailed := Outcome(false, "命式の保存に失敗しました")
  const Deleted := Outcome(true, "命式を削除しました")

  function Lookup(items: map<string, Stored>, key: string): Option<Stored> {
    if key in items then Some(items[key]) else None
  }

  /** The browser's `localStorage`. */
  class LocalStorage {
    var items: map<string, Stored>

    constructor()
      ensures items == map[]
    {
      items := map[];
    }

    /** `getItem`: `null` for a missing key. */
    function Get(key: string): Option<Stored>
      reads this
    {
      Lookup(items, key)
    }

    method SetItem(key: string, value: Stored)
      modifies this
      ensures items == old(items)[key := value]
    {
      items := items[key := value];
    }

    method RemoveItem(key: string)
      modifies this
      ensures items == old(items) - {key}
    {
      items := items - {key};
    }
  }

  // ---------------------------------------------------------------------------------
  // `saveSaju`

  /** A JavaScript string is truthy when present and non-empty. */
  predicate Truthy(s: Option<string>) {
    s.Some? && s.value != ""
  }

  /** The chart `saveSaju` stores: a missing id becomes `saju-<Date.now()>`, a missing
      creation time the current ISO time; the rest is copied. */
  function Defaulted(data: SajuInput, now: nat, nowIso: string): (r: Saju)
    ensures r.chart == data.chart && r.id != ""
    ensures Truthy(data.id) ==> r.id == data.id.value
    ensures !Truthy(data.id) ==> |r.id| > 5 && r.id[..5] == "saju-" && SajuHelpers.ParseInt(r.id[5..]) == Some(now)
    ensures r.createdAt == if Truthy(data.createdAt) then data.createdAt.value else nowIso
  {
    var id := if Truthy(data.id) then data.id.value else "saju-" + SajuHelpers.IntToString(now);
    SajuHelpers.IntRoundTrip(now);
    assert !Truthy(data.id) ==> id[5..] == SajuHelpers.IntToString(now);
    Saju(id, if Truthy(data.createdAt) then data.createdAt.value else nowIso, data.chart)
  }

  /** `findIndex` on the id: the first position holding it, or -1. */
  function FindIndex(list: seq<Saju>, id: string): (r: int)
    ensures -1 <= r < |list|
    ensures r >= 0 ==> list[r].id == id && forall k :: 0 <= k < r ==> list[k].id != id
    ensures r == -1 <==> forall k :: 0 <= k < |list| ==> list[k].id != id
  {
    if |list| == 0 then -1
    else if list[0].id == id then 0
    else
      var r := FindIndex(list[1..], id);
      if r < 0 then -1 else r + 1
  }

  /** Replace the first chart with the same id, or append. */
  function Upsert(list: seq<Saju>, s: Saju): seq<Saju> {
    var i := FindIndex(list, s.id);
    if i >= 0 then list[i := s] else list + [s]
  }

  /** The list grows by one exactly when the id was new; the saved chart is in it; every
      other position is untouched. */
  lemma UpsertSpec(list: seq<Saju>, s: Saju)
    ensures |Upsert(list, s)| == if exists k :: 0 <= k < |list| && list[k].id == s.id then |list| else |list| + 1
    ensures s in Upsert(list, s)
    ensures forall k :: 0 <= k < |list| && k != FindIndex(list, s.id) ==> Upsert(list, s)[k] == list[k]
  {
    var i := FindIndex(list, s.id);
    if i >= 0 {
      assert Upsert(list, s)[i] == s;
    } else {
      assert Upsert(list, s)[|list|] == s;
    }
  }

  /** Saving the same chart twice stores what saving it once does. */
  lemma UpsertIdempotent(list: seq<Saju>, s: Saju)
    ensures Upsert(Upsert(list, s), s) == Upsert(list, s)
  {
    var i := FindIndex(list, s.id);
    var u := Upsert(list, s);
    if i >= 0 {
      assert forall k :: 0 <= k < i ==> u[k] == list[k];
      FindIndexFirst(u, s.id, i);
      assert u[i := s] == u;
    } else {
      assert forall k :: 0 <= k < |list| ==> u[k] == list[k];
      FindIndexFirst(u, s.id, |list|);
      assert u[|list| := s] == u;
    }
  }

  /** The first position holding the id is the one `findIndex` returns. */
  lemma FindIndexFirst(list: seq<Saju>, id: string, i: nat)
    requires i < |list| && list[i].id == id && forall k :: 0 <= k < i ==> list[k].id != id
    ensures FindIndex(list, id) == i
  {
    var r := FindIndex(list, id);
    assert r != -1 by {
      assert list[i].id == id;
    }
  }

  /** The charts the key holds, `[]` when it holds nothing. */
  function StoredList(local: Option<Stored>): seq<Saju> {
    match local
    case Some(Charts(l)) => l
    case _ => []
  }

  /** The storage after `saveSaju`: unreadable text makes the save fail and leaves it. */
  function SaveStore(items: map<string, Stored>, data: SajuInput, now: nat, nowIso: string): map<string, Stored> {
    var local := Lookup(items, Key);
    if local == Some(Malformed) then items
    else items[Key := Charts(Upsert(StoredList(local), Defaulted(data, now, nowIso)))]
  }

  function SaveResult(local: Option<Stored>): Outcome {
    if local == Some(Malformed) then SaveFailed else Saved
  }

  /** The `findIndex` loop. */
  method FindIndexOf(list: seq<Saju>, id: string) returns (i: int)
    ensures i == FindIndex(list, id)
  {
    i := 0;
    while i < |list| && list[i].id != id
      invariant 0 <= i <= |list|
      invariant forall k :: 0 <= k < i ==> list[k].id != id
    {
      i := i + 1;
    }
    if i == |list| {
      i := -1;
    }
  }

  /** `saveSaju(data)` at time `now` (milliseconds; `nowIso` its ISO text). */
  method SaveSaju(storage: LocalStorage, data: SajuInput, now: nat, nowIso: string) returns (r: Outcome)
    modifies storage
    ensures storage.items == SaveStore(old(storage.items), data, now, nowIso)
    ensures r == SaveResult(old(storage.Get(Key)))
  {
    var local := storage.Get(Key);
    if local == Some(Malformed) {
      return SaveFailed;
    }
    var list := StoredList(local);
    var toSave := Defaulted(data, now, nowIso);
    var existingIndex := FindIndexOf(list, toSave.id);
    if existingIndex >= 0 {
      list := list[existingIndex := toSave];
    } else {
      list := list + [toSave];
    }
    storage.SetItem(Key, Charts(list));
    r := Saved;
  }

  // ---------------------------------------------------------------------------------
  // `deleteSaju`

  /** `filter(item => item.id !== id)`. */
  function Without(list: seq<Saju>, id: string): (r: seq<Saju>)
    ensures |r| <= |list|
  {
    if |list| == 0 then []
    else
      var prev := Without(list[..|list| - 1], id);
      if list[|list| - 1].id != id then prev + [list[|list| - 1]] else prev
  }

  /** The filter keeps exactly the charts with another id, and shortens the list exactly
      when the id was there. */
  lemma WithoutSpec(list: seq<Saju>, id: string)
    ensures forall x :: x in Without(list, id) <==> x in list && x.id != id
    ensures |Without(list, id)| == |list| <==> forall k :: 0 <= k < |list| ==> list[k].id != id
  {
    forall x
      ensures x in Without(list, id) <==> x in list && x.id != id
    {
      WithoutMembers(list, id, x);
    }
    WithoutLength(list, id);
  }

  lemma {:induction false} WithoutMembers(list: seq<Saju>, id: string, x: Saju)
    ensures x in Without(list, id) <==> x in list && x.id != id
  {
    if |list| > 0 {
      var p := list[..|list| - 1];
      WithoutMembers(p, id, x);
      assert list == p + [list[|list| - 1]];
    }
  }

  lemma {:induction false} WithoutLength(list: seq<Saju>, id: string)
    ensures |Without(list, id)| == |list| <==> forall k :: 0 <= k < |list| ==> list[k].id != id
  {
    if |list| > 0 {
      var p := list[..|list| - 1];
      WithoutLength(p, id);
      assert forall k :: 0 <= k < |p| ==> p[k] == list[k];
    }
  }

  /** The filter keeps the order: filtering a concatenation concatenates the filtered parts. */
  lemma {:induction false} WithoutConcat(a: seq<Saju>, b: seq<Saju>, id: string)
    ensures Without(a + b, id) == Without(a, id) + Without(b, id)
  {
    if |b| == 0 {
      assert a + b == a;
    } else {
      WithoutConcat(a, b[..|b| - 1], id);
      assert (a + b)[..|a + b| - 1] == a + b[..|b| - 1];
    }
  }

  /** The storage after `deleteSaju`: a list loses the id's charts and the key goes when
      nothing is left; unreadable text is removed; otherwise nothing changes. */
  function DeleteStore(items: map<string, Stored>, id: string): map<string, Stored> {
    match Lookup(items, Key)
    case Some(Charts(l)) => if |Without(l, id)| > 0 then items[Key := Charts(Without(l, id))] else items - {Key}
    case Some(Malformed) => items - {Key}
    case _ => items
  }

  /** The answer of `deleteSaju`: success whenever a local list was there; otherwise the
      server's answer, or success when the server call fails. */
  function DeleteResult(local: Option<Stored>, api: Option<Outcome>): (r: Outcome)
    ensures r.success <==> (local.Some? && local.value.Charts?) || api.None? || api.value.success
  {
    if local.Some? && local.value.Charts? then Deleted
    else match api
      case Some(resp) => resp
      case None => Deleted
  }

  /** `deleteSaju(id)`; `api` is the server's response data, `None` when the request
      fails or returns none. */
  method DeleteSaju(storage: LocalStorage, id: string, api: Option<Outcome>) returns (r: Outcome)
    modifies storage
    ensures storage.items == DeleteStore(old(storage.items), id)
    ensures r == DeleteResult(old(storage.Get(Key)), api)
  {
    var local := storage.Get(Key);
    if local.Some? && local.value.Charts? {
      var filteredList := Without(local.value.list, id);
      if |filteredList| > 0 {
        storage.SetItem(Key, Charts(filteredList));
      } else {
        storage.RemoveItem(Key);
      }
      return Deleted;
    }
    if local == Some(Malformed) {
      storage.RemoveItem(Key);
    }
    match api
    case Some(resp) => r := resp;
    case None => r := Deleted;
  }

  /** After a delete, other keys are as they were, and what stays under the key holds no
      chart with the id; a list emptied by the delete takes the key with it. */
  lemma DeleteStoreSpec(items: map<string, Stored>, id: string)
    ensures forall k :: k != Key ==> Lookup(DeleteStore(items, id), k) == Lookup(items, k)
    ensures Key in DeleteStore(items, id) && DeleteStore(items, id)[Key].Charts? ==>
              forall x :: x in DeleteStore(items, id)[Key].list ==> x.id != id
    ensures Key in items && items[Key].Charts? && Without(items[Key].list, id) == [] ==> Key !in DeleteStore(items, id)
  {
    if Key in items && items[Key].Charts? {
      WithoutSpec(items[Key].list, id);
    }
  }

  // ---------------------------------------------------------------------------------
  // `getSajuList`

  /** The list `getSajuList` returns: a readable local list wins (even an empty one);
      otherwise the server's items, or `[]` when the server call fails. */
  function ListResult(local: Option<Stored>, api: Option<seq<Saju>>): seq<Saju> {
    match local
    case Some(Charts(l)) => l
    case _ => match api
      case Some(items) => items
      case None => []
  }

  /** Unreadable text under the key is removed on the way to the server. */
  function ListStore(items: map<string, Stored>): map<string, Stored> {
    if Lookup(items, Key) == Some(Malformed) then items - {Key} else items
  }

  /** `getSajuList()`; `api` is the server's page of items, `None` when the request fails. */
  method GetSajuList(storage: LocalStorage, api: Option<seq<Saju>>) returns (r: seq<Saju>)
    modifies storage
    ensures storage.items == ListStore(old(storage.items))
    ensures r == ListResult(old(storage.Get(Key)), api)
  {
    var local := storage.Get(Key);
    if local.Some? && local.value.Charts? {
      return local.value.list;
    }
    if local == Some(Malformed) {
      storage.RemoveItem(Key);
    }
    match api
    case Some(items) => r := items;
    case None => r := [];
  }

  /** A chart saved is listed next time, whatever the server would say. */
  lemma SavedIsListed(items: map<string, Stored>, data: SajuInput, now: nat, nowIso: string, api: Option<seq<Saju>>)
    requires Lookup(items, Key) != Some(Malformed)
    ensures Defaulted(data, now, nowIso) in ListResult(Lookup(SaveStore(items, data, now, nowIso), Key), api)
  {
    UpsertSpec(StoredList(Lookup(items, Key)), Defaulted(data, now, nowIso));
  }

  /** After deleting from a local list, the next listing holds no chart with the id,
      unless the delete emptied the list: then the listing comes from the server. */
  lemma DeletedIsNotListed(items: map<string, Stored>, id: string, api: Option<seq<Saju>>)
    requires Key in items && items[Key].Charts?
    ensures var listed := ListResult(Lookup(DeleteStore(items, id), Key), api);
            if Without(items[Key].list, id) == [] then listed == ListResult(None, api)
            else forall x :: x in listed ==> x.id != id
  {
    WithoutSpec(items[Key].list, id);
  }

  // ---------------------------------------------------------------------------------
  // `getSajuDetail`: where the chart comes from, and the life graph

  /** The server's answer to `GET /api/saju/{id}`. */
  datatype DetailFetch = Fetched(saju: Saju) | NoData | FetchError(status: int, message: string)

  const NoDataMessage := "命式詳細の取得に失敗しました"
  const NoLocalMessage := "命式データが見つかりません"
  const NotFoundMessage := "指定された命式IDが見つかりません"

  /** The chart `getSajuDetail(id)` works on: the server's, or, after a 401, 404 or
      network error (status 0), the first local chart with the id. A response without
      data throws an error without a status, which is rethrown; so is any other error,
      and local text that does not parse. */
  function FetchDetail(fetch: DetailFetch, local: Option<Stored>, id: string): (r: Result<Saju>)
    ensures r.Ok? && !fetch.Fetched? ==>
              local.Some? && local.value.Charts? && FindIndex(local.value.list, id) >= 0 &&
              r.value == local.value.list[FindIndex(local.value.list, id)] && r.value.id == id
    ensures fetch.FetchError? && (fetch.status == 401 || fetch.status == 404 || fetch.status == 0)
            && local.Some? && local.value.Charts? ==>
              (r.Ok? <==> exists k :: 0 <= k < |local.value.list| && local.value.list[k].id == id)
  {
    match fetch
    case Fetched(s) => Ok(s)
    case NoData => Err(NoDataMessage)
    case FetchError(status, message) =>
      if status == 401 || status == 404 || status == 0 then
        match local
        case None => Err(NoLocalMessage)
        case Some(EmptyText) => Err(NoLocalMessage)
        case Some(Malformed) => Err("SyntaxError")
        case Some(Charts(l)) =>
          var i := FindIndex(l, id);
          if i >= 0 then Ok(l[i]) else Err(NotFoundMessage)
      else Err(message)
  }

  /** A point of the stepped life graph. */
  datatype GraphPoint = GraphPoint(age: int, fortuneLevel: Option<int>, daeunStem: string, daeunBranch: string, caption: string)

  /** `"<start>-<end>歳: <stem><branch>"`. */
  function DaeunLabel(d: DaeunInfo): string {
    SajuHelpers.IntToString(d.startAge) + "-" + SajuHelpers.IntToString(d.endAge) + "歳: " + d.daeunStem + d.daeunBranch
  }

  /** A point at `age` for decade `d`; a level missing from the table has no number. */
  function PointAt(d: DaeunInfo, age: int, levels: map<string, int>): GraphPoint {
    GraphPoint(age, if d.fortuneLevel in levels then Some(levels[d.fortuneLevel]) else None, d.daeunStem, d.daeunBranch, DaeunLabel(d))
  }

  /** The graph: for each decade a point at its start age and one at its end age. */
  function GraphPoints(ds: seq<DaeunInfo>, levels: map<string, int>): seq<GraphPoint> {
    if |ds| == 0 then []
    else
      var d := ds[|ds| - 1];
      GraphPoints(ds[..|ds| - 1], levels) + [PointAt(d, d.startAge, levels), PointAt(d, d.endAge, levels)]
  }

  /** Two points per decade, in decade order, sharing the decade's level, pillar and label. */
  lemma {:induction false} GraphPointsSpec(ds: seq<DaeunInfo>, levels: map<string, int>)
    ensures |GraphPoints(ds, levels)| == 2 * |ds|
    ensures forall k :: 0 <= k < |ds| ==>
              GraphPoints(ds, levels)[2 * k] == PointAt(ds[k], ds[k].startAge, levels) &&
              GraphPoints(ds, levels)[2 * k + 1] == PointAt(ds[k], ds[k].endAge, levels)
  {
    if |ds| > 0 {
      var p := ds[..|ds| - 1];
      GraphPointsSpec(p, levels);
      var g, gp := GraphPoints(ds, levels), GraphPoints(p, levels);
      var d := ds[|ds| - 1];
      assert g == gp + [PointAt(d, d.startAge, levels), PointAt(d, d.endAge, levels)];
      forall k | 0 <= k < |ds|
        ensures g[2 * k] == PointAt(ds[k], ds[k].startAge, levels) && g[2 * k + 1] == PointAt(ds[k], ds[k].endAge, levels)
      {
        if k < |p| {
          assert p[k] == ds[k];
          assert g[2 * k] == gp[2 * k] && g[2 * k + 1] == gp[2 * k + 1];
        } else {
          assert 2 * k == |gp| && ds[k] == d;
        }
      }
    }
  }

  /** When each decade ends no earlier than it starts and no later than the next starts,
      the graph's ages never decrease. */
  lemma {:induction false} GraphAgesSorted(ds: seq<DaeunInfo>, levels: map<string, int>)
    requires forall k :: 0 <= k < |ds| ==> ds[k].startAge <= ds[k].endAge
    requires forall k :: 0 <= k < |ds| - 1 ==> ds[k].endAge <= ds[k + 1].startAge
    ensures forall j :: 0 <= j < |GraphPoints(ds, levels)| - 1 ==>
              GraphPoints(ds, levels)[j].age <= GraphPoints(ds, levels)[j + 1].age
  {
    if |ds| > 0 {
      var p := ds[..|ds| - 1];
      var d := ds[|ds| - 1];
      assert forall k :: 0 <= k < |p| ==> p[k] == ds[k];
      GraphAgesSorted(p, levels);
      GraphPointsSpec(p, levels);
      var g, gp := GraphPoints(ds, levels), GraphPoints(p, levels);
      assert g == gp + [PointAt(d, d.startAge, levels), PointAt(d, d.endAge, levels)];
      forall j | 0 <= j < |g| - 1
        ensures g[j].age <= g[j + 1].age
      {
        if j < |gp| - 1 {
          assert g[j] == gp[j] && g[j + 1] == gp[j + 1];
        } else if j == |gp| - 1 {
          var k := |p| - 1;
          assert j == 2 * k + 1 && gp[2 * k + 1].age == p[k].endAge;
          assert g[j + 1].age == d.startAge;
        }
      }
    }
  }

  /** The graph loop of `getSajuDetail`. */
  method BuildGraphPoints(ds: seq<DaeunInfo>, levels: map<string, int>) returns (points: seq<GraphPoint>)
    ensures points == GraphPoints(ds, levels)
  {
    points := [];
    for i := 0 to |ds|
      invariant points == GraphPoints(ds[..i], levels)
    {
      assert ds[..i + 1][..i] == ds[..i];
      var daeun := ds[i];
      points := points + [PointAt(daeun, daeun.startAge, levels)];
      points := points + [PointAt(daeun, daeun.endAge, levels)];
    }
    assert ds[..|ds|] == ds;
  }

  /** The age `getSajuDetail` shows: the difference of the calendar years. */
  function DetailCurrentAge(today: Civil, birth: Civil): int {
    today.year - birth.year
  }

  /** The detail page's age is the helper's completed-years age, plus one before this
      year's birthday. */
  lemma DetailAgeVersusHelper(today: Civil, birth: Civil)
    ensures DetailCurrentAge(today, birth) ==
              SajuHelpers.CalculateCurrentAge(today, birth) + (if SajuHelpers.BirthdayPassed(today, birth, today.year - birth.year) then 0 else 1)
  {
  }
}
