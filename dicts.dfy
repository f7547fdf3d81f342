/** Python's insertion-ordered `dict`, as a sequence of (key, value) entries with distinct
    keys: lookup, `d[k] = v` (overwrite in place or append), `len`, and key order. */
module Dicts {
  import opened Common

  type Dict<K, V> = seq<(K, V)>

  /** No key occurs twice. */
  predicate WellFormed<K(==), V>(d: Dict<K, V>) {
    forall i, j :: 0 <= i < j < |d| ==> d[i].0 != d[j].0
  }

  predicate Has<K(==), V>(d: Dict<K, V>, k: K) {
    exists i :: 0 <= i < |d| && d[i].0 == k
  }

  /** The position of key k at or after `from`: the first entry carrying it. */
  function FindKey<K(==), V>(d: Dict<K, V>, k: K, from: nat): (r: Option<nat>)
    requires from <= |d|
    decreases |d| - from
    ensures r.Some? ==> from <= r.value < |d|
  {
    if from == |d| then None
    else if d[from].0 == k then Some(from)
    else FindKey(d, k, from + 1)
  }

  /** FindKey finds the first entry carrying k, and finds none exactly when no entry
      at or after `from` carries it. */
  lemma {:induction false} FindKeySpec<K, V>(d: Dict<K, V>, k: K, from: nat)
    requires from <= |d|
    decreases |d| - from
    ensures FindKey(d, k, from).Some? ==>
              d[FindKey(d, k, from).value].0 == k && forall j :: from <= j < FindKey(d, k, from).value ==> d[j].0 != k
    ensures FindKey(d, k, from).None? ==> forall j :: from <= j < |d| ==> d[j].0 != k
  {
    if from < |d| && d[from].0 != k {
      FindKeySpec(d, k, from + 1);
    }
  }

  /** `d.get(k)`. */
  function Get<K(==), V>(d: Dict<K, V>, k: K): Option<V> {
    match FindKey(d, k, 0)
    case Some(i) => Some(d[i].1)
    case None => None
  }

  /** `d.get(k)` is None exactly when k is absent, and otherwise the value of an entry
      carrying k; with distinct keys, the value of the one entry carrying k. */
  lemma GetSpec<K, V>(d: Dict<K, V>, k: K)
    ensures Get(d, k).None? <==> !Has(d, k)
    ensures Get(d, k).Some? ==> (k, Get(d, k).value) in d
    ensures WellFormed(d) ==> forall i :: 0 <= i < |d| && d[i].0 == k ==> Get(d, k) == Some(d[i].1)
  {
    FindKeySpec(d, k, 0);
    match FindKey(d, k, 0)
    case Some(i) =>
      assert d[i] == (k, d[i].1);
    case None =>
  }

  /** `d.get(k, default)`. */
  function GetOr<K(==), V>(d: Dict<K, V>, k: K, default: V): V {
    match Get(d, k)
    case Some(v) => v
    case None => default
  }

  function Replace<K(==), V>(d: Dict<K, V>, k: K, v: V): (r: Dict<K, V>)
    ensures |r| == |d|
  {
    if |d| == 0 then [] else [if d[0].0 == k then (k, v) else d[0]] + Replace(d[1..], k, v)
  }

  lemma {:induction false} ReplaceEntries<K, V>(d: Dict<K, V>, k: K, v: V)
    ensures forall i :: 0 <= i < |d| ==> Replace(d, k, v)[i] == (if d[i].0 == k then (k, v) else d[i])
  {
    if |d| > 0 {
      ReplaceEntries(d[1..], k, v);
    }
  }

  /** `d[k] = v`: an existing key keeps its position and takes the new value; a new key is
      appended at the end. */
  function Put<K(==), V>(d: Dict<K, V>, k: K, v: V): Dict<K, V> {
    if FindKey(d, k, 0).Some? then Replace(d, k, v) else d + [(k, v)]
  }

  /** Entry by entry: every entry with key k now carries v, the others are untouched, and
      an absent key lands at the end. */
  lemma PutEntries<K, V>(d: Dict<K, V>, k: K, v: V)
    ensures |Put(d, k, v)| == if Has(d, k) then |d| else |d| + 1
    ensures forall i :: 0 <= i < |d| ==> Put(d, k, v)[i] == (if d[i].0 == k then (k, v) else d[i])
    ensures !Has(d, k) ==> Put(d, k, v)[|d|] == (k, v)
  {
    ReplaceEntries(d, k, v);
    GetSpec(d, k);
  }

  /** The keys after a write are the old keys plus k, and every entry is an old entry or
      the written one. */
  lemma PutKeys<K, V>(d: Dict<K, V>, k: K, v: V)
    ensures forall k' :: Has(Put(d, k, v), k') <==> Has(d, k') || k' == k
    ensures forall i :: 0 <= i < |Put(d, k, v)| ==> Put(d, k, v)[i] in d || Put(d, k, v)[i] == (k, v)
  {
    PutEntries(d, k, v);
    var r := Put(d, k, v);
    forall k' | Has(d, k') || k' == k
      ensures Has(r, k')
    {
      if Has(d, k') {
        var i :| 0 <= i < |d| && d[i].0 == k';
        assert r[i].0 == k';
      } else {
        assert r[|d|].0 == k';
      }
    }
  }

  /** Writing a key makes it read back, leaves every other key's value alone and keeps the
      keys distinct. */
  lemma PutGet<K, V>(d: Dict<K, V>, k: K, v: V, k': K)
    requires WellFormed(d)
    ensures WellFormed(Put(d, k, v))
    ensures Get(Put(d, k, v), k) == Some(v)
    ensures k' != k ==> Get(Put(d, k, v), k') == Get(d, k')
  {
    var r := Put(d, k, v);
    PutEntries(d, k, v);
    assert forall i :: 0 <= i < |r| ==> r[i].0 == (if i < |d| then d[i].0 else k);
    FindKeySpec(r, k, 0);
    var f := FindKey(r, k, 0);
    assert f.Some? by {
      if Has(d, k) {
        var i :| 0 <= i < |d| && d[i].0 == k;
        assert r[i].0 == k;
      } else {
        assert r[|d|].0 == k;
      }
    }
    assert r[f.value] == (k, v);
    if k' != k {
      FindKeySpec(r, k', 0);
      FindKeySpec(d, k', 0);
      var g := FindKey(r, k', 0);
      var h := FindKey(d, k', 0);
      if g.Some? {
        assert g.value < |d|;
        assert h == g;
      }
    }
  }

  /** Storing a key the dictionary does not hold appends it. */
  lemma PutFresh<K, V>(d: Dict<K, V>, k: K, v: V)
    requires !Has(d, k)
    ensures Put(d, k, v) == d + [(k, v)]
  {
    PutEntries(d, k, v);
  }

  /** `d[k] = v` on a key not yet present: the entry is appended. */
  method StoreFresh<K(==), V>(d: Dict<K, V>, k: K, v: V) returns (r: Dict<K, V>)
    requires !Has(d, k)
    ensures r == d + [(k, v)]
  {
    PutFresh(d, k, v);
    r := Put(d, k, v);
  }

  /** The values, in key order. */
  function Values<K, V>(d: Dict<K, V>): (vs: seq<V>)
    ensures |vs| == |d|
  {
    if |d| == 0 then [] else Values(d[..|d| - 1]) + [d[|d| - 1].1]
  }

  lemma {:induction false} ValuesAt<K, V>(d: Dict<K, V>)
    ensures forall i :: 0 <= i < |d| ==> Values(d)[i] == d[i].1
  {
    if |d| > 0 {
      ValuesAt(d[..|d| - 1]);
    }
  }
  /** `d.update(src)`: the entries of src written into d one by one, in src's order. */
  function Update<K(==), V>(d: Dict<K, V>, src: Dict<K, V>): Dict<K, V>
    decreases |src|
  {
    if |src| == 0 then d
    else Put(Update(d, src[..|src| - 1]), src[|src| - 1].0, src[|src| - 1].1)
  }

  /** After an update the keys are those of both dicts. */
  lemma {:induction false} UpdateKeys<K, V>(d: Dict<K, V>, src: Dict<K, V>, k: K)
    decreases |src|
    ensures Has(Update(d, src), k) <==> Has(d, k) || Has(src, k)
  {
    if |src| > 0 {
      var n := |src| - 1;
      UpdateKeys(d, src[..n], k);
      PutKeys(Update(d, src[..n]), src[n].0, src[n].1);
      if Has(src[..n], k) {
        var i :| 0 <= i < n && src[..n][i].0 == k;
        assert src[i].0 == k;
      }
      if Has(src, k) && src[n].0 != k {
        var i :| 0 <= i < |src| && src[i].0 == k;
        assert src[..n][i].0 == k;
      }
    }
  }

  /** With distinct keys, dropping the last entry leaves every other key's value alone. */
  lemma GetDropLast<K, V>(src: Dict<K, V>, k: K)
    requires WellFormed(src) && |src| > 0 && k != src[|src| - 1].0
    ensures Get(src, k) == Get(src[..|src| - 1], k)
  {
    var n := |src| - 1;
    GetSpec(src, k);
    GetSpec(src[..n], k);
    if Has(src, k) {
      var i :| 0 <= i < |src| && src[i].0 == k;
      assert src[..n][i].0 == k;
    }
  }

  /** On keys src carries, src's value wins; other keys keep d's value; distinct keys stay
      distinct. */
  lemma {:induction false} UpdateGet<K, V>(d: Dict<K, V>, src: Dict<K, V>, k: K)
    requires WellFormed(d) && WellFormed(src)
    decreases |src|
    ensures WellFormed(Update(d, src))
    ensures Get(Update(d, src), k) == if Has(src, k) then Get(src, k) else Get(d, k)
  {
    if |src| > 0 {
      var n := |src| - 1;
      var u := Update(d, src[..n]);
      UpdateGet(d, src[..n], k);
      PutGet(u, src[n].0, src[n].1, k);
      UpdateKeys(d, src, k);
      UpdateKeys(d, src[..n], k);
      GetSpec(src, k);
      GetSpec(src[..n], k);
      if k == src[n].0 {
        assert src[n].0 == k;
      } else {
        GetDropLast(src, k);
        if Has(src, k) {
          var i :| 0 <= i < |src| && src[i].0 == k;
          assert src[..n][i].0 == k;
        }
      }
    }
  }

  /** How many entries of src carry a key d already has. */
  function OverlapCount<K(==), V>(d: Dict<K, V>, src: Dict<K, V>): (n: nat)
    ensures n <= |src|
  {
    if |src| == 0 then 0
    else OverlapCount(d, src[..|src| - 1]) + (if Has(d, src[|src| - 1].0) then 1 else 0)
  }

  /** An update grows d by the entries of src whose key is new to d. */
  lemma {:induction false} UpdateLength<K, V>(d: Dict<K, V>, src: Dict<K, V>)
    requires WellFormed(src)
    decreases |src|
    ensures |Update(d, src)| == |d| + |src| - OverlapCount(d, src)
  {
    if |src| > 0 {
      var n := |src| - 1;
      UpdateLength(d, src[..n]);
      UpdateKeys(d, src[..n], src[n].0);
      PutEntries(Update(d, src[..n]), src[n].0, src[n].1);
      assert forall i :: 0 <= i < n ==> src[..n][i].0 != src[n].0;
    }
  }
}
