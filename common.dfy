/** Shared vocabulary of the sexagenary calendar: the two cyclic alphabets,
    index lookup, the yin/yang parity of a stem, gender, and the small
    failure-carrying datatypes used wherever the source raises or returns None. */
module Common {

  datatype Option<T> = None | Some(value: T)

  /** An operation that either yields a value or fails with an error message
      (a Python exception or an error dict in the source). */
  datatype Result<T> = Ok(value: T) | Err(msg: string)

  /** The ten heavenly stems, in cycle order (index 0 = 甲). */
  const Stems: seq<string> := ["甲", "乙", "丙", "丁", "戊", "己", "庚", "辛", "壬", "癸"]

  /** The twelve earthly branches, in cycle order (index 0 = 子). */
  const Branches: seq<string> :=
    ["子", "丑", "寅", "卯", "辰", "巳", "午", "未", "申", "酉", "戌", "亥"]

  type StemIdx = i: int | 0 <= i < 10
  type BranchIdx = i: int | 0 <= i < 12

  datatype Gender = Male | Female

  /** The five elements (五行), in generating order: each feeds the next and water feeds
      wood again. */
  datatype Element = Wood | Fire | Earth | Metal | Water

  /** The position of `x` in `s`, as Python's `list.index` finds it (first match). */
  function IndexOf(s: seq<string>, x: string): (r: Option<nat>)
    ensures r.None? <==> x !in s
    ensures r.Some? ==> r.value < |s| && s[r.value] == x && x !in s[..r.value]
  {
    if |s| == 0 then None
    else if s[0] == x then Some(0)
    else match IndexOf(s[1..], x)
      case None => None
      case Some(i) => assert s[1..][..i] == s[1..i + 1]; Some(i + 1)
  }

  lemma StemsDistinct()
    ensures forall i, j :: 0 <= i < j < 10 ==> Stems[i] != Stems[j]
  {
  }

  lemma BranchesDistinct()
    ensures forall i, j :: 0 <= i < j < 12 ==> Branches[i] != Branches[j]
  {
  }

  /** In a list without repeats, `list.index` recovers the position of every element. */
  lemma IndexOfDistinct(s: seq<string>, k: nat)
    requires k < |s| && forall i, j :: 0 <= i < j < |s| ==> s[i] != s[j]
    ensures IndexOf(s, s[k]) == Some(k)
  {
    InLongerPrefix(s, k);
  }

  lemma InLongerPrefix(s: seq<string>, k: nat)
    requires k < |s|
    ensures forall p :: k < p <= |s| ==> s[k] in s[..p]
  {
    forall p | k < p <= |s|
      ensures s[k] in s[..p]
    {
      assert s[..p][k] == s[k];
    }
  }

  lemma StemIndexRoundTrip(i: StemIdx)
    ensures IndexOf(Stems, Stems[i]) == Some(i)
  {
    StemsDistinct();
    IndexOfDistinct(Stems, i);
  }

  lemma BranchIndexRoundTrip(i: BranchIdx)
    ensures IndexOf(Branches, Branches[i]) == Some(i)
  {
    BranchesDistinct();
    IndexOfDistinct(Branches, i);
  }

  /** A stem is yang when its index is even. */
  predicate IsYang(stemIdx: int) {
    stemIdx % 2 == 0
  }

  /** The forward/backward rule shared by every major-fortune variant:
      forward iff (yang and male) or (yin and female). */
  predicate IsForward(yang: bool, g: Gender) {
    (yang && g == Male) || (!yang && g == Female)
  }

  lemma ForwardIsParityXorGender(yang: bool, g: Gender)
    ensures IsForward(yang, g) <==> (yang == (g == Male))
  {
  }

  /** Shifting a cyclic index by k, with Python's non-negative `%`. */
  function Shift(i: int, k: int, n: nat): (r: int)
    requires n > 0
    ensures 0 <= r < n
  {
    (i + k) % n
  }

  function Sum(xs: seq<int>): int {
    if xs == [] then 0 else xs[0] + Sum(xs[1..])
  }

  lemma SumAppend(xs: seq<int>, x: int)
    ensures Sum(xs + [x]) == Sum(xs) + x
  {
    if xs != [] {
      assert (xs + [x])[1..] == xs[1..] + [x];
      SumAppend(xs[1..], x);
    }
  }

  /** Whether `needle` occurs as a contiguous substring of `hay` (Python `in` on str). */
  predicate Contains(hay: string, needle: string)
    decreases |hay|
  {
    (|needle| <= |hay| && hay[..|needle|] == needle) || (|hay| > 0 && Contains(hay[1..], needle))
  }
}
