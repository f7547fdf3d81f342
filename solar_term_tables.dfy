/** The solar-term JSON databases the maintenance scripts read and write: a `metadata`
    object and a `solar_terms_data` object mapping each year to an object of named term
    records. Year keys are the integers their strings spell. The term records are carried
    along without being read, so their type is a parameter wherever a script does not look
    inside them. */
module SolarTermTables {
  import opened Common
  import opened Dicts

  /** The twelve zhongqi (中気), the terms at multiples of 30 degrees of solar longitude. */
  const Zhongqi: seq<string> :=
    ["雨水", "春分", "穀雨", "小満", "夏至", "大暑", "処暑", "秋分", "霜降", "小雪", "冬至", "大寒"]

  /** The twelve jieqi (節気), the terms that open each sexagenary month. */
  const Jieqi: seq<string> :=
    ["立春", "驚蟄", "清明", "立夏", "芒種", "小暑", "立秋", "白露", "寒露", "立冬", "大雪", "小寒"]

  predicate IsZhongqi(name: string) {
    name in Zhongqi
  }

  predicate IsJieqi(name: string) {
    name in Jieqi
  }

  /** One year's terms: term name to record, in insertion order. */
  type YearTerms<T> = Dict<string, T>

  /** The `solar_terms_data` object: year to that year's terms, in insertion order. */
  type YearTable<T> = Dict<int, YearTerms<T>>

  /** A value in the `metadata` object, as far as the scripts write or compare it. */
  datatype MetaValue = Text(text: string) | Number(number: int) | Pairs(pairs: seq<(string, string)>)

  /** The name of entry `i` of a year. */
  function NameAt<T>(year: YearTerms<T>, i: int): string
    requires 0 <= i < |year|
  {
    year[i].0
  }

  /** Some entry of the year is a zhongqi. */
  predicate HasZhongqi<T>(year: YearTerms<T>) {
    exists i :: 0 <= i < |year| && IsZhongqi(NameAt(year, i))
  }

  /** The total number of term entries over all years. */
  function TotalTerms<T>(t: YearTable<T>): (n: nat) {
    if |t| == 0 then 0 else TotalTerms(t[..|t| - 1]) + |t[|t| - 1].1|
  }

  /** When every year holds `k` terms, the table holds `k` times as many terms as years. */
  lemma {:induction false} TotalTermsUniform<T>(t: YearTable<T>, k: nat)
    requires forall i :: 0 <= i < |t| ==> |t[i].1| == k
    ensures TotalTerms(t) == k * |t|
  {
    if |t| > 0 {
      TotalTermsUniform(t[..|t| - 1], k);
    }
  }
}
