/** The command-line input of the compatibility analyzers: two birth stamps
    (year, month, day, hour) found by a regular expression and checked by
    Python's `datetime(...)` constructor. The regular-expression search itself
    is not modelled: each analyzer receives, per pattern, the eight captured
    integers or `None` when the pattern did not match. */
module InputParsing {
  import opened Common
  import opened Calendar
  import SajuHelpers

  /** The four integers captured for one person. */
  datatype Stamp = Stamp(year: int, month: int, day: int, hour: int)

  /** The eight integers captured for the couple, male first. */
  datatype Captures = Captures(male: Stamp, female: Stamp)

  /** `datetime(year, month, day, hour)`: minutes and seconds are zero. */
  function AsCivil(s: Stamp): (c: Civil)
    ensures c.year == s.year && c.month == s.month && c.day == s.day && c.hour == s.hour
    ensures c.minute == 0 && c.second == 0
  {
    Civil(s.year, s.month, s.day, s.hour, 0, 0)
  }

  /** Both captured stamps are dates `datetime(...)` accepts. */
  predicate Usable(c: Captures) {
    ValidCivil(AsCivil(c.male)) && ValidCivil(AsCivil(c.female))
  }

  /** The reason `datetime(...)` gives for refusing a stamp, checked field by
      field in the constructor's own order; the year message names the year. */
  function DatetimeError(s: Stamp): (msg: string)
    requires !ValidCivil(AsCivil(s))
    ensures !(1 <= s.year <= 9999) ==> msg == "year " + SajuHelpers.IntToString(s.year) + " is out of range"
    ensures msg == "month must be in 1..12" <==> 1 <= s.year <= 9999 && !(1 <= s.month <= 12)
    ensures msg == "hour must be in 0..23" <==>
              1 <= s.year <= 9999 && 1 <= s.month <= 12 && 1 <= s.day <= DaysInMonth(s.year, s.month)
  {
    if !(1 <= s.year <= 9999) then
      var m := "year " + SajuHelpers.IntToString(s.year) + " is out of range";
      assert m[0] == 'y';
      m
    else if !(1 <= s.month <= 12) then "month must be in 1..12"
    else if !(1 <= s.day <= DaysInMonth(s.year, s.month)) then "day is out of range for month"
    else "hour must be in 0..23"
  }

  /** `parse_input` of the two automated analyzers: a single pattern; no match
      raises `noMatch`, an impossible date raises `badDate` followed by the
      constructor's reason, the male stamp being checked first. */
  function ParseSingle(m: Option<Captures>, noMatch: string, badDate: string): (r: Result<(Civil, Civil)>)
    ensures r.Ok? <==> m.Some? && Usable(m.value)
    ensures r.Ok? ==> r.value == (AsCivil(m.value.male), AsCivil(m.value.female))
    ensures m.None? ==> r == Err(noMatch)
    ensures m.Some? && !ValidCivil(AsCivil(m.value.male)) ==> r == Err(badDate + DatetimeError(m.value.male))
    ensures m.Some? && ValidCivil(AsCivil(m.value.male)) && !ValidCivil(AsCivil(m.value.female)) ==>
              r == Err(badDate + DatetimeError(m.value.female))
  {
    match m
    case None => Err(noMatch)
    case Some(c) =>
      if !ValidCivil(AsCivil(c.male)) then Err(badDate + DatetimeError(c.male))
      else if !ValidCivil(AsCivil(c.female)) then Err(badDate + DatetimeError(c.female))
      else Ok((AsCivil(c.male), AsCivil(c.female)))
  }

  /** The pattern at position `i` matched and yielded two valid dates. */
  predicate UsableAt(matches: seq<Option<Captures>>, i: int)
    requires 0 <= i < |matches|
  {
    matches[i].Some? && Usable(matches[i].value)
  }

  const NotRecognised := "ValueError: 入力を認識できませんでした。再度お試しください。"

  /** `parse_input_flexible`: the patterns are tried in order, a pattern whose
      captures do not form valid dates is skipped, and the first usable one
      gives the two births; when none is usable the input is not recognised. */
  method ParseInputFlexible(matches: seq<Option<Captures>>) returns (r: Result<(Civil, Civil)>)
    ensures r.Err? <==> forall i :: 0 <= i < |matches| ==> !UsableAt(matches, i)
    ensures r.Err? ==> r.msg == NotRecognised
    ensures r.Ok? ==> exists i :: 0 <= i < |matches| && UsableAt(matches, i) &&
                                 (forall j :: 0 <= j < i ==> !UsableAt(matches, j)) &&
                                 r.value == (AsCivil(matches[i].value.male), AsCivil(matches[i].value.female))
  {
    var k := 0;
    while k < |matches|
      invariant 0 <= k <= |matches|
      invariant forall j :: 0 <= j < k ==> !UsableAt(matches, j)
    {
      if matches[k].Some? {
        var c := matches[k].value;
        if ValidCivil(AsCivil(c.male)) && ValidCivil(AsCivil(c.female)) {
          assert UsableAt(matches, k);
          return Ok((AsCivil(c.male), AsCivil(c.female)));
        }
      }
      k := k + 1;
    }
    return Err(NotRecognised);
  }
}
