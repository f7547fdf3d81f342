/** The Japanese automated compatibility analyzer. Its stem matrix, seasons, direction rule
    and score are those of the friendly analyzer (module CompatibilityAnalyzerFriendly) and
    its principle check is that of the Korean one (module AutomatedCompatibilityAnalyzer);
    only its single-pattern input and its messages are its own. */
module AutomatedCompatibilityAnalyzerJp {
  import opened Common
  import opened Calendar
  import InputParsing

  const NoMatch := "ValueError: 入力形式が間違っています。例: 男性 1986/5/26/5時, 女性 1986/12/20/0時"
  const BadDate := "ValueError: 無効な日付です: "

  /** `parse_input`: one pattern; no match and an impossible date (the man's checked first)
      raise their own ValueErrors. */
  function ParseInput(m: Option<InputParsing.Captures>): (r: Result<(Civil, Civil)>)
    ensures r.Ok? <==> m.Some? && InputParsing.Usable(m.value)
    ensures r.Ok? ==> r.value == (InputParsing.AsCivil(m.value.male), InputParsing.AsCivil(m.value.female))
    ensures m.None? ==> r == Err(NoMatch)
    ensures m.Some? && !ValidCivil(InputParsing.AsCivil(m.value.male)) ==>
              r == Err(BadDate + InputParsing.DatetimeError(m.value.male))
  {
    InputParsing.ParseSingle(m, NoMatch, BadDate)
  }
}
