/** Proleptic Gregorian civil dates and timezone-aware instants, as Python's
    `datetime` provides them: a civil reading (year … second) is turned into a
    count of seconds, an aware datetime is an instant (seconds since
    1970-01-01T00:00 UTC) together with the UTC offset its fields are read in. */
module Calendar {

  /** The wall-clock fields of a Python `datetime`. */
  datatype Civil = Civil(year: int, month: int, day: int, hour: int, minute: int, second: int)

  predicate IsLeap(y: int) {
    (y % 4 == 0 && y % 100 != 0) || y % 400 == 0
  }

  function DaysInMonth(y: int, m: int): (r: int)
    requires 1 <= m <= 12
    ensures 28 <= r <= 31
  {
    if m == 2 then (if IsLeap(y) then 29 else 28)
    else if m == 4 || m == 6 || m == 9 || m == 11 then 30
    else 31
  }

  /** The fields Python's `datetime(...)` constructor accepts without raising ValueError. */
  predicate ValidCivil(c: Civil) {
    1 <= c.year <= 9999 && 1 <= c.month <= 12 && 1 <= c.day <= DaysInMonth(c.year, c.month) &&
    0 <= c.hour < 24 && 0 <= c.minute < 60 && 0 <= c.second < 60
  }

  /** Days from 1970-01-01 to the given civil date (negative before it). */
  function DaysFromCivil(y: int, m: int, d: int): int {
    var y' := if m <= 2 then y - 1 else y;
    var era := y' / 400;
    var yoe := y' - era * 400;
    var mp := if m > 2 then m - 3 else m + 9;
    var doy := (153 * mp + 2) / 5 + d - 1;
    var doe := yoe * 365 + yoe / 4 - yoe / 100 + doy;
    era * 146097 + doe - 719468
  }

  /** Within one month the day number advances one per day. */
  lemma DaysFromCivilInMonth(y: int, m: int, d: int, k: int)
    ensures DaysFromCivil(y, m, d + k) == DaysFromCivil(y, m, d) + k
  {
  }

  /** Seconds since 1970-01-01T00:00 of the civil reading itself (no offset applied). */
  function CivilSeconds(c: Civil): int {
    DaysFromCivil(c.year, c.month, c.day) * 86400 + c.hour * 3600 + c.minute * 60 + c.second
  }

  /** A timezone-aware datetime: the instant in UTC seconds and the UTC offset (seconds)
      its civil fields are read in. Comparison and subtraction use `utc` only. */
  datatype Moment = Moment(utc: int, offset: int)

  const HourSeconds := 3600
  const DaySeconds := 86400
  const KstOffset := 9 * 3600
  const BeijingOffset := 8 * 3600

  /** `datetime(fields..., tzinfo=offset)`. */
  function FromCivil(c: Civil, offset: int): (m: Moment)
    ensures m.offset == offset && m.utc + offset == CivilSeconds(c)
  {
    Moment(CivilSeconds(c) - offset, offset)
  }

  /** The wall-clock seconds of a moment in its own offset. */
  function Local(m: Moment): int {
    m.utc + m.offset
  }

  /** `dt.astimezone(tz)`: the same instant, read in another offset. */
  function AsTimezone(m: Moment, offset: int): (r: Moment)
    ensures r.utc == m.utc && r.offset == offset
    ensures Local(r) == Local(m) + (offset - m.offset)
  {
    Moment(m.utc, offset)
  }

  /** The civil date of a day number (inverse of `DaysFromCivil`; its correctness is not proved here). */
  function CivilFromDays(z0: int): (r: Civil) {
    var z := z0 + 719468;
    var era := z / 146097;
    var doe := z - era * 146097;
    var yoe := (doe - doe / 1460 + doe / 36524 - doe / 146096) / 365;
    var y := yoe + era * 400;
    var doy := doe - (365 * yoe + yoe / 4 - yoe / 100);
    var mp := (5 * doy + 2) / 153;
    var d := doy - (153 * mp + 2) / 5 + 1;
    var m := if mp < 10 then mp + 3 else mp - 9;
    Civil(if m <= 2 then y + 1 else y, m, d, 0, 0, 0)
  }

  /** The civil fields of an aware datetime, read in its own offset. */
  function CivilOf(m: Moment): Civil {
    var local := Local(m);
    var date := CivilFromDays(local / DaySeconds);
    var sod := local % DaySeconds;
    date.(hour := sod / 3600, minute := sod % 3600 / 60, second := sod % 60)
  }

  /** `(a - b).days` of Python's `timedelta`: whole days, rounded toward minus infinity. */
  function DaysDiff(a: Moment, b: Moment): (r: int)
    ensures r * DaySeconds <= a.utc - b.utc < (r + 1) * DaySeconds
  {
    (a.utc - b.utc) / DaySeconds
  }

  /** `(a - b).total_seconds() / 86400` as an exact real. */
  function FracDaysDiff(a: Moment, b: Moment): real {
    (a.utc - b.utc) as real / DaySeconds as real
  }

  /** `(a, b) < (c, d)` on pairs of integers, as Python compares tuples. */
  predicate PairLess(a: int, b: int, c: int, d: int) {
    a < c || (a == c && b < d)
  }

  /** Python's `int(x)` on a real: truncation toward zero. */
  function Trunc(x: real): (r: int)
    ensures x >= 0.0 ==> 0 <= r && r as real <= x < r as real + 1.0
    ensures x < 0.0 ==> r <= 0 && r as real - 1.0 < x <= r as real
  {
    if x >= 0.0 then x.Floor else -((-x).Floor)
  }
}
