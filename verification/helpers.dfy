/** The value-level helpers of script.js: dates, date parsing and clamping.

    A JavaScript Date is either "Invalid Date" (its time value is NaN) or an
    instant.  The timeline only ever compares instants and asks for their
    calendar month, so an instant is kept as the local calendar month it falls
    in plus the milliseconds elapsed in that month.  Ordering is lexicographic;
    it agrees with the ordering of the underlying time values as long as the
    milliseconds stay below the length of the month, which the type does not
    enforce (every instant the model builds itself is on day 1). */
module Helpers {

  datatype Option<T> = None | Some(value: T)

  /** A local instant: `month` is the absolute month index year * 12 + m with
      m the 0-based month of the year (what getFullYear and getMonth give),
      `millis` the time since local midnight at the start of day 1. */
  datatype Moment = Moment(month: int, millis: nat)

  /** A Date object: "Invalid Date" or a valid instant. */
  datatype JsDate = Invalid | At(moment: Moment)

  /** `a <= b` on the time values of two valid dates. */
  predicate NotAfter(a: Moment, b: Moment) {
    a.month < b.month || (a.month == b.month && a.millis <= b.millis)
  }

  /** `a < b` on the time values of two valid dates. */
  predicate Before(a: Moment, b: Moment) {
    !NotAfter(b, a)
  }

  /** getFullYear() */
  function YearOf(m: Moment): int {
    m.month / 12
  }

  /** getMonth(), 0 for January */
  function MonthOfYear(m: Moment): int {
    m.month % 12
  }

  lemma YearAndMonth(m: Moment)
    ensures YearOf(m) * 12 + MonthOfYear(m) == m.month
    ensures 0 <= MonthOfYear(m) < 12
  {
  }

  /** The Date constructor reads a year argument between 0 and 99 as 1900 + year. */
  predicate TwoDigitYear(year: int) {
    0 <= year <= 99
  }

  function FullYear(year: int): int {
    if TwoDigitYear(year) then 1900 + year else year
  }

  /** `new Date(year, monthIndex, 1)`: local midnight on day 1; a month index
      outside 0..11 carries into the year. */
  function NewDate(year: int, monthIndex: int): (r: Moment)
    ensures r.millis == 0
    ensures YearOf(r) == FullYear(year) + monthIndex / 12
    ensures MonthOfYear(r) == monthIndex % 12
  {
    Moment(FullYear(year) * 12 + monthIndex, 0)
  }

  /** `new Date(m.getFullYear(), m.getMonth() + k, 1)`: day 1 of the month k
      months away from m, unless m's year has at most two digits. */
  lemma ShiftMonths(m: Moment, k: int)
    requires !TwoDigitYear(YearOf(m))
    ensures NewDate(YearOf(m), MonthOfYear(m) + k) == Moment(m.month + k, 0)
  {
    YearAndMonth(m);
  }

  /** Parsing of any string that script.js hands to the Date constructor and
      that the model does not decode itself (implementation-defined formats,
      time zones). */
  type DateParser = string -> JsDate

  predicate IsDigit(c: char) {
    '0' <= c <= '9'
  }

  function DigitValue(c: char): int {
    c as int - '0' as int
  }

  function Digit(d: nat): (c: char)
    requires d < 10
    ensures IsDigit(c) && DigitValue(c) == d
  {
    ('0' as int + d) as char
  }

  function YearField(s: string): int
    requires |s| == 7
  {
    DigitValue(s[0]) * 1000 + DigitValue(s[1]) * 100 + DigitValue(s[2]) * 10 + DigitValue(s[3])
  }

  function MonthField(s: string): int
    requires |s| == 7
  {
    DigitValue(s[5]) * 10 + DigitValue(s[6])
  }

  /** "YYYY-MM" with a month from 01 to 12: once "-01T00:00:00" is appended it
      is a date-time string in the standard format without an offset, which
      denotes local midnight on the first of that month. */
  predicate IsYearMonth(s: string) {
    |s| == 7 && IsDigit(s[0]) && IsDigit(s[1]) && IsDigit(s[2]) && IsDigit(s[3]) &&
    s[4] == '-' && IsDigit(s[5]) && IsDigit(s[6]) && 1 <= MonthField(s) <= 12
  }

  /** parseDate: a falsy input gives null; a 7-character input is completed to
      the first of its month at local midnight; anything else goes to the Date
      constructor as it is. */
  function ParseDate(s: string, other: DateParser): (r: Option<JsDate>)
    ensures r.None? <==> s == ""
  {
    if s == "" then None
    else if |s| == 7 then
      if IsYearMonth(s) then Some(At(Moment(YearField(s) * 12 + MonthField(s) - 1, 0)))
      else Some(other(s + "-01T00:00:00"))
    else Some(other(s))
  }

  /** The "YYYY-MM" spelling of a year in 0..9999 and a 0-based month. */
  function YearMonthString(year: nat, month: nat): (s: string)
    requires year < 10000 && month < 12
  {
    [Digit(year / 10 / 10 / 10), Digit(year / 10 / 10 % 10), Digit(year / 10 % 10), Digit(year % 10),
     '-', Digit((month + 1) / 10), Digit((month + 1) % 10)]
  }

  lemma FourDigits(year: nat)
    requires year < 10000
    ensures year / 10 / 10 / 10 * 1000 + year / 10 / 10 % 10 * 100 + year / 10 % 10 * 10 + year % 10 == year
  {
    var q := year / 10;
    var p := q / 10;
    assert year == q * 10 + year % 10;
    assert q == p * 10 + q % 10;
    assert p == p / 10 * 10 + p % 10;
  }

  /** A "YYYY-MM" string parses, without the foreign parser, to local midnight
      on day 1 of exactly that month. */
  lemma ParseYearMonth(year: nat, month: nat, other: DateParser)
    requires year < 10000 && month < 12
    ensures IsYearMonth(YearMonthString(year, month))
    ensures ParseDate(YearMonthString(year, month), other) == Some(At(Moment(year * 12 + month, 0)))
  {
    var s := YearMonthString(year, month);
    FourDigits(year);
    assert YearField(s) == year;
    assert MonthField(s) == month + 1;
  }

  /** A JavaScript number: NaN or a real value.  Infinities and the sign of
      zero are not distinguished. */
  datatype Number = NaN | Num(value: real)

  /** Math.min of two numbers: NaN as soon as one argument is NaN. */
  function MathMin(x: Number, y: Number): Number {
    if x.NaN? || y.NaN? then NaN else Num(if x.value <= y.value then x.value else y.value)
  }

  /** Math.max of two numbers: NaN as soon as one argument is NaN. */
  function MathMax(x: Number, y: Number): Number {
    if x.NaN? || y.NaN? then NaN else Num(if x.value >= y.value then x.value else y.value)
  }

  /** clamp(v, a, b) = Math.max(a, Math.min(b, v)) */
  function Clamp(v: Number, a: Number, b: Number): (r: Number)
    ensures r.NaN? <==> v.NaN? || a.NaN? || b.NaN?
    ensures v.Num? && a.Num? && b.Num? ==> r.Num?
    ensures v.Num? && a.Num? && b.Num? && a.value <= b.value ==> a.value <= r.value <= b.value
    ensures v.Num? && a.Num? && b.Num? && a.value <= v.value <= b.value ==> r == v
    ensures v.Num? && a.Num? && b.Num? && v.value <= a.value ==> r == a
    ensures v.Num? && a.Num? && b.Num? && a.value <= b.value <= v.value ==> r == b
    ensures v.Num? && a.Num? && b.Num? && b.value < a.value ==> r == a
  {
    MathMax(a, MathMin(b, v))
  }
}
