/** computeRange: the span of time the scroll position is mapped onto. */
module Ranges {
  import opened Helpers
  import opened Entries

  datatype TimeRange = TimeRange(minDate: JsDate, maxDate: JsDate)

  /** `entries.map(e => parseDate(e.start)).filter(Boolean)`.  An Invalid Date
      is an object, hence truthy: only the null of an empty start is dropped. */
  function ParsedStarts(es: seq<Entry>, other: DateParser): (ds: seq<JsDate>)
    ensures |ds| == 0 <==> forall i :: 0 <= i < |es| ==> es[i].start == ""
    ensures forall d :: d in ds <==> exists i :: 0 <= i < |es| && ParseDate(es[i].start, other) == Some(d)
  {
    if es == [] then []
    else
      var rest := ParsedStarts(es[1..], other);
      assert forall i :: 0 < i < |es| ==> es[i] == es[1..][i - 1];
      match ParseDate(es[0].start, other)
      case None => rest
      case Some(d) => [d] + rest
  }

  /** `parseDate(e.end) || today`: an open end counts as today, while an end
      that is an Invalid Date, being truthy, is kept. */
  function EndDate(e: Entry, today: Moment, other: DateParser): (d: JsDate)
    ensures e.end == "" ==> d == At(today)
    ensures e.end != "" ==> ParseDate(e.end, other) == Some(d)
  {
    match ParseDate(e.end, other)
    case None => At(today)
    case Some(d) => d
  }

  function EndDates(es: seq<Entry>, today: Moment, other: DateParser): (ds: seq<JsDate>)
    ensures |ds| == |es|
  {
    seq(|es|, i requires 0 <= i < |es| => EndDate(es[i], today, other))
  }

  /** Math.min over the time values: NaN as soon as one date is invalid. */
  function Earliest(ds: seq<JsDate>): (r: JsDate)
    requires |ds| > 0
    ensures r.Invalid? <==> Invalid in ds
    ensures r.At? ==> r in ds && forall d :: d in ds ==> d.At? && NotAfter(r.moment, d.moment)
  {
    if |ds| == 1 then ds[0]
    else
      var rest := Earliest(ds[1..]);
      assert ds == [ds[0]] + ds[1..];
      if ds[0].Invalid? || rest.Invalid? then Invalid
      else if NotAfter(ds[0].moment, rest.moment) then ds[0]
      else rest
  }

  /** Math.max over the time values: NaN as soon as one date is invalid. */
  function Latest(ds: seq<JsDate>): (r: JsDate)
    requires |ds| > 0
    ensures r.Invalid? <==> Invalid in ds
    ensures r.At? ==> r in ds && forall d :: d in ds ==> d.At? && NotAfter(d.moment, r.moment)
  {
    if |ds| == 1 then ds[0]
    else
      var rest := Latest(ds[1..]);
      assert ds == [ds[0]] + ds[1..];
      if ds[0].Invalid? || rest.Invalid? then Invalid
      else if NotAfter(rest.moment, ds[0].moment) then ds[0]
      else rest
  }

  /** `new Date(d.getFullYear(), d.getMonth() + k, 1)`; every getter of an
      Invalid Date gives NaN, and so does the constructor then. */
  function PadMonths(d: JsDate, k: int): (r: JsDate)
    ensures r.Invalid? <==> d.Invalid?
    ensures r.At? ==> r.moment.millis == 0
    ensures d.At? && !TwoDigitYear(YearOf(d.moment)) ==> r == At(Moment(d.moment.month + k, 0))
  {
    match d
    case Invalid => Invalid
    case At(m) =>
      if !TwoDigitYear(YearOf(m)) then ShiftMonths(m, k); At(NewDate(YearOf(m), MonthOfYear(m) + k))
      else At(NewDate(YearOf(m), MonthOfYear(m) + k))
  }

  /** The padding of the range, in months on either side. */
  const BUFFER_MONTHS := 6

  /** computeRange for the entries and the clock reading `today`.  Either
      bound is an Invalid Date exactly when one of the dates it is taken over
      is; the fallback window has two valid bounds. */
  function RangeOf(es: seq<Entry>, today: Moment, other: DateParser): (r: TimeRange)
    ensures r.minDate.Invalid? <==> Invalid in ParsedStarts(es, other)
    ensures r.maxDate.Invalid? <==> ParsedStarts(es, other) != [] && Invalid in EndDates(es, today, other)
    ensures r.minDate.At? ==> r.minDate.moment.millis == 0
    ensures r.maxDate.At? ==> r.maxDate.moment.millis == 0
  {
    var starts := ParsedStarts(es, other);
    if |starts| == 0 then
      TimeRange(At(NewDate(YearOf(today) - 5, 0)), At(NewDate(YearOf(today) + 1, 0)))
    else
      TimeRange(PadMonths(Earliest(starts), -BUFFER_MONTHS),
                PadMonths(Latest(EndDates(es, today, other)), BUFFER_MONTHS))
  }

  /** With no start that parses, the range is January 1 of five years back to
      January 1 of next year (as the Date constructor reads those years). */
  lemma FallbackWindow(es: seq<Entry>, today: Moment, other: DateParser)
    requires forall i :: 0 <= i < |es| ==> es[i].start == ""
    ensures RangeOf(es, today, other).minDate.At? && RangeOf(es, today, other).maxDate.At?
    ensures var r := RangeOf(es, today, other);
      r.minDate.moment.millis == 0 && MonthOfYear(r.minDate.moment) == 0 &&
      YearOf(r.minDate.moment) == FullYear(YearOf(today) - 5) &&
      r.maxDate.moment.millis == 0 && MonthOfYear(r.maxDate.moment) == 0 &&
      YearOf(r.maxDate.moment) == FullYear(YearOf(today) + 1)
  {
  }

  /** The fallback window is non-empty unless the clock is in years 99 to 104,
      where the year argument of the lower bound is read as a 1900s year and
      that of the upper bound is not. */
  lemma FallbackOrdered(es: seq<Entry>, today: Moment, other: DateParser)
    requires forall i :: 0 <= i < |es| ==> es[i].start == ""
    requires !(99 <= YearOf(today) <= 104)
    ensures var r := RangeOf(es, today, other);
      r.minDate.At? && r.maxDate.At? && Before(r.minDate.moment, r.maxDate.moment)
  {
    FallbackWindow(es, today, other);
  }

  /** In year 100 the fallback window is inverted: 1995-01-01 to 0101-01-01. */
  lemma FallbackInvertedInYear100(other: DateParser)
    ensures var r := RangeOf([], Moment(100 * 12, 0), other);
      r.minDate == At(Moment(1995 * 12, 0)) && r.maxDate == At(Moment(101 * 12, 0)) &&
      Before(r.maxDate.moment, r.minDate.moment)
  {
  }

  /** Every start that parses is a valid date whose year is not read as a 1900s year. */
  predicate UsableStarts(es: seq<Entry>, other: DateParser) {
    forall i :: 0 <= i < |es| && es[i].start != "" ==>
      HasValidStart(es[i], other) && !TwoDigitYear(YearOf(StartMoment(es[i], other)))
  }

  predicate UsableEnds(es: seq<Entry>, today: Moment, other: DateParser) {
    forall i :: 0 <= i < |es| ==>
      EndDate(es[i], today, other).At? && !TwoDigitYear(YearOf(EndDate(es[i], today, other).moment))
  }

  /** minDate is day 1 of the month six months before the earliest start: it
      precedes every start by at least six months and one start attains that. */
  lemma PaddedMinDate(es: seq<Entry>, today: Moment, other: DateParser)
    requires exists i :: 0 <= i < |es| && es[i].start != ""
    requires UsableStarts(es, other)
    ensures var r := RangeOf(es, today, other);
      r.minDate.At? && r.minDate.moment.millis == 0 &&
      (exists i :: 0 <= i < |es| && es[i].start != "" && StartMoment(es[i], other).month == r.minDate.moment.month + 6) &&
      (forall i :: 0 <= i < |es| && es[i].start != "" ==> r.minDate.moment.month + 6 <= StartMoment(es[i], other).month)
  {
    var starts := ParsedStarts(es, other);
    assert Invalid !in starts;
    var e := Earliest(starts);
    var j :| 0 <= j < |es| && ParseDate(es[j].start, other) == Some(e);
    assert StartMoment(es[j], other) == e.moment;
    ShiftMonths(e.moment, -BUFFER_MONTHS);
    var r := RangeOf(es, today, other);
    assert r.minDate == At(Moment(e.moment.month - 6, 0));
    forall i | 0 <= i < |es| && es[i].start != ""
      ensures r.minDate.moment.month + 6 <= StartMoment(es[i], other).month
    {
      assert ParseDate(es[i].start, other).value in starts;
    }
  }

  /** With every end a valid date, the latest end is the end of some entry
      and no entry ends later. */
  lemma LatestEnd(es: seq<Entry>, today: Moment, other: DateParser)
    requires |es| > 0 && UsableEnds(es, today, other)
    ensures var l := Latest(EndDates(es, today, other));
      l.At? && !TwoDigitYear(YearOf(l.moment)) &&
      (exists j :: 0 <= j < |es| && EndDate(es[j], today, other) == l) &&
      (forall i :: 0 <= i < |es| ==> EndDate(es[i], today, other).moment.month <= l.moment.month)
  {
    var ends := EndDates(es, today, other);
    assert Invalid !in ends by {
      forall k | 0 <= k < |ends| ensures ends[k] != Invalid {
        assert ends[k] == EndDate(es[k], today, other);
      }
    }
    var l := Latest(ends);
    var j :| 0 <= j < |ends| && ends[j] == l;
    assert EndDate(es[j], today, other) == l;
    forall i | 0 <= i < |es|
      ensures EndDate(es[i], today, other).moment.month <= l.moment.month
    {
      assert ends[i] == EndDate(es[i], today, other);
      assert ends[i] in ends;
    }
  }

  /** maxDate is day 1 of the month six months after the latest end, an open
      end counting as today. */
  lemma PaddedMaxDate(es: seq<Entry>, today: Moment, other: DateParser)
    requires exists i :: 0 <= i < |es| && es[i].start != ""
    requires UsableEnds(es, today, other)
    ensures var r := RangeOf(es, today, other);
      r.maxDate.At? && r.maxDate.moment.millis == 0 &&
      (exists i :: 0 <= i < |es| && EndDate(es[i], today, other).moment.month == r.maxDate.moment.month - 6) &&
      (forall i :: 0 <= i < |es| ==> EndDate(es[i], today, other).moment.month <= r.maxDate.moment.month - 6)
  {
    LatestEnd(es, today, other);
    var l := Latest(EndDates(es, today, other));
    ShiftMonths(l.moment, BUFFER_MONTHS);
    assert ParsedStarts(es, other) != [];
    assert RangeOf(es, today, other).maxDate == At(Moment(l.moment.month + 6, 0));
  }

  /** One start that is an Invalid Date makes minDate invalid. */
  lemma InvalidStartPoisonsMin(es: seq<Entry>, today: Moment, other: DateParser, i: nat)
    requires i < |es| && ParseDate(es[i].start, other) == Some(Invalid)
    ensures RangeOf(es, today, other).minDate == Invalid
  {
    assert Invalid in ParsedStarts(es, other);
  }

  /** Once some start parses, one end that is an Invalid Date makes maxDate invalid. */
  lemma InvalidEndPoisonsMax(es: seq<Entry>, today: Moment, other: DateParser, i: nat, j: nat)
    requires j < |es| && es[j].start != ""
    requires i < |es| && ParseDate(es[i].end, other) == Some(Invalid)
    ensures RangeOf(es, today, other).maxDate == Invalid
  {
    var ends := EndDates(es, today, other);
    assert ends[i] == Invalid;
  }

  /** A start in year 50 is padded into the 1900s: new Date(50, -4, 1) is
      1949-09-01, so minDate lies after that start. */
  lemma TwoDigitYearStart(other: DateParser)
    ensures var r := RangeOf([Entry(None, "0050-03", "")], Moment(2025 * 12, 0), other);
      r.minDate == At(Moment(1949 * 12 + 8, 0))
  {
    ParseYearMonth(50, 2, other);
    assert ParsedStarts([Entry(None, "0050-03", "")], other) == [At(Moment(50 * 12 + 2, 0))];
  }
}
