/** The display order of the timeline: the byOrder comparator and the sort
    that buildTimeline runs with it. */
module Ordering {
  import opened Helpers
  import opened Entries

  /** The order setting: "asc" is oldest first, any other value newest first. */
  predicate Ascending(order: string) {
    order == "asc"
  }

  /** The sign of a number a comparator returns; NaN is its own case. */
  datatype Comparison = Negative | Zero | Positive | NotANumber {
    function Opposite(): Comparison {
      match this
      case Negative => Positive
      case Positive => Negative
      case _ => this
    }
  }

  /** The sign of `x - y` for two Date objects. */
  function Difference(x: JsDate, y: JsDate): (c: Comparison)
    ensures c == NotANumber <==> x.Invalid? || y.Invalid?
    ensures c == Zero <==> x.At? && y.At? && x.moment == y.moment
    ensures c == Negative <==> x.At? && y.At? && Before(x.moment, y.moment)
  {
    if x.Invalid? || y.Invalid? then NotANumber
    else if x.moment == y.moment then Zero
    else if NotAfter(x.moment, y.moment) then Negative
    else Positive
  }

  /** byOrder on the parsed start dates a and b of two entries: positive when
      a is to be shown after b, that is later than b oldest first and earlier
      than b newest first. */
  function ByOrder(order: string, a: JsDate, b: JsDate): (c: Comparison)
    ensures c == NotANumber <==> a.Invalid? || b.Invalid?
    ensures c == Zero <==> a.At? && b.At? && a.moment == b.moment
    ensures c == Positive <==>
      (a.At? && b.At? && if Ascending(order) then Before(b.moment, a.moment) else Before(a.moment, b.moment))
  {
    if Ascending(order) then Difference(a, b) else Difference(b, a)
  }

  /** Swapping the arguments of byOrder negates its sign, NaN staying NaN. */
  lemma ByOrderAntisymmetric(order: string, a: JsDate, b: JsDate)
    ensures ByOrder(order, a, b) == ByOrder(order, b, a).Opposite()
  {
  }

  /** The newest-first order is the oldest-first order read backwards. */
  lemma ByOrderReversed(order: string, a: JsDate, b: JsDate)
    requires !Ascending(order)
    ensures ByOrder(order, a, b) == ByOrder("asc", b, a)
  {
  }

  /** The sort key of an entry: its parsed start, which exists for every
      entry boot keeps. */
  function StartKey(e: Entry, other: DateParser): JsDate
    requires e.start != ""
  {
    ParseDate(e.start, other).value
  }

  /** The comparator asks for x to be placed after y. */
  predicate MustFollow(order: string, x: Entry, y: Entry, other: DateParser)
    requires x.start != "" && y.start != ""
  {
    ByOrder(order, StartKey(x, other), StartKey(y, other)) == Positive
  }

  /** Insertion of x in front of the later entries s: x moves past exactly the
      entries it must follow, so it stays ahead of those that compare equal. */
  function Insert(x: Entry, s: seq<Entry>, order: string, other: DateParser): (r: seq<Entry>)
    requires x.start != "" && Dated(s)
    ensures multiset(r) == multiset(s) + multiset{x}
    ensures Dated(r)
  {
    if s == [] then [x]
    else if MustFollow(order, x, s[0], other) then
      var rest := Insert(x, s[1..], order, other);
      assert s == [s[0]] + s[1..];
      assert forall i :: 0 < i <= |rest| ==> ([s[0]] + rest)[i] == rest[i - 1];
      [s[0]] + rest
    else
      assert forall i :: 0 < i <= |s| ==> ([x] + s)[i] == s[i - 1];
      [x] + s
  }

  /** `entries.sort(byOrder)`: a stable sort, so entries with equal starts
      keep their relative order. */
  function SortByOrder(es: seq<Entry>, order: string, other: DateParser): (r: seq<Entry>)
    requires Dated(es)
    ensures multiset(r) == multiset(es)
    ensures Dated(r)
  {
    if es == [] then []
    else
      assert es == [es[0]] + es[1..];
      Insert(es[0], SortByOrder(es[1..], order, other), order, other)
  }

  /** No entry comes after one that the comparator says should follow it. */
  predicate InOrder(es: seq<Entry>, order: string, other: DateParser)
    requires Dated(es)
  {
    forall i, j :: 0 <= i < j < |es| ==> ByOrder(order, StartKey(es[i], other), StartKey(es[j], other)) != Positive
  }

  predicate ValidStarts(es: seq<Entry>, other: DateParser) {
    forall i :: 0 <= i < |es| ==> HasValidStart(es[i], other)
  }

  lemma ValidStartsDated(es: seq<Entry>, other: DateParser)
    requires ValidStarts(es, other)
    ensures Dated(es)
  {
    forall i | 0 <= i < |es|
      ensures es[i].start != ""
    {
      assert HasValidStart(es[i], other);
    }
  }

  lemma ValidStartsOfPermutation(a: seq<Entry>, b: seq<Entry>, other: DateParser)
    requires multiset(a) == multiset(b) && ValidStarts(a, other)
    ensures ValidStarts(b, other)
  {
    forall j | 0 <= j < |b|
      ensures HasValidStart(b[j], other)
    {
      assert b[j] in multiset(a);
      var i :| 0 <= i < |a| && a[i] == b[j];
    }
  }

  lemma {:induction false} InsertInOrder(x: Entry, s: seq<Entry>, order: string, other: DateParser)
    requires HasValidStart(x, other) && ValidStarts(s, other)
    requires Dated(s) && InOrder(s, order, other)
    ensures InOrder(Insert(x, s, order, other), order, other)
  {
    if s != [] && MustFollow(order, x, s[0], other) {
      var t := Insert(x, s[1..], order, other);
      assert ValidStarts(s[1..], other);
      InsertInOrder(x, s[1..], order, other);
      var r := [s[0]] + t;
      forall j | 0 < j < |r|
        ensures ByOrder(order, StartKey(s[0], other), StartKey(r[j], other)) != Positive
      {
        assert r[j] in multiset(t);
        if r[j] != x {
          assert r[j] in s[1..];
          var k :| 0 <= k < |s[1..]| && s[1..][k] == r[j];
          assert s[k + 1] == r[j];
        }
      }
    } else if s != [] {
      assert HasValidStart(s[0], other);
      var r := [x] + s;
      forall j | 0 < j < |r|
        ensures ByOrder(order, StartKey(x, other), StartKey(r[j], other)) != Positive
      {
        assert HasValidStart(s[j - 1], other);
        if j > 1 {
          assert ByOrder(order, StartKey(s[0], other), StartKey(s[j - 1], other)) != Positive;
        }
      }
    }
  }

  /** With every start a valid date, the sort puts the entries in the order
      the comparator asks for. */
  lemma {:induction false} SortInOrder(es: seq<Entry>, order: string, other: DateParser)
    requires ValidStarts(es, other)
    ensures Dated(es)
    ensures InOrder(SortByOrder(es, order, other), order, other)
  {
    ValidStartsDated(es, other);
    if es != [] {
      assert ValidStarts(es[1..], other);
      SortInOrder(es[1..], order, other);
      var rest := SortByOrder(es[1..], order, other);
      ValidStartsOfPermutation(es[1..], rest, other);
      assert HasValidStart(es[0], other);
      InsertInOrder(es[0], rest, order, other);
    }
  }

  /** The entries whose start parses to the instant k, in sequence order. */
  function StartingAt(es: seq<Entry>, k: Moment, other: DateParser): seq<Entry> {
    if es == [] then []
    else (if ParseDate(es[0].start, other) == Some(At(k)) then [es[0]] else []) + StartingAt(es[1..], k, other)
  }

  lemma {:induction false} InsertStable(x: Entry, s: seq<Entry>, k: Moment, order: string, other: DateParser)
    requires x.start != "" && Dated(s)
    ensures StartingAt(Insert(x, s, order, other), k, other) == StartingAt([x] + s, k, other)
  {
    assert ([x] + s)[1..] == s;
    if s != [] && MustFollow(order, x, s[0], other) {
      InsertStable(x, s[1..], k, order, other);
      assert ([s[0]] + Insert(x, s[1..], order, other))[1..] == Insert(x, s[1..], order, other);
      assert ([x] + s[1..])[1..] == s[1..];
    }
  }

  /** Stability: for every start instant, the entries starting then appear in
      the sorted list in the same relative order as before. */
  lemma {:induction false} SortStable(es: seq<Entry>, k: Moment, order: string, other: DateParser)
    requires Dated(es)
    ensures StartingAt(SortByOrder(es, order, other), k, other) == StartingAt(es, k, other)
  {
    if es != [] {
      SortStable(es[1..], k, order, other);
      var rest := SortByOrder(es[1..], order, other);
      InsertStable(es[0], rest, k, order, other);
      assert ([es[0]] + rest)[1..] == rest;
      assert es == [es[0]] + es[1..];
    }
  }
}
