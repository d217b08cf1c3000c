/** Experience entries and the timeline cards built from them.

    Only the fields the timeline logic reads are kept: the optional id and the
    start and end strings.  An absent or null end is the empty string, which is
    how the card's data attributes carry it. */
module Entries {
  import opened Helpers

  datatype Entry = Entry(id: Option<string>, start: string, end: string)

  /** An `.entry` article of #timelineZone: its data-id, data-start and
      data-end attributes and whether it carries the `revealed` class. */
  datatype Card = Card(id: string, start: string, end: string, revealed: bool)

  /** What boot keeps of the loaded list: the entries with a truthy start. */
  function KeepDated(loaded: seq<Entry>): (es: seq<Entry>)
    ensures Dated(es)
    ensures Dated(loaded) ==> es == loaded
  {
    if loaded == [] then []
    else
      assert loaded == [loaded[0]] + loaded[1..];
      (if loaded[0].start != "" then [loaded[0]] else []) + KeepDated(loaded[1..])
  }

  /** The filter works entry by entry and keeps order and multiplicity. */
  lemma {:induction false} KeepDatedAppend(x: seq<Entry>, y: seq<Entry>)
    ensures KeepDated(x + y) == KeepDated(x) + KeepDated(y)
  {
    if x != [] {
      var head := if x[0].start != "" then [x[0]] else [];
      assert x == [x[0]] + x[1..];
      assert x + y == [x[0]] + (x[1..] + y);
      KeepDatedCons(x[0], x[1..]);
      KeepDatedCons(x[0], x[1..] + y);
      KeepDatedAppend(x[1..], y);
      assert head + (KeepDated(x[1..]) + KeepDated(y)) == (head + KeepDated(x[1..])) + KeepDated(y);
    } else {
      assert x + y == y;
    }
  }

  /** One step of the filter. */
  lemma KeepDatedCons(e: Entry, rest: seq<Entry>)
    ensures KeepDated([e] + rest) == (if e.start != "" then [e] else []) + KeepDated(rest)
  {
    assert ([e] + rest)[0] == e && ([e] + rest)[1..] == rest;
  }

  /** The kept entries are exactly the loaded ones with a non-empty start. */
  lemma {:induction false} KeepDatedMembers(loaded: seq<Entry>)
    ensures forall e :: e in KeepDated(loaded) <==> e in loaded && e.start != ""
  {
    if loaded != [] {
      KeepDatedMembers(loaded[1..]);
      assert loaded == [loaded[0]] + loaded[1..];
    }
  }

  /** A single entry survives the filter exactly when its start is non-empty. */
  lemma KeepDatedSingle(e: Entry)
    ensures KeepDated([e]) == if e.start != "" then [e] else []
  {
    assert [e][1..] == [];
  }

  predicate Dated(es: seq<Entry>) {
    forall i :: 0 <= i < |es| ==> es[i].start != ""
  }

  predicate HasValidStart(e: Entry, other: DateParser) {
    ParseDate(e.start, other).Some? && ParseDate(e.start, other).value.At?
  }

  /** The instant an entry with a valid start starts at. */
  function StartMoment(e: Entry, other: DateParser): Moment
    requires HasValidStart(e, other)
  {
    ParseDate(e.start, other).value.moment
  }

  /** String(n) for a natural number. */
  function DecimalString(n: nat): (s: string)
    ensures |s| > 0
    ensures forall i :: 0 <= i < |s| ==> IsDigit(s[i])
    ensures s[0] == '0' ==> n == 0 && s == "0"
  {
    if n < 10 then [Digit(n)] else DecimalString(n / 10) + [Digit(n % 10)]
  }

  /** The number a string of decimal digits denotes. */
  function DecimalValue(s: string): int {
    if s == [] then 0 else DecimalValue(s[..|s| - 1]) * 10 + DigitValue(s[|s| - 1])
  }

  lemma {:induction false} DecimalRoundTrip(n: nat)
    ensures DecimalValue(DecimalString(n)) == n
  {
    if n >= 10 {
      var s := DecimalString(n / 10) + [Digit(n % 10)];
      assert s[..|s| - 1] == DecimalString(n / 10);
      DecimalRoundTrip(n / 10);
    }
  }

  /** data-id of the card at index i: `e.id ?? String(i)`.  An entry's own
      id is kept; otherwise the id is the decimal spelling of the index. */
  function CardId(e: Entry, i: nat): (id: string)
    ensures e.id.Some? ==> id == e.id.value
    ensures e.id.None? ==> |id| > 0 && (forall k :: 0 <= k < |id| ==> IsDigit(id[k])) && DecimalValue(id) == i
    ensures e.id.None? ==> (id[0] == '0' ==> i == 0 && id == "0")
  {
    match e.id
    case Some(given) => given
    case None => DecimalRoundTrip(i); DecimalString(i)
  }

  /** The card built for entry e at index i: it carries the entry's dates
      and is flagged exactly when its id was revealed before. */
  function CardFor(e: Entry, i: nat, revealedOnce: set<string>): (c: Card)
    ensures c.id == CardId(e, i) && c.start == e.start && c.end == e.end
    ensures c.revealed <==> c.id in revealedOnce
  {
    var id := CardId(e, i);
    Card(id, e.start, e.end, id in revealedOnce)
  }

  /** The cards of the timeline, one per entry and in entry order; a card is
      flagged only if its id is in the revealed set. */
  function CardsFor(es: seq<Entry>, revealedOnce: set<string>): (cs: seq<Card>)
    ensures |cs| == |es|
    ensures forall k :: 0 <= k < |cs| ==> cs[k].id == CardId(es[k], k)
    ensures forall k :: 0 <= k < |cs| ==> cs[k].start == es[k].start && cs[k].end == es[k].end
    ensures forall k :: 0 <= k < |cs| ==> (cs[k].revealed <==> cs[k].id in revealedOnce)
  {
    seq(|es|, i requires 0 <= i < |es| => CardFor(es[i], i, revealedOnce))
  }

  /** The cards' ids are pairwise distinct. */
  predicate DistinctIds(cs: seq<Card>) {
    forall i, j :: 0 <= i < j < |cs| ==> cs[i].id != cs[j].id
  }

  /** When no entry brings its own id, every card gets a different one. */
  lemma AnonymousEntriesGetDistinctIds(es: seq<Entry>, revealedOnce: set<string>)
    requires forall i :: 0 <= i < |es| ==> es[i].id.None?
    ensures DistinctIds(CardsFor(es, revealedOnce))
  {
    var cs := CardsFor(es, revealedOnce);
    forall i, j | 0 <= i < j < |cs|
      ensures cs[i].id != cs[j].id
    {
      assert cs[i].id == CardId(es[i], i) && cs[j].id == CardId(es[j], j);
    }
  }
}
