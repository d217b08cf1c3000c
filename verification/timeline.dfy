/** The page's timeline state and the handlers that change it: boot's start-up
    sequence, computeRange, buildTimeline, updateByDate, centerEntryOnce and
    the order change. */
module Timeline {
  import opened Helpers
  import opened Entries
  import opened Ordering
  import opened Ranges
  import opened Reveal

  /** The order the page starts in. */
  const ORDER_DEFAULT := "desc"

  /** The globals of script.js that the timeline reads and writes.  The cards
      of #timelineZone are kept in DOM order; `centered` records, oldest first,
      the ids of the cards scrolled into view by centerEntryOnce. */
  class Page {
    const parseOther: DateParser
    const centerOnFirstReveal: bool
    var entries: seq<Entry>
    var order: string
    var minDate: Option<JsDate>
    var maxDate: Option<JsDate>
    var revealedOnce: set<string>
    var centerLock: bool
    var zone: seq<Card>
    var centered: seq<string>

    /** Every kept entry has a start, and the reveal state is coherent. */
    ghost predicate Valid()
      reads this
    {
      Dated(entries) && Coherent(State())
    }

    function State(): RevealState
      reads this
    {
      RevealState(revealedOnce, zone, centerLock, centered)
    }

    function Config(): Settings
      reads this
    {
      Settings(order, parseOther, centerOnFirstReveal)
    }

    /** The state boot has once the experience list is loaded: the entries
        with a truthy start, the default order, nothing revealed, no range. */
    constructor (loaded: seq<Entry>, parseOther: DateParser, centerOnFirstReveal: bool)
      ensures Valid()
      ensures this.parseOther == parseOther && this.centerOnFirstReveal == centerOnFirstReveal
      ensures entries == KeepDated(loaded) && order == ORDER_DEFAULT
      ensures minDate == None && maxDate == None
      ensures State() == RevealState({}, [], false, [])
    {
      this.parseOther := parseOther;
      this.centerOnFirstReveal := centerOnFirstReveal;
      entries := KeepDated(loaded);
      order := ORDER_DEFAULT;
      minDate, maxDate := None, None;
      revealedOnce := {};
      centerLock := false;
      zone := [];
      centered := [];
    }

    /** computeRange with the clock reading `today`. */
    method ComputeRange(today: Moment)
      modifies this`minDate, this`maxDate
      ensures minDate == Some(RangeOf(entries, today, parseOther).minDate)
      ensures maxDate == Some(RangeOf(entries, today, parseOther).maxDate)
    {
      var range := RangeOf(entries, today, parseOther);
      minDate := Some(range.minDate);
      maxDate := Some(range.maxDate);
    }

    /** buildTimeline: sort the entries in place, then build one card per
        entry, giving back the flag to every card whose id was revealed. */
    method BuildTimeline()
      requires Valid()
      modifies this`entries, this`zone
      ensures Valid()
      ensures entries == SortByOrder(old(entries), order, parseOther)
      ensures zone == CardsFor(entries, revealedOnce)
    {
      entries := SortByOrder(entries, order, parseOther);
      var built: seq<Card> := [];
      var i := 0;
      while i < |entries|
        invariant 0 <= i <= |entries|
        invariant |built| == i
        invariant forall k :: 0 <= k < i ==> built[k] == CardFor(entries[k], k, revealedOnce)
      {
        var e := entries[i];
        var id := match e.id case Some(given) => given case None => DecimalString(i);
        var card := Card(id, e.start, e.end, false);
        if id in revealedOnce {
          card := card.(revealed := true);
        }
        assert card == CardFor(e, i, revealedOnce);
        built := built + [card];
        i := i + 1;
      }
      assert built == CardsFor(entries, revealedOnce);
      RebuiltCoherent(State(), entries);
      zone := built;
    }

    /** centerEntryOnce for the card with the given id. */
    method CenterEntryOnce(id: string)
      modifies this`centerLock, this`centered
      ensures State() == CenterOnce(old(State()), id, centerOnFirstReveal)
    {
      if !centerOnFirstReveal {
        return;
      }
      if centerLock {
        return;
      }
      centerLock := true;
      centered := centered + [id];
    }

    /** The timer callback that frees the lock again. */
    method ReleaseCenterLock()
      requires Valid()
      modifies this`centerLock
      ensures Valid()
      ensures !centerLock
    {
      centerLock := false;
    }

    /** updateByDate for the date `now` the scroll position maps to: the
        revealed set gains exactly the ids of the qualifying cards, at most
        one card is scrolled into view, and the state stays coherent. */
    method UpdateByDate(now: JsDate)
      requires Valid()
      modifies this`revealedOnce, this`zone, this`centerLock, this`centered
      ensures Valid()
      ensures State() == Update(old(State()), now, Config())
      ensures revealedOnce == old(revealedOnce) + QualifyingIds(old(zone), |old(zone)|, now, Config())
      ensures centered == old(centered) + CenteredBy(old(State()), |old(zone)|, now, Config())
    {
      ghost var s0 := State();
      var i := 0;
      while i < |zone|
        invariant 0 <= i <= |zone| == |s0.cards|
        invariant State() == Walk(s0, i, now, Config())
      {
        var card := zone[i];
        var start := ParseDate(card.start, parseOther);
        if start.Some? {
          if ShouldReveal(order, now, start.value) && card.id !in revealedOnce {
            revealedOnce := revealedOnce + {card.id};
            zone := zone[i := card.(revealed := true)];
            CenterEntryOnce(card.id);
          } else if card.id in revealedOnce {
            zone := zone[i := card.(revealed := true)];
          } else {
            zone := zone[i := card.(revealed := false)];
          }
        }
        i := i + 1;
      }
      WalkCoherent(s0, |s0.cards|, now, Config());
      WalkRevealedOnce(s0, |s0.cards|, now, Config());
      WalkCentering(s0, |s0.cards|, now, Config());
    }

    /** What boot runs once the entries are loaded. */
    method Start(today: Moment, now: JsDate)
      requires Valid()
      modifies this`minDate, this`maxDate, this`entries, this`revealedOnce, this`zone, this`centerLock, this`centered
      ensures Valid()
      ensures minDate == Some(RangeOf(old(entries), today, parseOther).minDate)
      ensures maxDate == Some(RangeOf(old(entries), today, parseOther).maxDate)
      ensures entries == SortByOrder(old(entries), order, parseOther)
      ensures State() == Update(RevealState(old(revealedOnce), CardsFor(entries, old(revealedOnce)), old(centerLock), old(centered)), now, Config())
    {
      ComputeRange(today);
      BuildTimeline();
      UpdateByDate(now);
    }

    /** The handler of the order selector: switch order, rebuild, update. */
    method ChangeOrder(newOrder: string, now: JsDate)
      requires Valid()
      modifies this`order, this`entries, this`revealedOnce, this`zone, this`centerLock, this`centered
      ensures Valid()
      ensures order == newOrder
      ensures entries == SortByOrder(old(entries), newOrder, parseOther)
      ensures State() == Update(RevealState(old(revealedOnce), CardsFor(entries, old(revealedOnce)), old(centerLock), old(centered)), now, Config())
      ensures old(revealedOnce) <= revealedOnce
    {
      order := newOrder;
      BuildTimeline();
      UpdateByDate(now);
    }
  }

  /** Cards rebuilt from the revealed set keep the state coherent. */
  lemma RebuiltCoherent(s: RevealState, es: seq<Entry>)
    requires Coherent(s)
    ensures Coherent(s.(cards := CardsFor(es, s.revealedOnce)))
  {
  }

  /** Revealed ids survive a rebuild and the pass after it: every card whose
      id was in the set is flagged afterwards, and the set only grows. */
  lemma RebuildKeepsRevealed(es: seq<Entry>, s: RevealState, now: JsDate, cfg: Settings, k: nat)
    requires Dated(es) && s.cards == CardsFor(es, s.revealedOnce)
    requires k < |es| && CardId(es[k], k) in s.revealedOnce
    ensures |Update(s, now, cfg).cards| == |es|
    ensures Update(s, now, cfg).cards[k].revealed
    ensures s.revealedOnce <= Update(s, now, cfg).revealedOnce
  {
    assert s.cards[k] == CardFor(es[k], k, s.revealedOnce);
    UpdateMonotone(s, now, cfg);
  }

  /** On a timeline rebuilt from entries with valid starts, in the order the
      pass reads, a second pass at the same date changes nothing at all. */
  lemma RebuiltUpdateIdempotent(es: seq<Entry>, s: RevealState, now: JsDate, cfg: Settings)
    requires ValidStarts(es, cfg.parseOther)
    ensures Dated(es)
    ensures var sorted := SortByOrder(es, cfg.order, cfg.parseOther);
      var t := s.(cards := CardsFor(sorted, s.revealedOnce));
      Update(Update(t, now, cfg), now, cfg) == Update(t, now, cfg)
  {
    SortInOrder(es, cfg.order, cfg.parseOther);
    var sorted := SortByOrder(es, cfg.order, cfg.parseOther);
    ValidStartsOfPermutation(es, sorted, cfg.parseOther);
    OrderedCardsNoLateTwin(sorted, s.revealedOnce, now, cfg);
    UpdateTwiceIdempotent(s.(cards := CardsFor(sorted, s.revealedOnce)), now, cfg);
  }

  /** The starts of the two entries of the example below. */
  lemma ExampleStarts(other: DateParser)
    ensures ParseDate("2020-01", other) == Some(At(Moment(2020 * 12, 0)))
    ensures ParseDate("2022-03", other) == Some(At(Moment(2022 * 12 + 2, 0)))
  {
    ParseYearMonth(2020, 0, other);
    ParseYearMonth(2022, 2, other);
    assert YearMonthString(2020, 0) == "2020-01";
    assert YearMonthString(2022, 2) == "2022-03";
  }

  /** The two entries of the example below, sorted either way. */
  lemma SortTwoEntries(other: DateParser)
    ensures var a, b := Entry(None, "2020-01", ""), Entry(None, "2022-03", "");
      SortByOrder([a, b], "asc", other) == [a, b] && SortByOrder([a, b], "desc", other) == [b, a]
  {
    var a, b := Entry(None, "2020-01", ""), Entry(None, "2022-03", "");
    ExampleStarts(other);
    assert [a, b][1..] == [b];
    assert SortByOrder([b], "asc", other) == [b];
    assert SortByOrder([b], "desc", other) == [b];
    assert !MustFollow("asc", a, b, other);
    assert MustFollow("desc", a, b, other);
    assert Insert(a, [], "desc", other) == [a];
  }

  /** An entry without an id is known by its position: two such entries
      swap ids when the order flips, so the id revealed for the older entry
      flags the newer one after the rebuild. */
  lemma IdsFollowPositions(other: DateParser)
    ensures var es := [Entry(None, "2020-01", ""), Entry(None, "2022-03", "")];
      Dated(es) &&
      CardsFor(SortByOrder(es, "asc", other), {"0"}) ==
        [Card("0", "2020-01", "", true), Card("1", "2022-03", "", false)] &&
      CardsFor(SortByOrder(es, "desc", other), {"0"}) ==
        [Card("0", "2022-03", "", true), Card("1", "2020-01", "", false)]
  {
    SortTwoEntries(other);
    assert DecimalString(0) == "0" && DecimalString(1) == "1";
  }
}
