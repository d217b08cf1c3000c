/** The reveal pass of updateByDate over the timeline cards, and the one-shot
    centering it triggers, as functions of the state they change. */
module Reveal {
  import opened Helpers
  import opened Entries
  import opened Ordering

  /** What the reveal pass reads besides the cards: the order setting, the
      foreign date parser and whether first-reveal centering is switched on. */
  datatype Settings = Settings(order: string, parseOther: DateParser, centerOnFirstReveal: bool)

  /** What the reveal pass changes: the set of ids revealed at least once,
      the cards in DOM order, the centering lock and the ids of the cards that
      were scrolled into view, oldest first. */
  datatype RevealState = RevealState(revealedOnce: set<string>, cards: seq<Card>, centerLock: bool, centered: seq<string>)

  /** The reveal condition: oldest first, a card qualifies once `now >= start`;
      newest first, once `now <= start`.  Comparisons with an Invalid Date
      (NaN) are false. */
  predicate ShouldReveal(order: string, now: JsDate, start: JsDate)
    ensures now.At? && start.At? ==> (ShouldReveal(order, now, start) <==> ByOrder(order, start, now) != Positive)
    ensures now.Invalid? || start.Invalid? ==> !ShouldReveal(order, now, start)
  {
    now.At? && start.At? &&
    if Ascending(order) then NotAfter(start.moment, now.moment) else NotAfter(now.moment, start.moment)
  }

  /** A card the pass does not skip: its start does not parse to null. */
  predicate Parsable(c: Card, cfg: Settings) {
    ParseDate(c.start, cfg.parseOther).Some?
  }

  /** The card is not skipped and the date has reached its start. */
  predicate Qualifies(c: Card, now: JsDate, cfg: Settings)
    ensures Qualifies(c, now, cfg) ==>
      c.start != "" && now.At? && ParseDate(c.start, cfg.parseOther).value.At?
  {
    match ParseDate(c.start, cfg.parseOther)
    case None => false
    case Some(start) => ShouldReveal(cfg.order, now, start)
  }

  /** centerEntryOnce: nothing when switched off or locked; otherwise take the
      lock and scroll the card into view. */
  function CenterOnce(s: RevealState, id: string, enabled: bool): (r: RevealState)
    ensures r.revealedOnce == s.revealedOnce && r.cards == s.cards
    ensures enabled ==> r.centerLock
    ensures !enabled || s.centerLock ==> r == s
    ensures r.centered == s.centered || r.centered == s.centered + [id]
    ensures enabled && !s.centerLock ==> r.centered == s.centered + [id]
  {
    if !enabled then s
    else if s.centerLock then s
    else s.(centerLock := true, centered := s.centered + [id])
  }

  /** The pass's treatment of the card at index i. */
  function Step(s: RevealState, i: nat, now: JsDate, cfg: Settings): (r: RevealState)
    requires i < |s.cards|
    ensures |r.cards| == |s.cards|
  {
    var card := s.cards[i];
    match ParseDate(card.start, cfg.parseOther)
    case None => s
    case Some(start) =>
      if ShouldReveal(cfg.order, now, start) && card.id !in s.revealedOnce then
        CenterOnce(s.(revealedOnce := s.revealedOnce + {card.id}, cards := s.cards[i := card.(revealed := true)]),
                   card.id, cfg.centerOnFirstReveal)
      else if card.id in s.revealedOnce then
        s.(cards := s.cards[i := card.(revealed := true)])
      else
        s.(cards := s.cards[i := card.(revealed := false)])
  }

  /** Step in terms of the card's verdict: the set gains the card's id when
      the card qualifies. */
  lemma StepRevealedOnce(s: RevealState, i: nat, now: JsDate, cfg: Settings)
    requires i < |s.cards|
    ensures Step(s, i, now, cfg).revealedOnce ==
      s.revealedOnce + (if Qualifies(s.cards[i], now, cfg) then {s.cards[i].id} else {})
  {
  }

  /** A card that is not skipped ends flagged exactly when its id is in the
      new set; no other card changes. */
  lemma StepCards(s: RevealState, i: nat, now: JsDate, cfg: Settings)
    requires i < |s.cards|
    ensures var c := s.cards[i];
      Step(s, i, now, cfg).cards ==
        if Parsable(c, cfg) then s.cards[i := c.(revealed := c.id in Step(s, i, now, cfg).revealedOnce)] else s.cards
  {
  }

  /** Centering happens when the card's id is new, centering is on and the
      lock is free. */
  lemma StepCentering(s: RevealState, i: nat, now: JsDate, cfg: Settings)
    requires i < |s.cards|
    ensures var c := s.cards[i];
      var centers := Qualifies(c, now, cfg) && c.id !in s.revealedOnce && cfg.centerOnFirstReveal && !s.centerLock;
      Step(s, i, now, cfg).centered == (if centers then s.centered + [c.id] else s.centered) &&
      Step(s, i, now, cfg).centerLock == (s.centerLock || centers)
  {
  }

  /** Two card lists that differ at most in their `revealed` flags. */
  predicate SameCards(a: seq<Card>, b: seq<Card>) {
    |a| == |b| &&
    forall k :: 0 <= k < |a| ==> a[k].id == b[k].id && a[k].start == b[k].start && a[k].end == b[k].end
  }

  /** The state after the pass has treated the first n cards; the cards it has
      not reached yet are untouched. */
  function Walk(s: RevealState, n: nat, now: JsDate, cfg: Settings): (r: RevealState)
    requires n <= |s.cards|
    ensures |r.cards| == |s.cards|
  {
    if n == 0 then s else Step(Walk(s, n - 1, now, cfg), n - 1, now, cfg)
  }

  /** The pass changes only the flags, and only of the cards it has reached. */
  lemma {:induction false} WalkFrame(s: RevealState, n: nat, now: JsDate, cfg: Settings)
    requires n <= |s.cards|
    ensures SameCards(Walk(s, n, now, cfg).cards, s.cards)
    ensures forall k :: n <= k < |s.cards| ==> Walk(s, n, now, cfg).cards[k] == s.cards[k]
  {
    if n > 0 {
      var w := Walk(s, n - 1, now, cfg);
      WalkFrame(s, n - 1, now, cfg);
      StepCards(w, n - 1, now, cfg);
      assert Walk(s, n, now, cfg) == Step(w, n - 1, now, cfg);
    }
  }

  /** One whole pass of updateByDate for the current date `now`. */
  function Update(s: RevealState, now: JsDate, cfg: Settings): (r: RevealState)
    ensures |r.cards| == |s.cards|
    ensures r.revealedOnce == s.revealedOnce + QualifyingIds(s.cards, |s.cards|, now, cfg)
  {
    WalkRevealedOnce(s, |s.cards|, now, cfg);
    Walk(s, |s.cards|, now, cfg)
  }

  /** The ids of the qualifying cards before index n. */
  function QualifyingIds(cs: seq<Card>, n: nat, now: JsDate, cfg: Settings): set<string>
    requires n <= |cs|
  {
    if n == 0 then {}
    else QualifyingIds(cs, n - 1, now, cfg) + (if Qualifies(cs[n - 1], now, cfg) then {cs[n - 1].id} else {})
  }

  /** An id is among the qualifying ids exactly when a qualifying card before
      index n carries it. */
  lemma {:induction false} QualifyingIdsMembers(cs: seq<Card>, n: nat, now: JsDate, cfg: Settings, id: string)
    requires n <= |cs|
    ensures id in QualifyingIds(cs, n, now, cfg) <==> exists k :: 0 <= k < n && Qualifies(cs[k], now, cfg) && cs[k].id == id
  {
    if n > 0 {
      QualifyingIdsMembers(cs, n - 1, now, cfg, id);
    }
  }

  /** Fewer cards qualify among a shorter prefix. */
  lemma {:induction false} QualifyingIdsGrow(cs: seq<Card>, m: nat, n: nat, now: JsDate, cfg: Settings)
    requires m <= n <= |cs|
    ensures QualifyingIds(cs, m, now, cfg) <= QualifyingIds(cs, n, now, cfg)
  {
    if m < n {
      QualifyingIdsGrow(cs, m, n - 1, now, cfg);
    }
  }

  /** The id of the first qualifying card before index n whose id is not in seen. */
  function FirstNewId(cs: seq<Card>, seen: set<string>, n: nat, now: JsDate, cfg: Settings): (r: Option<string>)
    requires n <= |cs|
    ensures r.None? <==> QualifyingIds(cs, n, now, cfg) <= seen
    ensures r.Some? ==> r.value !in seen && r.value in QualifyingIds(cs, n, now, cfg)
  {
    if n == 0 then None
    else match FirstNewId(cs, seen, n - 1, now, cfg)
      case Some(id) => Some(id)
      case None =>
        if Qualifies(cs[n - 1], now, cfg) && cs[n - 1].id !in seen then Some(cs[n - 1].id) else None
  }

  /** FirstNewId finds the first card in order that qualifies with an id
      not in seen; when it finds none, no card before n is such a card. */
  lemma {:induction false} FirstNewIdIsFirst(cs: seq<Card>, seen: set<string>, n: nat, now: JsDate, cfg: Settings)
    requires n <= |cs|
    ensures var r := FirstNewId(cs, seen, n, now, cfg);
      r.Some? ==> exists k :: (0 <= k < n && Qualifies(cs[k], now, cfg) && cs[k].id == r.value &&
        forall j :: 0 <= j < k ==> !(Qualifies(cs[j], now, cfg) && cs[j].id !in seen))
    ensures FirstNewId(cs, seen, n, now, cfg).None? ==>
      forall j :: 0 <= j < n ==> !(Qualifies(cs[j], now, cfg) && cs[j].id !in seen)
  {
    if n > 0 {
      FirstNewIdIsFirst(cs, seen, n - 1, now, cfg);
      var prev := FirstNewId(cs, seen, n - 1, now, cfg);
      if prev.None? && Qualifies(cs[n - 1], now, cfg) && cs[n - 1].id !in seen {
        assert FirstNewId(cs, seen, n, now, cfg) == Some(cs[n - 1].id);
      }
    }
  }

  /** The ids a pass over the first n cards scrolls into view: the first new
      qualifying id, if centering is on and not locked at the start. */
  function CenteredBy(s: RevealState, n: nat, now: JsDate, cfg: Settings): seq<string>
    requires n <= |s.cards|
  {
    if cfg.centerOnFirstReveal && !s.centerLock then
      match FirstNewId(s.cards, s.revealedOnce, n, now, cfg)
      case Some(id) => [id]
      case None => []
    else []
  }

  lemma {:induction false} WalkRevealedOnce(s: RevealState, n: nat, now: JsDate, cfg: Settings)
    requires n <= |s.cards|
    ensures Walk(s, n, now, cfg).revealedOnce == s.revealedOnce + QualifyingIds(s.cards, n, now, cfg)
  {
    if n > 0 {
      var w := Walk(s, n - 1, now, cfg);
      WalkRevealedOnce(s, n - 1, now, cfg);
      WalkFrame(s, n - 1, now, cfg);
      StepRevealedOnce(w, n - 1, now, cfg);
      assert Walk(s, n, now, cfg) == Step(w, n - 1, now, cfg);
      assert w.cards[n - 1] == s.cards[n - 1];
    }
  }

  /** After the pass has treated card k, its flag says whether its id was in
      the set once the card had been treated; a skipped card is untouched. */
  lemma {:induction false} WalkFlags(s: RevealState, n: nat, k: nat, now: JsDate, cfg: Settings)
    requires k < n <= |s.cards|
    ensures Walk(s, n, now, cfg).cards[k] ==
      if Parsable(s.cards[k], cfg)
      then s.cards[k].(revealed := s.cards[k].id in s.revealedOnce + QualifyingIds(s.cards, k + 1, now, cfg))
      else s.cards[k]
  {
    var w := Walk(s, n - 1, now, cfg);
    WalkFrame(s, n - 1, now, cfg);
    StepRevealedOnce(w, n - 1, now, cfg);
    StepCards(w, n - 1, now, cfg);
    assert Walk(s, n, now, cfg) == Step(w, n - 1, now, cfg);
    if k < n - 1 {
      WalkFlags(s, n - 1, k, now, cfg);
    } else {
      WalkRevealedOnce(s, n - 1, now, cfg);
    }
  }

  /** The pass scrolls at most one card into view: the first one it newly
      reveals, provided centering is on and the lock was free; it takes the
      lock exactly when it scrolls. */
  lemma {:induction false} WalkCentering(s: RevealState, n: nat, now: JsDate, cfg: Settings)
    requires n <= |s.cards|
    ensures Walk(s, n, now, cfg).centered == s.centered + CenteredBy(s, n, now, cfg)
    ensures Walk(s, n, now, cfg).centerLock == (s.centerLock || CenteredBy(s, n, now, cfg) != [])
  {
    if n > 0 {
      var w := Walk(s, n - 1, now, cfg);
      WalkCentering(s, n - 1, now, cfg);
      WalkRevealedOnce(s, n - 1, now, cfg);
      WalkFrame(s, n - 1, now, cfg);
      StepCentering(w, n - 1, now, cfg);
      assert Walk(s, n, now, cfg) == Step(w, n - 1, now, cfg);
      var c := s.cards[n - 1];
      assert w.cards[n - 1] == c;
      var prev := FirstNewId(s.cards, s.revealedOnce, n - 1, now, cfg);
      var cur := FirstNewId(s.cards, s.revealedOnce, n, now, cfg);
      if prev.Some? {
        assert cur == prev;
        assert CenteredBy(s, n, now, cfg) == CenteredBy(s, n - 1, now, cfg);
      } else {
        assert w.revealedOnce == s.revealedOnce;
        assert w.centered == s.centered && w.centerLock == s.centerLock;
        assert cur == if Qualifies(c, now, cfg) && c.id !in s.revealedOnce then Some(c.id) else None;
      }
    }
  }

  predicate NoDuplicates(xs: seq<string>) {
    forall i, j :: 0 <= i < j < |xs| ==> xs[i] != xs[j]
  }

  /** What holds between passes: no card was centered twice, every centered
      id and every flagged card's id is in the revealed set. */
  predicate Coherent(s: RevealState) {
    NoDuplicates(s.centered) &&
    (forall i :: 0 <= i < |s.centered| ==> s.centered[i] in s.revealedOnce) &&
    (forall k :: 0 <= k < |s.cards| && s.cards[k].revealed ==> s.cards[k].id in s.revealedOnce)
  }

  lemma StepCoherent(s: RevealState, i: nat, now: JsDate, cfg: Settings)
    requires i < |s.cards| && Coherent(s)
    ensures Coherent(Step(s, i, now, cfg))
    ensures s.revealedOnce <= Step(s, i, now, cfg).revealedOnce
  {
    StepRevealedOnce(s, i, now, cfg);
    StepCards(s, i, now, cfg);
    StepCentering(s, i, now, cfg);
    var card := s.cards[i];
    if Qualifies(card, now, cfg) && card.id !in s.revealedOnce {
      assert card.id !in s.centered;
    }
  }

  lemma {:induction false} WalkCoherent(s: RevealState, n: nat, now: JsDate, cfg: Settings)
    requires n <= |s.cards| && Coherent(s)
    ensures Coherent(Walk(s, n, now, cfg))
  {
    if n > 0 {
      var w := Walk(s, n - 1, now, cfg);
      WalkCoherent(s, n - 1, now, cfg);
      StepCoherent(w, n - 1, now, cfg);
      assert Walk(s, n, now, cfg) == Step(w, n - 1, now, cfg);
    }
  }

  /** A pass reveals permanently: the set only grows, by the ids of the
      qualifying cards, and every card whose id was already in the set is
      flagged afterwards unless its start is empty. */
  lemma UpdateMonotone(s: RevealState, now: JsDate, cfg: Settings)
    ensures Update(s, now, cfg).revealedOnce == s.revealedOnce + QualifyingIds(s.cards, |s.cards|, now, cfg)
    ensures forall k :: 0 <= k < |s.cards| && Parsable(s.cards[k], cfg) && s.cards[k].id in s.revealedOnce ==>
      Update(s, now, cfg).cards[k].revealed
  {
    WalkRevealedOnce(s, |s.cards|, now, cfg);
    forall k | 0 <= k < |s.cards| && Parsable(s.cards[k], cfg) && s.cards[k].id in s.revealedOnce
      ensures Update(s, now, cfg).cards[k].revealed
    {
      WalkFlags(s, |s.cards|, k, now, cfg);
    }
  }

  /** A card loses its flag only if its id was not revealed before the pass
      and the card does not qualify. */
  lemma UpdateHidesOnlyUnrevealed(s: RevealState, now: JsDate, cfg: Settings, k: nat)
    requires k < |s.cards| && s.cards[k].revealed && !Update(s, now, cfg).cards[k].revealed
    ensures s.cards[k].id !in s.revealedOnce && !Qualifies(s.cards[k], now, cfg)
  {
    WalkFlags(s, |s.cards|, k, now, cfg);
  }

  /** A card whose start is empty is skipped: left as it is, and it adds
      nothing to the revealed set. */
  lemma UpdateSkips(s: RevealState, now: JsDate, cfg: Settings, k: nat)
    requires k < |s.cards| && s.cards[k].start == ""
    ensures Update(s, now, cfg).cards[k] == s.cards[k]
    ensures !Qualifies(s.cards[k], now, cfg)
  {
    WalkFlags(s, |s.cards|, k, now, cfg);
  }

  lemma {:induction false} QualifyingIdsSameCards(a: seq<Card>, b: seq<Card>, n: nat, now: JsDate, cfg: Settings)
    requires SameCards(a, b) && n <= |a|
    ensures QualifyingIds(a, n, now, cfg) == QualifyingIds(b, n, now, cfg)
  {
    if n > 0 {
      QualifyingIdsSameCards(a, b, n - 1, now, cfg);
      assert a[n - 1].start == b[n - 1].start;
    }
  }

  /** A second pass at the same date reveals nothing, centers nothing and
      leaves the lock as it is. */
  lemma UpdateTwiceAddsNothing(s: RevealState, now: JsDate, cfg: Settings)
    ensures var s1 := Update(s, now, cfg); var s2 := Update(s1, now, cfg);
      s2.revealedOnce == s1.revealedOnce && s2.centerLock == s1.centerLock && s2.centered == s1.centered
  {
    var n := |s.cards|;
    var s1 := Update(s, now, cfg);
    WalkFrame(s, n, now, cfg);
    WalkRevealedOnce(s, n, now, cfg);
    WalkRevealedOnce(s1, n, now, cfg);
    QualifyingIdsSameCards(s1.cards, s.cards, n, now, cfg);
    WalkCentering(s1, n, now, cfg);
  }

  /** No card qualifies while an earlier card with the same id, which the
      pass does not skip, does not. */
  predicate NoLateTwin(cs: seq<Card>, now: JsDate, cfg: Settings) {
    forall k, j :: 0 <= k < j < |cs| && cs[k].id == cs[j].id && Parsable(cs[k], cfg) && Qualifies(cs[j], now, cfg) ==>
      Qualifies(cs[k], now, cfg)
  }

  /** Without a late twin, an id that qualifies anywhere and belongs to a
      parsable card k already qualifies at or before k. */
  lemma NoLateTwinQualifiesEarly(cs: seq<Card>, now: JsDate, cfg: Settings, k: nat)
    requires NoLateTwin(cs, now, cfg)
    requires k < |cs| && Parsable(cs[k], cfg)
    ensures cs[k].id in QualifyingIds(cs, |cs|, now, cfg) ==> cs[k].id in QualifyingIds(cs, k + 1, now, cfg)
  {
    var id := cs[k].id;
    QualifyingIdsMembers(cs, |cs|, now, cfg, id);
    QualifyingIdsMembers(cs, k + 1, now, cfg, id);
    if id in QualifyingIds(cs, |cs|, now, cfg) {
      var j :| 0 <= j < |cs| && Qualifies(cs[j], now, cfg) && cs[j].id == id;
      if j > k {
        assert Qualifies(cs[k], now, cfg);
      }
    }
  }

  /** Without a late twin, the second pass leaves card k as the first left it. */
  lemma UpdateTwiceKeepsCard(s: RevealState, now: JsDate, cfg: Settings, k: nat)
    requires NoLateTwin(s.cards, now, cfg)
    requires k < |s.cards|
    ensures |Update(s, now, cfg).cards| == |s.cards|
    ensures Update(Update(s, now, cfg), now, cfg).cards[k] == Update(s, now, cfg).cards[k]
  {
    var n := |s.cards|;
    var s1 := Update(s, now, cfg);
    var c := s.cards[k];
    WalkFrame(s, n, now, cfg);
    WalkRevealedOnce(s, n, now, cfg);
    WalkFlags(s, n, k, now, cfg);
    WalkFlags(s1, n, k, now, cfg);
    QualifyingIdsSameCards(s1.cards, s.cards, k + 1, now, cfg);
    QualifyingIdsGrow(s.cards, k + 1, n, now, cfg);
    assert s1.cards[k].start == c.start;
    if Parsable(c, cfg) {
      NoLateTwinQualifiesEarly(s.cards, now, cfg, k);
    }
  }

  /** Idempotence: without such a late twin, a second pass at the same date
      leaves the whole state as the first pass left it. */
  lemma UpdateTwiceIdempotent(s: RevealState, now: JsDate, cfg: Settings)
    requires NoLateTwin(s.cards, now, cfg)
    ensures Update(Update(s, now, cfg), now, cfg) == Update(s, now, cfg)
  {
    var n := |s.cards|;
    var s1 := Update(s, now, cfg);
    var s2 := Update(s1, now, cfg);
    UpdateTwiceAddsNothing(s, now, cfg);
    WalkFrame(s, n, now, cfg);
    WalkFrame(s1, n, now, cfg);
    forall k | 0 <= k < n
      ensures s2.cards[k] == s1.cards[k]
    {
      UpdateTwiceKeepsCard(s, now, cfg, k);
    }
    assert s2.cards == s1.cards;
  }

  /** Cards with pairwise distinct ids have no late twin. */
  lemma DistinctIdsNoLateTwin(cs: seq<Card>, now: JsDate, cfg: Settings)
    requires DistinctIds(cs)
    ensures NoLateTwin(cs, now, cfg)
  {
  }

  /** Reveal follows the display order: a date that reveals a card reveals
      every valid-dated card placed before it. */
  lemma RevealFollowsOrder(order: string, now: JsDate, a: JsDate, b: JsDate)
    requires a.At? && b.At? && ByOrder(order, a, b) != Positive
    requires ShouldReveal(order, now, b)
    ensures ShouldReveal(order, now, a)
  {
  }

  /** The cards of a timeline built from entries in display order with valid
      starts have no late twin, whatever their ids. */
  lemma OrderedCardsNoLateTwin(es: seq<Entry>, revealedOnce: set<string>, now: JsDate, cfg: Settings)
    requires ValidStarts(es, cfg.parseOther)
    requires Dated(es) && InOrder(es, cfg.order, cfg.parseOther)
    ensures NoLateTwin(CardsFor(es, revealedOnce), now, cfg)
  {
    var cs := CardsFor(es, revealedOnce);
    forall k, j | 0 <= k < j < |cs| && Qualifies(cs[j], now, cfg)
      ensures Qualifies(cs[k], now, cfg)
    {
      assert HasValidStart(es[k], cfg.parseOther) && HasValidStart(es[j], cfg.parseOther);
      RevealFollowsOrder(cfg.order, now, StartKey(es[k], cfg.parseOther), StartKey(es[j], cfg.parseOther));
    }
  }

  /** Example of a late twin: two cards share id "x", the first with an
      Invalid Date start.  The first pass leaves the first card hidden although
      "x" ends up revealed; the second pass flags it. */
  lemma LateTwinFlagLags()
    ensures var cfg := Settings("asc", _ => Invalid, true);
      var s := RevealState({}, [Card("x", "bogus", "", false), Card("x", "2020-01", "", false)], false, []);
      var now := At(Moment(2021 * 12, 0));
      var s1 := Update(s, now, cfg);
      "x" in s1.revealedOnce && !s1.cards[0].revealed && Update(s1, now, cfg).cards[0].revealed
  {
    var cfg := Settings("asc", _ => Invalid, true);
    var s := RevealState({}, [Card("x", "bogus", "", false), Card("x", "2020-01", "", false)], false, []);
    var now := At(Moment(2021 * 12, 0));
    ParseYearMonth(2020, 0, cfg.parseOther);
    assert YearMonthString(2020, 0) == "2020-01";
    assert Qualifies(s.cards[1], now, cfg) && !Qualifies(s.cards[0], now, cfg);
    var s1 := Update(s, now, cfg);
    WalkRevealedOnce(s, 2, now, cfg);
    WalkFlags(s, 2, 0, now, cfg);
    assert QualifyingIds(s.cards, 1, now, cfg) == {};
    WalkFlags(s1, 2, 0, now, cfg);
  }
}
