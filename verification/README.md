# Scroll-driven experience timeline: a Dafny model

The page `script.js` belongs to shows a personal experience timeline. Entries
(`id`, `start`, `end`) are sorted by start date and rendered as cards. The
scroll position is mapped to a date between `minDate` and `maxDate`. Each
scroll event reveals every card that date has reached. A card stays revealed
forever, because its id is kept in `revealedOnce`. Each pass scrolls the first
card it newly reveals to the centre, unless `centerLock` is still held from an
earlier centring (a timer frees it 120 ms later).

This project models that bookkeeping and proves its properties:

- `helpers.dfy` (module `Helpers`)
  - Dates: a JavaScript Date is `Invalid` or an instant `Moment(month, millis)`, where `month` is `year * 12 + getMonth()`.
  - The calendar arithmetic of `new Date(y, m, 1)`, including its reading of years 0 to 99 as 1900 to 1999.
  - `parseDate` with its 7-character rule. Every other string goes to the Date constructor, which is a parameter (`DateParser`).
  - `clamp`, over numbers that may be NaN.
- `entries.dfy` (module `Entries`)
  - Entries and cards.
  - Boot's filter that keeps the entries with a start.
  - The id a card gets: `e.id ?? String(i)`.
- `ordering.dfy` (module `Ordering`)
  - `byOrder`, including its NaN result for Invalid Dates.
  - The stable sort buildTimeline runs with it.
- `ranges.dfy` (module `Ranges`): `computeRange`.
- `reveal.dfy` (module `Reveal`)
  - The reveal pass of `updateByDate`, written as a fold of one step per card over the state it changes.
  - `centerEntryOnce`.
- `timeline.dfy` (module `Timeline`)
  - The page's globals as a class `Page`.
  - The imperative handlers, each proved against the functions above: computeRange, buildTimeline (sort in place, then a loop building the cards), updateByDate (a loop over the cards), centerEntryOnce, the lock release, boot's start-up sequence and the order change.

Where the code behaves differently from what its comments suggest, the model
follows the code:

- **Invalid starts are not skipped.** An Invalid Date is an object and so is truthy. updateByDate therefore skips only cards whose start is empty (`!start`, line 121). A card whose start does not parse is still visited: it never qualifies, because every comparison with NaN is false, but it is flagged if its id is already in `revealedOnce`. Boot drops entries without a start (line 197), so in the running page no card is skipped at all.
- **Only "YYYY-MM" gets the month rule.** A "YYYY-MM-DD" start is not completed to a month. It goes to the Date constructor as it is, and that constructor reads it as UTC.
- **The fallback window can be inverted.** `new Date(y, 0, 1)` reads `y` in 0..99 as 1900 + y. So when the clock is in years 99 to 104, the fallback window ends before it starts.
- **One Invalid Date spoils the whole range.** `Math.min` and `Math.max` return NaN, and so minDate or maxDate is an Invalid Date.
- **A second pass can change a flag.** Cards may share an id, and `revealedOnce` is keyed by id. If a card qualifies while an earlier card with the same id does not, the earlier card is passed before the id enters the set. It is flagged only on the next pass (`Reveal.LateTwinFlagLags`). With distinct ids, or with cards in display order with valid starts, a second pass changes nothing.
- **Ids follow positions.** An entry without an id is known by its index after sorting. After an order change, a revealed index therefore flags a different entry (`Timeline.IdsFollowPositions`).

## Model

| member | source | states |
|---|---|---|
| Helpers.Clamp | script.js:23 | the result is NaN exactly when one argument is NaN; otherwise, when a <= b it lies in [a, b], it is v when v is in range, a below the range, b above it, and a when b < a |
| Helpers.ParseDate | script.js:21 | the result is null exactly when the input is the empty string |
| Helpers.ParseYearMonth | script.js:21 | a "YYYY-MM" string parses, without the foreign parser, to local midnight on day 1 of exactly that month |
| Helpers.NewDate | script.js:61-62 | new Date(year, monthIndex, 1) is midnight on day 1; month overflow carries into the year; years 0..99 are read as 1900..1999 |
| Helpers.ShiftMonths | script.js:68-69 | rebuilding a date from its year and month shifted by k gives day 1 of the month k months away, unless the year is 0..99 |
| Entries.KeepDated | script.js:197 | every kept entry has a non-empty start, and a list whose entries all have one is kept whole |
| Entries.KeepDatedAppend | script.js:197 | the filter of a concatenation is the concatenation of the filters, so order and multiplicity are kept |
| Entries.KeepDatedSingle | script.js:197 | a single entry survives exactly when its start is non-empty |
| Entries.KeepDatedMembers | script.js:197 | an entry is kept iff it is loaded and its start is non-empty |
| Entries.DecimalString | script.js:39 | String(i) of a natural is a non-empty string of decimal digits with no leading zero; 0 is spelled "0" |
| Entries.DecimalRoundTrip | script.js:39 | String(i) is a decimal spelling that reads back as i |
| Entries.CardId | script.js:39 | an entry's own id is kept; without one, the id is a digit string without leading zero ("0" for index 0) that reads back as the index |
| Entries.CardFor | script.js:38-49 | the card carries the entry's id rule and dates, and is flagged exactly when its id is in the revealed set |
| Entries.CardsFor | script.js:36-50 | one card per entry in entry order, each with id `e.id ?? String(i)` of its entry and index, its entry's dates, and flagged exactly when its id is in the set |
| Entries.AnonymousEntriesGetDistinctIds | script.js:39 | when no entry has an id, the cards' index ids are pairwise distinct |
| Ordering.Difference | script.js:28-29 | the difference of two dates is NaN iff one is invalid; zero iff they are the same instant; negative iff the first is earlier |
| Ordering.ByOrder | script.js:26-30 | byOrder is NaN iff a start is invalid, zero iff the starts are the same instant, positive iff the first is later oldest first or earlier newest first |
| Ordering.ByOrderAntisymmetric | script.js:26-30 | swapping the arguments of byOrder flips its sign; NaN stays NaN |
| Ordering.ByOrderReversed | script.js:26-30 | any order other than "asc" compares like "asc" with the arguments swapped |
| Ordering.SortByOrder | script.js:36 | the sorted entries are a permutation of the entries |
| Ordering.SortInOrder | script.js:36 | with valid starts, no sorted entry is followed by one the comparator says it should come after |
| Ordering.SortStable | script.js:36 | entries starting at the same instant keep their relative order |
| Ranges.ParsedStarts | script.js:57 | a date is a parsed start iff some entry's start parses to it; none iff every start is empty |
| Ranges.EndDate | script.js:58 | an empty end counts as today; any other end is its parsed date, Invalid Dates included |
| Ranges.Earliest | script.js:65 | Math.min is NaN iff some date is invalid; otherwise it is one of the dates and none is earlier |
| Ranges.Latest | script.js:66 | Math.max is NaN iff some date is invalid; otherwise it is one of the dates and none is later |
| Ranges.PadMonths | script.js:68-69 | rebuilding a date k months away keeps an Invalid Date invalid, lands on day 1, and is exactly k months away for years outside 0..99 |
| Ranges.RangeOf | script.js:55-70 | minDate is invalid iff some parsed start is; maxDate is invalid iff some start parses and some end is invalid; valid bounds are on day 1 |
| Ranges.FallbackWindow | script.js:59-63 | with no parsed start, the range is January 1 of (year - 5) to January 1 of (year + 1), as the Date constructor reads those years |
| Ranges.FallbackOrdered | script.js:59-63 | that window has minDate < maxDate, except when the clock year is 99 to 104 |
| Ranges.FallbackInvertedInYear100 | script.js:60-62 | in year 100 the window runs from 1995-01-01 back to 0101-01-01 |
| Ranges.PaddedMinDate | script.js:57-68 | minDate is day 1 of the month six months before the earliest start: every start is at least six months later and one start is exactly that |
| Ranges.LatestEnd | script.js:58-66 | with valid ends the latest end is some entry's end, an open end counting as today, and no end is later |
| Ranges.PaddedMaxDate | script.js:58-69 | maxDate is day 1 of the month six months after the latest end, an open end counting as today |
| Ranges.InvalidStartPoisonsMin | script.js:57-65 | one start that is an Invalid Date makes minDate invalid |
| Ranges.InvalidEndPoisonsMax | script.js:58-66 | once some start exists, one end that is an Invalid Date makes maxDate invalid |
| Ranges.TwoDigitYearStart | script.js:68 | a start in March of year 50 gives a minDate in September 1949 |
| Reveal.ShouldReveal | script.js:124 | for valid dates a card is due iff byOrder does not place its start after now; with an Invalid Date it is never due |
| Reveal.Qualifies | script.js:120-124 | a qualifying card has a non-empty start that is a valid date, and now is valid |
| Reveal.CenterOnce | script.js:103-111 | changes neither the set nor the cards; holds the lock afterwards when centering is on; changes nothing when off or locked; when on and unlocked, logs exactly the given id |
| Reveal.Step | script.js:119-136 | one card's treatment keeps the number of cards; its effect is given by StepRevealedOnce, StepCards and StepCentering |
| Reveal.Walk | script.js:118-137 | the pass over the first n cards keeps the number of cards; its effect is given by WalkFrame, WalkRevealedOnce, WalkFlags and WalkCentering |
| Reveal.Update | script.js:114-137 | one whole pass keeps the number of cards and sets the revealed set to the old set plus the ids of the qualifying cards |
| Reveal.StepRevealedOnce | script.js:124-127 | one card's treatment adds its id to the set exactly when its start parses and the order-aware condition holds |
| Reveal.StepCards | script.js:126-136 | one card's treatment leaves a skipped card alone, flags any other card exactly when its id is in the new set, and touches no other card |
| Reveal.StepCentering | script.js:103-106 | centering happens exactly when the id is new, centering is on and the lock is free; the lock is taken exactly then |
| Reveal.WalkFrame | script.js:118-137 | the pass changes only the revealed flags, and only of the cards it has reached |
| Reveal.WalkRevealedOnce | script.js:118-129 | after n cards the set is the old set plus the ids of the qualifying cards among them |
| Reveal.WalkFlags | script.js:118-137 | a treated card is flagged exactly when its id was in the set once the card had been treated; a skipped card is untouched |
| Reveal.WalkCentering | script.js:103-129 | the pass scrolls at most one card into view: the first one it newly reveals, if centering is on and the lock was free; it takes the lock exactly then |
| Reveal.FirstNewId | script.js:126-129 | there is no first new qualifying id iff every qualifying id was already revealed; one that exists is new and qualifies |
| Reveal.FirstNewIdIsFirst | script.js:118-129 | the id found is carried by a qualifying card with no new qualifying card before it; when none is found, no card before n is new and qualifying |
| Reveal.QualifyingIdsMembers | script.js:124-127 | an id qualifies iff some card carrying it qualifies |
| Reveal.WalkCoherent | script.js:103-137 | the pass keeps the state coherent: no id centered twice, and every centered id and every flagged card's id is in the set |
| Reveal.UpdateMonotone | script.js:126-132 | the set only grows, by the qualifying ids; every card whose id was in the set stays flagged |
| Reveal.UpdateHidesOnlyUnrevealed | script.js:130-135 | a card loses its flag only if its id was not in the set and the card does not qualify |
| Reveal.UpdateSkips | script.js:120-121 | a card with an empty start is left as it is and adds nothing to the set |
| Reveal.UpdateTwiceAddsNothing | script.js:114-137 | a second pass at the same date reveals nothing, centers nothing and leaves the lock as it is |
| Reveal.UpdateTwiceKeepsCard | script.js:118-136 | without a late twin, the second pass leaves each card as the first pass left it |
| Reveal.UpdateTwiceIdempotent | script.js:114-137 | without a late twin, a second pass at the same date leaves the whole state unchanged |
| Reveal.DistinctIdsNoLateTwin | script.js:39 | cards with distinct ids have no late twin |
| Reveal.RevealFollowsOrder | script.js:124 | a date that reveals a card also reveals every valid-dated card the comparator places before it |
| Reveal.OrderedCardsNoLateTwin | script.js:36-39 | cards built from entries in display order with valid starts have no late twin, whatever their ids |
| Reveal.LateTwinFlagLags | script.js:118-136 | two cards share id "x" and the first has an invalid start: after one pass "x" is revealed but the first card is hidden; the second pass flags it |
| Timeline.Page.constructor | script.js:11-16 | the loaded state: the entries with a start, order "desc", nothing revealed, lock free, no range |
| Timeline.Page.ComputeRange | script.js:55-70 | minDate and maxDate are set to the range of the entries for the clock reading |
| Timeline.Page.BuildTimeline | script.js:33-52 | the entries are sorted in place and the cards are one per entry in that order, with id `e.id ?? String(i)`, flagged exactly when their id is in the set |
| Timeline.Page.CenterEntryOnce | script.js:103-111 | nothing when centering is off or the lock is held; otherwise the lock is taken and the card is centered |
| Timeline.Page.ReleaseCenterLock | script.js:110 | the timer callback frees the lock |
| Timeline.Page.UpdateByDate | script.js:114-137 | the loop's new state is one whole pass; the set gains exactly the qualifying ids; at most the first new one is centered; coherence is kept |
| Timeline.Page.Start | script.js:200-203 | boot's sequence: range of the loaded entries, sorted rebuild, one pass |
| Timeline.Page.ChangeOrder | script.js:209-213 | the order change: new order, rebuild keeping revealed ids flagged, one pass; the set only grows |
| Timeline.RebuiltCoherent | script.js:49 | rebuilding the cards from the revealed set keeps every flagged id in that set |
| Timeline.RebuildKeepsRevealed | script.js:49 | after a rebuild and a pass, every card whose id was revealed before is flagged |
| Timeline.RebuiltUpdateIdempotent | script.js:36 | on a timeline rebuilt from entries with valid starts, a second pass at the same date changes nothing |
| Timeline.IdsFollowPositions | script.js:36-39 | two entries without ids swap their index ids when the order flips, so revealed id "0" flags the other entry |

## Left out

- Boot's fetching and JSON decoding, its error card and its event wiring (script.js:181-230). They are I/O. The constructor starts from the decoded list; `Start` and `ChangeOrder` are the sequences the listeners run.
- `currentDateFromScroll`, `slowProgress` and `updateRailUI` (script.js:24, 72-99). They compute in floating point from page geometry. The date `now` they produce is a parameter of the pass, so it may also be an Invalid Date, as a zero-height wrapper would give.
- The HTML templates, `fmt`, `renderSkills`, `setTab` and `setHeaderHeightVar` (script.js:22, 42-47, 141-178). They are presentation only.
- The Date constructor on strings other than well-formed "YYYY-MM". This covers time zones, other formats and the 7-character strings that are not a month. It is the `DateParser` parameter, since its result is time-zone dependent or implementation-defined.
- Helpers.ParseDate: the 7-character test counts Unicode scalar values, while `s.length === 7` counts UTF-16 code units; the two differ only for strings with characters outside the Basic Multilingual Plane, which no well-formed "YYYY-MM" contains.
- Helpers.NewDate: a Date holds a time value only within 8.64e15 ms (about 275760 years) of 1970 and is an Invalid Date beyond it; the model has no such bound, so `NewDate` and `Ranges.PadMonths` always give a valid date and `Ranges.PaddedMaxDate` proves `maxDate` valid even for years where the browser would produce an Invalid Date.
- The clock. computeRange reads it twice, but each branch uses only one reading, so it is the single parameter `today`.
- Moments past day 1 of a month. A `Moment` does not bound its milliseconds by the month's length. Time zones and daylight-saving shifts are left out too.
- The 120 ms timer before the lock is released (script.js:110). The release is the separate method `ReleaseCenterLock`.
- The element `scrollIntoView` scrolls to. It is recorded as an id appended to `centered`. Cards are values in a sequence, not shared DOM nodes.
- `CENTER_ON_FIRST_REVEAL` (script.js:8) is `true` in the source. Here it is a constructor parameter, so both settings are covered.
- Sort order is modelled as a stable insertion sort. For a consistent comparator this is the only stable outcome. When Invalid Dates make the comparator inconsistent (NaN compares as equal), the engine's result depends on its algorithm, and the model fixes one.
- Helpers.Clamp: numbers are NaN or a real, so Infinity, -Infinity and the sign of zero are not distinguished. In the source Math.max and Math.min order them as the extended reals do.
- Reveal.UpdateSkips: only an empty start is skipped, not an unparsable one, because the source tests `!start` and an Invalid Date is truthy.
- Reveal.UpdateTwiceIdempotent: requires that no card has a late twin. Without that, the flags of a second pass can differ (Reveal.LateTwinFlagLags). Reveal.UpdateTwiceAddsNothing covers the set, the lock and the centering without that condition.
- Ranges.FallbackOrdered: excludes clock years 99 to 104, because there the window really is inverted (Ranges.FallbackInvertedInYear100).
- Ranges.PaddedMinDate: assumes every start is a valid date with a year of at least 100. An invalid start gives NaN (Ranges.InvalidStartPoisonsMin), and the Date constructor reads a year 0..99 as a 1900s year (Ranges.TwoDigitYearStart).
- Ranges.PaddedMaxDate: assumes every end, or today, is a valid date with a year of at least 100, for the same reasons (Ranges.InvalidEndPoisonsMax).
- Ordering.SortInOrder: assumes valid starts, because with an Invalid Date the comparator gives NaN and no order is promised.
