# Fixed-header logo swap

A model of the scroll-synchronised logo swap of the fixed-header demo
(`06_example-css-fixed-header-effect/main.js`). A fixed header shows a white
and a black variant of one logo. Each variant is split into an outer and an
inner clip element. On every scroll event the page does two things. It picks
the section that governs the header: the last section, in document order,
whose bottom edge lies strictly between 0 and the header height. If no
section qualifies, the previous choice stays. Then it slides the four clip
elements vertically by a percentage derived from that section's bottom edge.
In both branches the two variants together cover the full logo height.

Everything lives in one module, `FixedHeader` (`fixed_header.dfy`):

- pure specification functions: `InHeader` (the header predicate),
  `LastInHeader`, `NextSection`, `Clamp`, `Percent`, `LogoOffsets` and `Step`
  (one whole scroll event on values);
- the class `HeaderEffect`, which holds the page's mutable state: the current
  section (an index into the sections) and the four offsets. Its methods
  follow the source's functions one by one, and each is proved against the
  pure functions.

Layout is input data. A section's `black` class is fixed at page load and
kept in `HeaderEffect.black`. Each scroll event passes the bottom edge of
every section, measured from the top of the viewport, as `bottoms`. The
header height is fixed at page load and must be positive. A transform
`translateY(x%)` is modelled as the signed real `x`. An unset transform, the
state before the first scroll, is modelled as 0.

The source reads `sections[0]` into `currentSection`. On a page without
sections that value is `undefined`, and the first scroll then fails in
`moveLogos` when it reads the class list. The model has no current section
(`None`) on such a page. `MoveLogos` and `HandleScroll` then return
`ok == false` and leave the offsets as they were.

## Model

| member | source | states |
|---|---|---|
| `FixedHeader.LastInHeader` | 06_example-css-fixed-header-effect/main.js:17-21 | the result is absent exactly when no section's bottom edge is in the header; otherwise it is a qualifying section and no later section qualifies |
| `FixedHeader.NextSection` | 06_example-css-fixed-header-effect/main.js:16-23 | sticky: with no qualifying section the current section is unchanged; last match wins: with one, the result is the last qualifying section; the result is either the old choice or a section that satisfies the header predicate |
| `FixedHeader.NextSectionExtend` | 06_example-css-fixed-header-effect/main.js:17-21 | scanning one more section overwrites the choice exactly when that section qualifies, and otherwise keeps it |
| `FixedHeader.NextSectionIdempotent` | 06_example-css-fixed-header-effect/main.js:16-23 | a second scan over the same layout chooses the same section |
| `FixedHeader.Clamp` | 06_example-css-fixed-header-effect/main.js:25 | for `min <= max` the result lies in `[min, max]`; it is `value` itself when `value` is already in range, `min` below the range and `max` above it |
| `FixedHeader.Percent` | 06_example-css-fixed-header-effect/main.js:54 | for a positive header height the percentage lies in `[1, 100]` for every bottom edge, never 0; it equals `bottom / headerHeight * 100` between the two thresholds, is 1 at or below one percent of the header, and is 100 once the bottom edge reaches the header height |
| `FixedHeader.PercentRatio` | 06_example-css-fixed-header-effect/main.js:54 | the unclamped ratio times the header height gives back `bottom * 100`, and it reaches 1 and 100 exactly at one percent of the header height and at the full header height |
| `FixedHeader.LogoOffsets` | 06_example-css-fixed-header-effect/main.js:27-49 | in both branches each inner offset is the negation of its outer offset; over a black section the white outer offset is `+percent`, over a light section the black outer offset is `+percent`; the two outer offsets are exactly 100 apart; for a percentage in `[0, 100]` their absolute values add up to 100 |
| `FixedHeader.Step` | 06_example-css-fixed-header-effect/main.js:51-61 | after a scroll event the current section is still one of the sections and is never lost once chosen; without one the offsets are untouched; with one, inner offsets negate outer ones, the absolute outer offsets add up to 100, and the sliding-in outer offset lies in `[1, 100]` |
| `FixedHeader.StepIdempotent` | 06_example-css-fixed-header-effect/main.js:58-61 | a second scroll event with the same bottom edges and header height leaves the current section and all four offsets unchanged |
| `FixedHeader.HeaderEffect.constructor` | 06_example-css-fixed-header-effect/main.js:1-4 | at page load the first section is current (none on an empty page) and no offset is set |
| `FixedHeader.HeaderEffect.FindCurrentSection` | 06_example-css-fixed-header-effect/main.js:16-23 | the loop over the sections in document order leaves as current section exactly `NextSection` of the old one, and keeps the current section an element of the sections |
| `FixedHeader.HeaderEffect.OffsetLogo` | 06_example-css-fixed-header-effect/main.js:27-49 | the four fields written in place equal `LogoOffsets(percent, isBlack)` |
| `FixedHeader.HeaderEffect.MoveLogos` | 06_example-css-fixed-header-effect/main.js:51-56 | with a current section the offsets become `LogoOffsets` of that section's percentage and tag; without one it reports failure and changes nothing |
| `FixedHeader.HeaderEffect.HandleScroll` | 06_example-css-fixed-header-effect/main.js:58-61 | the new current section and offsets are `Step` of the old ones, so every property of `Step` and `StepIdempotent` holds of the object; it reports failure exactly on a page without sections |
| `FixedHeader.HalfwayOverBlackSection` | 06_example-css-fixed-header-effect/main.js:37-42 | with header height 100 and a black section ending at 50 the percentage is 50, the white outer offset is +50 and the black outer offset is -50 |
| `FixedHeader.BottomAtTop` | 06_example-css-fixed-header-effect/main.js:54 | a bottom edge at 0 gives a percentage of 1, not 0 |
| `FixedHeader.LaterSectionWins` | 06_example-css-fixed-header-effect/main.js:17-21 | when two sections are inside the header in the same event, the later one in document order becomes current |

## Left out

- DOM access: the header, section and clip-element queries, `getBoundingClientRect`, `classList.contains` and the event listener (main.js:1-9, 11, 14, 63). Geometry and tags are inputs; `hasClass` and `getPosition` are the lookups `black[i]` and `bottoms[i]`.
- CSS strings: the `translateY(...%)` texts are modelled as signed reals. The textual `-${x}` becomes numeric negation; the source only uses it where `x >= 0`.
- Floating point: the division at main.js:54 is exact `real` arithmetic, and a header height of 0 (which the source never guards against, yielding `Infinity` or `NaN`) is excluded by a precondition.
- Event dispatch: the browser's ordering and coalescing of scroll events is not modelled; one event is one call of `HandleScroll`.
- Layout changes between the two reads of the current section's bottom edge (main.js:18 and 54) within one event: both reads see the same `bottoms`.
- The card-spotlight demo (`04_example-css-card-spotlight/main.js`): it only subtracts a card's left and top edges from the cursor position and writes the results as CSS variables, with no state to model.
