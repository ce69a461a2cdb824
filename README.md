# Business-card interaction model

A Dafny model of the interaction script of an animated business-card page
(`js/app.js`). Every card wrapper (`.c-w`) on the page gets three handlers:

- **click** opens the card (an "active" wrapper shows its split, readable
  state). Before that it closes every other card. Clicking the open card
  closes it again. Clicks inside a `.btn-h` link are ignored.
- **mousemove** publishes where the pointer is as fractions `--mx`/`--my`
  of the card's box, plus the foil-sweep `--angle`. These go to the wrapper
  and to both faces. An open card also gets a damped tilt `--h-rx`/`--h-ry`.
  A closed card instead tilts its whole container and drops the
  container's `reset` class.
- **mouseleave** does nothing to an open card. A closed card gets its
  container marked `reset`, and its three elements are centred at (0.5, 0.5).

The page's DOM is the storage. Here each card is a record (`Cards.Card`)
holding its class flags and the numeric style properties, and the page is an
array of such records.

- `tilt.dfy` (module `Tilt`): the pure arithmetic of the pointer. It covers
  the box fraction, the two tilt angles and the open-card damping.
- `cards.dfy` (module `Cards`): the records and the per-card transitions.
  It also holds the deck-level functions `Click`, `Move` and `Leave`, which
  specify the handlers, and runs of pointer events.
- `laws.dfy` (module `CardLaws`): what the handlers promise. At most one
  card is ever open. Each handler changes only what it must. Leaving is
  idempotent. Hover never opens or closes a card.
- `handlers.dfy` (module `Handlers`): the handlers as imperative methods that
  update `array<Card>` in place, in the order the script sets classes and
  properties. Each is proved equal to its specification function.

## Model

| member | source | states |
|---|---|---|
| Tilt.Fraction | js/app.js:26-29 | the fraction times the box extent gives back the pointer offset; it lies in [0, 1] exactly when the pointer is within the box; it is 0.5 exactly at the box's middle |
| Tilt.QuotientFacts | js/app.js:28-29 | dividing an offset by a positive extent gives back the offset when multiplied by the extent, is non-negative exactly when the offset is, and is at most 1 exactly when the offset is at most the extent |
| Tilt.RotateY | js/app.js:31 | the vertical-axis tilt determines the fraction (x = 0.5 + deg/45); it is within ±22.5° exactly when the fraction is in [0, 1]; it is positive exactly on the right half and zero exactly at the centre |
| Tilt.RotateX | js/app.js:32 | the horizontal-axis tilt has the inverted sign (y = 0.5 − deg/45); it is within ±22.5° exactly when the fraction is in [0, 1]; it is positive exactly on the upper half and zero exactly at the centre |
| Tilt.Damp | js/app.js:50-51 | the open-card tilt is 3/10 of the full tilt with the same sign; it is within ±6.75° exactly when the full tilt is within ±22.5° |
| Tilt.InsideBoxBounds | js/app.js:26-32 | a pointer inside a box of positive size gives fractions in [0, 1], tilts within ±22.5° and damped tilts within ±6.75° |
| Cards.CloseAllAt | js/app.js:15 | removing `active` from every wrapper keeps the number of cards, and each card only loses its `active` flag |
| Cards.Click | js/app.js:9-21 | a click keeps the number of cards; what it does to them is stated by the `CardLaws` click lemmas |
| Cards.Move | js/app.js:24-58 | a pointer move keeps the number of cards; what it does to them is stated by the `CardLaws` move lemmas |
| Cards.Leave | js/app.js:61-70 | a pointer leave keeps the number of cards; what it does to them is stated by the `CardLaws` leave lemmas |
| Cards.Step | js/app.js:9-70 | any one event keeps the number of cards |
| Cards.Run | js/app.js:9-70 | any run of events keeps the number of cards |
| CardLaws.ClickOnLinkIgnored | js/app.js:10 | a click inside a `.btn-h` link leaves every card unchanged |
| CardLaws.ClickOpens | js/app.js:14-20 | clicking a closed card makes it the only active card; its wrapper's `mx`/`my` become 0.5 and its sweep angle, faces, tilts and `reset` stay; every other card only loses `active` |
| CardLaws.ClickCloses | js/app.js:12-13 | clicking the active card clears its `active` flag; its tracking and all its other fields stay; every other card is unchanged; if it was the only open card, no card is open afterwards |
| CardLaws.ClickKeepsAtMostOneActive | js/app.js:12-20 | a click (on a link, on the open card or on a closed card) never leaves two cards active when at most one was |
| CardLaws.ClickTwiceClosesAll | js/app.js:12-20 | clicking a closed card twice leaves no card active |
| CardLaws.MovePublishes | js/app.js:26-40 | a move gives the wrapper, front and back the same tracking; that tracking is the pointer offset divided by the box size, with the sweep angle; no card's `active` changes and no other card changes |
| CardLaws.MoveOnActive | js/app.js:48-52 | on an open card, `h-rx`/`h-ry` become 0.3 times the tilt angles, while the container tilt and `reset` stay |
| CardLaws.MoveOnClosed | js/app.js:55-57 | on a closed card, `reset` is cleared and the container tilt equals the tilt angles of the published fractions, while `h-rx`/`h-ry` stay |
| CardLaws.MoveInsideBounds | js/app.js:26-57 | with the pointer inside the box, the published fractions lie in [0, 1]; a closed card's container tilt stays within ±22.5° and an open card's damped tilt within ±6.75° |
| CardLaws.LeaveOnActive | js/app.js:62 | leaving an open card changes nothing |
| CardLaws.LeaveOnClosed | js/app.js:63-69 | leaving a closed card sets `reset` and centres the wrapper, front and back at (0.5, 0.5); sweep angles, tilts, `active` and every other card stay |
| CardLaws.LeaveIdempotent | js/app.js:61-70 | a second mouse-leave gives the same deck as one |
| CardLaws.LeaveAfterMoveCentres | js/app.js:24-70 | a move followed by a leave on a closed card ends with `reset` set and all three elements centred, carrying the move's sweep angle |
| CardLaws.HoverKeepsActive | js/app.js:24-70 | mouse-move and mouse-leave never change any card's `active` flag |
| CardLaws.RunKeepsAtMostOneActive | js/app.js:9-70 | after any sequence of clicks, moves and leaves, a deck that started with at most one active card still has at most one ("at most", not "exactly": the page markup decides which cards start active, and a click on the open card closes it, js/app.js:12-13) |
| Handlers.OnClick | js/app.js:9-21 | the in-place click handler, including its loop over the active wrappers, leaves the cards exactly as `Cards.Click` says |
| Handlers.OnMouseMove | js/app.js:24-58 | the in-place mousemove handler leaves the cards exactly as `Cards.Move` says |
| Handlers.OnMouseLeave | js/app.js:61-70 | the in-place mouseleave handler leaves the cards exactly as `Cards.Leave` says |
| Handlers.Dispatch | js/app.js:9-70 | running any one handler of any card on a page with at most one open card leaves at most one open, and the cards as `Cards.Step` says |

## Left out

- DOM lookup and event binding are not modelled. This covers
  `DOMContentLoaded`, `querySelectorAll`, `addEventListener`, `closest` and
  `getBoundingClientRect` (js/app.js:1-10, 24-25, 61). The link test arrives as
  the boolean `onLink`. The bounding box arrives as a `Rect` parameter.
- The foil-sweep angle is not computed. The script derives it with
  `Math.atan2` (js/app.js:43). The model takes it as the input `sweep` and
  proves only that the same value goes to the wrapper and both faces
  (js/app.js:44-46).
- Numbers are exact reals, not IEEE doubles, so rounding in the division
  and multiplications is not modelled.
- CSS string formatting (`${x}deg`, `rotateX(..) rotateY(..)`) is not
  modelled. Only the numbers are stored.
- A box of zero width or height is excluded by a precondition. The script
  does not guard that division.
- The cards' state on page load comes from the page's markup, which is not
  part of this model. `RunKeepsAtMostOneActive` therefore assumes that at
  most one card starts active.
