/** The state of every business card on the page, and what each of the three
    pointer handlers does to it. A deck is the sequence of all `.c-w` card
    wrappers in document order; each handler is bound to one card, named by
    its index. The functions here are the specification that the imperative
    handlers in module Handlers are proved against. */
module Cards {
  import Tilt

  /** The custom properties one element publishes to its stylesheet:
      pointer position `--mx`/`--my` and the foil sweep `--angle`. */
  datatype Track = Track(mx: real, my: real, angle: real)

  /** One card: its wrapper's `active` class, the tracking of the wrapper and
      of its front and back faces, the wrapper's damped tilt `--h-rx`/`--h-ry`,
      the container's tilt transform `rotateX(..) rotateY(..)`, and the
      container's `reset` class. */
  datatype Card = Card(
    active: bool,
    wrap: Track, front: Track, back: Track,
    hRx: real, hRy: real,
    rotX: real, rotY: real,
    reset: bool)

  /** Where the pointer is, in the same coordinates as the bounding box. */
  datatype Pointer = Pointer(clientX: real, clientY: real)

  /** The wrapper's bounding client rectangle. */
  datatype Rect = Rect(left: real, top: real, width: real, height: real)

  /** The flat reading position published on open and on leave. */
  const CENTRE: real := 0.5

  predicate Inside(p: Pointer, box: Rect) {
    box.left <= p.clientX <= box.left + box.width &&
    box.top <= p.clientY <= box.top + box.height
  }

  // ---------------------------------------------------------------------
  // One card

  /** The card without its `active` class; nothing else changes. */
  function Closed(c: Card): Card {
    c.(active := false)
  }

  /** The card made active, with its wrapper's tracking snapped flat; the
      faces keep what they had. */
  function Opened(c: Card): Card {
    c.(active := true, wrap := c.wrap.(mx := CENTRE, my := CENTRE))
  }

  /** The card after the pointer moved to fractions (xPct, yPct) of its box
      with foil sweep `sweep`: all three elements get the same tracking; an
      open card gets a damped tilt, a closed one tilts its container and
      drops `reset`. */
  function Moved(c: Card, xPct: real, yPct: real, sweep: real): Card {
    var tracked := c.(wrap := Track(xPct, yPct, sweep),
                      front := Track(xPct, yPct, sweep),
                      back := Track(xPct, yPct, sweep));
    var rotateY, rotateX := Tilt.RotateY(xPct), Tilt.RotateX(yPct);
    if c.active then
      tracked.(hRx := Tilt.Damp(rotateX), hRy := Tilt.Damp(rotateY))
    else
      tracked.(reset := false, rotX := rotateX, rotY := rotateY)
  }

  /** The card after the pointer left it: an open card keeps everything; a
      closed one is marked `reset` and its three elements go back to the
      centre, keeping their sweep angle. */
  function Left(c: Card): Card {
    if c.active then c
    else c.(reset := true,
            wrap := c.wrap.(mx := CENTRE, my := CENTRE),
            front := c.front.(mx := CENTRE, my := CENTRE),
            back := c.back.(mx := CENTRE, my := CENTRE))
  }

  // ---------------------------------------------------------------------
  // The deck

  predicate AtMostOneActive(deck: seq<Card>) {
    forall j, k :: 0 <= j < |deck| && 0 <= k < |deck| && deck[j].active && deck[k].active ==> j == k
  }

  predicate NoneActive(deck: seq<Card>) {
    forall k :: 0 <= k < |deck| ==> !deck[k].active
  }

  /** Every card of the deck with its `active` class removed. */
  function CloseAll(deck: seq<Card>): seq<Card> {
    if deck == [] then [] else [Closed(deck[0])] + CloseAll(deck[1..])
  }

  lemma {:induction false} CloseAllAt(deck: seq<Card>, k: int)
    requires 0 <= k < |deck|
    ensures |CloseAll(deck)| == |deck|
    ensures CloseAll(deck)[k] == deck[k].(active := false)
  {
    if k > 0 {
      CloseAllAt(deck[1..], k - 1);
    } else if |deck| > 1 {
      CloseAllAt(deck[1..], 0);
    }
  }

  /** A click on card i. A click inside a link is ignored; a click on the
      active card closes it; any other click closes every card and opens
      card i. */
  function Click(deck: seq<Card>, i: int, onLink: bool): (r: seq<Card>)
    requires 0 <= i < |deck|
    ensures |r| == |deck|
  {
    if onLink then deck
    else if deck[i].active then deck[i := Closed(deck[i])]
    else
      CloseAllAt(deck, i);
      CloseAll(deck)[i := Opened(deck[i])]
  }

  /** The pointer moved over card i, whose box is `box`. */
  function Move(deck: seq<Card>, i: int, p: Pointer, box: Rect, sweep: real): (r: seq<Card>)
    requires 0 <= i < |deck|
    requires box.width > 0.0 && box.height > 0.0
    ensures |r| == |deck|
  {
    var xPct := Tilt.Fraction(p.clientX - box.left, box.width);
    var yPct := Tilt.Fraction(p.clientY - box.top, box.height);
    deck[i := Moved(deck[i], xPct, yPct, sweep)]
  }

  /** The pointer left card i. */
  function Leave(deck: seq<Card>, i: int): (r: seq<Card>)
    requires 0 <= i < |deck|
    ensures |r| == |deck|
  {
    deck[i := Left(deck[i])]
  }

  // ---------------------------------------------------------------------
  // Sequences of events

  /** One pointer event delivered to card i. */
  datatype Event =
    | ClickOn(i: int, onLink: bool)
    | MoveOver(i: int, p: Pointer, box: Rect, sweep: real)
    | LeaveFrom(i: int)

  /** The event names a card of a deck of n cards, and a pointer move comes
      with a box of positive size. */
  predicate Admissible(e: Event, n: int) {
    0 <= e.i < n && (e.MoveOver? ==> e.box.width > 0.0 && e.box.height > 0.0)
  }

  function Step(deck: seq<Card>, e: Event): (r: seq<Card>)
    requires Admissible(e, |deck|)
    ensures |r| == |deck|
  {
    match e
    case ClickOn(i, onLink) => Click(deck, i, onLink)
    case MoveOver(i, p, box, sweep) => Move(deck, i, p, box, sweep)
    case LeaveFrom(i) => Leave(deck, i)
  }

  /** The deck after the events, handled one after another. */
  function Run(deck: seq<Card>, events: seq<Event>): (r: seq<Card>)
    requires forall e <- events :: Admissible(e, |deck|)
    ensures |r| == |deck|
    decreases |events|
  {
    if events == [] then deck else Run(Step(deck, events[0]), events[1..])
  }
}
