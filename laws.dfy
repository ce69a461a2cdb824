/** What the three handlers promise about the deck: at most one card is ever
    open, each handler touches only its own card (a click that opens also
    closes the others), and the hover handlers never open or close anything. */
module CardLaws {
  import Tilt
  import opened Cards

  // ---------------------------------------------------------------------
  // Click

  /** A click that lands inside a `.btn-h` link changes nothing. */
  lemma ClickOnLinkIgnored(deck: seq<Card>, i: int)
    requires 0 <= i < |deck|
    ensures Click(deck, i, true) == deck
  {
  }

  /** Clicking a closed card makes it the one and only active card and snaps
      its wrapper's tracking to the centre; every other field of it stays,
      and every other card only loses its `active` class. */
  lemma ClickOpens(deck: seq<Card>, i: int)
    requires 0 <= i < |deck|
    requires !deck[i].active
    ensures var r := Click(deck, i, false);
      && (forall k :: 0 <= k < |r| ==> (r[k].active <==> k == i))
      && r[i].wrap.mx == CENTRE && r[i].wrap.my == CENTRE
      && r[i].wrap.angle == deck[i].wrap.angle
      && r[i].(active := false, wrap := deck[i].wrap) == deck[i]
      && (forall k :: 0 <= k < |r| && k != i ==> r[k] == deck[k].(active := false))
  {
    var r := Click(deck, i, false);
    CloseAllAt(deck, i);
    assert r == CloseAll(deck)[i := Opened(deck[i])];
    forall k | 0 <= k < |r| && k != i
      ensures r[k] == deck[k].(active := false)
    {
      CloseAllAt(deck, k);
    }
  }

  /** Clicking the active card closes it and nothing else: its tracking and
      every other card are as they were; if it was the only active card, no
      card is active afterwards. */
  lemma ClickCloses(deck: seq<Card>, i: int)
    requires 0 <= i < |deck|
    requires deck[i].active
    ensures var r := Click(deck, i, false);
      && !r[i].active
      && r[i].wrap == deck[i].wrap
      && r[i].(active := true) == deck[i]
      && (forall k :: 0 <= k < |r| && k != i ==> r[k] == deck[k])
      && (AtMostOneActive(deck) ==> NoneActive(r))
  {
  }

  /** A click never leaves two cards open. */
  lemma ClickKeepsAtMostOneActive(deck: seq<Card>, i: int, onLink: bool)
    requires 0 <= i < |deck|
    requires AtMostOneActive(deck)
    ensures AtMostOneActive(Click(deck, i, onLink))
  {
    if !onLink && !deck[i].active {
      ClickOpens(deck, i);
    }
  }

  /** Clicking a closed card twice leaves every card closed. */
  lemma ClickTwiceClosesAll(deck: seq<Card>, i: int)
    requires 0 <= i < |deck|
    requires !deck[i].active
    ensures NoneActive(Click(Click(deck, i, false), i, false))
  {
    ClickOpens(deck, i);
    ClickCloses(Click(deck, i, false), i);
  }

  // ---------------------------------------------------------------------
  // Mouse-move

  /** Moving the pointer over card i publishes one tracking value to the
      wrapper and both faces, in either state; no other card changes and no
      card is opened or closed. */
  lemma MovePublishes(deck: seq<Card>, i: int, p: Pointer, box: Rect, sweep: real)
    requires 0 <= i < |deck|
    requires box.width > 0.0 && box.height > 0.0
    ensures var r := Move(deck, i, p, box, sweep);
      && r[i].wrap == r[i].front == r[i].back
      && r[i].wrap.mx * box.width == p.clientX - box.left
      && r[i].wrap.my * box.height == p.clientY - box.top
      && r[i].wrap.angle == sweep
      && (forall k :: 0 <= k < |r| ==> r[k].active == deck[k].active)
      && (forall k :: 0 <= k < |r| && k != i ==> r[k] == deck[k])
  {
  }

  /** On an open card the move sets the damped tilt, 0.3 of the container
      tilt a closed card would get, and leaves the container alone. */
  lemma MoveOnActive(deck: seq<Card>, i: int, p: Pointer, box: Rect, sweep: real)
    requires 0 <= i < |deck|
    requires box.width > 0.0 && box.height > 0.0
    requires deck[i].active
    ensures var r := Move(deck, i, p, box, sweep);
      var rotateY := Tilt.RotateY(Tilt.Fraction(p.clientX - box.left, box.width));
      var rotateX := Tilt.RotateX(Tilt.Fraction(p.clientY - box.top, box.height));
      && r[i].hRx * 10.0 == rotateX * 3.0
      && r[i].hRy * 10.0 == rotateY * 3.0
      && r[i].rotX == deck[i].rotX && r[i].rotY == deck[i].rotY
      && r[i].reset == deck[i].reset
  {
  }

  /** On a closed card the move clears `reset` and tilts the container by the
      undamped angles; the damped pair stays. */
  lemma MoveOnClosed(deck: seq<Card>, i: int, p: Pointer, box: Rect, sweep: real)
    requires 0 <= i < |deck|
    requires box.width > 0.0 && box.height > 0.0
    requires !deck[i].active
    ensures var r := Move(deck, i, p, box, sweep);
      && !r[i].reset
      && r[i].rotY == Tilt.RotateY(r[i].wrap.mx)
      && r[i].rotX == Tilt.RotateX(r[i].wrap.my)
      && r[i].hRx == deck[i].hRx && r[i].hRy == deck[i].hRy
  {
  }

  /** With the pointer inside the box, the published tracking lies in the
      unit square and the tilts stay within MAX_TILT (an open card's damped
      tilts within 0.3 of that). */
  lemma MoveInsideBounds(deck: seq<Card>, i: int, p: Pointer, box: Rect, sweep: real)
    requires 0 <= i < |deck|
    requires box.width > 0.0 && box.height > 0.0
    requires Inside(p, box)
    ensures var c := Move(deck, i, p, box, sweep)[i];
      && 0.0 <= c.wrap.mx <= 1.0 && 0.0 <= c.wrap.my <= 1.0
      && (!deck[i].active ==>
            -Tilt.MAX_TILT <= c.rotX <= Tilt.MAX_TILT && -Tilt.MAX_TILT <= c.rotY <= Tilt.MAX_TILT)
      && (deck[i].active ==>
            -Tilt.MAX_OPEN_TILT <= c.hRx <= Tilt.MAX_OPEN_TILT && -Tilt.MAX_OPEN_TILT <= c.hRy <= Tilt.MAX_OPEN_TILT)
  {
    Tilt.InsideBoxBounds(p.clientX - box.left, p.clientY - box.top, box.width, box.height);
  }

  // ---------------------------------------------------------------------
  // Mouse-leave

  /** Leaving an open card changes nothing. */
  lemma LeaveOnActive(deck: seq<Card>, i: int)
    requires 0 <= i < |deck|
    requires deck[i].active
    ensures Leave(deck, i) == deck
  {
  }

  /** Leaving a closed card marks its container `reset` and centres the
      wrapper and both faces; sweep angles, tilts and every other card stay. */
  lemma LeaveOnClosed(deck: seq<Card>, i: int)
    requires 0 <= i < |deck|
    requires !deck[i].active
    ensures var r := Leave(deck, i);
      && r[i].reset && !r[i].active
      && r[i].wrap == Track(CENTRE, CENTRE, deck[i].wrap.angle)
      && r[i].front == Track(CENTRE, CENTRE, deck[i].front.angle)
      && r[i].back == Track(CENTRE, CENTRE, deck[i].back.angle)
      && r[i].hRx == deck[i].hRx && r[i].hRy == deck[i].hRy
      && r[i].rotX == deck[i].rotX && r[i].rotY == deck[i].rotY
      && (forall k :: 0 <= k < |r| && k != i ==> r[k] == deck[k])
  {
  }

  /** A second mouse-leave adds nothing to the first. */
  lemma LeaveIdempotent(deck: seq<Card>, i: int)
    requires 0 <= i < |deck|
    ensures Leave(Leave(deck, i), i) == Leave(deck, i)
  {
  }

  /** Leaving after a move on a closed card undoes the move's tracking. */
  lemma LeaveAfterMoveCentres(deck: seq<Card>, i: int, p: Pointer, box: Rect, sweep: real)
    requires 0 <= i < |deck|
    requires box.width > 0.0 && box.height > 0.0
    requires !deck[i].active
    ensures var r := Leave(Move(deck, i, p, box, sweep), i);
      && r[i].reset
      && r[i].wrap == r[i].front == r[i].back == Track(CENTRE, CENTRE, sweep)
  {
  }

  // ---------------------------------------------------------------------
  // Any sequence of events

  /** Hover events never change which cards are active. */
  lemma HoverKeepsActive(deck: seq<Card>, e: Event)
    requires Admissible(e, |deck|)
    requires !e.ClickOn?
    ensures forall k :: 0 <= k < |deck| ==> Step(deck, e)[k].active == deck[k].active
  {
  }

  /** Whatever the events, a deck that starts with at most one open card never
      has two. */
  lemma {:induction false} RunKeepsAtMostOneActive(deck: seq<Card>, events: seq<Event>)
    requires forall e <- events :: Admissible(e, |deck|)
    requires AtMostOneActive(deck)
    ensures AtMostOneActive(Run(deck, events))
    decreases |events|
  {
    if events != [] {
      var e := events[0];
      var next := Step(deck, e);
      match e {
        case ClickOn(i, onLink) => ClickKeepsAtMostOneActive(deck, i, onLink);
        case _ => HoverKeepsActive(deck, e);
      }
      assert forall e' <- events[1..] :: Admissible(e', |next|);
      RunKeepsAtMostOneActive(next, events[1..]);
    }
  }
}
