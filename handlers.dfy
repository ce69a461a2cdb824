/** The three event handlers of a card, as the page runs them: each one
    updates the card records in place, field by field, in the order the page
    sets classes and style properties. `cards` holds every `.c-w` wrapper of
    the page; `i` is the card the handler is bound to. Each handler is proved
    to leave the deck exactly as the matching function of module Cards says. */
module Handlers {
  import Tilt
  import opened Cards
  import CardLaws

  /** Click on card i; `onLink` tells whether the click target lies inside a
      `.btn-h` link. */
  method OnClick(cards: array<Card>, i: int, onLink: bool)
    requires 0 <= i < cards.Length
    modifies cards
    ensures cards[..] == Click(old(cards[..]), i, onLink)
  {
    if onLink {
      return;
    }
    if cards[i].active {
      cards[i] := cards[i].(active := false);
    } else {
      ghost var before := cards[..];
      // every wrapper that has `active` loses it
      var k := 0;
      while k < cards.Length
        invariant 0 <= k <= cards.Length
        invariant forall j :: 0 <= j < k ==> cards[j] == before[j].(active := false)
        invariant forall j :: k <= j < cards.Length ==> cards[j] == before[j]
      {
        if cards[k].active {
          cards[k] := cards[k].(active := false);
        }
        k := k + 1;
      }
      cards[i] := cards[i].(active := true);
      // snap the wrapper's tracking flat for reading
      cards[i] := cards[i].(wrap := cards[i].wrap.(mx := CENTRE));
      cards[i] := cards[i].(wrap := cards[i].wrap.(my := CENTRE));
      CloseAllAt(before, i);
      forall j | 0 <= j < cards.Length
        ensures cards[..][j] == CloseAll(before)[i := Opened(before[i])][j]
      {
        CloseAllAt(before, j);
      }
    }
  }

  /** The pointer moved to `p` over card i, whose bounding box is `box`;
      `sweep` is the foil sweep angle the page derives from the same move. */
  method OnMouseMove(cards: array<Card>, i: int, p: Pointer, box: Rect, sweep: real)
    requires 0 <= i < cards.Length
    requires box.width > 0.0 && box.height > 0.0
    modifies cards
    ensures cards[..] == Move(old(cards[..]), i, p, box, sweep)
  {
    var xPct := Tilt.Fraction(p.clientX - box.left, box.width);
    var yPct := Tilt.Fraction(p.clientY - box.top, box.height);
    var rotateY := Tilt.RotateY(xPct);
    var rotateX := Tilt.RotateX(yPct);

    cards[i] := cards[i].(wrap := cards[i].wrap.(mx := xPct, my := yPct));
    cards[i] := cards[i].(front := cards[i].front.(mx := xPct, my := yPct));
    cards[i] := cards[i].(back := cards[i].back.(mx := xPct, my := yPct));

    cards[i] := cards[i].(wrap := cards[i].wrap.(angle := sweep));
    cards[i] := cards[i].(front := cards[i].front.(angle := sweep));
    cards[i] := cards[i].(back := cards[i].back.(angle := sweep));

    if cards[i].active {
      // open: subtly tilt the card itself
      cards[i] := cards[i].(hRx := Tilt.Damp(rotateX), hRy := Tilt.Damp(rotateY));
      return;
    }
    // closed: tilt the whole container
    cards[i] := cards[i].(reset := false);
    cards[i] := cards[i].(rotX := rotateX, rotY := rotateY);
  }

  /** The pointer left card i. */
  method OnMouseLeave(cards: array<Card>, i: int)
    requires 0 <= i < cards.Length
    modifies cards
    ensures cards[..] == Leave(old(cards[..]), i)
  {
    if cards[i].active {
      return;
    }
    cards[i] := cards[i].(reset := true);
    cards[i] := cards[i].(wrap := cards[i].wrap.(mx := CENTRE, my := CENTRE));
    cards[i] := cards[i].(front := cards[i].front.(mx := CENTRE, my := CENTRE));
    cards[i] := cards[i].(back := cards[i].back.(mx := CENTRE, my := CENTRE));
  }

  /** The handlers keep the page's invariant: with at most one card open
      before any of them runs, at most one is open after. */
  method Dispatch(cards: array<Card>, e: Event)
    requires Admissible(e, cards.Length)
    requires AtMostOneActive(cards[..])
    modifies cards
    ensures cards[..] == Step(old(cards[..]), e)
    ensures AtMostOneActive(cards[..])
  {
    ghost var before := cards[..];
    match e {
      case ClickOn(i, onLink) =>
        OnClick(cards, i, onLink);
        CardLaws.ClickKeepsAtMostOneActive(before, i, onLink);
      case MoveOver(i, p, box, sweep) =>
        OnMouseMove(cards, i, p, box, sweep);
        CardLaws.HoverKeepsActive(before, e);
      case LeaveFrom(i) =>
        OnMouseLeave(cards, i);
        CardLaws.HoverKeepsActive(before, e);
    }
  }
}
