/** The pointer-to-tilt arithmetic of the mousemove handler: where the pointer
    lies inside a card's bounding box as a fraction of its size, and the tilt
    angles (in degrees) derived from that fraction. Numbers are exact reals. */
module Tilt {

  /** The largest tilt, in degrees, either way about either axis: half of the
      45-degree sweep between the two edges of the card. */
  const MAX_TILT: real := 22.5

  /** Damping factor applied to the tilt of an open card. */
  const OPEN_DAMPING: real := 0.3

  /** The largest damped tilt of an open card: OPEN_DAMPING times MAX_TILT. */
  const MAX_OPEN_TILT: real := 6.75

  /** Offset of the pointer from the box's leading edge, as a fraction of the
      box's extent: 0 on the leading edge, 1 on the trailing edge. */
  function Fraction(offset: real, extent: real): (pct: real)
    requires extent > 0.0
    ensures pct * extent == offset
    ensures 0.0 <= pct <= 1.0 <==> 0.0 <= offset <= extent
    ensures offset * 2.0 == extent <==> pct == 0.5
  {
    QuotientFacts(offset, extent);
    offset / extent
  }

  /** Dividing by a positive extent keeps the sign of the offset and compares
      the quotient with 1 as the offset compares with the extent. */
  lemma QuotientFacts(offset: real, extent: real)
    requires extent > 0.0
    ensures offset / extent * extent == offset
    ensures 0.0 <= offset / extent <==> 0.0 <= offset
    ensures offset / extent <= 1.0 <==> offset <= extent
  {
    var q := offset / extent;
    assert q * extent == offset;
    if 0.0 <= q {
      assert 0.0 <= q * extent;
    } else {
      assert q * extent < 0.0;
    }
    if q <= 1.0 {
      assert (1.0 - q) * extent >= 0.0;
    } else {
      assert (q - 1.0) * extent > 0.0;
    }
  }

  /** Tilt about the vertical axis from the horizontal fraction: the right
      half of the card turns toward positive angles. */
  function RotateY(xPct: real): (deg: real)
    ensures xPct == 0.5 + deg / 45.0
    ensures -MAX_TILT <= deg <= MAX_TILT <==> 0.0 <= xPct <= 1.0
    ensures deg > 0.0 <==> xPct > 0.5
    ensures deg == 0.0 <==> xPct == 0.5
  {
    (xPct - 0.5) * 45.0
  }

  /** Tilt about the horizontal axis from the vertical fraction: the sign is
      inverted, so the upper half of the card turns toward positive angles. */
  function RotateX(yPct: real): (deg: real)
    ensures yPct == 0.5 - deg / 45.0
    ensures -MAX_TILT <= deg <= MAX_TILT <==> 0.0 <= yPct <= 1.0
    ensures deg > 0.0 <==> yPct < 0.5
    ensures deg == 0.0 <==> yPct == 0.5
  {
    (yPct - 0.5) * -45.0
  }

  /** The subdued tilt published for an open card. */
  function Damp(deg: real): (damped: real)
    ensures damped * 10.0 == deg * 3.0
    ensures (damped > 0.0 <==> deg > 0.0) && (damped < 0.0 <==> deg < 0.0)
    ensures -MAX_TILT <= deg <= MAX_TILT <==> -MAX_OPEN_TILT <= damped <= MAX_OPEN_TILT
  {
    deg * OPEN_DAMPING
  }

  /** A pointer anywhere inside a box of positive size (edges included) gives
      fractions in [0, 1] and tilts within MAX_TILT about both axes; the open
      card's damped tilts stay within 0.3 of that. */
  lemma InsideBoxBounds(x: real, y: real, width: real, height: real)
    requires width > 0.0 && height > 0.0
    requires 0.0 <= x <= width && 0.0 <= y <= height
    ensures 0.0 <= Fraction(x, width) <= 1.0 && 0.0 <= Fraction(y, height) <= 1.0
    ensures -MAX_TILT <= RotateY(Fraction(x, width)) <= MAX_TILT
    ensures -MAX_TILT <= RotateX(Fraction(y, height)) <= MAX_TILT
    ensures -MAX_OPEN_TILT <= Damp(RotateY(Fraction(x, width))) <= MAX_OPEN_TILT
    ensures -MAX_OPEN_TILT <= Damp(RotateX(Fraction(y, height))) <= MAX_OPEN_TILT
  {
  }
}
