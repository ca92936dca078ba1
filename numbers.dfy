/** Exact-real stand-ins for the `Math.pow` and `Math.floor` arithmetic of the game.
    JavaScript doubles are replaced by Dafny's unbounded `real`. */
module Numbers {

  /** Strictly positive reals: every base and growth factor of the game is one. */
  type PosReal = r: real | r > 0.0 witness 1.0

  /** `Math.pow(b, e)` for an integer exponent, which may be negative
      (a level or a count read back from a save is not checked). */
  function Power(b: PosReal, e: int): (r: real)
    ensures r > 0.0
    decreases if e < 0 then -e else e
  {
    if e == 0 then 1.0
    else if e > 0 then b * Power(b, e - 1)
    else Power(b, e + 1) / b
  }

  /** One more factor of the base, on either side of zero. */
  lemma PowerStep(b: PosReal, e: int)
    ensures Power(b, e + 1) == b * Power(b, e)
  {
    if e < 0 {
      assert Power(b, e) == Power(b, e + 1) / b;
    }
  }

  /** With a base of at least one, a non-negative power is at least one. */
  lemma {:induction false} PowerAtLeastOne(b: PosReal, e: nat)
    requires b >= 1.0
    ensures Power(b, e) >= 1.0
  {
    if e > 0 {
      PowerAtLeastOne(b, e - 1);
      assert Power(b, e) == b * Power(b, e - 1);
    }
  }

  /** With a base of at least one, powers do not decrease as the exponent grows. */
  lemma {:induction false} PowerMonotone(b: PosReal, i: int, j: int)
    requires b >= 1.0 && i <= j
    ensures Power(b, i) <= Power(b, j)
    decreases j - i
  {
    if i < j {
      PowerGrows(b, i);
      PowerMonotone(b, i + 1, j);
    }
  }

  lemma PowerGrows(b: PosReal, i: int)
    requires b >= 1.0
    ensures Power(b, i) <= Power(b, i + 1)
  {
    PowerStep(b, i);
    GrowsByFactor(b, Power(b, i));
  }

  lemma GrowsByFactor(b: real, p: real)
    requires b >= 1.0 && p > 0.0
    ensures p <= b * p
  {
    MulNonNegative(b - 1.0, p);
  }

  /** `Math.floor(c * Math.pow(g, i))`, the shape of every cost and of every
      geometric achievement threshold. */
  function ScaledFloor(c: real, g: PosReal, i: int): int {
    (c * Power(g, i)).Floor
  }

  /** A geometric sequence floored stays non-decreasing when it starts at a
      non-negative value and grows by a factor of at least one. */
  lemma ScaledFloorMonotone(c: real, g: PosReal, i: nat, j: nat)
    requires c >= 0.0 && g >= 1.0 && i <= j
    ensures ScaledFloor(c, g, i) <= ScaledFloor(c, g, j)
  {
    PowerMonotone(g, i, j);
    FloorOfScaledOrdered(c, Power(g, i), Power(g, j));
  }

  lemma FloorOfScaledOrdered(c: real, p: real, q: real)
    requires c >= 0.0 && p <= q
    ensures (c * p).Floor <= (c * q).Floor
  {
    MulNonNegative(c, q - p);
    assert c * q - c * p == c * (q - p);
  }

  /** When the first step `c * (g - 1)` is at least one, every later step from a
      non-negative exponent is too, so the floored sequence strictly increases. */
  lemma ScaledFloorIncreasing(c: real, g: PosReal, i: nat)
    requires c > 0.0 && g >= 1.0 && c * (g - 1.0) >= 1.0
    ensures ScaledFloor(c, g, i) < ScaledFloor(c, g, i + 1)
  {
    var p := Power(g, i);
    PowerAtLeastOne(g, i);
    PowerStep(g, i);
    assert c * Power(g, i + 1) - c * p == c * (g - 1.0) * p;
    MulNonNegative(c * (g - 1.0), p - 1.0);
    assert c * (g - 1.0) * p - c * (g - 1.0) == c * (g - 1.0) * (p - 1.0);
  }

  lemma MulNonNegative(x: real, y: real)
    requires x >= 0.0 && y >= 0.0
    ensures x * y >= 0.0
  {
  }
}
