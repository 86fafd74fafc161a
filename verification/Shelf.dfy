/**
 One step over the shelving bed: envelope, depth and cross-shore wave number change as their written
 derivatives say, up to bounds that do not depend on the step or on where it starts.
 */
module Shelf {
  import opened Shore
  import opened Swell
  import opened Surface
  import opened Slopes
  import opened Predictions

  // ---------------------------------------------------------------- the envelope

  const SCALE := Steady(1.52, 0.082, 0.025)

  /** The step neither takes up the breaking limit nor leaves it. */
  predicate KeepsLimit(d: real, h: real) {
    ShoreHydrodynamics(d).DepthLimited() == ShoreHydrodynamics(d + h).DepthLimited()
  }

  lemma ScaleIsSmooth(d: real, h: real, a: real, s: real, p: real)
    requires KeepsLimit(d, h) && a == Abs(h) && s == h * h && p == ShoreHydrodynamics(d).scaleDerivative * h
    ensures Smooth(ShoreHydrodynamics(d).scale, ShoreHydrodynamics(d + h).scale, p, a, s, SCALE)
  {
    hide ShoreHydrodynamics;
    Lengths(a, h, s);
    ScaleIsLimited(d);
    ScaleIsLimited(d + h);
    ScaleIsGentle(d);
    ScaleIsPredicted(d, h);
    var at, next := ShoreHydrodynamics(d), ShoreHydrodynamics(d + h);
    SlopeTimesStep(at.scaleDerivative, 0.082, h, a, p);
    SlopeBoundsChange(at.scale, next.scale, p, a, s, 1.52, 0.082, 0.025);
  }

  lemma SlopeTimesStep(slope: real, limit: real, h: real, a: real, p: real)
    requires Within(slope, limit) && a == Abs(h) && p == slope * h
    ensures Within(p, Scaled(limit, a))
  {
    ProductIsWithin(slope, h, limit, a, p, limit * a);
  }

  // ---------------------------------------------------------------- the cross-shore number

  function Offshore(c: Component): real { OffshoreCross(c.deep, Abs(c.wave.z)) }

  /** Nowhere on the beach is the cross-shore number larger. */
  function Reach(c: Component): real { Offshore(c) + c.deep + 1.0 }

  function CrossBounds(c: Component): Bounds { Steady(Reach(c), 0.315 * Reach(c), 0.125 * (c.deep + 1.0)) }

  predicate SameWave(c: Component, c': Component) { c'.wave == c.wave && c'.deep == c.deep }

  lemma ShallowIsWithin(deep: real, shallow: real, depth: real)
    requires deep > 0.0 && shallow > 0.0 && depth >= MIN_WATER_DEPTH && shallow * shallow * depth == deep
    ensures shallow <= 1.0 + deep
  {
    var m, square := 1.0 + deep, shallow * shallow;
    Square(shallow);
    Grow(MIN_WATER_DEPTH, depth, square);
    assert MIN_WATER_DEPTH * square <= deep;
    assert MIN_WATER_DEPTH * (m * m) > deep by { SquareIsLarge(deep, m); }
    if shallow > m { NotLonger(shallow, m); }
  }

  lemma SquareIsLarge(deep: real, m: real)
    requires m == 1.0 + deep
    ensures MIN_WATER_DEPTH * (m * m) > deep
  {
    Square(deep - 0.4);
    assert (deep - 0.4) * (deep - 0.4) == deep * deep - 0.8 * deep + 0.16;
    assert m * m == 1.0 + 2.0 * deep + deep * deep;
  }

  lemma CrossNumberIsWithin(offshore: real, shallow: real, b: real)
    requires offshore > 0.0 && shallow > 0.0 && b >= 0.0
    ensures CrossNumber(offshore, shallow, b) <= offshore + shallow
  {
    var p, q := offshore * shallow, offshore + shallow;
    Positive(offshore, shallow, p);
    Grow(0.0, b, p);
    assert b * offshore * shallow == b * p;
    NonNegativeQuotient(b * offshore * shallow, q);
  }

  lemma NonNegativeQuotient(x: real, q: real)
    requires q > 0.0 && 0.0 <= x
    ensures 0.0 <= x / q
  {
    Cancel(0.0, x / q, q, 0.0, x);
  }

  /** Its size, between a quarter of the offshore number and its reach. */
  lemma CrossRange(c: Component, depth: real)
    requires c.Real(depth) && depth >= MIN_WATER_DEPTH
    ensures Within(c.Cross(), Reach(c)) && 0.25 * Offshore(c) <= Abs(c.Cross())
    ensures c.Cross() == Abs(c.Cross()) * c.Sign()
    ensures Abs(c.Cross()) == CrossNumber(Offshore(c), c.shallow, PhaseBlend(Abs(c.wave.z)))
  {
    hide PhaseBlend, OffshoreCross, CrossNumber;
    var fraction := Abs(c.wave.z);
    CrossNumberIsPositive(Offshore(c), c.shallow, fraction);
    BlendRange(fraction);
    CrossNumberIsWithin(Offshore(c), c.shallow, PhaseBlend(fraction));
    ShallowIsWithin(c.deep, c.shallow, depth);
  }

  lemma CrossSlopeIsWithin(c: Component, depth: real)
    requires c.Real(depth) && depth >= MIN_WATER_DEPTH
    ensures Within(c.CrossDerivative(depth), 0.315 * Reach(c))
  {
    hide PhaseBlend, OffshoreCross, CrossNumber, CrossNumberDerivative;
    var fraction := Abs(c.wave.z);
    var slope := CrossNumberDerivative(Offshore(c), c.shallow, PhaseBlend(fraction), depth);
    RefractionIsGentle(Offshore(c), c.shallow, fraction, depth);
    CrossRange(c, depth);
    BySlope(slope, depth, slope * depth, Reach(c));
  }

  lemma BySlope(slope: real, depth: real, p: real, reach: real)
    requires depth >= MIN_WATER_DEPTH && p == slope * depth && Within(p, 2.0 * reach)
    ensures Within(slope * SHORE_SLOPE, 0.315 * reach)
  {
    if slope < 0.0 {
      Falling(-slope, depth, -p, reach);
    } else {
      Falling(slope, depth, p, reach);
    }
  }

  lemma Falling(slope: real, depth: real, p: real, reach: real)
    requires 0.0 <= slope && depth >= MIN_WATER_DEPTH && p == slope * depth && p <= 2.0 * reach
    ensures slope * SHORE_SLOPE <= 0.315 * reach && 0.0 <= reach
  {
    Grow(MIN_WATER_DEPTH, depth, slope);
  }

  /** The bed falls by the shore's slope; relative to the depth that is never much. */
  lemma BedFalls(d: real, h: real)
    requires 0.0 <= d && 0.0 <= d + h
    ensures var depth, next := ShoreHydrodynamics(d).depth, ShoreHydrodynamics(d + h).depth;
            next - depth == SHORE_SLOPE * h && depth >= MIN_WATER_DEPTH && next >= MIN_WATER_DEPTH
  {
    hide Envelope, EnvelopeDerivative;
  }

  lemma RelativeChange(depth: real, h: real, s: real, change: real)
    requires depth >= MIN_WATER_DEPTH && s == h * h && change * depth == SHORE_SLOPE * h
    ensures change * change <= 0.025 * s
  {
    var q := change * change;
    Square(change);
    var v := depth * depth;
    assert q * v == SHORE_SLOPE * SHORE_SLOPE * s;
    Grow(MIN_WATER_DEPTH, depth, depth);
    Grow(MIN_WATER_DEPTH * MIN_WATER_DEPTH, v, q);
  }

  lemma CrossIsSmooth(c: Component, c': Component, depth: real, depth': real, h: real, a: real, s: real, p: real)
    requires c.Real(depth) && c'.Real(depth') && SameWave(c, c') && a == Abs(h) && s == h * h
    requires depth >= MIN_WATER_DEPTH && depth' >= MIN_WATER_DEPTH && depth' - depth == SHORE_SLOPE * h
    requires p == c.CrossDerivative(depth) * h
    ensures Smooth(c.Cross(), c'.Cross(), p, a, s, CrossBounds(c))
  {
    CrossParts(c, c', depth, depth', h, a, s, p);
    hide *;
    SlopeBoundsChange(c.Cross(), c'.Cross(), p, a, s, Reach(c), 0.315 * Reach(c), 0.125 * (c.deep + 1.0));
    assert Smooth(c.Cross(), c'.Cross(), p, a, s, CrossBounds(c)) by { CrossBoundsAre(c); }
  }

  lemma CrossBoundsAre(c: Component)
    ensures CrossBounds(c) == Steady(Reach(c), 0.315 * Reach(c), 0.125 * (c.deep + 1.0))
  {
  }

  lemma ReachOf(c: Component, c': Component, depth: real, depth': real)
    requires c.Real(depth) && c'.Real(depth') && SameWave(c, c')
    ensures Reach(c') == Reach(c) && 0.0 <= c.deep && 0.0 <= Reach(c)
    ensures c.shallow > 0.0 && c'.shallow > 0.0 && depth > 0.0
  {
  }

  lemma CrossParts(c: Component, c': Component, depth: real, depth': real, h: real, a: real, s: real, p: real)
    requires c.Real(depth) && c'.Real(depth') && SameWave(c, c') && a == Abs(h) && s == h * h
    requires depth >= MIN_WATER_DEPTH && depth' >= MIN_WATER_DEPTH && depth' - depth == SHORE_SLOPE * h
    requires p == c.CrossDerivative(depth) * h
    ensures 0.0 <= a && s == a * a && 0.0 <= Reach(c) && 0.0 <= c.deep
    ensures Within(c.Cross(), Reach(c)) && Within(c'.Cross(), Reach(c))
    ensures Within(p, Scaled(0.315 * Reach(c), a))
    ensures Within(c'.Cross() - c.Cross() - p, Scaled(0.125 * (c.deep + 1.0), s))
  {
    hide *;
    assert 0.0 <= a && s == a * a by { Lengths(a, h, s); }
    ReachOf(c, c', depth, depth');
    assert Within(c'.Cross() - c.Cross() - p, Scaled(0.125 * (c.deep + 1.0), s)) by {
      CrossIsPredicted(c, c', depth, depth', h, s, p);
    }
    assert Within(c.Cross(), Reach(c)) by { CrossRange(c, depth); }
    assert Within(c'.Cross(), Reach(c)) by { CrossRange(c', depth'); }
    assert Within(p, Scaled(0.315 * Reach(c), a)) by {
      CrossSlopeIsWithin(c, depth);
      SlopeTimesStep(c.CrossDerivative(depth), 0.315 * Reach(c), h, a, p);
    }
  }

  lemma CrossIsPredicted(c: Component, c': Component, depth: real, depth': real, h: real, s: real, p: real)
    requires c.Real(depth) && c'.Real(depth') && SameWave(c, c') && s == h * h
    requires depth >= MIN_WATER_DEPTH && depth' >= MIN_WATER_DEPTH && depth' - depth == SHORE_SLOPE * h
    requires p == c.CrossDerivative(depth) * h
    ensures Within(c'.Cross() - c.Cross() - p, Scaled(0.125 * (c.deep + 1.0), s))
  {
    hide PhaseBlend, OffshoreCross, CrossNumber, CrossNumberDerivative, Scaled, Within, Component.Real;
    var fraction, offshore := Abs(c.wave.z), Offshore(c);
    RootOf(c, depth, c.deep);
    RootOf(c', depth', c.deep);
    var slope := CrossNumberDerivative(offshore, c.shallow, PhaseBlend(fraction), depth);
    var k, k' := CrossNumber(offshore, c.shallow, PhaseBlend(fraction)), CrossNumber(offshore, c'.shallow, PhaseBlend(fraction));
    CrossNumberStep(c.deep, offshore, fraction, c.shallow, c'.shallow, depth, depth', slope, k, k', h, s, c.Sign(),
                    c.CrossDerivative(depth), p, c.Cross(), c'.Cross());
  }

  lemma CrossNumberStep(deep: real, offshore: real, fraction: real, r: real, r': real, depth: real, depth': real,
                        slope: real, k: real, k': real, h: real, s: real, sign: real, cd: real, p: real,
                        cross: real, cross': real)
    requires deep > 0.0 && offshore > 0.0 && r > 0.0 && r' > 0.0 && s == h * h
    requires depth >= MIN_WATER_DEPTH && depth' >= MIN_WATER_DEPTH && depth' - depth == SHORE_SLOPE * h
    requires r * r * depth == deep && r' * r' * depth' == deep
    requires slope == CrossNumberDerivative(offshore, r, PhaseBlend(fraction), depth)
    requires k == CrossNumber(offshore, r, PhaseBlend(fraction)) && k' == CrossNumber(offshore, r', PhaseBlend(fraction))
    requires (sign == 1.0 || sign == -1.0) && cd == slope * SHORE_SLOPE * sign && p == cd * h
    requires cross == k * sign && cross' == k' * sign
    ensures Within(cross' - cross - p, Scaled(0.125 * (deep + 1.0), s))
  {
    hide *;
    var square := Relative(depth, depth') * Relative(depth, depth');
    assert 0.0 <= square <= 0.025 * s by { SquareIsSmall(depth, depth', h, s, square); }
    assert r' <= deep + 1.0 by { ShallowIsWithin(deep, r', depth'); }
    var fall, rest, error := depth' - depth, slope * (depth' - depth), r' * square;
    assert Within(k' - k - rest, 5.0 * error) by {
      NumberIsPredicted(deep, offshore, fraction, r, r', depth, depth', slope, k, k', square, rest, error);
    }
    CrossRemainder(k, k', slope, fall, h, sign, r', square, deep + 1.0, s, cd, p, cross, cross', rest, error);
  }

  lemma RootOf(c: Component, depth: real, deep: real)
    requires c.Real(depth) && c.deep == deep
    ensures deep > 0.0 && c.shallow > 0.0 && depth > 0.0 && c.shallow * c.shallow * depth == deep
  {
    hide Component.Along, Component.Cross;
  }

  lemma NumberIsPredicted(deep: real, offshore: real, fraction: real, r: real, r': real, depth: real, depth': real,
                          slope: real, k: real, k': real, square: real, rest: real, error: real)
    requires deep > 0.0 && offshore > 0.0 && r > 0.0 && r' > 0.0 && depth > 0.0 && depth' > 0.0
    requires r * r * depth == deep && r' * r' * depth' == deep
    requires slope == CrossNumberDerivative(offshore, r, PhaseBlend(fraction), depth)
    requires k == CrossNumber(offshore, r, PhaseBlend(fraction)) && k' == CrossNumber(offshore, r', PhaseBlend(fraction))
    requires square == Relative(depth, depth') * Relative(depth, depth')
    requires rest == slope * (depth' - depth) && error == r' * square
    ensures Within(k' - k - rest, 5.0 * error)
  {
    hide PhaseBlend, CrossNumber, CrossNumberDerivative;
    RefractionDerivativeIsRight(deep, offshore, fraction, r, r', depth, depth');
  }

  function Relative(depth: real, depth': real): real
    requires depth > 0.0
  {
    (depth' - depth) / depth
  }

  lemma SquareIsSmall(depth: real, depth': real, h: real, s: real, square: real)
    requires depth >= MIN_WATER_DEPTH && depth' - depth == SHORE_SLOPE * h && s == h * h
    requires square == Relative(depth, depth') * Relative(depth, depth')
    ensures 0.0 <= square <= 0.025 * s
  {
    var change := Relative(depth, depth');
    assert change * depth == SHORE_SLOPE * h;
    RelativeChange(depth, h, s, change);
    Square(change);
  }

  lemma CrossRemainder(k: real, k': real, slope: real, fall: real, h: real, sign: real, r: real, square: real,
                       m: real, s: real, cd: real, p: real, cross: real, cross': real, rest: real, error: real)
    requires Within(k' - k - rest, 5.0 * error) && rest == slope * fall && error == r * square && fall == SHORE_SLOPE * h && (sign == 1.0 || sign == -1.0)
    requires 0.0 <= square <= 0.025 * s && 0.0 < r <= m && cd == slope * SHORE_SLOPE * sign && p == cd * h
    requires cross == k * sign && cross' == k' * sign
    ensures Within(cross' - cross - p, Scaled(0.125 * m, s))
  {
    SmallError(r, m, square, s, error, m * square, m * s);
    Signed(slope, fall, h, sign, cd, p);
    if sign == 1.0 { assert cross' == k' && cross == k; } else { assert cross' == -k' && cross == -k; }
  }

  lemma SmallError(r: real, m: real, square: real, s: real, q: real, u: real, v: real)
    requires 0.0 <= square <= 0.025 * s && 0.0 < r <= m && q == r * square && u == m * square && v == m * s
    ensures 5.0 * q <= Scaled(0.125 * m, s)
  {
    LessTimes(r, m, square, q, u);
    LessTimes(square, 0.025 * s, m, u, 0.025 * v);
    assert Scaled(0.125 * m, s) == 0.125 * v;
  }

  lemma LessTimes(x: real, y: real, a: real, p: real, q: real)
    requires x <= y && 0.0 <= a && p == x * a && q == y * a
    ensures p <= q
  {
    Grow(x, y, a);
  }

  lemma Signed(slope: real, fall: real, h: real, sign: real, cd: real, p: real)
    requires fall == SHORE_SLOPE * h && cd == slope * SHORE_SLOPE * sign && p == cd * h
    requires sign == 1.0 || sign == -1.0
    ensures p == if sign == 1.0 then slope * fall else -(slope * fall)
  {
    if sign == 1.0 { assert cd == slope * SHORE_SLOPE; } else { assert cd == -(slope * SHORE_SLOPE); }
  }
}
