/**
 The tangents sampleGerstnerSurface really returns: what the shelving bed and the changing envelope
 add to the seaward tangent is bounded, and it is never enough to fold a crest.
 */
module Drift {
  import opened Shore
  import opened Slopes
  import opened Swell
  import opened Surface

  // ---------------------------------------------------------------- one wave, as numbers

  lemma ShrinksBy(x: real, numberD: real, n: real, y: real)
    requires n > 0.0 && -x * numberD == y * n
    ensures Shrinks(x, numberD, n) == y
  {
    QuotientIs(-x * numberD, y, n);
  }

  lemma TurnsAcrossBy(crossD: real, dirZ: real, numberD: real, n: real, y: real)
    requires n > 0.0 && crossD - dirZ * numberD == y * n
    ensures TurnsAcross(crossD, dirZ, numberD, n) == y
  {
    QuotientIs(crossD - dirZ * numberD, y, n);
  }

  lemma QuotientIs(x: real, y: real, n: real)
    requires n > 0.0 && x == y * n
    ensures x / n == y
  {
    var q := x / n;
    assert q * n == x;
    Cancel(q, y, n, x, x);
    Cancel(y, q, n, x, x);
  }

  /** With q the relative turn of the wave vector, the drift is a turn of the direction plus a change
      of length. */
  lemma DriftInParts(dx: real, dz: real, n: real, cd: real, numberD: real, h: real, byAmplitude: bool, grow: real,
                     cosine: real, q: real, y: real)
    requires n > 0.0 && dx * dx + dz * dz == 1.0 && cd == q * n && numberD == dz * cd
    requires y == if byAmplitude then grow else -(dz * (h * q))
    ensures DriftOf(dx, dz, n, cd, numberD, h, byAmplitude, grow, cosine)
         == Changed(dx, -(dx * dz * q), dz, dx * dx * q, h, y, cosine)
  {
    hide Changed, Shrinks, TurnsAcross;
    Turns(dx, dz, n, cd, q, h, numberD, -dx * numberD, cd - dz * numberD, -h * numberD);
    ShrinksBy(dx, numberD, n, -(dx * dz * q));
    TurnsAcrossBy(cd, dz, numberD, n, dx * dx * q);
    ShrinksBy(h, numberD, n, -(dz * (h * q)));
  }

  lemma Turns(dx: real, dz: real, n: real, cd: real, q: real, h: real, numberD: real, x: real, z: real, l: real)
    requires dx * dx + dz * dz == 1.0 && cd == q * n && numberD == dz * cd
    requires x == -dx * numberD && z == cd - dz * numberD && l == -h * numberD
    ensures x == -(dx * dz * q) * n && z == dx * dx * q * n && l == -(dz * (h * q)) * n
  {
    assert dx * dx * cd + dz * dz * cd == (dx * dx + dz * dz) * cd;
  }

  function SquareNorm(d: (real, real)): real { d.0 * d.0 + d.1 * d.1 }

  /** Turn and growth are at right angles, so their squares add up; and no more than that is left
      where the steepness rules the length. */
  lemma DriftSquare(dx: real, dz: real, h: real, q: real, y: real, cosine: real, hq: real, u: real)
    requires dx * dx + dz * dz == 1.0 && hq == h * q && u == dx * hq
    ensures SquareNorm(Changed(dx, -(dx * dz * q), dz, dx * dx * q, h, y, cosine))
         == (y * y + u * u) * (cosine * cosine)
  {
    var x, z := dx * (y - dz * hq), dz * y + dx * dx * hq;
    Rearranged(dx, dz, h, q, y, hq, x, z);
    Orthogonal(dx, dz, y, hq, u, x, z);
    Squared(x, z, cosine, x * cosine, z * cosine, y * y + u * u);
  }

  lemma Rearranged(dx: real, dz: real, h: real, q: real, y: real, hq: real, x: real, z: real)
    requires hq == h * q && x == dx * (y - dz * hq) && z == dz * y + dx * dx * hq
    ensures -(dx * dz * q) * h + dx * y == x && dx * dx * q * h + dz * y == z
  {
  }

  lemma Orthogonal(dx: real, dz: real, y: real, hq: real, w: real, x: real, z: real)
    requires dx * dx + dz * dz == 1.0 && w == dx * hq && x == dx * (y - dz * hq) && z == dz * y + dx * dx * hq
    ensures x * x + z * z == y * y + w * w
  {
    var u := dx * dx + dz * dz;
    assert x * x + z * z == y * y * u + w * w * u;
  }

  lemma Squared(x: real, z: real, c: real, p: real, r: real, s: real)
    requires p == x * c && r == z * c && s == x * x + z * z
    ensures p * p + r * r == s * (c * c)
  {
  }

  // ---------------------------------------------------------------- one wave, bounded

  /** What the shore gives every wave: a gentle scale, under the breaking limit. */
  predicate Gentle(shore: Hydrodynamics) {
    && shore.depth > 0.0 && Within(shore.scaleDerivative, 0.082)
    && 0.0 <= shore.scale && GEOMETRY_WAVE_AMPLITUDE * shore.scale <= BREAKING_AMPLITUDE_RATIO * shore.depth
  }

  lemma ShoreIsGentle(seaward: real)
    ensures Gentle(ShoreHydrodynamics(seaward))
  {
    hide ShoreHydrodynamics;
    ScaleIsGentle(seaward);
    ScaleIsLimited(seaward);
    LimitOfDepth(seaward);
    DepthIsPositive(seaward);
  }

  lemma DepthIsPositive(seaward: real)
    ensures ShoreHydrodynamics(seaward).depth >= MIN_WATER_DEPTH
  {
    hide Envelope, EnvelopeDerivative;
  }

  /** The wave vector turns by at most 0.11 of itself while the depth grows by itself. */
  lemma TurnIsGentle(c: Component, depth: real, q: real, qd: real)
    requires c.Real(depth) && c.number > 0.0 && qd == q * depth
    ensures q * c.number == c.CrossDerivative(depth) ==> Within(qd, 0.11)
  {
    hide PhaseBlend, OffshoreCross, CrossNumber, CrossNumberDerivative;
    var fraction, n := Abs(c.wave.z), c.number;
    var offshore := OffshoreCross(c.deep, fraction);
    var slope, cross := CrossNumberDerivative(offshore, c.shallow, PhaseBlend(fraction), depth),
                        CrossNumber(offshore, c.shallow, PhaseBlend(fraction));
    RefractionIsGentle(offshore, c.shallow, fraction, depth);
    CrossNumberIsPositive(offshore, c.shallow, fraction);
    LegIsWithin(c.Along(), cross, n);
    if q * n == c.CrossDerivative(depth) { TurnOfSlope(slope, cross, n, depth, c.Sign(), q, slope * depth, qd); }
  }

  lemma LegIsWithin(a: real, x: real, n: real)
    requires n > 0.0 && x > 0.0 && (n * n == a * a + x * x || n * n == a * a + (x * -1.0) * (x * -1.0))
    ensures x <= n
  {
    Square(a);
    assert x * -1.0 * (x * -1.0) == x * x;
    RootOrder(x, n);
  }

  lemma TurnOfSlope(slope: real, cross: real, n: real, depth: real, sign: real, q: real, p: real, qd: real)
    requires n > 0.0 && cross <= n && p == slope * depth && Within(p, 2.0 * cross) && qd == q * depth
    requires (sign == 1.0 || sign == -1.0) && q * n == slope * 0.055 * sign
    ensures Within(qd, 0.11)
  {
    assert qd * n == p * (0.055 * sign);
    Cancel(qd, 0.11, n, qd * n, 0.11 * n);
    Cancel(-0.11, qd, n, -0.11 * n, qd * n);
  }

  /** Displacement times turn: a sixtieth of the amplitude, at any depth. */
  lemma DisplacedTurn(h: real, q: real, amplitude: real, scaled: real, scale: real, depth: real, qd: real, hq: real)
    requires depth > 0.0 && 0.0 <= amplitude && scaled == amplitude * scale && 0.0 <= h <= 0.72 * scaled
    requires 1.62 * scale <= 0.34 * depth && qd == q * depth && Within(qd, 0.11) && hq == h * q
    ensures Within(hq, 0.0167 * amplitude)
  {
    var ad, m := amplitude * depth, 0.0167 * amplitude;
    assert 1.62 * scaled <= 0.34 * ad by { Grow(1.62 * scale, 0.34 * depth, amplitude); }
    ProductIsPositive(amplitude, depth, ad);
    var share := 0.151112 * ad;
    ProductIsWithin(h, qd, share, 0.11, h * qd, share * 0.11);
    assert hq * depth == h * qd;
    Cancel(hq, m, depth, hq * depth, m * depth);
    Cancel(-m, hq, depth, -m * depth, hq * depth);
  }

  /** How far a wave of this amplitude can drift per unit of distance. */
  function Bound(amplitude: real): real { 0.0614 * amplitude }

  /** The drift of one wave, as numbers: what it grows by and what it turns by, against its amplitude. */
  lemma DriftBound(y: real, hq: real, dx: real, dz: real, cosine: real, amplitude: real, u: real, square: real)
    requires 0.0 <= amplitude && Within(y, 0.05904 * amplitude) && Within(hq, 0.0167 * amplitude)
    requires dx * dx + dz * dz == 1.0 && Within(cosine, 1.0) && u == dx * hq
    requires square == (y * y + u * u) * (cosine * cosine)
    ensures square <= Bound(amplitude) * Bound(amplitude)
  {
    var g, t := 0.05904 * amplitude, 0.0167 * amplitude;
    Square(amplitude);
    Square(dz);
    ProductIsWithin(y, y, g, g, y * y, g * g);
    Shortened(hq, dx, dx * dx, t, u);
    ProductIsWithin(cosine, cosine, 1.0, 1.0, cosine * cosine, 1.0);
    Square(y);
    Square(u);
    Damped(cosine * cosine, y * y + u * u, square);
    BoundsAdd(amplitude, amplitude * amplitude, g, t);
  }

  lemma Damped(c: real, s: real, p: real)
    requires c <= 1.0 && 0.0 <= s && p == s * c
    ensures p <= s
  {
    Grow(c, 1.0, s);
  }

  lemma Shortened(hq: real, dx: real, s: real, t: real, u: real)
    requires Within(hq, t) && s == dx * dx && s <= 1.0 && u == dx * hq
    ensures u * u <= t * t
  {
    ProductIsWithin(hq, hq, t, t, hq * hq, t * t);
    Square(hq);
    Grow(s, 1.0, hq * hq);
    assert u * u == s * (hq * hq);
  }

  lemma BoundsAdd(amplitude: real, s: real, g: real, t: real)
    requires s == amplitude * amplitude && 0.0 <= s && g == 0.05904 * amplitude && t == 0.0167 * amplitude
    ensures g * g + t * t <= Bound(amplitude) * Bound(amplitude)
  {
    assert g * g == 0.05904 * 0.05904 * s && t * t == 0.0167 * 0.0167 * s;
    assert Bound(amplitude) * Bound(amplitude) == 0.0614 * 0.0614 * s;
  }

  lemma RealWave(c: Component, depth: real)
    requires c.Real(depth) && c.number > 0.0
    ensures c.wave.amplitude >= 0.0 && c.wave.steepness >= 0.0 && c.shallow > 0.0 && depth > 0.0
    ensures Within(c.cosine, 1.0) && DirX(c) * DirX(c) + DirZ(c) * DirZ(c) == 1.0
  {
    hide DirX, DirZ, Component.Along, Component.Cross;
    Directions(c);
    UnitLength(c.Along(), c.Cross(), c.number, DirX(c), DirZ(c));
  }

  /** The turn and the growth of one wave's displacement. */
  lemma WaveParts(c: Component, shore: Hydrodynamics, q: real, hq: real, y: real)
    requires c.Real(shore.depth) && c.number > 0.0 && Gentle(shore)
    requires q * c.number == c.CrossDerivative(shore.depth) && hq == Horizontal(c, shore) * q
    requires y == if AmplitudeLimited(c, shore) then Growth(c, shore) else -(DirZ(c) * hq)
    ensures Within(hq, 0.0167 * c.wave.amplitude) && Within(y, 0.05904 * c.wave.amplitude)
  {
    hide DirX, DirZ, Horizontal, AmplitudeLimited, Growth, Component.Real, Component.CrossDerivative;
    RealWave(c, shore.depth);
    Factors(c, shore);
    TurnIsGentle(c, shore.depth, q, q * shore.depth);
    HorizontalRange(c, shore);
    DisplacedTurn(Horizontal(c, shore), q, c.wave.amplitude, Amplitude(c, shore), shore.scale, shore.depth,
                  q * shore.depth, hq);
    GrowthIsWithin(c.wave.amplitude, shore.scaleDerivative, Growth(c, shore), DirZ(c), DirX(c), hq, y);
  }

  lemma WaveSquare(c: Component, shore: Hydrodynamics, q: real, hq: real, y: real, u: real)
    requires c.Real(shore.depth) && c.number > 0.0
    requires q * c.number == c.CrossDerivative(shore.depth) && hq == Horizontal(c, shore) * q && u == DirX(c) * hq
    requires y == if AmplitudeLimited(c, shore) then Growth(c, shore) else -(DirZ(c) * hq)
    ensures SquareNorm(Drift(c, shore)) == (y * y + u * u) * (c.cosine * c.cosine)
  {
    hide SquareNorm, Changed, DriftOf, DirX, DirZ, Horizontal, AmplitudeLimited, NumberDerivative, Growth,
         Component.Real, Component.CrossDerivative;
    RealWave(c, shore.depth);
    var dx, dz, h := DirX(c), DirZ(c), Horizontal(c, shore);
    Factors(c, shore);
    DriftInParts(dx, dz, c.number, c.CrossDerivative(shore.depth), NumberDerivative(c, shore.depth), h,
                 AmplitudeLimited(c, shore), Growth(c, shore), c.cosine, q, y);
    DriftSquare(dx, dz, h, q, y, c.cosine, hq, u);
  }

  /** No wave drifts by more than 0.0614 of its own amplitude per unit of distance. */
  lemma WaveDrift(c: Component, shore: Hydrodynamics)
    requires c.Real(shore.depth) && c.number > 0.0 && Gentle(shore)
    ensures SquareNorm(Drift(c, shore)) <= Bound(c.wave.amplitude) * Bound(c.wave.amplitude)
  {
    hide SquareNorm, Bound, Drift, DirX, DirZ, Horizontal, AmplitudeLimited, Growth,
         Component.Real, Component.CrossDerivative;
    RealWave(c, shore.depth);
    var q := c.CrossDerivative(shore.depth) / c.number;
    var hq := Horizontal(c, shore) * q;
    var y, u := if AmplitudeLimited(c, shore) then Growth(c, shore) else -(DirZ(c) * hq), DirX(c) * hq;
    WaveParts(c, shore, q, hq, y);
    WaveSquare(c, shore, q, hq, y, u);
    DriftBound(y, hq, DirX(c), DirZ(c), c.cosine, c.wave.amplitude, u, SquareNorm(Drift(c, shore)));
  }

  lemma Factors(c: Component, shore: Hydrodynamics)
    requires c.number > 0.0 && c.shallow > 0.0 && shore.depth > 0.0
    ensures NumberDerivative(c, shore.depth) == DirZ(c) * c.CrossDerivative(shore.depth)
    ensures Growth(c, shore) == c.wave.amplitude * shore.scaleDerivative * 0.72
  {
    hide DirZ, Component.CrossDerivative;
  }

  lemma HorizontalRange(c: Component, shore: Hydrodynamics)
    requires c.number > 0.0 && c.wave.amplitude >= 0.0 && c.wave.steepness >= 0.0 && shore.scale >= 0.0
    ensures 0.0 <= Horizontal(c, shore) <= 0.72 * Amplitude(c, shore)
  {
    Grow(0.0, c.wave.amplitude, shore.scale);
    Share(c.wave.steepness, c.number, SteepnessLimit(c), 0.25 * c.wave.steepness);
  }

  lemma GrowthIsWithin(amplitude: real, slope: real, grow: real, dz: real, dx: real, hq: real, y: real)
    requires 0.0 <= amplitude && Within(slope, 0.082) && grow == amplitude * slope * 0.72
    requires dx * dx + dz * dz == 1.0 && Within(hq, 0.0167 * amplitude) && (y == grow || y == -(dz * hq))
    ensures Within(y, 0.05904 * amplitude)
  {
    ProductIsWithin(amplitude, slope, amplitude, 0.082, amplitude * slope, amplitude * 0.082);
    Square(dx);
    if dz > 1.0 { Grow(1.0, dz, dz); }
    if dz < -1.0 { Grow(1.0, -dz, -dz); }
    ProductIsWithin(dz, hq, 1.0, 0.0167 * amplitude, dz * hq, 0.0167 * amplitude);
  }

  // ---------------------------------------------------------------- all waves

  /** What a drift of the seaward tangent adds to the length of a step (a, b). */
  function Shear(drift: (real, real), a: real, b: real): real { a * b * drift.0 + b * b * drift.1 }

  lemma ShearAdds(d: (real, real), e: (real, real), a: real, b: real)
    ensures Shear((d.0 + e.0, d.1 + e.1), a, b) == Shear(d, a, b) + Shear(e, a, b)
  {
    Distribute(d.0, e.0, a * b);
    Distribute(d.1, e.1, b * b);
  }

  lemma ShearIsWithin(d: (real, real), m: real, a: real, b: real)
    requires m >= 0.0 && SquareNorm(d) <= m * m
    ensures Within(Shear(d, a, b), m * (a * a + b * b))
  {
    hide Shear, SquareNorm;
    var g, s := a * d.0 + b * d.1, a * a + b * b;
    Square(a);
    ShearIsLever(d, a, b, g, s);
    Leverage(b, g, m, s, SquareNorm(d), Shear(d, a, b), m * s);
  }

  lemma ShearIsLever(d: (real, real), a: real, b: real, g: real, s: real)
    requires g == a * d.0 + b * d.1 && s == a * a + b * b
    ensures Shear(d, a, b) == b * g && g * g <= SquareNorm(d) * s
  {
    Cauchy(a, b, d.0, d.1, g, s);
  }

  lemma Leverage(b: real, g: real, m: real, s: real, n: real, y: real, x: real)
    requires b * b <= s && g * g <= n * s && n <= m * m && 0.0 <= m && y == b * g && x == m * s
    ensures Within(y, x)
  {
    var b2, g2, m2 := b * b, g * g, m * m;
    Square(b);
    Square(g);
    Grow(n, m2, s);
    Grow(b2, s, g2);
    Grow(g2, m2 * s, s);
    ProductIsPositive(m, s, x);
    Squares(b, g, m, s, y, x, b2, g2, m2);
    RootOrder(y, x);
  }

  lemma Squares(b: real, g: real, m: real, s: real, y: real, x: real, b2: real, g2: real, m2: real)
    requires y == b * g && x == m * s && b2 == b * b && g2 == g * g && m2 == m * m
    ensures y * y == b2 * g2 && x * x == m2 * s * s
  {
  }

  lemma Cauchy(a: real, b: real, x: real, z: real, g: real, s: real)
    requires g == a * x + b * z && s == a * a + b * b
    ensures g * g <= (x * x + z * z) * s
  {
    Square(a * z - b * x);
    assert (x * x + z * z) * s - g * g == (a * z - b * x) * (a * z - b * x);
  }

  lemma RootOrder(y: real, x: real)
    requires 0.0 <= x && y * y <= x * x
    ensures Within(y, x)
  {
    if y > x { Positive(y - x, y + x, (y - x) * (y + x)); }
    if y < -x { Positive(-y - x, x - y, (-y - x) * (x - y)); }
  }

  /** What a drift within the bound for this amplitude can take from a step (a, b). */
  function Allowance(amplitude: real, a: real, b: real): real { Bound(amplitude) * (a * a + b * b) }

  lemma AllowanceAdds(x: real, y: real, a: real, b: real)
    ensures Allowance(x + y, a, b) == Allowance(x, a, b) + Allowance(y, a, b)
  {
    Distribute(Bound(x), Bound(y), a * a + b * b);
  }

  /** However the waves meet, their drifts shear a step by no more than their amplitudes together allow. */
  lemma {:induction false} ShearIsShared(cs: seq<Component>, shore: Hydrodynamics, a: real, b: real)
    requires AllReal(cs, shore.depth) && Gentle(shore)
    ensures Within(Shear(TotalDrift(cs, shore), a, b), Allowance(TotalAmplitude(cs), a, b))
  {
    if cs != [] {
      hide Drift, Shear, Allowance, SquareNorm;
      var rest, last := cs[..|cs| - 1], cs[|cs| - 1];
      NumberIsPositive(last, shore.depth);
      ShearIsShared(rest, shore, a, b);
      WaveDrift(last, shore);
      WaveShear(Drift(last, shore), last.wave.amplitude, a, b);
      ShearAdds(TotalDrift(rest, shore), Drift(last, shore), a, b);
      AllowanceAdds(TotalAmplitude(rest), last.wave.amplitude, a, b);
    }
  }

  lemma WaveShear(d: (real, real), amplitude: real, a: real, b: real)
    requires amplitude >= 0.0 && SquareNorm(d) <= Bound(amplitude) * Bound(amplitude)
    ensures Within(Shear(d, a, b), Allowance(amplitude, a, b))
  {
    hide Shear, SquareNorm;
    ShearIsWithin(d, Bound(amplitude), a, b);
  }

  // ---------------------------------------------------------------- no fold

  /** How the horizontal tangents of the surface stretch a step (a, b) on the still water. */
  function Length(p: Point, a: real, b: real): real {
    a * a * p.along.x + a * b * (p.along.z + p.seaward.x) + b * b * p.seaward.z
  }

  lemma LengthIs(p: Point, drift: (real, real), a: real, b: real)
    requires p.seaward.x - drift.0 == p.along.z
    ensures Length(p, a, b) == Surface.Stretch(p, drift.1, a, b) + Shear(drift, a, b)
  {
    var u, v, w := a * a, a * b, b * b;
    Distribute(p.seaward.z - drift.1, drift.1, w);
    assert v * (p.along.z + p.seaward.x) == 2.0 * v * p.along.z + v * drift.0;
  }

  /** What is left of a step after compression and drift. */
  lemma KeepsLength(cs: seq<Component>, seaward: real, x: real, z: real, a: real, b: real, left: real)
    requires AllReal(cs, ShoreHydrodynamics(seaward).depth)
    requires left <= 1.0 - 0.25 * TotalSteepness(cs) - 0.0614 * TotalAmplitude(cs)
    ensures Length(Sampled(cs, ShoreHydrodynamics(seaward), x, z), a, b) >= left * (a * a + b * b)
  {
    hide ShoreHydrodynamics, Surface.Stretch, Shear, Length, Remaining, Allowance,
         TotalDrift, Sampled, AllReal, TotalSteepness, TotalAmplitude;
    var shore := ShoreHydrodynamics(seaward);
    ShoreIsGentle(seaward);
    var p, drift := Sampled(cs, shore, x, z), TotalDrift(cs, shore);
    CompressionIsShared(cs, shore, x, z);
    StretchIsKept(cs, shore, x, z, a, b);
    ShearIsShared(cs, shore, a, b);
    LengthIs(p, drift, a, b);
    Left(p.compression, TotalAmplitude(cs), left, a, b);
  }

  lemma Left(compression: real, amplitude: real, left: real, a: real, b: real)
    requires left <= 1.0 - compression - 0.0614 * amplitude
    ensures left * (a * a + b * b) <= Remaining(compression, a, b) - Allowance(amplitude, a, b)
  {
    Square(a);
    Square(b);
    Grow(left, 1.0 - compression - Bound(amplitude), a * a + b * b);
  }

  /** Whatever the place, the time and the distance, the geometry waves do not fold the surface:
      whichever way one steps on the still water, the surface goes on in that direction. */
  lemma CrestsDoNotFold(seaward: real, cs: seq<Component>, x: real, z: real, a: real, b: real)
    requires AreWaves(cs, GEOMETRY_WAVES) && AllReal(cs, ShoreHydrodynamics(seaward).depth)
    ensures Length(Sampled(cs, ShoreHydrodynamics(seaward), x, z), a, b) >= 0.28 * (a * a + b * b)
  {
    hide ShoreHydrodynamics, Length, Sampled, AllReal, TotalAmplitude, TotalSteepness;
    assert cs[..4] == cs;
    GeometryTotals(cs);
    KeepsLength(cs, seaward, x, z, a, b, 0.28);
  }

  /** Nor do all six waves together. */
  lemma DetailWavesDoNotFold(seaward: real, cs: seq<Component>, x: real, z: real, a: real, b: real)
    requires AreWaves(cs, OCEAN_WAVES) && AllReal(cs, ShoreHydrodynamics(seaward).depth)
    ensures Length(Sampled(cs, ShoreHydrodynamics(seaward), x, z), a, b) >= 0.055 * (a * a + b * b)
  {
    hide ShoreHydrodynamics, Length, Sampled, AllReal, TotalAmplitude, TotalSteepness;
    OceanTotals(cs);
    KeepsLength(cs, seaward, x, z, a, b, 0.055);
  }

  /** A surface that goes on in every direction also faces up: its tangents never turn around. */
  lemma FacesUp(p: Point, left: real)
    requires left > 0.0 && forall a: real, b: real :: Length(p, a, b) >= left * (a * a + b * b)
    ensures p.along.x * p.seaward.z - p.along.z * p.seaward.x > 0.0
  {
    var u, v, r := p.along.x, p.seaward.z, 0.5 * (p.along.z + p.seaward.x);
    assert Length(p, 1.0, 0.0) >= left;
    assert u > 0.0;
    assert Length(p, -r, u) >= left * (-r * -r + u * u);
    Discriminant(u, v, r, Length(p, -r, u));
    Positive(u, u, u * u);
    Square(r);
    Positive(left, r * r + u * u, left * (r * r + u * u));
    if u * v <= r * r { Grow(u * v - r * r, 0.0, u); }
    Square(p.along.z - p.seaward.x);
  }

  lemma Discriminant(u: real, v: real, r: real, length: real)
    requires length == -r * -r * u + -r * u * (2.0 * r) + u * u * v
    ensures length == (u * v - r * r) * u
  {
  }

  /** The analytic normal, the cross product of the two tangents, points up everywhere on the sea. */
  lemma NormalsPointUp(seaward: real, cs: seq<Component>, x: real, z: real)
    requires AreWaves(cs, GEOMETRY_WAVES) || AreWaves(cs, OCEAN_WAVES)
    requires AllReal(cs, ShoreHydrodynamics(seaward).depth)
    ensures var p := Sampled(cs, ShoreHydrodynamics(seaward), x, z);
            p.along.x * p.seaward.z - p.along.z * p.seaward.x > 0.0
  {
    hide ShoreHydrodynamics, Length, Sampled, AllReal, AreWaves;
    var p := Sampled(cs, ShoreHydrodynamics(seaward), x, z);
    forall a: real, b: real ensures Length(p, a, b) >= 0.055 * (a * a + b * b) {
      if AreWaves(cs, GEOMETRY_WAVES) {
        CrestsDoNotFold(seaward, cs, x, z, a, b);
        Square(a);
        Square(b);
        Grow(0.055, 0.28, a * a + b * b);
      } else {
        DetailWavesDoNotFold(seaward, cs, x, z, a, b);
      }
    }
    FacesUp(p, 0.055);
  }
}
