/**
 The seaward tangent of sampleGerstnerSurface predicts the surface over the shelving bed: depth, wave
 vector, direction, length and envelope all change under the step, each as its written derivative says.
 */
module Seaward {
  import opened Shore
  import opened Swell
  import opened Surface
  import opened Predictions
  import opened Tangents
  import opened Shelf

  type Moving = c: Component | c.number > 0.0 && c.shallow > 0.0
    witness Component(Wave(0.0, 1.0, 0.0, 0.0), 1.0, 1.0, 1.0, 0.0, 1.0)

  type Wet = s: Hydrodynamics | s.depth > 0.0 witness Hydrodynamics(1.0, 1.0, 0.0, 0.0, 0.0, 0.0)

  /** One wave at the two ends of a step `h` seaward, of length `a` and square `s`. */
  datatype Step = Step(c: Moving, c': Moving, shore: Wet, shore': Wet, h: real, a: real, s: real, turn: real)
  {
    ghost predicate Valid() {
      && c.Real(shore.depth) && c'.Real(shore'.depth) && SameWave(c, c') && a == Abs(h) && s == h * h
      && shore.depth >= MIN_WATER_DEPTH && shore'.depth >= MIN_WATER_DEPTH
      && shore'.depth - shore.depth == SHORE_SLOPE * h
      && Smooth(shore.scale, shore'.scale, ScaleStep(), a, s, SCALE)
      && AmplitudeLimited(c', shore') == AmplitudeLimited(c, shore)
      && 0.0 <= turn && Turned(c, c', c.Cross(), h, turn)
    }

    /** What the written derivatives predict. */
    function ScaleStep(): real { shore.scaleDerivative * h }

    function CrossStep(): real { c.CrossDerivative(shore.depth) * h }

    function NumberStep(): real { NumberDerivative(c, shore.depth) * h }

    function InverseStep(): real { -(NumberStep() * (Reciprocal(c) * Reciprocal(c))) }

    function DirXStep(): real { Shrinks(DirX(c), NumberDerivative(c, shore.depth), c.number) * h }

    function DirZStep(): real {
      TurnsAcross(c.CrossDerivative(shore.depth), DirZ(c), NumberDerivative(c, shore.depth), c.number) * h
    }

    function AmplitudeStep(): real { AmplitudeDerivative(c, shore) * h }

    function HorizontalStep(): real { HorizontalDerivative() * h }

    function HorizontalDerivative(): real {
      if Limited() then Growth(c, shore)
      else Shrinks(Horizontal(c, shore), NumberDerivative(c, shore.depth), c.number)
    }

    predicate Limited() { AmplitudeLimited(c, shore) }
  }

  function Reciprocal(c: Moving): real { 1.0 / c.number }

  lemma ValidParts(t: Step)
    requires t.Valid()
    ensures t.c.Real(t.shore.depth) && t.c'.Real(t.shore'.depth) && SameWave(t.c, t.c')
    ensures t.shore.depth >= MIN_WATER_DEPTH && t.shore'.depth >= MIN_WATER_DEPTH
    ensures t.shore'.depth - t.shore.depth == SHORE_SLOPE * t.h && t.a == Abs(t.h) && t.s == t.h * t.h
    ensures AmplitudeLimited(t.c', t.shore') == t.Limited()
    ensures 0.0 <= t.turn && Turned(t.c, t.c', t.c.Cross(), t.h, t.turn)
  {
    hide Component.Real, SameWave, Abs, Smooth, AmplitudeLimited, Turned;
  }

  lemma StepLength(t: Step)
    requires t.Valid()
    ensures 0.0 <= t.a && t.s == t.a * t.a
  {
    hide *;
    ValidParts(t);
    Lengths(t.a, t.h, t.s);
  }

  // ---------------------------------------------------------------- the wave number

  /** Nowhere on the beach is one over the wave number larger. */
  function Longest(c: Component): real { 4.0 / Offshore(c) }

  function NumberBounds(c: Component): Bounds { LengthBounds(c.Along(), CrossBounds(c), Longest(c)) }

  function InverseBounds(c: Component): Bounds { ReciprocalBounds(NumberBounds(c), Longest(c)) }

  lemma NumberIsLong(c: Moving, depth: real)
    requires c.Real(depth) && depth >= MIN_WATER_DEPTH
    ensures Longest(c) > 0.0 && 1.0 <= c.number * Longest(c)
  {
    hide OffshoreCross, Component.Cross, Component.Along;
    assert 0.25 * Offshore(c) <= c.number by {
      CrossRange(c, depth);
      LegIsShorter(c.Along(), c.Cross(), c.number);
    }
    LongEnough(Offshore(c), c.number, Longest(c));
  }

  lemma LongEnough(offshore: real, n: real, longest: real)
    requires offshore > 0.0 && 0.25 * offshore <= n && longest == 4.0 / offshore
    ensures longest > 0.0 && 1.0 <= n * longest
  {
    assert longest * offshore == 4.0;
    if longest <= 0.0 { Grow(longest, 0.0, offshore); }
    Grow(0.25 * offshore, n, longest);
  }

  lemma SameSide(t: Step)
    requires t.Valid()
    ensures t.c.Cross() * t.c'.Cross() >= 0.0
  {
    hide PhaseBlend, OffshoreCross, CrossNumber, Component.Cross, AmplitudeLimited, Turned;
    CrossRange(t.c, t.shore.depth);
    CrossRange(t.c', t.shore'.depth);
    SameSigns(Abs(t.c.Cross()), Abs(t.c'.Cross()), t.c.Sign(), t.c.Cross(), t.c'.Cross());
  }

  lemma SameSigns(x: real, y: real, sign: real, p: real, q: real)
    requires 0.0 <= x && 0.0 <= y && (sign == 1.0 || sign == -1.0) && p == x * sign && q == y * sign
    ensures p * q >= 0.0
  {
    Grow(0.0, x, y);
    if sign == 1.0 { assert p == x && q == y; } else { assert p == -x && q == -y; }
  }

  lemma Legs(t: Step)
    requires t.Valid()
    ensures var c, c' := t.c, t.c';
            && c'.Along() == c.Along() && Longest(c') == Longest(c)
            && c.number * c.number == c.Along() * c.Along() + c.Cross() * c.Cross()
            && c'.number * c'.number == c.Along() * c.Along() + c'.Cross() * c'.Cross()
            && DirX(c) * c.number == c.Along() && DirZ(c) * c.number == c.Cross()
  {
    hide Component.Cross, AmplitudeLimited, Turned;
    Directions(t.c);
  }

  lemma CrossFollows(t: Step)
    requires t.Valid()
    ensures Smooth(t.c.Cross(), t.c'.Cross(), t.CrossStep(), t.a, t.s, CrossBounds(t.c))
  {
    hide Smooth, Component.Real, CrossBounds, AmplitudeLimited, Turned, Component.Cross, Component.CrossDerivative;
    ValidParts(t);
    CrossIsSmooth(t.c, t.c', t.shore.depth, t.shore'.depth, t.h, t.a, t.s, t.CrossStep());
  }

  lemma NumberStepIs(t: Step)
    ensures t.NumberStep() == DirZ(t.c) * t.CrossStep()
    ensures NumberBounds(t.c) == LengthBounds(t.c.Along(), CrossBounds(t.c), Longest(t.c))
    ensures InverseBounds(t.c) == ReciprocalBounds(NumberBounds(t.c), Longest(t.c))
  {
    hide DirZ, Component.CrossDerivative, LengthBounds, ReciprocalBounds, CrossBounds, Longest;
  }

  lemma NumberIsSmooth(t: Step)
    requires t.Valid()
    ensures Smooth(t.c.number, t.c'.number, t.NumberStep(), t.a, t.s, NumberBounds(t.c))
  {
    hide *;
    ValidParts(t);
    StepLength(t);
    SameSide(t);
    Legs(t);
    NumberIsLong(t.c, t.shore.depth);
    CrossFollows(t);
    NumberStepIs(t);
    LengthIsSmooth(t.c.Along(), t.c.Cross(), t.c'.Cross(), t.CrossStep(), t.c.number, t.c'.number, t.NumberStep(),
                   t.a, t.s, CrossBounds(t.c), DirZ(t.c), Longest(t.c), NumberBounds(t.c));
  }

  lemma InverseIs(c: Moving)
    ensures Reciprocal(c) * c.number == 1.0
  {
  }

  lemma InverseStepIs(t: Step)
    ensures t.InverseStep() == -(t.NumberStep() * (Reciprocal(t.c) * Reciprocal(t.c)))
  {
  }

  lemma InverseIsSmooth(t: Step)
    requires t.Valid()
    ensures Smooth(Reciprocal(t.c), Reciprocal(t.c'), t.InverseStep(), t.a, t.s, InverseBounds(t.c))
  {
    hide *;
    ValidParts(t);
    StepLength(t);
    Legs(t);
    NumberIsLong(t.c, t.shore.depth);
    NumberIsLong(t.c', t.shore'.depth);
    NumberIsSmooth(t);
    NumberStepIs(t);
    InverseIs(t.c);
    InverseIs(t.c');
    InverseStepIs(t);
    ReciprocalIsSmooth(t.c.number, t.c'.number, t.NumberStep(), Reciprocal(t.c), Reciprocal(t.c'), t.InverseStep(),
                       t.a, t.s, NumberBounds(t.c), Longest(t.c), InverseBounds(t.c));
  }

  // ---------------------------------------------------------------- direction

  function Constant(x: real): Bounds { Bounds(Abs(x), 0.0, 0.0) }

  function DirXBounds(c: Component): Bounds { Times(Constant(c.Along()), InverseBounds(c)) }

  function DirZBounds(c: Component): Bounds { Times(CrossBounds(c), InverseBounds(c)) }

  lemma TimesConstant(k: real, g0: real, g1: real, g': real, p0: real, p1: real, p': real, a: real, s: real,
                      d: Bounds, bd: Bounds)
    requires p0 == k * g0 && p1 == k * g1 && p' == k * g' && s == a * a && bd == Times(Constant(k), d)
    requires Smooth(g0, g1, g', a, s, d)
    ensures Smooth(p0, p1, p', a, s, bd)
  {
    hide Smooth, Times;
    ConstantIsSmooth(k, a, s);
    ProductIsSmooth(k, k, 0.0, g0, g1, g', p0, p1, p', a, s, Constant(k), d, bd);
  }

  lemma Divided(x: real, n: real, i: real)
    requires n > 0.0 && i * n == 1.0
    ensures x / n == x * i
  {
    var q := x / n;
    assert q * n == x && x * i * n == x;
    Cancel(q, x * i, n, x, x);
    Cancel(x * i, q, n, x, x);
  }

  lemma DirectionsAre(c: Moving)
    ensures DirX(c) == c.Along() * Reciprocal(c) && DirZ(c) == c.Cross() * Reciprocal(c)
    ensures DirXBounds(c) == Times(Constant(c.Along()), InverseBounds(c))
    ensures DirZBounds(c) == Times(CrossBounds(c), InverseBounds(c))
  {
    hide Component.Along, Component.Cross, Times, CrossBounds, InverseBounds;
    InverseIs(c);
    hide Reciprocal;
    Divided(c.Along(), c.number, Reciprocal(c));
    Divided(c.Cross(), c.number, Reciprocal(c));
  }

  lemma ScaledSlope(k: real, i: real, nD: real, x: real, h: real, xD: real)
    requires x == k * i && xD == -x * nD * i
    ensures xD * h == k * -(nD * h * (i * i))
  {
  }

  lemma TurnedSlope(k: real, i: real, nD: real, z: real, h: real, cd: real, zD: real)
    requires z == k * i && zD == (cd - z * nD) * i
    ensures zD * h == cd * h * i + k * -(nD * h * (i * i))
  {
  }

  lemma DirXStepIs(t: Step)
    ensures t.DirXStep() == t.c.Along() * t.InverseStep()
  {
    InverseIs(t.c);
    DirectionsAre(t.c);
    hide DirX, DirZ, NumberDerivative, Reciprocal, Component.Along, Component.Cross, Times;
    var nD, i, x := NumberDerivative(t.c, t.shore.depth), Reciprocal(t.c), DirX(t.c);
    Divided(-x * nD, t.c.number, i);
    ScaledSlope(t.c.Along(), i, nD, x, t.h, -x * nD * i);
  }

  lemma DirZStepIs(t: Step)
    ensures t.DirZStep() == t.CrossStep() * Reciprocal(t.c) + t.c.Cross() * t.InverseStep()
  {
    InverseIs(t.c);
    DirectionsAre(t.c);
    hide DirX, DirZ, NumberDerivative, Reciprocal, Component.Along, Component.Cross, Component.CrossDerivative, Times;
    var nD, i, z, cd := NumberDerivative(t.c, t.shore.depth), Reciprocal(t.c), DirZ(t.c), t.c.CrossDerivative(t.shore.depth);
    Divided(cd - z * nD, t.c.number, i);
    TurnedSlope(t.c.Cross(), i, nD, z, t.h, cd, (cd - z * nD) * i);
  }

  lemma DirXIsSmooth(t: Step)
    requires t.Valid()
    ensures Smooth(DirX(t.c), DirX(t.c'), t.DirXStep(), t.a, t.s, DirXBounds(t.c))
  {
    hide *;
    StepLength(t);
    InverseIsSmooth(t);
    Legs(t);
    DirectionsAre(t.c);
    DirectionsAre(t.c');
    DirXStepIs(t);
    SameFactor(t.c'.Along(), t.c.Along(), Reciprocal(t.c'), DirX(t.c'));
    TimesConstant(t.c.Along(), Reciprocal(t.c), Reciprocal(t.c'), t.InverseStep(), DirX(t.c), DirX(t.c'), t.DirXStep(),
                  t.a, t.s, InverseBounds(t.c), DirXBounds(t.c));
  }

  lemma SameFactor(k': real, k: real, x: real, p: real)
    requires k' == k && p == k' * x
    ensures p == k * x
  {
  }

  lemma DirZIsSmooth(t: Step)
    requires t.Valid()
    ensures Smooth(DirZ(t.c), DirZ(t.c'), t.DirZStep(), t.a, t.s, DirZBounds(t.c))
  {
    hide *;
    StepLength(t);
    InverseIsSmooth(t);
    CrossFollows(t);
    DirectionsAre(t.c);
    DirectionsAre(t.c');
    DirZStepIs(t);
    ProductIsSmooth(t.c.Cross(), t.c'.Cross(), t.CrossStep(), Reciprocal(t.c), Reciprocal(t.c'), t.InverseStep(),
                    DirZ(t.c), DirZ(t.c'), t.DirZStep(), t.a, t.s, CrossBounds(t.c), InverseBounds(t.c), DirZBounds(t.c));
  }

  // ---------------------------------------------------------------- amplitude and length

  function AmplitudeBounds(c: Component): Bounds { Times(Constant(c.wave.amplitude), SCALE) }

  function HorizontalBounds(c: Component, limited: bool): Bounds {
    if limited then Times(Constant(0.72), AmplitudeBounds(c))
    else Times(Constant(0.25 * c.wave.steepness), InverseBounds(c))
  }

  lemma AmplitudeIsSmooth(t: Step)
    requires t.Valid()
    ensures Smooth(Amplitude(t.c, t.shore), Amplitude(t.c', t.shore'), t.AmplitudeStep(), t.a, t.s, AmplitudeBounds(t.c))
  {
    hide Smooth, Times, Constant, Component.Real, AmplitudeLimited, Turned;
    StepLength(t);
    TimesConstant(t.c.wave.amplitude, t.shore.scale, t.shore'.scale, t.ScaleStep(),
                  Amplitude(t.c, t.shore), Amplitude(t.c', t.shore'), t.AmplitudeStep(), t.a, t.s, SCALE,
                  AmplitudeBounds(t.c));
  }

  lemma ByAmplitude(c: Moving, shore: Hydrodynamics)
    requires AmplitudeLimited(c, shore)
    ensures Horizontal(c, shore) == 0.72 * Amplitude(c, shore)
    ensures HorizontalBounds(c, true) == Times(Constant(0.72), AmplitudeBounds(c))
  {
  }

  lemma BySteepness(c: Moving, shore: Hydrodynamics, k: real)
    requires !AmplitudeLimited(c, shore) && k == 0.25 * c.wave.steepness
    ensures Horizontal(c, shore) == k * Reciprocal(c)
    ensures HorizontalBounds(c, false) == Times(Constant(k), InverseBounds(c))
  {
    InverseIs(c);
    hide Reciprocal, Amplitude;
    LimitIs(c, Reciprocal(c));
  }

  lemma LimitIs(c: Moving, i: real)
    requires i * c.number == 1.0
    ensures SteepnessLimit(c) == 0.25 * c.wave.steepness * i
  {
    var m := c.number * WAVE_COUNT;
    assert 0.25 * i * m == 1.0;
    Divided(c.wave.steepness, m, 0.25 * i);
  }

  lemma GrownSlope(a: real, h: real)
    ensures a * 0.72 * h == 0.72 * (a * h)
  {
  }

  lemma HorizontalStepIs(t: Step, k: real)
    requires k == 0.25 * t.c.wave.steepness
    ensures t.HorizontalStep() == if t.Limited() then 0.72 * t.AmplitudeStep() else k * t.InverseStep()
  {
    if t.Limited() { GrowingStepIs(t); } else { ShrinkingStepIs(t, k); }
    hide *;
  }

  lemma GrowingStepIs(t: Step)
    requires t.Limited()
    ensures t.HorizontalStep() == 0.72 * t.AmplitudeStep()
  {
    hide AmplitudeLimited, AmplitudeDerivative, Shrinks;
    GrownSlope(AmplitudeDerivative(t.c, t.shore), t.h);
  }

  lemma ShrinkingStepIs(t: Step, k: real)
    requires !t.Limited() && k == 0.25 * t.c.wave.steepness
    ensures t.HorizontalStep() == k * t.InverseStep()
  {
    BySteepness(t.c, t.shore, k);
    ShrinksBy(t.c, NumberDerivative(t.c, t.shore.depth), Horizontal(t.c, t.shore), t.h, k);
    hide NumberDerivative, Reciprocal, Horizontal, AmplitudeLimited, HorizontalBounds, Shrinks, Growth;
  }

  lemma ShrinksBy(c: Moving, nD: real, x: real, h: real, k: real)
    requires x == k * Reciprocal(c)
    ensures Shrinks(x, nD, c.number) * h == k * -(nD * h * (Reciprocal(c) * Reciprocal(c)))
  {
    InverseIs(c);
    hide Reciprocal;
    Divided(-x * nD, c.number, Reciprocal(c));
    ScaledSlope(k, Reciprocal(c), nD, x, h, -x * nD * Reciprocal(c));
  }

  lemma HorizontalIsSmooth(t: Step)
    requires t.Valid()
    ensures Smooth(Horizontal(t.c, t.shore), Horizontal(t.c', t.shore'), t.HorizontalStep(), t.a, t.s,
                   HorizontalBounds(t.c, t.Limited()))
  {
    hide *;
    ValidParts(t);
    StepLength(t);
    SameSteepness(t.c, t.c');
    var k := 0.25 * t.c.wave.steepness;
    HorizontalStepIs(t, k);
    LimitedIs(t);
    if t.Limited() {
      AmplitudeIsSmooth(t);
      ByAmplitude(t.c, t.shore);
      ByAmplitude(t.c', t.shore');
      TimesConstant(0.72, Amplitude(t.c, t.shore), Amplitude(t.c', t.shore'), t.AmplitudeStep(), Horizontal(t.c, t.shore),
                    Horizontal(t.c', t.shore'), t.HorizontalStep(), t.a, t.s, AmplitudeBounds(t.c),
                    HorizontalBounds(t.c, true));
    } else {
      InverseIsSmooth(t);
      BySteepness(t.c, t.shore, k);
      BySteepness(t.c', t.shore', k);
      TimesConstant(k, Reciprocal(t.c), Reciprocal(t.c'), t.InverseStep(), Horizontal(t.c, t.shore),
                    Horizontal(t.c', t.shore'), t.HorizontalStep(), t.a, t.s, InverseBounds(t.c),
                    HorizontalBounds(t.c, false));
    }
  }

  lemma SameSteepness(c: Component, c': Component)
    requires SameWave(c, c')
    ensures c'.wave.steepness == c.wave.steepness
  {
  }

  lemma LimitedIs(t: Step)
    ensures t.Limited() == AmplitudeLimited(t.c, t.shore)
  {
  }

  // ---------------------------------------------------------------- the phase

  function TurnBounds(c: Component, turn: real): Bounds { Steady(1.0, Reach(c), turn) }

  lemma PhaseIsSmooth(t: Step)
    requires t.Valid()
    ensures Smooth(t.c.sine, t.c'.sine, Rise(t.c, t.c.Cross(), t.h), t.a, t.s, TurnBounds(t.c, t.turn))
    ensures Smooth(t.c.cosine, t.c'.cosine, Fall(t.c, t.c.Cross(), t.h), t.a, t.s, TurnBounds(t.c, t.turn))
  {
    hide *;
    ValidParts(t);
    StepLength(t);
    var k, reach := t.c.Cross(), Reach(t.c);
    assert Within(k, reach) by { CrossRange(t.c, t.shore.depth); }
    ReachOf(t.c, t.c', t.shore.depth, t.shore'.depth);
    Bounded(t.c, t.shore.depth);
    Bounded(t.c', t.shore'.depth);
    PhaseSlopes(t.c, k, reach, t.h, t.a);
    PhaseErrors(t.c, t.c', k, t.h, t.s, t.turn);
    assert TurnBounds(t.c, t.turn) == Steady(1.0, reach, t.turn) by { TurnBoundsAre(t.c, t.turn); }
    SlopeBoundsChange(t.c.sine, t.c'.sine, Rise(t.c, k, t.h), t.a, t.s, 1.0, reach, t.turn);
    SlopeBoundsChange(t.c.cosine, t.c'.cosine, Fall(t.c, k, t.h), t.a, t.s, 1.0, reach, t.turn);
  }

  lemma Bounded(c: Component, depth: real)
    requires c.Real(depth)
    ensures Within(c.sine, 1.0) && Within(c.cosine, 1.0)
  {
    hide Component.Along, Component.Cross;
  }

  lemma TurnBoundsAre(c: Component, turn: real)
    ensures TurnBounds(c, turn) == Steady(1.0, Reach(c), turn)
  {
  }

  lemma PhaseErrors(c: Component, c': Component, k: real, h: real, s: real, turn: real)
    requires s == h * h && Turned(c, c', k, h, turn)
    ensures Within(c'.sine - c.sine - Rise(c, k, h), Scaled(turn, s))
    ensures Within(c'.cosine - c.cosine - Fall(c, k, h), Scaled(turn, s))
  {
    hide Rise, Fall;
  }

  lemma PhaseSlopes(c: Component, k: real, reach: real, h: real, a: real)
    requires Within(c.sine, 1.0) && Within(c.cosine, 1.0) && Within(k, reach) && a == Abs(h)
    ensures Within(Rise(c, k, h), Scaled(reach, a)) && Within(Fall(c, k, h), Scaled(reach, a))
  {
    assert Within(-c.sine, 1.0);
    hide Scaled, Within;
    PhaseSlope(c.cosine, k, reach, h, a, Rise(c, k, h));
    PhaseSlope(-c.sine, k, reach, h, a, Fall(c, k, h));
  }

  lemma PhaseSlope(x: real, k: real, reach: real, h: real, a: real, p: real)
    requires Within(x, 1.0) && Within(k, reach) && a == Abs(h) && p == x * k * h
    ensures Within(p, Scaled(reach, a))
  {
    ProductIsWithin(x, k, 1.0, reach, x * k, reach);
    ProductIsWithin(x * k, h, reach, a, p, reach * a);
  }

  // ---------------------------------------------------------------- one wave

  /** What the prediction of one wave can err by, per squared step: it depends on the wave alone, and on
      which of the two rules its length follows. */
  function WaveErrors(c: Component, limited: bool, turn: real): Tangent {
    Tangent(Times(Times(DirXBounds(c), HorizontalBounds(c, limited)), TurnBounds(c, turn)).error,
            Times(Times(DirZBounds(c), HorizontalBounds(c, limited)), TurnBounds(c, turn)).error,
            Times(AmplitudeBounds(c), TurnBounds(c, turn)).error)
  }

  /** A direction times a length times the cosine, with the slope the product rule gives. */
  lemma DisplacementIsForetold(d0: real, d1: real, d': real, l0: real, l1: real, l': real, f0: real, f1: real, f': real,
                               q0: real, q1: real, t: real, h: real, a: real, s: real,
                               b: Bounds, l: Bounds, f: Bounds)
    requires Smooth(d0, d1, d', a, s, b) && Smooth(l0, l1, l', a, s, l) && Smooth(f0, f1, f', a, s, f)
    requires q0 == d0 * l0 * f0 && q1 == d1 * l1 * f1 && s == h * h && s == a * a
    requires t * h == (d' * l0 + d0 * l') * f0 + d0 * l0 * f'
    ensures Foretold(q0, q1, t, h, Times(Times(b, l), f).error)
  {
    hide Smooth, Times, Foretold;
    var m0, m1, m' := d0 * l0, d1 * l1, d' * l0 + d0 * l';
    var bl, blf := Times(b, l), Times(Times(b, l), f);
    ProductIsSmooth(d0, d1, d', l0, l1, l', m0, m1, m', a, s, b, l, bl);
    ProductIsSmooth(m0, m1, m', f0, f1, f', q0, q1, t * h, a, s, bl, f, blf);
    Told(q0, q1, t, h, a, s, blf, t * h);
  }

  lemma Told(before: real, after: real, t: real, h: real, a: real, s: real, b: Bounds, p: real)
    requires p == t * h && s == h * h && Smooth(before, after, p, a, s, b)
    ensures Foretold(before, after, t, h, b.error)
  {
  }

  /** What one wave moves a point by. */
  lemma Moved(c: Moving, shore: Wet)
    ensures var q, l := Contribution(c, shore), Horizontal(c, shore);
            && q.x == DirX(c) * l * c.cosine && q.z == DirZ(c) * l * c.cosine && q.height == Amplitude(c, shore) * c.sine
  {
    hide DirX, DirZ, Horizontal, Amplitude, Component.Along, Component.Cross, Drift, Squeeze, Push;
  }

  /** And its part of the seaward tangent. */
  lemma SeawardIs(t: Step)
    ensures var q, l, lD, k := Contribution(t.c, t.shore).seaward, Horizontal(t.c, t.shore), t.HorizontalDerivative(),
                               t.c.Cross();
            var n, nD := t.c.number, NumberDerivative(t.c, t.shore.depth);
            var x, z, cosine, sine := DirX(t.c), DirZ(t.c), t.c.cosine, t.c.sine;
            && q.x == (Shrinks(x, nD, n) * l + x * lD) * cosine - x * (l * sine) * k
            && q.z == (TurnsAcross(t.c.CrossDerivative(t.shore.depth), z, nD, n) * l + z * lD) * cosine - z * (l * sine) * k
            && q.height == AmplitudeDerivative(t.c, t.shore) * sine + Amplitude(t.c, t.shore) * cosine * k
  {
    hide DirX, DirZ, Horizontal, Component.Along, Component.Cross, Component.CrossDerivative, Squeeze, AmplitudeDerivative,
         Amplitude, NumberDerivative, Shrinks, TurnsAcross, Growth, AmplitudeLimited;
  }

  lemma Carried(dD: real, l: real, d: real, lD: real, cosine: real, sine: real, k: real, h: real, t: real,
                d': real, l': real, fall: real)
    requires t == (dD * l + d * lD) * cosine - d * (l * sine) * k
    requires d' == dD * h && l' == lD * h && fall == -(sine * k * h)
    ensures t * h == (d' * l + d * l') * cosine + d * l * fall
  {
  }

  lemma Raised(aD: real, sine: real, a: real, cosine: real, k: real, h: real, t: real, a': real, rise: real)
    requires t == aD * sine + a * cosine * k && a' == aD * h && rise == cosine * k * h
    ensures t * h == a' * sine + a * rise
  {
  }

  lemma StepsAre(t: Step)
    ensures var k, nD := t.c.Cross(), NumberDerivative(t.c, t.shore.depth);
            && Fall(t.c, k, t.h) == -(t.c.sine * k * t.h) && Rise(t.c, k, t.h) == t.c.cosine * k * t.h
            && t.HorizontalStep() == t.HorizontalDerivative() * t.h
            && t.DirXStep() == Shrinks(DirX(t.c), nD, t.c.number) * t.h
            && t.DirZStep() == TurnsAcross(t.c.CrossDerivative(t.shore.depth), DirZ(t.c), nD, t.c.number) * t.h
            && t.AmplitudeStep() == AmplitudeDerivative(t.c, t.shore) * t.h
  {
    hide Component.Cross, NumberDerivative, Step.HorizontalDerivative, Shrinks, TurnsAcross, AmplitudeDerivative;
  }

  lemma XIsForetold(t: Step)
    requires t.Valid()
    ensures Foretold(Contribution(t.c, t.shore).x, Contribution(t.c', t.shore').x, Contribution(t.c, t.shore).seaward.x,
                     t.h, Times(Times(DirXBounds(t.c), HorizontalBounds(t.c, t.Limited())), TurnBounds(t.c, t.turn)).error)
  {
    hide *;
    ValidParts(t);
    StepLength(t);
    DirXIsSmooth(t);
    HorizontalIsSmooth(t);
    PhaseIsSmooth(t);
    Moved(t.c, t.shore);
    Moved(t.c', t.shore');
    SeawardIs(t);
    StepsAre(t);
    var q, q', l, fall := Contribution(t.c, t.shore), Contribution(t.c', t.shore'), Horizontal(t.c, t.shore),
                          Fall(t.c, t.c.Cross(), t.h);
    Carried(Shrinks(DirX(t.c), NumberDerivative(t.c, t.shore.depth), t.c.number), l, DirX(t.c), t.HorizontalDerivative(),
            t.c.cosine, t.c.sine, t.c.Cross(), t.h, q.seaward.x, t.DirXStep(), t.HorizontalStep(), fall);
    DisplacementIsForetold(DirX(t.c), DirX(t.c'), t.DirXStep(), l, Horizontal(t.c', t.shore'), t.HorizontalStep(),
                           t.c.cosine, t.c'.cosine, fall, q.x, q'.x, q.seaward.x, t.h, t.a, t.s,
                           DirXBounds(t.c), HorizontalBounds(t.c, t.Limited()), TurnBounds(t.c, t.turn));
  }

  lemma ZIsForetold(t: Step)
    requires t.Valid()
    ensures Foretold(Contribution(t.c, t.shore).z, Contribution(t.c', t.shore').z, Contribution(t.c, t.shore).seaward.z,
                     t.h, Times(Times(DirZBounds(t.c), HorizontalBounds(t.c, t.Limited())), TurnBounds(t.c, t.turn)).error)
  {
    hide *;
    ValidParts(t);
    StepLength(t);
    DirZIsSmooth(t);
    HorizontalIsSmooth(t);
    PhaseIsSmooth(t);
    Moved(t.c, t.shore);
    Moved(t.c', t.shore');
    SeawardIs(t);
    StepsAre(t);
    var q, q', l, fall := Contribution(t.c, t.shore), Contribution(t.c', t.shore'), Horizontal(t.c, t.shore),
                          Fall(t.c, t.c.Cross(), t.h);
    Carried(TurnsAcross(t.c.CrossDerivative(t.shore.depth), DirZ(t.c), NumberDerivative(t.c, t.shore.depth), t.c.number),
            l, DirZ(t.c), t.HorizontalDerivative(), t.c.cosine, t.c.sine, t.c.Cross(), t.h, q.seaward.z,
            t.DirZStep(), t.HorizontalStep(), fall);
    DisplacementIsForetold(DirZ(t.c), DirZ(t.c'), t.DirZStep(), l, Horizontal(t.c', t.shore'), t.HorizontalStep(),
                           t.c.cosine, t.c'.cosine, fall, q.z, q'.z, q.seaward.z, t.h, t.a, t.s,
                           DirZBounds(t.c), HorizontalBounds(t.c, t.Limited()), TurnBounds(t.c, t.turn));
  }

  lemma HeightIsForetold(t: Step)
    requires t.Valid()
    ensures Foretold(Contribution(t.c, t.shore).height, Contribution(t.c', t.shore').height,
                     Contribution(t.c, t.shore).seaward.height, t.h,
                     Times(AmplitudeBounds(t.c), TurnBounds(t.c, t.turn)).error)
  {
    hide *;
    ValidParts(t);
    StepLength(t);
    AmplitudeIsSmooth(t);
    PhaseIsSmooth(t);
    Moved(t.c, t.shore);
    Moved(t.c', t.shore');
    SeawardIs(t);
    StepsAre(t);
    var q, q', rise, b := Contribution(t.c, t.shore), Contribution(t.c', t.shore'), Rise(t.c, t.c.Cross(), t.h),
                          Times(AmplitudeBounds(t.c), TurnBounds(t.c, t.turn));
    Raised(AmplitudeDerivative(t.c, t.shore), t.c.sine, Amplitude(t.c, t.shore), t.c.cosine, t.c.Cross(), t.h,
           q.seaward.height, t.AmplitudeStep(), rise);
    var p := q.seaward.height * t.h;
    ProductIsSmooth(Amplitude(t.c, t.shore), Amplitude(t.c', t.shore'), t.AmplitudeStep(), t.c.sine, t.c'.sine, rise,
                    q.height, q'.height, p, t.a, t.s, AmplitudeBounds(t.c), TurnBounds(t.c, t.turn), b);
    Told(q.height, q'.height, q.seaward.height, t.h, t.a, t.s, b, p);
  }

  lemma SeawardWave(t: Step)
    requires t.Valid()
    ensures Predicted(Contribution(t.c, t.shore), Contribution(t.c', t.shore'), Contribution(t.c, t.shore).seaward, t.h,
                      WaveErrors(t.c, t.Limited(), t.turn))
  {
    hide Contribution, Foretold, Step.Valid, Step.Limited, Times, TurnBounds, AmplitudeBounds, HorizontalBounds,
         DirXBounds, DirZBounds;
    XIsForetold(t);
    ZIsForetold(t);
    HeightIsForetold(t);
  }

  // ---------------------------------------------------------------- the whole surface

  /** The waves of a second sample, a step seaward. No wave passes from the rule of its amplitude to the
      rule of its steepness or back. */
  ghost predicate Follow(cs: seq<Component>, cs': seq<Component>, shore: Hydrodynamics, shore': Hydrodynamics,
                         h: real, turn: real)
    requires AllReal(cs, shore.depth) && AllReal(cs', shore'.depth)
  {
    |cs'| == |cs| && forall i :: 0 <= i < |cs| ==> StaysWith(cs[i], cs'[i], shore, shore', h, turn)
  }

  ghost predicate StaysWith(c: Component, c': Component, shore: Hydrodynamics, shore': Hydrodynamics, h: real, turn: real)
    requires c.Real(shore.depth) && c'.Real(shore'.depth)
  {
    NumberIsPositive(c, shore.depth);
    NumberIsPositive(c', shore'.depth);
    && SameWave(c, c') && Turned(c, c', c.Cross(), h, turn)
    && AmplitudeLimited(c', shore') == AmplitudeLimited(c, shore)
  }

  /** What the prediction can err by in all, per squared step: it depends on the waves, not on the step. */
  ghost function SeawardError(cs: seq<Component>, shore: Hydrodynamics, turn: real): Tangent
    requires AllReal(cs, shore.depth)
  {
    if cs == [] then Evenly(0.0)
    else
      var last := cs[|cs| - 1];
      NumberIsPositive(last, shore.depth);
      Add(SeawardError(cs[..|cs| - 1], shore, turn), WaveErrors(last, AmplitudeLimited(last, shore), turn))
  }

  lemma IsReal(c: Component, depth: real)
    requires c.Real(depth)
    ensures c.shallow > 0.0 && depth > 0.0 && c.number > 0.0
  {
    NumberIsPositive(c, depth);
    hide Component.Along, Component.Cross;
  }

  lemma LastWave(c: Component, c': Component, d: real, h: real, turn: real)
    requires 0.0 <= d && 0.0 <= d + h && KeepsLimit(d, h) && 0.0 <= turn
    requires c.Real(ShoreHydrodynamics(d).depth) && c'.Real(ShoreHydrodynamics(d + h).depth)
    requires StaysWith(c, c', ShoreHydrodynamics(d), ShoreHydrodynamics(d + h), h, turn)
    ensures c.number > 0.0 && c'.number > 0.0 && c.shallow > 0.0 && c'.shallow > 0.0
    ensures ShoreHydrodynamics(d).depth > 0.0 && ShoreHydrodynamics(d + h).depth > 0.0
    ensures Step(c, c', ShoreHydrodynamics(d), ShoreHydrodynamics(d + h), h, Abs(h), h * h, turn).Valid()
  {
    hide ShoreHydrodynamics, Smooth, AmplitudeLimited, Turned, KeepsLimit, Component.Real, Abs;
    var shore, shore' := ShoreHydrodynamics(d), ShoreHydrodynamics(d + h);
    IsReal(c, shore.depth);
    IsReal(c', shore'.depth);
    BedFalls(d, h);
    var t := Step(c, c', shore, shore', h, Abs(h), h * h, turn);
    ScaleStepIs(t, shore.scaleDerivative, h);
    ScaleIsSmooth(d, h, Abs(h), h * h, t.ScaleStep());
  }

  lemma ScaleStepIs(t: Step, slope: real, h: real)
    requires t.shore.scaleDerivative == slope && t.h == h
    ensures t.ScaleStep() == slope * h
  {
  }

  /** The seaward tangent is one: a step `h` seaward changes every coordinate of the surface by `h` times
      the tangent's, up to a multiple of h * h, wherever the step stays in the water and switches no
      limiter. */
  lemma {:induction false} SeawardTangentPredicts(cs: seq<Component>, cs': seq<Component>, d: real,
                                                  x: real, z: real, h: real, turn: real)
    requires 0.0 <= d && 0.0 <= d + h && KeepsLimit(d, h) && 0.0 <= turn
    requires AllReal(cs, ShoreHydrodynamics(d).depth) && AllReal(cs', ShoreHydrodynamics(d + h).depth)
    requires Follow(cs, cs', ShoreHydrodynamics(d), ShoreHydrodynamics(d + h), h, turn)
    ensures var shore, shore' := ShoreHydrodynamics(d), ShoreHydrodynamics(d + h);
            var p, q := Sampled(cs, shore, x, z), Sampled(cs', shore', x, z + h);
            Predicted(p, q, p.seaward, h, SeawardError(cs, shore, turn))
  {
    if cs == [] {
      Origin(x, z, h);
    } else {
      hide Contribution, Predicted, ShoreHydrodynamics, KeepsLimit, StaysWith, Step.Valid, WaveErrors, AmplitudeLimited;
      var shore, shore' := ShoreHydrodynamics(d), ShoreHydrodynamics(d + h);
      var rest, rest', last, last' := cs[..|cs| - 1], cs'[..|cs| - 1], cs[|cs| - 1], cs'[|cs| - 1];
      SampledStep(cs, shore, x, z);
      SampledStep(cs', shore', x, z + h);
      SeawardTangentPredicts(rest, rest', d, x, z, h, turn);
      LastWave(last, last', d, h, turn);
      SeawardWave(Step(last, last', shore, shore', h, Abs(h), h * h, turn));
      var p, q := Sampled(rest, shore, x, z), Sampled(rest', shore', x, z + h);
      var c, c' := Contribution(last, shore), Contribution(last', shore');
      PredictedAdds(p, q, p.seaward, c, c', c.seaward, h, SeawardError(rest, shore, turn),
                    WaveErrors(last, AmplitudeLimited(last, shore), turn));
      assert Plus(p, c).seaward == Add(p.seaward, c.seaward);
    }
  }

  /** On the dry side of the swash edge there is nothing to predict: the surface is flat. */
  lemma {:induction false} DryLandIsFlat(cs: seq<Component>, d: real, x: real, z: real)
    requires d <= 1.5 && AllReal(cs, ShoreHydrodynamics(d).depth)
    ensures Sampled(cs, ShoreHydrodynamics(d), x, z) == Flat(x, z)
  {
    if cs != [] {
      hide ShoreHydrodynamics, Contribution;
      var shore, last := ShoreHydrodynamics(d), cs[|cs| - 1];
      SampledStep(cs, shore, x, z);
      DryLandIsFlat(cs[..|cs| - 1], d, x, z);
      NothingBreaks(d);
      CalmWave(last, shore);
    }
  }

  lemma NothingBreaks(d: real)
    requires d <= 1.5
    ensures ShoreHydrodynamics(d).scale == 0.0 && ShoreHydrodynamics(d).scaleDerivative == 0.0
  {
    hide Envelope, EnvelopeDerivative;
    DryEnvelope(if d < 0.0 then 0.0 else d);
    LimitIsALine(d);
  }

  lemma CalmWave(c: Component, shore: Hydrodynamics)
    requires c.Real(shore.depth) && c.number > 0.0 && shore.scale == 0.0 && shore.scaleDerivative == 0.0
    ensures Contribution(c, shore) == Point(0.0, 0.0, 0.0, 0.0, Tangent(0.0, 0.0, 0.0), Tangent(0.0, 0.0, 0.0))
  {
    hide Component.Along, Component.Cross, Component.CrossDerivative, NumberDerivative;
    Share(c.wave.steepness, c.number, SteepnessLimit(c), 0.25 * c.wave.steepness);
    assert Amplitude(c, shore) == 0.0 && AmplitudeDerivative(c, shore) == 0.0;
    assert Horizontal(c, shore) == 0.0 && AmplitudeLimited(c, shore) && Growth(c, shore) == 0.0;
  }
}
