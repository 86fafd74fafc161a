/**
 The shore envelope of frontend/src/3d/ocean-wave-model.js and its hand-written derivative.

 The envelope is a product of clamped cubics, so "this is its derivative" is said without limits:
 going from `d` to `d + h`, value and slope at `d` predict the value at `d + h` up to C * h * h,
 for one C, at every distance and across every clamp.
 */
module Shore {
  const SHORE_SLOPE := 0.055
  const MIN_WATER_DEPTH := 0.35
  const BREAKING_AMPLITUDE_RATIO := 0.34
  const BREAKER_DISSIPATION := 0.22
  const GEOMETRY_WAVE_AMPLITUDE := 0.52 + 0.39 + 0.42 + 0.29

  function Abs(x: real): real { if x < 0.0 then -x else x }

  function Clamp01(x: real): real {
    if x < 0.0 then 0.0 else if x > 1.0 then 1.0 else x
  }

  function Cubic(t: real): real { t * t * (3.0 - 2.0 * t) }

  function Smoothstep(low: real, high: real, value: real): real
    requires low < high
  {
    Cubic(Clamp01((value - low) / (high - low)))
  }

  function SmoothstepDerivative(low: real, high: real, value: real): real
    requires low < high
  {
    if value <= low || value >= high then 0.0
    else
      var t := (value - low) / (high - low);
      6.0 * t * (1.0 - t) / (high - low)
  }

  datatype Hydrodynamics = Hydrodynamics(depth: real, breakingLimit: real,
                                         unlimited: real, unlimitedDerivative: real,
                                         scale: real, scaleDerivative: real)
  {
    predicate DepthLimited() { breakingLimit < unlimited }
  }

  function Shoaling(deepMix: real): real { 1.0 + (1.0 - deepMix) * 0.52 }

  function ShoalingDerivative(deepMixD: real): real { -deepMixD * 0.52 }

  function Breaker(rise: real, fall: real): real { rise * (1.0 - fall) }

  function BreakerDerivative(rise: real, riseD: real, fall: real, fallD: real): real {
    riseD * (1.0 - fall) - rise * fallD
  }

  function Dissipation(breaker: real): real { 1.0 - breaker * BREAKER_DISSIPATION }

  function DissipationDerivative(breakerD: real): real { -breakerD * BREAKER_DISSIPATION }

  function Unlimited(fade: real, shoaling: real, dissipation: real): real { fade * shoaling * dissipation }

  function UnlimitedDerivative(fade: real, fadeD: real, shoaling: real, shoalingD: real,
                               dissipation: real, dissipationD: real): real {
    fadeD * shoaling * dissipation + fade * shoalingD * dissipation + fade * shoaling * dissipationD
  }

  /** The envelope before the breaking limit, and the derivative written for it. */
  function Envelope(d: real): real {
    Unlimited(Smoothstep(1.5, 18.0, d),
              Shoaling(Smoothstep(45.0, 230.0, d)),
              Dissipation(Breaker(Smoothstep(12.0, 34.0, d), Smoothstep(68.0, 118.0, d))))
  }

  function EnvelopeDerivative(d: real): real {
    var rise, fall := Smoothstep(12.0, 34.0, d), Smoothstep(68.0, 118.0, d);
    var breakerD :=
      BreakerDerivative(rise, SmoothstepDerivative(12.0, 34.0, d), fall, SmoothstepDerivative(68.0, 118.0, d));
    UnlimitedDerivative(Smoothstep(1.5, 18.0, d), SmoothstepDerivative(1.5, 18.0, d),
                        Shoaling(Smoothstep(45.0, 230.0, d)),
                        ShoalingDerivative(SmoothstepDerivative(45.0, 230.0, d)),
                        Dissipation(Breaker(rise, fall)), DissipationDerivative(breakerD))
  }

  function Depth(distance: real): real { MIN_WATER_DEPTH + distance * SHORE_SLOPE }

  function BreakingLimit(depth: real): real { BREAKING_AMPLITUDE_RATIO * depth / GEOMETRY_WAVE_AMPLITUDE }

  const LIMIT_DERIVATIVE := BREAKING_AMPLITUDE_RATIO * SHORE_SLOPE / GEOMETRY_WAVE_AMPLITUDE

  function ShoreHydrodynamics(seaward: real): Hydrodynamics {
    var distance := if seaward < 0.0 then 0.0 else seaward;
    var depth := Depth(distance);
    var limit, unlimited, unlimitedD := BreakingLimit(depth), Envelope(distance), EnvelopeDerivative(distance);
    var limited := limit < unlimited;
    Hydrodynamics(depth, limit, unlimited, unlimitedD,
                  if limited then limit else unlimited,
                  if limited then LIMIT_DERIVATIVE else unlimitedD)
  }

  // ---------------------------------------------------------------- values with a prediction

  predicate Within(x: real, bound: real) { -bound <= x <= bound }

  /** A function's values at two points and the change its slope predicts: the values stay within
      `m`, change by at most `c`, and miss the prediction by at most `e`. */
  predicate Tame(before: real, after: real, predicted: real, m: real, c: real, e: real) {
    Within(before, m) && Within(after, m) && Within(after - before, c) && Within(after - before - predicted, e)
  }

  lemma ProductIsWithin(x: real, y: real, m: real, n: real, p: real, b: real)
    requires Within(x, m) && Within(y, n) && p == x * y && b == m * n
    ensures Within(p, b)
  {
    assert (m - x) * (n + y) >= 0.0 && (m + x) * (n - y) >= 0.0;
    assert (m - x) * (n - y) >= 0.0 && (m + x) * (n + y) >= 0.0;
  }

  lemma SumIsWithin(x: real, y: real, z: real, a: real, b: real, c: real, e: real, r: real)
    requires Within(x, a) && Within(y, b) && Within(z, c) && a + b + c <= e && r == x + y + z
    ensures Within(r, e)
  {
  }

  lemma ChangeIdentity(f0: real, f1: real, g0: real, g1: real, d: real, e: real, p: real, q: real)
    requires d == f1 - f0 && e == g1 - g0 && p == f1 * e && q == d * g0
    ensures f1 * g1 - f0 * g0 == p + q
  {
  }

  lemma ErrorIdentity(f0: real, f1: real, f': real, g0: real, g1: real, g': real, d: real, e: real, u: real, v: real,
                      x: real, y: real, z: real)
    requires d == f1 - f0 && e == g1 - g0 && u == d - f' && v == e - g'
    requires x == f0 * v && y == u * g0 && z == d * e
    ensures f1 * g1 - f0 * g0 - (f' * g0 + f0 * g') == x + y + z
  {
  }

  lemma ProductChange(f0: real, f1: real, g0: real, g1: real, p0: real, p1: real,
                      mf: real, cf: real, mg: real, cg: real, c: real)
    requires p0 == f0 * g0 && p1 == f1 * g1
    requires Within(f1, mf) && Within(f1 - f0, cf) && Within(g0, mg) && Within(g1 - g0, cg)
    requires mf * cg + cf * mg <= c
    ensures Within(p1 - p0, c)
  {
    var d, e := f1 - f0, g1 - g0;
    var p, q := f1 * e, d * g0;
    ProductIsWithin(f1, e, mf, cg, p, mf * cg);
    ProductIsWithin(d, g0, cf, mg, q, cf * mg);
    ChangeIdentity(f0, f1, g0, g1, d, e, p, q);
    SumIsWithin(p, q, 0.0, mf * cg, cf * mg, 0.0, c, p1 - p0);
  }

  lemma ProductError(f0: real, f1: real, f': real, g0: real, g1: real, g': real, p0: real, p1: real, p': real,
                     mf: real, cf: real, ef: real, mg: real, cg: real, eg: real, cc: real, bound: real)
    requires p0 == f0 * g0 && p1 == f1 * g1 && p' == f' * g0 + f0 * g'
    requires Within(f0, mf) && Within(f1 - f0, cf) && Within(f1 - f0 - f', ef)
    requires Within(g0, mg) && Within(g1 - g0, cg) && Within(g1 - g0 - g', eg)
    requires cc == cf * cg && mf * eg + ef * mg + cc <= bound
    ensures Within(p1 - p0 - p', bound)
  {
    var d, e := f1 - f0, g1 - g0;
    var u, v := d - f', e - g';
    var x, y, z := f0 * v, u * g0, d * e;
    ProductIsWithin(f0, v, mf, eg, x, mf * eg);
    ProductIsWithin(u, g0, ef, mg, y, ef * mg);
    ProductIsWithin(d, e, cf, cg, z, cc);
    ErrorIdentity(f0, f1, f', g0, g1, g', d, e, u, v, x, y, z);
    SumIsWithin(x, y, z, mf * eg, ef * mg, cc, bound, p1 - p0 - p');
  }

  /** The product rule, with what it costs. */
  lemma ProductIsTame(f0: real, f1: real, f': real, g0: real, g1: real, g': real, p0: real, p1: real, p': real,
                      mf: real, cf: real, ef: real, mg: real, cg: real, eg: real,
                      cc: real, m: real, c: real, e: real)
    requires p0 == f0 * g0 && p1 == f1 * g1 && p' == f' * g0 + f0 * g'
    requires Tame(f0, f1, f', mf, cf, ef) && Tame(g0, g1, g', mg, cg, eg) && cc == cf * cg
    requires m == mf * mg && mf * cg + cf * mg <= c && mf * eg + ef * mg + cc <= e
    ensures Tame(p0, p1, p', m, c, e)
  {
    ProductIsWithin(f0, g0, mf, mg, p0, m);
    ProductIsWithin(f1, g1, mf, mg, p1, m);
    ProductChange(f0, f1, g0, g1, p0, p1, mf, cf, mg, cg, c);
    ProductError(f0, f1, f', g0, g1, g', p0, p1, p', mf, cf, ef, mg, cg, eg, cc, e);
  }

  // ---------------------------------------------------------------- smoothstep

  function Slope(t: real): real { if t <= 0.0 || t >= 1.0 then 0.0 else 6.0 * t * (1.0 - t) }

  lemma Grow(x: real, y: real, a: real)
    requires x <= y && 0.0 <= a
    ensures x * a <= y * a
  {
  }

  lemma Square(x: real)
    ensures 0.0 <= x * x
  {
  }

  lemma CubicIdentity(t: real, r: real)
    requires r == 1.0 - t
    ensures Cubic(t) == 3.0 * (t * t) - 2.0 * ((t * t) * t)
    ensures 1.0 - Cubic(t) == Cubic(r)
  {
  }

  lemma HalfRange(t: real)
    requires 0.0 <= t <= 1.0
    ensures 0.0 <= Cubic(t) <= 3.0 * (t * t)
  {
    CubicIdentity(t, 1.0 - t);
    Square(t);
    Grow(0.0, t, t * t);
    Grow(t, 1.0, t * t);
    assert t * (t * t) == (t * t) * t;
  }

  lemma CubicRange(t: real)
    requires 0.0 <= t <= 1.0
    ensures 0.0 <= Cubic(t) <= 1.0
    ensures Cubic(t) <= 3.0 * (t * t) && 1.0 - Cubic(t) <= 3.0 * ((1.0 - t) * (1.0 - t))
  {
    CubicIdentity(t, 1.0 - t);
    HalfRange(t);
    HalfRange(1.0 - t);
  }

  lemma ChordIdentity(y: real, z: real, x: real, w: real, q: real)
    requires x == 1.0 - y && w == 1.0 - z && q == 2.0 * (z * w) + 2.0 * (y * x) + z * x + y * w
    ensures Cubic(z) - Cubic(y) == (z - y) * q
    ensures 1.5 - q == (z - 0.5) * (z - 0.5) + (y - 0.5) * (y - 0.5) + (z + y - 1.0) * (z + y - 1.0)
  {
  }

  lemma ChordSlope(y: real, z: real) returns (q: real)
    requires 0.0 <= y <= 1.0 && 0.0 <= z <= 1.0
    ensures 0.0 <= q <= 1.5 && Cubic(z) - Cubic(y) == (z - y) * q
  {
    var x, w := 1.0 - y, 1.0 - z;
    q := 2.0 * (z * w) + 2.0 * (y * x) + z * x + y * w;
    ChordIdentity(y, z, x, w, q);
    Grow(0.0, z, w);
    Grow(0.0, y, x);
    Grow(0.0, z, x);
    Grow(0.0, y, w);
    Square(z - 0.5);
    Square(y - 0.5);
    Square(z + y - 1.0);
  }

  lemma CubicChange(t: real, u: real)
    ensures Within(Cubic(Clamp01(u)) - Cubic(Clamp01(t)), 1.5 * Abs(u - t))
  {
    var y, z := Clamp01(t), Clamp01(u);
    var q := ChordSlope(y, z);
    var k := Abs(u - t);
    assert Within(z - y, k);
    ProductIsWithin(z - y, q, k, 1.5, (z - y) * q, k * 1.5);
  }

  lemma InsideIdentity(t: real, u: real, k: real, s: real, q: real)
    requires k == u - t && s == k * k && q == 3.0 - 2.0 * u - 4.0 * t
    ensures Cubic(u) - Cubic(t) - 6.0 * t * (1.0 - t) * k == q * s
  {
  }

  lemma InsideRemainder(t: real, u: real, k: real)
    requires 0.0 <= t <= 1.0 && 0.0 <= u <= 1.0 && k == u - t
    ensures Within(Cubic(u) - Cubic(t) - 6.0 * t * (1.0 - t) * k, 3.0 * (k * k))
  {
    var s, q := k * k, 3.0 - 2.0 * u - 4.0 * t;
    Square(k);
    InsideIdentity(t, u, k, s, q);
    Grow(q, 3.0, s);
    Grow(-3.0, q, s);
  }

  lemma OvershootIdentity(t: real, e: real, k: real)
    requires k == t + e
    ensures 3.0 * (k * k) - 6.0 * t * (1.0 - t) * k + Cubic(t)
         == 3.0 * (e * e) + 6.0 * ((t * t) * e) + 4.0 * ((t * t) * t)
  {
  }

  /** A step of length `k` down from `t` that leaves the ramp. */
  lemma Overshoot(t: real, k: real)
    requires 0.0 < t < 1.0 && t <= k
    ensures Within(6.0 * t * (1.0 - t) * k - Cubic(t), 3.0 * (k * k))
  {
    var e := k - t;
    OvershootIdentity(t, e, k);
    Square(e);
    Square(t);
    Grow(0.0, t * t, e);
    Grow(0.0, t * t, t);
    OvershootBelow(t, k);
  }

  lemma OvershootBelow(t: real, k: real)
    requires 0.0 < t < 1.0 && t <= k
    ensures Cubic(t) - 6.0 * t * (1.0 - t) * k <= 3.0 * (k * k)
  {
    HalfRange(t);
    Squares(t, k);
    Grow(0.0, t, 1.0 - t);
    Grow(0.0, 6.0 * t * (1.0 - t), k);
  }

  lemma Squares(c: real, k: real)
    requires 0.0 <= c && (c == 0.0 || c <= k)
    ensures c * c <= k * k
  {
    Square(k);
    if c <= k {
      Grow(c, k, c);
      Grow(c, k, k);
    }
  }

  /** The claimed slope of the clamped cubic is right, also where a step crosses a clamp. */
  lemma ClampedRemainder(t: real, u: real, k: real)
    requires k == u - t
    ensures Within(Cubic(Clamp01(u)) - Cubic(Clamp01(t)) - Slope(t) * k, 3.0 * (k * k))
  {
    if t <= 0.0 || t >= 1.0 {
      FlatRemainder(t, u, k);
    } else if 0.0 <= u <= 1.0 {
      InsideRemainder(t, u, k);
    } else {
      LeavingRemainder(t, u, k);
    }
  }

  lemma FlatRemainder(t: real, u: real, k: real)
    requires k == u - t && (t <= 0.0 || t >= 1.0)
    ensures Within(Cubic(Clamp01(u)) - Cubic(Clamp01(t)), 3.0 * (k * k))
  {
    var c := Clamp01(u);
    CubicRange(c);
    Flip(1.0, k, -k);
    if t <= 0.0 { Squares(c, k); } else { Squares(1.0 - c, -k); }
  }

  lemma LeavingRemainder(t: real, u: real, k: real)
    requires k == u - t && 0.0 < t < 1.0 && (u < 0.0 || u > 1.0)
    ensures Within(Cubic(Clamp01(u)) - Cubic(t) - 6.0 * t * (1.0 - t) * k, 3.0 * (k * k))
  {
    if u < 0.0 {
      LeavingBelow(t, k, -k);
    } else {
      LeavingAbove(t, k, 1.0 - t);
    }
  }

  lemma LeavingBelow(t: real, k: real, n: real)
    requires n == -k && 0.0 < t < 1.0 && t <= n
    ensures Within(-Cubic(t) - 6.0 * t * (1.0 - t) * k, 3.0 * (k * k))
  {
    hide Cubic;
    Flip(6.0 * t * (1.0 - t), k, n);
    Overshoot(t, n);
  }

  lemma LeavingAbove(t: real, k: real, r: real)
    requires r == 1.0 - t && 0.0 < t < 1.0 && r <= k
    ensures Within(1.0 - Cubic(t) - 6.0 * t * (1.0 - t) * k, 3.0 * (k * k))
  {
    hide Cubic;
    CubicIdentity(t, r);
    Overshoot(r, k);
    assert 6.0 * r * (1.0 - r) * k == 6.0 * t * (1.0 - t) * k;
  }

  lemma Flip(x: real, k: real, n: real)
    requires n == -k
    ensures x * n == -(x * k) && k * k == n * n
  {
  }

  lemma SmoothstepIsTame(low: real, high: real, d: real, h: real, c: real, e: real)
    requires low < high
    requires 1.5 * Abs(h) <= c * (high - low) && 3.0 * (h * h) <= e * ((high - low) * (high - low))
    ensures Tame(Smoothstep(low, high, d), Smoothstep(low, high, d + h), SmoothstepDerivative(low, high, d) * h,
                 1.0, c, e)
    ensures 0.0 <= Smoothstep(low, high, d) && 0.0 <= Smoothstep(low, high, d + h)
  {
    var w := high - low;
    var t, u := (d - low) / w, (d + h - low) / w;
    var k := u - t;
    StepSize(d, low, w, h, t, u);
    Stretch(w, k, h, c, e);
    SlopeScales(low, high, d, t, k, h);
    EasedIsTame(t, u, k, SmoothstepDerivative(low, high, d) * h, c, e);
  }

  lemma EasedIsTame(t: real, u: real, k: real, predicted: real, c: real, e: real)
    requires k == u - t && 1.5 * Abs(k) <= c && 3.0 * (k * k) <= e && predicted == Slope(t) * k
    ensures Tame(Cubic(Clamp01(t)), Cubic(Clamp01(u)), predicted, 1.0, c, e)
    ensures 0.0 <= Cubic(Clamp01(t)) && 0.0 <= Cubic(Clamp01(u))
  {
    CubicRange(Clamp01(t));
    CubicRange(Clamp01(u));
    CubicChange(t, u);
    ClampedRemainder(t, u, k);
  }

  lemma StepSize(d: real, low: real, w: real, h: real, t: real, u: real)
    requires w > 0.0 && t == (d - low) / w && u == (d + h - low) / w
    ensures (u - t) * w == h
  {
    assert u * w == d + h - low;
    assert t * w == d - low;
  }

  lemma SlopeScales(low: real, high: real, d: real, t: real, step: real, h: real)
    requires low < high && step * (high - low) == h && t == (d - low) / (high - low)
    ensures SmoothstepDerivative(low, high, d) * h == Slope(t) * step
  {
    var w, j := high - low, SmoothstepDerivative(low, high, d);
    assert t * w == d - low;
    assert j * w == Slope(t) by { Ends(t, w, d - low); }
    assert j * h == j * w * step;
  }

  lemma Ends(t: real, w: real, x: real)
    requires w > 0.0 && t * w == x
    ensures t <= 0.0 <==> x <= 0.0
    ensures t >= 1.0 <==> x >= w
  {
    assert (t - 1.0) * w == x - w;
    if t >= 1.0 { assert (t - 1.0) * w >= 0.0; } else { assert (1.0 - t) * w > 0.0; }
    if t <= 0.0 { assert (-t) * w >= 0.0; } else { assert t * w > 0.0; }
  }

  lemma Stretch(w: real, step: real, h: real, c: real, e: real)
    requires w > 0.0 && step * w == h && 1.5 * Abs(h) <= c * w && 3.0 * (h * h) <= e * (w * w)
    ensures 1.5 * Abs(step) <= c && 3.0 * (step * step) <= e
  {
    assert Abs(h) == w * Abs(step);
    Cancel(1.5 * Abs(step), c, w, 1.5 * Abs(h), c * w);
    StretchSquare(w, w * w, step, step * step, h, h * h);
    Cancel(3.0 * (step * step), e, w * w, 3.0 * (h * h), e * (w * w));
  }

  lemma StretchSquare(w: real, v: real, step: real, s: real, h: real, r: real)
    requires w > 0.0 && step * w == h && v == w * w && s == step * step && r == h * h
    ensures v > 0.0 && 3.0 * s * v == 3.0 * r
  {
    Positive(w, w, v);
    assert r == s * v;
  }

  lemma Positive(x: real, y: real, p: real)
    requires x > 0.0 && y > 0.0 && p == x * y
    ensures p > 0.0
  {
  }

  lemma Cancel(x: real, y: real, w: real, p: real, q: real)
    requires w > 0.0 && p == x * w && q == y * w && p <= q
    ensures x <= y
  {
    assert (y - x) * w == q - p;
  }

  // ---------------------------------------------------------------- the envelope

  lemma Lengths(a: real, h: real, s: real)
    requires a == Abs(h) && s == h * h
    ensures 0.0 <= a && 0.0 <= s && s == a * a
  {
    Square(h);
  }

  lemma BreakerIsTame(r0: real, r1: real, r': real, l0: real, l1: real, l': real,
                      n0: real, n1: real, n': real, b0: real, b1: real, b': real, a: real, s: real)
    requires 0.0 <= a && s == a * a
    requires Tame(r0, r1, r', 1.0, 0.0682 * a, 0.0062 * s) && 0.0 <= r0 && 0.0 <= r1
    requires Tame(l0, l1, l', 1.0, 0.03 * a, 0.0012 * s) && 0.0 <= l0 && 0.0 <= l1
    requires n0 == 1.0 - l0 && n1 == 1.0 - l1 && n' == -l'
    requires b0 == r0 * n0 && b1 == r1 * n1 && b' == r' * n0 + r0 * n'
    ensures Tame(b0, b1, b', 1.0, 0.1 * a, 0.0095 * s) && 0.0 <= b0 && 0.0 <= b1
  {
    Square(a);
    ProductIsTame(r0, r1, r', n0, n1, n', b0, b1, b', 1.0, 0.0682 * a, 0.0062 * s, 1.0, 0.03 * a, 0.0012 * s,
                  0.002046 * s, 1.0, 0.1 * a, 0.0095 * s);
    ProductIsPositive(r0, n0, b0);
    ProductIsPositive(r1, n1, b1);
  }

  lemma ProductIsPositive(x: real, y: real, p: real)
    requires 0.0 <= x && 0.0 <= y && p == x * y
    ensures 0.0 <= p
  {
  }

  lemma DissipationIsTame(b0: real, b1: real, b': real, k0: real, k1: real, k': real, a: real, s: real)
    requires Tame(b0, b1, b', 1.0, 0.1 * a, 0.0095 * s) && 0.0 <= b0 && 0.0 <= b1 && 0.0 <= a && 0.0 <= s
    requires k0 == Dissipation(b0) && k1 == Dissipation(b1) && k' == DissipationDerivative(b')
    ensures Tame(k0, k1, k', 1.0, 0.022 * a, 0.0021 * s)
  {
  }

  lemma ShoalingIsTame(m0: real, m1: real, m': real, g0: real, g1: real, g': real, a: real, s: real)
    requires Tame(m0, m1, m', 1.0, 0.00811 * a, 0.0000877 * s) && 0.0 <= m0 && 0.0 <= m1 && 0.0 <= a && 0.0 <= s
    requires g0 == Shoaling(m0) && g1 == Shoaling(m1) && g' == ShoalingDerivative(m')
    ensures Tame(g0, g1, g', 1.52, 0.0043 * a, 0.00005 * s)
  {
  }

  lemma FadedShoalingIsTame(f0: real, f1: real, f': real, g0: real, g1: real, g': real,
                            q0: real, q1: real, q': real, a: real, s: real)
    requires 0.0 <= a && s == a * a
    requires Tame(f0, f1, f', 1.0, 0.091 * a, 0.0111 * s)
    requires Tame(g0, g1, g', 1.52, 0.0043 * a, 0.00005 * s)
    requires q0 == f0 * g0 && q1 == f1 * g1 && q' == f' * g0 + f0 * g'
    ensures Tame(q0, q1, q', 1.52, 0.15 * a, 0.0175 * s)
  {
    Square(a);
    ProductIsTame(f0, f1, f', g0, g1, g', q0, q1, q', 1.0, 0.091 * a, 0.0111 * s, 1.52, 0.0043 * a, 0.00005 * s,
                  0.0003913 * s, 1.52, 0.15 * a, 0.0175 * s);
  }

  lemma UnlimitedIsTame(q0: real, q1: real, q': real, k0: real, k1: real, k': real,
                        u0: real, u1: real, u': real, a: real, s: real)
    requires 0.0 <= a && s == a * a
    requires Tame(q0, q1, q', 1.52, 0.15 * a, 0.0175 * s)
    requires Tame(k0, k1, k', 1.0, 0.022 * a, 0.0021 * s)
    requires u0 == q0 * k0 && u1 == q1 * k1 && u' == q' * k0 + q0 * k'
    ensures Tame(u0, u1, u', 1.52, 0.2 * a, 0.025 * s)
  {
    Square(a);
    ProductIsTame(q0, q1, q', k0, k1, k', u0, u1, u', 1.52, 0.15 * a, 0.0175 * s, 1.0, 0.022 * a, 0.0021 * s,
                  0.0033 * s, 1.52, 0.2 * a, 0.025 * s);
  }

  /** The derivatives in the code, times the step, are the product rule's predictions. */
  lemma BreakerPrediction(r0: real, rd: real, l0: real, ld: real, h: real, r': real, n0: real, n': real,
                          bd: real, b': real)
    requires r' == rd * h && n0 == 1.0 - l0 && n' == -(ld * h)
    requires bd == BreakerDerivative(r0, rd, l0, ld) && b' == bd * h
    ensures b' == r' * n0 + r0 * n'
  {
  }

  lemma BreakerFactors(r: real, l: real, n: real)
    requires n == 1.0 - l
    ensures Breaker(r, l) == r * n
  {
  }

  lemma LinearPredictions(b: real, m: real, h: real)
    ensures DissipationDerivative(b) * h == DissipationDerivative(b * h)
    ensures ShoalingDerivative(m) * h == ShoalingDerivative(m * h)
  {
  }

  lemma UnlimitedPrediction(f0: real, fd: real, g0: real, gd: real, k0: real, kd: real, h: real,
                            f': real, g': real, k': real, q0: real, q': real, ud: real, u': real)
    requires f' == fd * h && g' == gd * h && k' == kd * h
    requires q0 == f0 * g0 && q' == f' * g0 + f0 * g'
    requires ud == UnlimitedDerivative(f0, fd, g0, gd, k0, kd) && u' == ud * h
    ensures u' == q' * k0 + q0 * k'
  {
  }

  lemma FadeAt(d: real, h: real, a: real, s: real)
    requires a == Abs(h) && s == h * h
    ensures Tame(Smoothstep(1.5, 18.0, d), Smoothstep(1.5, 18.0, d + h), SmoothstepDerivative(1.5, 18.0, d) * h,
                 1.0, 0.091 * a, 0.0111 * s)
  {
    hide Smoothstep, SmoothstepDerivative;
    Lengths(a, h, s);
    SmoothstepIsTame(1.5, 18.0, d, h, 0.091 * a, 0.0111 * s);
  }

  lemma ShoalingAt(d: real, h: real, a: real, s: real)
    requires a == Abs(h) && s == h * h
    ensures Tame(Shoaling(Smoothstep(45.0, 230.0, d)), Shoaling(Smoothstep(45.0, 230.0, d + h)),
                 ShoalingDerivative(SmoothstepDerivative(45.0, 230.0, d)) * h, 1.52, 0.0043 * a, 0.00005 * s)
  {
    hide Smoothstep, SmoothstepDerivative, Shoaling, ShoalingDerivative;
    Lengths(a, h, s);
    var m0, m1, md := Smoothstep(45.0, 230.0, d), Smoothstep(45.0, 230.0, d + h), SmoothstepDerivative(45.0, 230.0, d);
    SmoothstepIsTame(45.0, 230.0, d, h, 0.00811 * a, 0.0000877 * s);
    LinearPredictions(0.0, md, h);
    ShoalingIsTame(m0, m1, md * h, Shoaling(m0), Shoaling(m1), ShoalingDerivative(md * h), a, s);
  }

  lemma RiseAt(d: real, h: real, a: real, s: real)
    requires a == Abs(h) && s == h * h
    ensures Tame(Smoothstep(12.0, 34.0, d), Smoothstep(12.0, 34.0, d + h), SmoothstepDerivative(12.0, 34.0, d) * h,
                 1.0, 0.0682 * a, 0.0062 * s)
    ensures 0.0 <= Smoothstep(12.0, 34.0, d) && 0.0 <= Smoothstep(12.0, 34.0, d + h)
  {
    hide Smoothstep, SmoothstepDerivative;
    Lengths(a, h, s);
    SmoothstepIsTame(12.0, 34.0, d, h, 0.0682 * a, 0.0062 * s);
  }

  lemma FallAt(d: real, h: real, a: real, s: real)
    requires a == Abs(h) && s == h * h
    ensures Tame(Smoothstep(68.0, 118.0, d), Smoothstep(68.0, 118.0, d + h), SmoothstepDerivative(68.0, 118.0, d) * h,
                 1.0, 0.03 * a, 0.0012 * s)
    ensures 0.0 <= Smoothstep(68.0, 118.0, d) && 0.0 <= Smoothstep(68.0, 118.0, d + h)
  {
    hide Smoothstep, SmoothstepDerivative;
    Lengths(a, h, s);
    SmoothstepIsTame(68.0, 118.0, d, h, 0.03 * a, 0.0012 * s);
  }

  lemma BreakerAt(d: real, h: real, a: real, s: real)
    requires a == Abs(h) && s == h * h
    ensures var r0, r1, rd :=
              Smoothstep(12.0, 34.0, d), Smoothstep(12.0, 34.0, d + h), SmoothstepDerivative(12.0, 34.0, d);
            var l0, l1, ld :=
              Smoothstep(68.0, 118.0, d), Smoothstep(68.0, 118.0, d + h), SmoothstepDerivative(68.0, 118.0, d);
            Tame(Breaker(r0, l0), Breaker(r1, l1), BreakerDerivative(r0, rd, l0, ld) * h, 1.0, 0.1 * a, 0.0095 * s)
            && 0.0 <= Breaker(r0, l0) && 0.0 <= Breaker(r1, l1)
  {
    hide Smoothstep, SmoothstepDerivative, Breaker, BreakerDerivative;
    var r0, r1, rd :=
      Smoothstep(12.0, 34.0, d), Smoothstep(12.0, 34.0, d + h), SmoothstepDerivative(12.0, 34.0, d);
    var l0, l1, ld :=
      Smoothstep(68.0, 118.0, d), Smoothstep(68.0, 118.0, d + h), SmoothstepDerivative(68.0, 118.0, d);
    var bd := BreakerDerivative(r0, rd, l0, ld);
    Lengths(a, h, s);
    RiseAt(d, h, a, s);
    FallAt(d, h, a, s);
    BreakerFromParts(r0, r1, rd, l0, l1, ld, Breaker(r0, l0), Breaker(r1, l1), bd, a, h, s, rd * h, ld * h, bd * h);
  }

  lemma BreakerFromParts(r0: real, r1: real, rd: real, l0: real, l1: real, ld: real,
                         b0: real, b1: real, bd: real, a: real, h: real, s: real,
                         r': real, l': real, b': real)
    requires 0.0 <= a && s == a * a
    requires r' == rd * h && l' == ld * h && b' == bd * h
    requires Tame(r0, r1, r', 1.0, 0.0682 * a, 0.0062 * s) && 0.0 <= r0 && 0.0 <= r1
    requires Tame(l0, l1, l', 1.0, 0.03 * a, 0.0012 * s) && 0.0 <= l0 && 0.0 <= l1
    requires b0 == Breaker(r0, l0) && b1 == Breaker(r1, l1) && bd == BreakerDerivative(r0, rd, l0, ld)
    ensures Tame(b0, b1, b', 1.0, 0.1 * a, 0.0095 * s) && 0.0 <= b0 && 0.0 <= b1
  {
    hide Tame;
    var n0, n1 := 1.0 - l0, 1.0 - l1;
    assert b' == r' * n0 + r0 * (-l') by { BreakerPrediction(r0, rd, l0, ld, h, r', n0, -l', bd, b'); }
    BreakerIsTame(r0, r1, r', l0, l1, l', n0, n1, -l', b0, b1, b', a, s);
  }

  lemma DissipationAt(d: real, h: real, a: real, s: real)
    requires a == Abs(h) && s == h * h
    ensures var r0, r1, rd :=
              Smoothstep(12.0, 34.0, d), Smoothstep(12.0, 34.0, d + h), SmoothstepDerivative(12.0, 34.0, d);
            var l0, l1, ld :=
              Smoothstep(68.0, 118.0, d), Smoothstep(68.0, 118.0, d + h), SmoothstepDerivative(68.0, 118.0, d);
            Tame(Dissipation(Breaker(r0, l0)), Dissipation(Breaker(r1, l1)),
                 DissipationDerivative(BreakerDerivative(r0, rd, l0, ld)) * h, 1.0, 0.022 * a, 0.0021 * s)
  {
    hide Smoothstep, SmoothstepDerivative, Dissipation, DissipationDerivative, Breaker, BreakerDerivative;
    Lengths(a, h, s);
    var b0 := Breaker(Smoothstep(12.0, 34.0, d), Smoothstep(68.0, 118.0, d));
    var b1 := Breaker(Smoothstep(12.0, 34.0, d + h), Smoothstep(68.0, 118.0, d + h));
    var bd := BreakerDerivative(Smoothstep(12.0, 34.0, d), SmoothstepDerivative(12.0, 34.0, d),
                                Smoothstep(68.0, 118.0, d), SmoothstepDerivative(68.0, 118.0, d));
    BreakerAt(d, h, a, s);
    LinearPredictions(bd, 0.0, h);
    DissipationIsTame(b0, b1, bd * h, Dissipation(b0), Dissipation(b1), DissipationDerivative(bd * h), a, s);
  }

  lemma EnvelopeIsTame(d: real, h: real, a: real, s: real, u': real)
    requires a == Abs(h) && s == h * h
    ensures u' == EnvelopeDerivative(d) * h ==> Tame(Envelope(d), Envelope(d + h), u', 1.52, 0.2 * a, 0.025 * s)
  {
    hide Smoothstep, SmoothstepDerivative, Dissipation, DissipationDerivative, Breaker, BreakerDerivative,
         Shoaling, ShoalingDerivative, Unlimited, UnlimitedDerivative;
    Lengths(a, h, s);
    var r, rd, l, ld :=
      Smoothstep(12.0, 34.0, d), SmoothstepDerivative(12.0, 34.0, d),
      Smoothstep(68.0, 118.0, d), SmoothstepDerivative(68.0, 118.0, d);
    var f0, f1, fd := Smoothstep(1.5, 18.0, d), Smoothstep(1.5, 18.0, d + h), SmoothstepDerivative(1.5, 18.0, d);
    var g0, g1 := Shoaling(Smoothstep(45.0, 230.0, d)), Shoaling(Smoothstep(45.0, 230.0, d + h));
    var gd := ShoalingDerivative(SmoothstepDerivative(45.0, 230.0, d));
    var k0, kd := Dissipation(Breaker(r, l)), DissipationDerivative(BreakerDerivative(r, rd, l, ld));
    var k1 := Dissipation(Breaker(Smoothstep(12.0, 34.0, d + h), Smoothstep(68.0, 118.0, d + h)));
    var f', g', k' := fd * h, gd * h, kd * h;
    assert Tame(f0, f1, f', 1.0, 0.091 * a, 0.0111 * s) by { FadeAt(d, h, a, s); }
    assert Tame(g0, g1, g', 1.52, 0.0043 * a, 0.00005 * s) by { ShoalingAt(d, h, a, s); }
    assert Tame(k0, k1, k', 1.0, 0.022 * a, 0.0021 * s) by { DissipationAt(d, h, a, s); }
    hide Tame;
    if u' == EnvelopeDerivative(d) * h {
      EnvelopeFromParts(f0, f1, fd, g0, g1, gd, k0, k1, kd, Envelope(d), Envelope(d + h), EnvelopeDerivative(d),
                        a, h, s, f', g', k', u');
    }
  }

  /** The hand-written derivative of the unlimited envelope is right: one constant serves every
      distance and every step, whatever clamps the step crosses. */
  lemma EnvelopeDerivativeIsRight(d: real, h: real)
    ensures Within(Envelope(d + h) - Envelope(d) - EnvelopeDerivative(d) * h, 0.025 * (h * h))
    ensures Within(Envelope(d + h) - Envelope(d), 0.2 * Abs(h))
    ensures Within(Envelope(d), 1.52)
  {
    hide Envelope, EnvelopeDerivative;
    EnvelopeIsTame(d, h, Abs(h), h * h, EnvelopeDerivative(d) * h);
  }

  lemma EnvelopeFromParts(f0: real, f1: real, fd: real, g0: real, g1: real, gd: real, k0: real, k1: real, kd: real,
                          u0: real, u1: real, ud: real, a: real, h: real, s: real,
                          f': real, g': real, k': real, u': real)
    requires 0.0 <= a && s == a * a
    requires f' == fd * h && g' == gd * h && k' == kd * h && u' == ud * h
    requires Tame(f0, f1, f', 1.0, 0.091 * a, 0.0111 * s)
    requires Tame(g0, g1, g', 1.52, 0.0043 * a, 0.00005 * s)
    requires Tame(k0, k1, k', 1.0, 0.022 * a, 0.0021 * s)
    requires u0 == Unlimited(f0, g0, k0) && u1 == Unlimited(f1, g1, k1)
    requires ud == UnlimitedDerivative(f0, fd, g0, gd, k0, kd)
    ensures Tame(u0, u1, u', 1.52, 0.2 * a, 0.025 * s)
  {
    hide Tame;
    var q0, q1, q' := f0 * g0, f1 * g1, f' * g0 + f0 * g';
    UnlimitedPrediction(f0, fd, g0, gd, k0, kd, h, f', g', k', q0, q', ud, u');
    UnlimitedIsProduct(f0, g0, k0, q0);
    UnlimitedIsProduct(f1, g1, k1, q1);
    hide Unlimited, UnlimitedDerivative;
    FadedShoalingIsTame(f0, f1, f', g0, g1, g', q0, q1, q', a, s);
    UnlimitedIsTame(q0, q1, q', k0, k1, k', u0, u1, u', a, s);
  }

  lemma UnlimitedIsProduct(f: real, g: real, k: real, q: real)
    requires q == f * g
    ensures Unlimited(f, g, k) == q * k
  {
  }

  // ---------------------------------------------------------------- what the beach sees

  /** On the dry side of the swash edge nothing is left of the envelope. */
  lemma DryEnvelope(d: real)
    requires d <= 1.5
    ensures Envelope(d) == 0.0 && EnvelopeDerivative(d) == 0.0
  {
    var t := (d - 1.5) / (18.0 - 1.5);
    assert t <= 0.0;
    assert Smoothstep(1.5, 18.0, d) == 0.0 && SmoothstepDerivative(1.5, 18.0, d) == 0.0;
    ZeroFactor(Shoaling(Smoothstep(45.0, 230.0, d)),
               Dissipation(Breaker(Smoothstep(12.0, 34.0, d), Smoothstep(68.0, 118.0, d))),
               ShoalingDerivative(SmoothstepDerivative(45.0, 230.0, d)),
               DissipationDerivative(BreakerDerivative(
                 Smoothstep(12.0, 34.0, d), SmoothstepDerivative(12.0, 34.0, d),
                 Smoothstep(68.0, 118.0, d), SmoothstepDerivative(68.0, 118.0, d))));
  }

  lemma ZeroFactor(g: real, k: real, gd: real, kd: real)
    ensures Unlimited(0.0, g, k) == 0.0 && UnlimitedDerivative(0.0, 0.0, g, gd, k, kd) == 0.0
  {
  }

  lemma UnlimitedIsEnvelope(seaward: real)
    ensures ShoreHydrodynamics(seaward).unlimited == Envelope(seaward)
    ensures ShoreHydrodynamics(seaward).unlimitedDerivative == EnvelopeDerivative(seaward)
  {
    hide Envelope, EnvelopeDerivative;
    if seaward < 0.0 {
      DryEnvelope(seaward);
      DryEnvelope(0.0);
    }
  }

  /** `slope` predicts the unlimited envelope a step `h` from `d` to second order. */
  predicate PredictsStep(d: real, slope: real, h: real) {
    Within(ShoreHydrodynamics(d + h).unlimited - ShoreHydrodynamics(d).unlimited - slope * h, 0.025 * (h * h))
  }

  ghost predicate Predicts(d: real, slope: real) {
    forall h :: PredictsStep(d, slope, h)
  }

  lemma DerivativePredicts(d: real, h: real)
    ensures PredictsStep(d, ShoreHydrodynamics(d).unlimitedDerivative, h)
  {
    hide ShoreHydrodynamics, Envelope, EnvelopeDerivative;
    UnlimitedIsEnvelope(d);
    UnlimitedIsEnvelope(d + h);
    EnvelopeDerivativeIsRight(d, h);
  }

  /** At every seaward distance, dry land included, the hand-written derivative is the one number
      that predicts the unlimited envelope to second order. */
  lemma DerivativeIsTheOnlyPrediction(d: real, slope: real)
    ensures Predicts(d, slope) <==> slope == ShoreHydrodynamics(d).unlimitedDerivative
  {
    hide ShoreHydrodynamics, PredictsStep;
    var right := ShoreHydrodynamics(d).unlimitedDerivative;
    forall h ensures PredictsStep(d, right, h) {
      DerivativePredicts(d, h);
    }
    if Predicts(d, slope) {
      var h := 10.0 * (slope - right);
      assert PredictsStep(d, slope, h) && PredictsStep(d, right, h);
      SameStep(d, slope, right, h);
    }
  }

  lemma SameStep(d: real, x: real, y: real, h: real)
    requires h == 10.0 * (x - y) && PredictsStep(d, x, h) && PredictsStep(d, y, h)
    ensures x == y
  {
    hide ShoreHydrodynamics;
    SamePrediction(ShoreHydrodynamics(d + h).unlimited - ShoreHydrodynamics(d).unlimited, x, y, h);
  }

  lemma SamePrediction(change: real, x: real, y: real, h: real)
    requires h == 10.0 * (x - y)
    requires Within(change - x * h, 0.025 * (h * h)) && Within(change - y * h, 0.025 * (h * h))
    ensures x == y
  {
    var z := x - y;
    assert x * h - y * h == 10.0 * (z * z) && h * h == 100.0 * (z * z);
    if z > 0.0 { Positive(z, z, z * z); }
    if z < 0.0 { Positive(-z, -z, z * z); }
  }

  /** The breaking limit turns the smooth envelope into its minimum with a line. Downwards the
      derivative of that minimum can be off by a corner, upwards never; and as long as a step does
      not switch between envelope and limit it predicts to second order. */
  lemma ScaleIsPredicted(d: real, h: real)
    ensures var at, next := ShoreHydrodynamics(d), ShoreHydrodynamics(d + h);
            && next.scale - at.scale - at.scaleDerivative * h <= 0.025 * (h * h)
            && (at.DepthLimited() == next.DepthLimited() ==>
                  Within(next.scale - at.scale - at.scaleDerivative * h, 0.025 * (h * h)))
  {
    hide Envelope, EnvelopeDerivative, BreakingLimit, Depth;
    UnlimitedIsEnvelope(d);
    UnlimitedIsEnvelope(d + h);
    EnvelopeDerivativeIsRight(d, h);
    Square(h);
    LimitIsALine(d);
    LimitIsALine(d + h);
    if d <= 1.5 { DryEnvelope(d); }
    if d + h <= 1.5 { DryEnvelope(d + h); }
    if d > 1.5 && d + h < 0.0 { LongStep(d, h); }
  }

  lemma LimitIsALine(seaward: real)
    ensures ShoreHydrodynamics(seaward).breakingLimit > 0.0
    ensures seaward >= 0.0 ==>
              ShoreHydrodynamics(seaward).breakingLimit == BreakingLimit(MIN_WATER_DEPTH) + LIMIT_DERIVATIVE * seaward
  {
    hide Envelope, EnvelopeDerivative;
  }

  lemma LongStep(d: real, h: real)
    requires d > 1.5 && d + h < 0.0
    ensures 0.025 * (h * h) + LIMIT_DERIVATIVE * h >= 0.0
  {
    assert (0.025 * h + LIMIT_DERIVATIVE) * h >= 0.0 by { assert 0.025 * h + LIMIT_DERIVATIVE <= 0.0; }
  }

  /** The scale is never negative and never above the breaking limit. */
  lemma ScaleIsLimited(seaward: real)
    ensures 0.0 <= ShoreHydrodynamics(seaward).scale <= ShoreHydrodynamics(seaward).breakingLimit
    ensures ShoreHydrodynamics(seaward).scale <= ShoreHydrodynamics(seaward).unlimited <= 1.52
  {
    hide Envelope, EnvelopeDerivative;
    var d := if seaward < 0.0 then 0.0 else seaward;
    EnvelopeDerivativeIsRight(d, 0.0);
    LimitIsALine(seaward);
    EnvelopeIsPositive(d);
  }

  lemma EnvelopeIsPositive(d: real)
    ensures 0.0 <= Envelope(d)
  {
    hide Smoothstep, SmoothstepDerivative;
    SmoothstepIsTame(1.5, 18.0, d, 0.0, 0.0, 0.0);
    SmoothstepIsTame(45.0, 230.0, d, 0.0, 0.0, 0.0);
    SmoothstepIsTame(12.0, 34.0, d, 0.0, 0.0, 0.0);
    SmoothstepIsTame(68.0, 118.0, d, 0.0, 0.0, 0.0);
    PositiveParts(Smoothstep(1.5, 18.0, d), Smoothstep(45.0, 230.0, d),
                  Smoothstep(12.0, 34.0, d), Smoothstep(68.0, 118.0, d));
  }

  lemma PositiveParts(f: real, m: real, r: real, l: real)
    requires 0.0 <= f <= 1.0 && 0.0 <= m <= 1.0 && 0.0 <= r <= 1.0 && 0.0 <= l <= 1.0
    ensures 0.0 <= Unlimited(f, Shoaling(m), Dissipation(Breaker(r, l)))
  {
    var n := 1.0 - l;
    ProductIsWithin(r, n, 1.0, 1.0, r * n, 1.0);
    BreakerFactors(r, l, n);
    var g, k := Shoaling(m), Dissipation(Breaker(r, l));
    assert 0.0 <= g && 0.0 <= k;
    NonNegative(f, g, k);
  }

  lemma NonNegative(f: real, g: real, k: real)
    requires 0.0 <= f && 0.0 <= g && 0.0 <= k
    ensures 0.0 <= f * g * k
  {
    Grow(0.0, f, g);
    Grow(0.0, f * g, k);
  }
}
