/**
 Refraction in frontend/src/3d/ocean-wave-model.js: the cross-shore wave number over the sloping bed
 and its derivative in the depth.

 Square roots are numbers with the one property that matters: a root squares back.
 */
module Swell {
  import opened Shore

  const PHASE_BLEND_BASE := 1.47
  const PHASE_BLEND_LINEAR := 0.35
  const PHASE_BLEND_QUADRATIC := 1.15
  const WAVE_COUNT := 4.0

  function PhaseBlend(crossFraction: real): real {
    BlendAt(1.0 - Clamp01(Abs(crossFraction)))
  }

  function BlendAt(obliqueness: real): real {
    PHASE_BLEND_BASE + PHASE_BLEND_LINEAR * obliqueness + PHASE_BLEND_QUADRATIC * obliqueness * obliqueness
  }

  function OffshoreCross(deep: real, crossFraction: real): (k: real)
    ensures k > 0.0
  {
    var k := deep * Abs(crossFraction);
    if k < 0.000001 then 0.000001 else k
  }

  /** The cross-shore wave number; `shallow` is the root of deep / depth. */
  function CrossNumber(offshore: real, shallow: real, blend: real): real
    requires offshore > 0.0 && shallow > 0.0
  {
    offshore + shallow - blend * offshore * shallow / (offshore + shallow)
  }

  function CrossNumberDerivative(offshore: real, shallow: real, blend: real, depth: real): real
    requires offshore > 0.0 && shallow > 0.0 && depth > 0.0
  {
    var shallowD := -0.5 * shallow / depth;
    var denominator := offshore + shallow;
    Positive(denominator, denominator, denominator * denominator);
    shallowD * (1.0 - blend * offshore * offshore / (denominator * denominator))
  }

  // ---------------------------------------------------------------- refraction

  lemma BlendRange(crossFraction: real)
    ensures 1.47 <= PhaseBlend(crossFraction) <= 2.97
  {
    hide BlendAt;
    BlendAtRange(1.0 - Clamp01(Abs(crossFraction)));
  }

  lemma BlendAtRange(o: real)
    requires 0.0 <= o <= 1.0
    ensures 1.47 <= BlendAt(o) <= 2.97
  {
    Square(o);
    ProductIsWithin(o, o, 1.0, 1.0, o * o, 1.0);
    assert PHASE_BLEND_QUADRATIC * o * o == PHASE_BLEND_QUADRATIC * (o * o);
  }

  /** However oblique, a wave keeps at least a quarter of its cross-shore number. */
  lemma CrossNumberIsPositive(offshore: real, shallow: real, crossFraction: real)
    requires offshore > 0.0 && shallow > 0.0
    ensures CrossNumber(offshore, shallow, PhaseBlend(crossFraction)) >= 0.25 * (offshore + shallow) > 0.0
  {
    hide PhaseBlend;
    var b := PhaseBlend(crossFraction);
    BlendRange(crossFraction);
    var p, q := offshore * shallow, offshore + shallow;
    Positive(offshore, shallow, p);
    MeanBound(offshore, shallow, p, q);
    Grow(b, 3.0, p);
    assert b * offshore * shallow == b * p;
    Quotient(b * p, 0.75 * q, q);
  }

  lemma MeanBound(a: real, b: real, p: real, q: real)
    requires p == a * b && q == a + b
    ensures 4.0 * p <= q * q
  {
    Square(a - b);
    assert q * q - 4.0 * p == (a - b) * (a - b);
  }

  lemma Quotient(x: real, y: real, q: real)
    requires q > 0.0 && x <= y * q
    ensures x / q <= y
  {
    Cancel(x / q, y, q, x, y * q);
  }

  /** Two roots of the same product, compared through q, the relative change of the root. */
  lemma RootChange(r0: real, r1: real, depth0: real, depth1: real, q: real, x: real)
    requires r0 > 0.0 && r1 > 0.0 && depth0 > 0.0 && depth1 > 0.0
    requires r0 * r0 * depth0 == r1 * r1 * depth1
    requires q * r1 == r1 - r0 && x * depth0 == depth1 - depth0
    ensures q < 1.0 && x == -q * (2.0 - q)
  {
    if q >= 1.0 { Grow(1.0, q, r1); }
    var p := 1.0 - q;
    assert r0 == r1 * p;
    assert depth1 == depth0 * (1.0 + x);
    SameProduct(r0, r1, depth0, depth1, p, 1.0 + x, r1 * r1 * depth0);
    assert p * p == 1.0 - 2.0 * q + q * q;
  }

  lemma SameProduct(r0: real, r1: real, depth0: real, depth1: real, p: real, y: real, m: real)
    requires r1 > 0.0 && depth0 > 0.0 && r0 == r1 * p && depth1 == depth0 * y && m == r1 * r1 * depth0
    requires r0 * r0 * depth0 == r1 * r1 * depth1
    ensures p * p == y
  {
    Positive(r1, r1, r1 * r1);
    Positive(r1 * r1, depth0, m);
    assert r0 * r0 * depth0 == p * p * m;
    assert r1 * r1 * depth1 == y * m;
    Cancel(p * p, y, m, p * p * m, y * m);
    Cancel(y, p * p, m, y * m, p * p * m);
  }

  /** The derivative of the root is right. */
  lemma RootRemainder(r0: real, r1: real, q: real, x: real, s: real)
    requires r1 > 0.0 && q < 1.0 && r0 == r1 * (1.0 - q) && x == -q * (2.0 - q) && s == x * x
    ensures 0.0 <= r1 - r0 + 0.5 * r0 * x <= r1 * s
    ensures (r1 - r0) * (r1 - r0) <= r1 * (r1 * s)
  {
    var t := q * q;
    Square(q);
    assert r1 - r0 + 0.5 * r0 * x == r1 * (t * (0.5 * (3.0 - q)));
    assert s == t * ((2.0 - q) * (2.0 - q));
    Grow(0.0, 0.5 * (3.0 - q), t);
    Grow(0.0, 1.0 - q, 2.5 - q);
    Grow(0.5 * (3.0 - q), (2.0 - q) * (2.0 - q), t);
    Grow(0.0, t * (0.5 * (3.0 - q)), r1);
    Grow(t * (0.5 * (3.0 - q)), s, r1);
    Grow(0.0, 1.0 - q, 3.0 - q);
    Grow(1.0, (2.0 - q) * (2.0 - q), t);
    RootSquare(r0, r1, q, t, s);
  }

  lemma RootSquare(r0: real, r1: real, q: real, t: real, s: real)
    requires r1 > 0.0 && r0 == r1 * (1.0 - q) && t == q * q && t <= s
    ensures (r1 - r0) * (r1 - r0) <= r1 * (r1 * s)
  {
    assert (r1 - r0) * (r1 - r0) == r1 * (r1 * t);
    Grow(t, s, r1);
    Grow(r1 * t, r1 * s, r1);
  }

  /** The blend's quotient and its derivative: the remainder is exact. */
  lemma QuotientRemainder(a: real, r0: real, r1: real, d: real, u: real, v: real, f0: real, f1: real, t: real)
    requires a > 0.0 && r0 > 0.0 && r1 > 0.0 && d == r1 - r0 && t == u * u
    requires u * (a + r0) == a && v * (a + r1) == 1.0 && f0 == u * r0 && f1 == a * r1 * v
    ensures f1 - f0 == d * t - t * (d * d) * v
  {
    var w := a + r1;
    var left, right := f1 - f0, d * t - t * (d * d) * v;
    LeftTimes(a, r0, r1, u, v, f0, f1, w);
    RightTimes(a, r0, d, u, v, t, w);
    Cancel(left, right, w, left * w, right * w);
    Cancel(right, left, w, right * w, left * w);
  }

  lemma LeftTimes(a: real, r0: real, r1: real, u: real, v: real, f0: real, f1: real, w: real)
    requires w == a + r1 && v * w == 1.0 && f0 == u * r0 && f1 == a * r1 * v && u * (a + r0) == a
    ensures (f1 - f0) * w == a * (r1 - r0) - u * r0 * (r1 - r0)
  {
    assert f1 * w == a * r1;
    assert f0 * w == r0 * (u * (a + r0)) + u * r0 * (r1 - r0);
  }

  lemma RightTimes(a: real, r0: real, d: real, u: real, v: real, t: real, w: real)
    requires w == a + r0 + d && v * w == 1.0 && t == u * u && u * (a + r0) == a
    ensures (d * t - t * (d * d) * v) * w == a * d - u * r0 * d
  {
    var n := a + r0;
    assert t * n == u * a;
    assert t * (d * d) * v * w == t * (d * d);
    assert d * t * w == d * (u * a) + t * (d * d);
    assert u * a == a - u * r0;
  }

  lemma Fractions(a: real, r: real, u: real)
    requires a > 0.0 && r > 0.0 && u == a / (a + r)
    ensures 0.0 < u < 1.0 && u * (a + r) == a && u * u < 1.0
  {
    var w := a + r;
    assert u * w == a;
    if u <= 0.0 { Grow(u, 0.0, w); }
    if u >= 1.0 { Grow(1.0, u, w); }
    Grow(u, 1.0, u);
  }

  lemma Inverse(a: real, r: real, v: real)
    requires a > 0.0 && r > 0.0 && v == 1.0 / (a + r)
    ensures v > 0.0 && v * (a + r) == 1.0 && r * v <= 1.0
  {
    var w := a + r;
    assert v * w == 1.0;
    if v <= 0.0 { Grow(v, 0.0, w); }
    Positive(a, v, a * v);
    assert r * v == 1.0 - a * v;
  }

  /** Both parts of the error, put together. */
  lemma RefractionError(d: real, r0: real, r1: real, x: real, s: real, t: real, v: real, b: real,
                        root: real, e: real)
    requires r1 > 0.0 && 0.0 <= s && 0.0 <= t <= 1.0 && 0.0 <= v && r1 * v <= 1.0 && 0.0 <= b <= 2.97
    requires root == d + 0.5 * r0 * x && 0.0 <= root <= r1 * s && d * d <= r1 * (r1 * s)
    requires e == (1.0 - b * t) * root + b * (t * (d * d) * v)
    ensures Within(e, 5.0 * (r1 * s))
  {
    var m, bt, d2 := r1 * s, b * t, d * d;
    var w, first, second := d2 * v, (1.0 - bt) * root, bt * (d2 * v);
    ProductIsWithin(b, t, 2.97, 1.0, bt, 2.97);
    ProductIsPositive(b, t, bt);
    ProductIsWithin(1.0 - bt, root, 1.97, m, first, 1.97 * m);
    Square(d);
    SecondOrder(d2, v, r1, m, r1 * m, r1 * v, w);
    ProductIsWithin(bt, w, 2.97, m, second, 2.97 * m);
    ErrorParts(t, d2, v, b, root, bt, first, second, e);
  }

  lemma SecondOrder(d2: real, v: real, r: real, m: real, rm: real, rv: real, w: real)
    requires 0.0 <= d2 <= rm && 0.0 <= v && 0.0 <= m && rm == r * m && rv == r * v && rv <= 1.0 && w == d2 * v
    ensures 0.0 <= w <= m
  {
    ProductIsPositive(d2, v, w);
    Grow(d2, rm, v);
    Grow(rv, 1.0, m);
    assert rm * v == rv * m;
  }

  lemma ErrorParts(t: real, d2: real, v: real, b: real, root: real, bt: real, first: real, second: real, e: real)
    requires bt == b * t && first == (1.0 - bt) * root && second == bt * (d2 * v)
    requires e == (1.0 - b * t) * root + b * (t * d2 * v)
    ensures e == first + second
  {
  }

  /** crossShoreWavenumberDepthDerivative is the derivative of crossShoreWavenumber in the depth:
      between any two depths the error is at most quadratic in the relative change of depth. */
  lemma RefractionDerivativeIsRight(deep: real, offshore: real, crossFraction: real,
                                    r0: real, r1: real, depth0: real, depth1: real)
    requires deep > 0.0 && offshore > 0.0 && r0 > 0.0 && r1 > 0.0 && depth0 > 0.0 && depth1 > 0.0
    requires r0 * r0 * depth0 == deep && r1 * r1 * depth1 == deep
    ensures var b, change := PhaseBlend(crossFraction), (depth1 - depth0) / depth0;
            Within(CrossNumber(offshore, r1, b) - CrossNumber(offshore, r0, b)
                     - CrossNumberDerivative(offshore, r0, b, depth0) * (depth1 - depth0),
                   5.0 * (r1 * (change * change)))
  {
    hide PhaseBlend, CrossNumber, CrossNumberDerivative;
    var a, b, x := offshore, PhaseBlend(crossFraction), (depth1 - depth0) / depth0;
    var d, q, s := r1 - r0, (r1 - r0) / r1, x * x;
    RootChange(r0, r1, depth0, depth1, q, x);
    RootRemainder(r0, r1, q, x, s);
    BlendRange(crossFraction);
    var u, v := a / (a + r0), 1.0 / (a + r1);
    Fractions(a, r0, u);
    Inverse(a, r1, v);
    Square(u);
    Square(x);
    var e := CrossNumber(a, r1, b) - CrossNumber(a, r0, b)
             - CrossNumberDerivative(a, r0, b, depth0) * (depth1 - depth0);
    ErrorShape(a, r0, r1, b, depth0, depth1, x, d, u, v, u * u);
    RefractionError(d, r0, r1, x, s, u * u, v, b, d + 0.5 * r0 * x, e);
  }

  lemma ErrorShape(a: real, r0: real, r1: real, b: real, depth0: real, depth1: real,
                   x: real, d: real, u: real, v: real, t: real)
    requires a > 0.0 && r0 > 0.0 && r1 > 0.0 && depth0 > 0.0
    requires x == (depth1 - depth0) / depth0 && d == r1 - r0 && t == u * u
    requires u * (a + r0) == a && v * (a + r1) == 1.0
    ensures CrossNumber(a, r1, b) - CrossNumber(a, r0, b) - CrossNumberDerivative(a, r0, b, depth0) * (depth1 - depth0)
         == (1.0 - b * t) * (d + 0.5 * r0 * x) + b * (t * (d * d) * v)
  {
    hide CrossNumber, CrossNumberDerivative;
    var e := CrossNumber(a, r1, b) - CrossNumber(a, r0, b)
             - CrossNumberDerivative(a, r0, b, depth0) * (depth1 - depth0);
    var f0, f1 := u * r0, a * r1 * v;
    QuotientRemainder(a, r0, r1, d, u, v, f0, f1, t);
    NumberShape(a, r0, b, u / a, f0);
    NumberShape(a, r1, b, v, f1);
    DerivativeShape(a, r0, b, depth0, depth1, x, u, t);
    Collect(d, r0, x, t, v, b, f0, f1, e);
  }

  lemma NumberShape(a: real, r: real, b: real, v: real, f: real)
    requires a > 0.0 && r > 0.0 && v * (a + r) == 1.0 && f == a * r * v
    ensures CrossNumber(a, r, b) == a + r - b * f
  {
    var w, n := a + r, b * a * r;
    assert n / w * w == n;
    assert b * f * w == n;
    Cancel(n / w, b * f, w, n, n);
    Cancel(b * f, n / w, w, n, n);
  }

  lemma DerivativeShape(a: real, r: real, b: real, depth0: real, depth1: real, x: real, u: real, t: real)
    requires a > 0.0 && r > 0.0 && depth0 > 0.0 && u * (a + r) == a && t == u * u
    requires x == (depth1 - depth0) / depth0
    ensures CrossNumberDerivative(a, r, b, depth0) * (depth1 - depth0) == -0.5 * r * x * (1.0 - b * t)
  {
    var w := a + r;
    Positive(w, w, w * w);
    var n := b * a * a;
    assert b * t * (w * w) == n;
    assert n / (w * w) * (w * w) == n;
    Cancel(n / (w * w), b * t, w * w, n, n);
    Cancel(b * t, n / (w * w), w * w, n, n);
    var g, e := -0.5 * r / depth0, depth1 - depth0;
    assert x * depth0 == e && g * depth0 == -0.5 * r;
    assert g * e == -0.5 * r * x;
    assert g * (1.0 - b * t) * e == g * e * (1.0 - b * t);
  }

  lemma Collect(d: real, r0: real, x: real, t: real, v: real, b: real, f0: real, f1: real, e: real)
    requires f1 - f0 == d * t - t * (d * d) * v
    requires e == d - b * f1 + b * f0 - (-0.5 * r0 * x * (1.0 - b * t))
    ensures e == (1.0 - b * t) * (d + 0.5 * r0 * x) + b * (t * (d * d) * v)
  {
    assert b * f1 - b * f0 == b * (d * t - t * (d * d) * v);
  }

  /** Over a shelving bed the cross-shore number changes by at most twice itself per unit of relative
      depth: whichever of its two limits rules, the blend damps the other's share. */
  lemma RefractionIsGentle(offshore: real, shallow: real, crossFraction: real, depth: real)
    requires offshore > 0.0 && shallow > 0.0 && depth > 0.0
    ensures var b := PhaseBlend(crossFraction);
            Within(CrossNumberDerivative(offshore, shallow, b, depth) * depth, 2.0 * CrossNumber(offshore, shallow, b))
  {
    hide PhaseBlend, CrossNumber, CrossNumberDerivative;
    var b, w := PhaseBlend(crossFraction), offshore + shallow;
    var u := offshore / w;
    BlendRange(crossFraction);
    Fractions(offshore, shallow, u);
    CrossNumberIsPositive(offshore, shallow, crossFraction);
    Square(u);
    DerivativeAtUnitStep(offshore, shallow, b, depth, u, u * u);
    DampedShare(u, 1.0 - u, b, u * u, 1.0 - b * (u * u), (1.0 - u) * (1.0 - b * (u * u)));
    assert shallow == w * (1.0 - u);
    SharedOut(w, u, 1.0 - b * (u * u), shallow, (1.0 - u) * (1.0 - b * (u * u)));
  }

  lemma DerivativeAtUnitStep(a: real, r: real, b: real, depth: real, u: real, t: real)
    requires a > 0.0 && r > 0.0 && depth > 0.0 && u * (a + r) == a && t == u * u
    ensures CrossNumberDerivative(a, r, b, depth) * depth == -0.5 * (r * (1.0 - b * t))
  {
    hide CrossNumberDerivative;
    assert (2.0 * depth - depth) / depth == 1.0;
    DerivativeShape(a, r, b, depth, 2.0 * depth, 1.0, u, t);
  }

  lemma DampedShare(u: real, n: real, b: real, t: real, x: real, p: real)
    requires 0.0 < u < 1.0 && n == 1.0 - u && 0.0 <= b <= 2.97 && t == u * u && x == 1.0 - b * t && p == n * x
    ensures Within(p, 1.0)
  {
    var tn := t * n;
    var btn := b * tn;
    SmallShare(u, n, t, u * n, tn);
    ProductIsPositive(b, tn, btn);
    ProductIsWithin(b, tn, 2.97, 0.25, btn, 2.97 * 0.25);
    ShareIdentity(n, b, t, x, p, tn, btn);
  }

  lemma SmallShare(u: real, n: real, t: real, un: real, tn: real)
    requires 0.0 < u < 1.0 && n == 1.0 - u && t == u * u && un == u * n && tn == t * n
    ensures 0.0 <= tn <= 0.25
  {
    QuarterAtMost(u, n, un);
    Square(u);
    ProductIsPositive(t, n, tn);
    ProductIsPositive(u, n, un);
    Shrink(u, un, tn);
  }

  lemma Shrink(u: real, un: real, tn: real)
    requires 0.0 < u < 1.0 && 0.0 <= un && tn == u * un
    ensures tn <= un
  {
    Grow(u, 1.0, un);
  }

  lemma QuarterAtMost(u: real, n: real, p: real)
    requires n == 1.0 - u && p == u * n
    ensures p <= 0.25
  {
    Square(u - 0.5);
    assert p == 0.25 - (u - 0.5) * (u - 0.5);
  }

  lemma ShareIdentity(n: real, b: real, t: real, x: real, p: real, tn: real, btn: real)
    requires x == 1.0 - b * t && p == n * x && tn == t * n && btn == b * tn
    ensures p == n - btn
  {
  }

  lemma SharedOut(w: real, u: real, x: real, shallow: real, p: real)
    requires w > 0.0 && shallow == w * (1.0 - u) && p == (1.0 - u) * x && Within(p, 1.0)
    ensures Within(-0.5 * (shallow * x), 0.5 * w)
  {
    assert shallow * x == w * p;
    ProductIsWithin(w, p, w, 1.0, w * p, w);
  }
}
