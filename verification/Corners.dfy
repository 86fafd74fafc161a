/**
 Where the amplitude scale of frontend/src/3d/ocean-wave-model.js has the derivative written for it:
 everywhere, except where the breaking limit takes over or lets go. There the scale has a corner.
 */
module Corners {
  import opened Shore
  import opened Slopes

  /** The scale a step `h` from `d`, predicted by its own derivative up to C * h * h. */
  predicate ScaleStep(d: real, c: real, h: real) {
    var at, next := ShoreHydrodynamics(d), ShoreHydrodynamics(d + h);
    Within(next.scale - at.scale - at.scaleDerivative * h, c * (h * h))
  }

  ghost predicate PredictsScale(d: real, c: real) {
    forall h :: ScaleStep(d, c, h)
  }

  /** The derivative predicts the scale to second order on both sides. */
  ghost predicate IsSmooth(d: real) {
    exists c :: c >= 0.0 && PredictsScale(d, c)
  }

  function Gap(d: real): real {
    Abs(ShoreHydrodynamics(d).breakingLimit - ShoreHydrodynamics(d).unlimited)
  }

  // ---------------------------------------------------------------- no corner

  lemma LimitIsSteady(d: real, h: real)
    ensures Within(ShoreHydrodynamics(d + h).breakingLimit - ShoreHydrodynamics(d).breakingLimit, 0.012 * Abs(h))
  {
    hide Envelope, EnvelopeDerivative;
  }

  lemma EnvelopeIsSteady(d: real, h: real)
    ensures Within(ShoreHydrodynamics(d + h).unlimited - ShoreHydrodynamics(d).unlimited, 0.2 * Abs(h))
  {
    hide ShoreHydrodynamics, Envelope, EnvelopeDerivative;
    UnlimitedIsEnvelope(d);
    UnlimitedIsEnvelope(d + h);
    EnvelopeDerivativeIsRight(d, h);
  }

  /** Too small a step to close the gap does not switch. */
  lemma NoSwitch(d: real, h: real)
    ensures 0.25 * Abs(h) < Gap(d) ==>
              ShoreHydrodynamics(d).DepthLimited() == ShoreHydrodynamics(d + h).DepthLimited()
  {
    hide ShoreHydrodynamics;
    LimitIsSteady(d, h);
    EnvelopeIsSteady(d, h);
  }

  function Constant(gap: real): real
    requires gap > 0.0
  {
    (1.0 + 1.0 / gap) * (1.0 + 1.0 / gap)
  }

  lemma Inverse(gap: real, i: real)
    requires gap > 0.0 && i == 1.0 / gap
    ensures i > 0.0 && i * gap == 1.0
  {
    assert i * gap == 1.0;
    if i <= 0.0 { Grow(i, 0.0, gap); }
  }

  lemma ConstantIsLarge(gap: real)
    requires gap > 0.0
    ensures Constant(gap) >= 1.0
  {
    var i := 1.0 / gap;
    Inverse(gap, i);
    Grow(1.0, 1.0 + i, 1.0 + i);
  }

  /** A step that may switch is long enough for the scale's own range to be of second order. */
  lemma LongSteps(gap: real, a: real, s: real)
    requires gap > 0.0 && gap <= 0.25 * a && s == a * a
    ensures 1.52 + 0.082 * a <= Constant(gap) * s
  {
    var i := 1.0 / gap;
    Inverse(gap, i);
    var b := (1.0 + i) * a;
    assert b >= a + 4.0 by { Grow(gap, 0.25 * a, i); }
    Regroup(1.0 + i, a, s, b, Constant(gap));
    Grow(4.0, b, b);
  }

  lemma Regroup(i: real, a: real, s: real, b: real, c: real)
    requires s == a * a && b == i * a && c == i * i
    ensures c * s == b * b
  {
  }

  lemma RangeStep(at: real, next: real, slope: real, h: real, a: real, most: real)
    requires 0.0 <= at <= 1.52 && 0.0 <= next <= 1.52 && Within(slope, 0.082) && a == Abs(h) && 1.52 + 0.082 * a <= most
    ensures Within(next - at - slope * h, most)
  {
    ProductIsWithin(slope, h, 0.082, a, slope * h, 0.082 * a);
  }

  lemma SmoothAwayFromTheLimit(d: real, h: real)
    ensures Gap(d) > 0.0 ==> ScaleStep(d, Constant(Gap(d)), h)
  {
    hide ShoreHydrodynamics, Gap, Constant;
    var gap, a, s := Gap(d), Abs(h), h * h;
    if gap > 0.0 { ConstantIsLarge(gap); }
    if gap <= 0.0 {
    } else if 0.25 * a < gap {
      NoSwitch(d, h);
      ScaleIsPredicted(d, h);
      Square(h);
      Grow(0.025, Constant(gap), s);
    } else {
      assert s == a * a;
      LongSteps(gap, a, s);
      ScaleIsLimited(d);
      ScaleIsLimited(d + h);
      ScaleIsGentle(d);
      RangeStep(ShoreHydrodynamics(d).scale, ShoreHydrodynamics(d + h).scale, ShoreHydrodynamics(d).scaleDerivative,
               h, a, Constant(gap) * s);
    }
  }

  // ---------------------------------------------------------------- corners

  /** Where the limit lets go of the envelope, or takes over, their slopes differ. */
  lemma SlopesDiffer(d: real)
    ensures Gap(d) == 0.0 ==> d > 1.5 && ShoreHydrodynamics(d).unlimitedDerivative != LIMIT_DERIVATIVE
  {
    hide Envelope, EnvelopeDerivative;
    UnlimitedIsEnvelope(d);
    LimitIsALine(d);
    if Gap(d) != 0.0 {
    } else if d <= 1.5 {
      DryEnvelope(d);
    } else if d < 18.0 {
      RisesThroughTheLimit(d);
    } else {
      FallsBehindTheLimit(d);
    }
  }

  /** In the shallows the envelope outruns the limit. */
  lemma RisesThroughTheLimit(d: real)
    requires 1.5 < d < 18.0 && Envelope(d) == BreakingLimit(Depth(d))
    ensures EnvelopeDerivative(d) > LIMIT_DERIVATIVE
  {
    hide Envelope, EnvelopeDerivative, SmoothstepDerivative, Cubic;
    var t := (d - 1.5) / (18.0 - 1.5);
    EarlyUnderTheLimit(d, t);
    ShallowEnvelope(d);
    SlopeTimes(1.5, 18.0, d, t);
    assert Smoothstep(1.5, 18.0, d) == Cubic(t);
    NotAtTheVeryEdge(t, Cubic(t));
  }

  lemma NotAtTheVeryEdge(t: real, f: real)
    requires 0.0 < t < 0.18 && f == Cubic(t) && f * 1.52 >= 0.07
    ensures 6.0 * t * (1.0 - t) > 0.4
  {
    if t <= 0.1 {
      Grow(t, 0.1, t);
      ProductIsPositive(t, t, t * t);
      Grow(3.0 - 2.0 * t, 3.0, t * t);
    }
    Grow(0.1, t, 1.0 - t);
  }

  /** Past the fade the envelope rises by less than the limit does. */
  lemma FallsBehindTheLimit(d: real)
    requires 18.0 <= d
    ensures EnvelopeDerivative(d) < LIMIT_DERIVATIVE
  {
    hide Smoothstep, SmoothstepDerivative, UnlimitedDerivative, Breaker, BreakerDerivative;
    After(1.5, 18.0, d);
    SmoothRange(45.0, 230.0, d);
    SmoothSlope(45.0, 230.0, d, 0.0082);
    SmoothRange(12.0, 34.0, d);
    SmoothSlope(12.0, 34.0, d, 0.0682);
    SmoothRange(68.0, 118.0, d);
    SmoothSlope(68.0, 118.0, d, 0.03);
    var r, rd, l, ld :=
      Smoothstep(12.0, 34.0, d), SmoothstepDerivative(12.0, 34.0, d),
      Smoothstep(68.0, 118.0, d), SmoothstepDerivative(68.0, 118.0, d);
    BreakerSlope(r, rd, l, ld);
    BreakerFalls(r, rd, l, ld, 1.0 - l);
    SlowRise(Shoaling(Smoothstep(45.0, 230.0, d)), ShoalingDerivative(SmoothstepDerivative(45.0, 230.0, d)),
             Dissipation(Breaker(r, l)), DissipationDerivative(BreakerDerivative(r, rd, l, ld)));
  }

  lemma BreakerFalls(r: real, rd: real, l: real, ld: real, n: real)
    requires 0.0 <= r <= 1.0 && 0.0 <= rd && n == 1.0 - l && 0.0 <= n && 0.0 <= ld <= 0.03
    ensures BreakerDerivative(r, rd, l, ld) >= -0.03
  {
    hide BreakerDerivative;
    var x, y := rd * n, r * ld;
    BreakerTerms(r, rd, l, ld, n, x, y);
    ProductIsPositive(rd, n, x);
    ProductIsWithin(r, ld, 1.0, 0.03, y, 0.03);
  }

  lemma BreakerTerms(r: real, rd: real, l: real, ld: real, n: real, x: real, y: real)
    requires n == 1.0 - l && x == rd * n && y == r * ld
    ensures BreakerDerivative(r, rd, l, ld) == x - y
  {
  }

  lemma SlowRise(g: real, gd: real, k: real, kd: real)
    requires 1.0 <= g <= 1.52 && gd <= 0.0 && 0.0 <= k <= 1.0 && kd <= 0.0066
    ensures UnlimitedDerivative(1.0, 0.0, g, gd, k, kd) <= 0.0101
  {
    Grow(gd, 0.0, k);
    Grow(kd, 0.0066, g);
  }

  /** The side on which the limit falls away from the envelope's tangent. */
  function Side(slope: real): real { if slope > LIMIT_DERIVATIVE then 1.0 else -1.0 }

  /** On that side the scale misses its derivative by a first-order amount. */
  lemma CornerStep(d: real, t: real)
    requires d > 1.5 && 0.0 < t < 1.0
    ensures var at := ShoreHydrodynamics(d);
            var h := Side(at.unlimitedDerivative) * t;
            Gap(d) == 0.0 ==>
              ShoreHydrodynamics(d + h).scale - at.scale - at.scaleDerivative * h
                <= -(Abs(at.unlimitedDerivative - LIMIT_DERIVATIVE) * t)
  {
    hide Envelope, EnvelopeDerivative, BreakingLimit, Depth;
    LimitIsALine(d);
    LimitIsALine(d + Side(ShoreHydrodynamics(d).unlimitedDerivative) * t);
  }

  /** No constant makes a first-order miss second order. */
  lemma NotSecondOrder(miss: real, c: real, t: real, s: real)
    requires miss > 0.0 && c >= 0.0 && t == miss / (miss + c + 1.0) && s == t * t
    ensures 0.0 < t < 1.0 && c * s < miss * t
  {
    var w := miss + c + 1.0;
    assert t * w == miss;
    if t <= 0.0 { Grow(t, 0.0, w); }
    if t >= 1.0 { Grow(1.0, t, w); }
    Positive(miss + 1.0, t, (miss + 1.0) * t);
    assert c * t == miss - (miss + 1.0) * t;
    Positive(miss - c * t, t, (miss - c * t) * t);
    assert c * s == c * t * t;
  }

  lemma CornerIsNotSmooth(d: real, c: real)
    requires c >= 0.0
    ensures Gap(d) == 0.0 ==> exists h :: !ScaleStep(d, c, h)
  {
    hide ShoreHydrodynamics, Gap;
    if Gap(d) == 0.0 {
      SlopesDiffer(d);
      var slope := ShoreHydrodynamics(d).unlimitedDerivative;
      var miss := Abs(slope - LIMIT_DERIVATIVE);
      var t := miss / (miss + c + 1.0);
      var h := Side(slope) * t;
      assert h * h == t * t;
      NotSecondOrder(miss, c, t, h * h);
      CornerStep(d, t);
      assert !ScaleStep(d, c, h);
    }
  }

  /** The derivative written for the scale is its derivative exactly where envelope and limit differ:
      wherever they meet, their slopes do not. */
  lemma SmoothIffApart(d: real)
    ensures IsSmooth(d) <==> ShoreHydrodynamics(d).breakingLimit != ShoreHydrodynamics(d).unlimited
  {
    hide ShoreHydrodynamics, ScaleStep, Constant;
    if Gap(d) == 0.0 {
      forall c: real | c >= 0.0 ensures !PredictsScale(d, c) {
        CornerIsNotSmooth(d, c);
      }
    } else {
      ConstantIsLarge(Gap(d));
      forall h: real ensures ScaleStep(d, Constant(Gap(d)), h) {
        SmoothAwayFromTheLimit(d, h);
      }
      assert PredictsScale(d, Constant(Gap(d)));
    }
  }
}
