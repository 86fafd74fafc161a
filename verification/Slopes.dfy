/**
 How steep the shore envelope can be where it counts: the amplitude scale of
 frontend/src/3d/ocean-wave-model.js never changes by more than 0.082 per unit of distance, because
 the breaking limit takes over long before the envelope is at its steepest.
 */
module Slopes {
  import opened Shore

  // ---------------------------------------------------------------- one smoothstep

  lemma SlopeTimes(low: real, high: real, d: real, t: real)
    requires low < high && t == (d - low) / (high - low)
    ensures SmoothstepDerivative(low, high, d) * (high - low) == Slope(t)
  {
    var w := high - low;
    assert t * w == d - low;
    Ends(t, w, d - low);
  }

  lemma SlopeRange(t: real)
    ensures 0.0 <= Slope(t) <= 1.5
  {
    if 0.0 < t < 1.0 {
      Grow(0.0, t, 1.0 - t);
      Square(t - 0.5);
      assert 6.0 * t * (1.0 - t) == 1.5 - 6.0 * ((t - 0.5) * (t - 0.5));
    }
  }

  lemma SmoothSlope(low: real, high: real, d: real, bound: real)
    requires low < high && 1.5 <= bound * (high - low)
    ensures 0.0 <= SmoothstepDerivative(low, high, d) <= bound
  {
    hide SmoothstepDerivative, Slope;
    var w, j, t := high - low, SmoothstepDerivative(low, high, d), (d - low) / (high - low);
    SlopeTimes(low, high, d, t);
    SlopeRange(t);
    Cancel(0.0, j, w, 0.0, j * w);
    Cancel(j, bound, w, j * w, bound * w);
  }

  lemma SmoothRange(low: real, high: real, d: real)
    requires low < high
    ensures 0.0 <= Smoothstep(low, high, d) <= 1.0
  {
    CubicRange(Clamp01((d - low) / (high - low)));
  }

  /** Before its edges a smoothstep has not begun, after them it is over. */
  lemma Before(low: real, high: real, d: real)
    requires low < high && d <= low
    ensures Smoothstep(low, high, d) == 0.0 && SmoothstepDerivative(low, high, d) == 0.0
  {
    Ends((d - low) / (high - low), high - low, d - low);
  }

  lemma After(low: real, high: real, d: real)
    requires low < high && high <= d
    ensures Smoothstep(low, high, d) == 1.0 && SmoothstepDerivative(low, high, d) == 0.0
  {
    Ends((d - low) / (high - low), high - low, d - low);
  }

  // ---------------------------------------------------------------- past the fade

  lemma BreakerSlope(rise: real, riseD: real, fall: real, fallD: real)
    requires 0.0 <= rise <= 1.0 && 0.0 <= fall <= 1.0 && 0.0 <= riseD <= 0.0682 && 0.0 <= fallD <= 0.03
    ensures Within(BreakerDerivative(rise, riseD, fall, fallD), 0.0982)
    ensures 0.0 <= Breaker(rise, fall) <= 1.0
  {
    BreakerBounds(rise, riseD, fall, fallD, 1.0 - fall);
  }

  lemma BreakerBounds(rise: real, riseD: real, fall: real, fallD: real, n: real)
    requires 0.0 <= rise <= 1.0 && 0.0 <= n <= 1.0 && n == 1.0 - fall && 0.0 <= riseD <= 0.0682 && 0.0 <= fallD <= 0.03
    ensures Within(BreakerDerivative(rise, riseD, fall, fallD), 0.0982)
    ensures 0.0 <= Breaker(rise, fall) <= 1.0
  {
    hide Breaker;
    BreakerFactors(rise, fall, n);
    ProductIsWithin(riseD, n, 0.0682, 1.0, riseD * n, 0.0682);
    ProductIsWithin(rise, fallD, 1.0, 0.03, rise * fallD, 0.03);
    ProductIsWithin(rise, n, 1.0, 1.0, rise * n, 1.0);
    ProductIsPositive(riseD, n, riseD * n);
    ProductIsPositive(rise, fallD, rise * fallD);
    ProductIsPositive(rise, n, rise * n);
  }

  lemma PastTheFade(g: real, gd: real, k: real, kd: real)
    requires Within(g, 1.52) && Within(gd, 0.0043) && Within(k, 1.0) && Within(kd, 0.022)
    ensures Within(UnlimitedDerivative(1.0, 0.0, g, gd, k, kd), 0.038)
  {
    ProductIsWithin(gd, k, 0.0043, 1.0, gd * k, 0.0043);
    ProductIsWithin(g, kd, 1.52, 0.022, g * kd, 0.03344);
  }

  lemma FarSlope(d: real)
    requires 18.0 <= d
    ensures Within(EnvelopeDerivative(d), 0.038)
  {
    hide Smoothstep, SmoothstepDerivative, UnlimitedDerivative, Breaker, BreakerDerivative;
    After(1.5, 18.0, d);
    SmoothRange(45.0, 230.0, d);
    SmoothSlope(45.0, 230.0, d, 0.0082);
    SmoothRange(12.0, 34.0, d);
    SmoothSlope(12.0, 34.0, d, 0.0682);
    SmoothRange(68.0, 118.0, d);
    SmoothSlope(68.0, 118.0, d, 0.03);
    var r, rd, l, ld :=
      Smoothstep(12.0, 34.0, d), SmoothstepDerivative(12.0, 34.0, d),
      Smoothstep(68.0, 118.0, d), SmoothstepDerivative(68.0, 118.0, d);
    BreakerSlope(r, rd, l, ld);
    PastTheFade(Shoaling(Smoothstep(45.0, 230.0, d)), ShoalingDerivative(SmoothstepDerivative(45.0, 230.0, d)),
                Dissipation(Breaker(r, l)), DissipationDerivative(BreakerDerivative(r, rd, l, ld)));
  }

  // ---------------------------------------------------------------- within the fade

  /** A cubic under a line through the origin's neighbourhood has not come far. */
  lemma UnderTheLimit(t: real, f: real, u: real, limit: real, k: real)
    requires 0.0 <= t <= 1.0 && f == Cubic(t) && limit == 0.0909 + 0.1905 * t && u <= limit
    requires 0.78 <= k <= 1.0 && u == f * 1.52 * k
    ensures t < 0.25
  {
    if t >= 0.25 {
      CubicAboveLine(t, 0.25, 0.625);
      AboveLimit(f, k, t);
    }
  }

  lemma AboveLimit(f: real, k: real, t: real)
    requires 0.25 <= t && 0.625 * t <= f && 0.78 <= k
    ensures f * 1.52 * k > 0.0909 + 0.1905 * t
  {
    Grow(0.78, k, f * 1.52);
  }

  lemma CubicAboveLine(t: real, from: real, slope: real)
    requires 0.0 <= from <= t && slope == from * (3.0 - 2.0 * from) && t <= 1.0 && from + t <= 1.5
    ensures slope * t <= Cubic(t)
  {
    var q := t * (3.0 - 2.0 * t);
    assert q - slope == (t - from) * (3.0 - 2.0 * (t + from));
    Grow(0.0, t - from, 3.0 - 2.0 * (t + from));
    Grow(slope, q, t);
    assert q * t == Cubic(t);
  }

  lemma UnderTheLimitEarly(t: real, f: real, u: real, limit: real)
    requires 0.0 <= t < 0.25 && f == Cubic(t) && limit == 0.0909 + 0.1905 * t && u <= limit && u == f * 1.52
    ensures t < 0.18
  {
    if t >= 0.18 { CubicAboveLine(t, 0.18, 0.4752); }
  }

  lemma EarlySlope(t: real)
    requires 0.0 < t < 0.18
    ensures 0.0 <= 6.0 * t * (1.0 - t) <= 0.8856
  {
    Grow(0.0, t, 1.0 - t);
    Grow(0.0, 0.18 - t, 0.82 - t);
    assert 0.18 * 0.82 - t * (1.0 - t) == (0.18 - t) * (0.82 - t);
  }

  lemma NoBreaker()
    ensures Breaker(0.0, 0.0) == 0.0 && BreakerDerivative(0.0, 0.0, 0.0, 0.0) == 0.0
    ensures Shoaling(0.0) == 1.52 && ShoalingDerivative(0.0) == 0.0
    ensures Dissipation(0.0) == 1.0 && DissipationDerivative(0.0) == 0.0
  {
  }

  /** In the shallows the envelope is the fade alone. */
  lemma ShallowEnvelope(d: real)
    requires d <= 12.0
    ensures Envelope(d) == Smoothstep(1.5, 18.0, d) * 1.52
    ensures EnvelopeDerivative(d) == SmoothstepDerivative(1.5, 18.0, d) * 1.52
  {
    hide Smoothstep, SmoothstepDerivative, Breaker, BreakerDerivative, Shoaling, ShoalingDerivative,
         Dissipation, DissipationDerivative;
    Before(45.0, 230.0, d);
    Before(12.0, 34.0, d);
    Before(68.0, 118.0, d);
    NoBreaker();
  }

  /** Before the shoaling ends, whatever breaks takes less than a quarter. */
  lemma FadingEnvelope(d: real) returns (k: real)
    requires d <= 18.0
    ensures 0.78 <= k <= 1.0 && Envelope(d) == Smoothstep(1.5, 18.0, d) * 1.52 * k
  {
    hide Smoothstep, SmoothstepDerivative, Breaker, BreakerDerivative, Shoaling, ShoalingDerivative;
    Before(45.0, 230.0, d);
    Before(68.0, 118.0, d);
    SmoothRange(12.0, 34.0, d);
    NoBreaker();
    BreakerSlope(Smoothstep(12.0, 34.0, d), 0.0, 0.0, 0.0);
    k := Dissipation(Breaker(Smoothstep(12.0, 34.0, d), Smoothstep(68.0, 118.0, d)));
  }

  /** Where the envelope is under the breaking limit inside the fade, it has only just begun. */
  lemma EarlyUnderTheLimit(d: real, t: real)
    requires 1.5 < d < 18.0 && t == (d - 1.5) / (18.0 - 1.5) && Envelope(d) <= BreakingLimit(Depth(d))
    ensures 0.0 < t < 0.18
  {
    hide Envelope, Cubic;
    var f := Smoothstep(1.5, 18.0, d);
    assert f == Cubic(t);
    var limit := 0.0909 + 0.1905 * t;
    assert BreakingLimit(Depth(d)) <= limit;
    var k := FadingEnvelope(d);
    UnderTheLimit(t, f, Envelope(d), limit, k);
    ShallowEnvelope(d);
    UnderTheLimitEarly(t, f, Envelope(d), limit);
  }

  lemma NearSlope(d: real)
    requires 1.5 < d < 18.0 && Envelope(d) <= BreakingLimit(Depth(d))
    ensures 0.0 <= EnvelopeDerivative(d) <= 0.082
  {
    hide Envelope, EnvelopeDerivative, SmoothstepDerivative;
    var t := (d - 1.5) / (18.0 - 1.5);
    EarlyUnderTheLimit(d, t);
    ShallowEnvelope(d);
    EarlySlope(t);
    SlopeTimes(1.5, 18.0, d, t);
  }

  /** The amplitude scale is gentle everywhere, on either side of the breaking limit. */
  lemma ScaleIsGentle(seaward: real)
    ensures Within(ShoreHydrodynamics(seaward).scaleDerivative, 0.082)
  {
    hide Envelope, EnvelopeDerivative;
    var d := if seaward < 0.0 then 0.0 else seaward;
    if ShoreHydrodynamics(seaward).DepthLimited() {
    } else if d <= 1.5 {
      DryEnvelope(d);
    } else if d < 18.0 {
      NearSlope(d);
    } else {
      FarSlope(d);
    }
  }
}
