/**
 What the two tangents of sampleGerstnerSurface are for: they predict the surface.

 A second sample is taken a step `h` away, along the shore or seaward, and compared with the first
 one coordinate by coordinate, the height included. Of sine and cosine only this is used, that each
 predicts the other as the phase turns: the error is at most `turn` times h * h. Then the tangent's
 prediction errs by at most a multiple of h * h that does not depend on the step.
 */
module Tangents {
  import opened Shore
  import opened Swell
  import opened Surface
  import opened Slopes
  import opened Predictions
  import D = Drift

  /** The slope predicts a change up to `error` times the squared step. */
  predicate Foretold(before: real, after: real, slope: real, h: real, error: real) {
    Within(after - before - slope * h, error * (h * h))
  }

  /** From p to q the tangent predicts every coordinate. */
  predicate Predicted(p: Point, q: Point, t: Tangent, h: real, error: Tangent) {
    && Foretold(p.x, q.x, t.x, h, error.x)
    && Foretold(p.z, q.z, t.z, h, error.z)
    && Foretold(p.height, q.height, t.height, h, error.height)
  }

  /** The slopes of sine and cosine, times a step over which the phase turns by `k` per unit. */
  function Rise(c: Component, k: real, h: real): real { c.cosine * k * h }

  function Fall(c: Component, k: real, h: real): real { -(c.sine * k * h) }

  /** The phase has turned by `k` per unit of the step. */
  predicate Turned(c: Component, c': Component, k: real, h: real, turn: real) {
    && Within(c'.sine - c.sine - Rise(c, k, h), turn * (h * h))
    && Within(c'.cosine - c.cosine - Fall(c, k, h), turn * (h * h))
  }

  function Add(e: Tangent, f: Tangent): Tangent { Tangent(e.x + f.x, e.z + f.z, e.height + f.height) }

  // ---------------------------------------------------------------- along the shore

  /** The same waves at the same distance, a step along the shore further. */
  ghost predicate Alongshore(cs: seq<Component>, cs': seq<Component>, h: real, turn: real) {
    && |cs'| == |cs|
    && forall i :: 0 <= i < |cs| ==>
         SamePlace(cs[i], cs'[i]) && Turned(cs[i], cs'[i], cs[i].Along(), h, turn)
  }

  function AlongError(cs: seq<Component>, shore: Hydrodynamics, turn: real): Tangent {
    Evenly(ScaledAmplitudes(cs, shore) * turn)
  }

  function Evenly(e: real): Tangent { Tangent(e, e, e) }

  function WaveError(c: Component, shore: Hydrodynamics, turn: real): real { Amplitude(c, shore) * turn }

  /** A coordinate that is `m` times sine or cosine, and its slope likewise. */
  predicate Follows(m: real, f0: real, f1: real, slope: real, before: real, after: real, t: real, h: real) {
    before == m * f0 && after == m * f1 && t * h == m * slope
  }

  /** It errs by no more than `limit` times what sine or cosine does. */
  lemma ScaledTurn(m: real, f0: real, f1: real, slope: real, limit: real, turn: real, h: real, e: real,
                   before: real, after: real, t: real)
    requires Within(f1 - f0 - slope, turn * (h * h)) && Within(m, limit) && e == limit * turn
    requires Follows(m, f0, f1, slope, before, after, t, h)
    ensures Foretold(before, after, t, h, e)
  {
    var ts, ls := turn * (h * h), e * (h * h);
    ErrorLimit(limit, turn, h * h, e, ts, ls);
    TurnedBy(m, f0, f1, slope, limit, ts, ls, before, after, t * h);
  }

  lemma ErrorLimit(limit: real, turn: real, s: real, e: real, ts: real, ls: real)
    requires e == limit * turn && ts == turn * s && ls == e * s
    ensures ls == limit * ts
  {
  }

  lemma TurnedBy(m: real, f0: real, f1: real, slope: real, limit: real, ts: real, ls: real,
                 before: real, after: real, th: real)
    requires Within(f1 - f0 - slope, ts) && Within(m, limit) && ls == limit * ts
    requires before == m * f0 && after == m * f1 && th == m * slope
    ensures Within(after - before - th, ls)
  {
    var x := f1 - f0 - slope;
    ProductIsWithin(m, x, limit, ts, m * x, ls);
    Factored(m, f0, f1, slope, x);
  }

  lemma Factored(m: real, f0: real, f1: real, slope: real, x: real)
    requires x == f1 - f0 - slope
    ensures m * x == m * f1 - m * f0 - m * slope
  {
  }

  function OrbitX(c: Component, shore: Hydrodynamics): real
    requires c.number > 0.0
  {
    DirX(c) * Horizontal(c, shore)
  }

  function OrbitZ(c: Component, shore: Hydrodynamics): real
    requires c.number > 0.0 && c.shallow > 0.0
  {
    DirZ(c) * Horizontal(c, shore)
  }

  /** What one wave moves a point by. */
  lemma Orbit(c: Component, shore: Hydrodynamics)
    requires c.number > 0.0 && c.shallow > 0.0 && shore.depth > 0.0
    ensures var q := Contribution(c, shore);
            && q.x == OrbitX(c, shore) * c.cosine && q.z == OrbitZ(c, shore) * c.cosine
            && q.height == Amplitude(c, shore) * c.sine
  {
    hide DirX, DirZ, Horizontal, Amplitude, Component.Along, Component.Cross, Drift, Squeeze, Push;
  }

  /** And its part of the tangent along the shore. */
  lemma AlongSlope(c: Component, shore: Hydrodynamics, h: real)
    requires c.number > 0.0 && c.shallow > 0.0 && shore.depth > 0.0
    ensures var t, k := Contribution(c, shore).along, c.Along();
            && t.x * h == OrbitX(c, shore) * Fall(c, k, h) && t.z * h == OrbitZ(c, shore) * Fall(c, k, h)
            && t.height * h == Amplitude(c, shore) * Rise(c, k, h)
  {
    hide DirX, DirZ, Horizontal, Amplitude, Component.Along, Component.Cross, Drift, Squeeze;
    var a, k := Horizontal(c, shore), c.Along();
    PushedBack(DirX(c), a, c.sine, k, h, OrbitX(c, shore), Fall(c, k, h));
    PushedBack(DirZ(c), a, c.sine, k, h, OrbitZ(c, shore), Fall(c, k, h));
    Lifted(Amplitude(c, shore), c.cosine, k, h, Rise(c, k, h));
  }

  lemma Lifted(a: real, cosine: real, k: real, h: real, up: real)
    requires up == cosine * k * h
    ensures a * cosine * k * h == a * up
  {
  }

  lemma PushedBack(d: real, a: real, sine: real, k: real, h: real, m: real, down: real)
    requires m == d * a && down == -(sine * k * h)
    ensures -(d * (a * sine) * k) * h == m * down
  {
  }

  predicate WaveFollows(c: Component, c': Component, shore: Hydrodynamics, k: real, h: real,
                        q: Point, q': Point, t: Tangent)
    requires c.number > 0.0 && c.shallow > 0.0
  {
    && Follows(OrbitX(c, shore), c.cosine, c'.cosine, Fall(c, k, h), q.x, q'.x, t.x, h)
    && Follows(OrbitZ(c, shore), c.cosine, c'.cosine, Fall(c, k, h), q.z, q'.z, t.z, h)
    && Follows(Amplitude(c, shore), c.sine, c'.sine, Rise(c, k, h), q.height, q'.height, t.height, h)
  }

  lemma WaveFollowsAlong(c: Component, c': Component, shore: Hydrodynamics, h: real)
    requires c.number > 0.0 && c.shallow > 0.0 && shore.depth > 0.0
    requires SamePlace(c, c')
    ensures WaveFollows(c, c', shore, c.Along(), h, Contribution(c, shore), Contribution(c', shore),
                        Contribution(c, shore).along)
  {
    SameOrbit(c, c', shore);
    hide OrbitX, OrbitZ, Amplitude, Contribution, Rise, Fall;
    Orbit(c, shore);
    Orbit(c', shore);
    AlongSlope(c, shore, h);
  }

  lemma AlongWave(c: Component, c': Component, shore: Hydrodynamics, h: real, turn: real)
    requires c.Real(shore.depth) && c.number > 0.0 && shore.scale >= 0.0
    requires SamePlace(c, c') && Turned(c, c', c.Along(), h, turn)
    ensures Predicted(Contribution(c, shore), Contribution(c', shore), Contribution(c, shore).along, h,
                      Evenly(WaveError(c, shore, turn)))
  {
    WaveFollowsAlong(c, c', shore, h);
    OrbitIsSmall(c, shore);
    hide OrbitX, OrbitZ, Amplitude, Contribution, Component.Along, Foretold, Follows, Rise, Fall;
    var q, q', k, a, e := Contribution(c, shore), Contribution(c', shore), c.Along(), Amplitude(c, shore),
                          WaveError(c, shore, turn);
    var t := q.along;
    ScaledTurn(OrbitX(c, shore), c.cosine, c'.cosine, Fall(c, k, h), a, turn, h, e, q.x, q'.x, t.x);
    ScaledTurn(OrbitZ(c, shore), c.cosine, c'.cosine, Fall(c, k, h), a, turn, h, e, q.z, q'.z, t.z);
    ScaledTurn(a, c.sine, c'.sine, Rise(c, k, h), a, turn, h, e, q.height, q'.height, t.height);
  }

  predicate SamePlace(c: Component, c': Component) { c' == c.(sine := c'.sine, cosine := c'.cosine) }

  lemma SameVector(c: Component, c': Component)
    requires c.number > 0.0 && c.shallow > 0.0 && SamePlace(c, c')
    ensures c'.Along() == c.Along() && c'.Cross() == c.Cross() && SteepnessLimit(c') == SteepnessLimit(c)
  {
  }

  lemma SameDirection(c: Component, c': Component, shore: Hydrodynamics)
    requires c.number > 0.0 && c.shallow > 0.0 && SamePlace(c, c')
    ensures DirX(c') == DirX(c) && DirZ(c') == DirZ(c)
    ensures Horizontal(c', shore) == Horizontal(c, shore) && Amplitude(c', shore) == Amplitude(c, shore)
  {
    SameVector(c, c');
    hide Component.Along, Component.Cross, SteepnessLimit;
  }

  lemma SameOrbit(c: Component, c': Component, shore: Hydrodynamics)
    requires c.number > 0.0 && c.shallow > 0.0 && SamePlace(c, c')
    ensures OrbitX(c', shore) == OrbitX(c, shore) && OrbitZ(c', shore) == OrbitZ(c, shore)
    ensures Amplitude(c', shore) == Amplitude(c, shore)
  {
    SameDirection(c, c', shore);
    hide DirX, DirZ, Horizontal, Amplitude;
  }

  lemma OrbitIsSmall(c: Component, shore: Hydrodynamics)
    requires c.Real(shore.depth) && c.number > 0.0 && shore.scale >= 0.0
    ensures Within(OrbitX(c, shore), Amplitude(c, shore)) && Within(OrbitZ(c, shore), Amplitude(c, shore))
    ensures 0.0 <= Amplitude(c, shore)
  {
    hide PhaseBlend, OffshoreCross, CrossNumber, Component.Along, Component.Cross;
    var a := Amplitude(c, shore);
    Grow(0.0, c.wave.amplitude, shore.scale);
    Directions(c);
    ShareIsWithin(c.Cross(), c.Along(), c.number, DirX(c));
    ShareIsWithin(c.Along(), c.Cross(), c.number, DirZ(c));
    HorizontalIsWithin(c, shore);
    ProductIsWithin(DirX(c), Horizontal(c, shore), 1.0, a, OrbitX(c, shore), a);
    ProductIsWithin(DirZ(c), Horizontal(c, shore), 1.0, a, OrbitZ(c, shore), a);
  }

  lemma HorizontalIsWithin(c: Component, shore: Hydrodynamics)
    requires c.number > 0.0 && 0.0 <= Amplitude(c, shore) && c.wave.steepness >= 0.0
    ensures 0.0 <= Horizontal(c, shore) <= Amplitude(c, shore)
  {
    Share(c.wave.steepness, c.number, SteepnessLimit(c), 0.25 * c.wave.steepness);
    hide SteepnessLimit;
  }

  lemma PredictedAdds(p: Point, q: Point, t: Tangent, d: Point, d': Point, u: Tangent, h: real, e: Tangent, f: Tangent)
    requires Predicted(p, q, t, h, e) && Predicted(d, d', u, h, f)
    ensures Predicted(Plus(p, d), Plus(q, d'), Add(t, u), h, Add(e, f))
  {
    hide Foretold;
    var p', q', t', e' := Plus(p, d), Plus(q, d'), Add(t, u), Add(e, f);
    Sums(p.x, q.x, t.x, e.x, d.x, d'.x, u.x, f.x, p'.x, q'.x, t'.x, e'.x, h);
    Sums(p.z, q.z, t.z, e.z, d.z, d'.z, u.z, f.z, p'.z, q'.z, t'.z, e'.z, h);
    Sums(p.height, q.height, t.height, e.height, d.height, d'.height, u.height, f.height,
         p'.height, q'.height, t'.height, e'.height, h);
  }

  lemma Sums(p: real, q: real, t: real, e: real, d: real, d': real, u: real, f: real,
             p': real, q': real, t': real, e': real, h: real)
    requires Foretold(p, q, t, h, e) && Foretold(d, d', u, h, f)
    requires p' == p + d && q' == q + d' && t' == t + u && e' == e + f
    ensures Foretold(p', q', t', h, e')
  {
    assert t' * h == t * h + u * h && e' * (h * h) == e * (h * h) + f * (h * h);
  }

  /** The tangent along the shore is one: at every point, a step `h` along the shore changes every
      coordinate by `h` times the tangent's, up to the waves' scaled amplitudes times the error of
      their sines. */
  lemma {:induction false} AlongTangentPredicts(cs: seq<Component>, cs': seq<Component>, shore: Hydrodynamics,
                                                x: real, z: real, h: real, turn: real)
    requires AllReal(cs, shore.depth) && AllReal(cs', shore.depth) && shore.scale >= 0.0
    requires Alongshore(cs, cs', h, turn)
    ensures var p, q := Sampled(cs, shore, x, z), Sampled(cs', shore, x + h, z);
            Predicted(p, q, p.along, h, AlongError(cs, shore, turn))
  {
    if cs == [] {
      Origin(x, z, h);
    } else {
      hide Contribution, Amplitude, Predicted, Turned, AlongError, WaveError, Evenly;
      var rest, rest', last, last' := cs[..|cs| - 1], cs'[..|cs| - 1], cs[|cs| - 1], cs'[|cs| - 1];
      SampledStep(cs, shore, x, z);
      SampledStep(cs', shore, x + h, z);
      AlongTangentPredicts(rest, rest', shore, x, z, h, turn);
      var p, q := Sampled(rest, shore, x, z), Sampled(rest', shore, x + h, z);
      var d, d', e := Contribution(last, shore), Contribution(last', shore), Evenly(WaveError(last, shore, turn));
      AlongWave(last, last', shore, h, turn);
      PredictedAdds(p, q, p.along, d, d', d.along, h, AlongError(rest, shore, turn), e);
      AlongErrorAdds(cs, shore, turn);
      assert Plus(p, d).along == Add(p.along, d.along);
    }
  }

  lemma AlongErrorAdds(cs: seq<Component>, shore: Hydrodynamics, turn: real)
    requires cs != []
    ensures AlongError(cs, shore, turn)
         == Add(AlongError(cs[..|cs| - 1], shore, turn), Evenly(WaveError(cs[|cs| - 1], shore, turn)))
  {
    hide Amplitude;
    Distribute(ScaledAmplitudes(cs[..|cs| - 1], shore), Amplitude(cs[|cs| - 1], shore), turn);
  }

  lemma Origin(x: real, z: real, h: real)
    ensures Predicted(Flat(x, z), Flat(x + h, z), Tangent(1.0, 0.0, 0.0), h, Tangent(0.0, 0.0, 0.0))
    ensures Predicted(Flat(x, z), Flat(x, z + h), Tangent(0.0, 1.0, 0.0), h, Tangent(0.0, 0.0, 0.0))
  {
  }
}
