/**
 sampleGerstnerSurface of frontend/src/3d/ocean-wave-model.js: the loop that sums the waves, and
 why the sum stays a physical sea.

 Sine and cosine of the phase are numbers within 1; nothing else about them is used.
 */
module Surface {
  import opened Shore
  import opened Swell

  datatype Wave = Wave(x: real, z: real, amplitude: real, steepness: real)

  const GEOMETRY_WAVES: seq<Wave> := [
    Wave(0.5, -0.866025, 0.52, 0.7),
    Wave(-0.642788, -0.766044, 0.39, 0.66),
    Wave(0.75471, -0.656059, 0.42, 0.6),
    Wave(-0.694658, -0.71934, 0.29, 0.52)]

  const OCEAN_WAVES: seq<Wave> := GEOMETRY_WAVES + [
    Wave(0.707107, -0.707107, 0.058, 0.48),
    Wave(-0.819152, -0.573576, 0.024, 0.4)]

  /** One wave at one place and time: 2 pi over its wavelength, the root of that over the depth, the
      length of the local wave vector, and sine and cosine of the phase. */
  datatype Component = Component(wave: Wave, deep: real, shallow: real, number: real, sine: real, cosine: real)
  {
    predicate Real(depth: real) {
      && wave.amplitude >= 0.0 && wave.steepness >= 0.0
      && deep > 0.0 && shallow > 0.0 && depth > 0.0 && shallow * shallow * depth == deep
      && number >= 0.0 && number * number == Along() * Along() + Cross() * Cross()
      && Within(sine, 1.0) && Within(cosine, 1.0)
    }

    function Along(): real { deep * wave.x }

    function Sign(): real { if wave.z < 0.0 then -1.0 else 1.0 }

    function Cross(): real
      requires shallow > 0.0
    {
      var fraction := Abs(wave.z);
      CrossNumber(OffshoreCross(deep, fraction), shallow, PhaseBlend(fraction)) * Sign()
    }

    function CrossDerivative(depth: real): real
      requires shallow > 0.0 && depth > 0.0
    {
      var fraction := Abs(wave.z);
      CrossNumberDerivative(OffshoreCross(deep, fraction), shallow, PhaseBlend(fraction), depth) * SHORE_SLOPE * Sign()
    }
  }

  datatype Tangent = Tangent(x: real, z: real, height: real)

  datatype Point = Point(x: real, z: real, height: real, compression: real,
                         along: Tangent, seaward: Tangent)

  function Flat(x: real, z: real): Point {
    Point(x, z, 0.0, 0.0, Tangent(1.0, 0.0, 0.0), Tangent(0.0, 1.0, 0.0))
  }

  // ---------------------------------------------------------------- one wave

  lemma NumberIsPositive(c: Component, depth: real)
    requires c.Real(depth)
    ensures c.number > 0.0
  {
    hide PhaseBlend, OffshoreCross;
    var fraction := Abs(c.wave.z);
    CrossNumberIsPositive(OffshoreCross(c.deep, fraction), c.shallow, fraction);
    NonZeroLength(c.Along(), c.Cross(), c.number);
  }

  lemma NonZeroLength(a: real, c: real, n: real)
    requires n >= 0.0 && n * n == a * a + c * c && c != 0.0
    ensures n > 0.0
  {
    Square(a);
    if c > 0.0 { Positive(c, c, c * c); } else { Positive(-c, -c, c * c); }
  }

  function Amplitude(c: Component, shore: Hydrodynamics): real { c.wave.amplitude * shore.scale }

  function SteepnessLimit(c: Component): real
    requires c.number > 0.0
  {
    c.wave.steepness / (c.number * WAVE_COUNT)
  }

  function Horizontal(c: Component, shore: Hydrodynamics): real
    requires c.number > 0.0
  {
    var byAmplitude := Amplitude(c, shore) * 0.72;
    if byAmplitude <= SteepnessLimit(c) then byAmplitude else SteepnessLimit(c)
  }

  function DirX(c: Component): real
    requires c.number > 0.0
  {
    c.Along() / c.number
  }

  function DirZ(c: Component): real
    requires c.number > 0.0 && c.shallow > 0.0
  {
    c.Cross() / c.number
  }

  /** The change of a quantity kept in inverse proportion to the wave number. */
  function Shrinks(x: real, numberD: real, n: real): real
    requires n > 0.0
  {
    -x * numberD / n
  }

  function TurnsAcross(crossD: real, dirZ: real, numberD: real, n: real): real
    requires n > 0.0
  {
    (crossD - dirZ * numberD) / n
  }

  /** How the horizontal displacement of one wave drifts seaward because the sea bed and the
      envelope change under it: its direction turns with the wave vector and its length changes, by
      `grow` while the amplitude rules it, else with the wave number. */
  function DriftOf(dirX: real, dirZ: real, n: real, crossD: real, numberD: real, horizontal: real,
                   amplitudeLimited: bool, grow: real, cosine: real): (real, real)
    requires n > 0.0
  {
    var dirXD := Shrinks(dirX, numberD, n);
    var dirZD := TurnsAcross(crossD, dirZ, numberD, n);
    var horizontalD := if amplitudeLimited then grow else Shrinks(horizontal, numberD, n);
    Changed(dirX, dirXD, dirZ, dirZD, horizontal, horizontalD, cosine)
  }

  /** The product rule for a direction times a length. */
  function Changed(dirX: real, dirXD: real, dirZ: real, dirZD: real, horizontal: real, horizontalD: real,
                   cosine: real): (real, real) {
    ((dirXD * horizontal + dirX * horizontalD) * cosine, (dirZD * horizontal + dirZ * horizontalD) * cosine)
  }

  predicate AmplitudeLimited(c: Component, shore: Hydrodynamics)
    requires c.number > 0.0
  {
    Amplitude(c, shore) * 0.72 <= SteepnessLimit(c)
  }

  function NumberDerivative(c: Component, depth: real): real
    requires c.number > 0.0 && c.shallow > 0.0 && depth > 0.0
  {
    DirZ(c) * c.CrossDerivative(depth)
  }

  function AmplitudeDerivative(c: Component, shore: Hydrodynamics): real { c.wave.amplitude * shore.scaleDerivative }

  function Growth(c: Component, shore: Hydrodynamics): real { AmplitudeDerivative(c, shore) * 0.72 }

  function Drift(c: Component, shore: Hydrodynamics): (real, real)
    requires c.number > 0.0 && c.shallow > 0.0 && shore.depth > 0.0
  {
    DriftOf(DirX(c), DirZ(c), c.number, c.CrossDerivative(shore.depth), NumberDerivative(c, shore.depth),
            Horizontal(c, shore), AmplitudeLimited(c, shore), Growth(c, shore), c.cosine)
  }

  function Push(c: Component, shore: Hydrodynamics): real
    requires c.number > 0.0
  {
    Horizontal(c, shore) * c.sine
  }

  function Squeeze(c: Component, shore: Hydrodynamics): real
    requires c.number > 0.0
  {
    Push(c, shore) * c.number
  }

  /** What one wave adds to every accumulator, in terms of its direction, its push against the phase
      and its drift. */
  function Added(dirX: real, dirZ: real, along: real, cross: real, horizontal: real, push: real, squeeze: real,
                 amplitude: real, amplitudeD: real, drift: (real, real), sine: real, cosine: real): Point {
    Point(dirX * horizontal * cosine, dirZ * horizontal * cosine, amplitude * sine,
          if squeeze > 0.0 then squeeze else 0.0,
          Tangent(-(dirX * push * along), -(dirZ * push * along), amplitude * cosine * along),
          Tangent(drift.0 - dirX * push * cross, drift.1 - dirZ * push * cross,
                  amplitudeD * sine + amplitude * cosine * cross))
  }

  function Contribution(c: Component, shore: Hydrodynamics): Point
    requires c.number > 0.0 && c.shallow > 0.0 && shore.depth > 0.0
  {
    Added(DirX(c), DirZ(c), c.Along(), c.Cross(), Horizontal(c, shore), Push(c, shore), Squeeze(c, shore),
          Amplitude(c, shore), AmplitudeDerivative(c, shore), Drift(c, shore), c.sine, c.cosine)
  }

  function Plus(p: Point, q: Point): Point {
    Point(p.x + q.x, p.z + q.z, p.height + q.height, p.compression + q.compression,
          Tangent(p.along.x + q.along.x, p.along.z + q.along.z, p.along.height + q.along.height),
          Tangent(p.seaward.x + q.seaward.x, p.seaward.z + q.seaward.z, p.seaward.height + q.seaward.height))
  }

  ghost predicate AllReal(cs: seq<Component>, depth: real) {
    forall i :: 0 <= i < |cs| ==> cs[i].Real(depth)
  }

  ghost function Sampled(cs: seq<Component>, shore: Hydrodynamics, x: real, z: real): Point
    requires AllReal(cs, shore.depth)
  {
    if cs == [] then Flat(x, z)
    else
      var last := cs[|cs| - 1];
      NumberIsPositive(last, shore.depth);
      Plus(Sampled(cs[..|cs| - 1], shore, x, z), Contribution(last, shore))
  }

  lemma ContributionSums(c: Component, shore: Hydrodynamics)
    requires c.number > 0.0 && c.shallow > 0.0 && shore.depth > 0.0
    ensures Contribution(c, shore).height == Amplitude(c, shore) * c.sine
    ensures Contribution(c, shore).compression == if Squeeze(c, shore) > 0.0 then Squeeze(c, shore) else 0.0
  {
    hide Drift, Horizontal, Amplitude, DirX, DirZ, Push, Squeeze;
  }

  lemma SampledStep(cs: seq<Component>, shore: Hydrodynamics, x: real, z: real)
    requires cs != [] && AllReal(cs, shore.depth)
    ensures var rest, last := cs[..|cs| - 1], cs[|cs| - 1];
            && AllReal(rest, shore.depth) && last.Real(shore.depth) && last.number > 0.0
            && Sampled(cs, shore, x, z) == Plus(Sampled(rest, shore, x, z), Contribution(last, shore))
  {
    hide Contribution, Plus;
    NumberIsPositive(cs[|cs| - 1], shore.depth);
  }

  lemma SampledNext(cs: seq<Component>, i: nat, c: Component, shore: Hydrodynamics, x: real, z: real)
    requires i < |cs| && c == cs[i] && AllReal(cs, shore.depth)
    ensures AllReal(cs[..i], shore.depth) && AllReal(cs[..i + 1], shore.depth)
    ensures c.Real(shore.depth) && c.number > 0.0
    ensures Sampled(cs[..i + 1], shore, x, z) == Plus(Sampled(cs[..i], shore, x, z), Contribution(c, shore))
  {
    hide Contribution, Plus, Sampled;
    assert cs[..i + 1][..i] == cs[..i] && cs[..i + 1][i] == c;
    SampledStep(cs[..i + 1], shore, x, z);
  }

  /** What the loop adds to the tangent along the shore, and to the one seaward. */
  function AlongAdded(dirX: real, dirZ: real, horizontal: real, amplitude: real, sine: real, cosine: real,
                      alongK: real): Tangent {
    Tangent(dirX * -horizontal * sine * alongK, dirZ * -horizontal * sine * alongK, amplitude * cosine * alongK)
  }

  function SeawardAdded(dirX: real, dirXD: real, dirZ: real, dirZD: real, horizontal: real, slope: real,
                        amplitude: real, amplitudeD: real, sine: real, cosine: real, crossK: real): Tangent {
    Tangent(dirXD * horizontal * cosine + dirX * slope, dirZD * horizontal * cosine + dirZ * slope,
            amplitudeD * sine + amplitude * cosine * crossK)
  }

  /** Direction times length, differentiated: the loop writes the two parts of the slope together. */
  lemma LoopBody(d: Point, dirX: real, dirXD: real, dirZ: real, dirZD: real, horizontal: real, horizontalD: real,
                 n: real, alongK: real, crossK: real, amplitude: real, amplitudeD: real, sine: real, cosine: real,
                 push: real, squeeze: real, slope: real)
    requires push == horizontal * sine && squeeze == horizontal * n * sine
    requires slope == horizontalD * cosine - horizontal * sine * crossK
    requires d.x == dirX * horizontal * cosine && d.z == dirZ * horizontal * cosine && d.height == amplitude * sine
    requires d.compression == if squeeze > 0.0 then squeeze else 0.0
    requires d.along == AlongAdded(dirX, dirZ, horizontal, amplitude, sine, cosine, alongK)
    requires d.seaward == SeawardAdded(dirX, dirXD, dirZ, dirZD, horizontal, slope, amplitude, amplitudeD,
                                       sine, cosine, crossK)
    ensures d == Added(dirX, dirZ, alongK, crossK, horizontal, push, squeeze, amplitude, amplitudeD,
                       Changed(dirX, dirXD, dirZ, dirZD, horizontal, horizontalD, cosine), sine, cosine)
  {
    AlongPart(dirX, dirZ, horizontal, amplitude, sine, cosine, alongK, push);
    SeawardPart(dirX, dirXD, dirZ, dirZD, horizontal, horizontalD, slope, amplitude, amplitudeD, sine, cosine, crossK,
                push, Changed(dirX, dirXD, dirZ, dirZD, horizontal, horizontalD, cosine));
    hide AlongAdded, SeawardAdded, Changed;
  }

  lemma AlongPart(dirX: real, dirZ: real, horizontal: real, amplitude: real, sine: real, cosine: real, alongK: real,
                  push: real)
    requires push == horizontal * sine
    ensures AlongAdded(dirX, dirZ, horizontal, amplitude, sine, cosine, alongK)
         == Tangent(-(dirX * push * alongK), -(dirZ * push * alongK), amplitude * cosine * alongK)
  {
    AlongCoordinate(dirX, horizontal, sine, alongK, push);
    AlongCoordinate(dirZ, horizontal, sine, alongK, push);
  }

  lemma SeawardPart(dirX: real, dirXD: real, dirZ: real, dirZD: real, horizontal: real, horizontalD: real, slope: real,
                    amplitude: real, amplitudeD: real, sine: real, cosine: real, crossK: real, push: real,
                    drift: (real, real))
    requires push == horizontal * sine && slope == horizontalD * cosine - horizontal * sine * crossK
    requires drift == Changed(dirX, dirXD, dirZ, dirZD, horizontal, horizontalD, cosine)
    ensures SeawardAdded(dirX, dirXD, dirZ, dirZD, horizontal, slope, amplitude, amplitudeD, sine, cosine, crossK)
         == Tangent(drift.0 - dirX * push * crossK, drift.1 - dirZ * push * crossK,
                    amplitudeD * sine + amplitude * cosine * crossK)
  {
    var t := SeawardAdded(dirX, dirXD, dirZ, dirZD, horizontal, slope, amplitude, amplitudeD, sine, cosine, crossK);
    SeawardCoordinate(dirX, dirXD, horizontal, horizontalD, sine, cosine, crossK, push, slope, drift.0, t.x);
    SeawardCoordinate(dirZ, dirZD, horizontal, horizontalD, sine, cosine, crossK, push, slope, drift.1, t.z);
    hide Changed;
  }

  lemma AlongCoordinate(dir: real, horizontal: real, sine: real, k: real, push: real)
    requires push == horizontal * sine
    ensures dir * -horizontal * sine * k == -(dir * push * k)
  {
  }

  lemma SeawardCoordinate(dir: real, dirD: real, horizontal: real, horizontalD: real, sine: real, cosine: real,
                          k: real, push: real, slope: real, drift: real, total: real)
    requires push == horizontal * sine && slope == horizontalD * cosine - horizontal * sine * k
    requires drift == (dirD * horizontal + dir * horizontalD) * cosine
    requires total == dirD * horizontal * cosine + dir * slope
    ensures total == drift - dir * push * k
  {
  }

  /** The body of the loop, step by step: what it adds is what the specification says of one wave. */
  method SampleWave(c: Component, shore: Hydrodynamics) returns (d: Point)
    requires c.number > 0.0 && c.shallow > 0.0 && shore.depth > 0.0
    ensures d == Contribution(c, shore)
  {
    hide PhaseBlend, OffshoreCross, CrossNumber, CrossNumberDerivative, Component.Along, Component.Cross,
         Component.CrossDerivative, Added, Changed, Shrinks, TurnsAcross, Amplitude, AmplitudeDerivative, DirX, DirZ,
         AlongAdded, SeawardAdded;
    var alongK, crossK, crossKDerivative := c.Along(), c.Cross(), c.CrossDerivative(shore.depth);
    var dirX, dirZ := DirX(c), DirZ(c);
    var numberDerivative := dirZ * crossKDerivative;
    var dirXDerivative := Shrinks(dirX, numberDerivative, c.number);
    var dirZDerivative := TurnsAcross(crossKDerivative, dirZ, numberDerivative, c.number);
    var amplitude, amplitudeDerivative := Amplitude(c, shore), AmplitudeDerivative(c, shore);
    var amplitudeHorizontal, steepnessHorizontal := amplitude * 0.72, c.wave.steepness / (c.number * WAVE_COUNT);
    var horizontal, horizontalDerivative;
    if amplitudeHorizontal <= steepnessHorizontal {
      horizontal, horizontalDerivative := amplitudeHorizontal, amplitudeDerivative * 0.72;
    } else {
      horizontal, horizontalDerivative := steepnessHorizontal, Shrinks(steepnessHorizontal, numberDerivative, c.number);
    }
    var squeeze := horizontal * c.number * c.sine;
    var slope := horizontalDerivative * c.cosine - horizontal * c.sine * crossK;
    var along := AlongAdded(dirX, dirZ, horizontal, amplitude, c.sine, c.cosine, alongK);
    var seaward := SeawardAdded(dirX, dirXDerivative, dirZ, dirZDerivative, horizontal, slope, amplitude,
                                amplitudeDerivative, c.sine, c.cosine, crossK);
    d := Point(dirX * horizontal * c.cosine, dirZ * horizontal * c.cosine, amplitude * c.sine,
               if squeeze > 0.0 then squeeze else 0.0, along, seaward);
    LoopBody(d, dirX, dirXDerivative, dirZ, dirZDerivative, horizontal, horizontalDerivative, c.number, alongK, crossK,
             amplitude, amplitudeDerivative, c.sine, c.cosine, horizontal * c.sine, squeeze, slope);
    assert numberDerivative == NumberDerivative(c, shore.depth);
    assert horizontal == Horizontal(c, shore) && horizontal * c.sine == Push(c, shore);
    assert horizontalDerivative
        == if AmplitudeLimited(c, shore) then Growth(c, shore) else Shrinks(horizontal, numberDerivative, c.number);
    assert Changed(dirX, dirXDerivative, dirZ, dirZDerivative, horizontal, horizontalDerivative, c.cosine)
        == Drift(c, shore);
    assert squeeze == Squeeze(c, shore);
  }

  /** sampleGerstnerSurface, accumulators and all, at the water's own shore values. */
  method SampleGerstnerSurface(x: real, z: real, seaward: real, cs: seq<Component>) returns (p: Point)
    requires AllReal(cs, ShoreHydrodynamics(seaward).depth)
    ensures p == Sampled(cs, ShoreHydrodynamics(seaward), x, z)
  {
    hide ShoreHydrodynamics;
    var shore := ShoreHydrodynamics(seaward);
    var px, pz, height, compression := x, z, 0.0, 0.0;
    var along, across := Tangent(1.0, 0.0, 0.0), Tangent(0.0, 1.0, 0.0);
    for i := 0 to |cs|
      invariant Point(px, pz, height, compression, along, across) == Sampled(cs[..i], shore, x, z)
    {
      hide Contribution, ShoreHydrodynamics, Sampled;
      var c := cs[i];
      SampledNext(cs, i, c, shore, x, z);
      var d := SampleWave(c, shore);
      px, pz := px + d.x, pz + d.z;
      height := height + d.height;
      compression := compression + d.compression;
      along := Tangent(along.x + d.along.x, along.z + d.along.z, along.height + d.along.height);
      across := Tangent(across.x + d.seaward.x, across.z + d.seaward.z, across.height + d.seaward.height);
    }
    assert cs[..|cs|] == cs;
    p := Point(px, pz, height, compression, along, across);
  }

  // ---------------------------------------------------------------- sums over the waves

  function TotalAmplitude(cs: seq<Component>): real {
    if cs == [] then 0.0 else TotalAmplitude(cs[..|cs| - 1]) + cs[|cs| - 1].wave.amplitude
  }

  function TotalSteepness(cs: seq<Component>): real {
    if cs == [] then 0.0 else TotalSteepness(cs[..|cs| - 1]) + cs[|cs| - 1].wave.steepness
  }

  /** What drift the waves add to the seaward tangent in all. */
  ghost function TotalDrift(cs: seq<Component>, shore: Hydrodynamics): (real, real)
    requires AllReal(cs, shore.depth)
  {
    if cs == [] then (0.0, 0.0)
    else
      var last := cs[|cs| - 1];
      NumberIsPositive(last, shore.depth);
      var rest, own := TotalDrift(cs[..|cs| - 1], shore), Drift(last, shore);
      (rest.0 + own.0, rest.1 + own.1)
  }

  function ScaledAmplitudes(cs: seq<Component>, shore: Hydrodynamics): real {
    if cs == [] then 0.0 else ScaledAmplitudes(cs[..|cs| - 1], shore) + Amplitude(cs[|cs| - 1], shore)
  }

  lemma {:induction false} ScaledAmplitudesAre(cs: seq<Component>, shore: Hydrodynamics)
    ensures ScaledAmplitudes(cs, shore) == TotalAmplitude(cs) * shore.scale
  {
    if cs != [] {
      var rest, last := cs[..|cs| - 1], cs[|cs| - 1];
      ScaledAmplitudesAre(rest, shore);
      Distribute(TotalAmplitude(rest), last.wave.amplitude, shore.scale);
    }
  }

  lemma Distribute(x: real, y: real, a: real)
    ensures (x + y) * a == x * a + y * a
  {
  }

  lemma {:induction false} HeightIsWithin(cs: seq<Component>, shore: Hydrodynamics, x: real, z: real)
    requires AllReal(cs, shore.depth) && shore.scale >= 0.0
    ensures Within(Sampled(cs, shore, x, z).height, ScaledAmplitudes(cs, shore))
  {
    if cs != [] {
      hide Amplitude, Contribution;
      var rest, last := cs[..|cs| - 1], cs[|cs| - 1];
      SampledStep(cs, shore, x, z);
      ContributionSums(last, shore);
      HeightIsWithin(rest, shore, x, z);
      CrestIsWithin(last, shore);
    }
  }

  lemma CrestIsWithin(c: Component, shore: Hydrodynamics)
    requires c.wave.amplitude >= 0.0 && shore.scale >= 0.0 && Within(c.sine, 1.0)
    ensures Within(Amplitude(c, shore) * c.sine, Amplitude(c, shore))
  {
    var p := Amplitude(c, shore);
    Grow(0.0, c.wave.amplitude, shore.scale);
    ProductIsWithin(p, c.sine, p, 1.0, p * c.sine, p);
  }

  /** The horizontal displacement of a wave times its number never exceeds its share of steepness. */
  lemma SqueezeIsShared(c: Component, shore: Hydrodynamics)
    requires c.number > 0.0 && c.wave.amplitude >= 0.0 && c.wave.steepness >= 0.0
    requires shore.scale >= 0.0 && Within(c.sine, 1.0)
    ensures Within(Squeeze(c, shore), 0.25 * c.wave.steepness)
  {
    var n, h, share := c.number, Horizontal(c, shore), 0.25 * c.wave.steepness;
    Grow(0.0, c.wave.amplitude, shore.scale);
    Share(c.wave.steepness, n, SteepnessLimit(c), share);
    assert 0.0 <= h <= SteepnessLimit(c);
    Grow(0.0, h, n);
    Grow(h, SteepnessLimit(c), n);
    ProductIsWithin(h * n, c.sine, share, 1.0, h * n * c.sine, share);
    assert h * n * c.sine == h * c.sine * n;
  }

  lemma Share(steepness: real, n: real, limit: real, share: real)
    requires n > 0.0 && steepness >= 0.0 && limit == steepness / (n * WAVE_COUNT) && share == 0.25 * steepness
    ensures limit * n == share && limit >= 0.0
  {
    assert limit * (n * WAVE_COUNT) == steepness;
    assert limit * n == share;
    if limit < 0.0 { Positive(-limit, n, -limit * n); }
  }

  lemma {:induction false} CompressionIsShared(cs: seq<Component>, shore: Hydrodynamics, x: real, z: real)
    requires AllReal(cs, shore.depth) && shore.scale >= 0.0
    ensures 0.0 <= Sampled(cs, shore, x, z).compression <= 0.25 * TotalSteepness(cs)
  {
    if cs != [] {
      var rest, last := cs[..|cs| - 1], cs[|cs| - 1];
      SampledStep(cs, shore, x, z);
      hide Contribution, Squeeze;
      ContributionSums(last, shore);
      CompressionIsShared(rest, shore, x, z);
      SqueezeIsShared(last, shore);
    }
  }

  // ---------------------------------------------------------------- no fold

  /** The change one wave makes to the length of a step (a, b) on the surface, as a quadratic form. */
  lemma WaveStretch(along: real, cross: real, n: real, dx: real, dz: real, push: real, squeeze: real, a: real, b: real)
    requires n > 0.0 && n * n == along * along + cross * cross && dx * n == along && dz * n == cross
    requires squeeze == push * n
    ensures a * a * (dx * push * along) + 2.0 * (a * b) * (dz * push * along) + b * b * (dz * push * cross)
            <= (if squeeze > 0.0 then squeeze else 0.0) * (a * a + b * b)
    ensures dx * push * cross == dz * push * along
  {
    UnitLength(along, cross, n, dx, dz);
    var g, s := a * dx + b * dz, a * a + b * b;
    Form(along, cross, n, dx, dz, push, squeeze, a, b, g);
    assert dx * push * cross == dz * push * along by { assert cross == dz * n && along == dx * n; }
    Projection(a, b, dx, dz, g, s);
    Square(g);
    if squeeze > 0.0 {
      Grow(g * g, s, squeeze);
    } else {
      Grow(squeeze, 0.0, g * g);
    }
  }

  lemma UnitLength(along: real, cross: real, n: real, dx: real, dz: real)
    requires n > 0.0 && n * n == along * along + cross * cross && dx * n == along && dz * n == cross
    ensures dx * dx + dz * dz == 1.0
  {
    UnitSquares(along, cross, n, dx, dz, n * n, dx * dx, dz * dz);
  }

  lemma UnitSquares(along: real, cross: real, n: real, dx: real, dz: real, m: real, u: real, v: real)
    requires n > 0.0 && m == along * along + cross * cross && dx * n == along && dz * n == cross
    requires m == n * n && u == dx * dx && v == dz * dz
    ensures u + v == 1.0
  {
    Positive(n, n, m);
    assert along * along == u * m by { SquareOfProduct(dx, n, along, u, m); }
    assert cross * cross == v * m by { SquareOfProduct(dz, n, cross, v, m); }
    One(u, v, m, u * m, v * m, (u + v) * m);
  }

  lemma One(u: real, v: real, m: real, um: real, vm: real, tm: real)
    requires m > 0.0 && um == u * m && vm == v * m && um + vm == m && tm == (u + v) * m
    ensures u + v == 1.0
  {
    Distribute(u, v, m);
    assert tm == m;
    Cancel(u + v, 1.0, m, tm, 1.0 * m);
    Cancel(1.0, u + v, m, 1.0 * m, tm);
  }

  lemma SquareOfProduct(x: real, n: real, y: real, u: real, m: real)
    requires y == x * n && u == x * x && m == n * n
    ensures y * y == u * m
  {
  }

  lemma Form(along: real, cross: real, n: real, dx: real, dz: real, push: real, squeeze: real,
             a: real, b: real, g: real)
    requires along == dx * n && cross == dz * n && squeeze == push * n && g == a * dx + b * dz
    ensures a * a * (dx * push * along) + 2.0 * (a * b) * (dz * push * along) + b * b * (dz * push * cross)
         == squeeze * (g * g)
  {
    assert dx * push * along == squeeze * (dx * dx);
    assert dz * push * along == squeeze * (dx * dz);
    assert dz * push * cross == squeeze * (dz * dz);
    assert g * g == a * a * (dx * dx) + 2.0 * (a * b) * (dx * dz) + b * b * (dz * dz);
  }

  lemma Projection(a: real, b: real, dx: real, dz: real, g: real, s: real)
    requires dx * dx + dz * dz == 1.0 && g == a * dx + b * dz && s == a * a + b * b
    ensures g * g <= s
  {
    var u := dx * dx + dz * dz;
    Square(a * dz - b * dx);
    assert s * u - g * g == (a * dz - b * dx) * (a * dz - b * dx);
  }

  /** How the surface stretches a step (a, b) on the still water, apart from a drift of the seaward
      tangent: the quadratic form of the horizontal tangents. */
  function Stretch(p: Point, drift: real, a: real, b: real): real {
    a * a * p.along.x + 2.0 * (a * b) * p.along.z + b * b * (p.seaward.z - drift)
  }

  lemma StretchAdds(p: Point, q: Point, d: real, e: real, a: real, b: real)
    ensures Stretch(Plus(p, q), d + e, a, b) == Stretch(p, d, a, b) + Stretch(q, e, a, b)
  {
    var u, v, w := a * a, 2.0 * (a * b), b * b;
    Distribute(p.along.x, q.along.x, u);
    Distribute(p.along.z, q.along.z, v);
    Distribute(p.seaward.z - d, q.seaward.z - e, w);
  }

  lemma WaveStretches(c: Component, shore: Hydrodynamics, a: real, b: real)
    requires c.Real(shore.depth) && c.number > 0.0
    ensures var q, drift := Contribution(c, shore), Drift(c, shore);
            && Stretch(q, drift.1, a, b) >= -(q.compression * (a * a + b * b))
            && q.seaward.x - drift.0 == q.along.z
  {
    hide Drift, Contribution, DirX, DirZ, Push, Squeeze, Stretch, Component.Along, Component.Cross;
    var along, cross, n, dx, dz := c.Along(), c.Cross(), c.number, DirX(c), DirZ(c);
    assert dx * n == along && dz * n == cross by { Directions(c); }
    assert Squeeze(c, shore) == Push(c, shore) * n by { SqueezeOf(c, shore); }
    WaveStretch(along, cross, n, dx, dz, Push(c, shore), Squeeze(c, shore), a, b);
    ContributionForm(c, shore);
    Negated(Contribution(c, shore), Drift(c, shore).1, a, b, dx * Push(c, shore) * along, dz * Push(c, shore) * along,
            dz * Push(c, shore) * cross, a * a, a * b, b * b);
  }

  lemma ContributionForm(c: Component, shore: Hydrodynamics)
    requires c.number > 0.0 && c.shallow > 0.0 && shore.depth > 0.0
    ensures var q, drift, push := Contribution(c, shore), Drift(c, shore), Push(c, shore);
            && q.along.x == -(DirX(c) * push * c.Along()) && q.along.z == -(DirZ(c) * push * c.Along())
            && q.seaward.x - drift.0 == -(DirX(c) * push * c.Cross())
            && q.seaward.z - drift.1 == -(DirZ(c) * push * c.Cross())
            && q.compression == if Squeeze(c, shore) > 0.0 then Squeeze(c, shore) else 0.0
  {
    hide Drift, Horizontal, Amplitude, DirX, DirZ, Push, Squeeze, Component.Along, Component.Cross;
  }

  lemma Directions(c: Component)
    requires c.number > 0.0 && c.shallow > 0.0
    ensures DirX(c) * c.number == c.Along() && DirZ(c) * c.number == c.Cross()
  {
    hide PhaseBlend, OffshoreCross, CrossNumber;
  }

  lemma SqueezeOf(c: Component, shore: Hydrodynamics)
    requires c.number > 0.0
    ensures Squeeze(c, shore) == Push(c, shore) * c.number
  {
    hide Push;
  }

  lemma Negated(q: Point, drift: real, a: real, b: real, x: real, y: real, z: real, u: real, v: real, w: real)
    requires q.along.x == -x && q.along.z == -y && q.seaward.z - drift == -z
    requires u == a * a && v == a * b && w == b * b
    ensures Stretch(q, drift, a, b) == -(u * x + 2.0 * v * y + w * z)
  {
    assert u * (-x) == -(u * x) && 2.0 * v * (-y) == -(2.0 * v * y) && w * (-z) == -(w * z);
  }

  /** The squared length of a step, shortened by the compression. */
  function Remaining(compression: real, a: real, b: real): real { (1.0 - compression) * (a * a + b * b) }

  lemma {:induction false} StretchIsKept(cs: seq<Component>, shore: Hydrodynamics, x: real, z: real, a: real, b: real)
    requires AllReal(cs, shore.depth)
    ensures var p, drift := Sampled(cs, shore, x, z), TotalDrift(cs, shore);
            && Stretch(p, drift.1, a, b) >= Remaining(p.compression, a, b)
            && p.seaward.x - drift.0 == p.along.z
  {
    if cs != [] {
      hide Contribution, Drift, Stretch, Remaining;
      var rest, last := cs[..|cs| - 1], cs[|cs| - 1];
      SampledStep(cs, shore, x, z);
      StretchIsKept(rest, shore, x, z, a, b);
      WaveStretches(last, shore, a, b);
      var p, q := Sampled(rest, shore, x, z), Contribution(last, shore);
      StretchAdds(p, q, TotalDrift(rest, shore).1, Drift(last, shore).1, a, b);
      KeepsUp(Stretch(p, TotalDrift(rest, shore).1, a, b), Stretch(q, Drift(last, shore).1, a, b),
              p.compression, q.compression, a, b);
    } else {
      FlatStretch(x, z, a, b);
    }
  }

  lemma FlatStretch(x: real, z: real, a: real, b: real)
    ensures Stretch(Flat(x, z), 0.0, a, b) == Remaining(0.0, a, b)
  {
    assert a * a * 1.0 == a * a && 2.0 * (a * b) * 0.0 == 0.0 && b * b * (1.0 - 0.0) == b * b;
  }

  lemma KeepsUp(s0: real, s1: real, c0: real, c1: real, a: real, b: real)
    requires s0 >= Remaining(c0, a, b) && s1 >= -(c1 * (a * a + b * b))
    ensures s0 + s1 >= Remaining(c0 + c1, a, b)
  {
  }

  /** The wave shrinks a step in its own direction by exactly its squeeze. */
  lemma OwnDirection(c: Component, shore: Hydrodynamics)
    requires c.Real(shore.depth) && c.number > 0.0
    ensures DirX(c) * DirX(c) + DirZ(c) * DirZ(c) == 1.0
    ensures Stretch(Contribution(c, shore), Drift(c, shore).1, DirX(c), DirZ(c)) == -Squeeze(c, shore)
  {
    hide Drift, Contribution, DirX, DirZ, Push, Squeeze, Stretch, Component.Along, Component.Cross;
    var along, cross, n, dx, dz, push := c.Along(), c.Cross(), c.number, DirX(c), DirZ(c), Push(c, shore);
    assert dx * n == along && dz * n == cross by { Directions(c); }
    assert Squeeze(c, shore) == push * n by { SqueezeOf(c, shore); }
    UnitLength(along, cross, n, dx, dz);
    ContributionForm(c, shore);
    Negated(Contribution(c, shore), Drift(c, shore).1, dx, dz, dx * push * along, dz * push * along, dz * push * cross,
            dx * dx, dx * dz, dz * dz);
    Form(along, cross, n, dx, dz, push, Squeeze(c, shore), dx, dz, 1.0);
  }

  /** The compression of a single wave is the least that `StretchIsKept` can do with: the greatest share
      that any step loses to it, and nothing where no step loses anything. */
  lemma CompressionIsLeast(c: Component, shore: Hydrodynamics, x: real, z: real, bound: real)
    requires c.Real(shore.depth) && c.number > 0.0 && bound >= 0.0
    requires var p, drift := Sampled([c], shore, x, z), TotalDrift([c], shore);
             forall a, b :: Stretch(p, drift.1, a, b) >= Remaining(bound, a, b)
    ensures Sampled([c], shore, x, z).compression <= bound
  {
    hide Contribution, Drift, Stretch, Squeeze, DirX, DirZ;
    var p, q, drift, a, b := Sampled([c], shore, x, z), Contribution(c, shore), Drift(c, shore), DirX(c), DirZ(c);
    assert [c][..0] == [];
    SampledStep([c], shore, x, z);
    StretchAdds(Flat(x, z), q, 0.0, drift.1, a, b);
    FlatStretch(x, z, a, b);
    OwnDirection(c, shore);
    ContributionSums(c, shore);
    assert Stretch(p, TotalDrift([c], shore).1, a, b) >= Remaining(bound, a, b);
  }

  // ---------------------------------------------------------------- the sea as authored

  ghost predicate AreWaves(cs: seq<Component>, waves: seq<Wave>) {
    |cs| == |waves| && forall i :: 0 <= i < |cs| ==> cs[i].wave == waves[i]
  }

  lemma TotalsOfNext(cs: seq<Component>, i: nat)
    requires i < |cs|
    ensures TotalAmplitude(cs[..i + 1]) == TotalAmplitude(cs[..i]) + cs[i].wave.amplitude
    ensures TotalSteepness(cs[..i + 1]) == TotalSteepness(cs[..i]) + cs[i].wave.steepness
  {
    assert cs[..i + 1][..i] == cs[..i];
  }

  lemma GeometryTotals(cs: seq<Component>)
    requires |cs| >= 4 && forall i :: 0 <= i < 4 ==> cs[i].wave == GEOMETRY_WAVES[i]
    ensures TotalAmplitude(cs[..4]) == GEOMETRY_WAVE_AMPLITUDE && TotalSteepness(cs[..4]) == 2.48
  {
    TotalsOfNext(cs, 0);
    TotalsOfNext(cs, 1);
    TotalsOfNext(cs, 2);
    TotalsOfNext(cs, 3);
  }

  lemma OceanTotals(cs: seq<Component>)
    requires AreWaves(cs, OCEAN_WAVES)
    ensures TotalSteepness(cs) == 3.36 && TotalAmplitude(cs) == 1.702
  {
    assert forall i :: 0 <= i < 4 ==> OCEAN_WAVES[i] == GEOMETRY_WAVES[i];
    GeometryTotals(cs);
    TotalsOfNext(cs, 4);
    TotalsOfNext(cs, 5);
    assert cs[..6] == cs;
  }

  /** Whatever the place, the time and the distance: the waves that move the geometry together
      never stand taller than the breaking ratio allows, and their compression stays under 0.62. */
  lemma CrestsStayPhysical(seaward: real, cs: seq<Component>, x: real, z: real)
    requires AreWaves(cs, GEOMETRY_WAVES) && AllReal(cs, ShoreHydrodynamics(seaward).depth)
    ensures var shore := ShoreHydrodynamics(seaward);
            var p := Sampled(cs, shore, x, z);
            && Within(p.height, BREAKING_AMPLITUDE_RATIO * shore.depth)
            && 0.0 <= p.compression <= 0.62
  {
    hide ShoreHydrodynamics, Sampled, AllReal;
    var shore := ShoreHydrodynamics(seaward);
    ScaleIsLimited(seaward);
    assert cs[..4] == cs;
    GeometryTotals(cs);
    HeightIsWithin(cs, shore, x, z);
    ScaledAmplitudesAre(cs, shore);
    LimitOfDepth(seaward);
    CompressionIsShared(cs, shore, x, z);
  }

  lemma LimitOfDepth(seaward: real)
    ensures GEOMETRY_WAVE_AMPLITUDE * ShoreHydrodynamics(seaward).breakingLimit
         == BREAKING_AMPLITUDE_RATIO * ShoreHydrodynamics(seaward).depth
  {
    hide Envelope, EnvelopeDerivative;
  }
}
