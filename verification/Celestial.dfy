/**
 The sun and moon arcs of backend/celestial.py over an arbitrary calendar of sunrises and sunsets.

 Times are real seconds on the observer's local clock, whose days are 86400 s long; what Astral
 computes is the calendar. The theorem: with all gaps at least `g`, the night arc moves at most
 1/g per second over the whole timeline, across every sunrise, sunset, midnight and polar
 transition, exactly when no lone event is orphaned.
 */
module Celestial {
  import opened Common

  const DAY := 86400.0

  /** The sunrise and the sunset of each local date; either can be absent. */
  datatype Calendar = Calendar(rise: int -> Option<real>, fall: int -> Option<real>)

  function Midnight(d: int): real { d as real * DAY }

  function DayOf(t: real): int { (t / DAY).Floor }

  function Clamp(x: real): real {
    if x < 0.0 then 0.0 else if x > 1.0 then 1.0 else x
  }

  function AtLeastOne(x: real): real { if x < 1.0 then 1.0 else x }

  function SpanFraction(now: real, start: real, end: real): real {
    Clamp((now - start) / AtLeastOne(end - start))
  }

  /** arc_pct at time `now` of local date `d`, before rounding. */
  function Arc(c: Calendar, d: int, now: real): real {
    var r, s := c.rise(d), c.fall(d);
    if r.Some? && s.Some? then SpanFraction(now, r.value, s.value)
    else if r.Some? then SpanFraction(now, r.value, Midnight(d + 1)) * 0.5
    else if s.Some? then 0.5 + SpanFraction(now, Midnight(d), s.value) * 0.5
    else 0.5
  }

  /** night_arc_pct at time `now` of local date `d`, before rounding. */
  function Night(c: Calendar, d: int, now: real): real {
    var r, s := c.rise(d), c.fall(d);
    var previous, following := c.fall(d - 1), c.rise(d + 1);
    var arc := Arc(c, d, now);
    Clamp(
      if r.Some? && now < r.value then
        if previous.Some? then (now - previous.value) / AtLeastOne(r.value - previous.value) else 0.5
      else if s.Some? && now > s.value then
        if following.Some? then (now - s.value) / AtLeastOne(following.value - s.value) else 0.5
      else if r.Some? && s.Some? then
        if previous.None? && following.Some? then 0.5 * (1.0 - arc)
        else if previous.Some? && following.None? then 1.0 - 0.5 * arc
        else if previous.None? && following.None? then 0.5
        else 1.0 - arc
      else if r.Some? then 1.0 - arc
      else if s.Some? then 1.0 - arc
      else 0.5)
  }

  function NightArc(c: Calendar, t: real): real { Night(c, DayOf(t), t) }

  // ---------------------------------------------------------------- calendars

  /** Events lie in their day, sunrise before sunset, and everything is at least `g` apart. */
  predicate SpacedDay(c: Calendar, g: real, d: int) {
    var r, s := c.rise(d), c.fall(d);
    && (r.Some? ==> Midnight(d) <= r.value < Midnight(d + 1))
    && (s.Some? ==> Midnight(d) <= s.value < Midnight(d + 1))
    && (r.Some? && s.Some? ==> s.value - r.value >= g)
    && (r.Some? && s.None? ==> Midnight(d + 1) - r.value >= g)
    && (r.None? && s.Some? ==> s.value - Midnight(d) >= g)
    && (s.Some? && c.rise(d + 1).Some? ==> c.rise(d + 1).value - s.value >= g)
  }

  ghost predicate Spaced(c: Calendar, g: real) {
    forall d :: SpacedDay(c, g, d)
  }

  /** A sun that rises and does not set had set the day before; one that sets without having risen
      rises the day after. */
  predicate AdoptedDay(c: Calendar, d: int) {
    && (c.rise(d).Some? && c.fall(d).None? ==> c.fall(d - 1).Some?)
    && (c.fall(d).Some? && c.rise(d).None? ==> c.rise(d + 1).Some?)
  }

  ghost predicate NoOrphans(c: Calendar) {
    forall d :: AdoptedDay(c, d)
  }

  /** `x` and `y` are at most `gap / g` apart. */
  predicate Near(g: real, x: real, y: real, gap: real)
    requires g > 0.0
  {
    -(gap / g) <= x - y <= gap / g
  }

  ghost predicate Steady(c: Calendar, g: real)
    requires g > 0.0
  {
    forall t, u :: t <= u ==> Near(g, NightArc(c, t), NightArc(c, u), u - t)
  }

  // ---------------------------------------------------------------- ramps

  /** How far `t` is on the way from `a` to `b`. */
  function Progress(a: real, b: real, t: real): real
    requires a < b
  {
    (t - a) / (b - a)
  }

  /** Going from `a` to `b`, at least `g` apart, is no steeper than 1/g; nor are half of it and its mirror. */
  lemma RampIsNear(g: real, a: real, b: real, t: real, u: real)
    requires 0.0 < g <= b - a && t <= u
    ensures var x, y := Progress(a, b, t), Progress(a, b, u);
            Near(g, x, y, u - t) && Near(g, 1.0 - x, 1.0 - y, u - t)
            && Near(g, 1.0 - 0.5 * x, 1.0 - 0.5 * y, u - t) && Near(g, 0.5 - 0.5 * x, 0.5 - 0.5 * y, u - t)
  {
    var w := b - a;
    assert Progress(a, b, u) - Progress(a, b, t) == (u - t) / w;
    Shallower(g, w, u - t);
  }

  lemma Shallower(g: real, w: real, x: real)
    requires 0.0 < g <= w && 0.0 <= x
    ensures 0.0 <= x / w <= x / g
  {
    var q := x / w;
    assert q * w == x && q >= 0.0;
    assert q * g <= x;
    assert x / g - q == (x - q * g) / g;
  }

  lemma ProgressEnds(a: real, b: real, t: real)
    requires a < b && a <= t <= b
    ensures 0.0 <= Progress(a, b, t) <= 1.0
    ensures Progress(a, b, a) == 0.0 && Progress(a, b, b) == 1.0
  {
    Fraction(b - a, t - a);
    assert Progress(a, b, b) == 1.0 by { Whole(b - a, Progress(a, b, b)); }
  }

  lemma Fraction(w: real, x: real)
    requires 0.0 <= x <= w && 0.0 < w
    ensures 0.0 <= x / w <= 1.0
  {
    var q := x / w;
    assert q * w == x;
    AtMostOne(w, q);
  }

  lemma AtMostOne(w: real, q: real)
    requires w > 0.0 && q * w <= w
    ensures q <= 1.0
  {
  }

  lemma Whole(w: real, q: real)
    requires w > 0.0 && q * w == w
    ensures q == 1.0
  {
  }

  lemma Triangle(g: real, x: real, y: real, z: real, a: real, b: real)
    requires g > 0.0 && Near(g, x, y, a) && Near(g, y, z, b)
    ensures Near(g, x, z, a + b)
  {
    assert (a + b) / g == a / g + b / g;
  }

  // ---------------------------------------------------------------- the pieces of a day

  /** From midnight to sunrise. */
  lemma BeforeSunrise(c: Calendar, g: real, d: int, t: real)
    requires g >= 1.0 && SpacedDay(c, g, d - 1) && SpacedDay(c, g, d) && AdoptedDay(c, d)
    requires c.rise(d).Some? && Midnight(d) <= t <= c.rise(d).value
    ensures Night(c, d, t) ==
            if c.fall(d - 1).Some? then Progress(c.fall(d - 1).value, c.rise(d).value, t) else 0.5
  {
    var r := c.rise(d).value;
    if c.fall(d - 1).Some? { ProgressEnds(c.fall(d - 1).value, r, t); }
    if t == r {
      ProgressEnds(r, if c.fall(d).Some? then c.fall(d).value else Midnight(d + 1), r);
    }
  }

  /** From sunset to midnight. */
  lemma AfterSunset(c: Calendar, g: real, d: int, t: real)
    requires g >= 1.0 && SpacedDay(c, g, d) && SpacedDay(c, g, d + 1) && AdoptedDay(c, d)
    requires c.fall(d).Some? && c.fall(d).value <= t <= Midnight(d + 1)
    ensures Night(c, d, t) ==
            if c.rise(d + 1).Some? then Progress(c.fall(d).value, c.rise(d + 1).value, t) else 0.5
  {
    var s := c.fall(d).value;
    if c.rise(d + 1).Some? { ProgressEnds(s, c.rise(d + 1).value, t); }
    if t == s {
      ProgressEnds(if c.rise(d).Some? then c.rise(d).value else Midnight(d), s, s);
    }
  }

  /** While the sun is up: the arc of the day folded back. */
  lemma Daytime(c: Calendar, g: real, d: int, t: real)
    requires g >= 1.0 && SpacedDay(c, g, d)
    requires c.rise(d).Some? && c.fall(d).Some? && c.rise(d).value <= t <= c.fall(d).value
    ensures var a := Progress(c.rise(d).value, c.fall(d).value, t);
            var previous, following := c.fall(d - 1).Some?, c.rise(d + 1).Some?;
            Night(c, d, t) == if previous then (if following then 1.0 - a else 1.0 - 0.5 * a)
                              else if following then 0.5 - 0.5 * a else 0.5
  {
    ProgressEnds(c.rise(d).value, c.fall(d).value, t);
  }

  lemma IntoPolarDay(c: Calendar, g: real, d: int, t: real)
    requires g >= 1.0 && SpacedDay(c, g, d)
    requires c.rise(d).Some? && c.fall(d).None? && c.rise(d).value <= t <= Midnight(d + 1)
    ensures Night(c, d, t) == 1.0 - 0.5 * Progress(c.rise(d).value, Midnight(d + 1), t)
  {
    ProgressEnds(c.rise(d).value, Midnight(d + 1), t);
  }

  lemma OutOfPolarDay(c: Calendar, g: real, d: int, t: real)
    requires g >= 1.0 && SpacedDay(c, g, d)
    requires c.rise(d).None? && c.fall(d).Some? && Midnight(d) <= t <= c.fall(d).value
    ensures Night(c, d, t) == 0.5 - 0.5 * Progress(Midnight(d), c.fall(d).value, t)
  {
    ProgressEnds(Midnight(d), c.fall(d).value, t);
  }

  // ---------------------------------------------------------------- each piece is steady

  lemma SteadyBeforeSunrise(c: Calendar, g: real, d: int, t: real, u: real)
    requires g >= 1.0 && SpacedDay(c, g, d - 1) && SpacedDay(c, g, d) && AdoptedDay(c, d)
    requires c.rise(d).Some? && Midnight(d) <= t <= u <= c.rise(d).value
    ensures Near(g, Night(c, d, t), Night(c, d, u), u - t)
  {
    BeforeSunrise(c, g, d, t);
    BeforeSunrise(c, g, d, u);
    if c.fall(d - 1).Some? { RampIsNear(g, c.fall(d - 1).value, c.rise(d).value, t, u); }
  }

  lemma SteadyAfterSunset(c: Calendar, g: real, d: int, t: real, u: real)
    requires g >= 1.0 && SpacedDay(c, g, d) && SpacedDay(c, g, d + 1) && AdoptedDay(c, d)
    requires c.fall(d).Some? && c.fall(d).value <= t <= u <= Midnight(d + 1)
    ensures Near(g, Night(c, d, t), Night(c, d, u), u - t)
  {
    AfterSunset(c, g, d, t);
    AfterSunset(c, g, d, u);
    if c.rise(d + 1).Some? { RampIsNear(g, c.fall(d).value, c.rise(d + 1).value, t, u); }
  }

  lemma SteadyDaytime(c: Calendar, g: real, d: int, t: real, u: real)
    requires g >= 1.0 && SpacedDay(c, g, d)
    requires c.rise(d).Some? && c.fall(d).Some? && c.rise(d).value <= t <= u <= c.fall(d).value
    ensures Near(g, Night(c, d, t), Night(c, d, u), u - t)
  {
    Daytime(c, g, d, t);
    Daytime(c, g, d, u);
    RampIsNear(g, c.rise(d).value, c.fall(d).value, t, u);
  }

  lemma SteadyPolar(c: Calendar, g: real, d: int, t: real, u: real)
    requires g >= 1.0 && SpacedDay(c, g, d) && t <= u
    requires (c.rise(d).Some? && c.fall(d).None? && c.rise(d).value <= t && u <= Midnight(d + 1))
             || (c.rise(d).None? && c.fall(d).Some? && Midnight(d) <= t && u <= c.fall(d).value)
    ensures Near(g, Night(c, d, t), Night(c, d, u), u - t)
  {
    if c.rise(d).Some? {
      IntoPolarDay(c, g, d, t);
      IntoPolarDay(c, g, d, u);
      RampIsNear(g, c.rise(d).value, Midnight(d + 1), t, u);
    } else {
      OutOfPolarDay(c, g, d, t);
      OutOfPolarDay(c, g, d, u);
      RampIsNear(g, Midnight(d), c.fall(d).value, t, u);
    }
  }

  // ---------------------------------------------------------------- a whole day

  predicate GoodDay(c: Calendar, g: real, d: int) {
    g >= 1.0 && SpacedDay(c, g, d - 1) && SpacedDay(c, g, d) && SpacedDay(c, g, d + 1) && AdoptedDay(c, d)
  }

  /** Steady over a stretch that may cross one boundary `m`. */
  lemma Split(c: Calendar, g: real, d: int, t: real, m: real, u: real)
    requires g > 0.0 && t <= m <= u
    requires Near(g, Night(c, d, t), Night(c, d, m), m - t) && Near(g, Night(c, d, m), Night(c, d, u), u - m)
    ensures Near(g, Night(c, d, t), Night(c, d, u), u - t)
  {
    Triangle(g, Night(c, d, t), Night(c, d, m), Night(c, d, u), m - t, u - m);
  }

  lemma SteadyFromSunrise(c: Calendar, g: real, d: int, t: real, u: real)
    requires GoodDay(c, g, d) && t <= u <= Midnight(d + 1) && c.rise(d).Some? && c.rise(d).value <= t
    ensures Near(g, Night(c, d, t), Night(c, d, u), u - t)
  {
    if c.fall(d).None? {
      SteadyPolar(c, g, d, t, u);
    } else {
      var s := c.fall(d).value;
      if u <= s {
        SteadyDaytime(c, g, d, t, u);
      } else if s <= t {
        SteadyAfterSunset(c, g, d, t, u);
      } else {
        SteadyDaytime(c, g, d, t, s);
        SteadyAfterSunset(c, g, d, s, u);
        Split(c, g, d, t, s, u);
      }
    }
  }

  lemma SteadyWithoutSunrise(c: Calendar, g: real, d: int, t: real, u: real)
    requires GoodDay(c, g, d) && Midnight(d) <= t <= u <= Midnight(d + 1) && c.rise(d).None?
    ensures Near(g, Night(c, d, t), Night(c, d, u), u - t)
  {
    if c.fall(d).Some? {
      var s := c.fall(d).value;
      if u <= s {
        SteadyPolar(c, g, d, t, u);
      } else if s <= t {
        SteadyAfterSunset(c, g, d, t, u);
      } else {
        SteadyPolar(c, g, d, t, s);
        SteadyAfterSunset(c, g, d, s, u);
        Split(c, g, d, t, s, u);
      }
    }
  }

  lemma SteadyDay(c: Calendar, g: real, d: int, t: real, u: real)
    requires GoodDay(c, g, d) && Midnight(d) <= t <= u <= Midnight(d + 1)
    ensures Near(g, Night(c, d, t), Night(c, d, u), u - t)
  {
    if c.rise(d).None? {
      SteadyWithoutSunrise(c, g, d, t, u);
    } else {
      var r := c.rise(d).value;
      if u <= r {
        SteadyBeforeSunrise(c, g, d, t, u);
      } else if r <= t {
        SteadyFromSunrise(c, g, d, t, u);
      } else {
        SteadyBeforeSunrise(c, g, d, t, r);
        SteadyFromSunrise(c, g, d, r, u);
        Split(c, g, d, t, r, u);
      }
    }
  }

  // ---------------------------------------------------------------- from day to day

  /** What the end of a day comes to, and what the next day starts from. */
  function AtMidnight(c: Calendar, d: int): real {
    if c.fall(d).Some? && c.rise(d + 1).Some?
    then (Midnight(d + 1) - c.fall(d).value) / AtLeastOne(c.rise(d + 1).value - c.fall(d).value)
    else 0.5
  }

  lemma EndOfDay(c: Calendar, g: real, d: int)
    requires GoodDay(c, g, d)
    ensures Night(c, d, Midnight(d + 1)) == AtMidnight(c, d)
  {
    if c.fall(d).Some? {
      AfterSunset(c, g, d, Midnight(d + 1));
    } else if c.rise(d).Some? {
      IntoPolarDay(c, g, d, Midnight(d + 1));
      ProgressEnds(c.rise(d).value, Midnight(d + 1), Midnight(d + 1));
    }
  }

  lemma StartOfDay(c: Calendar, g: real, d: int)
    requires GoodDay(c, g, d + 1)
    ensures Night(c, d + 1, Midnight(d + 1)) == AtMidnight(c, d)
  {
    if c.rise(d + 1).Some? {
      BeforeSunrise(c, g, d + 1, Midnight(d + 1));
    } else if c.fall(d + 1).Some? {
      OutOfPolarDay(c, g, d + 1, Midnight(d + 1));
      ProgressEnds(Midnight(d + 1), c.fall(d + 1).value, Midnight(d + 1));
    }
  }

  lemma DayBounds(t: real)
    ensures Midnight(DayOf(t)) <= t < Midnight(DayOf(t) + 1)
  {
    var q := t / DAY;
    assert q.Floor as real <= q < q.Floor as real + 1.0;
    assert q * DAY == t;
  }

  lemma DaysInOrder(d: int, t: real, e: int, u: real)
    requires Midnight(d) <= t <= u < Midnight(e + 1)
    ensures d <= e
  {
  }

  lemma {:induction false} SteadyAcross(c: Calendar, g: real, d: int, t: real, e: int, u: real)
    requires g >= 1.0 && Spaced(c, g) && NoOrphans(c)
    requires d <= e && t <= u && Midnight(d) <= t <= Midnight(d + 1) && Midnight(e) <= u <= Midnight(e + 1)
    ensures Near(g, Night(c, d, t), Night(c, e, u), u - t)
    decreases e - d
  {
    assert GoodDay(c, g, d) && GoodDay(c, g, d + 1);
    if d == e {
      SteadyDay(c, g, d, t, u);
    } else {
      var m := Midnight(d + 1);
      assert m <= Midnight(e);
      SteadyDay(c, g, d, t, m);
      EndOfDay(c, g, d);
      StartOfDay(c, g, d);
      SteadyAcross(c, g, d + 1, m, e, u);
      Triangle(g, Night(c, d, t), Night(c, d, m), Night(c, e, u), m - t, u - m);
    }
  }

  lemma AdoptedIsSteady(c: Calendar, g: real)
    requires g >= 1.0 && Spaced(c, g) && NoOrphans(c)
    ensures Steady(c, g)
  {
    forall t, u | t <= u ensures Near(g, NightArc(c, t), NightArc(c, u), u - t) {
      DayBounds(t);
      DayBounds(u);
      DaysInOrder(DayOf(t), t, DayOf(u), u);
      SteadyAcross(c, g, DayOf(t), t, DayOf(u), u);
    }
  }

  // ---------------------------------------------------------------- orphans jump

  lemma DayIs(d: int, t: real)
    requires Midnight(d) <= t < Midnight(d + 1)
    ensures DayOf(t) == d
  {
    DayBounds(t);
    var e := DayOf(t);
    DaysInOrder(d, t, e, t);
    DaysInOrder(e, t, d, t);
  }

  lemma TooFar(g: real, x: real, y: real, gap: real)
    requires g >= 1.0 && 0.0 <= gap <= 0.25 && (x - y > 0.25 || y - x > 0.25)
    ensures !Near(g, x, y, gap)
  {
    Shallower(1.0, g, gap);
  }

  lemma NearTheEnd(a: real, b: real)
    requires b - a >= 1.0
    ensures 0.75 <= Progress(a, b, b - 0.25) <= 1.0
  {
    var w, q := b - a, Progress(a, b, b - 0.25);
    Shallower(1.0, w, 0.25);
    assert q == 1.0 - 0.25 / w;
  }

  /** A lone sunset that no sunrise follows: the moon snaps from the horizon to the apex. */
  lemma OrphanSunsetJumps(c: Calendar, g: real, d: int)
    requires g >= 1.0 && Spaced(c, g)
    requires c.fall(d).Some? && c.rise(d).None? && c.rise(d + 1).None?
    ensures !Steady(c, g)
  {
    assert SpacedDay(c, g, d);
    var s, m := c.fall(d).value, Midnight(d + 1);
    var u := if m - s < 0.5 then (s + m) / 2.0 else s + 0.25;
    assert s < u < m && u - s <= 0.25;
    DayIs(d, s);
    DayIs(d, u);
    OutOfPolarDay(c, g, d, s);
    ProgressEnds(Midnight(d), s, s);
    assert NightArc(c, s) == 0.0 && NightArc(c, u) == 0.5;
    TooFar(g, NightArc(c, s), NightArc(c, u), u - s);
  }

  /** Just before a lone sunrise that no sunset precedes, the moon is still near the apex. */
  lemma OrphanSunriseApproach(c: Calendar, g: real, d: int) returns (t: real)
    requires g >= 1.0 && Spaced(c, g)
    requires c.rise(d).Some? && c.fall(d).None? && c.fall(d - 1).None?
    ensures c.rise(d).value - 0.25 <= t < c.rise(d).value && 0.5 <= NightArc(c, t) <= 0.625
  {
    assert SpacedDay(c, g, d) && SpacedDay(c, g, d - 1);
    var r, m := c.rise(d).value, Midnight(d);
    if m < r {
      t := if r - m < 0.25 then m else r - 0.25;
      DayIs(d, t);
    } else {
      t := r - 0.25;
      DayIs(d - 1, t);
      if c.rise(d - 1).Some? {
        var p := c.rise(d - 1).value;
        IntoPolarDay(c, g, d - 1, t);
        NearTheEnd(p, m);
      }
    }
  }

  lemma OrphanSunriseJumps(c: Calendar, g: real, d: int)
    requires g >= 1.0 && Spaced(c, g)
    requires c.rise(d).Some? && c.fall(d).None? && c.fall(d - 1).None?
    ensures !Steady(c, g)
  {
    assert SpacedDay(c, g, d);
    var r := c.rise(d).value;
    var t := OrphanSunriseApproach(c, g, d);
    DayIs(d, r);
    IntoPolarDay(c, g, d, r);
    ProgressEnds(r, Midnight(d + 1), r);
    assert NightArc(c, r) == 1.0;
    TooFar(g, NightArc(c, t), NightArc(c, r), r - t);
  }

  /** One straight ramp from each sunset to the sunrise that follows, midnight in between or not. */
  lemma NightIsOneRamp(c: Calendar, g: real, d: int, t: real)
    requires g >= 1.0 && Spaced(c, g) && NoOrphans(c)
    requires c.fall(d).Some? && c.rise(d + 1).Some? && c.fall(d).value <= t <= c.rise(d + 1).value
    ensures SpacedDay(c, g, d) && NightArc(c, t) == Progress(c.fall(d).value, c.rise(d + 1).value, t)
  {
    assert GoodDay(c, g, d) && GoodDay(c, g, d + 1);
    if t < Midnight(d + 1) {
      DayIs(d, t);
      AfterSunset(c, g, d, t);
    } else {
      DayIs(d + 1, t);
      BeforeSunrise(c, g, d + 1, t);
    }
  }

  /** At a sunrise the moon is at the far end of its arc, at a sunset back at the start; next to a
      polar night it is at the apex instead. */
  lemma HorizonsAreMet(c: Calendar, g: real, d: int)
    requires g >= 1.0 && Spaced(c, g) && NoOrphans(c)
    ensures c.rise(d).Some? ==> NightArc(c, c.rise(d).value) == if c.fall(d - 1).Some? then 1.0 else 0.5
    ensures c.fall(d).Some? ==> NightArc(c, c.fall(d).value) == if c.rise(d + 1).Some? then 0.0 else 0.5
  {
    assert GoodDay(c, g, d);
    if c.rise(d).Some? {
      var r := c.rise(d).value;
      DayIs(d, r);
      BeforeSunrise(c, g, d, r);
      if c.fall(d - 1).Some? { ProgressEnds(c.fall(d - 1).value, r, r); }
    }
    if c.fall(d).Some? {
      var s := c.fall(d).value;
      DayIs(d, s);
      AfterSunset(c, g, d, s);
      if c.rise(d + 1).Some? { ProgressEnds(s, c.rise(d + 1).value, s); }
    }
  }

  /** The night arc moves at most 1/g per second everywhere if and only if every lone sunrise is
      preceded by a sunset and every lone sunset followed by a sunrise. */
  lemma NightArcIsSteadyIffNoOrphans(c: Calendar, g: real)
    requires g >= 1.0 && Spaced(c, g)
    ensures Steady(c, g) <==> NoOrphans(c)
  {
    if NoOrphans(c) {
      AdoptedIsSteady(c, g);
    } else {
      var d :| !AdoptedDay(c, d);
      if c.rise(d).Some? && c.fall(d).None? && c.fall(d - 1).None? {
        OrphanSunriseJumps(c, g, d);
      } else {
        OrphanSunsetJumps(c, g, d);
      }
    }
  }

  // ---------------------------------------------------------------- sunset before sunrise

  /** Next to polar day a date can see its sunset, after midnight, before its sunrise. */
  predicate InvertedDay(c: Calendar, d: int) {
    && c.rise(d).Some? && c.fall(d).Some?
    && Midnight(d) <= c.fall(d).value < c.rise(d).value < Midnight(d + 1)
    && (c.fall(d - 1).Some? ==> c.fall(d - 1).value <= c.rise(d).value - 1.0)
    && (c.rise(d + 1).Some? ==> Midnight(d + 1) <= c.rise(d + 1).value)
  }

  /** Where the arc is heading just before the sunrise of such a date: to the end of a night that is
      counted from the sunset of the date before. */
  function Before(c: Calendar, d: int): real { if c.fall(d - 1).Some? then 1.0 else 0.5 }

  /** And where it is at that sunrise: on the way from the date's own sunset to the next sunrise. */
  function At(c: Calendar, d: int): real
    requires InvertedDay(c, d)
  {
    var s, r, following := c.fall(d).value, c.rise(d).value, c.rise(d + 1);
    if following.Some? then Clamp((r - s) / AtLeastOne(following.value - s)) else 0.5
  }

  lemma ShortOfOne(x: real, w: real)
    requires 0.0 <= x < w
    ensures 0.0 <= x / w < 1.0
  {
    var q := x / w;
    assert q * w == x;
    Fraction(w, x);
    assert q == 1.0 ==> x == w;
  }

  lemma InvertedArc(c: Calendar, d: int, t: real)
    requires InvertedDay(c, d) && c.fall(d).value <= t < c.rise(d).value && c.rise(d).value - t <= 1.0
    ensures var x := Before(c, d) - NightArc(c, t); 0.0 <= x <= c.rise(d).value - t
    ensures NightArc(c, c.rise(d).value) == At(c, d)
  {
    var r, previous := c.rise(d).value, c.fall(d - 1);
    DayIs(d, t);
    DayIs(d, r);
    if previous.Some? {
      var w, gap := r - previous.value, r - t;
      Shallower(1.0, w, gap);
      assert (t - previous.value) / w == 1.0 - gap / w by { assert (t - previous.value) / w + gap / w == w / w; }
    }
  }

  /** The two are never the same once a sunset is known for the date before, and wherever they differ
      the arc jumps: no calendar with such a date is steady, at any slope. */
  lemma InvertedDateJumps(c: Calendar, d: int, g: real)
    requires g >= 1.0 && InvertedDay(c, d)
    ensures c.fall(d - 1).Some? ==> Before(c, d) != At(c, d)
    ensures Before(c, d) != At(c, d) ==> !Steady(c, g)
  {
    hide NightArc;
    var s, r, following := c.fall(d).value, c.rise(d).value, c.rise(d + 1);
    if following.Some? { ShortOfOne(r - s, AtLeastOne(following.value - s)); }
    var jump := if Before(c, d) > At(c, d) then Before(c, d) - At(c, d) else At(c, d) - Before(c, d);
    if jump > 0.0 {
      var e := if jump / 3.0 < (r - s) / 2.0 then jump / 3.0 else (r - s) / 2.0;
      var t := if e < 1.0 then r - e else r - 1.0;
      InvertedArc(c, d, t);
      Shallower(1.0, g, r - t);
      assert !Near(g, NightArc(c, t), NightArc(c, r), r - t);
    }
  }
}
