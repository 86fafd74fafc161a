/**
 The sun's own arc of backend/celestial.py, over one local date and across midnight.
 */
module Sun {
  import opened Common
  import opened Celestial

  predicate OnDate(d: int, t: real) { Midnight(d) <= t <= Midnight(d + 1) }

  /** Above the horizon, as far as the events of the date say. */
  predicate IsUp(c: Calendar, d: int, t: real) {
    (c.rise(d).Some? ==> c.rise(d).value < t) && (c.fall(d).Some? ==> t < c.fall(d).value)
  }

  function LeftEnd(c: Calendar, d: int): real { if c.rise(d).Some? then c.rise(d).value else Midnight(d) }

  function RightEnd(c: Calendar, d: int): real { if c.fall(d).Some? then c.fall(d).value else Midnight(d + 1) }

  /** How far the sun is on its way between the ends of its day. */
  lemma SpanIsProgress(t: real, start: real, end: real)
    requires end - start >= 1.0
    ensures var x := SpanFraction(t, start, end);
            && (t <= start ==> x == 0.0) && (end <= t ==> x == 1.0)
            && (start <= t <= end ==> x == Progress(start, end, t))
            && (start < t < end ==> 0.0 < x < 1.0)
  {
    var w, y := end - start, t - start;
    var q := y / w;
    assert q * w == y;
    if q > 0.0 { Positive(q, w); } else if q < 0.0 { Positive(-q, w); }
    if q > 1.0 { Positive(q - 1.0, w); } else if q < 1.0 { Positive(1.0 - q, w); }
  }

  lemma Positive(x: real, y: real)
    requires x > 0.0 && y > 0.0
    ensures x * y > 0.0
  {
  }

  /** On any date, polar ones included, the arc is strictly between its ends exactly while the sun is
      up, at the left one up to sunrise and at the right one from sunset on. */
  lemma UpIffBetweenEnds(c: Calendar, g: real, d: int, t: real)
    requires g >= 1.0 && SpacedDay(c, g, d) && OnDate(d, t)
    ensures 0.0 < Arc(c, d, t) < 1.0 <==> IsUp(c, d, t)
    ensures Arc(c, d, t) == 0.0 <==> c.rise(d).Some? && t <= c.rise(d).value
    ensures Arc(c, d, t) == 1.0 <==> c.fall(d).Some? && c.fall(d).value <= t
  {
    if c.rise(d).Some? || c.fall(d).Some? { SpanIsProgress(t, LeftEnd(c, d), RightEnd(c, d)); }
  }

  lemma Between(g: real, start: real, end: real, t: real, u: real)
    requires g >= 1.0 && end - start >= g && t <= u
    ensures 0.0 <= SpanFraction(u, start, end) - SpanFraction(t, start, end) <= (u - t) / g
  {
    var a, b := Held(t, start, end), Held(u, start, end);
    HeldIsEnough(t, start, end);
    HeldIsEnough(u, start, end);
    Apart(start, end, a, b);
    Shallower(g, end - start, b - a);
    Wider(b - a, u - t, g);
  }

  function Held(t: real, start: real, end: real): real {
    if t < start then start else if t > end then end else t
  }

  lemma HeldIsEnough(t: real, start: real, end: real)
    requires end - start >= 1.0
    ensures SpanFraction(t, start, end) == Progress(start, end, Held(t, start, end))
  {
    SpanIsProgress(t, start, end);
    Ends(start, end);
  }

  lemma Apart(start: real, end: real, a: real, b: real)
    requires start < end
    ensures Progress(start, end, b) - Progress(start, end, a) == (b - a) / (end - start)
  {
    var w := end - start;
    var p, q, r := (a - start) / w, (b - start) / w, (b - a) / w;
    assert p * w == a - start && q * w == b - start && r * w == b - a;
    var d := q - p - r;
    assert d * w == 0.0;
    if d > 0.0 { Positive(d, w); } else if d < 0.0 { Positive(-d, w); }
  }

  lemma Ends(start: real, end: real)
    requires start < end
    ensures Progress(start, end, start) == 0.0 && Progress(start, end, end) == 1.0
  {
    ProgressEnds(start, end, start);
  }

  lemma Wider(x: real, y: real, g: real)
    requires g > 0.0 && x <= y
    ensures x / g <= y / g
  {
    var p, q := x / g, y / g;
    assert p * g == x && q * g == y;
    assert (q - p) * g == y - x;
    if q < p { Positive(p - q, g); }
  }

  /** Over a date the sun never goes back, and goes forward by at most 1/g per second. */
  lemma ForwardOverTheDate(c: Calendar, g: real, d: int, t: real, u: real)
    requires g >= 1.0 && SpacedDay(c, g, d) && OnDate(d, t) && OnDate(d, u) && t <= u
    ensures Arc(c, d, t) <= Arc(c, d, u) && Arc(c, d, u) - Arc(c, d, t) <= (u - t) / g
  {
    Wider(0.0, u - t, g);
    if c.rise(d).Some? || c.fall(d).Some? { Between(g, LeftEnd(c, d), RightEnd(c, d), t, u); }
  }

  /** From one date to the next the arc is continuous at midnight if and only if the sun neither set
      on the one nor rises on the other; otherwise it wraps around, below the horizon. */
  lemma ContinuousAtMidnightIff(c: Calendar, g: real, d: int)
    requires g >= 1.0 && SpacedDay(c, g, d) && SpacedDay(c, g, d + 1)
    ensures Arc(c, d, Midnight(d + 1)) == Arc(c, d + 1, Midnight(d + 1)) <==>
            c.fall(d).None? && c.rise(d + 1).None?
    ensures !IsUp(c, d, Midnight(d + 1)) <==> c.fall(d).Some?
    ensures !IsUp(c, d + 1, Midnight(d + 1)) <==> c.rise(d + 1).Some?
  {
    var m := Midnight(d + 1);
    if c.rise(d).Some? || c.fall(d).Some? { SpanIsProgress(m, LeftEnd(c, d), RightEnd(c, d)); }
    if c.rise(d + 1).Some? || c.fall(d + 1).Some? { SpanIsProgress(m, LeftEnd(c, d + 1), RightEnd(c, d + 1)); }
  }
}
