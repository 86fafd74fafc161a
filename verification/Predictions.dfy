/**
 Derivatives without limits: values at the two ends of a step `h`, and a slope that predicts the
 change up to a multiple of h * h. Products, lengths and reciprocals of such values are such values,
 with bounds that do not depend on the step.
 */
module Predictions {
  import opened Shore

  /** What a value, its change per unit of the step, and the error of its prediction stay within. */
  datatype Bounds = Bounds(value: real, change: real, error: real) {
    predicate Proper() { 0.0 <= value && 0.0 <= change && 0.0 <= error }
  }

  /** A step of length `a`, with square `s`, changes f0 to f1, where its slope predicts `f'`. */
  predicate Smooth(f0: real, f1: real, f': real, a: real, s: real, b: Bounds) {
    Tame(f0, f1, f', b.value, Scaled(b.change, a), Scaled(b.error, s))
  }

  function Scaled(x: real, a: real): real { x * a }

  function Times(b: Bounds, d: Bounds): Bounds {
    Bounds(b.value * d.value, b.value * d.change + b.change * d.value,
           b.value * d.error + b.error * d.value + b.change * d.change)
  }

  lemma TimesIsProper(b: Bounds, d: Bounds)
    requires b.Proper() && d.Proper()
    ensures Times(b, d).Proper()
  {
    Grow(0.0, b.value, d.value);
    Grow(0.0, b.value, d.change);
    Grow(0.0, b.change, d.value);
    Grow(0.0, b.value, d.error);
    Grow(0.0, b.error, d.value);
    Grow(0.0, b.change, d.change);
  }

  // ---------------------------------------------------------------- products

  lemma ProductIsSmooth(f0: real, f1: real, f': real, g0: real, g1: real, g': real,
                        p0: real, p1: real, p': real, a: real, s: real, b: Bounds, d: Bounds, bd: Bounds)
    requires p0 == f0 * g0 && p1 == f1 * g1 && p' == f' * g0 + f0 * g' && s == a * a && bd == Times(b, d)
    requires Smooth(f0, f1, f', a, s, b) && Smooth(g0, g1, g', a, s, d)
    ensures Smooth(p0, p1, p', a, s, bd)
  {
    var cf, ef, cg, eg := Scaled(b.change, a), Scaled(b.error, s), Scaled(d.change, a), Scaled(d.error, s);
    var c, e := Scaled(bd.change, a), Scaled(bd.error, s);
    hide Tame, Scaled, Combines;
    TimesScaled(b, d, bd, a, s, cf, ef, cg, eg);
    hide Times;
    TameProduct(f0, f1, f', g0, g1, g', p0, p1, p', b.value, cf, ef, d.value, cg, eg, bd.value, c, e);
  }

  predicate Combines(m: real, c: real, e: real, mf: real, cf: real, ef: real, mg: real, cg: real, eg: real) {
    m == mf * mg && mf * cg + cf * mg == c && mf * eg + ef * mg + cf * cg == e
  }

  lemma TameProduct(f0: real, f1: real, f': real, g0: real, g1: real, g': real, p0: real, p1: real, p': real,
                    mf: real, cf: real, ef: real, mg: real, cg: real, eg: real, m: real, c: real, e: real)
    requires p0 == f0 * g0 && p1 == f1 * g1 && p' == f' * g0 + f0 * g'
    requires Tame(f0, f1, f', mf, cf, ef) && Tame(g0, g1, g', mg, cg, eg)
    requires Combines(m, c, e, mf, cf, ef, mg, cg, eg)
    ensures Tame(p0, p1, p', m, c, e)
  {
    hide Tame;
    ProductIsTame(f0, f1, f', g0, g1, g', p0, p1, p', mf, cf, ef, mg, cg, eg, cf * cg, m, c, e);
  }

  lemma TimesScaled(b: Bounds, d: Bounds, bd: Bounds, a: real, s: real,
                    cf: real, ef: real, cg: real, eg: real)
    requires bd == Times(b, d) && s == a * a
    requires cf == Scaled(b.change, a) && cg == Scaled(d.change, a)
    requires ef == Scaled(b.error, s) && eg == Scaled(d.error, s)
    ensures Combines(bd.value, Scaled(bd.change, a), Scaled(bd.error, s), b.value, cf, ef, d.value, cg, eg)
  {
    hide Scaled;
    ChangeScales(b.value, b.change, d.value, d.change, a, cf, cg, bd.change);
    ErrorScales(b.value, b.change, b.error, d.value, d.change, d.error, a, s, cf, ef, cg, eg, bd.error);
    hide Times;
  }

  lemma ChangeScales(mf: real, cf: real, mg: real, cg: real, a: real, cfa: real, cga: real, c: real)
    requires cfa == Scaled(cf, a) && cga == Scaled(cg, a) && c == mf * cg + cf * mg
    ensures Scaled(c, a) == mf * cga + cfa * mg
  {
  }

  lemma ErrorScales(mf: real, cf: real, ef: real, mg: real, cg: real, eg: real, a: real, s: real,
                    cfa: real, efs: real, cga: real, egs: real, e: real)
    requires s == a * a && e == mf * eg + ef * mg + cf * cg
    requires cfa == Scaled(cf, a) && cga == Scaled(cg, a) && efs == Scaled(ef, s) && egs == Scaled(eg, s)
    ensures Scaled(e, s) == mf * egs + efs * mg + cfa * cga
  {
    assert cfa * cga == cf * cg * s;
  }

  lemma ConstantIsSmooth(x: real, a: real, s: real)
    ensures Smooth(x, x, 0.0, a, s, Bounds(Abs(x), 0.0, 0.0))
  {
  }

  /** A bounded slope and a bounded value bound the change, whatever the step. */
  lemma SlopeBoundsChange(f0: real, f1: real, f': real, a: real, s: real, m: real, d: real, e: real)
    requires 0.0 <= m && 0.0 <= d && 0.0 <= e && 0.0 <= a && s == a * a
    requires Within(f0, m) && Within(f1, m) && Within(f', Scaled(d, a)) && Within(f1 - f0 - f', Scaled(e, s))
    ensures Smooth(f0, f1, f', a, s, Steady(m, d, e))
  {
    var da, ea, ma, es := Scaled(d, a), e * a, m * a, Scaled(e, s);
    SteadyChange(m, d, e, a, da, ea, ma);
    assert a > 1.0 ==> m <= ma by { if a > 1.0 { Grow(1.0, a, m); } }
    assert a <= 1.0 ==> es <= ea by { if a <= 1.0 { SmallStep(a, s, e, es, ea); } }
    hide Steady, Scaled;
  }

  function Steady(m: real, d: real, e: real): Bounds { Bounds(m, d + e + 2.0 * m, e) }

  lemma SteadyChange(m: real, d: real, e: real, a: real, da: real, ea: real, ma: real)
    requires 0.0 <= m && 0.0 <= d && 0.0 <= e && 0.0 <= a && da == d * a && ea == e * a && ma == m * a
    ensures 0.0 <= da && 0.0 <= ea && 0.0 <= ma
    ensures var b := Steady(m, d, e);
            b.value == m && b.error == e && Scaled(b.change, a) == da + ea + 2.0 * ma
  {
    ProductIsPositive(d, a, da);
    ProductIsPositive(e, a, ea);
    ProductIsPositive(m, a, ma);
  }

  lemma SmallStep(a: real, s: real, e: real, es: real, ea: real)
    requires 0.0 <= a <= 1.0 && s == a * a && 0.0 <= e && es == e * s && ea == e * a
    ensures es <= ea
  {
    SquareOfFraction(a, s);
    Ordered(s, a, e, es, ea);
  }

  lemma SquareOfFraction(a: real, s: real)
    requires 0.0 <= a <= 1.0 && s == a * a
    ensures s <= a
  {
    ProductIsPositive(a, 1.0 - a, a * (1.0 - a));
  }

  lemma Ordered(s: real, a: real, e: real, es: real, ea: real)
    requires s <= a && 0.0 <= e && es == e * s && ea == e * a
    ensures es <= ea
  {
    Grow(s, a, e);
  }

  // ---------------------------------------------------------------- lengths

  function LengthBounds(along: real, b: Bounds, inverse: real): Bounds {
    Bounds(Abs(along) + b.value, b.change, b.error + b.change * b.change * inverse)
  }

  /** The length of a vector whose one component changes: never faster than the component does, and
      predicted by its share of the direction. */
  lemma LengthIsSmooth(along: real, c0: real, c1: real, c': real, n0: real, n1: real, n': real, a: real, s: real,
                       b: Bounds, share: real, inverse: real, l: Bounds)
    requires l == LengthBounds(along, b, inverse)
    requires n0 > 0.0 && n1 > 0.0 && n0 * n0 == along * along + c0 * c0 && n1 * n1 == along * along + c1 * c1
    requires c0 * c1 >= 0.0 && share * n0 == c0 && n' == share * c' && 0.0 <= a && s == a * a
    requires inverse > 0.0 && 1.0 <= n0 * inverse
    requires Smooth(c0, c1, c', a, s, b)
    ensures Smooth(n0, n1, n', a, s, l)
  {
    var ca, es := Scaled(b.change, a), Scaled(b.error, s);
    LengthScaled(along, b, inverse, l, a, s, ca, es);
    hide LengthBounds, Scaled;
    TameLength(along, c0, c1, c', n0, n1, n', b.value, ca, es, share, inverse, Scaled(l.error, s));
  }

  predicate AddsSquare(e: real, es: real, ca: real, inverse: real) { e == es + ca * ca * inverse }

  lemma LengthScaled(along: real, b: Bounds, inverse: real, l: Bounds, a: real, s: real, ca: real, es: real)
    requires l == LengthBounds(along, b, inverse) && s == a * a
    requires ca == Scaled(b.change, a) && es == Scaled(b.error, s)
    ensures l.value == Abs(along) + b.value && Scaled(l.change, a) == ca
    ensures AddsSquare(Scaled(l.error, s), es, ca, inverse)
  {
  }

  lemma TameLength(along: real, c0: real, c1: real, c': real, n0: real, n1: real, n': real,
                   m: real, ca: real, es: real, share: real, inverse: real, e: real)
    requires n0 > 0.0 && n1 > 0.0 && n0 * n0 == along * along + c0 * c0 && n1 * n1 == along * along + c1 * c1
    requires c0 * c1 >= 0.0 && share * n0 == c0 && n' == share * c'
    requires inverse > 0.0 && 1.0 <= n0 * inverse
    requires Tame(c0, c1, c', m, ca, es) && AddsSquare(e, es, ca, inverse)
    ensures Tame(n0, n1, n', Abs(along) + m, ca, e)
  {
    hide AddsSquare;
    var d := c1 - c0;
    assert Within(n0, Abs(along) + m) by { LengthIsWithin(along, c0, n0, m); }
    assert Within(n1, Abs(along) + m) by { LengthIsWithin(along, c1, n1, m); }
    assert Within(n1 - n0, ca) by { LengthChange(along, c0, c1, n0, n1, d, ca); }
    assert Within(share, 1.0) by { ShareIsWithin(along, c0, n0, share); }
    var r, v := n1 - n0 - share * d, d - c';
    assert 0.0 <= r * n0 <= d * d by { LengthRemainder(along, c0, c1, n0, n1, share, d, r); }
    LengthError(n0, n1, share, d, c', n', r, v, es, ca, inverse, e);
  }

  lemma LengthError(n0: real, n1: real, share: real, d: real, c': real, n': real, r: real, v: real,
                    es: real, ca: real, inverse: real, e: real)
    requires r == n1 - n0 - share * d && v == d - c' && n' == share * c' && Within(share, 1.0) && Within(v, es)
    requires n0 > 0.0 && inverse > 0.0 && 1.0 <= n0 * inverse && 0.0 <= r * n0 <= d * d && Within(d, ca)
    requires AddsSquare(e, es, ca, inverse)
    ensures Within(n1 - n0 - n', e)
  {
    var square, sv := ca * ca * inverse, share * v;
    RemainderIsWithin(n0, inverse, r, d, ca, square);
    ProductIsWithin(share, v, 1.0, es, sv, es);
    assert n1 - n0 - n' == r + sv;
  }

  lemma LengthIsWithin(along: real, c: real, n: real, m: real)
    requires n > 0.0 && n * n == along * along + c * c && Within(c, m)
    ensures Within(n, Abs(along) + m)
  {
    var x, y := Abs(along), Abs(c);
    assert x * x == along * along && y * y == c * c;
    var m := x + y;
    assert m * m == x * x + 2.0 * (x * y) + y * y;
    Grow(0.0, x, y);
    if n > m { NotLonger(n, m); }
  }

  lemma NotLonger(n: real, m: real)
    requires n > m >= 0.0
    ensures n * n > m * m
  {
    Positive(n - m, n + m, (n - m) * (n + m));
    assert n * n - m * m == (n - m) * (n + m);
  }

  lemma LegIsShorter(along: real, c: real, n: real)
    requires n > 0.0 && n * n == along * along + c * c
    ensures Within(c, n)
  {
    Square(along);
    if c > n { NotLonger(c, n); }
    assert (-c) * (-c) == c * c;
    if -c > n { NotLonger(-c, n); }
  }

  lemma LengthChange(along: real, c0: real, c1: real, n0: real, n1: real, d: real, bound: real)
    requires n0 > 0.0 && n1 > 0.0 && n0 * n0 == along * along + c0 * c0 && n1 * n1 == along * along + c1 * c1
    requires d == c1 - c0 && Within(d, bound)
    ensures Within(n1 - n0, bound)
  {
    LegIsShorter(along, c0, n0);
    LegIsShorter(along, c1, n1);
    var w, p := n0 + n1, d * (c0 + c1);
    assert (n1 - n0) * w == p;
    ProductIsWithin(d, c0 + c1, bound, w, p, bound * w);
    Cancel(n1 - n0, bound, w, p, bound * w);
    Cancel(-bound, n1 - n0, w, -bound * w, p);
  }

  lemma ShareIsWithin(along: real, c: real, n: real, share: real)
    requires n > 0.0 && n * n == along * along + c * c && share * n == c
    ensures Within(share, 1.0)
  {
    LegIsShorter(along, c, n);
    Cancel(share, 1.0, n, c, n);
    Cancel(-1.0, share, n, -n, c);
  }

  /** The chord lies above the tangent, by at most the square of the step over the length. */
  lemma LengthRemainder(along: real, c0: real, c1: real, n0: real, n1: real, share: real, d: real, r: real)
    requires n0 > 0.0 && n1 > 0.0 && n0 * n0 == along * along + c0 * c0 && n1 * n1 == along * along + c1 * c1
    requires c0 * c1 >= 0.0 && share * n0 == c0 && d == c1 - c0 && r == n1 - n0 - share * d
    ensures 0.0 <= r * n0 <= d * d
  {
    var q, u := n0 * n1, along * along;
    var p, w, dd := q - u - c0 * c1, q + u + c0 * c1, d * d;
    ChordTimes(n0, n1, share, c0, c1, u, q, p, d, r);
    Positive(n0, n1, q);
    Square(along);
    Square(d);
    Lagrange(along, c0, c1, n0, n1, q, u, p, d, w, dd);
    Quotients(p, w, dd, u, p * w, dd * u);
  }

  lemma Quotients(p: real, w: real, dd: real, u: real, pw: real, ddu: real)
    requires 0.0 < w && 0.0 <= u <= w && 0.0 <= dd && pw == p * w && ddu == dd * u && pw == ddu
    ensures 0.0 <= p <= dd
  {
    ProductIsPositive(dd, u, ddu);
    Cancel(0.0, p, w, 0.0, pw);
    Grow(u, w, dd);
    Cancel(p, dd, w, pw, dd * w);
  }

  lemma ChordTimes(n0: real, n1: real, share: real, c0: real, c1: real, u: real, q: real, p: real, d: real, r: real)
    requires n0 * n0 == u + c0 * c0 && q == n0 * n1 && p == q - u - c0 * c1
    requires share * n0 == c0 && d == c1 - c0 && r == n1 - n0 - share * d
    ensures r * n0 == p
  {
    assert r * n0 == q - n0 * n0 - share * n0 * d;
  }

  lemma Lagrange(along: real, c0: real, c1: real, n0: real, n1: real, q: real, u: real, p: real, d: real,
                 w: real, dd: real)
    requires n0 * n0 == u + c0 * c0 && n1 * n1 == u + c1 * c1 && u == along * along && dd == d * d
    requires q == n0 * n1 && p == q - u - c0 * c1 && w == q + u + c0 * c1 && d == c1 - c0
    ensures p * w == dd * u
  {
    var x := c0 * c1;
    assert q * q == (u + c0 * c0) * (u + c1 * c1) by { SquareOfProducts(n0, n1, q, u + c0 * c0, u + c1 * c1); }
    assert (u + c0 * c0) * (u + c1 * c1) == u * u + u * (c0 * c0 + c1 * c1) + x * x;
    assert dd == c0 * c0 + c1 * c1 - 2.0 * x;
    assert p * w == q * q - (u + x) * (u + x);
  }

  lemma SquareOfProducts(x: real, y: real, q: real, v: real, w: real)
    requires q == x * y && v == x * x && w == y * y
    ensures q * q == v * w
  {
  }

  lemma RemainderIsWithin(n0: real, inverse: real, r: real, d: real, bound: real, e: real)
    requires n0 > 0.0 && inverse > 0.0 && 1.0 <= n0 * inverse && 0.0 <= r * n0 <= d * d
    requires Within(d, bound) && bound * bound * inverse == e
    ensures Within(r, e)
  {
    Cancel(0.0, r, n0, 0.0, r * n0);
    ProductIsWithin(d, d, bound, bound, d * d, bound * bound);
    Grow(1.0, n0 * inverse, r);
    assert n0 * inverse * r == r * n0 * inverse;
    Grow(r * n0, bound * bound, inverse);
  }

  // ---------------------------------------------------------------- reciprocals

  function ReciprocalBounds(b: Bounds, inverse: real): Bounds {
    Bounds(inverse, b.change * (inverse * inverse),
           (b.error + b.change * b.change * inverse) * (inverse * inverse))
  }

  lemma ReciprocalIsSmooth(n0: real, n1: real, n': real, i0: real, i1: real, i': real, a: real, s: real, b: Bounds,
                           inverse: real, r: Bounds)
    requires r == ReciprocalBounds(b, inverse)
    requires n0 > 0.0 && n1 > 0.0 && i0 * n0 == 1.0 && i1 * n1 == 1.0 && i' == -(n' * (i0 * i0))
    requires inverse > 0.0 && 1.0 <= n0 * inverse && 1.0 <= n1 * inverse && s == a * a
    requires Smooth(n0, n1, n', a, s, b)
    ensures Smooth(i0, i1, i', a, s, r)
  {
    var c, es := Scaled(b.change, a), Scaled(b.error, s);
    ReciprocalScaled(b, a, s, c, es, inverse, r);
    hide ReciprocalBounds, Scaled;
    TameReciprocal(n0, n1, n', i0, i1, i', c, es, inverse, Scaled(r.change, a), Scaled(r.error, s));
  }

  predicate Inverts(ci: real, ei: real, c: real, e: real, inverse: real) {
    && ci == c * (inverse * inverse)
    && ei == e * (inverse * inverse) + c * c * (inverse * inverse * inverse)
  }

  lemma ReciprocalScaled(b: Bounds, a: real, s: real, c: real, es: real, inverse: real, r: Bounds)
    requires s == a * a && c == Scaled(b.change, a) && es == Scaled(b.error, s)
    requires r == ReciprocalBounds(b, inverse)
    ensures r.value == inverse && Inverts(Scaled(r.change, a), Scaled(r.error, s), c, es, inverse)
  {
    assert c * c == b.change * b.change * s;
    var x, y, v := b.error, b.change * b.change, inverse * inverse;
    assert y * s * (v * inverse) == y * inverse * v * s;
  }

  lemma TameReciprocal(n0: real, n1: real, n': real, i0: real, i1: real, i': real, c: real, es: real,
                       inverse: real, ci: real, ei: real)
    requires n0 > 0.0 && n1 > 0.0 && i0 * n0 == 1.0 && i1 * n1 == 1.0 && i' == -(n' * (i0 * i0))
    requires inverse > 0.0 && 1.0 <= n0 * inverse && 1.0 <= n1 * inverse
    requires Within(n1 - n0, c) && Within(n1 - n0 - n', es) && Inverts(ci, ei, c, es, inverse)
    ensures Tame(i0, i1, i', inverse, ci, ei)
  {
    hide Inverts;
    assert 0.0 < i0 <= inverse by { ReciprocalIsWithin(n0, i0, inverse); }
    assert 0.0 < i1 <= inverse by { ReciprocalIsWithin(n1, i1, inverse); }
    assert Within(i1 - i0, ci) by { ReciprocalChangeIsWithin(n0, n1, i0, i1, c, es, inverse, ci, ei); }
    assert Within(i1 - i0 - i', ei) by { ReciprocalErrorIsWithin(n0, n1, n', i0, i1, i', c, es, inverse, ci, ei); }
  }

  lemma ReciprocalChangeIsWithin(n0: real, n1: real, i0: real, i1: real, c: real, es: real,
                                 inverse: real, ci: real, ei: real)
    requires i0 * n0 == 1.0 && i1 * n1 == 1.0 && 0.0 < i0 <= inverse && 0.0 < i1 <= inverse
    requires Within(n1 - n0, c) && Inverts(ci, ei, c, es, inverse)
    ensures Within(i1 - i0, ci)
  {
    var d, w, v := n1 - n0, i0 * i1, inverse * inverse;
    ProductIsWithin(i0, i1, inverse, inverse, w, v);
    ProductIsWithin(d, w, c, v, d * w, ci);
    ReciprocalChange(n0, n1, i0, i1, d, w);
  }

  lemma ReciprocalErrorIsWithin(n0: real, n1: real, n': real, i0: real, i1: real, i': real, c: real, es: real,
                                inverse: real, ci: real, ei: real)
    requires i0 * n0 == 1.0 && i1 * n1 == 1.0 && 0.0 < i0 <= inverse && 0.0 < i1 <= inverse
    requires i' == -(n' * (i0 * i0))
    requires Within(n1 - n0, c) && Within(n1 - n0 - n', es) && Inverts(ci, ei, c, es, inverse)
    ensures Within(i1 - i0 - i', ei)
  {
    var d, u := n1 - n0, i0 * i0;
    var e, ui, dd := d - n', u * i1, d * d;
    var x, y := e * u, dd * ui;
    hide Inverts;
    ReciprocalError(n0, n1, i0, i1, d, n', u, i0 * i1, i', x, dd, ui, y);
    ErrorProducts(i0, i1, e, d, es, c, inverse, u, ui, x, dd, y, ci, ei);
  }

  lemma InvertsIs(ci: real, ei: real, c: real, es: real, inverse: real, first: real, second: real)
    requires Inverts(ci, ei, c, es, inverse)
    requires first == es * (inverse * inverse) && second == c * c * (inverse * inverse * inverse)
    ensures ei == first + second
  {
  }

  lemma ErrorProducts(i0: real, i1: real, e: real, d: real, es: real, c: real, inverse: real,
                      u: real, ui: real, x: real, dd: real, y: real, ci: real, ei: real)
    requires Within(i0, inverse) && Within(i1, inverse) && Within(e, es) && Within(d, c)
    requires u == i0 * i0 && ui == u * i1 && x == e * u && dd == d * d && y == dd * ui
    requires Inverts(ci, ei, c, es, inverse)
    ensures Within(-x + y, ei)
  {
    var v, cc := inverse * inverse, c * c;
    var vi := v * inverse;
    var first, second := es * v, cc * vi;
    InvertsIs(ci, ei, c, es, inverse, first, second);
    hide Inverts;
    ProductIsWithin(i0, i0, inverse, inverse, u, v);
    ProductIsWithin(u, i1, v, inverse, ui, vi);
    ProductIsWithin(e, u, es, v, x, first);
    ProductIsWithin(d, d, c, c, dd, cc);
    ProductIsWithin(dd, ui, cc, vi, y, second);
  }

  lemma ReciprocalIsWithin(n: real, i: real, inverse: real)
    requires n > 0.0 && i * n == 1.0 && inverse > 0.0 && 1.0 <= n * inverse
    ensures 0.0 < i <= inverse
  {
    if i <= 0.0 { Grow(i, 0.0, n); }
    Cancel(i, inverse, n, 1.0, inverse * n);
  }

  lemma ReciprocalChange(n0: real, n1: real, i0: real, i1: real, d: real, w: real)
    requires i0 * n0 == 1.0 && i1 * n1 == 1.0 && d == n1 - n0 && w == i0 * i1
    ensures i1 - i0 == -(d * w)
  {
    assert n1 * w == i0 && n0 * w == i1;
  }

  lemma ReciprocalError(n0: real, n1: real, i0: real, i1: real, d: real, n': real, u: real, w: real,
                        i': real, x: real, dd: real, ui: real, y: real)
    requires i0 * n0 == 1.0 && i1 * n1 == 1.0 && d == n1 - n0 && u == i0 * i0 && w == i0 * i1
    requires i' == -(n' * u) && x == (d - n') * u && dd == d * d && ui == u * i1 && y == dd * ui
    ensures i1 - i0 - i' == -x + y
  {
    ReciprocalChange(n0, n1, i0, i1, d, w);
    assert u - w == d * ui by { assert i0 - i1 == d * w; assert u - w == i0 * (i0 - i1); assert i0 * w == ui; }
    assert d * w == d * u - y;
  }
}
