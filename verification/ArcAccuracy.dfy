/** What the bounds on an arc come to in numbers: from the power series of sine and cosine, and
    from the tolerance that sets the number of segments. */
module ArcAccuracy {
  import opened NutsBolts
  import opened ArcAngle
  import opened ArcMotion

  function Fourth(u: real): real {
    Square(Square(u))
  }

  /** The first terms of the power series of cosine and sine, and the terms that bound the rest:
      x^4/24 and x^5/120, in squares. */
  ghost predicate IsSeries(cos: real -> real, sin: real -> real) {
    forall x {:trigger cos(x)} {:trigger sin(x)} ::
      var u := Square(x);
      && Square(cos(x) - (1.0 - u / 2.0)) <= Fourth(u) / 576.0
      && Square(sin(x) - Times(x, 1.0 - u / 6.0)) <= Times(u, Fourth(u)) / 14400.0
  }

  /** The squared miss of one approximate rotation by a squared angle `u`. */
  function Miss(u: real): real {
    Fourth(u) / 450.0 + 0.000000000000001 * u
  }

  lemma CosineMiss(theta: real, cos: real -> real, sin: real -> real)
    requires IsSeries(cos, sin)
    ensures Square(CosT(theta) - cos(theta)) <= Fourth(Square(theta)) / 576.0
  {
    CosTForm(theta);
    hide CosT, Square, Fourth;
    OtherSign(CosT(theta) - cos(theta), cos(theta) - (1.0 - Square(theta) / 2.0));
  }

  lemma CosTForm(theta: real)
    ensures CosT(theta) == 1.0 - Square(theta) / 2.0
  {
  }

  lemma OtherSign(x: real, y: real)
    requires x == -y
    ensures Square(x) == Square(y)
  {
  }

  lemma TwoErrors(x: real, y: real)
    ensures Square(x + y) <= 2.0 * Square(x) + 2.0 * Square(y)
  {
    SquareSign(x - y);
    assert Square(x - y) == x * x - 2.0 * (x * y) + y * y && Square(x + y) == x * x + 2.0 * (x * y) + y * y;
  }

  /** The part of the miss that the constant for a sixth is to blame for. */
  lemma SixthMiss(theta: real, u: real)
    requires u == Square(theta) && 0.0 <= u <= 3.0
    ensures Square(SinT(theta) - Times(theta, 1.0 - u / 6.0)) <= 0.0000000000000004 * u
  {
    var d := (6.0 - u) * (SIXTH - 1.0 / 6.0);
    assert SinT(theta) == theta * (SIXTH * (6.0 - u)) && Times(theta, 1.0 - u / 6.0) == theta * ((6.0 - u) / 6.0);
    assert SinT(theta) - Times(theta, 1.0 - u / 6.0) == theta * d;
    assert Square(theta * d) == u * (d * d);
    assert 0.0 <= d <= 0.00000002;
    NonnegativeProduct(d, 0.00000002 - d);
    NonnegativeProduct(u, 0.0000000000000004 - d * d);
  }

  lemma SineMiss(theta: real, cos: real -> real, sin: real -> real)
    requires IsSeries(cos, sin) && Square(theta) <= 3.0
    ensures var u := Square(theta);
            Square(SinT(theta) - sin(theta)) <= 0.0000000000000008 * u + Times(u, Fourth(u)) / 7200.0
  {
    hide SinT, Square, Times, Fourth;
    var u := Square(theta);
    var s := Times(theta, 1.0 - u / 6.0);
    SquareSign(theta);
    SixthMiss(theta, u);
    TwoErrors(SinT(theta) - s, s - sin(theta));
    OtherSign(s - sin(theta), sin(theta) - s);
    assert SinT(theta) - s + (s - sin(theta)) == SinT(theta) - sin(theta);
  }

  /** ONE ROTATION misses the exact one by hardly more than its squared angle, squared, over 21. */
  lemma OneTurnInNumbers(theta: real, trig: Trig)
    requires IsSeries(trig.cos, trig.sin) && Square(theta) <= 3.0
    ensures OneTurn(theta, trig) <= Miss(Square(theta))
  {
    hide IsSeries, Square, CosT, SinT, Fourth, Times, Miss;
    CosineMiss(theta, trig.cos, trig.sin);
    SineMiss(theta, trig.cos, trig.sin);
    SquareSign(theta);
    Collected(Square(theta));
  }

  lemma Collected(u: real)
    requires 0.0 <= u <= 3.0
    ensures Fourth(u) / 576.0 + (0.0000000000000008 * u + Times(u, Fourth(u)) / 7200.0) <= Miss(u)
  {
    SquareSign(Square(u));
    hide Square;
    var q := Fourth(u);
    NonnegativeProduct(3.0 - u, q);
    assert Times(u, q) <= 3.0 * q;
  }

  /** Every point of an arc in steps with theta^2 up to 3: the square of its distance from the start
      vector turned exactly. */
  lemma CourseInNumbers(line: seq<real>, k: nat, c: Circle, theta: real, linear0: real, perSegment: real, trig: Trig)
    requires Distinct(c.axis0, c.axis1, c.axisLinear) && IsSeries(trig.cos, trig.sin) && Square(theta) <= 3.0
    requires ArcPoint(line, k, c, theta, linear0, perSegment, trig)
    ensures var r0, r1 := line[c.axis0] - c.centre0, line[c.axis1] - c.centre1;
            Square(r0 - Exact0(c, Angle(k, theta), trig)) + Square(r1 - Exact1(c, Angle(k, theta), trig)) <=
            Times(BaseSqr(c), 145.0 * Miss(Square(theta)))
  {
    assert theta * theta == Square(theta);
    hide Square, ArcPoint, IsSeries, OneTurn, Exact0, Exact1, BaseSqr, Angle, Miss;
    PointBounds(line, k, c, theta, linear0, perSegment, trig);
    OneTurnInNumbers(theta, trig);
    OneTurnNonnegative(theta, trig);
    BaseNonnegative(c);
    Gathered(BaseSqr(c), OneTurn(theta, trig), Miss(Square(theta)));
  }

  lemma Gathered(base: real, turn: real, miss: real)
    requires base >= 0.0 && 0.0 <= turn <= miss
    ensures 144.0 * Times(Times(base, 1.000002), turn) <= Times(base, 145.0 * miss)
  {
    assert 144.0 * Times(Times(base, 1.000002), turn) == 144.000288 * (base * turn);
    NonnegativeProduct(base, miss - turn);
    NonnegativeProduct(base, miss);
    assert base * (145.0 * miss) == 145.0 * (base * miss) && base * (miss - turn) == base * miss - base * turn;
  }

  /** THE TOLERANCE SETS THE STEP: the squared angle of a segment is at most 32 tolerances over the radius. */
  lemma StepFromTolerance(n: nat, travel: real, theta: real, radius: real, h: real, tolerance: real)
    requires n > 0 && n as real * theta == travel && radius > 0.0 && tolerance > 0.0
    requires IsHalfChord(h, radius, tolerance) && Fitting(n, travel, radius, h)
    ensures Square(theta) * radius <= 32.0 * tolerance
  {
    var x, m := theta * radius, n as real;
    assert travel * radius == m * x;
    StepLength(m, x, h);
    SquareUpTo(x, 4.0 * h);
    SquaredStep(theta, radius, h, tolerance);
    hide Square, Times;
    Cancel(radius, Square(theta) * radius, 32.0 * tolerance);
  }

  lemma SquaredStep(theta: real, radius: real, h: real, tolerance: real)
    requires tolerance > 0.0 && Square(h) == tolerance * (2.0 * radius - tolerance)
    ensures Square(theta * radius) == Times(radius, Square(theta) * radius)
    ensures Square(4.0 * h) <= Times(radius, 32.0 * tolerance)
  {
    var r := tolerance * radius;
    assert Square(4.0 * h) == 16.0 * Square(h);
    assert tolerance * (2.0 * radius - tolerance) == 2.0 * r - tolerance * tolerance;
    NonnegativeProduct(tolerance, tolerance);
    assert Times(radius, 32.0 * tolerance) == 32.0 * r;
  }

  lemma StepLength(m: real, x: real, h: real)
    requires m >= 1.0 && h > 0.0 && Abs(m * x) < Times(m + 1.0, 2.0 * h)
    ensures -4.0 * h <= x <= 4.0 * h
  {
    assert Times(m + 1.0, 2.0 * h) == 2.0 * (m * h) + 2.0 * h;
    NonnegativeProduct(m - 1.0, h);
    assert (m - 1.0) * h == m * h - h;
    assert m * (x - 4.0 * h) == m * x - 4.0 * (m * h) && m * (-4.0 * h - x) == -4.0 * (m * h) - m * x;
    PositiveProduct(m, x - 4.0 * h);
    PositiveProduct(m, -4.0 * h - x);
  }

  lemma SquareUpTo(x: real, y: real)
    requires -y <= x <= y
    ensures Square(x) <= Square(y)
  {
    NonnegativeProduct(y - x, y + x);
    assert (y - x) * (y + x) == y * y - x * x;
  }

  lemma MissMonotonic(u: real, v: real)
    requires 0.0 <= u <= v
    ensures Miss(u) <= Miss(v)
  {
    SquareUpTo(u, v);
    SquareSign(u);
    SquareUpTo(Square(u), Square(v));
    hide Square;
  }

  /** THE ARC IN NUMBERS: with a tolerance of no more than an eleventh of the radius, the squared
      distance of every point between the ends from the start vector turned exactly, in terms of
      tolerance and radius alone. */
  lemma ArcAccurate(lines: seq<seq<real>>, n: nat, c: Circle, travel: real, linear0: real, target: seq<real>,
                    trig: Trig, radius: real, h: real, tolerance: real, k: nat)
    requires Distinct(c.axis0, c.axis1, c.axisLinear) && |target| == N_AXIS && k + 1 < n
    requires IsArc(lines, n, c, travel, linear0, target, trig) && IsSeries(trig.cos, trig.sin)
    requires radius > 0.0 && 0.0 < tolerance <= radius / 11.0
    requires IsHalfChord(h, radius, tolerance) && Fitting(n, travel, radius, h)
    ensures |lines[k]| == N_AXIS
    ensures var r0, r1 := lines[k][c.axis0] - c.centre0, lines[k][c.axis1] - c.centre1;
            var angle := Angle(k + 1, travel / n as real);
            Square(r0 - Exact0(c, angle, trig)) + Square(r1 - Exact1(c, angle, trig)) <=
            Times(BaseSqr(c), 145.0 * Miss(32.0 * tolerance / radius))
  {
    hide Square, ArcPoint, IsSeries, Exact0, Exact1, BaseSqr, Angle, Miss, Fitting, IsHalfChord, Times;
    ArcSizes(lines, n, c, travel, linear0, target, trig);
    var theta, perSegment := travel / n as real, (target[c.axisLinear] - linear0) / n as real;
    StepFromTolerance(n, travel, theta, radius, h, tolerance);
    StepBound(Square(theta), radius, tolerance);
    SquareSign(theta);
    assert ArcPoint(lines[k], k + 1, c, theta, linear0, perSegment, trig);
    CourseInNumbers(lines[k], k + 1, c, theta, linear0, perSegment, trig);
    MissMonotonic(Square(theta), 32.0 * tolerance / radius);
    BaseNonnegative(c);
    TimesGrows(BaseSqr(c), 145.0 * Miss(Square(theta)), 145.0 * Miss(32.0 * tolerance / radius));
  }

  lemma TimesGrows(x: real, y: real, z: real)
    requires x >= 0.0 && y <= z
    ensures Times(x, y) <= Times(x, z)
  {
    NonnegativeProduct(x, z - y);
    assert x * (z - y) == x * z - x * y;
  }

  lemma StepBound(u: real, radius: real, tolerance: real)
    requires radius > 0.0 && 0.0 < tolerance <= radius / 11.0 && u * radius <= 32.0 * tolerance
    ensures u <= 32.0 * tolerance / radius <= 3.0
  {
    var q := 32.0 * tolerance / radius;
    assert Times(radius, q) == 32.0 * tolerance;
    Cancel(radius, u, q);
    Cancel(radius, q, 3.0);
  }
}
