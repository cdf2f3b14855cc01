/** `mc_arc`: an arc as a row of short lines, its radius vector turned by an approximate rotation
    that is corrected from time to time. */
module ArcMotion {
  import opened NutsBolts
  import opened ArcAngle

  const N_ARC_CORRECTION := 12
  const SIXTH := 0.16666667

  function CosT(theta: real): real {
    0.5 * (2.0 - theta * theta)
  }

  function SinT(theta: real): real {
    theta * SIXTH * (2.0 - theta * theta + 4.0)
  }

  /** By how much one approximate rotation scales the squared radius. */
  function Scale(theta: real): real {
    Square(CosT(theta)) + Square(SinT(theta))
  }

  function Pow(x: real, m: nat): real {
    if m == 0 then 1.0 else Times(x, Pow(x, m - 1))
  }

  // ---------------------------------------------------------------------------
  // The drift of one rotation, and of several
  // ---------------------------------------------------------------------------

  function Weight(u: real): real {
    u * Square(6.0 - u)
  }

  function Cube(u: real): real {
    u * u * u
  }

  /** In terms of u, the squared angle. */
  lemma ScaleForm(theta: real, u: real)
    requires u == theta * theta
    ensures Scale(theta) == Square(1.0 - u / 2.0) + SIXTH * SIXTH * Weight(u)
  {
    assert CosT(theta) == 1.0 - u / 2.0;
    var k := SIXTH * (6.0 - u);
    assert SinT(theta) == theta * k;
    assert Square(theta * k) == (theta * theta) * (k * k);
    assert k * k == SIXTH * SIXTH * Square(6.0 - u);
  }

  /** With an exact sixth the scale would be 1 - u^2/12 + u^3/36. */
  lemma ExactForm(u: real)
    ensures Square(1.0 - u / 2.0) + Weight(u) / 36.0 == 1.0 - Square(u) / 12.0 + Cube(u) / 36.0
  {
    assert Square(6.0 - u) == 36.0 - 12.0 * u + u * u;
    assert Square(1.0 - u / 2.0) == 1.0 - u + u * u / 4.0;
  }

  lemma WeightBounds(u: real)
    requires 0.0 <= u <= 3.0
    ensures 0.0 <= Weight(u) <= 36.0
  {
    var a := 6.0 - u;
    SquareSign(a);
    NonnegativeProduct(u, Square(a));
    WeightRoot(u);
  }

  lemma WeightRoot(u: real)
    requires 0.0 <= u <= 3.0
    ensures Weight(u) <= 36.0
  {
    var v := u - 2.0;
    assert u * Square(6.0 - u) == 32.0 - 6.0 * (v * v) + v * v * v;
    SquareSign(v);
    NonnegativeProduct(v * v, 6.0 - v);
    assert v * v * (6.0 - v) == 6.0 * (v * v) - v * v * v;
  }

  /** The constant for a sixth makes a difference of at most fifty parts in a billion. */
  lemma NearlyASixth(w: real)
    requires 0.0 <= w <= 36.0
    ensures w / 36.0 <= SIXTH * SIXTH * w <= w / 36.0 + 0.00000005
  {
  }

  lemma Powers(u: real)
    requires 0.0 <= u <= 3.0
    ensures 0.0 <= Square(u) <= 9.0 && 0.0 <= Cube(u) <= 3.0 * Square(u)
  {
    NonnegativeProduct(u, u);
    NonnegativeProduct(u * u, u);
    NonnegativeProduct(u * u, 3.0 - u);
    NonnegativeProduct(u, 3.0 - u);
  }

  /** A rotation shortens the radius hardly, and lengthens it hardly at all. */
  lemma ScaleBounds(theta: real, u: real)
    requires u == theta * theta <= 3.0
    ensures 1.0 - Square(u) / 12.0 <= Scale(theta) <= 1.00000005
    ensures 0.0 <= Square(u) <= 9.0
  {
    hide Square, Scale, Weight, Cube;
    ScaleForm(theta, u);
    SquaredAngle(theta, u);
    ScaleBetween(u, Scale(theta));
  }

  lemma SquaredAngle(theta: real, u: real)
    requires u == theta * theta
    ensures u >= 0.0 && (theta != 0.0 ==> u > 0.0)
  {
    SquareSign(theta);
  }

  lemma ScaleBetween(u: real, s: real)
    requires 0.0 <= u <= 3.0 && s == Square(1.0 - u / 2.0) + SIXTH * SIXTH * Weight(u)
    ensures 1.0 - Square(u) / 12.0 <= s <= 1.00000005 && 0.0 <= Square(u) <= 9.0
  {
    hide Square, Weight, Cube;
    ExactForm(u);
    WeightBounds(u);
    Powers(u);
    NearlyASixth(Weight(u));
  }

  /** The constant for a sixth is a little too large, so that very small rotations lengthen the
      radius: one is shortening exactly if its squared angle is large enough for the curvature
      to make up for that (from about half a millionth up to about three). */
  predicate LargeEnough(u: real) {
    36.0 * SIXTH * SIXTH - 1.0 <= u * (12.0 * SIXTH * SIXTH - 0.25 - SIXTH * SIXTH * u)
  }

  lemma ShortensIff(theta: real, u: real)
    requires u == theta * theta && u > 0.0
    ensures Scale(theta) <= 1.0 <==> LargeEnough(u)
  {
    ScaleForm(theta, u);
    var k := SIXTH * SIXTH;
    var e := u * (12.0 * k - 0.25 - k * u) - (36.0 * k - 1.0);
    assert Square(6.0 - u) == 36.0 - 12.0 * u + u * u;
    assert Square(1.0 - u / 2.0) == 1.0 - u + u * u / 4.0;
    assert 1.0 - Scale(theta) == u * e;
    ProductSign(u, e);
  }

  lemma ProductSign(x: real, y: real)
    requires x > 0.0
    ensures x * y >= 0.0 <==> y >= 0.0
  {
  }

  /** For the angles of ordinary arcs the radius never grows. */
  lemma OrdinaryAngles(u: real)
    requires 0.0000005 <= u <= 2.9
    ensures LargeEnough(u)
  {
    var k := SIXTH * SIXTH;
    NonnegativeProduct(u - 0.0000005, 2.9 - u);
    assert (u - 0.0000005) * (2.9 - u) == 2.9000005 * u - u * u - 0.00000145;
    assert u * (12.0 * k - 0.25 - k * u) == (12.0 * k - 0.25) * u - k * (u * u);
  }

  /** ... and for the very smallest it does. */
  lemma TinyAngles(u: real)
    requires 0.0 < u <= 0.0000004
    ensures !LargeEnough(u)
  {
    var k := SIXTH * SIXTH;
    NonnegativeProduct(u, u);
    assert u * (12.0 * k - 0.25 - k * u) == (12.0 * k - 0.25) * u - k * (u * u);
  }

  lemma {:induction false} PowLower(x: real, b: real, m: nat)
    requires 0.0 <= b <= 1.0 && x >= 1.0 - b
    ensures Pow(x, m) >= 1.0 - Times(m as real, b)
    ensures Pow(x, m) >= 0.0
  {
    if m > 0 {
      PowLower(x, b, m - 1);
      PowLowerStep(Pow(x, m - 1), x, b, (m - 1) as real);
      hide Times;
    }
  }

  lemma PowLowerStep(p: real, x: real, b: real, k: real)
    requires p >= 1.0 - Times(k, b) && p >= 0.0 && k >= 0.0 && 0.0 <= b <= 1.0 && x >= 1.0 - b
    ensures Times(x, p) >= 1.0 - Times(k + 1.0, b) && Times(x, p) >= 0.0
  {
    var kb := Times(k, b);
    NonnegativeProduct(k, b);
    Bernoulli(b, kb);
    LessTimes(1.0 - b, x, p);
    LessTimes(1.0 - kb, p, 1.0 - b);
    assert Times(k + 1.0, b) == kb + b;
    assert Times(p, 1.0 - b) == Times(1.0 - b, p);
    hide Times;
  }

  lemma Bernoulli(b: real, kb: real)
    requires b >= 0.0 && kb >= 0.0
    ensures Times(1.0 - kb, 1.0 - b) >= 1.0 - (kb + b)
  {
    NonnegativeProduct(b, kb);
    assert Times(1.0 - kb, 1.0 - b) == 1.0 - kb - b + b * kb;
  }

  lemma LessTimes(x: real, y: real, p: real)
    requires x <= y && p >= 0.0
    ensures Times(x, p) <= Times(y, p)
    ensures x >= 0.0 ==> Times(x, p) >= 0.0
  {
    NonnegativeProduct(y - x, p);
    assert (y - x) * p == y * p - x * p;
    if x >= 0.0 {
      NonnegativeProduct(x, p);
    }
  }

  lemma {:induction false} PowUpper(x: real, e: real, m: nat)
    requires 0.0 <= x <= 1.0 + e && 0.0 <= e <= 0.01 && m <= 40
    ensures 0.0 <= Pow(x, m) <= 1.0 + 2.0 * Times(m as real, e)
  {
    if m > 0 {
      PowUpper(x, e, m - 1);
      PowUpperStep(Pow(x, m - 1), x, e, (m - 1) as real);
      hide Times;
    }
  }

  lemma PowUpperStep(p: real, x: real, e: real, k: real)
    requires 0.0 <= p <= 1.0 + 2.0 * Times(k, e) && 0.0 <= k <= 40.0 && 0.0 <= x <= 1.0 + e && 0.0 <= e <= 0.01
    ensures 0.0 <= Times(x, p) <= 1.0 + 2.0 * Times(k + 1.0, e)
  {
    var d := Times(k, e);
    LessTimes(k, 40.0, e);
    NonnegativeProduct(k, e);
    Compounded(e, d);
    LessTimes(x, 1.0 + e, p);
    LessTimes(p, 1.0 + 2.0 * d, 1.0 + e);
    assert Times(k + 1.0, e) == d + e;
    assert Times(1.0 + e, p) == Times(p, 1.0 + e);
    assert Times(40.0, e) == 40.0 * e;
    hide Times;
  }

  lemma Compounded(e: real, d: real)
    requires 0.0 <= e && 0.0 <= d <= 0.5
    ensures Times(1.0 + 2.0 * d, 1.0 + e) <= 1.0 + 2.0 * (d + e)
  {
    NonnegativeProduct(e, 0.5 - d);
    assert Times(1.0 + 2.0 * d, 1.0 + e) == 1.0 + 2.0 * d + e + 2.0 * (e * d);
  }

  lemma {:induction false} PowShortens(x: real, m: nat)
    requires 0.0 <= x <= 1.0
    ensures 0.0 <= Pow(x, m) <= 1.0
  {
    if m > 0 {
      PowShortens(x, m - 1);
      var p := Pow(x, m - 1);
      NonnegativeProduct(p, 1.0 - x);
      NonnegativeProduct(p, x);
      assert x * p == p - p * (1.0 - x);
    }
  }

  // ---------------------------------------------------------------------------
  // The points of an arc
  // ---------------------------------------------------------------------------

  lemma TurnedAgain(base: real, p: real, k: real)
    ensures Times(Times(base, p), k) == Times(base, Times(k, p))
  {
  }

  /** A point at the squared radius that `m` rotations make of an exact one. */
  predicate Drifted(radiusSqr: real, base: real, theta: real, m: nat) {
    radiusSqr == Times(base, Pow(Scale(theta), m))
  }

  ghost predicate OnArc(radiusSqr: real, base: real, theta: real) {
    exists m: nat :: m <= N_ARC_CORRECTION && Drifted(radiusSqr, base, theta, m)
  }

  /** THE DRIFT IS BOUNDED: for steps with theta^2 up to 3 every point lies within theta^4 of the
      circle, in squared radius; and beyond it by no more than two parts in a million, or not
      at all unless the step is tiny. */
  lemma DriftBound(radiusSqr: real, base: real, theta: real)
    requires OnArc(radiusSqr, base, theta) && base >= 0.0 && theta * theta <= 3.0
    ensures Times(base, 1.0 - Square(theta * theta)) <= radiusSqr <= Times(base, 1.000002)
    ensures theta == 0.0 || LargeEnough(theta * theta) ==> radiusSqr <= base
  {
    var m: nat :| m <= N_ARC_CORRECTION && Drifted(radiusSqr, base, theta, m);
    var u := theta * theta;
    PowBound(theta, u, m);
    hide Scale, LargeEnough;
    var p := Pow(Scale(theta), m);
    LessTimes(1.0 - Square(u), p, base);
    LessTimes(p, 1.000002, base);
    assert Times(p, base) == Times(base, p) && Times(1.000002, base) == Times(base, 1.000002);
    assert Times(1.0 - Square(u), base) == Times(base, 1.0 - Square(u));
    if p <= 1.0 {
      LessTimes(p, 1.0, base);
      assert Times(1.0, base) == base;
    }
    hide Times, Pow;
  }

  lemma PowBound(theta: real, u: real, m: nat)
    requires u == theta * theta <= 3.0 && m <= N_ARC_CORRECTION
    ensures 1.0 - Square(u) <= Pow(Scale(theta), m) <= 1.000002
    ensures theta == 0.0 || LargeEnough(u) ==> Pow(Scale(theta), m) <= 1.0
  {
    ScaleBounds(theta, u);
    ScaleNonnegative(theta);
    ScaleShortens(theta, u);
    hide Scale, LargeEnough, Pow, Square;
    PowNear(Scale(theta), u, m);
    if Scale(theta) <= 1.0 {
      PowShortens(Scale(theta), m);
    }
  }

  lemma ScaleShortens(theta: real, u: real)
    requires u == theta * theta
    ensures theta == 0.0 || LargeEnough(u) ==> Scale(theta) <= 1.0
  {
    hide Scale, LargeEnough;
    ScaleOfZero();
    SquaredAngle(theta, u);
    if theta != 0.0 {
      ShortensIff(theta, u);
    }
  }

  lemma PowNear(x: real, u: real, m: nat)
    requires 0.0 <= x <= 1.00000005 && 1.0 - Square(u) / 12.0 <= x && 0.0 <= Square(u) <= 9.0 && m <= N_ARC_CORRECTION
    ensures 1.0 - Square(u) <= Pow(x, m) <= 1.000002
  {
    hide Pow, Square;
    var b, e := Square(u) / 12.0, 0.00000005;
    PowLower(x, b, m);
    PowUpper(x, e, m);
    LessTimes(m as real, 12.0, b);
    LessTimes(m as real, 12.0, e);
    assert Times(12.0, b) == 12.0 * b && Times(12.0, e) == 12.0 * e;
    hide Times;
  }

  lemma ScaleOfZero()
    ensures Scale(0.0) == 1.0
  {
  }

  lemma ScaleNonnegative(theta: real)
    ensures Scale(theta) >= 0.0
  {
    SquareSign(CosT(theta));
    SquareSign(SinT(theta));
  }

  /** The plane of an arc, its centre and the vector from there to its start. */
  datatype Circle = Circle(axis0: nat, axis1: nat, axisLinear: nat, centre0: real, centre1: real, start0: real,
                           start1: real)

  predicate Distinct(a: nat, b: nat, c: nat) {
    a < N_AXIS && b < N_AXIS && c < N_AXIS && a != b && b != c && a != c
  }

  function BaseSqr(c: Circle): real {
    Square(c.start0) + Square(c.start1)
  }

  // ---------------------------------------------------------------------------
  // The course along the arc
  // ---------------------------------------------------------------------------

  function Angle(i: nat, theta: real): real {
    i as real * theta
  }

  lemma AngleNext(i: nat, theta: real)
    requires i > 0
    ensures Angle(i - 1, theta) + theta == Angle(i, theta)
  {
  }

  /** By how much one approximate rotation of a unit vector misses the exact one, squared. */
  function OneTurn(theta: real, trig: Trig): real {
    Square(CosT(theta) - trig.cos(theta)) + Square(SinT(theta) - trig.sin(theta))
  }

  /** How far the squared radius can have grown since the last correction. */
  function Growth(theta: real): real {
    Pow(Max(1.0, Scale(theta)), N_ARC_CORRECTION)
  }

  /** The square of what one approximate rotation can add to the error. */
  function StraySqr(base: real, theta: real, trig: Trig): real {
    Times(Times(base, Growth(theta)), OneTurn(theta, trig))
  }

  /** The start vector turned exactly. */
  function Exact0(c: Circle, angle: real, trig: Trig): real {
    TurnX(c.start0, c.start1, trig.cos(angle), trig.sin(angle))
  }

  function Exact1(c: Circle, angle: real, trig: Trig): real {
    TurnY(c.start0, c.start1, trig.cos(angle), trig.sin(angle))
  }

  /** A radius vector within the errors of `m` rotations of the start vector turned by `angle`. */
  predicate OnCourse(r0: real, r1: real, c: Circle, angle: real, theta: real, m: nat, trig: Trig) {
    Astray(r0 - Exact0(c, angle, trig), r1 - Exact1(c, angle, trig), m, StraySqr(BaseSqr(c), theta, trig))
  }

  lemma {:induction false} PowGrows(x: real, m: nat, n: nat)
    requires x >= 0.0 && m <= n
    ensures 0.0 <= Pow(x, m) <= Pow(Max(1.0, x), n) && 1.0 <= Pow(Max(1.0, x), n)
    decreases n
  {
    if n > 0 {
      var y := Max(1.0, x);
      PowGrows(x, if m < n then m else m - 1, n - 1);
      var p, q := if m < n then Pow(x, m) else Pow(x, m - 1), Pow(y, n - 1);
      LessTimes(1.0, y, q);
      assert Times(1.0, q) == q;
      LessTimes(x, y, p);
      LessTimes(p, q, y);
      assert Times(y, p) == Times(p, y) && Times(y, q) == Times(q, y);
      hide Times, Max;
    }
  }

  /** For steps with theta^2 up to 3 that is next to nothing. */
  lemma GrowthBound(theta: real)
    requires theta * theta <= 3.0
    ensures 1.0 <= Growth(theta) <= 1.000002
  {
    hide Scale, Pow, Square;
    ScaleBounds(theta, theta * theta);
    ScaleNonnegative(theta);
    PowGrows(Scale(theta), 0, N_ARC_CORRECTION);
    PowUpper(Max(1.0, Scale(theta)), 0.00000005, N_ARC_CORRECTION);
    assert Times(12.0, 0.00000005) == 12.0 * 0.00000005;
  }

  /** THE ARC KEEPS ITS COURSE: for steps with theta^2 up to 3 every point is within twelve errors of a
      single rotation, to two parts in a million, of the start vector turned exactly. */
  lemma CourseBound(r0: real, r1: real, c: Circle, angle: real, theta: real, m: nat, trig: Trig)
    requires OnCourse(r0, r1, c, angle, theta, m, trig) && m <= N_ARC_CORRECTION && theta * theta <= 3.0
    ensures Square(r0 - Exact0(c, angle, trig)) + Square(r1 - Exact1(c, angle, trig)) <=
            144.0 * Times(Times(BaseSqr(c), 1.000002), OneTurn(theta, trig))
  {
    hide Growth, OneTurn, BaseSqr, Exact0, Exact1, Square;
    GrowthBound(theta);
    BaseNonnegative(c);
    OneTurnNonnegative(theta, trig);
    var base, e := BaseSqr(c), OneTurn(theta, trig);
    LessTimes(Growth(theta), 1.000002, base);
    assert Times(base, Growth(theta)) == Times(Growth(theta), base) && Times(base, 1.000002) == Times(1.000002, base);
    LessTimes(Times(base, Growth(theta)), Times(base, 1.000002), e);
    var k := StraySqr(base, theta, trig);
    SquaredCount(m);
    LessTimes(Square(m as real), 144.0, k);
    assert Times(144.0, k) == 144.0 * k;
    hide Times;
  }

  lemma SquaredCount(m: nat)
    requires m <= N_ARC_CORRECTION
    ensures 0.0 <= Square(m as real) <= 144.0
  {
    assert (12 - m) * (12 + m) >= 0;
    assert Square(m as real) == (m * m) as real;
  }

  lemma BaseNonnegative(c: Circle)
    ensures BaseSqr(c) >= 0.0
  {
    SquareSign(c.start0);
    SquareSign(c.start1);
  }

  lemma OneTurnNonnegative(theta: real, trig: Trig)
    ensures OneTurn(theta, trig) >= 0.0
  {
    SquareSign(CosT(theta) - trig.cos(theta));
    SquareSign(SinT(theta) - trig.sin(theta));
    hide Square;
  }

  /** One approximate rotation more. */
  lemma CourseOn(r0: real, r1: real, c: Circle, angle: real, theta: real, m: nat, trig: Trig)
    requires IsRotation(trig.cos, trig.sin) && m < N_ARC_CORRECTION
    requires Drifted(Square(r0) + Square(r1), BaseSqr(c), theta, m) && OnCourse(r0, r1, c, angle, theta, m, trig)
    ensures OnCourse(TurnX(r0, r1, CosT(theta), SinT(theta)), TurnY(r0, r1, CosT(theta), SinT(theta)), c,
                     angle + theta, theta, m + 1, trig)
  {
    hide Square, Times, Pow, CosT, SinT, IsRotation, Astray, BaseSqr, Exact0, Exact1, Growth, Drifted, TurnX, TurnY;
    var k := StraySqr(BaseSqr(c), theta, trig);
    StrayStep(Square(r0) + Square(r1), c, theta, m, trig);
    UnitAt(trig.cos, trig.sin, theta);
    StraysOn(r0, r1, Exact0(c, angle, trig), Exact1(c, angle, trig), CosT(theta), SinT(theta),
             trig.cos(theta), trig.sin(theta), m, k);
    ExactNext(c, angle, theta, trig);
  }

  lemma ExactNext(c: Circle, angle: real, theta: real, trig: Trig)
    requires IsRotation(trig.cos, trig.sin)
    ensures Exact0(c, angle + theta, trig) ==
            TurnX(Exact0(c, angle, trig), Exact1(c, angle, trig), trig.cos(theta), trig.sin(theta))
    ensures Exact1(c, angle + theta, trig) ==
            TurnY(Exact0(c, angle, trig), Exact1(c, angle, trig), trig.cos(theta), trig.sin(theta))
  {
    hide IsRotation, TurnX, TurnY;
    RotatedAgain(c.start0, c.start1, angle, theta, trig.cos, trig.sin);
  }

  lemma StrayStep(radiusSqr: real, c: Circle, theta: real, m: nat, trig: Trig)
    requires Drifted(radiusSqr, BaseSqr(c), theta, m) && m <= N_ARC_CORRECTION
    ensures Times(radiusSqr, OneTurn(theta, trig)) <= StraySqr(BaseSqr(c), theta, trig)
  {
    hide Scale, Pow, OneTurn, BaseSqr;
    var base := BaseSqr(c);
    BaseNonnegative(c);
    OneTurnNonnegative(theta, trig);
    ScaleNonnegative(theta);
    PowGrows(Scale(theta), m, N_ARC_CORRECTION);
    LessTimes(Pow(Scale(theta), m), Growth(theta), base);
    assert Times(base, Growth(theta)) == Times(Growth(theta), base);
    assert Times(base, Pow(Scale(theta), m)) == Times(Pow(Scale(theta), m), base);
    LessTimes(radiusSqr, Times(base, Growth(theta)), OneTurn(theta, trig));
    hide Times;
  }

  /** An exact rotation is on course. */
  lemma ExactCourse(c: Circle, angle: real, theta: real, trig: Trig)
    ensures OnCourse(Exact0(c, angle, trig), Exact1(c, angle, trig), c, angle, theta, 0, trig)
  {
    hide StraySqr, Exact0, Exact1;
    assert Times(Square(0.0), StraySqr(BaseSqr(c), theta, trig)) == 0.0;
  }

  lemma StartOnCourse(c: Circle, theta: real, trig: Trig)
    requires IsRotation(trig.cos, trig.sin)
    ensures OnCourse(c.start0, c.start1, c, Angle(0, theta), theta, 0, trig)
  {
    assert Angle(0, theta) == 0.0;
    assert Exact0(c, 0.0, trig) == c.start0 && Exact1(c, 0.0, trig) == c.start1;
    hide IsRotation;
    ExactCourse(c, 0.0, theta, trig);
  }

  // ---------------------------------------------------------------------------
  // The lines of an arc
  // ---------------------------------------------------------------------------

  /** A radius vector `m` approximate rotations after an exact one: drifted, and astray, by so many. */
  predicate Reached(r0: real, r1: real, c: Circle, i: nat, theta: real, m: nat, trig: Trig) {
    && m <= N_ARC_CORRECTION && Drifted(Square(r0) + Square(r1), BaseSqr(c), theta, m)
    && OnCourse(r0, r1, c, Angle(i, theta), theta, m, trig)
  }

  predicate ReachedBy(line: seq<real>, c: Circle, i: nat, theta: real, m: nat, trig: Trig)
    requires Distinct(c.axis0, c.axis1, c.axisLinear) && |line| == N_AXIS
  {
    Reached(line[c.axis0] - c.centre0, line[c.axis1] - c.centre1, c, i, theta, m, trig)
  }

  /** The `k`th point of the arc: near its circle in the plane, `k` steps along it, and `k` equal steps
      along the third axis. */
  ghost predicate ArcPoint(line: seq<real>, k: nat, c: Circle, theta: real, linear0: real, perSegment: real, trig: Trig)
    requires Distinct(c.axis0, c.axis1, c.axisLinear)
  {
    && |line| == N_AXIS
    && (exists m: nat :: ReachedBy(line, c, k, theta, m, trig))
    && line[c.axisLinear] == linear0 + Times(k as real, perSegment)
  }

  /** What that means, for steps with theta^2 up to 3. */
  lemma PointBounds(line: seq<real>, k: nat, c: Circle, theta: real, linear0: real, perSegment: real, trig: Trig)
    requires Distinct(c.axis0, c.axis1, c.axisLinear) && theta * theta <= 3.0
    requires ArcPoint(line, k, c, theta, linear0, perSegment, trig)
    ensures var r0, r1 := line[c.axis0] - c.centre0, line[c.axis1] - c.centre1;
            && Times(BaseSqr(c), 1.0 - Square(theta * theta)) <= Square(r0) + Square(r1) <= Times(BaseSqr(c), 1.000002)
            && Square(r0 - Exact0(c, Angle(k, theta), trig)) + Square(r1 - Exact1(c, Angle(k, theta), trig)) <=
               144.0 * Times(Times(BaseSqr(c), 1.000002), OneTurn(theta, trig))
  {
    hide Drifted, OnCourse, Square, Times, Exact0, Exact1, OneTurn, BaseSqr;
    var r0, r1 := line[c.axis0] - c.centre0, line[c.axis1] - c.centre1;
    var m: nat :| ReachedBy(line, c, k, theta, m, trig);
    BaseNonnegative(c);
    DriftBound(Square(r0) + Square(r1), BaseSqr(c), theta);
    CourseBound(r0, r1, c, Angle(k, theta), theta, m, trig);
  }

  /** The next radius vector: turned approximately, or after twelve such turns exactly. */
  method NextRadius(c: Circle, r0: real, r1: real, count: nat, i: nat, theta: real, trig: Trig)
    returns (q0: real, q1: real, count': nat)
    requires IsRotation(trig.cos, trig.sin) && i > 0 && Reached(r0, r1, c, i - 1, theta, count, trig)
    ensures Reached(q0, q1, c, i, theta, count', trig)
    ensures count == N_ARC_CORRECTION ==>
              count' == 0 && q0 == Exact0(c, Angle(i, theta), trig) && q1 == Exact1(c, Angle(i, theta), trig)
  {
    hide Square, CosT, SinT, Times, Pow, Drifted, OnCourse, IsRotation, Angle, TurnX, TurnY;
    if count < N_ARC_CORRECTION {
      q0, q1 := Turn(r0, r1, CosT(theta), SinT(theta));
      DriftsOn(Square(r0) + Square(r1), BaseSqr(c), theta, count);
      CourseOn(r0, r1, c, Angle(i - 1, theta), theta, count, trig);
      AngleNext(i, theta);
      count' := count + 1;
    } else {
      q0, q1 := Turn(c.start0, c.start1, trig.cos(Angle(i, theta)), trig.sin(Angle(i, theta)));
      TurnedExactly(BaseSqr(c), theta, Angle(i, theta), trig.cos, trig.sin);
      ExactCourse(c, Angle(i, theta), theta, trig);
      count' := 0;
    }
  }

  /** A vector turned by the matrix of `cosT` and `sinT`. */
  method Turn(r0: real, r1: real, cosT: real, sinT: real) returns (q0: real, q1: real)
    ensures q0 == TurnX(r0, r1, cosT, sinT) && q1 == TurnY(r0, r1, cosT, sinT)
    ensures Square(q0) + Square(q1) == Times(Square(r0) + Square(r1), Square(cosT) + Square(sinT))
  {
    Turned(r0, r1, cosT, sinT);
    q1 := r0 * sinT + r1 * cosT;
    q0 := r0 * cosT - r1 * sinT;
  }

  lemma DriftsOn(radiusSqr: real, base: real, theta: real, count: nat)
    requires Drifted(radiusSqr, base, theta, count)
    ensures Drifted(Times(radiusSqr, Square(CosT(theta)) + Square(SinT(theta))), base, theta, count + 1)
  {
    hide Square, CosT, SinT, Times, Pow;
    PowNext(Scale(theta), count);
    TurnedAgain(base, Pow(Scale(theta), count), Scale(theta));
  }

  lemma PowNext(x: real, m: nat)
    ensures Pow(x, m + 1) == Times(x, Pow(x, m))
  {
  }

  lemma TurnedExactly(base: real, theta: real, x: real, cos: real -> real, sin: real -> real)
    requires IsRotation(cos, sin)
    ensures Drifted(Times(base, Square(cos(x)) + Square(sin(x))), base, theta, 0)
  {
    UnitAt(cos, sin, x);
    hide Square;
    assert Times(base, 1.0) == base;
  }

  /** The points between the ends of an arc. */
  method ArcLines(c: Circle, position: array<real>, theta: real, linearPerSegment: real, segments: nat, trig: Trig)
    returns (lines: seq<seq<real>>)
    requires Distinct(c.axis0, c.axis1, c.axisLinear) && position.Length == N_AXIS && IsRotation(trig.cos, trig.sin)
             && segments > 0
    modifies position
    ensures |lines| == segments - 1
    ensures forall k :: 0 <= k < segments - 1 ==>
              ArcPoint(lines[k], k + 1, c, theta, old(position[c.axisLinear]), linearPerSegment, trig)
  {
    hide Times, Reached, ArcPoint, IsRotation;
    var r0, r1, count: nat := c.start0, c.start1, 0;
    lines := [];
    ghost var linear0 := position[c.axisLinear];
    StartReached(c, theta, linear0, linearPerSegment, trig);
    var i := 1;
    while i < segments
      invariant 1 <= i <= segments && |lines| == i - 1
      invariant Reached(r0, r1, c, i - 1, theta, count, trig)
      invariant position[c.axisLinear] == linear0 + Times((i - 1) as real, linearPerSegment)
      invariant forall k :: 0 <= k < i - 1 ==> ArcPoint(lines[k], k + 1, c, theta, linear0, linearPerSegment, trig)
    {
      r0, r1, count := NextRadius(c, r0, r1, count, i, theta, trig);
      position[c.axis0] := c.centre0 + r0;
      position[c.axis1] := c.centre1 + r1;
      position[c.axisLinear] := position[c.axisLinear] + linearPerSegment;
      PointReached(position[..], i, c, theta, linear0, linearPerSegment, r0, r1, count, trig);
      lines := lines + [position[..]];
      i := i + 1;
    }
  }

  lemma StartReached(c: Circle, theta: real, linear0: real, perSegment: real, trig: Trig)
    requires IsRotation(trig.cos, trig.sin)
    ensures Reached(c.start0, c.start1, c, 0, theta, 0, trig)
    ensures linear0 == linear0 + Times(0.0, perSegment)
  {
    hide Square, OnCourse, IsRotation;
    StartOnCourse(c, theta, trig);
  }

  lemma PointReached(line: seq<real>, i: nat, c: Circle, theta: real, linear0: real, perSegment: real, r0: real,
                     r1: real, count: nat, trig: Trig)
    requires Distinct(c.axis0, c.axis1, c.axisLinear) && |line| == N_AXIS && i > 0
    requires line[c.axis0] == c.centre0 + r0 && line[c.axis1] == c.centre1 + r1
    requires line[c.axisLinear] == linear0 + Times((i - 1) as real, perSegment) + perSegment
    requires Reached(r0, r1, c, i, theta, count, trig)
    ensures ArcPoint(line, i, c, theta, linear0, perSegment, trig)
    ensures line[c.axisLinear] == linear0 + Times(i as real, perSegment)
  {
    assert Times(i as real, perSegment) == Times((i - 1) as real, perSegment) + perSegment;
    hide Times, Reached;
    assert ReachedBy(line, c, i, theta, count, trig);
  }

  // ---------------------------------------------------------------------------
  // mc_arc
  // ---------------------------------------------------------------------------

  /** How many segments an arc is cut into; the two other outcomes are those in which the source
      converts what is no number, or a number too great, to a 16-bit integer. */
  datatype SegmentCount = NotANumber | TooMany | Segments(n: nat)

  /** Half the chord of a circle whose arc rises by the tolerance above it. */
  ghost predicate IsHalfChord(h: real, radius: real, tolerance: real) {
    h > 0.0 && Square(h) == tolerance * (2.0 * radius - tolerance)
  }

  /** As many segments as chords of the tolerance, laid end to end, do not exceed the arc. */
  ghost predicate Fitting(n: nat, travel: real, radius: real, h: real) {
    Times(n as real, 2.0 * h) <= Abs(travel * radius) < Times((n + 1) as real, 2.0 * h)
  }

  method CountSegments(travel: real, radius: real, tolerance: real, root: real -> real) returns (count: SegmentCount)
    requires IsRoot(root)
    ensures count == NotANumber <==> tolerance * (2.0 * radius - tolerance) <= 0.0
    ensures count != NotANumber ==>
              exists n: nat, h :: && IsHalfChord(h, radius, tolerance) && Fitting(n, travel, radius, h)
                                  && count == if n < 65536 then Segments(n) else TooMany
  {
    hide IsRoot;
    var hSqr := tolerance * (2.0 * radius - tolerance);
    if hSqr <= 0.0 {
      return NotANumber;
    }
    var h := TakeRoot(hSqr, root);
    var x := Abs(0.5 * travel * radius) / h;
    HalfArc(travel, radius, h, x);
    var n: nat := x.Floor;
    assert IsHalfChord(h, radius, tolerance) && Fitting(n, travel, radius, h);
    count := if n < 65536 then Segments(n) else TooMany;
  }

  lemma HalfArc(travel: real, radius: real, h: real, x: real)
    requires h > 0.0 && x == Abs(0.5 * travel * radius) / h
    ensures x >= 0.0 && Fitting(x.Floor, travel, radius, h)
  {
    var a := Abs(0.5 * travel * radius);
    Divided(a, h);
    assert Abs(travel * radius) == 2.0 * a;
    Quotients(a, h, x, x.Floor as real);
    hide Times;
  }

  lemma Divided(a: real, h: real)
    requires a >= 0.0 && h > 0.0
    ensures a / h >= 0.0 && Times(a / h, h) == a
  {
  }

  lemma Quotients(a: real, h: real, x: real, n: real)
    requires h > 0.0 && Times(x, h) == a && n <= x < n + 1.0
    ensures Times(n, 2.0 * h) <= 2.0 * a < Times(n + 1.0, 2.0 * h)
  {
    hide Times;
    Scaled(n, x, 2.0 * h);
    Scaled(x, n + 1.0, 2.0 * h);
    Doubled(x, h);
  }

  lemma Doubled(x: real, h: real)
    ensures Times(x, 2.0 * h) == 2.0 * Times(x, h)
  {
  }

  lemma Scaled(x: real, y: real, k: real)
    requires k > 0.0
    ensures x <= y ==> Times(x, k) <= Times(y, k)
    ensures x < y ==> Times(x, k) < Times(y, k)
  {
    PositiveProduct(y - x, k);
    assert (y - x) * k == Times(y, k) - Times(x, k);
  }

  /** The circle of an arc in offset format. */
  function CircleOf(position: seq<real>, offset: seq<real>, axis0: nat, axis1: nat, axisLinear: nat): Circle
    requires axis0 < |position| == |offset| && axis1 < |position|
  {
    Circle(axis0, axis1, axisLinear, position[axis0] + offset[axis0], position[axis1] + offset[axis1], -offset[axis0],
           -offset[axis1])
  }

  /** The angle to travel turns the start vector of the circle towards the target, in the direction of the
      arc; exactly onto it, if the target is at the radius of the start. */
  ghost predicate Sweeps(travel: real, c: Circle, target0: real, target1: real, clockwise: bool, trig: Trig) {
    var rt0, rt1 := target0 - c.centre0, target1 - c.centre1;
    && (if clockwise then -2.0 * trig.pi - ARC_ANGULAR_TRAVEL_EPSILON <= travel < -ARC_ANGULAR_TRAVEL_EPSILON
        else ARC_ANGULAR_TRAVEL_EPSILON < travel <= 2.0 * trig.pi + ARC_ANGULAR_TRAVEL_EPSILON)
    && (BaseSqr(c) == Square(rt0) + Square(rt1) > 0.0 ==>
        Exact0(c, travel, trig) == rt0 && Exact1(c, travel, trig) == rt1)
    && (forall h {:trigger Square(h)} :: h >= 0.0 && Square(h) == Times(BaseSqr(c), Square(rt0) + Square(rt1)) ==>
          h * Exact0(c, travel, trig) == BaseSqr(c) * rt0 && h * Exact1(c, travel, trig) == BaseSqr(c) * rt1)
  }

  lemma TravelSweeps(travel: real, c: Circle, target0: real, target1: real, clockwise: bool, trig: Trig)
    requires var rt0, rt1 := target0 - c.centre0, target1 - c.centre1;
             Heads(travel, Dot(c.start0, c.start1, rt0, rt1), Cross(c.start0, c.start1, rt0, rt1), trig.cos, trig.sin)
    requires if clockwise then -2.0 * trig.pi - ARC_ANGULAR_TRAVEL_EPSILON <= travel < -ARC_ANGULAR_TRAVEL_EPSILON
             else ARC_ANGULAR_TRAVEL_EPSILON < travel <= 2.0 * trig.pi + ARC_ANGULAR_TRAVEL_EPSILON
    ensures Sweeps(travel, c, target0, target1, clockwise, trig)
  {
    hide Heads, Square, Times, Dot, Cross;
    var rt0, rt1 := target0 - c.centre0, target1 - c.centre1;
    forall h | h >= 0.0 && Square(h) == Times(BaseSqr(c), Square(rt0) + Square(rt1))
      ensures h * Exact0(c, travel, trig) == BaseSqr(c) * rt0 && h * Exact1(c, travel, trig) == BaseSqr(c) * rt1
    {
      TurnsToTarget(c.start0, c.start1, rt0, rt1, travel, h, trig.cos, trig.sin);
    }
    if BaseSqr(c) == Square(rt0) + Square(rt1) > 0.0 {
      SquareOfBoth(BaseSqr(c));
      TurnsToTarget(c.start0, c.start1, rt0, rt1, travel, BaseSqr(c), trig.cos, trig.sin);
    }
  }

  lemma SquareOfBoth(x: real)
    ensures Square(x) == Times(x, x)
  {
  }

  /** The lines of an arc of `n` segments: every one but the last ends near the circle, at its share of the
      angle and of the third axis, and the last one at the target. */
  ghost predicate IsArc(lines: seq<seq<real>>, n: nat, c: Circle, travel: real, linear0: real, target: seq<real>,
                        trig: Trig)
    requires Distinct(c.axis0, c.axis1, c.axisLinear) && |target| == N_AXIS
  {
    && |lines| == (if n == 0 then 1 else n) && lines[|lines| - 1] == target
    && (n > 0 ==>
          var theta, perSegment := travel / n as real, (target[c.axisLinear] - linear0) / n as real;
          && (forall k :: 0 <= k < n - 1 ==> ArcPoint(lines[k], k + 1, c, theta, linear0, perSegment, trig))
          && n as real * theta == travel && target[c.axisLinear] == linear0 + Times(n as real, perSegment))
  }

  lemma ArcSizes(lines: seq<seq<real>>, n: nat, c: Circle, travel: real, linear0: real, target: seq<real>, trig: Trig)
    requires Distinct(c.axis0, c.axis1, c.axisLinear) && |target| == N_AXIS
    requires IsArc(lines, n, c, travel, linear0, target, trig)
    ensures forall k :: 0 <= k < |lines| ==> |lines[k]| == N_AXIS
  {
    hide ReachedBy, Times;
    forall k | 0 <= k < |lines| ensures |lines[k]| == N_AXIS {
      if k < n - 1 {
        assert ArcPoint(lines[k], k + 1, c, travel / n as real, linear0, (target[c.axisLinear] - linear0) / n as real,
                        trig);
      }
    }
  }

  /** `mc_arc`: the lines handed to `mc_line`. */
  method Arc(target: seq<real>, position: array<real>, offset: seq<real>, radius: real, axis0: nat, axis1: nat,
             axisLinear: nat, clockwise: bool, tolerance: real, root: real -> real, trig: Trig)
    returns (count: SegmentCount, lines: seq<seq<real>>, angularTravel: real)
    requires Distinct(axis0, axis1, axisLinear) && |target| == position.Length == |offset| == N_AXIS && IsTrig(trig)
             && IsRoot(root)
    modifies position
    ensures var c := CircleOf(old(position[..]), offset, axis0, axis1, axisLinear);
            && Sweeps(angularTravel, c, target[axis0], target[axis1], clockwise, trig)
            && (if !count.Segments? then lines == []
                else IsArc(lines, count.n, c, angularTravel, old(position[axisLinear]), target, trig))
    ensures forall i :: 0 <= i < |lines| ==> |lines[i]| == N_AXIS
    ensures count == NotANumber <==> tolerance * (2.0 * radius - tolerance) <= 0.0
    ensures count.Segments? ==>
              exists h :: IsHalfChord(h, radius, tolerance) && Fitting(count.n, angularTravel, radius, h)
  {
    hide Sweeps, Times, ArcPoint, Dot, Cross, IsRotation, IsAngle, Heads, IsRoot, IsHalfChord, Fitting;
    ghost var linear0 := position[axisLinear];
    var c := CircleOf(position[..], offset, axis0, axis1, axisLinear);
    angularTravel := AngularTravel(c.start0, c.start1, target[axis0] - c.centre0, target[axis1] - c.centre1,
                                   clockwise, trig);
    TravelSweeps(angularTravel, c, target[axis0], target[axis1], clockwise, trig);
    count := CountSegments(angularTravel, radius, tolerance, root);
    lines := [];
    if count.Segments? && count.n > 0 {
      var thetaPerSegment := angularTravel / count.n as real;
      var linearPerSegment := (target[axisLinear] - position[axisLinear]) / count.n as real;
      LastStep(target[axisLinear] - position[axisLinear], count.n);
      LastAngle(angularTravel, count.n);
      lines := ArcLines(c, position, thetaPerSegment, linearPerSegment, count.n, trig);
    }
    if count.Segments? {
      lines := lines + [target];
      ArcSizes(lines, count.n, c, angularTravel, linear0, target, trig);
    }
  }

  lemma LastStep(x: real, n: nat)
    requires n > 0
    ensures Times(n as real, x / n as real) == x
  {
  }

  lemma LastAngle(x: real, n: nat)
    requires n > 0
    ensures n as real * (x / n as real) == x
  {
  }
}
