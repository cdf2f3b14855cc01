/** The angles of an arc: how far `mc_arc` has to turn, and how far an approximate rotation that
    is repeated goes astray. */
module ArcAngle {
  import opened NutsBolts

  const ARC_ANGULAR_TRAVEL_EPSILON := 0.0000005

  // ---------------------------------------------------------------------------
  // What is used of sine and cosine
  // ---------------------------------------------------------------------------

  function Sum(x: real, y: real): real {
    x + y
  }

  /** Cosine and sine: a point of the unit circle for every angle, and the sum of two angles. */
  ghost predicate IsRotation(cos: real -> real, sin: real -> real) {
    && cos(0.0) == 1.0 && sin(0.0) == 0.0
    && (forall x {:trigger cos(x)} {:trigger sin(x)} :: Square(cos(x)) + Square(sin(x)) == 1.0)
    && (forall x, y {:trigger Sum(x, y)} ::
          && cos(Sum(x, y)) == cos(x) * cos(y) - sin(x) * sin(y)
          && sin(Sum(x, y)) == sin(x) * cos(y) + cos(x) * sin(y))
  }

  lemma AngleSum(cos: real -> real, sin: real -> real, x: real, y: real)
    requires IsRotation(cos, sin)
    ensures cos(x + y) == cos(x) * cos(y) - sin(x) * sin(y)
    ensures sin(x + y) == sin(x) * cos(y) + cos(x) * sin(y)
  {
    assert Sum(x, y) == x + y;
  }

  lemma UnitAt(cos: real -> real, sin: real -> real, x: real)
    requires IsRotation(cos, sin)
    ensures Square(cos(x)) + Square(sin(x)) == 1.0
  {
  }

  /** A vector turned by the matrix of `c` and `s`. */
  function TurnX(r0: real, r1: real, c: real, s: real): real {
    r0 * c - r1 * s
  }

  function TurnY(r0: real, r1: real, c: real, s: real): real {
    r0 * s + r1 * c
  }

  lemma Turned(r0: real, r1: real, c: real, s: real)
    ensures Square(TurnX(r0, r1, c, s)) + Square(TurnY(r0, r1, c, s)) ==
            Times(Square(r0) + Square(r1), Square(c) + Square(s))
  {
    assert Square(r0 * c - r1 * s) == (r0 * r0) * (c * c) - 2.0 * (r0 * r1 * (c * s)) + (r1 * r1) * (s * s);
    assert Square(r0 * s + r1 * c) == (r0 * r0) * (s * s) + 2.0 * (r0 * r1 * (c * s)) + (r1 * r1) * (c * c);
  }

  // ---------------------------------------------------------------------------
  // The error of repeated rotations
  // ---------------------------------------------------------------------------

  /** No further off than `m` times what one rotation may be off, of which `k` is the square. */
  predicate Astray(d0: real, d1: real, m: nat, k: real) {
    Square(d0) + Square(d1) <= Times(Square(m as real), k)
  }

  lemma MeanBound(x: real, y: real, m: real)
    requires m > 0.0
    ensures Times(m, Square(x + y)) <= Times(m + 1.0, Square(x) + Times(m, Square(y)))
  {
    SquareSign(x - m * y);
    assert Square(x - m * y) == x * x - 2.0 * (m * (x * y)) + (m * m) * (y * y);
    assert Square(x + y) == x * x + 2.0 * (x * y) + y * y;
  }

  lemma Cancel(m: real, a: real, b: real)
    requires m > 0.0 && Times(m, a) <= Times(m, b)
    ensures a <= b
  {
    PositiveProduct(m, a - b);
    assert m * (a - b) == m * a - m * b;
  }

  lemma Shrunk(m: real, x: real, y: real, k: real)
    requires m > 0.0 && x <= Times(Square(m), k) && y <= k
    ensures Times(m + 1.0, x + Times(m, y)) <= Times(m, Times(Square(m + 1.0), k))
  {
    assert Times(m, Times(Square(m + 1.0), k)) == Times(m + 1.0, Times(Square(m), k) + Times(m, k));
    hide Square;
    NonnegativeProduct(m, k - y);
    assert m * (k - y) == Times(m, k) - Times(m, y);
    var d := Times(Square(m), k) + Times(m, k) - (x + Times(m, y));
    NonnegativeProduct(m + 1.0, d);
    TimesDifference(m + 1.0, Times(Square(m), k) + Times(m, k), x + Times(m, y));
  }

  lemma TimesDifference(x: real, y: real, z: real)
    ensures Times(x, y) - Times(x, z) == x * (y - z)
  {
  }

  lemma AddError(x0: real, x1: real, y0: real, y1: real, m: nat, k: real)
    requires Astray(x0, x1, m, k) && Square(y0) + Square(y1) <= k
    ensures Astray(x0 + y0, x1 + y1, m + 1, k)
  {
    if m == 0 {
      NoError(x0, x1, k);
    } else {
      AddToError(x0, x1, y0, y1, m as real, k);
    }
  }

  lemma AddToError(x0: real, x1: real, y0: real, y1: real, r: real, k: real)
    requires r > 0.0 && Square(x0) + Square(x1) <= Times(Square(r), k) && Square(y0) + Square(y1) <= k
    ensures Square(x0 + y0) + Square(x1 + y1) <= Times(Square(r + 1.0), k)
  {
    hide Square, Times;
    MeanBound(x0, y0, r);
    MeanBound(x1, y1, r);
    var p0, p1, q0, q1 := Square(x0), Square(x1), Square(y0), Square(y1);
    Shrunk(r, p0 + p1, q0 + q1, k);
    BothCoordinates(r, Square(x0 + y0), Square(x1 + y1), p0, p1, q0, q1, Times(Square(r + 1.0), k));
  }

  lemma BothCoordinates(r: real, s0: real, s1: real, p0: real, p1: real, q0: real, q1: real, t: real)
    requires r > 0.0 && Times(r, s0) <= Times(r + 1.0, p0 + Times(r, q0))
             && Times(r, s1) <= Times(r + 1.0, p1 + Times(r, q1))
    requires Times(r + 1.0, p0 + p1 + Times(r, q0 + q1)) <= Times(r, t)
    ensures s0 + s1 <= t
  {
    TimesSum(r, s0, s1);
    TimesSum(r, q0, q1);
    TimesSum(r + 1.0, p0 + Times(r, q0), p1 + Times(r, q1));
    hide Times;
    assert p0 + p1 + Times(r, q0 + q1) == (p0 + Times(r, q0)) + (p1 + Times(r, q1));
    Cancel(r, s0 + s1, t);
  }

  lemma TimesSum(x: real, y: real, z: real)
    ensures Times(x, y + z) == Times(x, y) + Times(x, z)
  {
  }

  lemma NoError(x0: real, x1: real, k: real)
    requires Astray(x0, x1, 0, k)
    ensures x0 == 0.0 && x1 == 0.0 && Times(Square(1.0), k) == k
  {
    assert Times(Square(0.0), k) == 0.0;
    SquareSign(x0);
    SquareSign(x1);
  }

  /** One more rotation, by `c` and `s` where `cos` and `sin` would have been right. */
  lemma StraysOn(v0: real, v1: real, w0: real, w1: real, c: real, s: real, cos: real, sin: real, m: nat, k: real)
    requires Square(cos) + Square(sin) == 1.0 && Astray(v0 - w0, v1 - w1, m, k)
    requires Times(Square(v0) + Square(v1), Square(c - cos) + Square(s - sin)) <= k
    ensures Astray(TurnX(v0, v1, c, s) - TurnX(w0, w1, cos, sin), TurnY(v0, v1, c, s) - TurnY(w0, w1, cos, sin),
                   m + 1, k)
  {
    hide Square, Times, TurnX, TurnY;
    var e0, e1, a, b := v0 - w0, v1 - w1, c - cos, s - sin;
    Turned(e0, e1, cos, sin);
    Turned(v0, v1, a, b);
    TimesOne(Square(e0) + Square(e1));
    AddError(TurnX(e0, e1, cos, sin), TurnY(e0, e1, cos, sin), TurnX(v0, v1, a, b), TurnY(v0, v1, a, b), m, k);
    Differences(v0, v1, w0, w1, c, s, cos, sin);
  }

  lemma TimesOne(x: real)
    ensures Times(x, 1.0) == x
  {
  }

  lemma Differences(v0: real, v1: real, w0: real, w1: real, c: real, s: real, cos: real, sin: real)
    ensures TurnX(v0 - w0, v1 - w1, cos, sin) + TurnX(v0, v1, c - cos, s - sin) ==
            TurnX(v0, v1, c, s) - TurnX(w0, w1, cos, sin)
    ensures TurnY(v0 - w0, v1 - w1, cos, sin) + TurnY(v0, v1, c - cos, s - sin) ==
            TurnY(v0, v1, c, s) - TurnY(w0, w1, cos, sin)
  {
  }

  /** Rotating by `x` and then by `y` is rotating by their sum. */
  lemma RotatedAgain(r0: real, r1: real, x: real, y: real, cos: real -> real, sin: real -> real)
    requires IsRotation(cos, sin)
    ensures var w0, w1 := TurnX(r0, r1, cos(x), sin(x)), TurnY(r0, r1, cos(x), sin(x));
            && TurnX(w0, w1, cos(y), sin(y)) == TurnX(r0, r1, cos(x + y), sin(x + y))
            && TurnY(w0, w1, cos(y), sin(y)) == TurnY(r0, r1, cos(x + y), sin(x + y))
  {
    hide IsRotation;
    AngleSum(cos, sin, x, y);
    SumTurns(r0, r1, cos(x), sin(x), cos(y), sin(y));
  }

  lemma SumTurns(r0: real, r1: real, a: real, b: real, c: real, s: real)
    ensures TurnX(TurnX(r0, r1, a, b), TurnY(r0, r1, a, b), c, s) == TurnX(r0, r1, a * c - b * s, b * c + a * s)
    ensures TurnY(TurnX(r0, r1, a, b), TurnY(r0, r1, a, b), c, s) == TurnY(r0, r1, a * c - b * s, b * c + a * s)
  {
  }

  // ---------------------------------------------------------------------------
  // The angle to travel
  // ---------------------------------------------------------------------------

  predicate IsLength(h: real, x: real, y: real) {
    h >= 0.0 && h * h == x * x + y * y
  }

  /** The angle of the vector `x`, `y`, of length `h`. */
  ghost predicate Heads(angle: real, x: real, y: real, cos: real -> real, sin: real -> real) {
    forall h {:trigger IsLength(h, x, y)} :: IsLength(h, x, y) ==> h * cos(angle) == x && h * sin(angle) == y
  }

  /** `atan2`, and half a turn. */
  ghost predicate IsAngle(atan2: (real, real) -> real, pi: real, cos: real -> real, sin: real -> real) {
    && pi > 3.0 && cos(2.0 * pi) == 1.0 && sin(2.0 * pi) == 0.0
    && forall y, x {:trigger atan2(y, x)} :: -pi <= atan2(y, x) <= pi && Heads(atan2(y, x), x, y, cos, sin)
  }

  function Dot(r0: real, r1: real, t0: real, t1: real): real {
    r0 * t0 + r1 * t1
  }

  function Cross(r0: real, r1: real, t0: real, t1: real): real {
    r0 * t1 - r1 * t0
  }

  /** The functions of an angle, as the arc uses them. */
  datatype Trig = Trig(cos: real -> real, sin: real -> real, atan2: (real, real) -> real, pi: real)

  ghost predicate IsTrig(t: Trig) {
    IsRotation(t.cos, t.sin) && IsAngle(t.atan2, t.pi, t.cos, t.sin)
  }

  /** The angle between the radius vectors of the start and of the target of an arc: in the direction
      of the arc, and a full circle rather than none at all. */
  method AngularTravel(r0: real, r1: real, rt0: real, rt1: real, clockwise: bool, t: Trig) returns (travel: real)
    requires IsTrig(t)
    ensures if clockwise then -2.0 * t.pi - ARC_ANGULAR_TRAVEL_EPSILON <= travel < -ARC_ANGULAR_TRAVEL_EPSILON
            else ARC_ANGULAR_TRAVEL_EPSILON < travel <= 2.0 * t.pi + ARC_ANGULAR_TRAVEL_EPSILON
    ensures Heads(travel, Dot(r0, r1, rt0, rt1), Cross(r0, r1, rt0, rt1), t.cos, t.sin)
  {
    hide IsRotation, Heads, Dot, Cross;
    var dot, cross := Dot(r0, r1, rt0, rt1), Cross(r0, r1, rt0, rt1);
    travel := t.atan2(cross, dot);
    FullTurn(travel, dot, cross, t.pi, t.cos, t.sin);
    if clockwise {
      if travel >= -ARC_ANGULAR_TRAVEL_EPSILON {
        travel := travel - 2.0 * t.pi;
      }
    } else {
      if travel <= ARC_ANGULAR_TRAVEL_EPSILON {
        travel := travel + 2.0 * t.pi;
      }
    }
  }

  lemma FullTurn(angle: real, x: real, y: real, pi: real, cos: real -> real, sin: real -> real)
    requires IsRotation(cos, sin) && cos(2.0 * pi) == 1.0 && sin(2.0 * pi) == 0.0 && Heads(angle, x, y, cos, sin)
    ensures Heads(angle + 2.0 * pi, x, y, cos, sin) && Heads(angle - 2.0 * pi, x, y, cos, sin)
  {
    AngleSum(cos, sin, angle, 2.0 * pi);
    AngleSum(cos, sin, angle, -2.0 * pi);
    AngleSum(cos, sin, 2.0 * pi, -2.0 * pi);
    assert cos(2.0 * pi + -2.0 * pi) == 1.0 && sin(2.0 * pi + -2.0 * pi) == 0.0;
    assert angle + -2.0 * pi == angle - 2.0 * pi;
  }

  /** THE ARC TURNS TO ITS TARGET: the radius vector of the start, turned by the angle to travel, points
      to the target (and reaches it, if start and target are at the same distance from the centre). */
  lemma TurnsToTarget(r0: real, r1: real, rt0: real, rt1: real, travel: real, h: real, cos: real -> real,
                      sin: real -> real)
    requires Heads(travel, Dot(r0, r1, rt0, rt1), Cross(r0, r1, rt0, rt1), cos, sin)
    requires h >= 0.0 && Square(h) == Times(Square(r0) + Square(r1), Square(rt0) + Square(rt1))
    ensures h * TurnX(r0, r1, cos(travel), sin(travel)) == (Square(r0) + Square(r1)) * rt0
    ensures h * TurnY(r0, r1, cos(travel), sin(travel)) == (Square(r0) + Square(r1)) * rt1
    ensures Square(r0) + Square(r1) == Square(rt0) + Square(rt1) > 0.0 ==>
              TurnX(r0, r1, cos(travel), sin(travel)) == rt0 && TurnY(r0, r1, cos(travel), sin(travel)) == rt1
  {
    var x, y := Dot(r0, r1, rt0, rt1), Cross(r0, r1, rt0, rt1);
    ProductLength(r0, r1, rt0, rt1);
    assert IsLength(h, x, y);
    Recovered(r0, r1, rt0, rt1, h, cos(travel), sin(travel));
    if Square(r0) + Square(r1) == Square(rt0) + Square(rt1) > 0.0 {
      SameDistance(h, Square(r0) + Square(r1), TurnX(r0, r1, cos(travel), sin(travel)), rt0);
      SameDistance(h, Square(r0) + Square(r1), TurnY(r0, r1, cos(travel), sin(travel)), rt1);
    }
  }

  lemma ProductLength(r0: real, r1: real, t0: real, t1: real)
    ensures Times(Square(r0) + Square(r1), Square(t0) + Square(t1)) ==
            (r0 * t0 + r1 * t1) * (r0 * t0 + r1 * t1) + (r0 * t1 - r1 * t0) * (r0 * t1 - r1 * t0)
  {
  }

  lemma Recovered(r0: real, r1: real, t0: real, t1: real, h: real, c: real, s: real)
    requires h * c == Dot(r0, r1, t0, t1) && h * s == Cross(r0, r1, t0, t1)
    ensures h * TurnX(r0, r1, c, s) == (Square(r0) + Square(r1)) * t0
    ensures h * TurnY(r0, r1, c, s) == (Square(r0) + Square(r1)) * t1
  {
    assert h * (r0 * c - r1 * s) == r0 * (h * c) - r1 * (h * s);
    assert h * (r0 * s + r1 * c) == r0 * (h * s) + r1 * (h * c);
  }

  lemma SameDistance(h: real, d: real, x: real, t: real)
    requires h >= 0.0 && d > 0.0 && Square(h) == Times(d, d) && h * x == d * t
    ensures x == t
  {
    EqualSquares(h, d);
    PositiveProduct(d, x - t);
    PositiveProduct(d, t - x);
  }

  lemma EqualSquares(h: real, d: real)
    requires h >= 0.0 && d > 0.0 && h * h == d * d
    ensures h == d
  {
    PositiveProduct(h + d, h - d);
    PositiveProduct(h + d, d - h);
    assert (h + d) * (h - d) == h * h - d * d;
  }
}
