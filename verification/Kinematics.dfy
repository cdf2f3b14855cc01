/** Motion at constant acceleration, in squared speeds: the few facts of real arithmetic that the
    velocity profile rests on. */
module Kinematics {
  import opened NutsBolts

  /** The change of squared speed over the distance `x` at acceleration `a`. */
  function Gained(a: real, x: real): real {
    2.0 * a * x
  }

  lemma GainedSum(a: real, x: real, y: real)
    ensures Gained(a, x + y) == Gained(a, x) + Gained(a, y)
    ensures Gained(a, x - y) == Gained(a, x) - Gained(a, y)
    ensures Gained(a, 0.0) == 0.0
  {
  }

  lemma GainedMonotonic(a: real, x: real, y: real)
    requires a > 0.0
    ensures x <= y ==> Gained(a, x) <= Gained(a, y)
    ensures x < y ==> Gained(a, x) < Gained(a, y)
    ensures x >= 0.0 ==> Gained(a, x) >= 0.0
    ensures x > 0.0 ==> Gained(a, x) > 0.0
    ensures Gained(a, x) == Gained(a, y) ==> x == y
  {
    GainedSign(a, y - x);
    GainedSign(a, x);
    GainedSum(a, y, x);
  }

  lemma GainedSign(a: real, x: real)
    requires a > 0.0
    ensures x > 0.0 ==> Gained(a, x) > 0.0
    ensures x == 0.0 ==> Gained(a, x) == 0.0
    ensures x < 0.0 ==> Gained(a, x) < 0.0
  {
    assert Gained(a, x) == 2.0 * (a * x);
  }

  /** The distance at which a squared speed difference is made up: the source's inv_2_accel. */
  lemma GainedInverse(a: real, d: real)
    requires a > 0.0
    ensures Gained(a, 0.5 / a * d) == d
    ensures d >= 0.0 <==> 0.5 / a * d >= 0.0
  {
    var x := 0.5 / a * d;
    assert 2.0 * a * (0.5 / a) == 1.0;
    assert Gained(a, x) == (2.0 * a * (0.5 / a)) * d;
    GainedSign(a, x);
  }

  lemma SquareMonotonic(x: real, y: real)
    ensures Square(x) >= 0.0 && Square(y) >= 0.0
    ensures x >= 0.0 && y >= 0.0 ==> (x <= y <==> Square(x) <= Square(y))
    ensures x >= 0.0 && y >= 0.0 ==> (x == y <==> Square(x) == Square(y))
  {
    SquareSign(x);
    SquareSign(y);
    if 0.0 <= x < y {
      SquareStrict(x, y);
    } else if 0.0 <= y < x {
      SquareStrict(y, x);
    }
    hide Square;
  }

  lemma SquareStrict(x: real, y: real)
    requires 0.0 <= x < y
    ensures Square(x) < Square(y)
  {
    assert y * y - x * x == (y - x) * (y + x);
    Product(y - x, y + x);
  }

  lemma Product(x: real, y: real)
    requires x > 0.0 && y > 0.0
    ensures x * y > 0.0
  {
  }

  /** The distance covered in time `t` from speed `v` at acceleration `a`, as the source has it. */
  function AccelDistance(v: real, a: real, t: real): real {
    t * (v + 0.5 * (a * t))
  }

  function DecelDistance(v: real, a: real, t: real): real {
    t * (v - 0.5 * (a * t))
  }

  lemma AccelLaw(v: real, a: real, t: real)
    ensures Square(v + a * t) == Square(v) + Gained(a, AccelDistance(v, a, t))
  {
    var w := a * t;
    assert Gained(a, AccelDistance(v, a, t)) == 2.0 * w * (v + 0.5 * w);
    assert Square(v + w) == Square(v) + 2.0 * (w * v) + w * w;
  }

  lemma DecelLaw(v: real, a: real, t: real)
    ensures Square(v - a * t) == Square(v) - Gained(a, DecelDistance(v, a, t))
  {
    var w := a * t;
    assert Gained(a, DecelDistance(v, a, t)) == 2.0 * w * (v - 0.5 * w);
    assert Square(v - w) == Square(v) - 2.0 * (w * v) + w * w;
  }

  /** The least a full time step moves while the speed changes. */
  function LeastStep(a: real, t: real): real {
    0.5 * (a * t) * t
  }

  lemma LeastStepPositive(a: real, t: real)
    requires a > 0.0 && t > 0.0
    ensures LeastStep(a, t) > 0.0 && a * t > 0.0
  {
    Product(a, t);
    Product(0.5 * (a * t), t);
  }

  lemma AccelMoves(v: real, a: real, t: real)
    requires v >= 0.0 && a > 0.0 && t > 0.0
    ensures AccelDistance(v, a, t) >= LeastStep(a, t)
  {
    var w := a * t;
    assert t * (v + 0.5 * w) == t * v + 0.5 * w * t;
    assert t * v >= 0.0;
  }

  lemma DecelMoves(v: real, a: real, t: real)
    requires a > 0.0 && t > 0.0 && v > a * t
    ensures DecelDistance(v, a, t) >= LeastStep(a, t)
  {
    var w := a * t;
    Product(t, v - w);
    assert t * (v - 0.5 * w) == t * (v - w) + 0.5 * w * t;
  }

  /** How many whole steps of length `c` fit into a distance. */
  function Passes(x: real, c: real): nat
    requires c > 0.0
  {
    if x < c then 0 else
      QuotientAtLeastOne(x, c);
      (x / c).Floor
  }

  lemma QuotientAtLeastOne(x: real, c: real)
    requires c > 0.0 && x >= c
    ensures x / c >= 1.0
  {
    assert x / c * c == x;
  }

  lemma FactorGap(p: real, q: real, c: real)
    requires c > 0.0 && q + 1.0 > p
    ensures Times(p, c) < Times(q, c) + c
  {
    Product(q + 1.0 - p, c);
    assert (q + 1.0 - p) * c == Times(q, c) + c - Times(p, c);
  }

  lemma QuotientMul(x: real, c: real)
    requires c > 0.0
    ensures Times(x / c, c) == x
  {
  }

  lemma QuotientGap(x: real, y: real, c: real)
    requires c > 0.0 && y + c <= x
    ensures y / c + 1.0 <= x / c
  {
    QuotientMul(x, c);
    QuotientMul(y, c);
    hide Times;
    if y / c + 1.0 > x / c {
      FactorGap(x / c, y / c, c);
    }
  }

  lemma PassesDecrease(x: real, y: real, c: real)
    requires c > 0.0 && y >= 0.0 && y + c <= x
    ensures Passes(y, c) < Passes(x, c)
  {
    QuotientAtLeastOne(x, c);
    QuotientGap(x, y, c);
    if y >= c {
      QuotientAtLeastOne(y, c);
    }
  }
}
