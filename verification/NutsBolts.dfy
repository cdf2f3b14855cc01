/** Shared vector arithmetic of the motion code. Floats are modelled as reals. */
module NutsBolts {

  const N_AXIS := 3
  const SOME_LARGE_VALUE := 100000000000000000000000000000000000000.0

  function Min(x: real, y: real): real {
    if x < y then x else y
  }

  function Max(x: real, y: real): real {
    if x < y then y else x
  }

  /** A nonnegative square root of every nonnegative number. */
  ghost predicate IsRoot(root: real -> real) {
    forall x {:trigger root(x)} :: x >= 0.0 ==> root(x) >= 0.0 && root(x) * root(x) == x
  }

  function Abs(x: real): real {
    if x < 0.0 then -x else x
  }

  /** C's lround: to the nearest integer, halves away from zero. */
  function LRound(x: real): int {
    if x >= 0.0 then (x + 0.5).Floor else -((0.5 - x).Floor)
  }

  lemma LRoundMonotonic(x: real, y: real)
    requires x <= y
    ensures LRound(x) <= LRound(y)
  {
  }

  /** Rounding undoes a conversion from whole steps exactly. */
  lemma LRoundWhole(n: int)
    ensures LRound(n as real) == n
  {
    if n >= 0 {
      assert (n as real + 0.5).Floor == n;
    } else {
      assert (0.5 - n as real).Floor == -n;
    }
  }

  function Times(x: real, y: real): real {
    x * y
  }

  function Square(x: real): real {
    Times(x, x)
  }

  function SumSquares(v: seq<real>): real {
    if v == [] then 0.0 else SumSquares(v[..|v| - 1]) + Square(v[|v| - 1])
  }

  lemma {:induction false} SumSquaresPositive(v: seq<real>, i: nat)
    requires i < |v| && v[i] != 0.0
    ensures SumSquares(v) > 0.0
  {
    var p, last := v[..|v| - 1], v[|v| - 1];
    SumSquaresNonnegative(p);
    SquareSign(last);
    hide Square;
    if i < |v| - 1 {
      assert p[i] == v[i];
      SumSquaresPositive(p, i);
    }
  }

  lemma TimesSign(x: real, y: real)
    requires (x > 0.0 && y > 0.0) || (x < 0.0 && y < 0.0)
    ensures Times(x, y) > 0.0
  {
  }

  lemma NonnegativeProduct(x: real, y: real)
    requires x >= 0.0 && y >= 0.0
    ensures x * y >= 0.0
  {
  }

  lemma SquareSign(x: real)
    ensures Square(x) >= 0.0 && (x != 0.0 ==> Square(x) > 0.0)
  {
    if x != 0.0 {
      TimesSign(x, x);
    }
  }

  lemma {:induction false} SumSquaresNonnegative(v: seq<real>)
    ensures SumSquares(v) >= 0.0
  {
    if v != [] {
      SquareSign(v[|v| - 1]);
      SumSquaresNonnegative(v[..|v| - 1]);
    }
  }

  /** Scaling a vector scales its squared length by the square. */
  lemma {:induction false} SumSquaresScaled(v: seq<real>, u: seq<real>, c: real)
    requires |u| == |v| && forall i :: 0 <= i < |v| ==> u[i] == v[i] * c
    ensures SumSquares(u) == SumSquares(v) * (c * c)
  {
    if v != [] {
      var n := |v| - 1;
      SumSquaresScaled(v[..n], u[..n], c);
      assert Square(u[n]) == Square(v[n]) * (c * c);
    }
  }

  /** `convert_delta_vector_to_unit_vector`: normalises the vector in place. */
  method ConvertDeltaVectorToUnitVector(vector: array<real>, root: real -> real) returns (magnitude: real)
    requires vector.Length == N_AXIS && IsRoot(root)
    requires SumSquares(vector[..]) > 0.0
    modifies vector
    ensures magnitude > 0.0 && magnitude * magnitude == SumSquares(old(vector[..]))
    ensures forall i :: 0 <= i < N_AXIS ==> vector[i] * magnitude == old(vector[i])
    ensures SumSquares(vector[..]) == 1.0
  {
    hide SumSquares;
    magnitude := SumOfSquares(vector);
    magnitude := TakeRoot(magnitude, root);
    Normalise(vector, magnitude);
  }

  /** The second half of `convert_delta_vector_to_unit_vector`. */
  method Normalise(vector: array<real>, magnitude: real)
    requires vector.Length == N_AXIS && magnitude > 0.0 && magnitude * magnitude == SumSquares(vector[..])
    modifies vector
    ensures forall i :: 0 <= i < N_AXIS ==> vector[i] * magnitude == old(vector[i])
    ensures SumSquares(vector[..]) == 1.0
  {
    hide SumSquares;
    ghost var v := vector[..];
    var invMagnitude := 1.0 / magnitude;
    Scale(vector, invMagnitude);
    SumSquaresScaled(v, vector[..], invMagnitude);
    UnitLength(SumSquares(v), magnitude, invMagnitude);
    forall i | 0 <= i < N_AXIS ensures vector[i] * magnitude == v[i] {
      ScaleBack(v[i], magnitude, invMagnitude);
    }
  }

  function TakeRoot(x: real, root: real -> real): (r: real)
    requires x >= 0.0 && IsRoot(root)
    ensures r >= 0.0 && r * r == x && Square(r) == x && (x > 0.0 ==> r > 0.0)
  {
    var r := root(x);
    assert r * r == x && r >= 0.0;
    assert r == 0.0 ==> r * r == 0.0;
    r
  }

  lemma UnitLength(sum: real, magnitude: real, inv: real)
    requires magnitude > 0.0 && magnitude * magnitude == sum && inv == 1.0 / magnitude
    ensures sum * (inv * inv) == 1.0
  {
    assert magnitude * inv == 1.0;
    assert sum * (inv * inv) == (magnitude * inv) * (magnitude * inv);
  }

  lemma ScaleBack(x: real, magnitude: real, inv: real)
    requires magnitude > 0.0 && inv == 1.0 / magnitude
    ensures x * inv * magnitude == x
  {
    assert inv * magnitude == 1.0;
    assert x * inv * magnitude == x * (inv * magnitude);
  }

  method SumOfSquares(vector: array<real>) returns (sum: real)
    requires vector.Length == N_AXIS
    ensures sum == SumSquares(vector[..])
  {
    sum := 0.0;
    for idx := 0 to N_AXIS
      invariant sum == SumSquares(vector[..idx])
    {
      assert vector[..idx + 1][..idx] == vector[..idx];
      if vector[idx] != 0.0 {
        sum := sum + Square(vector[idx]);
      }
    }
    assert vector[..N_AXIS] == vector[..];
  }

  method Scale(vector: array<real>, factor: real)
    requires vector.Length == N_AXIS
    modifies vector
    ensures forall i :: 0 <= i < N_AXIS ==> vector[i] == old(vector[i]) * factor
  {
    for idx := 0 to N_AXIS
      invariant forall i :: 0 <= i < idx ==> vector[i] == old(vector[i]) * factor
      invariant forall i :: idx <= i < N_AXIS ==> vector[i] == old(vector[i])
    {
      vector[idx] := vector[idx] * factor;
    }
  }

  /** A value along a direction stays within an axis's maximum ... */
  predicate Within(value: real, u: real, maximum: real) {
    value * Abs(u) <= maximum
  }

  /** ... or uses it up. */
  predicate Exactly(value: real, u: real, maximum: real) {
    value * Abs(u) == maximum
  }

  /** A value along a direction uses up the maximum of some axis, and exceeds none. */
  ghost predicate UsesUp(value: real, direction: seq<real>, maximum: seq<real>) {
    && |direction| == |maximum| && 0.0 < value <= SOME_LARGE_VALUE
    && (forall i :: 0 <= i < |maximum| ==> Within(value, direction[i], maximum[i]))
    && (value == SOME_LARGE_VALUE || exists i :: 0 <= i < |maximum| && Exactly(value, direction[i], maximum[i]))
  }

  /** So no greater value is within the maxima, and there is one such value only. */
  lemma NoneGreater(x: real, y: real, direction: seq<real>, maximum: seq<real>)
    requires UsesUp(x, direction, maximum) && forall i :: 0 <= i < |maximum| ==> maximum[i] > 0.0
    requires y <= SOME_LARGE_VALUE && forall i :: 0 <= i < |maximum| ==> Within(y, direction[i], maximum[i])
    ensures y <= x
  {
    if x < SOME_LARGE_VALUE {
      var i :| 0 <= i < |maximum| && Exactly(x, direction[i], maximum[i]);
      LessShare(x, y, Abs(direction[i]), maximum[i]);
    }
  }

  lemma LessShare(x: real, y: real, u: real, m: real)
    requires x > 0.0 && m > 0.0 && u >= 0.0 && x * u == m && y * u <= m
    ensures y <= x
  {
    PositiveProduct(y - x, u);
    assert (y - x) * u == y * u - x * u;
  }

  lemma PositiveProduct(x: real, y: real)
    ensures x > 0.0 && y > 0.0 ==> x * y > 0.0
  {
  }

  /** `limit_value_by_axis_maximum`: the greatest value whose share along every axis of the
      direction stays within that axis's maximum. */
  method LimitValueByAxisMaximum(maxValue: seq<real>, unitVec: array<real>) returns (limit: real)
    requires |maxValue| == unitVec.Length == N_AXIS && forall i :: 0 <= i < N_AXIS ==> maxValue[i] > 0.0
    ensures UsesUp(limit, unitVec[..], maxValue)
  {
    hide Within, Exactly, Abs;
    limit := SOME_LARGE_VALUE;
    for idx := 0 to N_AXIS
      invariant 0.0 < limit <= SOME_LARGE_VALUE
      invariant forall i :: 0 <= i < idx ==> Within(limit, unitVec[i], maxValue[i])
      invariant limit == SOME_LARGE_VALUE || exists i :: 0 <= i < idx && Exactly(limit, unitVec[i], maxValue[i])
    {
      if unitVec[idx] != 0.0 {
        var axisLimit := Abs(maxValue[idx] / unitVec[idx]);
        AxisShare(maxValue[idx], unitVec[idx]);
        if axisLimit < limit {
          forall i | 0 <= i < idx ensures Within(axisLimit, unitVec[i], maxValue[i]) {
            SmallerShare(axisLimit, limit, unitVec[i], maxValue[i]);
          }
          limit := axisLimit;
        } else {
          SmallerShare(limit, axisLimit, unitVec[idx], maxValue[idx]);
        }
      } else {
        NoShare(limit, maxValue[idx]);
      }
    }
  }

  lemma AxisShare(m: real, u: real)
    requires m > 0.0 && u != 0.0
    ensures Abs(m / u) > 0.0 && Exactly(Abs(m / u), u, m) && Within(Abs(m / u), u, m)
  {
    assert m / u * u == m;
    if u > 0.0 {
      assert m / u > 0.0;
    } else {
      assert m / u < 0.0;
    }
  }

  lemma NoShare(x: real, m: real)
    requires m > 0.0
    ensures Within(x, 0.0, m)
  {
  }

  lemma SmallerShare(x: real, y: real, u: real, m: real)
    requires x <= y && Within(y, u, m)
    ensures Within(x, u, m)
  {
    assert x * Abs(u) <= y * Abs(u);
  }
}
