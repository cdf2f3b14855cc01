/** The geometry of one linear move: its steps, its direction, and how fast its corner may be taken. */
module LineGeometry {
  import opened NutsBolts

  const MINIMUM_JUNCTION_SPEED := 0.0
  const NEARLY_ONE := 0.999999

  /** The step count that ends axis `i` at `target` millimetres. */
  function TargetStep(target: real, stepsPerMm: real): int {
    LRound(target * stepsPerMm)
  }

  function AbsInt(n: int): nat {
    if n < 0 then -n else n
  }

  /** What the per-axis loop of `plan_buffer_line` works out about a move. */
  datatype Line = Line(
    targetSteps: seq<int>,
    steps: seq<nat>,
    negative: seq<bool>,
    stepEventCount: nat,
    deltaMm: seq<real>)

  ghost predicate LineFrom(l: Line, target: seq<real>, position: seq<int>, stepsPerMm: seq<real>, n: nat)
    requires |target| >= n && |position| >= n && |stepsPerMm| >= n
    requires forall i :: 0 <= i < n ==> stepsPerMm[i] > 0.0
  {
    && |l.targetSteps| == |l.steps| == |l.negative| == |l.deltaMm| == n
    && (forall i :: 0 <= i < n ==> l.targetSteps[i] == TargetStep(target[i], stepsPerMm[i]))
    && (forall i :: 0 <= i < n ==> l.steps[i] == AbsInt(l.targetSteps[i] - position[i]) <= l.stepEventCount)
    && (forall i :: 0 <= i < n ==> l.negative[i] == (l.targetSteps[i] < position[i]))
    && (forall i :: 0 <= i < n ==> l.deltaMm[i] == (l.targetSteps[i] - position[i]) as real / stepsPerMm[i])
    && (l.stepEventCount == 0 || exists i :: 0 <= i < n && l.steps[i] == l.stepEventCount)
  }

  /** The per-axis loop of `plan_buffer_line`. */
  method MeasureLine(target: seq<real>, position: seq<int>, stepsPerMm: seq<real>) returns (l: Line)
    requires |target| == |position| == |stepsPerMm| == N_AXIS
    requires forall i :: 0 <= i < N_AXIS ==> stepsPerMm[i] > 0.0
    ensures LineFrom(l, target, position, stepsPerMm, N_AXIS)
  {
    hide TargetStep;
    l := Line([], [], [], 0, []);
    for idx := 0 to N_AXIS
      invariant LineFrom(l, target, position, stepsPerMm, idx)
    {
      var targetStep := TargetStep(target[idx], stepsPerMm[idx]);
      var delta := targetStep - position[idx];
      var deltaMm := delta as real / stepsPerMm[idx];
      DeltaSign(delta, stepsPerMm[idx]);
      ghost var before := l;
      l := Line(l.targetSteps + [targetStep], l.steps + [AbsInt(delta)], l.negative + [deltaMm < 0.0],
                if l.stepEventCount > AbsInt(delta) then l.stepEventCount else AbsInt(delta), l.deltaMm + [deltaMm]);
      LineExtended(before, l, target, position, stepsPerMm, idx);
    }
  }

  lemma DeltaSign(delta: int, stepsPerMm: real)
    requires stepsPerMm > 0.0
    ensures delta as real / stepsPerMm < 0.0 <==> delta < 0
    ensures delta as real / stepsPerMm == 0.0 <==> delta == 0
  {
    var x := delta as real / stepsPerMm;
    assert x * stepsPerMm == delta as real;
    if x > 0.0 {
      assert x * stepsPerMm > 0.0;
    } else if x < 0.0 {
      assert x * stepsPerMm < 0.0;
    }
  }

  lemma LineExtended(l: Line, l': Line, target: seq<real>, position: seq<int>, stepsPerMm: seq<real>, n: nat)
    requires |target| > n && |position| > n && |stepsPerMm| > n
    requires forall i :: 0 <= i <= n ==> stepsPerMm[i] > 0.0
    requires LineFrom(l, target, position, stepsPerMm, n)
    requires var targetStep := TargetStep(target[n], stepsPerMm[n]); var delta := targetStep - position[n];
             l' == Line(l.targetSteps + [targetStep], l.steps + [AbsInt(delta)], l.negative + [delta < 0],
                        if l.stepEventCount > AbsInt(delta) then l.stepEventCount else AbsInt(delta),
                        l.deltaMm + [delta as real / stepsPerMm[n]])
    ensures LineFrom(l', target, position, stepsPerMm, n + 1)
  {
    hide TargetStep;
    if l'.stepEventCount > 0 {
      if l.stepEventCount > AbsInt(l'.targetSteps[n] - position[n]) {
        var i :| 0 <= i < n && l.steps[i] == l.stepEventCount;
        assert l'.steps[i] == l'.stepEventCount;
      } else {
        assert l'.steps[n] == l'.stepEventCount;
      }
    }
  }

  /** A move with a step to take has a direction. */
  lemma MoveHasLength(l: Line, target: seq<real>, position: seq<int>, stepsPerMm: seq<real>)
    requires |target| == |position| == |stepsPerMm| == N_AXIS
    requires forall i :: 0 <= i < N_AXIS ==> stepsPerMm[i] > 0.0
    requires LineFrom(l, target, position, stepsPerMm, N_AXIS) && l.stepEventCount > 0
    ensures SumSquares(l.deltaMm) > 0.0
  {
    var i :| 0 <= i < N_AXIS && l.steps[i] == l.stepEventCount;
    DeltaSign(l.targetSteps[i] - position[i], stepsPerMm[i]);
    SumSquaresPositive(l.deltaMm, i);
  }

  function Dot3(u: seq<real>, v: seq<real>): real
    requires |u| == |v| == N_AXIS
  {
    Times(u[0], v[0]) + Times(u[1], v[1]) + Times(u[2], v[2])
  }

  lemma SumSquares3(v: seq<real>)
    requires |v| == N_AXIS
    ensures SumSquares(v) == Square(v[0]) + Square(v[1]) + Square(v[2])
  {
    assert v[..2][..1] == v[..1] && v[..1][..0] == [];
    assert SumSquares(v[..1]) == Square(v[0]);
    assert SumSquares(v[..2]) == SumSquares(v[..1]) + Square(v[1]);
  }

  /** The squared length of the difference of two directions, by the cosine of their angle. */
  lemma DifferenceLength(u: seq<real>, p: seq<real>, d: seq<real>)
    requires |u| == |p| == |d| == N_AXIS && SumSquares(u) == 1.0 && SumSquares(p) == 1.0
    requires forall i :: 0 <= i < N_AXIS ==> d[i] == u[i] - p[i]
    ensures SumSquares(d) == 2.0 - 2.0 * Dot3(p, u)
  {
    SumSquares3(u);
    SumSquares3(p);
    SumSquares3(d);
    DifferenceSquare(u[0], p[0]);
    DifferenceSquare(u[1], p[1]);
    DifferenceSquare(u[2], p[2]);
    hide Square, Times;
  }

  lemma DifferenceSquare(x: real, y: real)
    ensures Square(x - y) == Square(x) + Square(y) - 2.0 * Times(y, x)
  {
  }

  /** What limits the speed through the corner between two moves: the squared speed `v` of the
      circle that stays within the junction deviation, at the acceleration the axes allow,
      where `s` is the sine of half the angle between the moves and
      `dot` the scalar product of their directions. */
  ghost predicate CornerSpeed(v: real, dot: real, acceleration: real, deviation: real, s: real) {
    && acceleration > 0.0
    && 0.0 <= s < 1.0 && 2.0 * Square(s) == 1.0 + dot
    && v * (1.0 - s) == Times(acceleration * deviation, s)
  }

  /** The direction of the corner: of the difference of the directions `u` and, before it, `p`. */
  ghost predicate Turning(j: seq<real>, p: seq<real>, u: seq<real>) {
    && |j| == |p| == |u| == N_AXIS && SumSquares(j) == 1.0
    && exists length :: length > 0.0 && Spans(j, length, p, u)
  }

  ghost predicate Spans(j: seq<real>, length: real, p: seq<real>, u: seq<real>)
    requires |j| == |p| == |u| == N_AXIS
  {
    forall i :: 0 <= i < N_AXIS ==> j[i] * length == u[i] - p[i]
  }

  /** The squared speed at which a corner from direction `p` to direction `u` may be taken: a
      reversal at none, a straight line at any, and otherwise as the circle allows at the
      greatest acceleration the axes have along the corner. */
  ghost predicate Corner(v: real, p: seq<real>, u: seq<real>, acceleration: seq<real>, deviation: real)
    requires |p| == |u| == N_AXIS
  {
    var dot := Dot3(p, u);
    if -dot > NEARLY_ONE then v == 0.0
    else if -dot < -NEARLY_ONE then v == SOME_LARGE_VALUE
    else exists j, a, s :: Turning(j, p, u) && UsesUp(a, j, acceleration) && CornerSpeed(v, dot, a, deviation, s)
  }

  /** The junction speed limit of `plan_buffer_line`, squared. */
  method MaxJunctionSpeedSqr(previous: seq<real>, unitVec: seq<real>, acceleration: seq<real>, deviation: real,
                             root: real -> real)
    returns (maxJunction: real)
    requires |previous| == |unitVec| == |acceleration| == N_AXIS
    requires SumSquares(previous) == 1.0 && SumSquares(unitVec) == 1.0
    requires forall i :: 0 <= i < N_AXIS ==> acceleration[i] > 0.0
    requires deviation >= 0.0 && IsRoot(root)
    ensures maxJunction >= 0.0 && Corner(maxJunction, previous, unitVec, acceleration, deviation)
  {
    hide SumSquares, IsRoot, Within, Exactly, CornerSpeed, Dot3;
    var junctionUnitVec := new real[N_AXIS];
    var junctionCosTheta := CosTheta(previous, unitVec, junctionUnitVec);
    if junctionCosTheta > NEARLY_ONE {
      maxJunction := MINIMUM_JUNCTION_SPEED * MINIMUM_JUNCTION_SPEED;
    } else if junctionCosTheta < -NEARLY_ONE {
      maxJunction := SOME_LARGE_VALUE;
    } else {
      DifferenceLength(unitVec, previous, junctionUnitVec[..]);
      var length := ConvertDeltaVectorToUnitVector(junctionUnitVec, root);
      assert Spans(junctionUnitVec[..], length, previous, unitVec);
      var junctionAcceleration := LimitValueByAxisMaximum(acceleration, junctionUnitVec);
      var sinThetaD2 := HalfAngleSine(junctionCosTheta, root);
      maxJunction := CornerSpeedSqr(junctionAcceleration, deviation, sinThetaD2);
      CornerFits(maxJunction, Dot3(previous, unitVec), junctionAcceleration, deviation, sinThetaD2);
      assert Turning(junctionUnitVec[..], previous, unitVec);
    }
  }

  lemma CornerFits(v: real, dot: real, a: real, deviation: real, s: real)
    requires a > 0.0 && 0.0 <= s < 1.0 && 2.0 * Square(s) == 1.0 + dot && v * (1.0 - s) == Times(a * deviation, s)
    ensures CornerSpeed(v, dot, a, deviation, s)
  {
  }

  /** The loop that accumulates the cosine and the direction of the corner. */
  method CosTheta(previous: seq<real>, unitVec: seq<real>, junctionUnitVec: array<real>) returns (c: real)
    requires |previous| == |unitVec| == junctionUnitVec.Length == N_AXIS
    modifies junctionUnitVec
    ensures c == -Dot3(previous, unitVec)
    ensures forall i :: 0 <= i < N_AXIS ==> junctionUnitVec[i] == unitVec[i] - previous[i]
  {
    hide Times;
    c := 0.0;
    for idx := 0 to N_AXIS
      invariant c == -((if idx > 0 then Times(previous[0], unitVec[0]) else 0.0)
                       + (if idx > 1 then Times(previous[1], unitVec[1]) else 0.0)
                       + (if idx > 2 then Times(previous[2], unitVec[2]) else 0.0))
      invariant forall i :: 0 <= i < idx ==> junctionUnitVec[i] == unitVec[i] - previous[i]
    {
      c := c - Times(previous[idx], unitVec[idx]);
      junctionUnitVec[idx] := unitVec[idx] - previous[idx];
    }
  }

  /** Half-angle identity; the sine stays below one because the moves are not nearly opposite. */
  function HalfAngleSine(cosTheta: real, root: real -> real): (s: real)
    requires -NEARLY_ONE <= cosTheta <= NEARLY_ONE && IsRoot(root)
    ensures 0.0 <= s < 1.0 && 2.0 * Square(s) == 1.0 - cosTheta
  {
    var x := 0.5 * (1.0 - cosTheta);
    var s := root(x);
    assert s >= 0.0 && s * s == x;
    BelowOne(s);
    s
  }

  lemma BelowOne(s: real)
    requires s >= 0.0 && s * s < 1.0
    ensures s < 1.0
  {
    if s >= 1.0 {
      AboveOne(s);
    }
  }

  lemma AboveOne(s: real)
    requires s >= 1.0
    ensures s * s >= 1.0
  {
  }

  function CornerSpeedSqr(acceleration: real, deviation: real, s: real): (v: real)
    requires acceleration > 0.0 && deviation >= 0.0 && 0.0 <= s < 1.0
    ensures v >= 0.0 && v * (1.0 - s) == Times(acceleration * deviation, s)
  {
    var v := acceleration * deviation * s / (1.0 - s);
    assert acceleration * deviation * s >= 0.0;
    QuotientSign(acceleration * deviation * s, 1.0 - s);
    if v > MINIMUM_JUNCTION_SPEED * MINIMUM_JUNCTION_SPEED then v else MINIMUM_JUNCTION_SPEED * MINIMUM_JUNCTION_SPEED
  }

  lemma QuotientSign(x: real, y: real)
    requires x >= 0.0 && y > 0.0
    ensures x / y >= 0.0 && x / y * y == x
  {
  }
}
