/** The velocity profile of the block being executed: how `st_prep_buffer` chooses it, and the
    speed it stands for at every distance from the end of the block. */
module VelocityProfile {
  import opened NutsBolts
  import opened Kinematics

  datatype Ramp = Accel | Cruise | Decel | DecelOverride

  /** The profile part of `st_prep_t`; distances are measured from the end of the block. */
  datatype Profile = Profile(
    ramp: Ramp,
    mmComplete: real,
    currentSpeed: real,
    maximumSpeed: real,
    exitSpeed: real,
    accelerateUntil: real,
    decelerateAfter: real)

  /** What a profile is computed from: the block's remaining length, the squared speeds at
      which it is entered and to be left, and the speed it should run at. */
  datatype Leg = Leg(acceleration: real, millimeters: real, entrySqr: real, exitSqr: real, nominal: real)

  predicate Moving(t: Leg) {
    t.acceleration > 0.0 && t.millimeters > 0.0 && t.nominal > 0.0 && t.entrySqr >= 0.0
  }

  /** What the planner guarantees of the executing block, outside a hold. */
  ghost predicate Plannable(t: Leg) {
    && Moving(t) && 0.0 <= t.exitSqr <= Square(t.nominal)
    && t.entrySqr <= t.exitSqr + Gained(t.acceleration, t.millimeters)
    && t.exitSqr <= t.entrySqr + Gained(t.acceleration, t.millimeters)
  }

  /** THE FASTEST WAY through a block: nowhere above its nominal speed, nowhere above what
      acceleration from the entry speed allows, nowhere too fast to brake for the exit. A block
      entered above its nominal speed first slows down to it. */
  function Fastest(t: Leg, x: real): real {
    Min(t.exitSqr + Gained(t.acceleration, x),
           if t.entrySqr > Square(t.nominal)
           then Max(Square(t.nominal), t.entrySqr - Gained(t.acceleration, t.millimeters - x))
           else Min(Square(t.nominal), t.entrySqr + Gained(t.acceleration, t.millimeters - x)))
  }

  /** The squared speed of a profile, entered in its first ramp, `x` from the end of the block. */
  function SpeedSqrAt(p: Profile, a: real, x: real): real {
    match p.ramp
    case Decel => Square(p.exitSpeed) + Gained(a, x - p.mmComplete)
    case Cruise => Falling(p, a, x)
    case Accel =>
      if x > p.accelerateUntil then Square(p.maximumSpeed) - Gained(a, x - p.accelerateUntil) else Falling(p, a, x)
    case DecelOverride =>
      if x > p.accelerateUntil then Square(p.maximumSpeed) + Gained(a, x - p.accelerateUntil) else Falling(p, a, x)
  }

  function Falling(p: Profile, a: real, x: real): real {
    if x < p.decelerateAfter then Square(p.exitSpeed) + Gained(a, x) else Square(p.maximumSpeed)
  }

  /** The ramps of a profile follow one another: up (or down) to the maximum speed until
      accelerateUntil, at it until decelerateAfter, and down to the exit speed at mmComplete.
      A pure acceleration ends at the exit speed, and leaves decelerateAfter as it was. */
  ghost predicate WellShaped(p: Profile, a: real, mm: real) {
    && 0.0 <= p.mmComplete <= mm && p.exitSpeed >= 0.0
    && (p.ramp != Decel ==>
          && p.mmComplete == 0.0 && p.maximumSpeed > 0.0
          && (PureAcceleration(p) || (p.decelerateAfter >= 0.0 &&
                                      Square(p.maximumSpeed) == Square(p.exitSpeed) + Gained(a, p.decelerateAfter))))
    && (p.ramp == Cruise ==> p.decelerateAfter <= mm)
    && (p.ramp == Accel || p.ramp == DecelOverride ==>
          && 0.0 <= p.accelerateUntil <= mm
          && (PureAcceleration(p) || p.decelerateAfter <= p.accelerateUntil))
  }

  ghost predicate PureAcceleration(p: Profile) {
    p.ramp == Accel && p.accelerateUntil == 0.0 && p.maximumSpeed == p.exitSpeed
  }

  /** The profile is the fastest way through the block. */
  ghost predicate IsFastest(p: Profile, t: Leg) {
    && WellShaped(p, t.acceleration, t.millimeters)
    && p.mmComplete == 0.0 && Square(p.exitSpeed) == t.exitSqr
    && forall x :: 0.0 <= x <= t.millimeters ==> SpeedSqrAt(p, t.acceleration, x) == Fastest(t, x)
  }

  /** The profile brakes as hard as it can, to rest or through the whole block. */
  ghost predicate Brakes(p: Profile, t: Leg) {
    && WellShaped(p, t.acceleration, t.millimeters) && p.ramp == Decel
    && (p.mmComplete == 0.0 || p.exitSpeed == 0.0)
    && forall x :: SpeedSqrAt(p, t.acceleration, x) == t.entrySqr - Gained(t.acceleration, t.millimeters - x)
  }

  // ---------------------------------------------------------------------------
  // Each kind of profile is the fastest
  // ---------------------------------------------------------------------------

  lemma TrapezoidFastest(p: Profile, t: Leg)
    requires Plannable(t) && t.entrySqr <= Square(t.nominal) && (p.ramp == Accel || p.ramp == Cruise)
    requires p.mmComplete == 0.0 && p.exitSpeed >= 0.0 && Square(p.exitSpeed) == t.exitSqr
             && p.maximumSpeed == t.nominal
    requires Gained(t.acceleration, p.decelerateAfter) == Square(t.nominal) - t.exitSqr
    requires Gained(t.acceleration, t.millimeters - p.accelerateUntil) == Square(t.nominal) - t.entrySqr
    requires p.decelerateAfter <= p.accelerateUntil
    requires p.ramp == Cruise ==> t.entrySqr == Square(t.nominal) && p.accelerateUntil == t.millimeters
    ensures IsFastest(p, t)
  {
    var a, mm := t.acceleration, t.millimeters;
    hide Square, Gained;
    GainedMonotonic(a, 0.0, mm - p.accelerateUntil);
    GainedMonotonic(a, 0.0, p.decelerateAfter);
    GainedMonotonic(a, mm - p.accelerateUntil, 0.0);
    GainedMonotonic(a, p.decelerateAfter, 0.0);
    GainedSum(a, 0.0, 0.0);
    forall x | 0.0 <= x <= mm ensures SpeedSqrAt(p, a, x) == Fastest(t, x) {
      Distances(a, mm, x, p.accelerateUntil, p.decelerateAfter);
    }
  }

  /** The squared speeds that the distances in a block stand for are ordered and add up as they do. */
  lemma Distances(a: real, mm: real, x: real, until: real, after: real)
    requires a > 0.0
    ensures Gained(a, mm - x) == Gained(a, mm) - Gained(a, x)
    ensures Gained(a, mm - until) == Gained(a, mm) - Gained(a, until)
    ensures Gained(a, x - until) == Gained(a, x) - Gained(a, until)
    ensures x <= until <==> Gained(a, x) <= Gained(a, until)
    ensures x <= after <==> Gained(a, x) <= Gained(a, after)
    ensures until <= x <==> Gained(a, until) <= Gained(a, x)
    ensures after <= x <==> Gained(a, after) <= Gained(a, x)
  {
    hide Gained;
    GainedSum(a, mm, x);
    GainedSum(a, mm, until);
    GainedSum(a, x, until);
    GainedMonotonic(a, x, until);
    GainedMonotonic(a, until, x);
    GainedMonotonic(a, x, after);
    GainedMonotonic(a, after, x);
  }

  lemma TriangleFastest(p: Profile, t: Leg)
    requires Plannable(t) && t.entrySqr <= Square(t.nominal) && p.ramp == Accel
    requires p.mmComplete == 0.0 && p.exitSpeed >= 0.0 && Square(p.exitSpeed) == t.exitSqr && p.maximumSpeed > 0.0
    requires p.accelerateUntil == p.decelerateAfter && 0.0 < p.accelerateUntil < t.millimeters
    requires Square(p.maximumSpeed) == t.exitSqr + Gained(t.acceleration, p.decelerateAfter) <= Square(t.nominal)
    requires Square(p.maximumSpeed) == t.entrySqr + Gained(t.acceleration, t.millimeters - p.accelerateUntil)
    ensures IsFastest(p, t)
  {
    var a, mm := t.acceleration, t.millimeters;
    hide Square, Gained;
    forall x | 0.0 <= x <= mm ensures SpeedSqrAt(p, a, x) == Fastest(t, x) {
      Distances(a, mm, x, p.accelerateUntil, p.decelerateAfter);
    }
  }

  lemma DecelerationFastest(p: Profile, t: Leg)
    requires Plannable(t) && p.ramp == Decel
    requires t.entrySqr <= Square(t.nominal) || t.exitSqr == Square(t.nominal)
    requires p.mmComplete == 0.0 && p.exitSpeed >= 0.0 && Square(p.exitSpeed) == t.exitSqr
    requires t.entrySqr == t.exitSqr + Gained(t.acceleration, t.millimeters)
    ensures IsFastest(p, t)
  {
    var a, mm := t.acceleration, t.millimeters;
    hide Square, Gained;
    GainedSum(a, 0.0, 0.0);
    forall x | 0.0 <= x <= mm ensures SpeedSqrAt(p, a, x) == Fastest(t, x) {
      Distances(a, mm, x, mm, 0.0);
    }
  }

  lemma AccelerationFastest(p: Profile, t: Leg)
    requires Plannable(t) && t.entrySqr <= Square(t.nominal) && p.ramp == Accel
    requires p.mmComplete == 0.0 && p.exitSpeed >= 0.0 && Square(p.exitSpeed) == t.exitSqr
    requires p.accelerateUntil == 0.0 && p.maximumSpeed == p.exitSpeed
    requires t.exitSqr == t.entrySqr + Gained(t.acceleration, t.millimeters)
    ensures IsFastest(p, t)
  {
    var a, mm := t.acceleration, t.millimeters;
    GainedMonotonic(a, 0.0, mm);
    assert p.maximumSpeed > 0.0;
    hide Square, Gained;
    GainedSum(a, 0.0, 0.0);
    forall x | 0.0 <= x <= mm ensures SpeedSqrAt(p, a, x) == Fastest(t, x) {
      Distances(a, mm, x, 0.0, mm);
    }
  }

  lemma OverrideFastest(p: Profile, t: Leg)
    requires Plannable(t) && t.entrySqr > Square(t.nominal) && p.ramp == DecelOverride
    requires p.mmComplete == 0.0 && p.exitSpeed >= 0.0 && Square(p.exitSpeed) == t.exitSqr
             && p.maximumSpeed == t.nominal
    requires Gained(t.acceleration, p.decelerateAfter) == Square(t.nominal) - t.exitSqr
    requires Gained(t.acceleration, t.millimeters - p.accelerateUntil) == t.entrySqr - Square(t.nominal)
    requires p.accelerateUntil > 0.0
    ensures IsFastest(p, t)
  {
    var a, mm := t.acceleration, t.millimeters;
    hide Square, Gained;
    GainedSum(a, 0.0, 0.0);
    Distances(a, mm, 0.0, p.accelerateUntil, p.decelerateAfter);
    Distances(a, mm, p.decelerateAfter, p.accelerateUntil, mm);
    Distances(a, mm, mm, p.accelerateUntil, mm);
    forall x | 0.0 <= x <= mm ensures SpeedSqrAt(p, a, x) == Fastest(t, x) {
      Distances(a, mm, x, p.accelerateUntil, p.decelerateAfter);
    }
  }

  lemma HoldBrakes(p: Profile, t: Leg)
    requires Moving(t) && p.ramp == Decel && 0.0 <= p.mmComplete <= t.millimeters && p.exitSpeed >= 0.0
    requires p.mmComplete == 0.0 || p.exitSpeed == 0.0
    requires Square(p.exitSpeed) == t.entrySqr - Gained(t.acceleration, t.millimeters - p.mmComplete)
    ensures Brakes(p, t)
  {
    var a, mm := t.acceleration, t.millimeters;
    hide Square, Gained;
    forall x ensures SpeedSqrAt(p, a, x) == t.entrySqr - Gained(a, mm - x) {
      Distances(a, mm, x, p.mmComplete, 0.0);
    }
  }

  // ---------------------------------------------------------------------------
  // The branches of st_prep_buffer
  // ---------------------------------------------------------------------------

  /** The distance over which acceleration makes a difference `d` of squared speeds. */
  function DistanceFor(a: real, d: real): real
    requires a > 0.0
  {
    0.5 / a * d
  }

  lemma DistanceForExact(a: real, d: real)
    requires a > 0.0
    ensures Gained(a, DistanceFor(a, d)) == d
    ensures d >= 0.0 <==> DistanceFor(a, d) >= 0.0
  {
    GainedInverse(a, d);
  }

  /** Forced deceleration: a feed hold in progress. */
  method HoldProfile(before: Profile, t: Leg, root: real -> real) returns (p: Profile)
    requires Moving(t) && IsRoot(root)
    ensures Brakes(p, t) && p.currentSpeed == before.currentSpeed
  {
    hide IsRoot, Square, Gained, DistanceFor, Brakes;
    var a, mm := t.acceleration, t.millimeters;
    p := before.(mmComplete := 0.0, ramp := Decel);
    DistanceForExact(a, t.entrySqr);
    var decelDist := mm - DistanceFor(a, t.entrySqr);
    GainedSum(a, mm, 0.0);
    GainedMonotonic(a, mm, DistanceFor(a, t.entrySqr));
    RootOfZero();
    if decelDist < 0.0 {
      var exitSpeed := TakeRoot(t.entrySqr - Gained(a, mm), root);
      p := p.(exitSpeed := exitSpeed);
    } else {
      p := p.(mmComplete := decelDist, exitSpeed := 0.0);
    }
    HoldBrakes(p, t);
  }

  lemma RootOfZero()
    ensures Square(0.0) == 0.0
  {
  }

  /** What the two distances computed for a profile stand for. */
  lemma Meeting(t: Leg, intersect: real, after: real)
    requires Plannable(t)
    requires intersect == 0.5 * (t.millimeters + DistanceFor(t.acceleration, t.entrySqr - t.exitSqr))
    requires after == DistanceFor(t.acceleration, Square(t.nominal) - t.exitSqr)
    ensures 2.0 * Gained(t.acceleration, intersect) == Gained(t.acceleration, t.millimeters) + t.entrySqr - t.exitSqr
    ensures Gained(t.acceleration, after) == Square(t.nominal) - t.exitSqr
    ensures intersect <= 0.0 ==> t.exitSqr == t.entrySqr + Gained(t.acceleration, t.millimeters)
    ensures intersect >= t.millimeters ==> t.entrySqr == t.exitSqr + Gained(t.acceleration, t.millimeters)
    ensures after < intersect <==> Gained(t.acceleration, after) < Gained(t.acceleration, intersect)
  {
    var a, mm, d := t.acceleration, t.millimeters, DistanceFor(t.acceleration, t.entrySqr - t.exitSqr);
    DistanceForExact(a, t.entrySqr - t.exitSqr);
    DistanceForExact(a, Square(t.nominal) - t.exitSqr);
    hide Square, Gained, DistanceFor;
    GainedSum(a, intersect, intersect);
    GainedSum(a, mm, d);
    assert intersect + intersect == mm + d;
    GainedSum(a, 0.0, 0.0);
    GainedMonotonic(a, intersect, 0.0);
    GainedMonotonic(a, mm, intersect);
    GainedMonotonic(a, after, intersect);
    GainedMonotonic(a, intersect, after);
  }

  /** Deceleration override: the block is entered faster than it may now run. */
  method OverrideProfile(before: Profile, t: Leg, root: real -> real) returns (p: Profile, recalculate: bool)
    requires Plannable(t) && IsRoot(root) && t.entrySqr > Square(t.nominal)
    requires before.mmComplete == 0.0 && before.exitSpeed >= 0.0 && Square(before.exitSpeed) == t.exitSqr
    ensures IsFastest(p, t) && p.currentSpeed == before.currentSpeed
    ensures recalculate ==> t.exitSqr == Square(t.nominal)
  {
    hide IsRoot, Square, Gained, DistanceFor, IsFastest;
    var a, mm := t.acceleration, t.millimeters;
    var until := mm - DistanceFor(a, t.entrySqr - Square(t.nominal));
    DistanceForExact(a, t.entrySqr - Square(t.nominal));
    DistanceForExact(a, Square(t.nominal) - t.exitSqr);
    GainedMonotonic(a, mm, mm - until);
    SquareSign(t.nominal);
    recalculate := false;
    if until <= 0.0 {
      var exitSpeed := TakeRoot(t.entrySqr - Gained(a, mm), root);
      p := before.(accelerateUntil := until, ramp := Decel, exitSpeed := exitSpeed);
      recalculate := true;
      DecelerationFastest(p, t);
    } else {
      p := before.(accelerateUntil := until, decelerateAfter := DistanceFor(a, Square(t.nominal) - t.exitSqr),
                   maximumSpeed := t.nominal, ramp := DecelOverride);
      OverrideFastest(p, t);
    }
  }

  /** Trapezoid, triangle, and what they degenerate to. */
  method PlannedProfile(before: Profile, t: Leg, root: real -> real) returns (p: Profile)
    requires Plannable(t) && IsRoot(root) && t.entrySqr <= Square(t.nominal)
    requires before.mmComplete == 0.0 && before.exitSpeed >= 0.0 && Square(before.exitSpeed) == t.exitSqr
    requires before.ramp == Accel && before.accelerateUntil == t.millimeters
    ensures IsFastest(p, t) && p.currentSpeed == before.currentSpeed
  {
    hide IsRoot, Square, Gained, DistanceFor, IsFastest;
    var a, mm := t.acceleration, t.millimeters;
    var intersect := 0.5 * (mm + DistanceFor(a, t.entrySqr - t.exitSqr));
    Meeting(t, intersect, DistanceFor(a, Square(t.nominal) - t.exitSqr));
    if intersect > 0.0 {
      if intersect < mm {
        p := before.(decelerateAfter := DistanceFor(a, Square(t.nominal) - t.exitSqr));
        if p.decelerateAfter < intersect {
          p := Trapezoid(p, t);
        } else {
          p := Triangle(p, t, intersect, root);
        }
      } else {
        p := before.(ramp := Decel);
        DecelerationFastest(p, t);
      }
    } else {
      p := before.(accelerateUntil := 0.0, maximumSpeed := before.exitSpeed);
      AccelerationFastest(p, t);
    }
  }

  method Trapezoid(before: Profile, t: Leg) returns (p: Profile)
    requires Plannable(t) && t.entrySqr <= Square(t.nominal)
    requires before.mmComplete == 0.0 && before.exitSpeed >= 0.0 && Square(before.exitSpeed) == t.exitSqr
    requires before.ramp == Accel && before.accelerateUntil == t.millimeters
    requires Gained(t.acceleration, before.decelerateAfter) == Square(t.nominal) - t.exitSqr
    requires 2.0 * Gained(t.acceleration, before.decelerateAfter) <
             Gained(t.acceleration, t.millimeters) + t.entrySqr - t.exitSqr
    ensures IsFastest(p, t) && p.currentSpeed == before.currentSpeed
  {
    hide Square, Gained, DistanceFor, IsFastest;
    var a, mm := t.acceleration, t.millimeters;
    p := before.(maximumSpeed := t.nominal);
    DistanceForExact(a, Square(t.nominal) - t.entrySqr);
    GainedSum(a, mm, mm);
    if t.entrySqr == Square(t.nominal) {
      p := p.(ramp := Cruise);
    } else {
      p := p.(accelerateUntil := p.accelerateUntil - DistanceFor(a, Square(t.nominal) - t.entrySqr));
      GainedSum(a, mm, p.accelerateUntil);
    }
    GainedMonotonic(a, p.accelerateUntil, p.decelerateAfter);
    TrapezoidFastest(p, t);
  }

  method Triangle(before: Profile, t: Leg, intersect: real, root: real -> real) returns (p: Profile)
    requires Plannable(t) && t.entrySqr <= Square(t.nominal) && IsRoot(root) && 0.0 < intersect < t.millimeters
    requires before.mmComplete == 0.0 && before.exitSpeed >= 0.0 && Square(before.exitSpeed) == t.exitSqr
             && before.ramp == Accel
    requires 2.0 * Gained(t.acceleration, intersect) == Gained(t.acceleration, t.millimeters) + t.entrySqr - t.exitSqr
    requires Gained(t.acceleration, intersect) <= Square(t.nominal) - t.exitSqr
    ensures IsFastest(p, t) && p.currentSpeed == before.currentSpeed
  {
    hide Square, Gained, DistanceFor, IsFastest, IsRoot;
    var a, mm := t.acceleration, t.millimeters;
    GainedMonotonic(a, 0.0, intersect);
    GainedSum(a, mm, intersect);
    var maximum := TakeRoot(Gained(a, intersect) + t.exitSqr, root);
    p := before.(accelerateUntil := intersect, decelerateAfter := intersect, maximumSpeed := maximum);
    TriangleFastest(p, t);
  }

  /** The velocity profile of a new planner block, or of the rest of one that has been
      re-planned; in a hold it is overridden by forced deceleration. */
  method ComputeProfile(before: Profile, t: Leg, hold: bool, root: real -> real)
    returns (p: Profile, recalculate: bool)
    requires Moving(t) && (!hold ==> Plannable(t)) && IsRoot(root)
    ensures p.currentSpeed == before.currentSpeed
    ensures if hold then Brakes(p, t) else IsFastest(p, t)
    ensures recalculate ==> !hold && t.entrySqr > Square(t.nominal) == t.exitSqr
  {
    hide IsRoot, Square, Gained, DistanceFor, Brakes, IsFastest;
    recalculate := false;
    if hold {
      p := HoldProfile(before, t, root);
    } else {
      var exitSpeed := TakeRoot(t.exitSqr, root);
      p := before.(mmComplete := 0.0, ramp := Accel, accelerateUntil := t.millimeters, exitSpeed := exitSpeed);
      if t.entrySqr > Square(t.nominal) {
        p, recalculate := OverrideProfile(p, t, root);
      } else {
        p := PlannedProfile(p, t, root);
      }
    }
  }
}
