/** Cutting the velocity profile into segments: the do-while loop of `st_prep_buffer`, and the
    count of the steps in a segment. */
module SegmentBuilder {
  import opened NutsBolts
  import opened Kinematics
  import opened VelocityProfile
  import opened SegmentTime

  const REQ_MM_INCREMENT_SCALAR := 1.25

  /** The two profiles differ at most in the ramp they have reached and in present speed. */
  predicate SameShape(p: Profile, q: Profile) {
    q == p.(ramp := q.ramp, currentSpeed := q.currentSpeed)
  }

  /** `mm` from the end of the block the speed is that of the ramp the profile is in; at the end
      of the profile it is the exit speed. */
  ghost predicate OnCurve(p: Profile, a: real, mm: real) {
    && p.currentSpeed >= 0.0 && p.mmComplete <= mm
    && if mm == p.mmComplete then p.currentSpeed == p.exitSpeed
       else WellShaped(p, a, mm) && Square(p.currentSpeed) == SpeedSqrAt(p, a, mm)
  }

  /** The time `t` over the distance `x` at the mean of two speeds. */
  ghost predicate Covers(t: real, v: real, w: real, x: real) {
    Times(t, v + w) == 2.0 * x
  }

  function Rank(r: Ramp): nat {
    match r
    case DecelOverride => 2
    case Accel => 2
    case Cruise => 1
    case Decel => 0
  }

  /** One pass ends the profile, moves on to a later ramp, or (over a full time step) moves at
      least `stride` nearer the end. */
  ghost predicate Progress(p: Profile, q: Profile, mm: real, mm': real, timeVar: real, stride: real) {
    || mm' == p.mmComplete
    || Rank(q.ramp) < Rank(p.ramp)
    || (q.ramp == p.ramp && (timeVar == DT_SEGMENT ==> mm' + stride <= mm))
  }

  /** What a pass does to profile, distance and time. */
  ghost predicate Passed(p: Profile, a: real, mm: real, timeVar: real, q: Profile, mm': real, stride: real) {
    && SameShape(p, q) && OnCurve(q, a, mm')
    && Progress(p, q, mm, mm', timeVar, stride)
    && (timeVar > 0.0 ==> mm' <= mm)
  }

  lemma AtEnd(p: Profile, a: real, mm: real)
    requires WellShaped(p, a, mm) && a > 0.0
    ensures SpeedSqrAt(p, a, p.mmComplete) == Square(p.exitSpeed)
  {
    hide Square, Gained;
    GainedSum(a, 0.0, 0.0);
    GainedSum(a, p.mmComplete, p.mmComplete);
  }

  /** A first ramp without another to follow ends the block. */
  lemma PeakAtEnd(p: Profile, a: real, mm: real)
    requires WellShaped(p, a, mm) && a > 0.0 && (p.ramp == Accel || p.ramp == DecelOverride) && p.accelerateUntil == 0.0
    ensures p.maximumSpeed == p.exitSpeed
  {
    hide Square, Gained;
    GainedSum(a, 0.0, 0.0);
    if !PureAcceleration(p) {
      SquareMonotonic(p.maximumSpeed, p.exitSpeed);
    }
  }

  /** The acceleration ramp ends. */
  lemma AccelEnds(p: Profile, q: Profile, a: real, mm: real)
    requires a > 0.0 && p.ramp == Accel && OnCurve(p, a, mm) && p.mmComplete < mm
    requires q == p.(ramp := q.ramp, currentSpeed := p.maximumSpeed)
    requires q.ramp == if p.accelerateUntil == p.decelerateAfter then Decel else Cruise
    ensures OnCurve(q, a, p.accelerateUntil)
  {
    hide Square, Gained;
    if p.accelerateUntil == 0.0 {
      PeakAtEnd(p, a, mm);
    }
  }

  lemma AccelGoesOn(p: Profile, a: real, mm: real, t: real)
    requires a > 0.0 && p.ramp == Accel && OnCurve(p, a, mm) && p.mmComplete < mm && t > 0.0
    requires mm - AccelDistance(p.currentSpeed, a, t) >= p.accelerateUntil
    ensures OnCurve(p.(currentSpeed := p.currentSpeed + a * t), a, mm - AccelDistance(p.currentSpeed, a, t))
    ensures mm - AccelDistance(p.currentSpeed, a, t) + LeastStep(a, t) <= mm
  {
    var mm', w := mm - AccelDistance(p.currentSpeed, a, t), p.currentSpeed + a * t;
    AccelMoves(p.currentSpeed, a, t);
    AccelLaw(p.currentSpeed, a, t);
    LeastStepPositive(a, t);
    hide Square, Gained, LeastStep, AccelDistance;
    GainedSum(a, mm, p.accelerateUntil);
    GainedSum(a, mm', p.accelerateUntil);
    GainedSum(a, mm, AccelDistance(p.currentSpeed, a, t));
    GainedSum(a, 0.0, 0.0);
    var q := p.(currentSpeed := w);
    assert Square(w) == SpeedSqrAt(q, a, mm') by {
      if mm == p.accelerateUntil || mm' == p.accelerateUntil {
        PeakReached(p, a);
      }
    }
    if mm' == p.mmComplete {
      PeakAtEnd(p, a, mm);
      SquareMonotonic(w, p.maximumSpeed);
    }
  }

  /** At the end of the acceleration ramp the profile is at its maximum speed. */
  lemma PeakReached(p: Profile, a: real)
    requires a > 0.0 && p.ramp == Accel && exists mm :: WellShaped(p, a, mm)
    ensures SpeedSqrAt(p, a, p.accelerateUntil) == Square(p.maximumSpeed)
  {
    hide Square, Gained;
    GainedSum(a, 0.0, 0.0);
  }

  /** The speed still to be gained, over the distance still to be covered. */
  lemma AccelToPeak(p: Profile, a: real, mm: real)
    requires a > 0.0 && p.ramp == Accel && OnCurve(p, a, mm) && p.mmComplete < mm
    ensures Square(p.maximumSpeed) - Square(p.currentSpeed) == Gained(a, mm - p.accelerateUntil)
  {
    hide Square, Gained;
    PeakReached(p, a);
    GainedSum(a, mm, mm);
  }

  /** What a pass counts for a full time step in the first ramp. */
  lemma StepCounts(p: Profile, q: Profile, a: real, from: real, mm: real, mm': real)
    requires a > 0.0 && FirstRamp(p.ramp) && OnCurve(p, a, mm) && p.mmComplete < mm
    requires q == p.(currentSpeed := SpeedAfter(p, a, DT_SEGMENT)) && OnCurve(q, a, mm') && p.accelerateUntil <= mm'
    ensures Counts(p, q, a, from, mm, mm', DT_SEGMENT)
  {
    QuotientSum(p.maximumSpeed, p.currentSpeed, a);
    QuotientSum(p.maximumSpeed, q.currentSpeed, a);
    QuotientSum(p.currentSpeed, a * DT_SEGMENT, a);
    QuotientTime(a, DT_SEGMENT);
    QuotientSum(q.currentSpeed, p.maximumSpeed, a);
    QuotientSum(p.currentSpeed, p.maximumSpeed, a);
    hide Square, Gained, Quotient;
    if mm' == p.mmComplete {
      PeakAtEnd(p, a, mm);
    }
  }

  lemma QuotientTime(a: real, t: real)
    requires a > 0.0
    ensures Quotient(a * t, a) == t
  {
    assert a * t / a == t;
  }

  /** And for its end: the time of what was left of it, and of the way before it. */
  lemma RampEndCounts(p: Profile, q: Profile, a: real, from: real, mm: real, t: real)
    requires a > 0.0 && FirstRamp(p.ramp) && OnCurve(p, a, mm) && p.mmComplete < mm
    requires q == p.(ramp := q.ramp, currentSpeed := p.maximumSpeed)
    requires q.ramp == Cruise || (q.ramp == Decel && p.accelerateUntil == p.decelerateAfter)
    requires t == 2.0 * (from - p.accelerateUntil) / (p.currentSpeed + p.maximumSpeed)
    requires if p.ramp == Accel
             then Square(p.maximumSpeed) - Square(p.currentSpeed) == Gained(a, mm - p.accelerateUntil)
             else Square(p.currentSpeed) - Square(p.maximumSpeed) == Gained(a, mm - p.accelerateUntil)
    ensures Counts(p, q, a, from, mm, p.accelerateUntil, t)
  {
    hide Square, Gained, SpeedSqrAt;
    var v, w, u := p.currentSpeed, p.maximumSpeed, p.accelerateUntil;
    assert t == Quotient(2.0 * (from - u), v + w);
    QuotientSum(2.0 * (from - mm), 2.0 * (mm - u), v + w);
    if p.ramp == Accel {
      MeanTime(a, v, w, mm - u);
    } else {
      MeanTime(a, w, v, mm - u);
    }
    QuotientSum(0.0, 0.0, p.maximumSpeed);
    hide Quotient;
    if u == 0.0 {
      PeakAtEnd(p, a, mm);
    }
  }

  method AccelPass(p: Profile, a: real, from: real, mm: real, timeVar: real)
    returns (q: Profile, mm': real, t: real)
    requires a > 0.0 && p.ramp == Accel && OnCurve(p, a, mm) && p.mmComplete < mm <= from && timeVar == DT_SEGMENT
    ensures Passed(p, a, mm, timeVar, q, mm', LeastStep(a, DT_SEGMENT)) && t >= 0.0 && (mm' < mm ==> t > 0.0)
    ensures q.ramp == Accel ==> t == timeVar && Covers(t, p.currentSpeed, q.currentSpeed, mm - mm')
    ensures q.ramp != Accel ==> mm' == p.accelerateUntil && Covers(t, p.currentSpeed, q.currentSpeed, from - mm')
    ensures q.ramp == Decel ==> p.accelerateUntil == p.decelerateAfter
    ensures q.ramp != DecelOverride
    ensures StepsOn(p, q, a, mm, mm') && Counts(p, q, a, from, mm, mm', t)
  {
    hide Square, Gained, LeastStep, SpeedSqrAt, TimeLeft, AccelDistance;
    var speedVar := a * timeVar;
    ElapsedMore(0);
    mm', t, q := mm - AccelDistance(p.currentSpeed, a, timeVar), timeVar, p;
    if mm' < p.accelerateUntil {
      mm' := p.accelerateUntil;
      t := 2.0 * (from - mm') / (p.currentSpeed + p.maximumSpeed);
      MeanSpeedTime(t, from - mm', p.currentSpeed, p.maximumSpeed);
      q := q.(ramp := if mm' == p.decelerateAfter then Decel else Cruise);
      q := q.(currentSpeed := p.maximumSpeed);
      AccelEnds(p, q, a, mm);
      AccelToPeak(p, a, mm);
      RampEndCounts(p, q, a, from, mm, t);
    } else {
      q := q.(currentSpeed := p.currentSpeed + speedVar);
      AccelGoesOn(p, a, mm, timeVar);
      LeastStepPositive(a, timeVar);
      AccelTime(p.currentSpeed, a, timeVar);
      StepCounts(p, q, a, from, mm, mm');
    }
  }

  lemma MeanSpeedTime(t: real, x: real, v: real, w: real)
    requires v + w > 0.0 && t == 2.0 * x / (v + w)
    ensures Covers(t, v, w, x)
    ensures x >= 0.0 ==> t >= 0.0
    ensures x > 0.0 ==> t > 0.0
  {
    var d := v + w;
    assert t * d == 2.0 * x;
    if x > 0.0 && t <= 0.0 {
      NonnegativeProduct(-t, d);
    } else if x == 0.0 {
      assert t == 0.0;
    }
  }

  lemma AccelTime(v: real, a: real, t: real)
    ensures Covers(t, v, v + a * t, AccelDistance(v, a, t))
  {
    var w := a * t;
    assert 2.0 * (t * (v + 0.5 * w)) == t * (v + (v + w));
  }

  lemma OverrideEnds(p: Profile, a: real, mm: real)
    requires a > 0.0 && p.ramp == DecelOverride && OnCurve(p, a, mm) && p.mmComplete < mm
    ensures OnCurve(p.(ramp := Cruise, currentSpeed := p.maximumSpeed), a, p.accelerateUntil)
  {
    hide Square, Gained;
    if p.accelerateUntil == 0.0 {
      PeakAtEnd(p, a, mm);
    }
  }

  lemma OverrideGoesOn(p: Profile, a: real, mm: real, t: real)
    requires a > 0.0 && p.ramp == DecelOverride && OnCurve(p, a, mm) && p.mmComplete < mm && t > 0.0
    requires p.currentSpeed - p.maximumSpeed > a * t
    ensures OnCurve(p.(currentSpeed := p.currentSpeed - a * t), a, mm - DecelDistance(p.currentSpeed, a, t))
    ensures mm - DecelDistance(p.currentSpeed, a, t) + LeastStep(a, t) <= mm
    ensures mm - DecelDistance(p.currentSpeed, a, t) > p.accelerateUntil
  {
    var d, w := DecelDistance(p.currentSpeed, a, t), p.currentSpeed - a * t;
    var mm' := mm - d;
    DecelMoves(p.currentSpeed, a, t);
    DecelLaw(p.currentSpeed, a, t);
    hide Square, Gained, LeastStep, DecelDistance;
    SquareMonotonic(p.maximumSpeed, w);
    GainedSum(a, mm, p.accelerateUntil);
    GainedSum(a, mm', p.accelerateUntil);
    GainedSum(a, mm, d);
    GainedSum(a, 0.0, 0.0);
    GainedMonotonic(a, mm', p.accelerateUntil);
    PeakReachedFromAbove(p, a, mm);
  }

  lemma PeakReachedFromAbove(p: Profile, a: real, mm: real)
    requires a > 0.0 && p.ramp == DecelOverride && WellShaped(p, a, mm)
    ensures SpeedSqrAt(p, a, p.accelerateUntil) == Square(p.maximumSpeed)
  {
    hide Square, Gained;
  }

  lemma OverrideToPeak(p: Profile, a: real, mm: real)
    requires a > 0.0 && p.ramp == DecelOverride && OnCurve(p, a, mm) && p.mmComplete < mm
    ensures Square(p.currentSpeed) - Square(p.maximumSpeed) == Gained(a, mm - p.accelerateUntil)
  {
    hide Square, Gained;
    PeakReachedFromAbove(p, a, mm);
    GainedSum(a, mm, mm);
  }

  method OverridePass(p: Profile, a: real, from: real, mm: real, timeVar: real)
    returns (q: Profile, mm': real, t: real)
    requires a > 0.0 && p.ramp == DecelOverride && OnCurve(p, a, mm) && p.mmComplete < mm <= from
             && timeVar == DT_SEGMENT
    ensures Passed(p, a, mm, timeVar, q, mm', LeastStep(a, DT_SEGMENT)) && t >= 0.0 && (mm' < mm ==> t > 0.0)
    ensures q.ramp == DecelOverride ==> t == timeVar && Covers(t, p.currentSpeed, q.currentSpeed, mm - mm')
    ensures q.ramp != DecelOverride ==>
              q.ramp == Cruise && mm' == p.accelerateUntil && Covers(t, p.currentSpeed, q.currentSpeed, from - mm')
    ensures StepsOn(p, q, a, mm, mm') && Counts(p, q, a, from, mm, mm', t)
  {
    hide Square, Gained, LeastStep, SpeedSqrAt, DecelDistance, TimeLeft;
    var speedVar := a * timeVar;
    ElapsedMore(0);
    mm', t, q := mm, timeVar, p;
    if p.currentSpeed - p.maximumSpeed <= speedVar {
      mm' := p.accelerateUntil;
      t := 2.0 * (from - mm') / (p.currentSpeed + p.maximumSpeed);
      MeanSpeedTime(t, from - mm', p.currentSpeed, p.maximumSpeed);
      q := q.(ramp := Cruise);
      q := q.(currentSpeed := p.maximumSpeed);
      OverrideEnds(p, a, mm);
      OverrideToPeak(p, a, mm);
      RampEndCounts(p, q, a, from, mm, t);
    } else {
      mm' := mm' - DecelDistance(p.currentSpeed, a, timeVar);
      q := q.(currentSpeed := p.currentSpeed - speedVar);
      OverrideGoesOn(p, a, mm, timeVar);
      LeastStepPositive(a, timeVar);
      DecelTime(p.currentSpeed, a, timeVar);
      StepCounts(p, q, a, from, mm, mm');
    }
  }

  lemma DecelTime(v: real, a: real, t: real)
    ensures Covers(t, v, v - a * t, DecelDistance(v, a, t))
  {
    var w := a * t;
    assert 2.0 * (t * (v - 0.5 * w)) == t * (v + (v - w));
  }

  lemma CruiseEnds(p: Profile, a: real, mm: real)
    requires a > 0.0 && p.ramp == Cruise && OnCurve(p, a, mm) && p.mmComplete < mm
    ensures OnCurve(p.(ramp := Decel), a, p.decelerateAfter) && p.currentSpeed == p.maximumSpeed
    ensures p.decelerateAfter <= mm
  {
    hide Square, Gained;
    SquareMonotonic(p.currentSpeed, p.maximumSpeed);
    GainedSum(a, 0.0, 0.0);
    SquareMonotonic(p.maximumSpeed, p.exitSpeed);
  }

  lemma CruiseGoesOn(p: Profile, a: real, mm: real, mm': real)
    requires a > 0.0 && p.ramp == Cruise && OnCurve(p, a, mm) && p.mmComplete < mm && p.decelerateAfter <= mm'
    ensures OnCurve(p, a, mm')
  {
    CruiseEnds(p, a, mm);
    hide Square, Gained;
    GainedSum(a, 0.0, 0.0);
    SquareMonotonic(p.maximumSpeed, p.exitSpeed);
  }

  lemma CruiseCounts(p: Profile, q: Profile, a: real, mm: real, mm': real, t: real)
    requires a > 0.0 && p.ramp == Cruise && OnCurve(p, a, mm) && p.mmComplete < mm
             && t == Quotient(mm - mm', p.maximumSpeed)
    requires p.decelerateAfter <= mm' && (q == p || (q == p.(ramp := Decel) && mm' == p.decelerateAfter))
    ensures Counts(p, q, a, mm, mm, mm', t)
  {
    CruiseEnds(p, a, mm);
    QuotientSum(mm, p.decelerateAfter, p.maximumSpeed);
    QuotientSum(mm', p.decelerateAfter, p.maximumSpeed);
    QuotientSum(mm, mm', p.maximumSpeed);
    QuotientSum(0.0, 0.0, a);
    hide Square, Gained, Quotient, SpeedSqrAt;
    if mm' == p.mmComplete {
      GainedSum(a, 0.0, 0.0);
      SquareMonotonic(p.maximumSpeed, p.exitSpeed);
    }
  }

  method CruisePass(p: Profile, a: real, mm: real, timeVar: real)
    returns (q: Profile, mm': real, t: real)
    requires a > 0.0 && p.ramp == Cruise && OnCurve(p, a, mm) && p.mmComplete < mm
    ensures Passed(p, a, mm, timeVar, q, mm', Times(p.maximumSpeed, DT_SEGMENT))
    ensures Covers(t, p.currentSpeed, q.currentSpeed, mm - mm')
    ensures q.ramp == Cruise ==> t == timeVar && (mm' < mm ==> t > 0.0)
    ensures q.ramp != Cruise ==> q.ramp == Decel && mm' == p.decelerateAfter && t >= 0.0 && (mm' < mm ==> t > 0.0)
    ensures Counts(p, q, a, mm, mm, mm', t)
  {
    hide Square, Gained, SpeedSqrAt, TimeLeft;
    CruiseEnds(p, a, mm);
    CruiseTime(p.maximumSpeed, timeVar);
    var mmVar := mm - p.maximumSpeed * timeVar;
    mm', t, q := mm, timeVar, p;
    if mmVar < p.decelerateAfter {
      t := (mm - p.decelerateAfter) / p.maximumSpeed;
      SteadyTime(t, mm - p.decelerateAfter, p.maximumSpeed);
      mm' := p.decelerateAfter;
      q := q.(ramp := Decel);
      CruiseCounts(p, q, a, mm, mm', t);
    } else {
      CruiseGoesOn(p, a, mm, mmVar);
      mm' := mmVar;
      QuotientTime(p.maximumSpeed, timeVar);
      CruiseCounts(p, q, a, mm, mm', t);
    }
  }

  lemma CruiseTime(v: real, t: real)
    ensures Covers(t, v, v, v * t)
    ensures v > 0.0 ==> (t > 0.0 <==> v * t > 0.0)
    ensures v * t == Times(v, t)
  {
  }

  lemma SteadyTime(t: real, x: real, v: real)
    requires v > 0.0 && t == x / v
    ensures Covers(t, v, v, x)
    ensures x >= 0.0 ==> t >= 0.0
    ensures x > 0.0 ==> t > 0.0
  {
    MeanSpeedTime(t, x, v, v);
  }

  lemma DecelGoesOn(p: Profile, a: real, mm: real, t: real)
    requires a > 0.0 && p.ramp == Decel && OnCurve(p, a, mm) && p.currentSpeed > a * t
    requires mm - DecelDistance(p.currentSpeed, a, t) > p.mmComplete && p.mmComplete < mm
    ensures OnCurve(p.(currentSpeed := p.currentSpeed - a * t), a, mm - DecelDistance(p.currentSpeed, a, t))
    ensures t > 0.0 ==> mm - DecelDistance(p.currentSpeed, a, t) + LeastStep(a, t) <= mm
  {
    var d, w := DecelDistance(p.currentSpeed, a, t), p.currentSpeed - a * t;
    if t > 0.0 {
      DecelMoves(p.currentSpeed, a, t);
    }
    DecelLaw(p.currentSpeed, a, t);
    hide Square, Gained, LeastStep, DecelDistance;
    GainedSum(a, mm, p.mmComplete);
    GainedSum(a, mm - d, p.mmComplete);
    GainedSum(a, mm, d);
  }

  lemma DecelAdvances(v: real, a: real, t: real)
    requires a > 0.0 && v > a * t
    ensures t > 0.0 ==> DecelDistance(v, a, t) > 0.0
  {
    if t > 0.0 {
      DecelMoves(v, a, t);
      LeastStepPositive(a, t);
    }
  }

  /** The last stretch is covered at the mean of its end speeds. */
  lemma LastTime(p: Profile, a: real, mm: real)
    requires a > 0.0 && p.ramp == Decel && OnCurve(p, a, mm)
    ensures var t := Quotient(2.0 * (mm - p.mmComplete), p.currentSpeed + p.exitSpeed);
            && Covers(t, p.currentSpeed, p.exitSpeed, mm - p.mmComplete)
            && t >= 0.0 && (p.mmComplete < mm ==> t > 0.0)
  {
    var v, w, x := p.currentSpeed, p.exitSpeed, mm - p.mmComplete;
    if v + w == 0.0 {
      SquareMonotonic(v, w);
      hide Square, Gained;
      GainedSign(a, x);
    } else if v + w > 0.0 {
      MeanSpeedTime(2.0 * x / (v + w), x, v, w);
    }
  }

  lemma DecelCounts(p: Profile, q: Profile, a: real, mm: real, mm': real, t: real)
    requires a > 0.0 && p.ramp == Decel && p.mmComplete < mm && p.mmComplete < mm'
    requires q == p.(currentSpeed := p.currentSpeed - a * t)
    ensures Counts(p, q, a, mm, mm, mm', t)
  {
    QuotientTime(a, t);
    QuotientSum(p.currentSpeed, p.exitSpeed, a);
    QuotientSum(q.currentSpeed, p.exitSpeed, a);
    QuotientSum(p.currentSpeed, a * t, a);
    hide Quotient;
  }

  lemma LastCounts(p: Profile, a: real, mm: real)
    requires a > 0.0 && p.ramp == Decel && OnCurve(p, a, mm)
    ensures Counts(p, p.(currentSpeed := p.exitSpeed), a, mm, mm, p.mmComplete,
                   Quotient(2.0 * (mm - p.mmComplete), p.currentSpeed + p.exitSpeed))
  {
    hide Square, Gained;
    var v, w, x := p.currentSpeed, p.exitSpeed, mm - p.mmComplete;
    QuotientSum(v, w, a);
    QuotientSum(0.0, 0.0, v + w);
    if v + w > 0.0 && x > 0.0 {
      MeanTime(a, w, v, x);
    }
  }

  method DecelPass(p: Profile, a: real, mm: real, timeVar: real)
    returns (q: Profile, mm': real, t: real)
    requires a > 0.0 && p.ramp == Decel && OnCurve(p, a, mm) && (p.mmComplete < mm || timeVar > 0.0)
    ensures Passed(p, a, mm, timeVar, q, mm', LeastStep(a, DT_SEGMENT))
    ensures Covers(t, p.currentSpeed, q.currentSpeed, mm - mm')
    ensures mm' > p.mmComplete ==> t == timeVar
    ensures mm' == p.mmComplete ==> t >= 0.0 && (mm' < mm ==> t > 0.0)
    ensures q.ramp == Decel
    ensures Counts(p, q, a, mm, mm, mm', t)
  {
    hide Square, Gained, SpeedSqrAt, LeastStep, DecelDistance, TimeLeft;
    var speedVar := a * timeVar;
    q := p;
    if p.currentSpeed > speedVar {
      var mmVar := mm - DecelDistance(p.currentSpeed, a, timeVar);
      DecelAdvances(p.currentSpeed, a, timeVar);
      if mmVar > p.mmComplete {
        DecelTime(p.currentSpeed, a, timeVar);
        DecelGoesOn(p, a, mm, timeVar);
        mm', t := mmVar, timeVar;
        q := q.(currentSpeed := p.currentSpeed - speedVar);
        DecelCounts(p, q, a, mm, mm', t);
        return;
      }
    }
    LastTime(p, a, mm);
    LastCounts(p, a, mm);
    t := Quotient(2.0 * (mm - p.mmComplete), p.currentSpeed + p.exitSpeed);
    mm' := p.mmComplete;
    q := q.(currentSpeed := p.exitSpeed);
  }

  // ---------------------------------------------------------------------------
  // The loop
  // ---------------------------------------------------------------------------

  /** A profile that has left its first ramp has passed, or cannot end the segment before it
      passes, the distance at which that ramp ends. A step may for a moment lead backwards:
      the time of an acceleration over several passes is overestimated, and the difference is
      taken back. */
  ghost predicate Reached(p0: Profile, p: Profile, mm: real, minimumMm: real) {
    || p.ramp == p0.ramp
    || mm == p0.mmComplete
    || (Later(p0, p) && (mm <= RampStart(p0, p.ramp) || minimumMm < RampStart(p0, p.ramp)))
  }

  /** As above, at the head of the loop: time still to fill, or distance still to go. */
  ghost predicate Underway(p0: Profile, p: Profile, mm: real, minimumMm: real, timeVar: real) {
    || p.ramp == p0.ramp
    || (Later(p0, p) && ((timeVar > 0.0 && mm <= RampStart(p0, p.ramp)) || minimumMm < RampStart(p0, p.ramp)))
  }

  ghost predicate Later(p0: Profile, p: Profile) {
    && ((p.ramp == Cruise && FirstRamp(p0.ramp)) || (p.ramp == Decel && p0.ramp != Decel))
    && (FirstRamp(p0.ramp) ==> p0.accelerateUntil > 0.0)
  }

  /** The distance at which a later ramp begins. */
  function RampStart(p: Profile, r: Ramp): real {
    if r == Cruise then p.accelerateUntil else p.decelerateAfter
  }

  /** What holds whenever the loop starts a pass. */
  ghost predicate Ready(p0: Profile, p: Profile, a: real, mm0: real, mm: real, minimumMm: real, dt: real, dtMax: real,
                        timeVar: real) {
    && SameShape(p0, p) && OnCurve(p, a, mm) && Underway(p0, p, mm, minimumMm, timeVar)
    && (p.mmComplete < mm || (p.ramp == Decel && timeVar > 0.0))
    && (FirstRamp(p.ramp) ==> timeVar == DT_SEGMENT && mm <= mm0)
    && dt + timeVar == dtMax && dtMax >= DT_SEGMENT && dt >= 0.0
    && (mm < mm0 ==> dt > 0.0)
  }

  /** The least a pass over a full time step moves. */
  function Stride(maximumSpeed: real, a: real): (c: real)
    requires a > 0.0
    ensures c > 0.0
  {
    LeastStepPositive(a, DT_SEGMENT);
    if maximumSpeed > 0.0 then
      Product(maximumSpeed, DT_SEGMENT);
      Min(LeastStep(a, DT_SEGMENT), Times(maximumSpeed, DT_SEGMENT))
    else LeastStep(a, DT_SEGMENT)
  }

  /** What one pass leaves behind. */
  ghost predicate Turned(p: Profile, q: Profile, a: real, mm: real, mm': real, t: real, timeVar: real)
    requires a > 0.0
  {
    && Passed(p, a, mm, timeVar, q, mm', Stride(p.maximumSpeed, a))
    && (mm' > p.mmComplete && q.ramp == p.ramp ==> t == timeVar)
    && (q.ramp != p.ramp || mm' == p.mmComplete ==> t >= 0.0 && (mm' < mm ==> t > 0.0))
    && (q.ramp == p.ramp || (q.ramp == Cruise && FirstRamp(p.ramp) && mm' == p.accelerateUntil)
        || (q.ramp == Decel && p.ramp != Decel && mm' == p.decelerateAfter))
    && (FirstRamp(p.ramp) && q.ramp == Decel ==> mm' == p.accelerateUntil)
  }

  /** One pass of the loop: the switch over the ramp the profile is in. */
  method Pass(p: Profile, a: real, from: real, mm: real, timeVar: real) returns (q: Profile, mm': real, t: real)
    requires a > 0.0 && OnCurve(p, a, mm) && (p.mmComplete < mm || (p.ramp == Decel && timeVar > 0.0))
    requires FirstRamp(p.ramp) ==> timeVar == DT_SEGMENT && mm <= from
    ensures Turned(p, q, a, mm, mm', t, timeVar)
    ensures q.ramp == p.ramp ==> Covers(t, p.currentSpeed, q.currentSpeed, mm - mm')
    ensures q.ramp != p.ramp ==>
              Covers(t, p.currentSpeed, q.currentSpeed, (if FirstRamp(p.ramp) then from else mm) - mm')
    ensures StepsOn(p, q, a, mm, mm') && Counts(p, q, a, from, mm, mm', t)
  {
    hide Square, Gained, OnCurve, Covers, LeastStep, Times, TimeLeft, InRamp, Stepped, Quotient;
    RampsHaveSpeed(p, a, mm);
    match p.ramp
    case DecelOverride => q, mm', t := OverridePass(p, a, from, mm, timeVar);
    case Accel => q, mm', t := AccelPass(p, a, from, mm, timeVar);
    case Cruise => q, mm', t := CruisePass(p, a, mm, timeVar);
    case Decel => q, mm', t := DecelPass(p, a, mm, timeVar);
  }

  lemma RampsHaveSpeed(p: Profile, a: real, mm: real)
    requires OnCurve(p, a, mm) && (p.mmComplete < mm || p.ramp == Decel)
    ensures p.ramp != Decel ==> p.maximumSpeed > 0.0
  {
  }

  lemma PassReaches(p0: Profile, p: Profile, q: Profile, a: real, mm0: real, mm: real, mm': real, minimumMm: real,
                    dt: real, t: real, dtMax: real, timeVar: real)
    requires a > 0.0 && WellShaped(p0, a, mm0) && 0.0 <= minimumMm < mm0
    requires Ready(p0, p, a, mm0, mm, minimumMm, dt, dtMax, timeVar) && Turned(p, q, a, mm, mm', t, timeVar)
    ensures SameShape(p0, q) && OnCurve(q, a, mm') && Reached(p0, q, mm', minimumMm)
  {
    hide OnCurve, Square, Gained, Progress, Stride;
  }

  /** The loop goes on: more time to fill, or no whole step yet. */
  lemma LoopGoesOn(p0: Profile, p: Profile, q: Profile, a: real, mm0: real, mm: real, mm': real, minimumMm: real,
                   dt: real, t: real, dtMax: real, timeVar: real)
    requires a > 0.0 && WellShaped(p0, a, mm0) && 0.0 <= minimumMm < mm0
    requires Ready(p0, p, a, mm0, mm, minimumMm, dt, dtMax, timeVar) && Turned(p, q, a, mm, mm', t, timeVar)
    requires mm' > p.mmComplete
    ensures dt + t < dtMax ==> Ready(p0, q, a, mm0, mm', minimumMm, dt + t, dtMax, dtMax - (dt + t))
    ensures dt + t >= dtMax && mm' > minimumMm ==>
              Ready(p0, q, a, mm0, mm', minimumMm, dt + t, dtMax + DT_SEGMENT, dtMax + DT_SEGMENT - (dt + t))
    ensures q.ramp == p.ramp ==> dt + t == dtMax
    ensures mm' < mm0 ==> dt + t > 0.0
  {
    PassReaches(p0, p, q, a, mm0, mm, mm', minimumMm, dt, t, dtMax, timeVar);
    hide OnCurve, Square, Gained, Progress, Stride, WellShaped;
  }

  function Turns(p: Profile, a: real, mm: real): nat {
    if a > 0.0 then Passes(mm, Stride(p.maximumSpeed, a)) else 0
  }

  lemma TurnsDecrease(p: Profile, q: Profile, a: real, mm: real, mm': real, timeVar: real)
    requires a > 0.0 && SameShape(p, q) && Progress(p, q, mm, mm', timeVar, Stride(p.maximumSpeed, a))
    requires mm' > p.mmComplete >= 0.0
    ensures Rank(q.ramp) < Rank(p.ramp) || (q.ramp == p.ramp
                                            && (timeVar == DT_SEGMENT ==> Turns(q, a, mm') < Turns(p, a, mm)))
  {
    hide Stride, Passes;
    if Rank(q.ramp) >= Rank(p.ramp) && timeVar == DT_SEGMENT {
      PassesDecrease(mm, mm', Stride(p.maximumSpeed, a));
    }
  }

  /** A profile entered in a later ramp is the same profile from there on. */
  ghost predicate Agrees(p0: Profile, p: Profile, a: real, mm: real) {
    forall x :: p0.mmComplete <= x <= mm ==> SpeedSqrAt(p, a, x) == SpeedSqrAt(p0, a, x)
  }

  /** The segment that brings the block from `mm0` to `mm` before its end: it follows the
      profile it was given, and is long enough to hold a step unless the profile ends. */
  ghost predicate Cut(p0: Profile, p: Profile, a: real, mm0: real, mm: real, minimumMm: real) {
    && SameShape(p0, p) && p0.mmComplete <= mm <= mm0 && (mm == p0.mmComplete || mm <= minimumMm)
    && p.currentSpeed >= 0.0 && Square(p.currentSpeed) == SpeedSqrAt(p0, a, mm)
    && (mm == p0.mmComplete ==> p.currentSpeed == p0.exitSpeed)
    && (mm > p0.mmComplete ==> WellShaped(p, a, mm) && Agrees(p0, p, a, mm) && (p0.ramp == Decel ==> p.ramp == Decel))
  }

  lemma CutFollowsProfile(p0: Profile, p: Profile, a: real, mm0: real, mm: real, minimumMm: real)
    requires a > 0.0 && WellShaped(p0, a, mm0) && 0.0 <= minimumMm < mm0
    requires SameShape(p0, p) && OnCurve(p, a, mm) && Reached(p0, p, mm, minimumMm)
    requires mm == p.mmComplete || mm <= minimumMm
    ensures Cut(p0, p, a, mm0, mm, minimumMm)
  {
    hide Square, Gained;
    if mm == p.mmComplete {
      AtEnd(p0, a, mm0);
    } else {
      forall x | p0.mmComplete <= x <= mm ensures SpeedSqrAt(p, a, x) == SpeedSqrAt(p0, a, x) {
      }
    }
  }

  /** A profile starts on its own curve. */
  lemma StartOnCurve(p: Profile, a: real, mm: real)
    requires a > 0.0 && WellShaped(p, a, mm) && mm > 0.0 && p.currentSpeed >= 0.0
    requires Square(p.currentSpeed) == SpeedSqrAt(p, a, mm)
    ensures OnCurve(p, a, mm) && (p.mmComplete < mm || p.ramp == Decel)
  {
    hide Square, Gained;
    AtEnd(p, a, mm);
    if mm == p.mmComplete {
      SquareMonotonic(p.currentSpeed, p.exitSpeed);
    }
  }

  lemma LoopStarts(p0: Profile, a: real, mm0: real, minimumMm: real)
    requires a > 0.0 && WellShaped(p0, a, mm0) && 0.0 <= minimumMm < mm0
    requires p0.currentSpeed >= 0.0 && Square(p0.currentSpeed) == SpeedSqrAt(p0, a, mm0)
    ensures Ready(p0, p0, a, mm0, mm0, minimumMm, 0.0, DT_SEGMENT, DT_SEGMENT)
  {
    StartOnCurve(p0, a, mm0);
    hide Square, Gained, OnCurve, SpeedSqrAt, WellShaped;
  }

  /** One turn: either the loop goes on, nearer its end, or the segment is complete. */
  lemma Turn(p0: Profile, p: Profile, q: Profile, a: real, mm0: real, mm: real, mm': real, minimumMm: real,
             dt: real, t: real, dtMax: real, timeVar: real)
    requires a > 0.0 && WellShaped(p0, a, mm0) && 0.0 <= minimumMm < mm0
    requires Ready(p0, p, a, mm0, mm, minimumMm, dt, dtMax, timeVar) && Turned(p, q, a, mm, mm', t, timeVar)
    ensures mm' >= q.mmComplete
    ensures mm' > q.mmComplete ==>
              && (dt + t < dtMax ==> Ready(p0, q, a, mm0, mm', minimumMm, dt + t, dtMax, dtMax - (dt + t)))
              && (dt + t >= dtMax && mm' > minimumMm ==>
                    Ready(p0, q, a, mm0, mm', minimumMm, dt + t, dtMax + DT_SEGMENT, dtMax + DT_SEGMENT - (dt + t)))
              && (Rank(q.ramp) < Rank(p.ramp) ||
                  (q.ramp == p.ramp && dt + t == dtMax
                   && (timeVar == DT_SEGMENT ==> Turns(q, a, mm') < Turns(p, a, mm))))
    ensures mm' == q.mmComplete || mm' <= minimumMm ==> Cut(p0, q, a, mm0, mm', minimumMm)
    ensures mm' < mm0 ==> dt + t > 0.0
  {
    PassReaches(p0, p, q, a, mm0, mm, mm', minimumMm, dt, t, dtMax, timeVar);
    hide Square, Gained, SpeedSqrAt, Stride, Turns, Cut, Reached, Underway, Progress, Rank;
    if mm' > q.mmComplete {
      LoopGoesOn(p0, p, q, a, mm0, mm, mm', minimumMm, dt, t, dtMax, timeVar);
      TurnsDecrease(p, q, a, mm, mm', timeVar);
    }
    if mm' == q.mmComplete || mm' <= minimumMm {
      CutFollowsProfile(p0, q, a, mm0, mm', minimumMm);
    }
  }

  lemma StartTimed(p0: Profile, a: real, mm0: real, minimumMm: real)
    requires a > 0.0 && WellShaped(p0, a, mm0) && p0.currentSpeed >= 0.0
    ensures Timed(p0, p0, a, mm0, mm0, minimumMm, 0.0, 0)
    ensures Overtime(p0, a, mm0, minimumMm) >= 0.0
    ensures Overtime(p0, a, mm0, minimumMm) == 0.0 <==> !Late(p0, a, mm0, minimumMm)
    ensures !FirstRamp(p0.ramp) ==> Overtime(p0, a, mm0, minimumMm) == 0.0
  {
    assert !FirstRamp(p0.ramp) ==> !Late(p0, a, mm0, minimumMm);
    hide Timed, Overtime, Late, Square, Gained;
    TimedStart(p0, a, mm0, minimumMm);
    OvertimePositive(p0, a, mm0, minimumMm);
  }

  /** The time counted so far, over one turn. */
  lemma TurnTimed(p0: Profile, p: Profile, q: Profile, a: real, mm0: real, mm: real, mm': real, minimumMm: real,
                  dt: real, t: real, dtMax: real, timeVar: real, k: nat)
    requires a > 0.0 && WellShaped(p0, a, mm0) && 0.0 <= minimumMm < mm0 && p0.currentSpeed >= 0.0
    requires Ready(p0, p, a, mm0, mm, minimumMm, dt, dtMax, timeVar) && Turned(p, q, a, mm, mm', t, timeVar)
    requires Timed(p0, p, a, mm0, mm, minimumMm, dt, k)
    requires StepsOn(p, q, a, mm, mm') && Counts(p, q, a, mm0, mm, mm', t)
    ensures !FirstRamp(q.ramp) || mm' > minimumMm ==>
              Timed(p0, q, a, mm0, mm', minimumMm, dt + t, if FirstRamp(q.ramp) then k + 1 else k)
    ensures !FirstRamp(q.ramp) || mm' <= minimumMm || mm' <= q.mmComplete ==>
              && dt + t == TimeLeft(p0, a, mm0) - TimeLeft(q, a, mm') + Overtime(p0, a, mm0, minimumMm)
              && (FirstRamp(q.ramp) ==> FirstRamp(p0.ramp) && Overtime(p0, a, mm0, minimumMm) == 0.0)
  {
    hide TimeLeft, StepsOn, Counts, Overtime, Progress, InRamp, DistanceIn, SpeedAfter, Elapsed, OnCurve, Square,
         Gained, Underway, Stride;
    TimedTurn(p0, p, q, a, mm0, mm, mm', minimumMm, dt, t, k);
  }

  /** A new segment: the ramps of the profile are followed until the segment's time is up and
      it holds at least one step, or the profile ends. */
  method BuildSegment(p0: Profile, a: real, mm0: real, minimumMm: real) returns (p: Profile, mm: real, dt: real)
    requires a > 0.0 && WellShaped(p0, a, mm0) && 0.0 <= minimumMm < mm0
    requires p0.currentSpeed >= 0.0 && Square(p0.currentSpeed) == SpeedSqrAt(p0, a, mm0)
    ensures Cut(p0, p, a, mm0, mm, minimumMm)
    ensures (mm < mm0 ==> dt > 0.0) && (mm > p.mmComplete ==> dt >= DT_SEGMENT)
    ensures dt == TimeLeft(p0, a, mm0) - TimeLeft(p, a, mm) + Overtime(p0, a, mm0, minimumMm)
    ensures dt >= TimeLeft(p0, a, mm0) - TimeLeft(p, a, mm)
    ensures Overtime(p0, a, mm0, minimumMm) >= 0.0
    ensures !FirstRamp(p0.ramp) || FirstRamp(p.ramp) ==> Overtime(p0, a, mm0, minimumMm) == 0.0
    ensures FirstRamp(p.ramp) ==> FirstRamp(p0.ramp)
    ensures dt == TimeLeft(p0, a, mm0) - TimeLeft(p, a, mm) <==> !Late(p0, a, mm0, minimumMm)
  {
    LoopStarts(p0, a, mm0, minimumMm);
    StartTimed(p0, a, mm0, minimumMm);
    hide Turned, Ready, OnCurve, SpeedSqrAt, Turns, Cut, WellShaped, Square, Rank, TimeLeft, Timed, StepsOn, Counts,
         Overtime, Late;
    var dtMax := DT_SEGMENT;
    dt := 0.0;
    var timeVar := dtMax;
    mm, p := mm0, p0;
    ghost var k := 0;
    while true
      invariant Ready(p0, p, a, mm0, mm, minimumMm, dt, dtMax, timeVar)
      invariant Timed(p0, p, a, mm0, mm, minimumMm, dt, k)
      decreases Rank(p.ramp), if timeVar == DT_SEGMENT then 0 else 1, Turns(p, a, mm)
    {
      ReadyToPass(p0, p, a, mm0, mm, minimumMm, dt, dtMax, timeVar);
      var q, mm', t := Pass(p, a, mm0, mm, timeVar);
      Turn(p0, p, q, a, mm0, mm, mm', minimumMm, dt, t, dtMax, timeVar);
      TurnTimed(p0, p, q, a, mm0, mm, mm', minimumMm, dt, t, dtMax, timeVar, k);
      p, mm, dt, k := q, mm', dt + t, if FirstRamp(q.ramp) then k + 1 else k;
      if dt < dtMax {
        timeVar := dtMax - dt;
      } else {
        if mm > minimumMm {
          dtMax := dtMax + DT_SEGMENT;
          timeVar := dtMax - dt;
        } else {
          break;
        }
      }
      if mm <= p.mmComplete {
        break;
      }
    }
  }

  lemma ReadyToPass(p0: Profile, p: Profile, a: real, mm0: real, mm: real, minimumMm: real, dt: real, dtMax: real,
                    timeVar: real)
    requires Ready(p0, p, a, mm0, mm, minimumMm, dt, dtMax, timeVar)
    ensures OnCurve(p, a, mm) && (p.mmComplete < mm || (p.ramp == Decel && timeVar > 0.0)) && dtMax >= DT_SEGMENT
    ensures FirstRamp(p.ramp) ==> timeVar == DT_SEGMENT && mm <= mm0
  {
    hide OnCurve;
  }
}
