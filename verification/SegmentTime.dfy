/** The time of a velocity profile, and the condition under which the loop of `st_prep_buffer`
    counts more than that for a segment. */
module SegmentTime {
  import opened NutsBolts
  import opened Kinematics
  import opened VelocityProfile

  const DT_SEGMENT := 1.0 / 6000.0       // minutes: a hundredth of a second

  predicate FirstRamp(r: Ramp) {
    r == Accel || r == DecelOverride
  }

  /** Division as the source needs it: 0/0 arises when a hold ends exactly where a block does,
      and its result is then not used. */
  function Quotient(x: real, y: real): real {
    if y == 0.0 then 0.0 else x / y
  }

  lemma QuotientSum(x: real, y: real, d: real)
    ensures Quotient(x + y, d) == Quotient(x, d) + Quotient(y, d)
    ensures Quotient(x - y, d) == Quotient(x, d) - Quotient(y, d)
    ensures Quotient(0.0, d) == 0.0
  {
  }

  lemma QuotientPositive(x: real, d: real)
    requires d > 0.0
    ensures x > 0.0 ==> Quotient(x, d) > 0.0
  {
    var q := x / d;
    assert q * d == x;
    if q <= 0.0 {
      NonnegativeProduct(-q, d);
    }
  }

  /** THE TIME a profile takes, `mm` from the end of the block, for what is left of it: every
      change of speed at the acceleration, and the cruise at its speed. */
  function TimeLeft(p: Profile, a: real, mm: real): real {
    if mm == p.mmComplete then 0.0
    else
      match p.ramp
      case Decel => Quotient(p.currentSpeed - p.exitSpeed, a)
      case Cruise => TimeFromCruise(p, a, mm)
      case Accel => Quotient(p.maximumSpeed - p.currentSpeed, a) + TimeFromCruise(p, a, p.accelerateUntil)
      case DecelOverride => Quotient(p.currentSpeed - p.maximumSpeed, a) + TimeFromCruise(p, a, p.accelerateUntil)
  }

  function TimeFromCruise(p: Profile, a: real, x: real): real {
    if x == p.mmComplete then 0.0
    else Quotient(x - p.decelerateAfter, p.maximumSpeed) + Quotient(p.maximumSpeed - p.exitSpeed, a)
  }

  /** At constant acceleration the mean speed gives the time in which the speed changes. */
  lemma MeanTime(a: real, v: real, w: real, x: real)
    requires a > 0.0 && v + w > 0.0 && Square(w) - Square(v) == Gained(a, x)
    ensures Quotient(2.0 * x, v + w) == Quotient(w - v, a)
  {
    var t, s := 2.0 * x / (v + w), v + w;
    assert t * s == 2.0 * x;
    assert a * (t * s) == Gained(a, x);
    assert (a * t) * s == (w - v) * s;
    SameFactor(a * t, w - v, s);
    assert (a * t) / a == t;
  }

  lemma SameFactor(x: real, y: real, s: real)
    requires s > 0.0 && x * s == y * s
    ensures x == y
  {
    assert (x - y) * s == 0.0;
  }

  // ---------------------------------------------------------------------------
  // The ramp a profile starts with, in full time steps
  // ---------------------------------------------------------------------------

  function Elapsed(k: nat): real {
    k as real * DT_SEGMENT
  }

  function SpeedAfter(p: Profile, a: real, t: real): real {
    if p.ramp == Accel then p.currentSpeed + a * t else p.currentSpeed - a * t
  }

  function DistanceIn(p: Profile, a: real, t: real): real {
    if p.ramp == Accel then AccelDistance(p.currentSpeed, a, t) else DecelDistance(p.currentSpeed, a, t)
  }

  /** After `k` full time steps the ramp has not come to its end: an acceleration has not passed
      the distance at which it ends, a deceleration for an override is still too fast. */
  predicate InRamp(p: Profile, a: real, mm: real, k: nat) {
    if p.ramp == Accel then DistanceIn(p, a, Elapsed(k)) <= mm - p.accelerateUntil
    else p.currentSpeed - p.maximumSpeed > a * Elapsed(k)
  }

  /** The first ramp comes to its end just after `k` full time steps, and these together are
      too short to hold a step. */
  predicate LateAfter(p: Profile, a: real, mm: real, minimumMm: real, k: nat) {
    && k >= 1 && FirstRamp(p.ramp) && InRamp(p, a, mm, k) && !InRamp(p, a, mm, k + 1)
    && DistanceIn(p, a, Elapsed(k)) < mm - minimumMm
  }

  /** THE SEGMENT IS LATE: it ends its first ramp in a turn of the loop that is not its first. */
  ghost predicate Late(p: Profile, a: real, mm: real, minimumMm: real) {
    exists k: nat :: LateAfter(p, a, mm, minimumMm, k)
  }

  /** What is counted twice then: the distance of the full time steps, at the mean of the speed
      they end with and the speed at the end of the ramp. */
  function Recount(p: Profile, a: real, k: nat): real {
    Quotient(2.0 * DistanceIn(p, a, Elapsed(k)), SpeedAfter(p, a, Elapsed(k)) + p.maximumSpeed)
  }

  ghost function Overtime(p: Profile, a: real, mm: real, minimumMm: real): real {
    if Late(p, a, mm, minimumMm) then
      var k: nat :| LateAfter(p, a, mm, minimumMm, k);
      Recount(p, a, k)
    else 0.0
  }

  lemma ElapsedMore(k: nat)
    ensures Elapsed(0) == 0.0 && Elapsed(1) == DT_SEGMENT && Elapsed(k + 1) == Elapsed(k) + DT_SEGMENT
    ensures Elapsed(k) >= 0.0 && (k >= 1 ==> Elapsed(k) > 0.0)
  {
  }

  lemma ElapsedMonotonic(j: nat, k: nat)
    requires j <= k
    ensures 0.0 <= Elapsed(j) <= Elapsed(k)
  {
  }

  lemma AccelDistanceSum(v: real, a: real, s: real, t: real)
    ensures AccelDistance(v, a, s + t) == AccelDistance(v, a, s) + AccelDistance(v + a * s, a, t)
    ensures v + a * (s + t) == v + a * s + a * t
  {
    var x, y := a * s, a * t;
    assert a * (s + t) == x + y;
    assert AccelDistance(v, a, s + t) == s * v + t * v + 0.5 * (s * x) + 0.5 * (s * y) + 0.5 * (t * x) + 0.5 * (t * y);
    assert s * y == t * x;
  }

  lemma DecelDistanceSum(v: real, a: real, s: real, t: real)
    ensures DecelDistance(v, a, s + t) == DecelDistance(v, a, s) + DecelDistance(v - a * s, a, t)
    ensures v - a * (s + t) == v - a * s - a * t
  {
    AccelDistanceSum(v, -a, s, t);
    Negated(v, a, s + t);
    Negated(v, a, s);
    Negated(v - a * s, a, t);
    assert v + -a * s == v - a * s && a * (s + t) == a * s + a * t;
    hide AccelDistance, DecelDistance;
  }

  lemma Negated(v: real, a: real, t: real)
    ensures DecelDistance(v, a, t) == AccelDistance(v, -a, t)
  {
    assert -a * t == -(a * t);
  }

  /** Over the time that a speed stays positive, the distance grows. */
  lemma DistanceMonotonic(p: Profile, a: real, mm: real, j: nat, k: nat)
    requires a > 0.0 && p.currentSpeed >= 0.0 && p.maximumSpeed >= 0.0 && FirstRamp(p.ramp) && j <= k
    requires p.ramp == DecelOverride ==> InRamp(p, a, mm, k)
    ensures DistanceIn(p, a, Elapsed(j)) <= DistanceIn(p, a, Elapsed(k))
    ensures a * Elapsed(j) <= a * Elapsed(k)
  {
    ElapsedMonotonic(j, k);
    hide Elapsed;
    var s := Elapsed(j);
    var t := Elapsed(k) - s;
    NonnegativeProduct(a, s);
    NonnegativeProduct(a, t);
    assert a * (s + t) == a * s + a * t;
    if p.ramp == Accel {
      AccelDistanceSum(p.currentSpeed, a, s, t);
      NonnegativeProduct(t, p.currentSpeed + a * s + 0.5 * (a * t));
    } else {
      DecelDistanceSum(p.currentSpeed, a, s, t);
      NonnegativeProduct(t, p.currentSpeed - a * s - 0.5 * (a * t));
    }
  }

  lemma EarlierInRamp(p: Profile, a: real, mm: real, j: nat, k: nat)
    requires a > 0.0 && p.currentSpeed >= 0.0 && p.maximumSpeed >= 0.0 && FirstRamp(p.ramp) && j <= k
    requires InRamp(p, a, mm, k)
    ensures InRamp(p, a, mm, j)
  {
    DistanceMonotonic(p, a, mm, j, k);
  }

  /** There is at most one such number of steps. */
  lemma LateOnce(p: Profile, a: real, mm: real, minimumMm: real, k: nat)
    requires a > 0.0 && p.currentSpeed >= 0.0 && p.maximumSpeed >= 0.0 && LateAfter(p, a, mm, minimumMm, k)
    ensures Overtime(p, a, mm, minimumMm) == Recount(p, a, k)
  {
    hide InRamp, DistanceIn, Elapsed, Recount;
    forall j: nat | LateAfter(p, a, mm, minimumMm, j) ensures j == k {
      if j < k {
        EarlierInRamp(p, a, mm, j + 1, k);
      } else if k < j {
        EarlierInRamp(p, a, mm, k + 1, j);
      }
    }
  }

  /** A ramp that outlasts the segment, or ends in the first turn, is not late. */
  lemma InTime(p: Profile, a: real, mm: real, minimumMm: real, k: nat)
    requires a > 0.0 && p.currentSpeed >= 0.0 && p.maximumSpeed >= 0.0
    requires FirstRamp(p.ramp) ==>
               || (k == 0 && !InRamp(p, a, mm, 1))
               || (k >= 1 && InRamp(p, a, mm, k) && DistanceIn(p, a, Elapsed(k)) >= mm - minimumMm)
    ensures !Late(p, a, mm, minimumMm) && Overtime(p, a, mm, minimumMm) == 0.0
  {
    hide InRamp, DistanceIn, Elapsed, Recount;
    forall j: nat ensures !LateAfter(p, a, mm, minimumMm, j) {
      if LateAfter(p, a, mm, minimumMm, j) {
        if k == 0 {
          EarlierInRamp(p, a, mm, 1, j);
        } else if j < k {
          EarlierInRamp(p, a, mm, j + 1, k);
        } else {
          DistanceMonotonic(p, a, mm, k, j);
        }
      }
    }
  }

  /** Counting twice makes the segment's time too long, never too short. */
  lemma OvertimePositive(p: Profile, a: real, mm: real, minimumMm: real)
    requires a > 0.0 && p.currentSpeed >= 0.0 && (FirstRamp(p.ramp) ==> p.maximumSpeed >= 0.0)
    ensures Overtime(p, a, mm, minimumMm) >= 0.0
    ensures Overtime(p, a, mm, minimumMm) == 0.0 <==> !Late(p, a, mm, minimumMm)
  {
    if Late(p, a, mm, minimumMm) {
      var k: nat :| LateAfter(p, a, mm, minimumMm, k);
      LateOnce(p, a, mm, minimumMm, k);
      RecountPositive(p, a, mm, k);
    }
  }

  lemma RecountPositive(p: Profile, a: real, mm: real, k: nat)
    requires a > 0.0 && p.currentSpeed >= 0.0 && p.maximumSpeed >= 0.0 && FirstRamp(p.ramp)
    requires k >= 1 && InRamp(p, a, mm, k)
    ensures Recount(p, a, k) > 0.0
  {
    hide Quotient;
    ElapsedMore(k);
    var t := Elapsed(k);
    LeastStepPositive(a, t);
    if p.ramp == Accel {
      AccelMoves(p.currentSpeed, a, t);
    } else {
      DecelMoves(p.currentSpeed, a, t);
    }
    QuotientPositive(2.0 * DistanceIn(p, a, t), SpeedAfter(p, a, t) + p.maximumSpeed);
  }

  // ---------------------------------------------------------------------------
  // What the loop counts
  // ---------------------------------------------------------------------------

  /** The state of the loop after `k` full time steps in the ramp it started with. */
  ghost predicate Stepped(p0: Profile, p: Profile, a: real, mm0: real, mm: real, k: nat) {
    && p == p0.(currentSpeed := SpeedAfter(p0, a, Elapsed(k))) && mm == mm0 - DistanceIn(p0, a, Elapsed(k))
    && (k >= 1 ==> InRamp(p0, a, mm0, k))
  }

  /** What one pass does in a first ramp, over a full time step. */
  ghost predicate StepsOn(p: Profile, q: Profile, a: real, mm: real, mm': real) {
    FirstRamp(p.ramp) ==>
      && (q.ramp == p.ramp <==> InRamp(p, a, mm, 1))
      && (q.ramp == p.ramp ==> Stepped(p, q, a, mm, mm', 1))
  }

  /** The time `t` that one pass counts: that of the profile, except that at the end of a first
      ramp the way since `from` is counted (again). */
  ghost predicate Counts(p: Profile, q: Profile, a: real, from: real, mm: real, mm': real, t: real) {
    t == TimeLeft(p, a, mm) - TimeLeft(q, a, mm')
         + if FirstRamp(p.ramp) && q.ramp != p.ramp then Quotient(2.0 * (from - mm), p.currentSpeed + p.maximumSpeed)
           else 0.0
  }

  lemma StepAgain(p0: Profile, p: Profile, q: Profile, a: real, mm0: real, mm: real, mm': real, k: nat)
    requires FirstRamp(p0.ramp) && Stepped(p0, p, a, mm0, mm, k) && StepsOn(p, q, a, mm, mm')
    ensures q.ramp == p.ramp <==> InRamp(p0, a, mm0, k + 1)
    ensures q.ramp == p.ramp ==> Stepped(p0, q, a, mm0, mm', k + 1)
  {
    ElapsedMore(k);
    var s := Elapsed(k);
    AccelDistanceSum(p0.currentSpeed, a, s, DT_SEGMENT);
    DecelDistanceSum(p0.currentSpeed, a, s, DT_SEGMENT);
    assert a * (s + DT_SEGMENT) == a * s + a * DT_SEGMENT;
    hide Elapsed, AccelDistance, DecelDistance;
  }

  /** What holds of the segment's time whenever the loop starts a pass: it is exact as long as
      the first ramp lasts, and from then on off by the overtime. */
  ghost predicate Timed(p0: Profile, p: Profile, a: real, mm0: real, mm: real, minimumMm: real, dt: real, k: nat) {
    var moved := TimeLeft(p0, a, mm0) - TimeLeft(p, a, mm);
    if FirstRamp(p.ramp) then dt == moved && Stepped(p0, p, a, mm0, mm, k) && (k >= 1 ==> minimumMm < mm)
    else dt == moved + Overtime(p0, a, mm0, minimumMm)
  }

  lemma TimedStart(p: Profile, a: real, mm: real, minimumMm: real)
    requires a > 0.0 && p.currentSpeed >= 0.0 && (FirstRamp(p.ramp) ==> p.maximumSpeed >= 0.0)
    ensures Timed(p, p, a, mm, mm, minimumMm, 0.0, 0)
  {
    hide TimeLeft;
    ElapsedMore(0);
    if !FirstRamp(p.ramp) {
      forall k: nat ensures !LateAfter(p, a, mm, minimumMm, k) {
      }
    }
  }

  /** One turn of the loop. */
  lemma TimedTurn(p0: Profile, p: Profile, q: Profile, a: real, mm0: real, mm: real, mm': real, minimumMm: real,
                  dt: real, t: real, k: nat)
    requires a > 0.0 && p0.currentSpeed >= 0.0 && (FirstRamp(p0.ramp) ==> p0.maximumSpeed >= 0.0)
    requires Timed(p0, p, a, mm0, mm, minimumMm, dt, k)
    requires StepsOn(p, q, a, mm, mm') && Counts(p, q, a, mm0, mm, mm', t)
    requires q.ramp == p.ramp || !FirstRamp(q.ramp)
    ensures FirstRamp(q.ramp) && mm' > minimumMm ==> Timed(p0, q, a, mm0, mm', minimumMm, dt + t, k + 1)
    ensures !FirstRamp(q.ramp) ==> Timed(p0, q, a, mm0, mm', minimumMm, dt + t, k)
    ensures FirstRamp(q.ramp) && mm' <= minimumMm ==>
              && dt + t == TimeLeft(p0, a, mm0) - TimeLeft(q, a, mm') + Overtime(p0, a, mm0, minimumMm)
              && Overtime(p0, a, mm0, minimumMm) == 0.0
  {
    hide TimeLeft, InRamp, DistanceIn, SpeedAfter, Elapsed, Quotient, Overtime, Recount, LateAfter, Late;
    if FirstRamp(p.ramp) {
      StepAgain(p0, p, q, a, mm0, mm, mm', k);
      if q.ramp != p.ramp {
        RampEnds(p0, p, a, mm0, mm, minimumMm, k);
      } else if mm' <= minimumMm {
        InTime(p0, a, mm0, minimumMm, k + 1);
      }
    }
  }

  /** The first ramp ends: what is counted for the second time is the overtime. */
  lemma RampEnds(p0: Profile, p: Profile, a: real, mm0: real, mm: real, minimumMm: real, k: nat)
    requires a > 0.0 && p0.currentSpeed >= 0.0 && p0.maximumSpeed >= 0.0 && FirstRamp(p0.ramp)
    requires Stepped(p0, p, a, mm0, mm, k) && !InRamp(p0, a, mm0, k + 1) && (k >= 1 ==> minimumMm < mm)
    ensures Quotient(2.0 * (mm0 - mm), p.currentSpeed + p.maximumSpeed) == Overtime(p0, a, mm0, minimumMm)
  {
    hide Overtime, InRamp, Late, Elapsed;
    if k == 0 {
      InTime(p0, a, mm0, minimumMm, 0);
      ElapsedMore(0);
    } else {
      LateOnce(p0, a, mm0, minimumMm, k);
    }
  }

  /** A block of one millimetre from rest to rest, at a speed of 8.4 mm/min, on an axis with an
      acceleration of 3000 mm/min^2 and 80 steps to the millimetre: the RAMPS defaults. */
  const FROM_REST := Profile(Accel, 0.0, 0.0, 8.4, 0.0, 1.0 - 0.01176, 0.01176)

  /** Its first segment is late: sixteen time steps go by before it can hold a step, the next
      reaches the cruise, and the segment is taken for 4/3075 of a minute longer than it is. */
  lemma LateFromRest()
    ensures var a, minimumMm := 3000.0, 1.0 - 1.25 / 80.0;
            && WellShaped(FROM_REST, a, 1.0) && SpeedSqrAt(FROM_REST, a, 1.0) == Square(FROM_REST.currentSpeed)
            && LateAfter(FROM_REST, a, 1.0, minimumMm, 16)
            && Overtime(FROM_REST, a, 1.0, minimumMm) == 4.0 / 3075.0
  {
    var a, minimumMm := 3000.0, 1.0 - 1.25 / 80.0;
    assert LateAfter(FROM_REST, a, 1.0, minimumMm, 16);
    assert Recount(FROM_REST, a, 16) == 4.0 / 3075.0;
    LateOnce(FROM_REST, a, 1.0, minimumMm, 16);
  }
}
