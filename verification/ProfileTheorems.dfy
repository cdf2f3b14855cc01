/** What the velocity profiles are good for: nothing drivable is faster, segment after segment
    stays on the same curve, and a feed hold comes to rest within the queue. */
module ProfileTheorems {
  import opened NutsBolts
  import opened Kinematics
  import opened VelocityProfile
  import opened SegmentBuilder
  import opened PlanSpec

  /** A way through the block that keeps its limits. */
  ghost predicate Drivable(t: Leg, f: real -> real) {
    && f(0.0) <= t.exitSqr && f(t.millimeters) <= t.entrySqr
    && (forall x {:trigger f(x)} :: 0.0 <= x <= t.millimeters ==> f(x) <= Square(t.nominal))
    && (forall x, y {:trigger f(x), f(y)} :: 0.0 <= x <= y <= t.millimeters ==>
          f(x) - Gained(t.acceleration, y - x) <= f(y) <= f(x) + Gained(t.acceleration, y - x))
  }

  /** NOTHING DRIVABLE IS FASTER, and the profile itself is drivable. */
  lemma FastestIsGreatest(t: Leg, f: real -> real, x: real)
    requires Plannable(t) && t.entrySqr <= Square(t.nominal) && 0.0 <= x <= t.millimeters
    requires Drivable(t, f)
    ensures f(x) <= Fastest(t, x)
  {
    hide Square, Gained;
    var mm := t.millimeters;
    assert f(0.0) - Gained(t.acceleration, x - 0.0) <= f(x) <= f(0.0) + Gained(t.acceleration, x - 0.0);
    assert f(x) - Gained(t.acceleration, mm - x) <= f(mm);
    assert x - 0.0 == x;
  }

  lemma FastestDrivable(t: Leg)
    requires Plannable(t) && t.entrySqr <= Square(t.nominal)
    ensures Drivable(t, x => Fastest(t, x))
    ensures Fastest(t, t.millimeters) == t.entrySqr && Fastest(t, 0.0) == t.exitSqr
  {
    hide Square, Gained;
    FastestEnds(t);
    var f := x => Fastest(t, x);
    forall x, y | 0.0 <= x <= y <= t.millimeters
      ensures f(x) - Gained(t.acceleration, y - x) <= f(y) <= f(x) + Gained(t.acceleration, y - x)
    {
      FastestStep(t, x, y);
    }
  }

  lemma FastestEnds(t: Leg)
    requires Plannable(t)
    ensures Fastest(t, t.millimeters) == t.entrySqr && Fastest(t, 0.0) == t.exitSqr
  {
    hide Square, Gained;
    GainedSum(t.acceleration, 0.0, 0.0);
    assert t.millimeters - 0.0 == t.millimeters && t.millimeters - t.millimeters == 0.0;
  }

  /** Between two points the squared speed changes no more than acceleration allows. */
  lemma FastestStep(t: Leg, x: real, y: real)
    requires Plannable(t) && 0.0 <= x <= y <= t.millimeters
    ensures Fastest(t, x) - Gained(t.acceleration, y - x) <= Fastest(t, y)
    ensures Fastest(t, y) <= Fastest(t, x) + Gained(t.acceleration, y - x)
    ensures 0.0 <= Fastest(t, x) <= Max(Square(t.nominal), t.entrySqr)
    ensures t.exitSqr - Gained(t.acceleration, x) <= Fastest(t, x) <= t.exitSqr + Gained(t.acceleration, x)
  {
    hide Square;
    var a, mm := t.acceleration, t.millimeters;
    Distances(a, mm, x, y, 0.0);
    Distances(a, y, x, y, 0.0);
    Distances(a, mm, x, mm, 0.0);
    GainedSum(a, 0.0, 0.0);
    hide Gained;
  }

  /** From any point of the fastest way on, the fastest way is the same one: redoing the
      profile in the middle of a block changes nothing. */
  lemma FastestOnward(t: Leg, y: real, x: real)
    requires Plannable(t) && 0.0 <= x <= y <= t.millimeters
    ensures Fastest(t.(millimeters := y, entrySqr := Fastest(t, y)), x) == Fastest(t, x)
  {
    hide Square;
    var a, mm := t.acceleration, t.millimeters;
    Distances(a, mm, x, y, 0.0);
    Distances(a, y, x, y, 0.0);
    GainedSum(a, 0.0, 0.0);
    hide Gained;
  }

  /** A segment keeps to the fastest way: what is left of the profile is the profile of what
      is left of the block. */
  lemma SegmentKeepsFastest(p0: Profile, p: Profile, t: Leg, mm: real, minimumMm: real)
    requires Plannable(t) && IsFastest(p0, t) && Cut(p0, p, t.acceleration, t.millimeters, mm, minimumMm)
    ensures var t' := t.(millimeters := mm, entrySqr := Square(p.currentSpeed));
            && t'.entrySqr == Fastest(t, mm)
            && (mm > 0.0 ==> Plannable(t') && IsFastest(p, t'))
            && (mm == 0.0 ==> t'.entrySqr == t.exitSqr)
  {
    var t' := t.(millimeters := mm, entrySqr := Square(p.currentSpeed));
    FastestStep(t, mm, t.millimeters);
    FastestEnds(t);
    hide Square, Gained;
    if mm > 0.0 {
      hide WellShaped, SpeedSqrAt;
      forall x | 0.0 <= x <= mm ensures SpeedSqrAt(p, t.acceleration, x) == Fastest(t', x) {
        hide Fastest;
        FastestOnward(t, mm, x);
      }
    }
  }

  lemma SegmentKeepsBraking(p0: Profile, p: Profile, t: Leg, mm: real, minimumMm: real)
    requires Moving(t) && Brakes(p0, t) && Cut(p0, p, t.acceleration, t.millimeters, mm, minimumMm)
    ensures var t' := t.(millimeters := mm, entrySqr := Square(p.currentSpeed));
            && t'.entrySqr == t.entrySqr - Gained(t.acceleration, t.millimeters - mm)
            && (mm > p0.mmComplete ==> Brakes(p, t'))
            && (mm == p0.mmComplete > 0.0 ==> p.currentSpeed == 0.0)
  {
    hide Square, Gained;
    var a, t' := t.acceleration, t.(millimeters := mm, entrySqr := Square(p.currentSpeed));
    if mm > p0.mmComplete {
      hide WellShaped;
      forall x ensures SpeedSqrAt(p, a, x) == t'.entrySqr - Gained(a, mm - x) {
        assert SpeedSqrAt(p, a, x) == SpeedSqrAt(p0, a, x);
        Distances(a, t.millimeters, x, mm, 0.0);
        Distances(a, mm, x, mm, 0.0);
      }
    }
  }

  // ---------------------------------------------------------------------------
  // Feed hold
  // ---------------------------------------------------------------------------

  /** The squared speed at which a hold reaches block `i`, if nothing is added meanwhile. */
  function HoldEntry(q: seq<Junction>, i: nat): real
    requires i <= |q| && |q| > 0
  {
    if i == 0 then q[0].entry
    else Max(0.0, HoldEntry(q, i - 1) - q[i - 1].gain)
  }

  /** A HOLD COMES TO REST WITHIN THE QUEUE, and passes no junction faster than planned. */
  lemma {:induction false} HoldComesToRest(q: seq<Junction>, i: nat)
    requires |q| > 0 && Stoppable(q, 0) && i <= |q|
    ensures 0.0 <= HoldEntry(q, i) <= if i < |q| then q[i].entry else 0.0
  {
    if i > 0 {
      HoldComesToRest(q, i - 1);
      assert q[i - 1].entry <= ExitSqr(q, i - 1) + q[i - 1].gain;
      if i < |q| {
        assert Physical(q[i]);
      }
    } else {
      assert Physical(q[0]);
    }
  }

  /** The braking profile of a block leaves it as the hold does, and never needs the root of
      a negative number. */
  lemma BrakesToHoldEntry(p: Profile, t: Leg)
    requires Moving(t) && Brakes(p, t)
    ensures Square(p.exitSpeed) == Max(0.0, t.entrySqr - Gained(t.acceleration, t.millimeters))
    ensures p.mmComplete > 0.0 ==> t.entrySqr == Gained(t.acceleration, t.millimeters - p.mmComplete)
  {
    var a, mm := t.acceleration, t.millimeters;
    SquareSign(p.exitSpeed);
    RootOfZero();
    hide Square;
    AtEnd(p, a, mm);
    Distances(a, mm, 0.0, p.mmComplete, 0.0);
    GainedSum(a, 0.0, 0.0);
  }
}
