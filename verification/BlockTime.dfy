/** The segments of a block together take the time of its velocity profile. */
module BlockTime {
  import opened NutsBolts
  import opened PlannerRing
  import opened PlannerQueue
  import opened PlannerInvariant
  import opened VelocityProfile
  import opened SegmentTime
  import opened SegmentBuilder
  import opened StepCount
  import opened Stepping
  import G = SegmentGenerator
  import PlanRuns
  import P = Planner
  import SM = StepModel
  import ST = StepTheorems
  import D = StepDriver
  import TB = TravelBox
  import Draining

  function Sum(times: seq<real>): real {
    if times == [] then 0.0 else Sum(times[..|times| - 1]) + times[|times| - 1]
  }

  function EventsOf(segments: seq<SM.Work>): nat {
    if segments == [] then 0 else EventsOf(segments[..|segments| - 1]) + segments[|segments| - 1].events
  }

  function TicksOf(segments: seq<SM.Work>): nat
    requires forall w :: w in segments ==> w.level <= SM.MAX_AMASS_LEVEL
  {
    if segments == [] then 0
    else TicksOf(segments[..|segments| - 1]) + SM.Ticks(segments[|segments| - 1])
  }

  /** Each segment takes its time. */
  ghost predicate AllPaced(segments: seq<SM.Work>, times: seq<real>) {
    && |segments| == |times|
    && forall k :: 0 <= k < |segments| ==>
         Paced(segments[k].events, segments[k].level, segments[k].cyclesPerTick, times[k])
  }

  /** The times of segments add up: in CPU cycles they take together less than one more for every step
      event, and, unless the timer is too fast for one of them, less than one fewer for every tick. */
  lemma {:induction false} TimesAddUp(segments: seq<SM.Work>, times: seq<real>)
    requires AllPaced(segments, times)
    ensures segments != [] ==>
              Draining.CyclesOfAll(segments) as real < Times(TICKS_PER_MINUTE, Sum(times)) + EventsOf(segments) as real
    ensures segments != [] && (forall w :: w in segments ==> w.cyclesPerTick < SLOWEST) ==>
              Draining.CyclesOfAll(segments) as real > Times(TICKS_PER_MINUTE, Sum(times)) - TicksOf(segments) as real
    ensures segments == [] ==> Draining.CyclesOfAll(segments) == 0 && Sum(times) == 0.0
  {
    if segments != [] {
      var n := |segments| - 1;
      var w, t := segments[n], times[n];
      assert segments == segments[..n] + [w];
      TimesAddUp(segments[..n], times[..n]);
      Draining.CyclesAppend(segments[..n], w);
      Draining.TimeOf(w);
      TimesMonotonic(TICKS_PER_MINUTE, Sum(times), Sum(times[..n]));
      assert Paced(w.events, w.level, w.cyclesPerTick, t);
      hide Times, SM.ShiftLeft, Draining.Cycles, Draining.CyclesOfAll;
    }
  }

  lemma NoSegments()
    ensures AllPaced([], []) && Sum([]) == 0.0 && EventsOf([]) == 0 && Draining.CyclesOfAll([]) == 0
    ensures forall q: seq<SM.Work> :: q + [] == q
    ensures forall q: seq<real> :: q + [] == q
  {
  }

  lemma OneMore(segments: seq<SM.Work>, times: seq<real>, w: SM.Work, t: real)
    requires AllPaced(segments, times) && Paced(w.events, w.level, w.cyclesPerTick, t)
    ensures AllPaced(segments + [w], times + [t]) && Sum(times + [t]) == Sum(times) + t
    ensures EventsOf(segments + [w]) == EventsOf(segments) + w.events
    ensures Draining.CyclesOfAll(segments + [w]) == Draining.CyclesOfAll(segments) + Draining.Cycles(w)
  {
    hide Paced;
    Draining.CyclesAppend(segments, w);
    assert (segments + [w])[..|segments|] == segments && (times + [t])[..|times|] == times;
  }

  /** The executing block, as far as its time goes. */
  datatype Stage = Stage(profile: Profile, acceleration: real, millimeters: real, reqMmIncrement: real, loaded: bool,
                         timeToGo: real)

  ghost function StageOf(generator: G.SegmentGenerator): Stage
    requires generator.Valid()
    reads generator, generator.planner, generator.planner.blocks, generator.driver, generator.driver.segmentBuffer,
          generator.driver.stBlockBuffer
  {
    var b := generator.planner.blocks[generator.planner.tail];
    Stage(generator.profile, b.acceleration, b.millimeters, generator.reqMmIncrement, generator.planner.loaded,
          generator.TimeToGo())
  }

  /** What the next segment is counted too long. */
  ghost function LateBy(e: Stage): real {
    Overtime(e.profile, e.acceleration, e.millimeters, MinimumMm(e.millimeters, e.reqMmIncrement))
  }

  /** The same block, further on. */
  ghost predicate Onward(e: Stage, e': Stage) {
    && SameShape(e.profile, e'.profile) && e'.reqMmIncrement == e.reqMmIncrement
    && (e'.loaded ==> e'.acceleration == e.acceleration) && (!e'.loaded ==> e'.timeToGo == 0.0)
    && (FirstRamp(e'.profile.ramp) ==> FirstRamp(e.profile.ramp))
  }

  /** From one stage of a block to the next a segment has been cut, on time or late. */
  ghost predicate Between(e: Stage, e': Stage, w: SM.Work) {
    && e.loaded && Onward(e, e') && Paced(w.events, w.level, w.cyclesPerTick, e.timeToGo + LateBy(e) - e'.timeToGo)
    && LateBy(e) >= 0.0 && (FirstRamp(e'.profile.ramp) || !FirstRamp(e.profile.ramp) ==> LateBy(e) == 0.0)
  }

  /** At most one segment of a block is late, the one that ends the first ramp: by the overtime of the
      profile where that segment begins. */
  ghost predicate OnceLate(e: Stage, late: real) {
    late == 0.0 || (FirstRamp(e.profile.ramp) && late > 0.0 && exists e' :: Onward(e, e') && late == LateBy(e'))
  }

  /** What the segments cut so far have taken. */
  ghost predicate Spent(e: Stage, e': Stage, times: seq<real>, late: real) {
    && Onward(e, e') && OnceLate(e, late) && (FirstRamp(e'.profile.ramp) ==> late == 0.0)
    && Sum(times) == e.timeToGo - e'.timeToGo + late
  }

  lemma NothingSpent(e: Stage)
    requires e.loaded
    ensures Spent(e, e, [], 0.0)
  {
  }

  lemma SpentMore(e: Stage, e': Stage, e'': Stage, segments: seq<SM.Work>, times: seq<real>, late: real, w: SM.Work)
    requires Spent(e, e', times, late) && Between(e', e'', w) && AllPaced(segments, times)
    ensures var t, l := e'.timeToGo + LateBy(e') - e''.timeToGo, late + LateBy(e');
            OnceLate(e, l) && Spent(e, e'', times + [t], l) && AllPaced(segments + [w], times + [t])
    ensures EventsOf(segments + [w]) == EventsOf(segments) + w.events
    ensures Draining.CyclesOfAll(segments + [w]) == Draining.CyclesOfAll(segments) + Draining.Cycles(w)
  {
    hide LateBy, Paced, Draining.CyclesOfAll, Draining.Cycles, EventsOf;
    OneMore(segments, times, w, e'.timeToGo + LateBy(e') - e''.timeToGo);
  }

  lemma EndOfBlock(e: Stage, e': Stage, times: seq<real>, late: real)
    ensures Spent(e, e', times, late) && !e'.loaded ==> e'.timeToGo == 0.0 && Sum(times) == e.timeToGo + late
    ensures Spent(e, e', times, late) ==> OnceLate(e, late)
  {
  }

  /** A segment of the block in hand, unless the hold ends without one. */
  method CutNext(generator: G.SegmentGenerator) returns (ghost some: bool, ghost w: SM.Work)
    requires generator.Valid() && generator.planner.loaded && !generator.endMotion && generator.driver.HasRoom()
    modifies generator, generator.planner`tail, generator.planner`planned, generator.planner`loaded,
             generator.planner`currentSpeed, generator.planner.blocks, generator.driver, generator.driver.segmentBuffer
    ensures generator.Valid() && (generator.endMotion ==> generator.executeHold)
    ensures if some then
              && w.events > 0 && generator.Uncut() == old(generator.Uncut()) - w.events
              && generator.CyclesToGo() == old(generator.CyclesToGo()) + Draining.Cycles(w)
              && Between(old(StageOf(generator)), StageOf(generator), w)
            else
              generator.endMotion && generator.driver.model == old(generator.driver.model)
  {
    hide Joined, ST.Inv, Consistent, RatesKept, SumSquares, PlanRuns.Sound, PlanOf, Queue, LastNominal, P.LastAlong,
         P.WellSet, TB.CourseInside, TB.CourseOf, Draining.Uncut, Draining.TicksToGo, Draining.CyclesToGo,
         Draining.Cycles, Paced, TimeLeft, Overtime, SameShape, FirstRamp, D.StepDriver.Matches;
    var goesOn := generator.CutSegment();
    some := generator.Queued() > old(generator.Queued());
    w := if some then generator.Newest() else SM.Work(0, SM.NoMove, 0, 0, 0);
  }

  /** THE BLOCK TAKES ITS TIME: `st_prep_buffer` cuts up the block in hand, while the interrupt fires as
      often as it may between two segments. Unless a hold ends it, its segments together take what its
      velocity profile takes from where it was fitted, with the part of a step left over before; a late
      segment adds what is counted twice, and nothing is left over in the end. While they are executed
      the CPU cycles that pass between two ticks are those of the segments. */
  method CutBlock(generator: G.SegmentGenerator, more: nat -> nat)
    returns (ghost segments: seq<SM.Work>, ghost times: seq<real>, ghost late: real, ghost passed: nat)
    requires generator.Valid() && generator.planner.loaded && !generator.endMotion
    modifies generator, generator.planner`tail, generator.planner`planned, generator.planner`loaded,
             generator.planner`currentSpeed, generator.planner.blocks, generator.driver, generator.driver.segmentBuffer
    ensures generator.Valid() && (!generator.planner.loaded || (generator.endMotion && generator.executeHold))
    ensures AllPaced(segments, times) && generator.Uncut() == old(generator.Uncut()) - EventsOf(segments)
    ensures passed + generator.CyclesToGo() == old(generator.CyclesToGo()) + Draining.CyclesOfAll(segments)
    ensures OnceLate(old(StageOf(generator)), late)
    ensures !generator.endMotion ==>
              StageOf(generator).timeToGo == 0.0 && Sum(times) == old(StageOf(generator)).timeToGo + late
  {
    hide Joined, ST.Inv, Consistent, RatesKept, SumSquares, PlanRuns.Sound, PlanOf, Queue, LastNominal, P.LastAlong,
         P.WellSet, TB.CourseInside, TB.CourseOf, Draining.Uncut, Draining.TicksToGo, Draining.CyclesToGo,
         Draining.CyclesOfAll, AllPaced, Paced, Sum, EventsOf, OnceLate, TimeLeft, LateBy, SameShape, FirstRamp,
         D.StepDriver.Matches, Spent, Between, Draining.Cycles, G.SegmentGenerator.Valid,
         G.SegmentGenerator.TimeToGo;
    ghost var e := StageOf(generator);
    NoSegments();
    NothingSpent(e);
    segments, times, late, passed := [], [], 0.0, 0;
    var i := 0;
    while generator.planner.loaded && !generator.endMotion
      invariant generator.Valid() && (generator.endMotion ==> generator.executeHold)
      invariant AllPaced(segments, times) && generator.Uncut() == old(generator.Uncut()) - EventsOf(segments)
      invariant passed + generator.CyclesToGo() == old(generator.CyclesToGo()) + Draining.CyclesOfAll(segments)
      invariant !generator.endMotion ==> Spent(e, StageOf(generator), times, late)
      invariant OnceLate(e, late)
      decreases if generator.endMotion then 0 else 1, generator.Uncut(), generator.TicksToGo()
    {
      generator.QueueSeen();
      var ticks := more(i);
      if generator.driver.HasRoom() {
        ghost var e' := StageOf(generator);
        ghost var some, w := CutNext(generator);
        if some {
          ghost var e'' := StageOf(generator);
          SpentMore(e, e', e'', segments, times, late, w);
          segments, times := segments + [w], times + [e'.timeToGo + LateBy(e') - e''.timeToGo];
          late := late + LateBy(e');
        }
      } else {
        ticks := ticks + 1;
      }
      if ticks > 0 {
        ghost var more := G.Interrupts(generator, ticks - 1);
        passed := passed + more;
      }
      i := i + 1;
    }
    EndOfBlock(e, StageOf(generator), times, late);
  }
}
