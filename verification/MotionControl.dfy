/** The gateways to the planner, `mc_line` and `jog_execute`, and the soft limits they keep. */
module MotionControl {
  import opened NutsBolts
  import opened LineGeometry
  import opened TravelBox
  import opened SegmentGenerator
  import AA = ArcAngle
  import AM = ArcMotion
  import P = Planner
  import SM = StepModel
  import ST = StepTheorems
  import PI = PlannerInvariant
  import SG = Stepping
  import SR = SegmentRing
  import D = StepDriver

  /** Inside the machine's travel, which is all negative. */
  ghost predicate WithinTravel(target: seq<real>, maxTravel: seq<real>) {
    |target| == |maxTravel| == N_AXIS && forall i :: 0 <= i < N_AXIS ==> maxTravel[i] <= target[i] <= 0.0
  }

  /** The travel in steps. */
  function TravelSteps(maxTravel: seq<real>, stepsPerMm: seq<real>): Box
    requires |maxTravel| == |stepsPerMm| == N_AXIS
  {
    Box(SM.Axes(TargetStep(maxTravel[0], stepsPerMm[0]), TargetStep(maxTravel[1], stepsPerMm[1]),
                TargetStep(maxTravel[2], stepsPerMm[2])),
        SM.Axes(TargetStep(0.0, stepsPerMm[0]), TargetStep(0.0, stepsPerMm[1]), TargetStep(0.0, stepsPerMm[2])))
  }

  lemma TargetStepMonotonic(x: real, y: real, stepsPerMm: real)
    requires x <= y && stepsPerMm > 0.0
    ensures TargetStep(x, stepsPerMm) <= TargetStep(y, stepsPerMm)
  {
    NonnegativeProduct(y - x, stepsPerMm);
    LRoundMonotonic(x * stepsPerMm, y * stepsPerMm);
  }

  /** Rounding to steps does not lead out of the travel. */
  lemma TravelInSteps(position: seq<int>, target: seq<real>, maxTravel: seq<real>, stepsPerMm: seq<real>)
    requires WithinTravel(target, maxTravel) && P.LeadsTo(position, target, stepsPerMm)
    requires forall i :: 0 <= i < |stepsPerMm| ==> stepsPerMm[i] > 0.0
    ensures StepsInside(position, TravelSteps(maxTravel, stepsPerMm))
  {
    forall i | 0 <= i < N_AXIS
      ensures TargetStep(maxTravel[i], stepsPerMm[i]) <= position[i] <= TargetStep(0.0, stepsPerMm[i])
    {
      TargetStepMonotonic(maxTravel[i], target[i], stepsPerMm[i]);
      TargetStepMonotonic(target[i], 0.0, stepsPerMm[i]);
    }
    hide TargetStep;
  }

  /** Machine zero is within reach. */
  lemma StartsInside(maxTravel: seq<real>, stepsPerMm: seq<real>)
    requires |maxTravel| == |stepsPerMm| == N_AXIS && forall i :: 0 <= i < N_AXIS ==> maxTravel[i] <= 0.0
    requires forall i :: 0 <= i < N_AXIS ==> stepsPerMm[i] > 0.0
    ensures CourseInside(CourseOf(SM.Start(SM.Axes(0, 0, 0))), TravelSteps(maxTravel, stepsPerMm))
  {
    hide CourseInside, CourseOf;
    forall i | 0 <= i < N_AXIS ensures TargetStep(maxTravel[i], stepsPerMm[i]) <= 0 == TargetStep(0.0, stepsPerMm[i]) {
      TargetStepMonotonic(maxTravel[i], 0.0, stepsPerMm[i]);
      assert 0.0 * stepsPerMm[i] == 0.0;
    }
    hide TargetStep;
    StartInside(TravelSteps(maxTravel, stepsPerMm));
  }

  /** `system_check_travel_limits`. */
  method CheckTravelLimits(target: seq<real>, maxTravel: seq<real>) returns (exceeded: bool)
    requires |target| == |maxTravel| == N_AXIS
    ensures exceeded <==> !WithinTravel(target, maxTravel)
  {
    for idx := 0 to N_AXIS
      invariant forall i :: 0 <= i < idx ==> maxTravel[i] <= target[i] <= 0.0
    {
      if target[idx] > 0.0 || target[idx] < maxTravel[idx] {
        return true;
      }
    }
    return false;
  }

  /** What goes on between two lines, and while a line waits for room in the planner's buffer: an
      interrupt stops for good (`MotionComplete`) or at the end of a hold (`CycleStop`). */
  datatype Activity = Interrupt | Prepare | FeedHold | CycleStop | MotionComplete | Resume | Abort

  /** The feed of the lines of an arc: an inverse time is multiplied by their number, and from then
      on taken for a speed. */
  function ArcFeed(data: P.LineData, count: nat): P.LineData {
    if data.inverseTime && count > 0 then data.(feedRate := data.feedRate * count as real, inverseTime := false)
    else data
  }

  /** So an arc takes the time that was programmed exactly if its lines are a millimetre long on average. */
  lemma ArcTimeIff(data: P.LineData, count: nat, length: real)
    requires data.inverseTime && data.feedRate > 0.0 && count > 0
    ensures var rate := ArcFeed(data, count).feedRate;
            rate > 0.0 && (length / rate == 1.0 / data.feedRate <==> length == count as real)
  {
    var f, n := data.feedRate, count as real;
    PositiveProduct(f, n);
    var rate := f * n;
    var q, p := length / rate, 1.0 / f;
    assert p * rate == n && (q - p) * rate == length - n;
    PositiveProduct(q - p, rate);
    PositiveProduct(p - q, rate);
  }

  class MotionControl {
    const generator: SegmentGenerator
    const softLimits: bool            // BITFLAG_SOFT_LIMIT_ENABLE
    const maxTravel: seq<real>        // settings.max_travel, stored as a negative value
    var jogging: bool                 // STATE_JOG
    var cycling: bool                 // STATE_CYCLE
    var checkMode: bool               // STATE_CHECK_MODE
    var aborted: bool                 // sys.abort

    ghost predicate Valid()
      reads this, generator, generator.planner, generator.planner.blocks, generator.driver,
            generator.driver.segmentBuffer, generator.driver.stBlockBuffer
    {
      && generator.Valid() && |maxTravel| == N_AXIS
      && |generator.planner.machine.stepsPerMm| == N_AXIS
      && (forall i :: 0 <= i < N_AXIS ==> generator.planner.machine.stepsPerMm[i] > 0.0)
      && (softLimits ==> CourseInside(generator.Course(), Reach()))
    }

    ghost function Reach(): Box
      requires |maxTravel| == |generator.planner.machine.stepsPerMm| == N_AXIS
      reads generator, generator.planner
    {
      TravelSteps(maxTravel, generator.planner.machine.stepsPerMm)
    }

    /** The last queued move is the one asked for. */
    ghost predicate Asked(data: P.LineData)
      reads generator.planner, generator.planner.blocks
    {
      generator.planner.Structured() && P.EndsAsAsked(generator.planner.Moves(), data)
    }

    /** With the machine where all it has to do is within reach, as it is at machine zero. */
    constructor (generator: SegmentGenerator, softLimits: bool, maxTravel: seq<real>)
      requires generator.Valid() && |maxTravel| == N_AXIS
      requires softLimits ==> CourseInside(generator.Course(),
                                           TravelSteps(maxTravel, generator.planner.machine.stepsPerMm))
      ensures Valid() && !aborted && !jogging && !cycling && !checkMode
      ensures this.generator == generator && this.softLimits == softLimits && this.maxTravel == maxTravel
    {
      hide CourseInside, CourseOf, TravelSteps, PI.Consistent, PI.RatesKept, PI.LastNominal, SumSquares, SG.Joined,
           ST.Inv, SR.Holds, D.InExecution;
      this.generator, this.softLimits, this.maxTravel := generator, softLimits, maxTravel;
      jogging, cycling, checkMode, aborted := false, false, false, false;
    }

    /** At power-up. */
    constructor PowerUp(machine: P.Machine, softLimits: bool, maxTravel: seq<real>)
      requires P.WellSet(machine) && |maxTravel| == N_AXIS && forall i :: 0 <= i < N_AXIS ==> maxTravel[i] <= 0.0
      ensures Valid() && !aborted && !jogging && !cycling && !checkMode && fresh(generator)
      ensures generator.planner.machine == machine && this.softLimits == softLimits && this.maxTravel == maxTravel
    {
      hide CourseInside, CourseOf, TravelSteps, PI.Consistent, PI.RatesKept, PI.LastNominal, SumSquares, SG.Joined,
           ST.Inv, SR.Holds, D.InExecution;
      StartsInside(maxTravel, machine.stepsPerMm);
      var start := new SegmentGenerator(machine);
      this.generator, this.softLimits, this.maxTravel := start, softLimits, maxTravel;
      jogging, cycling, checkMode, aborted := false, false, false, false;
    }

    /** INSIDE THE TRAVEL: at every moment the machine's step position is within reach. */
    lemma StaysInside()
      requires Valid() && softLimits
      ensures Inside(generator.driver.sysPosition, Reach())
    {
      hide ST.Inv;
    }

    /** Whatever happens between lines leaves the machine within reach. A cycle is resumed only when
        no hold is in progress. */
    method Proceed(activity: Activity)
      requires Valid()
      modifies this`aborted, this`jogging, this`cycling, generator, generator.planner`tail, generator.planner`planned,
               generator.planner`loaded, generator.planner`currentSpeed, generator.planner`recalculate,
                 generator.planner`holding, generator.planner.blocks,
               generator.driver, generator.driver.segmentBuffer, generator.driver.stBlockBuffer
      ensures Valid() && aborted == (old(aborted) || activity == Abort)
      ensures jogging == (old(jogging) && activity != MotionComplete)
      ensures activity == FeedHold || (old(generator.executeHold) && activity != CycleStop) ==> generator.executeHold
      ensures activity == FeedHold ==> !cycling && !generator.planner.loaded
      ensures activity == CycleStop ==> !generator.executeHold && !generator.planner.loaded
      ensures activity == Prepare ==>
                && generator.Course() == old(generator.Course())
                && (generator.endMotion || generator.planner.tail == generator.planner.head
                    || !generator.driver.HasRoom())
      ensures activity == Interrupt ==>
                && generator.Uncut() == old(generator.Uncut())
                && generator.TicksToGo() == old(generator.TicksToGo()) - if old(generator.Queued()) > 0 then 1 else 0
      ensures activity == Resume && !old(generator.executeHold) ==> !generator.endMotion && cycling == !jogging
      ensures activity == MotionComplete ==> !cycling
      ensures activity == MotionComplete || activity == Abort
              || (activity == Resume && old(generator.executeHold)) ==>
                unchanged(generator, generator.planner, generator.planner.blocks, generator.driver)
    {
      hide WithinTravel, CourseInside, CourseOf, TravelSteps, PI.Consistent, PI.RatesKept, PI.LastNominal,
           SumSquares, SG.Joined, ST.Inv, SR.Holds, D.InExecution, D.StepDriver.Matches, P.Planner.Valid;
      match activity
      case Interrupt => var cycleStop := generator.Tick();
      case Prepare => generator.PrepBuffer();
      case FeedHold =>
        generator.BeginHold();
        cycling := false;
      case CycleStop => generator.CycleStop();
      case MotionComplete => jogging, cycling := false, false;
      case Resume =>
        if !generator.executeHold {
          generator.Resume();
          cycling := !jogging;
        }
      case Abort => aborted := true;
    }

    /** `limits_soft_check`: a line that leaves the travel ends in an alarm and a system abort. In a cycle
        the machine is first brought to a stop by a feed hold; `meanwhile` is what happens until it is idle. */
    method SoftCheck(target: seq<real>, meanwhile: seq<Activity>)
      requires Valid() && |target| == |maxTravel| == N_AXIS
      modifies this`aborted, this`jogging, this`cycling, generator, generator.planner`tail, generator.planner`planned,
               generator.planner`loaded, generator.planner`currentSpeed, generator.planner`recalculate,
               generator.planner`holding, generator.planner.blocks, generator.driver,
               generator.driver.segmentBuffer, generator.driver.stBlockBuffer
      ensures Valid() && aborted == (old(aborted) || !WithinTravel(target, maxTravel)) && (jogging ==> old(jogging))
      ensures WithinTravel(target, maxTravel) || !old(cycling) ==>
                unchanged(generator, generator.planner, generator.planner.blocks, generator.driver)
      ensures !WithinTravel(target, maxTravel) && old(cycling) && CycleStop !in meanwhile ==>
                generator.executeHold
    {
      hide WithinTravel, CourseInside, CourseOf, TravelSteps, PI.Consistent, PI.RatesKept, PI.LastNominal,
           SumSquares, SG.Joined, ST.Inv, SR.Holds, D.InExecution;
      var exceeded := CheckTravelLimits(target, maxTravel);
      if exceeded {
        if cycling {
          StopCycle(meanwhile);
        }
        aborted := true;
      }
    }

    /** A feed hold, and what happens until the machine is idle or is reset. */
    method StopCycle(meanwhile: seq<Activity>)
      requires Valid()
      modifies this`aborted, this`jogging, this`cycling, generator, generator.planner`tail, generator.planner`planned,
               generator.planner`loaded, generator.planner`currentSpeed, generator.planner`recalculate,
               generator.planner`holding, generator.planner.blocks, generator.driver,
               generator.driver.segmentBuffer, generator.driver.stBlockBuffer
      ensures Valid() && (jogging ==> old(jogging)) && (CycleStop !in meanwhile ==> generator.executeHold)
    {
      hide *;
      Proceed(FeedHold);
      var i := 0;
      while i < |meanwhile| && !aborted
        invariant i <= |meanwhile| && Valid() && (jogging ==> old(jogging))
        invariant CycleStop !in meanwhile ==> generator.executeHold
      {
        Proceed(meanwhile[i]);
        i := i + 1;
      }
    }

    /** The loop of `mc_line` that waits for room in the planner's buffer while other things go on; it ends
        with room, with a system abort, or has to go on waiting. */
    method WaitForRoom(meanwhile: seq<Activity>) returns (room: bool)
      requires Valid() && !aborted
      modifies this`aborted, this`jogging, this`cycling, generator, generator.planner`tail, generator.planner`planned,
               generator.planner`loaded, generator.planner`currentSpeed, generator.planner`recalculate,
                 generator.planner`holding, generator.planner.blocks,
               generator.driver, generator.driver.segmentBuffer, generator.driver.stBlockBuffer
      ensures Valid() && (room ==> !aborted && !generator.planner.Full()) && (jogging ==> old(jogging))
      ensures aborted ==> Abort in meanwhile
      ensures !room ==> old(generator.planner.Full()) && (aborted || generator.planner.Full())
    {
      hide WithinTravel, CourseInside, CourseOf, TravelSteps, PI.Consistent, PI.RatesKept, PI.LastNominal,
           SumSquares, SG.Joined, ST.Inv, SR.Holds, D.InExecution;
      var i := 0;
      while i < |meanwhile| && generator.planner.Full()
        invariant i <= |meanwhile| && Valid() && !aborted && (jogging ==> old(jogging))
        invariant if i == 0 then generator.planner.Full() == old(generator.planner.Full())
                  else old(generator.planner.Full())
      {
        Proceed(meanwhile[i]);
        if aborted {
          return false;
        }
        i := i + 1;
      }
      room := !generator.planner.Full();
    }

    /** `mc_line`; true when the line has been handed to the planner. */
    method MoveLine(target: seq<real>, data: P.LineData, meanwhile: seq<Activity>) returns (planned: bool)
      requires Valid() && |target| == N_AXIS
      requires softLimits && jogging ==> WithinTravel(target, maxTravel)
      modifies this`aborted, this`jogging, this`cycling, generator, generator.planner, generator.planner.blocks,
               generator.driver, generator.driver.segmentBuffer, generator.driver.stBlockBuffer
      ensures Valid() && (jogging ==> old(jogging))
      ensures softLimits && !WithinTravel(target, maxTravel) ==>
                && aborted && generator.planner.position == old(generator.planner.position)
                && (old(cycling) || generator.Course() == old(generator.Course()))
      ensures aborted ==> old(aborted) || (softLimits && !WithinTravel(target, maxTravel)) || Abort in meanwhile
      ensures planned ==>
                !aborted && !checkMode
                && P.LeadsTo(generator.planner.position, target, generator.planner.machine.stepsPerMm)
      ensures !planned ==> generator.planner.position == old(generator.planner.position)
      ensures generator.planner.position != old(generator.planner.position) ==> Asked(data)
      ensures !planned ==> old(aborted) || checkMode || (softLimits && !WithinTravel(target, maxTravel))
                           || (old(generator.planner.Full()) && (aborted || generator.planner.Full()))
    {
      hide WithinTravel, CourseInside, StepsInside, CourseOf, P.LeadsTo, P.EndsAsAsked, TravelSteps, PI.Consistent,
           PI.RatesKept,
           PI.LastNominal, SumSquares, SG.Joined, ST.Inv, SR.Holds, D.InExecution,
           D.StepDriver.Matches;
      if softLimits {
        if !jogging {
          SoftCheck(target, meanwhile);
        }
      }
      if checkMode || aborted {
        return false;
      }
      planned := WaitForRoom(meanwhile);
      if planned {
        var queued := generator.BufferLine(target, data);
        if softLimits {
          TravelInSteps(generator.planner.position, target, maxTravel, generator.planner.machine.stepsPerMm);
        }
      }
    }

    lemma AskedIsQueued(data: P.LineData)
      requires Valid()
      ensures Asked(data) ==> generator.planner.tail != generator.planner.head
    {
      hide CourseInside, CourseOf, TravelSteps, PI.Consistent, PI.RatesKept, PI.LastNominal, SumSquares, SG.Joined,
           ST.Inv, SR.Holds, D.InExecution;
      generator.PlannerPlanned();
    }

    /** `jog_execute`; false when the target exceeds the travel. The feed of a jog is not overridden; when idle,
        the machine starts to jog at once, its segments prepared. */
    method JogExecute(target: seq<real>, data: P.LineData, idle: bool, meanwhile: seq<Activity>) returns (ok: bool)
      requires Valid() && |target| == N_AXIS && !aborted && !checkMode
      modifies this`aborted, this`jogging, this`cycling, generator, generator.planner, generator.planner.blocks,
               generator.driver, generator.driver.segmentBuffer, generator.driver.stBlockBuffer
      ensures Valid() && (aborted ==> Abort in meanwhile)
      ensures ok == (!softLimits || WithinTravel(target, maxTravel))
      ensures !ok ==>
                generator.planner.position == old(generator.planner.position)
                && generator.Course() == old(generator.Course())
      ensures ok ==> aborted || generator.planner.position == old(generator.planner.position)
                     || P.LeadsTo(generator.planner.position, target, generator.planner.machine.stepsPerMm)
      ensures ok && !old(generator.planner.Full()) ==>
                P.LeadsTo(generator.planner.position, target, generator.planner.machine.stepsPerMm)
      ensures !idle && generator.planner.position != old(generator.planner.position) ==>
                Asked(data.(noFeedOverride := true))
      ensures idle && generator.planner.position != old(generator.planner.position) ==> jogging
      ensures jogging && !old(jogging) ==>
                idle && ok && (generator.endMotion || generator.planner.tail == generator.planner.head
                               || !generator.driver.HasRoom())
    {
      hide WithinTravel, CourseInside, CourseOf, P.LeadsTo, TravelSteps, PI.Consistent, PI.RatesKept, PI.LastNominal,
           SumSquares, SG.Joined, ST.Inv, SR.Holds, D.InExecution, D.StepDriver.Matches;
      if softLimits {
        var exceeded := CheckTravelLimits(target, maxTravel);
        if exceeded {
          return false;
        }
      }
      var planned := MoveLine(target, data.(noFeedOverride := true), meanwhile);
      AskedIsQueued(data.(noFeedOverride := true));
      if idle && generator.planner.tail != generator.planner.head {
        jogging := true;
        generator.PrepBuffer();
      }
      ok := true;
    }

    /** One line of several; false when the others are not to follow (yet). */
    method HandOver(line: seq<real>, data: P.LineData, meanwhile: seq<Activity>) returns (on: bool)
      requires Valid() && !jogging && !aborted && |line| == N_AXIS
      modifies this`aborted, this`jogging, this`cycling, generator, generator.planner, generator.planner.blocks,
               generator.driver, generator.driver.segmentBuffer, generator.driver.stBlockBuffer
      ensures Valid() && !jogging
      ensures on ==> !aborted && (softLimits ==> WithinTravel(line, maxTravel))
      ensures !on ==> aborted || (!checkMode && generator.planner.Full())
      ensures aborted ==> (softLimits && !WithinTravel(line, maxTravel)) || Abort in meanwhile
      ensures if !on || checkMode then generator.planner.position == old(generator.planner.position)
              else P.LeadsTo(generator.planner.position, line, generator.planner.machine.stepsPerMm)
      ensures generator.planner.position != old(generator.planner.position) ==> Asked(data)
    {
      hide *;
      var planned := MoveLine(line, data, meanwhile);
      on := !aborted && (planned || checkMode);
    }

    /** Lines are handed over one after the other until a system abort; `done` of them have been. */
    method MoveLines(lines: seq<seq<real>>, data: P.LineData, meanwhile: nat -> seq<Activity>) returns (done: nat)
      requires Valid() && !jogging && !aborted && forall i :: 0 <= i < |lines| ==> |lines[i]| == N_AXIS
      modifies this`aborted, this`jogging, this`cycling, generator, generator.planner, generator.planner.blocks,
               generator.driver, generator.driver.segmentBuffer, generator.driver.stBlockBuffer
      ensures Valid() && !jogging && done <= |lines|
      ensures softLimits ==> forall i :: 0 <= i < done ==> WithinTravel(lines[i], maxTravel)
      ensures done < |lines| ==> aborted || (!checkMode && generator.planner.Full())
      ensures aborted ==>
                && done < |lines|
                && ((softLimits && !WithinTravel(lines[done], maxTravel)) || Abort in meanwhile(done))
      ensures if done == 0 || checkMode then generator.planner.position == old(generator.planner.position)
              else P.LeadsTo(generator.planner.position, lines[done - 1], generator.planner.machine.stepsPerMm)
      ensures done == |lines| == 1 && generator.planner.position != old(generator.planner.position) ==>
                Asked(data)
      ensures done == |lines| > 1 && !checkMode
              && !P.LeadsTo(generator.planner.position, lines[done - 2], generator.planner.machine.stepsPerMm) ==>
                Asked(data)
    {
      hide *;
      done := 0;
      while done < |lines|
        invariant done <= |lines| && Valid() && !jogging && !aborted
        invariant softLimits ==> forall i :: 0 <= i < done ==> WithinTravel(lines[i], maxTravel)
        invariant if done == 0 || checkMode then generator.planner.position == old(generator.planner.position)
                  else P.LeadsTo(generator.planner.position, lines[done - 1], generator.planner.machine.stepsPerMm)
        invariant done == 1 && generator.planner.position != old(generator.planner.position) ==>
                    Asked(data)
        invariant done > 1 && !checkMode
                  && !P.LeadsTo(generator.planner.position, lines[done - 2], generator.planner.machine.stepsPerMm) ==>
                    Asked(data)
      {
        var on := HandOver(lines[done], data, meanwhile(done));
        if !on {
          return;
        }
        done := done + 1;
      }
    }

    /** `mc_arc`: every line of the arc goes through `mc_line`; the rest of the arc is dropped at a system
        abort. */
    method MoveArc(target: seq<real>, data: P.LineData, position: array<real>, offset: seq<real>, radius: real,
                   axis0: nat, axis1: nat, axisLinear: nat, clockwise: bool, tolerance: real, trig: AA.Trig,
                   meanwhile: nat -> seq<Activity>)
      returns (count: AM.SegmentCount, lines: seq<seq<real>>, angularTravel: real, done: nat)
      requires Valid() && !jogging && !aborted
      requires AM.Distinct(axis0, axis1, axisLinear) && |target| == position.Length == |offset| == N_AXIS
               && AA.IsTrig(trig)
      modifies position, this`aborted, this`jogging, this`cycling, generator, generator.planner,
               generator.planner.blocks, generator.driver, generator.driver.segmentBuffer,
                 generator.driver.stBlockBuffer
      ensures Valid() && !jogging
      ensures var c := AM.CircleOf(old(position[..]), offset, axis0, axis1, axisLinear);
              && AM.Sweeps(angularTravel, c, target[axis0], target[axis1], clockwise, trig)
              && (if !count.Segments? then lines == []
                  else AM.IsArc(lines, count.n, c, angularTravel, old(position[axisLinear]), target, trig))
      ensures done <= |lines| && forall i :: 0 <= i < |lines| ==> |lines[i]| == N_AXIS
      ensures softLimits ==> forall i :: 0 <= i < done ==> WithinTravel(lines[i], maxTravel)
      ensures done < |lines| ==> aborted || (!checkMode && generator.planner.Full())
      ensures aborted ==>
                && done < |lines|
                && ((softLimits && !WithinTravel(lines[done], maxTravel)) || Abort in meanwhile(done))
      ensures if done == 0 || checkMode then generator.planner.position == old(generator.planner.position)
              else P.LeadsTo(generator.planner.position, lines[done - 1], generator.planner.machine.stepsPerMm)
      ensures done == |lines| == 1 && generator.planner.position != old(generator.planner.position) ==>
                count.Segments? && Asked(ArcFeed(data, count.n))
      ensures done == |lines| > 1 && !checkMode
              && !P.LeadsTo(generator.planner.position, lines[done - 2], generator.planner.machine.stepsPerMm) ==>
                count.Segments? && Asked(ArcFeed(data, count.n))
    {
      hide *;
      HasRoot();
      count, lines, angularTravel :=
        AM.Arc(target, position, offset, radius, axis0, axis1, axisLinear, clockwise, tolerance,
               generator.planner.machine.root, trig);
      if count.Segments? {
        done := MoveLines(lines, ArcFeed(data, count.n), meanwhile);
      } else {
        done := 0;
      }
    }

    lemma HasRoot()
      requires Valid()
      ensures IsRoot(generator.planner.machine.root)
    {
    }
  }
}
