/** The stepper module's main-program half: planner blocks are taken up, given a velocity
    profile and cut into segments for the step interrupt. */
module SegmentGenerator {
  import opened NutsBolts
  import opened Kinematics
  import opened PlanSpec
  import opened PlanRuns
  import opened PlannerRing
  import opened PlannerQueue
  import opened PlannerInvariant
  import opened VelocityProfile
  import opened SegmentTime
  import opened SegmentBuilder
  import opened StepCount
  import opened Stepping
  import P = Planner
  import D = StepDriver
  import SM = StepModel
  import ST = StepTheorems
  import SR = SegmentRing
  import TB = TravelBox
  import Draining

  class SegmentGenerator {
    const planner: P.Planner
    const driver: D.StepDriver
    var profile: Profile
    var stepsRemaining: real
    var stepPerMm: real
    var reqMmIncrement: real
    var dtRemainder: real
    var executeHold: bool         // STEP_CONTROL_EXECUTE_HOLD
    var endMotion: bool           // STEP_CONTROL_END_MOTION
    var decelOverride: bool       // PREP_FLAG_DECEL_OVERRIDE
    ghost var rejoined: bool

    ghost function Now(): Status
      requires planner.Structured()
      reads this, planner, planner.blocks, driver
    {
      Status(planner.Moves(), planner.State(), planner.position, planner.machine.feedOverride,
             planner.machine.rapidOverride,
             planner.loaded, planner.recalculate, planner.currentSpeed, driver.model, profile,
             stepsRemaining, stepPerMm, reqMmIncrement, endMotion, decelOverride, rejoined)
    }

    /** How many segments wait for the interrupt. */
    ghost function Queued(): nat
      reads driver
    {
      |driver.model.flow.queue|
    }

    /** What the machine has still to do. */
    ghost function Course(): TB.Course
      reads driver
    {
      TB.CourseOf(driver.model)
    }

    /** Step events still to be cut into segments, and interrupts until those cut have been executed. */
    ghost function Uncut(): nat
      reads driver
    {
      Draining.Uncut(driver.model)
    }

    ghost function TicksToGo(): nat
      reads driver
    {
      Draining.TicksToGo(driver.model.flow)
    }

    /** CPU cycles until the segments cut have been executed. */
    ghost function CyclesToGo(): nat
      reads driver
    {
      Draining.CyclesToGo(driver.model.flow)
    }

    /** The segment handed over last. */
    ghost function Newest(): SM.Work
      requires Queued() > 0
      reads driver
    {
      driver.model.flow.queue[Queued() - 1]
    }

    /** The time in which the executing block is still to be cut up: what its profile takes from here,
        and the part of a step the last segment has left over. */
    ghost function TimeToGo(): real
      requires planner.Structured()
      reads this, planner, planner.blocks
    {
      dtRemainder + if planner.loaded then
        TimeLeft(profile, planner.blocks[planner.tail].acceleration, planner.blocks[planner.tail].millimeters)
      else 0.0
    }

    /** What the next segment is counted too long, the one that ends the first ramp late. */
    ghost function LateBy(): real
      requires planner.Structured()
      reads this, planner, planner.blocks
    {
      var b := planner.blocks[planner.tail];
      Overtime(profile, b.acceleration, b.millimeters, MinimumMm(b.millimeters, reqMmIncrement))
    }

    ghost predicate Valid()
      reads this, planner, planner.blocks, driver, driver.segmentBuffer, driver.stBlockBuffer
    {
      && planner.Valid() && driver.Valid()
      && executeHold == planner.holding && dtRemainder >= 0.0
      && Joined(Now())
    }

    /** The stepper and planner subsystems at power-up. */
    constructor (machine: P.Machine)
      requires P.WellSet(machine)
      ensures Valid() && fresh(planner) && fresh(driver) && fresh(planner.blocks)
      ensures fresh(driver.segmentBuffer) && fresh(driver.stBlockBuffer)
      ensures planner.machine == machine && driver.model == SM.Start(SM.Axes(0, 0, 0))
      ensures planner.position == [0, 0, 0] && driver.sysPosition == SM.Axes(0, 0, 0) && planner.Moves() == []
    {
      hide ST.Inv, P.WellSet;
      planner := new P.Planner(machine);
      driver := new D.StepDriver(SM.Axes(0, 0, 0));
      profile := Profile(Accel, 0.0, 0.0, 0.0, 0.0, 0.0, 0.0);
      stepsRemaining, stepPerMm, reqMmIncrement, dtRemainder := 0.0, 0.0, 0.0, 0.0;
      executeHold, endMotion, decelOverride, rejoined := false, false, false, false;
    }

    /** What the planner's invariant says about its queue and plan. */
    lemma PlannerPlanned()
      requires planner.Valid()
      ensures Planned(Now()) && planner.State().holding == planner.holding
      ensures planner.Moves() != [] <==> planner.tail != planner.head
      ensures planner.Moves() != [] ==>
                planner.Moves()[0] == planner.blocks[planner.tail] && planner.State().planned < |planner.State().q|
      ensures planner.Moves() != [] && !planner.loaded ==>
                planner.State().q[0].entry == planner.blocks[planner.tail].entry
    {
      PlanMatches(planner.Mem(), planner.tail, planner.head, planner.currentSpeed, planner.holding);
      hide Sound, RatesKept, SumSquares, Gain, Square, NominalSpeed, AllSlotsPhysical;
    }

    /** THE MACHINE ARRIVES: whenever the planner's queue and the segment buffer are empty, the
        machine stands exactly, to the step, where the planner is, whatever moves, holds,
        resumptions and interrupts have come before. */
    lemma Arrives()
      requires Valid() && planner.tail == planner.head && driver.segmentTail == driver.segmentHead
      ensures driver.sysPosition == SM.Axes(planner.position[0], planner.position[1], planner.position[2])
    {
      hide Consistent, RatesKept, SumSquares, Sound, ST.Inv, SpeedsJoined, SM.Drained;
      PlannerPlanned();
      NothingPending(Now());
      D.TickFacts(driver.segmentBuffer[..], driver.stBlockBuffer[..], driver.segmentTail, driver.segmentHead,
                  driver.model);
      DrainedMachine(driver.model);
    }

    /** THE HOLD IS AT REST: when it has ended, and whenever nothing is queued, the speed is zero. */
    lemma AtRest()
      requires Valid() && (endMotion || planner.tail == planner.head)
      ensures planner.currentSpeed == 0.0
    {
      hide Joined, ST.Inv, Consistent, RatesKept, SumSquares, Sound, PlanOf, Queue, LastNominal, P.LastAlong,
           P.WellSet, SR.Holds, D.InExecution;
      PlannerPlanned();
      EndsAtRest(Now());
    }

    /** Where the planner is. */
    ghost function Target(): SM.Axes<int>
      requires |planner.position| == N_AXIS
      reads planner
    {
      SM.Axes(planner.position[0], planner.position[1], planner.position[2])
    }

    /** There is room for a segment, or one waits for the interrupt. */
    lemma QueueSeen()
      requires Valid()
      ensures Queued() == 0 <==> driver.segmentTail == driver.segmentHead
      ensures Queued() == 0 ==> driver.HasRoom()
    {
      hide Joined, Consistent, RatesKept, SumSquares, Sound, PlanOf, Queue, LastNominal, P.LastAlong, P.WellSet,
           ST.Inv, SR.SegmentHeld;
      D.TickFacts(driver.segmentBuffer[..], driver.stBlockBuffer[..], driver.segmentTail, driver.segmentHead,
                  driver.model);
    }

    /** `plan_buffer_line`; the driver is told, for the record, of the move to come. */
    method BufferLine(target: seq<real>, data: P.LineData) returns (ok: bool)
      requires Valid() && !planner.Full() && |target| == N_AXIS
      modifies planner, planner.blocks, driver`model
      ensures Valid() && P.LeadsTo(planner.position, target, planner.machine.stepsPerMm)
      ensures planner.position != old(planner.position) ==> P.EndsAsAsked(planner.Moves(), data)
      ensures forall box ::
                TB.CourseInside(old(Course()), box) && TB.StepsInside(planner.position, box) ==>
                  TB.CourseInside(Course(), box)
    {
      hide TB.CourseInside, TB.CourseOf, TB.StepsInside, P.Appended, P.LeadsTo, P.DescribesMove, P.Described, Joined,
           ST.Inv, SM.Step, D.InExecution, Consistent, RatesKept, SumSquares, Sound, PlanOf, Queue, LastNominal,
           P.LastAlong, P.WellSet, SR.Holds, P.EndsAsAsked, D.StepDriver.Matches;
      PlannerPlanned();
      ghost var s, v := Now(), planner.View();
      ok := planner.BufferLine(target, data);
      if ok {
        ghost var b :| && P.Appended(v, planner.View(), b, s.feedOverride, s.rapidOverride)
                       && P.DescribesMove(b, s.position, planner.position)
                       && P.Described(b, data, planner.machine, s.moves);
        TellDriver(s, v, b);
      } else {
        assert Now() == s;
      }
    }

    ghost method TellDriver(s: Status, v: P.Snapshot, b: PlanBlock)
      requires planner.Valid() && driver.Valid() && executeHold == planner.holding && dtRemainder >= 0.0
      requires Joined(s) && Planned(s) && (s.plan.q != [] ==> s.plan.planned < |s.plan.q|)
      requires v == P.Snap(s.moves, s.position, s.plan, s.loaded, s.recalculate)
      requires P.Appended(v, planner.View(), b, s.feedOverride, s.rapidOverride)
               && P.DescribesMove(b, s.position, planner.position)
      requires Now() == s.(moves := planner.Moves(), plan := planner.State(), loaded := planner.loaded,
                           recalculate := planner.recalculate, position := planner.position)
      modifies driver`model
      ensures Valid()
      ensures forall box ::
                TB.CourseInside(old(Course()), box) && TB.StepsInside(planner.position, box) ==>
                  TB.CourseInside(Course(), box)
    {
      hide TB.CourseInside, TB.CourseOf, TB.StepsInside, P.Appended, P.DescribesMove, Joined, Planned, ST.Inv,
           SM.Step, D.InExecution, Consistent, RatesKept, SumSquares, Sound, PlanOf, Queue, LastNominal, P.LastAlong,
           P.WellSet, SR.Holds;
      BlockIsSized(b, s.position, planner.position);
      driver.BlockPlanned(MoveOf(b));
      LineJoins(s, Now(), v, planner.View(), b);
    }

    /** A feed hold is issued (protocol.c): the executing block is to brake from here. */
    method BeginHold()
      requires Valid()
      modifies this`executeHold, planner`loaded, planner`recalculate, planner`holding, planner.blocks
      ensures Valid() && executeHold && !planner.loaded
    {
      hide Joined, ST.Inv, Consistent, RatesKept, SumSquares, Sound, PlanRuns.Step, PlanOf, Queue, LastNominal,
           P.LastAlong, P.WellSet, SR.Holds, D.InExecution;
      PlannerPlanned();
      ghost var s := Now();
      planner.BeginHold();
      executeHold := true;
      HeldPlan(s.plan);
      PlannerPlanned();
      HoldKeeps(s, Now());
    }

    /** The interrupt has stopped: the plan is redone from here (protocol.c, EXEC_CYCLE_STOP). */
    method CycleStop()
      requires Valid()
      modifies this`executeHold, this`rejoined, planner`planned, planner`loaded, planner`recalculate, planner`holding,
               planner.blocks
      ensures Valid() && !executeHold && !planner.loaded
      ensures endMotion == old(endMotion)
    {
      hide Joined, ST.Inv, Consistent, RatesKept, SumSquares, Sound, PlanRuns.Step, PlanOf, Queue, LastNominal,
           P.LastAlong, P.WellSet, SR.Holds, D.InExecution, SameMoves, D.StepDriver.Matches;
      PlannerPlanned();
      ghost var s := Now();
      planner.CycleReinitialize();
      executeHold := false;
      rejoined := rejoined || !Started(s);
      CycleStopJoins(s);
    }

    lemma CycleStopJoins(s: Status)
      requires planner.Valid() && Joined(s) && |s.plan.q| == |s.moves|
      requires SameMoves(planner.Moves(), s.moves) && !planner.holding && !planner.loaded
      requires planner.recalculate == (s.recalculate || s.loaded)
      requires s.moves != [] ==> s.plan.planned < |s.plan.q| && planner.State() == Step(s.plan, Reinitialize)
      requires Now() == s.(moves := planner.Moves(), plan := planner.State(), loaded := false,
                           recalculate := planner.recalculate, rejoined := s.rejoined || !Started(s))
      ensures Joined(Now())
    {
      hide Joined, Consistent, RatesKept, SumSquares, Sound, PlanRuns.Step, PlanOf, Queue, LastNominal, P.LastAlong,
           P.WellSet, SameMoves;
      PlannerPlanned();
      CycleStopKeeps(s, Now());
    }

    /** A cycle starts, or a completed hold is resumed: STEP_CONTROL_NORMAL_OP. */
    method Resume()
      requires Valid() && !executeHold
      modifies this`endMotion
      ensures Valid() && !endMotion
    {
      hide Joined, ST.Inv, Consistent, RatesKept, SumSquares, Sound, PlanOf, Queue, LastNominal, P.LastAlong,
           P.WellSet, SR.Holds, D.InExecution;
      PlannerPlanned();
      ghost var s := Now();
      endMotion := false;
      ResumeKeeps(s, Now());
    }

    // -------------------------------------------------------------------------
    // st_prep_buffer: a new block, or a re-planned one
    // -------------------------------------------------------------------------

    /** As `Valid`, with the velocity profile of the executing block still to be computed. */
    ghost predicate ProfilePending()
      reads this, planner, planner.blocks, driver, driver.segmentBuffer, driver.stBlockBuffer
    {
      && planner.Valid() && driver.Valid()
      && executeHold == planner.holding && dtRemainder >= 0.0
      && planner.tail != planner.head
      && planner.blocks[planner.tail].entry == Square(planner.currentSpeed)
      && TakenUp(Now())
    }

    /** Only the velocity profile of a partly executed block is to be recomputed. */
    method Retake()
      requires Valid() && !planner.loaded && planner.recalculate && !endMotion
      modifies this`decelOverride, planner`loaded, planner`currentSpeed, planner`recalculate, planner.blocks
      ensures ProfilePending()
      ensures driver.HasRoom() == old(driver.HasRoom()) && planner.currentSpeed == old(planner.currentSpeed)
    {
      hide Joined, ST.Inv, Consistent, RatesKept, SumSquares, Sound, PlanRuns.Step, PlanRuns.Allowed, TakenUp,
           Square, PlanOf, Queue, LastNominal, P.LastAlong, P.WellSet, SR.Holds, D.InExecution;
      PlannerPlanned();
      ghost var s := Now();
      RetakeReady(s);
      TakeUpAllowed(s, s.speed);
      planner.TakeUp(planner.currentSpeed, false);
      decelOverride := false;
      TravelledPlan(s.plan, Square(s.speed), s.plan.q[0].gain);
      RetakeKeeps(s, Now());
    }

    /** The speed a new block is taken up at. In a hold, or when a deceleration override went
        on to the end of the last block, it goes on from where that block was left. */
    method EntrySpeed() returns (speed: real, midHold: bool)
      requires Valid() && !Started(Now()) && planner.tail != planner.head
      ensures speed >= 0.0 && midHold == (executeHold || decelOverride)
      ensures 0.0 <= Square(speed) <= planner.State().q[0].entry
      ensures planner.holding || Square(speed) == planner.State().q[0].entry
      ensures !midHold ==> Square(speed) == planner.State().q[0].entry
      ensures midHold || !rejoined ==> speed == planner.currentSpeed
      ensures speed == planner.currentSpeed <==> midHold || Continuous(Now())
    {
      hide ST.Inv, Consistent, RatesKept, SumSquares, StepsAccounted, ProfileFits, Square, IsRoot;
      PlannerPlanned();
      SquareSign(profile.exitSpeed);
      midHold := executeHold || decelOverride;
      if midHold {
        speed := profile.exitSpeed;
      } else {
        EntryNonnegative(Now());
        speed := TakeRoot(planner.blocks[planner.tail].entry, planner.machine.root);
        SameSquare(speed, profile.exitSpeed);
      }
    }

    /** The Bresenham data and the step figures of the next block. */
    method LoadSteps()
      requires Valid() && !Started(Now()) && planner.tail != planner.head && driver.HasRoom()
      modifies this`stepsRemaining, this`stepPerMm, this`reqMmIncrement, this`dtRemainder, driver, driver.stBlockBuffer
      ensures planner.Valid() && driver.Valid() && executeHold == planner.holding && dtRemainder == 0.0
      ensures driver.HasRoom() && Queued() == old(Queued()) && Course() == old(Course())
      ensures Loaded(old(Now()), Now())
    {
      hide Joined, Sound, Planned, ST.Inv, Consistent, RatesKept, SumSquares, SM.Step, D.InExecution, PlanOf, Queue,
           SR.Holds, SR.BlockSlot, LastNominal, P.LastAlong, P.WellSet, TB.CourseOf, SM.Runnable,
           D.StepDriver.Matches;
      PlannerPlanned();
      ghost var s := Now();
      NextMove(s);
      var b := planner.blocks[planner.tail];
      driver.LoadBlock(MoveOf(b));
      LoadQueue(s.model);
      TB.LoadKeepsCourse(s.model);
      stepsRemaining := b.stepEventCount as real;
      stepPerMm := stepsRemaining / b.millimeters;
      PositiveRate(b.stepEventCount, b.millimeters);
      reqMmIncrement := REQ_MM_INCREMENT_SCALAR / stepPerMm;
      dtRemainder := 0.0;
    }

    /** A new planner block is taken up. */
    method LoadNewBlock()
      requires Valid() && !Started(Now()) && planner.tail != planner.head && driver.HasRoom() && !endMotion
      modifies this, planner`loaded, planner`currentSpeed, planner`recalculate, planner.blocks, driver,
               driver.stBlockBuffer
      ensures ProfilePending() && driver.HasRoom() && executeHold == old(executeHold) && !endMotion
      ensures dtRemainder == 0.0
      ensures Queued() == old(Queued()) && Course() == old(Course())
      ensures Uncut() == old(Uncut()) && TicksToGo() == old(TicksToGo())
      ensures old(executeHold || decelOverride || !rejoined) ==> planner.currentSpeed == old(planner.currentSpeed)
      ensures planner.currentSpeed == old(planner.currentSpeed) <==>
              old(executeHold || decelOverride || Continuous(Now()))
    {
      hide Joined, ST.Inv, Consistent, RatesKept, SumSquares, Sound, PlanRuns.Step, PlanRuns.Allowed, TakenUp,
           Square, SM.Step, SM.Ready, PlanOf, Queue, D.InExecution, SR.Holds, SR.BlockSlot, LastNominal, P.LastAlong,
           P.WellSet, TB.CourseOf, Planned, Draining.Uncut, Draining.TicksToGo;
      ghost var s := Now();
      var speed, midHold := EntrySpeed();
      LoadSteps();
      Draining.LoadUncut(s.model);
      EnterBlock(s, speed, midHold);
    }

    /** The block, whose steps have been loaded, is entered at its speed. */
    method EnterBlock(ghost s: Status, speed: real, midHold: bool)
      requires planner.Valid() && driver.Valid() && executeHold == planner.holding && dtRemainder >= 0.0
      requires Joined(s) && !Started(s) && planner.tail != planner.head && !endMotion
      requires Loaded(s, Now())
      requires speed >= 0.0 && 0.0 <= Square(speed) <= planner.State().q[0].entry
      requires planner.holding || Square(speed) == planner.State().q[0].entry
      requires !midHold ==> Square(speed) == planner.State().q[0].entry
      modifies this`decelOverride, this`profile, this`rejoined, planner`loaded, planner`currentSpeed,
               planner`recalculate, planner.blocks
      ensures ProfilePending() && planner.currentSpeed == speed
    {
      hide Joined, ST.Inv, Consistent, RatesKept, SumSquares, Sound, PlanRuns.Step, PlanRuns.Allowed, TakenUp,
           Square, SM.Step, SM.Ready, PlanOf, Queue, D.InExecution, SR.Holds, SR.BlockSlot, LastNominal, P.LastAlong,
           P.WellSet,
           D.StepDriver.Matches;
      PlannerPlanned();
      TakeUpAllowed(Now(), speed);
      TravelledPlan(s.plan, Square(speed), s.plan.q[0].gain);
      decelOverride := false;
      profile := profile.(currentSpeed := speed);
      rejoined := false;
      planner.TakeUp(speed, midHold);
      LoadKeeps(s, Now());
    }

    /** The velocity profile of the block just taken up. */
    method FitProfile()
      requires ProfilePending()
      modifies this`profile, this`decelOverride
      ensures Valid() && planner.loaded && profile.currentSpeed == old(profile.currentSpeed)
    {
      hide Joined, ST.Inv, Consistent, RatesKept, SumSquares, Sound, StepsAccounted, Square, Brakes, IsFastest,
           Moving, Plannable, IsRoot, NominalSpeed, Gained, PlanOf, Queue, LastNominal, P.LastAlong;
      PlannerPlanned();
      ghost var s := Now();
      PendingLeg(s);
      var b := planner.blocks[planner.tail];
      var exitSpeedSqr := planner.ExecBlockExitSpeedSqr();
      var nominalSpeed := NominalSpeed(b, planner.machine.feedOverride, planner.machine.rapidOverride);
      var leg := Leg(b.acceleration, b.millimeters, b.entry, exitSpeedSqr, nominalSpeed);
      assert leg == LegOf(s);
      var p, recalculate := ComputeProfile(profile, leg, executeHold, planner.machine.root);
      ProfileKeeps(s, p, recalculate);
      profile, decelOverride := p, recalculate;
    }

    /** Whatever block is at the tail is in hand and has a profile; false without a block. */
    method TakeUpBlock() returns (ready: bool)
      requires Valid() && driver.HasRoom() && !endMotion
      modifies this, planner`loaded, planner`currentSpeed, planner`recalculate, planner.blocks, driver,
               driver.stBlockBuffer
      ensures Valid() && driver.HasRoom() && !endMotion
      ensures Queued() == old(Queued()) && Course() == old(Course())
      ensures Uncut() == old(Uncut()) && TicksToGo() == old(TicksToGo())
      ensures old(executeHold || decelOverride || !rejoined) ==> planner.currentSpeed == old(planner.currentSpeed)
      ensures planner.currentSpeed == old(planner.currentSpeed) <==>
              old(executeHold || decelOverride || Continuous(Now()))
      ensures ready == old(planner.tail != planner.head)
              && (if ready then planner.loaded else planner.tail == planner.head)
      ensures ready ==> dtRemainder == if old(planner.loaded || planner.recalculate) then old(dtRemainder) else 0.0
    {
      hide Joined, TakenUp, ST.Inv, Consistent, RatesKept, SumSquares, Sound, Square, PlanOf, Queue, LastNominal,
           P.LastAlong, P.WellSet, SR.Holds, D.InExecution, SR.BlockSlot, TB.CourseOf, Draining.Uncut,
           Draining.TicksToGo;
      PlannerPlanned();
      ready := planner.tail != planner.head;
      if !ready || planner.loaded {
        StartedContinuous(Now());
        return;
      }
      if planner.recalculate {
        StartedContinuous(Now());
        Retake();
      } else {
        LoadNewBlock();
      }
      FitProfile();
    }

    // -------------------------------------------------------------------------
    // st_prep_buffer: one segment
    // -------------------------------------------------------------------------

    /** The end of a feed hold, and not a step to execute: no segment is generated. */
    method Bail(p: Profile, mm: real, ghost minimumMm: real)
      requires Valid() && planner.loaded && !endMotion && planner.tail != planner.head
      requires Cut(profile, p, planner.blocks[planner.tail].acceleration, planner.blocks[planner.tail].millimeters,
                   mm, minimumMm)
      requires mm == p.mmComplete > 0.0
      modifies this`profile, this`endMotion, planner`currentSpeed, planner.blocks
      ensures Valid() && endMotion && driver.model == old(driver.model) && profile == p
      ensures planner.blocks[planner.tail].acceleration == old(planner.blocks[planner.tail].acceleration)
    {
      hide Joined, ST.Inv, Consistent, RatesKept, SumSquares, Sound, PlanRuns.Step, PlanRuns.Allowed, Square, Gained,
           Cut, PlanOf, Queue, LastNominal, P.LastAlong, P.WellSet, IsFastest, Brakes;
      PlannerPlanned();
      ghost var s := Now();
      CutLeads(s, p, mm, minimumMm);
      BailAllowed(s, p);
      TravelledPlan(s.plan, Square(p.currentSpeed), s.plan.q[0].gain);
      planner.Advance(planner.blocks[planner.tail].millimeters, p.currentSpeed);
      profile := p;
      endMotion := true;
      PlannerPlanned();
      BailKeeps(s, Now(), p, mm, minimumMm);
    }

    /** The steps of a segment are made visible to the interrupt. */
    method PushSteps(mm: real, dt: real, ghost n: nat)
      requires Valid() && planner.loaded && !endMotion && planner.tail != planner.head && driver.HasRoom()
      requires dt > 0.0 && 0.0 <= mm <= planner.blocks[planner.tail].millimeters
      requires Ceil(Times(stepPerMm, mm)) < Ceil(stepsRemaining)
               && n == Ceil(stepsRemaining) - Ceil(Times(stepPerMm, mm))
      modifies this`stepsRemaining, this`dtRemainder, driver, driver.segmentBuffer
      ensures driver.Valid() && dtRemainder >= 0.0
      ensures Queued() == old(Queued()) + 1 && Course() == old(Course())
      ensures Handed(old(driver.model), driver.model, n)
      ensures Newest().events == n
              && Paced(n, Newest().level, Newest().cyclesPerTick, old(dtRemainder) + dt - dtRemainder)
      ensures CyclesToGo() == old(CyclesToGo()) + Draining.Cycles(Newest())
      ensures mm == 0.0 ==> dtRemainder == 0.0
      ensures stepsRemaining == driver.model.flow.remaining as real
      ensures InSteps(mm, stepsRemaining, stepPerMm, reqMmIncrement, driver.model.flow.remaining)
    {
      hide Joined, ST.Inv, Consistent, RatesKept, SumSquares, Sound, PlanRuns.Step, PlanRuns.Allowed, Square, Ceil,
           Times, PlanOf, Queue, LastNominal, P.LastAlong, P.WellSet, InSteps, SM.Step, SM.Ready, SR.Holds,
           D.InExecution, InverseRate, Paced, Draining.CyclesToGo, Draining.Cycles, TB.CourseOf,
           D.StepDriver.Matches;
      PlannerPlanned();
      ghost var s := Now();
      CutCounts(s, mm);
      var stepDistRemaining := Times(stepPerMm, mm);
      var lastSteps, stepsLeft := Ceil(stepsRemaining), Ceil(stepDistRemaining);
      var invRate, cycles, remainder := StepRate(dt, dtRemainder, lastSteps, stepsLeft, stepDistRemaining);
      var level, cyclesPerTick := SmoothingLevel(cycles);
      driver.PushSegment(lastSteps - stepsLeft, level, cyclesPerTick);
      PushHands(s.model, lastSteps - stepsLeft, level, cyclesPerTick);
      PushQueue(s.model, lastSteps - stepsLeft, level, cyclesPerTick);
      TB.PushKeepsCourse(s.model, lastSteps - stepsLeft, level, cyclesPerTick);
      PaceOf(invRate, cycles, level, cyclesPerTick, lastSteps - stepsLeft, dt + dtRemainder - remainder);
      EndsWhole(stepPerMm, mm);
      stepsRemaining := stepsLeft as real;
      dtRemainder := remainder;
    }

    /** A segment is made visible to the interrupt, and the executing block advances. */
    method Emit(p: Profile, mm: real, dt: real, ghost n: nat, ghost minimumMm: real)
      requires Valid() && planner.loaded && !endMotion && planner.tail != planner.head && driver.HasRoom()
      requires Cut(profile, p, planner.blocks[planner.tail].acceleration, planner.blocks[planner.tail].millimeters,
                   mm, minimumMm)
      requires dt > 0.0 && 0.0 <= mm && Ceil(Times(stepPerMm, mm)) < Ceil(stepsRemaining)
      requires n == Ceil(stepsRemaining) - Ceil(Times(stepPerMm, mm))
      modifies this`profile, this`stepsRemaining, this`dtRemainder, planner`currentSpeed, planner.blocks, driver,
               driver.segmentBuffer
      ensures planner.Valid() && driver.Valid() && executeHold == planner.holding && dtRemainder >= 0.0
      ensures planner.tail == old(planner.tail) != planner.head
      ensures Queued() == old(Queued()) + 1 && Course() == old(Course())
      ensures Advanced(old(Now()), Now(), p, mm, n) && Uncut() == old(Uncut()) - n && n > 0
      ensures Newest().events == n
              && Paced(n, Newest().level, Newest().cyclesPerTick, old(dtRemainder) + dt - dtRemainder)
      ensures CyclesToGo() == old(CyclesToGo()) + Draining.Cycles(Newest())
      ensures mm == 0.0 ==> dtRemainder == 0.0
      ensures profile == p
      ensures planner.blocks[planner.tail].acceleration == old(planner.blocks[planner.tail].acceleration)
      ensures TimeToGo() == dtRemainder + TimeLeft(p, old(planner.blocks[planner.tail].acceleration), mm)
    {
      hide Joined, ST.Inv, Consistent, RatesKept, SumSquares, Sound, PlanRuns.Step, PlanRuns.Allowed, Square, Gained,
           Cut, Ceil, Times, PlanOf, Queue, LastNominal, P.LastAlong, P.WellSet, IsFastest, Brakes, InSteps, SM.Step,
           SM.Ready, SR.Holds, D.InExecution, InverseRate, Draining.Uncut, Handed, Paced, Draining.CyclesToGo,
           Draining.Cycles, TimeLeft, TB.CourseOf, D.StepDriver.Matches;
      PlannerPlanned();
      ghost var s := Now();
      CutLeads(s, p, mm, minimumMm);
      PushSteps(mm, dt, n);
      HandedUncut(s.model, driver.model, n);
      AccelerationPositive(s);
      TravelledPlan(s.plan, Square(p.currentSpeed), Gained(s.moves[0].acceleration, mm));
      planner.Advance(mm, p.currentSpeed);
      profile := p;
      PlannerPlanned();
    }

    /** The end of the profile: the block is done with, or the hold has come to rest. */
    method EndSegment(ghost s: Status, p: Profile, mm: real, ghost n: nat, ghost minimumMm: real) returns (more: bool)
      requires planner.Valid() && driver.Valid() && executeHold == planner.holding && dtRemainder >= 0.0
      requires planner.tail != planner.head && !endMotion
      requires Running(s) && Advanced(s, Now(), p, mm, n) && n <= s.model.flow.remaining
      requires Cut(s.profile, p, s.moves[0].acceleration, s.moves[0].millimeters, mm, minimumMm)
      modifies this`endMotion, planner`tail, planner`planned, planner`loaded
      ensures Valid() && more == !endMotion && (endMotion ==> executeHold)
      ensures planner.loaded <==> mm > 0.0
      ensures planner.loaded ==> planner.tail == old(planner.tail)
      ensures mm == 0.0 ==> mm == p.mmComplete
      ensures !planner.loaded ==> (Continuous(Now()) <==> LeavesAsPlanned(s))
    {
      hide Joined, ST.Inv, Consistent, RatesKept, SumSquares, Sound, PlanRuns.Step, Square, Gained, Ceil, Times,
           PlanOf, Queue, LastNominal, P.LastAlong, P.WellSet, IsFastest, Brakes, SM.Step, SM.Ready, SR.Holds,
           D.InExecution, WellShaped, SpeedSqrAt, Agrees,
           D.StepDriver.Matches;
      more := true;
      ghost var s1 := Now();
      CutEnds(s, p, mm, minimumMm);
      if mm == p.mmComplete {
        if mm > 0.0 {
          StopsInHold(s, p, mm, minimumMm);
          PlannerPlanned();
          endMotion := true;
          more := false;
          AdvanceKeeps(s, Now(), p, mm, n, minimumMm);
        } else {
          PlannerPlanned();
          planner.DiscardCurrentBlock();
          DiscardedPlan(s1.plan);
          BlockFinished(s, s1, Now(), p, n, minimumMm);
        }
      } else {
        AdvanceKeeps(s, Now(), p, mm, n, minimumMm);
      }
    }

    /** One turn of the loop of `st_prep_buffer` for a block in hand: a segment is cut. */
    method CutSegment() returns (more: bool)
      requires Valid() && planner.loaded && !endMotion && driver.HasRoom()
      modifies this, planner`tail, planner`planned, planner`loaded, planner`currentSpeed, planner.blocks, driver,
               driver.segmentBuffer
      ensures Valid() && more == !endMotion && (more ==> Queued() == old(Queued()) + 1) && Course() == old(Course())
      ensures !planner.loaded ==> (Continuous(Now()) <==> old(LeavesAsPlanned(Now())))
      ensures Uncut() < old(Uncut()) || (endMotion && Uncut() == old(Uncut()) && TicksToGo() == old(TicksToGo()))
      ensures Queued() >= old(Queued()) && (endMotion ==> executeHold)
      ensures Queued() == old(Queued()) ==> endMotion && driver.model == old(driver.model)
      ensures Queued() > old(Queued()) ==>
                && Newest().events > 0 && Uncut() == old(Uncut()) - Newest().events
                && CyclesToGo() == old(CyclesToGo()) + Draining.Cycles(Newest())
                && Paced(Newest().events, Newest().level, Newest().cyclesPerTick,
                         old(TimeToGo() + LateBy()) - TimeToGo())
      ensures old(LateBy()) >= 0.0 && (!planner.loaded ==> TimeToGo() == 0.0)
      ensures planner.loaded ==>
                planner.blocks[planner.tail].acceleration == old(planner.blocks[planner.tail].acceleration)
      ensures reqMmIncrement == old(reqMmIncrement) && SameShape(old(profile), profile)
      ensures FirstRamp(profile.ramp) ==> old(FirstRamp(profile.ramp) && LateBy() == 0.0)
      ensures !old(FirstRamp(profile.ramp)) ==> old(LateBy()) == 0.0
    {
      hide Joined, ST.Inv, Consistent, RatesKept, SumSquares, Sound, Square, Gained, Ceil, Times, Cut, Advanced,
           PlanOf, Queue, LastNominal, P.LastAlong, P.WellSet, IsFastest, Brakes, SR.Holds, D.InExecution,
           WellShaped, SpeedSqrAt, Draining.Uncut, Draining.TicksToGo, Continuous, LeavesAsPlanned, TB.CourseOf,
           Draining.CyclesToGo, Draining.Cycles, Paced, Overtime, TimeLeft, D.StepDriver.Matches, Late, FirstRamp,
           SameShape;
      PlannerPlanned();
      ghost var s := Now();
      CutReady(s);
      var b := planner.blocks[planner.tail];
      var minimumMm := MinimumMm(b.millimeters, reqMmIncrement);
      var p, mm, dt := BuildSegment(profile, b.acceleration, b.millimeters, minimumMm);
      CutSteps(s, p, mm, minimumMm);
      if Ceil(Times(stepPerMm, mm)) == Ceil(stepsRemaining) && executeHold {
        Bail(p, mm, minimumMm);
        more := false;
      } else {
        ghost var n: nat := Ceil(s.stepsRemaining) - Ceil(Times(s.stepPerMm, mm));
        Emit(p, mm, dt, n, minimumMm);
        more := EndSegment(s, p, mm, n, minimumMm);
        NothingLeft(p, b.acceleration);
      }
    }

    /** `st_prep_buffer`: segments are cut until the segment buffer is full, the queue is empty,
        or a hold has come to rest. */
    method PrepBuffer()
      requires Valid()
      modifies this, planner`tail, planner`planned, planner`loaded, planner`currentSpeed, planner`recalculate,
               planner.blocks, driver, driver.segmentBuffer, driver.stBlockBuffer
      ensures Valid()
      ensures endMotion || planner.tail == planner.head || !driver.HasRoom()
      ensures Course() == old(Course())
      ensures Uncut() < old(Uncut()) || (Uncut() == old(Uncut()) && TicksToGo() == old(TicksToGo()))
      ensures old(driver.HasRoom() && planner.tail != planner.head && !endMotion) ==>
              endMotion || Uncut() < old(Uncut())
      ensures Queued() >= old(Queued()) && (old(endMotion) ==> endMotion)
      ensures endMotion ==> old(endMotion) || executeHold
    {
      hide Joined, ST.Inv, Consistent, RatesKept, SumSquares, Sound, PlanOf, Queue, LastNominal, P.LastAlong,
           P.WellSet, D.InExecution, SR.BlockSlot, Draining.Uncut, Draining.TicksToGo;
      if endMotion {
        return;
      }
      while driver.HasRoom()
        invariant Valid() && !endMotion && Course() == old(Course()) && Queued() >= old(Queued())
        invariant Uncut() < old(Uncut()) ||
                  (Uncut() == old(Uncut()) && TicksToGo() == old(TicksToGo()) && planner.tail == old(planner.tail)
                   && driver.HasRoom() == old(driver.HasRoom()))
        decreases SR.SEGMENT_BUFFER_SIZE - Queued()
      {
        var ready := TakeUpBlock();
        if !ready {
          return;
        }
        var more := CutSegment();
        if !more {
          return;
        }
      }
    }

    /** The step interrupt fires. */
    method Tick() returns (cycleStop: bool)
      requires Valid()
      modifies driver
      ensures Valid()
      ensures forall box :: TB.CourseInside(old(Course()), box) ==> TB.CourseInside(Course(), box)
      ensures Uncut() == old(Uncut())
      ensures TicksToGo() == old(TicksToGo()) - if old(Queued()) > 0 then 1 else 0
      ensures CyclesToGo() == old(CyclesToGo()) - if old(Queued()) > 0 then driver.ocr1a else 0
    {
      hide Joined, ST.Inv, Consistent, RatesKept, SumSquares, Sound, PlanOf, Queue, LastNominal, P.LastAlong,
           P.WellSet, TB.CourseInside, TB.CourseOf, SM.Step, SM.Ready, Draining.Uncut, Draining.TicksToGo,
           Draining.CyclesToGo;
      ghost var s := Now();
      cycleStop := driver.Tick();
      TickKeeps(s, Now());
      Draining.TickTakesOne(s.model);
      Draining.TickTakesTime(s.model);
      forall box | TB.CourseInside(TB.CourseOf(s.model), box) ensures TB.CourseInside(Course(), box) {
        TB.TickInside(s.model, box);
      }
    }
  }

  /** The interrupt fires once, and perhaps more often. */
  method Interrupts(generator: SegmentGenerator, more: nat) returns (ghost passed: nat)
    requires generator.Valid()
    modifies generator.driver
    ensures generator.CyclesToGo() == old(generator.CyclesToGo()) - passed
    ensures generator.Valid() && generator.Uncut() == old(generator.Uncut())
    ensures generator.TicksToGo() <= old(generator.TicksToGo())
    ensures old(generator.Queued()) > 0 ==> generator.TicksToGo() < old(generator.TicksToGo())
    ensures forall box :: TB.CourseInside(old(generator.Course()), box) ==> TB.CourseInside(generator.Course(), box)
  {
    hide Joined, ST.Inv, Consistent, RatesKept, SumSquares, Sound, PlanOf, Queue, LastNominal, P.LastAlong,
         P.WellSet, TB.CourseInside, TB.CourseOf, Draining.Uncut, Draining.TicksToGo, Draining.CyclesToGo;
    var cycleStop := generator.Tick();
    passed := old(generator.CyclesToGo()) - generator.CyclesToGo();
    for i := 0 to more
      invariant generator.CyclesToGo() == old(generator.CyclesToGo()) - passed
      invariant generator.Valid() && generator.Uncut() == old(generator.Uncut())
      invariant generator.TicksToGo() <= old(generator.TicksToGo())
      invariant old(generator.Queued()) > 0 ==> generator.TicksToGo() < old(generator.TicksToGo())
      invariant forall box :: TB.CourseInside(old(generator.Course()), box) ==> TB.CourseInside(generator.Course(), box)
    {
      cycleStop := generator.Tick();
      passed := old(generator.CyclesToGo()) - generator.CyclesToGo();
    }
  }

  /** IT COMES TO AN END: with no further lines and no further commands, however many interrupts fire
      between one turn of the main program and the next, every planned step is executed, and the machine
      stands where the planner is; or, in a hold, it comes to rest. */
  method Synchronize(generator: SegmentGenerator, more: nat -> nat)
    requires generator.Valid() && !generator.endMotion
    modifies generator, generator.planner`tail, generator.planner`planned, generator.planner`loaded,
             generator.planner`currentSpeed, generator.planner`recalculate, generator.planner.blocks,
             generator.driver, generator.driver.segmentBuffer, generator.driver.stBlockBuffer
    ensures generator.Valid() && generator.planner.currentSpeed == 0.0
    ensures generator.driver.segmentTail == generator.driver.segmentHead
    ensures if generator.endMotion then generator.executeHold else
            generator.planner.tail == generator.planner.head && generator.driver.sysPosition == old(generator.Target())
    ensures forall box :: TB.CourseInside(old(generator.Course()), box) ==> TB.CourseInside(generator.Course(), box)
  {
    hide Joined, ST.Inv, Consistent, RatesKept, SumSquares, Sound, PlanOf, Queue, LastNominal, P.LastAlong,
         P.WellSet, TB.CourseInside, TB.CourseOf, Draining.Uncut, Draining.TicksToGo;
    var i := 0;
    while (generator.planner.tail != generator.planner.head && !generator.endMotion)
          || generator.driver.segmentTail != generator.driver.segmentHead
      invariant generator.Valid() && (generator.endMotion ==> generator.executeHold)
      invariant forall box :: TB.CourseInside(old(generator.Course()), box) ==> TB.CourseInside(generator.Course(), box)
      decreases if generator.endMotion then 0 else 1, generator.Uncut(), generator.TicksToGo()
    {
      generator.QueueSeen();
      generator.PrepBuffer();
      ghost var passed := Interrupts(generator, more(i));
      i := i + 1;
    }
    generator.AtRest();
    if !generator.endMotion {
      generator.Arrives();
    }
  }

  lemma NothingLeft(p: Profile, a: real)
    ensures TimeLeft(p, a, p.mmComplete) == 0.0
  {
  }

  lemma StopsInHold(s: Status, p: Profile, mm: real, minimumMm: real)
    requires Running(s) && s.moves != []
    requires Cut(s.profile, p, s.moves[0].acceleration, s.moves[0].millimeters, mm, minimumMm)
    ensures mm == p.mmComplete > 0.0 ==> s.plan.holding
  {
    CutLeads(s, p, mm, minimumMm);
  }

  /** What has been handed to the driver is cut. */
  lemma HandedUncut(m: SM.Model, m': SM.Model, n: nat)
    requires Handed(m, m', n)
    ensures Draining.Uncut(m') == Draining.Uncut(m) - n
  {
  }

  lemma PlanMatches(m: Memory, tail: nat, head: nat, speed: real, holding: bool)
    requires Consistent(m, tail, head, speed, holding)
    ensures var q, p := Queue(m, tail, head), PlanOf(m, tail, head, speed, holding);
            && |p.q| == |q| && Sound(p)
            && (forall k :: 0 <= k < |q| ==> p.q[k].gain == Gain(q[k]))
            && (forall k :: 0 <= k < |q| ==> p.q[k].limit == q[k].maxEntry)
            && (q != [] ==> p.planned < |q| && (!m.loaded ==> p.q[0].entry == q[0].entry))
  {
    hide Gain, Square, Sound;
  }

  lemma PendingLeg(s: Status)
    requires TakenUp(s) && Planned(s)
    ensures s.moves != [] && s.plan.q != [] && Moving(LegOf(s)) && (!s.plan.holding ==> Plannable(LegOf(s)))
  {
    hide Sound, RatesKept, InSteps, MovesOf;
    LegIsPlannable(s);
  }

  /** A block that has come to rest where it is. */
  lemma BailAllowed(s: Status, p: Profile)
    requires Running(s) && s.moves != [] && p.currentSpeed == 0.0 && s.plan.holding
    ensures Allowed(s.plan, PlanRuns.Travel(Square(p.currentSpeed), s.plan.q[0].gain))
    ensures s.plan.q[0].gain == Gained(s.moves[0].acceleration, s.moves[0].millimeters)
    ensures s.moves[0].acceleration > 0.0 && s.moves[0].millimeters > 0.0
  {
    CutReady(s);
    assert Square(p.currentSpeed) == 0.0;
    hide Square, Pinned, Joined;
    assert Physical(s.plan.q[0]) && s.plan.q[0].gain == Gain(s.moves[0]);
    assert s.plan.q[0].entry <= ExitSqr(s.plan.q, 0) + s.plan.q[0].gain;
    assert |s.plan.q| > 1 ==> Physical(s.plan.q[1]);
  }

  lemma AccelerationPositive(s: Status)
    requires Running(s) && s.moves != []
    ensures s.moves[0].acceleration > 0.0
  {
    assert Sized(s.moves[0]);
  }

  /** Only the end of a hold leaves a segment without a step. */
  lemma CutSteps(s: Status, p: Profile, mm: real, minimumMm: real)
    requires Running(s) && s.moves != [] && minimumMm == MinimumMm(s.moves[0].millimeters, s.reqMmIncrement)
    requires Cut(s.profile, p, s.moves[0].acceleration, s.moves[0].millimeters, mm, minimumMm)
    ensures 0.0 <= mm <= s.moves[0].millimeters && SameShape(s.profile, p)
    ensures var last, left := Ceil(s.stepsRemaining), Ceil(Times(s.stepPerMm, mm));
            && last == s.model.flow.remaining && 0 <= left <= last
            && (left == last ==> s.plan.holding && mm == p.mmComplete > 0.0)
            && (left < last ==> mm < s.moves[0].millimeters)
  {
    CutLeads(s, p, mm, minimumMm);
    CutEnds(s, p, mm, minimumMm);
    CutCounts(s, mm);
    CutCounts(s, s.moves[0].millimeters);
    StepsAtStart(s);
    hide Running, Ceil, Times, Agrees, WellShaped, SpeedSqrAt, Square, InSteps;
  }

  lemma StepsAtStart(s: Status)
    requires Running(s) && s.moves != []
    ensures Ceil(s.stepsRemaining) == Ceil(Times(s.stepPerMm, s.moves[0].millimeters))
  {
    CeilWhole(s.model.flow.remaining);
    hide Ceil, Times, SpeedsJoined, Planned, AllSized, MovesOf;
  }

  lemma CutEnds(s: Status, p: Profile, mm: real, minimumMm: real)
    requires Running(s) && s.moves != []
    requires Cut(s.profile, p, s.moves[0].acceleration, s.moves[0].millimeters, mm, minimumMm)
    ensures 0.0 <= p.mmComplete <= mm
  {
    CutReady(s);
    hide Running, SpeedSqrAt, Square, Agrees;
  }

  lemma LoadQueue(m: SM.Model)
    requires SM.Ready(m.flow) && m.pending != [] && m.flow.remaining == 0
    ensures SM.Step(m, SM.Load).flow.queue == m.flow.queue
  {
  }

  /** A segment handed over is the last of the queue, and adds the time it takes. */
  lemma PushQueue(m: SM.Model, n: nat, level: nat, period: nat)
    requires SM.Ready(m.flow) && 0 < n <= m.flow.remaining && level <= SM.MAX_AMASS_LEVEL
    ensures var f := SM.Step(m, SM.Push(n, level, period)).flow;
            && |f.queue| == |m.flow.queue| + 1
            && var w := f.queue[|f.queue| - 1];
               && w.events == n && w.level == level && w.cyclesPerTick == period
               && Draining.CyclesToGo(f) == Draining.CyclesToGo(m.flow) + Draining.Cycles(w)
  {
    Draining.PushAddsTime(m, n, level, period);
    hide Draining.CyclesToGo;
  }

  lemma EndsWhole(stepPerMm: real, mm: real)
    ensures mm == 0.0 ==> Times(stepPerMm, mm) == 0.0
  {
  }

  lemma NothingPending(s: Status)
    requires StepsAccounted(s) && s.moves == []
    ensures s.model.pending == [] && s.model.flow.remaining == 0
    ensures s.model.target == SM.Axes(s.position[0], s.position[1], s.position[2])
  {
  }

  lemma DrainedMachine(m: SM.Model)
    requires ST.Inv(m) && m.flow.queue == [] && m.pending == [] && m.flow.remaining == 0
    ensures m.position == m.target
  {
    ST.DrainedExact(m);
  }

  lemma DiscardedPlan(p: PlanRuns.Plan)
    requires p.q != [] && p.planned < |p.q|
    ensures var p' := PlanRuns.Step(p, Discard); p'.q == p.q[1..] && p'.holding == p.holding
  {
  }

  /** At the end of its block every step of it has been handed to the driver. */
  lemma BlockFinished(s: Status, s1: Status, s': Status, p: Profile, n: nat, minimumMm: real)
    requires Running(s) && Advanced(s, s1, p, 0.0, n) && n <= s.model.flow.remaining && p.mmComplete == 0.0
    requires Cut(s.profile, p, s.moves[0].acceleration, s.moves[0].millimeters, 0.0, minimumMm)
    requires s'.moves == s1.moves[1..] && s'.plan.q == s1.plan.q[1..] && s'.plan.holding == s1.plan.holding
    requires s' == s1.(moves := s'.moves, plan := s'.plan, loaded := false) && !s1.endMotion
    ensures Joined(s') && (Continuous(s') <==> LeavesAsPlanned(s))
  {
    assert s1.model.flow.remaining == 0 by {
      assert Times(s.stepPerMm, 0.0) == 0.0;
    }
    hide Joined, Sound, RatesKept, Square, Gained, IsFastest, Brakes, WellShaped, SpeedSqrAt, Agrees, InSteps, Cut;
    assert s'.moves == s.moves[1..] && s'.plan.q == s.plan.q[1..];
    FinishKeeps(s, s', p, n, minimumMm);
    hide Advanced, Handed;
    FinishContinuousIff(s, s', p, minimumMm);
  }

  lemma SameSquare(x: real, y: real)
    requires x >= 0.0 && y >= 0.0
    ensures Square(x) == Square(y) ==> x == y
  {
    if x < y {
      SquareStrict(x, y);
    } else if y < x {
      SquareStrict(y, x);
    }
  }

  lemma EntryNonnegative(s: Status)
    requires Planned(s) && s.moves != []
    ensures s.plan.q[0].entry >= 0.0
  {
    hide Pinned;
    assert Physical(s.plan.q[0]);
  }

  lemma NextMove(s: Status)
    requires Joined(s) && !Started(s) && s.moves != []
    ensures s.model.pending != [] && s.model.pending[0] == MoveOf(s.moves[0]) && s.model.flow.remaining == 0
    ensures Sized(s.moves[0])
  {
  }

  lemma RetakeReady(s: Status)
    requires Joined(s) && s.recalculate
    ensures s.moves != [] && s.plan.q != [] && s.plan.q[0].entry == Square(s.speed) >= 0.0
  {
    SquareSign(s.speed);
  }

  lemma TravelledPlan(p: PlanRuns.Plan, entry: real, gain: real)
    requires (p.q != [] ==> p.planned < |p.q|) && PlanRuns.Allowed(p, PlanRuns.Travel(entry, gain))
    ensures p.q != []
    ensures PlanRuns.Step(p, PlanRuns.Travel(entry, gain)) == p.(q := p.q[0 := p.q[0].(entry := entry, gain := gain)])
  {
  }

  lemma HeldPlan(p: PlanRuns.Plan)
    requires p.q != [] ==> p.planned < |p.q|
    ensures PlanRuns.Step(p, Hold) == p.(holding := true)
  {
  }

  lemma BlockIsSized(b: PlanBlock, from: seq<int>, to: seq<int>)
    requires P.DescribesMove(b, from, to)
    ensures Sized(b) && SM.Runnable(MoveOf(b))
  {
  }

  lemma BlockJoins(s: Status, s': Status, v: P.Snapshot, v': P.Snapshot, b: PlanBlock)
    requires Joined(s) && Planned(s) && Sized(b)
    requires s.plan.q != [] ==> s.plan.planned < |s.plan.q|
    requires v == P.Snap(s.moves, s.position, s.plan, s.loaded, s.recalculate)
    requires v' == P.Snap(s'.moves, s'.position, s'.plan, s'.loaded, s'.recalculate)
    requires P.Appended(v, v', b, s.feedOverride, s.rapidOverride) && P.DescribesMove(b, s.position, s'.position)
    requires SM.Ready(s.model.flow) && s'.model == SM.Step(s.model, SM.Plan(MoveOf(b)))
    requires s' == s.(moves := s'.moves, plan := s'.plan, loaded := s'.loaded, recalculate := s'.recalculate,
                      position := s'.position, model := s'.model)
    ensures Joined(s')
  {
    hide P.DescribesMove, P.AppendedAt, P.EntryLimit, Sized, StepsAccounted, SpeedsJoined, Sound, RatesKept, Gain,
         SM.Step, SM.Ready;
    var limit := P.EntryLimit(v.moves, b, s.feedOverride, s.rapidOverride);
    LimitedBlock(b, limit, s.position, s'.position);
    LimitedJoins(s, s', v, v', b.(maxEntry := limit));
  }

  lemma LineJoins(s: Status, s': Status, v: P.Snapshot, v': P.Snapshot, b: PlanBlock)
    requires Joined(s) && Planned(s) && Sized(b) && ST.Inv(s.model) && SM.Runnable(MoveOf(b))
    requires s.plan.q != [] ==> s.plan.planned < |s.plan.q|
    requires v == P.Snap(s.moves, s.position, s.plan, s.loaded, s.recalculate)
    requires v' == P.Snap(s'.moves, s'.position, s'.plan, s'.loaded, s'.recalculate)
    requires P.Appended(v, v', b, s.feedOverride, s.rapidOverride) && P.DescribesMove(b, s.position, s'.position)
    requires SM.Ready(s.model.flow) && s'.model == SM.Step(s.model, SM.Plan(MoveOf(b)))
    requires s' == s.(moves := s'.moves, plan := s'.plan, loaded := s'.loaded, recalculate := s'.recalculate,
                      position := s'.position, model := s'.model)
    ensures Joined(s')
    ensures forall box :: TB.CourseInside(TB.CourseOf(s.model), box) && TB.StepsInside(s'.position, box) ==>
                            TB.CourseInside(TB.CourseOf(s'.model), box)
  {
    hide Joined, Planned, Sized, P.Appended, P.DescribesMove, SM.Step, SM.Ready, SM.Runnable, ST.Inv,
         TB.CourseInside, TB.CourseOf, TB.StepsInside;
    BlockJoins(s, s', v, v', b);
    PlannedInside(s, s', MoveOf(b));
  }

  /** A move planned to end inside a box keeps the machine's course inside it. */
  lemma PlannedInside(s: Status, s': Status, move: SM.Move)
    requires Joined(s') && ST.Inv(s.model) && SM.Ready(s.model.flow) && SM.Runnable(move)
    requires s'.model == SM.Step(s.model, SM.Plan(move))
    ensures forall box :: TB.CourseInside(TB.CourseOf(s.model), box) && TB.StepsInside(s'.position, box) ==>
                            TB.CourseInside(TB.CourseOf(s'.model), box)
  {
    TB.StepTarget(s.model, SM.Plan(move));
    hide InSteps, AllSized, MovesOf, TB.CourseInside, TB.CourseOf, TB.Inside, SM.Step, SM.Displacement, SpeedsJoined;
    forall box | TB.CourseInside(TB.CourseOf(s.model), box) && TB.StepsInside(s'.position, box)
      ensures TB.CourseInside(TB.CourseOf(s'.model), box)
    {
      TB.StepInside(s.model, SM.Plan(move), box);
    }
  }

  lemma LimitedBlock(b: PlanBlock, limit: real, from: seq<int>, to: seq<int>)
    requires Sized(b) && P.DescribesMove(b, from, to)
    ensures var c := b.(maxEntry := limit); Sized(c) && P.DescribesMove(c, from, to) && MoveOf(c) == MoveOf(b)
  {
    var c := b.(maxEntry := limit);
    assert forall i :: 0 <= i < N_AXIS ==> P.SignedSteps(c, i) == P.SignedSteps(b, i);
    var i :| 0 <= i < N_AXIS && b.steps[i] == b.stepEventCount;
    assert c.steps[i] == c.stepEventCount;
  }

  lemma LimitedJoins(s: Status, s': Status, v: P.Snapshot, v': P.Snapshot, c: PlanBlock)
    requires Joined(s) && Planned(s) && Sized(c)
    requires s.plan.q != [] ==> s.plan.planned < |s.plan.q|
    requires v == P.Snap(s.moves, s.position, s.plan, s.loaded, s.recalculate)
    requires v' == P.Snap(s'.moves, s'.position, s'.plan, s'.loaded, s'.recalculate)
    requires P.AppendedAt(v, v', c) && P.DescribesMove(c, s.position, s'.position)
    requires SM.Ready(s.model.flow) && s'.model == SM.Step(s.model, SM.Plan(MoveOf(c)))
    requires s' == s.(moves := s'.moves, plan := s'.plan, loaded := s'.loaded, recalculate := s'.recalculate,
                      position := s'.position, model := s'.model)
    ensures Joined(s')
  {
    hide P.DescribesMove, Sized, StepsAccounted, SpeedsJoined, Sound, RatesKept, Gain, SM.Step, SM.Ready, Step,
         Allowed, SameMoves;
    AppendSteps(s, s', c);
    AppendSpeeds(s, s', c);
  }
}
