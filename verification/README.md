# The Grbl motion pipeline, modelled and proved

This project models how the firmware in `grbl-mega/` turns lines of G-code into steps, and proves
what its parts promise each other on the way.

- **The planner** (`planner.c`). Blocks wait in a ring. Whenever one is added, a reverse and a forward pass
  set the entry speeds; a *planned* pointer lets both passes skip what cannot improve. `PlanSpec` says what a
  plan is, `PlanTheorems` proves it optimal and the shortcut sound, `PlanRuns` carries that over every run of
  additions, partial executions, discards, holds and resumptions. `PlannerRing`, `PlannerRefinement`,
  `PlannerQueue` and `PlannerInvariant` bring the loops over ring slots down to that meaning, and the class in
  `Planner` has the source's fields and updates them in place. `OverrideReplan` is what an override does to a plan.
- **The step driver** (`stepper.c`, the interrupt). `StepModel` is the transition system of planner, segment
  generator and interrupt; `StepTheorems` proves that no step is lost or added and that every axis stays on its
  line; `SegmentRing` and `StepDriver` refine it with the two rings, the registers and the smoothing levels.
- **The segment generator** (`stepper.c`, `st_prep_buffer`). `VelocityProfile` chooses the profile of a block,
  `SegmentBuilder` is the loop that cuts one segment of it, `SegmentTime` what the loop counts as the segment's time,
  `StepCount` converts lengths into steps and times into CPU cycles, `ProfileTheorems` says what the profile is worth.
  `Stepping` is the relation that joins planner, profile and driver, and the class in `SegmentGenerator` keeps it through
  every operation, feed holds included; `BlockTime` adds up the time of a block's segments as they are executed,
  `Draining` is the measure by which all comes to an end, and `HoldCounterexample` a run on which a hold makes the
  speed jump.
- **Limits** (`motion_control.c`, `limits.c`, `system.c`, `jog.c`). `TravelBox` and `MotionControl` prove that with soft
  limits on the machine never leaves its travel; `Homing` is the homing cycle;
  `ArcCentre`, `ArcAngle`, `ArcMotion` and `ArcAccuracy` are arcs.
- **The real-time protocol** (`protocol.c`). `DoorModel` is the state machine of holds, door and restore as a
  function of its events, `DoorTheorems` its safety, `DoorCounterexample` the run on which it fails, `HoldTheorems` what
  every poll leads to and how holds and door are left again, and the class in `Protocol` the source's flag updates;
  `Overrides` is the arithmetic of the override keys.
- **The front end** (`gcode.c`, `nuts_bolts.c`, `print.c`). `Words`, `WordOrder`, `WordLoop` and `LineText` are the parsing of
  a line, `WorkCoordinates` and `GcodeParser` its offsets, targets and motions, `WordMeanings` what each word means for
  these, `Decimals` and `NumberText` the reading and
  printing of numbers.

The configuration is the compiled one: RAMPS board, three axes, adaptive step smoothing on, no CoreXY, no
parking. Floats are exact reals. Square roots, sine and cosine are parameters of which only the defining
property is assumed (and the first terms of their power series where a bound is to become a number). What the outside
world decides (interrupt timing, switch states, EEPROM contents, how far a homing motion gets) is an argument or an event.

## What does not hold

Twelve natural claims turned out false of the code; each is stated with the condition under which it holds.

- `planner_recalculate` on an **empty** queue (a hold or an override with nothing queued) runs all the way round the ring
  over stale blocks, and the planned pointer may leave the queue. It stays exactly if no stale block could stop the passes:
  none is at its limit, none could be reached from a stop at the far end, and the first is not too slow for those behind it
  (`EmptyReplanIff`, on the ring as it is before the call). At power-up it strays (`EmptyReplanStrays`); the next block added
  puts it right (`FirstBlockHeals`).
- **After an override** the limits change and the plan is redone, but the reverse pass skips blocks that are at their limit,
  also one whose next block now has to be slower. The plan is one in which every block can brake exactly if each
  skipped block can, from the speed at which it is reached, and the first from the speed it has (`StoppableIff`).
  `OverrideSkips` is a queue of three, planned as it should be, that a rapid override of 50% leaves unable to brake.
- **The override keys**: the new override is what the keys ask for, within 10% and 200%, exactly unless both decrements
  arrive together, and alone, at 10%: then it wraps, and is 200% (`NewOverride`).
- **The speed between two blocks** can jump. A block finished outside a hold is left at the speed at which the next is
  entered; one finished in a hold exactly if it was planned to brake all the way (`FinishContinuousIff`). Redoing the plan
  between the two changes nothing about that (`ReplannedBetween`), and the next block is then taken up at another speed than
  the last was left at exactly if that difference is there and no hold (or deceleration override) is on (`EntrySpeed`,
  `LoadNewBlock`). `LeftSlower` is a hold on the RAMPS defaults: a single step left at 11 mm/min, the next block entered
  at 14.
- **The safety door** is kept in order by every step exactly unless a cycle start is executed in the middle of a restore
  delay (`StepKeepsOrderIff`). That needs an earlier restore whose automatic cycle start was blocked by a feed hold
  arriving with it; the restore is then repeated, and a resumption inside it sets `SUSPEND_RESTORE_COMPLETE` while the
  cycle runs. At the next door opening the program can be resumed with the spindle off (`DoorLeftUnrestored`).
- **G92.1 with axis words**: the target of a move is computed with the G92 offset which the same line then clears,
  so the work position differs from the programmed one exactly if that offset is not zero (`MoveShowsProgrammedIff`).
- **Arcs**: the constant 0.16666667 is a little more than a sixth, so a rotation shortens the radius exactly if the
  angle is large enough (`ShortensIff`); for squared angles below 4e-7 it grows (`TinyAngles`), by no more than two parts in
  a million before it is corrected (`DriftBound`).
- **Radius-format arcs**: with the same in-plane end point but another height on the third axis the check for equal end
  points passes and the division is by zero (`RadiusCentre`, outcome `NotANumber`).
- **The time of a segment** is counted from the start of the segment when an acceleration (or the deceleration of an
  override) ends in a later turn of the loop. The time worker can then be negative and the next ramp go backwards for a
  moment; the segment nevertheless ends on the profile, and takes at least the segment time unless it ends the profile. Its
  duration is that of the motion exactly unless the segment is `Late`: at least one full time step fits into its first ramp,
  and those that fit fall short of the required distance. Then it is longer by exactly the distance of those steps over
  the mean of the speed they reach and the speed of the ramp's end (`BuildSegment`); on the RAMPS defaults a millimetre at
  8.4 mm/min begins with such a segment, 78 ms too long (`LateFromRest`). (The 0/0 that arises when a hold ends exactly
  where a turn starts is modelled by a total quotient; its value is never used for a position or speed.)
- **The pace of a segment**: its ticks take the time counted for it to less than a CPU cycle per step event and per tick,
  exactly unless a step event should take more than eight ticks of the slowest timer rate; then it gets just these
  (`Paced`, ensured by `PushSteps`), and the axis runs faster than programmed: at 80 steps/mm below 23 mm/min, so at
  10 mm/min more than twice as fast (`SlowFeed`).
- **Arcs in inverse-time mode**: the inverse time is multiplied by the number of lines and then taken for a speed, so
  the arc, run at that speed, takes the time programmed exactly if its lines are a millimetre long on average
  (`ArcTimeIff`).
- **Long numbers**: the exponent of `read_float` has 8 bits. In a line that fits the buffer a number is read exactly
  unless it is not zero and more than 127 of its digits are dropped before the point (`ReadExactlyIff`), as in a row of 136
  ones (`OnesMisread`).

## Model

| member | source | states |
|---|---|---|
| `PlanTheorems.ReplanOptimal` | grbl-mega/planner.c:59-125 | After recalculation from a locked planned pointer the squared entry speeds keep every junction limit, acceleration, deceleration and the final stop, and no profile that does so with the same first entry is faster anywhere. |
| `PlanTheorems.ShortcutSound` | grbl-mega/planner.c:78-125 | Recalculating from the planned pointer gives the very plan that recalculating from the tail gives. |
| `PlanTheorems.ReplanLocked` | grbl-mega/planner.c:166-196 | Where the forward pass leaves the planned pointer, everything up to it can never be improved, whatever profile is tried. |
| `PlanTheorems.PlannedIsLocked` | grbl-mega/planner.c:174-192 | The two break conditions of the forward pass (full acceleration, maximum entry speed) are sufficient reasons for that. |
| `PlanTheorems.ClipNeedsPlanned` | grbl-mega/planner.c:174-192 | A block that must accelerate all the way starts from one that is itself planned for good. |
| `PlanTheorems.ReverseExact` | grbl-mega/planner.c:140-165 | The reverse pass computes the greatest stoppable speed although it skips blocks already at their maximum. |
| `PlanTheorems.ReplanStoppable` | grbl-mega/planner.c:126-196 | Recalculation leaves every block able to brake to its planned exit speed, the invariant a feed hold relies on. |
| `PlanTheorems.LockedWithoutFirst` | grbl-mega/planner.c:215-223 | A locked plan stays locked when its first block is discarded. |
| `PlanTheorems.OptimalUnique` | grbl-mega/planner.c:59-125 | There is at most one optimal plan for a queue. |
| `PlanTheorems.PlanExistsIff` | grbl-mega/planner.c:126-196 | A plan exists, and is found, exactly if the first block's speed does not exceed what the blocks behind can still brake. |
| `PlanRuns.EveryRunSound` | grbl-mega/planner.c:126-522 | Over every run of additions, partial executions, discards, holds and resumptions the planned pointer stays in the queue and keeps its promise. |
| `PlanRuns.EveryAdditionOptimal` | grbl-mega/planner.c:440-470 | On every such run, outside a hold, each added block leaves the optimal plan, equal to a plan made from scratch. |
| `PlanRuns.TravelKeeps` | grbl-mega/stepper.c:1147-1150 | Executing part of the first block, at any speed it could have, keeps the promise. |
| `PlanRuns.ReinitializeKeeps` | grbl-mega/planner.c:516-522 | Replanning after a hold restores the promise and optimality from whatever speed was reached. |
| `PlannerRing.NextIndex` | grbl-mega/planner.c:44-49 | The ring successor, undone by the ring predecessor. |
| `PlannerRefinement.RecalculatedComputes` | grbl-mega/planner.c:126-196 | Both loops over ring slots leave in every slot of the window the entry speed the recursive plan gives, touch no other slot, and move the planned pointer as the plan says. |
| `PlannerQueue.RecalculatedIsReplan` | grbl-mega/planner.c:126-196 | Recalculating the ring is replanning the queue from the planned pointer. |
| `PlannerQueue.ExitSpeedChangeNotifies` | grbl-mega/planner.c:144-156 | If the executing block gets another exit speed, the stepper module has been notified in the same call. |
| `PlannerQueue.FirstBlockHeals` | grbl-mega/planner.c:126-196 | The first block of a queue puts a stray planned pointer right. |
| `PlannerQueue.EmptyReplanIff` | grbl-mega/planner.c:516-522 | Replanning an empty queue leaves the planned pointer at the tail exactly if the stale ring is settled: every sum of gains to the far end is below the limit there, no block but the last is at its limit, and the first could reach the sum behind it. |
| `PlannerQueue.EmptyReplanStrays` | grbl-mega/planner.c:516-522 | With the ring as at power-up it does not. |
| `PlannerQueue.PlannedStaysIff` | grbl-mega/planner.c:173-195 | The planned pointer stands still over a forward pass exactly if no block breaks it. |
| `PlannerInvariant.AppendNotifies` | grbl-mega/planner.c:460-470 | Adding a block takes the executing block back from the stepper module exactly if nothing behind it is planned for good. |
| `PlannerInvariant.AppendPlanner` | grbl-mega/planner.c:452-470 | Adding a block to the ring appends it to the queue and replans, keeping every rate limit and the planner's invariant. |
| `PlannerInvariant.ReinitializePlanner` | grbl-mega/planner.c:516-522 | Reinitialising keeps the moves, the rate limits and the invariant, and notifies. |
| `PlannerInvariant.DiscardPlanner` | grbl-mega/planner.c:215-223 | Discarding drops exactly the first block and keeps the invariant. |
| `PlannerInvariant.OverridesApply` | grbl-mega/planner.c:259-269 | Rapids follow the rapid override and feeds the feed override unless exempt, faster for more; at 100% a block runs as programmed within its rapid rate, and never below the minimum. |
| `PlannerInvariant.NominalInNumbers` | grbl-mega/planner.c:259-269 | At every percentage a feed runs at that part of its programmed rate, a rapid at that of the rapid override and an exempt feed as programmed, or else at the bound gone beyond: the rapid rate for a feed, one millimetre a minute for any. |
| `OverrideReplan.StoppableIff` | grbl-mega/planner.c:126-196 | Whatever entry speeds it starts from, recalculation from the tail leaves every block able to brake to its exit speed exactly if every block that the reverse pass skips can, from the speed at which the forward pass reaches it, and the first from the speed it has. |
| `OverrideReplan.OverrideSkips` | grbl-mega/planner.c:284-298 | A feasible queue that is not stoppable after the rapid override goes to 50% and the plan is redone, although an admissible plan exists. |
| `OverrideReplan.RelimitedRates` | grbl-mega/planner.c:273-298 | With the new limits no block is entered or left faster than its nominal speed under the new overrides. |
| `Planner.Planner.UpdateVelocityProfileParameters` | grbl-mega/planner.c:284-298 | The loop over the ring gives every queued move the entry limit that belongs to the overrides, and touches no other slot. |
| `PlannerInvariant.MaxEntrySqr` | grbl-mega/planner.c:274-280 | A junction is entered no faster than either neighbour's nominal speed and the corner allow. |
| `Planner.Planner.constructor` | grbl-mega/planner.c:199-212 | At power-up the queue is empty, the position is zero and the invariant holds. |
| `Planner.Planner.UpdatePlanBlockParameters` | grbl-mega/stepper.c:698-705 | The executing block is handed back with its present speed, once. |
| `Planner.Planner.Reverse` | grbl-mega/planner.c:140-165 | The reverse loop leaves the memory its recursive meaning describes. |
| `Planner.Planner.Forward` | grbl-mega/planner.c:166-196 | Likewise the forward loop, with the planned pointer. |
| `Planner.Planner.Recalculate` | grbl-mega/planner.c:126-196 | The whole of the recalculation, including the early exit and the two-block case. |
| `Planner.Planner.ExecBlockExitSpeedSqr` | grbl-mega/planner.c:241-246 | The exit speed of the executing block is the planned entry of the next, or a stop. |
| `Planner.Planner.TakeUp` | grbl-mega/stepper.c:828-837 | A block taken up changes the plan by nothing but its present speed. |
| `Planner.Planner.Advance` | grbl-mega/stepper.c:1147-1150 | A cut segment shortens the executing block, a step the plan allows. |
| `Planner.Planner.BeginHold` | grbl-mega/protocol.c:268-274 | A hold takes the block back and changes no move. |
| `Planner.Planner.DiscardCurrentBlock` | grbl-mega/planner.c:215-223 | Exactly the first block goes; on an empty queue nothing does. |
| `Planner.Planner.CycleReinitialize` | grbl-mega/planner.c:516-522 | The plan is redone from the tail at the present speed; no move changes. |
| `Planner.Planner.DescribeMove` | grbl-mega/planner.c:347-398 | The block has the line's steps and directions, its true length, a unit direction, and an acceleration and rate that no axis exceeds. |
| `Planner.Planner.CornerLimit` | grbl-mega/planner.c:399-450 | A queue starts from rest; every other corner has a limit that is not negative. |
| `Planner.Planner.AppendBlock` | grbl-mega/planner.c:452-470 | The ring after the block is queued stands for the appended and replanned queue. |
| `Planner.Planner.Enqueue` | grbl-mega/planner.c:452-470 | The block joins with an entry limit that neither nominal speed nor corner forbids. |
| `Planner.Planner.BufferLine` | grbl-mega/planner.c:315-471 | The planner's position is the target rounded to steps; a line without a step changes nothing else; any other is queued with exactly the signed steps between the positions. |
| `Planner.AppendedAsAsked` | grbl-mega/planner.c:392-396 | The last queued move is of the kind, and has the programmed rate, that the caller asked for. |
| `LineGeometry.MeasureLine` | grbl-mega/planner.c:347-378 | Steps, directions, step event count (the greatest axis count) and true distances of a line. |
| `LineGeometry.MaxJunctionSpeedSqr` | grbl-mega/planner.c:421-449 | The corner speed: zero for a reversal, unlimited straight on, otherwise the centripetal formula with half the corner angle, which never divides by zero. |
| `LineGeometry.DifferenceLength` | grbl-mega/planner.c:421-427 | The squared difference of two directions is given by the cosine of their angle, so the junction vector can be normalised. |
| `LineGeometry.HalfAngleSine` | grbl-mega/planner.c:440-443 | The half-angle sine stays below one. |
| `NutsBolts.ConvertDeltaVectorToUnitVector` | grbl-mega/nuts_bolts.c:164-177 | The vector becomes a unit vector of the same direction; its old length is returned. |
| `NutsBolts.LimitValueByAxisMaximum` | grbl-mega/nuts_bolts.c:180-190 | The greatest value whose share on no axis exceeds that axis's maximum. |
| `NutsBolts.NoneGreater` | grbl-mega/nuts_bolts.c:180-190 | No greater value keeps within the axes' maxima, so there is one such value only. |
| `StepTheorems.StepExact` | grbl-mega/stepper.c:356-547 | For any moves, cutting, smoothing levels and interleaving, once everything has drained every axis has moved by exactly the signed steps planned. |
| `StepTheorems.AlwaysTrueToLine` | grbl-mega/stepper.c:464-525 | After every tick of every run each counter is in range and each axis within half a step of the ideal line. |
| `StepTheorems.EveryRun` | grbl-mega/stepper.c:356-547 | The invariant of planner queue, segment queue and interrupt holds on every run. |
| `StepTheorems.StepKeeps` | grbl-mega/stepper.c:356-547 | Each step (plan, load, push, tick) keeps it. |
| `StepTheorems.AxisTick` | grbl-mega/stepper.c:464-483 | One tick at any smoothing level keeps an axis's counter equation, with at most one pulse. |
| `StepTheorems.PulsesExact` | grbl-mega/stepper.c:464-525 | At the end of a block each axis has pulsed exactly its steps. |
| `StepTheorems.DrainedExact` | grbl-mega/stepper.c:534-539 | When nothing is queued, machine position and planner position agree. |
| `StepTheorems.NextMoveBegins` | grbl-mega/stepper.c:404-424 | Counters are reset only when nothing is left of the block before. |
| `StepTheorems.TargetOfRun` | grbl-mega/planner.c:461-466 | The planner's position is the start plus every move planned. |
| `SegmentRing.LoadKeepsHolds` | grbl-mega/stepper.c:709-714 | The block slot for a new block is used by no queued or partly executed segment, although there is one slot fewer than segments. |
| `SegmentRing.PushKeepsHolds` | grbl-mega/stepper.c:1142-1145 | A new segment is written to a free slot. |
| `SegmentRing.PopKeepsHolds` | grbl-mega/stepper.c:534-539 | Freeing a segment leaves the others in place. |
| `SegmentRing.LoadDistance` | grbl-mega/stepper.c:709-714 | A queued segment's block is never as old as the ring of block slots is long. |
| `SegmentRing.ShiftExact` | grbl-mega/stepper.c:815-819 | Shifting the scaled step counts by the smoothing level loses no bit. |
| `SegmentRing.BlockSlot` | grbl-mega/stepper.c:709-714 | Block slots stay within the ring. |
| `StepDriver.StepDriver.constructor` | grbl-mega/stepper.c:613-653 | After a reset both rings are empty and the driver stands for the start of the model. |
| `StepDriver.StepDriver.LoadBlock` | grbl-mega/stepper.c:788-824 | Copying the Bresenham data is the model's load. |
| `StepDriver.StepDriver.PushSegment` | grbl-mega/stepper.c:1142-1145 | Publishing a segment, its ticks and its timer value, is the model's push. |
| `StepDriver.StepDriver.TakeSegment` | grbl-mega/stepper.c:404-437 | The interrupt takes the tail segment and sets the timer to its rate; counters are reset exactly at a new block. |
| `StepDriver.StepDriver.EnterBlock` | grbl-mega/stepper.c:418-426 | At a new block, and only there, the counters start half a step ahead. |
| `StepDriver.StepDriver.ExecuteStep` | grbl-mega/stepper.c:464-539 | One step event on every axis is the model's pulse, and step_count never underflows. |
| `StepDriver.StepDriver.Tick` | grbl-mega/stepper.c:356-547 | The interrupt is the model's tick, and the timer then runs at the rate of the segment it belongs to; it flags the end of the cycle exactly when nothing was left. |
| `StepDriver.TakeFacts` | grbl-mega/stepper.c:404-437 | What the ring holds at the tail is the segment the model takes, and its block's data is intact. |
| `StepDriver.ExecuteFacts` | grbl-mega/stepper.c:464-539 | The register arithmetic of a tick is the model's. |
| `VelocityProfile.ComputeProfile` | grbl-mega/stepper.c:848-938 | Outside a hold the profile chosen is the fastest way through the block from its entry to its exit speed; in a hold it brakes as hard as possible. |
| `VelocityProfile.PlannedProfile` | grbl-mega/stepper.c:905-936 | Trapezoid, triangle, cruise, pure acceleration and pure deceleration are each the fastest way in their case. |
| `VelocityProfile.OverrideProfile` | grbl-mega/stepper.c:883-904 | Likewise a block entered above its nominal speed. |
| `VelocityProfile.HoldProfile` | grbl-mega/stepper.c:857-869 | Braking through the block, or to rest in it; no root of a negative number. |
| `VelocityProfile.Meeting` | grbl-mega/stepper.c:879-881 | What the intersection distance stands for. |
| `ProfileTheorems.FastestIsGreatest` | grbl-mega/stepper.c:870-937 | No drivable speed curve is above the profile anywhere. |
| `ProfileTheorems.FastestDrivable` | grbl-mega/stepper.c:870-937 | The profile itself is drivable: within nominal speed and acceleration, from entry to exit speed. |
| `ProfileTheorems.FastestOnward` | grbl-mega/stepper.c:783-787 | Recomputing the profile in the middle of a block changes nothing. |
| `ProfileTheorems.SegmentKeepsFastest` | grbl-mega/stepper.c:972-1045 | A segment ends on the profile, and the rest of the profile is the profile of the rest of the block; a block ends at exactly its exit speed. |
| `ProfileTheorems.SegmentKeepsBraking` | grbl-mega/stepper.c:1016-1032 | The same for a hold. |
| `ProfileTheorems.HoldComesToRest` | grbl-mega/stepper.c:857-869 | A hold carried across blocks passes no junction faster than planned and is at rest by the end of the queue. |
| `ProfileTheorems.BrakesToHoldEntry` | grbl-mega/stepper.c:862-868 | One block of it: the exit speed the source computes is the one the hold has there. |
| `SegmentBuilder.BuildSegment` | grbl-mega/stepper.c:952-1045 | The loop terminates, ends on the profile, and has gone the required distance or reached the end of the profile. Its time is that of the motion along the profile plus the overtime: never less, and equal exactly unless the segment is late; at least the segment time unless it ends the profile, and always some if it moves. |
| `SegmentTime.LateFromRest` | grbl-mega/stepper.c:986-1000 | A profile, from rest on the RAMPS defaults, whose first segment is late after sixteen time steps, by 4/3075 of a minute. |
| `SegmentTime.OvertimePositive` | grbl-mega/stepper.c:974-1000 | The overtime is never negative, and zero exactly unless the segment is late. |
| `SegmentTime.LateOnce` | grbl-mega/stepper.c:986-1000 | The number of full time steps before a late end of the first ramp is determined, and with it the overtime. |
| `SegmentTime.InTime` | grbl-mega/stepper.c:972-1045 | A segment that ends its first ramp in the first turn, or is complete within it, is not late. |
| `SegmentTime.TimedTurn` | grbl-mega/stepper.c:1033-1045 | Turn by turn the time counted is that of the motion as long as the first ramp lasts, and from then on off by the overtime. |
| `SegmentTime.MeanTime` | grbl-mega/stepper.c:980 | At constant acceleration the time at the mean speed is the change of speed over the acceleration. |
| `SegmentBuilder.Pass` | grbl-mega/stepper.c:973-1032 | One turn: the ramps keep v^2 = v0^2 +- 2ad, distance and time agree with the mean speed, and a finished ramp hands over to the next. |
| `SegmentBuilder.AccelPass` | grbl-mega/stepper.c:986-1000 | The acceleration ramp, whose time is counted from the start of the segment. |
| `SegmentBuilder.CruisePass` | grbl-mega/stepper.c:1001-1014 | The cruise. |
| `SegmentBuilder.DecelPass` | grbl-mega/stepper.c:1015-1032 | The deceleration ramp and the end of the profile. |
| `SegmentBuilder.OverridePass` | grbl-mega/stepper.c:974-985 | The deceleration of an override. |
| `SegmentBuilder.TurnsDecrease` | grbl-mega/stepper.c:1033-1045 | The measure: a later ramp, or fewer turns of the least possible stride. |
| `StepCount.SegmentHasStep` | grbl-mega/stepper.c:968-970 | A segment that reached its minimum distance or the end of the block holds at least one step, and none more than are left. |
| `StepCount.SmoothingLevel` | grbl-mega/stepper.c:1111-1124 | The lowest level that drives the interrupt at 8 kHz or more (or the highest), never beyond 16 kHz for smoothing; the ticks of a step take as long as the step should to within a tick, or the timer runs at its slowest. |
| `StepCount.StepRate` | grbl-mega/stepper.c:1098-1109 | The step time covers the segment's time plus the remainder carried over, and the new remainder is the time of the part of a step left: the whole steps take what lies between. |
| `StepCount.PaceOf` | grbl-mega/stepper.c:1105-1124 | The rate computed makes a segment take its time, to less than a cycle per step event and per tick, exactly unless its steps are too slow for the timer. |
| `StepCount.SlowFeed` | grbl-mega/stepper.c:1111-1124 | A step at 10 mm/min and 80 steps/mm should take 1.2 million cycles and gets 524280. |
| `StepCount.NewBlockInSteps` | grbl-mega/stepper.c:822-826 | The length of a new block converts to exactly its step event count. |
| `Stepping.LegIsPlannable` | grbl-mega/stepper.c:870-881 | The planner's invariant is what the profile computation relies on. |
| `Stepping.CutLeads` | grbl-mega/stepper.c:963-1045 | The speed at the end of a segment is one the plan allows. |
| `Stepping.CutCounts` | grbl-mega/stepper.c:1079-1083 | What is left of the block's steps is what is left of its length. |
| `Stepping.FinishKeeps` | grbl-mega/stepper.c:1153-1172 | At the end of a block every step of it has been handed over, at the speed at which the next block is entered. |
| `Stepping.FinishContinuousIff` | grbl-mega/stepper.c:1153-1172 | A block finished is left at the speed at which the next is entered, exactly unless it was finished in a hold and its planned exit speed was not the one that braking all the way leads to. |
| `Stepping.StartedContinuous` | grbl-mega/stepper.c:828-835 | Inside a block, and with nothing queued, the speed is the one planned. |
| `HoldCounterexample.LeftSlower` | grbl-mega/protocol.c:381-387 | A single step finished in a hold is left at 11 mm/min; after the plan is redone all parts are joined and the next block is to be entered at 14 mm/min. |
| `HoldCounterexample.HeldByRun` | grbl-mega/planner.c:126-522 | The plan of that state is what a run from the empty planner leads to: three additions, the first block executed and discarded, a hold. |
| `HoldCounterexample.HandedByRun` | grbl-mega/stepper.c:796-824 | And its driver what a run from power-up leads to. |
| `Stepping.AdvanceKeeps` | grbl-mega/stepper.c:1147-1163 | A segment in the middle of a block keeps planner, profile and driver joined. |
| `Stepping.HoldKeeps` | grbl-mega/protocol.c:268-274 | A feed hold at any moment keeps planner, profile and driver joined. |
| `Stepping.CycleStopKeeps` | grbl-mega/protocol.c:381-387 | Replanning after a hold keeps planner, profile and driver joined. |
| `Stepping.ReplannedBetween` | grbl-mega/protocol.c:381-387 | Replanning between two blocks leaves the speeds on both sides as they were: outside a hold they are equal unless the plan had been redone there before, and the last block is never left faster than the next may be entered. |
| `Stepping.EndsAtRest` | grbl-mega/stepper.c:1152-1163 | At the end of a hold, and when nothing is queued, the speed is zero. |
| `SegmentGenerator.SegmentGenerator.constructor` | grbl-mega/stepper.c:613-653 | At power-up all three parts agree at machine zero. |
| `SegmentGenerator.SegmentGenerator.Arrives` | grbl-mega/stepper.c:768-1175 | Whatever moves, holds and resumptions came before, when queue and segment buffer are empty the machine stands to the step where the planner is. |
| `SegmentGenerator.SegmentGenerator.AtRest` | grbl-mega/stepper.c:1085-1163 | A hold that has ended has come to rest, and so has the generator whenever the queue is empty. |
| `SegmentGenerator.SegmentGenerator.BufferLine` | grbl-mega/planner.c:315-471 | A line added while blocks are executed keeps all parts joined and the machine's course inside any box its end is in. |
| `SegmentGenerator.SegmentGenerator.BeginHold` | grbl-mega/protocol.c:268-274 | A hold issued at any moment keeps all parts joined and takes the executing block back. |
| `SegmentGenerator.SegmentGenerator.CycleStop` | grbl-mega/protocol.c:381-387 | The end of a hold keeps all parts joined, and the end of motion flagged until a resumption. |
| `SegmentGenerator.SegmentGenerator.Resume` | grbl-mega/protocol.c:354-371 | A resumption keeps all parts joined. |
| `SegmentGenerator.SegmentGenerator.Retake` | grbl-mega/stepper.c:783-792 | A replanned block is taken up again with its step data untouched. |
| `SegmentGenerator.SegmentGenerator.EntrySpeed` | grbl-mega/stepper.c:828-837 | A block is entered at the planned speed, in a hold at no more; and at the speed the last one was left at exactly if a hold or deceleration override is on or the two are equal, as they are unless the plan was redone in between. |
| `SegmentGenerator.SegmentGenerator.LoadSteps` | grbl-mega/stepper.c:796-826 | The step figures of a new block and the driver's copy agree, and no time is carried over. |
| `SegmentGenerator.SegmentGenerator.LoadNewBlock` | grbl-mega/stepper.c:793-847 | A new block is loaded without disturbing what the interrupt still executes; the speed jumps exactly if no hold or deceleration override is on and the last block was left at another speed than planned. |
| `SegmentGenerator.SegmentGenerator.EnterBlock` | grbl-mega/stepper.c:828-837 | The block is entered at the speed found, which the plan allows. |
| `SegmentGenerator.SegmentGenerator.FitProfile` | grbl-mega/stepper.c:848-938 | The profile fits the block in hand. |
| `SegmentGenerator.SegmentGenerator.TakeUpBlock` | grbl-mega/stepper.c:773-941 | There is a block in hand exactly if one is queued, and the speed jumps under that condition only; the part of a step left over is kept for the same block, and for no other. |
| `SegmentGenerator.SegmentGenerator.PushSteps` | grbl-mega/stepper.c:1079-1150 | A segment hands over exactly the steps the distance stands for, at a rate that takes its time, the old remainder added and the new one left for the next; at the end of a block nothing is left. |
| `SegmentGenerator.SegmentGenerator.Emit` | grbl-mega/stepper.c:1097-1150 | Steps go to the driver, at that rate, and the executing block advances to the profile's speed. |
| `SegmentGenerator.SegmentGenerator.Bail` | grbl-mega/stepper.c:1085-1095 | The end of a hold without a whole step leaves the driver alone. |
| `SegmentGenerator.SegmentGenerator.EndSegment` | grbl-mega/stepper.c:1152-1172 | At the end of the profile the block is discarded, or the hold is at rest; a block discarded leaves the speed continuous exactly unless a hold cut it short. |
| `SegmentGenerator.SegmentGenerator.CutSegment` | grbl-mega/stepper.c:943-1173 | One segment is added and fewer step events are left, unless the motion has ended in a hold without a step; it takes what the profile takes between the two positions, plus the overtime if it is late and the old remainder, minus the new one. A block finished leaves the speed continuous exactly unless a hold cut it short, and no time over. |
| `SegmentGenerator.SegmentGenerator.PrepBuffer` | grbl-mega/stepper.c:768-1175 | The loop terminates with the segment buffer full, the queue empty or the hold at rest, plans no motion of its own, and with room and a block queued cuts at least one step event or ends the hold. |
| `SegmentGenerator.SegmentGenerator.Tick` | grbl-mega/stepper.c:356-547 | An interrupt at any moment keeps all parts joined and the machine on its course, and brings the end of the queued segments one tick nearer, and by the time on the timer. |
| `SegmentGenerator.Synchronize` | grbl-mega/protocol.c:174-182 | With no further lines, however many interrupts fire between one turn of the main program and the next, the loop ends: everything planned has been executed and the machine stands at rest where the planner is, or, in a hold, it is at rest. |
| `SegmentGenerator.Interrupts` | grbl-mega/stepper.c:356-547 | Interrupts between two turns of the main program cut no steps and take the queued segments forward, in their time. |
| `Draining.TickTakesOne` | grbl-mega/stepper.c:404-547 | An interrupt leaves one tick less to go, unless nothing is queued. |
| `Draining.TickTakesTime` | grbl-mega/stepper.c:404-547 | An interrupt leaves as many CPU cycles less as lie between two ticks of the first segment. |
| `Draining.PushAddsTime` | grbl-mega/stepper.c:1142-1145 | A segment handed over adds its ticks times their cycles. |
| `BlockTime.CutBlock` | grbl-mega/stepper.c:943-1173 | However interrupts and segments interleave, the segments of a block together take what its velocity profile takes from where it was fitted, plus what was left over before; at most one of them, the one that ends the first ramp, is late, by exactly its overtime; and the cycles passed and to come are those of the segments. |
| `BlockTime.TimesAddUp` | grbl-mega/stepper.c:1105-1124 | Over many segments the roundings add up to less than a cycle per step event and per tick. |
| `Draining.LoadUncut` | grbl-mega/stepper.c:796-824 | Taking up a block leaves the step events to be cut as they were. |
| `SegmentGenerator.CutSteps` | grbl-mega/stepper.c:1079-1095 | Only the end of a hold leaves a segment without a step. |
| `TravelBox.AlwaysInside` | grbl-mega/limits.c:549-568 | If every planned move ends inside a box, the step position is inside it at every moment of every run. |
| `TravelBox.PulseInside` | grbl-mega/stepper.c:464-525 | Between block ends every axis moves monotonically, so a pulse never leaves the box. |
| `TravelBox.PathAppend` | grbl-mega/motion_control.c:32-69 | A queued course stays inside when a move ending inside is added. |
| `MotionControl.CheckTravelLimits` | grbl-mega/system.c:323-341 | The limits are reported exceeded exactly if some coordinate is outside the travel. |
| `MotionControl.TravelInSteps` | grbl-mega/planner.c:371-375 | Rounding a target to steps does not lead out of the travel. |
| `MotionControl.MotionControl.constructor` | grbl-mega/limits.c:546-549 | Starting with all there is to do inside the travel. |
| `MotionControl.MotionControl.PowerUp` | grbl-mega/main.c:48-103 | As the machine does at power-up. |
| `MotionControl.StartsInside` | grbl-mega/main.c:48-103 | Machine zero is inside any travel. |
| `MotionControl.MotionControl.SoftCheck` | grbl-mega/limits.c:549-568 | A line out of the travel aborts, no other does; in a cycle a feed hold is issued first, and stays in force until the cycle stops; nothing is planned. |
| `MotionControl.MotionControl.StopCycle` | grbl-mega/limits.c:555-560 | From the hold on the machine stays within reach, whatever happens until it is idle. |
| `MotionControl.MotionControl.WaitForRoom` | grbl-mega/motion_control.c:54-60 | The waiting loop ends with room in the queue or a system abort, or with the queue still full when nothing more happens; whatever goes on meanwhile leaves the machine within reach. |
| `MotionControl.MotionControl.MoveLine` | grbl-mega/motion_control.c:32-69 | With soft limits on a line out of the travel is never planned, and ends in an abort; in check mode nothing is planned; otherwise the line waits for room while other things go on, and is then planned exactly to its target, as the kind of move and at the rate asked for. |
| `MotionControl.MotionControl.JogExecute` | grbl-mega/jog.c:25-48 | A jog passes its own gate: refused without effect exactly if it leaves the travel, otherwise planned as any line is, at its own feed without override; from idle, the machine then jogs, with segments prepared. |
| `MotionControl.MotionControl.MoveLines` | grbl-mega/motion_control.c:152-190 | Lines are handed over in turn until an abort: all of those handed over are inside the travel, an abort comes from the first outside or from a reset while it waits, and the planner stands at the last one. |
| `MotionControl.MotionControl.HandOver` | grbl-mega/motion_control.c:183-186 | One of them. |
| `MotionControl.MotionControl.MoveArc` | grbl-mega/motion_control.c:87-191 | An arc as a whole: its lines are those of the arc computed, each passes the travel check and waits for room, none after the first outside the travel is planned; with all handed over the planner stands at the target, the last move queued at the feed of the arc. |
| `MotionControl.ArcTimeIff` | grbl-mega/motion_control.c:113-119 | In inverse-time mode an arc takes the time programmed exactly if its lines are as many as its millimetres. |
| `MotionControl.MotionControl.Proceed` | grbl-mega/protocol.c:331-411 | Interrupts, segment generation, holds, resumptions and the end of a cycle or jog between lines keep the machine within reach and each does its part; a jog lasts until its motion is complete, a hold until the cycle stops. |
| `MotionControl.MotionControl.StaysInside` | grbl-mega/limits.c:549-568 | So at every moment the step position is inside the travel. |
| `DoorTheorems.DoorSafety` | grbl-mega/protocol.c:331-373 | On every run without a resumption inside a restore delay, the door state is left only after spindle and coolant were off, the door was read closed and not opened since, a cycle start began the restore, and it was completed. |
| `DoorTheorems.StepKeepsOrderIff` | grbl-mega/protocol.c:220-411 | Every step keeps flags and history in order exactly unless it resumes inside a restore delay. |
| `DoorTheorems.EveryRunOrderly` | grbl-mega/protocol.c:220-411 | So does every run without such a step. |
| `DoorTheorems.OffWhileParked` | grbl-mega/protocol.c:548-631 | Between retraction and the start of the restore spindle and coolant stay off. |
| `DoorTheorems.PollKeeps` | grbl-mega/protocol.c:220-411 | One poll, whatever is pending: the door state is left exactly if the poll resumes. |
| `DoorTheorems.StageHistory` | grbl-mega/protocol.c:331-373 | The stage the flags stand for is what the recorded history says, in order. |
| `DoorCounterexample.DoorLeftUnrestored` | grbl-mega/protocol.c:331-373 | A run from power-up on which the cycle resumes from the door with the spindle off and nothing restored since. |
| `Protocol.Protocol.constructor` | grbl-mega/protocol.c:38-60 | The state at power-up. |
| `Protocol.Protocol.ExecuteHolds` | grbl-mega/protocol.c:260-328 | The flag updates of motion cancel, feed hold and door are the model's. |
| `Protocol.Protocol.StartAtDoor` | grbl-mega/protocol.c:336-351 | Cycle start at the door: leave it if restored, or start the restore. |
| `Protocol.Protocol.StartCycle` | grbl-mega/protocol.c:354-371 | Cycle start when idle or after a hold is the model's; what it leads to is in `HoldTheorems`. |
| `Protocol.Protocol.ExecuteStart` | grbl-mega/protocol.c:331-373 | The flag updates of cycle start, at the door and elsewhere, are the model's. |
| `Protocol.Protocol.ExecuteStop` | grbl-mega/protocol.c:375-411 | The flag updates of cycle stop are the model's, after a hold, a cycle or a cancelled jog. |
| `Protocol.Protocol.ExecuteAccessories` | grbl-mega/protocol.c:438-484 | The spindle stop and coolant overrides are the model's. |
| `Protocol.Protocol.ExecRtSystem` | grbl-mega/protocol.c:220-498 | The whole poll is the model's, section after section. |
| `Overrides.NewOverride` | grbl-mega/protocol.c:415-422 | The new override is within its limits, and what the keys ask for exactly unless the 8 bits wrap at the minimum. |
| `Overrides.EachKey` | grbl-mega/protocol.c:416-420 | Each key does its part whatever else is pressed: ten percent or one, up or down, or 100. |
| `Protocol.Protocol.Poll` | grbl-mega/protocol.c:210-214 | A poll anywhere in the program is one step of the model. |
| `Protocol.Protocol.RetractAll` | grbl-mega/protocol.c:548-616 | Switching off for the door. |
| `Protocol.Protocol.RestoreAll` | grbl-mega/protocol.c:663-706 | Restoring spindle and coolant, with the delays in which the door may open. |
| `Protocol.Protocol.AfterDelay` | grbl-mega/protocol.c:663-706 | What follows a delay. |
| `Protocol.Protocol.ManageHold` | grbl-mega/protocol.c:711-749 | The spindle stop of a feed hold. |
| `Protocol.Protocol.SuspendPass` | grbl-mega/protocol.c:535-761 | One pass of the suspend loop is one step of the model. |
| `HoldTheorems.PollOutcome` | grbl-mega/protocol.c:220-411 | The state every poll leads to, from flags and state alone, each exactly: cycle, hold, jog, door, or else idle. |
| `HoldTheorems.HoldProgress` | grbl-mega/protocol.c:262-411 | When motion brakes, when a hold is complete, and when nothing is suspended, each exactly. |
| `HoldTheorems.StepKeepsSound` | grbl-mega/protocol.c:220-750 | Every event keeps it: a hold is being executed or complete, only a jog is cancelled by the jog flag, and nothing is suspended outside the suspend loop. |
| `HoldTheorems.EveryRunSound` | grbl-mega/protocol.c:220-750 | ... and so does every run. |
| `HoldTheorems.EveryHoldEnds` | grbl-mega/protocol.c:375-386 | On every run, a hold or door hold is complete once the interrupt has stopped. |
| `HoldTheorems.HoldResumes` | grbl-mega/protocol.c:335-371 | On every run, a cycle start alone resumes a complete hold exactly if there is a block and its motion has not been cancelled, and then nothing is held or suspended. |
| `HoldTheorems.HoldAndResume` | grbl-mega/protocol.c:262-411 | Feed hold, cycle stop and cycle start lead from the cycle into the hold and back. |
| `HoldTheorems.SpindleStops` | grbl-mega/protocol.c:455-465 | In a complete hold the spindle stop key stops the spindle; ... |
| `HoldTheorems.SpindleStartsAgain` | grbl-mega/protocol.c:713-745 | ... pressed again, it brings it up as commanded; ... |
| `HoldTheorems.SpindleStartsFirst` | grbl-mega/protocol.c:356-358 | ... and so does a cycle start, which is then repeated. |
| `HoldTheorems.CoolantKey` | grbl-mega/protocol.c:467-484 | The coolant key works but at the door and in a jog; nothing else in a poll touches spindle or coolant. |
| `HoldTheorems.DoorHolds` | grbl-mega/protocol.c:295-325 | A door opened in a cycle holds it at once; ... |
| `HoldTheorems.DoorRetracts` | grbl-mega/protocol.c:546-612 | ... once the interrupt has stopped, spindle and coolant are switched off; ... |
| `HoldTheorems.DoorCloses` | grbl-mega/protocol.c:630-634 | ... the door is then read as closed; ... |
| `HoldTheorems.DoorStarts` | grbl-mega/protocol.c:341-352 | ... a cycle start starts the restore; ... |
| `HoldTheorems.DoorRestores` | grbl-mega/protocol.c:637-708 | ... it brings up spindle and coolant as commanded, each with its delay, and repeats the cycle start; ... |
| `HoldTheorems.DoorResumes` | grbl-mega/protocol.c:341-371 | ... which goes on with the cycle, if there is a block. |
| `WordOrder.OrderDoesNotMatter` | grbl-mega/gcode.c:115-327 | Any permutation of a line's words is accepted exactly if the line is, and then means the same block, axis command and masks. |
| `WordOrder.SelectPermuted` | grbl-mega/gcode.c:115-327 | The words of one modal group or one letter are the same in any order. |
| `WordLoop.ParseLine` | grbl-mega/gcode.c:115-327 | The word loop accepts exactly the lines that are acceptable regardless of order, and computes their meaning. |
| `LineText.ParseText` | grbl-mega/gcode.c:115-327 | From the characters of a line: it is accepted exactly if all of it can be read as letters with numbers and the words are acceptable regardless of order, and then has their meaning. |
| `LineText.PrintedWord` | grbl-mega/gcode.c:117-123 | A letter with a number behind it as it is printed is read as that word, with the number rounded. |
| `WordLoop.ParseWord` | grbl-mega/gcode.c:117-326 | One word is executed exactly if it is good and nothing before it stands against it. |
| `WordLoop.AcceptableOneMore` | grbl-mega/gcode.c:233-237 | What the masks refuse is what order-free acceptability refuses. |
| `WordLoop.MeaningOneMore` | grbl-mega/gcode.c:115-327 | Executing a word is adding it to the meaning. |
| `WordLoop.NonModalWord` | grbl-mega/gcode.c:144-160 | G4, G10, G28, G30, G53, G92 and their variants. |
| `WordLoop.MotionWord` | grbl-mega/gcode.c:161-177 | The motion modes. |
| `WordLoop.DistanceOrLengthWord` | grbl-mega/gcode.c:182-220 | Distance modes and tool length offsets. |
| `WordLoop.ModeWord` | grbl-mega/gcode.c:178-231 | The other modes: plane, feed mode, units, coordinate system, path control. |
| `WordLoop.MWord` | grbl-mega/gcode.c:240-282 | The M words. |
| `WordLoop.ValueWord` | grbl-mega/gcode.c:285-326 | Value words, with repetition and negative values refused. |
| `Words.KeysInRange` | grbl-mega/gcode.c:115-327 | An accepted word belongs to one of the groups or value letters of the masks. |
| `Decimals.RoundTrip` | grbl-mega/print.c:133-168 | Reading what was printed with up to seven places in at most eight digits gives the number rounded to those places and stops at the character behind it; so does reading in variables of 8 and 32 bits. |
| `Decimals.RoundedExact` | grbl-mega/print.c:133-168 | A number with no more places than printed is printed exactly. |
| `Decimals.ScanDigits` | grbl-mega/nuts_bolts.c:52-73 | A row of digits is read as the number it stands for. |
| `Decimals.ReadExactlyIff` | grbl-mega/nuts_bolts.c:35-108 | In a line that fits the buffer the number read is the one the text stands for, exactly unless it is not zero and more than 127 digits are dropped before the point. |
| `Decimals.NarrowExponent` | grbl-mega/nuts_bolts.c:52-75 | There the exponent is all that can wrap: 32 bits hold the digits kept, 8 bits their count. |
| `Decimals.OnesMisread` | grbl-mega/nuts_bolts.c:54-66 | A row of 136 or more ones is misread. |
| `Decimals.PrintedDigits` | grbl-mega/print.c:148-161 | The digits generated are all of the number's, none missing. |
| `NumberText.PrintFloat` | grbl-mega/print.c:133-168 | The buffer loops print the number as specified. |
| `NumberText.PrintUint32` | grbl-mega/print.c:97-114 | Base ten, no leading zeros. |
| `NumberText.PrintUint8` | grbl-mega/print.c:64-79 | The same, digit by digit. |
| `NumberText.ReadFloat` | grbl-mega/nuts_bolts.c:35-108 | The reading loops, in variables of 8 and 32 bits, compute the specified number, or refuse a text without a digit. |
| `NumberText.ApplyExponent` | grbl-mega/nuts_bolts.c:78-96 | The loops by hundredths and tenths apply the exact power of ten. |
| `WorkCoordinates.OffsetShowsProgrammed` | grbl-mega/gcode.c:553-569 | After G92 the programmed axes show the programmed values, the others what they showed, and nothing has moved. |
| `WorkCoordinates.SystemShowsProgrammed` | grbl-mega/gcode.c:537-551 | Likewise G10 L20 on the system active after the line. |
| `WorkCoordinates.MoveShowsProgrammedIff` | grbl-mega/gcode.c:572-595 | After an absolute straight move or arc the programmed axes show the programmed values, exactly unless the line clears a G92 offset that is not zero there. |
| `WorkCoordinates.AbsoluteOverrideMoves` | grbl-mega/gcode.c:582-584 | With G53 the programmed value is the machine position. |
| `WorkCoordinates.IncrementalMoves` | grbl-mega/gcode.c:589-591 | With G91 machine and work position move by the programmed distance. |
| `WorkCoordinates.OffsetsDoNotMove` | grbl-mega/gcode.c:967-1030 | A line without a motion or probe cycle of its own, other than G28 and G30, never changes the machine position. |
| `WorkCoordinates.StaysConsistent` | grbl-mega/gcode.c:982-1006 | The active coordinate system stays the stored one. |
| `WorkCoordinates.AcceptedLinesFit` | grbl-mega/gcode.c:115-327 | What the word loop accepts is a line the checks behind it can rely on. |
| `GcodeParser.Parser.ComputeTarget` | grbl-mega/gcode.c:572-595 | The axis loop computes the specified target. |
| `GcodeParser.Parser.ComputeOffset` | grbl-mega/gcode.c:553-569 | The axis loop of G92 computes the specified offset. |
| `GcodeParser.Parser.ComputeSystem` | grbl-mega/gcode.c:537-551 | The axis loop of G10 computes the specified coordinate data. |
| `GcodeParser.Parser.ComputeHome` | grbl-mega/gcode.c:600-618 | The axis loop of G28 and G30 computes the specified end point (`WordMeanings.HomeMeans`). |
| `GcodeParser.Parser.ExecuteLine` | grbl-mega/gcode.c:967-1065 | An accepted line changes the coordinates as specified and hands on the specified motions, rapids, feeds, arcs with their direction and plane, and probes, a probe cycle ending where it ends; a refused one changes nothing. |
| `WordMeanings.MotionMeans` | grbl-mega/gcode.c:1034-1053 | In an accepted line G0 to G3 are the motion executed: a rapid, a feed, an arc clockwise or counter-clockwise to the target; G80 none. |
| `WordMeanings.ProbeMeans` | grbl-mega/gcode.c:797-806 | G38.2 to G38.5 probe towards or away, with or without an error. |
| `WordMeanings.PlaneMeans` | grbl-mega/gcode.c:447-462 | G17 to G19 choose the axes of an arc. |
| `WordMeanings.AxisWordMeans` | grbl-mega/gcode.c:311-313 | X, Y and Z words are the values of axes 0, 1 and 2. |
| `WordMeanings.UnitsMean` | grbl-mega/gcode.c:464-473 | With a G21 every axis word is programmed at its value, with a G20 at 25.4 times that, otherwise in the unit in force. |
| `WordMeanings.DistanceMeans` | grbl-mega/gcode.c:572-595 | G90 gives the absolute target in the line's coordinate system with offset and tool length, G91 the incremental one; an axis without a word stays. |
| `WordMeanings.SystemMeans` | grbl-mega/gcode.c:491-504 | G54 to G59 select the stored systems 0 to 5, for the line and from then on. |
| `WordMeanings.NonModalMeans` | grbl-mega/gcode.c:143-161 | G4, G10, G28, G30, G53, G92 and their variants are the commands executed. |
| `WordMeanings.ToolLengthMeans` | grbl-mega/gcode.c:971-980 | G43.1 makes the Z word the tool length offset, G49 clears it, and nothing else changes it. |
| `WordMeanings.HomeMeans` | grbl-mega/gcode.c:1007-1014 | G28 and G30 go rapidly by way of the programmed point, if axes are given, to the stored position on these axes, the others staying; without axes straight there on all. |
| `WordMeanings.HomeStored` | grbl-mega/gcode.c:1015-1020 | What G28.1 and G30.1 store is where G28 and G30 go. |
| `WordMeanings.SetSystemMeans` | grbl-mega/gcode.c:530-551 | G10 sets just the system its P word names, on the given axes: L2 to the programmed values, L20 so that the present position shows them. |
| `WordMeanings.ValueMeans` | grbl-mega/gcode.c:293-313 | Every value word is kept under its letter, with the signs and sizes it may have. |
| `WordMeanings.FeedModeMeans` | grbl-mega/gcode.c:193-196 | G93 and G94 choose inverse time and units per minute. |
| `WordMeanings.MWordMeans` | grbl-mega/gcode.c:240-275 | The M words stop, end or leave the program, and set spindle and coolant. |
| `WordMeanings.TogetherIff` | grbl-mega/gcode.c:141-239 | Two G words go together exactly if both are supported, their modal groups differ and at most one uses the axis words; one goes alone exactly if it is supported. |
| `WordMeanings.OtherWordsIff` | grbl-mega/gcode.c:240-323 | The M words that are supported, and the other letters with the values they may have, exactly. |
| `WordMeanings.LinesRefused` | grbl-mega/gcode.c:553-645 | G53 with another motion, G80 with an axis word, G92 without one and G43.1 with other axes are refused. |
| `WordMeanings.SetSystemRefused` | grbl-mega/gcode.c:516-528 | G10 is refused without axis words, with a P word beyond 6, or with an L word other than 2 and 20. |
| `WordMeanings.OrdinaryLinesPass` | grbl-mega/gcode.c:485-660 | A line without these commands passes the checks that concern coordinates. |
| `ArcCentre.RadiusCentre` | grbl-mega/gcode.c:682-772 | The centre is at distance \|r\| from both ends, on the side that direction and sign of R require; the three other outcomes are given exactly. |
| `ArcCentre.CentreAtHeight` | grbl-mega/gcode.c:764-768 | Distances and side of a centre at a given height over the chord. |
| `ArcMotion.DriftBound` | grbl-mega/motion_control.c:149-190 | For squared angles up to 3 every arc point keeps its squared radius between r^2(1-theta^4) and two parts in a million above r^2, or r^2 itself unless the angle is tiny. |
| `ArcMotion.ShortensIff` | grbl-mega/motion_control.c:149-151 | A rotation does not lengthen the radius exactly if the angle is large enough for the constant used. |
| `ArcMotion.OrdinaryAngles` | grbl-mega/motion_control.c:149-151 | Squared angles from 5e-7 to 2.9 are. |
| `ArcMotion.TinyAngles` | grbl-mega/motion_control.c:149-151 | Squared angles up to 4e-7 are not. |
| `ArcMotion.ScaleBounds` | grbl-mega/motion_control.c:149-151 | How much one rotation changes the squared radius. |
| `ArcMotion.CourseBound` | grbl-mega/motion_control.c:149-176 | For squared angles up to 3 every point is within twelve single-rotation errors, to two parts in a million, of the start vector turned exactly. |
| `ArcMotion.PointBounds` | grbl-mega/motion_control.c:149-181 | Both bounds, on radius and on course, for every line of an arc. |
| `ArcAccuracy.ArcAccurate` | grbl-mega/motion_control.c:109-187 | With a tolerance of at most an eleventh of the radius, every point of an arc between its ends is near the start vector turned exactly: its squared distance is at most 145 r^2 (u^4/450 + u 10^-15), where u is 32 tolerances over the radius. |
| `ArcAccuracy.StepFromTolerance` | grbl-mega/motion_control.c:109-124 | The squared angle of a segment is at most 32 tolerances over the radius. |
| `ArcAccuracy.CourseInNumbers` | grbl-mega/motion_control.c:149-181 | The same bound in terms of the angle of a segment. |
| `ArcAccuracy.OneTurnInNumbers` | grbl-mega/motion_control.c:149-151 | One approximate rotation misses the exact one by a square of at most u^4/450 + u 10^-15, u being the squared angle. |
| `ArcMotion.CountSegments` | grbl-mega/motion_control.c:109-110 | As many segments as chords of the tolerance, laid end to end, do not exceed the arc; the two outcomes without a 16-bit number are given exactly. |
| `ArcAngle.AddError` | grbl-mega/motion_control.c:163-167 | The error of repeated rotations grows by no more than one rotation's each time. |
| `ArcAngle.StraysOn` | grbl-mega/motion_control.c:163-167 | One approximate rotation more of an approximate vector is off by one error more. |
| `ArcAngle.AngularTravel` | grbl-mega/motion_control.c:98-103 | The angle between the radius vectors, in the direction of the arc, and a full circle rather than none. |
| `ArcAngle.TurnsToTarget` | grbl-mega/motion_control.c:94-103 | Turning the start vector by that angle points it to the target. |
| `ArcMotion.NextRadius` | grbl-mega/motion_control.c:160-176 | The next vector is one approximate rotation further from the exact one, or exact after twelve: its length and its course stay within the errors of that many rotations. |
| `ArcMotion.ArcLines` | grbl-mega/motion_control.c:152-187 | The k-th line ends within the errors of at most twelve rotations of the start vector turned by k steps, and k steps along the third axis. |
| `ArcMotion.Arc` | grbl-mega/motion_control.c:87-191 | The angle found turns the start towards the target in the direction of the arc (onto it, if they are equally far from the centre); the lines share that angle and the third axis evenly, and the last ends exactly at the target. |
| `Homing.GoHome` | grbl-mega/limits.c:246-542 | A cycle without an alarm makes exactly 2N+2 passes in turn, ends on a pull-off, and leaves the axes of the cycle at the pull-off inside the end of the travel that the first approach went to, zero for positive, to half a step and within the travel whenever the pull-off is; the others stay where they were. |
| `Homing.HomedStands` | grbl-mega/limits.c:509-521 | The homed position is the pull-off inside the end at which the switch is, by the direction of the first approach. |
| `Homing.HomedInside` | grbl-mega/limits.c:517-521 | ... and within the travel whenever the pull-off is. |
| `Homing.PassesLead` | grbl-mega/limits.c:262-392 | The first approach leads at least half as far again as the travel of any axis, in the direction set; pull-offs lead back by the pull-off and the second approach five times that, at the feed rate; rates grow with the root of the number of axes. |
| `Homing.AlarmMeans` | grbl-mega/limits.c:352-376 | What each alarm means, the pull-off and approach alarms exactly. |
| `Homing.WaitForPass` | grbl-mega/limits.c:332-379 | A pass completes only when every axis has met its switch, or a pull-off has run out clear of them; every alarm is one the flags call for. |
| `Homing.PlanPass` | grbl-mega/limits.c:276-325 | A pass is aimed at the axes of the cycle only, in the direction of its phase. |
| `Homing.SearchReaches` | grbl-mega/limits.c:270-274 | The first search reaches beyond the travel of every axis. |
| `Homing.ConvertedBack` | grbl-mega/system.c:281-306 | Converting a position to millimetres and back is exact, so an axis outside the cycle is planned no step. |
| `Homing.SetHomed` | grbl-mega/limits.c:509-542 | The homed position, by the side the switch is on. |

## Left out

- PlanRuns.EveryRunSound: overrides are constant during a run; what one does to a plan is in `OverrideReplan.StoppableIff`.
- StepTheorems.StepExact: counters are unbounded, while the source's are 32 bits wide and hold eight times a step event count below 2^28; reset, jog cancel and probing are not events.
- StepCount.StepRate: the conversion of the cycles to 32 bits is not modelled (their narrowing to 16 bits is in `StepCount.SmoothingLevel`), nor is that of n_step to 16 bits.
- BlockTime.CutBlock: a re-planned block is timed from where its profile is fitted again; in a hold that ends without a step, the time of that last part of a step is dropped.
- DoorTheorems.DoorSafety: alarms, reset, sleep, check mode and homing are not states of the model; interrupts set their flags between polls, not inside one; which of the coolants is restored is a parameter (grbl-mega/protocol.c:676 masks the flood bit twice).
- MotionControl.MotionControl.SoftCheck: the reset and the alarm itself are left out; what happens until the machine is idle is an argument.
- MotionControl.MotionControl.MoveLine: what happens while it waits is an argument; a line still waiting at its end has not been planned.
- GcodeParser.Parser.ExecuteLine: feed rate, spindle and other checks that only refuse more lines, program end and dwell are left out; what a probe cycle comes to is an argument; arcs and jogs have their own modules.
- MotionControl.MotionControl.MoveArc: all lines are computed before the first is handed over; where the segment count is no 16-bit number no lines are given.
- SegmentGenerator.Synchronize: the reset that can end the wait, and new commands during it, are left out; that interrupts go on firing is taken for granted.
- Homing.GoHome: each axis gets an arbitrary part of its planned way; which part is an argument.
- Rounding of floats, and with it the loss of steps on moves with more step events than a float can count.
- Spindle speed, PWM and laser power of segments; parking motions, CoreXY and sleep, which the configuration leaves out.
- Timers, pins and direction masks of the microcontroller.
- The order in which, with just one block behind the executing one, the new exit speed is written and the stepper module notified (grbl-mega/planner.c:142-147): both happen within one call, and only their joint effect is stated.
- mc_reset, and with it the kill of steppers in motion.
- Serial input and output, status reports, EEPROM layout and settings: the coordinate data is a sequence of vectors.
