/** The motion planner: a ring buffer of linear moves and the plan of their junction speeds. */
module Planner {
  import opened NutsBolts
  import opened Kinematics
  import opened LineGeometry
  import opened PlanSpec
  import opened PlanRuns
  import opened PlannerRing
  import opened PlannerQueue
  import opened PlannerInvariant
  import opened OverrideReplan

  /** What a caller asks for (`plan_line_data_t`). */
  datatype LineData = LineData(feedRate: real, rapid: bool, noFeedOverride: bool, inverseTime: bool)

  /** The settings and overrides the planner reads, and the square root it uses. */
  datatype Machine = Machine(
    stepsPerMm: seq<real>,
    acceleration: seq<real>,
    maxRate: seq<real>,
    junctionDeviation: real,
    feedOverride: int,      // percent
    rapidOverride: int,     // percent
    root: real -> real)

  ghost predicate WellSet(m: Machine) {
    && |m.stepsPerMm| == |m.acceleration| == |m.maxRate| == N_AXIS
    && (forall i :: 0 <= i < N_AXIS ==> m.stepsPerMm[i] > 0.0)
    && (forall i :: 0 <= i < N_AXIS ==> m.acceleration[i] > 0.0)
    && (forall i :: 0 <= i < N_AXIS ==> m.maxRate[i] > 0.0)
    && m.junctionDeviation >= 0.0
    && IsRoot(m.root)
  }

  /** The steps of one axis of a move, counted in its direction. */
  function SignedSteps(b: PlanBlock, i: nat): int
    requires i < |b.steps| && i < |b.negative|
  {
    if b.negative[i] then -(b.steps[i] as int) else b.steps[i]
  }

  datatype Snapshot = Snap(moves: seq<PlanBlock>, position: seq<int>, state: Plan, loaded: bool, recalculate: bool)

  /** How fast the junction between the queued moves and a new one may be taken: at rest if there
      is none, otherwise at the least of both nominal speeds and what the corner allows. */
  function EntryLimit(moves: seq<PlanBlock>, b: PlanBlock, feedOverride: int, rapidOverride: int): real {
    if moves == [] then 0.0
    else MaxEntrySqr(NominalSpeed(b, feedOverride, rapidOverride),
                     NominalSpeed(moves[|moves| - 1], feedOverride, rapidOverride), b.maxJunction)
  }

  /** The move `b` has been queued behind the others, and the plan has been redone. */
  ghost predicate Appended(s: Snapshot, s': Snapshot, b: PlanBlock, feedOverride: int, rapidOverride: int) {
    AppendedAt(s, s', b.(maxEntry := EntryLimit(s.moves, b, feedOverride, rapidOverride)))
  }

  ghost predicate AppendedAt(s: Snapshot, s': Snapshot, b: PlanBlock) {
    && SameMoves(s'.moves, s.moves + [b])
    && Allowed(s.state, Append(b.maxEntry, Gain(b)))
    && (s.state.q != [] ==> s.state.planned < |s.state.q|)
    && s'.state == Step(s.state, Append(b.maxEntry, Gain(b)))
    && s'.loaded == (s.loaded && s.state.planned > 0)
    && s'.recalculate == (s.recalculate || (s.loaded && !s'.loaded))
  }

  // ---------------------------------------------------------------------------
  // What a block is to be, for the line it is planned from
  // ---------------------------------------------------------------------------

  /** `dir` is the unit vector along the move, `length` its length in millimetres. */
  ghost predicate Stretched(dir: seq<real>, length: real, b: PlanBlock, stepsPerMm: seq<real>) {
    && |dir| == |b.steps| == |b.negative| == |stepsPerMm| == N_AXIS
    && (forall i :: 0 <= i < N_AXIS ==> stepsPerMm[i] > 0.0)
    && (forall i :: 0 <= i < N_AXIS ==> dir[i] * length == SignedSteps(b, i) as real / stepsPerMm[i])
  }

  ghost predicate Along(dir: seq<real>, b: PlanBlock, stepsPerMm: seq<real>) {
    |dir| == N_AXIS && SumSquares(dir) == 1.0 && exists length :: length > 0.0 && Stretched(dir, length, b, stepsPerMm)
  }

  ghost predicate LastAlong(q: seq<PlanBlock>, dir: seq<real>, stepsPerMm: seq<real>) {
    q != [] ==> Along(dir, q[|q| - 1], stepsPerMm)
  }

  /** Acceleration and rapid rate are the greatest the axes allow in the direction of the move;
      the programmed rate is what the caller asked for. */
  ghost predicate Rated(b: PlanBlock, data: LineData, m: Machine, dir: seq<real>) {
    && UsesUp(b.acceleration, dir, m.acceleration) && UsesUp(b.rapidRate, dir, m.maxRate)
    && b.rapid == data.rapid && b.noFeedOverride == data.noFeedOverride
    && b.programmedRate == if data.rapid then b.rapidRate
                           else if data.inverseTime then data.feedRate * b.millimeters
                           else data.feedRate
  }

  /** The corner limit is that of the corner between the last queued move and this one. */
  ghost predicate Cornered(b: PlanBlock, m: Machine, before: seq<PlanBlock>, dir: seq<real>) {
    if before == [] then b.maxJunction == 0.0
    else |dir| == N_AXIS &&
         exists previous :: Along(previous, before[|before| - 1], m.stepsPerMm) &&
                            Corner(b.maxJunction, previous, dir, m.acceleration, m.junctionDeviation)
  }

  ghost predicate Described(b: PlanBlock, data: LineData, m: Machine, before: seq<PlanBlock>) {
    exists dir :: DescribedAlong(b, data, m, before, dir)
  }

  ghost predicate DescribedAlong(b: PlanBlock, data: LineData, m: Machine, before: seq<PlanBlock>, dir: seq<real>) {
    && |dir| == N_AXIS && SumSquares(dir) == 1.0
    && Stretched(dir, b.millimeters, b, m.stepsPerMm) && Rated(b, data, m, dir) && Cornered(b, m, before, dir)
  }

  /** The last queued move is the one a caller asked for. */
  ghost predicate EndsAsAsked(q: seq<PlanBlock>, data: LineData) {
    q != [] &&
    var b := q[|q| - 1];
    && b.rapid == data.rapid && b.noFeedOverride == data.noFeedOverride
    && (!data.rapid ==>
          b.programmedRate == if data.inverseTime then data.feedRate * b.millimeters else data.feedRate)
  }

  lemma AppendedAsAsked(s: Snapshot, s': Snapshot, b: PlanBlock, feedOverride: int, rapidOverride: int, data: LineData,
                        m: Machine)
    requires Appended(s, s', b, feedOverride, rapidOverride) && Described(b, data, m, s.moves)
    ensures EndsAsAsked(s'.moves, data)
  {
    hide Stretched, Cornered, UsesUp, EntryLimit, Step, Gain;
    assert SameMove(s'.moves[|s.moves|], (s.moves
                                          + [b.(maxEntry := EntryLimit(s.moves, b, feedOverride,
                                                                       rapidOverride))])[|s.moves|]);
  }

  class Planner {
    const machine: Machine
    const blocks: array<PlanBlock>
    var tail: nat                 // block_buffer_tail
    var head: nat                 // block_buffer_head
    var nextHead: nat             // next_buffer_head
    var planned: nat              // block_buffer_planned
    var position: seq<int>        // pl.position, in absolute steps
    var previousUnitVec: seq<real>
    var previousNominalSpeed: real
    // Held by the stepper module, and used by its planner callback.
    var loaded: bool              // pl_block != NULL
    var currentSpeed: real        // prep.current_speed
    var recalculate: bool         // PREP_FLAG_RECALCULATE

    ghost var holding: bool       // from a feed hold until the plan is reinitialised

    ghost predicate Structured()
      reads this
    {
      && blocks.Length == BLOCK_BUFFER_SIZE
      && tail < BLOCK_BUFFER_SIZE && head < BLOCK_BUFFER_SIZE && planned < BLOCK_BUFFER_SIZE
      && nextHead == NextIndex(head)
    }

    ghost function Mem(): Memory
      reads this, blocks
    {
      Memory(blocks[..], planned, loaded, recalculate)
    }

    /** `st_update_plan_block_parameters`. */
    method UpdatePlanBlockParameters()
      requires Structured()
      modifies this`loaded, this`recalculate, blocks
      ensures Mem() == Notify(old(Mem()), tail, currentSpeed)
    {
      hide Square;
      if loaded {
        recalculate := true;
        blocks[tail] := blocks[tail].(entry := Square(currentSpeed));
        loaded := false;
      }
    }

    /** One turn of the reverse loop of `planner_recalculate`. */
    method ReverseTurn(current: nat, next: nat, blockIndex: nat, ghost k: nat)
      requires Structured() && 0 < k < BLOCK_BUFFER_SIZE
      requires blockIndex == Slot(planned, k - 1) && current == Slot(planned, k) && next == Slot(planned, k + 1)
      modifies this`loaded, this`recalculate, blocks
      ensures Mem() == ReverseStep(old(Mem()), tail, currentSpeed, k)
    {
      hide Gain;
      if blockIndex == tail {
        UpdatePlanBlockParameters();
      }
      if blocks[current].entry != blocks[current].maxEntry {
        var entrySpeedSqr := blocks[next].entry + Gain(blocks[current]);
        if entrySpeedSqr < blocks[current].maxEntry {
          blocks[current] := blocks[current].(entry := entrySpeedSqr);
        } else {
          blocks[current] := blocks[current].(entry := blocks[current].maxEntry);
        }
      }
    }

    /** The reverse pass of `planner_recalculate`. */
    method Reverse()
      requires Structured() && Span(planned, head) > 1
      modifies this`loaded, this`recalculate, blocks
      ensures Mem() == ReversePass(old(Mem()), tail, head, currentSpeed)
    {
      hide Gain, ReverseStep, Notify, ReverseBlock, Square;
      ghost var m, n := Mem(), Span(planned, head);
      ghost var k := n - 1;
      var blockIndex := PrevIndex(head);
      var current := blockIndex;
      blocks[current] := blocks[current].(entry := Min(blocks[current].maxEntry, Gain(blocks[current])));
      blockIndex := PrevIndex(blockIndex);
      if blockIndex == planned {
        if blockIndex == tail {
          UpdatePlanBlockParameters();
        }
      } else {
        while blockIndex != planned
          invariant 0 < k < n && current == Slot(planned, k) && blockIndex == Slot(planned, k - 1)
          invariant Mem() == ReverseTo(m, tail, currentSpeed, n, k)
          decreases k
        {
          var next := current;
          current := blockIndex;
          blockIndex := PrevIndex(blockIndex);
          k := k - 1;
          ReverseTurn(current, next, blockIndex, k);
        }
      }
    }

    /** One turn of the forward loop of `planner_recalculate`. */
    method ForwardTurn(current: nat, blockIndex: nat)
      requires Structured() && blockIndex < BLOCK_BUFFER_SIZE && current == PrevIndex(blockIndex)
      modifies this`planned, blocks
      ensures Mem() == ForwardStep(old(Mem()), blockIndex)
    {
      hide Gain;
      var next := blockIndex;
      if blocks[current].entry < blocks[next].entry {
        var entrySpeedSqr := blocks[current].entry + Gain(blocks[current]);
        if entrySpeedSqr < blocks[next].entry {
          blocks[next] := blocks[next].(entry := entrySpeedSqr);
          planned := blockIndex;
        }
      }
      if blocks[next].entry == blocks[next].maxEntry {
        planned := blockIndex;
      }
    }

    /** The forward pass of `planner_recalculate`. */
    method Forward()
      requires Structured() && Span(planned, head) > 1
      modifies this`planned, blocks
      ensures Mem() == ForwardTo(old(Mem()), old(planned), old(Span(planned, head)) - 1)
    {
      ghost var m, base, n, k := Mem(), planned, Span(planned, head), 0;
      var next := planned;
      var blockIndex := NextIndex(planned);
      while blockIndex != head
        invariant 0 <= k < n && next == Slot(base, k) && blockIndex == Slot(base, k + 1)
        invariant Mem() == ForwardTo(m, base, k)
        decreases n - k
      {
        var current := next;
        next := blockIndex;
        k := k + 1;
        ForwardTurn(current, blockIndex);
        blockIndex := NextIndex(blockIndex);
      }
    }

    /** `planner_recalculate`. */
    method Recalculate()
      requires Structured()
      modifies this`planned, this`loaded, this`recalculate, blocks
      ensures Structured()
      ensures Mem() == Recalculated(old(Mem()), tail, head, currentSpeed)
    {
      if PrevIndex(head) == planned {
        return;
      }
      Reverse();
      Forward();
    }

    // -------------------------------------------------------------------------
    // What the planner keeps
    // -------------------------------------------------------------------------

    ghost function Moves(): seq<PlanBlock>
      requires Structured()
      reads this, blocks
    {
      Queue(Mem(), tail, head)
    }

    ghost function State(): Plan
      requires Structured()
      reads this, blocks
    {
      PlanOf(Mem(), tail, head, currentSpeed, holding)
    }

    ghost predicate Valid()
      reads this, blocks
    {
      && Structured() && WellSet(machine) && |position| == N_AXIS
      && Consistent(Mem(), tail, head, currentSpeed, holding)
      && RatesKept(Moves(), machine.feedOverride, machine.rapidOverride)
      && (tail != head ==> PathKnown())
    }

    /** The path behind the last queued block: its direction and its nominal speed. */
    ghost predicate PathKnown()
      requires Structured() && tail != head
      reads this, blocks
    {
      && |previousUnitVec| == N_AXIS && SumSquares(previousUnitVec) == 1.0
      && LastAlong(Moves(), previousUnitVec, machine.stepsPerMm)
      && LastNominal(Moves(), previousNominalSpeed, machine.feedOverride, machine.rapidOverride)
    }

    /** `plan_check_full_buffer`. */
    predicate Full()
      reads this
    {
      tail == nextHead
    }

    /** The planner at power-up, after `plan_reset`. */
    constructor (machine: Machine)
      requires WellSet(machine)
      ensures Valid() && fresh(blocks) && this.machine == machine && !loaded && tail == head && !holding
      ensures position == [0, 0, 0] && currentSpeed == 0.0 && !recalculate
    {
      this.machine := machine;
      blocks := new PlanBlock[BLOCK_BUFFER_SIZE](_ => ZeroBlock);
      tail, head, nextHead, planned := 0, 0, 1, 0;
      position, previousUnitVec, previousNominalSpeed := [0, 0, 0], [0.0, 0.0, 0.0], 0.0;
      loaded, currentSpeed, recalculate, holding := false, 0.0, false, false;
    }

    // -------------------------------------------------------------------------
    // The stepper module's side of the executing block
    // -------------------------------------------------------------------------

    /** `plan_get_exec_block_exit_speed_sqr`. */
    function ExecBlockExitSpeedSqr(): (v: real)
      requires Valid() && tail != head
      reads this, blocks
      ensures v == ExitSqr(State().q, 0)
    {
      ExecBlockExit(Mem(), tail, head, currentSpeed);
      if NextIndex(tail) == head then 0.0 else blocks[NextIndex(tail)].entry
    }

    /** The stepper module takes up the block at the tail, at a speed of its own in a hold and
        at the planned one otherwise. */
    method TakeUp(speed: real, midHold: bool)
      requires Valid() && tail != head && !loaded
      requires Allowed(State(), Travel(Square(speed), State().q[0].gain))
      requires !midHold ==> Square(speed) == State().q[0].entry
      modifies this`loaded, this`currentSpeed, this`recalculate, blocks
      ensures Valid() && loaded && currentSpeed == speed && !recalculate && blocks[tail].entry == Square(speed)
      ensures State() == Step(old(State()), Travel(Square(speed), old(State()).q[0].gain))
      ensures SameMoves(Moves(), old(Moves()))
    {
      hide Sound, Step, Gain, Square, RatesKept, SumSquares, LastNominal, LastAlong;
      ghost var m := Mem();
      ghost var b := if midHold then blocks[tail].(entry := Square(speed)) else blocks[tail];
      TakeUpPhysical(m, tail, b, speed);
      TravelPlanner(m, tail, head, currentSpeed, holding, b, true, false, speed, machine.feedOverride,
                    machine.rapidOverride);
      currentSpeed := speed;
      if midHold {
        blocks[tail] := blocks[tail].(entry := Square(speed));
      }
      loaded, recalculate := true, false;
      assert Mem() == m.(ring := m.ring[tail := b], loaded := true, recalculate := false);
      SameMovesAlong(old(Moves()), Moves(), previousUnitVec, machine.stepsPerMm);
    }

    /** The stepper module has cut a segment of the executing block. */
    method Advance(mm: real, speed: real)
      requires Valid() && loaded && mm >= 0.0 && blocks[tail].acceleration >= 0.0
      requires Allowed(State(), Travel(Square(speed), Gained(blocks[tail].acceleration, mm)))
      modifies this`currentSpeed, blocks
      ensures Valid() && currentSpeed == speed
      ensures State() == Step(old(State()), Travel(Square(speed), Gained(old(blocks[tail].acceleration), mm)))
      ensures Moves() == old(Moves())[0 := old(Moves())[0].(millimeters := mm)]
    {
      hide Sound, Step, Gained, Square, RatesKept, SumSquares, LastNominal, LastAlong;
      ghost var m := Mem();
      ghost var b := blocks[tail].(millimeters := mm);
      TravelPlanner(m, tail, head, currentSpeed, holding, b, true, recalculate, speed, machine.feedOverride,
                    machine.rapidOverride);
      currentSpeed := speed;
      blocks[tail] := blocks[tail].(millimeters := mm);
      assert Mem() == m.(ring := m.ring[tail := b]);
      LastAlongKept(old(Moves()), Moves(), previousUnitVec, machine.stepsPerMm);
    }

    /** A feed hold begins: the stepper module looks at the executing block's profile again. */
    method BeginHold()
      requires Valid()
      modifies this`loaded, this`recalculate, this`holding, blocks
      ensures Valid() && !loaded && holding && recalculate == (old(recalculate) || old(loaded))
      ensures State() == Step(old(State()), Hold)
      ensures SameMoves(Moves(), old(Moves()))
    {
      hide Sound, Step, Notify, Gain, Square, Consistent, RatesKept, PlanOf, Queue, Seen, NominalSpeed, SumSquares,
           LastAlong, SameMoves;
      HoldPlanner(Mem(), tail, head, currentSpeed, holding, machine.feedOverride, machine.rapidOverride);
      UpdatePlanBlockParameters();
      holding := true;
      if tail != head {
        SameMovesAlong(old(Moves()), Moves(), previousUnitVec, machine.stepsPerMm);
      }
    }

    /** The stepper module lets go of the executing block, then `plan_discard_current_block`. */
    method DiscardCurrentBlock()
      requires Valid()
      modifies this`tail, this`planned, this`loaded
      ensures Valid() && !loaded
      ensures old(tail == head) ==> tail == old(tail) && planned == old(planned)
      ensures old(tail != head) ==> |old(Moves())| > 0 && Moves() == old(Moves())[1..]
      ensures old(tail != head) ==> State() == Step(old(State()), Discard)
    {
      hide Sound, Step, Gain, Square, RatesKept, PlanOf, Queue, Seen, NominalSpeed, SumSquares, LastNominal,
           LastAlong;
      loaded := false;
      if head != tail {
        DiscardPlanner(old(Mem()), tail, head, currentSpeed, holding, machine.feedOverride, machine.rapidOverride);
        var blockIndex := NextIndex(tail);
        if tail == planned {
          planned := blockIndex;
        }
        tail := blockIndex;
        if tail != head {
          LastAlongKept(old(Moves()), Moves(), previousUnitVec, machine.stepsPerMm);
        }
      }
    }

    /** `plan_cycle_reinitialize`: the plan is redone from the block at the tail, at the speed
        the stepper module left it with. On an empty queue the planned pointer may stray. */
    method CycleReinitialize()
      requires Valid()
      modifies this`planned, this`loaded, this`recalculate, this`holding, blocks
      ensures Valid() && !holding && !loaded
      ensures recalculate == (old(recalculate) || old(loaded))
      ensures tail != head ==> State() == Step(old(State()), Reinitialize)
      ensures SameMoves(Moves(), old(Moves()))
    {
      hide Sound, Step, Recalculated, Notify, Gain, Square, Consistent, RatesKept, PlanOf, Queue, Seen, NominalSpeed,
           SumSquares, LastAlong, SameMoves;
      ReinitializePlanner(Mem(), tail, head, currentSpeed, holding, machine.feedOverride, machine.rapidOverride);
      UpdatePlanBlockParameters();
      planned := tail;
      holding := false;
      Recalculate();
      if tail != head {
        SameMovesAlong(old(Moves()), Moves(), previousUnitVec, machine.stepsPerMm);
      }
    }

    /** The part of `plan_buffer_line` that describes the move itself. */
    method DescribeMove(line: Line, data: LineData) returns (b: PlanBlock, unitVec: array<real>)
      requires WellSet(machine) && |line.deltaMm| == N_AXIS && SumSquares(line.deltaMm) > 0.0
      ensures fresh(unitVec) && unitVec.Length == N_AXIS && SumSquares(unitVec[..]) == 1.0
      ensures b.steps == line.steps && b.negative == line.negative && b.stepEventCount == line.stepEventCount
      ensures b.entry == b.maxEntry == b.maxJunction == 0.0
      ensures b.millimeters > 0.0 && b.millimeters * b.millimeters == SumSquares(line.deltaMm)
      ensures forall i :: 0 <= i < N_AXIS ==> unitVec[i] * b.millimeters == line.deltaMm[i]
      ensures b.acceleration > 0.0 && Rated(b, data, machine, unitVec[..])
    {
      hide SumSquares, Within, Exactly, IsRoot;
      unitVec := new real[N_AXIS](i requires 0 <= i < |line.deltaMm| => line.deltaMm[i]);
      assert unitVec[..] == line.deltaMm;
      var millimeters := ConvertDeltaVectorToUnitVector(unitVec, machine.root);
      var acceleration := LimitValueByAxisMaximum(machine.acceleration, unitVec);
      var rapidRate := LimitValueByAxisMaximum(machine.maxRate, unitVec);
      var programmedRate :=
        if data.rapid then rapidRate
        else if data.inverseTime then data.feedRate * millimeters
        else data.feedRate;
      b := PlanBlock(line.steps, line.stepEventCount, line.negative, data.rapid, data.noFeedOverride,
                     0.0, 0.0, acceleration, millimeters, 0.0, rapidRate, programmedRate);
    }

    /** The queued moves, the position they lead to, and the plan. */
    ghost function View(): Snapshot
      requires Structured()
      reads this, blocks
    {
      Snap(Moves(), position, State(), loaded, recalculate)
    }

    /** The end of `plan_buffer_line`: the new block joins the ring and the plan is redone. */
    method Enqueue(block: PlanBlock, unitVec: seq<real>, targetSteps: seq<int>)
      requires Valid() && !Full() && |targetSteps| == N_AXIS && Along(unitVec, block, machine.stepsPerMm)
      requires block.entry == 0.0 && Gain(block) >= 0.0 && block.acceleration >= 0.0 && block.maxJunction >= 0.0
      requires tail == head ==> block.maxJunction == 0.0
      modifies this`head, this`nextHead, this`planned, this`loaded, this`recalculate,
               this`position, this`previousUnitVec, this`previousNominalSpeed, blocks
      ensures Valid() && position == targetSteps
      ensures Appended(old(View()), View(), block, machine.feedOverride, machine.rapidOverride)
    {
      hide Along, SumSquares, RatesKept, NominalSpeed, MaxEntrySqr, Sound;
      var nominalSpeed := NominalSpeed(block, machine.feedOverride, machine.rapidOverride);
      var b := block.(maxEntry := MaxEntrySqr(nominalSpeed, previousNominalSpeed, block.maxJunction));
      AppendLimits(block, b.maxEntry, machine.feedOverride, machine.rapidOverride);
      SameHeading(unitVec, block, b, machine.stepsPerMm);
      assert b.maxEntry == EntryLimit(Moves(), block, machine.feedOverride, machine.rapidOverride);
      AppendBlock(b, unitVec, targetSteps, nominalSpeed);
    }

    method AppendBlock(b: PlanBlock, unitVec: seq<real>, targetSteps: seq<int>, nominalSpeed: real)
      requires Valid() && !Full() && |targetSteps| == N_AXIS && Along(unitVec, b, machine.stepsPerMm)
      requires b.entry == 0.0 && Physical(JunctionOf(b)) && (tail == head ==> b.maxEntry == 0.0)
      requires nominalSpeed == NominalSpeed(b, machine.feedOverride, machine.rapidOverride)
      requires tail != head ==> b.maxEntry <= Square(nominalSpeed) && b.maxEntry <= Square(previousNominalSpeed)
      modifies this`head, this`nextHead, this`planned, this`loaded, this`recalculate,
               this`position, this`previousUnitVec, this`previousNominalSpeed, blocks
      ensures Valid() && position == targetSteps && SameMoves(Moves(), old(Moves()) + [b])
      ensures State() == Step(old(State()), Append(b.maxEntry, Gain(b)))
      ensures loaded == (old(loaded) && old(State()).planned > 0)
      ensures recalculate == (old(recalculate) || (old(loaded) && !loaded))
    {
      hide Sound, Step, Recalculated, Gain, Square, Consistent, RatesKept, PlanOf, Queue, Seen, NominalSpeed,
           SameMoves, Along, LastAlong;
      ghost var m, head0 := Mem(), head;
      AppendPlanner(m, tail, head, currentSpeed, holding, b, previousNominalSpeed, machine.feedOverride,
                    machine.rapidOverride);
      blocks[head] := b;
      assert Mem() == m.(ring := m.ring[head := b]);
      previousNominalSpeed := nominalSpeed;
      previousUnitVec := unitVec;
      position := targetSteps;
      head := nextHead;
      nextHead := NextIndex(head);
      Recalculate();
      AlongUnit(unitVec, b, machine.stepsPerMm);
      AppendedAlong(old(Moves()), Moves(), b, unitVec, machine.stepsPerMm);
    }

    /** The corner between the last queued move and a new one. */
    method CornerLimit(unitVec: seq<real>, ghost b: PlanBlock) returns (maxJunction: real)
      requires Valid() && |unitVec| == N_AXIS && SumSquares(unitVec) == 1.0
      ensures maxJunction >= 0.0 && (tail == head ==> maxJunction == 0.0)
      ensures Cornered(b.(maxJunction := maxJunction), machine, Moves(), unitVec)
    {
      hide SumSquares, Consistent, RatesKept, LastNominal, Corner, Along;
      maxJunction := 0.0;
      if tail != head {
        maxJunction := MaxJunctionSpeedSqr(previousUnitVec, unitVec, machine.acceleration, machine.junctionDeviation,
                                           machine.root);
      }
    }

    /** `plan_buffer_line` for a move that has a step to take. */
    method QueueMove(line: Line, data: LineData)
      requires Valid() && !Full() && Measured(line, machine.stepsPerMm) && SumSquares(line.deltaMm) > 0.0
      modifies this`head, this`nextHead, this`planned, this`loaded, this`recalculate,
               this`position, this`previousUnitVec, this`previousNominalSpeed, blocks
      ensures Valid() && position == line.targetSteps
      ensures exists b :: && Appended(old(View()), View(), b, machine.feedOverride, machine.rapidOverride)
                          && OfLine(b, line) && Described(b, data, machine, old(Moves()))
    {
      hide SumSquares, Rated, Cornered, Stretched, Appended, Consistent, RatesKept, LastNominal, Gain, PlanOf, Queue;
      ghost var before := Moves();
      var b, unitVec := DescribeMove(line, data);
      var maxJunction := CornerLimit(unitVec[..], b);
      RatedCornered(b, maxJunction, data, machine, unitVec[..]);
      b := b.(maxJunction := maxJunction);
      GainPositive(b);
      LineStretched(line, b, unitVec[..], machine.stepsPerMm);
      assert DescribedAlong(b, data, machine, before, unitVec[..]);
      Enqueue(b, unitVec[..], line.targetSteps);
      assert OfLine(b, line);
    }

    /** `plan_buffer_line` for a normal motion; false for a move without a single step.
        As in the source, the caller has made sure there is room. */
    method BufferLine(target: seq<real>, data: LineData) returns (ok: bool)
      requires Valid() && !Full() && |target| == N_AXIS
      modifies this`head, this`nextHead, this`planned, this`loaded, this`recalculate,
               this`position, this`previousUnitVec, this`previousNominalSpeed, blocks
      ensures Valid() && LeadsTo(position, target, machine.stepsPerMm)
      ensures !ok ==> View() == old(View())
      ensures ok ==> EndsAsAsked(Moves(), data)
      ensures ok ==> exists b :: && Appended(old(View()), View(), b, machine.feedOverride, machine.rapidOverride)
                                 && DescribesMove(b, old(position), position)
                                    && Described(b, data, machine, old(Moves()))
    {
      hide EndsAsAsked, SumSquares, LineFrom, Appended, Described, Measured, Consistent, RatesKept, PathKnown,
           DescribesMove,
           OfLine, LeadsTo;
      ghost var from := position;
      var line := MeasureLine(target, position, machine.stepsPerMm);
      LineLeads(line, target, position, machine.stepsPerMm);
      ClearHead();
      ok := line.stepEventCount != 0;
      if ok {
        MoveHasLength(line, target, position, machine.stepsPerMm);
        QueueMove(line, data);
        ghost var b :| && Appended(old(View()), View(), b, machine.feedOverride, machine.rapidOverride)
                       && OfLine(b, line) && Described(b, data, machine, old(Moves()));
        LineMove(line, b, from);
        AppendedAsAsked(old(View()), View(), b, machine.feedOverride, machine.rapidOverride, data, machine);
      }
    }

    /** `plan_update_velocity_profile_parameters`: every queued move gets the entry limit that belongs to the
        overrides, and no other slot is touched. The plan is still to be redone. */
    method UpdateVelocityProfileParameters(feedOverride: int, rapidOverride: int)
      requires Structured()
      modifies this`previousNominalSpeed, blocks
      ensures Moves() == Relimited(old(Moves()), feedOverride, rapidOverride)
      ensures previousNominalSpeed == NominalBefore(old(Moves()), |old(Moves())|, feedOverride, rapidOverride)
      ensures forall j :: 0 <= j < BLOCK_BUFFER_SIZE && Ahead(tail, j) >= |old(Moves())| ==> blocks[j] == old(blocks[j])
    {
      hide NominalSpeed, MaxEntrySqr, Queue, Relimited, RelimitedTo, Slot, Ahead;
      ghost var q, k := Moves(), 0;
      AtStart(q, feedOverride, rapidOverride);
      var blockIndex, prevNominalSpeed := tail, SOME_LARGE_VALUE;
      while blockIndex != head
        invariant 0 <= k <= |q| && blockIndex == Slot(tail, k)
        invariant prevNominalSpeed == NominalBefore(q, k, feedOverride, rapidOverride)
        invariant Moves() == RelimitedTo(q, feedOverride, rapidOverride, k)
        invariant forall j :: 0 <= j < BLOCK_BUFFER_SIZE && Ahead(tail, j) >= |q| ==> blocks[j] == old(blocks[j])
        decreases |q| - k
      {
        ghost var m := Mem();
        NotAtHead(tail, head, k);
        var block := blocks[blockIndex];
        var nominalSpeed := NominalSpeed(block, feedOverride, rapidOverride);
        blocks[blockIndex] := block.(maxEntry := MaxEntrySqr(nominalSpeed, prevNominalSpeed, block.maxJunction));
        SlotWritten(m, tail, head, k, blocks[blockIndex]);
        RelimitedNext(q, feedOverride, rapidOverride, k);
        assert Mem() == m.(ring := m.ring[blockIndex := blocks[blockIndex]]);
        prevNominalSpeed := nominalSpeed;
        blockIndex := NextIndex(blockIndex);
        k := k + 1;
      }
      AtHead(q, tail, head, k, feedOverride, rapidOverride);
      previousNominalSpeed := prevNominalSpeed;
    }

    /** The always unused slot at the head is wiped before a block is written there. */
    method ClearHead()
      requires Valid()
      modifies blocks
      ensures Valid() && View() == old(View())
    {
      hide Sound, Gain, Square;
      ClearHeadKeeps(Mem(), tail, head, currentSpeed, holding);
      blocks[head] := ZeroBlock;
      assert blocks[..] == old(blocks[..])[head := ZeroBlock];
    }
  }

  lemma ExecBlockExit(m: Memory, tail: nat, head: nat, speed: real)
    requires Ring(m) && tail < BLOCK_BUFFER_SIZE && head < BLOCK_BUFFER_SIZE && tail != head
    ensures ExitSqr(Seen(m, tail, head, speed), 0) ==
            if NextIndex(tail) == head then 0.0 else m.ring[NextIndex(tail)].entry
  {
    hide Gain, Square;
    assert Slot(tail, 1) == NextIndex(tail);
  }

  lemma TakeUpPhysical(m: Memory, tail: nat, b: PlanBlock, speed: real)
    requires Ring(m) && tail < BLOCK_BUFFER_SIZE && AllSlotsPhysical(m)
    requires b == m.ring[tail] || b == m.ring[tail].(entry := Square(speed))
    ensures Physical(JunctionOf(b)) && Gain(b) == Gain(m.ring[tail])
  {
    assert Physical(JunctionOf(m.ring[tail]));
    SquareSign(speed);
  }

  lemma ClearHeadKeeps(m: Memory, tail: nat, head: nat, speed: real, holding: bool)
    requires Consistent(m, tail, head, speed, holding)
    ensures var r := m.(ring := m.ring[head := ZeroBlock]);
            && Consistent(r, tail, head, speed, holding)
            && Queue(r, tail, head) == Queue(m, tail, head)
            && PlanOf(r, tail, head, speed, holding) == PlanOf(m, tail, head, speed, holding)
  {
    assert Physical(JunctionOf(ZeroBlock));
    hide Sound, Gain, Square;
    var r := m.(ring := m.ring[head := ZeroBlock]);
    assert Seen(r, tail, head, speed) == Seen(m, tail, head, speed);
    forall i | 0 <= i < BLOCK_BUFFER_SIZE ensures Physical(JunctionOf(r.ring[i])) {
      assert Physical(JunctionOf(m.ring[i]));
    }
  }

  lemma GainPositive(b: PlanBlock)
    requires b.acceleration > 0.0 && b.millimeters > 0.0
    ensures Gain(b) > 0.0
  {
  }

  /** The position, in steps, that a target in millimetres stands for. */
  ghost predicate LeadsTo(position: seq<int>, target: seq<real>, stepsPerMm: seq<real>) {
    |position| == |target| == |stepsPerMm| == N_AXIS &&
    forall i :: 0 <= i < N_AXIS ==> position[i] == TargetStep(target[i], stepsPerMm[i])
  }

  lemma LineLeads(l: Line, target: seq<real>, position: seq<int>, stepsPerMm: seq<real>)
    requires |target| == |position| == |stepsPerMm| == N_AXIS && forall i :: 0 <= i < N_AXIS ==> stepsPerMm[i] > 0.0
    requires LineFrom(l, target, position, stepsPerMm, N_AXIS)
    ensures LeadsTo(l.targetSteps, target, stepsPerMm)
    ensures l.stepEventCount == 0 ==> LeadsTo(position, target, stepsPerMm)
    ensures |l.steps| == |l.negative| == |l.deltaMm| == |l.targetSteps| == N_AXIS
    ensures Measured(l, stepsPerMm)
    ensures forall i :: 0 <= i < N_AXIS ==> l.steps[i] == AbsInt(l.targetSteps[i] - position[i]) <= l.stepEventCount
    ensures forall i :: 0 <= i < N_AXIS ==> l.negative[i] == (l.targetSteps[i] < position[i])
    ensures l.stepEventCount == 0 || exists i :: 0 <= i < N_AXIS && l.steps[i] == l.stepEventCount
  {
    hide TargetStep;
  }

  /** The true distances are those of the steps. */
  ghost predicate Measured(l: Line, stepsPerMm: seq<real>) {
    && |l.steps| == |l.negative| == |l.deltaMm| == |l.targetSteps| == |stepsPerMm| == N_AXIS
    && (forall i :: 0 <= i < N_AXIS ==> stepsPerMm[i] > 0.0)
    && forall i :: 0 <= i < N_AXIS ==>
         l.deltaMm[i] == (if l.negative[i] then -(l.steps[i] as int) else l.steps[i]) as real / stepsPerMm[i]
  }

  lemma LineStretched(l: Line, b: PlanBlock, dir: seq<real>, stepsPerMm: seq<real>)
    requires Measured(l, stepsPerMm) && b.steps == l.steps && b.negative == l.negative && b.millimeters > 0.0
    requires |dir| == N_AXIS && SumSquares(dir) == 1.0 && forall i :: 0 <= i < N_AXIS ==>
             dir[i] * b.millimeters == l.deltaMm[i]
    ensures Stretched(dir, b.millimeters, b, stepsPerMm) && Along(dir, b, stepsPerMm)
  {
    hide SumSquares;
    forall i | 0 <= i < N_AXIS ensures dir[i] * b.millimeters == SignedSteps(b, i) as real / stepsPerMm[i] {
      assert l.deltaMm[i] == SignedSteps(b, i) as real / stepsPerMm[i];
    }
    assert Stretched(dir, b.millimeters, b, stepsPerMm);
  }

  lemma SameHeading(dir: seq<real>, b: PlanBlock, c: PlanBlock, stepsPerMm: seq<real>)
    requires Along(dir, b, stepsPerMm) && c.steps == b.steps && c.negative == b.negative
    ensures Along(dir, c, stepsPerMm)
  {
    hide SumSquares;
    var length :| length > 0.0 && Stretched(dir, length, b, stepsPerMm);
    assert Stretched(dir, length, c, stepsPerMm);
  }

  /** The direction of the last move is that of the last move, whatever is planned or executed before it. */
  lemma LastAlongKept(q: seq<PlanBlock>, r: seq<PlanBlock>, dir: seq<real>, stepsPerMm: seq<real>)
    requires LastAlong(q, dir, stepsPerMm)
    requires r != [] ==> q != [] && r[|r| - 1].steps == q[|q| - 1].steps && r[|r| - 1].negative == q[|q| - 1].negative
    ensures LastAlong(r, dir, stepsPerMm)
  {
    hide Along;
    if r != [] {
      SameHeading(dir, q[|q| - 1], r[|r| - 1], stepsPerMm);
    }
  }

  lemma SameMovesAlong(q: seq<PlanBlock>, r: seq<PlanBlock>, dir: seq<real>, stepsPerMm: seq<real>)
    requires LastAlong(q, dir, stepsPerMm) && SameMoves(r, q)
    ensures LastAlong(r, dir, stepsPerMm)
  {
    hide LastAlong;
    if r != [] {
      assert SameMove(r[|r| - 1], q[|q| - 1]);
    }
    LastAlongKept(q, r, dir, stepsPerMm);
  }

  lemma AlongUnit(dir: seq<real>, b: PlanBlock, stepsPerMm: seq<real>)
    requires Along(dir, b, stepsPerMm)
    ensures |dir| == N_AXIS && SumSquares(dir) == 1.0
  {
  }

  lemma AppendedAlong(q: seq<PlanBlock>, r: seq<PlanBlock>, b: PlanBlock, dir: seq<real>, stepsPerMm: seq<real>)
    requires SameMoves(r, q + [b]) && Along(dir, b, stepsPerMm)
    ensures LastAlong(r, dir, stepsPerMm)
  {
    hide Along;
    assert LastAlong(q + [b], dir, stepsPerMm);
    SameMovesAlong(q + [b], r, dir, stepsPerMm);
  }

  lemma RatedCornered(b: PlanBlock, maxJunction: real, data: LineData, m: Machine, dir: seq<real>)
    requires Rated(b, data, m, dir)
    ensures Rated(b.(maxJunction := maxJunction), data, m, dir)
  {
    hide UsesUp;
  }

  ghost predicate OfLine(b: PlanBlock, l: Line) {
    b.steps == l.steps && b.negative == l.negative && b.stepEventCount == l.stepEventCount && b.millimeters > 0.0
      && b.acceleration > 0.0
  }

  lemma LineMove(l: Line, b: PlanBlock, from: seq<int>)
    requires |l.steps| == |l.negative| == |l.targetSteps| == |from| == N_AXIS && l.stepEventCount > 0
    requires OfLine(b, l)
    requires exists i :: 0 <= i < N_AXIS && l.steps[i] == l.stepEventCount
    requires forall i :: 0 <= i < N_AXIS ==> l.steps[i] == AbsInt(l.targetSteps[i] - from[i]) <= l.stepEventCount
    requires forall i :: 0 <= i < N_AXIS ==> l.negative[i] == (l.targetSteps[i] < from[i])
    ensures DescribesMove(b, from, l.targetSteps)
  {
  }

  /** A block whose signed steps lead from one position to another. */
  ghost predicate DescribesMove(b: PlanBlock, from: seq<int>, to: seq<int>) {
    && |b.steps| == |b.negative| == |from| == |to| == N_AXIS
    && (forall i :: 0 <= i < N_AXIS ==> SignedSteps(b, i) == to[i] - from[i])
    && (forall i :: 0 <= i < N_AXIS ==> b.steps[i] <= b.stepEventCount)
    && (exists i :: 0 <= i < N_AXIS && b.steps[i] == b.stepEventCount)
    && b.stepEventCount > 0 && b.millimeters > 0.0 && b.acceleration > 0.0
  }
}
