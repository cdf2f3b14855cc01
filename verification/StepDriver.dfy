/** The stepper driver: the segment ring shared by main program and interrupt, and the interrupt
    itself. */
module StepDriver {
  import opened StepModel
  import opened StepTheorems
  import opened SegmentRing

  class StepDriver {
    const segmentBuffer: array<Segment>
    const stBlockBuffer: array<StBlock>
    var segmentTail: nat          // segment_buffer_tail
    var segmentHead: nat          // segment_buffer_head
    var segmentNextHead: nat      // segment_next_head
    var prepStBlockIndex: nat     // prep.st_block_index
    // The interrupt's own data (`st`).
    var execSegment: bool         // st.exec_segment != NULL; it is the segment at the tail
    var stepCount: nat
    var execBlockIndex: nat
    var counterX: int
    var counterY: int
    var counterZ: int
    var steps: Axes<int>          // st.steps: step counts shifted for the segment's level
    var ocr1a: nat                // the timer's compare register: cycles from one interrupt to the next
    var sysPosition: Axes<int>    // sys_position

    ghost var model: Model

    ghost predicate Matches()
      reads this, segmentBuffer, stBlockBuffer
    {
      && segmentBuffer.Length == SEGMENT_BUFFER_SIZE && stBlockBuffer.Length == ST_BLOCK_BUFFER_SIZE
      && segmentTail < SEGMENT_BUFFER_SIZE && segmentHead < SEGMENT_BUFFER_SIZE
      && Holds(segmentBuffer[..], stBlockBuffer[..], segmentTail, segmentHead, model.flow)
      && segmentNextHead == NextSegment(segmentHead)
      && prepStBlockIndex == BlockSlot(model.flow.prepId)
      && execBlockIndex == BlockSlot(model.flow.execId)
      && Axes(counterX, counterY, counterZ) == model.counter
      && sysPosition == model.position
      && execSegment == model.flow.executing
      && (execSegment ==> InExecution(model.flow, stepCount, steps) && ocr1a == Period(model.flow))
    }

    ghost predicate Valid()
      reads this, segmentBuffer, stBlockBuffer
    {
      Matches() && Inv(model)
    }

    /** Room for another segment: the loop condition of `st_prep_buffer`. */
    predicate HasRoom()
      reads this
    {
      segmentTail != segmentNextHead
    }

    /** After `st_reset`, at the present position. */
    constructor (position: Axes<int>)
      ensures Valid() && model == Start(position) && fresh(segmentBuffer) && fresh(stBlockBuffer)
    {
      hide Inv, Holds, InExecution, BlockSlot;
      segmentBuffer := new Segment[SEGMENT_BUFFER_SIZE](_ => Segment(0, 0, 0, 0));
      stBlockBuffer := new StBlock[ST_BLOCK_BUFFER_SIZE](_ => StBlock(Axes(0, 0, 0), 0, Axes(false, false, false)));
      segmentTail, segmentHead, segmentNextHead := 0, 0, 1;
      prepStBlockIndex := 0;
      execSegment, stepCount, execBlockIndex, ocr1a := false, 0, 0, 0;
      counterX, counterY, counterZ := 0, 0, 0;
      steps, sysPosition := Axes(0, 0, 0), position;
      model := Start(position);
      new;
      StartInv(position);
      StartHolds(segmentBuffer[..], stBlockBuffer[..], position);
    }

    /** A planner block is queued behind the others; the driver does not yet see it. */
    ghost method BlockPlanned(move: Move)
      requires Valid() && Runnable(move)
      modifies this`model
      ensures Valid() && old(Ready(model.flow)) && model == Step(old(model), Plan(move))
    {
      hide Inv, Holds, InExecution;
      StepKeeps(model, Plan(move));
      model := Step(model, Plan(move));
    }

    /** The Bresenham data of the next planner block is copied, under the next block index. */
    method LoadBlock(move: Move)
      requires Valid() && HasRoom()
      requires model.pending != [] && model.pending[0] == move && model.flow.remaining == 0
      modifies this`prepStBlockIndex, this`model, stBlockBuffer
      ensures Valid() && old(Ready(model.flow)) && model == Step(old(model), Load)
      ensures prepStBlockIndex == NextStBlock(old(prepStBlockIndex))
    {
      hide Holds, InExecution, BlockSlot, StBlockOf, Step, Ordered, Accounted, MovesOk, AllRunnable, OnLine,
           Balanced;
      LoadKeepsHolds(segmentBuffer[..], stBlockBuffer[..], segmentTail, segmentHead, model.flow, move);
      StepKeeps(model, Load);
      LoadStep(model);
      BlockSlotNext(model.flow.prepId);
      prepStBlockIndex := NextStBlock(prepStBlockIndex);
      stBlockBuffer[prepStBlockIndex] := StBlockOf(move);
      model := Step(model, Load);
    }

    /** A segment of `events` step events is made visible to the interrupt. */
    method PushSegment(events: nat, level: nat, period: nat)
      requires Valid() && HasRoom() && 0 < events <= model.flow.remaining && level <= MAX_AMASS_LEVEL
      modifies this`segmentHead, this`segmentNextHead, this`model, segmentBuffer
      ensures Valid() && old(Ready(model.flow)) && model == Step(old(model), Push(events, level, period))
    {
      hide Inv, Holds, InExecution, BlockSlot, Step, Ticks;
      PushKeepsHolds(segmentBuffer[..], stBlockBuffer[..], segmentTail, segmentHead, model.flow, events, level, period);
      TicksOf(model.flow.prepId, PrepMove(model.flow), events, level, period);
      PushStep(model, events, level, period);
      StepKeeps(model, Push(events, level, period));
      PushInExecution(model.flow, events, level, period, stepCount, steps);
      segmentBuffer[segmentHead] := Segment(ShiftLeft(events, level), prepStBlockIndex, level, period);
      segmentHead := segmentNextHead;
      segmentNextHead := NextSegment(segmentHead);
      model := Step(model, Push(events, level, period));
    }

    // -------------------------------------------------------------------------
    // The step interrupt
    // -------------------------------------------------------------------------

    /** A segment of another block: its counters start half a step ahead. */
    method EnterBlock(stBlockIndex: nat)
      requires stBlockIndex < stBlockBuffer.Length
      modifies this`execBlockIndex, this`counterX, this`counterY, this`counterZ
      ensures execBlockIndex == stBlockIndex
      ensures var c := stBlockBuffer[stBlockIndex].stepEventCount / 2;
              Axes(counterX, counterY, counterZ) ==
              if old(execBlockIndex) == stBlockIndex then old(Axes(counterX, counterY, counterZ)) else Axes(c, c, c)
    {
      if execBlockIndex != stBlockIndex {
        execBlockIndex := stBlockIndex;
        counterX := stBlockBuffer[execBlockIndex].stepEventCount / 2;
        counterY := counterX;
        counterZ := counterX;
      }
    }

    /** The interrupt takes the segment at the tail. */
    method TakeSegment()
      requires Valid() && !execSegment && segmentHead != segmentTail
      modifies this`execSegment, this`stepCount, this`execBlockIndex, this`counterX, this`counterY, this`counterZ,
               this`steps, this`ocr1a, this`model
      ensures Valid() && execSegment && ocr1a == old(Period(model.flow))
      ensures old(model.flow.queue != [] && Ready(model.flow)) &&
              model == old(Reset(model).(flow := Begin(model.flow)))
    {
      hide Inv, Holds, StBlockOf, BlockSlot, ShiftRight, Ticks, InExecution, Begin, Reset, Ready, NewMove, Shifted,
           RegisterSteps;
      TakeFacts(segmentBuffer[..], stBlockBuffer[..], segmentTail, segmentHead, model);
      var segment := segmentBuffer[segmentTail];
      execSegment := true;
      ocr1a := segment.cyclesPerTick;
      stepCount := segment.nStep;
      EnterBlock(segment.stBlockIndex);
      steps := RegisterSteps(stBlockBuffer[execBlockIndex], segment.amassLevel);
      model := Reset(model).(flow := Begin(model.flow));
    }

    // The line algorithm, axis by axis.

    method StepX(execBlock: StBlock)
      modifies this`counterX, this`sysPosition
      ensures counterX == AxisCounter(old(counterX) + steps.x, execBlock.stepEventCount)
      ensures sysPosition == old(sysPosition).(x :=
                AxisPosition(old(sysPosition.x), old(counterX) + steps.x, execBlock.stepEventCount,
                             execBlock.negative.x))
    {
      counterX := counterX + steps.x;
      if counterX > execBlock.stepEventCount {
        counterX := counterX - execBlock.stepEventCount;
        sysPosition := sysPosition.(x := if execBlock.negative.x then sysPosition.x - 1 else sysPosition.x + 1);
      }
    }

    method StepY(execBlock: StBlock)
      modifies this`counterY, this`sysPosition
      ensures counterY == AxisCounter(old(counterY) + steps.y, execBlock.stepEventCount)
      ensures sysPosition == old(sysPosition).(y :=
                AxisPosition(old(sysPosition.y), old(counterY) + steps.y, execBlock.stepEventCount,
                             execBlock.negative.y))
    {
      counterY := counterY + steps.y;
      if counterY > execBlock.stepEventCount {
        counterY := counterY - execBlock.stepEventCount;
        sysPosition := sysPosition.(y := if execBlock.negative.y then sysPosition.y - 1 else sysPosition.y + 1);
      }
    }

    method StepZ(execBlock: StBlock)
      modifies this`counterZ, this`sysPosition
      ensures counterZ == AxisCounter(old(counterZ) + steps.z, execBlock.stepEventCount)
      ensures sysPosition == old(sysPosition).(z :=
                AxisPosition(old(sysPosition.z), old(counterZ) + steps.z, execBlock.stepEventCount,
                             execBlock.negative.z))
    {
      counterZ := counterZ + steps.z;
      if counterZ > execBlock.stepEventCount {
        counterZ := counterZ - execBlock.stepEventCount;
        sysPosition := sysPosition.(z := if execBlock.negative.z then sysPosition.z - 1 else sysPosition.z + 1);
      }
    }

    method StepAxes(execBlock: StBlock)
      modifies this`counterX, this`counterY, this`counterZ, this`sysPosition
      ensures Axes(counterX, counterY, counterZ) ==
              old(Axes(AxisCounter(counterX + steps.x, execBlock.stepEventCount),
                       AxisCounter(counterY + steps.y, execBlock.stepEventCount),
                       AxisCounter(counterZ + steps.z, execBlock.stepEventCount)))
      ensures sysPosition ==
              old(Axes(AxisPosition(sysPosition.x, counterX + steps.x, execBlock.stepEventCount, execBlock.negative.x),
                       AxisPosition(sysPosition.y, counterY + steps.y, execBlock.stepEventCount, execBlock.negative.y),
                       AxisPosition(sysPosition.z, counterZ + steps.z, execBlock.stepEventCount, execBlock.negative.z)))
    {
      hide AxisCounter, AxisPosition;
      StepX(execBlock);
      StepY(execBlock);
      StepZ(execBlock);
    }

    /** One step event, or part of one, on every axis; the segment may end. */
    method ExecuteStep()
      requires Valid() && execSegment
      modifies this`execSegment, this`stepCount, this`segmentTail, this`counterX, this`counterY, this`counterZ,
               this`sysPosition, this`model
      ensures Valid()
      ensures old(model.flow.executing && Ready(model.flow)) && model == old(Pulse(model))
    {
      hide Inv, Holds, StBlockOf, BlockSlot, Ticks, InExecution, Pulse, Ready, Shifted, AxisCounter, AxisPosition;
      ExecuteFacts(segmentBuffer[..], stBlockBuffer[..], segmentTail, segmentHead, model, stepCount, steps);
      StepAxes(stBlockBuffer[execBlockIndex]);
      stepCount := stepCount - 1;
      if stepCount == 0 {
        execSegment := false;
        segmentTail := NextSegment(segmentTail);
      }
      model := Pulse(model);
    }

    /** The step interrupt. With nothing left to execute it stops the steppers and flags the
        main program that the cycle has ended. */
    method Tick() returns (cycleStop: bool)
      requires Valid()
      modifies this`execSegment, this`stepCount, this`segmentTail, this`execBlockIndex,
               this`counterX, this`counterY, this`counterZ, this`steps, this`ocr1a, this`sysPosition, this`model
      ensures Valid() && (old(model.flow.queue) != [] ==> ocr1a == old(Period(model.flow)))
      ensures old(Ready(model.flow)) && model == old(Step(model, StepModel.Event.Tick))
      ensures cycleStop == old(!execSegment && model.flow.queue == [])
    {
      hide Inv, Holds, InExecution, BlockSlot, Pulse, Begin, Reset, Ready;
      TickFacts(segmentBuffer[..], stBlockBuffer[..], segmentTail, segmentHead, model);
      cycleStop := false;
      if !execSegment {
        if segmentHead != segmentTail {
          TakeSegment();
        } else {
          return true;
        }
      }
      ExecuteStep();
    }
  }

  /** The registers of the interrupt while it executes the first segment of the flow. */
  ghost predicate InExecution(f: Flow, stepCount: nat, steps: Axes<int>) {
    && f.queue != [] && f.queue[0].level <= MAX_AMASS_LEVEL && f.queue[0].move == f.exec
    && stepCount == f.ticksLeft
    && steps == Axes(Shifted(f.exec.steps.x, f.queue[0].level), Shifted(f.exec.steps.y, f.queue[0].level),
                     Shifted(f.exec.steps.z, f.queue[0].level))
  }

  lemma LoadStep(m: Model)
    requires Inv(m) && Allowed(m, Load)
    ensures Ready(m.flow)
    ensures var m' := Step(m, Load);
            && m'.flow == Loaded(m.flow, m.pending[0]) && Period(m'.flow) == Period(m.flow)
            && m'.counter == m.counter && m'.position == m.position
    ensures forall stepCount, steps :: InExecution(m.flow, stepCount, steps) ==>
              InExecution(Step(m, Load).flow, stepCount, steps)
  {
    OrderedReady(m.flow);
    hide Inv;
  }

  lemma PushStep(m: Model, events: nat, level: nat, period: nat)
    requires Inv(m) && Allowed(m, Push(events, level, period))
    ensures Ready(m.flow)
    ensures var m' := Step(m, Push(events, level, period));
            && m'.flow == Pushed(m.flow, events, level, period)
            && (m.flow.queue != [] ==> Period(m'.flow) == Period(m.flow))
            && m'.counter == m.counter && m'.position == m.position
  {
    OrderedReady(m.flow);
    hide Inv;
  }

  lemma TicksOf(id: nat, move: Move, events: nat, level: nat, period: nat)
    requires level <= MAX_AMASS_LEVEL
    ensures Ticks(Work(id, move, events, level, period)) == ShiftLeft(events, level)
  {
  }

  lemma PushInExecution(f: Flow, events: nat, level: nat, period: nat, stepCount: nat, steps: Axes<int>)
    requires events <= f.remaining
    ensures InExecution(f, stepCount, steps) ==> InExecution(Pushed(f, events, level, period), stepCount, steps)
  {
  }

  lemma StartHolds(segments: seq<Segment>, stBlocks: seq<StBlock>, position: Axes<int>)
    requires |segments| == SEGMENT_BUFFER_SIZE && |stBlocks| == ST_BLOCK_BUFFER_SIZE
    ensures Holds(segments, stBlocks, 0, 0, Start(position).flow)
    ensures BlockSlot(0) == 0
  {
  }

  /** What the interrupt finds at the tail when it takes a segment. */
  lemma TakeFacts(segments: seq<Segment>, stBlocks: seq<StBlock>, tail: nat, head: nat, m: Model)
    requires Holds(segments, stBlocks, tail, head, m.flow) && Inv(m) && !m.flow.executing && head != tail
    ensures Ready(m.flow) && m.flow.queue != []
    ensures var m' := Reset(m).(flow := Begin(m.flow)); var f, f' := m.flow, m'.flow; var segment := segments[tail];
            && Inv(m') && Holds(segments, stBlocks, tail, head, f')
            && segment.stBlockIndex < ST_BLOCK_BUFFER_SIZE && segment.amassLevel <= MAX_AMASS_LEVEL
            && segment.stBlockIndex == BlockSlot(f'.execId) && f'.prepId == f.prepId
            && segment.cyclesPerTick == Period(f) == Period(f')
            && (BlockSlot(f.execId) != segment.stBlockIndex <==> NewMove(f))
            && stBlocks[segment.stBlockIndex] == StBlockOf(f'.exec)
            && InExecution(f', segment.nStep, RegisterSteps(StBlockOf(f'.exec), segment.amassLevel))
            && (NewMove(f) ==> var c := StBlockOf(f'.exec).stepEventCount / 2; m'.counter == Axes(c, c, c))
            && (!NewMove(f) ==> m'.counter == m.counter)
            && m'.position == m.position
  {
    var f := m.flow;
    OrderedReady(f);
    assert SegmentHeld(segments, stBlocks, tail, 0, f.queue[0]);
    BeginFacts(f);
    BeginKeepsOrder(f);
    BeginKeepsAccounts(f);
    ResetKeepsLine(m);
    ResetKeepsBalance(m);
    BeginHolds(segments, stBlocks, tail, head, f);
    if NewMove(f) {
      BlockSlotApart(f.execId, f.execId + 1);
    }
    hide Ordered, Accounted, MovesOk, Balanced, OnLine, Holds, Ticks, BlockSlot, ShiftRight, Shifted;
    RegisterStepsExact(Begin(f).exec, f.queue[0].level);
  }

  /** The step counts of a block, shifted for a smoothing level. */
  function RegisterSteps(b: StBlock, level: nat): Axes<int>
    requires level <= MAX_AMASS_LEVEL
  {
    Axes(ShiftRight(b.steps.x, level), ShiftRight(b.steps.y, level), ShiftRight(b.steps.z, level))
  }

  lemma RegisterStepsExact(m: Move, level: nat)
    requires level <= MAX_AMASS_LEVEL
    ensures RegisterSteps(StBlockOf(m), level) ==
            Axes(Shifted(m.steps.x, level), Shifted(m.steps.y, level), Shifted(m.steps.z, level))
  {
    ShiftExact(m.steps.x, level);
    ShiftExact(m.steps.y, level);
    ShiftExact(m.steps.z, level);
  }

  lemma BeginHolds(segments: seq<Segment>, stBlocks: seq<StBlock>, tail: nat, head: nat, f: Flow)
    requires Holds(segments, stBlocks, tail, head, f) && Ordered(f) && Accounted(f) && MovesOk(f)
    requires !f.executing && f.queue != []
    ensures Ready(f) && Holds(segments, stBlocks, tail, head, Begin(f))
  {
    OrderedReady(f);
    BeginFacts(f);
    hide Ordered, Accounted, SegmentHeld, BlockSlot, StBlockOf;
    var f' := Begin(f);
    assert PrepMove(f') == PrepMove(f);
  }

  /** One axis of a tick, as the interrupt computes it. */
  function AxisCounter(c: int, count: nat): int {
    if c > count then c - count else c
  }

  function AxisPosition(p: int, c: int, count: nat, negative: bool): int {
    if c > count then (if negative then p - 1 else p + 1) else p
  }

  /** What one tick does to the registers is what the model says it does. */
  lemma ExecuteFacts(segments: seq<Segment>, stBlocks: seq<StBlock>, tail: nat, head: nat, m: Model, stepCount: nat,
                     steps: Axes<int>)
    requires Holds(segments, stBlocks, tail, head, m.flow) && Inv(m) && m.flow.executing
    requires InExecution(m.flow, stepCount, steps)
    ensures Ready(m.flow) && stepCount > 0
    ensures var m' := Pulse(m); var b := stBlocks[BlockSlot(m.flow.execId)];
            && Inv(m') && m'.flow.executing == (stepCount > 1)
            && m'.flow.prepId == m.flow.prepId && m'.flow.execId == m.flow.execId
            && (stepCount > 1 ==> Period(m'.flow) == Period(m.flow))
            && Holds(segments, stBlocks, if stepCount > 1 then tail else NextSegment(tail), head, m'.flow)
            && (stepCount > 1 ==> InExecution(m'.flow, stepCount - 1, steps))
            && m'.counter == Axes(AxisCounter(m.counter.x + steps.x, b.stepEventCount),
                                  AxisCounter(m.counter.y + steps.y, b.stepEventCount),
                                  AxisCounter(m.counter.z + steps.z, b.stepEventCount))
            && m'.position == Axes(AxisPosition(m.position.x, m.counter.x + steps.x, b.stepEventCount, b.negative.x),
                                   AxisPosition(m.position.y, m.counter.y + steps.y, b.stepEventCount, b.negative.y),
                                   AxisPosition(m.position.z, m.counter.z + steps.z, b.stepEventCount, b.negative.z))
  {
    hide Balanced, OnLine, Ticks, BlockSlot, Shifted, Accounted, MovesOk, AllRunnable;
    OrderedReady(m.flow);
    PulseKeeps(m);
    assert SegmentHeld(segments, stBlocks, tail, 0, m.flow.queue[0]);
    SpendHolds(segments, stBlocks, tail, head, m.flow);
    hide Ordered, Holds;
  }

  lemma SpendHolds(segments: seq<Segment>, stBlocks: seq<StBlock>, tail: nat, head: nat, f: Flow)
    requires Holds(segments, stBlocks, tail, head, f) && f.executing && Ready(f)
    ensures Holds(segments, stBlocks, if f.ticksLeft > 1 then tail else NextSegment(tail), head, Spend(f))
  {
    hide SegmentHeld, BlockSlot, StBlockOf;
    if f.ticksLeft <= 1 {
      PopKeepsHolds(segments, stBlocks, tail, head, f, Spend(f));
    }
  }

  lemma TickFacts(segments: seq<Segment>, stBlocks: seq<StBlock>, tail: nat, head: nat, m: Model)
    requires Holds(segments, stBlocks, tail, head, m.flow) && Inv(m)
    ensures Ready(m.flow) && (m.flow.queue == [] <==> tail == head)
    ensures m.flow.executing ==> m.flow.queue != []
  {
    hide Balanced, OnLine, Accounted, MovesOk, SegmentHeld, BlockSlot, StBlockOf;
    OrderedReady(m.flow);
  }
}
