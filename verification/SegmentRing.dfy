/** The stepper driver's two rings as values, and why nothing in them is overwritten too soon. */
module SegmentRing {
  import opened StepModel
  import opened StepTheorems

  const SEGMENT_BUFFER_SIZE := 10
  const ST_BLOCK_BUFFER_SIZE := SEGMENT_BUFFER_SIZE - 1

  /** Bresenham data of a planner block (`st_block_t`), shifted left by MAX_AMASS_LEVEL. */
  datatype StBlock = StBlock(steps: Axes<nat>, stepEventCount: nat, negative: Axes<bool>)

  /** A queued segment (`segment_t`). */
  datatype Segment = Segment(nStep: nat, stBlockIndex: nat, amassLevel: nat, cyclesPerTick: nat)

  function StBlockOf(m: Move): StBlock {
    StBlock(Axes(8 * m.steps.x, 8 * m.steps.y, 8 * m.steps.z), 8 * m.events, m.negative)
  }

  /** C's `k >> level`, for the levels there are. */
  function ShiftRight(k: nat, level: nat): nat
    requires level <= MAX_AMASS_LEVEL
  {
    if level == 0 then k else if level == 1 then k / 2 else if level == 2 then k / 4 else k / 8
  }

  /** Shifting the scaled step counts right never loses a bit. */
  lemma ShiftExact(k: nat, level: nat)
    requires level <= MAX_AMASS_LEVEL
    ensures ShiftRight(8 * k, level) == Shifted(k, level)
  {
  }

  /** `st_next_block_index`. */
  function NextStBlock(i: nat): (r: nat)
    requires i < ST_BLOCK_BUFFER_SIZE
    ensures r < ST_BLOCK_BUFFER_SIZE
  {
    if i + 1 == ST_BLOCK_BUFFER_SIZE then 0 else i + 1
  }

  function NextSegment(i: nat): (r: nat)
    requires i < SEGMENT_BUFFER_SIZE
    ensures r < SEGMENT_BUFFER_SIZE
  {
    if i + 1 == SEGMENT_BUFFER_SIZE then 0 else i + 1
  }

  /** The slot `k` places behind the tail. */
  function SegmentSlot(tail: nat, k: nat): (r: nat)
    requires tail < SEGMENT_BUFFER_SIZE && k <= SEGMENT_BUFFER_SIZE
    ensures r < SEGMENT_BUFFER_SIZE
  {
    if tail + k < SEGMENT_BUFFER_SIZE then tail + k else tail + k - SEGMENT_BUFFER_SIZE
  }

  function SegmentCount(tail: nat, head: nat): (n: nat)
    requires tail < SEGMENT_BUFFER_SIZE && head < SEGMENT_BUFFER_SIZE
    ensures n < SEGMENT_BUFFER_SIZE && SegmentSlot(tail, n) == head
  {
    if head >= tail then head - tail else SEGMENT_BUFFER_SIZE - (tail - head)
  }

  /** The block slot a move lives in; only every ninth move shares a slot. */
  function BlockSlot(id: nat): (r: nat)
    ensures r < ST_BLOCK_BUFFER_SIZE
  {
    id % ST_BLOCK_BUFFER_SIZE
  }

  lemma BlockSlotNext(id: nat)
    ensures BlockSlot(id + 1) == NextStBlock(BlockSlot(id))
  {
  }

  lemma BlockSlotApart(id: nat, id': nat)
    requires id < id' < id + ST_BLOCK_BUFFER_SIZE
    ensures BlockSlot(id) != BlockSlot(id')
  {
  }

  /** Ring segment `i` is the model's segment `w`, and its block slot still holds its move. */
  predicate SegmentHeld(segments: seq<Segment>, stBlocks: seq<StBlock>, tail: nat, i: nat, w: Work)
    requires |segments| == SEGMENT_BUFFER_SIZE && |stBlocks| == ST_BLOCK_BUFFER_SIZE
    requires tail < SEGMENT_BUFFER_SIZE && i < SEGMENT_BUFFER_SIZE
  {
    && w.level <= MAX_AMASS_LEVEL
    && segments[SegmentSlot(tail, i)] == Segment(Ticks(w), BlockSlot(w.id), w.level, w.cyclesPerTick)
    && stBlocks[BlockSlot(w.id)] == StBlockOf(w.move)
  }

  /** The rings hold the flow of segments of the model. */
  ghost predicate Holds(segments: seq<Segment>, stBlocks: seq<StBlock>, tail: nat, head: nat, f: Flow) {
    && |segments| == SEGMENT_BUFFER_SIZE && |stBlocks| == ST_BLOCK_BUFFER_SIZE
    && tail < SEGMENT_BUFFER_SIZE && head < SEGMENT_BUFFER_SIZE
    && |f.queue| == SegmentCount(tail, head)
    && (forall i :: 0 <= i < |f.queue| ==> SegmentHeld(segments, stBlocks, tail, i, f.queue[i]))
    && (f.remaining > 0 ==> stBlocks[BlockSlot(f.prepId)] == StBlockOf(PrepMove(f)))
  }

  /** A queued segment's move is never as many as nine loads old when there is room to load another. */
  lemma {:induction false} LoadDistance(f: Flow, i: nat)
    requires Ordered(f) && i < |f.queue|
    ensures f.queue[i].id <= f.prepId <= f.queue[i].id + (|f.queue| - i)
    ensures f.remaining == 0 ==> f.prepId < f.queue[i].id + (|f.queue| - i)
    decreases |f.queue| - i
  {
    assert SegmentOk(f, f.queue[i]);
    if i + 1 < |f.queue| {
      assert Follows(f.queue, i + 1);
      LoadDistance(f, i + 1);
    }
  }

  /** NOTHING IN USE IS OVERWRITTEN: the block slot for a new move is free of every queued or
      partly executed segment, although there are fewer block slots than segments. */
  lemma LoadKeepsHolds(segments: seq<Segment>, stBlocks: seq<StBlock>, tail: nat, head: nat, f: Flow, move: Move)
    requires Holds(segments, stBlocks, tail, head, f) && Ordered(f) && f.remaining == 0
    requires tail != NextSegment(head)
    ensures forall i :: 0 <= i < |f.queue| ==> BlockSlot(f.queue[i].id) != BlockSlot(f.prepId + 1)
    ensures Holds(segments, stBlocks[BlockSlot(f.prepId + 1) := StBlockOf(move)], tail, head, Loaded(f, move))
  {
    hide Ordered, StBlockOf, Ticks;
    var slot := BlockSlot(f.prepId + 1);
    var stBlocks' := stBlocks[slot := StBlockOf(move)];
    forall i | 0 <= i < |f.queue|
      ensures BlockSlot(f.queue[i].id) != slot && SegmentHeld(segments, stBlocks', tail, i, f.queue[i])
    {
      LoadDistance(f, i);
      BlockSlotApart(f.queue[i].id, f.prepId + 1);
      assert SegmentHeld(segments, stBlocks, tail, i, f.queue[i]);
    }
  }

  lemma PushKeepsHolds(segments: seq<Segment>, stBlocks: seq<StBlock>, tail: nat, head: nat, f: Flow, events: nat,
                       level: nat, period: nat)
    requires Holds(segments, stBlocks, tail, head, f) && tail != NextSegment(head)
    requires 0 < events <= f.remaining && level <= MAX_AMASS_LEVEL
    ensures var w := Work(f.prepId, PrepMove(f), events, level, period);
            Holds(segments[head := Segment(Ticks(w), BlockSlot(f.prepId), level, period)], stBlocks, tail,
                  NextSegment(head), Pushed(f, events, level, period))
  {
    hide StBlockOf, Ticks, BlockSlot;
    var w := Work(f.prepId, PrepMove(f), events, level, period);
    var segments', f' := segments[head := Segment(Ticks(w), BlockSlot(f.prepId), level, period)],
        Pushed(f, events, level, period);
    forall i | 0 <= i < |f'.queue| ensures SegmentHeld(segments', stBlocks, tail, i, f'.queue[i]) {
      if i < |f.queue| {
        assert SegmentHeld(segments, stBlocks, tail, i, f.queue[i]);
      }
    }
  }

  lemma PopKeepsHolds(segments: seq<Segment>, stBlocks: seq<StBlock>, tail: nat, head: nat, f: Flow, f': Flow)
    requires Holds(segments, stBlocks, tail, head, f) && f.queue != []
    requires f'.queue == f.queue[1..] && f'.remaining == f.remaining && f'.prepId == f.prepId
    requires f.remaining > 0 ==> PrepMove(f') == PrepMove(f)
    ensures Holds(segments, stBlocks, NextSegment(tail), head, f')
  {
    hide StBlockOf, Ticks, BlockSlot, PrepMove;
    forall i | 0 <= i < |f'.queue| ensures SegmentHeld(segments, stBlocks, NextSegment(tail), i, f'.queue[i]) {
      assert SegmentHeld(segments, stBlocks, tail, i + 1, f.queue[i + 1]);
    }
  }
}
