/** The ring buffer of the planner as a value: its indices, its blocks, and what each step of
    `planner_recalculate` does to them. */
module PlannerRing {
  import opened NutsBolts
  import opened Kinematics
  import opened PlanSpec

  const BLOCK_BUFFER_SIZE := 36

  /** One queued linear move (`plan_block_t`); speeds are squared, in (mm/min)^2. */
  datatype PlanBlock = PlanBlock(
    steps: seq<nat>,              // step count of each axis
    stepEventCount: nat,          // largest step count
    negative: seq<bool>,          // direction bit of each axis
    rapid: bool,                  // PL_COND_FLAG_RAPID_MOTION
    noFeedOverride: bool,         // PL_COND_FLAG_NO_FEED_OVERRIDE
    entry: real,                  // entry_speed_sqr
    maxEntry: real,               // max_entry_speed_sqr
    acceleration: real,
    millimeters: real,            // distance still to travel
    maxJunction: real,            // max_junction_speed_sqr
    rapidRate: real,
    programmedRate: real)

  function Gain(b: PlanBlock): real {
    Gained(b.acceleration, b.millimeters)
  }

  function JunctionOf(b: PlanBlock): Junction {
    Junction(b.entry, b.maxEntry, Gain(b))
  }

  function NextIndex(i: nat): (r: nat)
    requires i < BLOCK_BUFFER_SIZE
    ensures r < BLOCK_BUFFER_SIZE && PrevIndex(r) == i
  {
    if i + 1 == BLOCK_BUFFER_SIZE then 0 else i + 1
  }

  function PrevIndex(i: nat): (r: nat)
    requires i < BLOCK_BUFFER_SIZE
    ensures r < BLOCK_BUFFER_SIZE
  {
    if i == 0 then BLOCK_BUFFER_SIZE - 1 else i - 1
  }

  /** The ring slot `k` places after slot `base`. */
  function Slot(base: nat, k: nat): (r: nat)
    requires base < BLOCK_BUFFER_SIZE && k <= BLOCK_BUFFER_SIZE
    ensures r < BLOCK_BUFFER_SIZE
  {
    if base + k < BLOCK_BUFFER_SIZE then base + k else base + k - BLOCK_BUFFER_SIZE
  }

  /** How far ahead of slot `base` slot `i` lies. */
  function Ahead(base: nat, i: nat): (r: nat)
    requires base < BLOCK_BUFFER_SIZE && i < BLOCK_BUFFER_SIZE
    ensures r < BLOCK_BUFFER_SIZE && Slot(base, r) == i
  {
    if i >= base then i - base else BLOCK_BUFFER_SIZE - (base - i)
  }

  /** Number of slots from `base` up to the slot before `head`; a full turn if they coincide. */
  function Span(base: nat, head: nat): (n: nat)
    requires base < BLOCK_BUFFER_SIZE && head < BLOCK_BUFFER_SIZE
    ensures 0 < n <= BLOCK_BUFFER_SIZE && Slot(base, n) == head
  {
    if base == head then BLOCK_BUFFER_SIZE else Ahead(base, head)
  }

  /** What `planner_recalculate` may change: the blocks, the planned pointer, and the stepper
      module's hold on the block it is executing (`pl_block != NULL`, PREP_FLAG_RECALCULATE). */
  datatype Memory = Memory(ring: seq<PlanBlock>, planned: nat, loaded: bool, recalculate: bool)

  predicate Ring(m: Memory) {
    |m.ring| == BLOCK_BUFFER_SIZE && m.planned < BLOCK_BUFFER_SIZE
  }

  /** `st_update_plan_block_parameters`: the stepper hands the block at `tail` back with its
      present speed. */
  function Notify(m: Memory, tail: nat, speed: real): (r: Memory)
    requires Ring(m) && tail < BLOCK_BUFFER_SIZE
    ensures Ring(r) && r.planned == m.planned
  {
    if m.loaded then
      m.(ring := m.ring[tail := m.ring[tail].(entry := Square(speed))], loaded := false, recalculate := true)
    else m
  }

  function ReverseLast(b: PlanBlock): PlanBlock {
    b.(entry := Min(b.maxEntry, Gain(b)))
  }

  function ReverseBlock(b: PlanBlock, next: PlanBlock): PlanBlock {
    if b.entry == b.maxEntry then b
    else if next.entry + Gain(b) < b.maxEntry then b.(entry := next.entry + Gain(b))
    else b.(entry := b.maxEntry)
  }

  /** One turn of the reverse loop, for the block `k` places after the planned pointer. */
  function ReverseStep(m: Memory, tail: nat, speed: real, k: nat): (r: Memory)
    requires Ring(m) && tail < BLOCK_BUFFER_SIZE && 0 < k < BLOCK_BUFFER_SIZE
    ensures Ring(r) && r.planned == m.planned
  {
    var m' := if Slot(m.planned, k - 1) == tail then Notify(m, tail, speed) else m;
    var i := Slot(m.planned, k);
    m'.(ring := m'.ring[i := ReverseBlock(m'.ring[i], m'.ring[Slot(m.planned, k + 1)])])
  }

  /** The reverse pass over a window of `n` blocks, down to block `k`. */
  function ReverseTo(m: Memory, tail: nat, speed: real, n: nat, k: nat): (r: Memory)
    requires Ring(m) && tail < BLOCK_BUFFER_SIZE && 0 < k < n <= BLOCK_BUFFER_SIZE
    ensures Ring(r) && r.planned == m.planned
    decreases n - k
  {
    if k == n - 1 then
      var i := Slot(m.planned, k);
      m.(ring := m.ring[i := ReverseLast(m.ring[i])])
    else ReverseStep(ReverseTo(m, tail, speed, n, k + 1), tail, speed, k)
  }

  /** The block accelerates all the way and still cannot reach the entry speed of the next. */
  predicate FullAcceleration(b: PlanBlock, next: PlanBlock) {
    b.entry < next.entry && b.entry + Gain(b) < next.entry
  }

  function ForwardBlock(b: PlanBlock, next: PlanBlock): PlanBlock {
    if FullAcceleration(b, next) then next.(entry := b.entry + Gain(b)) else next
  }

  /** One turn of the forward loop: slot `i` is planned from the slot before it. */
  function ForwardStep(m: Memory, i: nat): (r: Memory)
    requires Ring(m) && i < BLOCK_BUFFER_SIZE
    ensures Ring(r) && r.loaded == m.loaded && r.recalculate == m.recalculate
  {
    var current, next := m.ring[PrevIndex(i)], m.ring[i];
    var next' := ForwardBlock(current, next);
    m.(ring := m.ring[i := next'],
       planned := if FullAcceleration(current, next) || next'.entry == next'.maxEntry then i else m.planned)
  }

  /** The forward pass from slot `base`, up to the block `k` places after it. */
  function ForwardTo(m: Memory, base: nat, k: nat): (r: Memory)
    requires Ring(m) && base < BLOCK_BUFFER_SIZE && k < BLOCK_BUFFER_SIZE
    ensures Ring(r) && r.loaded == m.loaded && r.recalculate == m.recalculate
  {
    if k == 0 then m else ForwardStep(ForwardTo(m, base, k - 1), Slot(base, k))
  }

  /** The reverse pass, including the notification when only two blocks can be planned. */
  function ReversePass(m: Memory, tail: nat, head: nat, speed: real): (r: Memory)
    requires Ring(m) && tail < BLOCK_BUFFER_SIZE && head < BLOCK_BUFFER_SIZE && Span(m.planned, head) > 1
    ensures Ring(r) && r.planned == m.planned
  {
    var r := ReverseTo(m, tail, speed, Span(m.planned, head), 1);
    if Span(m.planned, head) == 2 && m.planned == tail then Notify(r, tail, speed) else r
  }

  /** `planner_recalculate`. */
  function Recalculated(m: Memory, tail: nat, head: nat, speed: real): (r: Memory)
    requires Ring(m) && tail < BLOCK_BUFFER_SIZE && head < BLOCK_BUFFER_SIZE
    ensures Ring(r)
  {
    var n := Span(m.planned, head);
    if n == 1 then m else ForwardTo(ReversePass(m, tail, head, speed), m.planned, n - 1)
  }
}
