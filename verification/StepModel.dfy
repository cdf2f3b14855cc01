/** A reference model of step execution: every queued segment carries its own copy of the move
    it belongs to, in an unbounded first-in-first-out queue. The step interrupt pulses the axes
    with the Bresenham line algorithm at one of four smoothing levels. */
module StepModel {

  const MAX_AMASS_LEVEL := 3

  datatype Axes<+T> = Axes(x: T, y: T, z: T)

  function Plus(a: Axes<int>, b: Axes<int>): Axes<int> {
    Axes(a.x + b.x, a.y + b.y, a.z + b.z)
  }

  /** One move: how many steps each axis takes, in which direction, over how many step events. */
  datatype Move = Move(steps: Axes<nat>, events: nat, negative: Axes<bool>)

  predicate Runnable(m: Move) {
    m.events > 0 && m.steps.x <= m.events && m.steps.y <= m.events && m.steps.z <= m.events
  }

  function Signed(n: int, negative: bool): int {
    if negative then -n else n
  }

  /** The displacement the move `m` is to make. */
  function Displacement(m: Move): Axes<int> {
    Axes(Signed(m.steps.x, m.negative.x), Signed(m.steps.y, m.negative.y), Signed(m.steps.z, m.negative.z))
  }

  function Total(s: seq<Move>): Axes<int> {
    if s == [] then Axes(0, 0, 0) else Plus(Displacement(s[0]), Total(s[1..]))
  }

  /** `k`, kept shifted left by MAX_AMASS_LEVEL, shifted right again by a smoothing level. */
  function Shifted(k: int, level: nat): int
    requires level <= MAX_AMASS_LEVEL
  {
    if level == 0 then 8 * k else if level == 1 then 4 * k else if level == 2 then 2 * k else k
  }

  /** The eighths of a step event that one interrupt tick makes at a smoothing level. */
  function Fine(level: nat): nat
    requires level <= MAX_AMASS_LEVEL
  {
    Shifted(1, level)
  }

  /** A queued segment: `events` step events of move number `id`, at a smoothing level, and the CPU
      cycles between two ticks of the interrupt. */
  datatype Work = Work(id: nat, move: Move, events: nat, level: nat, cyclesPerTick: nat)

  /** C's `n << level`. */
  function ShiftLeft(n: nat, level: nat): nat
    requires level <= MAX_AMASS_LEVEL
  {
    if level == 0 then n else if level == 1 then 2 * n else if level == 2 then 4 * n else 8 * n
  }

  /** The interrupt ticks a segment takes. */
  function Ticks(w: Work): nat
    requires w.level <= MAX_AMASS_LEVEL
  {
    ShiftLeft(w.events, w.level)
  }

  /** The segments on their way from the generator to the interrupt. */
  datatype Flow = Flow(
    queue: seq<Work>,
    executing: bool,            // a segment is in execution: the first of the queue
    ticksLeft: nat,             // ... with this many ticks to go
    execId: nat,                // the move in execution
    exec: Move,
    done: nat,                  // eighths of step events of that move executed so far
    prepId: nat,                // the move being cut into segments
    remaining: nat,             // its step events not yet in a segment
    waiting: seq<Move>)         // moves taken up by the generator and not yet by the interrupt

  /** The CPU cycles from one tick of the first segment to the next tick. */
  function Period(f: Flow): nat {
    if f.queue == [] then 0 else f.queue[0].cyclesPerTick
  }

  datatype Model = Model(
    flow: Flow,
    counter: Axes<int>,         // Bresenham counters
    pulses: Axes<nat>,          // steps of the move in execution taken so far
    position: Axes<int>,        // sys_position
    pending: seq<Move>,         // moves still in the planner's queue
    target: Axes<int>)          // pl.position

  datatype Event =
    | Plan(move: Move)                   // a block is added to the planner
    | Load                               // the generator takes up the next block
    | Push(events: nat, level: nat, cyclesPerTick: nat)   // the generator hands a segment to the interrupt
    | Tick                               // the step interrupt fires

  predicate Allowed(m: Model, e: Event) {
    match e
    case Plan(move) => Runnable(move)
    case Load => m.pending != [] && m.flow.remaining == 0
    case Push(events, level, cyclesPerTick) => 0 < events <= m.flow.remaining && level <= MAX_AMASS_LEVEL
    case Tick => true
  }

  /** What every queued segment is like, and what the one in execution has left. */
  predicate Ready(f: Flow) {
    && (f.queue != [] ==> f.queue[0].level <= MAX_AMASS_LEVEL && f.queue[0].events > 0)
    && (f.executing ==> f.queue != [] && f.ticksLeft > 0)
  }

  /** The move the generator is cutting into segments. */
  function PrepMove(f: Flow): Move {
    if f.waiting == [] then f.exec else f.waiting[|f.waiting| - 1]
  }

  /** Does the interrupt's next segment start another move? */
  predicate NewMove(f: Flow)
    requires f.queue != []
  {
    f.queue[0].id != f.execId && f.waiting != []
  }

  /** The interrupt takes the next segment. */
  function Begin(f: Flow): (f': Flow)
    requires f.queue != [] && Ready(f)
    ensures f'.queue == f.queue && f'.executing && f'.ticksLeft == Ticks(f.queue[0]) > 0
  {
    var w := f.queue[0];
    var f' := f.(executing := true, ticksLeft := Ticks(w));
    if NewMove(f) then f'.(execId := w.id, exec := w.move, done := 0, waiting := f.waiting[1..]) else f'
  }

  /** One tick of the segment in execution. */
  function Spend(f: Flow): Flow
    requires f.executing && Ready(f)
  {
    f.(done := f.done + Fine(f.queue[0].level),
       ticksLeft := f.ticksLeft - 1,
       executing := f.ticksLeft > 1,
       queue := if f.ticksLeft > 1 then f.queue else f.queue[1..])
  }

  /** A new move starts every axis half a step ahead of its first pulse. */
  function Reset(m: Model): Model
    requires m.flow.queue != []
  {
    var half := 4 * m.flow.queue[0].move.events;
    if NewMove(m.flow) then m.(counter := Axes(half, half, half), pulses := Axes(0, 0, 0)) else m
  }

  /** Does an axis step when its counter reaches `c`? */
  function PulseCount(c: int, events: nat): nat {
    if c > 8 * events then 1 else 0
  }

  /** One tick of the line algorithm, for the move and segment in execution. */
  function Pulse(m: Model): Model
    requires m.flow.executing && Ready(m.flow)
  {
    var move, level := m.flow.exec, m.flow.queue[0].level;
    var n := move.events;
    var cx := m.counter.x + Shifted(move.steps.x, level);
    var cy := m.counter.y + Shifted(move.steps.y, level);
    var cz := m.counter.z + Shifted(move.steps.z, level);
    var px, py, pz := PulseCount(cx, n), PulseCount(cy, n), PulseCount(cz, n);
    m.(counter := Axes(cx - 8 * n * px, cy - 8 * n * py, cz - 8 * n * pz),
       pulses := Axes(m.pulses.x + px, m.pulses.y + py, m.pulses.z + pz),
       position := Plus(m.position, Axes(Signed(px, move.negative.x), Signed(py, move.negative.y),
                                         Signed(pz, move.negative.z))),
       flow := Spend(m.flow))
  }

  function Step(m: Model, e: Event): Model
    requires Allowed(m, e) && Ready(m.flow)
  {
    match e
    case Plan(move) => m.(pending := m.pending + [move], target := Plus(m.target, Displacement(move)))
    case Load =>
      m.(pending := m.pending[1..],
         flow := m.flow.(waiting := m.flow.waiting + [m.pending[0]], prepId := m.flow.prepId + 1,
                         remaining := m.pending[0].events))
    case Push(events, level, cyclesPerTick) =>
      m.(flow := m.flow.(queue := m.flow.queue + [Work(m.flow.prepId, PrepMove(m.flow), events, level, cyclesPerTick)],
                         remaining := m.flow.remaining - events))
    case Tick =>
      if m.flow.executing then Pulse(m)
      else if m.flow.queue == [] then m
      else Pulse(Reset(m).(flow := Begin(m.flow)))
  }

  const NoMove := Move(Axes(0, 0, 0), 0, Axes(false, false, false))

  /** After a reset: nothing queued, and the planner's position is the machine's. */
  function Start(position: Axes<int>): Model {
    Model(Flow([], false, 0, 0, NoMove, 0, 0, 0, []), Axes(0, 0, 0), Axes(0, 0, 0), position, [], position)
  }

  /** Everything planned has been executed. */
  predicate Drained(m: Model) {
    m.flow.queue == [] && m.pending == [] && m.flow.remaining == 0
  }
}
