/** How much the machine has still to do: step events not yet cut into segments, and ticks of the
    interrupt for the segments that are. */
module Draining {
  import opened StepModel
  import opened StepTheorems

  function EventsOf(s: seq<Move>): nat {
    if s == [] then 0 else s[0].events + EventsOf(s[1..])
  }

  /** Step events of planned moves that are in no segment yet. */
  function Uncut(m: Model): nat {
    m.flow.remaining + EventsOf(m.pending)
  }

  function TicksOfAll(q: seq<Work>): nat {
    if q == [] then 0 else (if q[0].level <= MAX_AMASS_LEVEL then Ticks(q[0]) else 0) + TicksOfAll(q[1..])
  }

  /** Ticks until the segment queue is empty. */
  function TicksToGo(f: Flow): nat {
    if f.executing && f.queue != [] then f.ticksLeft + TicksOfAll(f.queue[1..]) else TicksOfAll(f.queue)
  }

  /** The CPU cycles that a segment takes. */
  function Cycles(w: Work): nat {
    if w.level <= MAX_AMASS_LEVEL then Ticks(w) * w.cyclesPerTick else 0
  }

  function CyclesOfAll(q: seq<Work>): nat {
    if q == [] then 0 else Cycles(q[0]) + CyclesOfAll(q[1..])
  }

  /** CPU cycles until the segment queue is empty. */
  function CyclesToGo(f: Flow): nat {
    if f.executing && f.queue != [] then f.ticksLeft * f.queue[0].cyclesPerTick + CyclesOfAll(f.queue[1..])
    else CyclesOfAll(f.queue)
  }

  lemma LoadUncut(m: Model)
    requires Ready(m.flow) && Allowed(m, Load)
    ensures Uncut(Step(m, Load)) == Uncut(m) && TicksToGo(Step(m, Load).flow) == TicksToGo(m.flow)
  {
  }

  /** EVERY TICK COUNTS: it brings the end of the segments one tick nearer, and cuts none. */
  lemma TickTakesOne(m: Model)
    requires Inv(m)
    ensures Ready(m.flow) && Uncut(Step(m, Tick)) == Uncut(m)
    ensures TicksToGo(Step(m, Tick).flow) == if m.flow.queue == [] then TicksToGo(m.flow) else TicksToGo(m.flow) - 1
  {
    OrderedReady(m.flow);
    hide Accounted, MovesOk, OnLine, Balanced, AllRunnable, Ticks, EventsOf, Shifted, PulseCount, Plus;
    if m.flow.queue != [] && !m.flow.executing {
      BeginToGo(m.flow);
    }
  }

  /** The time to the next interrupt is one tick of what the queued segments take. */
  lemma TickTakesTime(m: Model)
    requires Inv(m)
    ensures Ready(m.flow) && CyclesToGo(Step(m, Tick).flow) == CyclesToGo(m.flow) - Period(m.flow)
  {
    hide Ordered, Accounted, MovesOk, OnLine, Balanced, AllRunnable, CyclesToGo, Ready;
    OrderedReady(m.flow);
    FlowTakesTime(m);
  }

  lemma FlowTakesTime(m: Model)
    requires Ready(m.flow)
    ensures CyclesToGo(Step(m, Tick).flow) == CyclesToGo(m.flow) - Period(m.flow)
  {
    hide Ticks, Shifted, PulseCount, Plus;
    if m.flow.queue != [] {
      var f := if m.flow.executing then m.flow else Begin(m.flow);
      OneTickLess(f.ticksLeft, Period(f));
    }
  }

  lemma OneTickLess(ticks: nat, period: nat)
    requires ticks > 0
    ensures (ticks - 1) * period == ticks * period - period
  {
  }

  lemma {:induction false} CyclesAppend(q: seq<Work>, w: Work)
    ensures CyclesOfAll(q + [w]) == CyclesOfAll(q) + Cycles(w)
  {
    hide Cycles;
    if q == [] {
      assert [w][1..] == [];
    } else {
      assert (q + [w])[1..] == q[1..] + [w];
      CyclesAppend(q[1..], w);
    }
  }

  /** A segment handed over adds the time it takes. */
  lemma PushAddsTime(m: Model, events: nat, level: nat, period: nat)
    requires Ready(m.flow) && Allowed(m, Push(events, level, period))
    ensures CyclesToGo(Step(m, Push(events, level, period)).flow) ==
            CyclesToGo(m.flow) + ShiftLeft(events, level) * period
  {
    hide Ticks, CyclesOfAll, Cycles;
    var w := Work(m.flow.prepId, PrepMove(m.flow), events, level, period);
    TimeOf(w);
    var q := m.flow.queue;
    if m.flow.executing {
      assert (q + [w])[1..] == q[1..] + [w];
      CyclesAppend(q[1..], w);
    } else {
      CyclesAppend(q, w);
    }
  }

  lemma TimeOf(w: Work)
    requires w.level <= MAX_AMASS_LEVEL
    ensures Cycles(w) == ShiftLeft(w.events, w.level) * w.cyclesPerTick
  {
  }

  lemma BeginToGo(f: Flow)
    requires Ready(f) && f.queue != [] && !f.executing
    ensures TicksToGo(Begin(f)) == TicksToGo(f)
  {
    hide Ticks;
  }
}
