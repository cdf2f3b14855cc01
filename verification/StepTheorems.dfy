/** No step is lost or added: the invariant of the step model, and what follows from it. */
module StepTheorems {
  import opened StepModel

  // ---------------------------------------------------------------------------
  // One axis of the line algorithm
  // ---------------------------------------------------------------------------

  /** The counter of an axis that takes `s` of `n` step events, after `done` eighths of events
      and `p` pulses: what the ideal line is ahead of the pulses, offset by half a step. */
  function Balance(n: nat, s: nat, done: nat, p: nat): int {
    4 * n + s * done - 8 * n * p
  }

  predicate AxisLine(n: nat, s: nat, done: nat, p: nat, c: int) {
    c == Balance(n, s, done, p) && (n > 0 ==> 0 < c <= 8 * n) && s <= n && p <= s
  }

  lemma BalanceTick(n: nat, s: nat, done: nat, p: nat, level: nat)
    requires level <= MAX_AMASS_LEVEL
    ensures Balance(n, s, done + Fine(level), p) == Balance(n, s, done, p) + Shifted(s, level)
  {
    assert s * (done + 1) == s * done + s && s * (done + 2) == s * done + 2 * s;
    assert s * (done + 4) == s * done + 4 * s && s * (done + 8) == s * done + 8 * s;
  }

  lemma BalancePulse(n: nat, s: nat, done: nat, p: nat)
    ensures Balance(n, s, done, p + 1) == Balance(n, s, done, p) - 8 * n
  {
  }

  lemma BalanceUpper(n: nat, s: nat, done: nat, p: nat)
    requires done <= 8 * n
    ensures Balance(n, s, done, p) <= 4 * n + n * (8 * (s - p))
    ensures done == 8 * n ==> Balance(n, s, done, p) == 4 * n + n * (8 * (s - p))
  {
    assert s * done <= s * (8 * n);
  }

  lemma EventMultiple(n: nat, k: int)
    ensures k < 0 ==> n * (8 * k) <= -(8 * n)
    ensures k > 0 ==> n * (8 * k) >= 8 * n
  {
    if k < 0 {
      assert n * (8 * k) == 8 * (n * k) && n * k <= n * -1;
    } else if k > 0 {
      assert n * (8 * k) == 8 * (n * k) && n * k >= n * 1;
    }
  }

  /** An axis never pulses more than its steps ... */
  lemma PulsesBound(n: nat, s: nat, done: nat, p: nat)
    requires n > 0 && done <= 8 * n && Balance(n, s, done, p) > 0
    ensures p <= s
  {
    BalanceUpper(n, s, done, p);
    EventMultiple(n, s - p);
  }

  /** ... and after all of its events has pulsed exactly its steps. */
  lemma PulsesExact(n: nat, s: nat, p: nat)
    requires n > 0 && 0 < Balance(n, s, 8 * n, p) <= 8 * n
    ensures p == s
  {
    BalanceUpper(n, s, 8 * n, p);
    EventMultiple(n, s - p);
  }

  /** One tick of one axis. */
  lemma AxisTick(n: nat, s: nat, done: nat, p: nat, c: int, level: nat)
    requires level <= MAX_AMASS_LEVEL
    requires AxisLine(n, s, done, p, c) && n > 0 && done + Fine(level) <= 8 * n
    ensures var c' := c + Shifted(s, level); var k := PulseCount(c', n);
            AxisLine(n, s, done + Fine(level), p + k, c' - 8 * n * k)
  {
    BalanceTick(n, s, done, p, level);
    BalancePulse(n, s, done + Fine(level), p);
    var k := PulseCount(c + Shifted(s, level), n);
    hide Balance;
    PulsesBound(n, s, done + Fine(level), p + k);
  }

  /** The axis is never further than half a step from the ideal line. */
  lemma HalfStep(n: nat, s: nat, done: nat, p: nat, c: int)
    requires AxisLine(n, s, done, p, c) && 0 < n && done <= 8 * n
    ensures TrueToLine(n, s, done, p, c)
  {
  }

  // ---------------------------------------------------------------------------
  // The invariant
  // ---------------------------------------------------------------------------

  /** The step events of move `id` that are in the queue. */
  function Queued(q: seq<Work>, id: nat): nat {
    if q == [] then 0 else (if q[0].id == id then q[0].events else 0) + Queued(q[1..], id)
  }

  /** The move with number `id`, among those taken up and not yet finished. */
  function MoveOf(f: Flow, id: nat): Move
    requires f.execId <= id <= f.execId + |f.waiting|
  {
    if id == f.execId then f.exec else f.waiting[id - f.execId - 1]
  }

  ghost predicate SegmentOk(f: Flow, w: Work) {
    && f.execId <= w.id <= f.execId + |f.waiting| && w.id > 0
    && w.move == MoveOf(f, w.id) && w.events > 0 && w.level <= MAX_AMASS_LEVEL
  }

  /** A segment belongs to the same move as the one before, or to the next move. */
  ghost predicate Follows(q: seq<Work>, i: nat)
    requires 0 < i < |q|
  {
    q[i - 1].id <= q[i].id <= q[i - 1].id + 1
  }

  /** Segments come in the order of their moves, none skipped. */
  ghost predicate Ordered(f: Flow) {
    && f.prepId == f.execId + |f.waiting|
    && (forall i :: 0 <= i < |f.queue| ==> SegmentOk(f, f.queue[i]))
    && (forall i :: 0 < i < |f.queue| ==> Follows(f.queue, i))
    && (f.queue != [] ==> f.queue[0].id <= f.execId + 1)
    && (f.queue != [] ==> var last := f.queue[|f.queue| - 1].id;
                          last == f.prepId || (last + 1 == f.prepId && f.remaining > 0))
    && (f.executing ==> f.queue != [] && f.queue[0].id == f.execId && 0 < f.ticksLeft <= Ticks(f.queue[0]))
  }

  ghost predicate AllRunnable(s: seq<Move>) {
    forall i :: 0 <= i < |s| ==> Runnable(s[i])
  }

  ghost predicate MovesOk(f: Flow) {
    && AllRunnable(f.waiting)
    && (f.execId > 0 ==> Runnable(f.exec))
    && (f.execId == 0 ==> f.exec == NoMove)
    && (f.prepId == 0 ==> f.remaining == 0)
  }

  /** What part of the first segment has been executed, in eighths of a step event. */
  function Begun(f: Flow): int
    requires f.executing ==> f.queue != [] && f.queue[0].level <= MAX_AMASS_LEVEL
  {
    if f.executing then 8 * f.queue[0].events - Shifted(f.ticksLeft, f.queue[0].level) else 0
  }

  /** The step events of move `id` still to execute, counting the first segment in full. */
  function Owed(f: Flow, id: nat): nat {
    Queued(f.queue, id) + if id == f.prepId then f.remaining else 0
  }

  /** No step event is lost or added on the way from the planner to the interrupt. */
  ghost predicate Accounted(f: Flow) {
    && (f.executing ==> f.queue != [] && f.queue[0].level <= MAX_AMASS_LEVEL)
    && f.done + 8 * Owed(f, f.execId) == 8 * f.exec.events + Begun(f)
    && forall id :: f.execId < id <= f.execId + |f.waiting| ==> Owed(f, id) == MoveOf(f, id).events
  }

  ghost predicate OnLine(move: Move, done: nat, pulses: Axes<nat>, counter: Axes<int>) {
    && AxisLine(move.events, move.steps.x, done, pulses.x, counter.x)
    && AxisLine(move.events, move.steps.y, done, pulses.y, counter.y)
    && AxisLine(move.events, move.steps.z, done, pulses.z, counter.z)
  }

  /** The displacement a move has still to make after some pulses. */
  function Left(move: Move, pulses: Axes<nat>): Axes<int> {
    Axes(Signed(move.steps.x - pulses.x, move.negative.x),
         Signed(move.steps.y - pulses.y, move.negative.y),
         Signed(move.steps.z - pulses.z, move.negative.z))
  }

  /** Position plus everything still to be made is where the planner is. */
  ghost predicate Balanced(m: Model) {
    Plus(m.position, Plus(Left(m.flow.exec, m.pulses), Plus(Total(m.flow.waiting), Total(m.pending)))) == m.target
  }

  ghost predicate Inv(m: Model) {
    && Ordered(m.flow) && MovesOk(m.flow) && Accounted(m.flow)
    && AllRunnable(m.pending)
    && OnLine(m.flow.exec, m.flow.done, m.pulses, m.counter)
    && Balanced(m)
  }

  lemma OrderedReady(f: Flow)
    requires Ordered(f)
    ensures Ready(f)
  {
    if f.queue != [] {
      assert SegmentOk(f, f.queue[0]);
    }
  }

  lemma StartFlow(position: Axes<int>)
    ensures var f := Start(position).flow; Ordered(f) && MovesOk(f) && Accounted(f)
  {
  }

  lemma StartAxis()
    ensures AxisLine(0, 0, 0, 0, 0)
  {
  }

  lemma StartInv(position: Axes<int>)
    ensures Inv(Start(position))
  {
    StartFlow(position);
    StartAxis();
    hide Ordered, MovesOk, Accounted, AxisLine;
  }

  // ---------------------------------------------------------------------------
  // Every event keeps the invariant
  // ---------------------------------------------------------------------------

  lemma {:induction false} QueuedAppend(q: seq<Work>, w: Work, id: nat)
    ensures Queued(q + [w], id) == Queued(q, id) + if w.id == id then w.events else 0
  {
    if q == [] {
      assert q + [w] == [w];
    } else {
      assert (q + [w])[1..] == q[1..] + [w];
      QueuedAppend(q[1..], w, id);
    }
  }

  lemma {:induction false} TotalAppend(s: seq<Move>, m: Move)
    ensures Total(s + [m]) == Plus(Total(s), Displacement(m))
  {
    if s == [] {
      assert s + [m] == [m];
    } else {
      assert (s + [m])[1..] == s[1..] + [m];
      TotalAppend(s[1..], m);
    }
  }

  lemma PlanKeeps(m: Model, move: Move)
    requires Inv(m) && Runnable(move)
    ensures Ready(m.flow) && Inv(Step(m, Plan(move)))
  {
    hide Ordered, MovesOk, Accounted, OnLine, Runnable, AllRunnable, Balanced, Total, Displacement, Ready;
    OrderedReady(m.flow);
    RunnableAppend(m.pending, move);
    PlanKeepsBalance(m, move);
  }

  lemma RunnableAppend(s: seq<Move>, move: Move)
    requires AllRunnable(s) && Runnable(move)
    ensures AllRunnable(s + [move])
  {
    hide Runnable;
  }

  lemma PlanKeepsBalance(m: Model, move: Move)
    requires Balanced(m)
    ensures Balanced(m.(pending := m.pending + [move], target := Plus(m.target, Displacement(move))))
  {
    TotalAppend(m.pending, move);
    hide Total, Displacement, Left;
  }

  lemma {:induction false} QueuedNone(q: seq<Work>, id: nat)
    requires forall i :: 0 <= i < |q| ==> q[i].id != id
    ensures Queued(q, id) == 0
  {
    if q != [] {
      assert forall i :: 0 <= i < |q[1..]| ==> q[1..][i] == q[i + 1];
      QueuedNone(q[1..], id);
    }
  }

  /** The flow once the generator has taken up another move. */
  function Loaded(f: Flow, move: Move): Flow {
    f.(waiting := f.waiting + [move], prepId := f.prepId + 1, remaining := move.events)
  }

  lemma LoadKeepsOrder(f: Flow, move: Move)
    requires Ordered(f) && f.remaining == 0 && Runnable(move)
    ensures Ordered(Loaded(f, move))
    ensures forall id :: f.execId <= id <= f.execId + |f.waiting| ==> MoveOf(Loaded(f, move), id) == MoveOf(f, id)
  {
    var f' := Loaded(f, move);
    forall i | 0 <= i < |f.queue| ensures SegmentOk(f', f.queue[i]) {
      assert SegmentOk(f, f.queue[i]);
    }
  }

  lemma LoadKeepsAccounts(f: Flow, move: Move)
    requires Ordered(f) && Accounted(f) && f.remaining == 0
    requires forall id :: f.execId <= id <= f.execId + |f.waiting| ==> MoveOf(Loaded(f, move), id) == MoveOf(f, id)
    ensures Accounted(Loaded(f, move))
  {
    hide Queued;
    var f' := Loaded(f, move);
    forall i | 0 <= i < |f.queue| ensures f.queue[i].id != f'.prepId {
      assert SegmentOk(f, f.queue[i]);
    }
    QueuedNone(f.queue, f'.prepId);
    forall id | f'.execId < id <= f'.execId + |f'.waiting| ensures Owed(f', id) == MoveOf(f', id).events {
      if id < f'.prepId {
        assert Owed(f, id) == MoveOf(f, id).events;
      }
    }
  }

  lemma LoadKeeps(m: Model)
    requires Inv(m) && m.pending != [] && m.flow.remaining == 0
    ensures Ready(m.flow) && Inv(Step(m, Load))
  {
    hide Ordered, Accounted, OnLine, Left, Displacement, Runnable;
    OrderedReady(m.flow);
    var f, move := m.flow, m.pending[0];
    LoadKeepsOrder(f, move);
    LoadKeepsAccounts(f, move);
    TotalAppend(f.waiting, move);
    assert Step(m, Load).flow == Loaded(f, move);
  }

  /** The flow once the generator has handed over a segment. */
  function Pushed(f: Flow, events: nat, level: nat, period: nat): Flow
    requires events <= f.remaining
  {
    f.(queue := f.queue + [Work(f.prepId, PrepMove(f), events, level, period)], remaining := f.remaining - events)
  }

  /** Waiting moves have all been handed over except the last. */
  lemma WaitingQueued(f: Flow, id: nat)
    requires Ordered(f) && Accounted(f) && AllRunnable(f.waiting) && f.execId < id < f.prepId
    ensures Queued(f.queue, id) > 0
  {
    hide Queued;
    assert Owed(f, id) == MoveOf(f, id).events;
    assert Runnable(f.waiting[id - f.execId - 1]);
  }

  /** So when nothing is queued, at most one move is waiting. */
  lemma EmptyQueueWaiting(f: Flow)
    requires Ordered(f) && Accounted(f) && AllRunnable(f.waiting) && f.queue == []
    ensures |f.waiting| <= 1
  {
    hide Accounted;
    if |f.waiting| > 1 {
      WaitingQueued(f, f.execId + 1);
    }
  }

  lemma PushKeepsOrder(f: Flow, events: nat, level: nat, period: nat)
    requires Ordered(f) && Accounted(f) && MovesOk(f)
    requires 0 < events <= f.remaining && level <= MAX_AMASS_LEVEL
    ensures Ordered(Pushed(f, events, level, period))
  {
    hide Queued, Runnable, Accounted;
    var f' := Pushed(f, events, level, period);
    var q, q' := f.queue, f'.queue;
    if q == [] {
      EmptyQueueWaiting(f);
    }
    forall i | 0 <= i < |q'| ensures SegmentOk(f', q'[i]) {
      if i < |q| {
        assert SegmentOk(f, q[i]);
      }
    }
    forall i | 0 < i < |q'| ensures Follows(q', i) {
      if i < |q| {
        assert Follows(q, i);
      }
    }
  }

  lemma PushKeepsAccounts(f: Flow, events: nat, level: nat, period: nat)
    requires Ordered(f) && Accounted(f) && 0 < events <= f.remaining && level <= MAX_AMASS_LEVEL
    ensures Accounted(Pushed(f, events, level, period))
  {
    var f' := Pushed(f, events, level, period);
    var w := Work(f.prepId, PrepMove(f), events, level, period);
    hide Queued;
    forall id | f.execId <= id <= f.execId + |f.waiting| ensures Owed(f', id) == Owed(f, id) {
      QueuedAppend(f.queue, w, id);
    }
  }

  lemma PushKeeps(m: Model, events: nat, level: nat, period: nat)
    requires Inv(m) && Allowed(m, Push(events, level, period))
    ensures Ready(m.flow) && Inv(Step(m, Push(events, level, period)))
  {
    OrderedReady(m.flow);
    PushKeepsOrder(m.flow, events, level, period);
    PushKeepsAccounts(m.flow, events, level, period);
    hide Ordered, Accounted, OnLine, Left, Total, Runnable;
  }

  // ---------------------------------------------------------------------------
  // The step interrupt
  // ---------------------------------------------------------------------------

  /** When the next segment belongs to another move, that move is the next one, and the move
      in execution has had all of its step events. */
  lemma BeginFacts(f: Flow)
    requires Ordered(f) && Accounted(f) && MovesOk(f) && !f.executing && f.queue != []
    ensures NewMove(f) ==> f.queue[0].id == f.execId + 1 && f.waiting != [] && f.queue[0].move == f.waiting[0]
    ensures NewMove(f) ==> f.done == 8 * f.exec.events
    ensures !NewMove(f) ==> f.queue[0].id == f.execId && f.execId > 0
  {
    assert SegmentOk(f, f.queue[0]);
    if NewMove(f) {
      OrderedFrom(f, 0);
      QueuedNone(f.queue, f.execId);
    }
  }

  lemma {:induction false} OrderedFrom(f: Flow, i: nat)
    requires Ordered(f) && i < |f.queue|
    ensures forall j :: i <= j < |f.queue| ==> f.queue[j].id >= f.queue[i].id
    decreases |f.queue| - i
  {
    if i + 1 < |f.queue| {
      assert Follows(f.queue, i + 1);
      OrderedFrom(f, i + 1);
    }
  }

  lemma BeginKeepsOrder(f: Flow)
    requires Ordered(f) && Accounted(f) && MovesOk(f) && !f.executing && f.queue != []
    ensures Ready(f) && Ordered(Begin(f)) && MovesOk(Begin(f))
  {
    OrderedReady(f);
    BeginFacts(f);
    OrderedFrom(f, 0);
    hide Queued, Runnable, Accounted;
    var f' := Begin(f);
    forall i | 0 <= i < |f.queue| ensures SegmentOk(f', f.queue[i]) {
      assert SegmentOk(f, f.queue[i]);
    }
    assert NewMove(f) ==> Runnable(f.waiting[0]);
  }

  lemma BeginKeepsAccounts(f: Flow)
    requires Ordered(f) && Accounted(f) && MovesOk(f) && !f.executing && f.queue != []
    ensures Ready(f) && Accounted(Begin(f))
  {
    OrderedReady(f);
    BeginFacts(f);
    hide Queued, Runnable;
    var f' := Begin(f);
    forall id | f'.execId <= id <= f'.execId + |f'.waiting| ensures Owed(f', id) == Owed(f, id) {
    }
    if NewMove(f) {
      assert Owed(f, f.execId + 1) == MoveOf(f, f.execId + 1).events;
      forall id | f'.execId < id <= f'.execId + |f'.waiting| ensures Owed(f', id) == MoveOf(f', id).events {
        assert Owed(f, id) == MoveOf(f, id).events;
      }
    }
  }

  lemma SpendGoesOn(f: Flow)
    requires Ordered(f) && MovesOk(f) && f.executing && f.ticksLeft > 1
    ensures Ready(f) && Ordered(Spend(f)) && MovesOk(Spend(f))
  {
    hide Runnable, Follows;
    OrderedReady(f);
    forall i | 0 <= i < |f.queue| ensures SegmentOk(Spend(f), f.queue[i]) {
      assert SegmentOk(f, f.queue[i]);
    }
  }

  lemma SpendEnds(f: Flow)
    requires Ordered(f) && MovesOk(f) && f.executing && f.ticksLeft <= 1
    ensures Ready(f) && Ordered(Spend(f)) && MovesOk(Spend(f))
  {
    hide Runnable, Ticks;
    OrderedReady(f);
    var f' := Spend(f);
    forall i | 0 <= i < |f'.queue| ensures SegmentOk(f', f'.queue[i]) {
      assert SegmentOk(f, f.queue[i + 1]);
    }
    forall i | 0 < i < |f'.queue| ensures Follows(f'.queue, i) {
      assert Follows(f.queue, i + 1);
    }
    if |f.queue| > 1 {
      assert Follows(f.queue, 1);
    }
  }

  lemma SpendKeepsOrder(f: Flow)
    requires Ordered(f) && MovesOk(f) && f.executing
    ensures Ready(f) && Ordered(Spend(f)) && MovesOk(Spend(f))
  {
    hide Ordered, MovesOk, Spend, Ready;
    if f.ticksLeft > 1 {
      SpendGoesOn(f);
    } else {
      SpendEnds(f);
    }
  }

  lemma QueuedFirst(q: seq<Work>, id: nat)
    requires q != []
    ensures Queued(q, id) == (if q[0].id == id then q[0].events else 0) + Queued(q[1..], id)
  {
  }

  lemma SpendKeepsAccounts(f: Flow)
    requires Ordered(f) && Accounted(f) && f.executing
    ensures Ready(f) && Accounted(Spend(f))
  {
    OrderedReady(f);
    var f' := Spend(f);
    QueuedFirst(f.queue, f.execId);
    hide Queued;
    if f.ticksLeft > 1 {
      forall id | f.execId <= id <= f.execId + |f.waiting| ensures Owed(f', id) == Owed(f, id) {
      }
    } else {
      forall id | f.execId < id <= f.execId + |f.waiting| ensures Owed(f', id) == MoveOf(f', id).events {
        QueuedFirst(f.queue, id);
        assert Owed(f, id) == MoveOf(f, id).events;
      }
    }
  }

  /** While a segment is in execution, there are events of its move left for the next tick. */
  lemma RoomForTick(f: Flow)
    requires Ordered(f) && Accounted(f) && f.executing
    ensures Ready(f) && f.done + Fine(f.queue[0].level) <= 8 * f.exec.events && f.execId > 0
  {
    OrderedReady(f);
    assert SegmentOk(f, f.queue[0]);
    assert Queued(f.queue, f.execId) >= f.queue[0].events;
  }

  lemma PulseKeepsLine(m: Model)
    requires Ordered(m.flow) && Accounted(m.flow) && MovesOk(m.flow) && m.flow.executing
    requires OnLine(m.flow.exec, m.flow.done, m.pulses, m.counter)
    ensures Ready(m.flow) && var m' := Pulse(m); OnLine(m'.flow.exec, m'.flow.done, m'.pulses, m'.counter)
  {
    OrderedReady(m.flow);
    RoomForTick(m.flow);
    var move, level, done := m.flow.exec, m.flow.queue[0].level, m.flow.done;
    assert Runnable(move);
    hide Ordered, Accounted, MovesOk;
    AxisTick(move.events, move.steps.x, done, m.pulses.x, m.counter.x, level);
    AxisTick(move.events, move.steps.y, done, m.pulses.y, m.counter.y, level);
    AxisTick(move.events, move.steps.z, done, m.pulses.z, m.counter.z, level);
    hide AxisLine, Shifted, PulseCount;
  }

  lemma PulseKeepsBalance(m: Model)
    requires m.flow.executing && Ready(m.flow) && Balanced(m)
    ensures Balanced(Pulse(m))
  {
    hide Total, Shifted;
  }

  /** Starting the next move, from the end of the one before. */
  lemma ResetKeepsLine(m: Model)
    requires Ordered(m.flow) && Accounted(m.flow) && MovesOk(m.flow) && !m.flow.executing && m.flow.queue != []
    requires OnLine(m.flow.exec, m.flow.done, m.pulses, m.counter)
    ensures Ready(m.flow)
    ensures var m' := Reset(m).(flow := Begin(m.flow)); OnLine(m'.flow.exec, m'.flow.done, m'.pulses, m'.counter)
  {
    OrderedReady(m.flow);
    BeginFacts(m.flow);
    if NewMove(m.flow) {
      var next := m.flow.waiting[0];
      assert Runnable(next);
      hide Ordered, Accounted, MovesOk, AxisLine;
      NewLine(next);
      hide OnLine;
    }
  }

  /** A next move is begun when nothing is left of the one before, and all of it is still to be made. */
  lemma NextMoveBegins(m: Model)
    requires Ordered(m.flow) && Accounted(m.flow) && MovesOk(m.flow) && !m.flow.executing && m.flow.queue != []
    requires OnLine(m.flow.exec, m.flow.done, m.pulses, m.counter)
    ensures Ready(m.flow)
    ensures NewMove(m.flow) ==>
              && m.flow.waiting != [] && Left(m.flow.exec, m.pulses) == Axes(0, 0, 0)
              && var m' := Reset(m).(flow := Begin(m.flow));
              && m'.flow.waiting == m.flow.waiting[1..]
                 && Left(m'.flow.exec, m'.pulses) == Displacement(m.flow.waiting[0])
  {
    OrderedReady(m.flow);
    BeginFacts(m.flow);
    if NewMove(m.flow) {
      MoveFinished(m.flow.exec, m.flow.execId, m.pulses, m.counter);
      NothingLeft(m.flow.exec);
      hide Ordered, Accounted, MovesOk, OnLine, Left, Displacement;
    }
  }

  lemma ResetKeepsBalance(m: Model)
    requires Ordered(m.flow) && Accounted(m.flow) && MovesOk(m.flow) && !m.flow.executing && m.flow.queue != []
    requires OnLine(m.flow.exec, m.flow.done, m.pulses, m.counter) && Balanced(m)
    ensures Ready(m.flow) && Balanced(Reset(m).(flow := Begin(m.flow)))
  {
    hide Ordered, Accounted, MovesOk, OnLine, Left, Displacement;
    NextMoveBegins(m);
    if NewMove(m.flow) {
      var w := m.flow.waiting;
      assert Total(w) == Plus(Displacement(w[0]), Total(w[1..]));
    }
  }

  lemma NothingLeft(move: Move)
    ensures Left(move, move.steps) == Axes(0, 0, 0)
    ensures forall next {:trigger Displacement(next)} :: Left(next, Axes(0, 0, 0)) == Displacement(next)
  {
  }

  lemma MoveFinished(move: Move, id: nat, pulses: Axes<nat>, counter: Axes<int>)
    requires OnLine(move, 8 * move.events, pulses, counter)
    requires if id > 0 then Runnable(move) else move == NoMove
    ensures pulses == move.steps
  {
    hide Balance;
    if id > 0 {
      PulsesExact(move.events, move.steps.x, pulses.x);
      PulsesExact(move.events, move.steps.y, pulses.y);
      PulsesExact(move.events, move.steps.z, pulses.z);
    }
  }

  lemma NewLine(move: Move)
    requires Runnable(move)
    ensures var half := 4 * move.events; OnLine(move, 0, Axes(0, 0, 0), Axes(half, half, half))
  {
  }

  lemma TickKeeps(m: Model)
    requires Inv(m)
    ensures Ready(m.flow) && Inv(Step(m, Tick))
  {
    OrderedReady(m.flow);
    hide Ordered, Accounted, MovesOk, OnLine, Balanced, AllRunnable;
    if m.flow.executing {
      PulseKeeps(m);
    } else if m.flow.queue != [] {
      BeginKeepsOrder(m.flow);
      BeginKeepsAccounts(m.flow);
      ResetKeepsLine(m);
      ResetKeepsBalance(m);
      PulseKeeps(Reset(m).(flow := Begin(m.flow)));
    }
  }

  lemma PulseKeeps(m: Model)
    requires Inv(m) && m.flow.executing
    ensures Ready(m.flow) && Inv(Pulse(m))
  {
    OrderedReady(m.flow);
    hide Accounted, MovesOk, OnLine, Balanced, AllRunnable;
    SpendKeepsOrder(m.flow);
    SpendKeepsAccounts(m.flow);
    PulseKeepsLine(m);
    PulseKeepsBalance(m);
    hide Ordered;
  }

  lemma StepKeeps(m: Model, e: Event)
    requires Inv(m) && Allowed(m, e)
    ensures Ready(m.flow) && Inv(Step(m, e))
  {
    hide Inv, Step, Ready;
    match e
    case Plan(move) => PlanKeeps(m, move);
    case Load => LoadKeeps(m);
    case Push(events, level, period) => PushKeeps(m, events, level, period);
    case Tick => TickKeeps(m);
  }

  // ---------------------------------------------------------------------------
  // Whole runs
  // ---------------------------------------------------------------------------

  ghost predicate RunsTo(m: Model, es: seq<Event>, m': Model)
    decreases |es|
  {
    if es == [] then m == m'
    else Allowed(m, es[0]) && Ready(m.flow) && RunsTo(Step(m, es[0]), es[1..], m')
  }

  /** The planner's position is where it started plus every move it was given. */
  function Planned(es: seq<Event>): seq<Move> {
    if es == [] then []
    else (if es[0].Plan? then [es[0].move] else []) + Planned(es[1..])
  }

  lemma {:induction false} EveryRun(m: Model, es: seq<Event>, m': Model)
    requires Inv(m) && RunsTo(m, es, m')
    ensures Inv(m')
    decreases |es|
  {
    hide Inv, Step;
    if es != [] {
      StepKeeps(m, es[0]);
      EveryRun(Step(m, es[0]), es[1..], m');
    }
  }

  lemma {:induction false} TotalConcat(s: seq<Move>, t: seq<Move>)
    ensures Total(s + t) == Plus(Total(s), Total(t))
  {
    if s == [] {
      assert s + t == t;
    } else {
      assert (s + t)[1..] == s[1..] + t;
      TotalConcat(s[1..], t);
    }
  }

  lemma {:induction false} TargetOfRun(m: Model, es: seq<Event>, m': Model)
    requires RunsTo(m, es, m')
    ensures m'.target == Plus(m.target, Total(Planned(es)))
    decreases |es|
  {
    if es != [] {
      TargetOfRun(Step(m, es[0]), es[1..], m');
      TotalConcat(if es[0].Plan? then [es[0].move] else [], Planned(es[1..]));
      assert es[0].Plan? ==> Total([es[0].move]) == Displacement(es[0].move) by {
        assert es[0].Plan? ==> [es[0].move][1..] == [];
      }
      hide Displacement;
    }
  }

  /** A move that waits still has step events to come. */
  lemma LastWaitingOwed(f: Flow)
    requires Ordered(f) && Accounted(f) && AllRunnable(f.waiting) && f.waiting != []
    ensures Owed(f, f.prepId) > 0
  {
    hide Owed;
    assert Runnable(f.waiting[|f.waiting| - 1]);
  }

  /** Once everything has drained, the machine is where the planner is. */
  lemma DrainedExact(m: Model)
    requires Inv(m) && Drained(m)
    ensures m.position == m.target
  {
    var f := m.flow;
    DrainedFlow(f);
    MoveFinished(f.exec, f.execId, m.pulses, m.counter);
    hide Ordered, Accounted, OnLine, MovesOk;
    NothingLeft(f.exec);
    hide Left;
  }

  lemma DrainedFlow(f: Flow)
    requires Ordered(f) && Accounted(f) && AllRunnable(f.waiting) && f.queue == [] && f.remaining == 0
    ensures f.waiting == [] && f.done == 8 * f.exec.events
  {
    if f.waiting != [] {
      LastWaitingOwed(f);
    }
  }

  /** NO STEP IS LOST OR ADDED: for any moves, any cutting into segments, any smoothing levels
      and any interleaving of planner, generator and interrupt, once everything has drained
      every axis has moved by exactly the signed steps of the moves. */
  lemma StepExact(start: Axes<int>, es: seq<Event>, m: Model)
    requires RunsTo(Start(start), es, m) && Drained(m)
    ensures m.position == m.target == Plus(start, Total(Planned(es)))
  {
    hide Inv, RunsTo, Total, Planned;
    StartInv(start);
    EveryRun(Start(start), es, m);
    DrainedExact(m);
    TargetOfRun(Start(start), es, m);
  }

  /** What the line algorithm keeps at every tick: the counters stay in range, and no axis is
      more than half a step from the ideal line or beyond the ends of its move. */
  ghost predicate TrueToLine(n: nat, s: nat, done: nat, p: nat, c: int) {
    0 < c <= 8 * n && -(4 * n) < s * done - 8 * n * p <= 4 * n && p <= s && done <= 8 * n
  }

  /** AT EVERY MOMENT OF EVERY RUN every axis is true to the line of the move in execution. */
  lemma AlwaysTrueToLine(start: Axes<int>, es: seq<Event>, m: Model)
    requires RunsTo(Start(start), es, m) && m.flow.execId > 0
    ensures var move := m.flow.exec;
            && TrueToLine(move.events, move.steps.x, m.flow.done, m.pulses.x, m.counter.x)
            && TrueToLine(move.events, move.steps.y, m.flow.done, m.pulses.y, m.counter.y)
            && TrueToLine(move.events, move.steps.z, m.flow.done, m.pulses.z, m.counter.z)
  {
    StartInv(start);
    hide RunsTo, Start, Balanced, AxisLine, TrueToLine;
    EveryRun(Start(start), es, m);
    DoneBound(m.flow);
    hide Ordered, Accounted;
    var move, d := m.flow.exec, m.flow.done;
    assert Runnable(move);
    HalfStep(move.events, move.steps.x, d, m.pulses.x, m.counter.x);
    HalfStep(move.events, move.steps.y, d, m.pulses.y, m.counter.y);
    HalfStep(move.events, move.steps.z, d, m.pulses.z, m.counter.z);
  }

  lemma DoneBound(f: Flow)
    requires Ordered(f) && Accounted(f)
    ensures f.done <= 8 * f.exec.events
  {
    if f.executing {
      assert SegmentOk(f, f.queue[0]);
      QueuedFirst(f.queue, f.execId);
    }
  }
}
