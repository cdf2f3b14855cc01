/** The ring buffer read as a queue: recalculating it re-plans the queue, except that an empty
    queue sends the planned pointer astray until the next block arrives. */
module PlannerQueue {
  import opened NutsBolts
  import opened PlanSpec
  import opened PlannerRing
  import opened PlannerRefinement

  /** The queued blocks, first to execute first. */
  function Queue(m: Memory, tail: nat, head: nat): (q: seq<PlanBlock>)
    requires Ring(m) && tail < BLOCK_BUFFER_SIZE && head < BLOCK_BUFFER_SIZE
    ensures |q| == Ahead(tail, head)
  {
    seq(Ahead(tail, head), k requires 0 <= k < Ahead(tail, head) => m.ring[Slot(tail, k)])
  }

  /** Their junctions; the block being executed has the speed it moves at now. */
  function Seen(m: Memory, tail: nat, head: nat, speed: real): (q: seq<Junction>)
    requires Ring(m) && tail < BLOCK_BUFFER_SIZE && head < BLOCK_BUFFER_SIZE
    ensures |q| == Ahead(tail, head)
  {
    seq(Ahead(tail, head), k requires 0 <= k < Ahead(tail, head) =>
      if k == 0 && m.loaded then JunctionOf(m.ring[tail]).(entry := Square(speed))
      else JunctionOf(m.ring[Slot(tail, k)]))
  }

  /** Two blocks that differ at most in their planned entry speed. */
  predicate SameMove(b: PlanBlock, c: PlanBlock) {
    b == c.(entry := b.entry)
  }

  lemma SlotCompose(base: nat, p: nat, k: nat)
    requires base < BLOCK_BUFFER_SIZE && p + k <= BLOCK_BUFFER_SIZE
    ensures p < BLOCK_BUFFER_SIZE ==> Slot(Slot(base, p), k) == Slot(base, p + k)
  {
  }

  lemma SlotWrap(base: nat, p: nat, i: nat)
    requires base < BLOCK_BUFFER_SIZE && i < p < BLOCK_BUFFER_SIZE
    ensures Slot(Slot(base, p), i + BLOCK_BUFFER_SIZE - p) == Slot(base, i)
  {
  }

  lemma WorkIsSuffix(m: Memory, tail: nat, head: nat, speed: real)
    requires Ring(m) && tail < BLOCK_BUFFER_SIZE && head < BLOCK_BUFFER_SIZE
    requires Ahead(tail, m.planned) < Ahead(tail, head)
    ensures Span(m.planned, head) == Ahead(tail, head) - Ahead(tail, m.planned)
    ensures TailAtEdge(m, tail, head)
    ensures var p := Ahead(tail, m.planned); var q := Seen(m, tail, head, speed);
            var js := Junctions(Work(m, tail, head, speed));
            && |js| == |q| - p
            && (|q| > 1 ==> js == q[p..])
  {
    hide Gain, Square;
    var p, q, w := Ahead(tail, m.planned), Seen(m, tail, head, speed), Work(m, tail, head, speed);
    if |q| > 1 {
      forall k | 0 <= k < |w| ensures Junctions(w)[k] == q[p + k] {
        SlotCompose(tail, p, k);
        if k == 0 && m.planned == tail && m.loaded {
          GainIgnoresEntry(m.ring[tail], Square(speed));
        }
      }
    }
  }

  /** THE LOOPS PLAN THE QUEUE: recalculating the ring re-plans the queue from the planned
      pointer, and touches nothing but entry speeds. */
  lemma RecalculatedIsReplan(m: Memory, tail: nat, head: nat, speed: real)
    requires Ring(m) && tail < BLOCK_BUFFER_SIZE && head < BLOCK_BUFFER_SIZE
    requires Ahead(tail, m.planned) < Ahead(tail, head)
    ensures var r := Recalculated(m, tail, head, speed);
            var p, q := Ahead(tail, m.planned), Seen(m, tail, head, speed);
            && Ahead(tail, r.planned) == ReplanOffset(q, p)
            && Seen(r, tail, head, speed) == Replan(q, p)
  {
    hide Gain, Square, Recalculated, Reverse, Forward;
    var r := Recalculated(m, tail, head, speed);
    var p, q, w := Ahead(tail, m.planned), Seen(m, tail, head, speed), Work(m, tail, head, speed);
    WorkIsSuffix(m, tail, head, speed);
    RecalculatedComputes(m, tail, head, speed);
    SlotCompose(tail, p, PlannedAt(Junctions(w), |w| - 1));
    if |q| > 1 {
      forall i | 0 <= i < |q| ensures Seen(r, tail, head, speed)[i] == Replan(q, p)[i] {
        ReplannedAt(m, tail, head, speed, r, i);
      }
    } else {
      SingleBlockUnchanged(m, tail, head, speed);
      assert Replan(q, p) == q;
    }
  }

  lemma SingleBlockUnchanged(m: Memory, tail: nat, head: nat, speed: real)
    requires Ring(m) && tail < BLOCK_BUFFER_SIZE && head < BLOCK_BUFFER_SIZE && Span(m.planned, head) == 1
    ensures Recalculated(m, tail, head, speed) == m
  {
  }

  lemma BeforeWindow(m: Memory, tail: nat, head: nat, speed: real, r: Memory, i: nat)
    requires Ring(m) && Ring(r) && tail < BLOCK_BUFFER_SIZE && head < BLOCK_BUFFER_SIZE
    requires i < Ahead(tail, m.planned) < Ahead(tail, head)
    requires Span(m.planned, head) == Ahead(tail, head) - Ahead(tail, m.planned)
    requires forall j :: 0 <= j < BLOCK_BUFFER_SIZE ==> RecalculatedAt(m, Work(m, tail, head, speed), r, j)
    requires r.loaded == m.loaded
    ensures Seen(r, tail, head, speed)[i] == Seen(m, tail, head, speed)[i]
  {
    hide Gain, Square, Forward, Work;
    var p := Ahead(tail, m.planned);
    SlotWrap(tail, p, i);
    assert RecalculatedAt(m, Work(m, tail, head, speed), r, i + BLOCK_BUFFER_SIZE - p);
  }

  lemma InWindow(m: Memory, tail: nat, head: nat, speed: real, r: Memory, i: nat)
    requires Ring(m) && Ring(r) && tail < BLOCK_BUFFER_SIZE && head < BLOCK_BUFFER_SIZE
    requires Ahead(tail, m.planned) <= i < Ahead(tail, head) && 1 < Ahead(tail, head)
    requires Span(m.planned, head) == Ahead(tail, head) - Ahead(tail, m.planned)
    requires forall j :: 0 <= j < BLOCK_BUFFER_SIZE ==> RecalculatedAt(m, Work(m, tail, head, speed), r, j)
    requires if m.planned == tail && Span(m.planned, head) > 1 then !r.loaded else r.loaded == m.loaded
    ensures Seen(r, tail, head, speed)[i] ==
            Replan(Seen(m, tail, head, speed), Ahead(tail, m.planned))[i]
  {
    hide Gain, Square, Reverse, Clipped;
    var p, w := Ahead(tail, m.planned), Work(m, tail, head, speed);
    WorkIsSuffix(m, tail, head, speed);
    SlotCompose(tail, p, i - p);
    assert RecalculatedAt(m, w, r, i - p);
    GainIgnoresEntry(w[i - p], Forward(Junctions(w), i - p));
    GainIgnoresEntry(m.ring[tail], Square(speed));
  }

  lemma ReplannedAt(m: Memory, tail: nat, head: nat, speed: real, r: Memory, i: nat)
    requires Ring(m) && Ring(r) && tail < BLOCK_BUFFER_SIZE && head < BLOCK_BUFFER_SIZE
    requires Ahead(tail, m.planned) < Ahead(tail, head) && 1 < Ahead(tail, head) && i < Ahead(tail, head)
    requires Span(m.planned, head) == Ahead(tail, head) - Ahead(tail, m.planned)
    requires forall j :: 0 <= j < BLOCK_BUFFER_SIZE ==> RecalculatedAt(m, Work(m, tail, head, speed), r, j)
    requires if m.planned == tail && Span(m.planned, head) > 1 then !r.loaded else r.loaded == m.loaded
    ensures Seen(r, tail, head, speed)[i] ==
            Replan(Seen(m, tail, head, speed), Ahead(tail, m.planned))[i]
  {
    hide Forward, RecalculatedAt, Work;
    var p := Ahead(tail, m.planned);
    if i < p {
      BeforeWindow(m, tail, head, speed, r, i);
    } else {
      InWindow(m, tail, head, speed, r, i);
    }
  }

  lemma RecalculatedKeepsMoves(m: Memory, tail: nat, head: nat, speed: real)
    requires Ring(m) && tail < BLOCK_BUFFER_SIZE && head < BLOCK_BUFFER_SIZE && TailAtEdge(m, tail, head)
    ensures forall i :: 0 <= i < BLOCK_BUFFER_SIZE ==>
              SameMove(Recalculated(m, tail, head, speed).ring[i], m.ring[i])
  {
    hide Gain, Square, Recalculated, Forward;
    RecalculatedComputes(m, tail, head, speed);
    var r, w := Recalculated(m, tail, head, speed), Work(m, tail, head, speed);
    forall i | 0 <= i < BLOCK_BUFFER_SIZE ensures SameMove(r.ring[i], m.ring[i]) {
      assert RecalculatedAt(m, w, r, Ahead(m.planned, i));
    }
  }

  /** Whenever the plan gives the executing block another exit speed, the stepper module has
      been told, in the same call, to look at its velocity profile again. */
  lemma ExitSpeedChangeNotifies(m: Memory, tail: nat, head: nat, speed: real)
    requires Ring(m) && tail < BLOCK_BUFFER_SIZE && head < BLOCK_BUFFER_SIZE
    requires Ahead(tail, m.planned) < Ahead(tail, head) && 1 < Ahead(tail, head)
    ensures var r := Recalculated(m, tail, head, speed);
            r.ring[Slot(tail, 1)].entry != m.ring[Slot(tail, 1)].entry ==>
              !r.loaded && r.recalculate == (m.recalculate || m.loaded)
  {
    hide Gain, Square, Recalculated, Reverse;
    var r, w, p := Recalculated(m, tail, head, speed), Work(m, tail, head, speed), Ahead(tail, m.planned);
    WorkIsSuffix(m, tail, head, speed);
    RecalculatedComputes(m, tail, head, speed);
    if p == 1 {
      assert RecalculatedAt(m, w, r, 0);
    } else if p > 1 {
      SlotWrap(tail, p, 1);
      assert RecalculatedAt(m, w, r, 1 + BLOCK_BUFFER_SIZE - p);
    }
  }

  // ---------------------------------------------------------------------------
  // The other planner operations, on the queue
  // ---------------------------------------------------------------------------

  lemma SeenAppend(m: Memory, tail: nat, head: nat, speed: real, b: PlanBlock)
    requires Ring(m) && tail < BLOCK_BUFFER_SIZE && head < BLOCK_BUFFER_SIZE
    requires Ahead(tail, head) < BLOCK_BUFFER_SIZE - 1 && (m.loaded ==> head != tail)
    ensures Ahead(tail, NextIndex(head)) == Ahead(tail, head) + 1
    ensures Seen(m.(ring := m.ring[head := b]), tail, NextIndex(head), speed) ==
            Seen(m, tail, head, speed) + [JunctionOf(b)]
    ensures Queue(m.(ring := m.ring[head := b]), tail, NextIndex(head)) == Queue(m, tail, head) + [b]
  {
    hide Gain, Square;
  }

  lemma SeenDiscard(m: Memory, tail: nat, head: nat, speed: real)
    requires Ring(m) && tail < BLOCK_BUFFER_SIZE && head < BLOCK_BUFFER_SIZE && head != tail
    ensures Ahead(NextIndex(tail), head) == Ahead(tail, head) - 1
    ensures Seen(m.(loaded := false), NextIndex(tail), head, speed) == Seen(m, tail, head, speed)[1..]
    ensures Queue(m, NextIndex(tail), head) == Queue(m, tail, head)[1..]
  {
    hide Gain, Square, Slot, JunctionOf;
    NextAhead(tail, head);
  }

  lemma NextAhead(tail: nat, head: nat)
    requires tail < BLOCK_BUFFER_SIZE && head < BLOCK_BUFFER_SIZE && head != tail
    ensures Ahead(NextIndex(tail), head) == Ahead(tail, head) - 1 && Slot(tail, 0) == tail
    ensures forall k :: 0 <= k < Ahead(tail, head) - 1 ==> Slot(NextIndex(tail), k) == Slot(tail, k + 1)
  {
  }

  /** The executing block travels: its remaining length and its speed change. */
  lemma SeenTravel(m: Memory, tail: nat, head: nat, speed: real, b: PlanBlock, loaded: bool, speed': real)
    requires Ring(m) && tail < BLOCK_BUFFER_SIZE && head < BLOCK_BUFFER_SIZE && head != tail
    ensures var r := m.(ring := m.ring[tail := b], loaded := loaded);
            Seen(r, tail, head, speed') ==
            Seen(m, tail, head, speed)[0 := if loaded then JunctionOf(b).(entry := Square(speed')) else JunctionOf(b)]
  {
    hide Gain, Square;
    forall k | 0 < k < Ahead(tail, head) ensures Slot(tail, k) != tail {
      SlotInjective(tail, k, 0);
    }
  }

  // ---------------------------------------------------------------------------
  // The empty queue
  // ---------------------------------------------------------------------------

  lemma {:induction false} SpeedsNonnegative(w: seq<Junction>, k: nat)
    requires AllPhysical(w) && k < |w|
    ensures Forward(w, k) >= 0.0
    ensures k > 0 ==> Reverse(w, k) >= 0.0
    decreases k
  {
    if k > 0 {
      SpeedsNonnegative(w, k - 1);
      ReverseNonnegative(w, k);
    }
  }

  lemma {:induction false} ReverseNonnegative(w: seq<Junction>, k: nat)
    requires AllPhysical(w) && 0 < k < |w|
    ensures Reverse(w, k) >= 0.0
    decreases |w| - k
  {
    assert Physical(w[k]);
    if k + 1 < |w| {
      ReverseNonnegative(w, k + 1);
    }
  }

  /** The planned pointer stands still over a whole forward pass exactly when no block is
      fully accelerating and none is at its maximum entry speed. */
  lemma {:induction false} PlannedStaysIff(w: seq<Junction>, k: nat)
    requires k < |w|
    ensures PlannedAt(w, k) == 0 <==>
            forall i :: 0 < i <= k ==> !Breakpoint(w, i)
  {
    if k > 0 {
      PlannedStaysIff(w, k - 1);
      PlannedUnfold(w, k);
      hide PlannedAt, Breakpoint;
    }
  }

  /** A block at which the forward pass moves the planned pointer. */
  predicate Breakpoint(w: seq<Junction>, k: nat)
    requires 0 < k < |w|
  {
    Clipped(w, k) || Forward(w, k) == w[k].limit
  }

  lemma PlannedUnfold(w: seq<Junction>, k: nat)
    requires 0 < k < |w|
    ensures PlannedAt(w, k) == if Breakpoint(w, k) then k else PlannedAt(w, k - 1)
  {
  }

  /** A block that starts a queue from rest puts the planned pointer right, wherever it was. */
  lemma FirstBlockHeals(m: Memory, tail: nat, head: nat, speed: real)
    requires Ring(m) && tail < BLOCK_BUFFER_SIZE && head == NextIndex(tail)
    requires forall i :: 0 <= i < BLOCK_BUFFER_SIZE ==> Physical(JunctionOf(m.ring[i]))
    requires !m.loaded && m.ring[tail].entry == m.ring[tail].maxEntry == 0.0
    ensures var r := Recalculated(m, tail, head, speed);
            r.planned == tail && r.ring[tail] == m.ring[tail] && !r.loaded && r.recalculate == m.recalculate
  {
    hide Gain, Recalculated, Reverse;
    var w, n, r := Work(m, tail, head, speed), Span(m.planned, head), Recalculated(m, tail, head, speed);
    var js := Junctions(w);
    assert TailAtEdge(m, tail, head) && tail == Slot(m.planned, n - 1);
    RecalculatedComputes(m, tail, head, speed);
    assert RecalculatedAt(m, w, r, n - 1);
    if n > 1 {
      assert AllPhysical(js);
      LastAtRest(js);
    }
  }

  lemma LastAtRest(js: seq<Junction>)
    requires |js| > 1 && AllPhysical(js) && js[|js| - 1].limit == 0.0
    ensures Forward(js, |js| - 1) == 0.0 && PlannedAt(js, |js| - 1) == |js| - 1
  {
    var n := |js|;
    SpeedsNonnegative(js, n - 2);
    assert Physical(js[n - 1]);
    assert Reverse(js, n - 1) == 0.0;
  }

  /** What the blocks from `k` on could gain between them. */
  function TailGain(w: seq<Junction>, k: nat): real
    requires k <= |w|
    decreases |w| - k
  {
    if k == |w| then 0.0 else w[k].gain + TailGain(w, k + 1)
  }

  /** Stale blocks that stop neither pass: none is at its limit already, none could be reached from a
      stop at the far end, and the first is not too slow for those behind it. */
  ghost predicate Settled(w: seq<Junction>) {
    && (forall i :: 0 < i < |w| ==> TailGain(w, i) < w[i].limit)
    && (forall i :: 0 < i < |w| - 1 ==> w[i].entry != w[i].limit)
    && (|w| > 1 ==> w[0].entry + w[0].gain >= TailGain(w, 1))
  }

  lemma {:induction false} GainsAddUp(w: seq<Junction>, k: nat)
    requires 0 < k < |w|
    requires forall i :: k <= i < |w| ==> TailGain(w, i) < w[i].limit
    requires forall i :: k <= i < |w| - 1 ==> w[i].entry != w[i].limit
    ensures Reverse(w, k) == TailGain(w, k)
    decreases |w| - k
  {
    assert TailGain(w, k) == w[k].gain + TailGain(w, k + 1);
    if k + 1 < |w| {
      GainsAddUp(w, k + 1);
    }
  }

  lemma {:induction false} GainsOnly(w: seq<Junction>, k: nat)
    requires 0 < k < |w| && forall i :: k <= i < |w| ==> Reverse(w, i) != w[i].limit
    ensures Reverse(w, k) == TailGain(w, k) < w[k].limit
    ensures k + 1 < |w| ==> w[k].entry != w[k].limit
    decreases |w| - k
  {
    assert Reverse(w, k) != w[k].limit;
    assert TailGain(w, k) == w[k].gain + TailGain(w, k + 1);
    if k + 1 < |w| {
      GainsOnly(w, k + 1);
    }
  }

  /** Where nothing clips, the forward pass leaves what the reverse pass has found. */
  lemma NotClipped(w: seq<Junction>, k: nat)
    requires 0 < k < |w|
    ensures !Clipped(w, k) ==> Forward(w, k) == Reverse(w, k)
  {
  }

  lemma {:induction false} SettledStays(w: seq<Junction>, k: nat)
    requires AllPhysical(w) && Settled(w) && 0 < k < |w|
    ensures !Breakpoint(w, k) && Forward(w, k) == TailGain(w, k)
  {
    hide Reverse, TailGain;
    GainsAddUp(w, k);
    NotClipped(w, k);
    assert TailGain(w, k) < w[k].limit;
    assert Physical(w[k - 1]);
    if k == 1 {
      assert Forward(w, 0) == w[0].entry;
    } else {
      SettledStays(w, k - 1);
      assert TailGain(w, k - 1) == w[k - 1].gain + TailGain(w, k) by { TailUnfold(w, k - 1); }
    }
    hide Forward;
  }

  lemma TailUnfold(w: seq<Junction>, k: nat)
    requires k < |w|
    ensures TailGain(w, k) == w[k].gain + TailGain(w, k + 1)
  {
  }

  lemma StaysSettled(w: seq<Junction>)
    requires AllPhysical(w) && |w| > 1 && forall i :: 0 < i < |w| ==> !Breakpoint(w, i)
    ensures Settled(w)
  {
    hide Reverse, TailGain;
    forall i | 0 < i < |w| ensures Reverse(w, i) != w[i].limit {
      assert !Breakpoint(w, i);
      NotClipped(w, i);
    }
    forall i | 0 < i < |w| ensures TailGain(w, i) < w[i].limit && (i + 1 < |w| ==> w[i].entry != w[i].limit) {
      GainsOnly(w, i);
    }
    GainsOnly(w, 1);
    assert !Clipped(w, 1) && Forward(w, 0) == w[0].entry by { assert !Breakpoint(w, 1); }
    assert Physical(w[0]);
  }

  /** What a full turn round the ring meets, from the slot at the tail on. */
  function Stale(m: Memory, tail: nat): (js: seq<Junction>)
    requires Ring(m) && tail < BLOCK_BUFFER_SIZE
    ensures |js| == BLOCK_BUFFER_SIZE
  {
    seq(BLOCK_BUFFER_SIZE, k requires 0 <= k < BLOCK_BUFFER_SIZE => JunctionOf(m.ring[Slot(tail, k)]))
  }

  /** Reinitialising the plan of an EMPTY queue: the pass goes all the way round the ring, and the
      planned pointer stays at the tail exactly if the stale blocks are settled. */
  lemma EmptyReplanIff(m: Memory, tail: nat, speed: real)
    requires Ring(m) && m.planned == tail && !m.loaded
    requires forall i :: 0 <= i < BLOCK_BUFFER_SIZE ==> Physical(JunctionOf(m.ring[i]))
    ensures Recalculated(m, tail, tail, speed).planned == tail <==> Settled(Stale(m, tail))
  {
    hide Gain, Recalculated, Reverse, Settled, Breakpoint, PlannedAt;
    var w := Work(m, tail, tail, speed);
    RecalculatedComputes(m, tail, tail, speed);
    StaleWork(m, tail, speed);
    var js := Junctions(w);
    PlannedStaysIff(js, BLOCK_BUFFER_SIZE - 1);
    SlotInjective(tail, PlannedAt(js, BLOCK_BUFFER_SIZE - 1), 0);
    if Settled(js) {
      forall i | 0 < i < BLOCK_BUFFER_SIZE ensures !Breakpoint(js, i) {
        SettledStays(js, i);
      }
    } else if forall i :: 0 < i < BLOCK_BUFFER_SIZE ==> !Breakpoint(js, i) {
      StaysSettled(js);
    }
  }

  lemma StaleWork(m: Memory, tail: nat, speed: real)
    requires Ring(m) && m.planned == tail && !m.loaded
    requires forall i :: 0 <= i < BLOCK_BUFFER_SIZE ==> Physical(JunctionOf(m.ring[i]))
    ensures Junctions(Work(m, tail, tail, speed)) == Stale(m, tail) && AllPhysical(Stale(m, tail))
  {
    assert Notify(m, tail, speed) == m && Slot(tail, 0) == tail;
    hide Gain;
  }

  const ZeroBlock := PlanBlock([0, 0, 0], 0, [false, false, false], false, false, 0.0, 0.0, 0.0, 0.0, 0.0, 0.0, 0.0)

  /** With the ring as it is after power-up, the planned pointer leaves the (empty) queue. */
  lemma EmptyReplanStrays(m: Memory, speed: real)
    requires Ring(m) && !m.loaded && m.planned == 0 && forall i :: 0 <= i < BLOCK_BUFFER_SIZE ==> m.ring[i] == ZeroBlock
    ensures Recalculated(m, 0, 0, speed).planned == BLOCK_BUFFER_SIZE - 1
  {
    ZeroWork(m, speed);
    LastAtRest(Junctions(Work(m, 0, 0, speed)));
    hide Recalculated, Reverse, Forward, PlannedAt, RecalculatedAt, Work;
    RecalculatedComputes(m, 0, 0, speed);
  }

  lemma ZeroWork(m: Memory, speed: real)
    requires Ring(m) && !m.loaded && m.planned == 0 && forall i :: 0 <= i < BLOCK_BUFFER_SIZE ==> m.ring[i] == ZeroBlock
    ensures var js := Junctions(Work(m, 0, 0, speed));
            |js| == BLOCK_BUFFER_SIZE && forall i :: 0 <= i < |js| ==> js[i] == Junction(0.0, 0.0, 0.0)
  {
    var w := Work(m, 0, 0, speed);
    assert Notify(m, 0, speed) == m;
    assert JunctionOf(ZeroBlock) == Junction(0.0, 0.0, 0.0);
    hide Gain;
    forall i | 0 <= i < |w| ensures w[i] == ZeroBlock {
    }
  }
}
