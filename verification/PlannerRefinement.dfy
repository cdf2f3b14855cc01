/** The loops of `planner_recalculate`, running over ring slots, compute the plan. */
module PlannerRefinement {
  import opened NutsBolts
  import opened PlanSpec
  import opened PlannerRing

  /** The blocks that are re-planned: from the planned pointer to the head. The first is the
      executing block when the planned pointer is at the tail, and is then brought up to date. */
  function Work(m: Memory, tail: nat, head: nat, speed: real): (w: seq<PlanBlock>)
    requires Ring(m) && tail < BLOCK_BUFFER_SIZE && head < BLOCK_BUFFER_SIZE
    ensures |w| == Span(m.planned, head)
  {
    var n := Span(m.planned, head);
    seq(n, k requires 0 <= k < n =>
      if k == 0 && m.planned == tail && n > 1 then Notify(m, tail, speed).ring[tail] else m.ring[Slot(m.planned, k)])
  }

  function Junctions(w: seq<PlanBlock>): (r: seq<Junction>)
    ensures |r| == |w|
  {
    seq(|w|, i requires 0 <= i < |w| => JunctionOf(w[i]))
  }

  /** The executing block, if it is to be re-planned, is the first or the last of the window. */
  predicate TailAtEdge(m: Memory, tail: nat, head: nat)
    requires Ring(m) && tail < BLOCK_BUFFER_SIZE && head < BLOCK_BUFFER_SIZE
  {
    tail == m.planned || Ahead(m.planned, tail) >= Span(m.planned, head) - 1
  }

  /** What the reverse pass has made of the slot `j` places after the planned pointer. */
  ghost predicate ReverseAt(m: Memory, w: seq<PlanBlock>, r: Memory, k: nat, j: nat)
    requires Ring(m) && Ring(r) && 0 < |w| <= BLOCK_BUFFER_SIZE && 0 < k && 0 < j < BLOCK_BUFFER_SIZE
  {
    r.ring[Slot(m.planned, j)] ==
    if j >= |w| then m.ring[Slot(m.planned, j)]
    else if j < k then w[j]
    else w[j].(entry := Reverse(Junctions(w), j))
  }

  ghost predicate ReverseHolds(m: Memory, w: seq<PlanBlock>, r: Memory, k: nat)
    requires Ring(m) && Ring(r) && 0 < |w| <= BLOCK_BUFFER_SIZE && 0 < k
  {
    forall j :: 0 < j < BLOCK_BUFFER_SIZE ==> ReverseAt(m, w, r, k, j)
  }

  lemma SlotInjective(base: nat, j: nat, k: nat)
    requires base < BLOCK_BUFFER_SIZE && j < BLOCK_BUFFER_SIZE && k < BLOCK_BUFFER_SIZE
    ensures Slot(base, j) == Slot(base, k) <==> j == k
  {
  }

  lemma ReverseStepValue(w: seq<PlanBlock>, k: nat)
    requires 0 < k < |w| - 1
    ensures ReverseBlock(w[k], w[k + 1].(entry := Reverse(Junctions(w), k + 1))) ==
            w[k].(entry := Reverse(Junctions(w), k))
  {
    hide Gain;
    assert Junctions(w)[k] == JunctionOf(w[k]);
  }

  /** One turn of the reverse loop puts the right speed into its block and leaves the others. */
  lemma ReverseStepComputes(m: Memory, w: seq<PlanBlock>, tail: nat, speed: real, r: Memory, k: nat)
    requires Ring(m) && Ring(r) && tail < BLOCK_BUFFER_SIZE && 1 < |w| <= BLOCK_BUFFER_SIZE
    requires m.planned == r.planned && 0 < k < |w| - 1 && ReverseHolds(m, w, r, k + 1)
    requires tail == m.planned || Ahead(m.planned, tail) >= |w| - 1
    ensures ReverseHolds(m, w, ReverseStep(r, tail, speed, k), k)
  {
    hide Gain, Square, ReverseBlock, Reverse;
    var r' := ReverseStep(r, tail, speed, k);
    ReverseStepValue(w, k);
    assert ReverseAt(m, w, r, k + 1, k) && ReverseAt(m, w, r, k + 1, k + 1);
    forall j | 0 < j < BLOCK_BUFFER_SIZE ensures ReverseAt(m, w, r', k, j) {
      assert ReverseAt(m, w, r, k + 1, j);
      SlotInjective(m.planned, j, k);
      SlotInjective(m.planned, j, 0);
    }
  }

  lemma ReverseStepFirst(tail: nat, speed: real, r: Memory, k: nat)
    requires Ring(r) && tail < BLOCK_BUFFER_SIZE && 0 < k < BLOCK_BUFFER_SIZE - 1
    requires tail == r.planned || Ahead(r.planned, tail) > k
    ensures var r' := ReverseStep(r, tail, speed, k);
            if k == 1 && r.planned == tail
            then r'.ring[tail] == Notify(r, tail, speed).ring[tail] && !r'.loaded
              && r'.recalculate == (r.recalculate || r.loaded)
            else r'.ring[r.planned] == r.ring[r.planned] && r'.loaded == r.loaded && r'.recalculate == r.recalculate
  {
    hide Gain, Square, ReverseBlock;
    SlotInjective(r.planned, k, 0);
  }

  /** The reverse loop, down to block `k`. */
  lemma {:induction false} ReverseToComputes(m: Memory, w: seq<PlanBlock>, tail: nat, speed: real, k: nat)
    requires Ring(m) && tail < BLOCK_BUFFER_SIZE && 0 < k < |w| <= BLOCK_BUFFER_SIZE
    requires tail == m.planned || Ahead(m.planned, tail) >= |w| - 1
    requires forall j :: 0 < j < |w| ==> w[j] == m.ring[Slot(m.planned, j)]
    ensures ReverseHolds(m, w, ReverseTo(m, tail, speed, |w|, k), k)
    decreases |w| - k
  {
    hide Gain, Square, ReverseBlock, ReverseStep;
    if k == |w| - 1 {
      var r := ReverseTo(m, tail, speed, |w|, k);
      forall j | 0 < j < BLOCK_BUFFER_SIZE ensures ReverseAt(m, w, r, k, j) {
        SlotInjective(m.planned, j, k);
      }
    } else {
      ReverseToComputes(m, w, tail, speed, k + 1);
      ReverseStepComputes(m, w, tail, speed, ReverseTo(m, tail, speed, |w|, k + 1), k);
    }
  }

  /** The reverse loop and the executing block: it is handed back on the last turn. */
  lemma {:induction false} ReverseToFirst(m: Memory, tail: nat, speed: real, n: nat, k: nat)
    requires Ring(m) && tail < BLOCK_BUFFER_SIZE && 0 < k < n <= BLOCK_BUFFER_SIZE
    requires tail == m.planned || Ahead(m.planned, tail) >= n - 1
    ensures var r := ReverseTo(m, tail, speed, n, k);
            if k == 1 && n > 2 && m.planned == tail
            then r.ring[tail] == Notify(m, tail, speed).ring[tail] && !r.loaded
              && r.recalculate == (m.recalculate || m.loaded)
            else r.ring[m.planned] == m.ring[m.planned] && r.loaded == m.loaded && r.recalculate == m.recalculate
    decreases n - k
  {
    hide Gain, Square, ReverseBlock, ReverseStep;
    if k == n - 1 {
      SlotInjective(m.planned, k, 0);
    } else {
      ReverseToFirst(m, tail, speed, n, k + 1);
      ReverseStepFirst(tail, speed, ReverseTo(m, tail, speed, n, k + 1), k);
    }
  }

  /** The whole reverse pass. */
  lemma ReversePassComputes(m: Memory, tail: nat, head: nat, speed: real)
    requires Ring(m) && tail < BLOCK_BUFFER_SIZE && head < BLOCK_BUFFER_SIZE && TailAtEdge(m, tail, head)
    requires Span(m.planned, head) > 1
    ensures var r := ReversePass(m, tail, head, speed); var w := Work(m, tail, head, speed);
            && ReverseHolds(m, w, r, 1) && r.ring[m.planned] == w[0]
            && (if m.planned == tail then !r.loaded && r.recalculate == (m.recalculate || m.loaded)
                else r.loaded == m.loaded && r.recalculate == m.recalculate)
  {
    hide Gain, Square, ReverseBlock, ReverseStep, ReverseTo;
    var w, n := Work(m, tail, head, speed), Span(m.planned, head);
    ReverseToComputes(m, w, tail, speed, 1);
    ReverseToFirst(m, tail, speed, n, 1);
    var r := ReverseTo(m, tail, speed, n, 1);
    if n == 2 && m.planned == tail {
      var r' := Notify(r, tail, speed);
      forall j | 0 < j < BLOCK_BUFFER_SIZE ensures ReverseAt(m, w, r', 1, j) {
        assert ReverseAt(m, w, r, 1, j);
        SlotInjective(tail, j, 0);
      }
    }
  }

  /** What the forward pass has made of the slot `j` places after the old planned pointer. */
  ghost predicate ForwardAt(base: nat, w: seq<PlanBlock>, before: Memory, r: Memory, k: nat, j: nat)
    requires Ring(before) && Ring(r) && base < BLOCK_BUFFER_SIZE && 0 < |w| <= BLOCK_BUFFER_SIZE
             && j < BLOCK_BUFFER_SIZE
  {
    r.ring[Slot(base, j)] ==
    if j <= k && j < |w| then w[j].(entry := Forward(Junctions(w), j)) else before.ring[Slot(base, j)]
  }

  ghost predicate ForwardHolds(base: nat, w: seq<PlanBlock>, before: Memory, r: Memory, k: nat)
    requires Ring(before) && Ring(r) && base < BLOCK_BUFFER_SIZE && 0 < |w| <= BLOCK_BUFFER_SIZE
  {
    forall j :: 0 <= j < BLOCK_BUFFER_SIZE ==> ForwardAt(base, w, before, r, k, j)
  }

  lemma ForwardStepValue(w: seq<PlanBlock>, k: nat)
    requires 0 < k < |w|
    ensures var js := Junctions(w);
            var b, next := w[k - 1].(entry := Forward(js, k - 1)), w[k].(entry := Reverse(js, k));
            && ForwardBlock(b, next) == w[k].(entry := Forward(js, k))
            && PlannedAt(js, k) ==
               if FullAcceleration(b, next) || ForwardBlock(b, next).entry == w[k].maxEntry then k
               else PlannedAt(js, k - 1)
  {
    GainIgnoresEntry(w[k - 1], Forward(Junctions(w), k - 1));
    hide Gain;
    assert Junctions(w)[k] == JunctionOf(w[k]) && Junctions(w)[k - 1] == JunctionOf(w[k - 1]);
  }

  lemma GainIgnoresEntry(b: PlanBlock, entry: real)
    ensures Gain(b.(entry := entry)) == Gain(b)
  {
  }

  lemma PrevSlot(base: nat, k: nat)
    requires base < BLOCK_BUFFER_SIZE && 0 < k <= BLOCK_BUFFER_SIZE
    ensures PrevIndex(Slot(base, k)) == Slot(base, k - 1)
  {
  }

  /** One turn of the forward loop. */
  lemma ForwardStepComputes(base: nat, w: seq<PlanBlock>, before: Memory, r: Memory, k: nat)
    requires Ring(before) && Ring(r) && base < BLOCK_BUFFER_SIZE && 0 < k < |w| <= BLOCK_BUFFER_SIZE
    requires ForwardHolds(base, w, before, r, k - 1)
    requires r.planned == Slot(base, PlannedAt(Junctions(w), k - 1))
    requires before.ring[Slot(base, k)] == w[k].(entry := Reverse(Junctions(w), k))
    ensures var r' := ForwardStep(r, Slot(base, k));
            ForwardHolds(base, w, before, r', k) && r'.planned == Slot(base, PlannedAt(Junctions(w), k))
  {
    hide Gain, ForwardBlock, FullAcceleration, PlannedAt, Reverse, Forward;
    var r' := ForwardStep(r, Slot(base, k));
    ForwardStepValue(w, k);
    PrevSlot(base, k);
    assert ForwardAt(base, w, before, r, k - 1, k - 1) && ForwardAt(base, w, before, r, k - 1, k);
    forall j | 0 <= j < BLOCK_BUFFER_SIZE ensures ForwardAt(base, w, before, r', k, j) {
      assert ForwardAt(base, w, before, r, k - 1, j);
      SlotInjective(base, j, k);
    }
  }

  lemma {:induction false} ForwardToComputes(base: nat, w: seq<PlanBlock>, before: Memory, k: nat)
    requires Ring(before) && before.planned == base && k < |w| <= BLOCK_BUFFER_SIZE
    requires before.ring[base] == w[0]
    requires forall j :: 0 < j < |w| ==> before.ring[Slot(base, j)] == w[j].(entry := Reverse(Junctions(w), j))
    ensures var r := ForwardTo(before, base, k);
            ForwardHolds(base, w, before, r, k) && r.planned == Slot(base, PlannedAt(Junctions(w), k))
  {
    hide Gain, ForwardStep, Reverse;
    if k == 0 {
      forall j | 0 <= j < BLOCK_BUFFER_SIZE ensures ForwardAt(base, w, before, before, 0, j) {
      }
    } else {
      ForwardToComputes(base, w, before, k - 1);
      ForwardStepComputes(base, w, before, ForwardTo(before, base, k - 1), k);
    }
  }

  /** `planner_recalculate` leaves in every slot of the window the planned entry speed, leaves
      every other slot alone, and moves the planned pointer as the plan says; it hands the
      executing block back to the planner exactly when that block is the first of the window. */
  lemma RecalculatedComputes(m: Memory, tail: nat, head: nat, speed: real)
    requires Ring(m) && tail < BLOCK_BUFFER_SIZE && head < BLOCK_BUFFER_SIZE && TailAtEdge(m, tail, head)
    ensures var r := Recalculated(m, tail, head, speed); var w := Work(m, tail, head, speed); var n := |w|;
            && r.planned == Slot(m.planned, PlannedAt(Junctions(w), n - 1))
            && (forall j :: 0 <= j < BLOCK_BUFFER_SIZE ==> RecalculatedAt(m, w, r, j))
            && (if m.planned == tail && n > 1 then !r.loaded && r.recalculate == (m.recalculate || m.loaded)
                else r.loaded == m.loaded && r.recalculate == m.recalculate)
  {
    hide Gain, Reverse, ReversePass, ForwardTo, Notify;
    var w, n := Work(m, tail, head, speed), Span(m.planned, head);
    var r := Recalculated(m, tail, head, speed);
    if n == 1 {
      assert r == m && w[0] == m.ring[m.planned];
    } else {
      ReversePassComputes(m, tail, head, speed);
      var before := ReversePass(m, tail, head, speed);
      forall j | 0 < j < |w| ensures before.ring[Slot(m.planned, j)] == w[j].(entry := Reverse(Junctions(w), j)) {
        assert ReverseAt(m, w, before, 1, j);
      }
      ForwardToComputes(m.planned, w, before, n - 1);
      forall j | 0 <= j < BLOCK_BUFFER_SIZE ensures RecalculatedAt(m, w, r, j) {
        assert ForwardAt(m.planned, w, before, r, n - 1, j);
        assert j > 0 ==> ReverseAt(m, w, before, 1, j);
      }
    }
  }

  ghost predicate RecalculatedAt(m: Memory, w: seq<PlanBlock>, r: Memory, j: nat)
    requires Ring(m) && Ring(r) && 0 < |w| <= BLOCK_BUFFER_SIZE && j < BLOCK_BUFFER_SIZE
  {
    r.ring[Slot(m.planned, j)] ==
    if j < |w| then w[j].(entry := Forward(Junctions(w), j)) else m.ring[Slot(m.planned, j)]
  }
}
