/** What the planner keeps true of its ring, and that each of its operations does to the
    queue what the plan's events say. */
module PlannerInvariant {
  import opened NutsBolts
  import opened Kinematics
  import opened PlanSpec
  import opened PlanRuns
  import opened PlannerRing
  import opened PlannerRefinement
  import opened PlannerQueue

  const MINIMUM_FEED_RATE := 1.0

  function Overridden(rate: real, percent: int): real {
    rate * (0.01 * percent as real)
  }

  /** `plan_compute_profile_nominal_speed`, at override values given in percent. */
  function NominalSpeed(b: PlanBlock, feedOverride: int, rapidOverride: int): (v: real)
    ensures v >= MINIMUM_FEED_RATE
    ensures !b.rapid ==> v <= Max(b.rapidRate, MINIMUM_FEED_RATE)
  {
    var programmed :=
      if b.rapid then Overridden(b.programmedRate, rapidOverride)
      else
        var fed := if b.noFeedOverride then b.programmedRate else Overridden(b.programmedRate, feedOverride);
        if fed > b.rapidRate then b.rapidRate else fed;
    if programmed > MINIMUM_FEED_RATE then programmed else MINIMUM_FEED_RATE
  }

  /** Each override applies to its kind of move, faster for more, and at 100% a block runs as programmed,
      within what its axes allow. */
  lemma OverridesApply(b: PlanBlock, feed: int, feed': int, rapid: int, rapid': int)
    ensures !b.rapid ==> NominalSpeed(b, feed, rapid) == NominalSpeed(b, feed, rapid')
    ensures b.rapid || b.noFeedOverride ==> NominalSpeed(b, feed, rapid) == NominalSpeed(b, feed', rapid)
    ensures b.programmedRate >= 0.0 && feed <= feed' && rapid <= rapid' ==>
            NominalSpeed(b, feed, rapid) <= NominalSpeed(b, feed', rapid')
    ensures NominalSpeed(b, 100, 100) ==
            Max(MINIMUM_FEED_RATE, if b.rapid then b.programmedRate else Min(b.programmedRate, b.rapidRate))
  {
    hide Overridden;
    Faster(b.programmedRate, feed, feed');
    Faster(b.programmedRate, rapid, rapid');
  }

  /** The nominal speed in numbers, at any percentage: that part of the programmed rate, or the bound
      it goes beyond. The rate of a rapid is itself its bound, and an exempt feed has no override. */
  lemma NominalInNumbers(b: PlanBlock, feed: int, rapid: int)
    ensures var v, part, cap, low :=
              NominalSpeed(b, feed, rapid), feed as real * b.programmedRate, 100.0 * b.rapidRate, 100.0;
            !b.rapid && !b.noFeedOverride ==>
              && (low <= part <= cap ==> 100.0 * v == part)
              && (part > cap >= low ==> v == b.rapidRate)
              && (part < low || cap < low ==> v == 1.0)
    ensures var v, part := NominalSpeed(b, feed, rapid), rapid as real * b.programmedRate;
            b.rapid ==> if part >= 100.0 then 100.0 * v == part else v == 1.0
    ensures var v := NominalSpeed(b, feed, rapid);
            !b.rapid && b.noFeedOverride ==>
              && (1.0 <= b.programmedRate <= b.rapidRate ==> v == b.programmedRate)
              && (b.programmedRate > b.rapidRate >= 1.0 ==> v == b.rapidRate)
              && (b.programmedRate < 1.0 || b.rapidRate < 1.0 ==> v == 1.0)
  {
    InPercent(b.programmedRate, feed);
    InPercent(b.programmedRate, rapid);
    hide Overridden;
  }

  lemma InPercent(rate: real, percent: int)
    ensures 100.0 * Overridden(rate, percent) == percent as real * rate
  {
  }

  lemma Faster(rate: real, percent: int, percent': int)
    ensures rate >= 0.0 && percent <= percent' ==> Overridden(rate, percent) <= Overridden(rate, percent')
    ensures Overridden(rate, 100) == rate
  {
    if rate >= 0.0 && percent <= percent' {
      NonnegativeProduct(rate, 0.01 * (percent' - percent) as real);
    }
  }

  /** `plan_compute_profile_parameters`: the junction may not be entered faster than either
      neighbouring block's nominal speed, nor than the corner allows. */
  function MaxEntrySqr(nominal: real, previousNominal: real, maxJunction: real): (v: real)
    ensures v <= maxJunction
    ensures maxJunction >= 0.0 ==> v >= 0.0
    ensures nominal >= 0.0 && previousNominal >= 0.0 ==> v <= Square(nominal) && v <= Square(previousNominal)
    ensures v == maxJunction || v == Square(nominal) || v == Square(previousNominal)
  {
    var v := if nominal > previousNominal then Square(previousNominal) else Square(nominal);
    SquareMonotonic(nominal, previousNominal);
    if v > maxJunction then maxJunction else v
  }

  /** No block of the queue is to be entered or left faster than its own nominal speed. */
  ghost predicate RatesKept(q: seq<PlanBlock>, feedOverride: int, rapidOverride: int) {
    && (forall k :: 0 < k < |q| ==> q[k].maxEntry <= Square(NominalSpeed(q[k], feedOverride, rapidOverride)))
    && (forall k :: 0 < k < |q| ==> q[k].maxEntry <= Square(NominalSpeed(q[k - 1], feedOverride, rapidOverride)))
  }

  ghost predicate AllSlotsPhysical(m: Memory) {
    forall i :: 0 <= i < |m.ring| ==> Physical(JunctionOf(m.ring[i]))
  }

  /** The abstract plan the ring stands for. */
  ghost function PlanOf(m: Memory, tail: nat, head: nat, speed: real, holding: bool): Plan
    requires Ring(m) && tail < BLOCK_BUFFER_SIZE && head < BLOCK_BUFFER_SIZE
  {
    Plan(Seen(m, tail, head, speed), if tail == head then 0 else Ahead(tail, m.planned), holding)
  }

  ghost predicate Consistent(m: Memory, tail: nat, head: nat, speed: real, holding: bool) {
    && Ring(m) && tail < BLOCK_BUFFER_SIZE && head < BLOCK_BUFFER_SIZE
    && AllSlotsPhysical(m)
    && (m.loaded ==> tail != head)
    && (tail != head ==> Ahead(tail, m.planned) < Ahead(tail, head))
    && Sound(PlanOf(m, tail, head, speed, holding))
  }

  lemma {:induction false} RecalculatedPhysical(m: Memory, tail: nat, head: nat, speed: real)
    requires Ring(m) && tail < BLOCK_BUFFER_SIZE && head < BLOCK_BUFFER_SIZE && TailAtEdge(m, tail, head)
    requires AllSlotsPhysical(m)
    ensures AllSlotsPhysical(Recalculated(m, tail, head, speed))
  {
    hide Gain, Recalculated, Reverse, Forward;
    var r, w := Recalculated(m, tail, head, speed), Work(m, tail, head, speed);
    RecalculatedComputes(m, tail, head, speed);
    WorkPhysical(m, tail, head, speed);
    forall i | 0 <= i < BLOCK_BUFFER_SIZE ensures Physical(JunctionOf(r.ring[i])) {
      var j := Ahead(m.planned, i);
      assert RecalculatedAt(m, w, r, j);
      if j < |w| {
        GainIgnoresEntry(w[j], Forward(Junctions(w), j));
        SpeedsNonnegative(Junctions(w), j);
        assert Physical(Junctions(w)[j]);
      }
    }
  }

  lemma WorkPhysical(m: Memory, tail: nat, head: nat, speed: real)
    requires Ring(m) && tail < BLOCK_BUFFER_SIZE && head < BLOCK_BUFFER_SIZE && AllSlotsPhysical(m)
    ensures AllPhysical(Junctions(Work(m, tail, head, speed)))
  {
    var w := Work(m, tail, head, speed);
    GainIgnoresEntry(m.ring[tail], Square(speed));
    SquareMonotonic(speed, speed);
    hide Gain, Square;
    forall i | 0 <= i < |w| ensures Physical(Junctions(w)[i]) {
      assert Physical(JunctionOf(m.ring[Slot(m.planned, i)]));
    }
  }

  /** `plan_buffer_line` as the queue sees it: the block is appended and the plan redone. */
  lemma AppendToRing(m: Memory, tail: nat, head: nat, speed: real, holding: bool, b: PlanBlock)
    requires Consistent(m, tail, head, speed, holding) && Ahead(tail, head) < BLOCK_BUFFER_SIZE - 1
    requires b.entry == 0.0 && Physical(JunctionOf(b)) && (tail == head ==> b.maxEntry == 0.0)
    ensures var r := Recalculated(m.(ring := m.ring[head := b]), tail, NextIndex(head), speed);
            && Consistent(r, tail, NextIndex(head), speed, holding)
            && PlanOf(r, tail, NextIndex(head), speed, holding) ==
               Step(PlanOf(m, tail, head, speed, holding), Append(b.maxEntry, Gain(b)))
  {
    hide Gain, Square, Recalculated, Sound;
    var m', head' := m.(ring := m.ring[head := b]), NextIndex(head);
    var s, e := PlanOf(m, tail, head, speed, holding), Append(b.maxEntry, Gain(b));
    SeenAppend(m, tail, head, speed, b);
    StepKeepsSound(s, e);
    if tail == head {
      FirstBlockHeals(m', tail, head', speed);
      assert TailAtEdge(m', tail, head');
    } else {
      assert Ahead(tail, m'.planned) < Ahead(tail, head');
      WorkIsSuffix(m', tail, head', speed);
      RecalculatedIsReplan(m', tail, head', speed);
      RecalculatedLoaded(m', tail, head', speed);
    }
    RecalculatedPhysical(m', tail, head', speed);
    var r := Recalculated(m', tail, head', speed);
    assert Ahead(tail, r.planned) < Ahead(tail, head');
    assert PlanOf(r, tail, head', speed, holding) == Step(s, e);
    assert Sound(PlanOf(r, tail, head', speed, holding));
  }

  lemma RecalculatedLoaded(m: Memory, tail: nat, head: nat, speed: real)
    requires Ring(m) && tail < BLOCK_BUFFER_SIZE && head < BLOCK_BUFFER_SIZE && TailAtEdge(m, tail, head)
    ensures Recalculated(m, tail, head, speed).loaded ==> m.loaded
  {
    hide Recalculated;
    RecalculatedComputes(m, tail, head, speed);
  }

  /** `plan_discard_current_block`, the stepper module having let go of the block. */
  lemma DiscardFromRing(m: Memory, tail: nat, head: nat, speed: real, holding: bool)
    requires Consistent(m, tail, head, speed, holding) && tail != head
    ensures var r := m.(planned := if m.planned == tail then NextIndex(tail) else m.planned, loaded := false);
            && Consistent(r, NextIndex(tail), head, speed, holding)
            && PlanOf(r, NextIndex(tail), head, speed, holding) == Step(PlanOf(m, tail, head, speed, holding), Discard)
  {
    hide Gain, Square, Sound;
    SeenDiscard(m, tail, head, speed);
    StepKeepsSound(PlanOf(m, tail, head, speed, holding), Discard);
    var r := m.(planned := if m.planned == tail then NextIndex(tail) else m.planned, loaded := false);
    assert Seen(r, NextIndex(tail), head, speed) == Seen(m, tail, head, speed)[1..];
  }

  /** `plan_cycle_reinitialize` of a queue that is not empty. */
  lemma ReinitializeRing(m: Memory, tail: nat, head: nat, speed: real, holding: bool)
    requires Consistent(m, tail, head, speed, holding) && tail != head
    ensures var r := Recalculated(Notify(m, tail, speed).(planned := tail), tail, head, speed);
            && Consistent(r, tail, head, speed, false) && !r.loaded
            && PlanOf(r, tail, head, speed, false) == Step(PlanOf(m, tail, head, speed, holding), Reinitialize)
  {
    var s, m' := PlanOf(m, tail, head, speed, holding), Notify(m, tail, speed).(planned := tail);
    NotifiedSeen(m, tail, head, speed);
    hide Gain, Square, Recalculated, Sound;
    StepKeepsSound(s, Reinitialize);
    WorkIsSuffix(m', tail, head, speed);
    RecalculatedIsReplan(m', tail, head, speed);
    RecalculatedLoaded(m', tail, head, speed);
    RecalculatedPhysical(m', tail, head, speed);
  }

  lemma NotifiedSeen(m: Memory, tail: nat, head: nat, speed: real)
    requires Ring(m) && tail < BLOCK_BUFFER_SIZE && head < BLOCK_BUFFER_SIZE && tail != head && AllSlotsPhysical(m)
    ensures var m' := Notify(m, tail, speed).(planned := tail);
            Seen(m', tail, head, speed) == Seen(m, tail, head, speed) && AllSlotsPhysical(m') && !m'.loaded
  {
    var m' := Notify(m, tail, speed);
    GainIgnoresEntry(m.ring[tail], Square(speed));
    SquareMonotonic(speed, speed);
    hide Gain, Square;
    assert Physical(JunctionOf(m.ring[tail]));
    forall i | 0 <= i < BLOCK_BUFFER_SIZE ensures Physical(JunctionOf(m'.ring[i])) {
      assert Physical(JunctionOf(m.ring[i]));
    }
    forall k | 0 < k < Ahead(tail, head) ensures Slot(tail, k) != tail {
      SlotInjective(tail, k, 0);
    }
  }

  /** `plan_cycle_reinitialize` of an empty queue leaves it empty. */
  lemma ReinitializeEmptyRing(m: Memory, tail: nat, speed: real, holding: bool)
    requires Consistent(m, tail, tail, speed, holding)
    ensures var r := Recalculated(m.(planned := tail), tail, tail, speed);
            Consistent(r, tail, tail, speed, false) && !r.loaded
  {
    hide Gain, Square, Recalculated;
    var m' := m.(planned := tail);
    RecalculatedPhysical(m', tail, tail, speed);
    RecalculatedLoaded(m', tail, tail, speed);
  }

  /** The executing block travels, is taken up by the stepper module, or slowed by a hold. */
  lemma TravelOnRing(m: Memory, tail: nat, head: nat, speed: real, holding: bool, b: PlanBlock, loaded: bool,
                     speed': real)
    requires Consistent(m, tail, head, speed, holding) && tail != head
    requires Physical(JunctionOf(b)) && b.maxEntry == m.ring[tail].maxEntry
    requires var entry := if loaded then Square(speed') else b.entry;
             Allowed(PlanOf(m, tail, head, speed, holding), Travel(entry, Gain(b)))
    ensures var r := m.(ring := m.ring[tail := b], loaded := loaded);
            var entry := if loaded then Square(speed') else b.entry;
            && Consistent(r, tail, head, speed', holding)
            && PlanOf(r, tail, head, speed', holding) ==
               Step(PlanOf(m, tail, head, speed, holding), Travel(entry, Gain(b)))
  {
    hide Gain, Square, Sound;
    SeenTravel(m, tail, head, speed, b, loaded, speed');
    var entry := if loaded then Square(speed') else b.entry;
    StepKeepsSound(PlanOf(m, tail, head, speed, holding), Travel(entry, Gain(b)));
  }

  /** Recalculating changes entry speeds only, so no rate limit of the queue is touched. */
  lemma RatesRecalculated(m: Memory, tail: nat, head: nat, speed: real, feedOverride: int, rapidOverride: int)
    requires Ring(m) && tail < BLOCK_BUFFER_SIZE && head < BLOCK_BUFFER_SIZE && TailAtEdge(m, tail, head)
    requires RatesKept(Queue(m, tail, head), feedOverride, rapidOverride)
    ensures var r := Recalculated(m, tail, head, speed);
            && RatesKept(Queue(r, tail, head), feedOverride, rapidOverride)
            && SameMoves(Queue(r, tail, head), Queue(m, tail, head))
  {
    RecalculatedKeepsMoves(m, tail, head, speed);
    hide Gain, Square, Recalculated;
    var r := Recalculated(m, tail, head, speed);
    var q, q' := Queue(m, tail, head), Queue(r, tail, head);
    forall k | 0 <= k < |q|
      ensures SameMove(q'[k], q[k]) && NominalSpeed(q'[k], feedOverride, rapidOverride) ==
              NominalSpeed(q[k], feedOverride, rapidOverride)
    {
      assert SameMove(r.ring[Slot(tail, k)], m.ring[Slot(tail, k)]);
    }
  }

  lemma RatesAppend(q: seq<PlanBlock>, b: PlanBlock, feedOverride: int, rapidOverride: int)
    requires RatesKept(q, feedOverride, rapidOverride)
    requires |q| > 0 ==> b.maxEntry <= Square(NominalSpeed(b, feedOverride, rapidOverride))
    requires |q| > 0 ==> b.maxEntry <= Square(NominalSpeed(q[|q| - 1], feedOverride, rapidOverride))
    ensures RatesKept(q + [b], feedOverride, rapidOverride)
  {
  }

  /** The same moves, differing at most in planned entry speed. */
  ghost predicate SameMoves(q: seq<PlanBlock>, r: seq<PlanBlock>) {
    |q| == |r| && forall k :: 0 <= k < |q| ==> SameMove(q[k], r[k])
  }

  lemma NotifiedMoves(m: Memory, tail: nat, head: nat, speed: real, feedOverride: int, rapidOverride: int)
    requires Ring(m) && tail < BLOCK_BUFFER_SIZE && head < BLOCK_BUFFER_SIZE
    requires RatesKept(Queue(m, tail, head), feedOverride, rapidOverride)
    ensures var m' := Notify(m, tail, speed).(planned := tail);
            && SameMoves(Queue(m', tail, head), Queue(m, tail, head))
            && RatesKept(Queue(m', tail, head), feedOverride, rapidOverride)
  {
    hide Gain, Square, NominalSpeed;
    var m' := Notify(m, tail, speed).(planned := tail);
    var q, q' := Queue(m, tail, head), Queue(m', tail, head);
    forall k | 0 <= k < |q|
      ensures SameMove(q'[k], q[k]) && NominalSpeed(q'[k], feedOverride, rapidOverride) ==
              NominalSpeed(q[k], feedOverride, rapidOverride)
    {
      SlotInjective(tail, k, 0);
      SameMoveSameNominal(q'[k], q[k], feedOverride, rapidOverride);
    }
  }

  lemma SameMoveSameNominal(b: PlanBlock, c: PlanBlock, feedOverride: int, rapidOverride: int)
    requires SameMove(b, c)
    ensures NominalSpeed(b, feedOverride, rapidOverride) == NominalSpeed(c, feedOverride, rapidOverride)
  {
  }

  lemma SameMovesTransitive(q: seq<PlanBlock>, r: seq<PlanBlock>, s: seq<PlanBlock>)
    requires SameMoves(q, r) && SameMoves(r, s)
    ensures SameMoves(q, s)
  {
    forall k | 0 <= k < |q| ensures SameMove(q[k], s[k]) {
      assert SameMove(q[k], r[k]) && SameMove(r[k], s[k]);
    }
  }

  /** The block behind which the next one will be queued. */
  ghost predicate LastNominal(q: seq<PlanBlock>, v: real, feedOverride: int, rapidOverride: int) {
    q != [] ==> v == NominalSpeed(q[|q| - 1], feedOverride, rapidOverride)
  }

  lemma SameMovesSameRates(q: seq<PlanBlock>, r: seq<PlanBlock>, v: real, feedOverride: int, rapidOverride: int)
    requires SameMoves(q, r)
    ensures LastNominal(r, v, feedOverride, rapidOverride) ==> LastNominal(q, v, feedOverride, rapidOverride)
  {
    if q != [] {
      assert SameMove(q[|q| - 1], r[|q| - 1]);
      SameMoveSameNominal(q[|q| - 1], r[|q| - 1], feedOverride, rapidOverride);
    }
  }

  /** `plan_discard_current_block`, for all that the planner keeps. */
  lemma DiscardPlanner(m: Memory, tail: nat, head: nat, speed: real, holding: bool, feedOverride: int,
                       rapidOverride: int)
    requires Consistent(m, tail, head, speed, holding) && tail != head
    requires RatesKept(Queue(m, tail, head), feedOverride, rapidOverride)
    ensures var r, next := m.(planned := if m.planned == tail then NextIndex(tail) else m.planned, loaded := false),
            NextIndex(tail);
            && Consistent(r, next, head, speed, holding)
            && RatesKept(Queue(r, next, head), feedOverride, rapidOverride)
            && Queue(r, next, head) == Queue(m, tail, head)[1..]
            && PlanOf(r, next, head, speed, holding) == Step(PlanOf(m, tail, head, speed, holding), Discard)
            && (forall v :: LastNominal(Queue(m, tail, head), v, feedOverride, rapidOverride) ==>
                              LastNominal(Queue(r, next, head), v, feedOverride, rapidOverride))
  {
    hide Gain, Square, Sound, Step, Seen, NominalSpeed, PlanOf;
    DiscardFromRing(m, tail, head, speed, holding);
    SeenDiscard(m, tail, head, speed);
    var r := m.(planned := if m.planned == tail then NextIndex(tail) else m.planned, loaded := false);
    assert Queue(r, NextIndex(tail), head) == Queue(m, NextIndex(tail), head);
    hide Queue;
  }

  /** `plan_cycle_reinitialize`, all that it keeps. */
  lemma ReinitializePlanner(m: Memory, tail: nat, head: nat, speed: real, holding: bool, feedOverride: int,
                            rapidOverride: int)
    requires Consistent(m, tail, head, speed, holding)
    requires RatesKept(Queue(m, tail, head), feedOverride, rapidOverride)
    ensures var r := Recalculated(Notify(m, tail, speed).(planned := tail), tail, head, speed);
            && Consistent(r, tail, head, speed, false)
            && RatesKept(Queue(r, tail, head), feedOverride, rapidOverride)
            && SameMoves(Queue(r, tail, head), Queue(m, tail, head))
            && !r.loaded && r.recalculate == (m.recalculate || m.loaded)
            && (tail != head ==>
                  PlanOf(r, tail, head, speed, false) == Step(PlanOf(m, tail, head, speed, holding), Reinitialize))
            && (forall v :: LastNominal(Queue(m, tail, head), v, feedOverride, rapidOverride) ==>
                              LastNominal(Queue(r, tail, head), v, feedOverride, rapidOverride))
  {
    var m' := Notify(m, tail, speed).(planned := tail);
    NotifiedFlags(m, tail, speed);
    hide Gain, Square, Recalculated, Sound, Step, Seen, Notify, NominalSpeed;
    var r := Recalculated(m', tail, head, speed);
    if tail != head {
      ReinitializeRing(m, tail, head, speed, holding);
    } else {
      ReinitializeEmptyRing(m, tail, speed, holding);
    }
    NotifiedMoves(m, tail, head, speed, feedOverride, rapidOverride);
    RatesRecalculated(m', tail, head, speed, feedOverride, rapidOverride);
    var q, q', q'' := Queue(m, tail, head), Queue(m', tail, head), Queue(r, tail, head);
    hide Queue, RatesKept;
    SameMovesTransitive(q'', q', q);
    RecalculatedFlags(m', tail, head, speed);
    forall v | LastNominal(q, v, feedOverride, rapidOverride) ensures LastNominal(q'', v, feedOverride, rapidOverride) {
      SameMovesSameRates(q'', q, v, feedOverride, rapidOverride);
    }
  }

  lemma NotifiedFlags(m: Memory, tail: nat, speed: real)
    requires Ring(m) && tail < BLOCK_BUFFER_SIZE
    ensures var r := Notify(m, tail, speed); !r.loaded && r.recalculate == (m.recalculate || m.loaded)
    ensures !m.loaded ==> Notify(m, tail, speed) == m
  {
  }

  lemma RecalculatedFlags(m: Memory, tail: nat, head: nat, speed: real)
    requires Ring(m) && tail < BLOCK_BUFFER_SIZE && head < BLOCK_BUFFER_SIZE && TailAtEdge(m, tail, head) && !m.loaded
    ensures var r := Recalculated(m, tail, head, speed); !r.loaded && r.recalculate == m.recalculate
  {
    hide Recalculated;
    RecalculatedComputes(m, tail, head, speed);
  }

  /** `plan_buffer_line`, all that it keeps. */
  lemma AppendPlanner(m: Memory, tail: nat, head: nat, speed: real, holding: bool, b: PlanBlock,
                      previous: real, feedOverride: int, rapidOverride: int)
    requires Consistent(m, tail, head, speed, holding) && Ahead(tail, head) < BLOCK_BUFFER_SIZE - 1
    requires RatesKept(Queue(m, tail, head), feedOverride, rapidOverride)
    requires LastNominal(Queue(m, tail, head), previous, feedOverride, rapidOverride)
    requires b.entry == 0.0 && Physical(JunctionOf(b)) && (tail == head ==> b.maxEntry == 0.0)
    requires tail != head ==>
               b.maxEntry <= Square(NominalSpeed(b, feedOverride, rapidOverride)) && b.maxEntry <= Square(previous)
    ensures var r := Recalculated(m.(ring := m.ring[head := b]), tail, NextIndex(head), speed);
            && Consistent(r, tail, NextIndex(head), speed, holding)
            && PlanOf(r, tail, NextIndex(head), speed, holding) ==
               Step(PlanOf(m, tail, head, speed, holding), Append(b.maxEntry, Gain(b)))
            && RatesKept(Queue(r, tail, NextIndex(head)), feedOverride, rapidOverride)
            && SameMoves(Queue(r, tail, NextIndex(head)), Queue(m, tail, head) + [b])
            && LastNominal(Queue(r, tail, NextIndex(head)), NominalSpeed(b, feedOverride, rapidOverride),
                           feedOverride, rapidOverride)
            && r.loaded == (m.loaded && PlanOf(m, tail, head, speed, holding).planned > 0)
            && r.recalculate == (m.recalculate || (m.loaded && !r.loaded))
  {
    hide Gain, Square, Recalculated, Sound, Step, Seen, NominalSpeed;
    var m', head' := m.(ring := m.ring[head := b]), NextIndex(head);
    var q := Queue(m, tail, head);
    AppendToRing(m, tail, head, speed, holding, b);
    SeenAppend(m, tail, head, speed, b);
    RatesAppend(q, b, feedOverride, rapidOverride);
    AppendAtEdge(m, tail, head, speed, holding, b);
    RatesRecalculated(m', tail, head', speed, feedOverride, rapidOverride);
    var r := Recalculated(m', tail, head', speed);
    SameMovesSameRates(Queue(r, tail, head'), q + [b], NominalSpeed(b, feedOverride, rapidOverride), feedOverride,
                       rapidOverride);
    hide Queue, RatesKept, LastNominal, SameMoves;
    AppendNotifies(m, tail, head, speed, holding, b);
  }

  /** Queueing a block takes the executing block back from the stepper module exactly when its
      exit speed may have changed: when nothing behind it is planned for good. */
  lemma AppendNotifies(m: Memory, tail: nat, head: nat, speed: real, holding: bool, b: PlanBlock)
    requires Consistent(m, tail, head, speed, holding) && Ahead(tail, head) < BLOCK_BUFFER_SIZE - 1
    ensures var r := Recalculated(m.(ring := m.ring[head := b]), tail, NextIndex(head), speed);
            && r.loaded == (m.loaded && PlanOf(m, tail, head, speed, holding).planned > 0)
            && r.recalculate == (m.recalculate || (m.loaded && !r.loaded))
  {
    hide Gain, Square, Sound, Recalculated, Work, Junctions, PlannedAt, Seen;
    AppendAtEdge(m, tail, head, speed, holding, b);
    RecalculatedComputes(m.(ring := m.ring[head := b]), tail, NextIndex(head), speed);
  }

  lemma AppendAtEdge(m: Memory, tail: nat, head: nat, speed: real, holding: bool, b: PlanBlock)
    requires Consistent(m, tail, head, speed, holding) && Ahead(tail, head) < BLOCK_BUFFER_SIZE - 1
    ensures TailAtEdge(m.(ring := m.ring[head := b]), tail, NextIndex(head))
  {
  }

  lemma AppendLimits(b: PlanBlock, limit: real, feedOverride: int, rapidOverride: int)
    ensures NominalSpeed(b.(maxEntry := limit), feedOverride, rapidOverride) ==
            NominalSpeed(b, feedOverride, rapidOverride)
    ensures Gain(b.(maxEntry := limit)) == Gain(b)
  {
  }

  /** The stepper module's writes to the executing block, all that they keep. */
  lemma TravelPlanner(m: Memory, tail: nat, head: nat, speed: real, holding: bool, b: PlanBlock, loaded: bool,
                      recalculate: bool, speed': real, feedOverride: int, rapidOverride: int)
    requires Consistent(m, tail, head, speed, holding) && tail != head
    requires RatesKept(Queue(m, tail, head), feedOverride, rapidOverride)
    requires Physical(JunctionOf(b)) && b == m.ring[tail].(entry := b.entry, millimeters := b.millimeters)
    requires var entry := if loaded then Square(speed') else b.entry;
             Allowed(PlanOf(m, tail, head, speed, holding), Travel(entry, Gain(b)))
    ensures var r := m.(ring := m.ring[tail := b], loaded := loaded, recalculate := recalculate);
            var entry := if loaded then Square(speed') else b.entry;
            && Consistent(r, tail, head, speed', holding)
            && PlanOf(r, tail, head, speed', holding) ==
               Step(PlanOf(m, tail, head, speed, holding), Travel(entry, Gain(b)))
            && Queue(r, tail, head) == Queue(m, tail, head)[0 := b]
            && RatesKept(Queue(r, tail, head), feedOverride, rapidOverride)
            && (forall v :: LastNominal(Queue(m, tail, head), v, feedOverride, rapidOverride) ==>
                              LastNominal(Queue(r, tail, head), v, feedOverride, rapidOverride))
  {
    TravelOnRing(m, tail, head, speed, holding, b, loaded, speed');
    hide Gain, Square, Sound, NominalSpeed;
    var r := m.(ring := m.ring[tail := b], loaded := loaded, recalculate := recalculate);
    var r0 := m.(ring := m.ring[tail := b], loaded := loaded);
    assert Seen(r, tail, head, speed') == Seen(r0, tail, head, speed');
    TravelRates(m, r, tail, head, b, feedOverride, rapidOverride);
  }

  lemma TravelRates(m: Memory, r: Memory, tail: nat, head: nat, b: PlanBlock, feedOverride: int, rapidOverride: int)
    requires Ring(m) && Ring(r) && tail < BLOCK_BUFFER_SIZE && head < BLOCK_BUFFER_SIZE && tail != head
    requires r.ring == m.ring[tail := b] && b == m.ring[tail].(entry := b.entry, millimeters := b.millimeters)
    requires RatesKept(Queue(m, tail, head), feedOverride, rapidOverride)
    ensures Queue(r, tail, head) == Queue(m, tail, head)[0 := b]
    ensures RatesKept(Queue(r, tail, head), feedOverride, rapidOverride)
    ensures forall v :: LastNominal(Queue(m, tail, head), v, feedOverride, rapidOverride) ==>
                          LastNominal(Queue(r, tail, head), v, feedOverride, rapidOverride)
  {
    NominalIgnoresDistance(m.ring[tail], b, feedOverride, rapidOverride);
    hide NominalSpeed, Square;
    forall k | 0 < k < Ahead(tail, head) ensures Slot(tail, k) != tail {
      SlotInjective(tail, k, 0);
    }
    assert Queue(r, tail, head) == Queue(m, tail, head)[0 := b];
  }

  lemma NominalIgnoresDistance(b: PlanBlock, c: PlanBlock, feedOverride: int, rapidOverride: int)
    requires c == b.(entry := c.entry, millimeters := c.millimeters)
    ensures NominalSpeed(c, feedOverride, rapidOverride) == NominalSpeed(b, feedOverride, rapidOverride)
  {
  }

  /** A feed hold takes the executing block back from the stepper module. */
  lemma HoldPlanner(m: Memory, tail: nat, head: nat, speed: real, holding: bool, feedOverride: int, rapidOverride: int)
    requires Consistent(m, tail, head, speed, holding)
    requires RatesKept(Queue(m, tail, head), feedOverride, rapidOverride)
    ensures var r := Notify(m, tail, speed);
            && Consistent(r, tail, head, speed, true)
            && PlanOf(r, tail, head, speed, true) == Step(PlanOf(m, tail, head, speed, holding), Hold)
            && RatesKept(Queue(r, tail, head), feedOverride, rapidOverride)
            && SameMoves(Queue(r, tail, head), Queue(m, tail, head))
            && !r.loaded && r.recalculate == (m.recalculate || m.loaded)
            && (forall v :: LastNominal(Queue(m, tail, head), v, feedOverride, rapidOverride) ==>
                              LastNominal(Queue(r, tail, head), v, feedOverride, rapidOverride))
  {
    NotifiedFlags(m, tail, speed);
    StepKeepsSound(PlanOf(m, tail, head, speed, holding), Hold);
    NotifiedMoves(m, tail, head, speed, feedOverride, rapidOverride);
    hide Gain, Square, Sound, NominalSpeed;
    var r := Notify(m, tail, speed);
    var r' := r.(planned := tail);
    assert Queue(r, tail, head) == Queue(r', tail, head);
    if tail != head {
      NotifiedSeen(m, tail, head, speed);
      assert Seen(r, tail, head, speed) == Seen(r', tail, head, speed);
    }
    hide Notify, Queue, Seen, RatesKept, SameMoves;
    forall v | LastNominal(Queue(m, tail, head), v, feedOverride, rapidOverride)
      ensures LastNominal(Queue(r, tail, head), v, feedOverride, rapidOverride)
    {
      SameMovesSameRates(Queue(r, tail, head), Queue(m, tail, head), v, feedOverride, rapidOverride);
    }
  }
}
