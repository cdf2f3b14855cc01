/** What redoing the plan is worth after an override has moved the limits under it
    (`plan_update_velocity_profile_parameters`, then `plan_cycle_reinitialize`). */
module OverrideReplan {
  import opened NutsBolts
  import opened Kinematics
  import opened PlanSpec
  import opened PlannerRing
  import opened PlannerInvariant
  import opened PlannerRefinement
  import opened PlannerQueue

  /** The queued moves with the entry limits that belong to new overrides. */
  function Relimited(q: seq<PlanBlock>, feedOverride: int, rapidOverride: int): (r: seq<PlanBlock>)
    ensures |r| == |q|
  {
    seq(|q|, i requires 0 <= i < |q| => q[i].(maxEntry := LimitOf(q, i, feedOverride, rapidOverride)))
  }

  function LimitOf(q: seq<PlanBlock>, i: nat, feedOverride: int, rapidOverride: int): real
    requires i < |q|
  {
    MaxEntrySqr(NominalSpeed(q[i], feedOverride, rapidOverride), NominalBefore(q, i, feedOverride, rapidOverride),
                q[i].maxJunction)
  }

  /** The nominal speed of the move before; nothing limits the first. */
  function NominalBefore(q: seq<PlanBlock>, i: nat, feedOverride: int, rapidOverride: int): real
    requires i <= |q|
  {
    if i == 0 then SOME_LARGE_VALUE else NominalSpeed(q[i - 1], feedOverride, rapidOverride)
  }

  /** The rate limits of the queue hold for the new overrides. */
  lemma RelimitedRates(q: seq<PlanBlock>, feedOverride: int, rapidOverride: int)
    ensures RatesKept(Relimited(q, feedOverride, rapidOverride), feedOverride, rapidOverride)
  {
    hide NominalSpeed, LimitOf, Square;
    var r := Relimited(q, feedOverride, rapidOverride);
    forall k | 0 < k < |q|
      ensures r[k].maxEntry <= Square(NominalSpeed(r[k], feedOverride, rapidOverride))
      ensures r[k].maxEntry <= Square(NominalSpeed(r[k - 1], feedOverride, rapidOverride))
    {
      LimitIgnored(q[k], r[k].maxEntry, feedOverride, rapidOverride);
      LimitIgnored(q[k - 1], r[k - 1].maxEntry, feedOverride, rapidOverride);
      LimitKept(q, k, feedOverride, rapidOverride);
    }
  }

  lemma LimitIgnored(b: PlanBlock, limit: real, feedOverride: int, rapidOverride: int)
    ensures NominalSpeed(b.(maxEntry := limit), feedOverride, rapidOverride) ==
            NominalSpeed(b, feedOverride, rapidOverride)
  {
  }

  lemma LimitKept(q: seq<PlanBlock>, k: nat, feedOverride: int, rapidOverride: int)
    requires 0 < k < |q|
    ensures LimitOf(q, k, feedOverride, rapidOverride) <= Square(NominalSpeed(q[k], feedOverride, rapidOverride))
    ensures LimitOf(q, k, feedOverride, rapidOverride) <= Square(NominalSpeed(q[k - 1], feedOverride, rapidOverride))
  {
    hide NominalSpeed, Square, MaxEntrySqr;
  }

  /** The first `k` of them done. */
  function RelimitedTo(q: seq<PlanBlock>, feedOverride: int, rapidOverride: int, k: nat): (r: seq<PlanBlock>)
    requires k <= |q|
    ensures |r| == |q|
  {
    Relimited(q, feedOverride, rapidOverride)[..k] + q[k..]
  }

  lemma RelimitedNext(q: seq<PlanBlock>, feedOverride: int, rapidOverride: int, k: nat)
    requires k < |q|
    ensures var r := RelimitedTo(q, feedOverride, rapidOverride, k);
            && r[k] == q[k]
            && r[k := q[k].(maxEntry := LimitOf(q, k, feedOverride, rapidOverride))] ==
               RelimitedTo(q, feedOverride, rapidOverride, k + 1)
  {
    hide LimitOf;
  }

  /** A block of the queue written in its slot. */
  lemma SlotWritten(m: Memory, tail: nat, head: nat, k: nat, b: PlanBlock)
    requires Ring(m) && tail < BLOCK_BUFFER_SIZE && head < BLOCK_BUFFER_SIZE && k < Ahead(tail, head)
    ensures m.ring[Slot(tail, k)] == Queue(m, tail, head)[k] && Slot(tail, k) != head
    ensures NextIndex(Slot(tail, k)) == Slot(tail, k + 1)
    ensures Ring(m.(ring := m.ring[Slot(tail, k) := b]))
    ensures Queue(m.(ring := m.ring[Slot(tail, k) := b]), tail, head) == Queue(m, tail, head)[k := b]
    ensures Ahead(tail, Slot(tail, k)) == k
  {
  }

  lemma AtStart(q: seq<PlanBlock>, feedOverride: int, rapidOverride: int)
    ensures RelimitedTo(q, feedOverride, rapidOverride, 0) == q
    ensures forall tail: nat :: tail < BLOCK_BUFFER_SIZE ==> Slot(tail, 0) == tail
  {
  }

  lemma NotAtHead(tail: nat, head: nat, k: nat)
    requires tail < BLOCK_BUFFER_SIZE && head < BLOCK_BUFFER_SIZE && k <= Ahead(tail, head) && Slot(tail, k) != head
    ensures k < Ahead(tail, head)
  {
  }

  lemma AtHead(q: seq<PlanBlock>, tail: nat, head: nat, k: nat, feedOverride: int, rapidOverride: int)
    requires tail < BLOCK_BUFFER_SIZE && head < BLOCK_BUFFER_SIZE && |q| == Ahead(tail, head) && k <= |q|
    requires Slot(tail, k) == head
    ensures k == |q| && RelimitedTo(q, feedOverride, rapidOverride, k) == Relimited(q, feedOverride, rapidOverride)
  {
  }

  // ---------------------------------------------------------------------------
  // Both passes over entry speeds that the limits may have left behind
  // ---------------------------------------------------------------------------

  lemma ReverseRange(w: seq<Junction>, k: nat)
    requires 0 < k < |w| && AllPhysical(w)
    ensures 0.0 <= Reverse(w, k) <= w[k].limit
    ensures k + 1 == |w| ==> Reverse(w, k) <= w[k].gain
    ensures k + 1 < |w| && w[k].entry != w[k].limit ==> Reverse(w, k) <= Reverse(w, k + 1) + w[k].gain
    decreases |w| - k
  {
    assert Physical(w[k]);
    if k + 1 < |w| {
      ReverseRange(w, k + 1);
    }
  }

  lemma {:induction false} ForwardBelow(w: seq<Junction>, k: nat)
    requires k < |w| && AllPhysical(w)
    ensures 0.0 <= Forward(w, k)
    ensures k > 0 ==> Forward(w, k) <= Reverse(w, k)
    ensures k > 0 && Forward(w, k) != Reverse(w, k) ==> Forward(w, k) == Forward(w, k - 1) + w[k - 1].gain
  {
    assert Physical(w[k]);
    if k > 0 {
      ForwardBelow(w, k - 1);
      ReverseRange(w, k);
      assert Physical(w[k - 1]);
    }
  }

  /** A block that the reverse pass skips, because it is at its limit, is not reached faster than
      it can brake to the next; and the first block is not too fast already. */
  predicate CanBrake(w: seq<Junction>, k: nat)
    requires k + 1 < |w|
  {
    k == 0 || w[k].entry == w[k].limit ==> Forward(w, k) <= Reverse(w, k + 1) + w[k].gain
  }

  lemma StopsIff(w: seq<Junction>, k: nat)
    requires k + 1 < |w| && AllPhysical(w)
    ensures Forward(w, k) <= Forward(w, k + 1) + w[k].gain <==> CanBrake(w, k)
  {
    ForwardBelow(w, k);
    ForwardBelow(w, k + 1);
    ReverseRange(w, k + 1);
    assert Physical(w[k]);
    if k > 0 {
      ReverseRange(w, k);
    }
  }

  /** THE PLAN REDONE IS STOPPABLE, whatever entry speeds it started from, exactly if every skipped block
      can brake from the speed at which it is reached, and the first from the speed it has. */
  lemma StoppableIff(q: seq<Junction>)
    requires q != [] && AllPhysical(q)
    ensures Stoppable(Replan(q, 0), 0) <==>
            (|q| == 1 ==> q[0].entry <= q[0].gain) && forall k :: 0 <= k && k + 1 < |q| ==> CanBrake(q, k)
  {
    var r := Replan(q, 0);
    assert q[0..] == q;
    forall i | 0 <= i < |q|
      ensures r[i].entry == Forward(q, i) && r[i].limit == q[i].limit && r[i].gain == q[i].gain
      ensures Physical(r[i]) && (i > 0 ==> r[i].entry <= r[i].limit)
    {
      assert Physical(q[i]);
      ForwardBelow(q, i);
      if i > 0 {
        ReverseRange(q, i);
      }
    }
    hide Forward, Reverse, CanBrake;
    forall k | 0 <= k && k + 1 < |q|
      ensures r[k].entry <= ExitSqr(r, k) + r[k].gain <==> CanBrake(q, k)
    {
      StopsIff(q, k);
    }
    var last := |q| - 1;
    if last > 0 {
      ForwardBelow(q, last);
      ReverseRange(q, last);
    }
  }

  // ---------------------------------------------------------------------------
  // A queue that is left unable to brake
  // ---------------------------------------------------------------------------

  function Block(rapid: bool, entry: real, maxEntry: real, millimeters: real, rate: real): PlanBlock {
    PlanBlock([1, 0, 0], 1, [false, false, false], rapid, false, entry, maxEntry, 3000.0, millimeters, 150.0, 18000.0,
              rate)
  }

  /** A feed move from rest, a short one, and a rapid one. */
  const BEFORE :=
    [Block(false, 0.0, 0.0, 1.0, 30.0), Block(false, 150.0, 150.0, 1.0 / 600.0, 30.0),
     Block(true, 150.0, 150.0, 1.0, 20.0)]

  const PLANNED := [Junction(0.0, 0.0, 6000.0), Junction(150.0, 150.0, 10.0), Junction(150.0, 150.0, 6000.0)]

  const RELIMITED := [Junction(0.0, 150.0, 6000.0), Junction(150.0, 150.0, 10.0), Junction(150.0, 100.0, 6000.0)]

  lemma Speeds()
    ensures NominalSpeed(BEFORE[0], 100, 100) == 30.0 && NominalSpeed(BEFORE[1], 100, 100) == 30.0
    ensures NominalSpeed(BEFORE[2], 100, 100) == 20.0
    ensures NominalSpeed(BEFORE[0], 100, 50) == 30.0 && NominalSpeed(BEFORE[1], 100, 50) == 30.0
    ensures NominalSpeed(BEFORE[2], 100, 50) == 10.0
    ensures Square(30.0) == 900.0 && Square(20.0) == 400.0 && Square(10.0) == 100.0
  {
  }

  lemma Gains()
    ensures Gained(3000.0, 1.0) == 6000.0 && Gained(3000.0, 1.0 / 600.0) == 10.0
  {
  }

  lemma BeforeAndAfter()
    ensures RatesKept(BEFORE, 100, 100) && Junctions(BEFORE) == PLANNED
    ensures Junctions(Relimited(BEFORE, 100, 50)) == RELIMITED
  {
    Speeds();
    Gains();
    hide NominalSpeed, Square, Gained;
    var r := Relimited(BEFORE, 100, 50);
    assert r[0].maxEntry == 150.0 && r[1].maxEntry == 150.0 && r[2].maxEntry == 100.0;
    assert Junctions(r)[0] == RELIMITED[0] && Junctions(r)[1] == RELIMITED[1] && Junctions(r)[2] == RELIMITED[2];
  }

  lemma Skipped()
    ensures !Stoppable(Replan(RELIMITED, 0), 0)
  {
    var w := RELIMITED;
    assert Reverse(w, 2) == 100.0 && Reverse(w, 1) == 150.0 && Forward(w, 0) == 0.0 && !Clipped(w, 1);
    assert !CanBrake(w, 1);
    hide CanBrake, Reverse, Forward, Clipped, Replan, Stoppable;
    StoppableIff(w);
  }

  /** OVERRIDE SKIPS: the queue is planned as it should be; then the rapid override goes to 50%. The limit
      of the rapid move falls, the short move before it is at its own limit and is skipped, and after the
      plan is redone cannot brake to the new speed, although a plan exists in which it can. */
  lemma OverrideSkips()
    ensures Feasible(Junctions(BEFORE)) && RatesKept(BEFORE, 100, 100)
    ensures var q := Junctions(Relimited(BEFORE, 100, 50));
            !Stoppable(Replan(q, 0), 0) && Admissible(q, [0.0, 110.0, 100.0])
  {
    hide Relimited, Junctions, RatesKept, Replan;
    BeforeAndAfter();
    Skipped();
  }
}
