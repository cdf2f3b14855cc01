/** How many whole steps a segment holds, and at what rate they are executed. */
module StepCount {
  import opened NutsBolts
  import opened Kinematics
  import opened StepModel
  import opened SegmentRing
  import opened SegmentBuilder

  const TICKS_PER_MINUTE := 16.0 * 1000000.0 * 60.0
  const AMASS_LEVEL1 := 2000
  const AMASS_LEVEL2 := 4000
  const AMASS_LEVEL3 := 8000

  function Ceil(x: real): int {
    -((-x).Floor)
  }

  /** The step figures of a block `mm` from its end: whole steps not yet cut into segments, the
      conversion from distance, and the distance that is sure to hold a step. */
  ghost predicate InSteps(mm: real, stepsRemaining: real, stepPerMm: real, reqMmIncrement: real, remaining: nat) {
    && stepPerMm > 0.0 && reqMmIncrement > 0.0 && Times(stepPerMm, reqMmIncrement) == REQ_MM_INCREMENT_SCALAR
    && remaining == Ceil(Times(stepPerMm, mm)) && stepsRemaining == remaining as real
  }

  lemma CeilFacts(x: real)
    ensures x <= Ceil(x) as real < x + 1.0
  {
  }

  lemma CeilWhole(n: int)
    ensures Ceil(n as real) == n
  {
  }

  /** The conversion of a new block's whole length gives its step event count. */
  lemma NewBlockInSteps(events: nat, mm: real)
    requires events > 0 && mm > 0.0
    ensures var stepPerMm := events as real / mm;
            InSteps(mm, events as real, stepPerMm, REQ_MM_INCREMENT_SCALAR / stepPerMm, events)
  {
    var n := events as real;
    var k := n / mm;
    assert Times(k, mm) == n;
    DivisionPositive(n, mm);
    DivisionPositive(REQ_MM_INCREMENT_SCALAR, k);
    assert Times(k, REQ_MM_INCREMENT_SCALAR / k) == REQ_MM_INCREMENT_SCALAR;
    CeilWhole(events);
  }

  lemma DivisionPositive(x: real, y: real)
    requires x > 0.0 && y > 0.0
    ensures x / y > 0.0
  {
  }

  lemma TimesMonotonic(k: real, x: real, y: real)
    requires k > 0.0
    ensures x <= y ==> Times(k, x) <= Times(k, y)
    ensures x < y ==> Times(k, x) < Times(k, y)
    ensures Times(k, 0.0) == 0.0
    ensures Times(k, x) - Times(k, y) == Times(k, x - y)
  {
    if x < y {
      Product(k, y - x);
    }
  }

  /** NO SEGMENT WITHOUT A STEP: one that ends its block, or has come at least the required
      distance, holds a step; and none holds more than the block has left. */
  lemma SegmentHasStep(stepPerMm: real, reqMmIncrement: real, mm0: real, mm: real)
    requires stepPerMm > 0.0 && Times(stepPerMm, reqMmIncrement) == REQ_MM_INCREMENT_SCALAR
    requires 0.0 <= mm <= mm0
    ensures 0 <= Ceil(Times(stepPerMm, mm)) <= Ceil(Times(stepPerMm, mm0))
    ensures mm0 > 0.0 && (mm == 0.0 || mm <= mm0 - reqMmIncrement) ==>
            Ceil(Times(stepPerMm, mm)) < Ceil(Times(stepPerMm, mm0))
    ensures mm == 0.0 ==> Ceil(Times(stepPerMm, mm)) == 0
    ensures mm > 0.0 ==> Ceil(Times(stepPerMm, mm)) > 0
  {
    TimesMonotonic(stepPerMm, mm, mm0);
    TimesMonotonic(stepPerMm, 0.0, mm);
    TimesMonotonic(stepPerMm, 0.0, mm0);
    TimesMonotonic(stepPerMm, mm0, reqMmIncrement);
    TimesMonotonic(stepPerMm, mm, mm0 - reqMmIncrement);
    hide Times;
    CeilFacts(Times(stepPerMm, mm));
    CeilFacts(Times(stepPerMm, mm0));
  }

  const SLOWEST := 0xffff

  /** The smoothing level for a step rate, given as CPU cycles per step, and the cycles per tick of the
      interrupt at that level: the lowest level that drives the interrupt at 8 kHz or more, or else the
      highest there is; never beyond 16 kHz for the sake of smoothing; and as many ticks as make a step
      take as long as they should, to within a tick, unless that is too slow for the timer. */
  method SmoothingLevel(cycles: nat) returns (level: nat, cyclesPerTick: nat)
    ensures level <= MAX_AMASS_LEVEL && cyclesPerTick <= SLOWEST
    ensures level < MAX_AMASS_LEVEL ==> cyclesPerTick < AMASS_LEVEL1
    ensures level > 0 ==> cyclesPerTick >= AMASS_LEVEL1 / 2 && AMASS_LEVEL1 * ShiftLeft(1, level - 1) <= cycles
    ensures cyclesPerTick < SLOWEST ==>
              cycles - ShiftLeft(1, level) < ShiftLeft(cyclesPerTick, level) <= cycles
    ensures cyclesPerTick == SLOWEST ==> ShiftLeft(SLOWEST, level) <= cycles
  {
    if cycles < AMASS_LEVEL1 {
      level := 0;
    } else if cycles < AMASS_LEVEL2 {
      level := 1;
    } else if cycles < AMASS_LEVEL3 {
      level := 2;
    } else {
      level := 3;
    }
    cyclesPerTick := ShiftRight(cycles, level);
    if cyclesPerTick >= 0x1_0000 {
      cyclesPerTick := SLOWEST;
    }
  }

  /** The time of one step, corrected for the part of a step the previous segment left over. */
  method StepRate(dt: real, dtRemainder: real, lastSteps: int, stepsLeft: int, stepDistRemaining: real)
    returns (invRate: real, cycles: int, nextRemainder: real)
    requires dt > 0.0 && dtRemainder >= 0.0 && lastSteps > stepsLeft && stepsLeft == Ceil(stepDistRemaining)
    ensures InverseRate(invRate, dt + dtRemainder, lastSteps as real - stepDistRemaining)
    ensures cycles > 0 && cycles as real - 1.0 < Times(TICKS_PER_MINUTE, invRate) <= cycles as real
    ensures nextRemainder >= 0.0 && nextRemainder == Times(stepsLeft as real - stepDistRemaining, invRate)
    ensures Times(invRate, (lastSteps - stepsLeft) as real) == dt + dtRemainder - nextRemainder
    ensures stepDistRemaining == 0.0 ==> nextRemainder == 0.0
  {
    CeilFacts(stepDistRemaining);
    invRate := (dt + dtRemainder) / (lastSteps as real - stepDistRemaining);
    RateOf(dt + dtRemainder, lastSteps as real - stepDistRemaining);
    hide Ceil, Times, InverseRate;
    cycles := Ceil(Times(TICKS_PER_MINUTE, invRate));
    CeilFacts(Times(TICKS_PER_MINUTE, invRate));
    TimesMonotonic(TICKS_PER_MINUTE, 0.0, invRate);
    nextRemainder := Times(stepsLeft as real - stepDistRemaining, invRate);
    TimesNonnegative(stepsLeft as real - stepDistRemaining, invRate);
    WholeSteps(invRate, dt + dtRemainder, lastSteps as real, stepsLeft as real, stepDistRemaining);
    if stepDistRemaining == 0.0 {
      CeilWhole(0);
      TimesMonotonic(invRate, 0.0, 0.0);
      TimesCommute(0.0, invRate);
    }
  }

  /** The whole steps alone take the time that is not left over for the part of a step. */
  lemma WholeSteps(invRate: real, t: real, last: real, left: real, exact: real)
    requires InverseRate(invRate, t, last - exact)
    ensures Times(invRate, last - left) == t - Times(left - exact, invRate)
  {
  }

  lemma TimesCommute(x: real, y: real)
    ensures Times(x, y) == Times(y, x)
  {
  }

  /** THE PACE OF A SEGMENT: its ticks take the time `t` in CPU cycles, to less than a cycle more for
      every step event and less than a cycle less for every tick; the interrupt is driven at 8 to 16 kHz
      wherever a smoothing level can do that. A step event that should take more than eight ticks of the
      slowest timer rate, and only such a one, gets just these. */
  ghost predicate Paced(events: nat, level: nat, cyclesPerTick: nat, t: real) {
    && level <= MAX_AMASS_LEVEL && cyclesPerTick <= SLOWEST
    && (level < MAX_AMASS_LEVEL ==> cyclesPerTick < AMASS_LEVEL1)
    && (level > 0 ==> cyclesPerTick >= AMASS_LEVEL1 / 2)
    && (ShiftLeft(events, level) * cyclesPerTick) as real < Times(TICKS_PER_MINUTE, t) + events as real
    && (cyclesPerTick < SLOWEST ==>
          (ShiftLeft(events, level) * cyclesPerTick) as real >
          Times(TICKS_PER_MINUTE, t) - ShiftLeft(events, level) as real)
    && (cyclesPerTick == SLOWEST <==>
        Times(TICKS_PER_MINUTE, t) > (events * (ShiftLeft(SLOWEST, MAX_AMASS_LEVEL) - 1)) as real)
  }

  lemma PaceOf(invRate: real, cycles: nat, level: nat, cyclesPerTick: nat, events: nat, t: real)
    requires events > 0 && Times(invRate, events as real) == t
    requires cycles as real - 1.0 < Times(TICKS_PER_MINUTE, invRate) <= cycles as real
    requires level <= MAX_AMASS_LEVEL && cyclesPerTick <= SLOWEST
    requires level < MAX_AMASS_LEVEL ==> cyclesPerTick < AMASS_LEVEL1
    requires level > 0 ==> cyclesPerTick >= AMASS_LEVEL1 / 2
    requires cyclesPerTick < SLOWEST ==> cycles - ShiftLeft(1, level) < ShiftLeft(cyclesPerTick, level) <= cycles
    requires cyclesPerTick == SLOWEST ==> ShiftLeft(SLOWEST, level) <= cycles
    ensures Paced(events, level, cyclesPerTick, t)
  {
    var x, e, k := Times(TICKS_PER_MINUTE, invRate), events as real, ShiftLeft(SLOWEST, MAX_AMASS_LEVEL);
    var shifted, tick := ShiftLeft(cyclesPerTick, level), ShiftLeft(1, level);
    TimesAssociate(TICKS_PER_MINUTE, invRate, e);
    TimesCommute(x, e);
    ShiftsOut(events, level, cyclesPerTick);
    SlowestIff(cycles, level, cyclesPerTick);
    hide ShiftLeft, Times;
    RoundedUp(events, x, cycles, shifted, tick, k);
  }

  /** On an axis with 80 steps to the millimetre, a step at 10 mm/min should take 1.2 million cycles, but
      gets eight ticks of the slowest rate: 524280. */
  lemma SlowFeed(level: nat, cyclesPerTick: nat)
    requires Paced(1, level, cyclesPerTick, 1.0 / 800.0)
    ensures Times(TICKS_PER_MINUTE, 1.0 / 800.0) == 1200000.0
    ensures level == MAX_AMASS_LEVEL && cyclesPerTick == SLOWEST && ShiftLeft(1, level) * cyclesPerTick == 524280
  {
  }

  /** Step events each rounded up to whole cycles. */
  lemma RoundedUp(events: nat, x: real, cycles: nat, shifted: nat, tick: nat, k: nat)
    requires events > 0 && cycles as real - 1.0 < x <= cycles as real
    ensures shifted <= cycles ==> (events * shifted) as real < Times(events as real, x) + events as real
    ensures cycles - tick < shifted ==>
              (events * shifted) as real > Times(events as real, x) - (events * tick) as real
    ensures cycles >= k <==> Times(events as real, x) > (events * (k - 1)) as real
  {
    var e := events as real;
    WholeProducts(events, shifted, x + 1.0);
    WholeProducts(events, shifted + tick, x);
    WholeProducts(events, k - 1, x);
    TimesMonotonic(e, x + 1.0, x);
    OnceTimes(e);
    hide Times;
    assert events * (shifted + tick) == events * shifted + events * tick;
  }

  lemma SlowestIff(cycles: nat, level: nat, cyclesPerTick: nat)
    requires level <= MAX_AMASS_LEVEL && cyclesPerTick <= SLOWEST
    requires level < MAX_AMASS_LEVEL ==> cyclesPerTick < AMASS_LEVEL1
    requires cyclesPerTick < SLOWEST ==> cycles - ShiftLeft(1, level) < ShiftLeft(cyclesPerTick, level) <= cycles
    requires cyclesPerTick == SLOWEST ==> ShiftLeft(SLOWEST, level) <= cycles
    ensures cyclesPerTick == SLOWEST <==> cycles >= ShiftLeft(SLOWEST, MAX_AMASS_LEVEL)
    ensures ShiftLeft(cyclesPerTick, level) <= cycles
  {
  }

  lemma OnceTimes(x: real)
    ensures Times(x, 1.0) == x
  {
  }

  lemma TimesAssociate(x: real, y: real, z: real)
    ensures Times(Times(x, y), z) == Times(x, Times(y, z))
  {
  }

  /** Multiples of a whole number compare as the numbers do. */
  lemma WholeProducts(n: nat, m: int, x: real)
    requires n > 0
    ensures (n * m) as real < Times(n as real, x) <==> m as real < x
    ensures (n * m) as real > Times(n as real, x) <==> m as real > x
  {
    TimesMonotonic(n as real, m as real, x);
    TimesMonotonic(n as real, x, m as real);
    WholeProduct(n, m);
  }

  lemma WholeProduct(n: nat, m: int)
    ensures (n * m) as real == Times(n as real, m as real)
  {
  }

  lemma ShiftsOut(events: nat, level: nat, n: nat)
    requires level <= MAX_AMASS_LEVEL
    ensures ShiftLeft(events, level) * n == events * ShiftLeft(n, level)
    ensures ShiftLeft(events, level) == events * ShiftLeft(1, level)
  {
  }

  lemma TimesNonnegative(x: real, y: real)
    requires x >= 0.0 && y >= 0.0
    ensures Times(x, y) >= 0.0
  {
  }

  lemma RateOf(t: real, x: real)
    requires t > 0.0 && x > 0.0
    ensures InverseRate(t / x, t, x) && t / x > 0.0
  {
    DivisionPositive(t, x);
  }

  /** At `invRate` per step, `x` steps take the time `t`. */
  ghost predicate InverseRate(invRate: real, t: real, x: real) {
    invRate > 0.0 && Times(invRate, x) == t
  }
}
