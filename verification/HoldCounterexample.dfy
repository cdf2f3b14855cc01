/** A run in which a feed hold slows the block before a junction, and the next block is then
    entered faster than that one was left. */
module HoldCounterexample {
  import opened NutsBolts
  import opened Kinematics
  import opened PlanSpec
  import opened PlanRuns
  import opened PlannerRing
  import opened PlannerInvariant
  import opened VelocityProfile
  import opened SegmentBuilder
  import opened StepCount
  import opened Stepping
  import SM = StepModel
  import ST = StepTheorems

  /** A move along the first axis at 14 mm/min, with an acceleration of 3000 mm/min^2 and 80 steps
      to the millimetre: the RAMPS defaults. */
  function Along(steps: nat, entry: real, maxEntry: real): PlanBlock {
    PlanBlock([steps, 0, 0], steps, [false, false, false], false, false, entry, maxEntry, 3000.0,
              steps as real / 80.0, maxEntry, 18000.0, 14.0)
  }

  /** A millimetre is executed to its end, a single step and another millimetre are to be run
      through at full speed; then comes the hold. */
  const EVENTS := [Append(0.0, 6000.0), Append(196.0, 75.0), Append(196.0, 6000.0), Travel(196.0, 0.0), Discard, Hold]

  const HELD := Plan([Junction(196.0, 196.0, 75.0), Junction(196.0, 196.0, 6000.0)], 1, true)

  const PLAN1 := Plan([Junction(0.0, 0.0, 6000.0)], 0, false)
  const PLAN2 := Plan([Junction(0.0, 0.0, 6000.0), Junction(75.0, 196.0, 75.0)], 0, false)
  const PLAN3 :=
    Plan([Junction(0.0, 0.0, 6000.0), Junction(196.0, 196.0, 75.0), Junction(196.0, 196.0, 6000.0)], 2, false)
  const PLAN4 :=
    Plan([Junction(196.0, 0.0, 0.0), Junction(196.0, 196.0, 75.0), Junction(196.0, 196.0, 6000.0)], 2, false)

  lemma TwoPlanned()
    ensures Step(PLAN1, Append(196.0, 75.0)) == PLAN2
  {
    var w := [Junction(0.0, 0.0, 6000.0), Junction(0.0, 196.0, 75.0)];
    assert w[0..] == w;
    assert Reverse(w, 1) == 75.0 && Forward(w, 0) == 0.0 && !Clipped(w, 1) && Forward(w, 1) == 75.0;
    assert Replan(w, 0) == [w[0], Junction(75.0, 196.0, 75.0)];
    assert PlannedAt(w, 1) == 0;
  }

  lemma ThreePlanned()
    ensures Step(PLAN2, Append(196.0, 6000.0)) == PLAN3
  {
    var w := [Junction(0.0, 0.0, 6000.0), Junction(75.0, 196.0, 75.0), Junction(0.0, 196.0, 6000.0)];
    assert w[0..] == w;
    assert Reverse(w, 2) == 196.0;
    assert Reverse(w, 1) == 196.0 && Forward(w, 0) == 0.0 && !Clipped(w, 1);
    assert Forward(w, 1) == 196.0 && !Clipped(w, 2) && Forward(w, 2) == 196.0;
    assert Replan(w, 0) == [w[0], Junction(196.0, 196.0, 75.0), Junction(196.0, 196.0, 6000.0)];
    assert PlannedAt(w, 2) == 2;
  }

  lemma FirstDone()
    ensures Allowed(PLAN3, EVENTS[3]) && Step(PLAN3, EVENTS[3]) == PLAN4
    ensures Step(PLAN4, Discard) == HELD.(holding := false)
  {
  }

  /** One event more at the start of the run. */
  lemma EventBefore(s: Plan, k: nat, s': Plan)
    requires k < |EVENTS| && Allowed(s, EVENTS[k]) && (s.q != [] ==> s.planned < |s.q|) && Step(s, EVENTS[k]) == s'
    requires RunsTo(s', EVENTS[k + 1..], HELD)
    ensures RunsTo(s, EVENTS[k..], HELD)
  {
    hide Step;
    assert EVENTS[k..][1..] == EVENTS[k + 1..];
  }

  lemma HeldByRun()
    ensures RunsTo(Plan([], 0, false), EVENTS, HELD)
  {
    TwoPlanned();
    ThreePlanned();
    FirstDone();
    assert EVENTS[6..] == [] && RunsTo(HELD, [], HELD);
    EventBefore(HELD.(holding := false), 5, HELD);
    hide Step, RunsTo;
    EventBefore(PLAN4, 4, HELD.(holding := false));
    EventBefore(PLAN3, 3, PLAN4);
    EventBefore(PLAN2, 2, PLAN3);
    EventBefore(PLAN1, 1, PLAN2);
    FirstQueued();
    EventBefore(Plan([], 0, false), 0, PLAN1);
    assert EVENTS[0..] == EVENTS;
  }

  lemma FirstQueued()
    ensures Step(Plan([], 0, false), Append(0.0, 6000.0)) == PLAN1
  {
  }

  const LONG := SM.Move(SM.Axes(80, 0, 0), 80, SM.Axes(false, false, false))
  const SHORT := SM.Move(SM.Axes(1, 0, 0), 1, SM.Axes(false, false, false))

  /** The same for the driver: all steps of the first block are in a segment, and the single
      step has been taken up. */
  const HANDED := [SM.Plan(LONG), SM.Plan(SHORT), SM.Plan(LONG), SM.Load, SM.Push(80, 0, 1000), SM.Load]

  const DRIVING :=
    SM.Model(SM.Flow([SM.Work(1, LONG, 80, 0, 1000)], false, 0, 0, SM.NoMove, 0, 2, 1, [LONG, SHORT]),
             SM.Axes(0, 0, 0), SM.Axes(0, 0, 0), SM.Axes(0, 0, 0), [LONG], SM.Axes(161, 0, 0))

  const M0 := SM.Start(SM.Axes(0, 0, 0))
  const M3 := Waiting([LONG, SHORT, LONG], 161)
  const M4 := M3.(pending := [SHORT, LONG], flow := M0.flow.(waiting := [LONG], prepId := 1, remaining := 80))
  const M5 := M4.(flow := M4.flow.(queue := [SM.Work(1, LONG, 80, 0, 1000)], remaining := 0))

  /** Moves along the first axis have been planned as far as `x`. */
  function Waiting(pending: seq<SM.Move>, x: int): SM.Model {
    M0.(pending := pending, target := SM.Axes(x, 0, 0))
  }

  lemma MovePlanned(pending: seq<SM.Move>, x: int, move: SM.Move)
    requires SM.Runnable(move) && SM.Displacement(move) == SM.Axes(move.events, 0, 0)
    ensures SM.Step(Waiting(pending, x), SM.Plan(move)) == Waiting(pending + [move], x + move.events)
  {
  }

  lemma FirstHanded()
    ensures SM.Step(M3, SM.Load) == M4 && SM.Step(M4, SM.Push(80, 0, 1000)) == M5 && SM.Step(M5, SM.Load) == DRIVING
  {
    assert [LONG, SHORT, LONG][1..] == [SHORT, LONG] && [SHORT, LONG][1..] == [LONG];
  }

  /** One step more at the start of the run. */
  lemma StepBefore(m: SM.Model, k: nat, m': SM.Model)
    requires k < |HANDED| && SM.Allowed(m, HANDED[k]) && SM.Ready(m.flow) && SM.Step(m, HANDED[k]) == m'
    requires ST.RunsTo(m', HANDED[k + 1..], DRIVING)
    ensures ST.RunsTo(m, HANDED[k..], DRIVING)
  {
    hide SM.Step;
    assert HANDED[k..][1..] == HANDED[k + 1..];
  }

  lemma EmptyRun(m: SM.Model)
    ensures ST.RunsTo(m, [], m)
  {
  }

  lemma MoveBefore(pending: seq<SM.Move>, x: int, move: SM.Move, k: nat)
    requires SM.Runnable(move) && SM.Displacement(move) == SM.Axes(move.events, 0, 0)
    requires k < |HANDED| && HANDED[k] == SM.Plan(move)
    requires ST.RunsTo(Waiting(pending + [move], x + move.events), HANDED[k + 1..], DRIVING)
    ensures ST.RunsTo(Waiting(pending, x), HANDED[k..], DRIVING)
  {
    hide SM.Step, SM.Runnable, ST.RunsTo;
    MovePlanned(pending, x, move);
    StepBefore(Waiting(pending, x), k, Waiting(pending + [move], x + move.events));
  }

  lemma SegmentRun()
    ensures ST.RunsTo(M3, HANDED[3..], DRIVING)
  {
    hide SM.Step, ST.RunsTo;
    FirstHanded();
    EmptyRun(DRIVING);
    assert HANDED[6..] == [];
    StepBefore(M5, 5, DRIVING);
    StepBefore(M4, 4, M5);
    StepBefore(M3, 3, M4);
  }

  lemma HandedByRun()
    ensures ST.RunsTo(SM.Start(SM.Axes(0, 0, 0)), HANDED, DRIVING)
  {
    hide SM.Step, ST.RunsTo;
    SegmentRun();
    assert SM.Start(SM.Axes(0, 0, 0)) == Waiting([], 0);
    hide Waiting;
    assert [LONG, SHORT] + [LONG] == [LONG, SHORT, LONG] && [LONG] + [SHORT] == [LONG, SHORT] && [] + [LONG] == [LONG];
    MoveBefore([LONG, SHORT], 81, LONG, 2);
    MoveBefore([LONG], 80, SHORT, 1);
    MoveBefore([], 0, LONG, 0);
    assert HANDED[0..] == HANDED;
  }

  const QUEUED := [Along(1, 196.0, 196.0), Along(80, 196.0, 196.0)]

  /** Braking from 14 mm/min through the single step, down to 11 mm/min. */
  const BRAKING := Profile(Decel, 0.0, 14.0, 14.0, 11.0, 0.0, 0.0)

  const BRAKED := BRAKING.(currentSpeed := 11.0)

  /** The single step is in hand when the hold begins. */
  const BEFORE :=
    Status(QUEUED, HELD, [161, 0, 0], 100, 100, true, false, 14.0, DRIVING, BRAKING,
           1.0, 80.0, 1.25 / 80.0, false, false, false)

  /** It is finished: the next block still has the entry speed it was planned with. */
  const AFTER :=
    BEFORE.(moves := QUEUED[1..], plan := HELD.(q := HELD.q[1..], planned := 0), loaded := false, speed := 11.0,
            model := SM.Step(DRIVING, SM.Push(1, 0, 1000)), profile := BRAKED, stepsRemaining := 0.0)

  /** The hold has ended, and the plan is redone. */
  const REPLANNED := AFTER.(plan := Step(AFTER.plan, Reinitialize), rejoined := true)

  lemma BeforePlanned()
    ensures Planned(BEFORE)
  {
    hide Sound, RunsTo, RatesKept;
    HeldByRun();
    EveryRunSound(Plan([], 0, false), EVENTS, HELD);
    QueuedRates();
    assert Gained(3000.0, 1.0 / 80.0) == 75.0 && Gained(3000.0, 1.0) == 6000.0;
  }

  lemma QueuedRates()
    ensures RatesKept(QUEUED, 100, 100)
  {
    assert NominalSpeed(QUEUED[0], 100, 100) == 14.0 && NominalSpeed(QUEUED[1], 100, 100) == 14.0;
    hide NominalSpeed;
    assert Square(14.0) == 196.0;
  }

  lemma BeforeAccounted()
    ensures StepsAccounted(BEFORE)
  {
    assert MovesOf(QUEUED) == [SHORT, LONG];
    assert [SHORT, LONG][1..] == [LONG];
    assert SM.Runnable(SHORT) && SM.Runnable(LONG);
    hide MovesOf;
    assert Times(80.0, 1.0 / 80.0) == 1.0 && Times(80.0, 1.25 / 80.0) == 1.25;
    CeilWhole(1);
  }

  lemma BeforeJoined()
    ensures SpeedsJoined(BEFORE)
  {
    hide NominalSpeed;
    assert Square(14.0) == 196.0 && Square(11.0) == 121.0;
    var t := LegOf(BEFORE);
    forall x ensures SpeedSqrAt(BRAKING, t.acceleration, x) == t.entrySqr - Gained(t.acceleration, t.millimeters - x) {
      assert Gained(3000.0, x) == 6000.0 * x;
    }
  }

  lemma BeforeRunning()
    ensures Running(BEFORE)
  {
    hide Planned, StepsAccounted, SpeedsJoined;
    BeforePlanned();
    BeforeAccounted();
    BeforeJoined();
  }

  lemma LastSegment()
    ensures Cut(BRAKING, BRAKED, 3000.0, 1.0 / 80.0, 0.0, 0.0)
  {
  }

  /** LEFT SLOWER: planner and driver have each come by a run of their own (`HeldByRun`,
      `HandedByRun`) to a joint state in the middle of a hold; the segment that finishes the
      block leaves it at 11 mm/min, and when the plan is redone the next is still entered at 14. */
  lemma LeftSlower()
    ensures Running(BEFORE) && Cut(BRAKING, BRAKED, 3000.0, 1.0 / 80.0, 0.0, 0.0)
    ensures Joined(AFTER) && !Continuous(AFTER)
    ensures Joined(REPLANNED) && REPLANNED.speed == 11.0 && NextEntry(REPLANNED.plan.q) == Square(14.0)
  {
    hide Running, Cut, Joined, Continuous, Step, SM.Step;
    BeforeRunning();
    LastSegment();
    Finished();
    Replanned();
  }

  lemma Finished()
    requires Running(BEFORE) && Cut(BRAKING, BRAKED, 3000.0, 1.0 / 80.0, 0.0, 0.0)
    ensures Joined(AFTER) && !Continuous(AFTER)
  {
    hide Running, Cut, Joined, Continuous;
    FinishKeeps(BEFORE, AFTER, BRAKED, 1, 0.0);
    FinishContinuousIff(BEFORE, AFTER, BRAKED, 0.0);
  }

  lemma Replanned()
    requires Joined(AFTER)
    ensures Joined(REPLANNED) && NextEntry(REPLANNED.plan.q) == Square(14.0)
  {
    hide Joined, SM.Step;
    CycleStopKeeps(AFTER, REPLANNED);
  }
}
