/** How planner, velocity profile and stepper driver fit together while blocks are executed:
    the relation that `st_prep_buffer` keeps between them, as facts about values. */
module Stepping {
  import opened NutsBolts
  import opened Kinematics
  import opened PlanSpec
  import opened PlanRuns
  import opened PlannerRing
  import opened PlannerQueue
  import opened PlannerInvariant
  import opened VelocityProfile
  import opened SegmentBuilder
  import opened ProfileTheorems
  import opened StepCount
  import SM = StepModel
  import P = Planner

  /** The Bresenham data of a planner block. */
  function MoveOf(b: PlanBlock): SM.Move {
    if |b.steps| == N_AXIS == |b.negative| then
      SM.Move(SM.Axes(b.steps[0], b.steps[1], b.steps[2]), b.stepEventCount,
              SM.Axes(b.negative[0], b.negative[1], b.negative[2]))
    else SM.NoMove
  }

  function MovesOf(q: seq<PlanBlock>): (r: seq<SM.Move>)
    ensures |r| == |q|
  {
    seq(|q|, i requires 0 <= i < |q| => MoveOf(q[i]))
  }

  /** A block with something to do. */
  predicate Sized(b: PlanBlock) {
    b.acceleration > 0.0 && b.millimeters > 0.0 && b.stepEventCount > 0 && SM.Runnable(MoveOf(b))
  }

  ghost predicate AllSized(q: seq<PlanBlock>) {
    forall i :: 0 <= i < |q| ==> Sized(q[i])
  }

  /** Planner, generator and driver at one moment. */
  datatype Status = Status(
    moves: seq<PlanBlock>,       // the planner's queue
    plan: Plan,                  // its plan, the executing block carrying its present speed
    position: seq<int>,          // pl.position
    feedOverride: int,
    rapidOverride: int,
    loaded: bool,                // pl_block != NULL
    recalculate: bool,           // PREP_FLAG_RECALCULATE
    speed: real,                 // prep.current_speed
    model: SM.Model,             // the driver
    profile: Profile,
    stepsRemaining: real,
    stepPerMm: real,
    reqMmIncrement: real,
    endMotion: bool,             // STEP_CONTROL_END_MOTION
    decelOverride: bool,         // PREP_FLAG_DECEL_OVERRIDE
    rejoined: bool)              // the plan was reinitialised between two blocks

  /** The block at the tail has been taken up, and not all of it is cut into segments. */
  predicate Started(s: Status) {
    s.loaded || s.recalculate
  }

  /** The planner's own invariant, as far as it matters here. */
  ghost predicate Planned(s: Status) {
    && |s.plan.q| == |s.moves| && Sound(s.plan)
    && (forall k :: 0 <= k < |s.moves| ==> s.plan.q[k].gain == Gain(s.moves[k]))
    && (forall k :: 0 <= k < |s.moves| ==> s.plan.q[k].limit == s.moves[k].maxEntry)
    && RatesKept(s.moves, s.feedOverride, s.rapidOverride)
  }

  /** Every step of every queued block is either still to be cut into segments, or in the driver. */
  ghost predicate StepsAccounted(s: Status) {
    && |s.position| == N_AXIS && s.model.target == SM.Axes(s.position[0], s.position[1], s.position[2])
    && AllSized(s.moves)
    && if Started(s) then
         && s.moves != [] && s.model.pending == MovesOf(s.moves)[1..]
         && InSteps(s.moves[0].millimeters, s.stepsRemaining, s.stepPerMm, s.reqMmIncrement, s.model.flow.remaining)
       else s.model.pending == MovesOf(s.moves) && s.model.flow.remaining == 0
  }

  /** What the executing block's profile is computed from. */
  function LegOf(s: Status): Leg
    requires s.moves != [] && s.plan.q != []
  {
    Leg(s.moves[0].acceleration, s.moves[0].millimeters, Square(s.speed), ExitSqr(s.plan.q, 0),
           NominalSpeed(s.moves[0], s.feedOverride, s.rapidOverride))
  }

  /** The speed the queue is entered at next, once the executing block is left. */
  function NextEntry(q: seq<Junction>): real {
    if q == [] then 0.0 else q[0].entry
  }

  ghost predicate ProfileFits(s: Status) {
    && s.moves != [] && s.plan.q != []
    && if s.plan.holding then Brakes(s.profile, LegOf(s)) else IsFastest(s.profile, LegOf(s))
  }

  /** The profile in use is the fastest way through the executing block, or brakes in a hold;
      between two blocks, the last one was left at the speed at which the next is entered. */
  ghost predicate SpeedsJoined(s: Status) {
    && s.profile.currentSpeed == s.speed >= 0.0 && s.profile.exitSpeed >= 0.0
    && (Started(s) ==> s.plan.q != [] && s.plan.q[0].entry == Square(s.speed))
    && (s.loaded && !s.endMotion ==> ProfileFits(s))
    && (s.loaded ==> !s.recalculate)
    && (Started(s) ==> !s.rejoined)
    && (s.loaded && s.endMotion ==> s.plan.holding)
    && (s.endMotion ==> s.speed == 0.0)
    && (!Started(s) ==> s.profile.exitSpeed == s.speed)
    && (s.loaded && s.decelOverride ==> !s.plan.holding)
    && (!Started(s) ==>
          && Square(s.profile.exitSpeed) <= NextEntry(s.plan.q)
          && (s.decelOverride || (!s.plan.holding && !s.rejoined) ==>
              Square(s.profile.exitSpeed) == NextEntry(s.plan.q)))
  }

  ghost predicate Joined(s: Status) {
    StepsAccounted(s) && SpeedsJoined(s)
  }

  /** The planner's guarantees are what the profile computation asks for. */
  lemma LegIsPlannable(s: Status)
    requires Planned(s) && s.moves != [] && AllSized(s.moves)
    requires s.plan.q[0].entry == Square(s.speed)
    ensures Moving(LegOf(s)) && (!s.plan.holding ==> Plannable(LegOf(s)))
    ensures Square(s.speed) <= ExitSqr(s.plan.q, 0) + Gained(s.moves[0].acceleration, s.moves[0].millimeters)
  {
    SquareSign(s.speed);
    SquareSign(NominalSpeed(s.moves[0], s.feedOverride, s.rapidOverride));
    hide Square, NominalSpeed, Gained, Pinned;
    assert Sized(s.moves[0]) && s.plan.q[0].gain == Gain(s.moves[0]);
    if |s.moves| > 1 {
      assert Physical(s.plan.q[1]) && s.plan.q[1].entry <= s.plan.q[1].limit == s.moves[1].maxEntry;
    }
  }

  // ---------------------------------------------------------------------------
  // What each operation keeps
  // ---------------------------------------------------------------------------

  lemma SameMovesFacts(q: seq<PlanBlock>, r: seq<PlanBlock>)
    requires SameMoves(q, r)
    ensures MovesOf(q) == MovesOf(r)
    ensures AllSized(r) ==> AllSized(q)
    ensures q != [] ==> q[0].acceleration == r[0].acceleration && q[0].millimeters == r[0].millimeters
    ensures forall f, g :: q != [] ==> NominalSpeed(q[0], f, g) == NominalSpeed(r[0], f, g)
  {
    forall i | 0 <= i < |q| ensures MoveOf(q[i]) == MoveOf(r[i]) && (Sized(r[i]) ==> Sized(q[i])) {
      assert SameMove(q[i], r[i]);
    }
    if q != [] {
      assert SameMove(q[0], r[0]);
      forall f, g ensures NominalSpeed(q[0], f, g) == NominalSpeed(r[0], f, g) {
        SameMoveSameNominal(q[0], r[0], f, g);
      }
    }
  }

  /** Queueing a block changes nothing for the executing one, unless it is taken back. */
  lemma AppendFacts(p: Plan, limit: real, gain: real)
    requires Allowed(p, Append(limit, gain)) && (p.q != [] ==> p.planned < |p.q|)
    ensures var q' := Step(p, Append(limit, gain)).q;
            && q' != [] && q'[0].entry == NextEntry(p.q)
            && (p.planned > 0 && p.q != [] ==> ExitSqr(q', 0) == ExitSqr(p.q, 0))
    ensures Step(p, Append(limit, gain)).holding == p.holding
  {
    hide Forward, PlannedAt;
  }

  lemma AppendSpeeds(s: Status, s': Status, b: PlanBlock)
    requires SpeedsJoined(s) && |s.plan.q| == |s.moves|
    requires SameMoves(s'.moves, s.moves + [b])
    requires Allowed(s.plan, Append(b.maxEntry, Gain(b))) && (s.plan.q != [] ==> s.plan.planned < |s.plan.q|)
    requires s'.plan == Step(s.plan, Append(b.maxEntry, Gain(b)))
    requires s'.loaded == (s.loaded && s.plan.planned > 0)
             && s'.recalculate == (s.recalculate || (s.loaded && !s'.loaded))
    requires s' == s.(moves := s'.moves, plan := s'.plan, loaded := s'.loaded, recalculate := s'.recalculate,
                      position := s'.position, model := s'.model)
    ensures SpeedsJoined(s')
  {
    hide Square, Gain, Brakes, IsFastest, Step, NominalSpeed;
    AppendFacts(s.plan, b.maxEntry, Gain(b));
    SameMovesFacts(s'.moves, s.moves + [b]);
    hide MovesOf, AllSized, SameMoves;
    if s'.loaded && !s'.endMotion {
      assert LegOf(s') == LegOf(s);
    }
  }

  lemma AppendSteps(s: Status, s': Status, b: PlanBlock)
    requires StepsAccounted(s) && Sized(b)
    requires SameMoves(s'.moves, s.moves + [b]) && P.DescribesMove(b, s.position, s'.position)
    requires Started(s') == Started(s)
    requires SM.Ready(s.model.flow) && s'.model == SM.Step(s.model, SM.Plan(MoveOf(b)))
    requires s' == s.(moves := s'.moves, plan := s'.plan, loaded := s'.loaded, recalculate := s'.recalculate,
                      position := s'.position, model := s'.model)
    ensures StepsAccounted(s')
  {
    hide InSteps, Sized, SameMoves;
    assert MovesOf(s.moves + [b]) == MovesOf(s.moves) + [MoveOf(b)];
    forall i | 0 <= i < |s.moves + [b]| ensures Sized((s.moves + [b])[i]) {
    }
    SameMovesFacts(s'.moves, s.moves + [b]);
    assert forall i :: 0 <= i < N_AXIS ==> P.SignedSteps(b, i) == s'.position[i] - s.position[i];
    hide MovesOf, AllSized;
  }

  lemma HoldKeeps(s: Status, s': Status)
    requires Joined(s) && |s.plan.q| == |s.moves| && |s'.plan.q| == |s'.moves|
    requires SameMoves(s'.moves, s.moves) && s'.plan == s.plan.(holding := true)
    requires !s'.loaded && s'.recalculate == (s.recalculate || s.loaded)
    requires s' == s.(moves := s'.moves, plan := s'.plan, loaded := false, recalculate := s'.recalculate)
    ensures Joined(s')
  {
    hide Square, Brakes, IsFastest, InSteps, NominalSpeed;
    SameMovesFacts(s'.moves, s.moves);
    hide MovesOf, AllSized, SameMoves;
  }

  /** After a hold, or at the end of a cycle. */
  lemma CycleStopKeeps(s: Status, s': Status)
    requires Joined(s) && |s.plan.q| == |s.moves| && |s'.plan.q| == |s'.moves|
    requires SameMoves(s'.moves, s.moves) && !s'.plan.holding
    requires s.moves != [] ==> s.plan.planned < |s.plan.q| && s'.plan == Step(s.plan, Reinitialize)
    requires !s'.loaded && s'.recalculate == (s.recalculate || s.loaded)
    requires s' == s.(moves := s'.moves, plan := s'.plan, loaded := false, recalculate := s'.recalculate,
                      rejoined := s.rejoined || !Started(s))
    ensures Joined(s')
  {
    hide Square, Brakes, IsFastest, InSteps, NominalSpeed, Forward, PlannedAt;
    SameMovesFacts(s'.moves, s.moves);
    hide MovesOf, AllSized, SameMoves;
  }

  /** At the end of a hold, and whenever nothing is queued, the generator is at rest. */
  lemma EndsAtRest(s: Status)
    requires Joined(s) && |s.plan.q| == |s.moves| && (s.endMotion || s.moves == [])
    ensures s.speed == 0.0
  {
    hide StepsAccounted, ProfileFits;
    SquareSign(s.profile.exitSpeed);
  }

  /** The next block is entered at the speed at which the last one was left. */
  ghost predicate Continuous(s: Status) {
    Square(s.speed) == NextEntry(s.plan.q)
  }

  /** Inside a block, and with nothing queued, there is nothing to compare. */
  lemma StartedContinuous(s: Status)
    requires Joined(s) && |s.plan.q| == |s.moves| && (Started(s) || s.moves == [])
    ensures Continuous(s)
  {
    hide StepsAccounted, ProfileFits;
    SquareSign(s.profile.exitSpeed);
  }

  /** BETWEEN TWO BLOCKS the speed is continuous, in or out of a hold, unless the plan has been redone
      there in a hold; and redoing it there makes or breaks nothing: the next block keeps the entry
      speed it was planned with, also if a hold has left the last one slower. */
  lemma ReplannedBetween(s: Status, s': Status)
    requires Joined(s) && |s.plan.q| == |s.moves| && !Started(s) && s.moves != []
    requires s.plan.planned < |s.plan.q| && s'.plan == Step(s.plan, Reinitialize) && s'.speed == s.speed
    ensures Continuous(s') <==> Continuous(s)
    ensures s.decelOverride || (!s.plan.holding && !s.rejoined) ==> Continuous(s)
    ensures Square(s.speed) <= NextEntry(s.plan.q)
  {
    hide StepsAccounted, ProfileFits, Square;
  }

  /** What the driver does with a tick is no concern of planner or generator. */
  lemma TickKeeps(s: Status, s': Status)
    requires Joined(s) && SM.Ready(s.model.flow) && s' == s.(model := SM.Step(s.model, SM.Tick))
    ensures Joined(s')
  {
    hide Square, Brakes, IsFastest, InSteps, NominalSpeed, MovesOf, AllSized, SM.Pulse, SM.Begin, SM.Reset;
    TickFrame(s.model);
  }

  lemma TickFrame(m: SM.Model)
    requires SM.Ready(m.flow)
    ensures var m' := SM.Step(m, SM.Tick);
            m'.pending == m.pending && m'.target == m.target && m'.flow.remaining == m.flow.remaining
  {
  }

  lemma ResumeKeeps(s: Status, s': Status)
    requires Joined(s) && !s.plan.holding && s' == s.(endMotion := false)
    ensures Joined(s')
  {
  }

  /** The block at the tail is in the stepper module's hands, its profile still to be computed. */
  ghost predicate TakenUp(s: Status) {
    && StepsAccounted(s) && s.loaded && !s.recalculate && !s.endMotion && !s.decelOverride && !s.rejoined
    && s.profile.currentSpeed == s.speed >= 0.0
    && s.plan.q != [] && s.plan.q[0].entry == Square(s.speed)
  }

  /** The speed at which a block is taken up may be taken as its entry speed. */
  lemma TakeUpAllowed(s: Status, speed: real)
    requires Planned(s) && s.moves != [] && 0.0 <= Square(speed) <= s.plan.q[0].entry
    requires s.plan.holding || Square(speed) == s.plan.q[0].entry
    ensures Allowed(s.plan, PlanRuns.Travel(Square(speed), s.plan.q[0].gain))
  {
    hide Square, Pinned;
    assert Physical(s.plan.q[0]);
  }

  lemma RetakeKeeps(s: Status, s': Status)
    requires Joined(s) && |s.plan.q| == |s.moves| && !s.loaded && s.recalculate && !s.endMotion
    requires SameMoves(s'.moves, s.moves)
    requires s'.plan == s.plan.(q := s.plan.q[0 := s.plan.q[0].(entry := Square(s.speed), gain := s.plan.q[0].gain)])
    requires s' == s.(moves := s'.moves, plan := s'.plan, loaded := true, recalculate := false, decelOverride := false)
    ensures TakenUp(s')
  {
    hide Square, Brakes, IsFastest, InSteps, NominalSpeed;
    SameMovesFacts(s'.moves, s.moves);
    hide MovesOf, AllSized, SameMoves;
  }

  lemma LoadKeeps(s: Status, s': Status)
    requires Joined(s) && |s.plan.q| == |s.moves| && !Started(s) && s.moves != [] && !s.endMotion
    requires SM.Ready(s.model.flow)
    requires s.model.pending != [] && s.model.flow.remaining == 0 && s'.model == SM.Step(s.model, SM.Load)
    requires SameMoves(s'.moves, s.moves) && s'.speed >= 0.0
    requires s'.plan == s.plan.(q := s.plan.q[0 := s.plan.q[0].(entry := Square(s'.speed), gain := s.plan.q[0].gain)])
    requires s' == s.(moves := s'.moves, plan := s'.plan, loaded := true, recalculate := false, speed := s'.speed,
                      model := s'.model, profile := s.profile.(currentSpeed := s'.speed),
                      stepsRemaining := s.moves[0].stepEventCount as real,
                      stepPerMm := s'.stepPerMm, reqMmIncrement := s'.reqMmIncrement,
                      decelOverride := false, rejoined := false)
    requires s'.stepPerMm == s'.stepsRemaining / s.moves[0].millimeters
    requires s'.stepPerMm != 0.0 ==> s'.reqMmIncrement == REQ_MM_INCREMENT_SCALAR / s'.stepPerMm
    ensures TakenUp(s')
  {
    hide Square, NominalSpeed;
    SameMovesFacts(s'.moves, s.moves);
    assert Sized(s.moves[0]) && MovesOf(s.moves)[0] == MoveOf(s.moves[0]);
    NewBlockInSteps(s.moves[0].stepEventCount, s.moves[0].millimeters);
    hide InSteps, MovesOf, AllSized, SameMoves, SpeedsJoined;
    PositiveRate(s.moves[0].stepEventCount, s.moves[0].millimeters);
    assert s'.model.flow.remaining == s.moves[0].stepEventCount;
  }

  /** The steps of the first block have been loaded. */
  ghost predicate Loaded(s: Status, s': Status) {
    && s.moves != [] && s.moves[0].millimeters > 0.0
    && SM.Ready(s.model.flow) && s.model.pending != [] && s.model.flow.remaining == 0
    && s' == s.(model := SM.Step(s.model, SM.Load), stepsRemaining := s.moves[0].stepEventCount as real,
                stepPerMm := s'.stepPerMm, reqMmIncrement := s'.reqMmIncrement)
    && s'.stepPerMm == s'.stepsRemaining / s.moves[0].millimeters
    && (s'.stepPerMm != 0.0 ==> s'.reqMmIncrement == REQ_MM_INCREMENT_SCALAR / s'.stepPerMm)
  }

  lemma PositiveRate(events: nat, mm: real)
    requires events > 0 && mm > 0.0
    ensures events as real / mm > 0.0
  {
    DivisionPositive(events as real, mm);
  }

  lemma ProfileKeeps(s: Status, p: Profile, recalculate: bool)
    requires TakenUp(s) && Planned(s) && p.currentSpeed == s.profile.currentSpeed
    requires if s.plan.holding then Brakes(p, LegOf(s)) else IsFastest(p, LegOf(s))
    requires recalculate ==> !s.plan.holding
    ensures Joined(s.(profile := p, decelOverride := recalculate))
  {
    hide Square, InSteps, NominalSpeed, MovesOf, AllSized, SpeedSqrAt, Fastest;
    var s' := s.(profile := p, decelOverride := recalculate);
    assert LegOf(s') == LegOf(s);
  }

  // ---------------------------------------------------------------------------
  // Cutting a segment
  // ---------------------------------------------------------------------------

  ghost predicate Running(s: Status) {
    Joined(s) && Planned(s) && s.loaded && !s.endMotion
  }

  lemma CutReady(s: Status)
    requires Running(s)
    ensures s.moves != [] && s.plan.q != [] && Sized(s.moves[0])
    ensures Moving(LegOf(s)) && (!s.plan.holding ==> Plannable(LegOf(s)))
    ensures var b := s.moves[0];
            && WellShaped(s.profile, b.acceleration, b.millimeters)
            && s.profile.currentSpeed >= 0.0 && s.reqMmIncrement > 0.0
            && Square(s.profile.currentSpeed) == SpeedSqrAt(s.profile, b.acceleration, b.millimeters)
  {
    hide Square, NominalSpeed, InSteps;
    LegIsPlannable(s);
    var t := LegOf(s);
    hide Planned, WellShaped;
    assert s.reqMmIncrement > 0.0 by {
      assert InSteps(s.moves[0].millimeters, s.stepsRemaining, s.stepPerMm, s.reqMmIncrement, s.model.flow.remaining);
      IncrementPositive(s.moves[0].millimeters, s.stepsRemaining, s.stepPerMm, s.reqMmIncrement,
                        s.model.flow.remaining);
    }
    hide StepsAccounted;
    if s.plan.holding {
      GainedSum(t.acceleration, t.millimeters, t.millimeters);
    } else {
      FastestEnds(t);
      hide Fastest, SpeedSqrAt;
    }
  }

  lemma IncrementPositive(mm: real, stepsRemaining: real, stepPerMm: real, reqMmIncrement: real, remaining: nat)
    requires InSteps(mm, stepsRemaining, stepPerMm, reqMmIncrement, remaining)
    ensures reqMmIncrement > 0.0
  {
  }

  /** The distance by which a segment must come nearer the end of its block. */
  function MinimumMm(mm: real, reqMmIncrement: real): real {
    if mm - reqMmIncrement < 0.0 then 0.0 else mm - reqMmIncrement
  }

  /** What a segment does to the speed is allowed by the plan, and the profile goes on fitting. */
  lemma CutLeads(s: Status, p: Profile, mm: real, minimumMm: real)
    requires Running(s) && s.moves != []
    requires Cut(s.profile, p, s.moves[0].acceleration, s.moves[0].millimeters, mm, minimumMm)
    ensures s.plan.q != [] && 0.0 <= mm <= s.moves[0].millimeters && p.currentSpeed >= 0.0
    ensures Allowed(s.plan, PlanRuns.Travel(Square(p.currentSpeed), Gained(s.moves[0].acceleration, mm)))
    ensures var t' := LegOf(s).(millimeters := mm, entrySqr := Square(p.currentSpeed));
            mm > p.mmComplete ==> if s.plan.holding then Brakes(p, t') else IsFastest(p, t')
    ensures mm == p.mmComplete > 0.0 ==> s.plan.holding && p.currentSpeed == 0.0
    ensures mm == p.mmComplete == 0.0 ==>
              && p.exitSpeed == p.currentSpeed && Square(p.exitSpeed) <= ExitSqr(s.plan.q, 0)
              && (!s.plan.holding ==> Square(p.exitSpeed) == ExitSqr(s.plan.q, 0))
  {
    hide Square, Gained, NominalSpeed, InSteps, Fastest, SpeedSqrAt, Sound, RatesKept, Sized, AllSized, MovesOf,
         Agrees;
    CutReady(s);
    LegIsPlannable(s);
    var t := LegOf(s);
    if s.plan.holding {
      SegmentKeepsBraking(s.profile, p, t, mm, minimumMm);
    } else {
      SegmentKeepsFastest(s.profile, p, t, mm, minimumMm);
      FastestStep(t, mm, t.millimeters);
      FastestEnds(t);
    }
    SquareSign(p.currentSpeed);
    GainedMonotonic(t.acceleration, mm, t.millimeters);
    GainedMonotonic(t.acceleration, 0.0, mm);
    GainedSum(t.acceleration, t.millimeters, mm);
    assert s.plan.q[0].gain == Gain(s.moves[0]);
  }

  /** A segment holds at least one step, unless it is the end of a hold; and what is left of
      the block's steps is what is left of its length. */
  lemma CutCounts(s: Status, mm: real)
    requires Running(s) && s.moves != [] && 0.0 <= mm <= s.moves[0].millimeters
    ensures var last, left := Ceil(s.stepsRemaining), Ceil(Times(s.stepPerMm, mm));
            && last == s.model.flow.remaining && 0 <= left <= last
            && InSteps(mm, left as real, s.stepPerMm, s.reqMmIncrement, left)
            && (mm == 0.0 || mm <= MinimumMm(s.moves[0].millimeters, s.reqMmIncrement) ==> left < last)
            && (mm == 0.0 ==> left == 0)
  {
    assert Sized(s.moves[0]);
    CeilWhole(s.model.flow.remaining);
    SegmentHasStep(s.stepPerMm, s.reqMmIncrement, s.moves[0].millimeters, mm);
    hide Ceil, Times, SpeedsJoined, Planned, MovesOf;
  }

  /** `n` step events, perhaps none, have been handed to the driver. */
  ghost predicate Handed(m: SM.Model, m': SM.Model, n: nat) {
    && n <= m.flow.remaining
    && m'.pending == m.pending && m'.target == m.target && m'.flow.remaining == m.flow.remaining - n
  }

  lemma PushHands(m: SM.Model, n: nat, level: nat, period: nat)
    requires SM.Ready(m.flow) && 0 < n <= m.flow.remaining && level <= SM.MAX_AMASS_LEVEL
    ensures Handed(m, SM.Step(m, SM.Push(n, level, period)), n)
  {
  }

  /** The executing block is `mm` from its end now, and moves at the profile's speed. */
  ghost predicate Advanced(s: Status, s': Status, p: Profile, mm: real, n: nat) {
    && s.moves != [] && |s.plan.q| == |s.moves|
    && s'.moves == s.moves[0 := s.moves[0].(millimeters := mm)]
    && s'.plan == s.plan.(q := s.plan.q[0 := s.plan.q[0].(entry := Square(p.currentSpeed),
                                                         gain := Gained(s.moves[0].acceleration, mm))])
    && Handed(s.model, s'.model, n)
    && s' == s.(moves := s'.moves, plan := s'.plan, speed := p.currentSpeed, model := s'.model, profile := p,
                stepsRemaining := s'.stepsRemaining, endMotion := s'.endMotion)
    && s'.stepsRemaining == s'.model.flow.remaining as real
    && InSteps(mm, s'.stepsRemaining, s.stepPerMm, s.reqMmIncrement, s'.model.flow.remaining)
  }

  lemma AdvancedSteps(s: Status, s': Status, p: Profile, mm: real, n: nat)
    requires StepsAccounted(s) && s.loaded && Advanced(s, s', p, mm, n) && mm > 0.0
    ensures StepsAccounted(s')
  {
    hide InSteps, Square, Gained;
    assert MovesOf(s'.moves)[1..] == MovesOf(s.moves)[1..];
    forall i | 0 <= i < |s'.moves| ensures Sized(s'.moves[i]) {
      assert Sized(s.moves[i]);
    }
    hide MovesOf, AllSized;
  }

  /** A segment in the middle of the profile, or at the end of a hold in the middle of a block. */
  lemma AdvanceKeeps(s: Status, s': Status, p: Profile, mm: real, n: nat, minimumMm: real)
    requires Running(s) && Advanced(s, s', p, mm, n) && mm > 0.0
    requires Cut(s.profile, p, s.moves[0].acceleration, s.moves[0].millimeters, mm, minimumMm)
    requires s'.endMotion == (mm == p.mmComplete)
    ensures Joined(s')
  {
    CutLeads(s, p, mm, minimumMm);
    AdvancedSteps(s, s', p, mm, n);
    hide InSteps, Square, Gained, StepsAccounted, Brakes, IsFastest, NominalSpeed, WellShaped, SpeedSqrAt, Agrees,
         Sound, RatesKept;
    AdvancedLeg(s, s', p, mm, n);
    assert p.exitSpeed == s.profile.exitSpeed;
  }

  lemma AdvancedLeg(s: Status, s': Status, p: Profile, mm: real, n: nat)
    requires Advanced(s, s', p, mm, n)
    ensures s'.plan.q != [] && LegOf(s') == LegOf(s).(millimeters := mm, entrySqr := Square(p.currentSpeed))
  {
    hide InSteps, Square, Gained;
    NominalIgnoresDistance(s.moves[0], s'.moves[0], s.feedOverride, s.rapidOverride);
    hide NominalSpeed;
  }

  /** The end of a hold leaves less than a step to execute: nothing is handed to the driver. */
  lemma BailKeeps(s: Status, s': Status, p: Profile, mm: real, minimumMm: real)
    requires Running(s) && s.moves != [] && mm == p.mmComplete > 0.0
    requires Cut(s.profile, p, s.moves[0].acceleration, s.moves[0].millimeters, mm, minimumMm)
    requires |s.plan.q| == |s.moves| && s'.moves == s.moves
    requires s'.plan == s.plan.(q := s.plan.q[0 := s.plan.q[0].(entry := Square(p.currentSpeed),
                                                                gain := s.plan.q[0].gain)])
    requires s' == s.(plan := s'.plan, speed := p.currentSpeed, profile := p, endMotion := true)
    ensures Joined(s')
  {
    CutLeads(s, p, mm, minimumMm);
    hide InSteps, Square, Gained, Brakes, IsFastest, NominalSpeed, WellShaped, SpeedSqrAt, Agrees, Sound, RatesKept,
         MovesOf, AllSized;
    assert p.exitSpeed == s.profile.exitSpeed;
  }

  /** The segment ends its block: every step of it has been handed to the driver, and it is left
      at the speed at which the next block is entered. */
  lemma FinishKeeps(s: Status, s': Status, p: Profile, n: nat, minimumMm: real)
    requires Running(s) && s.moves != [] && |s.plan.q| == |s.moves| && p.mmComplete == 0.0
    requires Cut(s.profile, p, s.moves[0].acceleration, s.moves[0].millimeters, 0.0, minimumMm)
    requires Handed(s.model, s'.model, n) && n == s.model.flow.remaining
    requires s'.moves == s.moves[1..] && s'.plan.q == s.plan.q[1..] && s'.plan.holding == s.plan.holding
    requires s' == s.(moves := s'.moves, plan := s'.plan, loaded := false, speed := p.currentSpeed, model := s'.model,
                      profile := p, stepsRemaining := s'.stepsRemaining)
    ensures Joined(s')
  {
    CutLeads(s, p, 0.0, minimumMm);
    hide InSteps, Square, Gained, Brakes, IsFastest, NominalSpeed, WellShaped, SpeedSqrAt, Agrees, Planned;
    FinishSteps(s, s', n);
    hide StepsAccounted;
  }

  /** Braking at its acceleration the executing block would end where it is planned to, or it
      does not brake for a hold at all. */
  ghost predicate LeavesAsPlanned(s: Status) {
    s.plan.q != [] && (s.plan.holding ==> s.plan.q[0].entry == ExitSqr(s.plan.q, 0) + s.plan.q[0].gain)
  }

  /** A BLOCK FINISHED is left at the speed at which the next is entered, exactly unless it was
      finished in a hold and had not been planned to brake all the way. */
  lemma FinishContinuousIff(s: Status, s': Status, p: Profile, minimumMm: real)
    requires Running(s) && s.moves != [] && |s.plan.q| == |s.moves| && p.mmComplete == 0.0
    requires Cut(s.profile, p, s.moves[0].acceleration, s.moves[0].millimeters, 0.0, minimumMm)
    requires s'.plan.q == s.plan.q[1..] && s'.speed == p.currentSpeed
    ensures Continuous(s') <==> LeavesAsPlanned(s)
  {
    CutLeads(s, p, 0.0, minimumMm);
    CutReady(s);
    hide InSteps, Square, Gained, IsFastest, NominalSpeed, WellShaped, SpeedSqrAt, Agrees, Sound, RatesKept,
         StepsAccounted, Cut;
    assert s.plan.q[0].gain == Gain(s.moves[0]);
    if s.plan.holding {
      SegmentKeepsBraking(s.profile, p, LegOf(s), 0.0, minimumMm);
    }
  }

  lemma FinishSteps(s: Status, s': Status, n: nat)
    requires StepsAccounted(s) && s.loaded && s.moves != [] && !Started(s')
    requires Handed(s.model, s'.model, n) && n == s.model.flow.remaining
    requires s'.moves == s.moves[1..] && s'.position == s.position
    ensures StepsAccounted(s')
  {
    hide InSteps;
    assert MovesOf(s.moves[1..]) == MovesOf(s.moves)[1..];
    forall i | 0 <= i < |s'.moves| ensures Sized(s'.moves[i]) {
      assert Sized(s.moves[i + 1]);
    }
    hide MovesOf, AllSized;
  }
}
