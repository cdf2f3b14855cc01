/** A homing cycle (`limits_go_home`): how its passes follow one another, and what it does to the
    machine position. */
module Homing {
  import opened NutsBolts
  import opened LineGeometry

  const N_HOMING_LOCATE_CYCLE := 1
  const HOMING_AXIS_SEARCH_SCALAR := 1.5
  const HOMING_AXIS_LOCATE_SCALAR := 5.0
  const PASSES := 2 * N_HOMING_LOCATE_CYCLE + 2

  datatype Settings = Settings(
    stepsPerMm: seq<real>,
    maxTravel: seq<real>,     // stored as negative values
    pulloff: real,
    seekRate: real,
    feedRate: real,
    dirMask: set<nat>,        // axes whose switch is at the negative end
    root: real -> real)

  ghost predicate WellSet(s: Settings) {
    |s.stepsPerMm| == |s.maxTravel| == N_AXIS && forall i :: 0 <= i < N_AXIS ==> s.stepsPerMm[i] > 0.0
  }

  /** What the waiting loop of a pass finds each time round: the limit switches that are engaged,
      and the real-time flags. */
  datatype Sample = Sample(limits: set<nat>, cycleStop: bool, reset: bool, door: bool)

  datatype Alarm = FailReset | FailDoor | FailPulloff | FailApproach

  /** How a pass, or the whole cycle, ends; unfinished if there is nothing more to find. */
  datatype Ending = Completed | Alarmed(alarm: Alarm) | Unfinished

  /** One planned homing motion. */
  datatype Pass = Pass(approach: bool, target: seq<real>, rate: real)

  predicate Flagged(s: Sample) {
    s.cycleStop || s.reset || s.door
  }

  /** The alarm a sample raises; a later check overrides an earlier one. */
  function AlarmOf(approach: bool, cycle: set<nat>, s: Sample): Ending {
    if approach && s.cycleStop then Alarmed(FailApproach)
    else if !approach && s.limits * cycle != {} then Alarmed(FailPulloff)
    else if s.door then Alarmed(FailDoor)
    else if s.reset then Alarmed(FailReset)
    else Completed
  }

  /** What each alarm means: the approach has ended before all switches were met, a switch is still engaged
      after the pull-off, or the cycle was broken off; and a pull-off that just ends raises none. */
  lemma AlarmMeans(approach: bool, cycle: set<nat>, s: Sample)
    requires Flagged(s)
    ensures var e := AlarmOf(approach, cycle, s);
            && (e == Alarmed(FailApproach) <==> approach && s.cycleStop)
            && (e == Alarmed(FailPulloff) <==> !approach && !(forall axis :: axis in cycle ==> axis !in s.limits))
            && (e == Completed ==> !approach && s.cycleStop)
            && (e == Alarmed(FailDoor) ==> s.door) && (e == Alarmed(FailReset) ==> s.reset && !s.door)
            && (s.door || s.reset ==> e.Alarmed?)
  {
    assert s.limits * cycle == {} <==> forall axis :: axis in cycle ==> axis !in s.limits by {
      forall axis | axis in cycle && s.limits * cycle == {} ensures axis !in s.limits {
        assert axis !in s.limits * cycle;
      }
    }
  }

  /** An approach is complete when every axis of the cycle has met its switch undisturbed, a
      pull-off when the motion has ended clear of them. */
  ghost predicate PassComplete(approach: bool, cycle: set<nat>, samples: seq<Sample>, from: nat, to: nat) {
    && from < to <= |samples|
    && if approach then
         && (forall k :: from <= k < to ==> !Flagged(samples[k]))
         && (forall axis :: axis in cycle ==> Met(axis, samples, from, to))
       else
         var last := samples[to - 1];
         last.cycleStop && !last.reset && !last.door && last.limits * cycle == {}
  }

  ghost predicate Met(axis: nat, samples: seq<Sample>, from: nat, to: nat) {
    exists k :: from <= k < to <= |samples| && axis in samples[k].limits
  }

  lemma MetBefore(axis: nat, samples: seq<Sample>, from: nat, to: nat, later: nat)
    requires Met(axis, samples, from, to) && to <= later <= |samples|
    ensures Met(axis, samples, from, later)
  {
  }

  /** The waiting loop of a pass: axes are locked as they meet their switches. */
  method WaitForPass(approach: bool, cycle: set<nat>, samples: seq<Sample>, from: nat)
    returns (ending: Ending, next: nat)
    requires cycle != {} && from <= |samples|
    ensures from <= next <= |samples|
    ensures ending == Completed ==> PassComplete(approach, cycle, samples, from, next)
    ensures ending.Alarmed? ==>
              from < next && Flagged(samples[next - 1]) && ending == AlarmOf(approach, cycle, samples[next - 1])
  {
    var axislock := cycle;
    next := from;
    while next < |samples|
      invariant from <= next <= |samples| && axislock <= cycle && axislock != {}
      invariant approach ==> forall k :: from <= k < next ==> !Flagged(samples[k])
      invariant forall axis :: axis in cycle - axislock ==> Met(axis, samples, from, next)
      invariant !approach ==> axislock == cycle
    {
      var s := samples[next];
      next := next + 1;
      ghost var before := axislock;
      if approach {
        axislock := axislock - s.limits;
      }
      forall axis | axis in cycle - axislock ensures Met(axis, samples, from, next) {
        if axis in before {
          assert axis in samples[next - 1].limits;
        } else {
          MetBefore(axis, samples, from, next - 1, next);
        }
      }
      if Flagged(s) {
        return AlarmOf(approach, cycle, s), next;
      }
      if axislock == {} {
        return Completed, next;
      }
    }
    ending := Unfinished;
  }

  // ---------------------------------------------------------------------------
  // The passes
  // ---------------------------------------------------------------------------

  /** How far a pass goes: first far enough to find the switches, then off them, and from then
      on a little more than back. */
  function TravelOf(s: Settings, cycle: set<nat>, k: nat): real
    requires WellSet(s)
  {
    if k == 0 then Search(s, cycle, N_AXIS)
    else if k % 2 == 1 then s.pulloff
    else s.pulloff * HOMING_AXIS_LOCATE_SCALAR
  }

  function Search(s: Settings, cycle: set<nat>, n: nat): real
    requires WellSet(s) && n <= N_AXIS
  {
    if n == 0 then 0.0
    else if n - 1 in cycle && -HOMING_AXIS_SEARCH_SCALAR * s.maxTravel[n - 1] > Search(s, cycle, n - 1)
    then -HOMING_AXIS_SEARCH_SCALAR * s.maxTravel[n - 1]
    else Search(s, cycle, n - 1)
  }

  /** The search reaches beyond the travel of every axis of the cycle. */
  lemma {:induction false} SearchReaches(s: Settings, cycle: set<nat>, n: nat, i: nat)
    requires WellSet(s) && i < n <= N_AXIS && i in cycle
    ensures Search(s, cycle, n) >= -HOMING_AXIS_SEARCH_SCALAR * s.maxTravel[i]
  {
    if i < n - 1 {
      SearchReaches(s, cycle, n - 1, i);
    }
  }

  function RateOf(s: Settings, k: nat): real {
    if k % 2 == 0 && k > 0 then s.feedRate else s.seekRate
  }

  /** How many of the first `n` axes are in the cycle: so many move at the homing rate at once. */
  function Active(cycle: set<nat>, n: nat): nat {
    if n == 0 then 0 else Active(cycle, n - 1) + if n - 1 in cycle then 1 else 0
  }

  function PassRate(s: Settings, cycle: set<nat>, k: nat): real {
    RateOf(s, k) * s.root(Active(cycle, N_AXIS) as real)
  }

  /** Towards the switch or away from it. */
  function Signed(s: Settings, axis: nat, approach: bool, travel: real): real {
    if (axis in s.dirMask) == approach then -travel else travel
  }

  /** The `k`th pass is planned: approaches and pull-offs alternate, the axes of the cycle go the
      pass's way, and no other axis moves. */
  ghost predicate PassPlanned(s: Settings, cycle: set<nat>, pass: Pass, k: nat, position: seq<int>)
    requires WellSet(s) && |position| == N_AXIS
  {
    && pass.approach == (k % 2 == 0) && |pass.target| == N_AXIS && pass.rate == PassRate(s, cycle, k)
    && (forall i :: 0 <= i < N_AXIS && i in cycle ==>
        pass.target[i] == Signed(s, i, pass.approach, TravelOf(s, cycle, k)))
    && (forall i :: 0 <= i < N_AXIS && i !in cycle ==> TargetStep(pass.target[i], s.stepsPerMm[i]) == position[i])
  }

  /** An axis that is planned to stay where it is takes no step: the conversion of its position to
      millimetres and back is exact. */
  lemma ConvertedBack(steps: int, stepsPerMm: real)
    requires stepsPerMm > 0.0
    ensures TargetStep(steps as real / stepsPerMm, stepsPerMm) == steps
  {
    assert steps as real / stepsPerMm * stepsPerMm == steps as real;
    LRoundWhole(steps);
  }

  /** Where an axis gets to: some part of the way, from `from` to `to`. */
  function PartWay(from: int, to: int, part: int): (p: int)
    ensures from <= p <= to || to <= p <= from
  {
    if from <= to then (if part < from then from else if part > to then to else part)
    else (if part > from then from else if part < to then to else part)
  }

  function HomedPosition(s: Settings, i: nat): int
    requires WellSet(s) && i < N_AXIS
  {
    TargetStep(if i in s.dirMask then s.maxTravel[i] + s.pulloff else -s.pulloff, s.stepsPerMm[i])
  }

  /** Step `n` is at `x` millimetres, to half a step. */
  predicate IsAt(n: int, x: real, stepsPerMm: real) {
    -0.5 <= n as real - x * stepsPerMm <= 0.5
  }

  /** The axis stands the pull-off inside that end of its travel at which its switch has been found: machine
      zero if the first approach went towards positive, the far end if it went towards negative. */
  predicate StandsInside(s: Settings, first: Pass, position: int, i: nat)
    requires WellSet(s) && i < N_AXIS
  {
    && |first.target| == N_AXIS
    && (first.target[i] > 0.0 ==> IsAt(position, -s.pulloff, s.stepsPerMm[i]))
    && (first.target[i] < 0.0 ==> IsAt(position, s.maxTravel[i] + s.pulloff, s.stepsPerMm[i]))
  }

  lemma HomedStands(s: Settings, cycle: set<nat>, first: Pass, i: nat)
    requires WellSet(s) && i < N_AXIS && i in cycle && first.approach && Headed(s, cycle, first, 0)
    ensures StandsInside(s, first, HomedPosition(s, i), i)
    ensures s.maxTravel[i] < 0.0 ==> first.target[i] != 0.0
  {
    SearchReaches(s, cycle, N_AXIS, i);
    SearchPositive(s, cycle, N_AXIS);
    assert TravelOf(s, cycle, 0) == Search(s, cycle, N_AXIS);
    hide Search, TargetStep, PassRate, IsAt;
    TargetNear(s.maxTravel[i] + s.pulloff, s.stepsPerMm[i]);
    TargetNear(-s.pulloff, s.stepsPerMm[i]);
  }

  /** ... which is within the travel whenever the pull-off is. */
  lemma HomedInside(s: Settings, i: nat)
    requires WellSet(s) && i < N_AXIS && 0.0 <= s.pulloff <= -s.maxTravel[i]
    ensures TargetStep(s.maxTravel[i], s.stepsPerMm[i]) <= HomedPosition(s, i) <= 0
  {
    hide TargetStep;
    ScaledBetween(s.maxTravel[i], if i in s.dirMask then s.maxTravel[i] + s.pulloff else -s.pulloff, s.stepsPerMm[i]);
  }

  lemma ScaledBetween(m: real, x: real, k: real)
    requires m <= x <= 0.0 && k > 0.0
    ensures TargetStep(m, k) <= TargetStep(x, k) <= 0
  {
    hide LRound;
    ScaledOrder(m, x, k);
    ScaledOrder(x, 0.0, k);
  }

  lemma ScaledOrder(x: real, y: real, k: real)
    requires x <= y && k > 0.0
    ensures LRound(x * k) <= LRound(y * k) && LRound(0.0 * k) == 0
  {
    LRoundWhole(0);
    assert 0.0 * k == 0.0;
    NonnegativeProduct(y - x, k);
    LRoundMonotonic(x * k, y * k);
  }

  lemma TargetNear(x: real, k: real)
    ensures IsAt(TargetStep(x, k), x, k)
  {
  }

  lemma {:induction false} SearchPositive(s: Settings, cycle: set<nat>, n: nat)
    requires WellSet(s) && n <= N_AXIS
    ensures Search(s, cycle, n) >= 0.0
  {
    if n > 0 {
      SearchPositive(s, cycle, n - 1);
    }
  }

  /** Where the passes go. The first approach leads half as far again as the travel of any axis of the cycle, in
      the direction set for the axis; a pull-off leads back by the pull-off, and the next approach five times
      that the same way. Only that approach is at the feed rate; and since the axes move at once, the rate
      along the line is greater by the root of their number. */
  lemma PassesLead(s: Settings, cycle: set<nat>, pass: Pass, k: nat, i: nat)
    requires WellSet(s) && k < PASSES && Headed(s, cycle, pass, k) && pass.approach == (k % 2 == 0)
    requires i < N_AXIS && i in cycle
    ensures k == 0 && i in s.dirMask ==>
              forall j :: 0 <= j < N_AXIS && j in cycle ==> pass.target[i] <= 1.5 * s.maxTravel[j]
    ensures k == 0 && i !in s.dirMask ==>
              forall j :: 0 <= j < N_AXIS && j in cycle ==> pass.target[i] >= -1.5 * s.maxTravel[j]
    ensures k == 1 || k == 3 ==> pass.target[i] == if i in s.dirMask then s.pulloff else -s.pulloff
    ensures k == 2 ==> pass.target[i] == if i in s.dirMask then -5.0 * s.pulloff else 5.0 * s.pulloff
    ensures pass.rate == (if k == 2 then s.feedRate else s.seekRate)
                         * s.root(|set j | 0 <= j < N_AXIS && j in cycle| as real)
  {
    forall j | 0 <= j < N_AXIS && j in cycle ensures TravelOf(s, cycle, 0) >= -1.5 * s.maxTravel[j] {
      SearchReaches(s, cycle, N_AXIS, j);
    }
    ActiveCounts(cycle, N_AXIS);
    hide Search, Active;
  }

  lemma {:induction false} ActiveCounts(cycle: set<nat>, n: nat)
    ensures Active(cycle, n) == |set j | 0 <= j < n && j in cycle|
  {
    var inFirst := set j | 0 <= j < n && j in cycle;
    if n == 0 {
      assert inFirst == {};
    } else {
      ActiveCounts(cycle, n - 1);
      var before := set j | 0 <= j < n - 1 && j in cycle;
      assert inFirst == if n - 1 in cycle then before + {n - 1} else before;
    }
  }

  /** A pass is set up: the axes of the cycle start from zero, and the motion is planned. */
  method PlanPass(s: Settings, cycle: set<nat>, k: nat, approach: bool, maxTravel: real, homingRate: real,
                  sysPosition: array<int>) returns (pass: Pass)
    requires WellSet(s) && sysPosition.Length == N_AXIS && approach == (k % 2 == 0)
    requires maxTravel == TravelOf(s, cycle, k) && homingRate == RateOf(s, k)
    modifies sysPosition
    ensures forall i :: 0 <= i < N_AXIS && i !in cycle ==> sysPosition[i] == old(sysPosition[i])
    ensures PassPlanned(s, cycle, pass, k, sysPosition[..])
  {
    hide TargetStep;
    var target := [0.0, 0.0, 0.0];
    var nActiveAxis := 0;
    for idx := 0 to N_AXIS
      invariant |target| == N_AXIS && nActiveAxis == Active(cycle, idx)
      invariant forall i :: 0 <= i < N_AXIS && i !in cycle ==> sysPosition[i] == old(sysPosition[i])
      invariant forall i :: 0 <= i < idx && i in cycle ==> target[i] == Signed(s, i, approach, maxTravel)
      invariant forall i :: 0 <= i < idx && i !in cycle ==> TargetStep(target[i], s.stepsPerMm[i]) == sysPosition[i]
    {
      target := target[idx := sysPosition[idx] as real / s.stepsPerMm[idx]];
      ConvertedBack(sysPosition[idx], s.stepsPerMm[idx]);
      if idx in cycle {
        nActiveAxis := nActiveAxis + 1;
        sysPosition[idx] := 0;
        if idx in s.dirMask {
          target := target[idx := if approach then -maxTravel else maxTravel];
        } else {
          target := target[idx := if approach then maxTravel else -maxTravel];
        }
      }
    }
    pass := Pass(approach, target, homingRate * s.root(nActiveAxis as real));
  }

  /** The motion of a pass takes every axis some part of its way. */
  method MovePart(s: Settings, pass: Pass, sysPosition: array<int>, k: nat, parts: (nat, nat) -> int)
    requires WellSet(s) && sysPosition.Length == |pass.target| == N_AXIS
    modifies sysPosition
    ensures forall i :: 0 <= i < N_AXIS ==>
              sysPosition[i] == PartWay(old(sysPosition[i]), TargetStep(pass.target[i], s.stepsPerMm[i]), parts(k, i))
  {
    hide TargetStep, PartWay;
    for idx := 0 to N_AXIS
      invariant forall i :: 0 <= i < idx ==>
                  sysPosition[i] == PartWay(old(sysPosition[i]), TargetStep(pass.target[i], s.stepsPerMm[i]),
                                            parts(k, i))
      invariant forall i :: idx <= i < N_AXIS ==> sysPosition[i] == old(sysPosition[i])
    {
      sysPosition[idx] := PartWay(sysPosition[idx], TargetStep(pass.target[idx], s.stepsPerMm[idx]), parts(k, idx));
    }
  }

  /** The passes so far, each planned and each ended as it should. */
  ghost predicate PassesDone(s: Settings, cycle: set<nat>, passes: seq<Pass>, samples: seq<Sample>, ends: seq<nat>)
    requires WellSet(s)
  {
    && |ends| == |passes| + 1 && ends[0] == 0
    && (forall k :: 0 <= k < |passes| ==> passes[k].approach == (k % 2 == 0))
    && (forall k :: 0 <= k < |passes| ==> Headed(s, cycle, passes[k], k))
    && (forall k :: 0 <= k < |passes| ==> PassComplete(passes[k].approach, cycle, samples, ends[k], ends[k + 1]))
  }

  ghost predicate Headed(s: Settings, cycle: set<nat>, pass: Pass, k: nat)
    requires WellSet(s)
  {
    && |pass.target| == N_AXIS && pass.rate == PassRate(s, cycle, k)
    && forall i :: 0 <= i < N_AXIS && i in cycle ==>
       pass.target[i] == Signed(s, i, pass.approach, TravelOf(s, cycle, k))
  }

  /** The axes outside the cycle are planned to stay, and do. */
  lemma OthersStay(s: Settings, cycle: set<nat>, pass: Pass, k: nat, position: seq<int>)
    requires WellSet(s) && |position| == N_AXIS && PassPlanned(s, cycle, pass, k, position)
    ensures Headed(s, cycle, pass, k) && pass.approach == (k % 2 == 0) && |pass.target| == N_AXIS
    ensures forall i, part :: 0 <= i < N_AXIS && i !in cycle ==>
              PartWay(position[i], TargetStep(pass.target[i], s.stepsPerMm[i]), part) == position[i]
  {
    hide TargetStep, TravelOf, Signed, PassRate;
  }

  lemma Travels(s: Settings, cycle: set<nat>, k: nat)
    requires WellSet(s)
    ensures TravelOf(s, cycle, 0) == Search(s, cycle, N_AXIS)
    ensures k > 0 ==> TravelOf(s, cycle, k) == if k % 2 == 0 then s.pulloff * HOMING_AXIS_LOCATE_SCALAR else s.pulloff
  {
    hide Search;
  }

  lemma OnePassMore(s: Settings, cycle: set<nat>, passes: seq<Pass>, samples: seq<Sample>, ends: seq<nat>, pass: Pass,
                    next: nat)
    requires WellSet(s) && PassesDone(s, cycle, passes, samples, ends)
    requires pass.approach == (|passes| % 2 == 0) && Headed(s, cycle, pass, |passes|)
    requires PassComplete(pass.approach, cycle, samples, ends[|passes|], next)
    ensures PassesDone(s, cycle, passes + [pass], samples, ends + [next])
  {
    hide Headed, PassComplete, PassRate;
    var ps, es := passes + [pass], ends + [next];
    forall k | 0 <= k < |ps|
      ensures ps[k].approach == (k % 2 == 0) && Headed(s, cycle, ps[k], k)
              && PassComplete(ps[k].approach, cycle, samples, es[k], es[k + 1])
    {
      if k < |passes| {
        assert PassComplete(passes[k].approach, cycle, samples, ends[k], ends[k + 1]);
      }
    }
  }

  /** The machine position of the axes of the cycle is set; no other is touched. */
  method SetHomed(s: Settings, cycle: set<nat>, sysPosition: array<int>)
    requires WellSet(s) && sysPosition.Length == N_AXIS
    modifies sysPosition
    ensures forall i :: 0 <= i < N_AXIS ==>
              sysPosition[i] == if i in cycle then HomedPosition(s, i) else old(sysPosition[i])
  {
    hide HomedPosition;
    for idx := 0 to N_AXIS
      invariant forall i :: 0 <= i < idx ==>
                  sysPosition[i] == if i in cycle then HomedPosition(s, i) else old(sysPosition[i])
      invariant forall i :: idx <= i < N_AXIS ==> sysPosition[i] == old(sysPosition[i])
    {
      if idx in cycle {
        sysPosition[idx] := HomedPosition(s, idx);
      }
    }
  }

  /** `limits_go_home`. A cycle that raises no alarm makes exactly 2N + 2 passes, approach and
      pull-off in turn, ends on a pull-off clear of the switches, and leaves the axes of the cycle
      at their homed position. No other axis's position ever changes. */
  method GoHome(s: Settings, cycle: set<nat>, samples: seq<Sample>, sysPosition: array<int>, parts: (nat, nat) -> int)
    returns (ending: Ending, passes: seq<Pass>, ends: seq<nat>)
    requires WellSet(s) && cycle != {} && sysPosition.Length == N_AXIS
    modifies sysPosition
    ensures forall i :: 0 <= i < N_AXIS && i !in cycle ==> sysPosition[i] == old(sysPosition[i])
    ensures PassesDone(s, cycle, passes, samples, ends)
    ensures if ending == Completed then |passes| == PASSES else |passes| < PASSES
    ensures ending == Completed ==>
              forall i :: 0 <= i < N_AXIS && i in cycle ==>
                StandsInside(s, passes[0], sysPosition[i], i)
                && (0.0 <= s.pulloff <= -s.maxTravel[i] ==>
                      TargetStep(s.maxTravel[i], s.stepsPerMm[i]) <= sysPosition[i] <= 0)
  {
    hide StandsInside, PassComplete, Headed, TargetStep, TravelOf, Signed, HomedPosition, Search, PartWay,
         PassPlanned, PassRate;
    passes, ends := [], [0];
    var nCycle := 2 * N_HOMING_LOCATE_CYCLE + 1;
    var approach, maxTravel, homingRate := true, Search(s, cycle, N_AXIS), s.seekRate;
    Travels(s, cycle, 0);
    var next := 0;
    while true
      invariant 0 <= nCycle == PASSES - 1 - |passes| && next <= |samples| && approach == (|passes| % 2 == 0)
      invariant PassesDone(s, cycle, passes, samples, ends) && ends[|passes|] == next
      invariant maxTravel == TravelOf(s, cycle, |passes|) && homingRate == RateOf(s, |passes|)
      invariant forall i :: 0 <= i < N_AXIS && i !in cycle ==> sysPosition[i] == old(sysPosition[i])
      decreases nCycle
    {
      var pass := PlanPass(s, cycle, |passes|, approach, maxTravel, homingRate, sysPosition);
      OthersStay(s, cycle, pass, |passes|, sysPosition[..]);
      MovePart(s, pass, sysPosition, |passes|, parts);
      var end;
      ending, end := WaitForPass(approach, cycle, samples, next);
      if ending != Completed {
        return;
      }
      OnePassMore(s, cycle, passes, samples, ends, pass, end);
      passes, ends, next := passes + [pass], ends + [end], end;
      approach := !approach;
      Travels(s, cycle, |passes|);
      if approach {
        maxTravel := s.pulloff * HOMING_AXIS_LOCATE_SCALAR;
        homingRate := s.feedRate;
      } else {
        maxTravel := s.pulloff;
        homingRate := s.seekRate;
      }
      if nCycle == 0 {
        break;
      }
      nCycle := nCycle - 1;
    }
    SetHomed(s, cycle, sysPosition);
    forall i | 0 <= i < N_AXIS && i in cycle
      ensures StandsInside(s, passes[0], HomedPosition(s, i), i)
      ensures 0.0 <= s.pulloff <= -s.maxTravel[i] ==>
                TargetStep(s.maxTravel[i], s.stepsPerMm[i]) <= HomedPosition(s, i) <= 0
    {
      HomedStands(s, cycle, passes[0], i);
      if 0.0 <= s.pulloff <= -s.maxTravel[i] {
        HomedInside(s, i);
      }
    }
  }
}
